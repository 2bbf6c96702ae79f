/** No work is stranded. In every run, whatever crashes, reclaims, expiries, aborts,
    purges and stale workers come between, a task whose payload exists is either waiting
    in a delayed set or has a live stream entry that no worker is about to discard. */
module Stranding {
  import opened Store
  import opened Protocol

  /** Where a task can wait. */
  datatype Place = Later(lane: nat) | Queued(lane: nat, sid: nat)

  ghost predicate InLane(l: Lane, id: Id, p: Place) {
    match p
    case Later(_) => id in l.delayed
    case Queued(_, sid) => sid in l.stream && l.stream[sid].id == id
  }

  ghost predicate At(db: Db, id: Id, p: Place) {
    p.lane < |db.lanes| && InLane(db.lanes[p.lane], id, p)
  }

  ghost predicate Discarding(s: Sys, tok: nat, p: Place) {
    && p.Queued? && tok in s.att && s.att[tok].pc.Missing?
    && s.att[tok].msg.lane == p.lane && s.att[tok].msg.sid == p.sid
  }

  ghost predicate Covers(s: Sys, id: Id, p: Place) {
    At(s.db, id, p) && forall tok :: !Discarding(s, tok, p)
  }

  ghost predicate Covered(s: Sys, id: Id) {
    exists p :: Covers(s, id, p)
  }

  /** An entry is delivered exactly when it is pending, so a live one is always either
      still to be read or there to be reclaimed; and every fire time is one the clock
      will reach. */
  ghost predicate LaneOk(l: Lane) {
    && l.last < l.next
    && (forall sid :: sid in l.stream ==> sid < l.next)
    && (forall sid :: sid in l.pending <==> sid in l.stream && sid <= l.last)
    && (forall id :: id in l.delayed ==> l.delayed[id] >= 0)
  }

  ghost predicate HeldIn(l: Lane, m: Msg) {
    && m.sid <= l.last
    && (m.sid in l.stream ==> l.stream[m.sid] == Item(m.id, m.time))
  }

  ghost predicate LanesOk(db: Db) {
    forall i :: 0 <= i < |db.lanes| ==> LaneOk(db.lanes[i])
  }

  ghost predicate HeldOk(s: Sys) {
    forall tok :: tok in s.att ==>
      && tok < s.nextTok
      && s.att[tok].msg.lane < |s.db.lanes|
      && HeldIn(s.db.lanes[s.att[tok].msg.lane], s.att[tok].msg)
  }

  ghost predicate Inv(s: Sys) {
    && LanesOk(s.db) && HeldOk(s)
    && forall id :: id in s.db.data ==> Covered(s, id)
  }

  // ----- how the parts carry over

  /** Replacing one lane keeps the shape, if the new one is well formed and still agrees
      with every message held from it. */
  lemma ShapeOfSetLane(s: Sys, s': Sys, i: nat, l: Lane)
    requires LanesOk(s.db) && HeldOk(s)
    requires i < |s.db.lanes| && s'.db.lanes == s.db.lanes[i := l]
    requires LaneOk(l) && forall m: Msg :: HeldIn(s.db.lanes[i], m) ==> HeldIn(l, m)
    requires HoldsNoMore(s, s')
    ensures LanesOk(s'.db) && HeldOk(s')
  {
    forall tok | tok in s'.att
      ensures HeldIn(s'.db.lanes[s'.att[tok].msg.lane], s'.att[tok].msg)
    {
      assert s'.att[tok].msg == s.att[tok].msg;
    }
  }

  ghost predicate HoldsNoMore(s: Sys, s': Sys) {
    && s'.nextTok >= s.nextTok
    && forall tok :: tok in s'.att ==> tok in s.att && s'.att[tok].msg == s.att[tok].msg
  }

  /** Whoever is discarding a message now was doing so before. */
  ghost predicate NoNewDiscard(s: Sys, s': Sys) {
    forall tok :: tok in s'.att && s'.att[tok].pc.Missing? ==> tok in s.att && s.att[tok] == s'.att[tok]
  }

  /** Every place of a task that still has a payload is still there. */
  ghost predicate KeepsPlaces(s: Sys, s': Sys, id: Id) {
    forall p :: At(s.db, id, p) && (forall tok :: !Discarding(s, tok, p)) ==> At(s'.db, id, p)
  }

  lemma StillCovered(s: Sys, s': Sys, id: Id)
    requires Covered(s, id) && KeepsPlaces(s, s', id) && NoNewDiscard(s, s')
    ensures Covered(s', id)
  {
    var p :| Covers(s, id, p);
    forall tok
      ensures !Discarding(s', tok, p)
    {
      assert !Discarding(s, tok, p);
    }
    assert Covers(s', id, p);
  }

  /** The lanes hold the same tasks as before. */
  ghost predicate SamePlaces(db: Db, db': Db) {
    && |db'.lanes| == |db.lanes|
    && forall i :: 0 <= i < |db.lanes| ==>
         && db'.lanes[i].stream == db.lanes[i].stream
         && db'.lanes[i].delayed == db.lanes[i].delayed
  }

  /** Steps that move no task: only what workers know, or other keys, change. */
  lemma QuietStep(s: Sys, s': Sys)
    requires Inv(s) && LanesOk(s'.db) && HeldOk(s')
    requires SamePlaces(s.db, s'.db)
    requires forall id :: id in s'.db.data ==> id in s.db.data
    requires NoNewDiscard(s, s')
    ensures Inv(s')
  {
    forall id | id in s'.db.data
      ensures Covered(s', id)
    {
      assert Covered(s, id);
      assert KeepsPlaces(s, s', id);
      StillCovered(s, s', id);
    }
  }

  // ----- one lane at a time

  /** What lane `l` holds of `id`, `l'` holds too. */
  ghost predicate Stays(l: Lane, l': Lane, id: Id) {
    && (id in l.delayed ==> id in l'.delayed)
    && forall sid :: sid in l.stream && l.stream[sid].id == id ==> sid in l'.stream && l'.stream[sid].id == id
  }

  /** A step that replaces lane `i` by `l`: each task with a payload must either be covered
      anew or keep its places. */
  lemma LaneStep(s: Sys, s': Sys, i: nat, l: Lane)
    requires Inv(s) && i < |s.db.lanes| && s'.db.lanes == s.db.lanes[i := l]
    requires LaneOk(l) && forall m: Msg :: HeldIn(s.db.lanes[i], m) ==> HeldIn(l, m)
    requires HoldsNoMore(s, s') && NoNewDiscard(s, s')
    requires forall id :: id in s'.db.data ==>
               Covered(s', id) || (id in s.db.data && (Stays(s.db.lanes[i], l, id) || KeepsPlaces(s, s', id)))
    ensures Inv(s')
  {
    ShapeOfSetLane(s, s', i, l);
    forall id | id in s'.db.data
      ensures Covered(s', id)
    {
      if !Covered(s', id) {
        assert KeepsPlaces(s, s', id);
        StillCovered(s, s', id);
      }
    }
  }

  lemma XAddOk(l: Lane, id: Id, time: int)
    requires LaneOk(l)
    ensures LaneOk(XAdd(l, id, time))
    ensures forall m: Msg :: HeldIn(l, m) ==> HeldIn(XAdd(l, id, time), m)
    ensures forall x :: Stays(l, XAdd(l, id, time), x)
  {
  }

  lemma XDropOk(l: Lane, sid: nat)
    requires LaneOk(l)
    ensures LaneOk(XDrop(l, sid))
    ensures forall m: Msg :: HeldIn(l, m) ==> HeldIn(XDrop(l, sid), m)
  {
  }

  /** Dropping a held entry takes a place away from its own task alone. */
  lemma DropTakesOwn(l: Lane, m: Msg, x: Id)
    requires HeldIn(l, m) && x != m.id
    ensures Stays(l, XDrop(l, m.sid), x)
  {
  }

  /** A freshly added entry is in nobody's hands. */
  lemma FreshEntryCovers(s: Sys, i: nat, sid: nat, id: Id)
    requires HeldOk(s) && i < |s.db.lanes|
    requires var l := s.db.lanes[i]; sid > l.last && sid in l.stream && l.stream[sid].id == id
    ensures Covered(s, id)
  {
    assert Covers(s, id, Queued(i, sid));
  }

  lemma LaterCovers(s: Sys, i: nat, id: Id)
    requires i < |s.db.lanes| && id in s.db.lanes[i].delayed
    ensures Covered(s, id)
  {
    assert Covers(s, id, Later(i));
  }

  /** Queueing `id` in lane `i`: what publish_task.lua and replay_dead.lua both end with. */
  lemma QueuedInv(s: Sys, s': Sys, i: nat, id: Id, time: int)
    requires Inv(s) && i < |s.db.lanes|
    requires s'.db.lanes == s.db.lanes[i := XAdd(s.db.lanes[i], id, time)]
    requires s'.att == s.att && s'.nextTok == s.nextTok
    requires forall x :: x in s'.db.data ==> x in s.db.data || x == id
    ensures Inv(s')
  {
    var l := s.db.lanes[i];
    XAddOk(l, id, time);
    ShapeOfSetLane(s, s', i, XAdd(l, id, time));
    FreshEntryCovers(s', i, l.next, id);
    LaneStep(s, s', i, XAdd(l, id, time));
  }

  // ----- the steps

  lemma EnqueueInv(s: Sys, lane: nat, id: Id, p: Payload, score: int, expire: int, now: int, reset: bool)
    requires Inv(s) && lane < |s.db.lanes|
    ensures Inv(Enqueued(s, lane, id, p, score, expire, now, reset))
  {
    var s', l := Enqueued(s, lane, id, p, score, expire, now, reset), s.db.lanes[lane];
    if id !in s.db.data {
      if score > 0 {
        LaterCovers(s', lane, id);
        LaneStep(s, s', lane, ZAdd(l, id, score));
      } else {
        QueuedInv(s, s', lane, id, now);
      }
    }
  }

  lemma ReplayInv(s: Sys, lane: nat, id: Id, p: Payload, now: int)
    requires Inv(s) && lane < |s.db.lanes|
    ensures Inv(Replayed(s, lane, id, p, now))
  {
    var s' := Replayed(s, lane, id, p, now);
    if id in s.db.dead && id !in s.db.data {
      QueuedInv(s, s', lane, id, now);
    } else {
      QuietStep(s, s');
    }
  }

  lemma PromoteOneInv(s: Sys, lane: nat, id: Id)
    requires Inv(s) && lane < |s.db.lanes| && id in s.db.lanes[lane].delayed
    ensures Inv(Put(s, lane, PromoteOne(s.db.lanes[lane], id)))
  {
    var l := s.db.lanes[lane];
    var l' := PromoteOne(l, id);
    var s' := Put(s, lane, l');
    assert LaneOk(ZRem(l, id));
    XAddOk(ZRem(l, id), id, l.delayed[id]);
    ShapeOfSetLane(s, s', lane, l');
    FreshEntryCovers(s', lane, l.next, id);
    assert forall x :: x != id ==> Stays(l, l', x);
    LaneStep(s, s', lane, l');
  }

  lemma {:induction false} PromoteInv(s: Sys, lane: nat, due: seq<Id>)
    requires Inv(s) && lane < |s.db.lanes| && Distinct(due)
    requires forall i :: 0 <= i < |due| ==> due[i] in s.db.lanes[lane].delayed
    ensures Inv(Promoted(s, lane, due))
    decreases |due|
  {
    if due == [] {
      assert Promoted(s, lane, due).db.lanes == s.db.lanes;
    } else {
      var l' := PromoteOne(s.db.lanes[lane], due[0]);
      PromoteOneInv(s, lane, due[0]);
      PromoteInv(Put(s, lane, l'), lane, due[1..]);
      assert Promoted(Put(s, lane, l'), lane, due[1..]).db.lanes == Promoted(s, lane, due).db.lanes;
    }
  }

  lemma ReadInv(s: Sys, w: Worker, lane: nat, sid: nat)
    requires Inv(s) && lane < |s.db.lanes| && IsHead(s.db.lanes[lane], sid)
    ensures Inv(Taken(s, w, lane, sid, Deliver(s.db.lanes[lane], sid, w)))
  {
    var l := s.db.lanes[lane];
    var s' := Taken(s, w, lane, sid, Deliver(l, sid, w));
    var bare := Put(s, lane, Deliver(l, sid, w));
    assert LaneOk(Deliver(l, sid, w));
    ShapeOfSetLane(s, bare, lane, Deliver(l, sid, w));
    QuietStep(s, s');
  }

  lemma ReclaimInv(s: Sys, w: Worker, lane: nat, sid: nat)
    requires Inv(s) && lane < |s.db.lanes| && sid in s.db.lanes[lane].pending
    ensures Inv(Taken(s, w, lane, sid, Reassign(s.db.lanes[lane], sid, w)))
  {
    var l := s.db.lanes[lane];
    var s' := Taken(s, w, lane, sid, Reassign(l, sid, w));
    var bare := Put(s, lane, Reassign(l, sid, w));
    assert LaneOk(Reassign(l, sid, w));
    ShapeOfSetLane(s, bare, lane, Reassign(l, sid, w));
    QuietStep(s, s');
  }

  lemma RenewInv(s: Sys, tok: nat)
    requires Inv(s) && HasTok(s, tok)
    ensures Inv(Renewed(s, tok))
  {
    var m := s.att[tok].msg;
    var l := s.db.lanes[m.lane];
    if m.sid in l.pending {
      var l' := Reassign(l, m.sid, s.att[tok].worker);
      assert LaneOk(l');
      ShapeOfSetLane(s, Put(s, m.lane, l'), m.lane, l');
      QuietStep(s, Put(s, m.lane, l'));
    }
  }

  lemma CompleteInv(s: Sys, tok: nat, keep: bool, now: int)
    requires Inv(s) && HasTok(s, tok) && s.att[tok].pc.Executed?
    ensures Inv(Completed(s, tok, keep, now))
  {
    var m := s.att[tok].msg;
    var l, s' := s.db.lanes[m.lane], Completed(s, tok, keep, now);
    XDropOk(l, m.sid);
    forall id | id in s'.db.data
      ensures Stays(l, XDrop(l, m.sid), id)
    {
      DropTakesOwn(l, m, id);
    }
    LaneStep(s, s', m.lane, XDrop(l, m.sid));
  }

  lemma DiscardInv(s: Sys, tok: nat)
    requires Inv(s) && HasTok(s, tok) && s.att[tok].pc.Missing?
    ensures Inv(Discarded(s, tok))
  {
    var m := s.att[tok].msg;
    var l, s' := s.db.lanes[m.lane], Discarded(s, tok);
    XDropOk(l, m.sid);
    forall id | id in s'.db.data
      ensures KeepsPlaces(s, s', id)
    {
      DiscardTakesNothing(s, s', tok, id);
    }
    LaneStep(s, s', m.lane, XDrop(l, m.sid));
  }

  /** The entry dropped is the one about to be discarded, so it covered nothing. */
  lemma DiscardTakesNothing(s: Sys, s': Sys, tok: nat, id: Id)
    requires HasTok(s, tok) && s.att[tok].pc.Missing?
    requires var m := s.att[tok].msg; s'.db.lanes == s.db.lanes[m.lane := XDrop(s.db.lanes[m.lane], m.sid)]
    ensures KeepsPlaces(s, s', id)
  {
    forall p | At(s.db, id, p) && (forall t :: !Discarding(s, t, p))
      ensures At(s'.db, id, p)
    {
      assert !Discarding(s, tok, p);
    }
  }

  lemma RetryInv(s: Sys, tok: nat, now: nat)
    requires Inv(s) && HasTok(s, tok) && s.att[tok].pc.Executed? && s.att[tok].pc.outcome.Retry?
    ensures Inv(Retried(s, tok, now))
  {
    var m, pc := s.att[tok].msg, s.att[tok].pc;
    var l, s' := s.db.lanes[m.lane], Retried(s, tok, now);
    var l' := ZAdd(XDrop(l, m.sid), m.id, FireAt(now, pc.tries, pc.outcome.delayMs));
    XDropOk(l, m.sid);
    FireAtNat(now, pc.tries, pc.outcome.delayMs);
    LaterCovers(s', m.lane, m.id);
    forall id | id in s'.db.data && id != m.id
      ensures Stays(l, l', id)
    {
      DropTakesOwn(l, m, id);
    }
    LaneStep(s, s', m.lane, l');
  }

  lemma ReleaseInv(s: Sys, tok: nat)
    requires Inv(s) && HasTok(s, tok)
    ensures Inv(Released(s, tok))
  {
    var m := s.att[tok].msg;
    var l, s' := s.db.lanes[m.lane], Released(s, tok);
    var added := XAdd(l, m.id, m.time);
    XAddOk(l, m.id, m.time);
    XDropOk(added, m.sid);
    ShapeOfSetLane(s, s', m.lane, XDrop(added, m.sid));
    FreshEntryCovers(s', m.lane, l.next, m.id);
    forall id | id in s'.db.data && id != m.id
      ensures Stays(l, XDrop(added, m.sid), id)
    {
      assert Stays(l, added, id);
      DropTakesOwn(added, m, id);
    }
    LaneStep(s, s', m.lane, XDrop(added, m.sid));
  }

  lemma DropScheduledInv(s: Sys, lane: nat, id: Id)
    requires Inv(s) && lane < |s.db.lanes|
    ensures Inv(s.(db := DropScheduled(s.db, lane, id)))
  {
    var l := s.db.lanes[lane];
    assert forall x :: x != id ==> Stays(l, ZRem(l, id), x);
    LaneStep(s, s.(db := DropScheduled(s.db, lane, id)), lane, ZRem(l, id));
  }

  lemma DropWaitingInv(s: Sys, lane: nat, sid: nat)
    requires Inv(s) && lane < |s.db.lanes|
    requires sid in s.db.lanes[lane].stream && sid > s.db.lanes[lane].last
    ensures Inv(s.(db := DropWaiting(s.db, lane, sid)))
  {
    var l := s.db.lanes[lane];
    var l' := l.(stream := l.stream - {sid});
    assert forall x :: x != l.stream[sid].id ==> Stays(l, l', x);
    LaneStep(s, s.(db := DropWaiting(s.db, lane, sid)), lane, l');
  }

  lemma {:induction false} PurgeInv(s: Sys, lane: nat, ids: seq<Id>, sids: seq<nat>)
    requires Inv(s) && lane < |s.db.lanes| && Distinct(sids)
    requires forall i :: 0 <= i < |sids| ==> sids[i] in s.db.lanes[lane].stream && sids[i] > s.db.lanes[lane].last
    ensures Inv(s.(db := Store.Purge(s.db, lane, ids, sids)))
    decreases |ids|, |sids|
  {
    if ids != [] {
      DropScheduledInv(s, lane, ids[0]);
      PurgeInv(s.(db := DropScheduled(s.db, lane, ids[0])), lane, ids[1..], sids);
    } else if sids != [] {
      DropWaitingInv(s, lane, sids[0]);
      PurgeInv(s.(db := DropWaiting(s.db, lane, sids[0])), lane, [], sids[1..]);
    }
  }

  /** Taking `id` out of every delayed set, with its payload. */
  lemma UnscheduleInv(s: Sys, s': Sys, id: Id)
    requires Inv(s) && s'.att == s.att && s'.nextTok == s.nextTok
    requires s'.db.lanes == Unschedule(s.db.lanes, id)
    requires forall x :: x in s'.db.data ==> x in s.db.data && x != id
    ensures Inv(s')
  {
    UnscheduledShape(s, s', id);
    assert NoNewDiscard(s, s');
    forall x | x in s'.db.data
      ensures Covered(s', x)
    {
      UnscheduleTakesOwn(s.db, s'.db, id, x);
      StillCovered(s, s', x);
    }
  }

  lemma UnscheduleTakesOwn(db: Db, db': Db, id: Id, x: Id)
    requires db'.lanes == Unschedule(db.lanes, id) && x != id
    ensures forall p :: At(db, x, p) ==> At(db', x, p)
  {
  }

  lemma UnscheduledShape(s: Sys, s': Sys, id: Id)
    requires LanesOk(s.db) && HeldOk(s) && s'.att == s.att && s'.nextTok == s.nextTok
    requires s'.db.lanes == Unschedule(s.db.lanes, id)
    ensures LanesOk(s'.db) && HeldOk(s')
  {
    forall i | 0 <= i < |s.db.lanes|
      ensures LaneOk(s'.db.lanes[i])
    {
      assert LaneOk(s.db.lanes[i]);
    }
  }

  lemma AbortInv(s: Sys, id: Id, keep: bool)
    requires Inv(s)
    ensures Inv(s.(db := Store.Abort(s.db, id, keep)))
  {
    var s' := s.(db := Store.Abort(s.db, id, keep));
    if id in s.db.data && id !in s.db.results && id !in s.db.running && Store.Scheduled(s.db, id) {
      UnscheduleInv(s, s', id);
    } else {
      QuietStep(s, s');
    }
  }

  lemma FetchInv(s: Sys, tok: nat)
    requires Inv(s) && HasTok(s, tok) && s.att[tok].pc.Marked?
    ensures Inv(PayloadFetched(s, tok))
  {
    var s' := PayloadFetched(s, tok);
    forall id | id in s'.db.data
      ensures Covered(s', id)
    {
      var p :| Covers(s, id, p);
      forall t
        ensures !Discarding(s', t, p)
      {
        // If this step found the payload missing, it is another task's.
        assert !Discarding(s, t, p);
      }
      assert Covers(s', id, p);
    }
  }

  /** A worker's own bookkeeping, and keys that are not places. */
  ghost predicate IsBookkeeping(a: Action) {
    a.Incr? || a.Mark? || a.Execute? || a.Abandon? || a.Crash?
  }

  ghost predicate IsOtherKey(a: Action) {
    a.DeleteDead? || a.ExpireData? || a.ExpireMark? || a.ExpireResult?
  }

  lemma BookkeepingEffect(reg: Registry, s: Sys, a: Action)
    requires Enabled(s, a) && IsBookkeeping(a)
    ensures var s' := Apply(reg, s, a);
            && s'.db.lanes == s.db.lanes && s'.db.data == s.db.data
            && HoldsNoMore(s, s') && NoNewDiscard(s, s')
  {
  }

  lemma BookkeepingInv(s: Sys, s': Sys)
    requires Inv(s) && HoldsNoMore(s, s') && NoNewDiscard(s, s')
    requires s'.db.lanes == s.db.lanes && s'.db.data == s.db.data
    ensures Inv(s')
  {
    SameLanesShape(s, s');
    QuietStep(s, s');
  }

  lemma SameLanesShape(s: Sys, s': Sys)
    requires LanesOk(s.db) && HeldOk(s)
    requires s'.db.lanes == s.db.lanes && HoldsNoMore(s, s')
    ensures LanesOk(s'.db) && HeldOk(s') && SamePlaces(s.db, s'.db)
  {
  }

  lemma OtherKeyInv(reg: Registry, s: Sys, a: Action)
    requires Inv(s) && Enabled(s, a) && IsOtherKey(a)
    ensures Inv(Apply(reg, s, a))
  {
    var s' := Apply(reg, s, a);
    SameLanesShape(s, s');
    QuietStep(s, s');
  }

  /** Every step keeps the invariant. */
  lemma StepInv(reg: Registry, s: Sys, a: Action)
    requires Inv(s) && Enabled(s, a)
    ensures Inv(Apply(reg, s, a))
  {
    if IsBookkeeping(a) {
      BookkeepingEffect(reg, s, a);
      BookkeepingInv(s, Apply(reg, s, a));
    } else if IsOtherKey(a) {
      OtherKeyInv(reg, s, a);
    } else if a.Enqueue? || a.Promote? || a.Abort? || a.Purge? || a.Replay? {
      ClientInv(reg, s, a);
    } else {
      WorkerInv(reg, s, a);
    }
  }

  lemma ClientInv(reg: Registry, s: Sys, a: Action)
    requires Inv(s) && Enabled(s, a)
    requires a.Enqueue? || a.Promote? || a.Abort? || a.Purge? || a.Replay?
    ensures Inv(Apply(reg, s, a))
  {
    match a
    case Enqueue(lane, id, p, score, expire, now, reset) => EnqueueInv(s, lane, id, p, score, expire, now, reset);
    case Promote(lane, now, due) => PromoteInv(s, lane, due);
    case Abort(id, keep) => AbortInv(s, id, keep);
    case Purge(lane, ids, sids) => PurgeInv(s, lane, ids, sids);
    case Replay(lane, id, p, now) => ReplayInv(s, lane, id, p, now);
  }

  lemma WorkerInv(reg: Registry, s: Sys, a: Action)
    requires Inv(s) && Enabled(s, a)
    requires a.Read? || a.Reclaim? || a.Renew? || a.Fetch? || a.Finish? || a.Release?
    ensures Inv(Apply(reg, s, a))
  {
    match a
    case Read(w, lane, sid) => ReadInv(s, w, lane, sid);
    case Reclaim(w, lane, sid) => ReclaimInv(s, w, lane, sid);
    case Renew(tok) => RenewInv(s, tok);
    case Fetch(tok) => FetchInv(s, tok);
    case Finish(tok, keep, now) => FinishInv(reg, s, tok, keep, now);
    case Release(tok) => ReleaseInv(s, tok);
  }

  lemma FinishInv(reg: Registry, s: Sys, tok: nat, keep: bool, now: int)
    requires Inv(s) && Enabled(s, Finish(tok, keep, now))
    ensures Inv(Apply(reg, s, Finish(tok, keep, now)))
  {
    if s.att[tok].pc.Missing? {
      DiscardInv(s, tok);
    } else if s.att[tok].pc.outcome.Retry? {
      RetryInv(s, tok, now);
    } else {
      CompleteInv(s, tok, keep, now);
    }
  }

  /** Every run from an empty queue keeps it. */
  lemma {:induction false} RunInv(reg: Registry, s: Sys, acts: seq<Action>)
    requires Inv(s) && CanRun(reg, s, acts)
    ensures Inv(Run(reg, s, acts))
    decreases |acts|
  {
    if acts != [] {
      StepInv(reg, s, acts[0]);
      RunInv(reg, Apply(reg, s, acts[0]), acts[1..]);
    }
  }

  lemma InitialInv(lanes: nat)
    ensures Inv(Initial(lanes))
  {
  }

  ghost predicate Reachable(reg: Registry, s: Sys) {
    exists lanes: nat, acts: seq<Action> :: CanRun(reg, Initial(lanes), acts) && s == Run(reg, Initial(lanes), acts)
  }

  lemma ReachableInv(reg: Registry, s: Sys)
    requires Reachable(reg, s)
    ensures Inv(s)
  {
    var lanes: nat, acts: seq<Action> :| CanRun(reg, Initial(lanes), acts) && s == Run(reg, Initial(lanes), acts);
    InitialInv(lanes);
    RunInv(reg, Initial(lanes), acts);
  }

  /** The theorem. */
  lemma NoTaskIsStranded(reg: Registry, s: Sys, id: Id)
    requires Reachable(reg, s) && id in s.db.data
    ensures exists p :: Covers(s, id, p)
                        && (p.Queued? ==> p.sid > s.db.lanes[p.lane].last || p.sid in s.db.lanes[p.lane].pending)
  {
    ReachableInv(reg, s);
    var p :| Covers(s, id, p);
    assert LaneOk(s.db.lanes[p.lane]);
  }
}
