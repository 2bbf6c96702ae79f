/** A payload as a token. Take one task: as long as no entry of it is reclaimed while someone
    still holds it, and it is not staged with an expiry, it is in exactly one place while its
    payload exists and nowhere otherwise, through crashes and the reclaims that follow them
    and whatever is done to other tasks. Each step does one of a few things to it, its
    `turns`; what is kept over runs is proved turn by turn. */
module Tokens {
  import opened Wrappers
  import opened Store
  import opened Protocol
  import opened Stranding

  function Spot(m: Msg): Place {
    Queued(m.lane, m.sid)
  }

  /** Not in any worker's hands: scheduled, or queued and not read. */
  ghost predicate Idle(db: Db, p: Place) {
    p.Later? || (p.lane < |db.lanes| && p.sid > db.lanes[p.lane].last)
  }

  ghost predicate OnlyAt(db: Db, id: Id, p: Place) {
    forall q :: At(db, id, q) ==> q == p
  }

  ghost predicate Nowhere(db: Db, id: Id) {
    forall q :: !At(db, id, q)
  }

  ghost predicate Has(s: Sys, tok: nat, id: Id) {
    tok in s.att && s.att[tok].msg.id == id
  }

  ghost predicate Unheld(s: Sys, id: Id) {
    forall tok :: !Has(s, tok, id)
  }

  ghost predicate TokenFor(s: Sys, id: Id) {
    && (forall p :: At(s.db, id, p) ==> id in s.db.data)
    && (forall p, q :: At(s.db, id, p) && At(s.db, id, q) ==> p == q)
    && (forall tok :: Has(s, tok, id) ==> !s.att[tok].pc.Missing? && At(s.db, id, Spot(s.att[tok].msg)))
    && (forall t, u :: Has(s, t, id) && Has(s, u, id) ==> t == u)
    && (id in s.db.data ==> !s.db.data[id].volatile)
  }

  ghost predicate TokenInv(s: Sys, id: Id) {
    Inv(s) && TokenFor(s, id)
  }

  /** The step reclaims an entry of `id`. */
  ghost predicate Reclaims(s: Sys, a: Action, id: Id) {
    && a.Reclaim? && a.lane < |s.db.lanes| && a.sid in s.db.lanes[a.lane].stream
    && s.db.lanes[a.lane].stream[a.sid].id == id
  }

  /** What keeps the payload of `id` a token: a reclaim of an entry of it takes only what
      nobody holds any more, and an enqueue of it with an expiry stages nothing. */
  ghost predicate Safe(s: Sys, a: Action, id: Id) {
    && (Reclaims(s, a, id) ==> forall tok :: tok in s.att ==> Spot(s.att[tok].msg) != Queued(a.lane, a.sid))
    && (a.Enqueue? && a.id == id ==> a.expire <= 0 || id in s.db.data)
  }

  // ----- who is where

  /** Nobody has a task that is idle somewhere, or one without a payload. */
  lemma IdleIsUnheld(s: Sys, id: Id, p: Place)
    requires TokenFor(s, id) && HeldOk(s) && At(s.db, id, p) && Idle(s.db, p)
    ensures OnlyAt(s.db, id, p) && Unheld(s, id)
  {
    forall tok
      ensures !Has(s, tok, id)
    {
      assert Has(s, tok, id) ==> At(s.db, id, Spot(s.att[tok].msg));
    }
  }

  lemma AbsentIsNowhere(s: Sys, id: Id)
    requires TokenFor(s, id) && id !in s.db.data
    ensures Nowhere(s.db, id) && Unheld(s, id)
  {
    forall tok
      ensures !Has(s, tok, id)
    {
      assert Has(s, tok, id) ==> At(s.db, id, Spot(s.att[tok].msg));
    }
  }

  /** A holder's entry is its task's only place. */
  lemma HolderAt(s: Sys, tok: nat, id: Id)
    requires TokenFor(s, id) && HeldOk(s) && Has(s, tok, id)
    ensures var m := s.att[tok].msg;
            && HasTok(s, tok) && At(s.db, id, Spot(m)) && OnlyAt(s.db, id, Spot(m)) && !Idle(s.db, Spot(m))
            && m.sid in s.db.lanes[m.lane].stream && s.db.lanes[m.lane].stream[m.sid].id == id
            && id in s.db.data && !s.att[tok].pc.Missing?
  {
    assert At(s.db, id, Spot(s.att[tok].msg));
  }

  // ----- what a step can do to one task

  /** The keys that go with the task, its marker apart, are as they were. */
  ghost predicate SameKeys(s: Sys, s': Sys, id: Id) {
    && (id in s'.db.data <==> id in s.db.data) && (id in s.db.data ==> s'.db.data[id] == s.db.data[id])
    && SameCount(s, s', id) && LogOf(s', id) == LogOf(s, id)
  }

  ghost predicate SameCount(s: Sys, s': Sys, id: Id) {
    (id in s'.db.retry <==> id in s.db.retry) && RetryOf(s'.db, id) == RetryOf(s.db, id)
  }

  ghost predicate SamePlacesOf(db: Db, db': Db, id: Id) {
    && (forall p :: At(db', id, p) <==> At(db, id, p))
    && (forall p :: At(db', id, p) && Idle(db', p) ==> Idle(db, p))
  }

  /** Nothing, but that its holder may be gone. A marker comes only onto a payload. */
  ghost predicate Untouched(s: Sys, s': Sys, id: Id) {
    && SameKeys(s, s', id) && SamePlacesOf(s.db, s'.db, id)
    && (id in s'.db.marks ==> id in s.db.marks || id in s.db.data)
    && (forall tok :: Has(s', tok, id) ==> Has(s, tok, id) && s'.att[tok] == s.att[tok])
  }

  /** It is in one place at most, in nobody's hands. */
  ghost predicate AtRest(s: Sys, id: Id) {
    && Unheld(s, id) && id in s.db.data && !s.db.data[id].volatile
    && exists p :: OnlyAt(s.db, id, p)
  }

  /** It gets a payload and a place, and its count starts over. */
  ghost predicate Staged(s: Sys, s': Sys, id: Id) {
    && id !in s.db.data && AtRest(s', id)
    && SameCount(s, s', id) && LogOf(s', id) == [] && (id in s'.db.marks ==> id in s.db.marks)
  }

  /** It moves from one idle place to another. */
  ghost predicate Resettled(s: Sys, s': Sys, id: Id) {
    && (exists p :: At(s.db, id, p) && Idle(s.db, p))
    && AtRest(s', id) && SameKeys(s, s', id) && (id in s'.db.marks ==> id in s.db.marks || id in s.db.data)
  }

  /** It goes, keys and all. */
  ghost predicate Dropped(s: Sys, s': Sys, id: Id) {
    && Nowhere(s'.db, id) && Unheld(s', id) && LogOf(s', id) == LogOf(s, id)
    && id !in s'.db.data && id !in s'.db.retry && id !in s'.db.marks
  }

  /** A worker comes to hold it, prefetched. */
  ghost predicate TakenUp(s: Sys, s': Sys, id: Id, tok: nat) {
    && SameKeys(s, s', id) && (id in s'.db.marks <==> id in s.db.marks)
    && (forall p :: At(s'.db, id, p) <==> At(s.db, id, p))
    && Has(s', tok, id) && (forall t :: Has(s', t, id) ==> t == tok)
    && s'.att[tok].pc.Prefetched? && At(s'.db, id, Spot(s'.att[tok].msg)) && !Idle(s'.db, Spot(s'.att[tok].msg))
  }

  ghost predicate ReadAnew(s: Sys, s': Sys, id: Id) {
    && (exists tok :: TakenUp(s, s', id, tok))
    && exists p :: At(s.db, id, p) && Idle(s.db, p)
  }

  ghost predicate Reclaimed(s: Sys, s': Sys, id: Id) {
    Unheld(s, id) && exists tok :: TakenUp(s, s', id, tok)
  }

  /** Its holder takes one step of its attempt. */
  ghost predicate Works(reg: Registry, s: Sys, s': Sys, id: Id, tok: nat) {
    && Has(s, tok, id) && Has(s', tok, id) && s'.att == s.att[tok := s.att[tok].(pc := s'.att[tok].pc)]
    && s'.db.lanes == s.db.lanes && s'.db.data == s.db.data && s'.db.marks == s.db.marks
    && AttemptMoves(reg, s, s', id, s.att[tok].pc, s'.att[tok].pc)
  }

  ghost predicate AttemptMoves(reg: Registry, s: Sys, s': Sys, id: Id, pc: Pc, pc': Pc) {
    match pc
    case Prefetched =>
      pc' == Counted(RetryOf(s.db, id) + 1) && RetryOf(s'.db, id) == RetryOf(s.db, id) + 1 && LogOf(s', id) == LogOf(s, id)
    case Counted(t) => pc' == Marked(t) && SameCount(s, s', id) && LogOf(s', id) == LogOf(s, id)
    case Marked(t) =>
      && id in s.db.data && pc' == Fetched(t, s.db.data[id].payload, id in s.db.marks)
      && SameCount(s, s', id) && LogOf(s', id) == LogOf(s, id)
    case Fetched(t, p, aborted) =>
      && SameCount(s, s', id) && LogOf(s', id) == LogOf(s, id) + [t]
      && exists body :: pc' == Executed(t, p, Decide(reg, p, t, aborted, body))
    case _ => false
  }

  /** Its holder lets it go to rest: prefetched, or to be retried. */
  ghost predicate LetGo(s: Sys, s': Sys, id: Id, tok: nat) {
    && Has(s, tok, id) && AtRest(s', id) && SameKeys(s, s', id) && (id in s'.db.marks ==> id in s.db.marks)
    && (s.att[tok].pc.Prefetched? || (s.att[tok].pc.Executed? && s.att[tok].pc.outcome.Retry?))
  }

  ghost predicate Turns(reg: Registry, s: Sys, s': Sys, id: Id) {
    || Untouched(s, s', id) || Staged(s, s', id) || Resettled(s, s', id) || Dropped(s, s', id)
    || ReadAnew(s, s', id)
    || (exists tok :: Works(reg, s, s', id, tok))
    || (exists tok :: LetGo(s, s', id, tok))
  }

  // ----- every turn keeps the token

  lemma WorksKeeps(reg: Registry, s: Sys, s': Sys, id: Id, tok: nat)
    requires TokenFor(s, id) && Works(reg, s, s', id, tok)
    ensures TokenFor(s', id)
  {
    forall t | Has(s', t, id)
      ensures Has(s, t, id)
    {
    }
    forall p
      ensures At(s'.db, id, p) <==> At(s.db, id, p)
    {
    }
  }

  lemma TakenKeeps(s: Sys, s': Sys, id: Id, tok: nat)
    requires TokenFor(s, id) && TakenUp(s, s', id, tok)
    ensures TokenFor(s', id)
  {
  }

  lemma RestKeeps(s: Sys, id: Id)
    requires AtRest(s, id)
    ensures TokenFor(s, id)
  {
  }

  lemma TurnKeeps(reg: Registry, s: Sys, s': Sys, id: Id)
    requires TokenFor(s, id) && (Turns(reg, s, s', id) || Reclaimed(s, s', id))
    ensures TokenFor(s', id)
  {
    if AtRest(s', id) {
      RestKeeps(s', id);
    } else if tok :| Works(reg, s, s', id, tok) {
      WorksKeeps(reg, s, s', id, tok);
    } else if tok :| TakenUp(s, s', id, tok) {
      TakenKeeps(s, s', id, tok);
    }
  }

  // ----- one lane changes

  /** `l'` holds of `id` what `l` does. */
  ghost predicate SameIn(l: Lane, l': Lane, id: Id) {
    && l'.last >= l.last
    && (id in l'.delayed <==> id in l.delayed)
    && (forall sid :: (sid in l'.stream && l'.stream[sid].id == id) <==> (sid in l.stream && l.stream[sid].id == id))
  }

  lemma OneLaneSame(db: Db, db': Db, i: nat, l': Lane, id: Id)
    requires i < |db.lanes| && db'.lanes == db.lanes[i := l'] && SameIn(db.lanes[i], l', id)
    ensures SamePlacesOf(db, db', id)
  {
  }

  lemma SameLanesSame(db: Db, db': Db, id: Id)
    requires db'.lanes == db.lanes
    ensures SamePlacesOf(db, db', id)
  {
  }

  /** A change of the lane that has all there is of `id`. */
  lemma OneLaneMoved(db: Db, db': Db, i: nat, l': Lane, id: Id, pn: Option<Place>)
    requires i < |db.lanes| && db'.lanes == db.lanes[i := l']
    requires forall p :: At(db, id, p) ==> p.lane == i
    requires forall p: Place :: p.lane == i && InLane(l', id, p) ==> pn == Some(p)
    ensures forall p :: At(db', id, p) ==> pn == Some(p)
  {
    forall p | At(db', id, p)
      ensures pn == Some(p)
    {
      if p.lane != i {
        assert At(db, id, p);
      }
    }
  }

  lemma LaneOf(db: Db, i: nat, id: Id, po: Place)
    requires i < |db.lanes| && OnlyAt(db, id, po)
    ensures forall p: Place :: p.lane == i && InLane(db.lanes[i], id, p) ==> p == po
  {
    forall p: Place | p.lane == i && InLane(db.lanes[i], id, p)
      ensures p == po
    {
      assert At(db, id, p);
    }
  }

  // ----- staging

  lemma StagedTurn(s: Sys, s': Sys, id: Id, p: Payload, i: nat, l': Lane, pn: Place)
    requires TokenFor(s, id) && id !in s.db.data && i < |s.db.lanes|
    requires s'.att == s.att && s'.log == s.log[id := []] && s'.db.data == s.db.data[id := Stored(p, false)]
    requires s'.db.retry == s.db.retry && s'.db.marks == s.db.marks && s'.db.lanes == s.db.lanes[i := l']
    requires forall q: Place :: q.lane == i && InLane(l', id, q) ==> q == pn || InLane(s.db.lanes[i], id, q)
    ensures Staged(s, s', id)
  {
    AbsentIsNowhere(s, id);
    assert forall q: Place :: q.lane == i && InLane(s.db.lanes[i], id, q) ==> At(s.db, id, q);
    OneLaneMoved(s.db, s'.db, i, l', id, Some(pn));
    assert OnlyAt(s'.db, id, pn);
  }

  lemma OtherStaged(s: Sys, s': Sys, x: Id, p: Stored, i: nat, l': Lane, id: Id)
    requires id != x && i < |s.db.lanes| && SameIn(s.db.lanes[i], l', id)
    requires s'.att == s.att && s'.log == s.log[x := []] && s'.db.data == s.db.data[x := p]
    requires s'.db.retry == s.db.retry && s'.db.marks == s.db.marks && s'.db.lanes == s.db.lanes[i := l']
    ensures Untouched(s, s', id)
  {
    OneLaneSame(s.db, s'.db, i, l', id);
  }

  lemma OwnEnqueued(s: Sys, lane: nat, id: Id, p: Payload, score: int, expire: int, now: int, reset: bool)
    requires TokenFor(s, id) && lane < |s.db.lanes| && id !in s.db.data && expire <= 0
    ensures Staged(s, Enqueued(s, lane, id, p, score, expire, now, reset), id)
  {
    var l := s.db.lanes[lane];
    StagedTurn(s, Enqueued(s, lane, id, p, score, expire, now, reset), id, p, lane,
               if score > 0 then ZAdd(l, id, score) else XAdd(l, id, now),
               if score > 0 then Later(lane) else Queued(lane, l.next));
  }

  lemma OtherEnqueued(s: Sys, lane: nat, x: Id, p: Payload, score: int, expire: int, now: int, reset: bool, id: Id)
    requires lane < |s.db.lanes| && LaneOk(s.db.lanes[lane]) && x !in s.db.data && x != id
    ensures Untouched(s, Enqueued(s, lane, x, p, score, expire, now, reset), id)
  {
    var l := s.db.lanes[lane];
    OtherStaged(s, Enqueued(s, lane, x, p, score, expire, now, reset), x, Stored(p, expire > 0), lane,
                if score > 0 then ZAdd(l, x, score) else XAdd(l, x, now), id);
  }

  lemma EnqueueTurns(s: Sys, lane: nat, x: Id, p: Payload, score: int, expire: int, now: int, reset: bool, id: Id)
    requires TokenInv(s, id) && lane < |s.db.lanes| && (x == id ==> expire <= 0 || id in s.db.data)
    ensures var s' := Enqueued(s, lane, x, p, score, expire, now, reset); Untouched(s, s', id) || Staged(s, s', id)
  {
    if x !in s.db.data {
      if x == id {
        OwnEnqueued(s, lane, id, p, score, expire, now, reset);
      } else {
        OtherEnqueued(s, lane, x, p, score, expire, now, reset, id);
      }
    }
  }

  lemma ReplayRefused(s: Sys, lane: nat, x: Id, p: Payload, now: int, id: Id)
    requires lane < |s.db.lanes| && (x !in s.db.dead || x in s.db.data)
    ensures Untouched(s, Replayed(s, lane, x, p, now), id)
  {
    SameLanesSame(s.db, Replayed(s, lane, x, p, now).db, id);
  }

  lemma ReplayTurns(s: Sys, lane: nat, x: Id, p: Payload, now: int, id: Id)
    requires TokenInv(s, id) && lane < |s.db.lanes|
    ensures var s' := Replayed(s, lane, x, p, now); Untouched(s, s', id) || Staged(s, s', id)
  {
    var s', l := Replayed(s, lane, x, p, now), s.db.lanes[lane];
    assert LaneOk(l);
    if x !in s.db.dead || x in s.db.data {
      ReplayRefused(s, lane, x, p, now, id);
    } else if x == id {
      StagedTurn(s, s', id, p, lane, XAdd(l, x, now), Queued(lane, l.next));
    } else {
      OtherStaged(s, s', x, Stored(p, false), lane, XAdd(l, x, now), id);
    }
  }

  // ----- promotion

  ghost predicate Rests(s: Sys, s': Sys, id: Id) {
    Untouched(s, s', id) || Resettled(s, s', id)
  }

  lemma RestsTwice(s: Sys, s1: Sys, s2: Sys, id: Id)
    requires Rests(s, s1, id) && Rests(s1, s2, id)
    ensures Rests(s, s2, id)
  {
    if Resettled(s1, s2, id) && Untouched(s, s1, id) {
      var p :| At(s1.db, id, p) && Idle(s1.db, p);
      assert At(s.db, id, p) && Idle(s.db, p);
    } else if Untouched(s1, s2, id) && Resettled(s, s1, id) {
      var p :| OnlyAt(s1.db, id, p);
      assert OnlyAt(s2.db, id, p);
    }
  }

  /** The task of lane `i` moves to `pn`, which is all the lane then has of it. */
  lemma OwnResettles(s: Sys, s': Sys, i: nat, l': Lane, po: Place, pn: Place, id: Id)
    requires TokenFor(s, id) && HeldOk(s) && i < |s.db.lanes| && po.lane == i && At(s.db, id, po) && Idle(s.db, po)
    requires s' == Put(s, i, l')
    requires forall q: Place :: q.lane == i && InLane(l', id, q) ==> q == pn || (InLane(s.db.lanes[i], id, q) && q != po)
    ensures Resettled(s, s', id)
  {
    IdleIsUnheld(s, id, po);
    LaneOf(s.db, i, id, po);
    OneLaneMoved(s.db, s'.db, i, l', id, Some(pn));
    assert OnlyAt(s'.db, id, pn);
  }

  lemma PutOther(s: Sys, i: nat, l': Lane, id: Id)
    requires i < |s.db.lanes| && SameIn(s.db.lanes[i], l', id)
    ensures Untouched(s, Put(s, i, l'), id)
  {
    OneLaneSame(s.db, Put(s, i, l').db, i, l', id);
  }

  lemma PromoteOneTurns(s: Sys, lane: nat, x: Id, id: Id)
    requires TokenInv(s, id) && lane < |s.db.lanes| && x in s.db.lanes[lane].delayed
    ensures Rests(s, Put(s, lane, PromoteOne(s.db.lanes[lane], x)), id)
  {
    var l := s.db.lanes[lane];
    assert LaneOk(l);
    if x == id {
      assert At(s.db, id, Later(lane));
      OwnResettles(s, Put(s, lane, PromoteOne(l, x)), lane, PromoteOne(l, x), Later(lane), Queued(lane, l.next), id);
    } else {
      PutOther(s, lane, PromoteOne(l, x), id);
    }
  }

  lemma PutPut(s: Sys, lane: nat, l: Lane, l': Lane)
    requires lane < |s.db.lanes|
    ensures Put(Put(s, lane, l), lane, l') == Put(s, lane, l')
    ensures Put(s, lane, s.db.lanes[lane]) == s
  {
  }

  lemma {:induction false} PromoteTurns(reg: Registry, s: Sys, lane: nat, due: seq<Id>, id: Id)
    requires TokenInv(s, id) && lane < |s.db.lanes| && Distinct(due)
    requires forall i :: 0 <= i < |due| ==> due[i] in s.db.lanes[lane].delayed
    ensures Rests(s, Promoted(s, lane, due), id)
    decreases |due|
  {
    PutPut(s, lane, s.db.lanes[lane], s.db.lanes[lane]);
    if due != [] {
      var l' := PromoteOne(s.db.lanes[lane], due[0]);
      PromoteOneTurns(s, lane, due[0], id);
      PromoteOneInv(s, lane, due[0]);
      TurnKeeps(reg, s, Put(s, lane, l'), id);
      PromoteTurns(reg, Put(s, lane, l'), lane, due[1..], id);
      PutPut(s, lane, l', Store.Promote(l', due[1..]));
      RestsTwice(s, Put(s, lane, l'), Promoted(s, lane, due), id);
    }
  }

  // ----- purge and abort

  ghost predicate Goes(s: Sys, s': Sys, id: Id) {
    Untouched(s, s', id) || Dropped(s, s', id)
  }

  lemma GoesTwice(s: Sys, s1: Sys, s2: Sys, id: Id)
    requires TokenFor(s1, id) && Goes(s, s1, id) && Goes(s1, s2, id)
    ensures Goes(s, s2, id)
  {
  }

  lemma OwnDrops(s: Sys, s': Sys, i: nat, l': Lane, po: Place, id: Id)
    requires TokenFor(s, id) && HeldOk(s) && i < |s.db.lanes| && po.lane == i && At(s.db, id, po) && Idle(s.db, po)
    requires s' == s.(db := SetLane(Forget(s.db, id), i, l'))
    requires forall q: Place :: q.lane == i && InLane(l', id, q) ==> InLane(s.db.lanes[i], id, q) && q != po
    ensures Dropped(s, s', id)
  {
    IdleIsUnheld(s, id, po);
    LaneOf(s.db, i, id, po);
    OneLaneMoved(s.db, s'.db, i, l', id, None);
  }

  lemma OtherDrops(s: Sys, s': Sys, i: nat, l': Lane, x: Id, id: Id)
    requires i < |s.db.lanes| && id != x && SameIn(s.db.lanes[i], l', id)
    requires s' == s.(db := SetLane(Forget(s.db, x), i, l'))
    ensures Untouched(s, s', id)
  {
    OneLaneSame(s.db, s'.db, i, l', id);
  }

  /** The idle task `x` is dropped from lane `i` with its keys. */
  lemma DropTurns(s: Sys, s': Sys, i: nat, l': Lane, x: Id, po: Place, id: Id)
    requires TokenFor(s, id) && HeldOk(s) && i < |s.db.lanes| && po.lane == i && At(s.db, x, po) && Idle(s.db, po)
    requires s' == s.(db := SetLane(Forget(s.db, x), i, l'))
    requires id != x ==> SameIn(s.db.lanes[i], l', id)
    requires forall q: Place :: q.lane == i && InLane(l', x, q) ==> InLane(s.db.lanes[i], x, q) && q != po
    ensures Goes(s, s', id)
  {
    if x == id {
      OwnDrops(s, s', i, l', po, id);
    } else {
      OtherDrops(s, s', i, l', x, id);
    }
  }

  lemma DropScheduledTurns(s: Sys, lane: nat, x: Id, id: Id)
    requires TokenInv(s, id) && lane < |s.db.lanes| && x in s.db.lanes[lane].delayed
    ensures Goes(s, s.(db := DropScheduled(s.db, lane, x)), id)
  {
    assert At(s.db, x, Later(lane));
    DropTurns(s, s.(db := DropScheduled(s.db, lane, x)), lane, ZRem(s.db.lanes[lane], x), x, Later(lane), id);
  }

  lemma DropWaitingTurns(s: Sys, lane: nat, sid: nat, id: Id)
    requires TokenInv(s, id) && lane < |s.db.lanes|
    requires sid in s.db.lanes[lane].stream && sid > s.db.lanes[lane].last
    ensures Goes(s, s.(db := DropWaiting(s.db, lane, sid)), id)
  {
    var l := s.db.lanes[lane];
    assert At(s.db, l.stream[sid].id, Queued(lane, sid));
    DropTurns(s, s.(db := DropWaiting(s.db, lane, sid)), lane, l.(stream := l.stream - {sid}), l.stream[sid].id,
              Queued(lane, sid), id);
  }

  lemma DropScheduledOn(reg: Registry, s: Sys, lane: nat, x: Id, id: Id)
    requires TokenInv(s, id) && lane < |s.db.lanes| && x in s.db.lanes[lane].delayed
    ensures var s1 := s.(db := DropScheduled(s.db, lane, x)); Goes(s, s1, id) && TokenInv(s1, id)
  {
    DropScheduledTurns(s, lane, x, id);
    DropScheduledInv(s, lane, x);
    TurnKeeps(reg, s, s.(db := DropScheduled(s.db, lane, x)), id);
  }

  lemma DropWaitingOn(reg: Registry, s: Sys, lane: nat, sid: nat, id: Id)
    requires TokenInv(s, id) && lane < |s.db.lanes|
    requires sid in s.db.lanes[lane].stream && sid > s.db.lanes[lane].last
    ensures var s1 := s.(db := DropWaiting(s.db, lane, sid)); Goes(s, s1, id) && TokenInv(s1, id)
  {
    DropWaitingTurns(s, lane, sid, id);
    DropWaitingInv(s, lane, sid);
    TurnKeeps(reg, s, s.(db := DropWaiting(s.db, lane, sid)), id);
  }

  lemma {:induction false} PurgeWaitingTurns(reg: Registry, s: Sys, lane: nat, sids: seq<nat>, id: Id)
    requires TokenInv(s, id) && lane < |s.db.lanes| && Distinct(sids)
    requires forall i :: 0 <= i < |sids| ==> sids[i] in s.db.lanes[lane].stream && sids[i] > s.db.lanes[lane].last
    ensures Goes(s, s.(db := Store.Purge(s.db, lane, [], sids)), id)
    decreases |sids|
  {
    if sids != [] {
      var s1 := s.(db := DropWaiting(s.db, lane, sids[0]));
      DropWaitingOn(reg, s, lane, sids[0], id);
      PurgeWaitingTurns(reg, s1, lane, sids[1..], id);
      GoesTwice(s, s1, s.(db := Store.Purge(s.db, lane, [], sids)), id);
    }
  }

  lemma {:induction false} PurgeTurns(reg: Registry, s: Sys, lane: nat, ids: seq<Id>, sids: seq<nat>, id: Id)
    requires TokenInv(s, id) && lane < |s.db.lanes| && Distinct(ids) && Distinct(sids)
    requires forall i :: 0 <= i < |ids| ==> ids[i] in s.db.lanes[lane].delayed
    requires forall i :: 0 <= i < |sids| ==> sids[i] in s.db.lanes[lane].stream && sids[i] > s.db.lanes[lane].last
    ensures Goes(s, s.(db := Store.Purge(s.db, lane, ids, sids)), id)
    decreases |ids|
  {
    if ids == [] {
      PurgeWaitingTurns(reg, s, lane, sids, id);
    } else {
      var s1 := s.(db := DropScheduled(s.db, lane, ids[0]));
      DropScheduledOn(reg, s, lane, ids[0], id);
      PurgeTurns(reg, s1, lane, ids[1..], sids, id);
      GoesTwice(s, s1, s.(db := Store.Purge(s.db, lane, ids, sids)), id);
    }
  }

  /** The abort ends the task itself: it only waits for its time. */
  predicate Unstarted(db: Db, id: Id) {
    AbortAccepted(db, id) && id !in db.running && Store.Scheduled(db, id)
  }

  lemma UnscheduleMoves(db: Db, db': Db, x: Id, i: nat, id: Id)
    requires db'.lanes == Unschedule(db.lanes, x)
    ensures id != x ==> SamePlacesOf(db, db', id)
    ensures id == x && OnlyAt(db, id, Later(i)) ==> Nowhere(db', id)
  {
    forall p | At(db', id, p)
      ensures At(db, id, p) && (id == x ==> !p.Later?)
    {
    }
  }

  lemma OwnAborts(s: Sys, keep: bool, id: Id)
    requires TokenFor(s, id) && HeldOk(s) && Unstarted(s.db, id)
    ensures Dropped(s, s.(db := Store.Abort(s.db, id, keep)), id)
  {
    var i :| 0 <= i < |s.db.lanes| && id in s.db.lanes[i].delayed;
    assert At(s.db, id, Later(i));
    IdleIsUnheld(s, id, Later(i));
    UnscheduleMoves(s.db, Store.Abort(s.db, id, keep), id, i, id);
  }

  lemma OtherAborts(s: Sys, x: Id, keep: bool, id: Id)
    requires x != id || !Unstarted(s.db, x)
    ensures Untouched(s, s.(db := Store.Abort(s.db, x, keep)), id)
  {
    if Unstarted(s.db, x) {
      UnscheduleMoves(s.db, Store.Abort(s.db, x, keep), x, 0, id);
    } else {
      SameLanesSame(s.db, Store.Abort(s.db, x, keep), id);
    }
  }

  lemma AbortTurns(s: Sys, x: Id, keep: bool, id: Id)
    requires TokenFor(s, id) && HeldOk(s)
    ensures Goes(s, s.(db := Store.Abort(s.db, x, keep)), id)
  {
    if x == id && Unstarted(s.db, id) {
      OwnAborts(s, keep, id);
    } else {
      OtherAborts(s, x, keep, id);
    }
  }

  // ----- what a holder ends with

  /** A holder of `x` drops its entry: of any other task the lane keeps what it has. */
  lemma DropIsOwn(s: Sys, tok: nat, id: Id)
    requires HasTok(s, tok) && HeldOk(s) && s.att[tok].msg.id != id
    ensures var m, l := s.att[tok].msg, s.db.lanes[s.att[tok].msg.lane];
            && SameIn(l, XDrop(l, m.sid), id)
            && forall at :: SameIn(l, ZAdd(XDrop(l, m.sid), m.id, at), id)
  {
    var m, l := s.att[tok].msg, s.db.lanes[s.att[tok].msg.lane];
    assert HeldIn(l, m);
  }

  /** Somebody else's attempt ends, or goes one step. */
  lemma OtherEnds(s: Sys, s': Sys, tok: nat, l': Lane, id: Id)
    requires HasTok(s, tok) && s.att[tok].msg.id != id && s'.att - {tok} == s.att - {tok} && s'.log == s.log
    requires s'.att == s.att - {tok} || (tok in s'.att && s'.att[tok].msg == s.att[tok].msg)
    requires var x := s.att[tok].msg.id;
             && s'.db.data - {x} == s.db.data - {x} && s'.db.retry - {x} == s.db.retry - {x}
             && s'.db.marks <= s.db.marks
    requires s'.db.lanes == s.db.lanes[s.att[tok].msg.lane := l'] && SameIn(s.db.lanes[s.att[tok].msg.lane], l', id)
    ensures Untouched(s, s', id)
  {
    var x := s.att[tok].msg.id;
    OneLaneSame(s.db, s'.db, s.att[tok].msg.lane, l', id);
    assert id in s'.db.data <==> id in s'.db.data - {x};
    assert id in s.db.data <==> id in s.db.data - {x};
    assert id in s'.db.retry <==> id in s'.db.retry - {x};
    assert id in s.db.retry <==> id in s.db.retry - {x};
    assert id in s.db.data ==> (s'.db.data - {x})[id] == (s.db.data - {x})[id];
    assert id in s.db.retry ==> (s'.db.retry - {x})[id] == (s.db.retry - {x})[id];
    forall t | Has(s', t, id)
      ensures Has(s, t, id) && s'.att[t] == s.att[t]
    {
      assert t != tok;
      assert t in s'.att - {tok} && (s'.att - {tok})[t] == (s.att - {tok})[t];
    }
  }

  lemma OwnEnds(s: Sys, s': Sys, tok: nat, l': Lane, id: Id, pn: Option<Place>)
    requires TokenInv(s, id) && Has(s, tok, id) && s'.att == s.att - {tok}
    requires HasTok(s, tok) && s'.db.lanes == s.db.lanes[s.att[tok].msg.lane := l']
    requires var m := s.att[tok].msg;
             forall q: Place :: q.lane == m.lane && InLane(l', id, q) ==>
               pn == Some(q) || (InLane(s.db.lanes[m.lane], id, q) && q != Spot(m))
    ensures Unheld(s', id) && forall p :: At(s'.db, id, p) ==> pn == Some(p)
  {
    var m := s.att[tok].msg;
    HolderAt(s, tok, id);
    LaneOf(s.db, m.lane, id, Spot(m));
    OneLaneMoved(s.db, s'.db, m.lane, l', id, pn);
    forall t
      ensures !Has(s', t, id)
    {
      assert Has(s', t, id) ==> Has(s, t, id) && t != tok;
    }
  }

  lemma OwnCompletes(s: Sys, tok: nat, keep: bool, now: int, id: Id)
    requires TokenInv(s, id) && Has(s, tok, id) && HasTok(s, tok) && s.att[tok].pc.Executed?
    ensures Dropped(s, Completed(s, tok, keep, now), id)
  {
    var m, s' := s.att[tok].msg, Completed(s, tok, keep, now);
    OwnEnds(s, s', tok, XDrop(s.db.lanes[m.lane], m.sid), id, None);
  }

  lemma CompleteTurns(s: Sys, tok: nat, keep: bool, now: int, id: Id)
    requires TokenInv(s, id) && HasTok(s, tok) && s.att[tok].pc.Executed?
    ensures Goes(s, Completed(s, tok, keep, now), id)
  {
    var m, s' := s.att[tok].msg, Completed(s, tok, keep, now);
    var l' := XDrop(s.db.lanes[m.lane], m.sid);
    if m.id == id {
      OwnCompletes(s, tok, keep, now, id);
    } else {
      DropIsOwn(s, tok, id);
      OtherEnds(s, s', tok, l', id);
    }
  }

  lemma DiscardTurns(s: Sys, tok: nat, id: Id)
    requires TokenInv(s, id) && HasTok(s, tok) && s.att[tok].pc.Missing?
    ensures Untouched(s, Discarded(s, tok), id)
  {
    var m := s.att[tok].msg;
    assert !Has(s, tok, id);
    DropIsOwn(s, tok, id);
    OtherEnds(s, Discarded(s, tok), tok, XDrop(s.db.lanes[m.lane], m.sid), id);
  }

  /** A holder lets its task go to `pn`, keys and all. */
  lemma OwnLetsGo(s: Sys, s': Sys, tok: nat, l': Lane, id: Id, pn: Place)
    requires TokenInv(s, id) && Has(s, tok, id) && HasTok(s, tok)
    requires s.att[tok].pc.Prefetched? || (s.att[tok].pc.Executed? && s.att[tok].pc.outcome.Retry?)
    requires s'.att == s.att - {tok} && s'.log == s.log && s'.db.data == s.db.data
    requires s'.db.retry == s.db.retry && s'.db.marks == s.db.marks
    requires s'.db.lanes == s.db.lanes[s.att[tok].msg.lane := l']
    requires var m := s.att[tok].msg;
             forall q: Place :: q.lane == m.lane && InLane(l', id, q) ==>
               q == pn || (InLane(s.db.lanes[m.lane], id, q) && q != Spot(m))
    ensures LetGo(s, s', id, tok)
  {
    HolderAt(s, tok, id);
    OwnEnds(s, s', tok, l', id, Some(pn));
    assert OnlyAt(s'.db, id, pn);
  }

  lemma RetryTurns(s: Sys, tok: nat, now: int, id: Id)
    requires TokenInv(s, id) && HasTok(s, tok) && s.att[tok].pc.Executed? && s.att[tok].pc.outcome.Retry?
    ensures Untouched(s, Retried(s, tok, now), id) || LetGo(s, Retried(s, tok, now), id, tok)
  {
    var m, pc := s.att[tok].msg, s.att[tok].pc;
    var l' := ZAdd(XDrop(s.db.lanes[m.lane], m.sid), m.id, FireAt(now, pc.tries, pc.outcome.delayMs));
    if m.id == id {
      OwnLetsGo(s, Retried(s, tok, now), tok, l', id, Later(m.lane));
    } else {
      DropIsOwn(s, tok, id);
      OtherEnds(s, Retried(s, tok, now), tok, l', id);
    }
  }

  lemma AddIsOwn(l: Lane, m: Msg, id: Id)
    requires LaneOk(l) && HeldIn(l, m) && m.id != id
    ensures SameIn(l, XDrop(XAdd(l, m.id, m.time), m.sid), id)
  {
  }

  lemma ReleaseTurns(s: Sys, tok: nat, id: Id)
    requires TokenInv(s, id) && HasTok(s, tok) && s.att[tok].pc.Prefetched?
    ensures Untouched(s, Released(s, tok), id) || LetGo(s, Released(s, tok), id, tok)
  {
    var m := s.att[tok].msg;
    var l := s.db.lanes[m.lane];
    assert LaneOk(l) && HeldIn(l, m);
    if m.id == id {
      OwnLetsGo(s, Released(s, tok), tok, XDrop(XAdd(l, m.id, m.time), m.sid), id, Queued(m.lane, l.next));
    } else {
      AddIsOwn(l, m, id);
      OtherEnds(s, Released(s, tok), tok, XDrop(XAdd(l, m.id, m.time), m.sid), id);
    }
  }

  // ----- what a holder does on the way

  lemma AttemptTurns(reg: Registry, s: Sys, a: Action, id: Id)
    requires TokenInv(s, id) && Enabled(s, a) && (a.Incr? || a.Mark? || a.Fetch? || a.Execute?)
    ensures Untouched(s, Apply(reg, s, a), id) || Works(reg, s, Apply(reg, s, a), id, a.tok)
  {
    match a
    case Incr(tok) => IncrTurns(reg, s, tok, id);
    case Mark(tok, ok) => MarkTurns(reg, s, tok, ok, id);
    case Fetch(tok) =>
      if Has(s, tok, id) {
        HolderAt(s, tok, id);
      }
      FetchTurns(reg, s, tok, id);
    case Execute(tok, body) => RunTurns(reg, s, tok, body, id);
  }

  /** A step on an attempt on another task. */
  lemma OtherWorks(s: Sys, s': Sys, tok: nat, id: Id)
    requires tok in s.att && s.att[tok].msg.id != id
    requires tok in s'.att && s'.att[tok].msg == s.att[tok].msg && s'.att == s.att[tok := s'.att[tok]]
    requires s'.db.lanes == s.db.lanes && s'.db.data == s.db.data && s'.db.marks == s.db.marks
    requires SameCount(s, s', id) && LogOf(s', id) == LogOf(s, id)
    ensures Untouched(s, s', id)
  {
    SameLanesSame(s.db, s'.db, id);
  }

  lemma IncrTurns(reg: Registry, s: Sys, tok: nat, id: Id)
    requires tok in s.att && s.att[tok].pc.Prefetched?
    ensures Untouched(s, Incremented(s, tok), id) || Works(reg, s, Incremented(s, tok), id, tok)
  {
    if s.att[tok].msg.id != id {
      OtherWorks(s, Incremented(s, tok), tok, id);
    }
  }

  lemma MarkTurns(reg: Registry, s: Sys, tok: nat, ok: bool, id: Id)
    requires tok in s.att && s.att[tok].pc.Counted?
    ensures Untouched(s, MarkedRunning(s, tok, ok), id) || Works(reg, s, MarkedRunning(s, tok, ok), id, tok)
  {
    if s.att[tok].msg.id != id {
      OtherWorks(s, MarkedRunning(s, tok, ok), tok, id);
    }
  }

  lemma FetchTurns(reg: Registry, s: Sys, tok: nat, id: Id)
    requires (Has(s, tok, id) ==> id in s.db.data) && tok in s.att && s.att[tok].pc.Marked?
    ensures Untouched(s, PayloadFetched(s, tok), id) || Works(reg, s, PayloadFetched(s, tok), id, tok)
  {
    if s.att[tok].msg.id != id {
      OtherWorks(s, PayloadFetched(s, tok), tok, id);
    }
  }

  lemma RunTurns(reg: Registry, s: Sys, tok: nat, body: Body, id: Id)
    requires tok in s.att && s.att[tok].pc.Fetched?
    ensures Untouched(s, Ran(reg, s, tok, body), id) || Works(reg, s, Ran(reg, s, tok, body), id, tok)
  {
    if s.att[tok].msg.id != id {
      OtherWorks(s, Ran(reg, s, tok, body), tok, id);
    } else {
      var pc := s.att[tok].pc;
      assert Ran(reg, s, tok, body).att[tok].pc
          == Executed(pc.tries, pc.payload, Decide(reg, pc.payload, pc.tries, pc.aborted, body));
    }
  }

  // ----- taking a message

  lemma TakeOther(s: Sys, w: Worker, lane: nat, sid: nat, l': Lane, id: Id)
    requires lane < |s.db.lanes| && sid in s.db.lanes[lane].stream && s.db.lanes[lane].stream[sid].id != id
    requires HeldOk(s) && SameIn(s.db.lanes[lane], l', id)
    ensures Untouched(s, Taken(s, w, lane, sid, l'), id)
  {
    OneLaneSame(s.db, Taken(s, w, lane, sid, l').db, lane, l', id);
  }

  lemma TakeOwn(s: Sys, w: Worker, lane: nat, sid: nat, l': Lane, id: Id)
    requires lane < |s.db.lanes| && sid in s.db.lanes[lane].stream && s.db.lanes[lane].stream[sid].id == id
    requires Unheld(s, id) && l'.stream == s.db.lanes[lane].stream && l'.delayed == s.db.lanes[lane].delayed
    requires sid <= l'.last && l'.last >= s.db.lanes[lane].last
    ensures TakenUp(s, Taken(s, w, lane, sid, l'), id, s.nextTok)
  {
    var s' := Taken(s, w, lane, sid, l');
    OneLaneSame(s.db, s'.db, lane, l', id);
    assert At(s.db, id, Queued(lane, sid));
    forall t
      ensures Has(s', t, id) ==> t == s.nextTok
    {
      assert !Has(s, t, id);
    }
  }

  lemma ReadTurns(s: Sys, w: Worker, lane: nat, sid: nat, id: Id)
    requires TokenInv(s, id) && lane < |s.db.lanes| && IsHead(s.db.lanes[lane], sid)
    ensures var s' := Taken(s, w, lane, sid, Deliver(s.db.lanes[lane], sid, w));
            Untouched(s, s', id) || ReadAnew(s, s', id)
  {
    var l := s.db.lanes[lane];
    if l.stream[sid].id == id {
      assert At(s.db, id, Queued(lane, sid)) && Idle(s.db, Queued(lane, sid));
      IdleIsUnheld(s, id, Queued(lane, sid));
      TakeOwn(s, w, lane, sid, Deliver(l, sid, w), id);
    } else {
      TakeOther(s, w, lane, sid, Deliver(l, sid, w), id);
    }
  }

  lemma ReclaimTurns(s: Sys, w: Worker, lane: nat, sid: nat, id: Id)
    requires TokenInv(s, id) && Enabled(s, Reclaim(w, lane, sid)) && Safe(s, Reclaim(w, lane, sid), id)
    ensures var s' := Taken(s, w, lane, sid, Reassign(s.db.lanes[lane], sid, w));
            if s.db.lanes[lane].stream[sid].id == id then Reclaimed(s, s', id) else Untouched(s, s', id)
  {
    var l := s.db.lanes[lane];
    assert LaneOk(l);
    if l.stream[sid].id == id {
      assert At(s.db, id, Queued(lane, sid));
      forall tok
        ensures !Has(s, tok, id)
      {
        assert Has(s, tok, id) ==> At(s.db, id, Spot(s.att[tok].msg));
      }
      TakeOwn(s, w, lane, sid, Reassign(l, sid, w), id);
    } else {
      TakeOther(s, w, lane, sid, Reassign(l, sid, w), id);
    }
  }

  lemma RenewTurns(s: Sys, tok: nat, id: Id)
    requires HasTok(s, tok)
    ensures Untouched(s, Renewed(s, tok), id)
  {
    var m := s.att[tok].msg;
    OneLaneSame(s.db, Renewed(s, tok).db, m.lane, Renewed(s, tok).db.lanes[m.lane], id);
  }

  // ----- steps that lose attempts or keys

  ghost predicate IsLoss(a: Action) {
    a.DeleteDead? || a.ExpireData? || a.ExpireMark? || a.ExpireResult? || a.Abandon? || a.Crash?
  }

  lemma LossTurns(reg: Registry, s: Sys, a: Action, id: Id)
    requires TokenFor(s, id) && Enabled(s, a) && IsLoss(a)
    ensures Untouched(s, Apply(reg, s, a), id)
  {
    SameLanesSame(s.db, Apply(reg, s, a).db, id);
  }

  // ----- all steps

  lemma FinishTurns(reg: Registry, s: Sys, tok: nat, keep: bool, now: int, id: Id)
    requires TokenInv(s, id) && Enabled(s, Finish(tok, keep, now))
    ensures Turns(reg, s, Apply(reg, s, Finish(tok, keep, now)), id)
  {
    if s.att[tok].pc.Missing? {
      DiscardTurns(s, tok, id);
    } else if s.att[tok].pc.outcome.Retry? {
      RetryTurns(s, tok, now, id);
    } else {
      CompleteTurns(s, tok, keep, now, id);
    }
  }

  lemma ClientTurns(reg: Registry, s: Sys, a: Action, id: Id)
    requires TokenInv(s, id) && Enabled(s, a) && Safe(s, a, id)
    requires a.Enqueue? || a.Promote? || a.Abort? || a.Purge? || a.Replay?
    ensures Turns(reg, s, Apply(reg, s, a), id)
  {
    match a
    case Enqueue(lane, x, p, score, expire, now, reset) => EnqueueTurns(s, lane, x, p, score, expire, now, reset, id);
    case Promote(lane, _, due) => PromoteTurns(reg, s, lane, due, id);
    case Abort(x, keep) => AbortTurns(s, x, keep, id);
    case Purge(lane, ids, sids) => PurgeTurns(reg, s, lane, ids, sids, id);
    case Replay(lane, x, p, now) => ReplayTurns(s, lane, x, p, now, id);
  }

  /** Each safe step takes one of the turns; only a reclaim of the task itself can reclaim. */
  lemma StepTurns(reg: Registry, s: Sys, a: Action, id: Id)
    requires TokenInv(s, id) && Enabled(s, a) && Safe(s, a, id)
    ensures Turns(reg, s, Apply(reg, s, a), id) || (Reclaims(s, a, id) && Reclaimed(s, Apply(reg, s, a), id))
  {
    if a.Enqueue? || a.Promote? || a.Abort? || a.Purge? || a.Replay? {
      ClientTurns(reg, s, a, id);
    } else if IsLoss(a) {
      LossTurns(reg, s, a, id);
    } else if a.Read? {
      ReadTurns(s, a.worker, a.lane, a.sid, id);
    } else if a.Reclaim? {
      ReclaimTurns(s, a.worker, a.lane, a.sid, id);
    } else if a.Renew? {
      RenewTurns(s, a.tok, id);
    } else if a.Finish? {
      FinishTurns(reg, s, a.tok, a.keep, a.now, id);
    } else if a.Release? {
      ReleaseTurns(s, a.tok, id);
    } else {
      AttemptTurns(reg, s, a, id);
    }
  }

  lemma TokenStep(reg: Registry, s: Sys, a: Action, id: Id)
    requires TokenInv(s, id) && Enabled(s, a) && Safe(s, a, id)
    ensures TokenInv(Apply(reg, s, a), id)
  {
    StepInv(reg, s, a);
    StepTurns(reg, s, a, id);
    TurnKeeps(reg, s, Apply(reg, s, a), id);
  }

  // ----- runs

  ghost predicate AllSafe(reg: Registry, s: Sys, acts: seq<Action>, id: Id)
    requires CanRun(reg, s, acts)
    decreases |acts|
  {
    acts != [] ==> Safe(s, acts[0], id) && AllSafe(reg, Apply(reg, s, acts[0]), acts[1..], id)
  }

  lemma {:induction false} RunSafely(reg: Registry, s: Sys, acts: seq<Action>, id: Id)
    requires TokenInv(s, id) && CanRun(reg, s, acts) && AllSafe(reg, s, acts, id)
    ensures TokenInv(Run(reg, s, acts), id)
    decreases |acts|
  {
    if acts != [] {
      TokenStep(reg, s, acts[0], id);
      RunSafely(reg, Apply(reg, s, acts[0]), acts[1..], id);
    }
  }

  /** Some run from the empty queue gets to `s`, with every step safe for `id`. */
  ghost predicate SafelyReachable(reg: Registry, s: Sys, id: Id) {
    exists lanes: nat, acts: seq<Action> ::
      CanRun(reg, Initial(lanes), acts) && AllSafe(reg, Initial(lanes), acts, id) && s == Run(reg, Initial(lanes), acts)
  }

  lemma InitialToken(lanes: nat, id: Id)
    ensures TokenInv(Initial(lanes), id)
  {
    InitialInv(lanes);
  }

  lemma SafelyReachableInv(reg: Registry, s: Sys, id: Id)
    requires SafelyReachable(reg, s, id)
    ensures TokenInv(s, id)
  {
    var lanes: nat, acts: seq<Action> :|
      CanRun(reg, Initial(lanes), acts) && AllSafe(reg, Initial(lanes), acts, id) && s == Run(reg, Initial(lanes), acts);
    InitialToken(lanes, id);
    RunSafely(reg, Initial(lanes), acts, id);
  }

  // ----- the theorems

  /** One place while there is a payload, none otherwise. */
  ghost predicate OnePlace(db: Db, id: Id) {
    && (id in db.data ==> exists p :: At(db, id, p) && OnlyAt(db, id, p))
    && (id !in db.data ==> Nowhere(db, id))
  }

  lemma TokenInvOnePlace(s: Sys, id: Id)
    requires TokenInv(s, id)
    ensures OnePlace(s.db, id)
  {
    if id in s.db.data {
      var p :| Covers(s, id, p);
      assert At(s.db, id, p) && OnlyAt(s.db, id, p);
    }
  }

  /** A payload is a token: its task is in exactly one place, and a task without a payload
      is nowhere. So two enqueues of one unique call never both queue it. */
  lemma OnePlacePerPayload(reg: Registry, s: Sys, id: Id)
    requires SafelyReachable(reg, s, id)
    ensures OnePlace(s.db, id)
  {
    SafelyReachableInv(reg, s, id);
    TokenInvOnePlace(s, id);
  }

  /** A message in a worker's hands is live, pending, and held once; its payload is there, so
      no pickup finds it missing. */
  lemma HolderHasPayload(reg: Registry, s: Sys, tok: nat, id: Id)
    requires SafelyReachable(reg, s, id) && Has(s, tok, id)
    ensures HasTok(s, tok) && id in s.db.data && !s.att[tok].pc.Missing?
    ensures s.att[tok].msg.sid in s.db.lanes[s.att[tok].msg.lane].pending
    ensures forall t :: Has(s, t, id) ==> t == tok
  {
    SafelyReachableInv(reg, s, id);
    HolderAt(s, tok, id);
    assert LaneOk(s.db.lanes[s.att[tok].msg.lane]);
  }

  lemma {:induction false} PurgeOnlyForgets(db: Db, lane: nat, ids: seq<Id>, sids: seq<nat>)
    requires lane < |db.lanes|
    requires Distinct(sids) && forall i :: 0 <= i < |sids| ==> sids[i] in db.lanes[lane].stream
    ensures var db' := Store.Purge(db, lane, ids, sids);
            && db'.data.Keys <= db.data.Keys && db'.retry.Keys <= db.retry.Keys
            && forall id :: id in db.marks && id in db'.data ==> id in db'.marks
    decreases |ids|, |sids|
  {
    if ids != [] {
      PurgeOnlyForgets(DropScheduled(db, lane, ids[0]), lane, ids[1..], sids);
    } else if sids != [] {
      PurgeOnlyForgets(DropWaiting(db, lane, sids[0]), lane, [], sids[1..]);
    }
  }

  /** What becomes of the keys of `id`, which has no payload. */
  ghost predicate StaysAbsent(s: Sys, s': Sys, a: Action, id: Id) {
    id in s'.db.data ==>
      && (a.Enqueue? || a.Replay?) && a.id == id
      && s'.staged[id] == s.staged[id] + 1 && s'.db.retry == s.db.retry && LogOf(s', id) == []
  }

  lemma StagingAbsent(reg: Registry, s: Sys, a: Action, id: Id)
    requires Enabled(s, a) && id !in s.db.data && (a.Enqueue? || a.Replay?)
    ensures StaysAbsent(s, Apply(reg, s, a), a, id)
  {
  }

  lemma FinishAbsent(reg: Registry, s: Sys, a: Action, id: Id)
    requires Enabled(s, a) && id !in s.db.data && a.Finish?
    ensures id !in Apply(reg, s, a).db.data
  {
  }

  /** Only staging brings a payload back. */
  lemma AbsentStaysAbsent(reg: Registry, s: Sys, a: Action, id: Id)
    requires Enabled(s, a) && id !in s.db.data
    ensures StaysAbsent(s, Apply(reg, s, a), a, id)
  {
    if a.Purge? {
      PurgeOnlyForgets(s.db, a.lane, a.ids, a.sids);
    } else if a.Enqueue? || a.Replay? {
      StagingAbsent(reg, s, a, id);
    } else if a.Finish? {
      FinishAbsent(reg, s, a, id);
    }
  }
}
