/** When a retry fires: from what the body asked for, or its registration, to the score in the
    delayed set, and from there to the promotion that moves it, not before its time. */
module Delays {
  import opened Wrappers
  import opened Store
  import opened Protocol
  import opened Stranding
  import opened Tokens
  import Burst
  import Drain
  import Links
  import Runs = Progress

  /** The delay asked for if it is positive, the registered backoff if nothing was asked, and
      otherwise the square of the try in seconds. */
  function Wait(r: Registered, tries: int, asked: Option<int>): int {
    match asked
    case Some(ms) => if ms > 0 then ms else 1000 * tries * tries
    case None => if r.backoffMs > 0 then r.backoffMs else 1000 * tries * tries
  }

  /** In its lane the message is gone, and the task delayed until `at`. */
  ghost predicate PutBack(s: Sys, s': Sys, m: Msg, at: int) {
    && m.lane < |s.db.lanes| == |s'.db.lanes|
    && s'.db.lanes[m.lane].delayed == s.db.lanes[m.lane].delayed[m.id := at]
    && s'.db.lanes[m.lane].stream == s.db.lanes[m.lane].stream - {m.sid}
    && s'.db.lanes[m.lane].pending == s.db.lanes[m.lane].pending - {m.sid}
  }

  /** The task of message `m` waits in its lane until `at`, its message gone, its payload, its
      marker and its result as they were and `tries` counted. */
  ghost predicate WaitsUntil(s: Sys, s': Sys, m: Msg, tries: int, at: int) {
    && PutBack(s, s', m, at)
    && s'.db.data == s.db.data && s'.db.marks == s.db.marks && s'.db.results == s.db.results && s'.db.dead == s.db.dead
    && m.id in s'.db.retry && s'.db.retry[m.id] == tries && m.id !in s'.db.running
  }

  lemma Squares(tries: int)
    ensures tries * tries * 1000 == 1000 * tries * tries
  {
  }

  // ----- where a staging puts the task

  /** Its payload is stored, its last result gone if a reset was asked for, and it is in one
      place: delayed in its lane until `score` if that is positive, and otherwise the newest
      entry of its lane, unread and under the enqueuer's clock. */
  ghost predicate StagedAt(s: Sys, s': Sys, lane: nat, id: Id, p: Payload, score: int, now: int, reset: bool)
    requires lane < |s.db.lanes|
  {
    && id in s'.db.data && s'.db.data[id].payload == p && s'.db.data - {id} == s.db.data - {id}
    && s'.db.results == (if reset then s.db.results - {id} else s.db.results)
    && if score > 0 then WaitsIn(s'.db, lane, id, score) && OnlyAt(s'.db, id, Later(lane))
       else
         var sid := s.db.lanes[lane].next;
         && At(s'.db, id, Queued(lane, sid)) && OnlyAt(s'.db, id, Queued(lane, sid))
         && Idle(s'.db, Queued(lane, sid)) && s'.db.lanes[lane].stream[sid].time == now
  }

  lemma ScheduledThere(s: Sys, s': Sys, lane: nat, id: Id, score: int)
    requires Nowhere(s.db, id) && lane < |s.db.lanes| && s'.db.lanes == s.db.lanes[lane := ZAdd(s.db.lanes[lane], id, score)]
    ensures WaitsIn(s'.db, lane, id, score) && OnlyAt(s'.db, id, Later(lane))
  {
    OnlyNewPlace(s, s', lane, id, Later(lane));
  }

  lemma QueuedThere(s: Sys, s': Sys, lane: nat, id: Id, now: int)
    requires Nowhere(s.db, id) && lane < |s.db.lanes| && s'.db.lanes == s.db.lanes[lane := XAdd(s.db.lanes[lane], id, now)]
    requires LaneOk(s.db.lanes[lane])
    ensures var sid := s.db.lanes[lane].next;
            && At(s'.db, id, Queued(lane, sid)) && OnlyAt(s'.db, id, Queued(lane, sid))
            && Idle(s'.db, Queued(lane, sid)) && s'.db.lanes[lane].stream[sid].time == now
  {
    OnlyNewPlace(s, s', lane, id, Queued(lane, s.db.lanes[lane].next));
  }

  lemma StagedThere(s: Sys, lane: nat, id: Id, p: Payload, score: int, expire: int, now: int, reset: bool)
    requires Nowhere(s.db, id) && lane < |s.db.lanes| && LaneOk(s.db.lanes[lane]) && id !in s.db.data
    ensures StagedAt(s, Enqueued(s, lane, id, p, score, expire, now, reset), lane, id, p, score, now, reset)
  {
    var s' := Enqueued(s, lane, id, p, score, expire, now, reset);
    assert s'.db.data - {id} == s.db.data - {id};
    if score > 0 {
      ScheduledThere(s, s', lane, id, score);
    } else {
      QueuedThere(s, s', lane, id, now);
    }
  }

  lemma EnqueuedThere(reg: Registry, s: Sys, a: Action)
    requires a.Enqueue? && TokenInv(s, a.id) && Enabled(s, a) && a.id !in s.db.data
    ensures StagedAt(s, Apply(reg, s, a), a.lane, a.id, a.payload, a.score, a.now, a.reset)
  {
    AbsentIsNowhere(s, a.id);
    StagedThere(s, a.lane, a.id, a.payload, a.score, a.expire, a.now, a.reset);
  }

  lemma OnlyNewPlace(s: Sys, s': Sys, lane: nat, id: Id, pn: Place)
    requires Nowhere(s.db, id) && lane < |s.db.lanes| == |s'.db.lanes| && At(s'.db, id, pn) && pn.lane == lane
    requires s'.db.lanes == s.db.lanes[lane := s'.db.lanes[lane]]
    requires forall q: Place :: q.lane == lane && InLane(s'.db.lanes[lane], id, q) ==>
               q == pn || InLane(s.db.lanes[lane], id, q)
    ensures OnlyAt(s'.db, id, pn)
  {
    forall q | At(s'.db, id, q)
      ensures q == pn
    {
      assert !At(s.db, id, q);
    }
  }

  // ----- from the body to the delayed set

  /** One attempt from prefetched to finished, whose body raises with its retry allowed. */
  lemma RaisedWaits(reg: Registry, s: Sys, tok: nat, asked: Option<int>, keep: bool, now: nat)
    requires HasTok(s, tok) && s.att[tok].pc.Prefetched? && s.att[tok].msg.id in s.db.data
    requires s.att[tok].msg.id !in s.db.marks && s.db.data[s.att[tok].msg.id].payload.name in reg
    requires var id := s.att[tok].msg.id; RetryOf(s.db, id) + 1 <= reg[s.db.data[id].payload.name].maxRetries
    ensures var acts := Links.PickupOf(tok) + [Execute(tok, Raised(asked))] + [Finish(tok, keep, now)];
            var m := s.att[tok].msg;
            var tries, r := RetryOf(s.db, m.id) + 1, reg[s.db.data[m.id].payload.name];
            CanRun(reg, s, acts) && WaitsUntil(s, Run(reg, s, acts), m, tries, now + Wait(r, tries, asked))
  {
    Links.FetchedEnds(reg, s, tok, Raised(asked), keep, now);
    Squares(RetryOf(s.db, s.att[tok].msg.id) + 1);
  }

  /** Nothing but its own finish changes an attempt whose body has run. */
  lemma ExecutedStep(reg: Registry, s: Sys, a: Action, tok: nat, was: Attempt)
    requires HeldOk(s) && Enabled(s, a) && was.pc.Executed? && tok < s.nextTok && (tok in s.att ==> s.att[tok] == was)
    ensures tok < Apply(reg, s, a).nextTok
    ensures tok in Apply(reg, s, a).att ==> tok in s.att && Apply(reg, s, a).att[tok] == was
  {
    if a.Incr? || a.Mark? || a.Fetch? || a.Execute? {
      OtherMoves(reg, s, a, tok, was);
    }
  }

  lemma OtherMoves(reg: Registry, s: Sys, a: Action, tok: nat, was: Attempt)
    requires Enabled(s, a) && (a.Incr? || a.Mark? || a.Fetch? || a.Execute?)
    requires was.pc.Executed? && (tok in s.att ==> s.att[tok] == was)
    ensures Apply(reg, s, a).nextTok == s.nextTok && Apply(reg, s, a).att.Keys == s.att.Keys
    ensures tok in s.att ==> Apply(reg, s, a).att[tok] == was
  {
  }

  lemma {:induction false} ExecutedRun(reg: Registry, s: Sys, acts: seq<Action>, tok: nat, was: Attempt)
    requires Inv(s) && CanRun(reg, s, acts) && was.pc.Executed? && tok < s.nextTok && (tok in s.att ==> s.att[tok] == was)
    ensures tok in Run(reg, s, acts).att ==> Run(reg, s, acts).att[tok] == was
    decreases |acts|
  {
    if acts != [] {
      StepInv(reg, s, acts[0]);
      ExecutedStep(reg, s, acts[0], tok, was);
      ExecutedRun(reg, Apply(reg, s, acts[0]), acts[1..], tok, was);
    }
  }

  /** Where a finish puts the task, if the attempt's body raised with its retry allowed. */
  lemma FinishWaits(reg: Registry, s: Sys, tok: nat, was: Attempt, asked: Option<int>, keep: bool, now: nat)
    requires HasTok(s, tok) && RaisedSo(reg, s.att[tok], was, asked)
    ensures var r, tries := reg[was.pc.payload.name], was.pc.tries;
            && Enabled(s, Finish(tok, keep, now))
            && PutBack(s, Apply(reg, s, Finish(tok, keep, now)), was.msg, now + Wait(r, tries, asked))
  {
    Squares(was.pc.tries);
  }

  /** What was fetched as `was` has had a body that raised, with its retry allowed. */
  ghost predicate RaisedSo(reg: Registry, now: Attempt, was: Attempt, asked: Option<int>) {
    && was.pc.Fetched? && !was.pc.aborted && now.msg == was.msg
    && was.pc.payload.name in reg && was.pc.tries <= reg[was.pc.payload.name].maxRetries
    && now.pc == Executed(was.pc.tries, was.pc.payload, Decide(reg, was.pc.payload, was.pc.tries, false, Raised(asked)))
  }

  /** The body of `tok` has had its outcome, and then `acts` went on. */
  ghost predicate Amidst(reg: Registry, s: Sys, tok: nat, body: Body, acts: seq<Action>, s2: Sys) {
    && HasTok(s, tok) && s.att[tok].pc.Fetched? && tok in s2.att
    && CanRun(reg, Apply(reg, s, Execute(tok, body)), acts) && s2 == Run(reg, Apply(reg, s, Execute(tok, body)), acts)
  }

  /** The outcome of a body is what the attempt still has when it is finished. */
  lemma ExecutesOn(reg: Registry, s: Sys, tok: nat, body: Body, acts: seq<Action>, s2: Sys)
    requires Inv(s) && Amidst(reg, s, tok, body, acts, s2)
    ensures var pc := s.att[tok].pc;
            && HasTok(s2, tok) && s2.att[tok].msg == s.att[tok].msg
            && s2.att[tok].pc == Executed(pc.tries, pc.payload, Decide(reg, pc.payload, pc.tries, pc.aborted, body))
  {
    var s1 := Apply(reg, s, Execute(tok, body));
    StepInv(reg, s, Execute(tok, body));
    ExecutedRun(reg, s1, acts, tok, s1.att[tok]);
    RunInv(reg, s1, acts);
  }

  /** The same with anything at all going on while the body's outcome is on its way: a retry
      waits from the moment of the finish for what the body or the registration says. */
  lemma RaisedWaitsAmidst(reg: Registry, s: Sys, tok: nat, asked: Option<int>, acts: seq<Action>, s2: Sys,
                          keep: bool, now: nat)
    requires Inv(s) && Amidst(reg, s, tok, Raised(asked), acts, s2) && !s.att[tok].pc.aborted
    requires var pc := s.att[tok].pc; pc.payload.name in reg && pc.tries <= reg[pc.payload.name].maxRetries
    ensures var r, tries := reg[s.att[tok].pc.payload.name], s.att[tok].pc.tries;
            && Enabled(s2, Finish(tok, keep, now))
            && PutBack(s2, Apply(reg, s2, Finish(tok, keep, now)), s.att[tok].msg, now + Wait(r, tries, asked))
  {
    ExecutesOn(reg, s, tok, Raised(asked), acts, s2);
    FinishWaits(reg, s2, tok, s.att[tok], asked, keep, now);
  }

  // ----- and from there to the stream

  /** The tasks of a promotion become entries in the order listed. */
  lemma {:induction false} PromotedInOrder(l: Lane, due: seq<Id>, i: nat)
    requires LaneOk(l) && i < |due|
    requires Distinct(due) && forall j :: 0 <= j < |due| ==> due[j] in l.delayed
    ensures var l' := Store.Promote(l, due);
            l.next + i in l'.stream && l'.stream[l.next + i] == Item(due[i], l.delayed[due[i]])
    decreases |due|
  {
    var l1 := PromoteOne(l, due[0]);
    XAddOk(ZRem(l, due[0]), due[0], l.delayed[due[0]]);
    if i == 0 {
      Drain.PromoteOwned("", l1, due[1..]);
    } else {
      PromotedInOrder(l1, due[1..], i - 1);
      assert l1.next + (i - 1) == l.next + i;
    }
  }

  lemma ListedEarlier(l: Lane, now: int, due: seq<Id>, i: nat, j: nat)
    requires IsDue(l, now, due) && i < |due| && j < |due| && due[i] in l.delayed && due[j] in l.delayed
    ensures l.delayed[due[i]] < l.delayed[due[j]] ==> i < j
  {
  }

  /** Of two tasks that a promotion moves, the one due earlier is the older entry, and so the
      one read first. */
  lemma EarlierFirst(reg: Registry, s: Sys, lane: nat, now: int, due: seq<Id>, a: Id, b: Id) returns (x: nat, y: nat)
    requires LanesOk(s.db) && Enabled(s, Action.Promote(lane, now, due))
    requires a in due && b in due && s.db.lanes[lane].delayed[a] < s.db.lanes[lane].delayed[b]
    ensures var l, l' := s.db.lanes[lane], Apply(reg, s, Action.Promote(lane, now, due)).db.lanes[lane];
            && l.next <= x < y && x in l'.stream && y in l'.stream
            && l'.stream[x] == Item(a, l.delayed[a]) && l'.stream[y] == Item(b, l.delayed[b])
  {
    var l := s.db.lanes[lane];
    assert LaneOk(l) && forall i :: 0 <= i < |due| ==> due[i] in due;
    var i :| 0 <= i < |due| && due[i] == a;
    var j :| 0 <= j < |due| && due[j] == b;
    ListedEarlier(l, now, due, i, j);
    PromotedInOrder(l, due, i);
    PromotedInOrder(l, due, j);
    x, y := l.next + i, l.next + j;
  }

  /** A promotion moves what is due by its clock to the stream, unread and under its time, and
      leaves alone what is not. */
  lemma MovedWhenDue(reg: Registry, s: Sys, lane: nat, now: int, due: seq<Id>, id: Id)
    requires LanesOk(s.db) && Enabled(s, Action.Promote(lane, now, due)) && id in s.db.lanes[lane].delayed
    ensures MovedBy(s.db.lanes[lane], Apply(reg, s, Action.Promote(lane, now, due)).db.lanes[lane], now, id)
  {
    assert forall i :: 0 <= i < |due| ==> due[i] in due;
    assert LaneOk(s.db.lanes[lane]);
    PromoteMoves(s.db.lanes[lane], now, due, id);
  }

  /** By the clock `now`: still there if it is not due, and otherwise an unread entry. */
  ghost predicate MovedBy(l: Lane, l': Lane, now: int, id: Id)
    requires id in l.delayed
  {
    && (now < l.delayed[id] ==> id in l'.delayed && l'.delayed[id] == l.delayed[id])
    && (now >= l.delayed[id] ==>
          && id !in l'.delayed
          && exists sid: nat ::
               sid in l'.stream && sid !in l.stream && sid > l'.last && l'.stream[sid] == Item(id, l.delayed[id]))
  }

  lemma PromoteMoves(l: Lane, now: int, due: seq<Id>, id: Id)
    requires LaneOk(l) && id in l.delayed && IsDue(l, now, due)
    requires forall i :: 0 <= i < |due| ==> due[i] in l.delayed
    ensures MovedBy(l, Store.Promote(l, due), now, id)
  {
    Burst.PromoteNothingDue(l, due);
    if now >= l.delayed[id] {
      var i :| 0 <= i < |due| && due[i] == id;
      PromotedInOrder(l, due, i);
      Runs.PromoteKeepsLast(l, due);
    }
  }

  /** Neither a promotion of its lane by a clock that has reached `at` nor an abort or a purge
      of the task itself. */
  ghost predicate BeforeItsTime(a: Action, lane: nat, id: Id, at: int) {
    && (a.Promote? && a.lane == lane ==> a.now < at)
    && a != Abort(id, true) && a != Abort(id, false)
    && (a.Purge? && a.lane == lane ==> id !in a.ids)
  }

  ghost predicate WaitsIn(db: Db, lane: nat, id: Id, at: int) {
    lane < |db.lanes| && id in db.lanes[lane].delayed && db.lanes[lane].delayed[id] == at
  }

  lemma {:induction false} PurgeSpares(db: Db, lane: nat, ids: seq<Id>, sids: seq<nat>, i: nat, id: Id, at: int)
    requires lane < |db.lanes| && WaitsIn(db, i, id, at) && (i == lane ==> id !in ids)
    requires Distinct(sids) && forall i :: 0 <= i < |sids| ==> sids[i] in db.lanes[lane].stream
    ensures WaitsIn(Store.Purge(db, lane, ids, sids), i, id, at)
    decreases |ids|, |sids|
  {
    if ids != [] {
      assert ids == [ids[0]] + ids[1..];
      PurgeSpares(DropScheduled(db, lane, ids[0]), lane, ids[1..], sids, i, id, at);
    } else if sids != [] {
      PurgeSpares(DropWaiting(db, lane, sids[0]), lane, [], sids[1..], i, id, at);
    }
  }

  lemma PromoteSpares(reg: Registry, s: Sys, a: Action, lane: nat, id: Id, at: int)
    requires LanesOk(s.db) && Enabled(s, a) && a.Promote? && BeforeItsTime(a, lane, id, at) && WaitsIn(s.db, lane, id, at)
    ensures WaitsIn(Apply(reg, s, a).db, lane, id, at)
  {
    if a.lane == lane {
      MovedWhenDue(reg, s, lane, a.now, a.due, id);
    }
  }

  lemma EndSpares(db: Db, db': Db, m: Msg, lane: nat, id: Id, at: int)
    requires WaitsIn(db, lane, id, at) && m.id != id && m.lane < |db.lanes| == |db'.lanes|
    requires db'.lanes == db.lanes[m.lane := db'.lanes[m.lane]]
    requires db'.lanes[m.lane].delayed - {m.id} == db.lanes[m.lane].delayed - {m.id}
    ensures WaitsIn(db', lane, id, at)
  {
    assert id in db.lanes[m.lane].delayed <==> id in db.lanes[m.lane].delayed - {m.id};
    assert id in db'.lanes[m.lane].delayed <==> id in db'.lanes[m.lane].delayed - {m.id};
    if lane == m.lane {
      assert (db'.lanes[m.lane].delayed - {m.id})[id] == (db.lanes[m.lane].delayed - {m.id})[id];
    }
  }

  lemma FinishSpares(reg: Registry, s: Sys, a: Action, lane: nat, id: Id, at: int)
    requires Enabled(s, a) && a.Finish? && WaitsIn(s.db, lane, id, at) && s.att[a.tok].msg.id != id
    ensures WaitsIn(Apply(reg, s, a).db, lane, id, at)
  {
    EndSpares(s.db, Apply(reg, s, a).db, s.att[a.tok].msg, lane, id, at);
  }

  lemma AbortSpares(db: Db, x: Id, keep: bool, lane: nat, id: Id, at: int)
    requires WaitsIn(db, lane, id, at) && x != id
    ensures WaitsIn(Store.Abort(db, x, keep), lane, id, at)
  {
  }

  lemma StagingSpares(reg: Registry, s: Sys, a: Action, lane: nat, id: Id, at: int)
    requires Enabled(s, a) && (a.Enqueue? || a.Replay?) && WaitsIn(s.db, lane, id, at) && id in s.db.data
    ensures WaitsIn(Apply(reg, s, a).db, lane, id, at)
  {
  }

  /** What an attempt or a worker does short of a finish, and what expires. */
  lemma OthersSpare(reg: Registry, s: Sys, a: Action, lane: nat, id: Id, at: int)
    requires Enabled(s, a) && WaitsIn(s.db, lane, id, at)
    requires !a.Purge? && !a.Promote? && !a.Finish? && !a.Abort? && !a.Enqueue? && !a.Replay?
    ensures WaitsIn(Apply(reg, s, a).db, lane, id, at)
  {
  }

  lemma StepSpares(reg: Registry, s: Sys, a: Action, lane: nat, id: Id, at: int)
    requires LanesOk(s.db) && Unheld(s, id) && id in s.db.data
    requires Enabled(s, a) && BeforeItsTime(a, lane, id, at) && WaitsIn(s.db, lane, id, at)
    ensures WaitsIn(Apply(reg, s, a).db, lane, id, at)
  {
    if a.Purge? {
      PurgeSpares(s.db, a.lane, a.ids, a.sids, lane, id, at);
    } else if a.Promote? {
      PromoteSpares(reg, s, a, lane, id, at);
    } else if a.Finish? {
      assert !Has(s, a.tok, id);
      FinishSpares(reg, s, a, lane, id, at);
    } else if a.Abort? {
      AbortSpares(s.db, a.id, a.keep, lane, id, at);
    } else if a.Enqueue? || a.Replay? {
      StagingSpares(reg, s, a, lane, id, at);
    } else {
      OthersSpare(reg, s, a, lane, id, at);
    }
  }

  /** A task that waits for its time waits: whatever else is done, to it or to others, in steps
      safe for it, it stays in its delayed set under the same score and in nobody's hands,
      until a promotion by a clock that has reached that score, or an abort or a purge of it. */
  lemma {:induction false} NotBeforeItsTime(reg: Registry, s: Sys, acts: seq<Action>, lane: nat, id: Id, at: int)
    requires TokenInv(s, id) && WaitsIn(s.db, lane, id, at)
    requires CanRun(reg, s, acts) && AllSafe(reg, s, acts, id)
    requires forall i :: 0 <= i < |acts| ==> BeforeItsTime(acts[i], lane, id, at)
    ensures WaitsIn(Run(reg, s, acts).db, lane, id, at) && Unheld(Run(reg, s, acts), id)
    decreases |acts|
  {
    assert At(s.db, id, Later(lane));
    IdleIsUnheld(s, id, Later(lane));
    if acts != [] {
      StepSpares(reg, s, acts[0], lane, id, at);
      TokenStep(reg, s, acts[0], id);
      NotBeforeItsTime(reg, Apply(reg, s, acts[0]), acts[1..], lane, id, at);
    }
  }
}
