/** The worker's loop against the protocol, both ways: whatever the protocol lets others do
    the loop allows for, and whatever the loop does to the lanes a run of the protocol does. */
module World {
  import opened Wrappers
  import opened Store
  import opened RedisStore
  import opened Protocol
  import opened Stranding
  import opened Purge
  import opened Drain
  import opened Burst
  import opened Shutdown
  import opened ReadBatch
  import opened Takes
  import Runs = Progress
  import W = WorkerLoop

  // ----- everyone else

  /** The entry `tok` holds is pending under somebody else, or under nobody. */
  ghost predicate NotMine(me: Worker, s: Sys, tok: nat)
    requires HasTok(s, tok)
  {
    var m, l := s.att[tok].msg, s.db.lanes[s.att[tok].msg.lane];
    s.att[tok].worker != me && (m.sid in l.pending ==> l.pending[m.sid] != me)
  }

  /** The step is somebody else's, and takes nothing that is pending under `me`. */
  ghost predicate SomeoneElses(me: Worker, s: Sys, a: Action)
    requires Enabled(s, a)
  {
    match a
    case Read(w, _, _) => w != me
    case Reclaim(w, lane, sid) => w != me && s.db.lanes[lane].pending[sid] != me
    case Renew(tok) => NotMine(me, s, tok)
    case Finish(tok, _, _) => NotMine(me, s, tok)
    case Release(tok) => NotMine(me, s, tok)
    case _ => true
  }

  /** What is pending under `me` stays so, entry and all, and nothing joins it. */
  ghost predicate MineKept(me: Worker, l: Lane, l': Lane) {
    && (forall sid :: sid in l'.pending && l'.pending[sid] == me <==> sid in l.pending && l.pending[sid] == me)
    && (forall sid :: sid in l.pending && l.pending[sid] == me ==>
          sid in l.stream && sid in l'.stream && l'.stream[sid] == l.stream[sid])
  }

  ghost predicate AllMineKept(me: Worker, db: Db, db': Db) {
    |db'.lanes| == |db.lanes| && forall i :: 0 <= i < |db.lanes| ==> MineKept(me, db.lanes[i], db'.lanes[i])
  }

  lemma OneLaneKept(me: Worker, db: Db, db': Db, i: nat, l: Lane)
    requires LanesOk(db) && i < |db.lanes| && db'.lanes == db.lanes[i := l] && MineKept(me, db.lanes[i], l)
    ensures AllMineKept(me, db, db')
  {
    assert forall j :: 0 <= j < |db.lanes| ==> LaneOk(db.lanes[j]);
  }

  lemma SameLanesKept(me: Worker, db: Db, db': Db)
    requires LanesOk(db) && db'.lanes == db.lanes
    ensures AllMineKept(me, db, db')
  {
    assert forall j :: 0 <= j < |db.lanes| ==> LaneOk(db.lanes[j]);
  }

  lemma StageKept(me: Worker, db: Db, lane: nat, id: Id, p: Payload, score: int, expire: int, now: int, reset: bool)
    requires LanesOk(db) && lane < |db.lanes|
    ensures AllMineKept(me, db, Stage(db, lane, id, p, score, expire, now, reset))
  {
    var l := db.lanes[lane];
    assert LaneOk(l);
    assert MineKept(me, l, XAdd(l, id, now)) && MineKept(me, l, ZAdd(l, id, score));
    SameLanesKept(me, db, db);
  }

  lemma ReplayKept(me: Worker, db: Db, lane: nat, id: Id, p: Payload, now: int)
    requires LanesOk(db) && lane < |db.lanes|
    ensures AllMineKept(me, db, Store.Replay(db, lane, id, p, now))
  {
    var l := db.lanes[lane];
    assert LaneOk(l) && MineKept(me, l, XAdd(l, id, now));
    SameLanesKept(me, db, db);
  }

  lemma AbortKept(me: Worker, db: Db, id: Id, keep: bool)
    requires LanesOk(db)
    ensures AllMineKept(me, db, Store.Abort(db, id, keep))
  {
    forall i | 0 <= i < |db.lanes|
      ensures MineKept(me, db.lanes[i], Store.Abort(db, id, keep).lanes[i])
    {
      assert LaneOk(db.lanes[i]);
    }
  }

  lemma PromoteKept(me: Worker, db: Db, db': Db, lane: nat, due: seq<Id>)
    requires LanesOk(db) && lane < |db.lanes| && Distinct(due)
    requires forall i :: 0 <= i < |due| ==> due[i] in db.lanes[lane].delayed
    requires db'.lanes == db.lanes[lane := Store.Promote(db.lanes[lane], due)]
    ensures AllMineKept(me, db, db')
  {
    assert LaneOk(db.lanes[lane]);
    PromoteOwned(me, db.lanes[lane], due);
    OneLaneKept(me, db, db', lane, Store.Promote(db.lanes[lane], due));
  }

  lemma PurgeKept(me: Worker, db: Db, lane: nat, ids: seq<Id>, sids: seq<nat>)
    requires LanesOk(db) && lane < |db.lanes| && Distinct(sids)
    requires forall i :: 0 <= i < |sids| ==> sids[i] in db.lanes[lane].stream && sids[i] > db.lanes[lane].last
    ensures AllMineKept(me, db, Store.Purge(db, lane, ids, sids))
  {
    PurgeDrops(db, lane, ids, sids);
    assert LaneOk(db.lanes[lane]);
    OneLaneKept(me, db, Store.Purge(db, lane, ids, sids), lane, Store.Purge(db, lane, ids, sids).lanes[lane]);
  }

  lemma ClientKept(me: Worker, reg: Registry, s: Sys, a: Action)
    requires Inv(s) && Enabled(s, a)
    requires a.Enqueue? || a.Promote? || a.Replay? || a.Abort? || a.Purge?
    ensures AllMineKept(me, s.db, Apply(reg, s, a).db)
  {
    match a
    case Enqueue(lane, id, p, score, expire, now, reset) =>
      StageKept(me, s.db, lane, id, p, score, expire, now, reset);
      SameLanesKept(me, s.db, s.db);
    case Replay(lane, id, p, now) => ReplayKept(me, s.db, lane, id, p, now);
    case Promote(lane, now, due) =>
      assert forall i :: 0 <= i < |due| ==> due[i] in due;
      PromoteKept(me, s.db, Apply(reg, s, a).db, lane, due);
    case Abort(id, keep) => AbortKept(me, s.db, id, keep);
    case Purge(lane, ids, sids) => PurgeKept(me, s.db, lane, ids, sids);
  }

  lemma TakeKept(me: Worker, s: Sys, w: Worker, lane: nat, sid: nat)
    requires LanesOk(s.db) && lane < |s.db.lanes| && w != me
    ensures IsHead(s.db.lanes[lane], sid) ==> MineKept(me, s.db.lanes[lane], Deliver(s.db.lanes[lane], sid, w))
    ensures sid in s.db.lanes[lane].pending && s.db.lanes[lane].pending[sid] != me ==>
              MineKept(me, s.db.lanes[lane], Reassign(s.db.lanes[lane], sid, w))
  {
    assert LaneOk(s.db.lanes[lane]);
  }

  lemma DropKept(me: Worker, l: Lane, m: Msg, at: int)
    requires LaneOk(l) && (m.sid in l.pending ==> l.pending[m.sid] != me)
    ensures MineKept(me, l, XDrop(l, m.sid)) && MineKept(me, l, ZAdd(XDrop(l, m.sid), m.id, at))
    ensures MineKept(me, l, XDrop(XAdd(l, m.id, m.time), m.sid))
  {
  }

  lemma WorkerKept(me: Worker, reg: Registry, s: Sys, a: Action)
    requires Inv(s) && Enabled(s, a) && SomeoneElses(me, s, a)
    requires a.Read? || a.Reclaim? || a.Renew? || a.Finish? || a.Release?
    ensures AllMineKept(me, s.db, Apply(reg, s, a).db)
  {
    var db' := Apply(reg, s, a).db;
    if a.Read? || a.Reclaim? {
      TakeKept(me, s, a.worker, a.lane, a.sid);
      OneLaneKept(me, s.db, db', a.lane, db'.lanes[a.lane]);
    } else {
      var m := s.att[a.tok].msg;
      assert LaneOk(s.db.lanes[m.lane]);
      if a.Renew? {
        TakeKept(me, s, s.att[a.tok].worker, m.lane, m.sid);
        SameLanesKept(me, s.db, s.db);
      } else {
        var pc := s.att[a.tok].pc;
        DropKept(me, s.db.lanes[m.lane], m,
                 if a.Finish? && pc.Executed? && pc.outcome.Retry? then FireAt(a.now, pc.tries, pc.outcome.delayMs) else 0);
      }
      OneLaneKept(me, s.db, db', m.lane, db'.lanes[m.lane]);
    }
  }

  /** Any step of the protocol at all, reclaims from this worker and all, is one the loop
      allows for. */
  lemma StepIsOthers(reg: Registry, s: Sys, a: Action, c: W.Config, w: W.State)
    requires Inv(s) && Enabled(s, a) && w.lanes == s.db.lanes
    ensures W.Enabled(c, w, W.Others(Apply(reg, s, a).db.lanes))
  {
    StepInv(reg, s, a);
    StepOnward(reg, s, a);
  }

  /** A step that is somebody else's, and takes nothing pending under the worker, is a calm
      one. */
  lemma ElsewhereIsCalm(reg: Registry, s: Sys, a: Action, c: W.Config, w: W.State)
    requires Inv(s) && Enabled(s, a) && SomeoneElses(c.me, s, a) && w.lanes == s.db.lanes
    ensures Calm(c, w, W.Others(Apply(reg, s, a).db.lanes))
  {
    var me, db' := c.me, Apply(reg, s, a).db;
    StepInv(reg, s, a);
    StepOnward(reg, s, a);
    if a.Enqueue? || a.Promote? || a.Replay? || a.Abort? || a.Purge? {
      ClientKept(me, reg, s, a);
    } else if a.Read? || a.Reclaim? || a.Renew? || a.Finish? || a.Release? {
      WorkerKept(me, reg, s, a);
    } else {
      SameLanesKept(me, s.db, db');
    }
    forall i | 0 <= i < |db'.lanes|
      ensures Elsewhere(me, s.db.lanes[i], db'.lanes[i])
    {
      assert Onward(s.db.lanes[i], db'.lanes[i]) && MineKept(me, s.db.lanes[i], db'.lanes[i]);
    }
  }

  // ----- who brings work

  /** Not an enqueue, a replay, a promotion, a retry or a release, and nothing is taken under
      the name `me`: an abort, a purge, an expiry, a crash, or another worker at work. */
  ghost predicate BringsNoWork(me: Worker, s: Sys, a: Action)
    requires Enabled(s, a)
  {
    match a
    case Enqueue(_, _, _, _, _, _, _) => false
    case Replay(_, _, _, _) => false
    case Promote(_, _, _) => false
    case Release(_) => false
    case Read(w, _, _) => w != me
    case Reclaim(w, _, _) => w != me
    case Renew(tok) => s.att[tok].worker != me
    case Finish(tok, _, _) => s.att[tok].pc.Executed? ==> !s.att[tok].pc.outcome.Retry?
    case _ => true
  }

  ghost predicate AllNothingAdded(me: Worker, db: Db, db': Db) {
    |db'.lanes| == |db.lanes| && forall i :: 0 <= i < |db.lanes| ==> NothingAdded(me, db.lanes[i], db'.lanes[i])
  }

  lemma OneLaneNotAdded(me: Worker, db: Db, db': Db, i: nat)
    requires i < |db.lanes| == |db'.lanes| && db'.lanes == db.lanes[i := db'.lanes[i]]
    requires NothingAdded(me, db.lanes[i], db'.lanes[i])
    ensures AllNothingAdded(me, db, db')
  {
  }

  lemma PurgeAddsNothing(me: Worker, db: Db, lane: nat, ids: seq<Id>, sids: seq<nat>)
    requires LanesOk(db) && lane < |db.lanes| && Distinct(sids)
    requires forall i :: 0 <= i < |sids| ==> sids[i] in db.lanes[lane].stream && sids[i] > db.lanes[lane].last
    ensures AllNothingAdded(me, db, Store.Purge(db, lane, ids, sids))
  {
    PurgeDrops(db, lane, ids, sids);
    OneLaneNotAdded(me, db, Store.Purge(db, lane, ids, sids), lane);
  }

  lemma TakeAddsNothing(me: Worker, s: Sys, w: Worker, lane: nat, sid: nat)
    requires LanesOk(s.db) && lane < |s.db.lanes| && w != me
    ensures IsHead(s.db.lanes[lane], sid) ==> NothingAdded(me, s.db.lanes[lane], Deliver(s.db.lanes[lane], sid, w))
    ensures NothingAdded(me, s.db.lanes[lane], Reassign(s.db.lanes[lane], sid, w))
  {
    assert LaneOk(s.db.lanes[lane]);
  }

  lemma WorkerAddsNothing(me: Worker, reg: Registry, s: Sys, a: Action)
    requires Inv(s) && Enabled(s, a) && BringsNoWork(me, s, a)
    requires a.Read? || a.Reclaim? || a.Renew? || a.Finish?
    ensures AllNothingAdded(me, s.db, Apply(reg, s, a).db)
  {
    var db' := Apply(reg, s, a).db;
    if a.Read? || a.Reclaim? {
      TakeAddsNothing(me, s, a.worker, a.lane, a.sid);
      OneLaneNotAdded(me, s.db, db', a.lane);
    } else {
      var m := s.att[a.tok].msg;
      if a.Renew? {
        TakeAddsNothing(me, s, s.att[a.tok].worker, m.lane, m.sid);
      }
      OneLaneNotAdded(me, s.db, db', m.lane);
    }
  }

  lemma AbortAddsNothing(me: Worker, db: Db, id: Id, keep: bool)
    ensures AllNothingAdded(me, db, Store.Abort(db, id, keep))
  {
  }

  lemma OthersAddNothing(me: Worker, reg: Registry, s: Sys, a: Action)
    requires Enabled(s, a) && BringsNoWork(me, s, a)
    requires !a.Purge? && !a.Abort? && !a.Read? && !a.Reclaim? && !a.Renew? && !a.Finish?
    ensures AllNothingAdded(me, s.db, Apply(reg, s, a).db)
  {
    assert Apply(reg, s, a).db.lanes == s.db.lanes;
  }

  /** Such a step is one that a burst worker may share the queue with. */
  lemma NoWorkIsBrought(reg: Registry, s: Sys, a: Action, c: W.Config, w: W.State)
    requires Inv(s) && Enabled(s, a) && BringsNoWork(c.me, s, a) && w.lanes == s.db.lanes
    ensures BringsNothing(c, w, W.Others(Apply(reg, s, a).db.lanes))
  {
    var db' := Apply(reg, s, a).db;
    if a.Purge? {
      PurgeAddsNothing(c.me, s.db, a.lane, a.ids, a.sids);
    } else if a.Abort? {
      AbortAddsNothing(c.me, s.db, a.id, a.keep);
    } else if a.Read? || a.Reclaim? || a.Renew? || a.Finish? {
      WorkerAddsNothing(c.me, reg, s, a);
    } else {
      OthersAddNothing(c.me, reg, s, a);
    }
    assert AllNothingAdded(c.me, s.db, db');
  }

  // ----- the worker itself

  /** The tokens `toks` hold `msgs`, one each, prefetched. */
  ghost predicate HoldAll(s: Sys, toks: seq<nat>, msgs: seq<Msg>) {
    && |toks| == |msgs| && Distinct(toks)
    && forall i :: 0 <= i < |toks| ==>
         HasTok(s, toks[i]) && s.att[toks[i]].msg == msgs[i] && s.att[toks[i]].pc.Prefetched?
  }

  /** Handing back several messages is releasing one after another. */
  lemma {:induction false} GiveBackIsReleases(reg: Registry, s: Sys, toks: seq<nat>, msgs: seq<Msg>)
    returns (acts: seq<Action>)
    requires HoldAll(s, toks, msgs)
    ensures CanRun(reg, s, acts) && forall i :: 0 <= i < |msgs| ==> msgs[i].lane < |s.db.lanes|
    ensures Run(reg, s, acts).db == s.db.(lanes := W.GivenBack(s.db.lanes, msgs))
    decreases |msgs|
  {
    acts := [];
    if msgs != [] {
      assert HasTok(s, toks[0]) && forall i :: 0 <= i < |toks| ==> HasTok(s, toks[i]);
      var s1 := Apply(reg, s, Release(toks[0]));
      assert forall i :: 0 <= i < |toks[1..]| ==> toks[1..][i] == toks[i + 1] && toks[i + 1] != toks[0];
      var rest := GiveBackIsReleases(reg, s1, toks[1..], msgs[1..]);
      Runs.StepFirst(reg, s, Release(toks[0]), rest);
      acts := [Release(toks[0])] + rest;
    }
  }

  /** Of distinct messages in a worker's hands, each has a token of its own. */
  lemma {:induction false} TokensOf(s: Sys, from: nat, msgs: seq<Msg>, w: Worker) returns (toks: seq<nat>)
    requires Distinct(msgs) && forall i :: 0 <= i < |msgs| ==> InHands(s, from, msgs[i], w) && msgs[i].lane < |s.db.lanes|
    ensures HoldAll(s, toks, msgs)
    decreases |msgs|
  {
    toks := [];
    if msgs != [] {
      assert InHands(s, from, msgs[0], w);
      var tok :| from <= tok < s.nextTok && tok in s.att && s.att[tok] == Attempt(msgs[0], w, Prefetched);
      var rest := TokensOf(s, from, msgs[1..], w);
      toks := [tok] + rest;
    }
  }

  lemma OnceEach(a: seq<Msg>, b: seq<Msg>)
    requires forall m :: multiset(a + b)[m] <= 1
    ensures Distinct(b)
  {
    forall i, j | 0 <= i < j < |b|
      ensures b[i] != b[j]
    {
      assert b == b[..i] + [b[i]] + b[i + 1..] && b[j] in b[i + 1..];
      assert multiset(a + b)[b[i]] >= multiset(b[i + 1..])[b[i]] + 1;
    }
  }

  /** How an attempt that has come this far ends its message. */
  ghost predicate EndsAs(pc: Pc, now: nat, how: W.Ending) {
    match how
    case Acked => pc.Missing? || (pc.Executed? && !pc.outcome.Retry?)
    case Later(fireAt) => pc.Executed? && pc.outcome.Retry? && fireAt == FireAt(now, pc.tries, pc.outcome.delayMs)
    case Lost => true
  }

  /** What the loop finishes or hands back, `toks` hold in the protocol. */
  ghost predicate Backed(s: Sys, w: W.State, st: W.Step, toks: seq<nat>, now: nat) {
    match st
    case Finish(k, how) =>
      && |toks| == 1 && HasTok(s, toks[0]) && k < |w.cons| && w.cons[k].Running?
      && s.att[toks[0]].msg == w.cons[k].msg && EndsAs(s.att[toks[0]].pc, now, how)
    case GiveBack => w.main.Leftover? && HoldAll(s, toks, w.main.msgs)
    case _ => true
  }

  lemma FinishIsStep(reg: Registry, s: Sys, tok: nat, now: nat, how: W.Ending) returns (acts: seq<Action>)
    requires HasTok(s, tok) && EndsAs(s.att[tok].pc, now, how)
    ensures CanRun(reg, s, acts)
    ensures var m := s.att[tok].msg;
            Run(reg, s, acts).db.lanes == s.db.lanes[m.lane := W.EndLane(s.db.lanes[m.lane], m, how)]
  {
    if how.Lost? {
      acts := [];
    } else {
      Runs.OneStep(reg, s, Finish(tok, false, now));
      acts := [Finish(tok, false, now)];
    }
  }

  /** A batch of which `extra` is released again. */
  lemma BatchThenRelease(reg: Registry, s: Sys, w: Worker, after: seq<Lane>, sids: seq<seq<nat>>, msgs: seq<Msg>,
                         extra: seq<Msg>)
    returns (acts: seq<Action>)
    requires LanesOk(s.db) && Progress(s.db.lanes, after, w, sids, msgs + extra)
    ensures forall i :: 0 <= i < |extra| ==> extra[i].lane < |after|
    ensures CanRun(reg, s, acts) && Run(reg, s, acts).db.lanes == W.GivenBack(after, extra)
  {
    var all := msgs + extra;
    var first := BatchIsSteps(reg, s, w, after, sids, all);
    var s1 := Run(reg, s, first);
    forall m
      ensures multiset(all)[m] <= 1
    {
      BatchHolds(s.db.lanes, after, w, sids, all, m);
    }
    OnceEach(msgs, extra);
    forall i | 0 <= i < |extra|
      ensures extra[i].lane < |after| && InHands(s1, s.nextTok, extra[i], w)
    {
      assert extra[i] == all[|msgs| + i] && extra[i] in all;
    }
    var toks := TokensOf(s1, s.nextTok, extra, w);
    var last := GiveBackIsReleases(reg, s1, toks, extra);
    Runs.JoinRuns(reg, s, first, last);
    acts := first + last;
  }

  /** And whatever a step of the worker's own does to the lanes, a run of protocol steps does:
      a batch is reclaims and reads, what was read beyond the permits is released again, a
      promotion, a finish and the handing back of the leftovers are their namesakes. */
  lemma OwnStepIsRun(reg: Registry, s: Sys, c: W.Config, w: W.State, st: W.Step, toks: seq<nat>, now: nat)
    returns (acts: seq<Action>)
    requires LanesOk(s.db) && w.lanes == s.db.lanes && W.Enabled(c, w, st) && Own(st) && Backed(s, w, st, toks, now)
    ensures CanRun(reg, s, acts) && Run(reg, s, acts).db.lanes == W.Next(c, w, st).lanes
  {
    match st
    case Read(lanes, sids, msgs) => acts := BatchIsSteps(reg, s, c.me, lanes, sids, msgs);
    case ReadOne(lanes, sids, msgs, extra) => acts := BatchThenRelease(reg, s, c.me, lanes, sids, msgs, extra);
    case Finish(k, how) => acts := FinishIsStep(reg, s, toks[0], now, how);
    case GiveBack => acts := GiveBackIsReleases(reg, s, toks, w.main.msgs);
    case PromoteLane(due) =>
      var a := Action.Promote(w.prod.lane, w.prod.now, due);
      assert forall i :: 0 <= i < |due| ==> due[i] in due;
      Runs.OneStep(reg, s, a);
      acts := [a];
    case _ => acts := [];
  }
}
