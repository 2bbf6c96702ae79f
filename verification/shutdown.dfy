/** A stop always ends: a send can never block, no state short of the end is stuck, and
    once stopping every step of the worker's own brings the end nearer. */
module Shutdown {
  import opened Store
  import opened Protocol
  import opened RedisStore
  import opened Stranding
  import opened ReadBatch
  import Runs = Progress
  import W = WorkerLoop

  /** The channel has room whenever the producer is about to send, so `tx.send` never
      waits: a permit stands behind every message. */
  lemma SendNeverBlocks(c: W.Config, w: W.State)
    requires W.Acct(c, w) && w.prod.Push? && w.main.Joining?
    ensures W.Enabled(c, w, W.Send)
  {
  }

  // ----- no step is ever missing

  ghost predicate LanesFine(lanes: seq<Lane>) {
    forall i :: 0 <= i < |lanes| ==> LaneOk(lanes[i])
  }

  lemma EndLaneOk(l: Lane, m: Msg, how: W.Ending)
    requires LaneOk(l) && (how.Later? ==> how.fireAt >= 0)
    ensures LaneOk(W.EndLane(l, m, how))
  {
    XDropOk(l, m.sid);
  }

  lemma {:induction false} PromoteLaneOk(l: Lane, due: seq<Id>)
    requires LaneOk(l) && Distinct(due) && forall i :: 0 <= i < |due| ==> due[i] in l.delayed
    ensures LaneOk(Store.Promote(l, due))
    decreases |due|
  {
    if due != [] {
      assert LaneOk(ZRem(l, due[0]));
      XAddOk(ZRem(l, due[0]), due[0], l.delayed[due[0]]);
      PromoteLaneOk(PromoteOne(l, due[0]), due[1..]);
    }
  }

  lemma {:induction false} GivenBackOk(lanes: seq<Lane>, msgs: seq<Msg>)
    requires forall i :: 0 <= i < |msgs| ==> msgs[i].lane < |lanes|
    requires LanesFine(lanes)
    ensures LanesFine(W.GivenBack(lanes, msgs))
    decreases |msgs|
  {
    if msgs != [] {
      var m := msgs[0];
      XAddOk(lanes[m.lane], m.id, m.time);
      XDropOk(XAdd(lanes[m.lane], m.id, m.time), m.sid);
      GivenBackOk(lanes[m.lane := XDrop(XAdd(lanes[m.lane], m.id, m.time), m.sid)], msgs[1..]);
    }
  }

  lemma ReadLanes(c: W.Config, w: W.State, st: W.Step)
    requires LanesFine(w.lanes) && W.Enabled(c, w, st) && (st.Read? || st.ReadOne?)
    ensures LanesFine(W.Next(c, w, st).lanes)
  {
    assert LanesFine(st.lanes);
    if st.ReadOne? {
      assert forall i :: 0 <= i < |st.extra| ==> st.extra[i] == (st.msgs + st.extra)[|st.msgs| + i];
      GivenBackOk(st.lanes, st.extra);
    }
  }

  lemma StepLanes(c: W.Config, w: W.State, st: W.Step)
    requires LanesFine(w.lanes) && W.Enabled(c, w, st)
    ensures LanesFine(W.Next(c, w, st).lanes)
  {
    match st
    case Read(_, _, _) => ReadLanes(c, w, st);
    case ReadOne(_, _, _, _) => ReadLanes(c, w, st);
    case PromoteLane(due) =>
      var l := w.lanes[w.prod.lane];
      assert forall i :: 0 <= i < |due| ==> due[i] in due;
      PromoteLaneOk(l, due);
    case Finish(k, how) =>
      var m := w.cons[k].msg;
      EndLaneOk(w.lanes[m.lane], m, how);
    case GiveBack => GivenBackOk(w.lanes, w.main.msgs);
    case _ =>
  }

  /** The worker's own steps, as against a stop request and everyone else's. */
  predicate Own(st: W.Step) {
    !st.Stop? && !st.Others?
  }

  /** A step the producer takes, short of a failure or a stop. */
  predicate Producers(st: W.Step) {
    || st.Enter? || st.LoadRoom? || st.Choose? || st.Read? || st.ReadOne? || st.Wake? || st.TakePermit?
    || st.CountHeld? || st.Send? || st.StartPromote? || st.PromoteLane? || st.EndPromote? || st.Check?
  }

  lemma ProducerCanMove(c: W.Config, w: W.State) returns (st: W.Step)
    requires W.Acct(c, w) && LanesFine(w.lanes) && !w.prod.Done?
    ensures Producers(st) && W.Enabled(c, w, st)
  {
    match w.prod
    case Top => st := W.Enter;
    case Loading(_, room) => st := if |room| < |c.limits| then W.LoadRoom else W.Choose;
    case Reading(count, room) =>
      var lanes, sids, msgs := SomeRead(w.lanes, c.me, count, room);
      st := W.Read(lanes, sids, msgs);
    case Blocking(count, room) =>
      var lanes, sids, msgs := SomeRead(w.lanes, c.me, count, room);
      if msgs == [] {
        EmptyBatch(w.lanes, lanes, c.me, sids, room);
      }
      st := W.ReadOne(lanes, sids, msgs, []);
      assert msgs + [] == msgs;
    case Waiting(_) => st := W.Wake;
    case Sub(rest, _) => st := if rest == [] then W.StartPromote(0) else W.TakePermit;
    case Hold(rest, _) => assert rest[0] in rest; st := W.CountHeld;
    case Push(_, _) => st := W.Send;
    case Promoting(lane, now, _, _) =>
      if lane < |w.lanes| {
        var due := Runs.DueListing(w.lanes[lane], now);
        st := W.PromoteLane(due);
      } else {
        st := W.EndPromote;
      }
    case Checking(_, _, _) => st := W.Check;
  }

  lemma ConsumerCanMove(c: W.Config, w: W.State, k: nat) returns (st: W.Step)
    requires W.Acct(c, w) && k < |w.cons| && !w.cons[k].Exited?
    ensures Own(st) && W.Enabled(c, w, st)
  {
    match w.cons[k]
    case Idle => st := W.Poll(k);
    case Ready => st := W.Receive(k);
    case Running(_) => st := W.Finish(k, W.Acked);
    case Freeing(_) => st := W.FreeLane(k);
    case Returning => st := W.FreePermit(k);
  }

  /** No deadlock: short of the end, the worker always has a step of its own to take. */
  lemma NeverStuck(c: W.Config, w: W.State) returns (st: W.Step)
    requires W.Acct(c, w) && LanesFine(w.lanes) && !w.main.Stopped?
    ensures Own(st) && W.Enabled(c, w, st)
  {
    if !w.prod.Done? {
      st := ProducerCanMove(c, w);
    } else if k :| 0 <= k < |w.cons| && !w.cons[k].Exited? {
      st := ConsumerCanMove(c, w, k);
    } else {
      st := if w.main.Joining? then W.Join else W.GiveBack;
    }
  }

  // ----- and they run out

  function ProducerRank(n: nat, p: W.Producer): nat {
    match p
    case Done => 0
    case Top => 1
    case Checking(_, _, _) => 2
    case Promoting(lane, _, _, _) => 3 + if lane < n then n - lane else 0
    case Push(rest, _) => 2 + n + 3 * |rest|
    case Hold(rest, _) => 3 + n + 3 * |rest|
    case Sub(rest, _) => 4 + n + 3 * |rest|
    case Waiting(_) => 5 + n
    case Blocking(count, _) => 5 + n + 3 * Nat(count)
    case Reading(count, _) => 6 + n + 3 * Nat(count)
    case Loading(count, room) => 7 + n + 3 * Nat(count) + if |room| < n then n - |room| else 0
  }

  function ConsumerRank(x: W.Consumer): nat {
    match x
    case Exited => 0
    case Idle => 1
    case Returning => 2
    case Freeing(_) => 3
    case Running(_) => 4
    case Ready => 5
  }

  function RankSum(cons: seq<W.Consumer>): nat {
    if cons == [] then 0 else ConsumerRank(cons[0]) + RankSum(cons[1..])
  }

  lemma {:induction false} RankUpdate(cons: seq<W.Consumer>, k: nat, x: W.Consumer)
    requires k < |cons|
    ensures RankSum(cons[k := x]) == RankSum(cons) - ConsumerRank(cons[k]) + ConsumerRank(x)
  {
    if k == 0 {
      assert cons[k := x][1..] == cons[1..];
    } else {
      assert cons[k := x][1..] == cons[1..][k - 1 := x];
      RankUpdate(cons[1..], k - 1, x);
    }
  }

  function MainRank(m: W.Main): nat {
    match m
    case Joining => 2
    case Leftover(_) => 1
    case Stopped => 0
  }

  /** How many steps a stopping worker can still take. */
  function Remaining(c: W.Config, w: W.State): nat {
    ProducerRank(|c.limits|, w.prod) + RankSum(w.cons) + MainRank(w.main)
  }

  lemma ReadingTicks(c: W.Config, w: W.State, st: W.Step)
    requires W.Acct(c, w) && W.Enabled(c, w, st) && w.cancelled
    requires st.Enter? || st.LoadRoom? || st.Choose? || st.Read? || st.ReadOne? || st.Fail?
    ensures ProducerRank(|c.limits|, W.Next(c, w, st).prod) < ProducerRank(|c.limits|, w.prod)
  {
  }

  lemma SendingTicks(c: W.Config, w: W.State, st: W.Step)
    requires W.Acct(c, w) && W.Enabled(c, w, st) && w.cancelled
    requires st.Wake? || st.WakeStopped? || st.TakePermit? || st.CountHeld? || st.Send?
          || st.StartPromote? || st.PromoteLane? || st.EndPromote? || st.Check?
    ensures ProducerRank(|c.limits|, W.Next(c, w, st).prod) < ProducerRank(|c.limits|, w.prod)
  {
  }

  lemma ConsumerTicks(c: W.Config, w: W.State, st: W.Step, k: nat)
    requires W.Enabled(c, w, st) && w.cancelled
    requires st == W.Poll(k) || st == W.Receive(k) || (st.Finish? && st.k == k)
          || st == W.FreeLane(k) || st == W.FreePermit(k)
    ensures var w' := W.Next(c, w, st);
            && RankSum(w'.cons) < RankSum(w.cons) && w'.prod == w.prod && w'.main == w.main
  {
    RankUpdate(w.cons, k, W.Next(c, w, st).cons[k]);
  }

  lemma StepTicks(c: W.Config, w: W.State, st: W.Step)
    requires W.Acct(c, w) && W.Enabled(c, w, st) && w.cancelled && Own(st)
    ensures Remaining(c, W.Next(c, w, st)) < Remaining(c, w)
  {
    if st.Poll? || st.Receive? || st.Finish? || st.FreeLane? || st.FreePermit? {
      ConsumerTicks(c, w, st, st.k);
    } else if st.Enter? || st.LoadRoom? || st.Choose? || st.Read? || st.ReadOne? || st.Fail? {
      ReadingTicks(c, w, st);
    } else if !st.Join? && !st.GiveBack? {
      SendingTicks(c, w, st);
    }
  }

  function OwnSteps(steps: seq<W.Step>): nat {
    if steps == [] then 0 else (if Own(steps[0]) then 1 else 0) + OwnSteps(steps[1..])
  }

  /** Once stopping, the worker takes only so many more steps, however the rest of the
      world runs beside it; and `NeverStuck` says it can take them until it has stopped. */
  lemma {:induction false} StopsInTime(c: W.Config, w: W.State, steps: seq<W.Step>)
    requires W.Acct(c, w) && w.cancelled && W.CanRun(c, w, steps)
    ensures OwnSteps(steps) <= Remaining(c, w)
    decreases |steps|
  {
    if steps != [] {
      W.StepAcct(c, w, steps[0]);
      if Own(steps[0]) {
        StepTicks(c, w, steps[0]);
      }
      assert W.Next(c, w, steps[0]).cancelled;
      StopsInTime(c, W.Next(c, w, steps[0]), steps[1..]);
    }
  }

  /** From any state of any run of a worker, a stop is enough to reach the end. */
  lemma {:induction false} StopIsReached(c: W.Config, w: W.State) returns (steps: seq<W.Step>)
    requires W.Acct(c, w) && LanesFine(w.lanes) && w.cancelled
    ensures W.CanRun(c, w, steps) && W.Run(c, w, steps).main.Stopped?
    decreases Remaining(c, w)
  {
    steps := [];
    if !w.main.Stopped? {
      var st := NeverStuck(c, w);
      W.StepAcct(c, w, st);
      StepLanes(c, w, st);
      StepTicks(c, w, st);
      var rest := StopIsReached(c, W.Next(c, w, st));
      steps := [st] + rest;
      assert steps[1..] == rest;
    }
  }

  /** So a stop asked for at any moment of a run is one that can be brought to its end. */
  lemma StopEndsTheRun(c: W.Config, w: W.State) returns (steps: seq<W.Step>)
    requires W.Acct(c, w) && LanesFine(w.lanes)
    ensures W.CanRun(c, w, [W.Stop] + steps) && W.Run(c, w, [W.Stop] + steps).main.Stopped?
  {
    W.StepAcct(c, w, W.Stop);
    StepLanes(c, w, W.Stop);
    steps := StopIsReached(c, W.Next(c, w, W.Stop));
    assert ([W.Stop] + steps)[1..] == steps;
  }

  // ----- and so does an error

  /** How far a consumer is from leaving once the producer has left, stop or no stop. */
  function LeavingRank(x: W.Consumer): nat {
    match x
    case Exited => 0
    case Ready => 1
    case Idle => 2
    case Returning => 3
    case Freeing(_) => 4
    case Running(_) => 5
  }

  function LeavingSum(cons: seq<W.Consumer>): nat {
    if cons == [] then 0 else LeavingRank(cons[0]) + LeavingSum(cons[1..])
  }

  lemma {:induction false} LeavingUpdate(cons: seq<W.Consumer>, k: nat, x: W.Consumer)
    requires k < |cons|
    ensures LeavingSum(cons[k := x]) == LeavingSum(cons) - LeavingRank(cons[k]) + LeavingRank(x)
  {
    if k == 0 {
      assert cons[k := x][1..] == cons[1..];
    } else {
      assert cons[k := x][1..] == cons[1..][k - 1 := x];
      LeavingUpdate(cons[1..], k - 1, x);
    }
  }

  function UntilGone(w: W.State): nat {
    6 * |w.chan| + LeavingSum(w.cons) + MainRank(w.main)
  }

  lemma GoneNearer(c: W.Config, w: W.State, st: W.Step)
    requires W.Acct(c, w) && w.prod.Done? && W.Enabled(c, w, st) && Own(st)
    ensures UntilGone(W.Next(c, w, st)) < UntilGone(w) && W.Next(c, w, st).prod.Done?
  {
    if st.Poll? || st.Receive? || st.Finish? || st.FreeLane? || st.FreePermit? {
      LeavingUpdate(w.cons, st.k, W.Next(c, w, st).cons[st.k]);
    }
  }

  /** Once the producer has left, by a stop or because Redis failed it, the run ends: whoever
      is running something finishes it, the channel is emptied or handed back. */
  lemma {:induction false} EndsWithoutProducer(c: W.Config, w: W.State) returns (steps: seq<W.Step>)
    requires W.Acct(c, w) && LanesFine(w.lanes) && w.prod.Done?
    ensures W.CanRun(c, w, steps) && W.Run(c, w, steps).main.Stopped?
    decreases UntilGone(w)
  {
    steps := [];
    if !w.main.Stopped? {
      var st := NeverStuck(c, w);
      W.StepAcct(c, w, st);
      StepLanes(c, w, st);
      GoneNearer(c, w, st);
      var rest := EndsWithoutProducer(c, W.Next(c, w, st));
      steps := [st] + rest;
      assert steps[1..] == rest;
    }
  }

  /** An error in the middle of a read or a promotion ends the run like that. */
  lemma ErrorEndsTheRun(c: W.Config, w: W.State) returns (steps: seq<W.Step>)
    requires W.Acct(c, w) && LanesFine(w.lanes) && W.Enabled(c, w, W.Fail)
    ensures W.CanRun(c, w, [W.Fail] + steps) && W.Run(c, w, [W.Fail] + steps).main.Stopped?
    ensures forall i :: 0 <= i < |steps| ==> !Producers(steps[i])
  {
    W.StepAcct(c, w, W.Fail);
    StepLanes(c, w, W.Fail);
    steps := EndsWithoutProducer(c, W.Next(c, w, W.Fail));
    assert ([W.Fail] + steps)[1..] == steps;
    NoMoreReading(c, W.Next(c, w, W.Fail), steps);
  }

  lemma {:induction false} NoMoreReading(c: W.Config, w: W.State, steps: seq<W.Step>)
    requires w.prod.Done? && W.CanRun(c, w, steps)
    ensures forall i :: 0 <= i < |steps| ==> !Producers(steps[i])
    decreases |steps|
  {
    if steps != [] {
      NoMoreReading(c, W.Next(c, w, steps[0]), steps[1..]);
    }
  }

  // ----- what it all says of a run from the start

  /** Worker accounting over every run. */
  lemma {:induction false} Accounting(c: W.Config, lanes: seq<Lane>, steps: seq<W.Step>)
    requires W.ConfigOk(c) && |lanes| == |c.limits| && W.CanRun(c, W.Start(c, lanes), steps)
    ensures var w := W.Run(c, W.Start(c, lanes), steps);
            && w.permits >= 0 && |w.held| == |c.limits|
            && (w.main.Joining? ==> w.permits + |w.chan| + W.BusySum(w.cons) + W.InSend(w.prod) == c.prefetch)
            && (forall l :: 0 <= l < |w.held| ==> w.held[l] <= c.limits[l])
            && (w.prod.Push? ==> W.Enabled(c, w, W.Send))
  {
    W.StartAcct(c, lanes);
    W.RunAcct(c, W.Start(c, lanes), steps);
    var w := W.Run(c, W.Start(c, lanes), steps);
    if w.prod.Push? {
      SendNeverBlocks(c, w);
    }
  }
}
