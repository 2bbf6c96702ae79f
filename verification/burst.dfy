/** When a burst worker cancels itself, there is nothing left that it could have run. */
module Burst {
  import opened Store
  import opened RedisStore
  import opened Protocol
  import opened Stranding
  import opened ReadBatch
  import opened Shutdown
  import opened Drain
  import W = WorkerLoop

  ghost predicate AllDrained(lanes: seq<Lane>) {
    forall i :: 0 <= i < |lanes| ==> Drained(lanes[i])
  }

  /** No task of the lane is due by `now`, those retried since its promotion aside. */
  ghost predicate NothingDue(l: Lane, late: set<Id>, now: int) {
    forall id :: id in l.delayed ==> l.delayed[id] > now || id in late
  }

  /** Whether the producer still believes the lanes to be empty. */
  predicate BelievesEmpty(p: W.Producer) {
    match p
    case Blocking(count, room) => W.Every(count, room)
    case Waiting(idle) => idle
    case Sub(_, idle) => idle
    case Hold(_, idle) => idle
    case Push(_, idle) => idle
    case Promoting(_, _, moved, idle) => idle && moved == 0
    case Checking(_, moved, idle) => idle && moved == 0
    case _ => false
  }

  /** How many lanes the promotion under way has been through, and by which clock. */
  ghost predicate Promoted(w: W.State)
    requires |w.late| == |w.lanes|
  {
    match w.prod
    case Promoting(lane, now, _, _) => forall i :: 0 <= i < lane && i < |w.lanes| ==> NothingDue(w.lanes[i], w.late[i], now)
    case Checking(now, _, _) => forall i :: 0 <= i < |w.lanes| ==> NothingDue(w.lanes[i], w.late[i], now)
    case _ => true
  }

  ghost predicate Believes(c: W.Config, w: W.State) {
    && |w.lanes| == |w.late| == |c.limits| && LanesFine(w.lanes)
    && (BelievesEmpty(w.prod) ==> AllDrained(w.lanes) && W.Rest(w.prod) == [])
    && Promoted(w)
  }

  // ----- the steps, with nobody bringing work

  /** Entries and delayed tasks may go, and be read or taken over by others; none comes. */
  ghost predicate NothingAdded(me: Worker, l: Lane, l': Lane) {
    && l'.last >= l.last
    && (forall sid :: sid in l'.stream ==> sid in l.stream && l'.stream[sid] == l.stream[sid])
    && (forall id :: id in l'.delayed ==> id in l.delayed && l'.delayed[id] == l.delayed[id])
    && (forall sid :: sid in l'.pending && l'.pending[sid] == me ==> sid in l.pending && l.pending[sid] == me)
  }

  ghost predicate BringsNothing(c: W.Config, w: W.State, st: W.Step) {
    st.Others? ==>
      |st.lanes| == |w.lanes| && forall i :: 0 <= i < |st.lanes| ==> NothingAdded(c.me, w.lanes[i], st.lanes[i])
  }

  lemma NoSidsTaken(before: seq<Lane>, after: seq<Lane>, me: Worker, sids: seq<seq<nat>>, i: nat)
    requires Progress(before, after, me, sids, []) && i < |before|
    ensures sids[i] == [] && after[i].stream == before[i].stream && after[i].last >= before[i].last
  {
    assert Took(before[i], after[i], me, sids[i]);
    assert OfLane([], i) == MsgsAt(before[i], i, sids[i]);
  }

  /** A read of every lane that comes back with nothing leaves every lane drained: this is
      `read_batch` being work-conserving. */
  lemma EmptyReadDrains(c: W.Config, w: W.State, st: W.Step)
    requires Believes(c, w) && W.Enabled(c, w, st) && st.Read? && st.msgs == []
    requires W.Every(w.prod.count, w.prod.room)
    ensures AllDrained(st.lanes)
  {
    forall i | 0 <= i < |st.lanes|
      ensures Drained(st.lanes[i])
    {
      NoSidsTaken(w.lanes, st.lanes, c.me, st.sids, i);
      assert Full(st.lanes, st.sids, w.prod.room, i);
    }
  }

  lemma ReadBelieves(c: W.Config, w: W.State, st: W.Step)
    requires Believes(c, w) && W.Enabled(c, w, st) && st.Read?
    ensures Believes(c, W.Next(c, w, st))
  {
    ReadLanes(c, w, st);
    if st.msgs == [] && W.Every(w.prod.count, w.prod.room) {
      EmptyReadDrains(c, w, st);
    }
  }

  lemma ReadOneBelieves(c: W.Config, w: W.State, st: W.Step)
    requires Believes(c, w) && W.Enabled(c, w, st) && st.ReadOne?
    ensures Believes(c, W.Next(c, w, st))
  {
    ReadLanes(c, w, st);
    var w' := W.Next(c, w, st);
    if BelievesEmpty(w'.prod) {
      assert st.msgs == [] && st.extra == [] && st.msgs + st.extra == [];
      forall i | 0 <= i < |w'.lanes|
        ensures Drained(w'.lanes[i])
      {
        NoSidsTaken(w.lanes, st.lanes, c.me, st.sids, i);
      }
    }
  }

  lemma {:induction false} PromoteNothingDue(l: Lane, due: seq<Id>)
    requires Distinct(due) && forall i :: 0 <= i < |due| ==> due[i] in l.delayed
    ensures Store.Promote(l, due).delayed == l.delayed - (set id | id in due)
    decreases |due|
  {
    PromoteInTwoPasses(l, due);
    AddAllDelayed(RemAll(l, due), due, l.delayed);
  }

  lemma {:induction false} AddAllDelayed(l: Lane, due: seq<Id>, scores: map<Id, int>)
    requires forall i :: 0 <= i < |due| ==> due[i] in scores
    ensures AddAll(l, due, scores).delayed == l.delayed
    decreases |due|
  {
    if due != [] {
      AddAllDelayed(XAdd(l, due[0], scores[due[0]]), due[1..], scores);
    }
  }

  lemma PromoteBelieves(c: W.Config, w: W.State, due: seq<Id>)
    requires Believes(c, w) && W.Enabled(c, w, W.PromoteLane(due))
    ensures Believes(c, W.Next(c, w, W.PromoteLane(due)))
  {
    var w' := W.Next(c, w, W.PromoteLane(due));
    var i := w.prod.lane;
    StepLanes(c, w, W.PromoteLane(due));
    assert forall j :: 0 <= j < |due| ==> due[j] in due;
    PromoteNothingDue(w.lanes[i], due);
    assert LaneOk(w.lanes[i]);
    assert NothingDue(w'.lanes[i], w'.late[i], w.prod.now);
    if BelievesEmpty(w'.prod) {
      assert due == [] && w'.lanes == w.lanes;
    }
  }

  lemma FinishBelieves(c: W.Config, w: W.State, k: nat, how: W.Ending)
    requires Believes(c, w) && W.Enabled(c, w, W.Finish(k, how))
    ensures Believes(c, W.Next(c, w, W.Finish(k, how)))
  {
    StepLanes(c, w, W.Finish(k, how));
  }

  lemma GiveBackBelieves(c: W.Config, w: W.State)
    requires Believes(c, w) && W.Acct(c, w) && W.Enabled(c, w, W.GiveBack)
    ensures Believes(c, W.Next(c, w, W.GiveBack))
  {
    StepLanes(c, w, W.GiveBack);
  }

  lemma ChooseBelieves(c: W.Config, w: W.State)
    requires W.Acct(c, w) && Believes(c, w) && W.Enabled(c, w, W.Choose)
    ensures Believes(c, W.Next(c, w, W.Choose))
  {
    assert W.Every(w.prod.count, w.prod.room) ==> w.prod.room[0] > 0;
  }

  /** Steps that touch neither the lanes nor what the producer believes. */
  lemma SameBelieves(c: W.Config, w: W.State, w': W.State)
    requires Believes(c, w) && w'.lanes == w.lanes && w'.late == w.late && w'.prod == w.prod
    ensures Believes(c, w')
  {
  }

  lemma ProducerBelieves(c: W.Config, w: W.State, st: W.Step)
    requires W.Acct(c, w) && Believes(c, w) && W.Enabled(c, w, st)
    requires st.Enter? || st.LoadRoom? || st.Wake? || st.WakeStopped? || st.TakePermit? || st.CountHeld? || st.Send?
          || st.StartPromote? || st.EndPromote? || st.Check? || st.Fail?
    ensures Believes(c, W.Next(c, w, st))
  {
  }

  lemma OthersBelieves(c: W.Config, w: W.State, lanes: seq<Lane>)
    requires Believes(c, w) && W.Enabled(c, w, W.Others(lanes)) && BringsNothing(c, w, W.Others(lanes))
    ensures Believes(c, W.Next(c, w, W.Others(lanes)))
  {
    forall i | 0 <= i < |lanes|
      ensures Drained(w.lanes[i]) ==> Drained(lanes[i])
      ensures forall now :: NothingDue(w.lanes[i], w.late[i], now) ==> NothingDue(lanes[i], w.late[i], now)
    {
      assert NothingAdded(c.me, w.lanes[i], lanes[i]);
    }
  }

  lemma StepBelieves(c: W.Config, w: W.State, st: W.Step)
    requires W.Acct(c, w) && Believes(c, w) && W.Enabled(c, w, st) && BringsNothing(c, w, st)
    ensures Believes(c, W.Next(c, w, st))
  {
    if st.Others? {
      OthersBelieves(c, w, st.lanes);
    } else if st.Read? {
      ReadBelieves(c, w, st);
    } else if st.ReadOne? {
      ReadOneBelieves(c, w, st);
    } else if st.PromoteLane? {
      PromoteBelieves(c, w, st.due);
    } else if st.Finish? {
      FinishBelieves(c, w, st.k, st.how);
    } else if st.GiveBack? {
      GiveBackBelieves(c, w);
    } else if st.Choose? {
      ChooseBelieves(c, w);
    } else if st.Stop? || st.Poll? || st.Receive? || st.FreeLane? || st.FreePermit? || st.Join? {
      SameBelieves(c, w, W.Next(c, w, st));
    } else {
      ProducerBelieves(c, w, st);
    }
  }

  /** Everyone else brings no work in the whole run. */
  ghost predicate NoNewWork(c: W.Config, w: W.State, steps: seq<W.Step>)
    requires W.CanRun(c, w, steps)
    decreases |steps|
  {
    steps != [] ==> BringsNothing(c, w, steps[0]) && NoNewWork(c, W.Next(c, w, steps[0]), steps[1..])
  }

  lemma {:induction false} RunBelieves(c: W.Config, w: W.State, steps: seq<W.Step>)
    requires W.Acct(c, w) && Believes(c, w) && W.CanRun(c, w, steps) && NoNewWork(c, w, steps)
    ensures Believes(c, W.Run(c, w, steps))
    decreases |steps|
  {
    if steps != [] {
      W.StepAcct(c, w, steps[0]);
      StepBelieves(c, w, steps[0]);
      RunBelieves(c, W.Next(c, w, steps[0]), steps[1..]);
    }
  }

  // ----- nothing pending that it does not hold

  /** Redis answers every call. */
  predicate Answered(steps: seq<W.Step>) {
    forall i :: 0 <= i < |steps| ==> !steps[i].Fail? && (steps[i].Finish? ==> !steps[i].how.Lost?)
  }

  /** Until it gives back its leftovers, the worker holds whatever is pending under its name,
      but for what an earlier worker of that name left in the lanes it started from. It may
      hold more: what it prefetched and then reclaimed itself, it holds twice, and still holds
      once when the entry is acknowledged. */
  ghost predicate HoldsOwn(c: W.Config, from: seq<Lane>, w: W.State) {
    w.main.Joining? ==> forall m :: Owned(c.me, w.lanes, m) ==> InHand(w, m) > 0 || Owned(c.me, from, m)
  }

  lemma ReadHoldsOwn(c: W.Config, from: seq<Lane>, w: W.State, st: W.Step)
    requires HoldsOwn(c, from, w) && W.Enabled(c, w, st) && st.Read?
    ensures HoldsOwn(c, from, W.Next(c, w, st))
  {
    forall m | w.main.Joining? && Owned(c.me, st.lanes, m)
      ensures InHand(W.Next(c, w, st), m) > 0 || Owned(c.me, from, m)
    {
      BatchOwned(w.lanes, st.lanes, c.me, st.sids, st.msgs, m);
      assert InHand(W.Next(c, w, st), m) == InHand(w, m) + multiset(st.msgs)[m];
      assert m in st.msgs <==> multiset(st.msgs)[m] > 0;
    }
  }

  lemma ExtraKnown(c: W.Config, w: W.State, st: W.Step, i: nat)
    requires LanesFine(w.lanes) && W.Enabled(c, w, st) && st.ReadOne? && i < |st.extra|
    ensures st.extra[i].lane < |st.lanes| && Known(st.lanes, st.extra[i])
  {
    var all := st.msgs + st.extra;
    assert st.extra[i] == all[|st.msgs| + i];
    BatchOwned(w.lanes, st.lanes, c.me, st.sids, all, st.extra[i]);
    assert Took(w.lanes[st.extra[i].lane], st.lanes[st.extra[i].lane], c.me, st.sids[st.extra[i].lane]);
  }

  /** Of what a blocking read takes, only what it keeps is then the worker's. */
  lemma ReadOneOwned(c: W.Config, w: W.State, st: W.Step, m: Msg)
    requires LanesFine(w.lanes) && W.Enabled(c, w, st) && st.ReadOne?
    ensures Owned(c.me, W.Next(c, w, st).lanes, m) ==> Owned(c.me, w.lanes, m) || m in st.msgs
  {
    ReadLanes(c, w, st);
    forall i | 0 <= i < |st.extra|
      ensures st.extra[i].lane < |st.lanes| && Known(st.lanes, st.extra[i])
    {
      ExtraKnown(c, w, st, i);
    }
    assert forall i :: 0 <= i < |st.lanes| ==> Took(w.lanes[i], st.lanes[i], c.me, st.sids[i]);
    BackOwned(c.me, st.lanes, st.extra, m);
    BatchOwned(w.lanes, st.lanes, c.me, st.sids, st.msgs + st.extra, m);
    Copies(st.msgs, st.extra, m);
  }

  lemma ReadOneHoldsOwn(c: W.Config, from: seq<Lane>, w: W.State, st: W.Step)
    requires HoldsOwn(c, from, w) && LanesFine(w.lanes) && W.Enabled(c, w, st) && st.ReadOne?
    ensures HoldsOwn(c, from, W.Next(c, w, st))
  {
    var w' := W.Next(c, w, st);
    forall m | w.main.Joining? && Owned(c.me, w'.lanes, m)
      ensures InHand(w', m) > 0 || Owned(c.me, from, m)
    {
      ReadOneOwned(c, w, st, m);
      assert m in st.msgs <==> multiset(st.msgs)[m] > 0;
      assert InHand(w', m) == InHand(w, m) + multiset(st.msgs)[m];
    }
  }

  lemma FinishHoldsOwn(c: W.Config, from: seq<Lane>, w: W.State, k: nat, how: W.Ending)
    requires HoldsOwn(c, from, w) && W.Enabled(c, w, W.Finish(k, how)) && !how.Lost?
    ensures HoldsOwn(c, from, W.Next(c, w, W.Finish(k, how)))
  {
    var x, w' := w.cons[k].msg, W.Next(c, w, W.Finish(k, how));
    forall m | w.main.Joining? && Owned(c.me, w'.lanes, m)
      ensures InHand(w', m) > 0 || Owned(c.me, from, m)
    {
      assert Owned(c.me, w.lanes, m) && m != x;
      BeingRunUpdate(w.cons, k, W.Freeing(x.lane), m);
    }
  }

  lemma PromoteHoldsOwn(c: W.Config, from: seq<Lane>, w: W.State, due: seq<Id>)
    requires HoldsOwn(c, from, w) && LanesFine(w.lanes) && W.Enabled(c, w, W.PromoteLane(due))
    ensures HoldsOwn(c, from, W.Next(c, w, W.PromoteLane(due)))
  {
    var i, w' := w.prod.lane, W.Next(c, w, W.PromoteLane(due));
    assert forall j :: 0 <= j < |due| ==> due[j] in due;
    PromoteOwned(c.me, w.lanes[i], due);
    forall m | w.main.Joining? && Owned(c.me, w'.lanes, m)
      ensures InHand(w', m) > 0 || Owned(c.me, from, m)
    {
      assert LaneOk(w.lanes[i]) && Owned(c.me, w.lanes, m);
      assert InHand(w', m) == InHand(w, m);
    }
  }

  lemma PassHoldsOwn(c: W.Config, from: seq<Lane>, w: W.State, st: W.Step)
    requires HoldsOwn(c, from, w) && W.Enabled(c, w, st) && Passes(st)
    ensures HoldsOwn(c, from, W.Next(c, w, st))
  {
    forall m | W.Next(c, w, st).main.Joining? && Owned(c.me, W.Next(c, w, st).lanes, m)
      ensures InHand(W.Next(c, w, st), m) > 0 || Owned(c.me, from, m)
    {
      PassStep(c, w, st, m);
    }
  }

  lemma OthersHoldsOwn(c: W.Config, from: seq<Lane>, w: W.State, lanes: seq<Lane>)
    requires HoldsOwn(c, from, w) && W.Enabled(c, w, W.Others(lanes)) && BringsNothing(c, w, W.Others(lanes))
    ensures HoldsOwn(c, from, W.Next(c, w, W.Others(lanes)))
  {
    forall m | w.main.Joining? && Owned(c.me, lanes, m)
      ensures InHand(w, m) > 0 || Owned(c.me, from, m)
    {
      assert NothingAdded(c.me, w.lanes[m.lane], lanes[m.lane]) && Owned(c.me, w.lanes, m);
    }
  }

  lemma StepHoldsOwn(c: W.Config, from: seq<Lane>, w: W.State, st: W.Step)
    requires W.Acct(c, w) && HoldsOwn(c, from, w) && LanesFine(w.lanes) && W.Enabled(c, w, st)
    requires BringsNothing(c, w, st) && Answered([st])
    ensures HoldsOwn(c, from, W.Next(c, w, st))
  {
    assert Answered([st]) ==> ![st][0].Fail? && ([st][0].Finish? ==> ![st][0].how.Lost?);
    if st.Others? {
      OthersHoldsOwn(c, from, w, st.lanes);
    } else if st.Read? {
      ReadHoldsOwn(c, from, w, st);
    } else if st.ReadOne? {
      ReadOneHoldsOwn(c, from, w, st);
    } else if st.Finish? {
      FinishHoldsOwn(c, from, w, st.k, st.how);
    } else if st.PromoteLane? {
      PromoteHoldsOwn(c, from, w, st.due);
    } else if !st.GiveBack? {
      PassHoldsOwn(c, from, w, st);
    }
  }

  lemma {:induction false} RunHoldsOwn(c: W.Config, from: seq<Lane>, w: W.State, steps: seq<W.Step>)
    requires W.Acct(c, w) && HoldsOwn(c, from, w) && LanesFine(w.lanes)
    requires W.CanRun(c, w, steps) && NoNewWork(c, w, steps) && Answered(steps)
    ensures HoldsOwn(c, from, W.Run(c, w, steps)) && W.Acct(c, W.Run(c, w, steps))
    decreases |steps|
  {
    if steps != [] {
      W.StepAcct(c, w, steps[0]);
      StepLanes(c, w, steps[0]);
      StepHoldsOwn(c, from, w, steps[0]);
      RunHoldsOwn(c, from, W.Next(c, w, steps[0]), steps[1..]);
    }
  }

  // ----- what was retried of late

  /** A promotion of lane `i` forgets what was retried into it before; a retry adds to it. */
  ghost function RetriedAfter(c: W.Config, w: W.State, st: W.Step, i: nat, before: set<Id>): set<Id>
    requires W.Enabled(c, w, st)
  {
    if st.PromoteLane? && w.prod.lane == i then {}
    else if st.Finish? && st.how.Later? && w.cons[st.k].msg.lane == i then before + {w.cons[st.k].msg.id}
    else before
  }

  /** The ids retried into lane `i` since it was last promoted, at the end of a run; `before`
      are those at its start. */
  ghost function RetriedSince(c: W.Config, w: W.State, steps: seq<W.Step>, i: nat, before: set<Id>): set<Id>
    requires W.CanRun(c, w, steps)
    decreases |steps|
  {
    if steps == [] then before
    else RetriedSince(c, W.Next(c, w, steps[0]), steps[1..], i, RetriedAfter(c, w, steps[0], i, before))
  }

  lemma LateAfter(c: W.Config, w: W.State, st: W.Step, i: nat)
    requires W.Enabled(c, w, st) && i < |w.late|
    ensures i < |W.Next(c, w, st).late| && W.Next(c, w, st).late[i] == RetriedAfter(c, w, st, i, w.late[i])
  {
  }

  lemma {:induction false} LateIsRetried(c: W.Config, w: W.State, steps: seq<W.Step>, i: nat)
    requires W.CanRun(c, w, steps) && i < |w.late|
    ensures i < |W.Run(c, w, steps).late| && W.Run(c, w, steps).late[i] == RetriedSince(c, w, steps, i, w.late[i])
    decreases |steps|
  {
    if steps != [] {
      LateAfter(c, w, steps[0], i);
      LateIsRetried(c, W.Next(c, w, steps[0]), steps[1..], i);
    }
  }

  // ----- the theorem

  /** Burst exit. In a run without Redis errors in which nobody else brings work, while
      clients may abort and purge, other workers may read, finish and reclaim from this one,
      and it may reclaim from them or from itself: the state in which it decides to leave has
      no lane with an unread entry, nothing held, nothing pending under the worker that was
      not so before it started, and no delayed task that was due at the last promotion's
      clock except one that a retry put there since. */
  lemma BurstExit(c: W.Config, lanes: seq<Lane>, steps: seq<W.Step>)
    requires W.ConfigOk(c) && |lanes| == |c.limits| && LanesFine(lanes)
    requires W.CanRun(c, W.Start(c, lanes), steps) && NoNewWork(c, W.Start(c, lanes), steps) && Answered(steps)
    requires W.LeavesBurst(c, W.Run(c, W.Start(c, lanes), steps))
    ensures var w := W.Run(c, W.Start(c, lanes), steps);
            && AllDrained(w.lanes) && |w.lanes| == |lanes|
            && (forall l :: 0 <= l < |w.held| ==> w.held[l] == 0)
            && (forall m :: InHand(w, m) == 0)
            && (forall i, sid :: 0 <= i < |w.lanes| && sid in w.lanes[i].pending && w.lanes[i].pending[sid] == c.me ==>
                  sid in lanes[i].pending && lanes[i].pending[sid] == c.me)
            && (forall i :: 0 <= i < |w.lanes| ==>
                  NothingDue(w.lanes[i], RetriedSince(c, W.Start(c, lanes), steps, i, {}), w.prod.now))
  {
    var w0, w := W.Start(c, lanes), W.Run(c, W.Start(c, lanes), steps);
    W.StartAcct(c, lanes);
    RunHoldsOwn(c, lanes, w0, steps);
    RunBelieves(c, w0, steps);
    NothingHeld(c, w);
    forall i | 0 <= i < |w.lanes|
      ensures NothingDue(w.lanes[i], RetriedSince(c, w0, steps, i, {}), w.prod.now)
    {
      LateIsRetried(c, w0, steps, i);
    }
    forall i, sid | 0 <= i < |w.lanes| && sid in w.lanes[i].pending && w.lanes[i].pending[sid] == c.me
      ensures sid in lanes[i].pending && lanes[i].pending[sid] == c.me
    {
      assert LaneOk(w.lanes[i]);
      var item := w.lanes[i].stream[sid];
      assert InHand(w, Msg(i, sid, item.id, item.time)) == 0;
      assert Owned(c.me, w.lanes, Msg(i, sid, item.id, item.time));
    }
  }

  /** All permits back means nothing is in the worker's hands. */
  lemma NothingHeld(c: W.Config, w: W.State)
    requires W.Acct(c, w) && w.prod.Checking? && w.permits >= c.prefetch
    ensures forall l :: 0 <= l < |w.held| ==> w.held[l] == 0
    ensures forall m :: InHand(w, m) == 0
  {
    W.NoneBusy(w.cons);
    forall m
      ensures InHand(w, m) == 0
    {
      assert forall k :: 0 <= k < |w.cons| ==> W.Busy(w.cons[k]) == 0;
      NoneRun(w.cons, m);
    }
  }
}
