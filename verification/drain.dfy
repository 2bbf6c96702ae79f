/** What a worker takes it gives an end to. In a run without Redis errors, and without
    anyone reclaiming this worker's messages, each message it took is acknowledged by one
    finish or handed back to its lane, never both, and once the worker has stopped nothing
    is pending under its name. */
module Drain {
  import opened Store
  import opened RedisStore
  import opened Protocol
  import opened Scripts
  import opened Stranding
  import opened ReadBatch
  import opened Shutdown
  import W = WorkerLoop

  // ----- what is in its hands

  function One(x: W.Consumer, m: Msg): nat {
    if x.Running? && x.msg == m then 1 else 0
  }

  function BeingRun(cons: seq<W.Consumer>, m: Msg): nat {
    if cons == [] then 0 else One(cons[0], m) + BeingRun(cons[1..], m)
  }

  lemma {:induction false} BeingRunUpdate(cons: seq<W.Consumer>, k: nat, x: W.Consumer, m: Msg)
    requires k < |cons|
    ensures BeingRun(cons[k := x], m) == BeingRun(cons, m) - One(cons[k], m) + One(x, m)
  {
    if k == 0 {
      assert cons[k := x][1..] == cons[1..];
    } else {
      assert cons[k := x][1..] == cons[1..][k - 1 := x];
      BeingRunUpdate(cons[1..], k - 1, x, m);
    }
  }

  lemma {:induction false} NoneRun(cons: seq<W.Consumer>, m: Msg)
    requires forall k :: 0 <= k < |cons| ==> !cons[k].Running?
    ensures BeingRun(cons, m) == 0
  {
    if cons != [] {
      NoneRun(cons[1..], m);
    }
  }

  function Left(m: W.Main): seq<Msg> {
    if m.Leftover? then m.msgs else []
  }

  /** How often the worker holds `m`: read, and neither finished nor handed back. */
  function InHand(w: W.State, m: Msg): nat {
    multiset(W.Rest(w.prod))[m] + multiset(w.chan)[m] + BeingRun(w.cons, m) + multiset(Left(w.main))[m]
  }

  /** The message is a live entry, pending under `me`. */
  ghost predicate Owned(me: Worker, lanes: seq<Lane>, m: Msg) {
    && m.lane < |lanes|
    && m.sid in lanes[m.lane].stream && lanes[m.lane].stream[m.sid] == Item(m.id, m.time)
    && m.sid in lanes[m.lane].pending && lanes[m.lane].pending[m.sid] == me
  }

  /** The message's entry is gone for good: its id will not be used again. */
  ghost predicate Gone(lanes: seq<Lane>, m: Msg) {
    m.lane < |lanes| && m.sid !in lanes[m.lane].stream && m.sid < lanes[m.lane].next
  }

  /** The worker holds exactly what is pending under its name, and what it no longer holds
      it finished or handed back, once. */
  ghost predicate MineAt(c: W.Config, w: W.State, m: Msg) {
    && (InHand(w, m) > 0 <==> Owned(c.me, w.lanes, m))
    && w.taken[m] == InHand(w, m) + w.finished[m] + w.returned[m]
    && w.taken[m] <= 1
    && (w.finished[m] + w.returned[m] > 0 ==> Gone(w.lanes, m))
  }

  ghost predicate Mine(c: W.Config, w: W.State) {
    LanesFine(w.lanes) && forall m :: MineAt(c, w, m)
  }

  /** No reclaim from this worker, not even by itself. */
  ghost predicate NotFrom(me: Worker, lanes: seq<Lane>, sids: seq<seq<nat>>) {
    && |sids| == |lanes|
    && forall i, sid :: 0 <= i < |lanes| && sid in sids[i] && sid in lanes[i].pending ==> lanes[i].pending[sid] != me
  }

  /** Everyone else: ids move on, nobody takes what this worker has pending. */
  ghost predicate Elsewhere(me: Worker, l: Lane, l': Lane) {
    && l'.next >= l.next && l'.last >= l.last
    && (forall sid :: sid in l'.pending && l'.pending[sid] == me <==> sid in l.pending && l.pending[sid] == me)
    && (forall sid :: sid in l.pending && l.pending[sid] == me ==>
          sid in l.stream && sid in l'.stream && l'.stream[sid] == l.stream[sid])
    && (forall sid :: sid in l'.stream && sid < l.next ==> sid in l.stream)
  }

  ghost predicate Calm(c: W.Config, w: W.State, st: W.Step) {
    match st
    case Others(lanes) =>
      |lanes| == |w.lanes| && forall i :: 0 <= i < |lanes| ==> Elsewhere(c.me, w.lanes[i], lanes[i])
    case Fail => false
    case Finish(_, how) => !how.Lost?
    case Read(_, sids, _) => NotFrom(c.me, w.lanes, sids)
    case ReadOne(_, sids, _, _) => NotFrom(c.me, w.lanes, sids)
    case _ => true
  }

  // ----- reading

  lemma {:induction false} CountOfLane(msgs: seq<Msg>, m: Msg)
    ensures multiset(msgs)[m] == multiset(OfLane(msgs, m.lane))[m]
  {
    if msgs != [] {
      CountOfLane(msgs[1..], m);
      assert msgs == [msgs[0]] + msgs[1..];
    }
  }

  lemma {:induction false} DistinctOnce<T>(s: seq<T>, x: T)
    requires Distinct(s)
    ensures multiset(s)[x] <= 1
    decreases |s|
  {
    if s != [] {
      DistinctOnce(s[1..], x);
      assert s == [s[0]] + s[1..];
      if x == s[0] {
        assert forall i :: 0 <= i < |s[1..]| ==> s[1..][i] != x;
        assert x !in multiset(s[1..]);
      }
    }
  }

  /** A batch holds exactly the entries taken, each once. */
  lemma BatchHolds(before: seq<Lane>, after: seq<Lane>, me: Worker, sids: seq<seq<nat>>, msgs: seq<Msg>, m: Msg)
    requires Progress(before, after, me, sids, msgs)
    ensures multiset(msgs)[m] <= 1
    ensures m in msgs <==> m.lane < |before| && m.sid in sids[m.lane] && before[m.lane].stream[m.sid] == Item(m.id, m.time)
  {
    CountOfLane(msgs, m);
    if m.lane < |before| {
      var l, taken := before[m.lane], sids[m.lane];
      var ms := MsgsAt(l, m.lane, taken);
      assert Took(l, after[m.lane], me, taken) && OfLane(msgs, m.lane) == ms;
      assert forall i, j :: 0 <= i < j < |ms| ==> ms[i].sid != ms[j].sid;
      assert Distinct(ms);
      DistinctOnce(ms, m);
      if m.sid in taken && l.stream[m.sid] == Item(m.id, m.time) {
        var i :| 0 <= i < |taken| && taken[i] == m.sid;
        assert ms[i] == m;
      }
      if m in ms {
        var i :| 0 <= i < |ms| && ms[i] == m;
        assert taken[i] == m.sid;
      }
      assert m in msgs <==> m in multiset(msgs);
      assert m in ms <==> m in multiset(ms);
    }
  }

  /** What a batch adds to the worker's name is in it, whoever held it before. */
  lemma BatchOwned(before: seq<Lane>, after: seq<Lane>, me: Worker, sids: seq<seq<nat>>, msgs: seq<Msg>, m: Msg)
    requires Progress(before, after, me, sids, msgs)
    ensures Owned(me, after, m) ==> Owned(me, before, m) || m in msgs
    ensures m in msgs ==> Owned(me, after, m)
  {
    BatchHolds(before, after, me, sids, msgs, m);
    if m.lane < |before| {
      assert Took(before[m.lane], after[m.lane], me, sids[m.lane]);
    }
  }

  lemma ReadOwned(before: seq<Lane>, after: seq<Lane>, me: Worker, sids: seq<seq<nat>>, msgs: seq<Msg>, m: Msg)
    requires Progress(before, after, me, sids, msgs) && NotFrom(me, before, sids) && LanesFine(before)
    ensures Owned(me, after, m) <==> Owned(me, before, m) || m in msgs
    ensures m in msgs ==> !Owned(me, before, m) && !Gone(before, m)
    ensures multiset(msgs)[m] <= 1
    ensures Gone(before, m) ==> Gone(after, m)
  {
    BatchHolds(before, after, me, sids, msgs, m);
    if m.lane < |before| {
      assert Took(before[m.lane], after[m.lane], me, sids[m.lane]);
      assert m.sid in sids[m.lane] ==> m.sid in before[m.lane].stream;
    }
  }

  // ----- handing back

  /** What the worker knows of a message is so, if its entry still exists. */
  ghost predicate Known(lanes: seq<Lane>, m: Msg) {
    && m.lane < |lanes| && m.sid < lanes[m.lane].next
    && (m.sid in lanes[m.lane].stream ==> lanes[m.lane].stream[m.sid] == Item(m.id, m.time))
  }

  lemma OneBack(me: Worker, lanes: seq<Lane>, m: Msg, x: Msg)
    requires LanesFine(lanes) && Known(lanes, m)
    ensures var after := lanes[m.lane := XDrop(XAdd(lanes[m.lane], m.id, m.time), m.sid)];
            && (Owned(me, after, x) <==> Owned(me, lanes, x) && x != m)
            && (Gone(lanes, x) || x == m ==> Gone(after, x))
            && (Known(lanes, x) ==> Known(after, x))
  {
  }

  lemma {:induction false} BackOwned(me: Worker, lanes: seq<Lane>, msgs: seq<Msg>, x: Msg)
    requires forall i :: 0 <= i < |msgs| ==> msgs[i].lane < |lanes|
    requires LanesFine(lanes) && forall i :: 0 <= i < |msgs| ==> Known(lanes, msgs[i])
    ensures var after := W.GivenBack(lanes, msgs);
            && (Owned(me, after, x) <==> Owned(me, lanes, x) && x !in msgs)
            && (Gone(lanes, x) || x in msgs ==> Gone(after, x))
    decreases |msgs|
  {
    if msgs != [] {
      var m := msgs[0];
      var next := lanes[m.lane := XDrop(XAdd(lanes[m.lane], m.id, m.time), m.sid)];
      OneBack(me, lanes, m, x);
      GivenBackOk(lanes, [m]);
      assert W.GivenBack(lanes, [m]) == next by {
        assert [m][1..] == [];
      }
      forall i | 0 <= i < |msgs[1..]|
        ensures Known(next, msgs[1..][i])
      {
        OneBack(me, lanes, m, msgs[i + 1]);
      }
      BackOwned(me, next, msgs[1..], x);
      assert msgs == [m] + msgs[1..];
    }
  }

  /** Handing back, seen from one lane. */
  function BackIn(l: Lane, ms: seq<Msg>): Lane
    decreases |ms|
  {
    if ms == [] then l else BackIn(XDrop(XAdd(l, ms[0].id, ms[0].time), ms[0].sid), ms[1..])
  }

  lemma {:induction false} BackByLane(lanes: seq<Lane>, msgs: seq<Msg>, lane: nat)
    requires (forall i :: 0 <= i < |msgs| ==> msgs[i].lane < |lanes|) && lane < |lanes|
    ensures W.GivenBack(lanes, msgs)[lane] == BackIn(lanes[lane], OfLane(msgs, lane))
    decreases |msgs|
  {
    if msgs != [] {
      var m := msgs[0];
      assert forall i :: 0 <= i < |msgs[1..]| ==> msgs[1..][i] == msgs[i + 1];
      BackByLane(lanes[m.lane := XDrop(XAdd(lanes[m.lane], m.id, m.time), m.sid)], msgs[1..], lane);
      assert OfLane(msgs, lane) == (if m.lane == lane then [m] else []) + OfLane(msgs[1..], lane);
      if m.lane == lane {
        assert OfLane(msgs, lane)[1..] == OfLane(msgs[1..], lane);
      } else {
        assert OfLane(msgs, lane) == OfLane(msgs[1..], lane);
      }
    }
  }

  lemma {:induction false} BackKeeps(l: Lane, ms: seq<Msg>, sid: nat)
    requires sid in l.stream && sid < l.next && forall j :: 0 <= j < |ms| ==> ms[j].sid != sid
    ensures sid in BackIn(l, ms).stream && BackIn(l, ms).stream[sid] == l.stream[sid]
    decreases |ms|
  {
    if ms != [] {
      BackKeeps(XDrop(XAdd(l, ms[0].id, ms[0].time), ms[0].sid), ms[1..], sid);
    }
  }

  /** Each message handed back is a new entry of its own lane, with the same id and enqueue
      time, in order, still to be read; and there are no others. */
  lemma {:induction false} BackAsNewEntries(l: Lane, ms: seq<Msg>, j: nat)
    requires forall i :: 0 <= i < |ms| ==> ms[i].sid < l.next
    ensures BackIn(l, ms).next == l.next + |ms| && BackIn(l, ms).last == l.last
    ensures j < |ms| ==>
              l.next + j in BackIn(l, ms).stream && BackIn(l, ms).stream[l.next + j] == Item(ms[j].id, ms[j].time)
    decreases |ms|
  {
    if ms != [] {
      var mid := XDrop(XAdd(l, ms[0].id, ms[0].time), ms[0].sid);
      assert forall i :: 0 <= i < |ms[1..]| ==> ms[1..][i].sid < l.next;
      if j == 0 {
        BackAsNewEntries(mid, ms[1..], 0);
        BackKeeps(mid, ms[1..], l.next);
      } else {
        BackAsNewEntries(mid, ms[1..], j - 1);
        assert j < |ms| ==> ms[1..][j - 1] == ms[j];
        assert mid.next + (j - 1) == l.next + j;
      }
    }
  }

  // ----- the steps

  /** Messages change places within the worker, and the lanes' part in it stays. */
  lemma SameHand(c: W.Config, w: W.State, w': W.State, m: Msg)
    requires MineAt(c, w, m) && InHand(w', m) == InHand(w, m)
    requires w'.taken == w.taken && w'.finished == w.finished && w'.returned == w.returned
    requires Owned(c.me, w'.lanes, m) <==> Owned(c.me, w.lanes, m)
    requires Gone(w.lanes, m) ==> Gone(w'.lanes, m)
    ensures MineAt(c, w', m)
  {
  }

  lemma ReadMine(c: W.Config, w: W.State, st: W.Step, m: Msg)
    requires Mine(c, w) && W.Enabled(c, w, st) && Calm(c, w, st) && st.Read?
    ensures MineAt(c, W.Next(c, w, st), m)
  {
    ReadOwned(w.lanes, st.lanes, c.me, st.sids, st.msgs, m);
    assert MineAt(c, w, m);
    assert InHand(W.Next(c, w, st), m) == InHand(w, m) + multiset(st.msgs)[m];
    assert m in st.msgs <==> multiset(st.msgs)[m] > 0;
  }

  lemma Copies(a: seq<Msg>, b: seq<Msg>, m: Msg)
    ensures multiset(a + b)[m] == multiset(a)[m] + multiset(b)[m]
    ensures m in a <==> multiset(a)[m] > 0
    ensures m in b <==> multiset(b)[m] > 0
    ensures m in a + b <==> m in a || m in b
  {
    assert m in a <==> m in multiset(a);
    assert m in b <==> m in multiset(b);
  }

  /** What a read hands back, it has just read. */
  lemma ExtrasKnown(c: W.Config, w: W.State, st: W.Step)
    requires LanesFine(w.lanes) && W.Enabled(c, w, st) && Calm(c, w, st) && st.ReadOne?
    ensures forall i :: 0 <= i < |st.extra| ==> st.extra[i].lane < |st.lanes| && Known(st.lanes, st.extra[i])
  {
    var all := st.msgs + st.extra;
    forall i | 0 <= i < |st.extra|
      ensures st.extra[i].lane < |st.lanes| && Known(st.lanes, st.extra[i])
    {
      assert st.extra[i] == all[|st.msgs| + i];
      ReadOwned(w.lanes, st.lanes, c.me, st.sids, all, st.extra[i]);
    }
  }

  lemma ReadOneMine(c: W.Config, w: W.State, st: W.Step, m: Msg)
    requires Mine(c, w) && W.Enabled(c, w, st) && Calm(c, w, st) && st.ReadOne?
    ensures MineAt(c, W.Next(c, w, st), m)
  {
    ExtrasKnown(c, w, st);
    ReadOwned(w.lanes, st.lanes, c.me, st.sids, st.msgs + st.extra, m);
    BackOwned(c.me, st.lanes, st.extra, m);
    Copies(st.msgs, st.extra, m);
    assert MineAt(c, w, m);
    assert InHand(W.Next(c, w, st), m) == InHand(w, m) + multiset(st.msgs)[m];
  }

  lemma EndOwned(me: Worker, lanes: seq<Lane>, x: Msg, how: W.Ending, m: Msg)
    requires LanesFine(lanes) && Owned(me, lanes, x) && !how.Lost?
    ensures var after := lanes[x.lane := W.EndLane(lanes[x.lane], x, how)];
            && (Owned(me, after, m) <==> Owned(me, lanes, m) && m != x)
            && (Gone(lanes, m) || m == x ==> Gone(after, m))
  {
  }

  lemma FinishMine(c: W.Config, w: W.State, k: nat, how: W.Ending, m: Msg)
    requires Mine(c, w) && W.Enabled(c, w, W.Finish(k, how)) && !how.Lost?
    ensures MineAt(c, W.Next(c, w, W.Finish(k, how)), m)
  {
    var x := w.cons[k].msg;
    BeingRunUpdate(w.cons, k, W.Freeing(x.lane), x);
    BeingRunUpdate(w.cons, k, W.Freeing(x.lane), m);
    assert MineAt(c, w, x) && MineAt(c, w, m);
    EndOwned(c.me, w.lanes, x, how, m);
  }

  lemma GiveBackMine(c: W.Config, w: W.State, m: Msg)
    requires Mine(c, w) && W.Enabled(c, w, W.GiveBack)
    ensures MineAt(c, W.Next(c, w, W.GiveBack), m)
  {
    var msgs := w.main.msgs;
    forall i | 0 <= i < |msgs|
      ensures Known(w.lanes, msgs[i])
    {
      assert msgs[i] in msgs;
      assert MineAt(c, w, msgs[i]);
    }
    BackOwned(c.me, w.lanes, msgs, m);
    assert MineAt(c, w, m);
    assert m in msgs <==> multiset(msgs)[m] > 0;
    assert InHand(W.Next(c, w, W.GiveBack), m) == InHand(w, m) - multiset(msgs)[m];
  }

  lemma {:induction false} PromoteOwned(me: Worker, l: Lane, due: seq<Id>)
    requires LaneOk(l) && Distinct(due) && forall i :: 0 <= i < |due| ==> due[i] in l.delayed
    ensures var l' := Store.Promote(l, due);
            && l'.pending == l.pending && l'.next >= l.next
            && (forall sid :: sid in l.stream ==> sid in l'.stream && l'.stream[sid] == l.stream[sid])
            && (forall sid :: sid in l'.stream && sid < l.next ==> sid in l.stream)
    decreases |due|
  {
    if due != [] {
      PromoteLaneOk(l, [due[0]]);
      assert Store.Promote(l, [due[0]]) == PromoteOne(l, due[0]) by {
        assert [due[0]][1..] == [];
      }
      PromoteOwned(me, PromoteOne(l, due[0]), due[1..]);
    }
  }

  lemma PromoteMine(c: W.Config, w: W.State, due: seq<Id>, m: Msg)
    requires Mine(c, w) && W.Enabled(c, w, W.PromoteLane(due))
    ensures MineAt(c, W.Next(c, w, W.PromoteLane(due)), m)
  {
    assert forall i :: 0 <= i < |due| ==> due[i] in due;
    PromoteOwned(c.me, w.lanes[w.prod.lane], due);
    assert MineAt(c, w, m);
    SameHand(c, w, W.Next(c, w, W.PromoteLane(due)), m);
  }

  lemma OthersMine(c: W.Config, w: W.State, lanes: seq<Lane>, m: Msg)
    requires Mine(c, w) && W.Enabled(c, w, W.Others(lanes)) && Calm(c, w, W.Others(lanes))
    ensures MineAt(c, W.Next(c, w, W.Others(lanes)), m)
  {
    assert MineAt(c, w, m);
    if m.lane < |lanes| {
      assert Elsewhere(c.me, w.lanes[m.lane], lanes[m.lane]);
    }
    SameHand(c, w, W.Next(c, w, W.Others(lanes)), m);
  }

  // ----- steps that only pass messages on within the worker

  predicate Passes(st: W.Step) {
    !st.Others? && !st.Read? && !st.ReadOne? && !st.Finish? && !st.PromoteLane? && !st.GiveBack?
  }

  /** The lanes and the history stay, and the worker holds `m` as often as before. */
  ghost predicate Passed(w: W.State, w': W.State, m: Msg) {
    && w'.lanes == w.lanes && w'.taken == w.taken && w'.finished == w.finished && w'.returned == w.returned
    && InHand(w', m) == InHand(w, m)
  }

  lemma SendPasses(c: W.Config, w: W.State, m: Msg)
    requires W.Enabled(c, w, W.Send)
    ensures Passed(w, W.Next(c, w, W.Send), m)
  {
    assert w.prod.rest == [w.prod.rest[0]] + w.prod.rest[1..];
  }

  lemma ReceivePasses(c: W.Config, w: W.State, k: nat, m: Msg)
    requires W.Enabled(c, w, W.Receive(k))
    ensures Passed(w, W.Next(c, w, W.Receive(k)), m)
  {
    BeingRunUpdate(w.cons, k, W.Received(w, k).cons[k], m);
    if w.chan != [] {
      assert w.chan == [w.chan[0]] + w.chan[1..];
    }
  }

  lemma ConsumerPasses(c: W.Config, w: W.State, st: W.Step, m: Msg)
    requires W.Enabled(c, w, st) && (st.Poll? || st.FreeLane? || st.FreePermit?)
    ensures Passed(w, W.Next(c, w, st), m)
  {
    BeingRunUpdate(w.cons, st.k, W.Next(c, w, st).cons[st.k], m);
  }

  lemma LoadPasses(c: W.Config, w: W.State, st: W.Step, m: Msg)
    requires W.Enabled(c, w, st)
    requires st.Stop? || st.Enter? || st.LoadRoom? || st.Choose? || st.Wake? || st.WakeStopped? || st.Fail?
    ensures Passed(w, W.Next(c, w, st), m)
  {
  }

  lemma MovePasses(c: W.Config, w: W.State, st: W.Step, m: Msg)
    requires W.Enabled(c, w, st) && (st.TakePermit? || st.CountHeld? || st.StartPromote? || st.EndPromote? || st.Check?)
    ensures Passed(w, W.Next(c, w, st), m)
  {
  }

  lemma JoinPasses(c: W.Config, w: W.State, m: Msg)
    requires W.Enabled(c, w, W.Join)
    ensures Passed(w, W.Next(c, w, W.Join), m)
  {
  }

  lemma PassStep(c: W.Config, w: W.State, st: W.Step, m: Msg)
    requires W.Enabled(c, w, st) && Passes(st)
    ensures Passed(w, W.Next(c, w, st), m)
  {
    if st.Send? {
      SendPasses(c, w, m);
    } else if st.Receive? {
      ReceivePasses(c, w, st.k, m);
    } else if st.Poll? || st.FreeLane? || st.FreePermit? {
      ConsumerPasses(c, w, st, m);
    } else if st.Join? {
      JoinPasses(c, w, m);
    } else if st.TakePermit? || st.CountHeld? || st.StartPromote? || st.EndPromote? || st.Check? {
      MovePasses(c, w, st, m);
    } else {
      LoadPasses(c, w, st, m);
    }
  }

  lemma PassMine(c: W.Config, w: W.State, st: W.Step, m: Msg)
    requires MineAt(c, w, m) && W.Enabled(c, w, st) && Passes(st)
    ensures MineAt(c, W.Next(c, w, st), m)
  {
    PassStep(c, w, st, m);
    SameHand(c, w, W.Next(c, w, st), m);
  }

  // ----- all steps

  lemma StepMineAt(c: W.Config, w: W.State, st: W.Step, m: Msg)
    requires Mine(c, w) && W.Enabled(c, w, st) && Calm(c, w, st)
    ensures MineAt(c, W.Next(c, w, st), m)
  {
    assert MineAt(c, w, m);
    match st
    case Read(_, _, _) => ReadMine(c, w, st, m);
    case ReadOne(_, _, _, _) => ReadOneMine(c, w, st, m);
    case Finish(k, how) => FinishMine(c, w, k, how, m);
    case GiveBack => GiveBackMine(c, w, m);
    case PromoteLane(due) => PromoteMine(c, w, due, m);
    case Others(lanes) => OthersMine(c, w, lanes, m);
    case _ => PassMine(c, w, st, m);
  }

  lemma StepMine(c: W.Config, w: W.State, st: W.Step)
    requires Mine(c, w) && W.Enabled(c, w, st) && Calm(c, w, st)
    ensures Mine(c, W.Next(c, w, st))
  {
    StepLanes(c, w, st);
    forall m
      ensures MineAt(c, W.Next(c, w, st), m)
    {
      StepMineAt(c, w, st, m);
    }
  }

  ghost predicate AllCalm(c: W.Config, w: W.State, steps: seq<W.Step>)
    requires W.CanRun(c, w, steps)
    decreases |steps|
  {
    steps != [] ==> Calm(c, w, steps[0]) && AllCalm(c, W.Next(c, w, steps[0]), steps[1..])
  }

  lemma {:induction false} RunMine(c: W.Config, w: W.State, steps: seq<W.Step>)
    requires W.Acct(c, w) && Mine(c, w) && W.CanRun(c, w, steps) && AllCalm(c, w, steps)
    ensures W.Acct(c, W.Run(c, w, steps)) && Mine(c, W.Run(c, w, steps))
    decreases |steps|
  {
    if steps != [] {
      W.StepAcct(c, w, steps[0]);
      StepMine(c, w, steps[0]);
      RunMine(c, W.Next(c, w, steps[0]), steps[1..]);
    }
  }

  /** A worker starts with nothing pending under its name. */
  ghost predicate CleanStart(c: W.Config, lanes: seq<Lane>) {
    && W.ConfigOk(c) && |lanes| == |c.limits| && LanesFine(lanes)
    && forall i, sid :: 0 <= i < |lanes| && sid in lanes[i].pending ==> lanes[i].pending[sid] != c.me
  }

  lemma StartMine(c: W.Config, lanes: seq<Lane>)
    requires CleanStart(c, lanes)
    ensures W.Acct(c, W.Start(c, lanes)) && Mine(c, W.Start(c, lanes))
  {
    W.StartAcct(c, lanes);
    forall m
      ensures MineAt(c, W.Start(c, lanes), m)
    {
      NoneRun(W.Start(c, lanes).cons, m);
    }
  }

  // ----- what a run took, finished and gave back, by its steps

  ghost function TakenBy(st: W.Step): multiset<Msg> {
    if st.Read? then multiset(st.msgs)
    else if st.ReadOne? then multiset(st.msgs) + multiset(st.extra)
    else multiset{}
  }

  ghost function FinishedBy(c: W.Config, w: W.State, st: W.Step): multiset<Msg>
    requires W.Enabled(c, w, st)
  {
    if st.Finish? && !st.how.Lost? then multiset{w.cons[st.k].msg} else multiset{}
  }

  ghost function ReturnedBy(c: W.Config, w: W.State, st: W.Step): multiset<Msg>
    requires W.Enabled(c, w, st)
  {
    if st.ReadOne? then multiset(st.extra)
    else if st.GiveBack? then multiset(w.main.msgs)
    else multiset{}
  }

  ghost function TakenIn(steps: seq<W.Step>): multiset<Msg> {
    if steps == [] then multiset{} else TakenBy(steps[0]) + TakenIn(steps[1..])
  }

  ghost function FinishedIn(c: W.Config, w: W.State, steps: seq<W.Step>): multiset<Msg>
    requires W.CanRun(c, w, steps)
    decreases |steps|
  {
    if steps == [] then multiset{}
    else FinishedBy(c, w, steps[0]) + FinishedIn(c, W.Next(c, w, steps[0]), steps[1..])
  }

  ghost function ReturnedIn(c: W.Config, w: W.State, steps: seq<W.Step>): multiset<Msg>
    requires W.CanRun(c, w, steps)
    decreases |steps|
  {
    if steps == [] then multiset{}
    else ReturnedBy(c, w, steps[0]) + ReturnedIn(c, W.Next(c, w, steps[0]), steps[1..])
  }

  ghost predicate Recorded(c: W.Config, w: W.State, st: W.Step)
    requires W.Enabled(c, w, st)
  {
    var w' := W.Next(c, w, st);
    && w'.taken == w.taken + TakenBy(st)
    && w'.finished == w.finished + FinishedBy(c, w, st)
    && w'.returned == w.returned + ReturnedBy(c, w, st)
  }

  lemma ReadRecorded(c: W.Config, w: W.State, st: W.Step)
    requires W.Enabled(c, w, st) && (st.Read? || st.ReadOne?)
    ensures Recorded(c, w, st)
  {
  }

  lemma EndRecorded(c: W.Config, w: W.State, st: W.Step)
    requires W.Enabled(c, w, st) && (st.Finish? || st.GiveBack?)
    ensures Recorded(c, w, st)
  {
  }

  lemma StepRecorded(c: W.Config, w: W.State, st: W.Step)
    requires W.Enabled(c, w, st)
    ensures Recorded(c, w, st)
  {
    if st.Read? || st.ReadOne? {
      ReadRecorded(c, w, st);
    } else if st.Finish? || st.GiveBack? {
      EndRecorded(c, w, st);
    }
  }

  lemma {:induction false} HistoryOf(c: W.Config, w: W.State, steps: seq<W.Step>)
    requires W.CanRun(c, w, steps)
    ensures var w' := W.Run(c, w, steps);
            && w'.taken == w.taken + TakenIn(steps)
            && w'.finished == w.finished + FinishedIn(c, w, steps)
            && w'.returned == w.returned + ReturnedIn(c, w, steps)
    decreases |steps|
  {
    if steps != [] {
      var w1 := W.Next(c, w, steps[0]);
      StepRecorded(c, w, steps[0]);
      HistoryOf(c, w1, steps[1..]);
      SumInOrder(w.taken, TakenBy(steps[0]), TakenIn(steps[1..]));
      SumInOrder(w.finished, FinishedBy(c, w, steps[0]), FinishedIn(c, w1, steps[1..]));
      SumInOrder(w.returned, ReturnedBy(c, w, steps[0]), ReturnedIn(c, w1, steps[1..]));
    }
  }

  lemma SumInOrder(a: multiset<Msg>, b: multiset<Msg>, c: multiset<Msg>)
    ensures (a + b) + c == a + (b + c)
  {
  }

  /** Drain conservation: once the worker has stopped, each message it took was either
      acknowledged by one finish or handed back, once and not both, its entry is gone, and
      nothing is pending under the worker in any lane. */
  lemma DrainConserves(c: W.Config, lanes: seq<Lane>, steps: seq<W.Step>)
    requires CleanStart(c, lanes) && W.CanRun(c, W.Start(c, lanes), steps) && AllCalm(c, W.Start(c, lanes), steps)
    requires W.Run(c, W.Start(c, lanes), steps).main.Stopped?
    ensures var w, took := W.Run(c, W.Start(c, lanes), steps), TakenIn(steps);
            var done, back := FinishedIn(c, W.Start(c, lanes), steps), ReturnedIn(c, W.Start(c, lanes), steps);
            && took == done + back
            && (forall m :: m in took ==> done[m] + back[m] == 1 && Gone(w.lanes, m))
            && (forall i, sid :: 0 <= i < |w.lanes| && sid in w.lanes[i].pending ==> w.lanes[i].pending[sid] != c.me)
  {
    StartMine(c, lanes);
    RunMine(c, W.Start(c, lanes), steps);
    HistoryFromStart(c, lanes, steps);
    StoppedConserves(c, W.Run(c, W.Start(c, lanes), steps));
  }

  lemma HistoryFromStart(c: W.Config, lanes: seq<Lane>, steps: seq<W.Step>)
    requires W.CanRun(c, W.Start(c, lanes), steps)
    ensures var w := W.Run(c, W.Start(c, lanes), steps);
            && w.taken == TakenIn(steps)
            && w.finished == FinishedIn(c, W.Start(c, lanes), steps)
            && w.returned == ReturnedIn(c, W.Start(c, lanes), steps)
  {
    HistoryOf(c, W.Start(c, lanes), steps);
  }

  lemma StoppedConserves(c: W.Config, w: W.State)
    requires W.Acct(c, w) && Mine(c, w) && w.main.Stopped?
    ensures w.taken == w.finished + w.returned
    ensures forall m :: m in w.taken ==> w.finished[m] + w.returned[m] == 1 && Gone(w.lanes, m)
    ensures forall i, sid :: 0 <= i < |w.lanes| && sid in w.lanes[i].pending ==> w.lanes[i].pending[sid] != c.me
  {
    forall m
      ensures w.taken[m] == w.finished[m] + w.returned[m]
      ensures m in w.taken ==> w.finished[m] + w.returned[m] == 1 && Gone(w.lanes, m)
      ensures !Owned(c.me, w.lanes, m)
    {
      StoppedHoldsNothing(c, w, m);
      assert MineAt(c, w, m);
    }
    NobodyPending(c, w);
  }

  lemma NobodyPending(c: W.Config, w: W.State)
    requires LanesFine(w.lanes) && forall m :: !Owned(c.me, w.lanes, m)
    ensures forall i, sid :: 0 <= i < |w.lanes| && sid in w.lanes[i].pending ==> w.lanes[i].pending[sid] != c.me
  {
    forall i, sid | 0 <= i < |w.lanes| && sid in w.lanes[i].pending
      ensures w.lanes[i].pending[sid] != c.me
    {
      assert LaneOk(w.lanes[i]);
      var item := w.lanes[i].stream[sid];
      assert !Owned(c.me, w.lanes, Msg(i, sid, item.id, item.time));
    }
  }

  /** Each leftover comes back as a new entry of its own lane, with the same id and enqueue
      time, unread and in the order it was in. */
  lemma LeftoversComeBack(c: W.Config, w: W.State, lane: nat, j: nat)
    requires W.Acct(c, w) && Mine(c, w) && W.Enabled(c, w, W.GiveBack) && lane < |w.lanes|
    requires j < |OfLane(w.main.msgs, lane)|
    ensures var l, l', m := w.lanes[lane], W.Next(c, w, W.GiveBack).lanes[lane], OfLane(w.main.msgs, lane)[j];
            var sid := l.next + j;
            sid in l'.stream && l'.stream[sid] == Item(m.id, m.time) && sid > l'.last
  {
    var msgs := w.main.msgs;
    LeftoverFromLane(c, w, lane);
    BackByLane(w.lanes, msgs, lane);
    BackAsNewEntries(w.lanes[lane], OfLane(msgs, lane), j);
    assert LaneOk(w.lanes[lane]);
  }

  lemma LeftoverFromLane(c: W.Config, w: W.State, lane: nat)
    requires Mine(c, w) && w.main.Leftover? && lane < |w.lanes|
    ensures forall i :: 0 <= i < |OfLane(w.main.msgs, lane)| ==> OfLane(w.main.msgs, lane)[i].sid < w.lanes[lane].next
  {
    var ms := OfLane(w.main.msgs, lane);
    OfLaneFrom(w.main.msgs, lane);
    forall i | 0 <= i < |ms|
      ensures ms[i].sid < w.lanes[lane].next
    {
      assert ms[i] in w.main.msgs && MineAt(c, w, ms[i]);
      assert Owned(c.me, w.lanes, ms[i]);
      assert LaneOk(w.lanes[lane]);
    }
  }

  lemma {:induction false} OfLaneFrom(msgs: seq<Msg>, lane: nat)
    ensures forall i :: 0 <= i < |OfLane(msgs, lane)| ==> OfLane(msgs, lane)[i] in msgs && OfLane(msgs, lane)[i].lane == lane
  {
    if msgs != [] {
      OfLaneFrom(msgs[1..], lane);
      assert msgs == [msgs[0]] + msgs[1..];
    }
  }

  /** What is handed back is what the release pipeline does. */
  lemma {:induction false} GivingBackIsRelease(db: Db, msgs: seq<Msg>)
    requires forall i :: 0 <= i < |msgs| ==> msgs[i].lane < |db.lanes|
    ensures ReleaseAll(db, msgs) == db.(lanes := W.GivenBack(db.lanes, msgs))
    decreases |msgs|
  {
    if msgs != [] {
      GivingBackIsRelease(ReleaseOne(db, msgs[0]), msgs[1..]);
    }
  }

  lemma StoppedHoldsNothing(c: W.Config, w: W.State, m: Msg)
    requires W.Acct(c, w) && w.main.Stopped?
    ensures InHand(w, m) == 0
  {
    NoneRun(w.cons, m);
  }
}
