/** A worker with a free permit does take waiting work, and runs what it took: the other half
    of the accounting, which only bounds what it takes. And a burst worker that finds nothing
    left does leave. */
module Serving {
  import opened Store
  import opened RedisStore
  import opened Stranding
  import opened ReadBatch
  import opened Shutdown
  import Delays
  import Drain
  import P = Progress
  import W = WorkerLoop

  /** `steps` are the worker's own and can be taken one after another. */
  ghost predicate Runs(c: W.Config, w: W.State, steps: seq<W.Step>) {
    W.CanRun(c, w, steps) && forall i :: 0 <= i < |steps| ==> Own(steps[i])
  }

  lemma Then(c: W.Config, w: W.State, st: W.Step, rest: seq<W.Step>)
    requires Own(st) && W.Enabled(c, w, st) && Runs(c, W.Next(c, w, st), rest)
    ensures Runs(c, w, [st] + rest) && W.Run(c, w, [st] + rest) == W.Run(c, W.Next(c, w, st), rest)
  {
    assert ([st] + rest)[1..] == rest;
  }

  lemma {:induction false} Join(c: W.Config, w: W.State, a: seq<W.Step>, b: seq<W.Step>)
    requires Runs(c, w, a) && Runs(c, W.Run(c, w, a), b)
    ensures Runs(c, w, a + b) && W.Run(c, w, a + b) == W.Run(c, W.Run(c, w, a), b)
    decreases |a|
  {
    if a == [] {
      assert a + b == b;
    } else {
      assert (a + b)[0] == a[0] && (a + b)[1..] == a[1..] + b;
      assert forall i :: 0 <= i < |a[1..]| ==> Own(a[1..][i]);
      Join(c, W.Next(c, w, a[0]), a[1..], b);
    }
  }

  // ----- what it goes to read

  /** What is free of each lane. */
  ghost predicate RoomIs(c: W.Config, w: W.State, room: seq<int>) {
    |room| == |c.limits| == |w.held| && forall l :: 0 <= l < |room| ==> room[l] == c.limits[l] - w.held[l]
  }

  lemma {:induction false} LoadsRoom(c: W.Config, w: W.State) returns (steps: seq<W.Step>)
    requires W.Acct(c, w) && w.prod.Loading?
    requires forall l :: 0 <= l < |w.prod.room| ==> w.prod.room[l] == c.limits[l] - w.held[l]
    ensures Runs(c, w, steps)
    ensures var w' := W.Run(c, w, steps);
            w'.prod.Loading? && w' == w.(prod := W.Loading(w.prod.count, w'.prod.room)) && RoomIs(c, w, w'.prod.room)
    decreases |c.limits| - |w.prod.room|
  {
    steps := [];
    if |w.prod.room| < |c.limits| {
      W.StepAcct(c, w, W.LoadRoom);
      var rest := LoadsRoom(c, W.Next(c, w, W.LoadRoom));
      Then(c, w, W.LoadRoom, rest);
      steps := [W.LoadRoom] + rest;
    }
  }

  /** The producer at its top, with a permit free and a lane below its limit, goes to read as
      many as there are permits, and of each lane as many as it has room for. */
  lemma TopReads(c: W.Config, w: W.State) returns (steps: seq<W.Step>)
    requires W.Acct(c, w) && w.prod.Top? && !w.cancelled && w.permits > 0
    requires exists l :: 0 <= l < |w.held| && w.held[l] < c.limits[l]
    ensures Runs(c, w, steps)
    ensures var w' := W.Run(c, w, steps);
            && w'.prod.Reading? && w'.prod.count == w.permits && RoomIs(c, w, w'.prod.room)
            && w' == w.(prod := w'.prod)
  {
    W.StepAcct(c, w, W.Enter);
    var w1 := W.Next(c, w, W.Enter);
    var load := LoadsRoom(c, w1);
    var w2 := W.Run(c, w1, load);
    assert w2.prod.room[..] == w2.prod.room;
    Then(c, w2, W.Choose, []);
    Join(c, w1, load, [W.Choose] + []);
    Then(c, w, W.Enter, load + ([W.Choose] + []));
    steps := [W.Enter] + (load + ([W.Choose] + []));
  }

  /** Neither kind of read comes back empty while a lane with room has an unread entry. */
  lemma ReadTakes(c: W.Config, w: W.State, st: W.Step, l: nat)
    requires W.Acct(c, w) && W.Enabled(c, w, st) && (st.Read? || st.ReadOne?)
    requires l < |w.lanes| && w.prod.room[l] > 0 && !Drained(w.lanes[l])
    ensures st.msgs != []
  {
    if st.ReadOne? {
      assert st.msgs + st.extra != [];
    } else if st.msgs == [] {
      EmptyBatch(w.lanes, st.lanes, c.me, st.sids, w.prod.room);
    }
  }

  // ----- and on to the consumers

  /** The first `n` of what was read have been sent, and nothing else has happened. */
  ghost predicate Sent(w: W.State, w': W.State, n: nat) {
    && n <= |W.Rest(w.prod)| && W.Rest(w'.prod) == W.Rest(w.prod)[n..] && w'.chan == w.chan + W.Rest(w.prod)[..n]
    && w'.cons == w.cons && w'.cancelled == w.cancelled && w'.main == w.main && w'.lanes == w.lanes
  }

  lemma SentMore(w: W.State, w1: W.State, w2: W.State, n: nat)
    requires Sent(w, w1, 1) && Sent(w1, w2, n)
    ensures Sent(w, w2, n + 1)
  {
    var rest := W.Rest(w.prod);
    assert rest[1..][..n] == rest[1..n + 1] && rest[..1] + rest[1..n + 1] == rest[..n + 1];
  }

  lemma SendsOne(c: W.Config, w: W.State) returns (steps: seq<W.Step>)
    requires W.Acct(c, w) && w.main.Joining? && W.Rest(w.prod) != []
    ensures Runs(c, w, steps) && W.Acct(c, W.Run(c, w, steps)) && Sent(w, W.Run(c, w, steps), 1)
  {
    if w.prod.Sub? {
      W.StepAcct(c, w, W.TakePermit);
      var rest := SendsHeld(c, W.Next(c, w, W.TakePermit));
      Then(c, w, W.TakePermit, rest);
      steps := [W.TakePermit] + rest;
    } else {
      steps := SendsHeld(c, w);
    }
  }

  lemma SendsHeld(c: W.Config, w: W.State) returns (steps: seq<W.Step>)
    requires W.Acct(c, w) && w.main.Joining? && (w.prod.Hold? || w.prod.Push?)
    ensures Runs(c, w, steps) && W.Acct(c, W.Run(c, w, steps)) && Sent(w, W.Run(c, w, steps), 1)
  {
    if w.prod.Hold? {
      assert w.prod.rest[0] in w.prod.rest;
      W.StepAcct(c, w, W.CountHeld);
      var rest := SendsPushed(c, W.Next(c, w, W.CountHeld));
      Then(c, w, W.CountHeld, rest);
      steps := [W.CountHeld] + rest;
    } else {
      steps := SendsPushed(c, w);
    }
  }

  lemma SendsPushed(c: W.Config, w: W.State) returns (steps: seq<W.Step>)
    requires W.Acct(c, w) && w.main.Joining? && w.prod.Push?
    ensures Runs(c, w, steps) && W.Acct(c, W.Run(c, w, steps)) && Sent(w, W.Run(c, w, steps), 1)
  {
    W.StepAcct(c, w, W.Send);
    Then(c, w, W.Send, []);
    steps := [W.Send] + [];
  }

  /** What is read gets to the channel, in order and behind what is there. */
  lemma {:induction false} SendsAll(c: W.Config, w: W.State) returns (steps: seq<W.Step>)
    requires W.Acct(c, w) && w.main.Joining?
    ensures Runs(c, w, steps) && W.Acct(c, W.Run(c, w, steps)) && Sent(w, W.Run(c, w, steps), |W.Rest(w.prod)|)
    decreases |W.Rest(w.prod)|
  {
    steps := [];
    if W.Rest(w.prod) != [] {
      var one := SendsOne(c, w);
      var w1 := W.Run(c, w, one);
      var more := SendsAll(c, w1);
      Join(c, w, one, more);
      SentMore(w, w1, W.Run(c, w1, more), |W.Rest(w1.prod)|);
      steps := one + more;
    }
  }

  /** A consumer that is busy gets free, its permit and its lane's place with it. */
  lemma {:induction false} GetsIdle(c: W.Config, w: W.State, k: nat) returns (steps: seq<W.Step>)
    requires Sound(c, w) && k < |w.cons| && !w.cons[k].Exited? && !w.cons[k].Ready?
    ensures Runs(c, w, steps) && OnlyConsumer(c, w, W.Run(c, w, steps), k, W.Idle, w.chan)
    decreases ConsumerRank(w.cons[k])
  {
    steps := [];
    if !w.cons[k].Idle? {
      var st := match w.cons[k]
        case Running(_) => W.Finish(k, W.Acked)
        case Freeing(_) => W.FreeLane(k)
        case _ => W.FreePermit(k);
      StepSound(c, w, st);
      var rest := GetsIdle(c, W.Next(c, w, st), k);
      Then(c, w, st, rest);
      steps := [st] + rest;
    }
  }

  /** The accounts are in order, and so are the lanes. */
  ghost predicate Sound(c: W.Config, w: W.State) {
    W.Acct(c, w) && LanesFine(w.lanes)
  }

  lemma StepSound(c: W.Config, w: W.State, st: W.Step)
    requires Sound(c, w) && W.Enabled(c, w, st)
    ensures Sound(c, W.Next(c, w, st))
  {
    W.StepAcct(c, w, st);
    StepLanes(c, w, st);
  }

  /** Only consumer `k` has moved on, and the channel with it. */
  ghost predicate OnlyConsumer(c: W.Config, w: W.State, w': W.State, k: nat, x: W.Consumer, chan: seq<Msg>) {
    && Sound(c, w') && k < |w.cons| && w'.cons == w.cons[k := x] && w'.chan == chan
    && w'.prod == w.prod && w'.cancelled == w.cancelled && w'.main == w.main
  }

  /** And takes the next message, unless a stop has been asked for. */
  lemma TakesNext(c: W.Config, w: W.State, k: nat) returns (steps: seq<W.Step>)
    requires Sound(c, w) && k < |w.cons| && !w.cons[k].Exited? && !w.cancelled && w.chan != []
    ensures Runs(c, w, steps) && OnlyConsumer(c, w, W.Run(c, w, steps), k, W.Running(w.chan[0]), w.chan[1..])
  {
    if w.cons[k].Ready? {
      StepSound(c, w, W.Receive(k));
      Then(c, w, W.Receive(k), []);
      steps := [W.Receive(k)] + [];
    } else {
      var free := GetsIdle(c, w, k);
      var w1 := W.Run(c, w, free);
      StepSound(c, w1, W.Poll(k));
      var w2 := W.Next(c, w1, W.Poll(k));
      StepSound(c, w2, W.Receive(k));
      Then(c, w2, W.Receive(k), []);
      Then(c, w1, W.Poll(k), [W.Receive(k)] + []);
      Join(c, w, free, [W.Poll(k)] + ([W.Receive(k)] + []));
      steps := free + ([W.Poll(k)] + ([W.Receive(k)] + []));
    }
  }

  lemma {:induction false} TakesUpTo(c: W.Config, w: W.State, k: nat, i: nat) returns (steps: seq<W.Step>)
    requires Sound(c, w) && k < |w.cons| && !w.cons[k].Exited? && !w.cancelled && i < |w.chan|
    ensures Runs(c, w, steps) && OnlyConsumer(c, w, W.Run(c, w, steps), k, W.Running(w.chan[i]), w.chan[i + 1..])
    decreases i
  {
    steps := TakesNext(c, w, k);
    if i > 0 {
      var w1 := W.Run(c, w, steps);
      var rest := TakesUpTo(c, w1, k, i - 1);
      assert w1.chan[i..] == w.chan[i + 1..];
      Join(c, w, steps, rest);
      steps := steps + rest;
    }
  }

  /** Whatever the worker has read or has in its channel, and whatever it is busy with, any
      consumer that is still there can come to run it. */
  lemma HeldWorkIsRun(c: W.Config, w: W.State, k: nat, m: Msg) returns (steps: seq<W.Step>)
    requires Sound(c, w) && w.main.Joining? && !w.cancelled && k < |w.cons| && !w.cons[k].Exited?
    requires m in W.Rest(w.prod) || m in w.chan
    ensures Runs(c, w, steps)
    ensures k < |W.Run(c, w, steps).cons| && W.Run(c, w, steps).cons[k] == W.Running(m)
  {
    var send := SendsAll(c, w);
    var w1 := W.Run(c, w, send);
    assert W.Rest(w.prod)[..|W.Rest(w.prod)|] == W.Rest(w.prod) && m in w1.chan;
    var i :| 0 <= i < |w1.chan| && w1.chan[i] == m;
    var take := TakesUpTo(c, w1, k, i);
    Join(c, w, send, take);
    steps := send + take;
  }

  /** `m` is an entry of its lane. */
  ghost predicate IsEntry(lanes: seq<Lane>, m: Msg) {
    m.lane < |lanes| && m.sid in lanes[m.lane].stream && lanes[m.lane].stream[m.sid] == Item(m.id, m.time)
  }

  lemma SomethingIsRead(c: W.Config, w: W.State, l: nat) returns (st: W.Step)
    requires W.Acct(c, w) && LanesFine(w.lanes) && w.prod.Reading? && RoomIs(c, w, w.prod.room)
    requires l < |w.lanes| && w.held[l] < c.limits[l] && !Drained(w.lanes[l])
    ensures st.Read? && W.Enabled(c, w, st) && st.msgs != [] && IsEntry(w.lanes, st.msgs[0])
  {
    var lanes, sids, msgs := SomeRead(w.lanes, c.me, w.prod.count, w.prod.room);
    st := W.Read(lanes, sids, msgs);
    ReadTakes(c, w, st, l);
    Drain.BatchHolds(w.lanes, lanes, c.me, sids, msgs, msgs[0]);
  }

  /** So a worker at its top with a permit free picks up waiting work: an unread entry in a
      lane below its limit is enough for it to come to run some entry of the lanes. */
  lemma FreeWorkerTakesWork(c: W.Config, w: W.State, l: nat, k: nat) returns (steps: seq<W.Step>, m: Msg)
    requires Sound(c, w) && w.prod.Top? && !w.cancelled && w.permits > 0
    requires l < |w.lanes| && w.held[l] < c.limits[l] && !Drained(w.lanes[l])
    requires k < |w.cons| && !w.cons[k].Exited?
    ensures Runs(c, w, steps) && IsEntry(w.lanes, m)
    ensures k < |W.Run(c, w, steps).cons| && W.Run(c, w, steps).cons[k] == W.Running(m)
  {
    var first := TopReads(c, w);
    var w1 := W.Run(c, w, first);
    ReadingAcct(c, w, w1);
    var st := SomethingIsRead(c, w1, l);
    m := st.msgs[0];
    StepSound(c, w1, st);
    var rest := HeldWorkIsRun(c, W.Next(c, w1, st), k, m);
    Then(c, w1, st, rest);
    Join(c, w, first, [st] + rest);
    steps := first + ([st] + rest);
  }

  lemma ReadingAcct(c: W.Config, w: W.State, w': W.State)
    requires W.Acct(c, w) && w.prod.Top? && w.permits > 0
    requires w'.prod.Reading? && w'.prod.count == w.permits && RoomIs(c, w, w'.prod.room) && w' == w.(prod := w'.prod)
    ensures W.Acct(c, w')
  {
  }

  // ----- and comes back for more

  /** The producer comes round, whatever it is doing, unless a stop or an error ends it. */
  lemma {:induction false} ComesToTop(c: W.Config, w: W.State) returns (steps: seq<W.Step>)
    requires Sound(c, w) && !w.prod.Done? && !w.cancelled && !c.burst
    ensures Runs(c, w, steps) && Sound(c, W.Run(c, w, steps))
    ensures var w' := W.Run(c, w, steps); w'.prod.Top? && !w'.cancelled && w'.cons == w.cons && w'.main == w.main
    decreases ProducerRank(|c.limits|, w.prod)
  {
    steps := [];
    if !w.prod.Top? {
      var st := ProducerCanMove(c, w);
      StepSound(c, w, st);
      ProducerTicks(c, w, st);
      ProducerGoesOn(c, w, st);
      var rest := ComesToTop(c, W.Next(c, w, st));
      Then(c, w, st, rest);
      steps := [st] + rest;
    }
  }

  lemma ProducerGoesOn(c: W.Config, w: W.State, st: W.Step)
    requires !w.cancelled && !c.burst && Producers(st) && W.Enabled(c, w, st)
    ensures var w' := W.Next(c, w, st);
            !w'.prod.Done? && !w'.cancelled && w'.cons == w.cons && w'.main == w.main
  {
  }

  /** The ranks of a stopping worker's producer serve here too. */
  lemma ProducerTicks(c: W.Config, w: W.State, st: W.Step)
    requires W.Acct(c, w) && !w.prod.Top? && !w.cancelled && !c.burst && Producers(st) && W.Enabled(c, w, st)
    ensures ProducerRank(|c.limits|, W.Next(c, w, st).prod) < ProducerRank(|c.limits|, w.prod)
  {
    var w1 := w.(cancelled := true);
    if st.LoadRoom? || st.Choose? || st.Read? || st.ReadOne? {
      ReadingTicks(c, w1, st);
    } else {
      SendingTicks(c, w1, st);
    }
  }

  /** One consumer empties the channel and comes to rest. */
  lemma {:induction false} Unloads(c: W.Config, w: W.State, k: nat) returns (steps: seq<W.Step>)
    requires Sound(c, w) && w.prod.Top? && k < |w.cons| && !w.cons[k].Exited? && !w.cancelled
    ensures Runs(c, w, steps) && OnlyConsumer(c, w, W.Run(c, w, steps), k, W.Idle, [])
    decreases |w.chan|
  {
    if w.chan != [] {
      steps := TakesNext(c, w, k);
      var rest := Unloads(c, W.Run(c, w, steps), k);
      Join(c, w, steps, rest);
      steps := steps + rest;
    } else if w.cons[k].Ready? {
      StepSound(c, w, W.Receive(k));
      Then(c, w, W.Receive(k), []);
      steps := [W.Receive(k)] + [];
    } else {
      steps := GetsIdle(c, w, k);
    }
  }

  ghost predicate AtRest(x: W.Consumer) {
    x.Idle? || x.Exited?
  }

  /** So do all the others from `k` on. */
  lemma {:induction false} AllComeToRest(c: W.Config, w: W.State, k: nat) returns (steps: seq<W.Step>)
    requires Sound(c, w) && w.prod.Top? && !w.cancelled && w.chan == [] && k <= |w.cons|
    requires forall i :: 0 <= i < k ==> AtRest(w.cons[i])
    ensures Runs(c, w, steps) && Sound(c, W.Run(c, w, steps))
    ensures var w' := W.Run(c, w, steps);
            && w'.prod.Top? && !w'.cancelled && w'.chan == [] && |w'.cons| == |w.cons| && w'.main == w.main
            && (forall i :: 0 <= i < |w'.cons| ==> AtRest(w'.cons[i]))
            && (forall i :: 0 <= i < |w.cons| && w.cons[i].Idle? ==> w'.cons[i].Idle?)
    decreases |w.cons| - k
  {
    steps := [];
    if k < |w.cons| {
      if !w.cons[k].Exited? {
        steps := Unloads(c, w, k);
      }
      var rest := AllComeToRest(c, W.Run(c, w, steps), k + 1);
      Join(c, w, steps, rest);
      steps := steps + rest;
    }
  }

  lemma {:induction false} RestIsFree(cons: seq<W.Consumer>)
    requires forall k :: 0 <= k < |cons| ==> AtRest(cons[k])
    ensures W.BusySum(cons) == 0 && forall l :: W.HoldsSum(cons, l) == 0
  {
    if cons != [] {
      RestIsFree(cons[1..]);
    }
  }

  /** From wherever it has got to, a worker that is not stopping can come back to its top with
      every permit free, no lane held and an empty channel: it is ready for more. */
  lemma ComesFree(c: W.Config, w: W.State, k: nat) returns (steps: seq<W.Step>)
    requires Sound(c, w) && !w.prod.Done? && !w.cancelled && !c.burst
    requires k < |w.cons| && !w.cons[k].Exited?
    ensures Runs(c, w, steps)
    ensures var w' := W.Run(c, w, steps);
            && Sound(c, w') && w'.prod.Top? && !w'.cancelled && w'.permits == c.prefetch && w'.chan == []
            && (forall l :: 0 <= l < |w'.held| ==> w'.held[l] == 0) && k < |w'.cons| && w'.cons[k].Idle?
  {
    var first := ComesToTop(c, w);
    var w1 := W.Run(c, w, first);
    var second := Unloads(c, w1, k);
    var w2 := W.Run(c, w1, second);
    var third := AllComeToRest(c, w2, 0);
    Join(c, w1, second, third);
    Join(c, w, first, second + third);
    steps := first + (second + third);
    RestIsFree(W.Run(c, w, steps).cons);
  }

  // ----- every round promotes

  ghost predicate OnlyProducers(steps: seq<W.Step>) {
    forall i :: 0 <= i < |steps| ==> Producers(steps[i])
  }

  ghost predicate SameDelayed(lanes: seq<Lane>, lanes': seq<Lane>) {
    |lanes'| == |lanes| && forall i :: 0 <= i < |lanes| ==> lanes'[i].delayed == lanes[i].delayed
  }

  lemma {:induction false} BackKeepsDelayed(lanes: seq<Lane>, msgs: seq<Msg>)
    requires forall i :: 0 <= i < |msgs| ==> msgs[i].lane < |lanes|
    ensures SameDelayed(lanes, W.GivenBack(lanes, msgs))
    decreases |msgs|
  {
    if msgs != [] {
      var m := msgs[0];
      BackKeepsDelayed(lanes[m.lane := XDrop(XAdd(lanes[m.lane], m.id, m.time), m.sid)], msgs[1..]);
    }
  }

  /** Short of a promotion, the producer leaves the delayed sets alone. */
  lemma KeepsDelayed(c: W.Config, w: W.State, st: W.Step)
    requires W.Enabled(c, w, st) && Producers(st) && !st.PromoteLane?
    ensures SameDelayed(w.lanes, W.Next(c, w, st).lanes)
  {
    if st.Read? || st.ReadOne? {
      forall i | 0 <= i < |w.lanes|
        ensures st.lanes[i].delayed == w.lanes[i].delayed
      {
        assert Took(w.lanes[i], st.lanes[i], c.me, st.sids[i]);
      }
    }
    if st.ReadOne? {
      assert forall i :: 0 <= i < |st.extra| ==> st.extra[i] == (st.msgs + st.extra)[|st.msgs| + i];
      BackKeepsDelayed(st.lanes, st.extra);
    }
  }

  /** On the way from its top to a promotion. */
  predicate Before(p: W.Producer) {
    p.Loading? || p.Reading? || p.Blocking? || p.Waiting? || p.Sub? || p.Hold? || p.Push?
  }

  lemma StaysBefore(c: W.Config, w: W.State, st: W.Step)
    requires Before(w.prod) && (w.prod.Sub? ==> w.prod.rest != []) && Producers(st) && W.Enabled(c, w, st)
    ensures !st.PromoteLane? && Before(W.Next(c, w, st).prod) && W.Next(c, w, st).cancelled == w.cancelled
  {
  }

  lemma BeforeTicks(c: W.Config, w: W.State, st: W.Step)
    requires W.Acct(c, w) && Before(w.prod) && (w.prod.Sub? ==> w.prod.rest != []) && Producers(st) && W.Enabled(c, w, st)
    ensures ProducerRank(|c.limits|, W.Next(c, w, st).prod) < ProducerRank(|c.limits|, w.prod)
  {
    var w1 := w.(cancelled := true);
    if st.LoadRoom? || st.Choose? || st.Read? || st.ReadOne? {
      ReadingTicks(c, w1, st);
    } else {
      SendingTicks(c, w1, st);
    }
  }

  /** By its own steps alone, whatever its consumers are doing. */
  lemma {:induction false} ComesToPromote(c: W.Config, w: W.State) returns (steps: seq<W.Step>)
    requires Sound(c, w) && Before(w.prod)
    ensures Runs(c, w, steps) && OnlyProducers(steps) && Sound(c, W.Run(c, w, steps))
    ensures var w' := W.Run(c, w, steps); w'.prod.Sub? && w'.prod.rest == [] && SameDelayed(w.lanes, w'.lanes)
    decreases ProducerRank(|c.limits|, w.prod)
  {
    steps := [];
    if !w.prod.Sub? || w.prod.rest != [] {
      var st := ProducerCanMove(c, w);
      StepSound(c, w, st);
      StaysBefore(c, w, st);
      KeepsDelayed(c, w, st);
      BeforeTicks(c, w, st);
      var rest := ComesToPromote(c, W.Next(c, w, st));
      Then(c, w, st, rest);
      steps := [st] + rest;
    }
  }

  /** Lane after lane, up to lane `i`. */
  lemma {:induction false} PromotesUpTo(c: W.Config, w: W.State, i: nat, id: Id) returns (steps: seq<W.Step>)
    requires Sound(c, w) && w.prod.Promoting? && w.prod.lane <= i < |w.lanes|
    requires id in w.lanes[i].delayed && w.lanes[i].delayed[id] <= w.prod.now
    ensures Runs(c, w, steps) && OnlyProducers(steps)
    ensures i < |W.Run(c, w, steps).lanes| && Delays.MovedBy(w.lanes[i], W.Run(c, w, steps).lanes[i], w.prod.now, id)
    decreases i - w.prod.lane
  {
    var at, now := w.prod.lane, w.prod.now;
    var due := P.DueListing(w.lanes[at], now);
    var st := W.PromoteLane(due);
    assert forall j :: 0 <= j < |due| ==> due[j] in due;
    StepSound(c, w, st);
    if at == i {
      Delays.PromoteMoves(w.lanes[i], now, due, id);
      Then(c, w, st, []);
      steps := [st] + [];
    } else {
      var rest := PromotesUpTo(c, W.Next(c, w, st), i, id);
      Then(c, w, st, rest);
      steps := [st] + rest;
    }
  }

  lemma StartsPromoting(c: W.Config, w: W.State, now: int, i: nat, id: Id) returns (steps: seq<W.Step>)
    requires Sound(c, w) && w.prod.Sub? && w.prod.rest == [] && i < |w.lanes|
    requires id in w.lanes[i].delayed && w.lanes[i].delayed[id] <= now
    ensures Runs(c, w, steps) && OnlyProducers(steps)
    ensures i < |W.Run(c, w, steps).lanes| && Delays.MovedBy(w.lanes[i], W.Run(c, w, steps).lanes[i], now, id)
  {
    StepSound(c, w, W.StartPromote(now));
    var rest := PromotesUpTo(c, W.Next(c, w, W.StartPromote(now)), i, id);
    Then(c, w, W.StartPromote(now), rest);
    steps := [W.StartPromote(now)] + rest;
  }

  lemma EntersARound(c: W.Config, w: W.State) returns (steps: seq<W.Step>)
    requires Sound(c, w) && w.prod.Top? && !w.cancelled
    ensures Runs(c, w, steps) && OnlyProducers(steps) && Sound(c, W.Run(c, w, steps))
    ensures var w' := W.Run(c, w, steps); w'.prod.Sub? && w'.prod.rest == [] && SameDelayed(w.lanes, w'.lanes)
  {
    StepSound(c, w, W.Enter);
    var rest := ComesToPromote(c, W.Next(c, w, W.Enter));
    Then(c, w, W.Enter, rest);
    steps := [W.Enter] + rest;
  }

  /** A producer at its top moves whatever is due before it is there again, even with no permit
      free and every lane at its limit: its own steps make an entry of any task due by `now`. */
  lemma EveryRoundPromotes(c: W.Config, w: W.State, now: int, i: nat, id: Id) returns (steps: seq<W.Step>)
    requires Sound(c, w) && w.prod.Top? && !w.cancelled && i < |w.lanes|
    requires id in w.lanes[i].delayed && w.lanes[i].delayed[id] <= now
    ensures Runs(c, w, steps) && OnlyProducers(steps)
    ensures var w' := W.Run(c, w, steps);
            && i < |w'.lanes| && id !in w'.lanes[i].delayed
            && exists sid: nat :: sid in w'.lanes[i].stream && w'.lanes[i].stream[sid] == Item(id, w.lanes[i].delayed[id])
  {
    var first := EntersARound(c, w);
    var last := StartsPromoting(c, W.Run(c, w, first), now, i, id);
    Join(c, w, first, last);
    steps := first + last;
  }

  // ----- a burst worker with nothing left

  /** Nobody has anything for it: no lane has an unread entry or a task due by `now`. */
  ghost predicate NothingLeft(lanes: seq<Lane>, now: int) {
    forall i :: 0 <= i < |lanes| ==>
      LaneOk(lanes[i]) && Drained(lanes[i]) && forall id :: id in lanes[i].delayed ==> lanes[i].delayed[id] > now
  }

  lemma {:induction false} PromotesNothing(c: W.Config, w: W.State) returns (steps: seq<W.Step>)
    requires W.Acct(c, w) && w.prod.Promoting? && NothingLeft(w.lanes, w.prod.now)
    ensures Runs(c, w, steps)
    ensures var w', p := W.Run(c, w, steps), w.prod;
            && w'.prod == W.Checking(p.now, p.moved, p.idle) && w'.permits == w.permits && w'.lanes == w.lanes
            && w'.cancelled == w.cancelled
    decreases |w.lanes| - w.prod.lane
  {
    if w.prod.lane < |w.lanes| {
      var l := w.lanes[w.prod.lane];
      assert Store.Promote(l, []) == l;
      W.StepAcct(c, w, W.PromoteLane([]));
      assert W.Next(c, w, W.PromoteLane([])).lanes == w.lanes;
      var rest := PromotesNothing(c, W.Next(c, w, W.PromoteLane([])));
      Then(c, w, W.PromoteLane([]), rest);
      steps := [W.PromoteLane([])] + rest;
    } else {
      Then(c, w, W.EndPromote, []);
      steps := [W.EndPromote] + [];
    }
  }

  /** Two reads that find nothing. */
  lemma ReadsNothing(c: W.Config, w: W.State, now: int) returns (steps: seq<W.Step>)
    requires W.Acct(c, w) && w.prod.Reading? && NothingLeft(w.lanes, now)
    ensures Runs(c, w, steps) && W.Acct(c, W.Run(c, w, steps))
    ensures W.Run(c, w, steps) == w.(prod := W.Sub([], W.Every(w.prod.count, w.prod.room)))
  {
    var none := seq(|w.lanes|, i => []);
    ProgressStart(w.lanes, c.me);
    var read, block := W.Read(w.lanes, none, []), W.ReadOne(w.lanes, none, [], []);
    assert AllFull(w.lanes, none, w.prod.room, |w.lanes|);
    var w1 := W.Next(c, w, read);
    W.StepAcct(c, w, read);
    assert [] + block.extra == [];
    assert W.Enabled(c, w1, block);
    W.StepAcct(c, w1, block);
    Then(c, w1, block, []);
    Then(c, w, read, [block] + []);
    steps := [read] + ([block] + []);
  }

  /** A burst worker at its top, with all permits back and nothing left for it, looks at every
      lane, promotes nothing and leaves at its next check. */
  lemma IdleBurstLeaves(c: W.Config, w: W.State, now: int) returns (steps: seq<W.Step>)
    requires W.Acct(c, w) && w.prod.Top? && !w.cancelled && c.burst
    requires w.permits >= c.prefetch && NothingLeft(w.lanes, now)
    ensures Runs(c, w, steps) && W.Run(c, w, steps).prod.Done? && W.Run(c, w, steps).cancelled
  {
    W.NoneBusy(w.cons);
    assert forall l :: 0 <= l < |w.held| ==> w.held[l] == 0;
    assert w.held[0] < c.limits[0];
    var first := TopReads(c, w);
    var w1 := W.Run(c, w, first);
    ReadingAcct(c, w, w1);
    assert W.Every(w1.prod.count, w1.prod.room);
    var second := ReadsNothing(c, w1, now);
    var w2 := W.Run(c, w1, second);
    var third := ChecksAndLeaves(c, w2, now);
    Join(c, w1, second, third);
    Join(c, w, first, second + third);
    steps := first + (second + third);
  }

  lemma ChecksAndLeaves(c: W.Config, w: W.State, now: int) returns (steps: seq<W.Step>)
    requires W.Acct(c, w) && w.prod == W.Sub([], true) && c.burst && w.permits >= c.prefetch && NothingLeft(w.lanes, now)
    ensures Runs(c, w, steps) && W.Run(c, w, steps).prod.Done? && W.Run(c, w, steps).cancelled
  {
    var w1 := W.Next(c, w, W.StartPromote(now));
    W.StepAcct(c, w, W.StartPromote(now));
    var promote := PromotesNothing(c, w1);
    var w2 := W.Run(c, w1, promote);
    Then(c, w2, W.Check, []);
    Join(c, w1, promote, [W.Check] + []);
    Then(c, w, W.StartPromote(now), promote + ([W.Check] + []));
    steps := [W.StartPromote(now)] + (promote + ([W.Check] + []));
  }
}
