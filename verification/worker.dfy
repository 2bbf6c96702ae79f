/** One worker's own loop: a producer that reads batches within its permits and the lanes'
    limits, consumers that run them, a bounded channel between, and a stop.

    Each atomic load or update, each channel operation, each Redis call and each whole batch
    read is one step; the producer, every consumer and everyone else's steps interleave
    freely. */
module WorkerLoop {
  import opened Store
  import opened RedisStore
  import opened Stranding
  import opened ReadBatch

  datatype Config = Config(me: Worker, prefetch: int, limits: seq<int>, consumers: nat, burst: bool)

  /** What the constructor of the core enforces. */
  ghost predicate ConfigOk(c: Config) {
    && c.prefetch >= 1 && c.consumers >= 1 && c.limits != []
    && forall l :: 0 <= l < |c.limits| ==> c.limits[l] > 0
  }

  /** Where the producer is. `idle` says the last read looked at every lane and came back
      empty; `rest` is what it read and has still to send. */
  datatype Producer =
    | Top
    | Loading(count: int, room: seq<int>)
    | Reading(count: int, room: seq<int>)
    | Blocking(count: int, room: seq<int>)
    | Waiting(idle: bool)
    | Sub(rest: seq<Msg>, idle: bool)
    | Hold(rest: seq<Msg>, idle: bool)
    | Push(rest: seq<Msg>, idle: bool)
    | Promoting(lane: nat, now: int, moved: nat, idle: bool)
    | Checking(now: int, moved: nat, idle: bool)
    | Done

  datatype Consumer =
    | Idle
    | Ready // polled the stop and found none; about to poll the channel
    | Running(msg: Msg)
    | Freeing(lane: nat)
    | Returning
    | Exited

  datatype Main = Joining | Leftover(msgs: seq<Msg>) | Stopped

  /** How `run_task` leaves a message: acknowledged, acknowledged and scheduled again, or,
      when Redis fails, neither. */
  datatype Ending = Acked | Later(fireAt: int) | Lost

  /** `taken`, `finished` and `returned` are history: every message read, acknowledged by a
      finish, and handed back. `late` has, per lane, the ids retried since the lane was last
      promoted. */
  datatype State = State(
    lanes: seq<Lane>,
    permits: int,
    held: seq<int>,
    chan: seq<Msg>,
    prod: Producer,
    cons: seq<Consumer>,
    cancelled: bool,
    main: Main,
    taken: multiset<Msg>,
    finished: multiset<Msg>,
    returned: multiset<Msg>,
    late: seq<set<Id>>)

  datatype Step =
    | Stop
    | Others(lanes: seq<Lane>)
    | Enter
    | LoadRoom
    | Choose
    | Read(lanes: seq<Lane>, sids: seq<seq<nat>>, msgs: seq<Msg>)
    | ReadOne(lanes: seq<Lane>, sids: seq<seq<nat>>, msgs: seq<Msg>, extra: seq<Msg>)
    | Wake
    | WakeStopped
    | TakePermit
    | CountHeld
    | Send
    | StartPromote(now: int)
    | PromoteLane(due: seq<Id>)
    | EndPromote
    | Check
    | Fail
    | Poll(k: nat)
    | Receive(k: nat)
    | Finish(k: nat, how: Ending)
    | FreeLane(k: nat)
    | FreePermit(k: nat)
    | Join
    | GiveBack

  // ----- the steps

  function Max(a: int, b: int): int {
    if a > b then a else b
  }

  predicate Every(count: int, room: seq<int>) {
    count > 0 && forall l :: 0 <= l < |room| ==> room[l] > 0
  }

  predicate Attempted(count: int, room: seq<int>) {
    count > 0 && exists l :: 0 <= l < |room| && room[l] > 0
  }

  /** `Queue::release`, lane by lane. */
  function GivenBack(lanes: seq<Lane>, msgs: seq<Msg>): (r: seq<Lane>)
    requires forall i :: 0 <= i < |msgs| ==> msgs[i].lane < |lanes|
    ensures |r| == |lanes|
    decreases |msgs|
  {
    if msgs == [] then lanes
    else
      var m := msgs[0];
      GivenBack(lanes[m.lane := XDrop(XAdd(lanes[m.lane], m.id, m.time), m.sid)], msgs[1..])
  }

  /** What the reads promise: `Progress`, and within `count` and `room`. */
  ghost predicate ReadWithin(c: Config, w: State, lanes: seq<Lane>, sids: seq<seq<nat>>, msgs: seq<Msg>, room: seq<int>) {
    && Progress(w.lanes, lanes, c.me, sids, msgs)
    && |room| == |w.lanes| && WithinRoom(sids, room)
  }

  function EndLane(l: Lane, m: Msg, how: Ending): Lane {
    match how
    case Acked => XDrop(l, m.sid)
    case Later(fireAt) => ZAdd(XDrop(l, m.sid), m.id, fireAt)
    case Lost => l
  }

  ghost predicate Enabled(c: Config, w: State, st: Step) {
    match st
    case Stop => true
    // Anything at all that clients and other workers do to the lanes.
    case Others(lanes) =>
      |lanes| == |w.lanes| && forall i :: 0 <= i < |lanes| ==> LaneOk(lanes[i])
    case Enter => w.prod.Top?
    case LoadRoom => w.prod.Loading? && |w.prod.room| < |c.limits| == |w.held|
    case Choose => w.prod.Loading? && |w.prod.room| == |c.limits|
    case Read(lanes, sids, msgs) =>
      && w.prod.Reading? && ReadWithin(c, w, lanes, sids, msgs, w.prod.room) && |msgs| <= Nat(w.prod.count)
      && (|msgs| < w.prod.count ==> AllFull(lanes, sids, w.prod.room, |lanes|))
    case ReadOne(lanes, sids, msgs, extra) =>
      && w.prod.Blocking? && ReadWithin(c, w, lanes, sids, msgs + extra, w.prod.room)
      && |msgs| <= Nat(w.prod.count) && (extra != [] ==> |msgs| == w.prod.count)
      && (msgs + extra == [] ==> NothingThere(w.lanes, w.prod.room))
    case Wake => w.prod.Waiting?
    case WakeStopped => w.prod.Waiting? && w.cancelled
    case TakePermit => w.prod.Sub? && w.prod.rest != []
    case CountHeld => w.prod.Hold? && w.prod.rest != [] && w.prod.rest[0].lane < |w.held|
    case Send => w.prod.Push? && w.prod.rest != [] && |w.chan| < Max(c.prefetch, 1)
    case StartPromote(now) => w.prod.Sub? && w.prod.rest == []
    case PromoteLane(due) =>
      && w.prod.Promoting? && w.prod.lane < |w.lanes| == |w.late|
      && IsDue(w.lanes[w.prod.lane], w.prod.now, due)
    case EndPromote => w.prod.Promoting? && w.prod.lane >= |w.lanes|
    case Check => w.prod.Checking?
    case Fail => w.prod.Reading? || w.prod.Blocking? || w.prod.Promoting?
    case Poll(k) => k < |w.cons| && w.cons[k].Idle?
    case Receive(k) => k < |w.cons| && w.cons[k].Ready?
    case Finish(k, how) =>
      && k < |w.cons| && w.cons[k].Running? && w.cons[k].msg.lane < |w.lanes| == |w.late|
      && (how.Later? ==> how.fireAt >= 0)
    case FreeLane(k) => k < |w.cons| && w.cons[k].Freeing? && w.cons[k].lane < |w.held|
    case FreePermit(k) => k < |w.cons| && w.cons[k].Returning?
    case Join => w.main.Joining? && w.prod.Done? && forall k :: 0 <= k < |w.cons| ==> w.cons[k].Exited?
    case GiveBack => w.main.Leftover? && forall i :: 0 <= i < |w.main.msgs| ==> w.main.msgs[i].lane < |w.lanes|
  }

  function At(w: State, k: nat, x: Consumer): State
    requires k < |w.cons|
  {
    w.(cons := w.cons[k := x])
  }

  ghost function ReadNow(w: State, lanes: seq<Lane>, msgs: seq<Msg>): State
    requires w.prod.Reading?
  {
    w.(lanes := lanes, taken := w.taken + multiset(msgs),
       prod := if msgs == [] then Blocking(w.prod.count, w.prod.room) else Sub(msgs, false))
  }

  ghost function ReadOneNow(w: State, lanes: seq<Lane>, msgs: seq<Msg>, extra: seq<Msg>): State
    requires w.prod.Blocking? && forall i :: 0 <= i < |extra| ==> extra[i].lane < |lanes|
  {
    w.(lanes := GivenBack(lanes, extra),
       taken := w.taken + multiset(msgs) + multiset(extra), returned := w.returned + multiset(extra),
       prod := Sub(msgs, Every(w.prod.count, w.prod.room) && msgs == []))
  }

  ghost function Promoted(w: State, due: seq<Id>): State
    requires w.prod.Promoting? && w.prod.lane < |w.lanes| == |w.late| && IsDue(w.lanes[w.prod.lane], w.prod.now, due)
  {
    var i := w.prod.lane;
    w.(lanes := w.lanes[i := Store.Promote(w.lanes[i], due)], late := w.late[i := {}],
       prod := Promoting(i + 1, w.prod.now, w.prod.moved + |due|, w.prod.idle))
  }

  function Ended(w: State, k: nat, how: Ending): State
    requires k < |w.cons| && w.cons[k].Running? && w.cons[k].msg.lane < |w.lanes| == |w.late|
  {
    var m := w.cons[k].msg;
    At(w, k, Freeing(m.lane)).(
      lanes := w.lanes[m.lane := EndLane(w.lanes[m.lane], m, how)],
      finished := if how.Lost? then w.finished else w.finished + multiset{m},
      late := if how.Later? then w.late[m.lane := w.late[m.lane] + {m.id}] else w.late)
  }

  function Received(w: State, k: nat): State
    requires k < |w.cons|
  {
    if w.chan != [] then At(w, k, Running(w.chan[0])).(chan := w.chan[1..])
    else At(w, k, if w.prod.Done? then Exited else Idle)
  }

  predicate LeavesBurst(c: Config, w: State) {
    c.burst && w.prod.Checking? && w.prod.idle && w.prod.moved == 0 && w.permits >= c.prefetch
  }

  ghost function Next(c: Config, w: State, st: Step): State
    requires Enabled(c, w, st)
  {
    match st
    case Stop => w.(cancelled := true)
    case Others(lanes) => w.(lanes := lanes)
    case Enter => w.(prod := if w.cancelled then Done else Loading(Max(w.permits, 0), []))
    case LoadRoom =>
      var l := |w.prod.room|;
      w.(prod := Loading(w.prod.count, w.prod.room + [Max(c.limits[l] - w.held[l], 0)]))
    case Choose =>
      var p := w.prod;
      w.(prod := if Attempted(p.count, p.room) then Reading(p.count, p.room) else Waiting(Every(p.count, p.room)))
    case Read(lanes, _, msgs) => ReadNow(w, lanes, msgs)
    case ReadOne(lanes, _, msgs, extra) =>
      assert forall i :: 0 <= i < |extra| ==> extra[i] == (msgs + extra)[|msgs| + i];
      ReadOneNow(w, lanes, msgs, extra)
    case Wake => w.(prod := Sub([], w.prod.idle))
    case WakeStopped => w.(prod := Done)
    case TakePermit => w.(permits := w.permits - 1, prod := Hold(w.prod.rest, w.prod.idle))
    case CountHeld =>
      var l := w.prod.rest[0].lane;
      w.(held := w.held[l := w.held[l] + 1], prod := Push(w.prod.rest, w.prod.idle))
    case Send => w.(chan := w.chan + [w.prod.rest[0]], prod := Sub(w.prod.rest[1..], w.prod.idle))
    case StartPromote(now) => w.(prod := Promoting(0, now, 0, w.prod.idle))
    case PromoteLane(due) => Promoted(w, due)
    case EndPromote => w.(prod := Checking(w.prod.now, w.prod.moved, w.prod.idle))
    case Check => if LeavesBurst(c, w) then w.(cancelled := true, prod := Done) else w.(prod := Top)
    case Fail => w.(prod := Done)
    case Poll(k) => At(w, k, if w.cancelled then Exited else Ready)
    case Receive(k) => Received(w, k)
    case Finish(k, how) => Ended(w, k, how)
    case FreeLane(k) =>
      var l := w.cons[k].lane;
      At(w, k, Returning).(held := w.held[l := w.held[l] - 1])
    case FreePermit(k) => At(w, k, Idle).(permits := w.permits + 1)
    case Join => w.(main := Leftover(w.chan), chan := [])
    case GiveBack =>
      w.(main := Stopped, lanes := GivenBack(w.lanes, w.main.msgs), returned := w.returned + multiset(w.main.msgs))
  }

  function Start(c: Config, lanes: seq<Lane>): State {
    State(lanes, c.prefetch, seq(|c.limits|, i => 0), [], Top, seq(c.consumers, i => Idle), false, Joining,
          multiset{}, multiset{}, multiset{}, seq(|c.limits|, i => {}))
  }

  ghost predicate CanRun(c: Config, w: State, steps: seq<Step>)
    decreases |steps|
  {
    steps != [] ==> Enabled(c, w, steps[0]) && CanRun(c, Next(c, w, steps[0]), steps[1..])
  }

  ghost function Run(c: Config, w: State, steps: seq<Step>): State
    requires CanRun(c, w, steps)
    decreases |steps|
  {
    if steps == [] then w else Run(c, Next(c, w, steps[0]), steps[1..])
  }

  // ----- accounting

  function Busy(x: Consumer): nat {
    if x.Running? || x.Freeing? || x.Returning? then 1 else 0
  }

  function BusySum(cons: seq<Consumer>): nat {
    if cons == [] then 0 else Busy(cons[0]) + BusySum(cons[1..])
  }

  function Holds(x: Consumer, l: int): nat {
    if (x.Running? && x.msg.lane == l) || (x.Freeing? && x.lane == l) then 1 else 0
  }

  function HoldsSum(cons: seq<Consumer>, l: int): nat {
    if cons == [] then 0 else Holds(cons[0], l) + HoldsSum(cons[1..], l)
  }

  lemma {:induction false} SumsUpdate(cons: seq<Consumer>, k: nat, x: Consumer)
    requires k < |cons|
    ensures BusySum(cons[k := x]) == BusySum(cons) - Busy(cons[k]) + Busy(x)
    ensures forall l :: HoldsSum(cons[k := x], l) == HoldsSum(cons, l) - Holds(cons[k], l) + Holds(x, l)
  {
    if k == 0 {
      assert cons[k := x][1..] == cons[1..];
    } else {
      assert cons[k := x][1..] == cons[1..][k - 1 := x];
      SumsUpdate(cons[1..], k - 1, x);
    }
  }

  lemma {:induction false} NoneBusy(cons: seq<Consumer>)
    ensures BusySum(cons) == 0 ==> forall k :: 0 <= k < |cons| ==> Busy(cons[k]) == 0
    ensures BusySum(cons) == 0 ==> forall l :: HoldsSum(cons, l) == 0
  {
    if cons != [] {
      NoneBusy(cons[1..]);
      assert forall k :: 0 < k < |cons| ==> cons[1..][k - 1] == cons[k];
    }
  }

  /** A permit is taken and the message not yet in the channel. */
  function InSend(p: Producer): nat {
    if p.Hold? || p.Push? then 1 else 0
  }

  function Pushing(p: Producer, l: int): nat {
    if p.Push? && p.rest != [] && p.rest[0].lane == l then 1 else 0
  }

  ghost predicate MsgsIn(msgs: seq<Msg>, lanes: nat) {
    forall i :: 0 <= i < |msgs| ==> msgs[i].lane < lanes
  }

  ghost predicate Lanes(c: Config, w: State) {
    && |w.lanes| == |c.limits| == |w.held| == |w.late|
    && MsgsIn(w.chan, |w.lanes|) && MsgsIn(Rest(w.prod), |w.lanes|)
    && (forall k :: 0 <= k < |w.cons| && w.cons[k].Running? ==> w.cons[k].msg.lane < |w.lanes|)
    && (forall k :: 0 <= k < |w.cons| && w.cons[k].Freeing? ==> w.cons[k].lane < |w.lanes|)
    && (w.main.Leftover? ==> MsgsIn(w.main.msgs, |w.lanes|))
  }

  function Rest(p: Producer): seq<Msg> {
    if p.Sub? || p.Hold? || p.Push? then p.rest else []
  }

  /** Every permit is free, in the channel, with a consumer or in the middle of a send. */
  ghost predicate PermitsExact(c: Config, w: State) {
    && w.permits >= 0
    && (w.main.Joining? ==> w.permits + |w.chan| + BusySum(w.cons) + InSend(w.prod) == c.prefetch)
  }

  /** `held` counts, lane by lane, exactly what is in the channel, running or being sent. */
  ghost predicate HeldExact(w: State) {
    w.main.Joining? ==> forall l :: 0 <= l < |w.held| ==>
      w.held[l] == |OfLane(w.chan, l)| + HoldsSum(w.cons, l) + Pushing(w.prod, l)
  }

  ghost predicate HeldWithin(c: Config, w: State)
    requires |w.held| == |c.limits|
  {
    forall l :: 0 <= l < |w.held| ==> w.held[l] <= c.limits[l]
  }

  /** What the producer knows is never better than what is so: permits and lanes only get
      freer while it is not looking. */
  ghost predicate Bounds(c: Config, w: State)
    requires |w.held| == |c.limits|
  {
    match w.prod
    case Loading(count, room) => 0 <= count <= w.permits && RoomSafe(c, w.held, room)
    case Reading(count, room) => 0 < count <= w.permits && |room| == |c.limits| && RoomSafe(c, w.held, room)
    case Blocking(count, room) => 0 < count <= w.permits && |room| == |c.limits| && RoomSafe(c, w.held, room)
    case Sub(rest, _) => |rest| <= w.permits && FitsIn(c, w.held, rest)
    case Hold(rest, _) => rest != [] && |rest| - 1 <= w.permits && FitsIn(c, w.held, rest)
    case Push(rest, _) => rest != [] && |rest| - 1 <= w.permits && FitsIn(c, w.held, rest[1..])
    case _ => true
  }

  ghost predicate RoomSafe(c: Config, held: seq<int>, room: seq<int>) {
    |room| <= |c.limits| == |held| && forall l :: 0 <= l < |room| ==> 0 <= room[l] <= c.limits[l] - held[l]
  }

  ghost predicate FitsIn(c: Config, held: seq<int>, rest: seq<Msg>) {
    |c.limits| == |held| && forall l :: 0 <= l < |held| ==> held[l] + |OfLane(rest, l)| <= c.limits[l]
  }

  ghost predicate Phase(w: State) {
    !w.main.Joining? ==> w.prod.Done? && w.chan == [] && forall k :: 0 <= k < |w.cons| ==> w.cons[k].Exited?
  }

  ghost predicate Acct(c: Config, w: State) {
    ConfigOk(c) && Lanes(c, w) && PermitsExact(c, w) && HeldExact(w) && HeldWithin(c, w) && Bounds(c, w) && Phase(w)
  }

  lemma {:induction false} AllIdle(cons: seq<Consumer>)
    requires forall k :: 0 <= k < |cons| ==> cons[k].Idle?
    ensures BusySum(cons) == 0
    ensures forall l :: HoldsSum(cons, l) == 0
  {
    if cons != [] {
      AllIdle(cons[1..]);
    }
  }

  lemma StartAcct(c: Config, lanes: seq<Lane>)
    requires ConfigOk(c) && |lanes| == |c.limits|
    ensures Acct(c, Start(c, lanes))
  {
    AllIdle(Start(c, lanes).cons);
  }

  // ----- the producer's steps

  /** Steps that leave permits, `held`, the channel and the consumers alone. */
  ghost predicate SameCounts(w: State, w': State) {
    && w'.permits == w.permits && w'.held == w.held && w'.chan == w.chan && w'.cons == w.cons
    && w'.main == w.main && |w'.lanes| == |w.lanes| && |w'.late| == |w.late|
  }

  lemma SameCountsAcct(c: Config, w: State, w': State)
    requires Acct(c, w) && SameCounts(w, w') && Bounds(c, w')
    requires InSend(w.prod) == InSend(w'.prod) == 0
    requires MsgsIn(Rest(w'.prod), |w.lanes|)
    requires w.prod.Done? ==> w'.prod.Done?
    ensures Acct(c, w')
  {
  }

  /** A batch within `count` and `room` fits: this is where the bounds on a read matter. */
  lemma BatchFits(c: Config, w: State, lanes: seq<Lane>, sids: seq<seq<nat>>, msgs: seq<Msg>, extra: seq<Msg>,
                  count: int, room: seq<int>)
    requires Acct(c, w) && ReadWithin(c, w, lanes, sids, msgs + extra, room)
    requires |msgs| <= count <= w.permits && RoomSafe(c, w.held, room)
    ensures FitsIn(c, w.held, msgs) && |lanes| == |w.lanes|
    ensures MsgsIn(msgs, |lanes|) && MsgsIn(extra, |lanes|)
  {
    var all := msgs + extra;
    assert forall i :: 0 <= i < |msgs| ==> msgs[i] == all[i];
    assert forall i :: 0 <= i < |extra| ==> extra[i] == all[|msgs| + i];
    forall l | 0 <= l < |w.held|
      ensures w.held[l] + |OfLane(msgs, l)| <= c.limits[l]
    {
      OfLaneConcat(msgs, extra, l);
      assert |OfLane(all, l)| == |sids[l]| <= Nat(room[l]);
    }
  }

  lemma ReadAcct(c: Config, w: State, st: Step)
    requires Acct(c, w) && Enabled(c, w, st) && (st.Read? || st.ReadOne?)
    ensures Acct(c, Next(c, w, st))
  {
    if st.Read? {
      assert st.msgs + [] == st.msgs;
      BatchFits(c, w, st.lanes, st.sids, st.msgs, [], w.prod.count, w.prod.room);
    } else {
      BatchFits(c, w, st.lanes, st.sids, st.msgs, st.extra, w.prod.count, w.prod.room);
    }
    SameCountsAcct(c, w, Next(c, w, st));
  }

  lemma LoadAcct(c: Config, w: State, st: Step)
    requires Acct(c, w) && Enabled(c, w, st)
    requires st.Enter? || st.LoadRoom? || st.Choose? || st.Wake? || st.WakeStopped?
    ensures Acct(c, Next(c, w, st))
  {
    SameCountsAcct(c, w, Next(c, w, st));
  }

  lemma PromoteAcct(c: Config, w: State, st: Step)
    requires Acct(c, w) && Enabled(c, w, st)
    requires st.StartPromote? || st.PromoteLane? || st.EndPromote? || st.Check? || st.Fail?
    ensures Acct(c, Next(c, w, st))
  {
    SameCountsAcct(c, w, Next(c, w, st).(cancelled := w.cancelled));
  }

  lemma TakePermitAcct(c: Config, w: State)
    requires Acct(c, w) && Enabled(c, w, TakePermit)
    ensures Acct(c, Next(c, w, TakePermit))
  {
  }

  lemma OfLaneFirst(msgs: seq<Msg>)
    requires msgs != []
    ensures forall l: nat :: |OfLane(msgs, l)| == |OfLane(msgs[1..], l)| + if l == msgs[0].lane then 1 else 0
  {
  }

  lemma OfLaneLast(msgs: seq<Msg>, m: Msg)
    ensures forall l: nat :: |OfLane(msgs + [m], l)| == |OfLane(msgs, l)| + if l == m.lane then 1 else 0
  {
    forall l: nat
      ensures |OfLane(msgs + [m], l)| == |OfLane(msgs, l)| + if l == m.lane then 1 else 0
    {
      OfLaneConcat(msgs, [m], l);
      OfLaneAll([m], m.lane, l);
    }
  }

  lemma CountHeldAcct(c: Config, w: State)
    requires Acct(c, w) && Enabled(c, w, CountHeld)
    ensures Acct(c, Next(c, w, CountHeld))
  {
    OfLaneFirst(w.prod.rest);
  }

  lemma SendAcct(c: Config, w: State)
    requires Acct(c, w) && Enabled(c, w, Send)
    ensures Acct(c, Next(c, w, Send))
  {
    OfLaneLast(w.chan, w.prod.rest[0]);
  }

  // ----- the consumers' steps

  lemma PollAcct(c: Config, w: State, k: nat)
    requires Acct(c, w) && Enabled(c, w, Poll(k))
    ensures Acct(c, Next(c, w, Poll(k)))
  {
    SumsUpdate(w.cons, k, if w.cancelled then Exited else Ready);
  }

  lemma ReceiveNoneAcct(c: Config, w: State, k: nat)
    requires Acct(c, w) && Enabled(c, w, Receive(k)) && w.chan == []
    ensures Acct(c, Next(c, w, Receive(k)))
  {
    SumsUpdate(w.cons, k, Received(w, k).cons[k]);
  }

  lemma ReceiveOneAcct(c: Config, w: State, k: nat)
    requires Acct(c, w) && Enabled(c, w, Receive(k)) && w.chan != []
    ensures Acct(c, Next(c, w, Receive(k)))
  {
    SumsUpdate(w.cons, k, Running(w.chan[0]));
    OfLaneFirst(w.chan);
  }

  lemma ReceiveAcct(c: Config, w: State, k: nat)
    requires Acct(c, w) && Enabled(c, w, Receive(k))
    ensures Acct(c, Next(c, w, Receive(k)))
  {
    if w.chan == [] {
      ReceiveNoneAcct(c, w, k);
    } else {
      ReceiveOneAcct(c, w, k);
    }
  }

  lemma FinishAcct(c: Config, w: State, k: nat, how: Ending)
    requires Acct(c, w) && Enabled(c, w, Finish(k, how))
    ensures Acct(c, Next(c, w, Finish(k, how)))
  {
    var w' := Next(c, w, Finish(k, how));
    SumsUpdate(w.cons, k, w'.cons[k]);
    assert BusySum(w'.cons) == BusySum(w.cons) && forall l :: HoldsSum(w'.cons, l) == HoldsSum(w.cons, l);
    assert HeldExact(w') && Phase(w');
  }

  /** Freeing only helps what the producer is doing. */
  lemma FreerStillFits(c: Config, w: State, held: seq<int>)
    requires |w.held| == |c.limits| == |held| && Bounds(c, w)
    requires forall l :: 0 <= l < |held| ==> held[l] <= w.held[l]
    ensures Bounds(c, w.(held := held))
  {
  }

  lemma FreeLaneAcct(c: Config, w: State, k: nat)
    requires Acct(c, w) && Enabled(c, w, FreeLane(k))
    ensures Acct(c, Next(c, w, FreeLane(k)))
  {
    SumsUpdate(w.cons, k, Returning);
    FreerStillFits(c, w, Next(c, w, FreeLane(k)).held);
  }

  lemma FreePermitAcct(c: Config, w: State, k: nat)
    requires Acct(c, w) && Enabled(c, w, FreePermit(k))
    ensures Acct(c, Next(c, w, FreePermit(k)))
  {
    SumsUpdate(w.cons, k, Idle);
  }

  lemma ConsumerAcct(c: Config, w: State, st: Step)
    requires Acct(c, w) && Enabled(c, w, st)
    requires st.Poll? || st.Receive? || st.Finish? || st.FreeLane? || st.FreePermit?
    ensures Acct(c, Next(c, w, st))
  {
    match st
    case Poll(k) => PollAcct(c, w, k);
    case Receive(k) => ReceiveAcct(c, w, k);
    case Finish(k, how) => FinishAcct(c, w, k, how);
    case FreeLane(k) => FreeLaneAcct(c, w, k);
    case FreePermit(k) => FreePermitAcct(c, w, k);
  }

  lemma OutsideAcct(c: Config, w: State, st: Step)
    requires Acct(c, w) && Enabled(c, w, st)
    requires st.Stop? || st.Others? || st.Join? || st.GiveBack?
    ensures Acct(c, Next(c, w, st))
  {
  }

  lemma StepAcct(c: Config, w: State, st: Step)
    requires Acct(c, w) && Enabled(c, w, st)
    ensures Acct(c, Next(c, w, st))
  {
    if st.Read? || st.ReadOne? {
      ReadAcct(c, w, st);
    } else if st.Enter? || st.LoadRoom? || st.Choose? || st.Wake? || st.WakeStopped? {
      LoadAcct(c, w, st);
    } else if st.StartPromote? || st.PromoteLane? || st.EndPromote? || st.Check? || st.Fail? {
      PromoteAcct(c, w, st);
    } else if st.TakePermit? {
      TakePermitAcct(c, w);
    } else if st.CountHeld? {
      CountHeldAcct(c, w);
    } else if st.Send? {
      SendAcct(c, w);
    } else if st.Stop? || st.Others? || st.Join? || st.GiveBack? {
      OutsideAcct(c, w, st);
    } else {
      ConsumerAcct(c, w, st);
    }
  }

  lemma {:induction false} RunAcct(c: Config, w: State, steps: seq<Step>)
    requires Acct(c, w) && CanRun(c, w, steps)
    ensures Acct(c, Run(c, w, steps))
    decreases |steps|
  {
    if steps != [] {
      StepAcct(c, w, steps[0]);
      RunAcct(c, Next(c, w, steps[0]), steps[1..]);
    }
  }
}
