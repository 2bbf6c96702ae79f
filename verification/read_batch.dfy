/** Reading a batch: claims first, then new entries lane by lane, or by weighted share with
    what one lane leaves going to the others. */
module ReadBatch {
  import opened Store
  import opened RedisStore
  import opened Scripts
  import opened Stranding
  import Fairness

  /** `l'` is `l` after the worker `w` took the entries `sids`, and no entry passed over. */
  ghost predicate Took(l: Lane, l': Lane, w: Worker, sids: seq<nat>) {
    && l'.stream == l.stream && l'.next == l.next && l'.delayed == l.delayed && l'.last >= l.last
    && LaneOk(l') && (l'.last == l.last || l'.last in sids)
    && Distinct(sids) && (forall i :: 0 <= i < |sids| ==> sids[i] in l.stream)
    && (forall sid :: sid in l'.pending <==> sid in l.pending || sid in sids)
    && (forall sid :: sid in sids ==> l'.pending[sid] == w)
    && (forall sid :: sid in l.pending && sid !in sids ==> l'.pending[sid] == l.pending[sid])
  }

  /** The messages of one lane, in the order read. */
  function OfLane(msgs: seq<Msg>, lane: nat): seq<Msg> {
    if msgs == [] then []
    else (if msgs[0].lane == lane then [msgs[0]] else []) + OfLane(msgs[1..], lane)
  }

  lemma {:induction false} OfLaneConcat(a: seq<Msg>, b: seq<Msg>, lane: nat)
    ensures OfLane(a + b, lane) == OfLane(a, lane) + OfLane(b, lane)
  {
    if a == [] {
      assert a + b == b;
    } else {
      assert (a + b)[0] == a[0] && (a + b)[1..] == a[1..] + b;
      OfLaneConcat(a[1..], b, lane);
      var first := if a[0].lane == lane then [a[0]] else [];
      assert first + (OfLane(a[1..], lane) + OfLane(b, lane)) == first + OfLane(a[1..], lane) + OfLane(b, lane);
    }
  }

  lemma {:induction false} OfLaneAll(msgs: seq<Msg>, at: nat, lane: nat)
    requires forall i :: 0 <= i < |msgs| ==> msgs[i].lane == at
    ensures OfLane(msgs, lane) == if lane == at then msgs else []
  {
    if msgs != [] {
      OfLaneAll(msgs[1..], at, lane);
    }
  }

  lemma AppendMsgs(out: seq<Msg>, l: Lane, at: nat, sids: seq<nat>)
    requires forall i :: 0 <= i < |sids| ==> sids[i] in l.stream
    ensures forall lane: nat :: OfLane(out + MsgsAt(l, at, sids), lane)
                             == OfLane(out, lane) + if lane == at then MsgsAt(l, at, sids) else []
  {
    forall lane: nat
      ensures OfLane(out + MsgsAt(l, at, sids), lane)
           == OfLane(out, lane) + if lane == at then MsgsAt(l, at, sids) else []
    {
      OfLaneConcat(out, MsgsAt(l, at, sids), lane);
      OfLaneAll(MsgsAt(l, at, sids), at, lane);
    }
  }

  // ----- one lane

  lemma TookNothing(l: Lane, w: Worker)
    requires LaneOk(l)
    ensures Took(l, l, w, [])
  {
  }

  lemma ClaimTakes(l: Lane, w: Worker, sids: seq<nat>)
    requires LaneOk(l) && Distinct(sids) && forall i :: 0 <= i < |sids| ==> sids[i] in l.pending
    ensures Took(l, ReassignAll(l, sids, w), w, sids) && ReassignAll(l, sids, w).last == l.last
  {
    ReassignAllFacts(l, sids, w);
  }

  lemma TakesMore(l: Lane, mid: Lane, w: Worker, taken: seq<nat>, sids: seq<nat>)
    requires Took(l, mid, w, taken) && LaneOk(DeliverAll(mid, sids, w)) && DeliverAll(mid, sids, w).last >= mid.last
    requires Distinct(sids) && forall i :: 0 <= i < |sids| ==> sids[i] in mid.stream && sids[i] !in mid.pending
    ensures Took(l, DeliverAll(mid, sids, w), w, taken + sids)
  {
    DeliverAllFacts(mid, sids, w);
    assert forall i :: 0 <= i < |taken| ==> taken[i] in taken;
    assert sids != [] ==> sids[|sids| - 1] in sids;
  }

  lemma ReadIsNew(mid: Lane, n: nat)
    requires LaneOk(mid) && n <= |Unread(mid)|
    requires InOrder(mid.stream, mid.last + 1, mid.next, Unread(mid))
    ensures var sids := Unread(mid)[..n];
            && Distinct(sids) && (forall i :: 0 <= i < n ==> sids[i] in mid.stream && sids[i] !in mid.pending)
            && (n > 0 ==> sids[n - 1] > mid.last)
  {
  }

  /** A read takes the oldest unread entries after what was already taken. */
  lemma ReadTakes(l: Lane, mid: Lane, w: Worker, taken: seq<nat>, n: nat)
    requires Took(l, mid, w, taken) && n <= |Unread(mid)|
    requires InOrder(mid.stream, mid.last + 1, mid.next, Unread(mid))
    ensures Took(l, DeliverAll(mid, Unread(mid)[..n], w), w, taken + Unread(mid)[..n])
    ensures n == |Unread(mid)| ==> Drained(DeliverAll(mid, Unread(mid)[..n], w))
  {
    var sids := Unread(mid)[..n];
    ReadIsNew(mid, n);
    ReadKeepsLaneOk(mid, w, n);
    assert DeliverAll(mid, sids, w).last >= mid.last by {
      DeliverAllFacts(mid, sids, w);
    }
    TakesMore(l, mid, w, taken, sids);
  }

  /** Delivering all there is up to some entry. */
  lemma DeliverKeepsLaneOk(l: Lane, sids: seq<nat>, w: Worker, last: nat)
    requires LaneOk(l) && sids != [] && sids[|sids| - 1] == last && l.last < last
    requires forall sid :: sid in sids <==> sid in l.stream && l.last < sid <= last
    ensures LaneOk(DeliverAll(l, sids, w)) && DeliverAll(l, sids, w).last == last
    ensures DeliverAll(l, sids, w).stream == l.stream
  {
    DeliverAllFacts(l, sids, w);
    assert last in sids;
  }

  lemma ReadKeepsLaneOk(mid: Lane, w: Worker, n: nat)
    requires LaneOk(mid) && n <= |Unread(mid)|
    requires InOrder(mid.stream, mid.last + 1, mid.next, Unread(mid))
    ensures LaneOk(DeliverAll(mid, Unread(mid)[..n], w))
    ensures n == |Unread(mid)| ==> Drained(DeliverAll(mid, Unread(mid)[..n], w))
  {
    var e := Unread(mid);
    if n > 0 {
      FirstInOrder(mid.stream, mid.last + 1, mid.next, e, n);
      DeliverKeepsLaneOk(mid, e[..n], w, e[n - 1]);
      assert n == |e| ==> e[..n] == e;
    } else {
      assert e[..0] == [];
      assert n == |e| ==> Drained(mid);
    }
  }

  // ----- all lanes

  /** The lanes went from `before` to `after` while `w` took `taken[i]` from lane `i`, and
      `out` is what it read, lane by lane. */
  ghost predicate Progress(before: seq<Lane>, after: seq<Lane>, w: Worker, taken: seq<seq<nat>>, out: seq<Msg>) {
    && |before| == |after| == |taken|
    && (forall i :: 0 <= i < |before| ==> Took(before[i], after[i], w, taken[i]))
    && (forall i :: 0 <= i < |before| ==> OfLane(out, i) == MsgsAt(before[i], i, taken[i]))
    && (forall j :: 0 <= j < |out| ==> out[j].lane < |before|)
  }

  /** Taking `more` from lane `i` is all that happened. */
  lemma ProgressOn(before: seq<Lane>, mid: seq<Lane>, w: Worker, taken: seq<seq<nat>>, out: seq<Msg>,
                   i: nat, l: Lane, more: seq<nat>)
    requires Progress(before, mid, w, taken, out) && i < |before|
    requires Took(before[i], l, w, taken[i] + more)
    ensures forall j :: 0 <= j < |more| ==> more[j] in before[i].stream
    ensures Progress(before, mid[i := l], w, taken[i := taken[i] + more], out + MsgsAt(before[i], i, more))
  {
    var all := taken[i] + more;
    assert forall j :: 0 <= j < |more| ==> more[j] == all[|taken[i]| + j];
    AppendMsgs(out, before[i], i, more);
    assert MsgsAt(before[i], i, taken[i]) + MsgsAt(before[i], i, more) == MsgsAt(before[i], i, all);
    forall k | 0 <= k < |before|
      ensures OfLane(out + MsgsAt(before[i], i, more), k) == MsgsAt(before[k], k, taken[i := all][k])
    {
      assert OfLane(out, k) == MsgsAt(before[k], k, taken[k]);
    }
  }

  /** A read of `n` entries of lane `i` is all that happened. */
  lemma ReadProgress(before: seq<Lane>, mid: seq<Lane>, w: Worker, taken: seq<seq<nat>>, out: seq<Msg>, i: nat, n: nat)
    returns (taken': seq<seq<nat>>)
    requires Progress(before, mid, w, taken, out) && i < |before| && n <= |Unread(mid[i])|
    requires InOrder(mid[i].stream, mid[i].last + 1, mid[i].next, Unread(mid[i]))
    ensures var sids := Unread(mid[i])[..n];
            && Progress(before, mid[i := DeliverAll(mid[i], sids, w)], w, taken', out + MsgsAt(mid[i], i, sids))
            && (n == |Unread(mid[i])| || Drained(mid[i]) ==> Drained(DeliverAll(mid[i], sids, w)))
    ensures taken' == taken[i := taken'[i]] && |taken'[i]| == |taken[i]| + n && taken[i] <= taken'[i]
  {
    var sids := Unread(mid[i])[..n];
    assert Took(before[i], mid[i], w, taken[i]);
    ReadTakes(before[i], mid[i], w, taken[i], n);
    DrainedHasNoUnread(mid[i]);
    ProgressOn(before, mid, w, taken, out, i, DeliverAll(mid[i], sids, w), sids);
    assert MsgsAt(mid[i], i, sids) == MsgsAt(before[i], i, sids);
    taken' := taken[i := taken[i] + sids];
  }

  lemma DrainedHasNoUnread(l: Lane)
    requires InOrder(l.stream, l.last + 1, l.next, Unread(l))
    ensures Drained(l) ==> Unread(l) == []
  {
    assert Unread(l) != [] ==> Unread(l)[0] in l.stream && Unread(l)[0] > l.last;
  }

  /** Nothing more to take from lane `i`: it is at its limit, or has nothing unread. */
  ghost predicate Full(lanes: seq<Lane>, taken: seq<seq<nat>>, room: seq<int>, i: nat)
    requires i < |lanes| == |taken| == |room|
  {
    |taken[i]| >= room[i] || Drained(lanes[i])
  }

  ghost predicate AllFull(lanes: seq<Lane>, taken: seq<seq<nat>>, room: seq<int>, n: nat)
    requires n <= |lanes| == |taken| == |room|
  {
    forall i :: 0 <= i < n ==> Full(lanes, taken, room, i)
  }

  /** What happens in one lane leaves the lanes above it full. */
  lemma StillFull(lanes: seq<Lane>, lanes': seq<Lane>, taken: seq<seq<nat>>, taken': seq<seq<nat>>, room: seq<int>,
                  at: nat, n: nat)
    requires n <= at < |lanes| == |taken| == |room|
    requires |lanes'| == |lanes| && lanes' == lanes[at := lanes'[at]]
    requires |taken'| == |taken| && taken' == taken[at := taken'[at]]
    requires AllFull(lanes, taken, room, n)
    ensures AllFull(lanes', taken', room, n)
  {
    forall i | 0 <= i < n
      ensures Full(lanes', taken', room, i)
    {
      assert Full(lanes, taken, room, i) && lanes'[i] == lanes[i] && taken'[i] == taken[i];
    }
  }

  /** Strict priority among the first `n` lanes: one was read anew only when every lane
      above it had nothing left. */
  ghost predicate Strict(before: seq<Lane>, lanes: seq<Lane>, taken: seq<seq<nat>>, room: seq<int>, n: nat)
    requires n <= |before| == |lanes| == |taken| == |room|
  {
    forall i :: 0 <= i < n && lanes[i].last != before[i].last ==> AllFull(lanes, taken, room, i)
  }

  lemma StrictStep(before: seq<Lane>, lanes: seq<Lane>, lanes': seq<Lane>, taken: seq<seq<nat>>,
                   taken': seq<seq<nat>>, room: seq<int>, at: nat)
    requires at < |before| == |lanes| == |taken| == |room|
    requires |lanes'| == |lanes| && lanes' == lanes[at := lanes'[at]]
    requires |taken'| == |taken| && taken' == taken[at := taken'[at]]
    requires Strict(before, lanes, taken, room, at) && AllFull(lanes, taken, room, at)
    ensures Strict(before, lanes', taken', room, at + 1) && AllFull(lanes', taken', room, at)
  {
    StillFull(lanes, lanes', taken, taken', room, at, at);
    forall i | 0 <= i < at && lanes'[i].last != before[i].last
      ensures AllFull(lanes', taken', room, i)
    {
      assert lanes'[i] == lanes[i];
      StillFull(lanes, lanes', taken, taken', room, at, i);
    }
  }

  ghost predicate WithinRoom(taken: seq<seq<nat>>, room: seq<int>)
    requires |taken| == |room|
  {
    forall i :: 0 <= i < |taken| ==> |taken[i]| <= Nat(room[i])
  }

  function Nat(n: int): nat {
    if n < 0 then 0 else n
  }

  /** What XAUTOCLAIM may find: messages pending in the lane, each once. */
  ghost predicate IdleIn(lanes: seq<Lane>, idle: seq<seq<nat>>) {
    && |idle| == |lanes|
    && forall i :: 0 <= i < |lanes| ==>
         Distinct(idle[i]) && forall j :: 0 <= j < |idle[i]| ==> idle[i][j] in lanes[i].pending
  }

  class Queue {
    const redis: Redis
    const credits: Fairness.Credits? // null without weights

    ghost predicate Valid()
      reads this, redis, if credits == null then {} else {credits, credits.credit}
    {
      && (forall i :: 0 <= i < |redis.lanes| ==> LaneOk(redis.lanes[i]))
      && (credits != null ==> credits.Valid() && |credits.weights| == |redis.lanes|)
    }

    constructor (redis: Redis, credits: Fairness.Credits?)
      requires forall i :: 0 <= i < |redis.lanes| ==> LaneOk(redis.lanes[i])
      requires credits != null ==> credits.Valid() && |credits.weights| == |redis.lanes|
      ensures Valid() && this.redis == redis && this.credits == credits
    {
      this.redis, this.credits := redis, credits;
    }

    method ClaimInto(w: Worker, lane: nat, take: int, idle: seq<seq<nat>>, out0: seq<Msg>,
                     ghost before: seq<Lane>, ghost taken0: seq<seq<nat>>)
      returns (got: nat, out: seq<Msg>, ghost taken: seq<seq<nat>>)
      requires Progress(before, redis.lanes, w, taken0, out0) && IdleIn(before, idle)
      requires lane < |redis.lanes| && take > 0 && taken0[lane] == [] && redis.lanes[lane] == before[lane]
      modifies redis`lanes
      ensures Progress(before, redis.lanes, w, taken, out)
      ensures redis.lanes == old(redis.lanes)[lane := redis.lanes[lane]]
      ensures redis.lanes[lane].last == before[lane].last
      ensures got <= take && |out| == |out0| + got && taken == taken0[lane := taken[lane]] && |taken[lane]| == got
      ensures taken[lane] == idle[lane][..Min(take, |idle[lane]|)]
    {
      ghost var l, sids := before[lane], idle[lane][..Min(take, |idle[lane]|)];
      assert LaneOk(l);
      var msgs := redis.Claim(w, lane, take, idle[lane]);
      ClaimTakes(l, w, sids);
      assert [] + sids == sids;
      ProgressOn(before, old(redis.lanes), w, taken0, out0, lane, ReassignAll(l, sids, w), sids);
      return |msgs|, out0 + msgs, taken0[lane := sids];
    }

    method ReadInto(w: Worker, lane: nat, ask: int, out0: seq<Msg>,
                    ghost before: seq<Lane>, ghost taken0: seq<seq<nat>>)
      returns (got: nat, out: seq<Msg>, ghost taken: seq<seq<nat>>)
      requires Progress(before, redis.lanes, w, taken0, out0)
      requires lane < |redis.lanes| && ask > 0
      modifies redis`lanes
      ensures Progress(before, redis.lanes, w, taken, out)
      ensures redis.lanes == old(redis.lanes)[lane := redis.lanes[lane]]
      ensures got <= ask && (got < ask ==> Drained(redis.lanes[lane]))
      ensures old(Drained(redis.lanes[lane])) ==> Drained(redis.lanes[lane])
      ensures |out| == |out0| + got && taken == taken0[lane := taken[lane]] && |taken[lane]| == |taken0[lane]| + got
      ensures taken0[lane] <= taken[lane]
      ensures out[..|out0|] == out0 && forall i :: |out0| <= i < |out| ==> out[i].lane == lane
    {
      ghost var lanes, n := redis.lanes, Min(ask, |Unread(redis.lanes[lane])|);
      var msgs := redis.ReadNew(w, lane, ask);
      taken := ReadProgress(before, lanes, w, taken0, out0, lane, n);
      return |msgs|, out0 + msgs, taken;
    }

    /** One lane of the strict loop: claims, and then new entries, up to what is left. */
    method Serve(w: Worker, lane: nat, left: int, room: int, idle: seq<seq<nat>>, out0: seq<Msg>,
                 ghost before: seq<Lane>, ghost taken0: seq<seq<nat>>)
      returns (got: nat, out: seq<Msg>, ghost taken: seq<seq<nat>>)
      requires Progress(before, redis.lanes, w, taken0, out0) && IdleIn(before, idle)
      requires lane < |redis.lanes| && left > 0 && taken0[lane] == [] && redis.lanes[lane] == before[lane]
      modifies redis`lanes
      ensures Progress(before, redis.lanes, w, taken, out)
      ensures redis.lanes == old(redis.lanes)[lane := redis.lanes[lane]] && taken == taken0[lane := taken[lane]]
      ensures got <= left && |out| == |out0| + got && |taken[lane]| == got <= Nat(room)
      ensures got < left ==> got >= room || Drained(redis.lanes[lane])
      ensures ClaimsFirst(taken[lane], idle[lane], room, got < left)
    {
      got, out, taken := 0, out0, taken0;
      var take := Min(left, room);
      if take > 0 {
        got, out, taken := ClaimInto(w, lane, take, idle, out, before, taken);
        if got < take {
          var more;
          more, out, taken := ReadInto(w, lane, take - got, out, before, taken);
          got := got + more;
        }
      }
    }

    /** Up to `count` messages, and no more from a lane than its room. */
    method Read(w: Worker, count: int, idle: seq<seq<nat>>, room: seq<int>)
      returns (out: seq<Msg>, ghost taken: seq<seq<nat>>)
      requires Valid() && credits == null
      requires |room| == |redis.lanes| && IdleIn(redis.lanes, idle)
      modifies redis`lanes
      ensures Valid()
      ensures Progress(old(redis.lanes), redis.lanes, w, taken, out)
      ensures |out| <= Nat(count) && WithinRoom(taken, room)
      // Work-conserving: coming back short means nothing was left to take.
      ensures |out| < count ==> AllFull(redis.lanes, taken, room, |redis.lanes|)
      // Strict priority: a new read from a lane means every higher lane had nothing left.
      ensures Strict(old(redis.lanes), redis.lanes, taken, room, |redis.lanes|)
      // What was left idle comes before anything new, and all of it if there is room.
      ensures AllClaimsFirst(taken, idle, room, |out| < count, |taken|)
    {
      ghost var before := redis.lanes;
      var left := Nat(count);
      out, taken := [], seq(|redis.lanes|, i => []);
      ProgressStart(before, w);
      var lane := 0;
      while lane < |redis.lanes|
        invariant 0 <= lane <= |redis.lanes| == |before|
        invariant Progress(before, redis.lanes, w, taken, out)
        invariant |out| + left == Nat(count) && left >= 0
        invariant WithinRoom(taken, room)
        invariant forall i :: lane <= i < |before| ==> redis.lanes[i] == before[i] && taken[i] == []
        invariant left > 0 ==> AllFull(redis.lanes, taken, room, lane)
        invariant Strict(before, redis.lanes, taken, room, lane)
        invariant AllClaimsFirst(taken, idle, room, left > 0, lane)
      {
        if left <= 0 {
          break;
        }
        ghost var lanes0, taken0 := redis.lanes, taken;
        var got;
        got, out, taken := Serve(w, lane, left, room[lane], idle, out, before, taken);
        ClaimsStep(taken0, taken, idle, room, left > 0, left - got > 0, lane);
        left := left - got;
        StrictStep(before, lanes0, redis.lanes, taken0, taken, room, lane);
        assert left > 0 ==> Full(redis.lanes, taken, room, lane);
        lane := lane + 1;
      }
      assert Strict(before, redis.lanes, taken, room, |redis.lanes|);
      NotReached(taken, idle, room, left > 0, lane);
    }

    /** One lane of the first weighted pass. */
    method ClaimLane(w: Worker, lane: nat, left: int, room: int, idle: seq<seq<nat>>, out0: seq<Msg>,
                     ghost before: seq<Lane>, ghost taken0: seq<seq<nat>>)
      returns (got: nat, out: seq<Msg>, ghost taken: seq<seq<nat>>)
      requires Progress(before, redis.lanes, w, taken0, out0) && IdleIn(before, idle)
      requires lane < |redis.lanes| && left > 0 && taken0[lane] == [] && redis.lanes[lane] == before[lane]
      modifies redis`lanes
      ensures Progress(before, redis.lanes, w, taken, out)
      ensures redis.lanes == old(redis.lanes)[lane := redis.lanes[lane]] && taken == taken0[lane := taken[lane]]
      ensures got <= left && |out| == |out0| + got && |taken[lane]| == got <= Nat(room)
      ensures ClaimsFirst(taken[lane], idle[lane], room, got < left)
    {
      got, out, taken := 0, out0, taken0;
      var take := Min(left, room);
      if take > 0 {
        got, out, taken := ClaimInto(w, lane, take, idle, out0, before, taken0);
      }
    }

    /** The first weighted pass: claims alone, highest lane first. */
    method ClaimPass(w: Worker, count: int, idle: seq<seq<nat>>, room: seq<int>)
      returns (left: int, space: seq<int>, out: seq<Msg>, ghost taken: seq<seq<nat>>)
      requires forall i :: 0 <= i < |redis.lanes| ==> LaneOk(redis.lanes[i])
      requires |room| == |redis.lanes| && IdleIn(redis.lanes, idle)
      modifies redis`lanes
      ensures Progress(old(redis.lanes), redis.lanes, w, taken, out)
      ensures |out| + left == Nat(count) && left >= 0 && WithinRoom(taken, room)
      ensures SpaceLeft(space, room, taken) && |out| == TakenSum(taken)
      ensures AllClaimsFirst(taken, idle, room, left > 0, |taken|)
    {
      ghost var before := redis.lanes;
      left, space := Nat(count), room;
      out, taken := [], seq(|redis.lanes|, i => []);
      ProgressStart(before, w);
      NothingTaken(taken);
      NoneReached(before, taken, idle, room);
      var lane := 0;
      while lane < |redis.lanes|
        invariant 0 <= lane <= |redis.lanes| == |before|
        invariant Progress(before, redis.lanes, w, taken, out)
        invariant |out| + left == Nat(count) && left >= 0 && |out| == TakenSum(taken)
        invariant WithinRoom(taken, room) && SpaceLeft(space, room, taken)
        invariant Untouched(before, redis.lanes, taken, lane)
        invariant AllClaimsFirst(taken, idle, room, left > 0, lane)
      {
        if left <= 0 {
          break;
        }
        ghost var lanes0, taken0 := redis.lanes, taken;
        var got;
        got, out, taken := ClaimLane(w, lane, left, space[lane], idle, out, before, taken);
        ClaimedOne(space, taken0, taken, idle, room, left, got, lane);
        UntouchedStep(before, lanes0, redis.lanes, taken0, taken, lane);
        space := space[lane := space[lane] - got];
        left := left - got;
        lane := lane + 1;
      }
      NotReached(taken, idle, room, left > 0, lane);
    }

    /** With weights: claims, then each lane's share of what is left, then what some lanes
        could not use to those that can. */
    method ReadWeighted(w: Worker, count: int, idle: seq<seq<nat>>, room: seq<int>)
      returns (out: seq<Msg>, ghost taken: seq<seq<nat>>, ghost claimed: seq<seq<nat>>, shares: seq<int>)
      requires Valid() && credits != null
      requires |room| == |redis.lanes| && IdleIn(redis.lanes, idle)
      modifies redis`lanes, credits.credit
      ensures Valid()
      ensures Progress(old(redis.lanes), redis.lanes, w, taken, out)
      ensures |out| <= Nat(count) && WithinRoom(taken, room)
      // Work-conserving: coming back short means nothing was left to take.
      ensures |out| < count ==> AllFull(redis.lanes, taken, room, |redis.lanes|)
      // Fair: what the claims leave is split by the weighted round robin, and a lane gets
      // its share on top of its claims unless it has nothing left to take.
      ensures |claimed| == |taken| == |shares|
      ensures Splits(old(credits.credit[..]), credits.weights, Nat(count) - TakenSum(claimed), credits.credit[..], shares)
      ensures GotShares(redis.lanes, taken, room, claimed, shares, |taken|)
      // What was left idle is claimed first, all of it if there is room.
      ensures AllClaimsFirst(claimed, idle, room, TakenSum(claimed) < Nat(count), |claimed|) && Extends(claimed, taken)
    {
      ghost var before := redis.lanes;
      var left, space;
      left, space, out, taken := ClaimPass(w, count, idle, room);
      claimed := taken;
      if left <= 0 {
        shares := Fairness.Tally([], |room|);
        return;
      }
      shares := SplitUp(left);
      var open, spare;
      out, taken, open, space, spare := SharePass(w, shares, room, space, out, before, taken, left);
      out, taken := SparePass(w, room, space, spare, open, out, before, taken, claimed, shares);
    }

    method SplitUp(left: int) returns (shares: seq<int>)
      requires credits != null && credits.Valid() && left > 0
      modifies credits.credit
      ensures credits.Valid() && Splits(old(credits.credit[..]), credits.weights, left, credits.credit[..], shares)
      ensures Fairness.Sum(shares) == left && forall i :: 0 <= i < |shares| ==> shares[i] >= 0
    {
      shares := credits.Shares(left);
    }

    /** One lane's share, as far as its space goes. */
    method ReadShare(w: Worker, lane: nat, share: int, space: int, out0: seq<Msg>,
                     ghost before: seq<Lane>, ghost taken0: seq<seq<nat>>)
      returns (ask: int, read: nat, out: seq<Msg>, ghost taken: seq<seq<nat>>)
      requires Progress(before, redis.lanes, w, taken0, out0)
      requires lane < |redis.lanes| && share >= 0
      modifies redis`lanes
      ensures Progress(before, redis.lanes, w, taken, out)
      ensures redis.lanes == old(redis.lanes)[lane := redis.lanes[lane]] && taken == taken0[lane := taken[lane]]
      ensures |out| == |out0| + read && |taken[lane]| == |taken0[lane]| + read && taken0[lane] <= taken[lane]
      ensures ask == Min(share, space) && read <= share && read <= Nat(space)
      ensures read == ask || space < 0 || Drained(redis.lanes[lane])
      ensures old(Drained(redis.lanes[lane])) ==> Drained(redis.lanes[lane])
    {
      ask, read, out, taken := Min(share, space), 0, out0, taken0;
      if ask > 0 {
        read, out, taken := ReadInto(w, lane, ask, out, before, taken);
      }
    }

    /** The second pass: each lane's share, noting what goes unused and which lanes could
        take more. */
    method SharePass(w: Worker, shares: seq<int>, room: seq<int>, space0: seq<int>, out0: seq<Msg>,
                     ghost before: seq<Lane>, ghost claimed: seq<seq<nat>>, ghost left: int)
      returns (out: seq<Msg>, ghost taken: seq<seq<nat>>, open: seq<nat>, space: seq<int>, spare: int)
      requires Progress(before, redis.lanes, w, claimed, out0)
      requires |shares| == |room| == |redis.lanes| && Fairness.Sum(shares) == left
      requires forall i :: 0 <= i < |shares| ==> shares[i] >= 0
      requires WithinRoom(claimed, room) && SpaceLeft(space0, room, claimed)
      modifies redis`lanes
      ensures Progress(before, redis.lanes, w, taken, out)
      ensures WithinRoom(taken, room) && SpaceLeft(space, room, taken)
      ensures |out| + spare == |out0| + left && spare >= 0
      ensures GotShares(redis.lanes, taken, room, claimed, shares, |taken|)
      ensures OpenLanes(open, space, |space|) && OpenOrFull(open, redis.lanes, taken, room, |taken|)
      ensures Extends(claimed, taken)
    {
      out, taken, open, space, spare := out0, claimed, [], space0, 0;
      var lane := 0;
      assert shares[0..] == shares;
      while lane < |shares|
        invariant 0 <= lane <= |shares| == |redis.lanes|
        invariant Shared(before, redis.lanes, w, taken, out, room, space, claimed, shares, open, lane)
        invariant |out| + spare + Fairness.Sum(shares[lane..]) == |out0| + left && spare >= 0
        invariant Extends(claimed, taken)
      {
        SumFrom(shares, lane);
        var unused;
        unused, out, taken, open, space := ShareLane(w, lane, shares, room, space, open, out, before, claimed, taken);
        spare := spare + unused;
        lane := lane + 1;
      }
    }

    method ShareLane(w: Worker, lane: nat, shares: seq<int>, room: seq<int>, space0: seq<int>, open0: seq<nat>,
                     out0: seq<Msg>, ghost before: seq<Lane>, ghost claimed: seq<seq<nat>>, ghost taken0: seq<seq<nat>>)
      returns (unused: int, out: seq<Msg>, ghost taken: seq<seq<nat>>, open: seq<nat>, space: seq<int>)
      requires lane < |shares| == |redis.lanes| && shares[lane] >= 0
      requires Shared(before, redis.lanes, w, taken0, out0, room, space0, claimed, shares, open0, lane)
      requires Extends(claimed, taken0)
      modifies redis`lanes
      ensures |redis.lanes| == |old(redis.lanes)|
      ensures Shared(before, redis.lanes, w, taken, out, room, space, claimed, shares, open, lane + 1)
      ensures Extends(claimed, taken)
      ensures unused >= 0 && |out| + unused == |out0| + shares[lane]
    {
      open := open0;
      ghost var lanes0 := redis.lanes;
      var ask, read;
      ask, read, out, taken := ReadShare(w, lane, shares[lane], space0[lane], out0, before, taken0);
      SpaceStep(space0, room, taken0, taken, lane, read, open);
      ExtendsStep(claimed, taken0, taken, lane);
      space := space0[lane := space0[lane] - read];
      unused := shares[lane] - read;
      ShareStep(lanes0, redis.lanes, taken0, taken, room, claimed, shares, open, lane);
      if read == ask && space[lane] > 0 {
        OpenMore(open, lane, space, redis.lanes, taken, room);
        open := open + [lane];
      }
    }

    /** The last pass: what went unused to the lanes that can take more, highest first. */
    method SparePass(w: Worker, room: seq<int>, space: seq<int>, spare0: int, open: seq<nat>, out0: seq<Msg>,
                     ghost before: seq<Lane>, ghost taken0: seq<seq<nat>>, ghost claimed: seq<seq<nat>>,
                     ghost shares: seq<int>)
      returns (out: seq<Msg>, ghost taken: seq<seq<nat>>)
      requires Progress(before, redis.lanes, w, taken0, out0)
      requires |shares| == |claimed| == |room| == |redis.lanes|
      requires WithinRoom(taken0, room) && SpaceLeft(space, room, taken0) && spare0 >= 0
      requires GotShares(redis.lanes, taken0, room, claimed, shares, |taken0|)
      requires OpenLanes(open, space, |space|) && OpenOrFull(open, redis.lanes, taken0, room, |taken0|)
      requires Extends(claimed, taken0)
      modifies redis`lanes
      ensures Progress(before, redis.lanes, w, taken, out) && WithinRoom(taken, room)
      ensures |out| <= |out0| + spare0
      ensures |out| < |out0| + spare0 ==> AllFull(redis.lanes, taken, room, |redis.lanes|)
      ensures GotShares(redis.lanes, taken, room, claimed, shares, |taken|)
      ensures Extends(claimed, taken)
    {
      out, taken := out0, taken0;
      var spare, k := spare0, 0;
      assert open[0..] == open;
      while k < |open|
        invariant 0 <= k <= |open| && |redis.lanes| == |before|
        invariant Progress(before, redis.lanes, w, taken, out) && WithinRoom(taken, room)
        invariant |out| + spare == |out0| + spare0 && spare >= 0
        invariant GotShares(redis.lanes, taken, room, claimed, shares, |taken|)
        invariant forall j :: k <= j < |open| ==> |taken[open[j]]| == |taken0[open[j]]|
        invariant Extends(claimed, taken)
        invariant spare > 0 ==> OpenOrFull(open[k..], redis.lanes, taken, room, |taken|)
      {
        if spare <= 0 {
          break;
        }
        ghost var lanes1, taken1 := redis.lanes, taken;
        var ask := Min(spare, space[open[k]]);
        var read;
        read, out, taken := ReadInto(w, open[k], ask, out, before, taken);
        spare := spare - read;
        ExtendsStep(claimed, taken1, taken, open[k]);
        ReadMore(lanes1, redis.lanes, taken1, taken, room, claimed, shares, open[k], |taken|);
        if spare > 0 {
          CloseOne(open[k..], lanes1, redis.lanes, taken1, taken, room);
          assert open[k..][1..] == open[k + 1..];
        }
        k := k + 1;
      }
      if spare > 0 {
        assert open[k..] == [];
        assert AllFull(redis.lanes, taken, room, |redis.lanes|);
      }
    }

    /** One XREADGROUP over every lane with room, an entry from each. The reply lists
        streams in the order asked for, highest lane first. */
    method ReadOneEach(w: Worker, room: seq<int>) returns (out: seq<Msg>, ghost taken: seq<seq<nat>>)
      requires |room| == |redis.lanes| && forall i :: 0 <= i < |redis.lanes| ==> LaneOk(redis.lanes[i])
      modifies redis`lanes
      ensures Progress(old(redis.lanes), redis.lanes, w, taken, out) && WithinRoom(taken, room)
      ensures AtMostOne(taken) && LaneOrder(out, |redis.lanes|)
      ensures OneFromEach(old(redis.lanes), taken, room, |taken|)
    {
      ghost var before := redis.lanes;
      out, taken := [], seq(|redis.lanes|, i => []);
      ProgressStart(before, w);
      var lane := 0;
      while lane < |redis.lanes|
        invariant 0 <= lane <= |redis.lanes| == |before|
        invariant Progress(before, redis.lanes, w, taken, out) && WithinRoom(taken, room)
        invariant forall i :: lane <= i < |before| ==> taken[i] == []
        invariant AtMostOne(taken) && LaneOrder(out, lane) && OneFromEach(before, taken, room, lane)
      {
        if room[lane] > 0 {
          ghost var out0, taken0 := out, taken;
          var got;
          got, out, taken := ReadInto(w, lane, 1, out, before, taken);
          OneMoreLane(out0, out, taken0, taken, room, lane);
          OneFromNext(before, redis.lanes, w, taken0, taken, out, room, lane);
        } else {
          LaneOrderUp(out, lane);
        }
        lane := lane + 1;
      }
    }

    /** `read_blocking` once something is there, or the block times out: with more messages
        than `count`, the highest lanes' are kept and the rest handed back. */
    method ReadBlocking(w: Worker, count: int, room: seq<int>)
      returns (out: seq<Msg>, ghost taken: seq<seq<nat>>, ghost extra: seq<Msg>, ghost mid: seq<Lane>)
      requires |room| == |redis.lanes| && forall i :: 0 <= i < |redis.lanes| ==> LaneOk(redis.lanes[i])
      modifies redis`lanes
      ensures Progress(old(redis.lanes), mid, w, taken, out + extra) && WithinRoom(taken, room)
      ensures AtMostOne(taken) && OneFromEach(old(redis.lanes), taken, room, |taken|)
      ensures |out| <= Nat(count) && (extra != [] ==> |out| == Nat(count))
      ensures LaneOrder(out + extra, |mid|) // so what is kept comes from higher lanes than what is not
      ensures forall j :: 0 <= j < |extra| ==> extra[j].lane < |mid|
      ensures redis.State() == ReleaseAll(old(redis.State()).(lanes := mid), extra)
    {
      var all;
      all, taken := ReadOneEach(w, room);
      mid := redis.lanes;
      var keep := Min(Nat(count), |all|);
      assert all[..keep] + all[keep..] == all;
      out, extra := all[..keep], all[keep..];
      redis.Release(all[keep..]);
    }
  }

  /** What is taken from a lane starts with what is idle there, and when there is still more
      to take, it has all of that or as much as the lane has room for. */
  ghost predicate ClaimsFirst(taken: seq<nat>, idle: seq<nat>, room: int, more: bool) {
    && taken[..Min(|taken|, |idle|)] == idle[..Min(|taken|, |idle|)]
    && (more ==> |taken| >= Min(|idle|, Nat(room)))
  }

  ghost predicate AllClaimsFirst(taken: seq<seq<nat>>, idle: seq<seq<nat>>, room: seq<int>, more: bool, n: nat)
    requires n <= |taken| == |idle| == |room|
  {
    forall i :: 0 <= i < n ==> ClaimsFirst(taken[i], idle[i], room[i], more)
  }

  lemma ClaimsStep(taken0: seq<seq<nat>>, taken: seq<seq<nat>>, idle: seq<seq<nat>>, room: seq<int>,
                   more0: bool, more: bool, at: nat)
    requires at < |taken0| == |idle| == |room| && AllClaimsFirst(taken0, idle, room, more0, at) && (more ==> more0)
    requires |taken| == |taken0| && taken == taken0[at := taken[at]] && ClaimsFirst(taken[at], idle[at], room[at], more)
    ensures AllClaimsFirst(taken, idle, room, more, at + 1)
  {
    forall i | 0 <= i < at + 1
      ensures ClaimsFirst(taken[i], idle[i], room[i], more)
    {
      assert i < at ==> ClaimsFirst(taken0[i], idle[i], room[i], more0);
    }
  }

  /** The sums after one lane of the first pass. */
  lemma ClaimedOne(space: seq<int>, taken0: seq<seq<nat>>, taken: seq<seq<nat>>, idle: seq<seq<nat>>, room: seq<int>,
                   left: int, got: nat, at: nat)
    requires at < |taken0| == |idle| == |room| && SpaceLeft(space, room, taken0) && WithinRoom(taken0, room)
    requires |taken| == |taken0| && taken == taken0[at := taken[at]] && taken0[at] == [] && |taken[at]| == got
    requires left > 0 && got <= left && got <= Nat(space[at]) && AllClaimsFirst(taken0, idle, room, left > 0, at)
    requires ClaimsFirst(taken[at], idle[at], space[at], got < left)
    ensures TakenSum(taken) == TakenSum(taken0) + got && WithinRoom(taken, room)
    ensures SpaceLeft(space[at := space[at] - got], room, taken)
    ensures AllClaimsFirst(taken, idle, room, left - got > 0, at + 1)
  {
    TakenSumUpdate(taken0, at, taken[at]);
    SpaceStep(space, room, taken0, taken, at, got, []);
    ClaimsStep(taken0, taken, idle, room, left > 0, left - got > 0, at);
  }

  /** Nothing has happened to lanes from `n` on. */
  ghost predicate Untouched(before: seq<Lane>, lanes: seq<Lane>, taken: seq<seq<nat>>, n: nat) {
    |lanes| == |before| == |taken| && forall i :: n <= i < |before| ==> lanes[i] == before[i] && taken[i] == []
  }

  lemma UntouchedStep(before: seq<Lane>, lanes0: seq<Lane>, lanes: seq<Lane>, taken0: seq<seq<nat>>, taken: seq<seq<nat>>,
                      at: nat)
    requires Untouched(before, lanes0, taken0, at) && at < |before|
    requires |lanes| == |lanes0| && lanes == lanes0[at := lanes[at]]
    requires |taken| == |taken0| && taken == taken0[at := taken[at]]
    ensures Untouched(before, lanes, taken, at + 1)
  {
  }

  lemma NoneReached(before: seq<Lane>, taken: seq<seq<nat>>, idle: seq<seq<nat>>, room: seq<int>)
    requires |before| == |taken| == |idle| == |room| && forall i :: 0 <= i < |taken| ==> taken[i] == []
    ensures Untouched(before, before, taken, 0) && WithinRoom(taken, room) && SpaceLeft(room, room, taken)
  {
  }

  /** The lanes a full batch did not get to. */
  lemma NotReached(taken: seq<seq<nat>>, idle: seq<seq<nat>>, room: seq<int>, more: bool, n: nat)
    requires n <= |taken| == |idle| == |room| && AllClaimsFirst(taken, idle, room, more, n)
    requires (more ==> n == |taken|) && forall i :: n <= i < |taken| ==> taken[i] == []
    ensures AllClaimsFirst(taken, idle, room, more, |taken|)
  {
    forall i | 0 <= i < |taken|
      ensures ClaimsFirst(taken[i], idle[i], room[i], more)
    {
      assert i < n ==> ClaimsFirst(taken[i], idle[i], room[i], more);
    }
  }

  ghost predicate Extends(claimed: seq<seq<nat>>, taken: seq<seq<nat>>) {
    |claimed| == |taken| && forall i :: 0 <= i < |claimed| ==> claimed[i] <= taken[i]
  }

  lemma ExtendsStep(claimed: seq<seq<nat>>, taken0: seq<seq<nat>>, taken: seq<seq<nat>>, at: nat)
    requires at < |taken0| == |taken| && taken == taken0[at := taken[at]] && taken0[at] <= taken[at]
    requires Extends(claimed, taken0)
    ensures Extends(claimed, taken)
  {
  }

  /** Messages of different lanes above `n`, highest lane first. */
  ghost predicate LaneOrder(out: seq<Msg>, n: nat) {
    && (forall i, j :: 0 <= i < j < |out| ==> out[i].lane < out[j].lane)
    && (forall i :: 0 <= i < |out| ==> out[i].lane < n)
  }

  ghost predicate AtMostOne(taken: seq<seq<nat>>) {
    forall i :: 0 <= i < |taken| ==> |taken[i]| <= 1
  }

  /** Each of the first `n` lanes that has room and an unread entry gives one. */
  ghost predicate OneFromEach(before: seq<Lane>, taken: seq<seq<nat>>, room: seq<int>, n: nat)
    requires n <= |before| == |taken| == |room|
  {
    forall i :: 0 <= i < n && room[i] > 0 && !Drained(before[i]) ==> |taken[i]| == 1
  }

  lemma NoneTaken(l: Lane, l': Lane, w: Worker)
    requires Took(l, l', w, []) && Drained(l')
    ensures Drained(l)
  {
  }

  lemma OneFromNext(before: seq<Lane>, lanes: seq<Lane>, w: Worker, taken0: seq<seq<nat>>, taken: seq<seq<nat>>,
                    out: seq<Msg>, room: seq<int>, at: nat)
    requires Progress(before, lanes, w, taken, out) && at < |before| == |taken0| == |room|
    requires OneFromEach(before, taken0, room, at) && taken == taken0[at := taken[at]]
    requires |taken[at]| <= 1 && (taken[at] == [] ==> Drained(lanes[at]))
    ensures OneFromEach(before, taken, room, at + 1)
  {
    assert Took(before[at], lanes[at], w, taken[at]);
    if taken[at] == [] {
      NoneTaken(before[at], lanes[at], w);
    }
  }

  /** No lane with room has an entry to read. */
  ghost predicate NothingThere(lanes: seq<Lane>, room: seq<int>) {
    |lanes| == |room| && forall i :: 0 <= i < |lanes| && room[i] > 0 ==> Drained(lanes[i])
  }

  /** A batch that is short of its count and empty found nothing there. */
  lemma EmptyBatch(before: seq<Lane>, after: seq<Lane>, w: Worker, taken: seq<seq<nat>>, room: seq<int>)
    requires Progress(before, after, w, taken, []) && |room| == |before| && AllFull(after, taken, room, |after|)
    ensures NothingThere(before, room)
  {
    forall i | 0 <= i < |before| && room[i] > 0
      ensures Drained(before[i])
    {
      assert Took(before[i], after[i], w, taken[i]) && OfLane([], i) == MsgsAt(before[i], i, taken[i]);
      assert Full(after, taken, room, i);
      NoneTaken(before[i], after[i], w);
    }
  }

  lemma LaneOrderUp(out: seq<Msg>, n: nat)
    requires LaneOrder(out, n)
    ensures LaneOrder(out, n + 1)
  {
  }

  /** One entry at most of the next lane keeps the order and the room. */
  lemma OneMoreLane(out: seq<Msg>, out': seq<Msg>, taken: seq<seq<nat>>, taken': seq<seq<nat>>, room: seq<int>, at: nat)
    requires LaneOrder(out, at) && AtMostOne(taken) && at < |taken| == |room| && WithinRoom(taken, room)
    requires |out| <= |out'| <= |out| + 1 && out'[..|out|] == out
    requires forall i :: |out| <= i < |out'| ==> out'[i].lane == at
    requires |taken'| == |taken| && taken' == taken[at := taken'[at]] && |taken'[at]| <= 1 && room[at] > 0
    ensures LaneOrder(out', at + 1) && AtMostOne(taken') && WithinRoom(taken', room)
  {
    forall i, j | 0 <= i < j < |out'|
      ensures out'[i].lane < out'[j].lane
    {
      assert out'[i] == out[i];
      assert j < |out| ==> out'[j] == out[j];
    }
    assert forall i :: 0 <= i < |out| ==> out'[i] == out[i];
  }

  lemma NothingTaken(taken: seq<seq<nat>>)
    requires forall i :: 0 <= i < |taken| ==> taken[i] == []
    ensures TakenSum(taken) == 0
  {
  }

  lemma {:induction false} TakenSumUpdate(taken: seq<seq<nat>>, i: nat, sids: seq<nat>)
    requires i < |taken|
    ensures TakenSum(taken[i := sids]) == TakenSum(taken) - |taken[i]| + |sids|
  {
    if i == 0 {
      assert taken[i := sids][1..] == taken[1..];
    } else {
      assert taken[i := sids][1..] == taken[1..][i - 1 := sids];
      TakenSumUpdate(taken[1..], i - 1, sids);
    }
  }

  /** The lanes above `n` with room to spare, highest first. */
  ghost predicate OpenLanes(open: seq<nat>, space: seq<int>, n: nat)
    requires n <= |space|
  {
    && (forall k :: 0 <= k < |open| ==> open[k] < n && space[open[k]] > 0)
    && (forall j, k :: 0 <= j < k < |open| ==> open[j] < open[k])
  }

  lemma SpaceStep(space: seq<int>, room: seq<int>, taken: seq<seq<nat>>, taken': seq<seq<nat>>, at: nat, read: nat,
                  open: seq<nat>)
    requires SpaceLeft(space, room, taken) && WithinRoom(taken, room) && at < |room|
    requires |taken'| == |taken| && taken' == taken[at := taken'[at]] && |taken'[at]| == |taken[at]| + read
    requires read <= Nat(space[at]) && OpenLanes(open, space, at)
    ensures var space' := space[at := space[at] - read];
            SpaceLeft(space', room, taken') && WithinRoom(taken', room) && OpenLanes(open, space', at)
  {
  }

  ghost predicate OpenOrFull(open: seq<nat>, lanes: seq<Lane>, taken: seq<seq<nat>>, room: seq<int>, n: nat)
    requires n <= |lanes| == |taken| == |room|
  {
    forall i :: 0 <= i < n ==> i in open || Full(lanes, taken, room, i)
  }

  /** The second pass has been through the lanes above `n`. */
  ghost predicate Shared(before: seq<Lane>, lanes: seq<Lane>, w: Worker, taken: seq<seq<nat>>, out: seq<Msg>,
                         room: seq<int>, space: seq<int>, claimed: seq<seq<nat>>, shares: seq<int>, open: seq<nat>,
                         n: nat) {
    && |shares| == |room| == |space| == |claimed| == |lanes| && n <= |lanes|
    && Progress(before, lanes, w, taken, out)
    && WithinRoom(taken, room) && SpaceLeft(space, room, taken)
    && (forall i :: n <= i < |taken| ==> taken[i] == claimed[i])
    && GotShares(lanes, taken, room, claimed, shares, n)
    && OpenLanes(open, space, n) && OpenOrFull(open, lanes, taken, room, n)
  }

  lemma SumFrom(shares: seq<int>, k: nat)
    requires k < |shares|
    ensures Fairness.Sum(shares[k..]) == shares[k] + Fairness.Sum(shares[k + 1..])
  {
    assert shares[k..][1..] == shares[k + 1..];
  }

  lemma OpenMore(open: seq<nat>, at: nat, space: seq<int>, lanes: seq<Lane>, taken: seq<seq<nat>>, room: seq<int>)
    requires at < |lanes| == |taken| == |room| == |space| && OpenOrFull(open, lanes, taken, room, at)
    requires OpenLanes(open, space, at) && space[at] > 0
    ensures OpenOrFull(open + [at], lanes, taken, room, at + 1) && OpenLanes(open + [at], space, at + 1)
  {
  }

  /** Reading more from a lane takes nothing from what any lane was owed or had. */
  lemma ReadMore(lanes: seq<Lane>, lanes': seq<Lane>, taken: seq<seq<nat>>, taken': seq<seq<nat>>, room: seq<int>,
                 claimed: seq<seq<nat>>, shares: seq<int>, at: nat, n: nat)
    requires at < |lanes| == |taken| == |room| == |claimed| == |shares| && n <= |lanes|
    requires |lanes'| == |lanes| && lanes' == lanes[at := lanes'[at]]
    requires |taken'| == |taken| && taken' == taken[at := taken'[at]]
    requires |taken'[at]| >= |taken[at]| && (Drained(lanes[at]) ==> Drained(lanes'[at]))
    ensures forall i :: 0 <= i < |lanes| && Full(lanes, taken, room, i) ==> Full(lanes', taken', room, i)
    ensures GotShares(lanes, taken, room, claimed, shares, n) ==> GotShares(lanes', taken', room, claimed, shares, n)
  {
  }

  /** After a lane's share is read, it has its share or is full, and the lanes above keep
      what they had. */
  lemma ShareStep(lanes: seq<Lane>, lanes': seq<Lane>, taken: seq<seq<nat>>, taken': seq<seq<nat>>, room: seq<int>,
                  claimed: seq<seq<nat>>, shares: seq<int>, open: seq<nat>, at: nat)
    requires at < |lanes| == |taken| == |room| == |claimed| == |shares|
    requires |lanes'| == |lanes| && lanes' == lanes[at := lanes'[at]]
    requires |taken'| == |taken| && taken' == taken[at := taken'[at]]
    requires |taken'[at]| >= |taken[at]| && (Drained(lanes[at]) ==> Drained(lanes'[at]))
    requires GotShares(lanes, taken, room, claimed, shares, at) && OpenOrFull(open, lanes, taken, room, at)
    requires |taken'[at]| >= |claimed[at]| + shares[at] || Full(lanes', taken', room, at)
    ensures GotShares(lanes', taken', room, claimed, shares, at + 1) && OpenOrFull(open, lanes', taken', room, at)
  {
    ReadMore(lanes, lanes', taken, taken', room, claimed, shares, at, at);
  }

  /** The first of the open lanes came up short, or is now at its limit. */
  lemma CloseOne(open: seq<nat>, lanes: seq<Lane>, lanes': seq<Lane>, taken: seq<seq<nat>>, taken': seq<seq<nat>>,
                 room: seq<int>)
    requires open != [] && open[0] < |lanes| == |taken| == |room| == |lanes'| == |taken'|
    requires OpenOrFull(open, lanes, taken, room, |taken|)
    requires forall i :: 0 <= i < |lanes| && Full(lanes, taken, room, i) ==> Full(lanes', taken', room, i)
    requires Full(lanes', taken', room, open[0])
    ensures OpenOrFull(open[1..], lanes', taken', room, |taken|)
  {
    forall i | 0 <= i < |lanes|
      ensures i in open[1..] || Full(lanes', taken', room, i)
    {
      assert i in open || Full(lanes, taken, room, i);
      assert open == [open[0]] + open[1..];
    }
  }

  /** What is left of each lane's room. */
  ghost predicate SpaceLeft(space: seq<int>, room: seq<int>, taken: seq<seq<nat>>) {
    |space| == |room| == |taken| && forall i :: 0 <= i < |room| ==> space[i] == room[i] - |taken[i]|
  }

  ghost function TakenSum(taken: seq<seq<nat>>): nat {
    if taken == [] then 0 else |taken[0]| + TakenSum(taken[1..])
  }

  /** `n` picks of the weighted round robin from `credit` give these shares and leave `after`. */
  ghost predicate Splits(credit: seq<int>, weights: seq<int>, n: int, after: seq<int>, shares: seq<int>) {
    && n >= 0 && |credit| == |weights| > 0
    && shares == Fairness.Tally(Fairness.Picks(credit, weights, n), |weights|)
    && after == Fairness.CreditAfter(credit, weights, n)
  }

  /** A lane has what it claimed and its share on top, or nothing left to take. */
  ghost predicate GotShares(lanes: seq<Lane>, taken: seq<seq<nat>>, room: seq<int>, claimed: seq<seq<nat>>,
                            shares: seq<int>, n: nat)
    requires n <= |lanes| == |taken| == |room| == |claimed| == |shares|
  {
    forall i :: 0 <= i < n ==> |taken[i]| >= |claimed[i]| + shares[i] || Full(lanes, taken, room, i)
  }

  lemma ProgressStart(before: seq<Lane>, w: Worker)
    requires forall i :: 0 <= i < |before| ==> LaneOk(before[i])
    ensures Progress(before, before, w, seq(|before|, i => []), [])
  {
    forall i | 0 <= i < |before|
      ensures Took(before[i], before[i], w, [])
    {
      TookNothing(before[i], w);
    }
  }

  /** The oldest `n` unread entries of lane `i`. */
  lemma TakeUnread(before: seq<Lane>, mid: seq<Lane>, w: Worker, taken: seq<seq<nat>>, out: seq<Msg>, i: nat, n: nat)
    returns (l: Lane, taken': seq<seq<nat>>, out': seq<Msg>)
    requires Progress(before, mid, w, taken, out) && i < |before| && n <= |Unread(mid[i])|
    ensures Progress(before, mid[i := l], w, taken', out') && |out'| == |out| + n
    ensures taken' == taken[i := taken'[i]] && |taken'[i]| == |taken[i]| + n
    ensures n == |Unread(mid[i])| ==> Drained(l)
  {
    EntriesInOrder(mid[i].stream, mid[i].last + 1, mid[i].next);
    var sids := Unread(mid[i])[..n];
    taken' := ReadProgress(before, mid, w, taken, out, i, n);
    l, out' := DeliverAll(mid[i], sids, w), out + MsgsAt(mid[i], i, sids);
  }

  lemma SomeReadOf(before: seq<Lane>, after: seq<Lane>, w: Worker, taken: seq<seq<nat>>, out: seq<Msg>,
                   count: nat, room: seq<int>, i: nat)
    returns (after': seq<Lane>, taken': seq<seq<nat>>, out': seq<Msg>)
    requires |room| == |before| && Progress(before, after, w, taken, out) && WithinRoom(taken, room) && |out| <= count
    requires i < |before| && after[i] == before[i] && taken[i] == []
    requires |out| < count ==> AllFull(after, taken, room, i)
    ensures Progress(before, after', w, taken', out') && WithinRoom(taken', room) && |out'| <= count
    ensures after' == after[i := after'[i]] && taken' == taken[i := taken'[i]]
    ensures |out'| < count ==> AllFull(after', taken', room, i + 1)
  {
    var n := Min(Min(count - |out|, Nat(room[i])), |Unread(before[i])|);
    var l;
    l, taken', out' := TakeUnread(before, after, w, taken, out, i, n);
    after' := after[i := l];
    StillWithinRoom(taken, taken', room, i);
    if |out'| < count {
      OneMoreFull(after, after', taken, taken', room, i);
    }
  }

  lemma OneMoreFull(lanes: seq<Lane>, lanes': seq<Lane>, taken: seq<seq<nat>>, taken': seq<seq<nat>>, room: seq<int>,
                    i: nat)
    requires i < |lanes| == |lanes'| == |taken| == |taken'| == |room|
    requires lanes' == lanes[i := lanes'[i]] && taken' == taken[i := taken'[i]]
    requires AllFull(lanes, taken, room, i) && (|taken'[i]| >= room[i] || Drained(lanes'[i]))
    ensures AllFull(lanes', taken', room, i + 1)
  {
    StillFull(lanes, lanes', taken, taken', room, i, i);
    forall j | 0 <= j < i + 1
      ensures Full(lanes', taken', room, j)
    {
      assert j < i ==> Full(lanes', taken', room, j);
    }
  }

  lemma StillWithinRoom(taken: seq<seq<nat>>, taken': seq<seq<nat>>, room: seq<int>, i: nat)
    requires i < |taken| == |taken'| == |room| && WithinRoom(taken, room)
    requires taken' == taken[i := taken'[i]] && |taken'[i]| <= Nat(room[i])
    ensures WithinRoom(taken', room)
  {
  }

  /** There is always a batch to come back with: the reads above never get stuck. */
  lemma SomeRead(before: seq<Lane>, w: Worker, count: nat, room: seq<int>)
    returns (after: seq<Lane>, taken: seq<seq<nat>>, out: seq<Msg>)
    requires |room| == |before| && forall i :: 0 <= i < |before| ==> LaneOk(before[i])
    ensures Progress(before, after, w, taken, out) && WithinRoom(taken, room) && |out| <= count
    ensures |out| < count ==> AllFull(after, taken, room, |before|)
  {
    after, taken, out := before, seq(|before|, i => []), [];
    ProgressStart(before, w);
    var i := 0;
    while i < |before|
      invariant 0 <= i <= |before|
      invariant Progress(before, after, w, taken, out) && WithinRoom(taken, room) && |out| <= count
      invariant forall j :: i <= j < |before| ==> after[j] == before[j] && taken[j] == []
      invariant |out| < count ==> AllFull(after, taken, room, i)
    {
      after, taken, out := SomeReadOf(before, after, w, taken, out, count, room, i);
      i := i + 1;
    }
  }
}
