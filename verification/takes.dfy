/** Several at once are the same ones one at a time: whatever a worker takes in one batch, by
    claims, by shares and from the spare, a run of single reclaims and reads takes, and leaves
    the same lanes and the same messages in its hands. */
module Takes {
  import opened Store
  import opened RedisStore
  import opened Protocol
  import opened Stranding
  import opened ReadBatch
  import Runs = Progress

  // ----- what comes into a worker's hands

  /** `m` came into `w`'s hands when `from` or a later token was next. */
  ghost predicate InHands(s: Sys, from: nat, m: Msg, w: Worker) {
    exists tok :: from <= tok < s.nextTok && tok in s.att && s.att[tok] == Attempt(m, w, Prefetched)
  }

  /** On the way from `s` to `s'`, `w` came to hold all of `msgs`, and nobody let anything go. */
  ghost predicate Handed(s: Sys, s': Sys, msgs: seq<Msg>, w: Worker) {
    && s'.nextTok >= s.nextTok
    && (forall tok :: tok in s.att && tok < s.nextTok ==> tok in s'.att && s'.att[tok] == s.att[tok])
    && (forall m :: m in msgs ==> InHands(s', s.nextTok, m, w))
  }

  lemma HandedJoin(s: Sys, s1: Sys, s2: Sys, a: seq<Msg>, b: seq<Msg>, w: Worker)
    requires Handed(s, s1, a, w) && Handed(s1, s2, b, w)
    ensures Handed(s, s2, a + b, w)
  {
    forall m | m in a + b
      ensures InHands(s2, s.nextTok, m, w)
    {
      if m in a {
        var tok :| s.nextTok <= tok < s1.nextTok && tok in s1.att && s1.att[tok] == Attempt(m, w, Prefetched);
        assert s2.att[tok] == s1.att[tok];
      } else {
        assert InHands(s2, s1.nextTok, m, w);
      }
    }
  }

  lemma OneHanded(s: Sys, w: Worker, lane: nat, sid: nat, l: Lane)
    requires lane < |s.db.lanes| && sid in s.db.lanes[lane].stream
    ensures Handed(s, Taken(s, w, lane, sid, l), [MsgAt(s.db.lanes[lane], lane, sid)], w)
  {
    assert Taken(s, w, lane, sid, l).att[s.nextTok] == Attempt(MsgAt(s.db.lanes[lane], lane, sid), w, Prefetched);
  }

  // ----- one lane

  /** The run `acts` leaves lane `lane` as `l'`, and hands `w` the entries `sids`. */
  ghost predicate TakenBy(reg: Registry, s: Sys, acts: seq<Action>, lane: nat, l': Lane, sids: seq<nat>, w: Worker) {
    && lane < |s.db.lanes| && CanRun(reg, s, acts)
    && (forall i :: 0 <= i < |sids| ==> sids[i] in s.db.lanes[lane].stream)
    && Run(reg, s, acts).db == SetLane(s.db, lane, l')
    && Handed(s, Run(reg, s, acts), MsgsAt(s.db.lanes[lane], lane, sids), w)
  }

  lemma NothingTaken(reg: Registry, s: Sys, lane: nat, w: Worker)
    requires lane < |s.db.lanes|
    ensures TakenBy(reg, s, [], lane, s.db.lanes[lane], [], w)
  {
    assert s.db.lanes[lane := s.db.lanes[lane]] == s.db.lanes;
  }

  /** One entry, and then more. */
  lemma TakeFirst(reg: Registry, s: Sys, a: Action, acts: seq<Action>, lane: nat, sid: nat, mid: Lane, l': Lane,
                  sids: seq<nat>, w: Worker)
    requires Enabled(s, a) && lane < |s.db.lanes| && sid in s.db.lanes[lane].stream
    requires Apply(reg, s, a) == Taken(s, w, lane, sid, mid) && mid.stream == s.db.lanes[lane].stream
    requires TakenBy(reg, Apply(reg, s, a), acts, lane, l', sids, w)
    ensures TakenBy(reg, s, [a] + acts, lane, l', [sid] + sids, w)
  {
    var l, s1 := s.db.lanes[lane], Apply(reg, s, a);
    Runs.StepFirst(reg, s, a, acts);
    OneHanded(s, w, lane, sid, mid);
    HandedJoin(s, s1, Run(reg, s1, acts), [MsgAt(l, lane, sid)], MsgsAt(mid, lane, sids), w);
    FirstOfMsgs(l, mid, lane, sid, sids);
    assert s.db.lanes[lane := mid][lane := l'] == s.db.lanes[lane := l'];
  }

  lemma FirstOfMsgs(l: Lane, mid: Lane, lane: nat, sid: nat, sids: seq<nat>)
    requires mid.stream == l.stream && sid in l.stream && forall i :: 0 <= i < |sids| ==> sids[i] in l.stream
    ensures MsgsAt(l, lane, [sid] + sids) == [MsgAt(l, lane, sid)] + MsgsAt(mid, lane, sids)
  {
  }

  /** XAUTOCLAIM of several entries. */
  lemma {:induction false} ClaimIsReclaims(reg: Registry, s: Sys, w: Worker, lane: nat, sids: seq<nat>)
    returns (acts: seq<Action>)
    requires lane < |s.db.lanes|
    requires forall i :: 0 <= i < |sids| ==> sids[i] in s.db.lanes[lane].pending && sids[i] in s.db.lanes[lane].stream
    ensures TakenBy(reg, s, acts, lane, ReassignAll(s.db.lanes[lane], sids, w), sids, w)
    decreases |sids|
  {
    if sids == [] {
      NothingTaken(reg, s, lane, w);
      return [];
    }
    var l, a := s.db.lanes[lane], Reclaim(w, lane, sids[0]);
    var rest := ClaimIsReclaims(reg, Apply(reg, s, a), w, lane, sids[1..]);
    TakeFirst(reg, s, a, rest, lane, sids[0], Reassign(l, sids[0], w), ReassignAll(l, sids, w), sids[1..], w);
    assert sids == [sids[0]] + sids[1..];
    acts := [a] + rest;
  }

  lemma {:induction false} EntriesAfterFirst(stream: map<nat, Item>, lo: nat, hi: nat)
    requires Entries(stream, lo, hi) != []
    ensures Entries(stream, lo, hi)[1..] == Entries(stream, Entries(stream, lo, hi)[0] + 1, hi)
    decreases hi - lo
  {
    if lo !in stream {
      EntriesAfterFirst(stream, lo + 1, hi);
    }
  }

  lemma FirstIsHead(l: Lane)
    requires Unread(l) != [] && forall sid :: sid in l.stream ==> sid < l.next
    ensures IsHead(l, Unread(l)[0])
  {
    var e := Unread(l);
    EntriesInOrder(l.stream, l.last + 1, l.next);
    forall s | s in l.stream && s > l.last
      ensures e[0] <= s
    {
      var i :| 0 <= i < |e| && e[i] == s;
    }
  }

  /** XREADGROUP of `n` entries is `n` reads, each of the oldest entry left. */
  lemma {:induction false} BatchIsReads(reg: Registry, s: Sys, w: Worker, lane: nat, n: nat) returns (acts: seq<Action>)
    requires lane < |s.db.lanes| && n <= |Unread(s.db.lanes[lane])|
    requires forall sid :: sid in s.db.lanes[lane].stream ==> sid < s.db.lanes[lane].next
    ensures |acts| == n && forall i :: 0 <= i < n ==> acts[i].Read?
    ensures var e := Unread(s.db.lanes[lane])[..n];
            TakenBy(reg, s, acts, lane, DeliverAll(s.db.lanes[lane], e, w), e, w)
    decreases n
  {
    var l := s.db.lanes[lane];
    var e := Unread(l);
    if n == 0 {
      NothingTaken(reg, s, lane, w);
      return [];
    }
    FirstIsHead(l);
    EntriesAfterFirst(l.stream, l.last + 1, l.next);
    var a := Read(w, lane, e[0]);
    var l' := Deliver(l, e[0], w);
    assert Unread(l') == e[1..];
    var rest := BatchIsReads(reg, Apply(reg, s, a), w, lane, n - 1);
    assert e[..n][1..] == e[1..][..n - 1] && [e[0]] + e[1..][..n - 1] == e[..n];
    TakeFirst(reg, s, a, rest, lane, e[0], l', DeliverAll(l, e[..n], w), e[1..][..n - 1], w);
    acts := [a] + rest;
  }

  // ----- one lane of a batch

  /** What of `sids` was delivered before. */
  function Old(l: Lane, sids: seq<nat>): seq<nat> {
    if sids == [] then [] else (if sids[0] in l.pending then [sids[0]] else []) + Old(l, sids[1..])
  }

  lemma {:induction false} OldIsPart(l: Lane, sids: seq<nat>, sid: nat)
    ensures sid in Old(l, sids) <==> sid in sids && sid in l.pending
  {
    if sids != [] {
      OldIsPart(l, sids[1..], sid);
      assert sids == [sids[0]] + sids[1..];
    }
  }

  lemma OldIsClaimable(l: Lane, sids: seq<nat>)
    requires LaneOk(l)
    ensures forall sid :: sid in Old(l, sids) <==> sid in sids && sid in l.pending
    ensures forall i :: 0 <= i < |Old(l, sids)| ==> Old(l, sids)[i] in l.pending && Old(l, sids)[i] in l.stream
  {
    forall sid
      ensures sid in Old(l, sids) <==> sid in sids && sid in l.pending
    {
      OldIsPart(l, sids, sid);
    }
    forall i | 0 <= i < |Old(l, sids)|
      ensures Old(l, sids)[i] in l.pending && Old(l, sids)[i] in l.stream
    {
      assert Old(l, sids)[i] in Old(l, sids);
    }
  }

  lemma UnreadIndex(l: Lane, sid: nat) returns (i: nat)
    requires LaneOk(l) && l.last < sid && sid in l.stream
    ensures i < |Unread(l)| && Unread(l)[i] == sid
  {
    EntriesInOrder(l.stream, l.last + 1, l.next);
    i :| 0 <= i < |Unread(l)| && Unread(l)[i] == sid;
  }

  /** The unread entries up to the one read last. */
  lemma UnreadUpTo(l: Lane, last: nat) returns (n: nat)
    requires LaneOk(l) && l.last <= last && (last == l.last || last in l.stream)
    ensures n <= |Unread(l)| && (if n == 0 then l.last else Unread(l)[n - 1]) == last
    ensures forall sid :: sid in Unread(l)[..n] <==> sid in l.stream && l.last < sid <= last
  {
    n := 0;
    if last != l.last {
      var i := UnreadIndex(l, last);
      n := i + 1;
      EntriesInOrder(l.stream, l.last + 1, l.next);
      FirstInOrder(l.stream, l.last + 1, l.next, Unread(l), n);
    }
  }

  /** What is taken from a lane is some entries reclaimed, and then the oldest unread ones
      read: nothing else gets from `l` to `l'`. */
  lemma TookIsClaimAndRead(l: Lane, l': Lane, w: Worker, sids: seq<nat>) returns (claimed: seq<nat>, n: nat)
    requires LaneOk(l) && Took(l, l', w, sids)
    ensures forall i :: 0 <= i < |claimed| ==> claimed[i] in l.pending && claimed[i] in l.stream
    ensures var mid := ReassignAll(l, claimed, w);
            && n <= |Unread(mid)| && l' == DeliverAll(mid, Unread(mid)[..n], w)
            && mid == l.(pending := mid.pending)
            && forall sid :: sid in sids ==> sid in claimed || sid in Unread(mid)[..n]
  {
    claimed := Old(l, sids);
    OldIsClaimable(l, sids);
    ReassignAllFacts(l, claimed, w);
    n := UnreadUpTo(l, l'.last);
    TookPending(l, l', w, sids, claimed, Unread(l)[..n]);
  }

  lemma TookPending(l: Lane, l': Lane, w: Worker, sids: seq<nat>, claimed: seq<nat>, read: seq<nat>)
    requires LaneOk(l) && Took(l, l', w, sids)
    requires forall sid :: sid in claimed <==> sid in sids && sid in l.pending
    requires forall sid :: sid in read <==> sid in l.stream && l.last < sid <= l'.last
    requires (if read == [] then l.last else read[|read| - 1]) == l'.last
    ensures l' == DeliverAll(ReassignAll(l, claimed, w), read, w)
    ensures forall sid :: sid in sids ==> sid in claimed || sid in read
  {
    var mid := ReassignAll(l, claimed, w);
    var r := DeliverAll(mid, read, w);
    ReassignAllFacts(l, claimed, w);
    DeliverAllFacts(mid, read, w);
    forall sid
      ensures sid in r.pending <==> sid in l'.pending
      ensures sid in r.pending ==> r.pending[sid] == l'.pending[sid]
    {
    }
    assert r.pending == l'.pending;
  }

  lemma HandedAmong(s: Sys, s': Sys, a: seq<Msg>, b: seq<Msg>, w: Worker)
    requires Handed(s, s', a, w) && forall m :: m in b ==> m in a
    ensures Handed(s, s', b, w)
  {
  }

  lemma ClaimThenRead(reg: Registry, s: Sys, w: Worker, lane: nat, claimed: seq<nat>, n: nat) returns (acts: seq<Action>)
    requires lane < |s.db.lanes| && LaneOk(s.db.lanes[lane])
    requires var l := s.db.lanes[lane];
             forall i :: 0 <= i < |claimed| ==> claimed[i] in l.pending && claimed[i] in l.stream
    requires var mid := ReassignAll(s.db.lanes[lane], claimed, w);
             mid == s.db.lanes[lane].(pending := mid.pending) && n <= |Unread(mid)|
    ensures CanRun(reg, s, acts)
    ensures var l := s.db.lanes[lane];
            var mid := ReassignAll(l, claimed, w);
            var read := Unread(mid)[..n];
            && Run(reg, s, acts).db == SetLane(s.db, lane, DeliverAll(mid, read, w))
            && (forall i :: 0 <= i < |read| ==> read[i] in mid.stream)
            && Handed(s, Run(reg, s, acts), MsgsAt(l, lane, claimed) + MsgsAt(mid, lane, read), w)
  {
    var l := s.db.lanes[lane];
    var mid := ReassignAll(l, claimed, w);
    var claims := ClaimIsReclaims(reg, s, w, lane, claimed);
    var s1 := Run(reg, s, claims);
    var readings := BatchIsReads(reg, s1, w, lane, n);
    Runs.JoinRuns(reg, s, claims, readings);
    acts := claims + readings;
    HandedJoin(s, s1, Run(reg, s, acts), MsgsAt(l, lane, claimed), MsgsAt(mid, lane, Unread(mid)[..n]), w);
    assert s.db.lanes[lane := mid][lane := DeliverAll(mid, Unread(mid)[..n], w)]
        == s.db.lanes[lane := DeliverAll(mid, Unread(mid)[..n], w)];
  }

  lemma LaneIsSteps(reg: Registry, s: Sys, w: Worker, lane: nat, l': Lane, sids: seq<nat>) returns (acts: seq<Action>)
    requires lane < |s.db.lanes| && LaneOk(s.db.lanes[lane]) && Took(s.db.lanes[lane], l', w, sids)
    ensures TakenBy(reg, s, acts, lane, l', sids, w)
  {
    var l := s.db.lanes[lane];
    var claimed, n := TookIsClaimAndRead(l, l', w, sids);
    var mid := ReassignAll(l, claimed, w);
    var read := Unread(mid)[..n];
    acts := ClaimThenRead(reg, s, w, lane, claimed, n);
    var all := MsgsAt(l, lane, claimed) + MsgsAt(mid, lane, read);
    forall m | m in MsgsAt(l, lane, sids)
      ensures m in all
    {
      EachIsTaken(l, mid, lane, sids, claimed, read, m);
    }
    HandedAmong(s, Run(reg, s, acts), all, MsgsAt(l, lane, sids), w);
  }

  lemma EachIsTaken(l: Lane, mid: Lane, lane: nat, sids: seq<nat>, claimed: seq<nat>, read: seq<nat>, m: Msg)
    requires mid.stream == l.stream && (forall i :: 0 <= i < |sids| ==> sids[i] in l.stream)
    requires forall i :: 0 <= i < |claimed| ==> claimed[i] in l.stream
    requires forall i :: 0 <= i < |read| ==> read[i] in l.stream
    requires (forall sid :: sid in sids ==> sid in claimed || sid in read) && m in MsgsAt(l, lane, sids)
    ensures m in MsgsAt(l, lane, claimed) + MsgsAt(mid, lane, read)
  {
    var i :| 0 <= i < |sids| && MsgsAt(l, lane, sids)[i] == m;
    assert sids[i] in sids;
    if sids[i] in claimed {
      var j :| 0 <= j < |claimed| && claimed[j] == sids[i];
      assert MsgsAt(l, lane, claimed)[j] == m;
    } else {
      var j :| 0 <= j < |read| && read[j] == sids[i];
      assert MsgsAt(mid, lane, read)[j] == m;
    }
  }

  // ----- the whole batch

  ghost predicate Listed(lanes: seq<Lane>, sids: seq<seq<nat>>) {
    && |lanes| == |sids|
    && forall i, j :: 0 <= i < |lanes| && 0 <= j < |sids[i]| ==> sids[i][j] in lanes[i].stream
  }

  /** What was taken from the first `k` lanes. */
  ghost function FromLanes(lanes: seq<Lane>, sids: seq<seq<nat>>, k: nat): seq<Msg>
    requires Listed(lanes, sids) && k <= |lanes|
  {
    if k == 0 then [] else FromLanes(lanes, sids, k - 1) + MsgsAt(lanes[k - 1], k - 1, sids[k - 1])
  }

  lemma {:induction false} InFromLanes(lanes: seq<Lane>, sids: seq<seq<nat>>, k: nat, i: nat, m: Msg)
    requires Listed(lanes, sids) && i < k <= |lanes| && m in MsgsAt(lanes[i], i, sids[i])
    ensures m in FromLanes(lanes, sids, k)
  {
    if i < k - 1 {
      InFromLanes(lanes, sids, k - 1, i, m);
    }
  }

  lemma {:induction false} InOwnLane(msgs: seq<Msg>, m: Msg)
    requires m in msgs
    ensures m in OfLane(msgs, m.lane)
  {
    if m != msgs[0] {
      InOwnLane(msgs[1..], m);
    }
  }

  /** The lanes with the first `k` already as they will be. */
  function UpTo(before: seq<Lane>, after: seq<Lane>, k: nat): seq<Lane>
    requires k <= |before| == |after|
  {
    after[..k] + before[k..]
  }

  lemma UpToNext(before: seq<Lane>, after: seq<Lane>, k: nat)
    requires k < |before| == |after|
    ensures UpTo(before, after, k)[k] == before[k]
    ensures UpTo(before, after, k)[k := after[k]] == UpTo(before, after, k + 1)
  {
  }

  lemma NextLane(reg: Registry, s: Sys, acts: seq<Action>, w: Worker, after: seq<Lane>, k: nat, msgs: seq<Msg>,
                 sids: seq<nat>) returns (more: seq<Action>)
    requires k < |s.db.lanes| == |after| && LaneOk(s.db.lanes[k]) && Took(s.db.lanes[k], after[k], w, sids)
    requires CanRun(reg, s, acts) && Run(reg, s, acts).db == s.db.(lanes := UpTo(s.db.lanes, after, k))
    requires Handed(s, Run(reg, s, acts), msgs, w)
    ensures CanRun(reg, s, more) && Run(reg, s, more).db == s.db.(lanes := UpTo(s.db.lanes, after, k + 1))
    ensures Handed(s, Run(reg, s, more), msgs + MsgsAt(s.db.lanes[k], k, sids), w)
  {
    var s1 := Run(reg, s, acts);
    UpToNext(s.db.lanes, after, k);
    var here := LaneIsSteps(reg, s1, w, k, after[k], sids);
    Runs.JoinRuns(reg, s, acts, here);
    more := acts + here;
    HandedJoin(s, s1, Run(reg, s, more), msgs, MsgsAt(s.db.lanes[k], k, sids), w);
  }

  ghost predicate TookUpTo(before: seq<Lane>, after: seq<Lane>, w: Worker, sids: seq<seq<nat>>, k: nat) {
    && k <= |before| == |after| == |sids|
    && (k > 0 ==>
          && LaneOk(before[k - 1]) && Took(before[k - 1], after[k - 1], w, sids[k - 1])
          && TookUpTo(before, after, w, sids, k - 1))
  }

  lemma {:induction false} ProgressTook(before: seq<Lane>, after: seq<Lane>, w: Worker, sids: seq<seq<nat>>,
                                        msgs: seq<Msg>, k: nat)
    requires Progress(before, after, w, sids, msgs) && k <= |before|
    requires forall i :: 0 <= i < |before| ==> LaneOk(before[i])
    ensures TookUpTo(before, after, w, sids, k)
  {
    if k > 0 {
      ProgressTook(before, after, w, sids, msgs, k - 1);
    }
  }

  lemma {:induction false} LanesAreSteps(reg: Registry, s: Sys, w: Worker, after: seq<Lane>, sids: seq<seq<nat>>, k: nat)
    returns (acts: seq<Action>)
    requires Listed(s.db.lanes, sids) && |after| == |sids| && TookUpTo(s.db.lanes, after, w, sids, k)
    ensures CanRun(reg, s, acts) && Run(reg, s, acts).db == s.db.(lanes := UpTo(s.db.lanes, after, k))
    ensures Handed(s, Run(reg, s, acts), FromLanes(s.db.lanes, sids, k), w)
  {
    if k == 0 {
      acts := [];
      assert UpTo(s.db.lanes, after, 0) == s.db.lanes;
    } else {
      acts := LanesAreSteps(reg, s, w, after, sids, k - 1);
      acts := NextLane(reg, s, acts, w, after, k - 1, FromLanes(s.db.lanes, sids, k - 1), sids[k - 1]);
    }
  }

  /** A whole batch, whatever its claims, shares and spare, is a run of single steps of the
      protocol, after which the worker holds all its messages, prefetched. */
  lemma BatchIsSteps(reg: Registry, s: Sys, w: Worker, after: seq<Lane>, sids: seq<seq<nat>>, msgs: seq<Msg>)
    returns (acts: seq<Action>)
    requires LanesOk(s.db) && Progress(s.db.lanes, after, w, sids, msgs)
    ensures CanRun(reg, s, acts) && Run(reg, s, acts).db == s.db.(lanes := after)
    ensures Handed(s, Run(reg, s, acts), msgs, w)
  {
    var n := |after|;
    assert Listed(s.db.lanes, sids) by {
      assert forall i :: 0 <= i < n ==> Took(s.db.lanes[i], after[i], w, sids[i]);
    }
    ProgressTook(s.db.lanes, after, w, sids, msgs, n);
    acts := LanesAreSteps(reg, s, w, after, sids, n);
    assert UpTo(s.db.lanes, after, n) == after;
    forall m | m in msgs
      ensures m in FromLanes(s.db.lanes, sids, n)
    {
      InOwnLane(msgs, m);
      assert OfLane(msgs, m.lane) == MsgsAt(s.db.lanes[m.lane], m.lane, sids[m.lane]);
      InFromLanes(s.db.lanes, sids, n, m.lane, m);
    }
    HandedAmong(s, Run(reg, s, acts), FromLanes(s.db.lanes, sids, n), msgs, w);
  }
}
