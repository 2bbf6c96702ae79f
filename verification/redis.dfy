/** The scripts and pipelines as the code runs them: command by command on the keys, each
    proved to have the effect `store.dfy` gives it. */
module RedisStore {
  import opened Store

  // ----- reading a stream in order

  /** The live entries with ids in `[lo, hi)`, oldest first. */
  function Entries(stream: map<nat, Item>, lo: nat, hi: nat): seq<nat>
    decreases hi - lo
  {
    if lo >= hi then []
    else if lo in stream then [lo] + Entries(stream, lo + 1, hi)
    else Entries(stream, lo + 1, hi)
  }

  /** `e` lists exactly the live entries in `[lo, hi)`, oldest first. */
  ghost predicate InOrder(stream: map<nat, Item>, lo: nat, hi: nat, e: seq<nat>) {
    && (forall i :: 0 <= i < |e| ==> lo <= e[i] < hi && e[i] in stream)
    && (forall i, j :: 0 <= i < j < |e| ==> e[i] < e[j])
    && (forall sid :: sid in stream && lo <= sid < hi ==> sid in e)
  }

  lemma {:induction false} EntriesInOrder(stream: map<nat, Item>, lo: nat, hi: nat)
    ensures InOrder(stream, lo, hi, Entries(stream, lo, hi))
    decreases hi - lo
  {
    if lo < hi {
      EntriesInOrder(stream, lo + 1, hi);
      var rest := Entries(stream, lo + 1, hi);
      assert InOrder(stream, lo, hi, if lo in stream then [lo] + rest else rest);
    }
  }

  lemma FirstInOrder(stream: map<nat, Item>, lo: nat, hi: nat, e: seq<nat>, n: nat)
    requires InOrder(stream, lo, hi, e) && 0 < n <= |e|
    ensures forall sid :: sid in e[..n] <==> sid in stream && lo <= sid <= e[n - 1]
  {
    forall sid
      ensures sid in e[..n] <==> sid in stream && lo <= sid <= e[n - 1]
    {
      if sid in stream && lo <= sid <= e[n - 1] {
        var j :| 0 <= j < |e| && e[j] == sid;
        assert e[..n][j] == sid;
      }
    }
  }

  function Unread(l: Lane): seq<nat> {
    Entries(l.stream, l.last + 1, l.next)
  }

  /** XREADGROUP and XAUTOCLAIM of several entries. */
  function DeliverAll(l: Lane, sids: seq<nat>, w: Worker): Lane
    decreases |sids|
  {
    if sids == [] then l else DeliverAll(Deliver(l, sids[0], w), sids[1..], w)
  }

  function ReassignAll(l: Lane, sids: seq<nat>, w: Worker): Lane
    decreases |sids|
  {
    if sids == [] then l else ReassignAll(Reassign(l, sids[0], w), sids[1..], w)
  }

  lemma DeliverNext(l: Lane, sids: seq<nat>, i: nat, w: Worker)
    requires i < |sids|
    ensures DeliverAll(l, sids[i..], w) == DeliverAll(Deliver(l, sids[i], w), sids[i + 1..], w)
    ensures ReassignAll(l, sids[i..], w) == ReassignAll(Reassign(l, sids[i], w), sids[i + 1..], w)
  {
    assert sids[i..][1..] == sids[i + 1..];
  }

  lemma {:induction false} DeliverAllFacts(l: Lane, sids: seq<nat>, w: Worker)
    ensures var r := DeliverAll(l, sids, w);
            && r.stream == l.stream && r.next == l.next && r.delayed == l.delayed
            && r.last == (if sids == [] then l.last else sids[|sids| - 1])
            && (forall sid :: sid in r.pending <==> sid in l.pending || sid in sids)
            && (forall sid :: sid in sids ==> r.pending[sid] == w)
            && (forall sid :: sid in l.pending && sid !in sids ==> r.pending[sid] == l.pending[sid])
    decreases |sids|
  {
    if sids != [] {
      DeliverAllFacts(Deliver(l, sids[0], w), sids[1..], w);
      assert sids == [sids[0]] + sids[1..];
    }
  }

  lemma {:induction false} ReassignAllFacts(l: Lane, sids: seq<nat>, w: Worker)
    ensures var r := ReassignAll(l, sids, w);
            && r == l.(pending := r.pending)
            && (forall sid :: sid in r.pending <==> sid in l.pending || sid in sids)
            && (forall sid :: sid in sids ==> r.pending[sid] == w)
            && (forall sid :: sid in l.pending && sid !in sids ==> r.pending[sid] == l.pending[sid])
    decreases |sids|
  {
    if sids != [] {
      ReassignAllFacts(Reassign(l, sids[0], w), sids[1..], w);
      assert sids == [sids[0]] + sids[1..];
    }
  }

  function MsgAt(l: Lane, lane: nat, sid: nat): Msg
    requires sid in l.stream
  {
    Msg(lane, sid, l.stream[sid].id, l.stream[sid].time)
  }

  function MsgsAt(l: Lane, lane: nat, sids: seq<nat>): (ms: seq<Msg>)
    requires forall i :: 0 <= i < |sids| ==> sids[i] in l.stream
    ensures |ms| == |sids|
  {
    seq(|sids|, i requires 0 <= i < |sids| => MsgAt(l, lane, sids[i]))
  }

  function Min(a: int, b: int): int {
    if a < b then a else b
  }

  lemma UnscheduleNone(lanes: seq<Lane>, id: Id)
    requires forall i :: 0 <= i < |lanes| ==> id !in lanes[i].delayed
    ensures Unschedule(lanes, id) == lanes
  {
    forall i | 0 <= i < |lanes|
      ensures Unschedule(lanes, id)[i] == lanes[i]
    {
      assert lanes[i].delayed - {id} == lanes[i].delayed;
    }
  }

  // ----- two passes instead of one

  /** publish_delayed.lua takes every due id out before it adds any entry. */
  ghost function AddAll(l: Lane, due: seq<Id>, scores: map<Id, int>): Lane
    requires forall i :: 0 <= i < |due| ==> due[i] in scores
    decreases |due|
  {
    if due == [] then l else AddAll(XAdd(l, due[0], scores[due[0]]), due[1..], scores)
  }

  ghost function RemAll(l: Lane, ids: seq<Id>): Lane {
    l.(delayed := l.delayed - (set id | id in ids))
  }

  lemma {:induction false} PromoteInTwoPasses(l: Lane, due: seq<Id>)
    requires Distinct(due) && forall i :: 0 <= i < |due| ==> due[i] in l.delayed
    ensures Promote(l, due) == AddAll(RemAll(l, due), due, l.delayed)
    decreases |due|
  {
    if due == [] {
      assert RemAll(l, due).delayed == l.delayed;
    } else {
      var l' := PromoteOne(l, due[0]);
      PromoteInTwoPasses(l', due[1..]);
      assert forall i :: 0 <= i < |due[1..]| ==> due[1..][i] != due[0];
      assert l'.delayed - (set id | id in due[1..]) == l.delayed - (set id | id in due);
      AddAllSame(RemAll(l', due[1..]), due[1..], l'.delayed, l.delayed);
    }
  }

  lemma {:induction false} AddAllSame(l: Lane, due: seq<Id>, a: map<Id, int>, b: map<Id, int>)
    requires forall i :: 0 <= i < |due| ==> due[i] in a && due[i] in b && a[due[i]] == b[due[i]]
    ensures AddAll(l, due, a) == AddAll(l, due, b)
    decreases |due|
  {
    if due != [] {
      AddAllSame(XAdd(l, due[0], a[due[0]]), due[1..], a, b);
    }
  }

  lemma {:induction false} AddAllSnoc(l: Lane, due: seq<Id>, scores: map<Id, int>, id: Id)
    requires (forall i :: 0 <= i < |due| ==> due[i] in scores) && id in scores
    ensures AddAll(l, due + [id], scores) == XAdd(AddAll(l, due, scores), id, scores[id])
    decreases |due|
  {
    if due == [] {
      assert [id][1..] == [];
    } else {
      assert (due + [id])[1..] == due[1..] + [id];
      AddAllSnoc(XAdd(l, due[0], scores[due[0]]), due[1..], scores, id);
    }
  }

  /** purge_lane.lua forgets every id before it removes them together. */
  ghost function ForgetAll(db: Db, ids: set<Id>): Db {
    db.(data := db.data - ids, retry := db.retry - ids, marks := db.marks - ids)
  }

  function IdsOf(l: Lane, sids: seq<nat>): (ids: seq<Id>)
    requires forall i :: 0 <= i < |sids| ==> sids[i] in l.stream
    ensures |ids| == |sids|
  {
    seq(|sids|, i requires 0 <= i < |sids| => l.stream[sids[i]].id)
  }

  lemma ForgetMore(db: Db, id: Id, rest: set<Id>)
    ensures ForgetAll(Forget(db, id), rest) == ForgetAll(db, {id} + rest)
  {
    assert db.data - {id} - rest == db.data - ({id} + rest);
    assert db.retry - {id} - rest == db.retry - ({id} + rest);
  }

  ghost function Elements<T(!new)>(s: seq<T>): set<T> {
    set x | x in s
  }

  lemma FirstElement<T(!new)>(s: seq<T>)
    requires s != []
    ensures Elements(s) == {s[0]} + Elements(s[1..])
  {
    assert s == [s[0]] + s[1..];
  }

  lemma {:induction false} PurgeScheduledTogether(db: Db, lane: nat, ids: seq<Id>)
    requires lane < |db.lanes|
    ensures Purge(db, lane, ids, [])
         == SetLane(ForgetAll(db, Elements(ids)), lane, RemAll(db.lanes[lane], ids))
    decreases |ids|
  {
    if ids == [] {
      assert RemAll(db.lanes[lane], ids) == db.lanes[lane];
      assert ForgetAll(db, {}) == db;
      assert SetLane(db, lane, db.lanes[lane]) == db;
    } else {
      FirstElement(ids);
      PurgeScheduledTogether(DropScheduled(db, lane, ids[0]), lane, ids[1..]);
      ForgetMore(db, ids[0], Elements(ids[1..]));
      assert RemAll(ZRem(db.lanes[lane], ids[0]), ids[1..]) == RemAll(db.lanes[lane], ids);
    }
  }

  ghost function WithoutEntries(l: Lane, sids: seq<nat>): Lane {
    l.(stream := l.stream - Elements(sids))
  }

  lemma IdsOfRest(l: Lane, sids: seq<nat>)
    requires sids != [] && Distinct(sids) && forall i :: 0 <= i < |sids| ==> sids[i] in l.stream
    ensures var l1 := l.(stream := l.stream - {sids[0]});
            && (forall i :: 0 <= i < |sids[1..]| ==> sids[1..][i] in l1.stream)
            && IdsOf(l, sids) == [l.stream[sids[0]].id] + IdsOf(l1, sids[1..])
  {
  }

  lemma EntriesOfRest(l: Lane, sids: seq<nat>)
    requires sids != []
    ensures WithoutEntries(l.(stream := l.stream - {sids[0]}), sids[1..]) == WithoutEntries(l, sids)
  {
    FirstElement(sids);
    assert l.stream - {sids[0]} - Elements(sids[1..]) == l.stream - Elements(sids);
  }

  lemma {:induction false} PurgeWaitingTogether(db: Db, lane: nat, sids: seq<nat>)
    requires lane < |db.lanes| && Distinct(sids)
    requires forall i :: 0 <= i < |sids| ==> sids[i] in db.lanes[lane].stream
    ensures Purge(db, lane, [], sids)
         == SetLane(ForgetAll(db, Elements(IdsOf(db.lanes[lane], sids))), lane, WithoutEntries(db.lanes[lane], sids))
    decreases |sids|
  {
    if sids == [] {
      PurgeOfNone(db, lane);
    } else {
      var l := db.lanes[lane];
      var id := l.stream[sids[0]].id;
      var l1 := l.(stream := l.stream - {sids[0]});
      var db1, rest := DropWaiting(db, lane, sids[0]), sids[1..];
      assert db1.lanes[lane] == l1;
      PurgeWaitingTogether(db1, lane, rest);
      IdsOfRest(l, sids);
      FirstElement(IdsOf(l, sids));
      ForgetMore(db, id, Elements(IdsOf(l1, rest)));
      EntriesOfRest(l, sids);
    }
  }

  lemma PurgeOfNone(db: Db, lane: nat)
    requires lane < |db.lanes|
    ensures Purge(db, lane, [], []) == SetLane(ForgetAll(db, Elements(IdsOf(db.lanes[lane], []))), lane,
                                               WithoutEntries(db.lanes[lane], []))
  {
    var l := db.lanes[lane];
    assert IdsOf(l, []) == [];
    assert WithoutEntries(l, []) == l;
    assert ForgetAll(db, {}) == db;
    assert SetLane(db, lane, l) == db;
  }

  lemma {:induction false} PurgeInTwoParts(db: Db, lane: nat, ids: seq<Id>, sids: seq<nat>)
    requires lane < |db.lanes| && Distinct(sids)
    requires forall i :: 0 <= i < |sids| ==> sids[i] in db.lanes[lane].stream
    ensures Purge(db, lane, ids, []).lanes[lane].stream == db.lanes[lane].stream
    ensures |Purge(db, lane, ids, []).lanes| == |db.lanes|
    ensures Purge(db, lane, ids, sids) == Purge(Purge(db, lane, ids, []), lane, [], sids)
    decreases |ids|
  {
    if ids != [] {
      PurgeInTwoParts(DropScheduled(db, lane, ids[0]), lane, ids[1..], sids);
    }
  }

  // ----- sorted sets

  /** Ids of a sorted set by score; Redis breaks ties by name, which nothing here needs. */
  ghost predicate ByScore(delayed: map<Id, int>, ids: seq<Id>) {
    && Distinct(ids)
    && (forall i :: 0 <= i < |ids| ==> ids[i] in delayed)
    && (forall i, j :: 0 <= i < j < |ids| ==> delayed[ids[i]] <= delayed[ids[j]])
  }

  /** ZRANGE 0 take-1: the `take` lowest, or all there are. */
  ghost predicate IsLowest(delayed: map<Id, int>, take: int, ids: seq<Id>) {
    && ByScore(delayed, ids)
    && |ids| == Min(if take > 0 then take else 0, |delayed|)
    && forall id :: id in delayed && id !in ids ==> forall i :: 0 <= i < |ids| ==> delayed[ids[i]] <= delayed[id]
  }

  method Lowest(delayed: map<Id, int>, rest: set<Id>) returns (m: Id)
    requires rest != {} && rest <= delayed.Keys
    ensures m in rest && forall id :: id in rest ==> delayed[m] <= delayed[id]
  {
    m :| m in rest;
    var scan := rest - {m};
    while scan != {}
      invariant m in rest && scan <= rest
      invariant forall id :: id in rest - scan ==> delayed[m] <= delayed[id]
      decreases scan
    {
      var x :| x in scan;
      if delayed[x] < delayed[m] {
        m := x;
      }
      scan := scan - {x};
    }
  }

  method ZRange(delayed: map<Id, int>, take: int) returns (ids: seq<Id>)
    ensures IsLowest(delayed, take, ids)
  {
    ids := [];
    var rest := delayed.Keys;
    while rest != {} && |ids| < take
      invariant ByScore(delayed, ids)
      invariant forall id :: id in delayed <==> id in rest || id in ids
      invariant forall id :: id in rest ==> id !in ids
      invariant forall id, i :: id in rest && 0 <= i < |ids| ==> delayed[ids[i]] <= delayed[id]
      invariant |ids| + |rest| == |delayed|
      invariant |ids| <= if take > 0 then take else 0
      decreases rest
    {
      var m := Lowest(delayed, rest);
      assert forall i :: 0 <= i < |ids| ==> ids[i] in ids;
      ids := ids + [m];
      rest := rest - {m};
    }
  }

  method ZRangeByScore(delayed: map<Id, int>, now: int) returns (due: seq<Id>)
    ensures ByScore(delayed, due)
    ensures forall id :: id in due <==> id in delayed && 0 <= delayed[id] <= now
  {
    var all := ZRange(delayed, |delayed|);
    AllListed(delayed, all);
    due := [];
    var i := 0;
    while i < |all|
      invariant 0 <= i <= |all|
      invariant DueOf(delayed, all, i, now, due)
    {
      DueNext(delayed, all, i, now, due);
      if 0 <= delayed[all[i]] <= now {
        due := due + [all[i]];
      }
      i := i + 1;
    }
    assert all[..i] == all;
  }

  /** What is due among the first `i` of `all`. */
  ghost predicate DueOf(delayed: map<Id, int>, all: seq<Id>, i: nat, now: int, due: seq<Id>) {
    && i <= |all| && ByScore(delayed, all) && ByScore(delayed, due)
    && (forall id :: id in due <==> id in all[..i] && 0 <= delayed[id] <= now)
    && (forall j, k :: 0 <= j < |due| && i <= k < |all| ==> due[j] != all[k] && delayed[due[j]] <= delayed[all[k]])
  }

  lemma DueNext(delayed: map<Id, int>, all: seq<Id>, i: nat, now: int, due: seq<Id>)
    requires DueOf(delayed, all, i, now, due) && i < |all|
    ensures DueOf(delayed, all, i + 1, now, if 0 <= delayed[all[i]] <= now then due + [all[i]] else due)
  {
    assert all[..i + 1] == all[..i] + [all[i]];
  }

  lemma AllListed(delayed: map<Id, int>, all: seq<Id>)
    requires Distinct(all) && |all| == |delayed| && forall i :: 0 <= i < |all| ==> all[i] in delayed
    ensures forall id :: id in delayed <==> id in all
  {
    DistinctSize(all);
    assert Elements(all) <= delayed.Keys;
    SubsetOfSize(Elements(all), delayed.Keys);
    assert forall id :: id in delayed ==> id in Elements(all);
  }

  lemma {:induction false} DistinctSize<T(!new)>(s: seq<T>)
    requires Distinct(s)
    ensures |Elements(s)| == |s|
    decreases |s|
  {
    if s != [] {
      DistinctSize(s[1..]);
      FirstElement(s);
      assert forall i :: 0 <= i < |s[1..]| ==> s[1..][i] != s[0];
    }
  }

  lemma SubsetOfSize<T>(a: set<T>, b: set<T>)
    requires a <= b && |a| == |b|
    ensures a == b
  {
    assert |b - a| == |b| - |a|;
  }
}
