/** Purging a lane: what is dropped when nothing interferes, and why the loop ends and
    leaves new work alone whatever happens between its chunks. */
module Purge {
  import opened Wrappers
  import opened Store
  import opened RedisStore
  import opened Scripts
  import opened Protocol
  import opened Stranding
  import opened Tokens
  import Runs = Progress

  const CHUNK: nat := 500

  /** Entries up to `last` that the group was not given yet. */
  ghost function Undelivered(l: Lane, last: Option<nat>): set<nat> {
    set sid | sid in l.stream && l.last < sid && last.Some? && sid <= last.value
  }

  lemma ChunkIsUndelivered(l: Lane, last: Option<nat>, chunk: nat, sids: seq<nat>)
    requires IsChunk(l, last, chunk, sids)
    ensures Elements(sids) <= Undelivered(l, last) && |Elements(sids)| == |sids|
    ensures sids == [] && chunk > 0 ==> Undelivered(l, last) == {}
  {
    DistinctSize(sids);
    if last.Some? {
      EntriesInOrder(l.stream, l.last + 1, last.value + 1);
      var e := Waiting(l, last);
      assert forall i :: 0 <= i < |sids| ==> sids[i] == e[i];
      if sids == [] && chunk > 0 {
        assert e == [];
        assert forall sid :: sid in Undelivered(l, last) ==> sid in e;
      }
    }
  }

  // ----- one purge_lane.lua call in closed form

  ghost function IdsAt(l: Lane, sids: set<nat>): set<Id> {
    set sid | sid in sids && sid in l.stream :: l.stream[sid].id
  }

  ghost function Dropped(db: Db, lane: nat, ids: set<Id>, sids: set<nat>): Db
    requires lane < |db.lanes|
  {
    var l := db.lanes[lane];
    SetLane(ForgetAll(db, ids + IdsAt(l, sids)), lane, l.(delayed := l.delayed - ids, stream := l.stream - sids))
  }

  lemma PurgeDrops(db: Db, lane: nat, ids: seq<Id>, sids: seq<nat>)
    requires lane < |db.lanes| && Distinct(sids)
    requires forall i :: 0 <= i < |sids| ==> sids[i] in db.lanes[lane].stream
    ensures Store.Purge(db, lane, ids, sids) == Dropped(db, lane, Elements(ids), Elements(sids))
  {
    var l := db.lanes[lane];
    PurgeInTwoParts(db, lane, ids, sids);
    PurgeScheduledTogether(db, lane, ids);
    var mid := Store.Purge(db, lane, ids, []);
    PurgeWaitingTogether(mid, lane, sids);
    assert mid.lanes[lane] == RemAll(l, ids);
    IdsAreIdsAt(l, mid.lanes[lane], sids);
    ForgetTwice(db, Elements(ids), IdsAt(l, Elements(sids)));
    assert l.delayed - (set id | id in ids) == l.delayed - Elements(ids);
  }

  lemma IdsAreIdsAt(l: Lane, mid: Lane, sids: seq<nat>)
    requires mid.stream == l.stream && forall i :: 0 <= i < |sids| ==> sids[i] in l.stream
    ensures Elements(IdsOf(mid, sids)) == IdsAt(l, Elements(sids))
  {
    var a, b := Elements(IdsOf(mid, sids)), IdsAt(l, Elements(sids));
    forall id | id in a
      ensures id in b
    {
      var i :| 0 <= i < |sids| && IdsOf(mid, sids)[i] == id;
      assert sids[i] in Elements(sids);
    }
    forall id | id in b
      ensures id in a
    {
      var sid :| sid in Elements(sids) && l.stream[sid].id == id;
      var i :| 0 <= i < |sids| && sids[i] == sid;
      assert IdsOf(mid, sids)[i] == id;
    }
  }

  lemma ForgetTwice(db: Db, a: set<Id>, b: set<Id>)
    ensures ForgetAll(ForgetAll(db, a), b) == ForgetAll(db, a + b)
  {
    assert db.data - a - b == db.data - (a + b);
    assert db.retry - a - b == db.retry - (a + b);
    assert db.marks - a - b == db.marks - (a + b);
  }

  /** Two calls in a row drop together what each drops. */
  lemma DroppedTwice(db: Db, lane: nat, ids: set<Id>, sids: set<nat>, ids': set<Id>, sids': set<nat>)
    requires lane < |db.lanes|
    requires sids' !! sids
    ensures Dropped(Dropped(db, lane, ids, sids), lane, ids', sids') == Dropped(db, lane, ids + ids', sids + sids')
  {
    var l := db.lanes[lane];
    var mid := Dropped(db, lane, ids, sids).lanes[lane];
    assert IdsAt(mid, sids') == IdsAt(l, sids');
    assert IdsAt(l, sids + sids') == IdsAt(l, sids) + IdsAt(l, sids');
    ForgetTwice(db, ids + IdsAt(l, sids), ids' + IdsAt(l, sids'));
    assert ids + IdsAt(l, sids) + (ids' + IdsAt(l, sids')) == ids + ids' + IdsAt(l, sids + sids');
    assert l.delayed - ids - ids' == l.delayed - (ids + ids');
    assert l.stream - sids - sids' == l.stream - (sids + sids');
  }

  // ----- no interference

  /** XREVRANGE + - COUNT 1: the newest entry of the stream. */
  method Newest(l: Lane) returns (last: Option<nat>)
    requires LaneOk(l)
    ensures last.None? <==> l.stream == map[]
    ensures last.Some? ==> last.value in l.stream && forall sid :: sid in l.stream ==> sid <= last.value
  {
    EntriesInOrder(l.stream, 0, l.next);
    var e := Entries(l.stream, 0, l.next);
    if e == [] {
      assert l.stream.Keys == {};
      return None;
    }
    forall sid | sid in l.stream
      ensures sid <= e[|e| - 1]
    {
      var i :| 0 <= i < |e| && e[i] == sid;
    }
    return Some(e[|e| - 1]);
  }

  ghost function Unclaimed(l: Lane): set<nat> {
    set sid | sid in l.stream && l.last < sid
  }

  /** Queue::purge of one lane: every undelivered entry and every delayed task goes, with
      its payload, retry count and marker, and the counts are theirs; delivered entries, the
      other lanes and the keys of other ids stay. `DeliveredKeepPayloads` says when the
      payloads of delivered entries do. */
  method PurgeAll(redis: Redis, lane: nat) returns (waiting: nat, scheduled: nat)
    requires lane < |redis.lanes| && LaneOk(redis.lanes[lane])
    modifies redis`lanes, redis`data, redis`retry, redis`marks
    ensures var l := old(redis.lanes[lane]);
            && waiting == |Unclaimed(l)| && scheduled == |l.delayed|
            && redis.State() == Dropped(old(redis.State()), lane, l.delayed.Keys, Unclaimed(l))
  {
    ghost var start := redis.State();
    var last := Newest(redis.lanes[lane]);
    var left: int := |redis.lanes[lane].delayed|;
    waiting, scheduled := 0, 0;
    ghost var ids: set<Id>, sids: set<nat> := {}, {};
    NothingYet(start, lane, last, left);
    var more := true;
    while more
      invariant Purged(redis.State(), start, lane, ids, sids, last, left)
      invariant waiting == |sids| && scheduled == |ids|
      invariant !more ==> sids == Unclaimed(start.lanes[lane]) && ids == start.lanes[lane].delayed.Keys
      decreases |Unclaimed(start.lanes[lane])| - waiting + left, more
    {
      var w, s;
      w, s, ids, sids := PurgeChunk(redis, lane, last, left, start, ids, sids);
      waiting, scheduled, left := waiting + w, scheduled + s, left - s;
      if w == 0 && s == 0 {
        more := false;
      }
    }
  }

  /** One round of the loop. */
  method PurgeChunk(redis: Redis, lane: nat, last: Option<nat>, left: int, ghost start: Db,
                    ghost ids0: set<Id>, ghost sids0: set<nat>)
    returns (w: nat, s: nat, ghost ids: set<Id>, ghost sids: set<nat>)
    requires Purged(redis.State(), start, lane, ids0, sids0, last, left)
    modifies redis`lanes, redis`data, redis`retry, redis`marks
    ensures Purged(redis.State(), start, lane, ids, sids, last, left - s)
    ensures |sids| == |sids0| + w && |ids| == |ids0| + s
    ensures w == 0 && s == 0 ==> sids == Unclaimed(start.lanes[lane]) && ids == start.lanes[lane].delayed.Keys
  {
    ghost var db := redis.State();
    ghost var idsNow, sidsNow;
    w, s, idsNow, sidsNow := redis.PurgeLane(lane, last, CHUNK, Min(left, CHUNK));
    ids, sids := OneMoreChunk(db, start, lane, ids0, sids0, last, left, idsNow, sidsNow);
  }

  /** How far the purge of a lane has got. */
  ghost predicate Purged(db: Db, start: Db, lane: nat, ids: set<Id>, sids: set<nat>, last: Option<nat>, left: int) {
    && lane < |start.lanes| && db == Dropped(start, lane, ids, sids)
    && Undelivered(start.lanes[lane], last) == Unclaimed(start.lanes[lane])
    && SoFar(start.lanes[lane], ids, sids, left)
  }

  lemma NothingYet(start: Db, lane: nat, last: Option<nat>, left: int)
    requires lane < |start.lanes| && left == |start.lanes[lane].delayed|
    requires last.None? <==> start.lanes[lane].stream == map[]
    requires last.Some? ==> forall sid :: sid in start.lanes[lane].stream ==> sid <= last.value
    ensures Purged(start, start, lane, {}, {}, last, left)
  {
    DroppedNothing(start, lane);
    assert Undelivered(start.lanes[lane], last) == Unclaimed(start.lanes[lane]);
  }

  lemma OneMoreChunk(db: Db, start: Db, lane: nat, ids0: set<Id>, sids0: set<nat>, last: Option<nat>, left: int,
                     idsNow: seq<Id>, sidsNow: seq<nat>)
    returns (ids: set<Id>, sids: set<nat>)
    requires Purged(db, start, lane, ids0, sids0, last, left)
    requires ChunkOf(db.lanes[lane], last, CHUNK, Min(left, CHUNK), idsNow, sidsNow)
    ensures Purged(Store.Purge(db, lane, idsNow, sidsNow), start, lane, ids, sids, last, left - |idsNow|)
    ensures |sids| == |sids0| + |sidsNow| && |ids| == |ids0| + |idsNow|
    ensures |sidsNow| == 0 ==> sids == Unclaimed(start.lanes[lane])
    ensures |idsNow| == 0 ==> ids == start.lanes[lane].delayed.Keys
  {
    ChunkGrows(start.lanes[lane], db.lanes[lane], ids0, sids0, last, left, idsNow, sidsNow);
    MoreDropped(start, lane, ids0, sids0, idsNow, sidsNow);
    ids, sids := ids0 + Elements(idsNow), sids0 + Elements(sidsNow);
    AddNothing(ids0, idsNow);
    AddNothing(sids0, sidsNow);
  }

  lemma AddNothing<T(!new)>(a: set<T>, s: seq<T>)
    ensures |s| == 0 ==> a + Elements(s) == a
  {
  }

  lemma MoreDropped(start: Db, lane: nat, ids: set<Id>, sids: set<nat>, idsNow: seq<Id>, sidsNow: seq<nat>)
    requires lane < |start.lanes| && Elements(sidsNow) !! sids && Distinct(sidsNow)
    requires forall i :: 0 <= i < |sidsNow| ==> sidsNow[i] in Dropped(start, lane, ids, sids).lanes[lane].stream
    ensures Store.Purge(Dropped(start, lane, ids, sids), lane, idsNow, sidsNow)
         == Dropped(start, lane, ids + Elements(idsNow), sids + Elements(sidsNow))
  {
    PurgeDrops(Dropped(start, lane, ids, sids), lane, idsNow, sidsNow);
    DroppedTwice(start, lane, ids, sids, Elements(idsNow), Elements(sidsNow));
  }

  lemma DroppedNothing(db: Db, lane: nat)
    requires lane < |db.lanes|
    ensures Dropped(db, lane, {}, {}) == db
  {
    var l := db.lanes[lane];
    assert l.delayed - {} == l.delayed && l.stream - {} == l.stream;
    assert {} + IdsAt(l, {}) == {};
    assert ForgetAll(db, {}) == db;
  }

  /** What the purge of lane `l` has dropped so far. */
  ghost predicate SoFar(l: Lane, ids: set<Id>, sids: set<nat>, left: int) {
    && sids <= Unclaimed(l) && ids <= l.delayed.Keys
    && left == |l.delayed| - |ids| >= 0
    && |sids| <= |Unclaimed(l)|
  }

  /** One more chunk. An empty one means nothing is left. */
  lemma ChunkGrows(l: Lane, mid: Lane, ids: set<Id>, sids: set<nat>, last: Option<nat>, left: int,
                   idsNow: seq<Id>, sidsNow: seq<nat>)
    requires Undelivered(l, last) == Unclaimed(l) && SoFar(l, ids, sids, left)
    requires mid == l.(delayed := l.delayed - ids, stream := l.stream - sids)
    requires ChunkOf(mid, last, CHUNK, Min(left, CHUNK), idsNow, sidsNow)
    ensures SoFar(l, ids + Elements(idsNow), sids + Elements(sidsNow), left - |idsNow|)
    ensures |sids + Elements(sidsNow)| == |sids| + |sidsNow| && Elements(sidsNow) !! sids
    ensures |ids + Elements(idsNow)| == |ids| + |idsNow|
    ensures sidsNow == [] ==> sids == Unclaimed(l)
    ensures idsNow == [] ==> ids == l.delayed.Keys
  {
    EntriesGrow(l, mid, sids, last, sidsNow);
    ScheduledGrow(l.delayed, ids, left, idsNow);
  }

  lemma EntriesGrow(l: Lane, mid: Lane, sids: set<nat>, last: Option<nat>, sidsNow: seq<nat>)
    requires Undelivered(l, last) == Unclaimed(l) && sids <= Unclaimed(l)
    requires mid.last == l.last && mid.stream == l.stream - sids && IsChunk(mid, last, CHUNK, sidsNow)
    ensures var all := sids + Elements(sidsNow);
            all <= Unclaimed(l) && |all| == |sids| + |sidsNow| && |all| <= |Unclaimed(l)|
    ensures Elements(sidsNow) !! sids && (sidsNow == [] ==> sids == Unclaimed(l))
  {
    ChunkIsUndelivered(mid, last, CHUNK, sidsNow);
    assert Undelivered(mid, last) == Unclaimed(l) - sids;
    SubsetSize(sids + Elements(sidsNow), Unclaimed(l));
  }

  lemma ScheduledGrow(delayed: map<Id, int>, ids: set<Id>, left: int, idsNow: seq<Id>)
    requires ids <= delayed.Keys && left == |delayed| - |ids| >= 0
    requires IsLowest(delayed - ids, Min(left, CHUNK), idsNow)
    ensures var all := ids + Elements(idsNow);
            all <= delayed.Keys && |all| == |ids| + |idsNow| && |idsNow| <= left
    ensures idsNow == [] ==> ids == delayed.Keys
  {
    var mid := delayed - ids;
    DistinctSize(idsNow);
    assert mid.Keys == delayed.Keys - ids;
    assert |mid| == |mid.Keys| == left;
    assert Elements(idsNow) <= mid.Keys;
  }

  // ----- delivered entries keep their payloads

  /** Keys go by id: a payload survives exactly when nothing dropped has its id. */
  lemma PayloadSurvives(db: Db, lane: nat, ids: set<Id>, sids: set<nat>, id: Id)
    requires lane < |db.lanes| && id in db.data && sids <= db.lanes[lane].stream.Keys
    ensures var db' := Dropped(db, lane, ids, sids);
            && (id in db'.data <==> id !in ids && forall sid :: sid in sids ==> db.lanes[lane].stream[sid].id != id)
            && (id in db'.data ==> db'.data[id] == db.data[id])
  {
    assert id in IdsAt(db.lanes[lane], sids) <==> exists sid :: sid in sids && db.lanes[lane].stream[sid].id == id;
  }

  /** One lane and one task, which two workers have prefetched: "b" reclaimed it from "a". */
  ghost predicate PrefetchedTwice(s: Sys, id: Id) {
    && |s.db.lanes| == 1 && s.db.lanes[0] == Lane(map[1 := Item(id, 0)], 2, 1, map[1 := "b"], map[])
    && 0 in s.att && s.att[0] == Attempt(Msg(0, 1, id, 0), "a", Prefetched)
    && 1 in s.att && s.att[1] == Attempt(Msg(0, 1, id, 0), "b", Prefetched)
    && s.nextTok == 2 && id in s.db.data
  }

  lemma ReclaimedOnce(reg: Registry, id: Id, p: Payload) returns (acts: seq<Action>)
    ensures CanRun(reg, Initial(1), acts) && PrefetchedTwice(Run(reg, Initial(1), acts), id)
  {
    var stage, read, reclaim := Enqueue(0, id, p, 0, 0, 0, true), Action.Read("a", 0, 1), Reclaim("b", 0, 1);
    var s1 := Apply(reg, Initial(1), stage);
    assert s1.db.lanes[0] == Lane(map[1 := Item(id, 0)], 2, 0, map[], map[]);
    var s2 := Apply(reg, s1, read);
    assert s2.db.lanes[0] == Lane(map[1 := Item(id, 0)], 2, 1, map[1 := "a"], map[]);
    var s3 := Apply(reg, s2, reclaim);
    assert s3.db.lanes[0] == Lane(map[1 := Item(id, 0)], 2, 1, map[1 := "b"], map[]);
    Runs.StepFirst(reg, s2, reclaim, []);
    Runs.StepFirst(reg, s1, read, [reclaim] + []);
    Runs.StepFirst(reg, Initial(1), stage, [read] + ([reclaim] + []));
    acts := [stage] + ([read] + ([reclaim] + []));
  }

  /** Entry 2 of the task is delivered, entry 3 of it is not, and its payload is there. */
  ghost predicate QueuedTwice(s: Sys, id: Id) {
    && |s.db.lanes| == 1 && s.db.lanes[0].stream == map[2 := Item(id, 0), 3 := Item(id, 0)] && s.db.lanes[0].last == 2
    && id in s.db.data
  }

  /** Both workers hand it back, and a third reads the first of the two entries in between. */
  lemma HandedBackTwice(reg: Registry, s: Sys, id: Id) returns (acts: seq<Action>)
    requires PrefetchedTwice(s, id)
    ensures CanRun(reg, s, acts) && QueuedTwice(Run(reg, s, acts), id)
  {
    var read := Action.Read("c", 0, 2);
    var s1 := Apply(reg, s, Release(0));
    assert s1.db.lanes[0] == Lane(map[2 := Item(id, 0)], 3, 1, map[], map[]);
    var s2 := Apply(reg, s1, read);
    assert s2.db.lanes[0] == Lane(map[2 := Item(id, 0)], 3, 2, map[2 := "c"], map[]);
    var s3 := Apply(reg, s2, Release(1));
    assert s3.db.lanes[0].stream == map[2 := Item(id, 0), 3 := Item(id, 0)];
    Runs.StepFirst(reg, s2, Release(1), []);
    Runs.StepFirst(reg, s1, read, [Release(1)] + []);
    Runs.StepFirst(reg, s, Release(0), [read] + ([Release(1)] + []));
    acts := [Release(0)] + ([read] + ([Release(1)] + []));
  }

  lemma PurgeTakesPayload(reg: Registry, s: Sys, id: Id)
    requires QueuedTwice(s, id)
    ensures Enabled(s, Action.Purge(0, [], [3])) && At(s.db, id, Queued(0, 2)) && !Idle(s.db, Queued(0, 2))
    ensures var s' := Apply(reg, s, Action.Purge(0, [], [3])); At(s'.db, id, Queued(0, 2)) && id !in s'.db.data
  {
    assert [3][1..] == [];
  }

  /** And that can fail an entry already delivered: a run with one reclaim, after which a
      purge of an unread entry takes the payload of one that a worker is about to run. */
  lemma SharedIdLosesPayload(reg: Registry, id: Id, p: Payload) returns (acts: seq<Action>)
    ensures CanRun(reg, Initial(1), acts)
    ensures var s := Run(reg, Initial(1), acts);
            && At(s.db, id, Queued(0, 2)) && !Idle(s.db, Queued(0, 2)) && id in s.db.data
            && Enabled(s, Action.Purge(0, [], [3]))
            && var s' := Apply(reg, s, Action.Purge(0, [], [3]));
               At(s'.db, id, Queued(0, 2)) && id !in s'.db.data
  {
    var first := ReclaimedOnce(reg, id, p);
    var last := HandedBackTwice(reg, Run(reg, Initial(1), first), id);
    Runs.JoinRuns(reg, Initial(1), first, last);
    acts := first + last;
    PurgeTakesPayload(reg, Run(reg, Initial(1), acts), id);
  }

  /** While payloads are tokens it cannot: a delivered entry, in whichever lane and whether
      or not its holder still lives, keeps its payload through any purge. */
  lemma DeliveredKeepPayloads(reg: Registry, s: Sys, lane: nat, ids: set<Id>, sids: set<nat>, at: nat, sid: nat)
    requires lane < |s.db.lanes| && ids <= s.db.lanes[lane].delayed.Keys && sids <= Unclaimed(s.db.lanes[lane])
    requires at < |s.db.lanes| && sid in s.db.lanes[at].stream && sid <= s.db.lanes[at].last
    requires SafelyReachable(reg, s, s.db.lanes[at].stream[sid].id)
    ensures var id, db := s.db.lanes[at].stream[sid].id, Dropped(s.db, lane, ids, sids);
            id in s.db.data && id in db.data && db.data[id] == s.db.data[id] && At(db, id, Queued(at, sid))
  {
    var id, l := s.db.lanes[at].stream[sid].id, s.db.lanes[lane];
    SafelyReachableInv(reg, s, id);
    assert At(s.db, id, Queued(at, sid));
    assert id in l.delayed ==> At(s.db, id, Later(lane));
    forall x | x in sids
      ensures l.stream[x].id != id
    {
      assert l.stream[x].id == id ==> At(s.db, id, Queued(lane, x));
    }
    PayloadSurvives(s.db, lane, ids, sids, id);
  }

  /** The same of the protocol's purge step, for every message in a worker's hands. */
  lemma HeldKeepPayloads(reg: Registry, s: Sys, lane: nat, ids: seq<Id>, sids: seq<nat>, tok: nat)
    requires Enabled(s, Action.Purge(lane, ids, sids)) && tok in s.att && SafelyReachable(reg, s, s.att[tok].msg.id)
    ensures s.att[tok].msg.id in Apply(reg, s, Action.Purge(lane, ids, sids)).db.data
  {
    var id := s.att[tok].msg.id;
    SafelyReachableInv(reg, s, id);
    TokenStep(reg, s, Action.Purge(lane, ids, sids), id);
    HolderAt(Apply(reg, s, Action.Purge(lane, ids, sids)), tok, id);
  }

  // ----- anything may happen between two chunks

  /** Streams only move on: ids are never reused, and what was delivered or removed does
      not come back under its old id. */
  ghost predicate Onward(l: Lane, l': Lane) {
    && l'.next >= l.next && l'.last >= l.last
    && forall sid :: sid in l'.stream ==> sid in l.stream || sid >= l.next
  }

  ghost predicate LanesOnward(db: Db, db': Db) {
    && |db'.lanes| == |db.lanes|
    && forall i :: 0 <= i < |db.lanes| ==> Onward(db.lanes[i], db'.lanes[i])
  }

  lemma OnwardLeavesLess(l: Lane, l': Lane, last: Option<nat>)
    requires Onward(l, l') && (last.Some? ==> last.value < l.next)
    ensures Undelivered(l', last) <= Undelivered(l, last)
    ensures |Undelivered(l', last)| <= |Undelivered(l, last)|
  {
    SubsetSize(Undelivered(l', last), Undelivered(l, last));
  }

  lemma {:induction false} SubsetSize<T>(a: set<T>, b: set<T>)
    requires a <= b
    ensures |a| <= |b|
  {
    assert b == a + (b - a);
  }

  lemma {:induction false} PromoteOnward(l: Lane, due: seq<Id>)
    requires Distinct(due) && forall i :: 0 <= i < |due| ==> due[i] in l.delayed
    ensures Onward(l, Store.Promote(l, due))
    decreases |due|
  {
    if due != [] {
      PromoteOnward(PromoteOne(l, due[0]), due[1..]);
    }
  }

  lemma PurgeOnward(db: Db, lane: nat, ids: seq<Id>, sids: seq<nat>)
    requires lane < |db.lanes| && Distinct(sids)
    requires forall i :: 0 <= i < |sids| ==> sids[i] in db.lanes[lane].stream
    ensures LanesOnward(db, Store.Purge(db, lane, ids, sids))
  {
    PurgeDrops(db, lane, ids, sids);
  }

  lemma AbortOnward(db: Db, id: Id, keep: bool)
    ensures LanesOnward(db, Store.Abort(db, id, keep))
  {
  }

  lemma StageOnward(db: Db, lane: nat, id: Id, p: Payload, score: int, expire: int, now: int, reset: bool)
    requires lane < |db.lanes|
    ensures LanesOnward(db, Stage(db, lane, id, p, score, expire, now, reset))
    ensures LanesOnward(db, Store.Replay(db, lane, id, p, now))
  {
  }

  lemma ClientOnward(reg: Registry, s: Sys, a: Action)
    requires Enabled(s, a)
    requires a.Enqueue? || a.Promote? || a.Replay? || a.Abort? || a.Purge?
    ensures LanesOnward(s.db, Apply(reg, s, a).db)
  {
    match a
    case Enqueue(lane, id, p, score, expire, now, reset) => StageOnward(s.db, lane, id, p, score, expire, now, reset);
    case Replay(lane, id, p, now) => StageOnward(s.db, lane, id, p, 0, 0, now, false);
    case Promote(lane, now, due) => PromoteOnward(s.db.lanes[lane], due);
    case Abort(id, keep) => AbortOnward(s.db, id, keep);
    case Purge(lane, ids, sids) => PurgeOnward(s.db, lane, ids, sids);
  }

  lemma StepOnward(reg: Registry, s: Sys, a: Action)
    requires Enabled(s, a)
    ensures LanesOnward(s.db, Apply(reg, s, a).db)
  {
    if a.Enqueue? || a.Promote? || a.Replay? || a.Abort? || a.Purge? {
      ClientOnward(reg, s, a);
    }
  }

  /** Queue::purge of one lane under way: its locals beside the whole system's state. */
  datatype Call = Call(sys: Sys, left: int, waiting: nat, scheduled: nat, done: bool)

  datatype Event = Between(act: Action) | Chunk(ids: seq<Id>, sids: seq<nat>)

  ghost predicate CanGo(c: Call, lane: nat, last: Option<nat>, e: Event) {
    match e
    case Between(act) => Enabled(c.sys, act)
    case Chunk(ids, sids) =>
      && !c.done && lane < |c.sys.db.lanes|
      && ChunkOf(c.sys.db.lanes[lane], last, CHUNK, Min(c.left, CHUNK), ids, sids)
  }

  ghost function Go(reg: Registry, c: Call, lane: nat, last: Option<nat>, e: Event): Call
    requires CanGo(c, lane, last, e)
  {
    match e
    case Between(act) => c.(sys := Apply(reg, c.sys, act))
    case Chunk(ids, sids) =>
      Call(c.sys.(db := Store.Purge(c.sys.db, lane, ids, sids)), c.left - |ids|, c.waiting + |sids|,
           c.scheduled + |ids|, ids == [] && sids == [])
  }

  ghost predicate CanPurge(reg: Registry, c: Call, lane: nat, last: Option<nat>, events: seq<Event>)
    decreases |events|
  {
    events != [] ==>
      && CanGo(c, lane, last, events[0])
      && CanPurge(reg, Go(reg, c, lane, last, events[0]), lane, last, events[1..])
  }

  ghost function AfterPurge(reg: Registry, c: Call, lane: nat, last: Option<nat>, events: seq<Event>): Call
    requires CanPurge(reg, c, lane, last, events)
    decreases |events|
  {
    if events == [] then c else AfterPurge(reg, Go(reg, c, lane, last, events[0]), lane, last, events[1..])
  }

  function Chunks(events: seq<Event>): nat {
    if events == [] then 0 else (if events[0].Chunk? then 1 else 0) + Chunks(events[1..])
  }

  /** `last` was read from the stream, and `left` from the delayed set, at some time. */
  ghost predicate CallOk(c: Call, lane: nat, last: Option<nat>) {
    && lane < |c.sys.db.lanes| && c.left >= 0
    && (last.Some? ==> last.value < c.sys.db.lanes[lane].next)
  }

  ghost function Measure(c: Call, lane: nat, last: Option<nat>): int
    requires lane < |c.sys.db.lanes|
  {
    |Undelivered(c.sys.db.lanes[lane], last)| + c.left + if c.done then 0 else 1
  }

  lemma ChunkTakes(reg: Registry, c: Call, lane: nat, last: Option<nat>, e: Event)
    requires CallOk(c, lane, last) && e.Chunk? && CanGo(c, lane, last, e)
    ensures var c' := Go(reg, c, lane, last, e);
            && CallOk(c', lane, last) && Measure(c', lane, last) < Measure(c, lane, last)
            && c'.scheduled + c'.left == c.scheduled + c.left
            && c'.waiting + |Undelivered(c'.sys.db.lanes[lane], last)|
            == c.waiting + |Undelivered(c.sys.db.lanes[lane], last)|
  {
    var l := c.sys.db.lanes[lane];
    PurgeDrops(c.sys.db, lane, e.ids, e.sids);
    ChunkIsUndelivered(l, last, CHUNK, e.sids);
    var l' := Go(reg, c, lane, last, e).sys.db.lanes[lane];
    assert Undelivered(l', last) == Undelivered(l, last) - Elements(e.sids);
  }

  lemma BetweenTakesNothing(reg: Registry, c: Call, lane: nat, last: Option<nat>, e: Event)
    requires CallOk(c, lane, last) && e.Between? && CanGo(c, lane, last, e)
    ensures var c' := Go(reg, c, lane, last, e);
            && CallOk(c', lane, last) && Measure(c', lane, last) <= Measure(c, lane, last)
            && c'.scheduled == c.scheduled && c'.left == c.left && c'.waiting == c.waiting
            && |Undelivered(c'.sys.db.lanes[lane], last)| <= |Undelivered(c.sys.db.lanes[lane], last)|
  {
    StepOnward(reg, c.sys, e.act);
    OnwardLeavesLess(c.sys.db.lanes[lane], Apply(reg, c.sys, e.act).db.lanes[lane], last);
  }

  /** A busy producer cannot keep it going: whatever runs between its chunks, the loop makes
      at most one call more than there was to drop when it began, and never drops more
      entries or more delayed tasks than there were then. */
  lemma {:induction false} PurgeEnds(reg: Registry, c: Call, lane: nat, last: Option<nat>, events: seq<Event>)
    requires CallOk(c, lane, last) && CanPurge(reg, c, lane, last, events)
    ensures Chunks(events) <= Measure(c, lane, last)
    ensures AfterPurge(reg, c, lane, last, events).scheduled <= c.scheduled + c.left
    ensures AfterPurge(reg, c, lane, last, events).waiting <= c.waiting + |Undelivered(c.sys.db.lanes[lane], last)|
    decreases |events|
  {
    if events != [] {
      var c' := Go(reg, c, lane, last, events[0]);
      if events[0].Chunk? {
        ChunkTakes(reg, c, lane, last, events[0]);
      } else {
        BetweenTakesNothing(reg, c, lane, last, events[0]);
      }
      PurgeEnds(reg, c', lane, last, events[1..]);
      assert Chunks(events) <= (if events[0].Chunk? then 1 else 0) + Measure(c', lane, last);
    }
  }

  /** A chunk drops no entry newer than `last`, and none that was delivered. */
  lemma ChunkSparesNewWork(reg: Registry, c: Call, lane: nat, last: Option<nat>, e: Event, sid: nat)
    requires CallOk(c, lane, last) && e.Chunk? && CanGo(c, lane, last, e)
    requires sid in c.sys.db.lanes[lane].stream
    requires last.None? || sid > last.value || sid <= c.sys.db.lanes[lane].last
    ensures var l' := Go(reg, c, lane, last, e).sys.db.lanes[lane];
            sid in l'.stream && l'.stream[sid] == c.sys.db.lanes[lane].stream[sid]
  {
    ChunkIsUndelivered(c.sys.db.lanes[lane], last, CHUNK, e.sids);
    PurgeDrops(c.sys.db, lane, e.ids, e.sids);
  }
}
