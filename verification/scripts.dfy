/** The queue's operations on Redis, written as the scripts and pipelines are. */
module Scripts {
  import opened Wrappers
  import opened Store
  import opened RedisStore

  class Redis {
    var lanes: seq<Lane>
    var data: map<Id, Stored>
    var retry: map<Id, int>
    var marks: set<Id>
    var results: map<Id, Result>
    var running: set<Id>
    var dead: map<Id, DeadTask>
    var deadIndex: map<Id, int>

    ghost function State(): Db
      reads this
    {
      Db(lanes, data, retry, marks, results, running, dead, deadIndex)
    }

    constructor (count: nat)
      ensures State() == Db(seq(count, i => Lane(map[], 1, 0, map[], map[])), map[], map[], {}, map[], {}, map[], map[])
    {
      lanes := seq(count, i => Lane(map[], 1, 0, map[], map[]));
      data, retry, marks, results := map[], map[], {}, map[];
      running, dead, deadIndex := {}, map[], map[];
    }

    // ----- enqueueing

    method PublishTask(lane: nat, id: Id, p: Payload, score: int, expire: int, now: int, reset: bool)
      returns (staged: bool)
      requires lane < |lanes|
      modifies this
      ensures State() == Stage(old(State()), lane, id, p, score, expire, now, reset)
      ensures staged == (id !in old(data))
    {
      // SET NX, with PX when there is an expiry
      if id in data {
        return false;
      }
      data := data[id := Stored(p, expire > 0)];
      if reset {
        results := results - {id};
      }
      if score > 0 {
        lanes := lanes[lane := ZAdd(lanes[lane], id, score)];
      } else {
        lanes := lanes[lane := XAdd(lanes[lane], id, now)];
      }
      return true;
    }

    method PublishDelayed(lane: nat, now: int) returns (moved: nat, ghost due: seq<Id>)
      requires lane < |lanes|
      modifies this`lanes
      ensures IsDue(old(lanes[lane]), now, due) && moved == |due|
      ensures (forall i :: 0 <= i < |due| ==> due[i] in old(lanes[lane].delayed))
      ensures State() == SetLane(old(State()), lane, Promote(old(lanes[lane]), due))
    {
      ghost var l := lanes[lane];
      var scores := lanes[lane].delayed;
      var found := ZRangeByScore(scores, now);
      due := found;
      if found == [] {
        assert lanes == lanes[lane := l];
        return 0, due;
      }
      // ZREMRANGEBYSCORE
      lanes := lanes[lane := lanes[lane].(delayed := scores - (set id | id in found))];
      assert lanes[lane] == RemAll(l, found);
      var i := 0;
      while i < |found|
        invariant 0 <= i <= |found| && |lanes| == |old(lanes)|
        invariant lanes == old(lanes)[lane := AddAll(RemAll(l, found), found[..i], scores)]
      {
        AddAllSnoc(RemAll(l, found), found[..i], scores, found[i]);
        assert found[..i + 1] == found[..i] + [found[i]];
        lanes := lanes[lane := XAdd(lanes[lane], found[i], scores[found[i]])];
        i := i + 1;
      }
      assert found[..i] == found;
      PromoteInTwoPasses(l, found);
      return |found|, due;
    }

    // ----- abort, replay, purge

    method AbortTask(id: Id, keep: bool) returns (accepted: bool)
      modifies this
      ensures State() == Abort(old(State()), id, keep)
      ensures accepted <==> id !in old(results) && id in old(data)
      ensures !accepted ==> State() == old(State())
    {
      if id in results || id !in data {
        return false;
      }
      marks := marks + {id};
      if id in running {
        return true;
      }
      var removed, i := 0, 0;
      while i < |lanes|
        invariant 0 <= i <= |lanes| == |old(lanes)|
        invariant lanes[..i] == Unschedule(old(lanes), id)[..i] && lanes[i..] == old(lanes[i..])
        invariant removed >= 0
        invariant removed > 0 <==> exists j :: 0 <= j < i && id in old(lanes)[j].delayed
        modifies this`lanes
      {
        if id in lanes[i].delayed {
          removed := removed + 1;
        }
        lanes := lanes[i := ZRem(lanes[i], id)];
        i := i + 1;
      }
      if removed == 0 {
        UnscheduleNone(old(lanes), id);
        assert lanes == old(lanes);
        return true;
      }
      data, marks, retry := data - {id}, marks - {id}, retry - {id};
      if keep {
        results := results[id := Result(Aborted, 0)];
      }
      assert marks == old(marks) - {id};
      return true;
    }

    method ReplayDead(lane: nat, id: Id, p: Payload, now: int) returns (replayed: bool)
      requires lane < |lanes|
      modifies this
      ensures State() == Replay(old(State()), lane, id, p, now)
      ensures replayed == (id in old(dead))
    {
      if id !in dead {
        return false;
      }
      dead := dead - {id};
      deadIndex := deadIndex - {id};
      // SET NX: whoever made the call again has queued it.
      if id in data {
        return true;
      }
      data := data[id := Stored(p, false)];
      results := results - {id};
      lanes := lanes[lane := XAdd(lanes[lane], id, now)];
      return true;
    }

    /** One chunk: of the delayed set the `take` lowest, and of the stream the first
        `chunk` entries after the group's last-delivered id, up to `last`. */
    method PurgeLane(lane: nat, last: Option<nat>, chunk: nat, take: int)
      returns (waiting: nat, scheduled: nat, ghost ids: seq<Id>, ghost sids: seq<nat>)
      requires lane < |lanes|
      modifies this`lanes, this`data, this`retry, this`marks
      ensures waiting == |sids| && scheduled == |ids|
      ensures ChunkOf(old(lanes[lane]), last, chunk, take, ids, sids)
      ensures State() == Purge(old(State()), lane, ids, sids)
    {
      ghost var before := State();
      scheduled, ids := PurgeLowest(lane, take);
      PurgeInTwoParts(before, lane, ids, []);
      waiting, sids := PurgeUndelivered(lane, last, chunk);
      PurgeInTwoParts(before, lane, ids, sids);
    }

    method PurgeLowest(lane: nat, take: int) returns (scheduled: nat, ghost ids: seq<Id>)
      requires lane < |lanes|
      modifies this`lanes, this`data, this`retry, this`marks
      ensures scheduled == |ids| && IsLowest(old(lanes[lane].delayed), take, ids)
      ensures State() == Purge(old(State()), lane, ids, [])
      ensures lanes[lane] == RemAll(old(lanes[lane]), ids)
    {
      ghost var before := State();
      var found: seq<Id> := [];
      if take > 0 {
        found := ZRange(lanes[lane].delayed, take);
      }
      PurgeScheduledTogether(before, lane, found);
      ForgetEach(found);
      // ZREM
      lanes := lanes[lane := lanes[lane].(delayed := lanes[lane].delayed - (set id | id in found))];
      return |found|, found;
    }

    method PurgeUndelivered(lane: nat, last: Option<nat>, chunk: nat) returns (waiting: nat, ghost sids: seq<nat>)
      requires lane < |lanes|
      modifies this`lanes, this`data, this`retry, this`marks
      ensures waiting == |sids| && IsChunk(old(lanes[lane]), last, chunk, sids)
      ensures State() == Purge(old(State()), lane, [], sids)
    {
      ghost var before := State();
      var entries := Waiting(lanes[lane], last);
      entries := entries[..Min(chunk, |entries|)];
      WaitingChunk(lanes[lane], last, chunk);
      PurgeWaitingTogether(before, lane, entries);
      ForgetEach(IdsOf(lanes[lane], entries));
      // XDEL
      lanes := lanes[lane := lanes[lane].(stream := lanes[lane].stream - (set sid | sid in entries))];
      return |entries|, entries;
    }

    method ForgetEach(ids: seq<Id>)
      modifies this`data, this`retry, this`marks
      ensures State() == ForgetAll(old(State()), Elements(ids))
    {
      var i := 0;
      while i < |ids|
        invariant 0 <= i <= |ids|
        invariant State() == ForgetAll(old(State()), Elements(ids[..i]))
      {
        ghost var more := Elements(ids[..i]);
        assert Elements(ids[..i + 1]) == more + {ids[i]};
        data, retry, marks := data - {ids[i]}, retry - {ids[i]}, marks - {ids[i]};
        assert old(data) - more - {ids[i]} == old(data) - (more + {ids[i]});
        assert old(retry) - more - {ids[i]} == old(retry) - (more + {ids[i]});
        i := i + 1;
      }
      assert ids[..i] == ids;
    }

    // ----- a worker's commands

    /** XREADGROUP ... COUNT count ... >: the oldest unread entries of one lane. */
    method ReadNew(w: Worker, lane: nat, count: int) returns (msgs: seq<Msg>)
      requires lane < |lanes| && count > 0
      modifies this`lanes
      ensures var l := old(lanes[lane]);
              && InOrder(l.stream, l.last + 1, l.next, Unread(l))
              && var sids := Unread(l)[..Min(count, |Unread(l)|)];
                 lanes == old(lanes)[lane := DeliverAll(l, sids, w)] && msgs == MsgsAt(l, lane, sids)
    {
      ghost var l := lanes[lane];
      EntriesInOrder(l.stream, l.last + 1, l.next);
      var sids := Unread(lanes[lane]);
      sids := sids[..Min(count, |sids|)];
      msgs := MsgsAt(lanes[lane], lane, sids);
      var i := 0;
      while i < |sids|
        invariant 0 <= i <= |sids| && |lanes| == |old(lanes)|
        invariant lanes == old(lanes)[lane := lanes[lane]]
        invariant DeliverAll(lanes[lane], sids[i..], w) == DeliverAll(l, sids, w)
      {
        DeliverNext(lanes[lane], sids, i, w);
        lanes := lanes[lane := Deliver(lanes[lane], sids[i], w)];
        i := i + 1;
      }
    }

    /** XAUTOCLAIM ... COUNT count: `idle` is what Redis finds past the idle timeout. */
    method Claim(w: Worker, lane: nat, count: int, idle: seq<nat>) returns (msgs: seq<Msg>)
      requires lane < |lanes| && count > 0
      requires forall i :: 0 <= i < |idle| ==> idle[i] in lanes[lane].stream
      modifies this`lanes
      ensures var l, sids := old(lanes[lane]), idle[..Min(count, |idle|)];
              lanes == old(lanes)[lane := ReassignAll(l, sids, w)] && msgs == MsgsAt(l, lane, sids)
    {
      ghost var l := lanes[lane];
      var sids := idle[..Min(count, |idle|)];
      msgs := MsgsAt(lanes[lane], lane, sids);
      var i := 0;
      while i < |sids|
        invariant 0 <= i <= |sids| && |lanes| == |old(lanes)|
        invariant lanes == old(lanes)[lane := lanes[lane]]
        invariant ReassignAll(lanes[lane], sids[i..], w) == ReassignAll(l, sids, w)
      {
        DeliverNext(lanes[lane], sids, i, w);
        lanes := lanes[lane := Reassign(lanes[lane], sids[i], w)];
        i := i + 1;
      }
    }

    method IncrRetry(id: Id) returns (tries: int)
      modifies this`retry
      ensures tries == (if id in old(retry) then old(retry)[id] else 0) + 1
      ensures retry == old(retry)[id := tries]
    {
      tries := (if id in retry then retry[id] else 0) + 1;
      retry := retry[id := tries];
    }

    method MarkRunning(id: Id)
      modifies this`running
      ensures running == old(running) + {id}
    {
      running := running + {id};
    }

    method FetchPayload(id: Id) returns (payload: Option<Payload>, aborted: bool)
      ensures payload == if id in data then Some(data[id].payload) else None
      ensures aborted == (id in marks)
    {
      payload := if id in data then Some(data[id].payload) else None;
      aborted := id in marks;
    }

    method CompleteTask(m: Msg, r: Result, keep: bool, deadPayload: Option<Payload>, now: int)
      requires m.lane < |lanes|
      modifies this
      ensures State() == Complete(old(State()), m, r, keep, deadPayload, now)
    {
      lanes := lanes[m.lane := XDrop(lanes[m.lane], m.sid)];
      running := running - {m.id};
      retry, data, marks := retry - {m.id}, data - {m.id}, marks - {m.id};
      if keep {
        results := results[m.id := r];
      }
      if deadPayload.Some? {
        dead := dead[m.id := DeadTask(deadPayload.value, r, m.lane)];
        deadIndex := deadIndex[m.id := now];
      }
    }

    method RetryTaskLater(m: Msg, fireAt: int)
      requires m.lane < |lanes|
      modifies this`lanes, this`running
      ensures State() == RetryLater(old(State()), m, fireAt)
    {
      lanes := lanes[m.lane := XDrop(lanes[m.lane], m.sid)];
      running := running - {m.id};
      lanes := lanes[m.lane := ZAdd(lanes[m.lane], m.id, fireAt)];
    }

    method DiscardMsg(m: Msg)
      requires m.lane < |lanes|
      modifies this`lanes, this`running, this`retry, this`marks
      ensures State() == Discard(old(State()), m)
    {
      lanes := lanes[m.lane := XDrop(lanes[m.lane], m.sid)];
      running := running - {m.id};
      retry, marks := retry - {m.id}, marks - {m.id};
    }

    method Release(msgs: seq<Msg>)
      requires forall i :: 0 <= i < |msgs| ==> msgs[i].lane < |lanes|
      modifies this`lanes
      ensures State() == ReleaseAll(old(State()), msgs)
    {
      var i := 0;
      while i < |msgs|
        invariant 0 <= i <= |msgs| && |lanes| == |old(lanes)|
        invariant ReleaseAll(State(), msgs[i..]) == ReleaseAll(old(State()), msgs)
      {
        var m := msgs[i];
        ghost var before := State();
        lanes := lanes[m.lane := XAdd(lanes[m.lane], m.id, m.time)];
        lanes := lanes[m.lane := XDrop(lanes[m.lane], m.sid)];
        assert State() == ReleaseOne(before, m);
        assert msgs[i..][1..] == msgs[i + 1..];
        i := i + 1;
      }
    }
  }

  function Waiting(l: Lane, last: Option<nat>): seq<nat> {
    if last.None? then [] else Entries(l.stream, l.last + 1, last.value + 1)
  }

  ghost predicate IsChunk(l: Lane, last: Option<nat>, chunk: nat, sids: seq<nat>) {
    && sids == Waiting(l, last)[..Min(chunk, |Waiting(l, last)|)]
    && Distinct(sids) && (forall i :: 0 <= i < |sids| ==> sids[i] in l.stream && sids[i] > l.last)
  }

  lemma WaitingChunk(l: Lane, last: Option<nat>, chunk: nat)
    ensures IsChunk(l, last, chunk, Waiting(l, last)[..Min(chunk, |Waiting(l, last)|)])
  {
    if last.Some? {
      EntriesInOrder(l.stream, l.last + 1, last.value + 1);
    }
  }

  ghost predicate ChunkOf(l: Lane, last: Option<nat>, chunk: nat, take: int, ids: seq<Id>, sids: seq<nat>) {
    IsLowest(l.delayed, take, ids) && IsChunk(l, last, chunk, sids)
  }

  ghost function ReleaseAll(db: Db, msgs: seq<Msg>): Db
    requires forall i :: 0 <= i < |msgs| ==> msgs[i].lane < |db.lanes|
    decreases |msgs|
  {
    if msgs == [] then db else ReleaseAll(ReleaseOne(db, msgs[0]), msgs[1..])
  }
}
