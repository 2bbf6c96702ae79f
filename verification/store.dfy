/** What Redis holds for one queue, and what each script and pipeline does to it.

    Lanes are numbered in read order, highest first. Stream ids are positions, unique
    within a lane and never reused. A key with a TTL may vanish at any moment, so TTLs are
    not counted here: `protocol.dfy` has a step for each expiry. */
module Store {
  import opened Wrappers

  type Id = string
  type Worker = string

  /** What the enqueuer packed: the function's name and its arguments. */
  datatype Payload = Payload(name: string, args: string)

  /** The payload key; `volatile` when it was set with an expiry. */
  datatype Stored = Stored(payload: Payload, volatile: bool)

  datatype Outcome = Success | Failure | Dead | Retry(delayMs: int) | Aborted

  /** A stored result: how the task ended and on which try. */
  datatype Result = Result(outcome: Outcome, tries: int)

  datatype DeadTask = DeadTask(payload: Payload, result: Result, lane: nat)

  datatype Item = Item(id: Id, time: int)

  /** A delivered entry as a worker holds it. */
  datatype Msg = Msg(lane: nat, sid: nat, id: Id, time: int)

  datatype Lane = Lane(
    stream: map<nat, Item>,   // live entries by stream id
    next: nat,                // the next stream id
    last: nat,                // last-delivered-id of the group
    pending: map<nat, Worker>,// delivered and not acknowledged, with its holder
    delayed: map<Id, int>)    // fire times

  datatype Db = Db(
    lanes: seq<Lane>,
    data: map<Id, Stored>,
    retry: map<Id, int>,
    marks: set<Id>,           // abort markers
    results: map<Id, Result>,
    running: set<Id>,
    dead: map<Id, DeadTask>,
    deadIndex: map<Id, int>)

  // ----- single commands on a lane

  function XAdd(l: Lane, id: Id, time: int): Lane {
    l.(stream := l.stream[l.next := Item(id, time)], next := l.next + 1)
  }

  /** XACK and XDEL of one entry. */
  function XDrop(l: Lane, sid: nat): Lane {
    l.(stream := l.stream - {sid}, pending := l.pending - {sid})
  }

  function ZAdd(l: Lane, id: Id, score: int): Lane {
    l.(delayed := l.delayed[id := score])
  }

  function ZRem(l: Lane, id: Id): Lane {
    l.(delayed := l.delayed - {id})
  }

  /** `sid` is the oldest entry the group has not been given yet. */
  ghost predicate IsHead(l: Lane, sid: nat) {
    && sid in l.stream && sid > l.last
    && forall s :: s in l.stream && s > l.last ==> sid <= s
  }

  ghost predicate Drained(l: Lane) {
    forall s :: s in l.stream ==> s <= l.last
  }

  /** XREADGROUP of one entry, the oldest, and XCLAIM of one already delivered. */
  function Deliver(l: Lane, sid: nat, w: Worker): Lane {
    l.(last := sid, pending := l.pending[sid := w])
  }

  function Reassign(l: Lane, sid: nat, w: Worker): Lane {
    l.(pending := l.pending[sid := w])
  }

  // ----- scripts and pipelines

  function SetLane(db: Db, i: nat, l: Lane): Db
    requires i < |db.lanes|
  {
    db.(lanes := db.lanes[i := l])
  }

  /** publish_task.lua */
  function Stage(db: Db, lane: nat, id: Id, p: Payload, score: int, expire: int, now: int, reset: bool): Db
    requires lane < |db.lanes|
  {
    if id in db.data then db
    else
      var db1 := db.(data := db.data[id := Stored(p, expire > 0)],
                     results := if reset then db.results - {id} else db.results);
      var l := db.lanes[lane];
      SetLane(db1, lane, if score > 0 then ZAdd(l, id, score) else XAdd(l, id, now))
  }

  /** One due task moved from the delayed set to the stream; publish_delayed.lua moves a
      whole list of them. */
  function PromoteOne(l: Lane, id: Id): Lane
    requires id in l.delayed
  {
    XAdd(ZRem(l, id), id, l.delayed[id])
  }

  ghost predicate Distinct<T>(ids: seq<T>) {
    forall i, j :: 0 <= i < j < |ids| ==> ids[i] != ids[j]
  }

  ghost function Promote(l: Lane, due: seq<Id>): Lane
    requires Distinct(due) && forall i :: 0 <= i < |due| ==> due[i] in l.delayed
    decreases |due|
  {
    if due == [] then l else Promote(PromoteOne(l, due[0]), due[1..])
  }

  /** What ZRANGE 0 now BYSCORE lists: every task due by `now`, earliest first. */
  ghost predicate IsDue(l: Lane, now: int, due: seq<Id>) {
    && Distinct(due)
    && (forall id :: id in due <==> id in l.delayed && 0 <= l.delayed[id] <= now)
    && (forall i, j :: 0 <= i < j < |due| ==> l.delayed[due[i]] <= l.delayed[due[j]])
  }

  /** abort_task.lua; `keep` says the result TTL asks for the result to be stored. */
  function Abort(db: Db, id: Id, keep: bool): Db {
    if id in db.results || id !in db.data then db
    else
      var marked := db.(marks := db.marks + {id});
      if id in db.running || !Scheduled(db, id) then marked
      else db.(lanes := Unschedule(db.lanes, id),
               data := db.data - {id}, marks := db.marks - {id}, retry := db.retry - {id},
               results := if keep then db.results[id := Result(Aborted, 0)] else db.results)
  }

  predicate AbortAccepted(db: Db, id: Id) {
    id !in db.results && id in db.data
  }

  predicate Scheduled(db: Db, id: Id) {
    exists i :: 0 <= i < |db.lanes| && id in db.lanes[i].delayed
  }

  function Unschedule(lanes: seq<Lane>, id: Id): (r: seq<Lane>)
    ensures |r| == |lanes|
  {
    seq(|lanes|, i requires 0 <= i < |lanes| => ZRem(lanes[i], id))
  }

  /** Queue::complete */
  function Complete(db: Db, m: Msg, r: Result, keep: bool, dead: Option<Payload>, now: int): Db
    requires m.lane < |db.lanes|
  {
    SetLane(db, m.lane, XDrop(db.lanes[m.lane], m.sid)).(
      running := db.running - {m.id},
      retry := db.retry - {m.id},
      data := db.data - {m.id},
      marks := db.marks - {m.id},
      results := if keep then db.results[m.id := r] else db.results,
      dead := if dead.Some? then db.dead[m.id := DeadTask(dead.value, r, m.lane)] else db.dead,
      deadIndex := if dead.Some? then db.deadIndex[m.id := now] else db.deadIndex)
  }

  /** Queue::retry_later */
  function RetryLater(db: Db, m: Msg, fireAt: int): Db
    requires m.lane < |db.lanes|
  {
    SetLane(db, m.lane, ZAdd(XDrop(db.lanes[m.lane], m.sid), m.id, fireAt)).(running := db.running - {m.id})
  }

  /** Queue::discard */
  function Discard(db: Db, m: Msg): Db
    requires m.lane < |db.lanes|
  {
    SetLane(db, m.lane, XDrop(db.lanes[m.lane], m.sid)).(
      running := db.running - {m.id}, retry := db.retry - {m.id}, marks := db.marks - {m.id})
  }

  /** Queue::release of one message */
  function ReleaseOne(db: Db, m: Msg): Db
    requires m.lane < |db.lanes|
  {
    SetLane(db, m.lane, XDrop(XAdd(db.lanes[m.lane], m.id, m.time), m.sid))
  }

  /** replay_dead.lua */
  function Replay(db: Db, lane: nat, id: Id, p: Payload, now: int): Db
    requires lane < |db.lanes|
  {
    if id !in db.dead then db
    else
      var db1 := db.(dead := db.dead - {id}, deadIndex := db.deadIndex - {id});
      if id in db.data then db1
      else SetLane(db1, lane, XAdd(db.lanes[lane], id, now)).(
             data := db.data[id := Stored(p, false)], results := db.results - {id})
  }

  /** Queue::dead_delete */
  function DeleteDead(db: Db, id: Id): Db {
    db.(dead := db.dead - {id}, deadIndex := db.deadIndex - {id})
  }

  /** `forget` in purge_lane.lua, with the removal that goes with it. */
  function Forget(db: Db, id: Id): Db {
    db.(data := db.data - {id}, retry := db.retry - {id}, marks := db.marks - {id})
  }

  function DropScheduled(db: Db, lane: nat, id: Id): Db
    requires lane < |db.lanes|
  {
    SetLane(Forget(db, id), lane, ZRem(db.lanes[lane], id))
  }

  function DropWaiting(db: Db, lane: nat, sid: nat): Db
    requires lane < |db.lanes| && sid in db.lanes[lane].stream
  {
    SetLane(Forget(db, db.lanes[lane].stream[sid].id), lane,
            db.lanes[lane].(stream := db.lanes[lane].stream - {sid}))
  }

  /** The effect of one purge_lane.lua call that takes `ids` from the delayed set and the
      entries `sids` from the stream. */
  ghost function Purge(db: Db, lane: nat, ids: seq<Id>, sids: seq<nat>): (r: Db)
    requires lane < |db.lanes|
    requires Distinct(sids) && forall i :: 0 <= i < |sids| ==> sids[i] in db.lanes[lane].stream
    ensures |r.lanes| == |db.lanes|
    decreases |ids|, |sids|
  {
    if ids != [] then Purge(DropScheduled(db, lane, ids[0]), lane, ids[1..], sids)
    else if sids != [] then Purge(DropWaiting(db, lane, sids[0]), lane, [], sids[1..])
    else db
  }
}
