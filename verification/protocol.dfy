/** The task protocol as a state machine.

    Every script and every atomic pipeline is one step. What a worker does between two
    awaits is one step too, so each message it holds carries its own program counter: any
    number of workers, each holding any number of messages, interleave freely. Crashes,
    reclaims, lost connections and key expiries are steps like the rest. */
module Protocol {
  import opened Wrappers
  import opened Store

  /** How far a worker has taken a message. */
  datatype Pc =
    | Prefetched
    | Counted(tries: int)
    | Marked(tries: int)
    | Fetched(tries: int, payload: Payload, aborted: bool)
    | Missing // the payload was gone: the message is about to be discarded
    | Executed(tries: int, payload: Payload, outcome: Outcome)

  datatype Attempt = Attempt(msg: Msg, worker: Worker, pc: Pc)

  /** What happened when the executor was called: the callback itself broke, or the body
      returned, raised (a Retry may ask for a delay) or was cancelled. */
  datatype Body = Broken | Returned | Raised(asked: Option<int>) | Cancelled

  datatype Registered = Registered(maxRetries: int, backoffMs: int)
  type Registry = map<string, Registered>

  /** `_execute_task`: how an attempt ends. */
  function Decide(reg: Registry, p: Payload, tries: int, aborted: bool, body: Body): Outcome {
    if body.Broken? then Failure
    else if aborted then Aborted
    else if p.name !in reg then Dead
    else match body
      case Returned => Success
      case Cancelled => Aborted
      case Raised(asked) =>
        var r := reg[p.name];
        if tries > r.maxRetries then Dead
        else Retry(if asked.Some? then asked.value else r.backoffMs)
  }

  /** When a retry fires: the delay asked for, or the square of the try in seconds. */
  function FireAt(now: int, tries: int, delayMs: int): int {
    now + if delayMs > 0 then delayMs else tries * tries * 1000
  }

  lemma FireAtNat(now: nat, tries: int, delayMs: int)
    ensures FireAt(now, tries, delayMs) >= 0
  {
    assert tries * tries >= 0;
  }

  /** `att` holds every message in a worker's hands, under a token of its own: after a
      reclaim two attempts can hold the same message. The rest is history: the tries handed
      to the executor since the id was last staged, how often it was staged, and how often
      it entered the dead letter queue and left it. */
  datatype Sys = Sys(
    db: Db,
    att: map<nat, Attempt>,
    nextTok: nat,
    log: map<Id, seq<int>>,
    staged: multiset<Id>,
    died: multiset<Id>,
    left: multiset<Id>)

  datatype Action =
    | Enqueue(lane: nat, id: Id, payload: Payload, score: int, expire: int, now: int, reset: bool)
    | Promote(lane: nat, now: int, due: seq<Id>)
    | Read(worker: Worker, lane: nat, sid: nat)
    | Reclaim(worker: Worker, lane: nat, sid: nat)
    | Renew(tok: nat)
    | Incr(tok: nat)
    | Mark(tok: nat, ok: bool)
    | Fetch(tok: nat)
    | Execute(tok: nat, body: Body)
    | Finish(tok: nat, keep: bool, now: int)
    | Release(tok: nat)
    | Abandon(tok: nat)
    | Crash(worker: Worker)
    | Abort(id: Id, keep: bool)
    | Purge(lane: nat, ids: seq<Id>, sids: seq<nat>)
    | Replay(lane: nat, id: Id, payload: Payload, now: int)
    | DeleteDead(id: Id)
    | ExpireData(id: Id)
    | ExpireMark(id: Id)
    | ExpireResult(id: Id)

  ghost predicate HasTok(s: Sys, tok: nat) {
    tok in s.att && s.att[tok].msg.lane < |s.db.lanes|
  }

  ghost predicate Enabled(s: Sys, a: Action) {
    match a
    case Enqueue(lane, _, _, _, _, _, _) => lane < |s.db.lanes|
    case Promote(lane, now, due) => lane < |s.db.lanes| && IsDue(s.db.lanes[lane], now, due)
    case Read(_, lane, sid) => lane < |s.db.lanes| && IsHead(s.db.lanes[lane], sid)
    case Reclaim(_, lane, sid) =>
      lane < |s.db.lanes| && sid in s.db.lanes[lane].pending && sid in s.db.lanes[lane].stream
    // The heartbeat renews what is running, not what is only prefetched.
    case Renew(tok) => HasTok(s, tok) && !s.att[tok].pc.Prefetched?
    case Incr(tok) => HasTok(s, tok) && s.att[tok].pc.Prefetched?
    case Mark(tok, _) => HasTok(s, tok) && s.att[tok].pc.Counted?
    case Fetch(tok) => HasTok(s, tok) && s.att[tok].pc.Marked?
    case Execute(tok, _) => HasTok(s, tok) && s.att[tok].pc.Fetched?
    case Finish(tok, _, now) => now >= 0 && HasTok(s, tok) && (s.att[tok].pc.Executed? || s.att[tok].pc.Missing?)
    case Release(tok) => HasTok(s, tok) && s.att[tok].pc.Prefetched?
    case Abandon(tok) => HasTok(s, tok)
    case Purge(lane, ids, sids) =>
      && lane < |s.db.lanes| && Distinct(ids) && Distinct(sids)
      && (forall i :: 0 <= i < |ids| ==> ids[i] in s.db.lanes[lane].delayed)
      && (forall i :: 0 <= i < |sids| ==> sids[i] in s.db.lanes[lane].stream && sids[i] > s.db.lanes[lane].last)
    case Replay(lane, _, _, _) => lane < |s.db.lanes|
    case ExpireData(id) => id in s.db.data && s.db.data[id].volatile
    case _ => true
  }

  function Move(s: Sys, tok: nat, pc: Pc): Sys
    requires tok in s.att
  {
    s.(att := s.att[tok := s.att[tok].(pc := pc)])
  }

  function Let(s: Sys, tok: nat): Sys {
    s.(att := s.att - {tok})
  }

  function Put(s: Sys, lane: nat, l: Lane): Sys
    requires lane < |s.db.lanes|
  {
    s.(db := SetLane(s.db, lane, l))
  }

  // ----- the steps

  /** History after `id` is staged: a new run of it starts. */
  function Restarted(s: Sys, id: Id): Sys {
    s.(log := s.log[id := []], staged := s.staged + multiset{id})
  }

  function Enqueued(s: Sys, lane: nat, id: Id, p: Payload, score: int, expire: int, now: int, reset: bool): Sys
    requires lane < |s.db.lanes|
  {
    if id in s.db.data then s
    else Restarted(s, id).(db := Stage(s.db, lane, id, p, score, expire, now, reset))
  }

  ghost function Promoted(s: Sys, lane: nat, due: seq<Id>): Sys
    requires lane < |s.db.lanes| && Distinct(due)
    requires forall i :: 0 <= i < |due| ==> due[i] in s.db.lanes[lane].delayed
  {
    Put(s, lane, Store.Promote(s.db.lanes[lane], due))
  }

  /** A message reaches a worker, by a first read or by a reclaim. */
  function Taken(s: Sys, w: Worker, lane: nat, sid: nat, l: Lane): Sys
    requires lane < |s.db.lanes| && sid in s.db.lanes[lane].stream
  {
    var item := s.db.lanes[lane].stream[sid];
    Put(s, lane, l).(
      att := s.att[s.nextTok := Attempt(Msg(lane, sid, item.id, item.time), w, Prefetched)],
      nextTok := s.nextTok + 1)
  }

  function Renewed(s: Sys, tok: nat): Sys
    requires HasTok(s, tok)
  {
    var m := s.att[tok].msg;
    var l := s.db.lanes[m.lane];
    if m.sid in l.pending then Put(s, m.lane, Reassign(l, m.sid, s.att[tok].worker)) else s
  }

  function RetryOf(db: Db, id: Id): int {
    if id in db.retry then db.retry[id] else 0
  }

  function Incremented(s: Sys, tok: nat): Sys
    requires tok in s.att
  {
    var id := s.att[tok].msg.id;
    var n := RetryOf(s.db, id) + 1;
    Move(s, tok, Counted(n)).(db := s.db.(retry := s.db.retry[id := n]))
  }

  function MarkedRunning(s: Sys, tok: nat, ok: bool): Sys
    requires tok in s.att && s.att[tok].pc.Counted?
  {
    Move(s, tok, Marked(s.att[tok].pc.tries)).(
      db := if ok then s.db.(running := s.db.running + {s.att[tok].msg.id}) else s.db)
  }

  function PayloadFetched(s: Sys, tok: nat): Sys
    requires tok in s.att && s.att[tok].pc.Marked?
  {
    var id := s.att[tok].msg.id;
    Move(s, tok,
         if id in s.db.data then Fetched(s.att[tok].pc.tries, s.db.data[id].payload, id in s.db.marks)
         else Missing)
  }

  function LogOf(s: Sys, id: Id): seq<int> {
    if id in s.log then s.log[id] else []
  }

  function Ran(reg: Registry, s: Sys, tok: nat, body: Body): Sys
    requires tok in s.att && s.att[tok].pc.Fetched?
  {
    var id, pc := s.att[tok].msg.id, s.att[tok].pc;
    Move(s, tok, Executed(pc.tries, pc.payload, Decide(reg, pc.payload, pc.tries, pc.aborted, body))).(
      log := s.log[id := LogOf(s, id) + [pc.tries]])
  }

  function Discarded(s: Sys, tok: nat): Sys
    requires HasTok(s, tok)
  {
    Let(s, tok).(db := Discard(s.db, s.att[tok].msg))
  }

  function Retried(s: Sys, tok: nat, now: int): Sys
    requires HasTok(s, tok) && s.att[tok].pc.Executed? && s.att[tok].pc.outcome.Retry?
  {
    var pc := s.att[tok].pc;
    Let(s, tok).(db := RetryLater(s.db, s.att[tok].msg, FireAt(now, pc.tries, pc.outcome.delayMs)))
  }

  function Completed(s: Sys, tok: nat, keep: bool, now: int): Sys
    requires HasTok(s, tok) && s.att[tok].pc.Executed?
  {
    var m, pc := s.att[tok].msg, s.att[tok].pc;
    var dead := if pc.outcome.Dead? then Some(pc.payload) else None;
    Let(s, tok).(db := Complete(s.db, m, Result(pc.outcome, pc.tries), keep, dead, now),
                 died := if pc.outcome.Dead? then s.died + multiset{m.id} else s.died)
  }

  function Released(s: Sys, tok: nat): Sys
    requires HasTok(s, tok)
  {
    Let(s, tok).(db := ReleaseOne(s.db, s.att[tok].msg))
  }

  function Crashed(s: Sys, w: Worker): Sys {
    s.(att := map tok | tok in s.att && s.att[tok].worker != w :: s.att[tok])
  }

  function Replayed(s: Sys, lane: nat, id: Id, p: Payload, now: int): Sys
    requires lane < |s.db.lanes|
  {
    if id !in s.db.dead then s
    else
      var s1 := s.(db := Store.Replay(s.db, lane, id, p, now), left := s.left + multiset{id});
      if id in s.db.data then s1 else Restarted(s1, id)
  }

  function DeadDeleted(s: Sys, id: Id): Sys {
    s.(db := Store.DeleteDead(s.db, id),
       left := if id in s.db.dead then s.left + multiset{id} else s.left)
  }

  ghost function Apply(reg: Registry, s: Sys, a: Action): Sys
    requires Enabled(s, a)
  {
    match a
    case Enqueue(lane, id, p, score, expire, now, reset) => Enqueued(s, lane, id, p, score, expire, now, reset)
    case Promote(lane, now, due) => Promoted(s, lane, due)
    case Read(w, lane, sid) => Taken(s, w, lane, sid, Deliver(s.db.lanes[lane], sid, w))
    case Reclaim(w, lane, sid) => Taken(s, w, lane, sid, Reassign(s.db.lanes[lane], sid, w))
    case Renew(tok) => Renewed(s, tok)
    case Incr(tok) => Incremented(s, tok)
    case Mark(tok, ok) => MarkedRunning(s, tok, ok)
    case Fetch(tok) => PayloadFetched(s, tok)
    case Execute(tok, body) => Ran(reg, s, tok, body)
    case Finish(tok, keep, now) =>
      if s.att[tok].pc.Missing? then Discarded(s, tok)
      else if s.att[tok].pc.outcome.Retry? then Retried(s, tok, now)
      else Completed(s, tok, keep, now)
    case Release(tok) => Released(s, tok)
    case Abandon(tok) => Let(s, tok)
    case Crash(w) => Crashed(s, w)
    case Abort(id, keep) => s.(db := Store.Abort(s.db, id, keep))
    case Purge(lane, ids, sids) => s.(db := Store.Purge(s.db, lane, ids, sids))
    case Replay(lane, id, p, now) => Replayed(s, lane, id, p, now)
    case DeleteDead(id) => DeadDeleted(s, id)
    case ExpireData(id) => s.(db := s.db.(data := s.db.data - {id}))
    case ExpireMark(id) => s.(db := s.db.(marks := s.db.marks - {id}))
    case ExpireResult(id) => s.(db := s.db.(results := s.db.results - {id}))
  }

  function EmptyLane(): Lane {
    Lane(map[], 1, 0, map[], map[])
  }

  function Initial(lanes: nat): Sys {
    Sys(Db(seq(lanes, i => EmptyLane()), map[], map[], {}, map[], {}, map[], map[]),
        map[], 0, map[], multiset{}, multiset{}, multiset{})
  }

  /** Runs: actions taken one after another, each enabled when it is taken. */
  ghost predicate CanRun(reg: Registry, s: Sys, acts: seq<Action>)
    decreases |acts|
  {
    acts != [] ==> Enabled(s, acts[0]) && CanRun(reg, Apply(reg, s, acts[0]), acts[1..])
  }

  ghost function Run(reg: Registry, s: Sys, acts: seq<Action>): Sys
    requires CanRun(reg, s, acts)
    decreases |acts|
  {
    if acts == [] then s else Run(reg, Apply(reg, s, acts[0]), acts[1..])
  }
}
