/** What `Queue` does in one call is a run of the protocol's steps, so what is proved of every
    run covers it: enqueueing a batch, and taking one message from prefetched to finished. */
module Links {
  import opened Wrappers
  import opened Store
  import opened Protocol
  import opened Batch
  import opened Scripts
  import Runs = Progress

  function EnqueueOf(t: Batch.Task, now: int): Action {
    Enqueue(t.lane, t.id, t.payload, t.score, t.expire, now, t.reset)
  }

  function EnqueuesOf(tasks: seq<Batch.Task>, now: int): (acts: seq<Action>)
    ensures |acts| == |tasks|
  {
    seq(|tasks|, i requires 0 <= i < |tasks| => EnqueueOf(tasks[i], now))
  }

  /** A batch leaves what a run of single enqueues leaves. */
  lemma {:induction false} BatchIsEnqueues(reg: Registry, s: Sys, tasks: seq<Batch.Task>, now: int)
    requires InLanes(tasks, |s.db.lanes|)
    ensures CanRun(reg, s, EnqueuesOf(tasks, now))
    ensures Run(reg, s, EnqueuesOf(tasks, now)).db == StageAll(s.db, tasks, now)
    decreases |tasks|
  {
    if tasks != [] {
      var acts := EnqueuesOf(tasks, now);
      assert acts[1..] == EnqueuesOf(tasks[1..], now);
      assert acts[0] == EnqueueOf(tasks[0], now);
      BatchIsEnqueues(reg, Apply(reg, s, acts[0]), tasks[1..], now);
    }
  }

  // ----- one message, from prefetched to finished

  lemma Then(reg: Registry, s: Sys, acts: seq<Action>, a: Action)
    requires CanRun(reg, s, acts) && Enabled(Run(reg, s, acts), a)
    ensures CanRun(reg, s, acts + [a])
    ensures Run(reg, s, acts + [a]) == Apply(reg, Run(reg, s, acts), a)
  {
    Runs.OneStep(reg, Run(reg, s, acts), a);
    Runs.JoinRuns(reg, s, acts, [a]);
  }

  ghost function PickedUp(s: Sys, tok: nat): Sys
    requires HasTok(s, tok) && s.att[tok].pc.Prefetched?
  {
    PayloadFetched(MarkedRunning(Incremented(s, tok), tok, true), tok)
  }

  /** `incr_retry`, `mark_running` and `fetch_payload`. */
  method PickUp(redis: Redis, m: Msg, ghost s: Sys, ghost tok: nat)
    returns (tries: int, payload: Option<Payload>, aborted: bool)
    requires redis.State() == s.db && HasTok(s, tok) && s.att[tok].msg == m && s.att[tok].pc.Prefetched?
    modifies redis
    ensures redis.State() == PickedUp(s, tok).db
    ensures PickedUp(s, tok).att[tok].pc
         == if payload.Some? then Fetched(tries, payload.value, aborted) else Missing
    ensures payload.Some? <==> m.id in s.db.data
  {
    tries := redis.IncrRetry(m.id);
    assert redis.State() == Incremented(s, tok).db;
    redis.MarkRunning(m.id);
    payload, aborted := redis.FetchPayload(m.id);
  }

  /** `run_task` and `execute_and_finish`, with nobody else in between: command by command
      they are the protocol's steps of that attempt, and leave its state. */
  method RunTask(redis: Redis, reg: Registry, m: Msg, body: Body, keep: bool, now: int, ghost s: Sys, ghost tok: nat)
    returns (ghost acts: seq<Action>)
    requires redis.State() == s.db && now >= 0
    requires HasTok(s, tok) && s.att[tok].msg == m && s.att[tok].pc.Prefetched?
    modifies redis
    ensures acts == PickupOf(tok) + (if m.id in s.db.data then [Execute(tok, body)] else []) + [Finish(tok, keep, now)]
    ensures CanRun(reg, s, acts) && redis.State() == Run(reg, s, acts).db
  {
    PickupRuns(reg, s, tok);
    var tries, payload, aborted := PickUp(redis, m, s, tok);
    acts := PickupOf(tok) + (if m.id in s.db.data then [Execute(tok, body)] else []) + [Finish(tok, keep, now)];
    if payload.None? {
      redis.DiscardMsg(m);
      MissingEnds(reg, s, tok, keep, now);
    } else {
      var outcome := Decide(reg, payload.value, tries, aborted, body);
      FinishOne(redis, m, outcome, payload.value, tries, keep, now);
      FetchedEnds(reg, s, tok, body, keep, now);
    }
  }

  lemma MissingEnds(reg: Registry, s: Sys, tok: nat, keep: bool, now: int)
    requires HasTok(s, tok) && s.att[tok].pc.Prefetched? && now >= 0 && PickedUp(s, tok).att[tok].pc.Missing?
    ensures var acts := PickupOf(tok) + [] + [Finish(tok, keep, now)];
            CanRun(reg, s, acts) && Run(reg, s, acts).db == Discard(PickedUp(s, tok).db, s.att[tok].msg)
  {
    PickupRuns(reg, s, tok);
    assert PickupOf(tok) + [] == PickupOf(tok);
    Then(reg, s, PickupOf(tok), Finish(tok, keep, now));
  }

  lemma FetchedEnds(reg: Registry, s: Sys, tok: nat, body: Body, keep: bool, now: int)
    requires HasTok(s, tok) && s.att[tok].pc.Prefetched? && now >= 0 && PickedUp(s, tok).att[tok].pc.Fetched?
    ensures var acts, pc := PickupOf(tok) + [Execute(tok, body)] + [Finish(tok, keep, now)], PickedUp(s, tok).att[tok].pc;
            && CanRun(reg, s, acts)
            && Run(reg, s, acts).db
               == Finished(PickedUp(s, tok).db, s.att[tok].msg,
                           Decide(reg, pc.payload, pc.tries, pc.aborted, body), pc.payload, pc.tries, keep, now)
  {
    PickupRuns(reg, s, tok);
    Then(reg, s, PickupOf(tok), Execute(tok, body));
    Then(reg, s, PickupOf(tok) + [Execute(tok, body)], Finish(tok, keep, now));
    FinishEnds(reg, Ran(reg, PickedUp(s, tok), tok, body), tok, keep, now);
  }

  lemma FinishEnds(reg: Registry, s: Sys, tok: nat, keep: bool, now: int)
    requires HasTok(s, tok) && s.att[tok].pc.Executed? && now >= 0
    ensures var pc := s.att[tok].pc;
            Apply(reg, s, Finish(tok, keep, now)).db
              == Finished(s.db, s.att[tok].msg, pc.outcome, pc.payload, pc.tries, keep, now)
  {
  }

  function PickupOf(tok: nat): seq<Action> {
    [Incr(tok), Mark(tok, true), Fetch(tok)]
  }

  lemma PickupRuns(reg: Registry, s: Sys, tok: nat)
    requires HasTok(s, tok) && s.att[tok].pc.Prefetched?
    ensures CanRun(reg, s, PickupOf(tok))
    ensures Run(reg, s, PickupOf(tok)) == PickedUp(s, tok)
  {
    Runs.OneStep(reg, s, Incr(tok));
    Then(reg, s, [Incr(tok)], Mark(tok, true));
    Then(reg, s, [Incr(tok)] + [Mark(tok, true)], Fetch(tok));
    assert [Incr(tok)] + [Mark(tok, true)] + [Fetch(tok)] == PickupOf(tok);
  }

  /** The match on the outcome that ends `execute_and_finish`. */
  method FinishOne(redis: Redis, m: Msg, outcome: Outcome, payload: Payload, tries: int, keep: bool, now: int)
    requires m.lane < |redis.lanes|
    modifies redis
    ensures redis.State() == Finished(old(redis.State()), m, outcome, payload, tries, keep, now)
  {
    if outcome.Retry? {
      redis.RetryTaskLater(m, FireAt(now, tries, outcome.delayMs));
    } else {
      redis.CompleteTask(m, Result(outcome, tries), keep, if outcome.Dead? then Some(payload) else None, now);
    }
  }

  ghost function Finished(db: Db, m: Msg, outcome: Outcome, payload: Payload, tries: int, keep: bool, now: int): Db
    requires m.lane < |db.lanes|
  {
    if outcome.Retry? then RetryLater(db, m, FireAt(now, tries, outcome.delayMs))
    else Complete(db, m, Result(outcome, tries), keep, if outcome.Dead? then Some(payload) else None, now)
  }
}
