/** Inline mode: tasks run where they are enqueued, with no Redis. A task run alone through
    it ends as it does through the protocol. */
module Inline {
  import opened Wrappers
  import opened Store
  import opened Protocol

  /** How each try goes: `Broken` when the callback itself raises, as with a payload that
      cannot be unpacked or a result that cannot be packed. */
  type Bodies = int -> Body

  function TriesLeft(reg: Registry, p: Payload, tries: int): nat {
    if p.name in reg && reg[p.name].maxRetries >= tries then reg[p.name].maxRetries + 1 - tries else 0
  }

  /** How a worker ends a task whose next try is number `tries`. */
  function Final(reg: Registry, p: Payload, bodies: Bodies, tries: int): Result
    decreases TriesLeft(reg, p, tries)
  {
    var outcome := Decide(reg, p, tries, false, bodies(tries));
    if outcome.Retry? then Final(reg, p, bodies, tries + 1) else Result(outcome, tries)
  }

  /** How inline mode ends it: a broken callback raises in the enqueuer's face. */
  function InlineFinal(reg: Registry, p: Payload, bodies: Bodies, tries: int): Option<Result>
    decreases TriesLeft(reg, p, tries)
  {
    var outcome := Decide(reg, p, tries, false, bodies(tries));
    if bodies(tries).Broken? then None
    else if outcome.Retry? then InlineFinal(reg, p, bodies, tries + 1)
    else Some(Result(outcome, tries))
  }

  predicate Retries(reg: Registry, p: Payload, bodies: Bodies, j: int) {
    p.name in reg && j <= reg[p.name].maxRetries && bodies(j).Raised?
  }

  /** How a task ends whose next try is number `tries`, by its bodies alone: every try before
      `k` raises and may be retried, and try `k` settles it as `o`. */
  ghost predicate EndsSo(reg: Registry, p: Payload, bodies: Bodies, tries: int, k: int, o: Outcome) {
    && tries <= k && (forall j :: tries <= j < k ==> Retries(reg, p, bodies, j))
    && match bodies(k)
       case Broken => o == Failure
       case Returned => o == if p.name in reg then Success else Dead
       case Cancelled => o == if p.name in reg then Aborted else Dead
       case Raised(_) => o == Dead && (p.name in reg ==> k > reg[p.name].maxRetries)
  }

  lemma SettledAtOnce(reg: Registry, p: Payload, bodies: Bodies, tries: int, k: int, o: Outcome)
    requires !Retries(reg, p, bodies, tries)
    ensures EndsSo(reg, p, bodies, tries, k, o)
       <==> Result(o, k) == Result(Decide(reg, p, tries, false, bodies(tries)), tries)
  {
  }

  lemma RetriedLater(reg: Registry, p: Payload, bodies: Bodies, tries: int, k: int, o: Outcome)
    requires Retries(reg, p, bodies, tries)
    ensures EndsSo(reg, p, bodies, tries, k, o) <==> EndsSo(reg, p, bodies, tries + 1, k, o)
    ensures Decide(reg, p, tries, false, bodies(tries)).Retry?
  {
  }

  /** A worker ends a task as its bodies say: a body that returns is a success on its try and
      a cancelled one an abort, one that raises past the retries is dead, as a task nobody
      registered is at once, and a callback that breaks is a failure. */
  lemma {:induction false} FinalByBodies(reg: Registry, p: Payload, bodies: Bodies, tries: int, k: int, o: Outcome)
    ensures Final(reg, p, bodies, tries) == Result(o, k) <==> EndsSo(reg, p, bodies, tries, k, o)
    decreases TriesLeft(reg, p, tries)
  {
    if Retries(reg, p, bodies, tries) {
      RetriedLater(reg, p, bodies, tries, k, o);
      FinalByBodies(reg, p, bodies, tries + 1, k, o);
    } else {
      SettledAtOnce(reg, p, bodies, tries, k, o);
    }
  }

  /** And so does inline mode, unless the callback breaks. */
  lemma {:induction false} InlineFinalByBodies(reg: Registry, p: Payload, bodies: Bodies, tries: int, k: int, o: Outcome)
    ensures InlineFinal(reg, p, bodies, tries) == Some(Result(o, k))
       <==> EndsSo(reg, p, bodies, tries, k, o) && o != Failure
    decreases TriesLeft(reg, p, tries)
  {
    if Retries(reg, p, bodies, tries) {
      RetriedLater(reg, p, bodies, tries, k, o);
      InlineFinalByBodies(reg, p, bodies, tries + 1, k, o);
    } else {
      SettledAtOnce(reg, p, bodies, tries, k, o);
    }
  }

  /** Try `k` breaks, and every try from `tries` up to it raises with its retry allowed. */
  ghost predicate BreaksAt(reg: Registry, p: Payload, bodies: Bodies, tries: int, k: int) {
    && k >= tries && bodies(k).Broken?
    && forall j :: tries <= j < k ==> Retries(reg, p, bodies, j)
  }

  /** A retried try only puts the question off; any other that does not break settles it. */
  lemma BreaksLater(reg: Registry, p: Payload, bodies: Bodies, tries: int, k: int)
    requires !bodies(tries).Broken?
    ensures BreaksAt(reg, p, bodies, tries, k)
       <==> Decide(reg, p, tries, false, bodies(tries)).Retry? && BreaksAt(reg, p, bodies, tries + 1, k)
  {
    assert Decide(reg, p, tries, false, bodies(tries)).Retry? <==> Retries(reg, p, bodies, tries);
  }

  /** Inline mode ends a task otherwise than a worker exactly when some try breaks after
      nothing but retried ones; a worker then stores a failure, and inline mode nothing. */
  lemma {:induction false} InlineAgrees(reg: Registry, p: Payload, bodies: Bodies, tries: int)
    ensures InlineFinal(reg, p, bodies, tries) == Some(Final(reg, p, bodies, tries))
       <==> forall k :: !BreaksAt(reg, p, bodies, tries, k)
    ensures InlineFinal(reg, p, bodies, tries).None? <==> Final(reg, p, bodies, tries).outcome == Failure
    decreases TriesLeft(reg, p, tries)
  {
    var next := tries + 1;
    if bodies(tries).Broken? {
      assert BreaksAt(reg, p, bodies, tries, tries);
    } else {
      forall k
        ensures BreaksAt(reg, p, bodies, tries, k)
           <==> Decide(reg, p, tries, false, bodies(tries)).Retry? && BreaksAt(reg, p, bodies, next, k)
      {
        BreaksLater(reg, p, bodies, tries, k);
      }
      if Decide(reg, p, tries, false, bodies(tries)).Retry? {
        InlineAgrees(reg, p, bodies, next);
      }
    }
  }

  /** Whenever a try breaks so, the worker stores a failure under that try's number, and
      inline mode has no result. */
  lemma {:induction false} BrokenDiffers(reg: Registry, p: Payload, bodies: Bodies, tries: int, k: int)
    requires BreaksAt(reg, p, bodies, tries, k)
    ensures Final(reg, p, bodies, tries) == Result(Failure, k) && InlineFinal(reg, p, bodies, tries) == None
    decreases k - tries
  {
    if tries < k {
      assert Retries(reg, p, bodies, tries);
      BreaksLater(reg, p, bodies, tries, k);
      BrokenDiffers(reg, p, bodies, tries + 1, k);
    }
  }

  /** As it does when the result of a known task cannot be packed on its first try. */
  lemma BrokenAtOnce(p: Payload)
    ensures var reg, bodies := map[p.name := Registered(0, 0)], (k: int) => Broken;
            Final(reg, p, bodies, 1) == Result(Failure, 1) && InlineFinal(reg, p, bodies, 1) == None
  {
    BrokenDiffers(map[p.name := Registered(0, 0)], p, (k: int) => Broken, 1, 1);
  }

  /** The try a task ends on is within its budget. */
  lemma {:induction false} EndsWithinBudget(reg: Registry, p: Payload, bodies: Bodies, tries: int)
    ensures !Final(reg, p, bodies, tries).outcome.Retry? && Final(reg, p, bodies, tries).tries >= tries
    ensures p.name in reg && reg[p.name].maxRetries + 1 >= tries ==>
              Final(reg, p, bodies, tries).tries <= reg[p.name].maxRetries + 1
    decreases TriesLeft(reg, p, tries)
  {
    if Decide(reg, p, tries, false, bodies(tries)).Retry? {
      EndsWithinBudget(reg, p, bodies, tries + 1);
    }
  }

  function WithDead(dead: map<Id, DeadTask>, id: Id, p: Payload, r: Result, lane: nat): map<Id, DeadTask> {
    if r.outcome.Dead? then dead[id := DeadTask(p, r, lane)] else dead
  }

  /** What a run leaves in the results and the dead letter queue. */
  ghost predicate Leaves(results: map<Id, Result>, dead: map<Id, DeadTask>, results': map<Id, Result>,
                         dead': map<Id, DeadTask>, id: Id, p: Payload, lane: nat, end: Option<Result>) {
    if end.None? then results' == results - {id} && dead' == dead
    else results' == results[id := end.value] && dead' == WithDead(dead, id, p, end.value, lane)
  }

  /** The in-memory stand-in for the core. */
  class InlineCore {
    var results: map<Id, Result>
    var running: map<Id, (Payload, int)>
    var dead: map<Id, DeadTask>

    constructor ()
      ensures results == map[] && running == map[] && dead == map[]
    {
      results, running, dead := map[], map[], map[];
    }

    method Enqueue(reg: Registry, bodies: Bodies, id: Id, p: Payload, lane: nat) returns (raised: bool)
      modifies this
      ensures running == old(running)
      ensures id in running ==> !raised && results == old(results) && dead == old(dead)
      ensures id !in running ==> raised == InlineFinal(reg, p, bodies, 1).None?
      ensures id !in running ==> Leaves(old(results), old(dead), results, dead, id, p, lane, InlineFinal(reg, p, bodies, 1))
      // In the bodies' own terms.
      ensures forall k, o :: id !in running && EndsSo(reg, p, bodies, 1, k, o) ==>
                if o == Failure then raised && results == old(results) - {id} && dead == old(dead)
                else
                  && !raised && results == old(results)[id := Result(o, k)]
                  && dead == if o == Dead then old(dead)[id := DeadTask(p, Result(o, k), lane)] else old(dead)
    {
      if id in running {
        return false;
      }
      results := results - {id};
      raised := RunTask(reg, bodies, id, p, lane);
      forall k, o | EndsSo(reg, p, bodies, 1, k, o)
        ensures InlineFinal(reg, p, bodies, 1) == if o == Failure then None else Some(Result(o, k))
      {
        FinalByBodies(reg, p, bodies, 1, k, o);
        InlineFinalByBodies(reg, p, bodies, 1, k, o);
        InlineAgrees(reg, p, bodies, 1);
      }
    }

    method RunTask(reg: Registry, bodies: Bodies, id: Id, p: Payload, lane: nat) returns (raised: bool)
      requires id !in results
      modifies this
      ensures running == old(running) - {id}
      ensures raised == InlineFinal(reg, p, bodies, 1).None?
      ensures Leaves(old(results), old(dead), results, dead, id, p, lane, InlineFinal(reg, p, bodies, 1))
    {
      var tries := 1;
      var more := true;
      raised := false;
      while more
        invariant running - {id} == old(running) - {id}
        invariant more ==> InlineFinal(reg, p, bodies, tries) == InlineFinal(reg, p, bodies, 1)
        invariant more ==> results == old(results) && dead == old(dead) && !raised
        invariant !more ==> raised == InlineFinal(reg, p, bodies, 1).None?
        invariant !more ==> Leaves(old(results), old(dead), results, dead, id, p, lane, InlineFinal(reg, p, bodies, 1))
        decreases more, TriesLeft(reg, p, tries)
      {
        running := running[id := (p, tries)];
        if bodies(tries).Broken? {
          raised, more := true, false;
        } else {
          var outcome := Decide(reg, p, tries, false, bodies(tries));
          if !outcome.Retry? {
            results := results[id := Result(outcome, tries)];
            if outcome.Dead? {
              dead := dead[id := DeadTask(p, Result(outcome, tries), lane)];
            }
            more := false;
          } else {
            tries := tries + 1; // no backoff
          }
        }
      }
      running := running - {id};
    }

    method DeadReplay(reg: Registry, bodies: Bodies, id: Id, p: Payload, lane: nat) returns (replayed: bool, raised: bool)
      modifies this
      ensures replayed == (id in old(dead)) && running == old(running)
      ensures !replayed ==> !raised && results == old(results) && dead == old(dead)
      ensures replayed && id in running ==> results == old(results) && dead == old(dead) - {id}
      ensures replayed && id !in running ==>
                Leaves(old(results), old(dead) - {id}, results, dead, id, p, lane, InlineFinal(reg, p, bodies, 1))
    {
      if id !in dead {
        return false, false;
      }
      dead := dead - {id};
      raised := Enqueue(reg, bodies, id, p, lane);
      return true, raised;
    }
  }

  // ----- the same task through the protocol, alone

  datatype Task = Task(reg: Registry, bodies: Bodies, id: Id, payload: Payload, lane: nat, dead: map<Id, DeadTask>)

  ghost function Ending(t: Task, tries: int): Result {
    Final(t.reg, t.payload, t.bodies, tries)
  }

  ghost predicate Bare(l: Lane) {
    l.stream == map[] && l.delayed == map[]
  }

  /** No other work in any lane. */
  ghost predicate OnlyIn(s: Sys, lane: nat) {
    && lane < |s.db.lanes| && s.db.lanes[lane].last < s.db.lanes[lane].next
    && forall i :: 0 <= i < |s.db.lanes| && i != lane ==> Bare(s.db.lanes[i])
  }

  /** The payload is there, nobody asked to abort, and `done` tries were counted. */
  ghost predicate Live(t: Task, s: Sys, done: int) {
    && OnlyIn(s, t.lane) && s.db.dead == t.dead
    && t.id in s.db.data && s.db.data[t.id].payload == t.payload && t.id !in s.db.marks
    && RetryOf(s.db, t.id) == done >= 0
  }

  ghost predicate Scheduled(t: Task, s: Sys) {
    && Live(t, s, RetryOf(s.db, t.id)) && s.att == map[]
    && s.db.lanes[t.lane].stream == map[]
    && (exists at :: at >= 0 && s.db.lanes[t.lane].delayed == map[t.id := at])
    && Ending(t, RetryOf(s.db, t.id) + 1) == Ending(t, 1)
  }

  ghost predicate Entry(t: Task, s: Sys, sid: nat, time: int)
    requires t.lane < |s.db.lanes|
  {
    && s.db.lanes[t.lane].delayed == map[]
    && s.db.lanes[t.lane].stream == map[sid := Item(t.id, time)] && sid < s.db.lanes[t.lane].next
  }

  ghost predicate Queued(t: Task, s: Sys) {
    && Live(t, s, RetryOf(s.db, t.id)) && s.att == map[]
    && (exists sid: nat, time: int :: Entry(t, s, sid, time) && sid > s.db.lanes[t.lane].last)
    && Ending(t, RetryOf(s.db, t.id) + 1) == Ending(t, 1)
  }

  ghost predicate PcOk(t: Task, s: Sys, pc: Pc) {
    match pc
    case Prefetched => Live(t, s, RetryOf(s.db, t.id)) && Ending(t, RetryOf(s.db, t.id) + 1) == Ending(t, 1)
    case Counted(k) => Live(t, s, k) && Ending(t, k) == Ending(t, 1)
    case Marked(k) => Live(t, s, k) && Ending(t, k) == Ending(t, 1)
    case Fetched(k, p, aborted) => Live(t, s, k) && p == t.payload && !aborted && Ending(t, k) == Ending(t, 1)
    case Executed(k, p, outcome) =>
      && Live(t, s, k) && p == t.payload && Ending(t, k) == Ending(t, 1)
      && outcome == Decide(t.reg, p, k, false, t.bodies(k))
    case Missing => false
  }

  ghost predicate Held(t: Task, s: Sys, tok: nat) {
    && tok in s.att && s.att.Keys == {tok} && t.lane < |s.db.lanes|
    && (var m := s.att[tok].msg;
        m.lane == t.lane && m.id == t.id && Entry(t, s, m.sid, m.time) && m.sid <= s.db.lanes[t.lane].last)
    && PcOk(t, s, s.att[tok].pc)
  }

  ghost predicate Over(t: Task, s: Sys) {
    && OnlyIn(s, t.lane) && Bare(s.db.lanes[t.lane]) && s.att == map[]
    && t.id !in s.db.data
    && t.id in s.db.results && s.db.results[t.id] == Ending(t, 1)
    && s.db.dead == WithDead(t.dead, t.id, t.payload, Ending(t, 1), t.lane)
  }

  ghost predicate Solo(t: Task, s: Sys) {
    Scheduled(t, s) || Queued(t, s) || (exists tok :: Held(t, s, tok)) || Over(t, s)
  }

  /** What happens to a task alone with a worker that keeps results: nobody reclaims,
      aborts, purges or stages, and the body behaves as it will. */
  ghost predicate ByWorker(t: Task, s: Sys, a: Action) {
    match a
    case Promote(_, _, _) => true
    case Read(_, _, _) => true
    case Renew(_) => true
    case Incr(_) => true
    case Mark(_, _) => true
    case Fetch(_) => true
    case Execute(tok, body) => tok in s.att && s.att[tok].pc.Fetched? && body == t.bodies(s.att[tok].pc.tries)
    case Finish(_, keep, _) => keep
    case _ => false
  }

  // ----- its steps

  lemma OneDue(l: Lane, id: Id, now: int, due: seq<Id>)
    requires l.delayed.Keys == {id} && IsDue(l, now, due)
    ensures due == [] || due == [id]
  {
    assert forall i :: 0 <= i < |due| ==> due[i] in due;
    assert forall i :: 0 <= i < |due| ==> due[i] in l.delayed.Keys && due[i] == id;
    if |due| > 1 {
      FirstTwoDiffer(due);
      assert false;
    }
  }

  lemma FirstTwoDiffer(ids: seq<Id>)
    requires Distinct(ids) && |ids| > 1
    ensures ids[0] != ids[1]
  {
  }

  lemma PromoteSolo(t: Task, s: Sys, lane: nat, now: int, due: seq<Id>)
    requires Solo(t, s) && lane < |s.db.lanes| && IsDue(s.db.lanes[lane], now, due)
    ensures (forall i :: 0 <= i < |due| ==> due[i] in s.db.lanes[lane].delayed) && Solo(t, Promoted(s, lane, due))
  {
    assert forall i :: 0 <= i < |due| ==> due[i] in due;
    var l, s' := s.db.lanes[lane], Promoted(s, lane, due);
    if Scheduled(t, s) && lane == t.lane {
      OneDue(l, t.id, now, due);
      if due != [] {
        PromotedAlone(t, s, due);
      } else {
        assert s'.db.lanes == s.db.lanes && s' == s;
      }
    } else {
      assert l.delayed == map[];
      assert due == [];
      assert s'.db.lanes == s.db.lanes && s' == s;
    }
  }

  lemma PromotedAlone(t: Task, s: Sys, due: seq<Id>)
    requires Scheduled(t, s) && due == [t.id]
    ensures Queued(t, Promoted(s, t.lane, due))
  {
    var l, s' := s.db.lanes[t.lane], Promoted(s, t.lane, due);
    assert due[1..] == [] && t.id in l.delayed;
    assert Store.Promote(PromoteOne(l, t.id), []) == PromoteOne(l, t.id);
    assert s'.db.lanes[t.lane] == PromoteOne(l, t.id);
    assert l.delayed - {t.id} == map[];
    assert Entry(t, s', l.next, l.delayed[t.id]);
  }

  lemma ReadQueued(t: Task, s: Sys, w: Worker, sid: nat, time: int)
    requires Queued(t, s) && Entry(t, s, sid, time)
    ensures Held(t, Taken(s, w, t.lane, sid, Deliver(s.db.lanes[t.lane], sid, w)), s.nextTok)
  {
    assert Entry(t, Taken(s, w, t.lane, sid, Deliver(s.db.lanes[t.lane], sid, w)), sid, time);
  }

  lemma ReadSolo(t: Task, s: Sys, w: Worker, lane: nat, sid: nat)
    requires Solo(t, s) && lane < |s.db.lanes| && IsHead(s.db.lanes[lane], sid)
    ensures Solo(t, Taken(s, w, lane, sid, Deliver(s.db.lanes[lane], sid, w)))
  {
    assert lane == t.lane && Queued(t, s);
    var e: nat, time: int :| Entry(t, s, e, time) && e > s.db.lanes[t.lane].last;
    assert sid == e;
    ReadQueued(t, s, w, sid, time);
  }

  lemma HeldToken(t: Task, s: Sys, tok: nat)
    requires Solo(t, s) && tok in s.att
    ensures Held(t, s, tok)
  {
    var k :| Held(t, s, k);
    assert tok == k;
  }

  /** Steps on the one attempt that leave its entry alone. */
  lemma AttemptSolo(t: Task, s: Sys, a: Action)
    requires Solo(t, s) && Enabled(s, a) && ByWorker(t, s, a)
    requires a.Incr? || a.Mark? || a.Fetch? || a.Execute?
    ensures Solo(t, Apply(t.reg, s, a))
  {
    HeldToken(t, s, a.tok);
    var s' := Apply(t.reg, s, a);
    assert Entry(t, s', s.att[a.tok].msg.sid, s.att[a.tok].msg.time);
    assert Held(t, s', a.tok);
  }

  lemma RenewSolo(t: Task, s: Sys, tok: nat)
    requires Solo(t, s) && HasTok(s, tok)
    ensures Solo(t, Renewed(s, tok))
  {
    HeldToken(t, s, tok);
    var s' := Renewed(s, tok);
    assert Entry(t, s', s.att[tok].msg.sid, s.att[tok].msg.time);
    assert PcOk(t, s', s'.att[tok].pc);
    assert Held(t, s', tok);
  }

  lemma RetrySolo(t: Task, s: Sys, tok: nat, now: int)
    requires Held(t, s, tok) && s.att[tok].pc.Executed? && s.att[tok].pc.outcome.Retry? && now >= 0 && HasTok(s, tok)
    ensures Scheduled(t, Retried(s, tok, now))
  {
    var m, pc, s' := s.att[tok].msg, s.att[tok].pc, Retried(s, tok, now);
    var at := FireAt(now, pc.tries, pc.outcome.delayMs);
    FireAtNat(now, pc.tries, pc.outcome.delayMs);
    assert s.att - {tok} == map[];
    assert s.db.lanes[t.lane].stream - {m.sid} == map[];
    assert s'.db.lanes[t.lane].delayed == map[t.id := at];
  }

  lemma CompleteSolo(t: Task, s: Sys, tok: nat, now: int)
    requires Held(t, s, tok) && s.att[tok].pc.Executed? && !s.att[tok].pc.outcome.Retry? && HasTok(s, tok)
    ensures Over(t, Completed(s, tok, true, now))
  {
    var m := s.att[tok].msg;
    assert s.att - {tok} == map[];
    assert s.db.lanes[t.lane].stream - {m.sid} == map[];
  }

  lemma StepSolo(t: Task, s: Sys, a: Action)
    requires Solo(t, s) && Enabled(s, a) && ByWorker(t, s, a)
    ensures Solo(t, Apply(t.reg, s, a))
  {
    match a
    case Promote(lane, now, due) => PromoteSolo(t, s, lane, now, due);
    case Read(w, lane, sid) => ReadSolo(t, s, w, lane, sid);
    case Renew(tok) => RenewSolo(t, s, tok);
    case Finish(tok, _, now) =>
      HeldToken(t, s, tok);
      if s.att[tok].pc.outcome.Retry? {
        RetrySolo(t, s, tok, now);
      } else {
        CompleteSolo(t, s, tok, now);
      }
    case _ => AttemptSolo(t, s, a);
  }

  ghost predicate AllByWorker(t: Task, s: Sys, acts: seq<Action>)
    requires CanRun(t.reg, s, acts)
    decreases |acts|
  {
    acts != [] ==> ByWorker(t, s, acts[0]) && AllByWorker(t, Apply(t.reg, s, acts[0]), acts[1..])
  }

  lemma {:induction false} RunSolo(t: Task, s: Sys, acts: seq<Action>)
    requires Solo(t, s) && CanRun(t.reg, s, acts) && AllByWorker(t, s, acts)
    ensures Solo(t, Run(t.reg, s, acts))
    decreases |acts|
  {
    if acts != [] {
      StepSolo(t, s, acts[0]);
      RunSolo(t, Apply(t.reg, s, acts[0]), acts[1..]);
    }
  }

  /** The id is new, and nothing else is about. */
  ghost predicate Quiet(s: Sys, lane: nat, id: Id) {
    && OnlyIn(s, lane) && Bare(s.db.lanes[lane]) && s.att == map[]
    && id !in s.db.data && id !in s.db.marks && RetryOf(s.db, id) == 0
  }

  lemma EnqueueSolo(t: Task, s: Sys, score: int, expire: int, now: int, reset: bool)
    requires Quiet(s, t.lane, t.id) && t.dead == s.db.dead
    ensures Solo(t, Enqueued(s, t.lane, t.id, t.payload, score, expire, now, reset))
  {
    var s' := Enqueued(s, t.lane, t.id, t.payload, score, expire, now, reset);
    if score > 0 {
      assert s'.db.lanes[t.lane].delayed == map[t.id := score];
      assert Scheduled(t, s');
    } else {
      assert Entry(t, s', s.db.lanes[t.lane].next, now);
      assert Queued(t, s');
    }
  }

  /** Whatever the outcome of each try, and whenever it is read, promoted and finished, the
      task ends through the protocol as `Final` says; with `InlineAgrees` that is what
      `InlineCore.Enqueue` leaves: same outcome, same tries, same dead letter queue. */
  lemma SameEnding(t: Task, s: Sys, score: int, expire: int, now: int, reset: bool, acts: seq<Action>)
    requires Quiet(s, t.lane, t.id) && t.dead == s.db.dead
    requires var s1 := Enqueued(s, t.lane, t.id, t.payload, score, expire, now, reset);
             && CanRun(t.reg, s1, acts) && AllByWorker(t, s1, acts)
             && t.id !in Run(t.reg, s1, acts).db.data
    ensures var db := Run(t.reg, Enqueued(s, t.lane, t.id, t.payload, score, expire, now, reset), acts).db;
            && t.id in db.results && db.results[t.id] == Final(t.reg, t.payload, t.bodies, 1)
            && db.dead == WithDead(s.db.dead, t.id, t.payload, Final(t.reg, t.payload, t.bodies, 1), t.lane)
  {
    EnqueueSolo(t, s, score, expire, now, reset);
    RunSolo(t, Enqueued(s, t.lane, t.id, t.payload, score, expire, now, reset), acts);
  }

  /** In the bodies' own terms: whichever run of the worker ends the task, its result is the
      one its bodies call for, and only a dead one leaves a dead letter, with the payload. */
  lemma RunEndsByBodies(t: Task, s: Sys, score: int, expire: int, now: int, reset: bool, acts: seq<Action>,
                        k: int, o: Outcome)
    requires Quiet(s, t.lane, t.id) && t.dead == s.db.dead
    requires var s1 := Enqueued(s, t.lane, t.id, t.payload, score, expire, now, reset);
             && CanRun(t.reg, s1, acts) && AllByWorker(t, s1, acts)
             && t.id !in Run(t.reg, s1, acts).db.data
    requires EndsSo(t.reg, t.payload, t.bodies, 1, k, o)
    ensures var db := Run(t.reg, Enqueued(s, t.lane, t.id, t.payload, score, expire, now, reset), acts).db;
            && t.id in db.results && db.results[t.id] == Result(o, k)
            && db.dead == if o == Dead then s.db.dead[t.id := DeadTask(t.payload, Result(Dead, k), t.lane)] else s.db.dead
  {
    SameEnding(t, s, score, expire, now, reset, acts);
    FinalByBodies(t.reg, t.payload, t.bodies, 1, k, o);
  }

  lemma ReplaySolo(t: Task, s: Sys, now: int)
    requires Quiet(s, t.lane, t.id) && t.id in s.db.dead && t.dead == s.db.dead - {t.id}
    ensures Solo(t, Replayed(s, t.lane, t.id, t.payload, now))
  {
    var s1 := Replayed(s, t.lane, t.id, t.payload, now);
    assert Entry(t, s1, s.db.lanes[t.lane].next, now);
    assert Queued(t, s1);
  }

  /** The same for a replay from the dead letter queue, as against `InlineCore.DeadReplay`. */
  lemma SameEndingAfterReplay(t: Task, s: Sys, now: int, acts: seq<Action>)
    requires Quiet(s, t.lane, t.id) && t.id in s.db.dead && t.dead == s.db.dead - {t.id}
    requires var s1 := Replayed(s, t.lane, t.id, t.payload, now);
             && CanRun(t.reg, s1, acts) && AllByWorker(t, s1, acts)
             && t.id !in Run(t.reg, s1, acts).db.data
    ensures var db := Run(t.reg, Replayed(s, t.lane, t.id, t.payload, now), acts).db;
            && t.id in db.results && db.results[t.id] == Final(t.reg, t.payload, t.bodies, 1)
            && db.dead == WithDead(s.db.dead - {t.id}, t.id, t.payload, Final(t.reg, t.payload, t.bodies, 1), t.lane)
  {
    ReplaySolo(t, s, now);
    RunSolo(t, Replayed(s, t.lane, t.id, t.payload, now), acts);
  }

  // ----- and it does end

  /** `acts` are the worker's, and bring the task to its end. */
  ghost predicate EndsBy(t: Task, s: Sys, acts: seq<Action>) {
    CanRun(t.reg, s, acts) && AllByWorker(t, s, acts) && t.id !in Run(t.reg, s, acts).db.data
  }

  lemma OneMore(t: Task, s: Sys, a: Action, acts: seq<Action>)
    requires Enabled(s, a) && ByWorker(t, s, a) && EndsBy(t, Apply(t.reg, s, a), acts)
    ensures EndsBy(t, s, [a] + acts)
  {
    assert ([a] + acts)[1..] == acts;
  }

  function StepsLeft(pc: Pc): nat {
    match pc
    case Prefetched => 5
    case Counted(_) => 4
    case Marked(_) => 3
    case Fetched(_, _, _) => 2
    case _ => 1
  }

  function TryAt(s: Sys, id: Id, pc: Pc): int {
    if pc.Prefetched? || pc.Missing? then RetryOf(s.db, id) + 1 else pc.tries
  }

  /** The next step of an attempt not yet run to its end. */
  function NextOf(t: Task, tok: nat, pc: Pc): Action {
    match pc
    case Prefetched => Incr(tok)
    case Counted(_) => Mark(tok, true)
    case Marked(_) => Fetch(tok)
    case Fetched(k, _, _) => Execute(tok, t.bodies(k))
    case _ => Finish(tok, true, 0)
  }

  lemma NextIsCloser(t: Task, s: Sys, tok: nat)
    requires Held(t, s, tok) && !s.att[tok].pc.Executed?
    ensures var a := NextOf(t, tok, s.att[tok].pc);
            && Enabled(s, a) && ByWorker(t, s, a) && !a.Finish?
            && var pc, pc' := s.att[tok].pc, Apply(t.reg, s, a).att[tok].pc;
               StepsLeft(pc') < StepsLeft(pc) && TryAt(Apply(t.reg, s, a), t.id, pc') == TryAt(s, t.id, pc)
  {
  }

  lemma {:induction false} FromHeld(t: Task, s: Sys, w: Worker, tok: nat) returns (acts: seq<Action>)
    requires Held(t, s, tok)
    ensures EndsBy(t, s, acts)
    decreases TriesLeft(t.reg, t.payload, TryAt(s, t.id, s.att[tok].pc)), StepsLeft(s.att[tok].pc), 0
  {
    if s.att[tok].pc.Executed? {
      acts := FromExecuted(t, s, w, tok);
    } else {
      var a := NextOf(t, tok, s.att[tok].pc);
      NextIsCloser(t, s, tok);
      AttemptSolo(t, s, a);
      HeldToken(t, Apply(t.reg, s, a), tok);
      var rest := FromHeld(t, Apply(t.reg, s, a), w, tok);
      OneMore(t, s, a, rest);
      acts := [a] + rest;
    }
  }

  lemma {:induction false} FromExecuted(t: Task, s: Sys, w: Worker, tok: nat) returns (acts: seq<Action>)
    requires Held(t, s, tok) && s.att[tok].pc.Executed?
    ensures EndsBy(t, s, acts)
    decreases TriesLeft(t.reg, t.payload, s.att[tok].pc.tries), 0
  {
    var a, rest := Finish(tok, true, 0), [];
    if s.att[tok].pc.outcome.Retry? {
      RetrySolo(t, s, tok, 0);
      rest := FromScheduled(t, Retried(s, tok, 0), w);
    } else {
      CompleteSolo(t, s, tok, 0);
    }
    OneMore(t, s, a, rest);
    acts := [a] + rest;
  }

  lemma {:induction false} FromQueued(t: Task, s: Sys, w: Worker) returns (acts: seq<Action>)
    requires Queued(t, s)
    ensures EndsBy(t, s, acts)
    decreases TriesLeft(t.reg, t.payload, RetryOf(s.db, t.id) + 1), 6
  {
    var sid: nat, time: int :| Entry(t, s, sid, time) && sid > s.db.lanes[t.lane].last;
    var a := Read(w, t.lane, sid);
    ReadSolo(t, s, w, t.lane, sid);
    HeldToken(t, Apply(t.reg, s, a), s.nextTok);
    var rest := FromHeld(t, Apply(t.reg, s, a), w, s.nextTok);
    OneMore(t, s, a, rest);
    acts := [a] + rest;
  }

  lemma {:induction false} FromScheduled(t: Task, s: Sys, w: Worker) returns (acts: seq<Action>)
    requires Scheduled(t, s)
    ensures EndsBy(t, s, acts)
    decreases TriesLeft(t.reg, t.payload, RetryOf(s.db, t.id) + 1), 7
  {
    var at :| at >= 0 && s.db.lanes[t.lane].delayed == map[t.id := at];
    var a := Action.Promote(t.lane, at, [t.id]);
    PromotedAlone(t, s, [t.id]);
    var rest := FromQueued(t, Apply(t.reg, s, a), w);
    OneMore(t, s, a, rest);
    acts := [a] + rest;
  }

  /** A task alone can always be brought to its end by one worker, from wherever that worker
      has got to with it. */
  lemma Finishes(t: Task, s: Sys, w: Worker) returns (acts: seq<Action>)
    requires Solo(t, s)
    ensures EndsBy(t, s, acts)
  {
    if Scheduled(t, s) {
      acts := FromScheduled(t, s, w);
    } else if Queued(t, s) {
      acts := FromQueued(t, s, w);
    } else if tok :| Held(t, s, tok) {
      acts := FromHeld(t, s, w, tok);
    } else {
      acts := [];
    }
  }

  /** And so can one just staged: some run of one worker ends it, and however that worker
      has begun, it can go on to the end. */
  lemma StagedTaskFinishes(t: Task, s: Sys, score: int, expire: int, now: int, reset: bool, w: Worker, begun: seq<Action>)
    returns (acts: seq<Action>)
    requires Quiet(s, t.lane, t.id) && t.dead == s.db.dead
    requires var s1 := Enqueued(s, t.lane, t.id, t.payload, score, expire, now, reset);
             CanRun(t.reg, s1, begun) && AllByWorker(t, s1, begun)
    ensures EndsBy(t, Run(t.reg, Enqueued(s, t.lane, t.id, t.payload, score, expire, now, reset), begun), acts)
  {
    var s1 := Enqueued(s, t.lane, t.id, t.payload, score, expire, now, reset);
    EnqueueSolo(t, s, score, expire, now, reset);
    RunSolo(t, s1, begun);
    acts := Finishes(t, Run(t.reg, s1, begun), w);
  }
}
