/** A task that is never reclaimed nor staged with an expiry: its tries count up from 1 within
    the retry budget, and a new staging starts over. A crash loses count: whoever reclaims the
    task counts a try for which nothing was run, and `tries.dfy` takes over. */
module Quiet {
  import opened Store
  import opened Protocol
  import opened Stranding
  import opened Tokens

  ghost predicate IsQuiet(s: Sys, a: Action, id: Id) {
    Safe(s, a, id) && !Reclaims(s, a, id)
  }

  ghost predicate AllQuiet(reg: Registry, s: Sys, acts: seq<Action>, id: Id)
    requires CanRun(reg, s, acts)
    decreases |acts|
  {
    acts != [] ==> IsQuiet(s, acts[0], id) && AllQuiet(reg, Apply(reg, s, acts[0]), acts[1..], id)
  }

  // ----- the counts

  function Budget(reg: Registry, p: Payload): nat {
    if p.name in reg && reg[p.name].maxRetries > 0 then reg[p.name].maxRetries else 0
  }

  lemma RetryNeedsBudget(reg: Registry, p: Payload, tries: int, aborted: bool, body: Body)
    requires tries >= 1
    ensures Decide(reg, p, tries, aborted, body).Retry? ==> tries <= Budget(reg, p)
  {
  }

  ghost predicate CountsUp(log: seq<int>) {
    forall i :: 0 <= i < |log| ==> log[i] == i + 1
  }

  /** Every try so far was handed to the executor, and another is still allowed. */
  ghost predicate Ready(reg: Registry, s: Sys, id: Id) {
    && id in s.db.data
    && RetryOf(s.db, id) == |LogOf(s, id)| <= Budget(reg, s.db.data[id].payload)
  }

  /** Try `t` has been counted and not yet handed over. */
  ghost predicate Trying(reg: Registry, s: Sys, id: Id, t: int) {
    && id in s.db.data
    && t == RetryOf(s.db, id) == |LogOf(s, id)| + 1 <= Budget(reg, s.db.data[id].payload) + 1
  }

  ghost predicate CountedFor(reg: Registry, s: Sys, id: Id, pc: Pc) {
    match pc
    case Prefetched => Ready(reg, s, id)
    case Counted(t) => Trying(reg, s, id, t)
    case Marked(t) => Trying(reg, s, id, t)
    case Fetched(t, p, _) => Trying(reg, s, id, t) && p == s.db.data[id].payload
    case Missing => true
    case Executed(t, p, o) =>
      && id in s.db.data && p == s.db.data[id].payload
      && t == RetryOf(s.db, id) == |LogOf(s, id)|
      && (o.Retry? ==> t <= Budget(reg, p))
  }

  ghost predicate Counts(reg: Registry, s: Sys, id: Id) {
    && CountsUp(LogOf(s, id))
    && (forall p :: At(s.db, id, p) && Idle(s.db, p) ==> Ready(reg, s, id))
    && (forall tok :: Has(s, tok, id) ==> CountedFor(reg, s, id, s.att[tok].pc))
    && (id in s.db.retry || id in s.db.marks ==> id in s.db.data)
  }

  ghost predicate QuietInv(reg: Registry, s: Sys, id: Id) {
    TokenInv(s, id) && Counts(reg, s, id)
  }

  // ----- turn by turn

  lemma UntouchedCounts(reg: Registry, s: Sys, s': Sys, id: Id)
    requires Counts(reg, s, id) && Untouched(s, s', id)
    ensures Counts(reg, s', id)
  {
    forall tok | Has(s', tok, id)
      ensures CountedFor(reg, s', id, s'.att[tok].pc)
    {
      assert CountedFor(reg, s, id, s.att[tok].pc);
    }
  }

  /** A task at rest that is ready to run. */
  lemma RestCounts(reg: Registry, s: Sys, id: Id)
    requires AtRest(s, id) && Ready(reg, s, id) && CountsUp(LogOf(s, id))
    ensures Counts(reg, s, id)
  {
  }

  lemma StagedCounts(reg: Registry, s: Sys, s': Sys, id: Id)
    requires Counts(reg, s, id) && Staged(s, s', id)
    ensures Counts(reg, s', id)
  {
    RestCounts(reg, s', id);
  }

  lemma ResettledCounts(reg: Registry, s: Sys, s': Sys, id: Id)
    requires Counts(reg, s, id) && Resettled(s, s', id)
    ensures Counts(reg, s', id)
  {
    RestCounts(reg, s', id);
  }

  lemma DroppedCounts(reg: Registry, s: Sys, s': Sys, id: Id)
    requires Counts(reg, s, id) && Dropped(s, s', id)
    ensures Counts(reg, s', id)
  {
  }

  lemma ReadCounts(reg: Registry, s: Sys, s': Sys, id: Id)
    requires Counts(reg, s, id) && ReadAnew(s, s', id)
    ensures Counts(reg, s', id)
  {
    assert Ready(reg, s, id);
  }

  lemma LetGoCounts(reg: Registry, s: Sys, s': Sys, id: Id, tok: nat)
    requires Counts(reg, s, id) && LetGo(s, s', id, tok)
    ensures Counts(reg, s', id)
  {
    assert CountedFor(reg, s, id, s.att[tok].pc);
    RestCounts(reg, s', id);
  }

  lemma WorksCounts(reg: Registry, s: Sys, s': Sys, id: Id, tok: nat)
    requires TokenInv(s, id) && Counts(reg, s, id) && Works(reg, s, s', id, tok)
    ensures Counts(reg, s', id)
  {
    HolderAt(s, tok, id);
    assert CountedFor(reg, s, id, s.att[tok].pc);
    WorkedCount(reg, s, s', id, tok);
    forall t | Has(s', t, id)
      ensures t == tok
    {
      assert Has(s, t, id);
    }
    forall p
      ensures !(At(s'.db, id, p) && Idle(s'.db, p))
    {
      assert At(s'.db, id, p) ==> At(s.db, id, p);
    }
  }

  lemma WorkedCount(reg: Registry, s: Sys, s': Sys, id: Id, tok: nat)
    requires Works(reg, s, s', id, tok) && id in s.db.data
    requires CountedFor(reg, s, id, s.att[tok].pc) && CountsUp(LogOf(s, id))
    ensures CountedFor(reg, s', id, s'.att[tok].pc) && CountsUp(LogOf(s', id))
  {
    if s.att[tok].pc.Fetched? {
      var pc := s.att[tok].pc;
      var body :| s'.att[tok].pc == Executed(pc.tries, pc.payload, Decide(reg, pc.payload, pc.tries, pc.aborted, body));
      RetryNeedsBudget(reg, pc.payload, pc.tries, pc.aborted, body);
    }
  }

  lemma TurnCounts(reg: Registry, s: Sys, s': Sys, id: Id)
    requires QuietInv(reg, s, id) && Turns(reg, s, s', id)
    ensures Counts(reg, s', id)
  {
    if Untouched(s, s', id) {
      UntouchedCounts(reg, s, s', id);
    } else if Staged(s, s', id) {
      StagedCounts(reg, s, s', id);
    } else if Resettled(s, s', id) {
      ResettledCounts(reg, s, s', id);
    } else if Dropped(s, s', id) {
      DroppedCounts(reg, s, s', id);
    } else if ReadAnew(s, s', id) {
      ReadCounts(reg, s, s', id);
    } else if tok :| Works(reg, s, s', id, tok) {
      WorksCounts(reg, s, s', id, tok);
    } else {
      var tok :| LetGo(s, s', id, tok);
      LetGoCounts(reg, s, s', id, tok);
    }
  }

  lemma QuietStep(reg: Registry, s: Sys, a: Action, id: Id)
    requires QuietInv(reg, s, id) && Enabled(s, a) && IsQuiet(s, a, id)
    ensures QuietInv(reg, Apply(reg, s, a), id)
  {
    TokenStep(reg, s, a, id);
    StepTurns(reg, s, a, id);
    TurnCounts(reg, s, Apply(reg, s, a), id);
  }

  // ----- runs

  lemma {:induction false} RunQuietly(reg: Registry, s: Sys, acts: seq<Action>, id: Id)
    requires QuietInv(reg, s, id) && CanRun(reg, s, acts) && AllQuiet(reg, s, acts, id)
    ensures QuietInv(reg, Run(reg, s, acts), id)
    decreases |acts|
  {
    if acts != [] {
      QuietStep(reg, s, acts[0], id);
      RunQuietly(reg, Apply(reg, s, acts[0]), acts[1..], id);
    }
  }

  ghost predicate QuietlyReachable(reg: Registry, s: Sys, id: Id) {
    exists lanes: nat, acts: seq<Action> ::
      CanRun(reg, Initial(lanes), acts) && AllQuiet(reg, Initial(lanes), acts, id) && s == Run(reg, Initial(lanes), acts)
  }

  lemma QuietlyReachableInv(reg: Registry, s: Sys, id: Id)
    requires QuietlyReachable(reg, s, id)
    ensures QuietInv(reg, s, id)
  {
    var lanes: nat, acts: seq<Action> :|
      CanRun(reg, Initial(lanes), acts) && AllQuiet(reg, Initial(lanes), acts, id) && s == Run(reg, Initial(lanes), acts);
    InitialToken(lanes, id);
    RunQuietly(reg, Initial(lanes), acts, id);
  }

  // ----- the theorems

  /** The try number handed to the k-th attempt of a staging is k, so the body runs at most
      once more than the retry budget; and the last attempt allowed ends the task, however
      its body ends. */
  lemma TriesCountUp(reg: Registry, s: Sys, tok: nat, id: Id)
    requires QuietlyReachable(reg, s, id) && Has(s, tok, id) && s.att[tok].pc.Fetched?
    ensures var pc := s.att[tok].pc;
            && id in s.db.data && pc.payload == s.db.data[id].payload
            && CountsUp(LogOf(s, id))
            && pc.tries == |LogOf(s, id)| + 1 <= Budget(reg, pc.payload) + 1
            && (pc.tries == Budget(reg, pc.payload) + 1 ==>
                  forall body :: !Decide(reg, pc.payload, pc.tries, pc.aborted, body).Retry?)
  {
    QuietlyReachableInv(reg, s, id);
    var pc := s.att[tok].pc;
    assert CountedFor(reg, s, id, pc);
    forall body
      ensures pc.tries == Budget(reg, pc.payload) + 1 ==> !Decide(reg, pc.payload, pc.tries, pc.aborted, body).Retry?
    {
      RetryNeedsBudget(reg, pc.payload, pc.tries, pc.aborted, body);
    }
  }

  /** A re-enqueued or replayed id starts over: no try of the last run is counted. */
  lemma StagingStartsOver(reg: Registry, s: Sys, a: Action, id: Id)
    requires QuietlyReachable(reg, s, id) && Enabled(s, a) && IsQuiet(s, a, id)
    requires id !in s.db.data && id in Apply(reg, s, a).db.data
    ensures RetryOf(Apply(reg, s, a).db, id) == 0 && LogOf(Apply(reg, s, a), id) == []
  {
    QuietlyReachableInv(reg, s, id);
    AbsentStaysAbsent(reg, s, a, id);
  }
}
