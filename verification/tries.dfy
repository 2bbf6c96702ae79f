/** Tries through crashes and the reclaims that follow them: they still only go up, and there
    are no more of them than the retry budget allows and attempts were lost. */
module Tries {
  import opened Store
  import opened Protocol
  import opened Stranding
  import opened Tokens
  import opened Quiet

  // ----- rising sequences

  ghost predicate Rising(log: seq<int>) {
    && (forall i :: 0 <= i < |log| ==> log[i] >= 1)
    && (forall i, j :: 0 <= i < j < |log| ==> log[i] < log[j])
  }

  ghost predicate Below(log: seq<int>, t: int) {
    forall i :: 0 <= i < |log| ==> log[i] < t
  }

  function Over(log: seq<int>, b: nat): nat {
    if log == [] then 0
    else Over(log[..|log| - 1], b) + if log[|log| - 1] > b then 1 else 0
  }

  lemma OverSnoc(log: seq<int>, t: int, b: nat)
    ensures Over(log + [t], b) == Over(log, b) + if t > b then 1 else 0
  {
    assert (log + [t])[..|log|] == log;
  }

  /** At most `b` tries are numbered `b` or less. */
  lemma {:induction false} RisingLength(log: seq<int>, b: nat)
    requires Rising(log)
    ensures |log| <= b + Over(log, b)
    ensures log != [] && log[|log| - 1] <= b ==> |log| <= log[|log| - 1]
    decreases |log|
  {
    if log != [] {
      var n := |log| - 1;
      var init := log[..n];
      RisingLength(init, b);
      if log[n] <= b && n > 0 {
        assert init[n - 1] == log[n - 1] < log[n];
        assert n <= log[n - 1];
      }
    }
  }

  // ----- the counts

  /** What each attempt knows of its try. */
  ghost predicate TriedFor(reg: Registry, s: Sys, id: Id, pc: Pc) {
    match pc
    case Counted(t) => Next(s, id, t)
    case Marked(t) => Next(s, id, t)
    case Fetched(t, p, _) => Next(s, id, t) && p == s.db.data[id].payload
    case Executed(t, p, o) =>
      && id in s.db.data && p == s.db.data[id].payload && t == RetryOf(s.db, id) >= 1
      && (o.Retry? ==> t <= Budget(reg, p))
    case _ => true
  }

  /** Try `t` is counted, and later than any handed over. */
  ghost predicate Next(s: Sys, id: Id, t: int) {
    id in s.db.data && t == RetryOf(s.db, id) >= 1 && Below(LogOf(s, id), t)
  }

  /** The attempt under way has run its body on a try beyond the budget. */
  ghost predicate Beyond(reg: Registry, s: Sys, id: Id) {
    && id in s.db.data
    && exists tok :: Has(s, tok, id) && s.att[tok].pc.Executed? && s.att[tok].pc.tries > Budget(reg, s.db.data[id].payload)
  }

  /** `lost` attempts of this staging ran their body and never finished. */
  ghost predicate Tries(reg: Registry, s: Sys, id: Id, lost: nat) {
    && Rising(LogOf(s, id)) && RetryOf(s.db, id) >= 0
    && (id in s.db.retry ==> id in s.db.data)
    && (id in s.db.data ==>
          && Below(LogOf(s, id), RetryOf(s.db, id) + 1)
          && Over(LogOf(s, id), Budget(reg, s.db.data[id].payload)) <= lost + if Beyond(reg, s, id) then 1 else 0)
    && (forall tok :: Has(s, tok, id) ==> TriedFor(reg, s, id, s.att[tok].pc))
  }

  /** An attempt that had run its body is gone, and its entry still there. */
  ghost predicate LostBody(s: Sys, s': Sys, id: Id) {
    exists tok ::
      Has(s, tok, id) && s.att[tok].pc.Executed? && !Has(s', tok, id) && At(s'.db, id, Spot(s.att[tok].msg))
  }

  /** Lost attempts since the last staging, after one more step. */
  ghost function Losses(s: Sys, s': Sys, id: Id, lost: nat): nat {
    if id !in s.db.data && id in s'.db.data then 0
    else if LostBody(s, s', id) then lost + 1
    else lost
  }

  // ----- turn by turn

  lemma UntouchedTries(reg: Registry, s: Sys, s': Sys, id: Id, lost: nat)
    requires TokenFor(s, id) && Tries(reg, s, id, lost) && Untouched(s, s', id)
    ensures Tries(reg, s', id, Losses(s, s', id, lost))
  {
    forall tok | Has(s', tok, id)
      ensures TriedFor(reg, s', id, s'.att[tok].pc)
    {
      assert TriedFor(reg, s, id, s.att[tok].pc);
    }
    if id in s.db.data && Beyond(reg, s, id) && !Beyond(reg, s', id) {
      var tok :| Has(s, tok, id) && s.att[tok].pc.Executed? && s.att[tok].pc.tries > Budget(reg, s.db.data[id].payload);
      assert !Has(s', tok, id);
      assert At(s.db, id, Spot(s.att[tok].msg)) && At(s'.db, id, Spot(s.att[tok].msg));
      assert LostBody(s, s', id);
    }
  }

  /** A task at rest, whose count fits. */
  lemma RestTries(reg: Registry, s: Sys, id: Id, lost: nat)
    requires AtRest(s, id) && Rising(LogOf(s, id)) && Below(LogOf(s, id), RetryOf(s.db, id) + 1)
    requires RetryOf(s.db, id) >= 0 && Over(LogOf(s, id), Budget(reg, s.db.data[id].payload)) <= lost
    ensures Tries(reg, s, id, lost)
  {
  }

  /** A task nobody holds is not in the middle of a try. */
  lemma UnheldTries(reg: Registry, s: Sys, id: Id, lost: nat)
    requires Tries(reg, s, id, lost) && Unheld(s, id) && id in s.db.data
    ensures Over(LogOf(s, id), Budget(reg, s.db.data[id].payload)) <= lost
  {
  }

  lemma ResettledTries(reg: Registry, s: Sys, s': Sys, id: Id, lost: nat)
    requires TokenInv(s, id) && Tries(reg, s, id, lost) && Resettled(s, s', id)
    ensures Tries(reg, s', id, lost)
  {
    var p :| At(s.db, id, p) && Idle(s.db, p);
    IdleIsUnheld(s, id, p);
    UnheldTries(reg, s, id, lost);
    RestTries(reg, s', id, lost);
  }

  lemma TakenTries(reg: Registry, s: Sys, s': Sys, id: Id, lost: nat, tok: nat)
    requires Tries(reg, s, id, lost) && Unheld(s, id) && TokenFor(s, id) && TakenUp(s, s', id, tok)
    ensures Tries(reg, s', id, lost)
  {
    assert At(s.db, id, Spot(s'.att[tok].msg));
    UnheldTries(reg, s, id, lost);
  }

  lemma LetGoTries(reg: Registry, s: Sys, s': Sys, id: Id, lost: nat, tok: nat)
    requires TokenFor(s, id) && Tries(reg, s, id, lost) && LetGo(s, s', id, tok)
    ensures Tries(reg, s', id, lost)
  {
    assert TriedFor(reg, s, id, s.att[tok].pc);
    assert !Beyond(reg, s, id);
    RestTries(reg, s', id, lost);
  }

  lemma WorksTries(reg: Registry, s: Sys, s': Sys, id: Id, lost: nat, tok: nat)
    requires TokenInv(s, id) && Tries(reg, s, id, lost) && Works(reg, s, s', id, tok)
    ensures Tries(reg, s', id, lost)
  {
    HolderAt(s, tok, id);
    assert TriedFor(reg, s, id, s.att[tok].pc) && !Beyond(reg, s, id);
    forall t | Has(s', t, id)
      ensures t == tok
    {
      assert Has(s, t, id);
    }
    WorkedTry(reg, s, s', id, lost, tok);
  }

  lemma WorkedTry(reg: Registry, s: Sys, s': Sys, id: Id, lost: nat, tok: nat)
    requires Works(reg, s, s', id, tok) && id in s.db.data
    requires Rising(LogOf(s, id)) && RetryOf(s.db, id) >= 0 && Below(LogOf(s, id), RetryOf(s.db, id) + 1)
    requires TriedFor(reg, s, id, s.att[tok].pc)
    requires Over(LogOf(s, id), Budget(reg, s.db.data[id].payload)) <= lost
    ensures Rising(LogOf(s', id)) && RetryOf(s'.db, id) >= 0 && Below(LogOf(s', id), RetryOf(s'.db, id) + 1)
    ensures TriedFor(reg, s', id, s'.att[tok].pc)
    ensures Over(LogOf(s', id), Budget(reg, s.db.data[id].payload)) <= lost + if Beyond(reg, s', id) then 1 else 0
  {
    if s.att[tok].pc.Fetched? {
      ExecutedTry(reg, s, s', id, tok);
      OverSnoc(LogOf(s, id), s.att[tok].pc.tries, Budget(reg, s.db.data[id].payload));
    }
  }

  /** A try handed to the executor. */
  lemma ExecutedTry(reg: Registry, s: Sys, s': Sys, id: Id, tok: nat)
    requires Works(reg, s, s', id, tok) && s.att[tok].pc.Fetched? && TriedFor(reg, s, id, s.att[tok].pc)
    requires Rising(LogOf(s, id))
    ensures Rising(LogOf(s', id)) && Below(LogOf(s', id), RetryOf(s'.db, id) + 1)
    ensures TriedFor(reg, s', id, s'.att[tok].pc)
    ensures s.att[tok].pc.tries > Budget(reg, s.db.data[id].payload) ==> Beyond(reg, s', id)
  {
    var pc := s.att[tok].pc;
    var body :| s'.att[tok].pc == Executed(pc.tries, pc.payload, Decide(reg, pc.payload, pc.tries, pc.aborted, body));
    RisingSnoc(LogOf(s, id), pc.tries);
    RetryNeedsBudget(reg, pc.payload, pc.tries, pc.aborted, body);
    assert Has(s', tok, id);
  }

  lemma RisingSnoc(log: seq<int>, t: int)
    requires Rising(log) && Below(log, t) && t >= 1
    ensures Rising(log + [t]) && Below(log + [t], t + 1)
  {
  }

  lemma StagedTries(reg: Registry, s: Sys, s': Sys, id: Id, lost: nat)
    requires Tries(reg, s, id, lost) && Staged(s, s', id)
    ensures Tries(reg, s', id, 0)
  {
    RestTries(reg, s', id, 0);
  }

  lemma DroppedTries(reg: Registry, s: Sys, s': Sys, id: Id, lost: nat, more: nat)
    requires Tries(reg, s, id, lost) && Dropped(s, s', id)
    ensures Tries(reg, s', id, more)
  {
  }

  lemma MoreLost(reg: Registry, s: Sys, id: Id, lost: nat, more: nat)
    requires Tries(reg, s, id, lost) && more >= lost
    ensures Tries(reg, s, id, more)
  {
  }

  lemma TurnTries(reg: Registry, s: Sys, s': Sys, id: Id, lost: nat)
    requires TokenInv(s, id) && Tries(reg, s, id, lost) && (Turns(reg, s, s', id) || Reclaimed(s, s', id))
    ensures Tries(reg, s', id, Losses(s, s', id, lost))
  {
    if Untouched(s, s', id) {
      UntouchedTries(reg, s, s', id, lost);
    } else if Staged(s, s', id) {
      StagedTries(reg, s, s', id, lost);
    } else if Dropped(s, s', id) {
      DroppedTries(reg, s, s', id, lost, Losses(s, s', id, lost));
    } else {
      KeptTries(reg, s, s', id, lost);
      MoreLost(reg, s', id, lost, Losses(s, s', id, lost));
    }
  }

  lemma KeptTries(reg: Registry, s: Sys, s': Sys, id: Id, lost: nat)
    requires TokenInv(s, id) && Tries(reg, s, id, lost) && (Turns(reg, s, s', id) || Reclaimed(s, s', id))
    requires !Untouched(s, s', id) && !Staged(s, s', id) && !Dropped(s, s', id)
    ensures Tries(reg, s', id, lost) && id in s.db.data
  {
    if Resettled(s, s', id) {
      ResettledTries(reg, s, s', id, lost);
    } else if Reclaimed(s, s', id) {
      var tok :| TakenUp(s, s', id, tok);
      TakenTries(reg, s, s', id, lost, tok);
    } else if ReadAnew(s, s', id) {
      var tok :| TakenUp(s, s', id, tok);
      var p :| At(s.db, id, p) && Idle(s.db, p);
      IdleIsUnheld(s, id, p);
      TakenTries(reg, s, s', id, lost, tok);
    } else if tok :| Works(reg, s, s', id, tok) {
      HolderAt(s, tok, id);
      WorksTries(reg, s, s', id, lost, tok);
    } else {
      var tok :| LetGo(s, s', id, tok);
      LetGoTries(reg, s, s', id, lost, tok);
    }
  }

  lemma TriesStep(reg: Registry, s: Sys, a: Action, id: Id, lost: nat)
    requires TokenInv(s, id) && Tries(reg, s, id, lost) && Enabled(s, a) && Safe(s, a, id)
    ensures Tries(reg, Apply(reg, s, a), id, Losses(s, Apply(reg, s, a), id, lost))
  {
    StepTurns(reg, s, a, id);
    TurnTries(reg, s, Apply(reg, s, a), id, lost);
  }

  // ----- runs

  /** Attempts lost since the last staging of `id`, at the end of a run. */
  ghost function LostOver(reg: Registry, s: Sys, acts: seq<Action>, id: Id, lost: nat): nat
    requires CanRun(reg, s, acts)
    decreases |acts|
  {
    if acts == [] then lost
    else
      var s1 := Apply(reg, s, acts[0]);
      LostOver(reg, s1, acts[1..], id, Losses(s, s1, id, lost))
  }

  lemma {:induction false} RunTries(reg: Registry, s: Sys, acts: seq<Action>, id: Id, lost: nat)
    requires TokenInv(s, id) && Tries(reg, s, id, lost) && CanRun(reg, s, acts) && AllSafe(reg, s, acts, id)
    ensures Tries(reg, Run(reg, s, acts), id, LostOver(reg, s, acts, id, lost))
    decreases |acts|
  {
    if acts != [] {
      var s1 := Apply(reg, s, acts[0]);
      TokenStep(reg, s, acts[0], id);
      TriesStep(reg, s, acts[0], id, lost);
      RunTries(reg, s1, acts[1..], id, Losses(s, s1, id, lost));
    }
  }

  /** The tries handed over since a staging strictly increase, the next is above them all,
      and there are at most the budget plus one of them plus one for each attempt that was
      lost after its body had run. */
  lemma TriesRise(reg: Registry, lanes: nat, acts: seq<Action>, id: Id)
    requires CanRun(reg, Initial(lanes), acts) && AllSafe(reg, Initial(lanes), acts, id)
    requires id in Run(reg, Initial(lanes), acts).db.data
    ensures var s := Run(reg, Initial(lanes), acts);
            && Rising(LogOf(s, id))
            && |LogOf(s, id)| <= Budget(reg, s.db.data[id].payload) + 1 + LostOver(reg, Initial(lanes), acts, id, 0)
            && forall tok :: Has(s, tok, id) && s.att[tok].pc.Fetched? ==> Below(LogOf(s, id), s.att[tok].pc.tries)
  {
    var s := Run(reg, Initial(lanes), acts);
    InitialToken(lanes, id);
    RunTries(reg, Initial(lanes), acts, id, 0);
    RisingLength(LogOf(s, id), Budget(reg, s.db.data[id].payload));
    forall tok | Has(s, tok, id) && s.att[tok].pc.Fetched?
      ensures Below(LogOf(s, id), s.att[tok].pc.tries)
    {
      assert TriedFor(reg, s, id, s.att[tok].pc);
    }
  }
}
