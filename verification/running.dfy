/** The running set: a task is in it while an attempt on it is under way, and what its status
    answers before and after. */
module Running {
  import opened Store
  import opened Protocol
  import opened Stranding
  import opened Tokens
  import S = Status

  /** The attempt has been marked as running and has not ended. */
  predicate Past(pc: Pc) {
    !pc.Prefetched? && !pc.Counted?
  }

  ghost predicate Underway(s: Sys, id: Id) {
    exists tok :: Has(s, tok, id) && Past(s.att[tok].pc)
  }

  /** The step loses no attempt on `id` to a crash or an error. */
  ghost predicate NoneLost(s: Sys, a: Action, id: Id) {
    && (a.Abandon? ==> !Has(s, a.tok, id))
    && (a.Crash? ==> forall tok :: Has(s, tok, id) ==> s.att[tok].worker != a.worker)
  }

  /** The SADD for `id` gets through. */
  ghost predicate Marks(s: Sys, a: Action, id: Id) {
    a.Mark? && Has(s, a.tok, id) ==> a.ok
  }

  // ----- step by step

  /** However a finish ends its attempt, the task is out of the running set. */
  lemma FinishEndsRunning(reg: Registry, s: Sys, a: Action)
    requires Enabled(s, a) && a.Finish?
    ensures var id := s.att[a.tok].msg.id;
            Apply(reg, s, a).db.running == s.db.running - {id}
  {
  }

  /** No other step takes a task out, and only the SADD of an attempt puts it in. */
  lemma RunningOtherwise(reg: Registry, s: Sys, a: Action)
    requires Enabled(s, a) && !a.Finish?
    ensures Apply(reg, s, a).db.running
         == if a.Mark? && a.ok then s.db.running + {s.att[a.tok].msg.id} else s.db.running
  {
    if a.Purge? {
      PurgeKeepsRunning(s.db, a.lane, a.ids, a.sids);
    }
  }

  lemma {:induction false} PurgeKeepsRunning(db: Db, lane: nat, ids: seq<Id>, sids: seq<nat>)
    requires lane < |db.lanes|
    requires Distinct(sids) && forall i :: 0 <= i < |sids| ==> sids[i] in db.lanes[lane].stream
    ensures Store.Purge(db, lane, ids, sids).running == db.running
    decreases |ids|, |sids|
  {
    if ids != [] {
      PurgeKeepsRunning(DropScheduled(db, lane, ids[0]), lane, ids[1..], sids);
    } else if sids != [] {
      PurgeKeepsRunning(DropWaiting(db, lane, sids[0]), lane, [], sids[1..]);
    }
  }

  /** An attempt under way stays so through everything but its finish and its loss. */
  lemma StaysUnderway(reg: Registry, s: Sys, a: Action, tok: nat, id: Id)
    requires HeldOk(s) && Enabled(s, a) && NoneLost(s, a, id) && !(a.Finish? && a.tok == tok)
    requires Has(s, tok, id) && Past(s.att[tok].pc)
    ensures Has(Apply(reg, s, a), tok, id) && Past(Apply(reg, s, a).att[tok].pc)
  {
    assert tok < s.nextTok;
    if a.Incr? || a.Mark? || a.Fetch? || a.Execute? {
      MovesOn(reg, s, a, tok, id);
    }
  }

  lemma MovesOn(reg: Registry, s: Sys, a: Action, tok: nat, id: Id)
    requires Enabled(s, a) && (a.Incr? || a.Mark? || a.Fetch? || a.Execute?)
    requires Has(s, tok, id) && Past(s.att[tok].pc)
    ensures Has(Apply(reg, s, a), tok, id) && Past(Apply(reg, s, a).att[tok].pc)
  {
  }

  lemma RunningStep(reg: Registry, s: Sys, a: Action, id: Id)
    requires HeldOk(s) && Enabled(s, a) && NoneLost(s, a, id) && (id in s.db.running ==> Underway(s, id))
    ensures id in Apply(reg, s, a).db.running ==> Underway(Apply(reg, s, a), id)
  {
    var s' := Apply(reg, s, a);
    if id in s'.db.running {
      if a.Finish? {
        FinishEndsRunning(reg, s, a);
      } else {
        RunningOtherwise(reg, s, a);
      }
      if a.Mark? && s.att[a.tok].msg.id == id {
        assert Has(s', a.tok, id) && Past(s'.att[a.tok].pc);
      } else {
        var tok :| Has(s, tok, id) && Past(s.att[tok].pc);
        StaysUnderway(reg, s, a, tok, id);
      }
    }
  }

  /** Whoever is under way was so before, or has just been marked. */
  ghost predicate WasPast(s: Sys, s': Sys, a: Action, tok: nat, id: Id) {
    Has(s', tok, id) && Past(s'.att[tok].pc) ==>
      Has(s, tok, id) && (Past(s.att[tok].pc) || (a.Mark? && a.tok == tok))
  }

  lemma AttemptWasPast(reg: Registry, s: Sys, a: Action, tok: nat, id: Id)
    requires Enabled(s, a) && (a.Incr? || a.Mark? || a.Fetch? || a.Execute?)
    ensures WasPast(s, Apply(reg, s, a), a, tok, id)
  {
  }

  lemma OthersWerePast(reg: Registry, s: Sys, a: Action, tok: nat, id: Id)
    requires Enabled(s, a) && !a.Incr? && !a.Mark? && !a.Fetch? && !a.Execute?
    ensures WasPast(s, Apply(reg, s, a), a, tok, id)
  {
  }

  lemma WasUnderway(reg: Registry, s: Sys, a: Action, id: Id)
    requires Enabled(s, a) && Underway(Apply(reg, s, a), id)
    ensures Underway(s, id) || (a.Mark? && Has(s, a.tok, id))
  {
    var s' := Apply(reg, s, a);
    var tok :| Has(s', tok, id) && Past(s'.att[tok].pc);
    if a.Incr? || a.Mark? || a.Fetch? || a.Execute? {
      AttemptWasPast(reg, s, a, tok, id);
    } else {
      OthersWerePast(reg, s, a, tok, id);
    }
  }

  /** The only holder ends: nobody is left. */
  lemma EndsAlone(reg: Registry, s: Sys, a: Action, id: Id)
    requires TokenFor(s, id) && Enabled(s, a) && a.Finish? && s.att[a.tok].msg.id == id
    ensures !Underway(Apply(reg, s, a), id)
  {
    assert Has(s, a.tok, id);
    assert Apply(reg, s, a).att == s.att - {a.tok};
  }

  lemma UnderwayStep(reg: Registry, s: Sys, a: Action, id: Id)
    requires TokenFor(s, id) && Enabled(s, a) && Marks(s, a, id) && (Underway(s, id) ==> id in s.db.running)
    ensures Underway(Apply(reg, s, a), id) ==> id in Apply(reg, s, a).db.running
  {
    if Underway(Apply(reg, s, a), id) {
      WasUnderway(reg, s, a, id);
      if a.Finish? {
        FinishEndsRunning(reg, s, a);
        assert s.att[a.tok].msg.id != id by {
          if s.att[a.tok].msg.id == id {
            EndsAlone(reg, s, a, id);
          }
        }
      } else {
        RunningOtherwise(reg, s, a);
      }
    }
  }

  // ----- runs

  ghost predicate AllKept(reg: Registry, s: Sys, acts: seq<Action>, id: Id)
    requires CanRun(reg, s, acts)
    decreases |acts|
  {
    acts != [] ==> NoneLost(s, acts[0], id) && AllKept(reg, Apply(reg, s, acts[0]), acts[1..], id)
  }

  ghost predicate AllMarked(reg: Registry, s: Sys, acts: seq<Action>, id: Id)
    requires CanRun(reg, s, acts)
    decreases |acts|
  {
    acts != [] ==> Marks(s, acts[0], id) && AllMarked(reg, Apply(reg, s, acts[0]), acts[1..], id)
  }

  lemma {:induction false} RunningRun(reg: Registry, s: Sys, acts: seq<Action>, id: Id)
    requires Inv(s) && CanRun(reg, s, acts) && AllKept(reg, s, acts, id) && (id in s.db.running ==> Underway(s, id))
    ensures id in Run(reg, s, acts).db.running ==> Underway(Run(reg, s, acts), id)
    decreases |acts|
  {
    if acts != [] {
      StepInv(reg, s, acts[0]);
      RunningStep(reg, s, acts[0], id);
      RunningRun(reg, Apply(reg, s, acts[0]), acts[1..], id);
    }
  }

  lemma {:induction false} UnderwayRun(reg: Registry, s: Sys, acts: seq<Action>, id: Id)
    requires TokenInv(s, id) && (Underway(s, id) ==> id in s.db.running)
    requires CanRun(reg, s, acts) && AllSafe(reg, s, acts, id) && AllMarked(reg, s, acts, id)
    ensures Underway(Run(reg, s, acts), id) ==> id in Run(reg, s, acts).db.running
    decreases |acts|
  {
    if acts != [] {
      TokenStep(reg, s, acts[0], id);
      UnderwayStep(reg, s, acts[0], id);
      UnderwayRun(reg, Apply(reg, s, acts[0]), acts[1..], id);
    }
  }

  /** In a run that loses no attempt on the task, whatever else happens to it: while it is in
      the running set, an attempt on it is under way. So it is never stuck there. */
  lemma RunningIsUnderway(reg: Registry, lanes: nat, acts: seq<Action>, id: Id)
    requires CanRun(reg, Initial(lanes), acts) && AllKept(reg, Initial(lanes), acts, id)
    ensures id in Run(reg, Initial(lanes), acts).db.running ==> Underway(Run(reg, Initial(lanes), acts), id)
  {
    InitialInv(lanes);
    RunningRun(reg, Initial(lanes), acts, id);
  }

  /** And in a run of steps safe for it in which its SADDs get through, crashes or not: while
      an attempt on it is under way, it is in the running set. */
  lemma UnderwayIsRunning(reg: Registry, lanes: nat, acts: seq<Action>, id: Id)
    requires CanRun(reg, Initial(lanes), acts)
    requires AllSafe(reg, Initial(lanes), acts, id) && AllMarked(reg, Initial(lanes), acts, id)
    ensures Underway(Run(reg, Initial(lanes), acts), id) ==> id in Run(reg, Initial(lanes), acts).db.running
  {
    InitialToken(lanes, id);
    UnderwayRun(reg, Initial(lanes), acts, id);
  }

  // ----- what status answers when an attempt has ended

  /** Every look sees `db`. */
  ghost predicate LooksAt(later: seq<Db>, db: Db) {
    |later| == |db.lanes| && forall i :: 0 <= i < |later| ==> later[i] == db
  }

  /** What a finish leaves of a task that is over. */
  ghost predicate OverWith(s: Sys, s': Sys, tok: nat, keep: bool, now: int)
    requires HasTok(s, tok) && s.att[tok].pc.Executed?
  {
    var m, pc := s.att[tok].msg, s.att[tok].pc;
    && m.id !in s'.db.data && m.id !in s'.db.retry && m.id !in s'.db.marks && m.id !in s'.db.running
    && s'.db.results == (if keep then s.db.results[m.id := Result(pc.outcome, pc.tries)] else s.db.results)
    && (pc.outcome.Dead? ==>
          && m.id in s'.db.dead && s'.db.dead[m.id] == DeadTask(pc.payload, Result(Dead, pc.tries), m.lane)
          && m.id in s'.db.deadIndex && s'.db.deadIndex[m.id] == now)
    && (!pc.outcome.Dead? ==> s'.db.dead == s.db.dead && s'.db.deadIndex == s.db.deadIndex)
  }

  /** A task that has ended is complete if its result is kept and not found if not, with no
      key and no place left. (A result kept from an earlier run of the id stays and shows.) */
  lemma StatusWhenOver(reg: Registry, s: Sys, tok: nat, keep: bool, now: int, id: Id, later: seq<Db>)
    requires TokenInv(s, id) && Has(s, tok, id)
    requires Enabled(s, Finish(tok, keep, now)) && s.att[tok].pc.Executed? && !s.att[tok].pc.outcome.Retry?
    requires LooksAt(later, Apply(reg, s, Finish(tok, keep, now)).db)
    ensures var s' := Apply(reg, s, Finish(tok, keep, now));
            && OverWith(s, s', tok, keep, now) && Nowhere(s'.db, id) && Unheld(s', id)
            && S.Answers(s'.db, later, id, if keep || id in s.db.results then S.Complete else S.NotFound)
  {
    TokenStep(reg, s, Finish(tok, keep, now), id);
    AbsentIsNowhere(Apply(reg, s, Finish(tok, keep, now)), id);
  }

  /** A task to be retried is scheduled, in its own lane, with its payload, its count and its
      marker as they were. */
  lemma StatusWhenRetried(reg: Registry, s: Sys, tok: nat, keep: bool, now: int, later: seq<Db>)
    requires Enabled(s, Finish(tok, keep, now)) && s.att[tok].pc.Executed? && s.att[tok].pc.outcome.Retry?
    requires s.att[tok].msg.id in s.db.data && s.att[tok].msg.id !in s.db.results
    requires LooksAt(later, Apply(reg, s, Finish(tok, keep, now)).db)
    ensures var s', m := Apply(reg, s, Finish(tok, keep, now)), s.att[tok].msg;
            && S.Answers(s'.db, later, m.id, S.IsScheduled) && m.id in s'.db.lanes[m.lane].delayed
            && s'.db.data == s.db.data && s'.db.retry == s.db.retry && s'.db.marks == s.db.marks
            && s'.db.results == s.db.results && m.id !in s'.db.running
  {
    var db, m := Apply(reg, s, Finish(tok, keep, now)).db, s.att[tok].msg;
    assert m.id in later[m.lane].lanes[m.lane].delayed;
  }

  /** A message whose payload had expired is discarded: its task is not found. */
  lemma StatusWhenDiscarded(reg: Registry, s: Sys, tok: nat, keep: bool, now: int, later: seq<Db>)
    requires Enabled(s, Finish(tok, keep, now)) && s.att[tok].pc.Missing?
    requires s.att[tok].msg.id !in s.db.data && s.att[tok].msg.id !in s.db.results
    requires LooksAt(later, Apply(reg, s, Finish(tok, keep, now)).db)
    ensures var s', id := Apply(reg, s, Finish(tok, keep, now)), s.att[tok].msg.id;
            && S.Answers(s'.db, later, id, S.NotFound)
            && id !in s'.db.running && id !in s'.db.retry && id !in s'.db.marks && s'.db.data == s.db.data
  {
  }

  /** A result answers for its task until its TTL passes. */
  lemma StatusWhenExpired(reg: Registry, s: Sys, id: Id, later: seq<Db>)
    requires id !in s.db.data && id !in s.db.running && LooksAt(later, Apply(reg, s, ExpireResult(id)).db)
    ensures S.Answers(Apply(reg, s, ExpireResult(id)).db, later, id, S.NotFound)
  {
  }

  /** In runs of steps safe for a task, in which no attempt on it is lost and its SADDs get
      through, the answer about an unfinished task is exact: running while an attempt is under
      way, scheduled in a delayed set, queued as an entry nobody has got that far with, and
      otherwise not found. */
  lemma StatusIsExact(reg: Registry, lanes: nat, acts: seq<Action>, id: Id, later: seq<Db>, st: S.Answer)
    requires CanRun(reg, Initial(lanes), acts) && AllSafe(reg, Initial(lanes), acts, id)
    requires AllKept(reg, Initial(lanes), acts, id) && AllMarked(reg, Initial(lanes), acts, id)
    requires var db := Run(reg, Initial(lanes), acts).db;
             id !in db.results && LooksAt(later, db) && S.Answers(db, later, id, st)
    ensures var s := Run(reg, Initial(lanes), acts);
            && (st.IsRunning? <==> Underway(s, id))
            && (st.IsScheduled? <==> exists p: Place :: p.Later? && At(s.db, id, p))
            && (st.IsQueued? <==> !Underway(s, id) && exists p: Place :: p.Queued? && At(s.db, id, p))
            && (st.NotFound? <==> Nowhere(s.db, id))
  {
    var s := Run(reg, Initial(lanes), acts);
    InitialToken(lanes, id);
    RunSafely(reg, Initial(lanes), acts, id);
    RunningIsUnderway(reg, lanes, acts, id);
    UnderwayIsRunning(reg, lanes, acts, id);
    PlaceIsSeen(s, id, later);
  }

  /** What the looks see of a task, by where it is. */
  lemma PlaceIsSeen(s: Sys, id: Id, later: seq<Db>)
    requires TokenInv(s, id) && LooksAt(later, s.db)
    ensures S.Seen(later, id) <==> exists p: Place :: p.Later? && At(s.db, id, p)
    ensures S.Seen(later, id) ==> !Underway(s, id) && !exists p: Place :: p.Queued? && At(s.db, id, p)
    ensures id in s.db.data <==> !Nowhere(s.db, id)
    ensures id !in s.db.data ==> !Underway(s, id)
  {
    TokenInvOnePlace(s, id);
    if id !in s.db.data {
      AbsentIsNowhere(s, id);
    }
    if p: Place :| p.Later? && At(s.db, id, p) {
      IdleIsUnheld(s, id, p);
      assert id in later[p.lane].lanes[p.lane].delayed;
    }
    if i :| 0 <= i < |later| && id in later[i].lanes[i].delayed {
      assert At(s.db, id, Later(i));
    }
  }
}
