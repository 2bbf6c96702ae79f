/** `Safe` is exact, task by task. A step that is not safe for a task, a reclaim of what
    somebody still holds of it or a staging of it with an expiry, always leaves a way to that
    task in two places or in one without its payload; a safe one never does. */
module Reclaims {
  import opened Wrappers
  import opened Store
  import opened Protocol
  import opened Stranding
  import opened Tokens
  import Runs = Progress

  lemma OneMore(reg: Registry, s: Sys, a: Action, acts: seq<Action>, id: Id)
    requires Enabled(s, a) && Safe(s, a, id)
    requires CanRun(reg, Apply(reg, s, a), acts) && AllSafe(reg, Apply(reg, s, a), acts, id)
    ensures CanRun(reg, s, [a] + acts) && AllSafe(reg, s, [a] + acts, id)
    ensures Run(reg, s, [a] + acts) == Run(reg, Apply(reg, s, a), acts)
  {
    assert ([a] + acts)[1..] == acts;
  }

  lemma {:induction false} Join(reg: Registry, s: Sys, a: seq<Action>, b: seq<Action>, id: Id)
    requires CanRun(reg, s, a) && AllSafe(reg, s, a, id)
    requires CanRun(reg, Run(reg, s, a), b) && AllSafe(reg, Run(reg, s, a), b, id)
    ensures CanRun(reg, s, a + b) && AllSafe(reg, s, a + b, id)
    ensures Run(reg, s, a + b) == Run(reg, Run(reg, s, a), b)
    decreases |a|
  {
    if a == [] {
      assert a + b == b;
    } else {
      assert (a + b)[0] == a[0] && (a + b)[1..] == a[1..] + b;
      Join(reg, Apply(reg, s, a[0]), a[1..], b, id);
    }
  }

  // ----- a holder works off what it holds

  function StepsLeft(pc: Pc): nat {
    match pc
    case Prefetched => 5
    case Counted(_) => 4
    case Marked(_) => 3
    case Fetched(_, _, _) => 2
    case _ => 1
  }

  /** `tok` has acknowledged its message, and its task has no payload any more. */
  ghost predicate EndedBy(s: Sys, s': Sys, tok: nat)
    requires HasTok(s, tok)
  {
    var m := s.att[tok].msg;
    && s'.att == s.att - {tok} && s'.db.data == s.db.data - {m.id}
    && s'.db.lanes == s.db.lanes[m.lane := XDrop(s.db.lanes[m.lane], m.sid)]
  }

  /** `tok` has acknowledged its message, and its task is scheduled again. */
  ghost predicate RetriedBy(s: Sys, s': Sys, tok: nat)
    requires HasTok(s, tok)
  {
    var m := s.att[tok].msg;
    && s'.att == s.att - {tok} && s'.db.data == s.db.data
    && exists at :: s'.db.lanes == s.db.lanes[m.lane := ZAdd(XDrop(s.db.lanes[m.lane], m.sid), m.id, at)]
  }

  lemma FinishEnds(reg: Registry, s: Sys, tok: nat)
    requires HasTok(s, tok) && s.att[tok].pc.Executed?
    ensures var s' := Apply(reg, s, Finish(tok, false, 0));
            if s.att[tok].pc.outcome.Retry? then RetriedBy(s, s', tok) else EndedBy(s, s', tok)
  {
    if s.att[tok].pc.outcome.Retry? {
      var pc, m := s.att[tok].pc, s.att[tok].msg;
      assert Apply(reg, s, Finish(tok, false, 0)).db.lanes
          == s.db.lanes[m.lane := ZAdd(XDrop(s.db.lanes[m.lane], m.sid), m.id, FireAt(0, pc.tries, pc.outcome.delayMs))];
    }
  }

  /** The next step of a holder, whose body breaks. */
  function NextOf(tok: nat, pc: Pc): Action {
    match pc
    case Prefetched => Incr(tok)
    case Counted(_) => Mark(tok, true)
    case Marked(_) => Fetch(tok)
    case _ => Execute(tok, Broken)
  }

  /** Only what `tok` knows of its task changes. */
  ghost predicate OnlyKnows(s: Sys, s': Sys, tok: nat)
    requires HasTok(s, tok)
  {
    && s'.db.lanes == s.db.lanes && s'.db.data == s.db.data && s'.att - {tok} == s.att - {tok}
    && HasTok(s', tok) && s'.att[tok].msg == s.att[tok].msg && !s'.att[tok].pc.Missing?
    && (s'.att[tok].pc.Executed? ==> s'.att[tok].pc.outcome == Failure)
    && StepsLeft(s'.att[tok].pc) < StepsLeft(s.att[tok].pc)
  }

  lemma MovesOnlyKnows(s: Sys, s': Sys, tok: nat, pc: Pc)
    requires HasTok(s, tok) && s'.att == s.att[tok := s.att[tok].(pc := pc)]
    requires s'.db.lanes == s.db.lanes && s'.db.data == s.db.data
    requires !pc.Missing? && (pc.Executed? ==> pc.outcome == Failure) && StepsLeft(pc) < StepsLeft(s.att[tok].pc)
    ensures OnlyKnows(s, s', tok)
  {
  }

  lemma NextOnlyKnows(reg: Registry, s: Sys, tok: nat)
    requires HasTok(s, tok) && !s.att[tok].pc.Missing? && !s.att[tok].pc.Executed? && s.att[tok].msg.id in s.db.data
    ensures var a := NextOf(tok, s.att[tok].pc);
            Enabled(s, a) && Safe(s, a, s.att[tok].msg.id) && OnlyKnows(s, Apply(reg, s, a), tok)
  {
    match s.att[tok].pc
    case Prefetched => MovesOnlyKnows(s, Incremented(s, tok), tok, Incremented(s, tok).att[tok].pc);
    case Counted(t) => MovesOnlyKnows(s, MarkedRunning(s, tok, true), tok, Marked(t));
    case Marked(_) => MovesOnlyKnows(s, PayloadFetched(s, tok), tok, PayloadFetched(s, tok).att[tok].pc);
    case Fetched(t, p, _) => MovesOnlyKnows(s, Ran(reg, s, tok, Broken), tok, Executed(t, p, Failure));
  }

  /** Whatever it has done so far, a holder whose payload is there can be brought to the end
      of its attempt, and the message goes. */
  lemma {:induction false} WorksOff(reg: Registry, s: Sys, tok: nat) returns (acts: seq<Action>)
    requires HasTok(s, tok) && !s.att[tok].pc.Missing? && s.att[tok].msg.id in s.db.data
    ensures CanRun(reg, s, acts) && AllSafe(reg, s, acts, s.att[tok].msg.id)
    ensures var s', pc := Run(reg, s, acts), s.att[tok].pc;
            if pc.Executed? && pc.outcome.Retry? then RetriedBy(s, s', tok) else EndedBy(s, s', tok)
    decreases StepsLeft(s.att[tok].pc)
  {
    if s.att[tok].pc.Executed? {
      var a := Finish(tok, false, 0);
      FinishEnds(reg, s, tok);
      OneMore(reg, s, a, [], s.att[tok].msg.id);
      acts := [a] + [];
    } else {
      var a := NextOf(tok, s.att[tok].pc);
      NextOnlyKnows(reg, s, tok);
      var s1 := Apply(reg, s, a);
      var rest := WorksOff(reg, s1, tok);
      OneMore(reg, s, a, rest, s.att[tok].msg.id);
      acts := [a] + rest;
      assert EndedBy(s1, Run(reg, s1, rest), tok);
    }
  }

  // ----- an unsafe reclaim

  /** The token `tok` and the one that reclaimed its entry, `n`, hold one message, and the
      payload is there. */
  ghost predicate HeldTwice(s: Sys, tok: nat, n: nat) {
    && HasTok(s, tok) && HasTok(s, n) && tok != n && s.att[tok].msg == s.att[n].msg
    && s.att[n].pc.Prefetched? && !s.att[tok].pc.Missing? && s.att[tok].msg.id in s.db.data
    && var m := s.att[tok].msg;
       m.sid < s.db.lanes[m.lane].next && LaneOk(s.db.lanes[m.lane])
  }

  /** The task is queued and nobody has read it, and whoever does will find nothing to run. */
  ghost predicate UnrunWithoutPayload(db: Db, id: Id) {
    id !in db.data && exists p :: At(db, id, p) && Idle(db, p)
  }

  /** The reclaimer finishes, the task is staged again, and then the first holder finishes:
      it acknowledges an entry that is gone, and deletes or reschedules the new staging. */
  lemma HeldTwiceBreaks(reg: Registry, s: Sys, tok: nat, n: nat) returns (acts: seq<Action>)
    requires HeldTwice(s, tok, n)
    ensures CanRun(reg, s, acts) && AllSafe(reg, s, acts, s.att[tok].msg.id)
    ensures !OnePlace(Run(reg, s, acts).db, s.att[tok].msg.id)
    ensures s.att[tok].pc.Prefetched? ==> UnrunWithoutPayload(Run(reg, s, acts).db, s.att[tok].msg.id)
  {
    var m := s.att[tok].msg;
    var first := WorksOff(reg, s, n);
    var s1 := Run(reg, s, first);
    var stage := Enqueue(m.lane, m.id, Payload("", ""), 0, 0, 0, true);
    var s2 := Apply(reg, s1, stage);
    assert s2.att[tok] == s.att[tok];
    var last := WorksOff(reg, s2, tok);
    OneMore(reg, s1, stage, last, m.id);
    Join(reg, s, first, [stage] + last, m.id);
    acts := first + ([stage] + last);
    StaleFinishBreaks(reg, s2, Run(reg, s2, last), tok, s.db.lanes[m.lane].next);
  }

  lemma StaleFinishBreaks(reg: Registry, s: Sys, s': Sys, tok: nat, sid: nat)
    requires HasTok(s, tok) && (EndedBy(s, s', tok) || RetriedBy(s, s', tok))
    requires var m := s.att[tok].msg;
             && sid != m.sid && At(s.db, m.id, Queued(m.lane, sid)) && Idle(s.db, Queued(m.lane, sid))
             && m.id in s.db.data
    ensures !OnePlace(s'.db, s.att[tok].msg.id)
    ensures EndedBy(s, s', tok) ==> UnrunWithoutPayload(s'.db, s.att[tok].msg.id)
  {
    var m := s.att[tok].msg;
    assert At(s'.db, m.id, Queued(m.lane, sid)) && Idle(s'.db, Queued(m.lane, sid));
    if RetriedBy(s, s', tok) {
      assert At(s'.db, m.id, Later(m.lane));
    }
  }

  lemma ReassignOk(l: Lane, sid: nat, w: Worker)
    requires LaneOk(l) && sid in l.pending
    ensures LaneOk(Reassign(l, sid, w)) && sid < l.next
  {
  }

  lemma TakenHoldsTwice(s: Sys, w: Worker, lane: nat, sid: nat, tok: nat)
    requires lane < |s.db.lanes| && LaneOk(s.db.lanes[lane]) && sid in s.db.lanes[lane].pending
    requires tok in s.att && tok < s.nextTok && !s.att[tok].pc.Missing? && s.att[tok].msg.id in s.db.data
    requires sid in s.db.lanes[lane].stream
    requires var item := s.db.lanes[lane].stream[sid]; s.att[tok].msg == Msg(lane, sid, item.id, item.time)
    ensures HeldTwice(Taken(s, w, lane, sid, Reassign(s.db.lanes[lane], sid, w)), tok, s.nextTok)
  {
    ReassignOk(s.db.lanes[lane], sid, w);
  }

  lemma ReclaimHoldsTwice(reg: Registry, s: Sys, w: Worker, lane: nat, sid: nat, tok: nat)
    requires Enabled(s, Reclaim(w, lane, sid)) && TokenInv(s, s.db.lanes[lane].stream[sid].id)
    requires tok in s.att && Spot(s.att[tok].msg) == Queued(lane, sid)
    ensures HeldTwice(Apply(reg, s, Reclaim(w, lane, sid)), tok, s.nextTok)
    ensures s.att[tok].msg.id == s.db.lanes[lane].stream[sid].id
  {
    var m := s.att[tok].msg;
    assert HeldIn(s.db.lanes[lane], m) && Has(s, tok, m.id);
    HolderAt(s, tok, m.id);
    TakenHoldsTwice(s, w, lane, sid, tok);
  }

  /** While the payload of `id` is a token: a reclaim of a message of it that somebody holds
      leaves a way to break it. */
  lemma UnsafeReclaimBreaks(reg: Registry, s: Sys, w: Worker, lane: nat, sid: nat, id: Id) returns (acts: seq<Action>)
    requires TokenInv(s, id) && Enabled(s, Reclaim(w, lane, sid)) && !Safe(s, Reclaim(w, lane, sid), id)
    ensures var s1 := Apply(reg, s, Reclaim(w, lane, sid));
            CanRun(reg, s1, acts) && AllSafe(reg, s1, acts, id) && !OnePlace(Run(reg, s1, acts).db, id)
  {
    var tok :| tok in s.att && Spot(s.att[tok].msg) == Queued(lane, sid);
    ReclaimHoldsTwice(reg, s, w, lane, sid, tok);
    acts := HeldTwiceBreaks(reg, Apply(reg, s, Reclaim(w, lane, sid)), tok, s.nextTok);
  }

  // ----- an expiring staging

  /** From any state: a staging with an expiry leaves its entry behind when it expires. */
  lemma UnsafeEnqueueBreaks(reg: Registry, s: Sys, a: Action, id: Id) returns (acts: seq<Action>)
    requires Enabled(s, a) && a.Enqueue? && !Safe(s, a, id)
    ensures var s1 := Apply(reg, s, a);
            CanRun(reg, s1, acts) && AllSafe(reg, s1, acts, id) && !OnePlace(Run(reg, s1, acts).db, id)
  {
    var s1 := Apply(reg, s, a);
    var expire := ExpireData(id);
    OneMore(reg, s1, expire, [], id);
    acts := [expire] + [];
    var s2 := Apply(reg, s1, expire);
    if a.score > 0 {
      assert At(s2.db, id, Later(a.lane));
    } else {
      assert At(s2.db, id, Queued(a.lane, s.db.lanes[a.lane].next));
    }
  }

  // ----- the condition is exact

  /** However the run goes on, with steps safe for `id`, it has one place while it has a
      payload and none otherwise. */
  ghost predicate StaysOnePlace(reg: Registry, s: Sys, id: Id) {
    forall acts :: CanRun(reg, s, acts) && AllSafe(reg, s, acts, id) ==> OnePlace(Run(reg, s, acts).db, id)
  }

  /** The token theorem with its exact condition, task by task: after a run of steps safe for
      `id`, a step keeps its payload a token, now and however the run goes on safely, if and
      only if the step is safe for `id`. What is done to other tasks does not matter. */
  lemma SafeIsExact(reg: Registry, s: Sys, a: Action, id: Id)
    requires SafelyReachable(reg, s, id) && Enabled(s, a)
    ensures Safe(s, a, id) <==> StaysOnePlace(reg, Apply(reg, s, a), id)
  {
    SafelyReachableInv(reg, s, id);
    var s1 := Apply(reg, s, a);
    if Safe(s, a, id) {
      TokenStep(reg, s, a, id);
      forall acts | CanRun(reg, s1, acts) && AllSafe(reg, s1, acts, id)
        ensures OnePlace(Run(reg, s1, acts).db, id)
      {
        RunSafely(reg, s1, acts, id);
        TokenInvOnePlace(Run(reg, s1, acts), id);
      }
    } else if a.Reclaim? {
      var acts := UnsafeReclaimBreaks(reg, s, a.worker, a.lane, a.sid, id);
      assert !OnePlace(Run(reg, s1, acts).db, id);
    } else {
      var acts := UnsafeEnqueueBreaks(reg, s, a, id);
      assert !OnePlace(Run(reg, s1, acts).db, id);
    }
  }

  // ----- what a reclaim is for

  /** When a worker crashes or loses its connection, what it held can be reclaimed, by a step
      safe for the task; and whoever does that holds the task again, with its payload. */
  lemma LostWorkIsTakenUp(reg: Registry, s: Sys, tok: nat, lost: Action, w: Worker, id: Id)
    requires TokenInv(s, id) && Has(s, tok, id) && Enabled(s, lost)
    requires lost == Abandon(tok) || lost == Crash(s.att[tok].worker)
    ensures var s1, m := Apply(reg, s, lost), s.att[tok].msg;
            var a := Reclaim(w, m.lane, m.sid);
            && Unheld(s1, id) && Enabled(s1, a) && Safe(s1, a, id)
            && var s2 := Apply(reg, s1, a);
               Has(s2, s.nextTok, id) && s2.att[s.nextTok] == Attempt(m, w, Prefetched) && id in s2.db.data
  {
    var m := s.att[tok].msg;
    HolderAt(s, tok, id);
    assert LaneOk(s.db.lanes[m.lane]) && HeldIn(s.db.lanes[m.lane], m);
    var s1 := Apply(reg, s, lost);
    forall t
      ensures !Has(s1, t, id)
    {
      assert Has(s1, t, id) ==> Has(s, t, id) && t != tok;
    }
    OnlyItsHolder(s1, m, id);
  }

  lemma OnlyItsHolder(s: Sys, m: Msg, id: Id)
    requires HeldOk(s) && Unheld(s, id) && m.lane < |s.db.lanes|
    requires m.sid in s.db.lanes[m.lane].stream && s.db.lanes[m.lane].stream[m.sid].id == id
    ensures forall t :: t in s.att ==> Spot(s.att[t].msg) != Spot(m)
  {
    forall t | t in s.att
      ensures Spot(s.att[t].msg) != Spot(m)
    {
      assert !Has(s, t, id);
    }
  }

  /** And when the worker was only slow, its next heartbeat takes the entry back under its own
      name, though the other holds the message too. */
  lemma HeartbeatTakesBack(reg: Registry, s: Sys, tok: nat, w: Worker)
    requires HasTok(s, tok) && !s.att[tok].pc.Prefetched? && tok < s.nextTok
    requires var m := s.att[tok].msg; Enabled(s, Reclaim(w, m.lane, m.sid))
    ensures var m := s.att[tok].msg;
            var s1 := Apply(reg, s, Reclaim(w, m.lane, m.sid));
            && s1.db.lanes[m.lane].pending[m.sid] == w && Enabled(s1, Renew(tok))
            && var s2 := Apply(reg, s1, Renew(tok));
               && m.sid in s2.db.lanes[m.lane].pending && s2.db.lanes[m.lane].pending[m.sid] == s.att[tok].worker
               && s2.att == s1.att && s.nextTok in s2.att
  {
  }

  // ----- such a reclaim can happen

  /** A worker has prefetched the only message of the queue, and another may reclaim it. */
  lemma UnsafeReclaimIsReachable(reg: Registry, id: Id, p: Payload) returns (acts: seq<Action>)
    ensures CanRun(reg, Initial(1), acts) && AllSafe(reg, Initial(1), acts, id)
    ensures var s, a := Run(reg, Initial(1), acts), Reclaim("other", 0, 1);
            && Enabled(s, a) && !Safe(s, a, id)
            && 0 in s.att && s.att[0] == Attempt(Msg(0, 1, id, 0), "holder", Prefetched)
  {
    var s0, stage, read := Initial(1), Enqueue(0, id, p, 0, 0, 0, true), Read("holder", 0, 1);
    var s1 := Apply(reg, s0, stage);
    OneMore(reg, s1, read, [], id);
    OneMore(reg, s0, stage, [read] + [], id);
    acts := [stage] + ([read] + []);
    assert Run(reg, s0, acts) == Apply(reg, s1, read);
    assert Spot(Apply(reg, s1, read).att[0].msg) == Queued(0, 1);
  }

  /** A run with one reclaim, at whose end a freshly staged task has lost its payload: it
      waits to be read, and whoever reads it will find nothing to run. */
  lemma StaleHolderDropsFreshStaging(reg: Registry, id: Id, p: Payload) returns (acts: seq<Action>)
    ensures CanRun(reg, Initial(1), acts) && UnrunWithoutPayload(Run(reg, Initial(1), acts).db, id)
  {
    var first := UnsafeReclaimIsReachable(reg, id, p);
    InitialToken(1, id);
    RunSafely(reg, Initial(1), first, id);
    var last := HolderLeftBehind(reg, Run(reg, Initial(1), first), 0, "other", 0, 1);
    Runs.JoinRuns(reg, Initial(1), first, last);
    acts := first + last;
  }

  lemma HolderLeftBehind(reg: Registry, s: Sys, tok: nat, w: Worker, lane: nat, sid: nat) returns (acts: seq<Action>)
    requires Enabled(s, Reclaim(w, lane, sid)) && TokenInv(s, s.db.lanes[lane].stream[sid].id)
    requires tok in s.att && Spot(s.att[tok].msg) == Queued(lane, sid) && s.att[tok].pc.Prefetched?
    ensures CanRun(reg, s, acts) && UnrunWithoutPayload(Run(reg, s, acts).db, s.att[tok].msg.id)
  {
    var a := Reclaim(w, lane, sid);
    ReclaimHoldsTwice(reg, s, w, lane, sid, tok);
    var last := HeldTwiceBreaks(reg, Apply(reg, s, a), tok, s.nextTok);
    Runs.OneStep(reg, s, a);
    Runs.JoinRuns(reg, s, [a], last);
    acts := [a] + last;
  }
}
