/** Abort safety: an abort marker never outlives its task, and while it lasts no attempt
    that picks the task up runs its body. */
module Aborts {
  import opened Store
  import opened Protocol
  import opened Stranding
  import opened Tokens

  // ----- a marker exists only while the payload does

  ghost predicate MarkOwned(db: Db, id: Id) {
    (id in db.marks ==> id in db.data) && (id in db.data ==> !db.data[id].volatile)
  }

  /** The step stages nothing under `id` with an `expire_ms`. */
  ghost predicate NoExpiry(a: Action, id: Id) {
    a.Enqueue? && a.id == id ==> a.expire <= 0
  }

  lemma {:induction false} PurgeKeepsMarkOwned(db: Db, lane: nat, ids: seq<Id>, sids: seq<nat>, id: Id)
    requires lane < |db.lanes|
    requires Distinct(sids) && forall i :: 0 <= i < |sids| ==> sids[i] in db.lanes[lane].stream
    requires MarkOwned(db, id)
    ensures MarkOwned(Store.Purge(db, lane, ids, sids), id)
    decreases |ids|, |sids|
  {
    if ids != [] {
      PurgeKeepsMarkOwned(DropScheduled(db, lane, ids[0]), lane, ids[1..], sids, id);
    } else if sids != [] {
      PurgeKeepsMarkOwned(DropWaiting(db, lane, sids[0]), lane, [], sids[1..], id);
    }
  }

  lemma StagingMark(reg: Registry, s: Sys, a: Action, id: Id)
    requires MarkOwned(s.db, id) && Enabled(s, a) && NoExpiry(a, id) && (a.Enqueue? || a.Replay?)
    ensures MarkOwned(Apply(reg, s, a).db, id)
  {
  }

  lemma EndingMark(reg: Registry, s: Sys, a: Action, id: Id)
    requires MarkOwned(s.db, id) && Enabled(s, a) && (a.Finish? || a.Abort?)
    ensures MarkOwned(Apply(reg, s, a).db, id)
  {
  }

  lemma MarkOwnedStep(reg: Registry, s: Sys, a: Action, id: Id)
    requires MarkOwned(s.db, id) && Enabled(s, a) && NoExpiry(a, id)
    ensures MarkOwned(Apply(reg, s, a).db, id)
  {
    if a.Purge? {
      PurgeKeepsMarkOwned(s.db, a.lane, a.ids, a.sids, id);
    } else if a.Enqueue? || a.Replay? {
      StagingMark(reg, s, a, id);
    } else if a.Finish? || a.Abort? {
      EndingMark(reg, s, a, id);
    }
  }

  lemma {:induction false} MarkOwnedRun(reg: Registry, s: Sys, acts: seq<Action>, id: Id)
    requires MarkOwned(s.db, id) && CanRun(reg, s, acts)
    requires forall i :: 0 <= i < |acts| ==> NoExpiry(acts[i], id)
    ensures MarkOwned(Run(reg, s, acts).db, id)
    decreases |acts|
  {
    if acts != [] {
      MarkOwnedStep(reg, s, acts[0], id);
      MarkOwnedRun(reg, Apply(reg, s, acts[0]), acts[1..], id);
    }
  }

  /** For a task without `expire_ms`, whatever the others have and reclaims and stale workers
      included: at any moment of any run its marker is there only while its payload is, so no
      fresh run of it inherits one. */
  lemma MarkerNeedsPayload(reg: Registry, lanes: nat, acts: seq<Action>, id: Id)
    requires CanRun(reg, Initial(lanes), acts)
    requires forall i :: 0 <= i < |acts| ==> NoExpiry(acts[i], id)
    ensures id in Run(reg, Initial(lanes), acts).db.marks ==> id in Run(reg, Initial(lanes), acts).db.data
  {
    MarkOwnedRun(reg, Initial(lanes), acts, id);
  }

  // ----- an accepted abort holds

  /** Since the abort was accepted, in staging number `n` of `id`: either that staging is
      over, or its marker is still there. */
  ghost predicate Stands(s: Sys, id: Id, n: nat) {
    s.staged[id] >= n && (s.staged[id] == n && id in s.db.data ==> id in s.db.marks)
  }

  lemma StagedGrows(reg: Registry, s: Sys, a: Action, id: Id)
    requires Enabled(s, a)
    ensures Apply(reg, s, a).staged[id] >= s.staged[id]
  {
  }

  /** A marker goes only with its payload, with its TTL, or with a discard of its message. */
  lemma MarkGoesWithPayload(reg: Registry, s: Sys, a: Action, id: Id)
    requires Enabled(s, a) && id in s.db.marks && a != ExpireMark(id)
    requires a.Finish? && s.att[a.tok].msg.id == id ==> !s.att[a.tok].pc.Missing?
    ensures id in Apply(reg, s, a).db.data ==> id in Apply(reg, s, a).db.marks
  {
    if a.Purge? {
      PurgeOnlyForgets(s.db, a.lane, a.ids, a.sids);
    }
  }

  lemma StandsStep(reg: Registry, s: Sys, a: Action, id: Id, n: nat)
    requires TokenInv(s, id) && Enabled(s, a) && a != ExpireMark(id)
    requires Stands(s, id, n)
    ensures Stands(Apply(reg, s, a), id, n)
  {
    StagedGrows(reg, s, a, id);
    if id in s.db.marks {
      MarkGoesWithPayload(reg, s, a, id);
    } else if id !in s.db.data {
      AbsentStaysAbsent(reg, s, a, id);
    } else {
      // A later staging: nothing left to show.
      assert s.staged[id] > n;
    }
  }

  lemma {:induction false} StandsOverRun(reg: Registry, s: Sys, acts: seq<Action>, id: Id, n: nat)
    requires TokenInv(s, id) && CanRun(reg, s, acts) && AllSafe(reg, s, acts, id)
    requires forall i :: 0 <= i < |acts| ==> acts[i] != ExpireMark(id)
    requires Stands(s, id, n)
    ensures TokenInv(Run(reg, s, acts), id) && Stands(Run(reg, s, acts), id, n)
    decreases |acts|
  {
    if acts != [] {
      StandsStep(reg, s, acts[0], id, n);
      TokenStep(reg, s, acts[0], id);
      StandsOverRun(reg, Apply(reg, s, acts[0]), acts[1..], id, n);
    }
  }

  lemma AbortStands(s: Sys, id: Id, keep: bool)
    requires AbortAccepted(s.db, id)
    ensures Stands(s.(db := Store.Abort(s.db, id, keep)), id, s.staged[id])
  {
  }

  /** Where things stand some way into a run that starts with an accepted abort. */
  lemma AfterAbort(reg: Registry, s: Sys, id: Id, keep: bool, acts: seq<Action>)
    requires TokenInv(s, id) && AbortAccepted(s.db, id)
    requires CanRun(reg, Apply(reg, s, Abort(id, keep)), acts) && AllSafe(reg, Apply(reg, s, Abort(id, keep)), acts, id)
    requires forall i :: 0 <= i < |acts| ==> acts[i] != ExpireMark(id)
    ensures var s2 := Run(reg, Apply(reg, s, Abort(id, keep)), acts);
            TokenInv(s2, id) && Stands(s2, id, s.staged[id])
  {
    TokenStep(reg, s, Abort(id, keep), id);
    AbortStands(s, id, keep);
    StandsOverRun(reg, Apply(reg, s, Abort(id, keep)), acts, id, s.staged[id]);
  }

  /** `tok` is about to fetch the payload of `id`, in staging number `n` of it. */
  ghost predicate AboutToPickUp(s: Sys, tok: nat, id: Id, n: nat) {
    Enabled(s, Fetch(tok)) && s.att[tok].msg.id == id && s.staged[id] == n
  }

  /** The executor is told of the abort, and whatever the body would do, the attempt ends
      aborted, or as a failure if the callback itself breaks. */
  ghost predicate EndsAborted(reg: Registry, s: Sys, tok: nat, body: Body)
    requires Enabled(s, Fetch(tok))
  {
    var s1 := Apply(reg, s, Fetch(tok));
    && s1.att[tok].pc.Fetched? && s1.att[tok].pc.aborted && Enabled(s1, Execute(tok, body))
    && var pc := Apply(reg, s1, Execute(tok, body)).att[tok].pc;
       pc.Executed? && pc.outcome == if body.Broken? then Failure else Aborted
  }

  lemma ToldEndsAborted(reg: Registry, s: Sys, tok: nat, body: Body)
    requires HasTok(s, tok) && s.att[tok].pc.Fetched? && s.att[tok].pc.aborted
    ensures var pc := Apply(reg, s, Execute(tok, body)).att[tok].pc;
            pc.Executed? && pc.outcome == if body.Broken? then Failure else Aborted
  {
  }

  lemma PickupIsTold(reg: Registry, s: Sys, tok: nat, id: Id, n: nat, body: Body)
    requires TokenInv(s, id) && AboutToPickUp(s, tok, id, n) && Stands(s, id, n)
    ensures EndsAborted(reg, s, tok, body)
  {
    HolderAt(s, tok, id);
    ToldEndsAborted(reg, PayloadFetched(s, tok), tok, body);
  }

  /** From an accepted abort on, while its marker's TTL lasts: whenever the same staging is
      picked up, by a retry or after a crash and a reclaim, the executor is told so and the
      body does not run. */
  lemma NoBodyAfterAbort(reg: Registry, s: Sys, id: Id, keep: bool, acts: seq<Action>, tok: nat, body: Body)
    requires SafelyReachable(reg, s, id) && AbortAccepted(s.db, id)
    requires CanRun(reg, Apply(reg, s, Abort(id, keep)), acts) && AllSafe(reg, Apply(reg, s, Abort(id, keep)), acts, id)
    requires forall i :: 0 <= i < |acts| ==> acts[i] != ExpireMark(id)
    requires AboutToPickUp(Run(reg, Apply(reg, s, Abort(id, keep)), acts), tok, id, s.staged[id])
    ensures EndsAborted(reg, Run(reg, Apply(reg, s, Abort(id, keep)), acts), tok, body)
  {
    SafelyReachableInv(reg, s, id);
    AfterAbort(reg, s, id, keep, acts);
    PickupIsTold(reg, Run(reg, Apply(reg, s, Abort(id, keep)), acts), tok, id, s.staged[id], body);
  }

  /** No longer than that: once the marker's TTL has passed, a pickup is told nothing. */
  lemma MarkerPasses(reg: Registry, s: Sys, tok: nat)
    requires Enabled(s, Fetch(tok)) && s.att[tok].msg.id in s.db.data
    ensures var s1 := Apply(reg, s, ExpireMark(s.att[tok].msg.id));
            Enabled(s1, Fetch(tok)) && Apply(reg, s1, Fetch(tok)).att[tok].pc.Fetched?
            && !Apply(reg, s1, Fetch(tok)).att[tok].pc.aborted
  {
  }

  lemma AbortLeavesRest(s: Sys, id: Id, keep: bool)
    requires id in s.db.running || !Store.Scheduled(s.db, id)
    ensures Store.Abort(s.db, id, keep) == if AbortAccepted(s.db, id) then s.db.(marks := s.db.marks + {id}) else s.db
  {
  }

  /** An abort of a task that only waits for its time ends it there and then: it is nowhere
      any more, with no payload, retry count or marker, and its result says so if kept. Any
      other accepted abort leaves the task in its one place, marked, for a worker to end. */
  lemma AbortEndsOrMarks(reg: Registry, s: Sys, id: Id, keep: bool)
    requires SafelyReachable(reg, s, id) && AbortAccepted(s.db, id)
    ensures var db := Apply(reg, s, Abort(id, keep)).db;
            if Unstarted(s.db, id) then
              && id !in db.data && id !in db.marks && id !in db.retry && (forall p :: !At(db, id, p))
              && db.results == if keep then s.db.results[id := Result(Aborted, 0)] else s.db.results
            else
              && db == s.db.(marks := s.db.marks + {id})
              && exists p :: At(db, id, p) && OnlyAt(db, id, p)
  {
    SafelyReachableInv(reg, s, id);
    TokenStep(reg, s, Abort(id, keep), id);
    TokenInvOnePlace(Apply(reg, s, Abort(id, keep)), id);
    if !Unstarted(s.db, id) {
      AbortLeavesRest(s, id, keep);
    }
  }
}
