/** What a task's status says of where the task is. */
module Status {
  import opened Store
  import opened Protocol
  import opened Stranding
  import opened Tokens

  datatype Answer = Complete | IsRunning | NotFound | IsScheduled | IsQueued

  /** Queue::status. It looks once at the task's keys, and then at one delayed set after
      another, with an await before each: `later[i]` is what there is when lane `i` is asked. */
  method StatusOf(first: Db, later: seq<Db>, id: Id) returns (st: Answer)
    requires forall i :: 0 <= i < |later| ==> i < |later[i].lanes|
    ensures Answers(first, later, id, st)
    // As good as one look, exactly if the task was not scheduled or unscheduled in between.
    ensures st.IsScheduled? || st.IsQueued? ==>
              (Says(first, id, st) <==> (Store.Scheduled(first, id) <==> Seen(later, id)))
  {
    if id in first.results {
      return Complete;
    }
    if id in first.running {
      return IsRunning;
    }
    if id !in first.data {
      return NotFound;
    }
    var lane := 0;
    while lane < |later|
      invariant 0 <= lane <= |later|
      invariant forall i :: 0 <= i < lane ==> id !in later[i].lanes[i].delayed
    {
      if id in later[lane].lanes[lane].delayed {
        return IsScheduled;
      }
      lane := lane + 1;
    }
    return IsQueued;
  }

  /** A result hides everything else, then comes running, then whether there is a payload. */
  ghost predicate Answers(first: Db, later: seq<Db>, id: Id, st: Answer)
    requires forall i :: 0 <= i < |later| ==> i < |later[i].lanes|
  {
    && (st.Complete? <==> id in first.results)
    && (st.IsRunning? <==> id !in first.results && id in first.running)
    && (st.NotFound? <==> id !in first.results && id !in first.running && id !in first.data)
    && (st.IsScheduled? || st.IsQueued? ==> Waits(first, id) && (st.IsScheduled? <==> Seen(later, id)))
  }

  /** Its keys say that it is to be run and not yet running. */
  predicate Waits(db: Db, id: Id) {
    id in db.data && id !in db.results && id !in db.running
  }

  /** Some lane has it delayed at the moment that lane is asked. */
  ghost predicate Seen(later: seq<Db>, id: Id)
    requires forall i :: 0 <= i < |later| ==> i < |later[i].lanes|
  {
    exists i :: 0 <= i < |later| && id in later[i].lanes[i].delayed
  }

  /** The state in which `st` is the answer about an unfinished task. */
  ghost predicate Says(db: Db, id: Id, st: Answer) {
    && Waits(db, id)
    && (st.IsScheduled? <==> Store.Scheduled(db, id)) && (st.IsQueued? <==> !Store.Scheduled(db, id))
  }

  /** `scheduled` means the task waits in one delayed set, with no entry in any stream and
      in nobody's hands; `queued`, that it is one stream entry and in no delayed set. */
  lemma StatusIsPlace(reg: Registry, s: Sys, id: Id, st: Answer)
    requires SafelyReachable(reg, s, id) && Says(s.db, id, st)
    ensures st.IsScheduled? || st.IsQueued?
    ensures st.IsScheduled? ==> Unheld(s, id) && exists p: Place :: p.Later? && At(s.db, id, p) && OnlyAt(s.db, id, p)
    ensures st.IsQueued? ==> exists p: Place :: p.Queued? && At(s.db, id, p) && OnlyAt(s.db, id, p)
  {
    SafelyReachableInv(reg, s, id);
    TokenInvOnePlace(s, id);
    var p :| At(s.db, id, p) && OnlyAt(s.db, id, p);
    if st.IsScheduled? {
      var i :| 0 <= i < |s.db.lanes| && id in s.db.lanes[i].delayed;
      assert At(s.db, id, Later(i));
      IdleIsUnheld(s, id, p);
    }
  }

  /** `not_found` means the task is nowhere: no lane has it and no worker holds it. */
  lemma NotFoundIsNowhere(reg: Registry, s: Sys, id: Id)
    requires SafelyReachable(reg, s, id) && id !in s.db.data
    ensures Nowhere(s.db, id) && Unheld(s, id)
  {
    SafelyReachableInv(reg, s, id);
    AbsentIsNowhere(s, id);
  }

  /** A unique call made again does not report the last run's result: from the moment it is
      staged its status is where it was put. */
  lemma RestagedIsNotComplete(reg: Registry, s: Sys, a: Action)
    requires Enabled(s, a) && a.Enqueue? && a.reset && a.id !in s.db.data && a.id !in s.db.running
    requires SafelyReachable(reg, s, a.id)
    ensures Says(Apply(reg, s, a).db, a.id, if a.score > 0 then IsScheduled else IsQueued)
  {
    var db := Apply(reg, s, a).db;
    OnePlacePerPayload(reg, s, a.id);
    forall i | 0 <= i < |s.db.lanes|
      ensures a.id !in s.db.lanes[i].delayed
    {
      assert !At(s.db, a.id, Later(i));
    }
    if a.score > 0 {
      assert a.id in db.lanes[a.lane].delayed;
    }
  }

  /** `scheduled` is true when it is seen: at that moment the task is in that delayed set and
      nowhere else, with its payload, and in nobody's hands. */
  lemma SeenIsScheduled(reg: Registry, s: Sys, id: Id, lane: nat)
    requires SafelyReachable(reg, s, id) && lane < |s.db.lanes| && id in s.db.lanes[lane].delayed
    ensures id in s.db.data && At(s.db, id, Later(lane)) && OnlyAt(s.db, id, Later(lane)) && Unheld(s, id)
  {
    SafelyReachableInv(reg, s, id);
    assert At(s.db, id, Later(lane));
    IdleIsUnheld(s, id, Later(lane));
  }

  /** `queued` need not be true at any moment: a scheduled task that is aborted between the
      looks is reported as queued, though it was scheduled and then gone. */
  lemma QueuedThoughNever(reg: Registry, id: Id, p: Payload)
    ensures var first := Enqueued(Initial(1), 0, id, p, 1, 0, 0, true);
            var after := Apply(reg, first, Abort(id, false));
            && Says(first.db, id, IsScheduled) && !Seen([after.db], id)
            && Nowhere(after.db, id) && !Waits(after.db, id)
  {
    var first := Enqueued(Initial(1), 0, id, p, 1, 0, 0, true);
    assert id in first.db.lanes[0].delayed;
    InitialToken(1, id);
    TokenStep(reg, Initial(1), Enqueue(0, id, p, 1, 0, 0, true), id);
    OwnAborts(first, false, id);
  }
}
