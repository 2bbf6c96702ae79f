/** The dead letter queue: its hashes and its index name the same tasks, a task enters by
    dying and leaves only by a replay or a delete, and each death is replayed at most once. */
module DeadLetters {
  import opened Store
  import opened Protocol
  import opened Stranding
  import opened Tokens

  /** Entries left to replay or delete never outnumber deaths. */
  ghost predicate DeadInv(s: Sys) {
    && s.db.dead.Keys == s.db.deadIndex.Keys
    && forall id :: s.left[id] + (if id in s.db.dead then 1 else 0) <= s.died[id]
  }

  lemma {:induction false} PurgeSparesDead(db: Db, lane: nat, ids: seq<Id>, sids: seq<nat>)
    requires lane < |db.lanes|
    requires Distinct(sids) && forall i :: 0 <= i < |sids| ==> sids[i] in db.lanes[lane].stream
    ensures var db' := Store.Purge(db, lane, ids, sids); db'.dead == db.dead && db'.deadIndex == db.deadIndex
    decreases |ids|, |sids|
  {
    if ids != [] {
      PurgeSparesDead(DropScheduled(db, lane, ids[0]), lane, ids[1..], sids);
    } else if sids != [] {
      PurgeSparesDead(DropWaiting(db, lane, sids[0]), lane, [], sids[1..]);
    }
  }

  ghost predicate SameDead(s: Sys, s': Sys) {
    && s'.db.dead == s.db.dead && s'.db.deadIndex == s.db.deadIndex
    && s'.died == s.died && s'.left == s.left
  }

  lemma ClientsSpareDead(reg: Registry, s: Sys, a: Action)
    requires Enabled(s, a) && (a.Enqueue? || a.Promote? || a.Abort? || a.Purge?)
    ensures SameDead(s, Apply(reg, s, a))
  {
    if a.Purge? {
      PurgeSparesDead(s.db, a.lane, a.ids, a.sids);
    }
  }

  /** Every other step leaves the dead letter queue and its history alone. */
  lemma OthersSpareDead(reg: Registry, s: Sys, a: Action)
    requires Enabled(s, a) && !a.Finish? && !a.Replay? && !a.DeleteDead?
    ensures SameDead(s, Apply(reg, s, a))
  {
    if a.Enqueue? || a.Promote? || a.Abort? || a.Purge? {
      ClientsSpareDead(reg, s, a);
    }
  }

  lemma CompleteDead(s: Sys, tok: nat, keep: bool, now: int)
    requires DeadInv(s) && HasTok(s, tok) && s.att[tok].pc.Executed?
    ensures DeadInv(Completed(s, tok, keep, now))
  {
  }

  lemma FinishDead(reg: Registry, s: Sys, a: Action)
    requires DeadInv(s) && Enabled(s, a) && a.Finish?
    ensures DeadInv(Apply(reg, s, a))
  {
    if s.att[a.tok].pc.Executed? && !s.att[a.tok].pc.outcome.Retry? {
      CompleteDead(s, a.tok, a.keep, a.now);
    }
  }

  lemma LeaveDead(reg: Registry, s: Sys, a: Action)
    requires DeadInv(s) && Enabled(s, a) && (a.Replay? || a.DeleteDead?)
    ensures DeadInv(Apply(reg, s, a))
  {
  }

  lemma DeadStep(reg: Registry, s: Sys, a: Action)
    requires DeadInv(s) && Enabled(s, a)
    ensures DeadInv(Apply(reg, s, a))
  {
    if a.Finish? {
      FinishDead(reg, s, a);
    } else if a.Replay? || a.DeleteDead? {
      LeaveDead(reg, s, a);
    } else {
      OthersSpareDead(reg, s, a);
    }
  }

  lemma {:induction false} DeadRun(reg: Registry, s: Sys, acts: seq<Action>)
    requires DeadInv(s) && CanRun(reg, s, acts)
    ensures DeadInv(Run(reg, s, acts))
    decreases |acts|
  {
    if acts != [] {
      DeadStep(reg, s, acts[0]);
      DeadRun(reg, Apply(reg, s, acts[0]), acts[1..]);
    }
  }

  lemma FinishKeepsDead(reg: Registry, s: Sys, a: Action)
    requires Enabled(s, a) && a.Finish?
    ensures s.db.dead.Keys <= Apply(reg, s, a).db.dead.Keys
  {
  }

  /** A task leaves the dead letter queue only by a replay or a delete of its own id. */
  lemma LeavesByReplayOrDelete(reg: Registry, s: Sys, a: Action, id: Id)
    requires Enabled(s, a) && id in s.db.dead && id !in Apply(reg, s, a).db.dead
    ensures a == DeleteDead(id) || (a.Replay? && a.id == id)
    ensures Apply(reg, s, a).left[id] == s.left[id] + 1
  {
    if a.Finish? {
      FinishKeepsDead(reg, s, a);
    } else if !a.Replay? && !a.DeleteDead? {
      OthersSpareDead(reg, s, a);
    }
  }

  lemma FinishEnters(reg: Registry, s: Sys, a: Action, id: Id)
    requires Enabled(s, a) && a.Finish? && id !in s.db.dead && id in Apply(reg, s, a).db.dead
    ensures s.att[a.tok].msg.id == id && s.att[a.tok].pc.Executed? && s.att[a.tok].pc.outcome.Dead?
    ensures Apply(reg, s, a).db.dead[id].payload == s.att[a.tok].pc.payload
  {
  }

  /** It enters only when an attempt on it ends Dead: never by success, retry or abort. */
  lemma EntersByDying(reg: Registry, s: Sys, a: Action, id: Id)
    requires Enabled(s, a) && id !in s.db.dead && id in Apply(reg, s, a).db.dead
    ensures a.Finish? && s.att[a.tok].msg.id == id
    ensures s.att[a.tok].pc.Executed? && s.att[a.tok].pc.outcome.Dead?
    ensures Apply(reg, s, a).db.dead[id].payload == s.att[a.tok].pc.payload
  {
    if a.Finish? {
      FinishEnters(reg, s, a, id);
    } else if !a.Replay? && !a.DeleteDead? {
      OthersSpareDead(reg, s, a);
    }
  }

  /** An accepted replay leaves a payload to run: its own, or that of the task with the
      same id already live, which is kept with its place, its tries and its marker. */
  lemma ReplayKeepsLiveTask(reg: Registry, s: Sys, lane: nat, id: Id, p: Payload, now: int)
    requires Enabled(s, Replay(lane, id, p, now)) && id in s.db.dead
    ensures var s' := Apply(reg, s, Replay(lane, id, p, now));
            && id !in s'.db.dead && id in s'.db.data
            && (id in s.db.data ==> s'.db == s.db.(dead := s'.db.dead, deadIndex := s'.db.deadIndex))
            && (id !in s.db.data ==> s'.db.data[id].payload == p && id !in s'.db.results)
  {
  }

  /** An accepted replay leaves its task in exactly one place with its payload, out of the
      dead letter queue: where it already was, if one with its id was live, and otherwise a
      place of its own. */
  lemma ReplayLeavesOne(reg: Registry, s: Sys, lane: nat, id: Id, p: Payload, now: int)
    requires SafelyReachable(reg, s, id) && Enabled(s, Replay(lane, id, p, now)) && id in s.db.dead
    ensures var s' := Apply(reg, s, Replay(lane, id, p, now));
            && id !in s'.db.dead && id in s'.db.data
            && (exists q :: At(s'.db, id, q) && OnlyAt(s'.db, id, q))
            && (forall q :: id in s.db.data ==> (At(s'.db, id, q) <==> At(s.db, id, q)))
  {
    SafelyReachableInv(reg, s, id);
    ReplayKeepsLiveTask(reg, s, lane, id, p, now);
    TokenStep(reg, s, Replay(lane, id, p, now), id);
    TokenInvOnePlace(Apply(reg, s, Replay(lane, id, p, now)), id);
  }

  /** Replays of `id` that were accepted in a run, and replays that staged it. */
  ghost function Accepted(reg: Registry, s: Sys, acts: seq<Action>, id: Id): nat
    requires CanRun(reg, s, acts)
    decreases |acts|
  {
    if acts == [] then 0
    else
      (if acts[0].Replay? && acts[0].id == id && id in s.db.dead then 1 else 0)
      + Accepted(reg, Apply(reg, s, acts[0]), acts[1..], id)
  }

  lemma {:induction false} AcceptedLeave(reg: Registry, s: Sys, acts: seq<Action>, id: Id)
    requires CanRun(reg, s, acts)
    ensures s.left[id] + Accepted(reg, s, acts, id) <= Run(reg, s, acts).left[id]
    decreases |acts|
  {
    if acts != [] {
      LeftGrows(reg, s, acts[0], id);
      AcceptedLeave(reg, Apply(reg, s, acts[0]), acts[1..], id);
    }
  }

  lemma LeftGrows(reg: Registry, s: Sys, a: Action, id: Id)
    requires Enabled(s, a)
    ensures Apply(reg, s, a).left[id]
         >= s.left[id] + if a.Replay? && a.id == id && id in s.db.dead then 1 else 0
  {
  }

  /** Attempts on `id` that ended dead in a run. */
  ghost function Deaths(reg: Registry, s: Sys, acts: seq<Action>, id: Id): nat
    requires CanRun(reg, s, acts)
    decreases |acts|
  {
    if acts == [] then 0
    else
      (if Dies(s, acts[0], id) then 1 else 0) + Deaths(reg, Apply(reg, s, acts[0]), acts[1..], id)
  }

  ghost predicate Dies(s: Sys, a: Action, id: Id)
    requires Enabled(s, a)
  {
    a.Finish? && s.att[a.tok].msg.id == id && s.att[a.tok].pc.Executed? && s.att[a.tok].pc.outcome.Dead?
  }

  lemma DiedStep(reg: Registry, s: Sys, a: Action, id: Id)
    requires Enabled(s, a)
    ensures Apply(reg, s, a).died[id] == s.died[id] + if Dies(s, a, id) then 1 else 0
  {
    if !a.Finish? && !a.Replay? && !a.DeleteDead? {
      OthersSpareDead(reg, s, a);
    }
  }

  lemma {:induction false} DiedIsDeaths(reg: Registry, s: Sys, acts: seq<Action>, id: Id)
    requires CanRun(reg, s, acts)
    ensures Run(reg, s, acts).died[id] == s.died[id] + Deaths(reg, s, acts, id)
    decreases |acts|
  {
    if acts != [] {
      DiedStep(reg, s, acts[0], id);
      DiedIsDeaths(reg, Apply(reg, s, acts[0]), acts[1..], id);
    }
  }

  /** However many replays of one dead task race, each death is replayed at most once. */
  lemma EachDeathReplayedOnce(reg: Registry, lanes: nat, acts: seq<Action>, id: Id)
    requires CanRun(reg, Initial(lanes), acts)
    ensures var s0, s := Initial(lanes), Run(reg, Initial(lanes), acts);
            && s.db.dead.Keys == s.db.deadIndex.Keys
            && Accepted(reg, s0, acts, id) + (if id in s.db.dead then 1 else 0) <= Deaths(reg, s0, acts, id)
  {
    DeadRun(reg, Initial(lanes), acts);
    AcceptedLeave(reg, Initial(lanes), acts, id);
    DiedIsDeaths(reg, Initial(lanes), acts, id);
  }
}
