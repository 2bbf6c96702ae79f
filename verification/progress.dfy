/** A task whose payload exists can always still be run: from every reachable state, a
    worker that only promotes, reads, reclaims and picks up reaches its payload. */
module Progress {
  import opened Store
  import opened Protocol
  import opened Stranding

  // ----- joining runs

  lemma {:induction false} JoinRuns(reg: Registry, s: Sys, a: seq<Action>, b: seq<Action>)
    requires CanRun(reg, s, a) && CanRun(reg, Run(reg, s, a), b)
    ensures CanRun(reg, s, a + b) && Run(reg, s, a + b) == Run(reg, Run(reg, s, a), b)
    decreases |a|
  {
    if a == [] {
      assert a + b == b;
    } else {
      assert (a + b)[0] == a[0] && (a + b)[1..] == a[1..] + b;
      JoinRuns(reg, Apply(reg, s, a[0]), a[1..], b);
    }
  }

  lemma OneStep(reg: Registry, s: Sys, a: Action)
    requires Enabled(s, a)
    ensures CanRun(reg, s, [a]) && Run(reg, s, [a]) == Apply(reg, s, a)
  {
    var s' := Apply(reg, s, a);
    assert [a][1..] == [];
    assert CanRun(reg, s', []) && Run(reg, s', []) == s';
  }

  lemma StepFirst(reg: Registry, s: Sys, a: Action, acts: seq<Action>)
    requires Enabled(s, a) && CanRun(reg, Apply(reg, s, a), acts)
    ensures CanRun(reg, s, [a] + acts) && Run(reg, s, [a] + acts) == Run(reg, Apply(reg, s, a), acts)
  {
    assert ([a] + acts)[1..] == acts;
  }

  // ----- choosing what to do

  lemma {:induction false} HeadExists(l: Lane, sid: nat) returns (head: nat)
    requires sid in l.stream && sid > l.last
    ensures IsHead(l, head) && head <= sid
    decreases sid
  {
    if smaller: nat :| smaller in l.stream && l.last < smaller < sid {
      head := HeadExists(l, smaller);
    } else {
      head := sid;
    }
  }

  lemma {:induction false} EarliestExists(l: Lane, ids: set<Id>) returns (first: Id)
    requires ids != {} && forall id :: id in ids ==> id in l.delayed
    ensures first in ids && forall id :: id in ids ==> l.delayed[first] <= l.delayed[id]
    decreases |ids|
  {
    first :| first in ids;
    var rest := ids - {first};
    assert ids == rest + {first};
    if rest != {} {
      var other := EarliestExists(l, rest);
      if l.delayed[other] < l.delayed[first] {
        first := other;
      }
    }
  }

  /** The listing ZRANGE returns always exists. */
  lemma {:induction false} InOrder(l: Lane, ids: set<Id>) returns (due: seq<Id>)
    requires forall id :: id in ids ==> id in l.delayed
    ensures Distinct(due) && forall id :: id in due <==> id in ids
    ensures forall i, j :: 0 <= i < j < |due| ==> l.delayed[due[i]] <= l.delayed[due[j]]
    decreases |ids|
  {
    due := [];
    if ids != {} {
      var first := EarliestExists(l, ids);
      var rest := InOrder(l, ids - {first});
      assert forall i :: 0 <= i < |rest| ==> rest[i] in rest;
      due := [first] + rest;
    }
  }

  lemma DueListing(l: Lane, now: int) returns (due: seq<Id>)
    requires LaneOk(l)
    ensures IsDue(l, now, due)
  {
    due := InOrder(l, set x | x in l.delayed && l.delayed[x] <= now);
  }

  /** A promoted task has a new entry nobody has read. */
  ghost predicate Unread(l: Lane, sid: nat, id: Id) {
    sid in l.stream && sid > l.last && l.stream[sid].id == id
  }

  lemma {:induction false} PromoteKeepsUnread(l: Lane, due: seq<Id>, sid: nat, id: Id)
    requires Distinct(due) && forall i :: 0 <= i < |due| ==> due[i] in l.delayed
    requires Unread(l, sid, id) && forall x :: x in l.stream ==> x < l.next
    ensures Unread(Store.Promote(l, due), sid, id)
    decreases |due|
  {
    if due != [] {
      PromoteKeepsUnread(PromoteOne(l, due[0]), due[1..], sid, id);
    }
  }

  lemma {:induction false} PromoteQueues(l: Lane, due: seq<Id>, id: Id) returns (sid: nat)
    requires LaneOk(l) && id in due
    requires Distinct(due) && forall i :: 0 <= i < |due| ==> due[i] in l.delayed
    ensures Unread(Store.Promote(l, due), sid, id)
    decreases |due|
  {
    var l' := PromoteOne(l, due[0]);
    XAddOk(ZRem(l, due[0]), due[0], l.delayed[due[0]]);
    if due[0] == id {
      sid := l.next;
      PromoteKeepsUnread(l', due[1..], sid, id);
    } else {
      sid := PromoteQueues(l', due[1..], id);
    }
  }

  lemma {:induction false} PromoteKeepsLast(l: Lane, due: seq<Id>)
    requires Distinct(due) && forall i :: 0 <= i < |due| ==> due[i] in l.delayed
    ensures Store.Promote(l, due).last == l.last
    decreases |due|
  {
    if due != [] {
      PromoteKeepsLast(PromoteOne(l, due[0]), due[1..]);
    }
  }

  // ----- getting hold of the task

  ghost predicate Holds(s: Sys, tok: nat, w: Worker, id: Id) {
    HasTok(s, tok) && s.att[tok].worker == w && s.att[tok].msg.id == id && s.att[tok].pc.Prefetched?
  }

  lemma {:induction false} ReadUpTo(reg: Registry, s: Sys, w: Worker, lane: nat, sid: nat, id: Id)
    returns (acts: seq<Action>, tok: nat)
    requires lane < |s.db.lanes| && Unread(s.db.lanes[lane], sid, id)
    ensures CanRun(reg, s, acts) && Holds(Run(reg, s, acts), tok, w, id)
    ensures Run(reg, s, acts).db.data == s.db.data
    decreases sid - s.db.lanes[lane].last
  {
    var head := HeadExists(s.db.lanes[lane], sid);
    var a := Read(w, lane, head);
    var s' := Apply(reg, s, a);
    OneStep(reg, s, a);
    if head == sid {
      acts, tok := [a], s.nextTok;
    } else {
      var more;
      more, tok := ReadUpTo(reg, s', w, lane, sid, id);
      JoinRuns(reg, s, [a], more);
      acts := [a] + more;
    }
  }

  lemma ReadAfterPromote(reg: Registry, s: Sys, w: Worker, lane: nat, id: Id)
    returns (acts: seq<Action>, tok: nat)
    requires lane < |s.db.lanes| && LaneOk(s.db.lanes[lane]) && id in s.db.lanes[lane].delayed
    ensures CanRun(reg, s, acts) && Holds(Run(reg, s, acts), tok, w, id)
    ensures Run(reg, s, acts).db.data == s.db.data
  {
    var l := s.db.lanes[lane];
    var now := l.delayed[id];
    var due := DueListing(l, now);
    var a := Promote(lane, now, due);
    var s' := Apply(reg, s, a);
    var sid := PromoteQueues(l, due, id);
    OneStep(reg, s, a);
    var more;
    more, tok := ReadUpTo(reg, s', w, lane, sid, id);
    JoinRuns(reg, s, [a], more);
    acts := [a] + more;
  }

  lemma GetHold(reg: Registry, s: Sys, w: Worker, id: Id) returns (acts: seq<Action>, tok: nat)
    requires Inv(s) && id in s.db.data
    ensures CanRun(reg, s, acts) && Holds(Run(reg, s, acts), tok, w, id)
    ensures Run(reg, s, acts).db.data == s.db.data
  {
    var p :| Covers(s, id, p);
    assert LaneOk(s.db.lanes[p.lane]);
    if p.Later? {
      acts, tok := ReadAfterPromote(reg, s, w, p.lane, id);
    } else if p.sid > s.db.lanes[p.lane].last {
      acts, tok := ReadUpTo(reg, s, w, p.lane, p.sid, id);
    } else {
      acts, tok := [Reclaim(w, p.lane, p.sid)], s.nextTok;
      OneStep(reg, s, acts[0]);
    }
  }

  // ----- the theorem

  ghost predicate Reached(s: Sys, tok: nat, w: Worker, id: Id, p: Payload) {
    && tok in s.att && s.att[tok].worker == w && s.att[tok].msg.id == id
    && s.att[tok].pc.Fetched? && s.att[tok].pc.payload == p
  }

  lemma PickUp(reg: Registry, s: Sys, tok: nat, w: Worker, id: Id) returns (acts: seq<Action>)
    requires Holds(s, tok, w, id) && id in s.db.data
    ensures CanRun(reg, s, acts) && Reached(Run(reg, s, acts), tok, w, id, s.db.data[id].payload)
  {
    var s1 := Apply(reg, s, Incr(tok));
    var s2 := Apply(reg, s1, Mark(tok, true));
    OneStep(reg, s, Incr(tok));
    OneStep(reg, s1, Mark(tok, true));
    OneStep(reg, s2, Fetch(tok));
    JoinRuns(reg, s1, [Mark(tok, true)], [Fetch(tok)]);
    JoinRuns(reg, s, [Incr(tok)], [Mark(tok, true)] + [Fetch(tok)]);
    acts := [Incr(tok)] + ([Mark(tok, true)] + [Fetch(tok)]);
  }

  lemma EveryTaskCanStillRun(reg: Registry, s: Sys, w: Worker, id: Id) returns (acts: seq<Action>, tok: nat)
    requires Reachable(reg, s) && id in s.db.data
    ensures CanRun(reg, s, acts)
    ensures Reached(Run(reg, s, acts), tok, w, id, s.db.data[id].payload)
  {
    ReachableInv(reg, s);
    var first;
    first, tok := GetHold(reg, s, w, id);
    var pickup := PickUp(reg, Run(reg, s, first), tok, w, id);
    JoinRuns(reg, s, first, pickup);
    acts := first + pickup;
  }
}
