/** Daylight saving: a time-of-day spec fires once for each wall-clock minute it names,
    although fall back shows some minutes twice and spring forward skips others. */
module Daylight {
  import opened Cron

  /** Transitions lie further apart than they jump: for as many minutes as the offset
      changes by at `u`, it is constant just before `u` and just after. */
  ghost predicate WellSpaced(offset: int -> int) {
    forall u :: JumpIsolated(offset, u)
  }

  ghost predicate JumpIsolated(offset: int -> int, u: int) {
    var jump := if offset(u) < offset(u - 1) then offset(u - 1) - offset(u) else offset(u) - offset(u - 1);
    && (forall v :: u - jump <= v < u ==> offset(v) == offset(u - 1))
    && (forall v :: u <= v < u + jump ==> offset(v) == offset(u))
  }

  /** No offset reaches `limit` minutes (a real zone stays within a day). */
  ghost predicate Bounded(offset: int -> int, limit: int) {
    forall u :: -limit <= offset(u) <= limit
  }

  /** Some first minute at or after `low` whose wall time has reached `w`. */
  lemma {:induction false} FirstToReach(offset: int -> int, low: int, high: int, w: int) returns (u: int)
    requires low <= high && Wall(offset, low) < w <= Wall(offset, high)
    ensures low < u <= high && Wall(offset, u) >= w
    ensures forall v :: low <= v < u ==> Wall(offset, v) < w
    decreases high - low
  {
    u := low + 1;
    while Wall(offset, u) < w
      invariant low < u <= high
      invariant forall v :: low <= v < u ==> Wall(offset, v) < w
      decreases high - u
    {
      u := u + 1;
    }
  }

  /** The last minute before `until` whose wall time was still at least `w`. */
  lemma {:induction false} LastAtOrAbove(offset: int -> int, start: int, until: int, w: int) returns (v: int)
    requires start < until && Wall(offset, start) >= w
    ensures start <= v < until && Wall(offset, v) >= w
    ensures forall x :: v < x < until ==> Wall(offset, x) < w
  {
    v := until - 1;
    while Wall(offset, v) < w
      invariant start <= v < until
      invariant forall x :: v < x < until ==> Wall(offset, x) < w
      decreases v - start
    {
      v := v - 1;
    }
  }

  /** `u` is the first minute ever to reach wall time `w`. */
  ghost predicate Reaches(offset: int -> int, u: int, w: int) {
    Wall(offset, u) >= w && forall v :: v < u ==> Wall(offset, v) < w
  }

  lemma ReachesExists(offset: int -> int, limit: int, w: int) returns (u: int)
    requires Bounded(offset, limit)
    ensures Reaches(offset, u, w)
  {
    assert -limit <= offset(0) <= limit;
    u := FirstToReach(offset, w - limit - 1, w + limit, w);
  }

  lemma ReachingServes(offset: int -> int, u: int, w: int)
    requires Reaches(offset, u, w)
    ensures Serves(offset, u, w)
  {
    assert Wall(offset, u - 1) < w;
  }

  /** A minute that shows `w` after the clock has already reached it shows it again. */
  lemma LaterShowingRepeats(offset: int -> int, first: int, u: int)
    requires WellSpaced(offset)
    requires first < u && Reaches(offset, first, Wall(offset, u))
    ensures Repeats(offset, u)
  {
    var w := Wall(offset, u);
    var v := LastAtOrAbove(offset, first, u, w);
    if Wall(offset, v) > w {
      // The clock fell back at v + 1, over wall times it had shown just before.
      var back := v + 1;
      assert JumpIsolated(offset, back);
      var earlier := v - (Wall(offset, v) - w);
      assert Wall(offset, back) <= w;
      assert offset(earlier) == offset(back - 1);
      assert Wall(offset, earlier) == w;
    }
  }

  /** Below a wall time it has already reached, the clock does not jump forward: the
      fall back that took it there is still too recent. */
  lemma NoJumpWhileCatchingUp(offset: int -> int, first: int, u: int, w: int)
    requires WellSpaced(offset)
    requires first < u && Reaches(offset, first, w) && Wall(offset, u - 1) < w
    ensures Wall(offset, u) == Wall(offset, u - 1) + 1
  {
    var v := LastAtOrAbove(offset, first, u - 1, w);
    var back := v + 1;
    assert JumpIsolated(offset, back);
    var caughtUp := back + (Wall(offset, v) - Wall(offset, back));
    assert offset(caughtUp) == offset(back);
    assert Wall(offset, caughtUp) == Wall(offset, v);
    assert offset(u) == offset(back) == offset(u - 1);
  }

  lemma ServesOnlyWhenReached(offset: int -> int, first: int, u: int, w: int)
    requires WellSpaced(offset) && Reaches(offset, first, w)
    requires Serves(offset, u, w)
    ensures u == first
  {
    assert Wall(offset, u) >= w;
    if first < u {
      if Wall(offset, u) == w {
        LaterShowingRepeats(offset, first, u);
      }
      NoJumpWhileCatchingUp(offset, first, u, w);
      assert false;
    }
  }

  /** Every wall-clock minute is served by exactly one UTC minute: the one at which the
      clock first reaches it. */
  lemma ServedExactlyOnce(offset: int -> int, limit: int, w: int) returns (u: int)
    requires WellSpaced(offset) && Bounded(offset, limit)
    ensures forall v :: Serves(offset, v, w) <==> v == u
  {
    u := ReachesExists(offset, limit, w);
    ReachingServes(offset, u, w);
    forall v | Serves(offset, v, w)
      ensures v == u
    {
      ServesOnlyWhenReached(offset, u, v, w);
    }
  }

  /** A time of day fires once per date: the minutes that fire are, one for one, the
      minutes that serve a matching wall-clock minute. */
  lemma FixedSpecFiresOncePerWallMinute(s: Schedule, limit: int, w: int) returns (u: int)
    requires s.zone.Zoned? && s.spec.fixed && WellSpaced(s.zone.offset) && Bounded(s.zone.offset, limit)
    requires Matches(s, w)
    ensures Fires(s, u)
    ensures forall v :: Serves(s.zone.offset, v, w) <==> v == u
  {
    u := ServedExactlyOnce(s.zone.offset, limit, w);
    assert Serves(s.zone.offset, u, w);
  }

  /** And a fire is never for nothing: it serves a matching wall-clock minute, reached by
      then, that no other minute serves. */
  lemma EveryFireServesItsOwn(s: Schedule, limit: int, u: int) returns (w: int)
    requires s.zone.Zoned? && s.spec.fixed && WellSpaced(s.zone.offset) && Bounded(s.zone.offset, limit)
    requires Fires(s, u)
    ensures Matches(s, w) && w <= Wall(s.zone.offset, u)
    ensures forall v :: Serves(s.zone.offset, v, w) <==> v == u
  {
    w :| Serves(s.zone.offset, u, w) && Matches(s, w);
    var v := ServedExactlyOnce(s.zone.offset, limit, w);
    assert v == u;
  }

  /** The spacing matters: fall back an hour at 0 and spring forward again at 10, and the
      wall minute 30 is served twice. */
  function CloseJumps(u: int): int {
    if u < 0 then 60 else if u < 10 then 0 else 60
  }

  lemma CloseJumpsServeTwice()
    ensures Serves(CloseJumps, -30, 30) && Serves(CloseJumps, 10, 30)
    ensures !WellSpaced(CloseJumps)
  {
    assert Wall(CloseJumps, -30) == 30 && Wall(CloseJumps, 9) == 9 && Wall(CloseJumps, 10) == 70;
    assert !JumpIsolated(CloseJumps, 0) by {
      assert CloseJumps(10) != CloseJumps(0);
    }
  }
}
