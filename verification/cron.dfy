/** Recurring schedules: when a cron spec fires, the search for the next and previous
    fire, and the one-entry cache in front of it.

    A moment is a whole number of minutes since the epoch, or of milliseconds where the
    source uses them. A zone is its offset from UTC, in whole minutes, at each UTC minute. */
module Cron {
  import opened Wrappers

  const MINUTE_MS := 60_000
  const WINDOW := 366 * 5 * 24 * 60 // five leap years, in minutes

  datatype Spec = Spec(
    minutes: set<int>, hours: set<int>, doms: set<int>, months: set<int>, dows: set<int>,
    domRestricted: bool, dowRestricted: bool, fixed: bool)

  /** The calendar gives each day its month and its day of the month. */
  datatype Date = Date(month: int, dom: int)
  type Calendar = int -> Date

  datatype Zone = Utc | Zoned(offset: int -> int, fold: int -> bool)

  datatype Schedule = Schedule(spec: Spec, calendar: Calendar, zone: Zone)

  // ----- matching

  /** Day 0 of the epoch was a Thursday; Sunday is 0. */
  function WeekdayOf(wall: int): int {
    (wall / 1440 + 4) % 7
  }

  predicate Matches(s: Schedule, wall: int) {
    var date := s.calendar(wall / 1440);
    var domOk, dowOk := date.dom in s.spec.doms, WeekdayOf(wall) in s.spec.dows;
    && wall % 60 in s.spec.minutes
    && wall / 60 % 24 in s.spec.hours
    && date.month in s.spec.months
    && if s.spec.domRestricted && s.spec.dowRestricted then domOk || dowOk else domOk && dowOk
  }

  function Wall(offset: int -> int, u: int): int {
    u + offset(u)
  }

  /** The wall time at `u` was already shown earlier: the `fold` attribute of PEP 495. */
  ghost predicate Repeats(offset: int -> int, u: int) {
    exists v :: v < u && Wall(offset, v) == Wall(offset, u)
  }

  ghost predicate ZoneOk(zone: Zone) {
    zone.Zoned? ==> forall u :: zone.fold(u) <==> Repeats(zone.offset, u)
  }

  /** The UTC minute `u` answers for the wall-clock minute `w`: it is the first to show
      it, or the end of the gap that skips it. */
  ghost predicate Serves(offset: int -> int, u: int, w: int) {
    || (Wall(offset, u) == w && !Repeats(offset, u))
    || Wall(offset, u - 1) < w < Wall(offset, u)
  }

  ghost predicate Fires(s: Schedule, u: int) {
    match s.zone
    case Utc => Matches(s, u)
    case Zoned(offset, _) =>
      if s.spec.fixed then exists w :: Serves(offset, u, w) && Matches(s, w)
      else Matches(s, Wall(offset, u))
  }

  method FiresAt(s: Schedule, u: int) returns (fires: bool)
    requires ZoneOk(s.zone)
    ensures fires == Fires(s, u)
  {
    if s.zone.Utc? {
      return Matches(s, u);
    }
    var offset := s.zone.offset;
    var wall := Wall(offset, u);
    if !s.spec.fixed {
      return Matches(s, wall);
    }
    if !s.zone.fold(u) && Matches(s, wall) {
      assert Serves(offset, u, wall);
      return true;
    }
    var skipped := Wall(offset, u - 1) + 1;
    while skipped < wall
      invariant Wall(offset, u - 1) < skipped
      invariant forall w :: Wall(offset, u - 1) < w < skipped && w < wall ==> !Matches(s, w)
    {
      if Matches(s, skipped) {
        assert Serves(offset, u, skipped);
        return true;
      }
      skipped := skipped + 1;
    }
    return false;
  }

  // ----- the search

  /** The first fire in the minutes `[lo, hi]`, and the last. */
  ghost function FirstFire(s: Schedule, lo: int, hi: int): Option<int>
    decreases hi - lo + 1
  {
    if lo > hi then None
    else if Fires(s, lo) then Some(lo)
    else FirstFire(s, lo + 1, hi)
  }

  ghost function LastFire(s: Schedule, lo: int, hi: int): Option<int>
    decreases hi - lo + 1
  {
    if lo > hi then None
    else if Fires(s, hi) then Some(hi)
    else LastFire(s, lo, hi - 1)
  }

  lemma {:induction false} FirstFireIsLeast(s: Schedule, lo: int, hi: int)
    ensures match FirstFire(s, lo, hi)
            case None => forall m :: lo <= m <= hi ==> !Fires(s, m)
            case Some(f) => lo <= f <= hi && Fires(s, f) && (forall m :: lo <= m < f ==> !Fires(s, m))
    decreases hi - lo + 1
  {
    if lo <= hi && !Fires(s, lo) {
      FirstFireIsLeast(s, lo + 1, hi);
    }
  }

  lemma {:induction false} LastFireIsGreatest(s: Schedule, lo: int, hi: int)
    ensures match LastFire(s, lo, hi)
            case None => forall m :: lo <= m <= hi ==> !Fires(s, m)
            case Some(f) => lo <= f <= hi && Fires(s, f) && (forall m :: f < m <= hi ==> !Fires(s, m))
    decreases hi - lo + 1
  {
    if lo <= hi && !Fires(s, hi) {
      LastFireIsGreatest(s, lo, hi - 1);
    }
  }

  function ToMs(minute: Option<int>): Option<int> {
    if minute.None? then None else Some(minute.value * MINUTE_MS)
  }

  /** First minute the search for a fire after `ms` looks at, and the last one the
      search for a fire before it does. */
  function MinuteAfter(ms: int): int {
    ms / MINUTE_MS + 1
  }

  function MinuteBefore(ms: int): int {
    if ms % MINUTE_MS == 0 then ms / MINUTE_MS - 1 else ms / MINUTE_MS
  }

  ghost function NextFire(s: Schedule, afterMs: int): Option<int> {
    ToMs(FirstFire(s, MinuteAfter(afterMs), MinuteAfter(afterMs) + WINDOW))
  }

  ghost function PrevFire(s: Schedule, beforeMs: int): Option<int> {
    ToMs(LastFire(s, MinuteBefore(beforeMs) - WINDOW, MinuteBefore(beforeMs)))
  }

  method CronNext(s: Schedule, afterMs: int) returns (fire: Option<int>)
    requires ZoneOk(s.zone)
    ensures fire == NextFire(s, afterMs)
  {
    var m := afterMs / MINUTE_MS + 1;
    var limit := m + WINDOW;
    while m <= limit
      invariant FirstFire(s, m, limit) == FirstFire(s, MinuteAfter(afterMs), limit)
      decreases limit - m
    {
      var fires := FiresAt(s, m);
      if fires {
        return Some(m * MINUTE_MS);
      }
      m := m + 1;
    }
    return None;
  }

  method CronPrev(s: Schedule, beforeMs: int) returns (fire: Option<int>)
    requires ZoneOk(s.zone)
    ensures fire == PrevFire(s, beforeMs)
  {
    var m := beforeMs / MINUTE_MS;
    if m * MINUTE_MS >= beforeMs {
      m := m - 1;
    }
    var limit := m - WINDOW;
    while m >= limit
      invariant LastFire(s, limit, m) == LastFire(s, limit, MinuteBefore(beforeMs))
      decreases m - limit
    {
      var fires := FiresAt(s, m);
      if fires {
        return Some(m * MINUTE_MS);
      }
      m := m - 1;
    }
    return None;
  }

  // ----- what the search means on the clock

  /** `f` is a fire time: a whole minute at which the schedule fires. */
  ghost predicate FireTime(s: Schedule, f: int) {
    f % MINUTE_MS == 0 && Fires(s, f / MINUTE_MS)
  }

  /** A whole minute after `t` is at least the minute the search starts from, and one
      before it at most the minute the backward search starts from. */
  lemma WholeMinute(g: int, t: int, m: int)
    requires g % MINUTE_MS == 0
    ensures t < g ==> g / MINUTE_MS >= MinuteAfter(t)
    ensures g < t ==> g / MINUTE_MS <= MinuteBefore(t)
    ensures g < m * MINUTE_MS ==> g / MINUTE_MS < m
    ensures g <= m * MINUTE_MS ==> g / MINUTE_MS <= m
    ensures g > m * MINUTE_MS ==> g / MINUTE_MS > m
    ensures g >= m * MINUTE_MS ==> g / MINUTE_MS >= m
  {
  }

  lemma OnTheMinute(s: Schedule, m: int, t: int)
    ensures FireTime(s, m * MINUTE_MS) <==> Fires(s, m)
    ensures m >= MinuteAfter(t) ==> t < m * MINUTE_MS
    ensures m <= MinuteBefore(t) ==> m * MINUTE_MS < t
  {
    assert m * MINUTE_MS / MINUTE_MS == m && m * MINUTE_MS % MINUTE_MS == 0;
  }

  /** The next fire is the least fire time strictly after `t`; the search fails exactly
      when none falls within the window. */
  lemma NextIsLeast(s: Schedule, t: int)
    ensures match NextFire(s, t)
            case Some(f) =>
              && t < f <= (MinuteAfter(t) + WINDOW) * MINUTE_MS && FireTime(s, f)
              && (forall g :: t < g < f ==> !FireTime(s, g))
            case None => forall g :: t < g <= (MinuteAfter(t) + WINDOW) * MINUTE_MS ==> !FireTime(s, g)
  {
    var lo := MinuteAfter(t);
    var first := FirstFire(s, lo, lo + WINDOW);
    FirstFireIsLeast(s, lo, lo + WINDOW);
    if first.Some? {
      OnTheMinute(s, first.value, t);
    }
    forall g | t < g && FireTime(s, g)
      ensures if first.Some? then g >= first.value * MINUTE_MS else g > (lo + WINDOW) * MINUTE_MS
    {
      WholeMinute(g, t, if first.Some? then first.value else lo + WINDOW);
    }
  }

  lemma PrevIsGreatest(s: Schedule, t: int)
    ensures match PrevFire(s, t)
            case Some(f) =>
              && (MinuteBefore(t) - WINDOW) * MINUTE_MS <= f < t && FireTime(s, f)
              && (forall g :: f < g < t ==> !FireTime(s, g))
            case None => forall g :: (MinuteBefore(t) - WINDOW) * MINUTE_MS <= g < t ==> !FireTime(s, g)
  {
    var hi := MinuteBefore(t);
    var last := LastFire(s, hi - WINDOW, hi);
    LastFireIsGreatest(s, hi - WINDOW, hi);
    if last.Some? {
      OnTheMinute(s, last.value, t);
    }
    forall g | g < t && FireTime(s, g)
      ensures if last.Some? then g <= last.value * MINUTE_MS else g < (hi - WINDOW) * MINUTE_MS
    {
      WholeMinute(g, t, if last.Some? then last.value else hi - WINDOW);
    }
  }

  lemma PrevOfNext(s: Schedule, t: int)
    requires NextFire(s, t).Some?
    ensures var n := NextFire(s, t).value;
            t < n && (PrevFire(s, n).Some? ==> PrevFire(s, n).value <= t)
  {
    NextIsLeast(s, t);
    PrevIsGreatest(s, NextFire(s, t).value);
  }

  lemma NextOfPrev(s: Schedule, f: int)
    requires FireTime(s, f) && PrevFire(s, f).Some?
    ensures NextFire(s, PrevFire(s, f).value) == Some(f)
  {
    var p := PrevFire(s, f).value;
    PrevIsGreatest(s, f);
    LastFireIsGreatest(s, MinuteBefore(f) - WINDOW, MinuteBefore(f));
    NextIsLeast(s, p);
    assert f <= (MinuteAfter(p) + WINDOW) * MINUTE_MS;
  }

  // ----- fixed intervals

  function NextMultiple(every: int, now: int): int
    requires every > 0
  {
    (now / every + 1) * every
  }

  function PrevMultiple(every: int, fire: int): int
    requires every > 0
  {
    (fire - 1) / every * every
  }

  lemma MultipleIn(every: int, lo: int, q: int, m: int)
    requires every > 0 && q * every <= lo < m * every
    ensures (q + 1) * every <= m * every
  {
    if m <= q {
      MultiplyMonotone(every, m, q);
      assert false;
    }
    MultiplyMonotone(every, q + 1, m);
  }

  lemma MultiplyMonotone(every: int, a: int, b: int)
    requires every > 0 && a <= b
    ensures a * every <= b * every
  {
  }

  lemma DivFloor(every: int, t: int)
    requires every > 0
    ensures t / every * every <= t < (t / every + 1) * every
  {
  }

  /** The laws of the search hold of an interval too, on its multiples. */
  lemma IntervalLaws(every: int, t: int, m: int)
    requires every > 0
    ensures t < NextMultiple(every, t)
    ensures t < m * every ==> NextMultiple(every, t) <= m * every
    ensures PrevMultiple(every, t) < t
    ensures m * every < t ==> m * every <= PrevMultiple(every, t)
    ensures PrevMultiple(every, NextMultiple(every, t)) <= t
    ensures NextMultiple(every, PrevMultiple(every, m * every)) == m * every
  {
    DivFloor(every, t);
    DivFloor(every, t - 1);
    if t < m * every {
      MultipleIn(every, t, t / every, m);
    }
    if m * every < t {
      MultipleIn(every, m * every, m, (t - 1) / every + 1);
    }
    PrevOfMultiple(every, t / every + 1);
    PrevOfMultiple(every, m);
    NextOfMultiple(every, m - 1);
  }

  lemma PrevOfMultiple(every: int, m: int)
    requires every > 0
    ensures PrevMultiple(every, m * every) == (m - 1) * every
  {
    assert m * every - 1 == (m - 1) * every + (every - 1);
    DivUnique(every, m - 1, every - 1);
  }

  lemma NextOfMultiple(every: int, m: int)
    requires every > 0
    ensures NextMultiple(every, m * every) == (m + 1) * every
  {
    DivUnique(every, m, 0);
  }

  lemma DivUnique(every: int, q: int, r: int)
    requires 0 <= r < every
    ensures (q * every + r) / every == q
  {
    var d := (q * every + r) / every;
    DivFloor(every, q * every + r);
    assert (q + 1) * every == q * every + every;
    if d < q {
      MultiplyMonotone(every, d + 1, q);
      assert false;
    } else if d > q {
      MultiplyMonotone(every, q + 1, d);
      assert false;
    }
  }

  // ----- the cache

  /** What `next_after` remembers: the last moment asked, and the answer. */
  datatype Asked = Asked(at: int, answer: int)
  datatype Timing = Every(ms: int) | At(schedule: Schedule)

  ghost function Uncached(timing: Timing, now: int): Option<int>
    requires timing.Every? ==> timing.ms > 0
  {
    match timing
    case Every(ms) => Some(NextMultiple(ms, now))
    case At(s) => NextFire(s, now)
  }

  ghost predicate CacheOk(timing: Timing, last: Option<Asked>) {
    last.Some? ==> timing.At? && NextFire(timing.schedule, last.value.at) == Some(last.value.answer)
  }

  /** Any moment between an asked one and its answer has the same answer. */
  lemma SameAnswerUntilFire(s: Schedule, asked: int, now: int)
    requires NextFire(s, asked).Some? && asked <= now < NextFire(s, asked).value
    ensures NextFire(s, now) == NextFire(s, asked)
  {
    var f := NextFire(s, asked).value;
    NextIsLeast(s, asked);
    NextIsLeast(s, now);
    FirstFireIsLeast(s, MinuteAfter(asked), MinuteAfter(asked) + WINDOW);
    assert f <= (MinuteAfter(now) + WINDOW) * MINUTE_MS;
  }

  /** One cached call, as a function of what is remembered. */
  ghost function Ask(timing: Timing, last: Option<Asked>, now: int): (Option<int>, Option<Asked>)
    requires timing.Every? ==> timing.ms > 0
  {
    if timing.Every? then (Uncached(timing, now), last)
    else if last.Some? && last.value.at <= now < last.value.answer then (Some(last.value.answer), last)
    else
      var fire := Uncached(timing, now);
      (fire, if fire.Some? then Some(Asked(now, fire.value)) else last)
  }

  ghost function Answers(timing: Timing, last: Option<Asked>, calls: seq<int>): seq<Option<int>>
    requires timing.Every? ==> timing.ms > 0
    decreases |calls|
  {
    if calls == [] then []
    else [Ask(timing, last, calls[0]).0] + Answers(timing, Ask(timing, last, calls[0]).1, calls[1..])
  }

  lemma AskIsUncached(timing: Timing, last: Option<Asked>, now: int)
    requires timing.Every? ==> timing.ms > 0
    requires CacheOk(timing, last)
    ensures Ask(timing, last, now).0 == Uncached(timing, now)
    ensures CacheOk(timing, Ask(timing, last, now).1)
  {
    if timing.At? && last.Some? && last.value.at <= now < last.value.answer {
      SameAnswerUntilFire(timing.schedule, last.value.at, now);
    }
  }

  /** The cache is invisible, whatever moments are asked and in whatever order. */
  lemma {:induction false} CacheIsInvisible(timing: Timing, last: Option<Asked>, calls: seq<int>)
    requires timing.Every? ==> timing.ms > 0
    requires CacheOk(timing, last)
    ensures |Answers(timing, last, calls)| == |calls|
    ensures forall i :: 0 <= i < |calls| ==> Answers(timing, last, calls)[i] == Uncached(timing, calls[i])
    decreases |calls|
  {
    if calls != [] {
      AskIsUncached(timing, last, calls[0]);
      CacheIsInvisible(timing, Ask(timing, last, calls[0]).1, calls[1..]);
    }
  }

  class Recurrence {
    const timing: Timing
    var last: Option<Asked>

    ghost predicate Valid()
      reads this
    {
      && (timing.Every? ==> timing.ms > 0)
      && (timing.At? ==> ZoneOk(timing.schedule.zone))
      && CacheOk(timing, last)
    }

    constructor (timing: Timing)
      requires timing.Every? ==> timing.ms > 0
      requires timing.At? ==> ZoneOk(timing.schedule.zone)
      ensures Valid() && this.timing == timing && last == None
    {
      this.timing := timing;
      last := None;
    }

    method NextAfter(now: int) returns (fire: Option<int>)
      requires Valid()
      modifies this`last
      ensures Valid()
      ensures fire == Uncached(timing, now)
      ensures (fire, last) == Ask(timing, old(last), now)
    {
      AskIsUncached(timing, last, now);
      if timing.Every? {
        return Some((now / timing.ms + 1) * timing.ms);
      }
      if last.Some? && last.value.at <= now < last.value.answer {
        return Some(last.value.answer);
      }
      fire := CronNext(timing.schedule, now);
      if fire.Some? {
        last := Some(Asked(now, fire.value));
      }
    }

    method PreviousBefore(fireMs: int) returns (fire: Option<int>)
      requires Valid()
      ensures fire == match timing
                      case Every(ms) => Some(PrevMultiple(ms, fireMs))
                      case At(s) => PrevFire(s, fireMs)
    {
      if timing.At? {
        fire := CronPrev(timing.schedule, fireMs);
      } else {
        fire := Some((fireMs - 1) / timing.ms * timing.ms);
      }
    }
  }
}
