/** When a spec fires, in the words of the timetable: minute, hour and day of the wall clock,
    a day of the week found from the calendar alone, and the rule for two restricted days. */
module Timetable {
  import opened Wrappers
  import opened Cron

  const WEEK := 7 * 24 * 60 // in minutes

  /** The minute `u` is read as the wall minute `w`: in UTC as itself, for a rate as what the
      clock shows, and for a time of day as what it shows unless a transition is near. */
  ghost predicate Reads(s: Schedule, u: int, w: int) {
    match s.zone
    case Utc => w == u
    case Zoned(offset, _) =>
      w == u + offset(u) && (s.spec.fixed ==> offset(u - 1) == offset(u) && forall v :: v < u ==> v + offset(v) != w)
  }

  lemma FiresAsRead(s: Schedule, u: int, w: int)
    requires Reads(s, u, w)
    ensures Fires(s, u) <==> Matches(s, w)
  {
    if s.zone.Zoned? && s.spec.fixed {
      var offset := s.zone.offset;
      assert forall v :: v + offset(v) == Wall(offset, v);
      assert Serves(offset, u, w);
      assert forall x :: Serves(offset, u, x) ==> x == w;
    }
  }

  /** The minute and the hour are listed, the month is, and of the two day fields both hold
      the day, or either if both are restricted. Day `7 * n + d - 4` is a `d` counted from
      Sunday: day 0, 1970-01-01, was a Thursday. */
  lemma FiresOnItsDays(s: Schedule, u: int, w: int, n: int, d: int)
    requires Reads(s, u, w) && w / 1440 == 7 * n + d - 4 && 0 <= d < 7
    ensures var spec, date := s.spec, s.calendar(w / 1440);
            Fires(s, u) <==>
              && w % 60 in spec.minutes && w % 1440 / 60 in spec.hours && date.month in spec.months
              && if spec.domRestricted && spec.dowRestricted then date.dom in spec.doms || d in spec.dows
                 else date.dom in spec.doms && d in spec.dows
  {
    FiresAsRead(s, u, w);
    HourOfDay(w);
    WeekdayIs(w, n, d);
  }

  lemma HourOfDay(w: int)
    ensures w / 60 % 24 == w % 1440 / 60
  {
    var day, rest := w / 1440, w % 1440;
    assert w == 60 * (24 * day + rest / 60) + rest % 60;
    assert w / 60 == 24 * day + rest / 60;
  }

  lemma WeekdayIs(w: int, n: int, d: int)
    requires w / 1440 == 7 * n + d - 4 && 0 <= d < 7
    ensures WeekdayOf(w) == d
  {
    assert w / 1440 + 4 == 7 * n + d;
  }

  // ----- once a week

  /** One minute, one hour, one day of the week, and nothing else asked: `m h * * d`. */
  ghost predicate Weekly(spec: Spec, d: int, h: int, m: int) {
    && 0 <= d < 7 && 0 <= h < 24 && 0 <= m < 60
    && spec.minutes == {m} && spec.hours == {h} && spec.dows == {d}
    && (forall x :: 1 <= x <= 31 ==> x in spec.doms) && (forall x :: 1 <= x <= 12 ==> x in spec.months)
    && spec.dowRestricted && !spec.domRestricted
  }

  ghost predicate CalendarOk(calendar: Calendar) {
    forall day :: 1 <= calendar(day).month <= 12 && 1 <= calendar(day).dom <= 31
  }

  /** The clock is `c` minutes ahead of UTC all the time. */
  ghost predicate Ahead(zone: Zone, c: int) {
    match zone
    case Utc => c == 0
    case Zoned(offset, _) => forall u :: offset(u) == c
  }

  /** The wall minute `h:m` of weekday `d` in week `n`. */
  function InWeek(n: int, d: int, h: int, m: int): int {
    (7 * n + d - 4) * 1440 + 60 * h + m
  }

  lemma MinuteOfWeek(w: int, n: int, d: int, h: int, m: int)
    requires 0 <= h < 24 && 0 <= m < 60
    ensures w == InWeek(n, d, h, m) <==> w / 1440 == 7 * n + d - 4 && w % 1440 / 60 == h && w % 60 == m
  {
    var day := 7 * n + d - 4;
    if w == InWeek(n, d, h, m) {
      assert w == 1440 * day + (60 * h + m);
      assert w == 60 * (24 * day + h) + m;
    } else {
      var rest := w % 1440;
      assert w == 1440 * (w / 1440) + (60 * (rest / 60) + rest % 60);
      assert w == 60 * (24 * (w / 1440) + rest / 60) + rest % 60;
    }
  }

  lemma SameWeek(n: int, d: int, k: int, e: int)
    requires 0 <= d < 7 && 0 <= e < 7 && 7 * n + d == 7 * k + e
    ensures n == k && d == e
  {
  }

  /** Of which week and weekday the minute is, if of any that this is the time. */
  lemma IsInWeek(w: int, k: int, e: int, d: int, h: int, m: int)
    requires 0 <= d < 7 && 0 <= h < 24 && 0 <= m < 60 && w / 1440 == 7 * k + e - 4 && 0 <= e < 7
    ensures (exists n :: w == InWeek(n, d, h, m)) <==> e == d && w % 1440 / 60 == h && w % 60 == m
  {
    MinuteOfWeek(w, k, d, h, m);
    if n :| w == InWeek(n, d, h, m) {
      MinuteOfWeek(w, n, d, h, m);
      SameWeek(n, d, k, e);
    }
  }

  lemma WeekdayOfDay(day: int) returns (k: int, e: int)
    ensures day == 7 * k + e - 4 && 0 <= e < 7
  {
    k, e := (day + 4) / 7, (day + 4) % 7;
  }

  /** Such a spec fires at exactly one minute of each week, the one it names. */
  lemma WeeklyFires(s: Schedule, c: int, d: int, h: int, m: int, u: int)
    requires Weekly(s.spec, d, h, m) && CalendarOk(s.calendar) && Ahead(s.zone, c)
    ensures Fires(s, u) <==> exists n :: u + c == InWeek(n, d, h, m)
  {
    var w := u + c;
    var k, e := WeekdayOfDay(w / 1440);
    IsInWeek(w, k, e, d, h, m);
    WeeklyMatches(s, u, w, k, e, d, h, m);
  }

  lemma WeeklyMatches(s: Schedule, u: int, w: int, k: int, e: int, d: int, h: int, m: int)
    requires Weekly(s.spec, d, h, m) && CalendarOk(s.calendar) && Reads(s, u, w)
    requires w / 1440 == 7 * k + e - 4 && 0 <= e < 7
    ensures Fires(s, u) <==> e == d && w % 1440 / 60 == h && w % 60 == m
  {
    FiresOnItsDays(s, u, w, k, e);
    var date := s.calendar(w / 1440);
    assert date.month in s.spec.months && date.dom in s.spec.doms;
  }

  /** So the next fire after a moment is the one that lies at most a week ahead of it. */
  lemma NextWeekly(s: Schedule, c: int, d: int, h: int, m: int, t: int) returns (n: int)
    requires Weekly(s.spec, d, h, m) && CalendarOk(s.calendar) && Ahead(s.zone, c)
    ensures NextFire(s, t) == Some((InWeek(n, d, h, m) - c) * MINUTE_MS)
    ensures (InWeek(n, d, h, m) - c) * MINUTE_MS - WEEK * MINUTE_MS <= t < (InWeek(n, d, h, m) - c) * MINUTE_MS
  {
    var lo := MinuteAfter(t);
    n := WeekOf(lo + c, d, h, m);
    var at := InWeek(n, d, h, m) - c;
    WeeklyFires(s, c, d, h, m, at);
    assert Fires(s, at);
    NoneBefore(s, c, d, h, m, lo, n);
    FirstFireIsLeast(s, lo, lo + WINDOW);
    assert FirstFire(s, lo, lo + WINDOW) == Some(at);
    assert t < lo * MINUTE_MS <= t + MINUTE_MS;
  }

  lemma WeekOf(from: int, d: int, h: int, m: int) returns (n: int)
    ensures from <= InWeek(n, d, h, m) < from + WEEK
  {
    var x := from - InWeek(0, d, h, m) + WEEK - 1;
    n := x / WEEK;
    assert InWeek(n, d, h, m) == InWeek(0, d, h, m) + WEEK * n;
    assert x == WEEK * n + x % WEEK;
  }

  lemma NoneBefore(s: Schedule, c: int, d: int, h: int, m: int, lo: int, n: int)
    requires Weekly(s.spec, d, h, m) && CalendarOk(s.calendar) && Ahead(s.zone, c)
    requires lo + c <= InWeek(n, d, h, m) < lo + c + WEEK
    ensures forall u :: lo <= u < InWeek(n, d, h, m) - c ==> !Fires(s, u)
  {
    forall u | lo <= u < InWeek(n, d, h, m) - c
      ensures !Fires(s, u)
    {
      WeeklyFires(s, c, d, h, m, u);
      forall k
        ensures u + c != InWeek(k, d, h, m)
      {
        assert InWeek(k, d, h, m) == InWeek(n, d, h, m) + WEEK * (k - n);
      }
    }
  }
}
