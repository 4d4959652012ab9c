/** The ISO 8601 week date (ISO 8601:2004 section 4.1.4) of a date, as
    Python's `date.isocalendar()` computes it, and the script's
    `year_week_iso` key (week-year * 100 + week). */
module IsoWeek {
  import opened Common
  import opened Calendar

  /** CPython's `_isoweek1monday`: the ordinal of the Monday that starts ISO
      week 1 of year y, the week holding the year's first Thursday. */
  function Week1Monday(y: int): int
    requires y >= 1
  {
    var firstDay := DaysBeforeYear(y) + 1;
    var firstWeekday := WeekdayOfOrdinal(firstDay);
    var monday := firstDay - firstWeekday;
    if firstWeekday > 3 then monday + 7 else monday
  }

  /** Week 1 starts on a Monday and its Thursday falls in the first seven
      days of the year. */
  lemma Week1MondayFacts(y: int)
    requires y >= 1
    ensures Week1Monday(y) % 7 == 1
    ensures DaysBeforeYear(y) + 1 <= Week1Monday(y) + 3 <= DaysBeforeYear(y) + 7
  {
    Week1Arith(DaysBeforeYear(y) + 1);
  }

  /** The arithmetic of `_isoweek1monday` for a year starting on day f. */
  lemma Week1Arith(f: int)
    ensures var m := f - WeekdayOfOrdinal(f);
            var w := if WeekdayOfOrdinal(f) > 3 then m + 7 else m;
            w % 7 == 1 && f <= w + 3 <= f + 6
  {
    var q, wd := (f + 6) / 7, (f + 6) % 7;
    assert f + 6 == 7 * q + wd;
    if wd > 3 {
      DivUnique(f - wd + 7, 7, q, 1);
    } else {
      DivUnique(f - wd, 7, q - 1, 1);
    }
  }

  /** Consecutive ISO years are 52 or 53 whole weeks long. */
  lemma Week1MondayStep(y: int)
    requires y >= 1
    ensures Week1Monday(y + 1) - Week1Monday(y) == 364 || Week1Monday(y + 1) - Week1Monday(y) == 371
  {
    Week1MondayFacts(y);
    Week1MondayFacts(y + 1);
    DaysBeforeYearStep(y);
    var a, b := Week1Monday(y), Week1Monday(y + 1);
    var qa, qb := a / 7, b / 7;
    assert a == 7 * qa + 1 && b == 7 * qb + 1;
    assert 359 <= b - a <= 372;
  }

  lemma {:induction false} Week1MondayMonotone(a: int, b: int)
    requires 1 <= a <= b
    ensures Week1Monday(a) + 364 * (b - a) <= Week1Monday(b)
    decreases b - a
  {
    if a < b {
      Week1MondayMonotone(a, b - 1);
      Week1MondayStep(b - 1);
    }
  }

  /** Only one ISO year brackets a given ordinal. */
  lemma IsoYearUnique(n: int, y1: int, y2: int)
    requires 1 <= y1 && 1 <= y2
    requires Week1Monday(y1) <= n < Week1Monday(y1 + 1)
    requires Week1Monday(y2) <= n < Week1Monday(y2 + 1)
    ensures y1 == y2
  {
    if y1 < y2 {
      Week1MondayMonotone(y1 + 1, y2);
    } else if y2 < y1 {
      Week1MondayMonotone(y2 + 1, y1);
    }
  }

  datatype IsoCalendarDate = IsoCalendarDate(year: int, week: int, weekday: int)

  /** `date.isocalendar()` of a date: its calendar year and its ordinal. */
  function IsoCalendar(d: CalDate): (r: IsoCalendarDate)
    ensures r.year >= 1
  {
    IsoOfOrdinal(d.year, DayNumber(d))
  }

  /** The body of `isocalendar()`, in CPython's steps, for the day with
      ordinal `today` of calendar year y: the week count from the Monday of
      week 1 of year y, falling back to the previous year when negative,
      moving to week 1 of the next year when the day already lies in it. */
  function IsoOfOrdinal(y: int, today: int): (r: IsoCalendarDate)
    requires y >= 1 && DaysBeforeYear(y) < today <= DaysBeforeYear(y + 1)
    ensures r.year >= 1
  {
    var w1 := Week1Monday(y);
    var week, day := (today - w1) / 7, (today - w1) % 7;
    if week < 0 then
      IsoCaseBefore(y, today);
      var w0 := Week1Monday(y - 1);
      IsoCalendarDate(y - 1, (today - w0) / 7 + 1, (today - w0) % 7 + 1)
    else if week >= 52 && today >= Week1Monday(y + 1) then
      IsoCalendarDate(y + 1, 1, day + 1)
    else
      IsoCalendarDate(y, week + 1, day + 1)
  }

  /** r is the ISO 8601 week date of the day with ordinal t: its year is the
      one whose week 1 starts on or before t while the next year's starts
      after t, its week counts the whole weeks from that week 1 (1 to 53),
      and its weekday runs Monday = 1 .. Sunday = 7. */
  predicate IsIsoDateOf(r: IsoCalendarDate, t: int)
  {
    && r.year >= 1
    && Week1Monday(r.year) <= t < Week1Monday(r.year + 1)
    && r.week == (t - Week1Monday(r.year)) / 7 + 1
    && 1 <= r.week <= 53
    && r.weekday == WeekdayOfOrdinal(t) + 1
  }

  /** `isocalendar()` gives the ISO week date of the day, in the calendar
      year or one of its neighbours. */
  lemma IsoCalendarMeaning(d: CalDate)
    ensures IsIsoDateOf(IsoCalendar(d), DayNumber(d))
    ensures d.year - 1 <= IsoCalendar(d).year <= d.year + 1
  {
    IsoOfOrdinalMeaning(d.year, DayNumber(d));
  }

  lemma IsoOfOrdinalMeaning(y: int, t: int)
    requires y >= 1 && DaysBeforeYear(y) < t <= DaysBeforeYear(y + 1)
    ensures IsIsoDateOf(IsoOfOrdinal(y, t), t)
    ensures y - 1 <= IsoOfOrdinal(y, t).year <= y + 1
  {
    if (t - Week1Monday(y)) / 7 < 0 {
      IsoOfOrdinalBefore(y, t);
    } else if t >= Week1Monday(y + 1) {
      IsoOfOrdinalAfter(y, t);
    } else {
      IsoOfOrdinalWithin(y, t);
    }
  }

  lemma IsoOfOrdinalBefore(y: int, t: int)
    requires y >= 1 && DaysBeforeYear(y) < t <= DaysBeforeYear(y + 1)
    requires (t - Week1Monday(y)) / 7 < 0
    ensures IsIsoDateOf(IsoOfOrdinal(y, t), t) && IsoOfOrdinal(y, t).year == y - 1
  {
    IsoCaseBefore(y, t);
    var w0 := Week1Monday(y - 1);
    assert IsoOfOrdinal(y, t) == IsoCalendarDate(y - 1, (t - w0) / 7 + 1, (t - w0) % 7 + 1);
  }

  lemma IsoOfOrdinalAfter(y: int, t: int)
    requires y >= 1 && DaysBeforeYear(y) < t <= DaysBeforeYear(y + 1)
    requires t >= Week1Monday(y + 1)
    ensures IsIsoDateOf(IsoOfOrdinal(y, t), t) && IsoOfOrdinal(y, t).year == y + 1
  {
    var w1 := Week1Monday(y);
    IsoCaseAfter(y, t);
    Week1MondayStep(y);
    DivMonotone(364, t - w1);
    assert IsoOfOrdinal(y, t) == IsoCalendarDate(y + 1, 1, (t - w1) % 7 + 1);
  }

  lemma IsoOfOrdinalWithin(y: int, t: int)
    requires y >= 1 && DaysBeforeYear(y) < t <= DaysBeforeYear(y + 1)
    requires Week1Monday(y) <= t < Week1Monday(y + 1)
    ensures IsIsoDateOf(IsoOfOrdinal(y, t), t) && IsoOfOrdinal(y, t).year == y
  {
    var w1 := Week1Monday(y);
    IsoCaseWithin(y, t);
    assert IsoOfOrdinal(y, t) == IsoCalendarDate(y, (t - w1) / 7 + 1, (t - w1) % 7 + 1);
  }

  /** The date lies before week 1 of its own year: it belongs to the last
      week of the previous ISO year. */
  lemma IsoCaseBefore(y: int, t: int)
    requires y >= 1 && DaysBeforeYear(y) < t <= DaysBeforeYear(y + 1)
    requires t < Week1Monday(y)
    ensures y >= 2
    ensures IsIsoDateOf(IsoCalendarDate(y - 1, (t - Week1Monday(y - 1)) / 7 + 1, (t - Week1Monday(y - 1)) % 7 + 1), t)
  {
    Week1MondayFacts(y);
    Week1MondayFacts(y - 1);
    DaysBeforeYearStep(y - 1);
    Week1MondayStep(y - 1);
    WeekdayFromMonday(t, Week1Monday(y - 1));
  }

  /** The date lies in week 1 of the next ISO year. */
  lemma IsoCaseAfter(y: int, t: int)
    requires y >= 1 && DaysBeforeYear(y) < t <= DaysBeforeYear(y + 1)
    requires t >= Week1Monday(y + 1)
    ensures IsIsoDateOf(IsoCalendarDate(y + 1, 1, (t - Week1Monday(y)) % 7 + 1), t)
  {
    IsoCaseAfterWeek(y, t);
    Week1MondayFacts(y);
    WeekdayFromMonday(t, Week1Monday(y));
  }

  lemma IsoCaseAfterWeek(y: int, t: int)
    requires y >= 1 && t <= DaysBeforeYear(y + 1)
    requires t >= Week1Monday(y + 1)
    ensures t < Week1Monday(y + 2) && (t - Week1Monday(y + 1)) / 7 == 0
  {
    Week1MondayFacts(y + 1);
    Week1MondayFacts(y + 2);
    DaysBeforeYearGrows(y + 1);
    FirstWeekArith(t, Week1Monday(y + 1), Week1Monday(y + 2), DaysBeforeYear(y + 1), DaysBeforeYear(y + 2));
  }

  /** A day of the last days of a year on or after the next year's week 1
      Monday lies in that week 1. */
  lemma FirstWeekArith(t: int, w2: int, w3: int, b1: int, b2: int)
    requires b1 + 1 <= w2 + 3 && b2 + 1 <= w3 + 3 && b2 >= b1 + 365
    requires w2 <= t <= b1
    ensures t < w3 && (t - w2) / 7 == 0
  {
    DivUnique(t - w2, 7, 0, t - w2);
  }

  /** The date lies in one of the 52 or 53 weeks of its own ISO year. */
  lemma IsoCaseWithin(y: int, t: int)
    requires y >= 1 && DaysBeforeYear(y) < t <= DaysBeforeYear(y + 1)
    requires Week1Monday(y) <= t
    requires (t - Week1Monday(y)) / 7 < 52 || t < Week1Monday(y + 1)
    ensures IsIsoDateOf(IsoCalendarDate(y, (t - Week1Monday(y)) / 7 + 1, (t - Week1Monday(y)) % 7 + 1), t)
  {
    Week1MondayFacts(y);
    Week1MondayStep(y);
    WeekdayFromMonday(t, Week1Monday(y));
  }

  /** Counting from any Monday gives the weekday. */
  lemma WeekdayFromMonday(n: int, monday: int)
    requires monday % 7 == 1
    ensures (n - monday) % 7 == WeekdayOfOrdinal(n)
  {
    var q := monday / 7;
    assert monday == 7 * q + 1;
    assert n + 6 == (n - monday) + 7 * (q + 1);
  }

  /** The ISO 8601 definition: a day belongs to the ISO year holding the
      Thursday of its (Monday-first) week, and its week number counts the
      weeks of that year in which that Thursday falls. With
      IsoCalendarMeaning this holds of `isocalendar()`. */
  lemma IsoThursdayRule(r: IsoCalendarDate, t: int)
    requires IsIsoDateOf(r, t)
    ensures var thursday := t - WeekdayOfOrdinal(t) + 3;
            DaysBeforeYear(r.year) < thursday <= DaysBeforeYear(r.year + 1)
            && r.week == (thursday - DaysBeforeYear(r.year) - 1) / 7 + 1
  {
    Week1MondayFacts(r.year);
    Week1MondayFacts(r.year + 1);
    MondayOrdinals(t);
    ThursdayArith(t, t - WeekdayOfOrdinal(t), Week1Monday(r.year), Week1Monday(r.year + 1),
      DaysBeforeYear(r.year), DaysBeforeYear(r.year + 1));
  }

  /** The arithmetic of the Thursday rule: `monday` is the Monday of n's
      week, w1 and w2 the first Mondays of week 1 of two consecutive ISO
      years whose calendar years start after day y1 and y2. */
  lemma ThursdayArith(n: int, monday: int, w1: int, w2: int, y1: int, y2: int)
    requires monday % 7 == 1 && n - 6 <= monday <= n
    requires w1 % 7 == 1 && w2 % 7 == 1 && w1 <= n < w2
    requires y1 + 1 <= w1 + 3 <= y1 + 7 && y2 + 1 <= w2 + 3 <= y2 + 7
    ensures y1 < monday + 3 <= y2
    ensures (n - w1) / 7 == (monday + 3 - y1 - 1) / 7
  {
    var qm, q1, q2 := monday / 7, w1 / 7, w2 / 7;
    assert monday == 7 * qm + 1 && w1 == 7 * q1 + 1 && w2 == 7 * q2 + 1;
    var k := qm - q1;
    assert n - w1 == 7 * k + (n - monday);
    DivUnique(n - w1, 7, k, n - monday);
    DivUnique(monday + 3 - y1 - 1, 7, k, w1 + 2 - y1);
  }

  /** `year_week_iso`: ISO week-year * 100 + ISO week. */
  function YearWeekIso(d: CalDate): int
  {
    var r := IsoCalendar(d);
    r.year * 100 + r.week
  }

  /** The key's digits give back the ISO year and week. */
  lemma YearWeekIsoDigits(d: CalDate)
    ensures YearWeekIso(d) / 100 == IsoCalendar(d).year
    ensures YearWeekIso(d) % 100 == IsoCalendar(d).week
  {
    IsoCalendarMeaning(d);
  }

  /** The key never decreases in calendar order. */
  lemma YearWeekIsoMonotone(a: CalDate, b: CalDate)
    requires DateLe(a, b)
    ensures YearWeekIso(a) <= YearWeekIso(b)
  {
    DayNumberOrder(a, b);
    IsoCalendarMeaning(a);
    IsoCalendarMeaning(b);
    IsoDateMonotone(IsoCalendar(a), DayNumber(a), IsoCalendar(b), DayNumber(b));
  }

  /** ISO week dates of later days have later (year, week) pairs. */
  lemma IsoDateMonotone(ra: IsoCalendarDate, ta: int, rb: IsoCalendarDate, tb: int)
    requires IsIsoDateOf(ra, ta) && IsIsoDateOf(rb, tb) && ta <= tb
    ensures ra.year * 100 + ra.week <= rb.year * 100 + rb.week
  {
    if ra.year > rb.year {
      Week1MondayMonotone(rb.year + 1, ra.year);
      assert false;
    } else if ra.year == rb.year {
      var w := Week1Monday(ra.year);
      DivMonotone(ta - w, tb - w);
    }
  }

  lemma DivMonotone(x: int, y: int)
    requires 0 <= x <= y
    ensures x / 7 <= y / 7
  {
    var qx, qy := x / 7, y / 7;
    assert x == 7 * qx + x % 7 && y == 7 * qy + y % 7;
  }
}
