/** Proleptic Gregorian dates as Python's `datetime.date` sees them:
    a (year, month, day) triple with 1 <= year <= 9999, the ordinal day
    number (`toordinal`, 0001-01-01 is day 1), its inverse, date arithmetic
    through ordinals, comparison, weekday, the `yyyymmdd` key and
    `week_start_monday`. */
module Calendar {
  import opened Common

  datatype Date = Date(year: int, month: int, day: int)

  const MinYear := 1
  const MaxYear := 9999
  /** Ordinal of 9999-12-31, Python's `date.max.toordinal()`. */
  const MaxOrdinal := 3652059
  /** `date.max`, the last day a Python date can hold. */
  const MaxDate: CalDate := Date(9999, 12, 31)

  predicate IsLeapYear(y: int)
  {
    y % 4 == 0 && (y % 100 != 0 || y % 400 == 0)
  }

  function DaysInYear(y: int): int
  {
    if IsLeapYear(y) then 366 else 365
  }

  function DaysInMonth(y: int, m: int): (n: int)
    requires 1 <= m <= 12
    ensures 28 <= n <= 31
  {
    if m == 2 then (if IsLeapYear(y) then 29 else 28)
    else if m == 4 || m == 6 || m == 9 || m == 11 then 30
    else 31
  }

  /** Days in the months of year y that precede month m. */
  function DaysBeforeMonth(y: int, m: int): int
    requires 1 <= m <= 12
  {
    [0, 31, 59, 90, 120, 151, 181, 212, 243, 273, 304, 334][m - 1]
      + (if m > 2 && IsLeapYear(y) then 1 else 0)
  }

  predicate Valid(d: Date)
  {
    MinYear <= d.year <= MaxYear && 1 <= d.month <= 12 && 1 <= d.day <= DaysInMonth(d.year, d.month)
  }

  /** The values a Python `date` object can hold. */
  type CalDate = d: Date | Valid(d) witness Date(1, 1, 1)

  /** Days in the years before year y (the days from 0001-01-01 to y-01-01);
      DaysBeforeYearFormula proves it equal to CPython's closed form. */
  function DaysBeforeYear(y: int): int
    requires y >= 1
  {
    if y == 1 then 0 else DaysBeforeYear(y - 1) + DaysInYear(y - 1)
  }

  /** Python's `date.toordinal()`: the ordinal lies inside the date's own
      year, and within 1 .. MaxOrdinal. */
  function DayNumber(d: CalDate): (n: int)
    ensures DaysBeforeYear(d.year) < n <= DaysBeforeYear(d.year + 1)
    ensures 1 <= n <= MaxOrdinal
  {
    OrdinalBounds(d.year, d.month, d.day);
    DaysBeforeYear(d.year) + DaysBeforeMonth(d.year, d.month) + d.day
  }

  // ---------------------------------------------------------------------------
  // Facts about the year and month tables
  // ---------------------------------------------------------------------------

  lemma DaysBeforeYearStep(y: int)
    requires y >= 1
    ensures DaysBeforeYear(y + 1) == DaysBeforeYear(y) + DaysInYear(y)
  {
  }

  lemma DaysBeforeYearGrows(y: int)
    requires y >= 1
    ensures DaysBeforeYear(y + 1) >= DaysBeforeYear(y) + 365
  {
    DaysBeforeYearStep(y);
  }

  /** CPython's `_days_before_year`: 365 days a year plus one for every
      fourth year, less the centuries, plus the fourth centuries. */
  lemma {:induction false} DaysBeforeYearFormula(y: int)
    requires y >= 1
    ensures var p := y - 1; DaysBeforeYear(y) == p * 365 + p / 4 - p / 100 + p / 400
    decreases y
  {
    if y > 1 {
      DaysBeforeYearFormula(y - 1);
      FormulaStep(y - 2);
    }
  }

  lemma FormulaStep(p: int)
    requires p >= 0
    ensures (p + 1) * 365 + (p + 1) / 4 - (p + 1) / 100 + (p + 1) / 400
            == p * 365 + p / 4 - p / 100 + p / 400 + DaysInYear(p + 1)
  {
    DivStep(p, 4);
    DivStep(p, 100);
    DivStep(p, 400);
  }

  lemma {:induction false} DaysBeforeYearMonotone(a: int, b: int)
    requires 1 <= a <= b
    ensures DaysBeforeYear(b) - DaysBeforeYear(a) >= 365 * (b - a)
    decreases b - a
  {
    if a < b {
      DaysBeforeYearMonotone(a, b - 1);
      DaysBeforeYearStep(b - 1);
    }
  }

  lemma {:induction false} DaysBeforeYearBounds(y: int)
    requires y >= 1
    ensures 365 * (y - 1) <= DaysBeforeYear(y) <= 366 * (y - 1)
    decreases y
  {
    if y > 1 {
      DaysBeforeYearBounds(y - 1);
    }
  }

  lemma DaysBeforeMonthStep(y: int, m: int)
    requires 1 <= m <= 12
    ensures m < 12 ==> DaysBeforeMonth(y, m + 1) == DaysBeforeMonth(y, m) + DaysInMonth(y, m)
    ensures m == 12 ==> DaysBeforeMonth(y, m) + DaysInMonth(y, m) == DaysInYear(y)
  {
  }

  lemma {:induction false} DaysBeforeMonthMonotone(y: int, m1: int, m2: int)
    requires 1 <= m1 < m2 <= 12
    ensures DaysBeforeMonth(y, m1) + DaysInMonth(y, m1) <= DaysBeforeMonth(y, m2)
    decreases m2 - m1
  {
    DaysBeforeMonthStep(y, m1);
    if m1 + 1 < m2 {
      DaysBeforeMonthMonotone(y, m1 + 1, m2);
    }
  }

  /** The ordinal of (y, m, day) lies inside year y, and within 1 .. MaxOrdinal. */
  lemma OrdinalBounds(y: int, m: int, day: int)
    requires MinYear <= y <= MaxYear && 1 <= m <= 12 && 1 <= day <= DaysInMonth(y, m)
    ensures DaysBeforeYear(y) < DaysBeforeYear(y) + DaysBeforeMonth(y, m) + day <= DaysBeforeYear(y + 1)
    ensures 1 <= DaysBeforeYear(y) + DaysBeforeMonth(y, m) + day <= MaxOrdinal
  {
    DaysBeforeYearStep(y);
    DaysBeforeMonthStep(y, 12);
    if m < 12 {
      DaysBeforeMonthMonotone(y, m, 12);
    }
    DaysBeforeYearBounds(y);
    DaysBeforeYearMonotone(y + 1, MaxYear + 1);
    MaxOrdinalValue();
  }

  lemma MaxOrdinalValue()
    ensures DaysBeforeYear(MaxYear + 1) == MaxOrdinal
  {
    DaysBeforeYearFormula(MaxYear + 1);
  }

  // ---------------------------------------------------------------------------
  // Comparison (Python compares dates as (year, month, day) tuples)
  // ---------------------------------------------------------------------------

  predicate DateLt(a: Date, b: Date)
  {
    a.year < b.year
    || (a.year == b.year && a.month < b.month)
    || (a.year == b.year && a.month == b.month && a.day < b.day)
  }

  predicate DateLe(a: Date, b: Date)
  {
    a == b || DateLt(a, b)
  }

  lemma DayNumberStrictlyMonotone(a: CalDate, b: CalDate)
    requires DateLt(a, b)
    ensures DayNumber(a) < DayNumber(b)
  {
    if a.year < b.year {
      DaysBeforeYearMonotone(a.year + 1, b.year);
    } else if a.month < b.month {
      DaysBeforeMonthMonotone(a.year, a.month, b.month);
    }
  }

  /** The ordinal is a bijection's forward half: it orders dates exactly as
      Python's comparison does, so in particular it is injective. */
  lemma DayNumberOrder(a: CalDate, b: CalDate)
    ensures DateLt(a, b) <==> DayNumber(a) < DayNumber(b)
    ensures DateLe(a, b) <==> DayNumber(a) <= DayNumber(b)
    ensures a == b <==> DayNumber(a) == DayNumber(b)
  {
    if DateLt(a, b) {
      DayNumberStrictlyMonotone(a, b);
    } else if DateLt(b, a) {
      DayNumberStrictlyMonotone(b, a);
    } else {
      assert a == b;
    }
  }

  /** date.max is the one date whose ordinal is MaxOrdinal. */
  lemma MaxDateOrdinal(d: CalDate)
    ensures DayNumber(d) == MaxOrdinal <==> d == MaxDate
  {
    DaysBeforeYearFormula(MaxYear);
    DayNumberOrder(d, MaxDate);
  }

  // ---------------------------------------------------------------------------
  // Inverse of the ordinal (Python's `date.fromordinal`)
  // ---------------------------------------------------------------------------

  /** The year holding ordinal n, searched upward from year y. */
  function YearOf(n: int, y: int): (r: int)
    requires 1 <= y && DaysBeforeYear(y) < n
    ensures y <= r && DaysBeforeYear(r) < n <= DaysBeforeYear(r + 1)
    decreases n - DaysBeforeYear(y)
  {
    DaysBeforeYearStep(y);
    if n <= DaysBeforeYear(y + 1) then y else YearOf(n, y + 1)
  }

  /** The month of year y holding day-of-year k, searched upward from month m. */
  function MonthOf(y: int, k: int, m: int): (r: int)
    requires 1 <= m <= 12 && DaysBeforeMonth(y, m) < k <= DaysInYear(y)
    ensures m <= r <= 12
    ensures DaysBeforeMonth(y, r) < k <= DaysBeforeMonth(y, r) + DaysInMonth(y, r)
    decreases 12 - m
  {
    DaysBeforeMonthStep(y, m);
    if m == 12 || k <= DaysBeforeMonth(y, m) + DaysInMonth(y, m) then m
    else MonthOf(y, k, m + 1)
  }

  function FromDayNumber(n: int): (d: CalDate)
    requires 1 <= n <= MaxOrdinal
    ensures DayNumber(d) == n
  {
    var y0 := (n - 1) / 366 + 1;
    DaysBeforeYearBounds(y0);
    var y := YearOf(n, y0);
    assert y <= MaxYear by {
      if y > MaxYear {
        MaxOrdinalValue();
        DaysBeforeYearMonotone(MaxYear + 1, y);
      }
    }
    DaysBeforeYearStep(y);
    var k := n - DaysBeforeYear(y);
    var m := MonthOf(y, k, 1);
    Date(y, m, k - DaysBeforeMonth(y, m))
  }

  /** The backward half of the bijection. */
  lemma FromDayNumberOfDayNumber(d: CalDate)
    ensures FromDayNumber(DayNumber(d)) == d
  {
    DayNumberOrder(FromDayNumber(DayNumber(d)), d);
  }

  // ---------------------------------------------------------------------------
  // Arithmetic, weekday and the two date helpers of the script
  // ---------------------------------------------------------------------------

  /** `d + timedelta(days=k)`: ordinal arithmetic, OverflowError (None)
      when the result falls outside 0001-01-01 .. 9999-12-31. */
  function AddDays(d: CalDate, k: int): (r: Option<CalDate>)
    ensures r.Some? <==> 1 <= DayNumber(d) + k <= MaxOrdinal
    ensures r.Some? ==> DayNumber(r.value) == DayNumber(d) + k
  {
    var o := DayNumber(d) + k;
    if 1 <= o <= MaxOrdinal then Some(FromDayNumber(o)) else None
  }

  /** Python's weekday of an ordinal: Monday = 0 .. Sunday = 6. */
  function WeekdayOfOrdinal(n: int): (w: int)
    ensures 0 <= w <= 6
  {
    (n + 6) % 7
  }

  /** Mondays are exactly the ordinals 7q + 1; the Monday of n's week is n
      minus its weekday. */
  lemma MondayOrdinals(n: int)
    ensures WeekdayOfOrdinal(n) == 0 <==> n % 7 == 1
    ensures (n - WeekdayOfOrdinal(n)) % 7 == 1
    ensures n >= 1 ==> n - WeekdayOfOrdinal(n) >= 1
  {
    var q, w := (n + 6) / 7, (n + 6) % 7;
    assert n + 6 == 7 * q + w;
    assert n - w == 7 * (q - 1) + 1;
  }

  function Weekday(d: CalDate): (w: int)
    ensures 0 <= w <= 6
  {
    WeekdayOfOrdinal(DayNumber(d))
  }

  /** `yyyymmdd`: the integer whose decimal digits are the date. */
  function Yyyymmdd(d: Date): int
  {
    d.year * 10000 + d.month * 100 + d.day
  }

  /** The digits of the key give back year, month and day. */
  lemma YyyymmddDigits(d: CalDate)
    ensures Yyyymmdd(d) / 10000 == d.year
    ensures Yyyymmdd(d) / 100 % 100 == d.month
    ensures Yyyymmdd(d) % 100 == d.day
    ensures 10101 <= Yyyymmdd(d) <= 99991231
  {
    var r := Yyyymmdd(d);
    assert r == d.year * 10000 + (d.month * 100 + d.day);
    assert r / 100 == d.year * 100 + d.month;
  }

  /** The key is strictly increasing in calendar order, hence injective. */
  lemma YyyymmddMonotone(a: CalDate, b: CalDate)
    ensures DateLt(a, b) <==> Yyyymmdd(a) < Yyyymmdd(b)
    ensures a == b <==> Yyyymmdd(a) == Yyyymmdd(b)
  {
    YyyymmddDigits(a);
    YyyymmddDigits(b);
  }

  /** `week_start_monday`: d minus its weekday, the Monday starting d's week. */
  function WeekStartMonday(d: CalDate): (r: CalDate)
    ensures Weekday(r) == 0
    ensures DateLe(r, d)
    ensures DayNumber(d) - 6 <= DayNumber(r) <= DayNumber(d)
    ensures DayNumber(r) == DayNumber(d) - Weekday(d)
  {
    var n := DayNumber(d);
    MondayOrdinals(n);
    var r := AddDays(d, -Weekday(d)).value;
    MondayOrdinals(DayNumber(r));
    DayNumberOrder(r, d);
    r
  }

  /** Applying it to a Monday returns that Monday; so it is idempotent. */
  lemma WeekStartMondayIdempotent(d: CalDate)
    ensures Weekday(d) == 0 ==> WeekStartMonday(d) == d
    ensures WeekStartMonday(WeekStartMonday(d)) == WeekStartMonday(d)
  {
    DayNumberOrder(WeekStartMonday(d), d);
    var m := WeekStartMonday(d);
    DayNumberOrder(WeekStartMonday(m), m);
  }

  /** Every Monday on or before d is on or before its week start: the week
      start is the latest such Monday. */
  lemma WeekStartMondayIsLatest(d: CalDate, m: CalDate)
    requires Weekday(m) == 0 && DateLe(m, d)
    ensures DateLe(m, WeekStartMonday(d))
  {
    var r := WeekStartMonday(d);
    DayNumberOrder(m, d);
    var a, b, n := DayNumber(m), DayNumber(r), DayNumber(d);
    assert a <= b by {
      MondayOrdinals(a);
      MondayOrdinals(b);
      LaterMonday(a, b, n);
    }
    DayNumberOrder(m, r);
  }

  lemma LaterMonday(a: int, b: int, n: int)
    requires a % 7 == 1 && b % 7 == 1 && a <= n <= b + 6
    ensures a <= b
  {
    var qa, qb := a / 7, b / 7;
    assert a == 7 * qa + 1 && b == 7 * qb + 1;
  }

  /** 0001-01-01 (proleptic) was a Monday. */
  lemma FirstDayIsMonday()
    ensures Weekday(Date(1, 1, 1)) == 0
  {
  }

  /** 2014-01-01 was a Wednesday. */
  lemma Weekday20140101()
    ensures Weekday(Date(2014, 1, 1)) == 2
  {
    OrdinalOf20140101();
  }

  /** 2026-12-31 was a Thursday. */
  lemma Weekday20261231()
    ensures Weekday(Date(2026, 12, 31)) == 3
  {
    OrdinalOf20261231();
  }

  lemma OrdinalOf20140101()
    ensures DayNumber(Date(2014, 1, 1)) == 735234
  {
    DaysBeforeYearFormula(2014);
  }

  lemma OrdinalOf20261231()
    ensures DayNumber(Date(2026, 12, 31)) == 739981
  {
    DaysBeforeYearFormula(2026);
  }
}
