/** `populate_date_dt`: one row per calendar day from DATE_START to
    DATE_END, each with its integer key, calendar parts, ISO week, week
    start and weekend flag. */
module DateDimension {
  import opened Common
  import opened Calendar
  import opened IsoWeek

  const DateStart: CalDate := Date(2014, 1, 1)
  const DateEnd: CalDate := Date(2026, 12, 31)

  /** A row of date_dt without the two strftime texts (month name, weekday
      abbreviation). */
  datatype DateRow = DateRow(
    dateId: int,
    fullDate: CalDate,
    day: int,
    month: int,
    year: int,
    weekOfYear: int,
    weekStartDate: CalDate,
    yearWeek: int,
    isWeekend: bool)

  /** The row the loop appends for day d. */
  function DateRowOf(d: CalDate): DateRow
  {
    DateRow(Yyyymmdd(d), d, d.day, d.month, d.year, IsoCalendar(d).week,
            WeekStartMonday(d), YearWeekIso(d), Weekday(d) >= 5)
  }

  /** What the columns of a day's row hold: the key's digits are the date,
      the week of year is the ISO week (1 to 53), the year-week key's digits
      are the ISO year and week, the week starts on the Monday at most six
      days before, and the weekend flag marks Saturday and Sunday. */
  lemma DateRowOfMeaning(d: CalDate)
    ensures var row := DateRowOf(d);
      && row.fullDate == d && row.day == d.day && row.month == d.month && row.year == d.year
      && row.dateId / 10000 == d.year && row.dateId / 100 % 100 == d.month && row.dateId % 100 == d.day
      && row.weekOfYear == IsoCalendar(d).week && 1 <= row.weekOfYear <= 53
      && row.yearWeek / 100 == IsoCalendar(d).year && row.yearWeek % 100 == row.weekOfYear
      && Weekday(row.weekStartDate) == 0
      && DayNumber(d) - 6 <= DayNumber(row.weekStartDate) <= DayNumber(d)
      && (row.isWeekend <==> Weekday(d) == 5 || Weekday(d) == 6)
  {
    YyyymmddDigits(d);
    IsoCalendarMeaning(d);
    YearWeekIsoDigits(d);
  }

  /** Days in the closed range [start, end]. */
  function DayCount(start: CalDate, end: CalDate): nat
  {
    if DayNumber(start) <= DayNumber(end) then DayNumber(end) - DayNumber(start) + 1 else 0
  }

  /** Row i is dated i days after start, for every day of the range. */
  ghost predicate DaysFrom(rows: seq<DateRow>, start: CalDate, end: CalDate)
  {
    && |rows| == DayCount(start, end)
    && forall i :: 0 <= i < |rows| ==> DayNumber(rows[i].fullDate) == DayNumber(start) + i
  }

  /** Every row is the row of its own date. */
  ghost predicate RowsOfTheirDays(rows: seq<DateRow>)
  {
    forall i :: 0 <= i < |rows| ==> rows[i] == DateRowOf(rows[i].fullDate)
  }

  ghost predicate OneRowPerDay(rows: seq<DateRow>, start: CalDate, end: CalDate)
  {
    DaysFrom(rows, start, end) && RowsOfTheirDays(rows)
  }

  /** The `while d <= DATE_END` loop. Adding a day to 9999-12-31 raises
      OverflowError, which happens exactly when the range is non-empty and
      ends on the day with the largest ordinal, which MaxDateOrdinal shows
      is that day. */
  method PopulateDateRows(start: CalDate, end: CalDate) returns (r: Result<seq<DateRow>>)
    ensures r.Failure? <==> DateLe(start, end) && DayNumber(end) == MaxOrdinal
    ensures r.Failure? ==> r.error == OverflowError
    ensures r.Ok? ==> OneRowPerDay(r.value, start, end)
  {
    var rows: seq<DateRow> := [];
    var d := start;
    DayNumberOrder(start, end);
    while DateLe(d, end)
      invariant DayNumber(d) == DayNumber(start) + |rows|
      invariant rows != [] ==> DayNumber(d) <= DayNumber(end) + 1
      invariant forall i :: 0 <= i < |rows| ==> DayNumber(rows[i].fullDate) == DayNumber(start) + i
      invariant RowsOfTheirDays(rows)
      decreases DayNumber(end) - DayNumber(d)
    {
      DayNumberOrder(d, end);
      AppendDay(rows, start, d);
      rows := rows + [DateRowOf(d)];
      var next := AddDays(d, 1);
      if next.None? {
        return Failure(OverflowError);
      }
      d := next.value;
    }
    DayNumberOrder(d, end);
    return Ok(rows);
  }

  /** Appending the row of the next day keeps the rows dated from start and
      each the row of its own date. */
  lemma AppendDay(rows: seq<DateRow>, start: CalDate, d: CalDate)
    requires forall i :: 0 <= i < |rows| ==> DayNumber(rows[i].fullDate) == DayNumber(start) + i
    requires RowsOfTheirDays(rows)
    requires DayNumber(d) == DayNumber(start) + |rows|
    ensures forall i :: 0 <= i < |rows| + 1 ==>
              DayNumber((rows + [DateRowOf(d)])[i].fullDate) == DayNumber(start) + i
    ensures RowsOfTheirDays(rows + [DateRowOf(d)])
  {
    var row := DateRowOf(d);
    assert row.fullDate == d;
    assert (rows + [row])[|rows|] == row;
  }

  /** Every day of the range has its row, at its offset from start. */
  lemma DaysFromCovers(rows: seq<DateRow>, start: CalDate, end: CalDate, d: CalDate)
    requires DaysFrom(rows, start, end)
    requires DateLe(start, d) && DateLe(d, end)
    ensures 0 <= DayNumber(d) - DayNumber(start) < |rows|
    ensures rows[DayNumber(d) - DayNumber(start)].fullDate == d
  {
    DayNumberOrder(start, d);
    DayNumberOrder(d, end);
    var k := DayNumber(d) - DayNumber(start);
    DayNumberOrder(rows[k].fullDate, d);
  }

  /** The rows run in strictly increasing date order, and so do their keys. */
  lemma OneRowPerDayIncreasing(rows: seq<DateRow>, start: CalDate, end: CalDate, i: int, j: int)
    requires OneRowPerDay(rows, start, end)
    requires 0 <= i < j < |rows|
    ensures DateLt(rows[i].fullDate, rows[j].fullDate)
    ensures rows[i].dateId < rows[j].dateId
  {
    DayNumberOrder(rows[i].fullDate, rows[j].fullDate);
    YyyymmddMonotone(rows[i].fullDate, rows[j].fullDate);
  }

  /** The configured range, 2014-01-01 .. 2026-12-31, is 4748 days (13 years,
      three of them leap years) and does not reach the overflow. */
  lemma ConfiguredDateRange()
    ensures DayCount(DateStart, DateEnd) == 4748
    ensures DateLe(DateStart, DateEnd) && DateEnd != MaxDate
  {
    OrdinalOf20140101();
    OrdinalOf20261231();
  }
}
