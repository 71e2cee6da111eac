/**
 * Calendar dates as the bot compares and subtracts them.
 *
 * The bot works with Python `date` values: it compares them (`d.date() >= today`),
 * subtracts them (`(d - today).days`) and asks for the day of the week
 * (`today.weekday()`). All three are defined by the proleptic Gregorian day
 * ordinal of Python's `date.toordinal()` (0001-01-01 is day 1), so the rest of
 * the model works on ordinals. This module defines that ordinal and proves that
 * ordering ordinals is the same as ordering dates field by field, which is how
 * Python orders `date` values.
 */
module Calendar {

  datatype Date = Date(year: int, month: int, day: int)

  predicate IsLeapYear(y: int) {
    y % 4 == 0 && (y % 100 != 0 || y % 400 == 0)
  }

  function DaysInYear(y: int): int {
    if IsLeapYear(y) then 366 else 365
  }

  function DaysInMonth(y: int, m: int): int
    requires 1 <= m <= 12
  {
    if m == 2 then (if IsLeapYear(y) then 29 else 28)
    else if m == 4 || m == 6 || m == 9 || m == 11 then 30
    else 31
  }

  /** A date Python's `date` constructor accepts (MINYEAR 1 .. MAXYEAR 9999). */
  predicate Valid(d: Date) {
    1 <= d.year <= 9999 && 1 <= d.month <= 12 && 1 <= d.day <= DaysInMonth(d.year, d.month)
  }

  /** Days in the years before January 1st of year y. */
  function DaysBeforeYear(y: int): int
    requires y >= 1
  {
    var z := y - 1;
    z * 365 + z / 4 - z / 100 + z / 400
  }

  /** Days in year y before the first of month m. */
  function DaysBeforeMonth(y: int, m: int): int
    requires 1 <= m <= 12
  {
    var before :=
      if m == 1 then 0 else if m == 2 then 31 else if m == 3 then 59
      else if m == 4 then 90 else if m == 5 then 120 else if m == 6 then 151
      else if m == 7 then 181 else if m == 8 then 212 else if m == 9 then 243
      else if m == 10 then 273 else if m == 11 then 304 else 334;
    before + (if m > 2 && IsLeapYear(y) then 1 else 0)
  }

  /** Python's `date.toordinal()`. */
  function Ordinal(d: Date): (n: int)
    requires Valid(d)
    ensures n >= 1
  {
    DaysBeforeYear(d.year) + DaysBeforeMonth(d.year, d.month) + d.day
  }

  /** Python's `date.weekday()` of the date with ordinal n: Monday is 0, Sunday is 6. */
  function Weekday(n: int): (w: int)
    ensures 0 <= w <= 6
  {
    (n + 6) % 7
  }

  /** The gate of both posting routines: `today.weekday() >= 5` (Saturday or Sunday) posts nothing. */
  predicate IsWeekend(n: int): (weekend: bool)
    ensures weekend <==> Weekday(n) == 5 || Weekday(n) == 6
  {
    Weekday(n) >= 5
  }

  /** Python's `date` ordering: by year, then month, then day. */
  predicate DateLess(a: Date, b: Date) {
    a.year < b.year
    || (a.year == b.year && a.month < b.month)
    || (a.year == b.year && a.month == b.month && a.day < b.day)
  }

  /** From one January 1st to the next: exactly the days of the year. */
  lemma DaysBeforeNextYear(y: int)
    requires y >= 1
    ensures DaysBeforeYear(y + 1) == DaysBeforeYear(y) + DaysInYear(y)
  {
    var z := y - 1;
    assert (z + 1) / 4 - z / 4 == (if y % 4 == 0 then 1 else 0);
    assert (z + 1) / 100 - z / 100 == (if y % 100 == 0 then 1 else 0);
    assert (z + 1) / 400 - z / 400 == (if y % 400 == 0 then 1 else 0);
  }

  /** A later year starts no earlier than the end of an earlier one. */
  lemma {:induction false} DaysBeforeYearGrows(y1: int, y2: int)
    requires 1 <= y1 < y2
    ensures DaysBeforeYear(y1) + DaysInYear(y1) <= DaysBeforeYear(y2)
    decreases y2 - y1
  {
    DaysBeforeNextYear(y1);
    if y1 + 1 < y2 {
      DaysBeforeYearGrows(y1 + 1, y2);
    }
  }

  /** A month ends no later than the next month of the same year begins. */
  lemma MonthFitsBeforeNext(y: int, m1: int, m2: int)
    requires 1 <= m1 < m2 <= 12
    ensures DaysBeforeMonth(y, m1) + DaysInMonth(y, m1) <= DaysBeforeMonth(y, m2)
  {
  }

  /** Every day of a year falls within that year's count of days. */
  lemma DayFitsInYear(d: Date)
    requires Valid(d)
    ensures DaysBeforeMonth(d.year, d.month) + d.day <= DaysInYear(d.year)
  {
  }

  /** The ordinal is strictly increasing in Python's date order. */
  lemma OrdinalIncreasing(a: Date, b: Date)
    requires Valid(a) && Valid(b) && DateLess(a, b)
    ensures Ordinal(a) < Ordinal(b)
  {
    if a.year < b.year {
      DayFitsInYear(a);
      DaysBeforeYearGrows(a.year, b.year);
    } else if a.month < b.month {
      MonthFitsBeforeNext(a.year, a.month, b.month);
    }
  }

  /**
   * Comparing ordinals decides Python's `>=` on dates, and subtracting them is
   * Python's date difference in days: the filter and the countdown can be
   * stated on ordinals without changing their meaning.
   */
  lemma OrdinalOrderIsDateOrder(a: Date, b: Date)
    requires Valid(a) && Valid(b)
    ensures DateLess(a, b) <==> Ordinal(a) < Ordinal(b)
    ensures a == b <==> Ordinal(a) == Ordinal(b)
  {
    if DateLess(a, b) {
      OrdinalIncreasing(a, b);
    } else if DateLess(b, a) {
      OrdinalIncreasing(b, a);
    } else {
      assert a == b;
    }
  }

  /** The ordinal starts where Python's does: 0001-01-01 is day 1. */
  lemma OrdinalEpoch()
    ensures Ordinal(Date(1, 1, 1)) == 1
  {
  }

  /** The ordinal agrees with Python's on the dates the bot uses: 2026-05-01 is day 739737. */
  lemma OrdinalExample()
    ensures Ordinal(Date(2026, 5, 1)) == 739737
    ensures Ordinal(Date(2026, 5, 22)) == 739758
  {
  }

  /** 2026-05-01 is a Friday and is followed by a Saturday and a Sunday. */
  lemma WeekdayExample()
    ensures Weekday(Ordinal(Date(2026, 5, 1))) == 4 && !IsWeekend(Ordinal(Date(2026, 5, 1)))
    ensures Weekday(Ordinal(Date(2026, 5, 2))) == 5 && IsWeekend(Ordinal(Date(2026, 5, 2)))
    ensures Weekday(Ordinal(Date(2026, 5, 3))) == 6 && IsWeekend(Ordinal(Date(2026, 5, 3)))
  {
  }

  /** The weekday advances by one each day, so the gate closes on exactly two days in seven. */
  lemma WeekdayNextDay(n: int)
    ensures Weekday(n + 1) == (Weekday(n) + 1) % 7
    ensures IsWeekend(n) <==> (Weekday(n) == 5 || Weekday(n) == 6)
  {
  }
}
