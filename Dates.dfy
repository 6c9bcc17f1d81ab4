/**
 * Calendar arithmetic behind the billing periods.
 *
 * A date is a day number: the number of days since 1970-01-01 in the
 * proleptic Gregorian calendar (negative before it). `Civil` is the
 * year/month/day view of a date, with months numbered 1..12.
 * `MakeDay` is the JavaScript constructor `new Date(year, monthIndex, day)`
 * reduced to its day: it takes a 0-based month index that may lie outside
 * 0..11 and a day that may be 0, and normalises both the way JavaScript does.
 */
module Dates {

  datatype Civil = Civil(year: int, month: int, day: int)

  predicate IsLeapYear(y: int) {
    y % 4 == 0 && (y % 100 != 0 || y % 400 == 0)
  }

  function DaysInMonth(y: int, m: int): (n: int)
    requires 1 <= m <= 12
    ensures 28 <= n <= 31
    ensures n == 29 <==> m == 2 && IsLeapYear(y)
  {
    if m == 2 then (if IsLeapYear(y) then 29 else 28)
    else if m == 4 || m == 6 || m == 9 || m == 11 then 30
    else 31
  }

  function DaysInYear(y: int): (n: int)
    ensures n == 365 || n == 366
  {
    if IsLeapYear(y) then 366 else 365
  }

  predicate ValidCivil(c: Civil) {
    1 <= c.month <= 12 && 1 <= c.day <= DaysInMonth(c.year, c.month)
  }

  /** The last day of month `m` of year `y`. */
  function LastDay(y: int, m: int): (c: Civil)
    requires 1 <= m <= 12
    ensures ValidCivil(c) && c.year == y && c.month == m
  {
    Civil(y, m, DaysInMonth(y, m))
  }

  /** Days of year `y` that come before the first of month `m` (the cumulative month table). */
  function DaysBeforeMonth(y: int, m: int): (n: int)
    requires 1 <= m <= 12
  {
    [0, 31, 59, 90, 120, 151, 181, 212, 243, 273, 304, 334][m - 1]
      + (if m > 2 && IsLeapYear(y) then 1 else 0)
  }

  /** The day number of January 1st of year `y`. */
  function DaysBeforeYear(y: int): int
    decreases if y >= 1970 then y - 1970 else 1970 - y
  {
    if y == 1970 then 0
    else if y > 1970 then DaysBeforeYear(y - 1) + DaysInYear(y - 1)
    else DaysBeforeYear(y + 1) - DaysInYear(y)
  }

  function DayNumber(c: Civil): int
    requires ValidCivil(c)
  {
    DaysBeforeYear(c.year) + DaysBeforeMonth(c.year, c.month) + c.day - 1
  }

  /** `new Date(year, monthIndex, day)`, as a day number. */
  function MakeDay(year: int, monthIndex: int, day: int): int {
    var y := year + monthIndex / 12;
    var m := monthIndex % 12;
    DaysBeforeYear(y) + DaysBeforeMonth(y, m + 1) + day - 1
  }

  /** Strict calendar order of two year/month/day triples. */
  predicate CivilBefore(a: Civil, b: Civil) {
    a.year < b.year
    || (a.year == b.year && a.month < b.month)
    || (a.year == b.year && a.month == b.month && a.day < b.day)
  }

  // ---------------------------------------------------------------------
  // The month table agrees with DaysInMonth, and years follow one another.

  lemma DaysBeforeMonthStep(y: int, m: int)
    requires 1 <= m < 12
    ensures DaysBeforeMonth(y, m + 1) == DaysBeforeMonth(y, m) + DaysInMonth(y, m)
  {
  }

  lemma DaysBeforeDecember(y: int)
    ensures DaysBeforeMonth(y, 12) + DaysInMonth(y, 12) == DaysInYear(y)
  {
  }

  lemma DaysBeforeYearStep(y: int)
    ensures DaysBeforeYear(y + 1) == DaysBeforeYear(y) + DaysInYear(y)
  {
  }

  /** A later year starts no earlier than a whole year after an earlier one. */
  lemma {:induction false} DaysBeforeYearGap(y1: int, y2: int)
    requires y1 < y2
    ensures DaysBeforeYear(y1) + DaysInYear(y1) <= DaysBeforeYear(y2)
    decreases y2 - y1
  {
    DaysBeforeYearStep(y1);
    if y1 + 1 < y2 {
      DaysBeforeYearGap(y1 + 1, y2);
    }
  }

  /** Within a year, a later month starts no earlier than the end of an earlier one. */
  lemma DaysBeforeMonthGap(y: int, m1: int, m2: int)
    requires 1 <= m1 < m2 <= 12
    ensures DaysBeforeMonth(y, m1) + DaysInMonth(y, m1) <= DaysBeforeMonth(y, m2)
  {
  }

  lemma DaysBeforeMonthBound(y: int, m: int)
    requires 1 <= m <= 12
    ensures DaysBeforeMonth(y, m) + DaysInMonth(y, m) <= DaysInYear(y)
  {
  }

  /** Day numbers follow the calendar: the earlier date has the smaller number. */
  lemma DayNumberMonotone(a: Civil, b: Civil)
    requires ValidCivil(a) && ValidCivil(b)
    requires CivilBefore(a, b)
    ensures DayNumber(a) < DayNumber(b)
  {
    if a.year < b.year {
      DaysBeforeMonthBound(a.year, a.month);
      DaysBeforeYearGap(a.year, b.year);
    } else if a.month < b.month {
      DaysBeforeMonthGap(a.year, a.month, b.month);
    }
  }

  /** Two valid dates compare by day number exactly as they compare on the calendar. */
  lemma DayNumberOrder(a: Civil, b: Civil)
    requires ValidCivil(a) && ValidCivil(b)
    ensures DayNumber(a) < DayNumber(b) <==> CivilBefore(a, b)
    ensures DayNumber(a) == DayNumber(b) <==> a == b
  {
    if CivilBefore(a, b) {
      DayNumberMonotone(a, b);
    } else if CivilBefore(b, a) {
      DayNumberMonotone(b, a);
    }
  }

  // ---------------------------------------------------------------------
  // The JavaScript constructor, normalised.

  /** `new Date(y, m, d)` with an in-range month index is the date it names. */
  lemma MakeDayCivil(c: Civil)
    requires ValidCivil(c)
    ensures MakeDay(c.year, c.month - 1, c.day) == DayNumber(c)
  {
  }

  /**
   * `new Date(y, m + 1, 0)` is the last day of month index `m`, month
   * indices rolling over into neighbouring years as JavaScript does.
   */
  lemma {:induction false} MakeDayLastOfMonth(year: int, monthIndex: int)
    ensures var y := year + monthIndex / 12;
            var m := monthIndex % 12 + 1;
            MakeDay(year, monthIndex + 1, 0) == DayNumber(LastDay(y, m))
  {
    var y := year + monthIndex / 12;
    var m := monthIndex % 12 + 1;
    if m < 12 {
      assert (monthIndex + 1) / 12 == monthIndex / 12 && (monthIndex + 1) % 12 == m;
      DaysBeforeMonthStep(y, m);
    } else {
      assert (monthIndex + 1) / 12 == monthIndex / 12 + 1 && (monthIndex + 1) % 12 == 0;
      DaysBeforeYearStep(y);
      DaysBeforeDecember(y);
    }
  }
}
