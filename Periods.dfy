/**
 * The period resolver: a period kind, chosen in a drop-down, and the date
 * the clock reports as "today" give the first and last day (inclusive) of
 * the billing window. `PeriodDates` serves the summary tab and knows no
 * custom range; `CurrentPeriod` serves the recording tab and adds one.
 */
module Periods {
  import opened Wrappers
  import opened Dates

  /** A resolved window, both ends inclusive, as day numbers. */
  datatype Period = Period(start: int, end: int)

  /** From the first day of month index `monthIndex + startOffset` to the last day of month index `monthIndex + endOffset`, in year `y`. */
  function MonthWindow(y: int, monthIndex: int, startOffset: int, endOffset: int): Period {
    Period(MakeDay(y, monthIndex + startOffset, 1), MakeDay(y, monthIndex + endOffset + 1, 0))
  }

  /** The period for `kind`; any kind it does not know is the current month. */
  function PeriodDates(kind: string, today: Civil): (p: Period)
    requires ValidCivil(today)
  {
    var y, m := today.year, today.month - 1;
    if kind == "current_month" then MonthWindow(y, m, 0, 0)
    else if kind == "last_month" then MonthWindow(y, m, -1, -1)
    else if kind == "last_3_months" then MonthWindow(y, m, -3, 0)
    else if kind == "last_6_months" then MonthWindow(y, m, -6, 0)
    else MonthWindow(y, m, 0, 0)
  }

  /**
   * The period of the recording tab: the same switch with one more case,
   * a custom kind that takes the two date fields, each falling back to
   * today when empty.
   */
  function CurrentPeriod(kind: string, today: Civil, customStart: Option<int>, customEnd: Option<int>): Period
    requires ValidCivil(today)
  {
    var y, m := today.year, today.month - 1;
    if kind == "current_month" then MonthWindow(y, m, 0, 0)
    else if kind == "last_month" then MonthWindow(y, m, -1, -1)
    else if kind == "last_3_months" then MonthWindow(y, m, -3, 0)
    else if kind == "last_6_months" then MonthWindow(y, m, -6, 0)
    else if kind == "custom" then
      Period(customStart.GetOr(DayNumber(today)), customEnd.GetOr(DayNumber(today)))
    else MonthWindow(y, m, 0, 0)
  }

  // ---------------------------------------------------------------------
  // A calendar reference for the month arithmetic.

  /** The first day of the month `k` months before month `m` of year `y`, wrapping into the previous year. */
  function MonthsBefore(y: int, m: int, k: int): (c: Civil)
    requires 1 <= m <= 12 && 0 <= k < 12
    ensures ValidCivil(c) && c.day == 1
  {
    if k < m then Civil(y, m - k, 1) else Civil(y - 1, m - k + 12, 1)
  }

  lemma MakeDayFirstOfEarlierMonth(y: int, m: int, k: int)
    requires 1 <= m <= 12 && 0 <= k < 12
    ensures MakeDay(y, m - 1 - k, 1) == DayNumber(MonthsBefore(y, m, k))
  {
    if k < m {
      assert (m - 1 - k) / 12 == 0 && (m - 1 - k) % 12 == m - 1 - k;
    } else {
      assert (m - 1 - k) / 12 == -1 && (m - 1 - k) % 12 == m - 1 - k + 12;
    }
  }

  lemma MakeDayLastOfThisMonth(today: Civil)
    requires ValidCivil(today)
    ensures MakeDay(today.year, today.month, 0) == DayNumber(LastDay(today.year, today.month))
  {
    MakeDayLastOfMonth(today.year, today.month - 1);
    assert (today.month - 1) / 12 == 0 && (today.month - 1) % 12 == today.month - 1;
  }

  // ---------------------------------------------------------------------
  // What each kind resolves to.

  /** The current month runs from its first day to its last. */
  lemma CurrentMonthPeriod(today: Civil)
    requires ValidCivil(today)
    ensures PeriodDates("current_month", today)
         == Period(DayNumber(Civil(today.year, today.month, 1)), DayNumber(LastDay(today.year, today.month)))
  {
    MakeDayFirstOfEarlierMonth(today.year, today.month, 0);
    MakeDayLastOfThisMonth(today);
  }

  /** Last month is the whole previous calendar month; in January that is December of the previous year. */
  lemma LastMonthPeriod(today: Civil)
    requires ValidCivil(today)
    ensures var first := MonthsBefore(today.year, today.month, 1);
            PeriodDates("last_month", today) == Period(DayNumber(first), DayNumber(LastDay(first.year, first.month)))
  {
    var first := MonthsBefore(today.year, today.month, 1);
    MakeDayFirstOfEarlierMonth(today.year, today.month, 1);
    MakeDayLastOfMonth(today.year, today.month - 2);
    if today.month == 1 {
      assert (today.month - 2) / 12 == -1 && (today.month - 2) % 12 == 11;
    } else {
      assert (today.month - 2) / 12 == 0 && (today.month - 2) % 12 == today.month - 2;
    }
  }

  /**
   * "Last 3 months" starts on the first of the month three months back and
   * ends on the last day of the current month: four calendar months.
   */
  lemma Last3MonthsPeriod(today: Civil)
    requires ValidCivil(today)
    ensures PeriodDates("last_3_months", today)
         == Period(DayNumber(MonthsBefore(today.year, today.month, 3)), DayNumber(LastDay(today.year, today.month)))
  {
    MakeDayFirstOfEarlierMonth(today.year, today.month, 3);
    MakeDayLastOfThisMonth(today);
  }

  /** "Last 6 months" likewise spans seven calendar months. */
  lemma Last6MonthsPeriod(today: Civil)
    requires ValidCivil(today)
    ensures PeriodDates("last_6_months", today)
         == Period(DayNumber(MonthsBefore(today.year, today.month, 6)), DayNumber(LastDay(today.year, today.month)))
  {
    MakeDayFirstOfEarlierMonth(today.year, today.month, 6);
    MakeDayLastOfThisMonth(today);
  }

  /** An unrecognised kind, "custom" included, resolves as the current month. */
  lemma UnknownKindIsCurrentMonth(kind: string, today: Civil)
    requires ValidCivil(today)
    requires kind !in ["current_month", "last_month", "last_3_months", "last_6_months"]
    ensures PeriodDates(kind, today) == PeriodDates("current_month", today)
  {
  }

  /** Every named period starts no later than it ends. */
  lemma PeriodDatesOrdered(kind: string, today: Civil)
    requires ValidCivil(today)
    ensures PeriodDates(kind, today).start <= PeriodDates(kind, today).end
  {
    var first, last: Civil;
    if kind == "last_month" {
      LastMonthPeriod(today);
      first := MonthsBefore(today.year, today.month, 1);
      last := LastDay(first.year, first.month);
    } else {
      last := LastDay(today.year, today.month);
      if kind == "last_3_months" {
        Last3MonthsPeriod(today);
        first := MonthsBefore(today.year, today.month, 3);
      } else if kind == "last_6_months" {
        Last6MonthsPeriod(today);
        first := MonthsBefore(today.year, today.month, 6);
      } else {
        CurrentMonthPeriod(today);
        first := Civil(today.year, today.month, 1);
      }
    }
    DayNumberOrder(first, last);
  }

  /** The two resolvers agree on every kind but "custom", which only the recording tab knows. */
  lemma CurrentPeriodAgrees(kind: string, today: Civil, customStart: Option<int>, customEnd: Option<int>)
    requires ValidCivil(today)
    ensures kind != "custom" ==> CurrentPeriod(kind, today, customStart, customEnd) == PeriodDates(kind, today)
    ensures kind == "custom" ==> PeriodDates(kind, today) == PeriodDates("current_month", today)
  {
  }

  /** A custom period takes the given days, and today for a field left empty. */
  lemma CustomPeriod(today: Civil, customStart: Option<int>, customEnd: Option<int>)
    requires ValidCivil(today)
    ensures var p := CurrentPeriod("custom", today, customStart, customEnd);
            && (customStart.Some? ==> p.start == customStart.value)
            && (customStart.None? ==> p.start == DayNumber(today))
            && (customEnd.Some? ==> p.end == customEnd.value)
            && (customEnd.None? ==> p.end == DayNumber(today))
  {
  }

  /** Resolving "last_3_months" on 2024-06-15 gives 2024-03-01 to 2024-06-30. */
  lemma Last3MonthsExample()
    ensures PeriodDates("last_3_months", Civil(2024, 6, 15))
         == Period(DayNumber(Civil(2024, 3, 1)), DayNumber(Civil(2024, 6, 30)))
  {
    Last3MonthsPeriod(Civil(2024, 6, 15));
  }

  /** Resolving "last_6_months" in February wraps into August of the previous year. */
  lemma Last6MonthsWrapExample()
    ensures PeriodDates("last_6_months", Civil(2024, 2, 10))
         == Period(DayNumber(Civil(2023, 8, 1)), DayNumber(Civil(2024, 2, 29)))
  {
    Last6MonthsPeriod(Civil(2024, 2, 10));
  }
}
