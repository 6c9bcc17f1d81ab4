# Utility billing engine — a Dafny model

This project models the billing core of a single-page water and
electricity meter tracker. Customers are recorded with their meter
readings, one dated list per utility. For a billing period the engine finds
each customer's consumption from those readings, prices it with a two-part
tariff (a base fee plus a rate per unit) and totals the bill over all
customers. The model covers:

- the period resolver that turns a period kind and today's date into a window;
- the usage calculator, with its anchor rule and its fallback rule;
- the tariff;
- the aggregator of the summary tab;
- the in-memory store and the user actions that change it.

Modules (one file each):

- `Dates`: civil dates as day numbers since 1970-01-01 (proleptic
  Gregorian). `MakeDay` is JavaScript's `new Date(year, monthIndex, day)`
  with its month and day normalisation. Month indices outside 0..11 roll
  into other years and day 0 is the last day of the previous month.
- `Periods`: `PeriodDates` (summary tab) and `CurrentPeriod` (recording tab, adds custom ranges).
- `Records`: customers, readings and the pair of reading lists kept per customer.
- `ReadingLists`: the stable date sort applied after each new reading, and removal by id.
- `Usage`: the specification `PeriodUsage` and the imperative `CalculateUsageForPeriod` proved equal to it.
- `Tariff`: the settings record with its default values, and the cost formula.
- `Summary`: the imperative summary loop `UpdateSummary` and lemmas about its totals.
- `Store`: the class `AppData` holding customers, reading lists, settings and the selected customer.
  Its methods are the store's mutations. `Valid()` says every reading list is
  in date order and holds only its own customer's readings of its own utility,
  and that the selected customer id is never 0 (selecting 0 selects nobody).
- `Wrappers`: `Option`, used for form fields that are empty or do not parse.

The usage rule is reproduced exactly. The start anchor is the highest-index
reading dated on or before the period start, and the end anchor the
highest-index one dated on or before the period end. When both exist and
the end meter is not below the start meter, usage is their difference,
unclamped. Otherwise the readings dated inside the period are taken in list
order, and usage is `max(0, last - first)`, or 0 when fewer than two
readings are inside. "Last 3 months" and "last 6 months" keep their
behaviour: they cover 4 and 7 calendar months.

One might expect an inverted range (end before start) to give zero usage.
The code does not when a meter went down: the end anchor then lies before
the start anchor and can carry the higher meter, so the primary rule returns
a positive difference. `Usage.InvertedPeriodWithFallingMeter` exhibits such
an input, and `Usage.InvertedPeriodOfRisingMeters` proves zero usage when
meters never decrease.

## Model

| member | source | states |
|---|---|---|
| Dates.DayNumberOrder | script.js.js:836-853 | day numbers order dates as the calendar does (both directions), so comparing day numbers is comparing dates; equal numbers iff equal dates |
| Dates.DayNumberMonotone | script.js.js:836-853 | a calendar-earlier valid date has a strictly smaller day number |
| Dates.MakeDay | script.js.js:942-943 | none; specified by `Dates.MakeDayCivil` and `Dates.MakeDayLastOfMonth` |
| Dates.MakeDayCivil | script.js.js:942 | `new Date(y, m, d)` with an in-range month names the civil date y-(m+1)-d |
| Dates.MakeDayLastOfMonth | script.js.js:943 | `new Date(y, m + 1, 0)` is the last day of month index m, with month indices rolling into other years |
| Periods.PeriodDates | script.js.js:936-963 | none; specified by `Periods.CurrentMonthPeriod`, `Periods.LastMonthPeriod`, `Periods.Last3MonthsPeriod`, `Periods.Last6MonthsPeriod`, `Periods.UnknownKindIsCurrentMonth` and `Periods.PeriodDatesOrdered` |
| Periods.CurrentPeriod | script.js.js:965-997 | none; specified by `Periods.CurrentPeriodAgrees` and `Periods.CustomPeriod` |
| Periods.CurrentMonthPeriod | script.js.js:941-944 | `current_month` is the first to the last day of today's month |
| Periods.LastMonthPeriod | script.js.js:945-948 | `last_month` is the whole previous calendar month, December of last year in January |
| Periods.Last3MonthsPeriod | script.js.js:949-952 | `last_3_months` runs from the first of the month three months back to the last day of this month (four months) |
| Periods.Last6MonthsPeriod | script.js.js:953-956 | `last_6_months` runs from the first of the month six months back to the last day of this month (seven months) |
| Periods.UnknownKindIsCurrentMonth | script.js.js:957-959 | any other kind, "custom" included, resolves as `current_month` on the summary tab |
| Periods.PeriodDatesOrdered | script.js.js:936-963 | every resolved named period starts no later than it ends |
| Periods.CurrentPeriodAgrees | script.js.js:965-997 | the recording-tab resolver equals the summary-tab resolver on every kind but "custom" |
| Periods.CustomPeriod | script.js.js:987-990 | a custom period takes the two given days, today for a field left empty |
| Periods.Last3MonthsExample | script.js.js:949-952 | on 2024-06-15, `last_3_months` is 2024-03-01 to 2024-06-30 |
| Periods.Last6MonthsWrapExample | script.js.js:953-956 | in February 2024, `last_6_months` starts on 2023-08-01 and ends on 2024-02-29 |
| Periods.MakeDayFirstOfEarlierMonth | script.js.js:946-954 | `new Date(y, m - k, 1)`, the start date of `last_month`, `last_3_months` and `last_6_months` (lines 946, 950 and 954, k = 1, 3, 6), is the first of the month k months earlier, wrapping into the previous year |
| Usage.LastAtOrBefore | script.js.js:840-846 | the anchor index: dated on or before the day, with every later reading dated after it; none when every reading is later |
| Usage.LastAtOrBeforeUnique | script.js.js:840-855 | an index dated on or before the day with no later such reading is the anchor the backward scan stops at |
| Usage.LastAtOrBeforeMonotone | script.js.js:840-855 | the anchor of a later day is at the same index or later |
| Usage.PeriodUsage | script.js.js:832-875 | usage is never negative |
| Usage.CalculateUsageForPeriod | script.js.js:832-875 | the two backward scans with `break` compute exactly `PeriodUsage`, which is never negative |
| Usage.WithinPeriod | script.js.js:863-866 | the filtered list is no longer than the input; specified by `Usage.WithinPeriodMembers`, `Usage.WithinPeriodFirst` and `Usage.WithinPeriodLast` |
| Usage.WithinPeriodMembers | script.js.js:863-866 | the in-period filter keeps exactly the readings dated within [start, end] |
| Usage.WithinPeriodFirst | script.js.js:868-869 | the first kept reading is the lowest-index in-period reading |
| Usage.WithinPeriodLast | script.js.js:868-870 | the last kept reading is the highest-index in-period reading |
| Usage.WithinPeriodTwo | script.js.js:868 | two distinct in-period readings make the filtered list have at least two entries |
| Usage.WithinPeriodNone | script.js.js:863-866 | with no reading inside the period the filtered list is empty |
| Usage.WithinPeriodAtMostOne | script.js.js:863-868 | with at most one in-period reading the filtered list has at most one entry |
| Usage.UsageOfNoReadings | script.js.js:833 | an empty reading list has usage 0 |
| Usage.UsageFromAnchors | script.js.js:858-860 | when both anchors exist and the meter did not decrease, usage is end-anchor meter minus start-anchor meter |
| Usage.UsageFromPeriodReadings | script.js.js:863-872 | otherwise usage is max(0, last - first) over the lowest- and highest-index readings inside the period |
| Usage.UsageWithoutPeriodPair | script.js.js:863-874 | otherwise, with fewer than two readings inside the period, usage is 0 |
| Usage.UsageOfRisingMeters | script.js.js:840-860 | with non-decreasing meters and a reading on or before the start, usage is the anchor difference |
| Usage.InvertedPeriodOfRisingMeters | script.js.js:840-874 | with non-decreasing meters an inverted period has usage 0 |
| Usage.InvertedPeriodWithFallingMeter | script.js.js:858-860 | with a falling meter an inverted period can have positive usage (100 then 50 gives 50) |
| Usage.UsageExampleAnchors | script.js.js:840-860 | readings 2024-01-01=100 and 2024-02-01=150 give usage 50 for 2024-01-15..2024-02-15 |
| Usage.UsageExampleNoAnchor | script.js.js:863-874 | a single reading on 2024-02-10 gives usage 0 for January 2024 |
| Tariff.Cost | script.js.js:1039-1045 | the cost at zero usage is the base fee; at non-negative usage and rate it is at least the base fee |
| Tariff.WaterCost | script.js.js:1039-1041 | the water cost at zero usage is the water base fee; at non-negative usage and rate it is at least that fee |
| Tariff.ElectricCost | script.js.js:1043-1045 | the electricity cost at zero usage is the electricity base fee; at non-negative usage and rate it is at least that fee |
| Tariff.CostAffine | script.js.js:1039-1045 | cost is affine in usage: extra usage adds exactly extra × rate, so cost(2u) = cost(u) + u × rate |
| Tariff.CostMonotone | script.js.js:1039-1045 | at a non-negative rate, more usage never costs less |
| Tariff.DefaultWaterExample | script.js.js:20-25 | at the default tariff, 10 units of water cost 188.50 and no electricity costs 38.22 |
| Summary.ReadingsFor | script.js.js:887 | a customer's stored lists, or two empty lists when the store has no entry for it |
| Summary.SummaryOf | script.js.js:886-904 | a customer's line: usages are the calculator's usage of the customer's lists (none when it has no entry) and non-negative, costs are the tariff of the usages, total = water cost + electric cost |
| Summary.SummaryLine | script.js.js:886-893 | the callback's line for one customer, computed with the usage calculator, equals the specification `SummaryOf` |
| Summary.UpdateSummary | script.js.js:882-907 | one line per customer in store order, each the customer's summary; the three running totals are the sums over the lines |
| Summary.GrandTotalSplits | script.js.js:895-898 | the grand total is the sum of water costs plus the sum of electricity costs |
| Summary.UsageTotalsNonNegative | script.js.js:896-897 | the usage totals are never negative |
| Summary.NoReadingsPaysBaseFees | script.js.js:887-893 | a customer with no readings (or no entry) has usage 0 and is billed waterBaseFee + electricBaseFee |
| Summary.GrandTotalAppend | script.js.js:898 | the running-total step `grandTotalCost += totalCost`: a line adds exactly its total cost; it is the recursive case of `SumTotalCost` and nothing more |
| Summary.GrandTotalWithoutReadings | script.js.js:882-907 | when no customer has readings, the grand total is the number of customers times the two base fees |
| Summary.SummaryTotals | script.js.js:882-907 | for a summary, the grand total splits by utility and the usage totals are non-negative |
| ReadingLists.InsertByDate | script.js.js:751-752 | the list grows by one; specified by `ReadingLists.InsertByDatePlace`, `ReadingLists.InsertByDateSorted` and `ReadingLists.InsertByDatePermutation` |
| ReadingLists.SortByDate | script.js.js:752 | the sort keeps the length; specified by `ReadingLists.SortByDateSorted`, `ReadingLists.SortByDatePermutation`, `ReadingLists.SortByDateOfSorted` and `ReadingLists.AppendThenSort` |
| ReadingLists.InsertionPoint | script.js.js:751-752 | where the new reading goes: after a reading dated on or before it, before every reading dated after it |
| ReadingLists.InsertByDateAt | script.js.js:751-752 | insertion splices the new reading in at the insertion point |
| ReadingLists.InsertByDatePlace | script.js.js:751-752 | in a sorted list, the new reading goes after every reading dated on or before it (same dates included) and before every later one |
| ReadingLists.InsertByDateSorted | script.js.js:751-752 | insertion keeps a list in date order |
| ReadingLists.InsertByDatePermutation | script.js.js:751-752 | insertion adds exactly the new reading |
| ReadingLists.SortByDateSorted | script.js.js:752 | the stable sort yields a list in date order |
| ReadingLists.SortByDatePermutation | script.js.js:752 | the stable sort is a permutation of its input |
| ReadingLists.SortByDateOfSorted | script.js.js:752 | sorting a list already in date order leaves it unchanged |
| ReadingLists.AppendThenSort | script.js.js:751-752 | push then stable sort of a sorted list equals inserting the reading after all readings dated on or before it |
| ReadingLists.WithoutId | script.js.js:1115 | the result is no longer than the input; specified by `ReadingLists.WithoutIdMembers`, `ReadingLists.WithoutIdAppend` and `ReadingLists.WithoutIdSorted` |
| ReadingLists.WithoutIdMembers | script.js.js:1115 | removal keeps exactly the readings whose id differs |
| ReadingLists.WithoutIdAppend | script.js.js:1115 | removal distributes over concatenation, so kept readings stay in their original order |
| ReadingLists.WithoutIdSorted | script.js.js:1115 | removal keeps a list in date order |
| Store.FindCustomer | script.js.js:581-587 | the first position holding the id, or none when no customer has it |
| Store.WithoutCustomer | script.js.js:622 | the result is no longer than the input; specified by `Store.WithoutCustomerMembers` and `Store.WithoutCustomerAppend` |
| Store.WithoutCustomerMembers | script.js.js:622 | deleting a customer keeps exactly the customers with another id |
| Store.WithoutCustomerAppend | script.js.js:622 | deleting a customer keeps the others in their order |
| Store.AddReadingWellFormed | script.js.js:751-752 | pushing a reading of the list's customer and utility and sorting gives a well-formed list that grows by exactly that reading |
| Store.RemoveReadingWellFormed | script.js.js:1115 | removing readings by id keeps a list well-formed |
| Store.AppData.constructor | script.js.js:17-26 | the store starts with no customers, no readings, the default settings and nobody selected |
| Store.AppData.SaveCustomer | script.js.js:564-598 | blank name refused; editing replaces the first customer with that id and keeps its creation stamp, or stops when none has it; otherwise appends the customer and gives it two empty lists |
| Store.AppData.SelectCustomer | script.js.js:709-726 | selects the parsed id (0 or unparsable selects nobody) and gives a selected customer without lists two empty ones |
| Store.AppData.SaveReading | script.js.js:729-794 | no selection, a 0 or missing meter, or a missing date change nothing; else the reading is pushed and the list stably sorted, which equals inserting after equal dates, keeps date order and adds exactly that reading |
| Store.AppData.DeleteReading | script.js.js:1112-1123 | the list of that customer and utility loses exactly the readings with that id; no list, no change |
| Store.AppData.DeleteCustomer | script.js.js:619-631 | removes every customer with the id and its readings, and clears the selection if it was that customer |
| Store.AppData.ClearAllHistory | script.js.js:1125-1131 | every customer entry is kept with both lists empty |
| Store.AppData.SaveSettings | script.js.js:1147-1151 | each tariff field becomes its parsed value, or 0 when it is 0, empty or not a number |

## Left out

- Rendering, tab switching, dark mode, messages and the confirmation dialogs: presentation with nothing to compute. Each store method models the action taken once the user confirms.
- `updateCurrentUsage` and `updatePeriodDisplay`: they only display what the calculator and the resolver already give for the selected customer.
- History listing (`updateHistoryDisplay`) and the customer list and drop-downs: presentation.
- `editCustomer`, `showCustomerForm` and `hideCustomerForm`: they only fill and clear the form. The editing flag they set arrives in `SaveCustomer` as its `editing` parameter.
- Synchronisation with the remote spreadsheet, including JSONP, fetch, XHR, the image beacon, timers and the stored URL: network I/O. The shallow merge of remote data into the store is left out too, because its input has no defined shape.
- Clock and id generation: `Date.now()` ids, the creation timestamp and "today" are parameters (`freshId`, `now`, `today`).
- Form parsing: `trim`, `parseFloat` and `parseInt` happen before the model. Parsed numbers arrive as `Option` values, with `None` standing for NaN or an empty field.
- Floating point: meters, fees and rates are `real`. IEEE-754 rounding, the order of floating-point sums and `toFixed(2)` display rounding are not modelled.
- Dates.MakeDay: does not model JavaScript's rule that a year argument from 0 to 99 means 1900 to 1999. The year comes from the clock and is never in that range.
- Time zones and times of day: reading dates and custom dates are parsed as UTC midnight, while named period bounds are local midnight and an empty custom field means "now". The model uses day numbers throughout, so it does not capture these effects of the offset:
  - East of UTC, a reading dated on the first day of a named period is later than the local-midnight start, so it is not "on or before the start" and the previous reading becomes the start anchor. With monthly readings taken on the 1st, `current_month` then bills the previous month's rise, where the model gives 0.
  - East of UTC, a reading dated on the last day of a named period compares as later than the period end.
  - West of UTC, a reading dated on the first day of a named period is earlier than the local-midnight start, so the fallback filter does not count it as inside the period.
- Malformed date strings, which JavaScript turns into an invalid date that fails every comparison: readings always carry a valid day number here.
- Ids: the model does not require customer or reading ids to be unique, and neither does the code. Deleting removes every match, and editing changes the first match.
- SortByDate: the array `sort` with comparator `date(a) - date(b)` is modelled as a stable insertion sort. For a consistent comparator every stable sort gives the same result.
