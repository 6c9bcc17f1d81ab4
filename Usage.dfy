/**
 * The usage calculator: consumption of one utility over a period, from a
 * customer's list of readings in store order.
 *
 * The start anchor is the last reading (highest index) dated on or before
 * the period's start, the end anchor the last one dated on or before its
 * end. When both exist and the meter did not go down between them, usage
 * is their difference, unclamped. Otherwise the readings dated inside the
 * period are taken in list order and usage is the rise from the first to
 * the last of them, clamped at zero, or zero when there are fewer than two.
 */
module Usage {
  import opened Wrappers
  import opened Records
  import Dates

  function Max(a: real, b: real): real {
    if a >= b then a else b
  }

  /** The highest index whose reading is dated on or before `d`, if any. */
  function LastAtOrBefore(rs: seq<Reading>, d: int): (k: Option<nat>)
    ensures k.Some? ==> k.value < |rs| && rs[k.value].date <= d
    ensures k.Some? ==> forall j :: k.value < j < |rs| ==> rs[j].date > d
    ensures k.None? ==> forall j :: 0 <= j < |rs| ==> rs[j].date > d
  {
    if |rs| == 0 then None
    else if rs[|rs| - 1].date <= d then Some(|rs| - 1)
    else LastAtOrBefore(rs[..|rs| - 1], d)
  }

  predicate InPeriod(r: Reading, start: int, end: int) {
    start <= r.date <= end
  }

  /** The readings dated within [start, end], in list order. */
  function WithinPeriod(rs: seq<Reading>, start: int, end: int): (out: seq<Reading>)
    ensures |out| <= |rs|
  {
    if |rs| == 0 then []
    else
      var rest := WithinPeriod(rs[..|rs| - 1], start, end);
      if InPeriod(rs[|rs| - 1], start, end) then rest + [rs[|rs| - 1]] else rest
  }

  /** Whether the primary rule applies: both anchors exist and the end meter is not below the start meter. */
  predicate PrimaryApplies(rs: seq<Reading>, start: int, end: int) {
    var s, e := LastAtOrBefore(rs, start), LastAtOrBefore(rs, end);
    s.Some? && e.Some? && rs[e.value].meter >= rs[s.value].meter
  }

  /** Usage of the period [start, end] as the calculator defines it. */
  function PeriodUsage(rs: seq<Reading>, start: int, end: int): (u: real)
    ensures u >= 0.0
  {
    if |rs| == 0 then 0.0
    else if PrimaryApplies(rs, start, end) then
      rs[LastAtOrBefore(rs, end).value].meter - rs[LastAtOrBefore(rs, start).value].meter
    else
      var f := WithinPeriod(rs, start, end);
      if |f| >= 2 then Max(0.0, f[|f| - 1].meter - f[0].meter) else 0.0
  }

  /**
   * `calculateUsageForPeriod`: two backward scans that stop at the first
   * reading dated on or before the start, and on or before the end.
   */
  method CalculateUsageForPeriod(readings: seq<Reading>, startDate: int, endDate: int) returns (usage: real)
    ensures usage == PeriodUsage(readings, startDate, endDate)
    ensures usage >= 0.0
  {
    if |readings| == 0 {
      return 0.0;
    }

    var startReading: Option<Reading> := None;
    var i := |readings| - 1;
    while i >= 0
      invariant -1 <= i < |readings|
      invariant forall j :: i < j < |readings| ==> readings[j].date > startDate
    {
      if readings[i].date <= startDate {
        LastAtOrBeforeUnique(readings, startDate, i);
        startReading := Some(readings[i]);
        break;
      }
      i := i - 1;
    }
    assert startReading.None? ==> LastAtOrBefore(readings, startDate).None?;
    assert startReading.Some? ==> startReading.value == readings[LastAtOrBefore(readings, startDate).value];

    var endReading: Option<Reading> := None;
    i := |readings| - 1;
    while i >= 0
      invariant -1 <= i < |readings|
      invariant forall j :: i < j < |readings| ==> readings[j].date > endDate
    {
      if readings[i].date <= endDate {
        LastAtOrBeforeUnique(readings, endDate, i);
        endReading := Some(readings[i]);
        break;
      }
      i := i - 1;
    }
    assert endReading.None? ==> LastAtOrBefore(readings, endDate).None?;
    assert endReading.Some? ==> endReading.value == readings[LastAtOrBefore(readings, endDate).value];

    if startReading.Some? && endReading.Some? && endReading.value.meter >= startReading.value.meter {
      return endReading.value.meter - startReading.value.meter;
    }

    var filteredReadings := WithinPeriod(readings, startDate, endDate);
    if |filteredReadings| >= 2 {
      var firstReading := filteredReadings[0];
      var lastReading := filteredReadings[|filteredReadings| - 1];
      return Max(0.0, lastReading.meter - firstReading.meter);
    }
    return 0.0;
  }

  // ---------------------------------------------------------------------
  // The anchors.

  /** An index dated on or before `d` with nothing later so dated is the anchor. */
  lemma {:induction false} LastAtOrBeforeUnique(rs: seq<Reading>, d: int, k: nat)
    requires k < |rs| && rs[k].date <= d
    requires forall j :: k < j < |rs| ==> rs[j].date > d
    ensures LastAtOrBefore(rs, d) == Some(k)
  {
    if k < |rs| - 1 {
      LastAtOrBeforeUnique(rs[..|rs| - 1], d, k);
    }
  }

  /** An anchor of a later day lies at the same index or later. */
  lemma LastAtOrBeforeMonotone(rs: seq<Reading>, d1: int, d2: int)
    requires d1 <= d2
    requires LastAtOrBefore(rs, d1).Some?
    ensures LastAtOrBefore(rs, d2).Some?
    ensures LastAtOrBefore(rs, d1).value <= LastAtOrBefore(rs, d2).value
  {
    var k := LastAtOrBefore(rs, d1).value;
    assert rs[k].date <= d2;
  }

  // ---------------------------------------------------------------------
  // The readings within the period.

  /** Exactly the in-period readings are kept. */
  lemma {:induction false} WithinPeriodMembers(rs: seq<Reading>, start: int, end: int)
    ensures forall x :: x in WithinPeriod(rs, start, end) <==> x in rs && InPeriod(x, start, end)
  {
    if |rs| > 0 {
      var init := rs[..|rs| - 1];
      WithinPeriodMembers(init, start, end);
      assert rs == init + [rs[|rs| - 1]];
    }
  }

  /** The first kept reading is the in-period reading of lowest index. */
  lemma {:induction false} WithinPeriodFirst(rs: seq<Reading>, start: int, end: int, i: nat)
    requires i < |rs| && InPeriod(rs[i], start, end)
    requires forall j :: 0 <= j < i ==> !InPeriod(rs[j], start, end)
    ensures |WithinPeriod(rs, start, end)| >= 1
    ensures WithinPeriod(rs, start, end)[0] == rs[i]
  {
    if i < |rs| - 1 {
      WithinPeriodFirst(rs[..|rs| - 1], start, end, i);
    } else {
      WithinPeriodNone(rs[..i], start, end);
    }
  }

  /** Without in-period readings nothing is kept. */
  lemma {:induction false} WithinPeriodNone(rs: seq<Reading>, start: int, end: int)
    requires forall j :: 0 <= j < |rs| ==> !InPeriod(rs[j], start, end)
    ensures WithinPeriod(rs, start, end) == []
  {
    if |rs| > 0 {
      WithinPeriodNone(rs[..|rs| - 1], start, end);
    }
  }

  /** The last kept reading is the in-period reading of highest index. */
  lemma {:induction false} WithinPeriodLast(rs: seq<Reading>, start: int, end: int, i: nat)
    requires i < |rs| && InPeriod(rs[i], start, end)
    requires forall j :: i < j < |rs| ==> !InPeriod(rs[j], start, end)
    ensures |WithinPeriod(rs, start, end)| >= 1
    ensures WithinPeriod(rs, start, end)[|WithinPeriod(rs, start, end)| - 1] == rs[i]
  {
    if i < |rs| - 1 {
      WithinPeriodLast(rs[..|rs| - 1], start, end, i);
    }
  }

  /** With distinct first and last in-period indices, at least two readings are kept. */
  lemma {:induction false} WithinPeriodTwo(rs: seq<Reading>, start: int, end: int, i: nat, j: nat)
    requires i < j < |rs| && InPeriod(rs[i], start, end) && InPeriod(rs[j], start, end)
    ensures |WithinPeriod(rs, start, end)| >= 2
  {
    if j < |rs| - 1 {
      WithinPeriodTwo(rs[..|rs| - 1], start, end, i, j);
    } else {
      WithinPeriodMembers(rs[..j], start, end);
      assert rs[..j][i] == rs[i];
      assert rs[i] in WithinPeriod(rs[..j], start, end);
    }
  }

  /** With at most one in-period index, fewer than two readings are kept. */
  lemma {:induction false} WithinPeriodAtMostOne(rs: seq<Reading>, start: int, end: int)
    requires forall i, j :: 0 <= i < j < |rs| && InPeriod(rs[i], start, end) ==> !InPeriod(rs[j], start, end)
    ensures |WithinPeriod(rs, start, end)| <= 1
  {
    if |rs| > 0 {
      var init := rs[..|rs| - 1];
      if InPeriod(rs[|rs| - 1], start, end) {
        WithinPeriodNone(init, start, end);
      } else {
        WithinPeriodAtMostOne(init, start, end);
      }
    }
  }

  // ---------------------------------------------------------------------
  // What usage is.

  /** No readings, no usage. */
  lemma UsageOfNoReadings(start: int, end: int)
    ensures PeriodUsage([], start, end) == 0.0
  {
  }

  /**
   * The primary rule: with `s` the last index dated on or before the start
   * and `e` the last dated on or before the end, and the meter at `e` not
   * below the meter at `s`, usage is the difference of the two meters.
   */
  lemma UsageFromAnchors(rs: seq<Reading>, start: int, end: int, s: nat, e: nat)
    requires s < |rs| && rs[s].date <= start && forall j :: s < j < |rs| ==> rs[j].date > start
    requires e < |rs| && rs[e].date <= end && forall j :: e < j < |rs| ==> rs[j].date > end
    requires rs[e].meter >= rs[s].meter
    ensures PeriodUsage(rs, start, end) == rs[e].meter - rs[s].meter
  {
    LastAtOrBeforeUnique(rs, start, s);
    LastAtOrBeforeUnique(rs, end, e);
  }

  /**
   * The fallback: when the primary rule does not apply, usage is the clamped
   * rise from the lowest-index to the highest-index reading inside the period.
   */
  lemma UsageFromPeriodReadings(rs: seq<Reading>, start: int, end: int, i: nat, j: nat)
    requires !PrimaryApplies(rs, start, end)
    requires i < j < |rs| && InPeriod(rs[i], start, end) && InPeriod(rs[j], start, end)
    requires forall k :: 0 <= k < i ==> !InPeriod(rs[k], start, end)
    requires forall k :: j < k < |rs| ==> !InPeriod(rs[k], start, end)
    ensures PeriodUsage(rs, start, end) == Max(0.0, rs[j].meter - rs[i].meter)
  {
    WithinPeriodTwo(rs, start, end, i, j);
    WithinPeriodFirst(rs, start, end, i);
    WithinPeriodLast(rs, start, end, j);
  }

  /** When the primary rule does not apply and at most one reading lies inside the period, usage is zero. */
  lemma UsageWithoutPeriodPair(rs: seq<Reading>, start: int, end: int)
    requires !PrimaryApplies(rs, start, end)
    requires forall i, j :: 0 <= i < j < |rs| && InPeriod(rs[i], start, end) ==> !InPeriod(rs[j], start, end)
    ensures PeriodUsage(rs, start, end) == 0.0
  {
    WithinPeriodAtMostOne(rs, start, end);
  }

  /**
   * With meters that never decrease along the list and some reading on or
   * before the start, usage is the end anchor's meter minus the start anchor's.
   */
  lemma UsageOfRisingMeters(rs: seq<Reading>, start: int, end: int)
    requires forall i, j :: 0 <= i < j < |rs| ==> rs[i].meter <= rs[j].meter
    requires start <= end
    requires LastAtOrBefore(rs, start).Some?
    ensures LastAtOrBefore(rs, end).Some?
    ensures PeriodUsage(rs, start, end)
         == rs[LastAtOrBefore(rs, end).value].meter - rs[LastAtOrBefore(rs, start).value].meter
  {
    LastAtOrBeforeMonotone(rs, start, end);
  }

  /** With meters that never decrease, an inverted period has no usage. */
  lemma InvertedPeriodOfRisingMeters(rs: seq<Reading>, start: int, end: int)
    requires forall i, j :: 0 <= i < j < |rs| ==> rs[i].meter <= rs[j].meter
    requires end < start
    ensures PeriodUsage(rs, start, end) == 0.0
  {
    if LastAtOrBefore(rs, end).Some? {
      LastAtOrBeforeMonotone(rs, end, start);
    }
    WithinPeriodMembers(rs, start, end);
    if |WithinPeriod(rs, start, end)| > 0 {
      assert WithinPeriod(rs, start, end)[0] in WithinPeriod(rs, start, end);
    }
  }

  /**
   * With a meter that went down, an inverted period can still show usage:
   * the end anchor precedes the start anchor and has the higher meter.
   */
  lemma InvertedPeriodWithFallingMeter()
    ensures PeriodUsage([Reading(1, 100.0, 10, Water, 7), Reading(2, 50.0, 20, Water, 7)], 25, 15) == 50.0
  {
    UsageFromAnchors([Reading(1, 100.0, 10, Water, 7), Reading(2, 50.0, 20, Water, 7)], 25, 15, 1, 0);
  }

  /** Readings on 2024-01-01 (100) and 2024-02-01 (150) give usage 50 over 2024-01-15 to 2024-02-15. */
  lemma UsageExampleAnchors()
    ensures var jan1, jan15 := Dates.DayNumber(Dates.Civil(2024, 1, 1)), Dates.DayNumber(Dates.Civil(2024, 1, 15));
            var feb1, feb15 := Dates.DayNumber(Dates.Civil(2024, 2, 1)), Dates.DayNumber(Dates.Civil(2024, 2, 15));
            PeriodUsage([Reading(1, 100.0, jan1, Water, 7), Reading(2, 150.0, feb1, Water, 7)], jan15, feb15) == 50.0
  {
    var jan1, jan15 := Dates.DayNumber(Dates.Civil(2024, 1, 1)), Dates.DayNumber(Dates.Civil(2024, 1, 15));
    var feb1, feb15 := Dates.DayNumber(Dates.Civil(2024, 2, 1)), Dates.DayNumber(Dates.Civil(2024, 2, 15));
    Dates.DayNumberMonotone(Dates.Civil(2024, 1, 1), Dates.Civil(2024, 1, 15));
    Dates.DayNumberMonotone(Dates.Civil(2024, 1, 15), Dates.Civil(2024, 2, 1));
    Dates.DayNumberMonotone(Dates.Civil(2024, 2, 1), Dates.Civil(2024, 2, 15));
    UsageFromAnchors([Reading(1, 100.0, jan1, Water, 7), Reading(2, 150.0, feb1, Water, 7)], jan15, feb15, 0, 1);
  }

  /** A single reading on 2024-02-10 gives no usage for January 2024. */
  lemma UsageExampleNoAnchor()
    ensures var feb10 := Dates.DayNumber(Dates.Civil(2024, 2, 10));
            var jan1, jan31 := Dates.DayNumber(Dates.Civil(2024, 1, 1)), Dates.DayNumber(Dates.Civil(2024, 1, 31));
            PeriodUsage([Reading(1, 80.0, feb10, Water, 7)], jan1, jan31) == 0.0
  {
    Dates.DayNumberMonotone(Dates.Civil(2024, 1, 1), Dates.Civil(2024, 2, 10));
    Dates.DayNumberMonotone(Dates.Civil(2024, 1, 31), Dates.Civil(2024, 2, 10));
  }
}
