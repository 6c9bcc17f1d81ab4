/**
 * The aggregator behind the summary tab: for every customer, in store
 * order, usage and cost of both utilities over one period, and running
 * totals of water usage, electricity usage and the combined bill.
 */
module Summary {
  import opened Records
  import opened Usage
  import opened Tariff
  import opened Periods

  datatype CustomerSummary = CustomerSummary(
    customer: Customer,
    waterUsage: real, electricUsage: real,
    waterCost: real, electricCost: real,
    totalCost: real)

  /** The lists kept for `id`, or two empty lists when the store has none. */
  function ReadingsFor(meterData: map<int, CustomerReadings>, id: int): (cr: CustomerReadings)
    ensures id in meterData ==> cr == meterData[id]
    ensures id !in meterData ==> cr.water == [] && cr.electric == []
  {
    if id in meterData then meterData[id] else NoReadings
  }

  /** One customer's line of the summary. */
  function SummaryOf(c: Customer, meterData: map<int, CustomerReadings>, p: Period, s: Settings): (r: CustomerSummary)
    ensures r.customer == c
    ensures r.waterUsage == PeriodUsage(ReadingsFor(meterData, c.id).water, p.start, p.end)
    ensures r.electricUsage == PeriodUsage(ReadingsFor(meterData, c.id).electric, p.start, p.end)
    ensures r.waterUsage >= 0.0 && r.electricUsage >= 0.0
    ensures r.totalCost == r.waterCost + r.electricCost
    ensures r.waterCost == WaterCost(s, r.waterUsage) && r.electricCost == ElectricCost(s, r.electricUsage)
  {
    var data := ReadingsFor(meterData, c.id);
    var waterUsage := PeriodUsage(data.water, p.start, p.end);
    var electricUsage := PeriodUsage(data.electric, p.start, p.end);
    var waterCost := WaterCost(s, waterUsage);
    var electricCost := ElectricCost(s, electricUsage);
    CustomerSummary(c, waterUsage, electricUsage, waterCost, electricCost, waterCost + electricCost)
  }

  function SumWaterUsage(rs: seq<CustomerSummary>): real {
    if |rs| == 0 then 0.0 else SumWaterUsage(rs[..|rs| - 1]) + rs[|rs| - 1].waterUsage
  }

  function SumElectricUsage(rs: seq<CustomerSummary>): real {
    if |rs| == 0 then 0.0 else SumElectricUsage(rs[..|rs| - 1]) + rs[|rs| - 1].electricUsage
  }

  function SumWaterCost(rs: seq<CustomerSummary>): real {
    if |rs| == 0 then 0.0 else SumWaterCost(rs[..|rs| - 1]) + rs[|rs| - 1].waterCost
  }

  function SumElectricCost(rs: seq<CustomerSummary>): real {
    if |rs| == 0 then 0.0 else SumElectricCost(rs[..|rs| - 1]) + rs[|rs| - 1].electricCost
  }

  function SumTotalCost(rs: seq<CustomerSummary>): real {
    if |rs| == 0 then 0.0 else SumTotalCost(rs[..|rs| - 1]) + rs[|rs| - 1].totalCost
  }

  /** The summary lines of `customers`, one each, in order. */
  predicate SummaryLines(records: seq<CustomerSummary>, customers: seq<Customer>,
                         meterData: map<int, CustomerReadings>, p: Period, s: Settings) {
    |records| == |customers|
    && forall i :: 0 <= i < |records| ==> records[i] == SummaryOf(customers[i], meterData, p, s)
  }

  /**
   * The computation of `updateSummary`: one line per customer, each from
   * the usage calculator and the tariff, and the three running totals.
   */
  method UpdateSummary(customers: seq<Customer>, meterData: map<int, CustomerReadings>, p: Period, s: Settings)
    returns (records: seq<CustomerSummary>, totalWaterUsage: real, totalElectricUsage: real, grandTotalCost: real)
    ensures SummaryLines(records, customers, meterData, p, s)
    ensures totalWaterUsage == SumWaterUsage(records)
    ensures totalElectricUsage == SumElectricUsage(records)
    ensures grandTotalCost == SumTotalCost(records)
  {
    totalWaterUsage, totalElectricUsage, grandTotalCost := 0.0, 0.0, 0.0;
    records := [];
    for i := 0 to |customers|
      invariant SummaryLines(records, customers[..i], meterData, p, s)
      invariant totalWaterUsage == SumWaterUsage(records)
      invariant totalElectricUsage == SumElectricUsage(records)
      invariant grandTotalCost == SumTotalCost(records)
    {
      var customer := customers[i];
      var line := SummaryLine(customer, meterData, p, s);

      totalWaterUsage := totalWaterUsage + line.waterUsage;
      totalElectricUsage := totalElectricUsage + line.electricUsage;
      grandTotalCost := grandTotalCost + line.totalCost;

      SummaryLinesExtend(records, customers[..i], line, customer, meterData, p, s);
      assert customers[..i + 1] == customers[..i] + [customer];
      assert (records + [line])[..|records|] == records;
      records := records + [line];
    }
    assert customers[..|customers|] == customers;
  }

  /** The body of the summary loop for one customer: usages from the calculator, then the tariff. */
  method SummaryLine(customer: Customer, meterData: map<int, CustomerReadings>, p: Period, s: Settings)
    returns (line: CustomerSummary)
    ensures line == SummaryOf(customer, meterData, p, s)
  {
    var customerData := ReadingsFor(meterData, customer.id);
    var waterUsage := CalculateUsageForPeriod(customerData.water, p.start, p.end);
    var electricUsage := CalculateUsageForPeriod(customerData.electric, p.start, p.end);
    var waterCost := WaterCost(s, waterUsage);
    var electricCost := ElectricCost(s, electricUsage);
    var totalCost := waterCost + electricCost;
    line := CustomerSummary(customer, waterUsage, electricUsage, waterCost, electricCost, totalCost);
  }

  lemma SummaryLinesExtend(records: seq<CustomerSummary>, customers: seq<Customer>, line: CustomerSummary, c: Customer,
                           meterData: map<int, CustomerReadings>, p: Period, s: Settings)
    requires SummaryLines(records, customers, meterData, p, s)
    requires line == SummaryOf(c, meterData, p, s)
    ensures SummaryLines(records + [line], customers + [c], meterData, p, s)
  {
  }

  // ---------------------------------------------------------------------
  // What the totals mean.

  /** The grand total is the water bill plus the electricity bill. */
  lemma {:induction false} GrandTotalSplits(rs: seq<CustomerSummary>)
    requires forall i :: 0 <= i < |rs| ==> rs[i].totalCost == rs[i].waterCost + rs[i].electricCost
    ensures SumTotalCost(rs) == SumWaterCost(rs) + SumElectricCost(rs)
  {
    if |rs| > 0 {
      GrandTotalSplits(rs[..|rs| - 1]);
    }
  }

  /** Usage totals of summary lines are never negative. */
  lemma {:induction false} UsageTotalsNonNegative(rs: seq<CustomerSummary>)
    requires forall i :: 0 <= i < |rs| ==> rs[i].waterUsage >= 0.0 && rs[i].electricUsage >= 0.0
    ensures SumWaterUsage(rs) >= 0.0 && SumElectricUsage(rs) >= 0.0
  {
    if |rs| > 0 {
      UsageTotalsNonNegative(rs[..|rs| - 1]);
    }
  }

  /** A customer with no readings is billed the two base fees. */
  lemma NoReadingsPaysBaseFees(c: Customer, meterData: map<int, CustomerReadings>, p: Period, s: Settings)
    requires ReadingsFor(meterData, c.id) == NoReadings
    ensures SummaryOf(c, meterData, p, s).totalCost == s.waterBaseFee + s.electricBaseFee
    ensures SummaryOf(c, meterData, p, s).waterUsage == 0.0 && SummaryOf(c, meterData, p, s).electricUsage == 0.0
  {
  }

  /** Adding a line adds its total cost to the grand total. */
  lemma GrandTotalAppend(rs: seq<CustomerSummary>, r: CustomerSummary)
    ensures SumTotalCost(rs + [r]) == SumTotalCost(rs) + r.totalCost
  {
    assert (rs + [r])[..|rs|] == rs;
  }

  /** Lines that all cost the same add up to that cost times their number, and likewise for usage. */
  lemma {:induction false} SumOfEqualLines(rs: seq<CustomerSummary>, cost: real)
    requires forall i :: 0 <= i < |rs| ==> rs[i].totalCost == cost && rs[i].waterUsage == 0.0 && rs[i].electricUsage == 0.0
    ensures SumTotalCost(rs) == (|rs| as real) * cost
    ensures SumWaterUsage(rs) == 0.0 && SumElectricUsage(rs) == 0.0
  {
    if |rs| > 0 {
      SumOfEqualLines(rs[..|rs| - 1], cost);
      assert (|rs| as real) * cost == ((|rs| - 1) as real) * cost + cost;
    }
  }

  /**
   * When no customer has readings (as after clearing the history), the
   * grand total is the two base fees times the number of customers.
   */
  lemma GrandTotalWithoutReadings(records: seq<CustomerSummary>, customers: seq<Customer>,
                                  meterData: map<int, CustomerReadings>, p: Period, s: Settings)
    requires SummaryLines(records, customers, meterData, p, s)
    requires forall i :: 0 <= i < |customers| ==> ReadingsFor(meterData, customers[i].id) == NoReadings
    ensures SumTotalCost(records) == (|customers| as real) * (s.waterBaseFee + s.electricBaseFee)
    ensures SumWaterUsage(records) == 0.0 && SumElectricUsage(records) == 0.0
  {
    forall i | 0 <= i < |records|
      ensures records[i].totalCost == s.waterBaseFee + s.electricBaseFee
      ensures records[i].waterUsage == 0.0 && records[i].electricUsage == 0.0
    {
      NoReadingsPaysBaseFees(customers[i], meterData, p, s);
    }
    SumOfEqualLines(records, s.waterBaseFee + s.electricBaseFee);
  }

  /** The summary's totals: the grand total splits by utility, and usage totals are not negative. */
  lemma SummaryTotals(customers: seq<Customer>, meterData: map<int, CustomerReadings>, p: Period, s: Settings,
                      records: seq<CustomerSummary>)
    requires SummaryLines(records, customers, meterData, p, s)
    ensures SumTotalCost(records) == SumWaterCost(records) + SumElectricCost(records)
    ensures SumWaterUsage(records) >= 0.0 && SumElectricUsage(records) >= 0.0
  {
    GrandTotalSplits(records);
    UsageTotalsNonNegative(records);
  }
}
