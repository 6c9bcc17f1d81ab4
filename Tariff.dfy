/**
 * The two-part tariff: a fixed base fee for the period plus a rate per
 * unit consumed, one pair for water and one for electricity.
 */
module Tariff {

  datatype Settings = Settings(waterBaseFee: real, waterUnitRate: real, electricBaseFee: real, electricUnitRate: real)

  /** The settings the store starts with. */
  const DefaultSettings := Settings(8.50, 18.00, 38.22, 4.18)

  /** Base fee plus usage at the unit rate; no rounding. */
  function Cost(usage: real, baseFee: real, unitRate: real): (c: real)
    ensures usage == 0.0 ==> c == baseFee
    ensures usage >= 0.0 && unitRate >= 0.0 ==> c >= baseFee
  {
    baseFee + usage * unitRate
  }

  function WaterCost(s: Settings, usage: real): (c: real)
    ensures usage == 0.0 ==> c == s.waterBaseFee
    ensures usage >= 0.0 && s.waterUnitRate >= 0.0 ==> c >= s.waterBaseFee
  {
    Cost(usage, s.waterBaseFee, s.waterUnitRate)
  }

  function ElectricCost(s: Settings, usage: real): (c: real)
    ensures usage == 0.0 ==> c == s.electricBaseFee
    ensures usage >= 0.0 && s.electricUnitRate >= 0.0 ==> c >= s.electricBaseFee
  {
    Cost(usage, s.electricBaseFee, s.electricUnitRate)
  }

  /** The cost is affine in usage: more usage adds exactly its units at the rate. */
  lemma CostAffine(u: real, extra: real, baseFee: real, unitRate: real)
    ensures Cost(u + extra, baseFee, unitRate) == Cost(u, baseFee, unitRate) + extra * unitRate
    ensures Cost(2.0 * u, baseFee, unitRate) == Cost(u, baseFee, unitRate) + u * unitRate
  {
  }

  /** At a non-negative rate, using more never costs less. */
  lemma CostMonotone(u1: real, u2: real, baseFee: real, unitRate: real)
    requires u1 <= u2 && unitRate >= 0.0
    ensures Cost(u1, baseFee, unitRate) <= Cost(u2, baseFee, unitRate)
  {
    CostAffine(u1, u2 - u1, baseFee, unitRate);
  }

  /** Ten units of water at the default tariff cost 8.50 + 180.00. */
  lemma DefaultWaterExample()
    ensures WaterCost(DefaultSettings, 10.0) == 188.50
    ensures ElectricCost(DefaultSettings, 0.0) == 38.22
  {
  }
}
