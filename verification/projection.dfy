/** The five-year projection: monthly volume compounding with sample growth,
    price compounding with the price increase, and both the variable cost
    per sample and the fixed burn compounding with fixed-cost inflation.
    The table shows samples, fixed cost and EBITDA per year (times 12) but
    revenue and variable cost per month, as the app does. */
module Projection {
  import RealMath
  import UnitEconomics

  /** Number of projected years. */
  const Horizon: nat := 5

  /** The inputs of one projection. Rates are whole percents per year. */
  datatype Scenario = Scenario(
    launchYear: int,
    monthlySamples: real,
    revenuePerSample: real,
    variableCost: real,
    monthlyFixed: real,
    growthPct: int,
    priceIncreasePct: int,
    inflationPct: int)

  /** One row of the projection table. */
  datatype YearRow = YearRow(
    year: int,
    samplesPerYear: real,
    revenue: real,
    variableCost: real,
    fixedCost: real,
    ebitda: real)

  /** Monthly volume in year y. */
  function Volume(s: Scenario, y: nat): real
  {
    s.monthlySamples * RealMath.Pow(RealMath.GrowthFactor(s.growthPct), y)
  }

  /** Monthly revenue in year y. */
  function Revenue(s: Scenario, y: nat): real
  {
    Volume(s, y) * s.revenuePerSample * RealMath.Pow(RealMath.GrowthFactor(s.priceIncreasePct), y)
  }

  /** Monthly variable cost in year y, inflated at the fixed-cost rate. */
  function VariableCost(s: Scenario, y: nat): real
  {
    Volume(s, y) * s.variableCost * RealMath.Pow(RealMath.GrowthFactor(s.inflationPct), y)
  }

  /** Monthly fixed burn in year y. */
  function FixedCost(s: Scenario, y: nat): real
  {
    s.monthlyFixed * RealMath.Pow(RealMath.GrowthFactor(s.inflationPct), y)
  }

  /** The table row of year y. */
  function Row(s: Scenario, y: nat): YearRow
  {
    var ebitda := Revenue(s, y) - VariableCost(s, y) - FixedCost(s, y);
    YearRow(s.launchYear + y, Volume(s, y) * 12.0, Revenue(s, y), VariableCost(s, y),
            FixedCost(s, y) * 12.0, ebitda * 12.0)
  }

  /** The projection table, one row per year from the launch year on. */
  function Project(s: Scenario): (rows: seq<YearRow>)
    ensures |rows| == Horizon
    ensures forall y :: 0 <= y < |rows| ==> rows[y].year == s.launchYear + y
  {
    seq(Horizon, y requires 0 <= y => Row(s, y))
  }

  /** The EBITDA column is yearly while Revenue and Variable Cost stay
      monthly: EBITDA = 12 * (Revenue - Variable Cost) - Fixed Cost. */
  lemma EbitdaColumn(s: Scenario, y: nat)
    requires y < Horizon
    ensures var r := Project(s)[y];
            r.ebitda == 12.0 * (r.revenue - r.variableCost) - r.fixedCost
  {
  }

  /** The launch-year row applies no growth at all: it is a year of the
      current month, with revenue and variable cost left monthly. */
  lemma FirstYearIsCurrentMonth(s: Scenario)
    ensures var r := Project(s)[0];
            && r.samplesPerYear == 12.0 * s.monthlySamples
            && r.revenue == s.monthlySamples * s.revenuePerSample
            && r.variableCost == s.monthlySamples * s.variableCost
            && r.fixedCost == 12.0 * s.monthlyFixed
            && r.ebitda == 12.0 * UnitEconomics.MonthlyProfit(s.monthlySamples, s.revenuePerSample,
                                                              s.variableCost, s.monthlyFixed)
  {
  }

  /** With all three rates at 0 every row repeats the launch-year row,
      apart from the year label. */
  lemma FlatProjectionIsConstant(s: Scenario, y: nat)
    requires s.growthPct == 0 && s.priceIncreasePct == 0 && s.inflationPct == 0
    requires y < Horizon
    ensures Project(s)[y] == Project(s)[0].(year := s.launchYear + y)
  {
    RealMath.PowOfOne(y);
  }

  /** Each year multiplies the previous one by the yearly factors: volume by
      growth, revenue by growth and price increase, variable cost by growth
      and inflation, fixed cost by inflation. */
  lemma YearOverYear(s: Scenario, y: nat)
    requires y + 1 < Horizon
    ensures var g := RealMath.GrowthFactor(s.growthPct);
            var p := RealMath.GrowthFactor(s.priceIncreasePct);
            var i := RealMath.GrowthFactor(s.inflationPct);
            var rows := Project(s);
            && rows[y + 1].samplesPerYear == rows[y].samplesPerYear * g
            && rows[y + 1].revenue == rows[y].revenue * g * p
            && rows[y + 1].variableCost == rows[y].variableCost * g * i
            && rows[y + 1].fixedCost == rows[y].fixedCost * i
  {
  }

  /** With non-negative growth and volume, yearly volume never falls. */
  lemma VolumeNonDecreasing(s: Scenario, y: nat, z: nat)
    requires s.growthPct >= 0 && s.monthlySamples >= 0.0
    requires y <= z < Horizon
    ensures Project(s)[y].samplesPerYear <= Project(s)[z].samplesPerYear
  {
    MonthlyVolumeNonDecreasing(s, y, z);
    assert Project(s)[y].samplesPerYear == Volume(s, y) * 12.0;
    assert Project(s)[z].samplesPerYear == Volume(s, z) * 12.0;
  }

  lemma MonthlyVolumeNonDecreasing(s: Scenario, y: nat, z: nat)
    requires s.growthPct >= 0 && s.monthlySamples >= 0.0
    requires y <= z
    ensures Volume(s, y) <= Volume(s, z)
  {
    var g := RealMath.GrowthFactor(s.growthPct);
    RealMath.PowMonotone(g, y, z);
    ScaleMonotone(s.monthlySamples, RealMath.Pow(g, y), RealMath.Pow(g, z));
  }

  lemma ScaleMonotone(a: real, x: real, x': real)
    requires a >= 0.0 && x <= x'
    ensures a * x <= a * x'
  {
  }
}
