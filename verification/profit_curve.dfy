/** The profit-versus-throughput curve: profit sampled at 0, 100, 200, ...
    samples per month up to the chosen plot limit. */
module ProfitCurve {
  import UnitEconomics

  /** Spacing of the sampled volumes. */
  const Step: int := 100

  datatype CurvePoint = CurvePoint(samples: int, profit: real)

  /** How many volumes 0, Step, 2 * Step, ... stay within maxPlot. */
  function PointCount(maxPlot: int): (n: nat)
    ensures n == 0 <==> maxPlot < 0
    ensures n > 0 ==> (n - 1) * Step <= maxPlot < n * Step
  {
    if maxPlot < 0 then 0 else maxPlot / Step + 1
  }

  /** The first n points, each computed as margin times volume minus the fixed burn. */
  function Points(n: nat, revenuePerSample: real, variableCost: real, monthlyFixed: real): (r: seq<CurvePoint>)
    ensures |r| == n
    ensures forall i :: 0 <= i < n ==> r[i].samples == i * Step
    ensures forall i :: 0 <= i < n ==>
      r[i].profit == UnitEconomics.MonthlyProfit(r[i].samples as real, revenuePerSample, variableCost, monthlyFixed)
  {
    if n == 0 then []
    else
      var v := (n - 1) * Step;
      Points(n - 1, revenuePerSample, variableCost, monthlyFixed)
        + [CurvePoint(v, (revenuePerSample - variableCost) * v as real - monthlyFixed)]
  }

  /** The plotted curve: every multiple of Step from 0 up to maxPlot, in
      increasing order, with the month's profit at that volume. */
  function Curve(maxPlot: int, revenuePerSample: real, variableCost: real, monthlyFixed: real): (r: seq<CurvePoint>)
    ensures |r| == PointCount(maxPlot)
    ensures forall i :: 0 <= i < |r| ==> r[i].samples == i * Step && 0 <= r[i].samples <= maxPlot
    ensures |r| * Step > maxPlot
    ensures forall i :: 0 <= i < |r| ==>
      r[i].profit == UnitEconomics.MonthlyProfit(r[i].samples as real, revenuePerSample, variableCost, monthlyFixed)
  {
    Points(PointCount(maxPlot), revenuePerSample, variableCost, monthlyFixed)
  }

  /** The curve has floor(maxPlot / 100) + 1 points for a non-negative limit. */
  lemma CurveLength(maxPlot: int, revenuePerSample: real, variableCost: real, monthlyFixed: real)
    requires maxPlot >= 0
    ensures |Curve(maxPlot, revenuePerSample, variableCost, monthlyFixed)| == maxPlot / 100 + 1
  {
  }

  /** At zero volume the loss is exactly the fixed burn. */
  lemma CurveStartsAtMinusFixed(maxPlot: int, revenuePerSample: real, variableCost: real, monthlyFixed: real)
    requires maxPlot >= 0
    ensures var c := Curve(maxPlot, revenuePerSample, variableCost, monthlyFixed);
            |c| > 0 && c[0] == CurvePoint(0, -monthlyFixed)
  {
  }

  /** Neighbouring points differ in profit by 100 samples' worth of margin. */
  lemma CurveSlopeIsMargin(maxPlot: int, revenuePerSample: real, variableCost: real, monthlyFixed: real, i: nat)
    requires i + 1 < |Curve(maxPlot, revenuePerSample, variableCost, monthlyFixed)|
    ensures var c := Curve(maxPlot, revenuePerSample, variableCost, monthlyFixed);
            c[i + 1].profit - c[i].profit == 100.0 * (revenuePerSample - variableCost)
  {
  }
}
