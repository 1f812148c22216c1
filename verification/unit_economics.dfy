/** Per-sample economics: the suggested variable cost, the contribution
    margin, the break-even volume (possibly unreachable) and monthly profit. */
module UnitEconomics {
  import opened Wrappers
  import RealMath

  /** Suggested variable cost per sample when the budget table names no reagents. */
  const DefaultVariableCost: real := 22.0

  /** Break-even volume in samples per month, or none at all when each
      sample loses money or breaks even (the app shows infinity). */
  datatype BreakEven = Unreachable | AtVolume(samples: real)

  /** The script error raised by reading a name before it is bound. */
  datatype ScriptError = UnboundName(name: string)

  /** The suggested variable cost per sample: 22 when the reagent total is
      0, else the reagent total spread over the monthly samples (a count of
      0 counts as 1), rounded to cents. */
  function VarHint(reagentTotal: real, samples: nat): (r: real)
    ensures reagentTotal == 0.0 ==> r == DefaultVariableCost
    ensures reagentTotal != 0.0 && samples > 0 ==> -0.005 <= r - reagentTotal / samples as real <= 0.005
    ensures reagentTotal != 0.0 && samples == 0 ==> -0.005 <= r - reagentTotal <= 0.005
  {
    if reagentTotal == 0.0 then DefaultVariableCost
    else RealMath.Round2(reagentTotal / (if samples != 0 then samples else 1) as real)
  }

  /** The hint as the script computes it: the expression reads the sample
      count before the throughput widget further down binds it, and every
      rerun starts from an empty namespace, so the read fails whenever it is
      evaluated, that is whenever the reagent total is not 0. */
  function VarHintAsWritten(reagentTotal: real): (r: Result<real, ScriptError>)
    ensures r.Failure? <==> reagentTotal != 0.0
    ensures r.Success? ==> r.value == DefaultVariableCost
  {
    if reagentTotal == 0.0 then Success(DefaultVariableCost)
    else Failure(UnboundName("monthly_samples"))
  }

  /** Revenue minus variable cost, per sample. */
  function Margin(revenuePerSample: real, variableCost: real): real
  {
    revenuePerSample - variableCost
  }

  /** Samples per month whose contribution exactly covers the fixed burn. */
  function BreakEvenVolume(monthlyFixed: real, revenuePerSample: real, variableCost: real): (r: BreakEven)
    ensures r.Unreachable? <==> revenuePerSample <= variableCost
    ensures r.AtVolume? ==> r.samples * (revenuePerSample - variableCost) == monthlyFixed
    ensures r.AtVolume? && monthlyFixed >= 0.0 ==> r.samples >= 0.0
  {
    var m := Margin(revenuePerSample, variableCost);
    if m <= 0.0 then Unreachable else AtVolume(monthlyFixed / m)
  }

  /** Revenue minus variable cost minus fixed burn, for a month of the given volume. */
  function MonthlyProfit(samples: real, revenuePerSample: real, variableCost: real, monthlyFixed: real): (p: real)
    ensures p == samples * Margin(revenuePerSample, variableCost) - monthlyFixed
  {
    samples * revenuePerSample - samples * variableCost - monthlyFixed
  }

  /** Profit is exactly 0 at the break-even volume. */
  lemma ProfitZeroAtBreakEven(monthlyFixed: real, revenuePerSample: real, variableCost: real)
    requires revenuePerSample > variableCost
    ensures MonthlyProfit(BreakEvenVolume(monthlyFixed, revenuePerSample, variableCost).samples,
                          revenuePerSample, variableCost, monthlyFixed) == 0.0
  {
  }

  /** The break-even verdict in one place: unreachable iff the margin is not
      positive, otherwise covering the burn exactly with zero profit there. */
  lemma BreakEvenFacts(monthlyFixed: real, revenuePerSample: real, variableCost: real)
    ensures var b := BreakEvenVolume(monthlyFixed, revenuePerSample, variableCost);
            && (b.Unreachable? <==> revenuePerSample - variableCost <= 0.0)
            && (b.AtVolume? ==> b.samples * (revenuePerSample - variableCost) == monthlyFixed)
            && (b.AtVolume? ==> MonthlyProfit(b.samples, revenuePerSample, variableCost, monthlyFixed) == 0.0)
  {
    if revenuePerSample > variableCost {
      ProfitZeroAtBreakEven(monthlyFixed, revenuePerSample, variableCost);
    }
  }

  /** With a positive margin, a month is profitable exactly from the
      break-even volume on. */
  lemma ProfitableFromBreakEven(monthlyFixed: real, revenuePerSample: real, variableCost: real, samples: real)
    requires revenuePerSample > variableCost
    ensures MonthlyProfit(samples, revenuePerSample, variableCost, monthlyFixed) >= 0.0
        <==> samples >= BreakEvenVolume(monthlyFixed, revenuePerSample, variableCost).samples
  {
  }

  /** An unreachable break-even is a real verdict: with a positive fixed
      burn, no non-negative volume makes a profit. */
  lemma UnreachableMeansLoss(monthlyFixed: real, revenuePerSample: real, variableCost: real, samples: real)
    requires BreakEvenVolume(monthlyFixed, revenuePerSample, variableCost).Unreachable?
    requires monthlyFixed > 0.0
    requires samples >= 0.0
    ensures MonthlyProfit(samples, revenuePerSample, variableCost, monthlyFixed) < 0.0
  {
  }
}
