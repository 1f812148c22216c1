/** One run of the derived-financials engine: the sidebar's values and the
    two parsed uploads in, the KPIs, the profit curve and the five-year
    projection out. */
module Engine {
  import opened Wrappers
  import Ledger
  import Pricing
  import Costs
  import UnitEconomics
  import ProfitCurve
  import Projection

  /** Everything one run reads: uploads, widget values and the plot limit. */
  datatype Assumptions = Assumptions(
    budget: Ledger.BudgetUpload,
    priceList: Pricing.PriceUpload,
    launchYear: int,
    staff: seq<Costs.StaffLine>,
    benefitLoad: real,
    fixedItems: Costs.FixedItems,
    selected: seq<string>,
    manualRevenue: real,
    variableCost: real,
    monthlySamples: nat,
    maxPlot: int,
    growthPct: int,
    priceIncreasePct: int,
    inflationPct: int)

  /** Everything one run shows. */
  datatype Financials = Financials(
    monthlyPayroll: real,
    manualFixed: real,
    monthlyFixed: real,
    varHint: real,
    revenuePerSample: real,
    margin: real,
    breakEven: UnitEconomics.BreakEven,
    monthlyProfit: real,
    curve: seq<ProfitCurve.CurvePoint>,
    projection: seq<Projection.YearRow>)

  /** The analytes offered for selection are the keys of the price dictionary. */
  predicate SelectionOffered(a: Assumptions)
  {
    forall x :: x in a.selected ==> x in Pricing.Prices(a.priceList)
  }

  /** The whole run, with the variable-cost hint computed from the chosen
      sample count (the corrected hint; see UnitEconomics.VarHintAsWritten
      for the script as written, which also stops whenever the reagent total
      is not 0). It fails when the budget table has amounts but no `Name`
      column, because building the reagent mask fails. */
  function Compute(a: Assumptions): (r: Result<Financials, Ledger.LoadError>)
    requires SelectionOffered(a)
    ensures r.Failure? <==> a.budget.MissingNameColumn?
    ensures r.Success? && a.budget.NoUpload? ==> r.value.monthlyFixed == r.value.manualFixed
    ensures r.Success? && a.budget.MissingAmountColumn? ==> r.value.monthlyFixed == 0.0
    ensures r.Success? && a.budget.Uploaded? ==> r.value.monthlyFixed == Ledger.LedgerTotal(a.budget.rows)
    ensures r.Success? ==> r.value == Derive(a, Ledger.ReadBudget(a.budget).value)
  {
    match Ledger.ReadBudget(a.budget)
    case Failure(e) => Failure(e)
    case Success(budget) => Success(Derive(a, budget))
  }

  /** The derived financials of a run whose budget table has been read: the
      KPIs, curve and projection all start from the run's own fixed burn and
      revenue per sample. */
  function Derive(a: Assumptions, budget: Ledger.BudgetSummary): (f: Financials)
    requires SelectionOffered(a)
    ensures f.monthlyPayroll == Costs.MonthlyPayroll(a.staff, a.benefitLoad)
    ensures f.manualFixed == Costs.ManualFixed(a.staff, a.benefitLoad, a.fixedItems)
    ensures f.monthlyFixed == Costs.MonthlyFixed(budget, f.manualFixed)
    ensures f.revenuePerSample == Pricing.RevenuePerSample(Pricing.Prices(a.priceList), a.selected, a.manualRevenue)
    ensures f.varHint == UnitEconomics.VarHint(budget.reagentTotal, a.monthlySamples)
    ensures f.margin == f.revenuePerSample - a.variableCost
    ensures f.breakEven == UnitEconomics.BreakEvenVolume(f.monthlyFixed, f.revenuePerSample, a.variableCost)
    ensures f.monthlyProfit
         == UnitEconomics.MonthlyProfit(a.monthlySamples as real, f.revenuePerSample, a.variableCost, f.monthlyFixed)
    ensures f.curve == ProfitCurve.Curve(a.maxPlot, f.revenuePerSample, a.variableCost, f.monthlyFixed)
    ensures f.projection == Projection.Project(Scenario(a, f))
  {
    var manual := Costs.ManualFixed(a.staff, a.benefitLoad, a.fixedItems);
    var fixed := Costs.MonthlyFixed(budget, manual);
    var revenue := Pricing.RevenuePerSample(Pricing.Prices(a.priceList), a.selected, a.manualRevenue);
    Financials(
      Costs.MonthlyPayroll(a.staff, a.benefitLoad),
      manual,
      fixed,
      UnitEconomics.VarHint(budget.reagentTotal, a.monthlySamples),
      revenue,
      UnitEconomics.Margin(revenue, a.variableCost),
      UnitEconomics.BreakEvenVolume(fixed, revenue, a.variableCost),
      UnitEconomics.MonthlyProfit(a.monthlySamples as real, revenue, a.variableCost, fixed),
      ProfitCurve.Curve(a.maxPlot, revenue, a.variableCost, fixed),
      Projection.Project(Projection.Scenario(a.launchYear, a.monthlySamples as real, revenue, a.variableCost,
                                             fixed, a.growthPct, a.priceIncreasePct, a.inflationPct)))
  }

  /** The projection inputs of a run: its volume, prices, burn and rates. */
  function Scenario(a: Assumptions, f: Financials): Projection.Scenario
  {
    Projection.Scenario(a.launchYear, a.monthlySamples as real, f.revenuePerSample, a.variableCost,
                        f.monthlyFixed, a.growthPct, a.priceIncreasePct, a.inflationPct)
  }

  /** The KPI relations of any financials wired as Derive wires them (so of
      every successful run): break-even is unreachable iff the margin is not
      positive, otherwise it covers the burn exactly and profit is 0 there;
      the profit KPI is the month's volume times the margin, less the burn. */
  lemma KpiRelations(f: Financials, samples: real, variableCost: real)
    requires f.margin == f.revenuePerSample - variableCost
    requires f.breakEven == UnitEconomics.BreakEvenVolume(f.monthlyFixed, f.revenuePerSample, variableCost)
    requires f.monthlyProfit == UnitEconomics.MonthlyProfit(samples, f.revenuePerSample, variableCost, f.monthlyFixed)
    ensures f.breakEven.Unreachable? <==> f.margin <= 0.0
    ensures f.breakEven.AtVolume? ==> f.breakEven.samples * f.margin == f.monthlyFixed
    ensures f.breakEven.AtVolume? ==>
              UnitEconomics.MonthlyProfit(f.breakEven.samples, f.revenuePerSample, variableCost, f.monthlyFixed) == 0.0
    ensures f.monthlyProfit == samples * f.margin - f.monthlyFixed
  {
    UnitEconomics.BreakEvenFacts(f.monthlyFixed, f.revenuePerSample, variableCost);
  }

  /** The run's curve has one point per plotted volume and starts at minus
      the burn. */
  lemma RunCurve(a: Assumptions)
    requires SelectionOffered(a)
    requires !a.budget.MissingNameColumn?
    ensures Compute(a).Success?
    ensures var f := Compute(a).value;
            && |f.curve| == ProfitCurve.PointCount(a.maxPlot)
            && (a.maxPlot >= 0 ==> f.curve[0].profit == -f.monthlyFixed)
  {
    var f := Compute(a).value;
    assert f == Derive(a, Ledger.ReadBudget(a.budget).value);
    if a.maxPlot >= 0 {
      ProfitCurve.CurveStartsAtMinusFixed(a.maxPlot, f.revenuePerSample, a.variableCost, f.monthlyFixed);
    }
  }

  /** The run's projection has five rows, and the launch year's EBITDA is
      twelve months of the profit KPI. */
  lemma RunProjection(a: Assumptions)
    requires SelectionOffered(a)
    requires !a.budget.MissingNameColumn?
    ensures Compute(a).Success?
    ensures var f := Compute(a).value;
            && |f.projection| == Projection.Horizon
            && f.projection[0].ebitda == 12.0 * f.monthlyProfit
  {
    var f := Compute(a).value;
    assert f == Derive(a, Ledger.ReadBudget(a.budget).value);
    Projection.FirstYearIsCurrentMonth(Scenario(a, f));
  }

  /** The budget override is total: with the same uploaded table, two runs
      agree on the fixed burn however their payroll and line items differ. */
  lemma OverrideIsTotal(a: Assumptions, b: Assumptions)
    requires SelectionOffered(a) && SelectionOffered(b)
    requires a.budget == b.budget
    requires a.budget.Uploaded? || a.budget.MissingAmountColumn?
    ensures Compute(a).Success? && Compute(b).Success?
    ensures Compute(a).value.monthlyFixed == Compute(b).value.monthlyFixed
  {
  }

  /** A budget table without `Monthly USD` zeroes the fixed burn rather than
      falling back to the manual figure. */
  lemma MissingAmountColumnZeroesFixed(a: Assumptions)
    requires SelectionOffered(a)
    requires a.budget.MissingAmountColumn?
    ensures Compute(a).Success? && Compute(a).value.monthlyFixed == 0.0
    ensures Compute(a).value.varHint == UnitEconomics.DefaultVariableCost
  {
  }

  /** An uploaded ledger sets the fixed burn to its `Monthly USD` total. */
  lemma UploadedLedgerSetsFixed(a: Assumptions)
    requires SelectionOffered(a)
    requires a.budget.Uploaded?
    ensures Compute(a).Success? && Compute(a).value.monthlyFixed == Ledger.LedgerTotal(a.budget.rows)
  {
  }

  /** Without an upload the fixed burn is loaded payroll plus the line items. */
  lemma NoUploadUsesManualFixed(a: Assumptions)
    requires SelectionOffered(a)
    requires a.budget.NoUpload?
    ensures Compute(a).Success?
    ensures Compute(a).value.monthlyFixed
         == Costs.MonthlyPayroll(a.staff, a.benefitLoad) + Costs.Sum(Costs.LineItems(a.fixedItems))
  {
    Costs.ManualFixedIsPayrollPlusItems(a.staff, a.benefitLoad, a.fixedItems);
  }

  /** The two-row ledger of "Reagents Inc" (3000) and "Rent" (15000) stops
      the script as written, because its reagent total is not 0; the
      corrected hint spreads the 3000 over the chosen samples. */
  lemma ReagentLedgerStopsScriptAsWritten(samples: nat)
    requires samples > 0
    ensures var u := Ledger.Uploaded([Ledger.LedgerRow(Some("Reagents Inc"), Some(3000.0)),
                                      Ledger.LedgerRow(Some("Rent"), Some(15000.0))]);
            && Ledger.ReadBudget(u).Success?
            && UnitEconomics.VarHintAsWritten(Ledger.ReadBudget(u).value.reagentTotal).Failure?
            && -0.005 <= UnitEconomics.VarHint(Ledger.ReadBudget(u).value.reagentTotal, samples)
                         - 3000.0 / samples as real <= 0.005
  {
    Ledger.ReagentsAndRentExample();
  }

  /** The sidebar defaults, with no uploads. */
  function Defaults(launchYear: int): Assumptions
  {
    Assumptions(
      Ledger.NoUpload, Pricing.NoPriceList, launchYear,
      Costs.Roster(1, 125000.0, 4, 93000.0, 2, 51000.0, 0.5, 49000.0),
      0.25,
      Costs.FixedItems(21945.0, 14000.0, 2000.0, 1, 5324.0, 5000.0, 2500.0, 1500.0, 4000.0, 1960.0, 500.0),
      [], 120.0, 22.0, 1400, 2500, 20, 3, 4)
  }

  /** The default run: payroll of 623500 a year loaded by 25%, line items of
      58729 a month, a margin of 98 per sample and 26 curve points. */
  lemma DefaultRun(launchYear: int)
    ensures var r := Compute(Defaults(launchYear));
            && r.Success?
            && 12.0 * r.value.monthlyPayroll == 623500.0 * 1.25
            && r.value.monthlyFixed == r.value.monthlyPayroll + 58729.0
            && r.value.varHint == 22.0
            && r.value.margin == 98.0
            && r.value.breakEven == UnitEconomics.AtVolume(r.value.monthlyFixed / 98.0)
            && r.value.monthlyProfit == 1400.0 * 98.0 - r.value.monthlyFixed
            && |r.value.curve| == 26
  {
    var a := Defaults(launchYear);
    Costs.RosterPayroll(1, 125000.0, 4, 93000.0, 2, 51000.0, 0.5, 49000.0);
    assert |Pricing.Prices(a.priceList)| == 0;
  }
}
