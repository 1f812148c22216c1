# KELP lab financial model: derived financials

This project models the calculation core of the KELP Lab Financial Simulator,
a one-page Streamlit planning app for a testing laboratory. From the sidebar
assumptions and two optional uploads, the app derives the monthly fixed burn,
the contribution margin per sample, the break-even volume, the monthly profit,
a profit-versus-throughput curve and a five-year projection. In the app this
arithmetic sits inline between widget calls. Here it is a set of pure Dafny
functions over exact `real`s, one module per component:

- `RealMath`: integer powers, the growth factor `1 + pct/100` of an
  integer-percent slider, and Python-style round-half-to-even to cents.
- `Text`: ASCII lower-casing and substring search.
- `Ledger`: the operating-budget table (`Name`, `Monthly USD`). It covers the
  column total, the reagent keyword mask (`consumable|reagent|media|chem`,
  case-insensitive, blank names never match) and the two shapes of a bad
  upload (no `Monthly USD` column, no `Name` column).
- `Pricing`: the analyte price dictionary (the last duplicate wins), the sum
  over the selected analytes, and the manual fallback.
- `Costs`: payroll with benefits load, the ten monthly line items (argon as
  packs times price), and the override by an uploaded budget.
- `UnitEconomics`: the variable-cost hint, margin, break-even and monthly
  profit. Break-even is `AtVolume(v)` or `Unreachable`, which stands for the
  app's `np.inf`.
- `ProfitCurve`: profit at 0, 100, 200, … up to the plot limit.
- `Projection`: five years of compounding volume growth, price increase and
  inflation.
- `Engine`: one whole run, from an `Assumptions` record to `Financials`.

Behaviour of the app that the model keeps on purpose:

- The budget override keys on whether a file was uploaded, not on whether it
  was valid. A table without a `Monthly USD` column gives a fixed burn of 0,
  not the manual sum.
- A table that has `Monthly USD` but no `Name` column stops the script while
  the reagent mask is built. `Engine.Compute` returns `Failure` for it.
- Blank `Monthly USD` cells are skipped by the column sums.
- In the projection table, `Samples / yr`, `Fixed Cost` and `EBITDA` are
  yearly (×12), but `Revenue` and `Variable Cost` stay monthly. The variable
  cost per sample is inflated at the fixed-cost inflation rate.
- The sidebar's default fixed line items add up to 58,729 a month, before
  payroll.

The sample count used by the variable-cost hint is a parameter. In the
script it is read before it is bound; see Findings.

## Model

| member | source | states |
|---|---|---|
| RealMath.Pow | kelp_app.py:184-187 | the compound factor raised to year y is positive for a positive base and non-negative for a non-negative one |
| RealMath.PowMonotone | kelp_app.py:184 | a growth factor of at least 1 never gives a smaller factor for a later year, and every such factor is at least 1 |
| RealMath.GrowthFactor | kelp_app.py:184-187 | the yearly factor is at least 1 exactly for a non-negative rate, exactly 1 for a zero rate, and positive exactly for a rate above −100% |
| RealMath.GrowthFactorMonotone | kelp_app.py:184-187 | a higher percentage never gives a smaller yearly factor |
| RealMath.RoundHalfEven | kelp_app.py:94 | the result is the nearest integer, and an exact tie goes to the even neighbour |
| RealMath.Round2 | kelp_app.py:94 | the rounded hint is within half a cent of the exact quotient and is a whole number of cents |
| Text.Find | kelp_app.py:34 | the scan answers true exactly when the keyword occurs somewhere in the name |
| Ledger.IsReagentName | kelp_app.py:34 | a row matches the mask when its name is present and its lower-cased text contains one of consumable, reagent, media, chem; ReagentRows and ReagentTotalIsSumOfMatchingRows state what the mask selects |
| Ledger.ReagentRows | kelp_app.py:34 | the masked rows are exactly the table rows whose name matches a keyword, case-insensitively, each kept as many times as it occurs in the table |
| Ledger.LedgerTotal | kelp_app.py:33 | the `Monthly USD` column sum, blank cells skipped; LedgerTotalConcat, LedgerSplits and ReagentWithinTotal state its relations |
| Ledger.ReagentTotal | kelp_app.py:35 | the `Monthly USD` sum over the masked rows; ReagentTotalIsSumOfMatchingRows ties it to ReagentRows |
| Ledger.ReagentTotalIsSumOfMatchingRows | kelp_app.py:34-35 | the reagent total is the `Monthly USD` sum over exactly the matching rows |
| Ledger.LedgerSplits | kelp_app.py:33-35 | every row's amount is counted either in the reagent total or outside it, never both |
| Ledger.ReagentWithinTotal | kelp_app.py:33-35 | with non-negative amounts, 0 ≤ reagent total ≤ budget total |
| Ledger.ReadBudget | kelp_app.py:23-35 | no upload gives totals 0 and no override. A missing `Monthly USD` column gives totals 0 with the override still on. A missing `Name` column is the only failure. A valid table gives its column total and masked total |
| Ledger.ReagentsAndRentExample | kelp_app.py:33-35 | rows ("Reagents Inc", 3000) and ("Rent", 15000) give a total of 18000 and a reagent total of 3000 |
| Pricing.PriceMap | kelp_app.py:48 | the dictionary's keys are exactly the analyte names of the rows |
| Pricing.LastRowWins | kelp_app.py:48 | each analyte's price is the one on the last row naming it |
| Pricing.LaterDuplicateWins | kelp_app.py:48 | two rows for one analyte leave only the second price |
| Pricing.Prices | kelp_app.py:44-49 | the price dictionary is the rows' map for a table with both columns and empty otherwise; PriceMap and LastRowWins state its keys and prices |
| Pricing.SelectionSum | kelp_app.py:86 | the sum of the selected analytes' prices; SelectionSumConcat, SelectOneMore and SelectionOrderIrrelevant state its behaviour |
| Pricing.SelectionSumConcat | kelp_app.py:86 | the revenue of two groups of selected analytes is the sum of the groups' revenues |
| Pricing.SelectOneMore | kelp_app.py:86 | selecting one more analyte adds exactly its price |
| Pricing.SelectionOrderIrrelevant | kelp_app.py:85-86 | any rearrangement of the selected analytes (same analytes, same multiplicities) gives the same price sum |
| Pricing.SelectionSumNonNegative | kelp_app.py:86 | non-negative prices give a non-negative revenue per sample |
| Pricing.RevenuePerSample | kelp_app.py:84-90 | with a non-empty price dictionary the revenue per sample is the price sum of the selection (0 for an empty one); with none, it is the manual figure |
| Pricing.RevenueOneMore | kelp_app.py:84-86 | with a price list, selecting one more analyte raises the revenue per sample by exactly its price |
| Pricing.RevenueOrderIrrelevant | kelp_app.py:84-86 | reordering the selection never changes the revenue per sample |
| Costs.RosterPayroll | kelp_app.py:105-110 | the payroll of the four sidebar roles is directors·salary + scientists·salary + techs·salary + admin FTE·salary |
| Costs.AnnualPayroll | kelp_app.py:105-110 | the annual payroll is the sum of headcount × salary over the roles; RosterPayroll pins it for the four sidebar roles |
| Costs.AnnualPayrollConcat | kelp_app.py:105-110 | payroll is additive over groups of roles |
| Costs.MonthlyPayroll | kelp_app.py:111 | annual payroll × (1 + benefits load) / 12; RosterMonthlyPayroll states it for the sidebar roster |
| Costs.RosterMonthlyPayroll | kelp_app.py:105-111 | twelve months of the roster's payroll are (directors·salary + scientists·salary + techs·salary + admin FTE·salary) × (1 + benefits load) |
| Costs.ManualFixedIsPayrollPlusItems | kelp_app.py:114-118 | manual fixed burn is monthly payroll plus the sum of the ten line items, argon as packs times price |
| Costs.ManualFixed | kelp_app.py:114-118 | the manual burn: monthly payroll plus the ten line items; ManualFixedIsPayrollPlusItems and ManualFixedCoversPayroll state it |
| Costs.MonthlyFixed | kelp_app.py:121 | the post-override burn: an uploaded table's column total, else the manual figure; OverrideIgnoresManual, Engine.OverrideIsTotal, Engine.MissingAmountColumnZeroesFixed and Engine.NoUploadUsesManualFixed state it |
| Costs.OverrideIgnoresManual | kelp_app.py:121 | two manual figures give the same burn exactly when a budget table was uploaded (valid or not) or the figures already agree |
| Costs.ManualFixedCoversPayroll | kelp_app.py:111-118 | with non-negative inputs, 0 ≤ monthly payroll ≤ manual fixed burn |
| UnitEconomics.VarHint | kelp_app.py:94 | the hint is 22 when the reagent total is 0. Otherwise it is within half a cent of reagent total ÷ samples, or of the reagent total itself when samples is 0 |
| UnitEconomics.VarHintAsWritten | kelp_app.py:94-99 | as written, the hint fails exactly when the reagent total is not 0; otherwise it is 22 |
| UnitEconomics.Margin | kelp_app.py:124 | revenue per sample minus variable cost per sample; BreakEvenVolume and MonthlyProfit are stated in terms of it |
| UnitEconomics.BreakEvenVolume | kelp_app.py:124-125 | break-even is unreachable iff revenue ≤ variable cost; otherwise break-even × margin = fixed burn, and it is non-negative for a non-negative burn |
| UnitEconomics.MonthlyProfit | kelp_app.py:126-128 | profit = samples × margin − fixed burn |
| UnitEconomics.ProfitZeroAtBreakEven | kelp_app.py:124-128 | profit at the break-even volume is exactly 0 |
| UnitEconomics.BreakEvenFacts | kelp_app.py:124-128 | break-even is unreachable iff the margin is not positive; otherwise break-even × margin = burn and profit at that volume is 0 |
| UnitEconomics.ProfitableFromBreakEven | kelp_app.py:124-128 | with a positive margin, profit ≥ 0 iff volume ≥ break-even |
| UnitEconomics.UnreachableMeansLoss | kelp_app.py:124-128 | when break-even is unreachable and the burn is positive, every non-negative volume loses money |
| ProfitCurve.PointCount | kelp_app.py:158 | the number of sampled volumes is 0 for a negative limit; otherwise the last volume is within the limit and the next one would pass it |
| ProfitCurve.Points | kelp_app.py:158-159 | point i sits at volume 100·i, and its profit is the monthly profit at that volume |
| ProfitCurve.Curve | kelp_app.py:157-159 | the curve holds every multiple of 100 from 0 to the limit, in order, and each profit is the monthly profit at that volume |
| ProfitCurve.CurveLength | kelp_app.py:158 | a non-negative limit gives ⌊limit/100⌋ + 1 points |
| ProfitCurve.CurveStartsAtMinusFixed | kelp_app.py:159 | the first point is volume 0 with profit −fixed burn |
| ProfitCurve.CurveSlopeIsMargin | kelp_app.py:159 | neighbouring points differ in profit by exactly 100 × margin |
| Projection.Project | kelp_app.py:183-197 | there are exactly 5 rows, and row y is labelled with year launch + y |
| Projection.Volume | kelp_app.py:184 | monthly volume in year y is the launch volume compounded by the growth rate; YearOverYear and MonthlyVolumeNonDecreasing state it |
| Projection.Revenue | kelp_app.py:185 | monthly revenue in year y is that year's volume at the price compounded by the price increase; YearOverYear states it |
| Projection.VariableCost | kelp_app.py:186 | monthly variable cost in year y is that year's volume at the variable cost compounded by inflation; YearOverYear states it |
| Projection.FixedCost | kelp_app.py:187 | the monthly burn in year y is the burn compounded by inflation; YearOverYear states it |
| Projection.Row | kelp_app.py:188-197 | the table row of year y: year launch + y, 12 × volume, monthly revenue and variable cost, 12 × burn and 12 × EBITDA; EbitdaColumn and FirstYearIsCurrentMonth state it |
| Projection.EbitdaColumn | kelp_app.py:188-197 | the EBITDA column is 12 × (Revenue − Variable Cost) − Fixed Cost, because Revenue and Variable Cost stay monthly |
| Projection.FirstYearIsCurrentMonth | kelp_app.py:183-197 | the launch-year row has 12 × the samples, the monthly revenue and variable cost, 12 × the burn, and 12 × the monthly profit as EBITDA |
| Projection.FlatProjectionIsConstant | kelp_app.py:183-197 | with growth, price increase and inflation all 0, every row equals the launch-year row except for the year |
| Projection.YearOverYear | kelp_app.py:184-187 | each year multiplies volume by the growth factor, revenue by growth × price, variable cost by growth × inflation, and fixed cost by inflation |
| Projection.MonthlyVolumeNonDecreasing | kelp_app.py:184 | with non-negative growth and volume, the monthly volume of a later year is never smaller |
| Projection.VolumeNonDecreasing | kelp_app.py:184 | with non-negative growth and volume, yearly samples never fall from one year to a later one |
| Engine.Compute | kelp_app.py:23-128 | the run with the corrected hint fails exactly when the budget table has amounts but no `Name` column. With no upload the burn is the manual figure, with an upload lacking `Monthly USD` it is 0, and with a valid upload it is the column total; the rest follows from the read budget as in Derive |
| Engine.Derive | kelp_app.py:105-197 | the run's payroll, manual burn, fixed burn (with the override), revenue per sample and hint are those of the inputs and the read budget; every KPI, the curve and the projection are computed from that burn, revenue per sample, variable cost and volume; the margin is revenue − variable cost |
| Engine.KpiRelations | kelp_app.py:124-128 | for financials wired as in a run: break-even is unreachable iff margin ≤ 0, otherwise break-even × margin = burn and profit there is 0, and profit = samples × margin − burn |
| Engine.RunCurve | kelp_app.py:157-159 | a successful run's curve has one point per plotted volume and starts at −burn |
| Engine.RunProjection | kelp_app.py:183-197 | a successful run's projection has 5 rows, and the launch year's EBITDA is 12 × the profit KPI |
| Engine.ReagentLedgerStopsScriptAsWritten | kelp_app.py:94-99 | the ledger ("Reagents Inc", 3000), ("Rent", 15000) reads without error, its hint fails as written, and the corrected hint is 3000 ÷ samples to the cent |
| Engine.OverrideIsTotal | kelp_app.py:121 | two runs with the same uploaded budget agree on the fixed burn whatever their payroll and line items |
| Engine.MissingAmountColumnZeroesFixed | kelp_app.py:28-33 | an upload without `Monthly USD` gives a fixed burn of 0 and the default hint of 22 |
| Engine.UploadedLedgerSetsFixed | kelp_app.py:33 | a valid upload sets the fixed burn to its `Monthly USD` total |
| Engine.NoUploadUsesManualFixed | kelp_app.py:114-121 | with no upload the fixed burn is loaded payroll plus the line items |
| Engine.DefaultRun | kelp_app.py:58-99 | the sidebar defaults give payroll 623500 × 1.25 / 12, a burn of payroll + 58729, a hint of 22, a margin of 98, break-even burn/98, profit 1400 × 98 − burn and 26 curve points |

## Left out

- Streamlit widgets, sidebar layout, metrics, markdown and messages (`st.error`, `st.success`) are not modelled. Widget values are plain parameters. Widget ranges are not imposed, since no contract needs them.
- Reading the uploaded files (`pd.read_csv`) is not modelled. Tables arrive parsed: budget rows have an optional name and an optional amount, and price rows have a name and a price. Non-numeric amounts and names that pandas would not read as text are not modelled.
- A `Name` column with no text in any cell makes pandas' string accessor raise. The model treats such rows as non-matching instead.
- Text.Find and Ledger.IsReagentName: the keyword match is the fixed four-keyword, case-insensitive substring test. Case folding covers ASCII letters only, while Python's regular expressions fold Unicode. General regular expressions are not modelled.
- RealMath.Round2: rounding is exact half-to-even on the real value. Python rounds the binary float, so decimal ties such as 2.675 can come out differently.
- Floating point is replaced by exact reals throughout. `np.inf` is the `Unreachable` case.
- Altair charts, including the break-even rule, and the projection table's number formatting are presentation only.
- The default launch year comes from the clock (`datetime.now()`). It is a parameter here.
- The variable-cost hint is only the default of the variable-cost widget. The model takes the chosen variable cost as a parameter and reports the hint beside it.
- The app has no weighted test-mix pricing mode and no separate equipment-financing input. Instrument leases are one of the line items.

## Findings

| source | as written | input that shows it | evidently intended | confidence | as-written member | corrected member |
|---|---|---|---|---|---|---|
| kelp_app.py:94 | the hint divides by `monthly_samples`, which is first assigned at line 99. Each rerun starts from a fresh namespace, so the name is unbound whenever the division is evaluated | a budget table with the row ("Reagents Inc", 3000) makes the reagent total 3000, and the script stops with a NameError | spread the reagent total over the chosen monthly samples, with 0 counted as 1 | medium, not executed | UnitEconomics.VarHintAsWritten, shown by Engine.ReagentLedgerStopsScriptAsWritten | UnitEconomics.VarHint |
