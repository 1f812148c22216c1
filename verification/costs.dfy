/** Monthly fixed burn: loaded payroll, the monthly fixed line items, and the
    all-or-nothing override by an uploaded budget table. */
module Costs {
  import Ledger

  /** One staffing role: headcount (fractional for part-time) and annual salary. */
  datatype StaffLine = StaffLine(headcount: real, annualSalary: real)

  /** The monthly fixed line items of the sidebar; argon is bought in packs. */
  datatype FixedItems = FixedItems(
    labRent: real,
    instrumentLeases: real,
    utilities: real,
    argonPacks: nat,
    argonPackPrice: real,
    serviceContracts: real,
    insurance: real,
    cleaning: real,
    itLims: real,
    regulatory: real,
    otherFixed: real)

  /** The app's four roles, in sidebar order: directors, senior scientists,
      lab technicians and admin FTE. */
  function Roster(directors: nat, directorSalary: real,
                  scientists: nat, scientistSalary: real,
                  techs: nat, techSalary: real,
                  adminFte: real, adminSalary: real): seq<StaffLine>
  {
    [StaffLine(directors as real, directorSalary),
     StaffLine(scientists as real, scientistSalary),
     StaffLine(techs as real, techSalary),
     StaffLine(adminFte, adminSalary)]
  }

  /** Sum of headcount times salary over the roles. */
  function AnnualPayroll(staff: seq<StaffLine>): real
  {
    if |staff| == 0 then 0.0
    else staff[0].headcount * staff[0].annualSalary + AnnualPayroll(staff[1..])
  }

  /** The roster's payroll is the four-term sum of the sidebar inputs. */
  lemma RosterPayroll(directors: nat, directorSalary: real,
                      scientists: nat, scientistSalary: real,
                      techs: nat, techSalary: real,
                      adminFte: real, adminSalary: real)
    ensures AnnualPayroll(Roster(directors, directorSalary, scientists, scientistSalary,
                                 techs, techSalary, adminFte, adminSalary))
         == directors as real * directorSalary + scientists as real * scientistSalary
          + techs as real * techSalary + adminFte * adminSalary
  {
    var r := Roster(directors, directorSalary, scientists, scientistSalary,
                    techs, techSalary, adminFte, adminSalary);
    assert r[3..][1..] == [];
    assert r[2..][1..] == r[3..];
    assert r[1..][1..] == r[2..];
    assert AnnualPayroll(r[3..]) == adminFte * adminSalary;
    assert AnnualPayroll(r[2..]) == techs as real * techSalary + adminFte * adminSalary;
  }

  /** Payroll of two groups of roles is the sum of their payrolls. */
  lemma {:induction false} AnnualPayrollConcat(a: seq<StaffLine>, b: seq<StaffLine>)
    ensures AnnualPayroll(a + b) == AnnualPayroll(a) + AnnualPayroll(b)
  {
    if |a| == 0 {
      assert a + b == b;
    } else {
      assert (a + b)[1..] == a[1..] + b;
      AnnualPayrollConcat(a[1..], b);
    }
  }

  lemma {:induction false} AnnualPayrollNonNegative(staff: seq<StaffLine>)
    requires forall i :: 0 <= i < |staff| ==> staff[i].headcount >= 0.0 && staff[i].annualSalary >= 0.0
    ensures AnnualPayroll(staff) >= 0.0
  {
    if |staff| > 0 {
      AnnualPayrollNonNegative(staff[1..]);
    }
  }

  /** Annual payroll, loaded with benefits and payroll tax, per month. */
  function MonthlyPayroll(staff: seq<StaffLine>, benefitLoad: real): real
  {
    AnnualPayroll(staff) * (1.0 + benefitLoad) / 12.0
  }

  /** Twelve months of the sidebar roster's payroll are the four-term annual
      payroll loaded by the benefits rate. */
  lemma RosterMonthlyPayroll(directors: nat, directorSalary: real,
                             scientists: nat, scientistSalary: real,
                             techs: nat, techSalary: real,
                             adminFte: real, adminSalary: real, benefitLoad: real)
    ensures 12.0 * MonthlyPayroll(Roster(directors, directorSalary, scientists, scientistSalary,
                                         techs, techSalary, adminFte, adminSalary), benefitLoad)
         == (directors as real * directorSalary + scientists as real * scientistSalary
             + techs as real * techSalary + adminFte * adminSalary) * (1.0 + benefitLoad)
  {
    RosterPayroll(directors, directorSalary, scientists, scientistSalary, techs, techSalary, adminFte, adminSalary);
  }

  /** The ten monthly line items, argon counted as packs times pack price. */
  function LineItems(f: FixedItems): seq<real>
  {
    [f.labRent, f.instrumentLeases, f.utilities, f.argonPacks as real * f.argonPackPrice,
     f.serviceContracts, f.insurance, f.cleaning, f.itLims, f.regulatory, f.otherFixed]
  }

  function Sum(xs: seq<real>): real
  {
    if |xs| == 0 then 0.0 else xs[0] + Sum(xs[1..])
  }

  lemma SumStep(xs: seq<real>, i: nat)
    requires i < |xs|
    ensures Sum(xs[i..]) == xs[i] + Sum(xs[i + 1..])
  {
  }

  /** Manual fixed burn: monthly payroll plus every monthly line item. */
  function ManualFixed(staff: seq<StaffLine>, benefitLoad: real, f: FixedItems): real
  {
    MonthlyPayroll(staff, benefitLoad) + f.labRent + f.instrumentLeases + f.utilities
      + f.argonPacks as real * f.argonPackPrice + f.serviceContracts + f.insurance
      + f.cleaning + f.itLims + f.regulatory + f.otherFixed
  }

  /** Manual fixed burn is monthly payroll plus the total of the ten line items. */
  lemma ManualFixedIsPayrollPlusItems(staff: seq<StaffLine>, benefitLoad: real, f: FixedItems)
    ensures ManualFixed(staff, benefitLoad, f) == MonthlyPayroll(staff, benefitLoad) + Sum(LineItems(f))
  {
    var items := LineItems(f);
    assert items[10..] == [];
    SumStep(items, 9); SumStep(items, 8); SumStep(items, 7); SumStep(items, 6); SumStep(items, 5);
    SumStep(items, 4); SumStep(items, 3); SumStep(items, 2); SumStep(items, 1); SumStep(items, 0);
    assert items[0..] == items;
  }

  /** An uploaded budget table, valid or not, replaces the manual figure
      entirely; otherwise the manual figure stands. */
  function MonthlyFixed(budget: Ledger.BudgetSummary, manual: real): real
  {
    if budget.uploaded then budget.costTotal else manual
  }

  /** The override is all or nothing: two manual figures give the same burn
      exactly when a table was uploaded or the figures already agree. */
  lemma OverrideIgnoresManual(budget: Ledger.BudgetSummary, manual: real, manual': real)
    ensures MonthlyFixed(budget, manual) == MonthlyFixed(budget, manual')
        <==> budget.uploaded || manual == manual'
  {
  }

  /** With non-negative inputs the manual burn covers at least the payroll. */
  lemma {:induction false} ManualFixedCoversPayroll(staff: seq<StaffLine>, benefitLoad: real, f: FixedItems)
    requires forall i :: 0 <= i < |staff| ==> staff[i].headcount >= 0.0 && staff[i].annualSalary >= 0.0
    requires benefitLoad >= 0.0
    requires f.labRent >= 0.0 && f.instrumentLeases >= 0.0 && f.utilities >= 0.0
    requires f.argonPackPrice >= 0.0 && f.serviceContracts >= 0.0 && f.insurance >= 0.0
    requires f.cleaning >= 0.0 && f.itLims >= 0.0 && f.regulatory >= 0.0 && f.otherFixed >= 0.0
    ensures 0.0 <= MonthlyPayroll(staff, benefitLoad) <= ManualFixed(staff, benefitLoad, f)
  {
    AnnualPayrollNonNegative(staff);
    assert f.argonPacks as real * f.argonPackPrice >= 0.0;
  }
}
