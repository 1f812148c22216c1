/** The optional operating-budget table (columns `Name`, `Monthly USD`):
    its total, the reagent rows picked out by a keyword mask, and what an
    upload with a missing column does. */
module Ledger {
  import opened Wrappers
  import Text

  /** The alternatives of the case-insensitive pattern
      "consumable|reagent|media|chem". */
  const ReagentKeywords: seq<string> := ["consumable", "reagent", "media", "chem"]

  /** One parsed row; a blank cell is None (pandas reads it as NaN). */
  datatype LedgerRow = LedgerRow(name: Option<string>, monthlyUsd: Option<real>)

  /** What the budget uploader produced, after parsing. */
  datatype BudgetUpload =
    | NoUpload
    | MissingAmountColumn
    | MissingNameColumn
    | Uploaded(rows: seq<LedgerRow>)

  datatype LoadError = NameColumnMissing

  /** What the rest of the run learns from the budget table. */
  datatype BudgetSummary = BudgetSummary(uploaded: bool, costTotal: real, reagentTotal: real)

  /** A row's contribution to a column sum: a blank amount is skipped. */
  function Amount(row: LedgerRow): real
  {
    match row.monthlyUsd
    case Some(v) => v
    case None => 0.0
  }

  /** The mask of the keyword search: a blank name never matches. */
  predicate IsReagentName(name: Option<string>)
  {
    name.Some? && exists k | k in ReagentKeywords :: Text.Contains(Text.Lower(name.value), k)
  }

  /** Sum of the `Monthly USD` column. */
  function LedgerTotal(rows: seq<LedgerRow>): real
  {
    if |rows| == 0 then 0.0 else Amount(rows[0]) + LedgerTotal(rows[1..])
  }

  /** Sum of `Monthly USD` over the masked rows. */
  function ReagentTotal(rows: seq<LedgerRow>): real
  {
    if |rows| == 0 then 0.0
    else (if IsReagentName(rows[0].name) then Amount(rows[0]) else 0.0) + ReagentTotal(rows[1..])
  }

  /** Sum of `Monthly USD` over the rows the mask leaves out. */
  function OtherTotal(rows: seq<LedgerRow>): real
  {
    if |rows| == 0 then 0.0
    else (if IsReagentName(rows[0].name) then 0.0 else Amount(rows[0])) + OtherTotal(rows[1..])
  }

  /** The rows whose name matches a reagent keyword, in table order; a
      matching row that appears several times is kept as often as it
      appears. */
  function ReagentRows(rows: seq<LedgerRow>): (sel: seq<LedgerRow>)
    ensures forall r :: r in sel <==> r in rows && IsReagentName(r.name)
    ensures forall r :: multiset(sel)[r] == (if IsReagentName(r.name) then multiset(rows)[r] else 0)
    ensures |sel| <= |rows|
  {
    if |rows| == 0 then []
    else
      var head := if IsReagentName(rows[0].name) then [rows[0]] else [];
      assert rows == [rows[0]] + rows[1..];
      assert multiset(rows) == multiset{rows[0]} + multiset(rows[1..]);
      head + ReagentRows(rows[1..])
  }

  /** The masked sum is the column sum of exactly the matching rows. */
  lemma {:induction false} ReagentTotalIsSumOfMatchingRows(rows: seq<LedgerRow>)
    ensures ReagentTotal(rows) == LedgerTotal(ReagentRows(rows))
  {
    if |rows| > 0 {
      ReagentTotalIsSumOfMatchingRows(rows[1..]);
      var head := if IsReagentName(rows[0].name) then [rows[0]] else [];
      LedgerTotalConcat(head, ReagentRows(rows[1..]));
    }
  }

  lemma {:induction false} LedgerTotalConcat(a: seq<LedgerRow>, b: seq<LedgerRow>)
    ensures LedgerTotal(a + b) == LedgerTotal(a) + LedgerTotal(b)
  {
    if |a| > 0 {
      assert (a + b)[1..] == a[1..] + b;
      LedgerTotalConcat(a[1..], b);
    } else {
      assert a + b == b;
    }
  }

  /** Every row is counted once: either by the mask or outside it. */
  lemma {:induction false} LedgerSplits(rows: seq<LedgerRow>)
    ensures LedgerTotal(rows) == ReagentTotal(rows) + OtherTotal(rows)
  {
    if |rows| > 0 {
      LedgerSplits(rows[1..]);
    }
  }

  lemma {:induction false} OtherTotalNonNegative(rows: seq<LedgerRow>)
    requires forall i :: 0 <= i < |rows| ==> Amount(rows[i]) >= 0.0
    ensures OtherTotal(rows) >= 0.0
  {
    if |rows| > 0 {
      OtherTotalNonNegative(rows[1..]);
    }
  }

  lemma {:induction false} ReagentTotalNonNegative(rows: seq<LedgerRow>)
    requires forall i :: 0 <= i < |rows| ==> Amount(rows[i]) >= 0.0
    ensures ReagentTotal(rows) >= 0.0
  {
    if |rows| > 0 {
      ReagentTotalNonNegative(rows[1..]);
    }
  }

  /** With non-negative amounts the reagent hint never exceeds the budget total. */
  lemma {:induction false} ReagentWithinTotal(rows: seq<LedgerRow>)
    requires forall i :: 0 <= i < |rows| ==> Amount(rows[i]) >= 0.0
    ensures 0.0 <= ReagentTotal(rows) <= LedgerTotal(rows)
  {
    LedgerSplits(rows);
    OtherTotalNonNegative(rows);
    ReagentTotalNonNegative(rows);
  }

  /** Reads a parsed budget upload. A table without `Monthly USD` reports an
      error on screen and leaves both totals at 0; a table with `Monthly USD`
      but no `Name` column stops the script when the mask is built. */
  function ReadBudget(u: BudgetUpload): (r: Result<BudgetSummary, LoadError>)
    ensures r.Failure? <==> u.MissingNameColumn?
    ensures r.Success? ==> (r.value.uploaded <==> !u.NoUpload?)
    ensures r.Success? && !u.Uploaded? ==> r.value.costTotal == 0.0 && r.value.reagentTotal == 0.0
    ensures u.Uploaded? ==> r.Success? && r.value.costTotal == LedgerTotal(u.rows)
    ensures u.Uploaded? ==> r.Success? && r.value.reagentTotal == ReagentTotal(u.rows)
  {
    match u
    case NoUpload => Success(BudgetSummary(false, 0.0, 0.0))
    case MissingAmountColumn => Success(BudgetSummary(true, 0.0, 0.0))
    case MissingNameColumn => Failure(NameColumnMissing)
    case Uploaded(rows) => Success(BudgetSummary(true, LedgerTotal(rows), ReagentTotal(rows)))
  }

  /** The two-row example: a "Reagents Inc" row of 3000 and a "Rent" row of
      15000 give a total of 18000 and a reagent hint of 3000. */
  lemma ReagentsAndRentExample()
    ensures var u := Uploaded([LedgerRow(Some("Reagents Inc"), Some(3000.0)),
                               LedgerRow(Some("Rent"), Some(15000.0))]);
            ReadBudget(u) == Success(BudgetSummary(true, 18000.0, 3000.0))
  {
    var rows := [LedgerRow(Some("Reagents Inc"), Some(3000.0)), LedgerRow(Some("Rent"), Some(15000.0))];
    assert Text.Lower("Reagents Inc") == "reagents inc";
    assert Text.OccursAt("reagents inc", "reagent", 0);
    assert Text.Contains(Text.Lower("Reagents Inc"), ReagentKeywords[1]);
    assert IsReagentName(rows[0].name);
    assert Text.Lower("Rent") == "rent";
    forall k | k in ReagentKeywords
      ensures !Text.Contains("rent", k)
    {
      if k == "chem" {
        assert "rent"[0..4][0] == 'r' != "chem"[0];
        assert !Text.OccursAt("rent", k, 0);
      } else {
        assert |k| > 4;
      }
    }
    assert !IsReagentName(rows[1].name);
    assert rows[1..][1..] == [];
  }
}
