/** Revenue per sample: from the uploaded analyte price list and the
    analytes selected for a sample, or a single manual figure when no price
    list is loaded. */
module Pricing {

  datatype PriceRow = PriceRow(analyte: string, price: real)

  /** What the price-list uploader produced, after parsing. A table without
      both an `Analyte` and a `Price` column is reported and ignored. */
  datatype PriceUpload =
    | NoPriceList
    | MissingPriceColumns
    | PriceList(rows: seq<PriceRow>)

  /** The analyte-to-price dictionary built from the rows in order, so a
      later row for the same analyte replaces the earlier price. */
  function PriceMap(rows: seq<PriceRow>): (m: map<string, real>)
    ensures forall i :: 0 <= i < |rows| ==> rows[i].analyte in m
    ensures forall a :: a in m ==> exists i :: 0 <= i < |rows| && rows[i].analyte == a
  {
    if |rows| == 0 then map[]
    else
      var front := PriceMap(rows[..|rows| - 1]);
      assert forall i :: 0 <= i < |rows| - 1 ==> rows[..|rows| - 1][i] == rows[i];
      front[rows[|rows| - 1].analyte := rows[|rows| - 1].price]
  }

  /** Each analyte's price is the one on the last row that names it. */
  lemma {:induction false} LastRowWins(rows: seq<PriceRow>, i: int)
    requires 0 <= i < |rows|
    requires IsLastFor(rows, i)
    ensures PriceMap(rows)[rows[i].analyte] == rows[i].price
  {
    if i < |rows| - 1 {
      var front := rows[..|rows| - 1];
      assert front[i] == rows[i];
      assert IsLastFor(front, i) by {
        forall j | i < j < |front|
          ensures front[j].analyte != front[i].analyte
        {
          assert front[j] == rows[j];
        }
      }
      LastRowWins(front, i);
      assert rows[|rows| - 1].analyte != rows[i].analyte;
    }
  }

  /** Row i is the last row naming its analyte. */
  predicate IsLastFor(rows: seq<PriceRow>, i: int)
    requires 0 <= i < |rows|
  {
    forall j :: i < j < |rows| ==> rows[j].analyte != rows[i].analyte
  }

  /** The price dictionary the rest of the run sees (empty unless a valid
      price list was loaded). */
  function Prices(u: PriceUpload): map<string, real>
  {
    match u
    case PriceList(rows) => PriceMap(rows)
    case _ => map[]
  }

  /** Sum of the prices of the selected analytes. */
  function SelectionSum(prices: map<string, real>, selected: seq<string>): real
    requires forall a :: a in selected ==> a in prices
  {
    if |selected| == 0 then 0.0 else prices[selected[0]] + SelectionSum(prices, selected[1..])
  }

  /** Selecting two groups of analytes costs the sum of the two groups. */
  lemma {:induction false} SelectionSumConcat(prices: map<string, real>, s: seq<string>, t: seq<string>)
    requires forall a :: a in s + t ==> a in prices
    ensures SelectionSum(prices, s + t) == SelectionSum(prices, s) + SelectionSum(prices, t)
  {
    if |s| == 0 {
      assert s + t == t;
    } else {
      assert (s + t)[1..] == s[1..] + t;
      SelectionSumConcat(prices, s[1..], t);
    }
  }

  /** Selecting one more analyte adds exactly its price. */
  lemma SelectOneMore(prices: map<string, real>, selected: seq<string>, a: string)
    requires forall x :: x in selected ==> x in prices
    requires a in prices
    ensures SelectionSum(prices, selected + [a]) == SelectionSum(prices, selected) + prices[a]
  {
    SelectionSumConcat(prices, selected, [a]);
  }

  /** The order in which analytes are picked does not change the sum: any
      rearrangement of the selection (same analytes, same multiplicities)
      gives the same total. */
  lemma {:induction false} SelectionOrderIrrelevant(prices: map<string, real>, s: seq<string>, t: seq<string>)
    requires forall a :: a in s + t ==> a in prices
    requires multiset(s) == multiset(t)
    ensures SelectionSum(prices, s) == SelectionSum(prices, t)
    decreases |s|
  {
    if |s| > 0 {
      assert s[0] in multiset(t);
      var j :| 0 <= j < |t| && t[j] == s[0];
      var rest := RemoveAt(prices, t, j);
      assert multiset(s) == multiset{s[0]} + multiset(s[1..]) by {
        assert s == [s[0]] + s[1..];
      }
      assert multiset(s[1..]) == multiset(rest);
      SelectionOrderIrrelevant(prices, s[1..], rest);
    } else {
      assert |t| == 0;
    }
  }

  /** Dropping the analyte at position j removes one copy of it from the
      selection and exactly its price from the sum. */
  lemma RemoveAt(prices: map<string, real>, t: seq<string>, j: int) returns (rest: seq<string>)
    requires forall a :: a in t ==> a in prices
    requires 0 <= j < |t|
    ensures rest == t[..j] + t[j + 1..]
    ensures multiset(rest) == multiset(t) - multiset{t[j]}
    ensures forall a :: a in rest ==> a in prices
    ensures SelectionSum(prices, t) == prices[t[j]] + SelectionSum(prices, rest)
  {
    rest := t[..j] + t[j + 1..];
    assert t == t[..j] + ([t[j]] + t[j + 1..]);
    assert multiset(t) == multiset(t[..j]) + multiset{t[j]} + multiset(t[j + 1..]);
    SelectionSumConcat(prices, t[..j], [t[j]] + t[j + 1..]);
    SelectionSumConcat(prices, t[..j], t[j + 1..]);
    assert ([t[j]] + t[j + 1..])[1..] == t[j + 1..];
  }

  lemma {:induction false} SelectionSumNonNegative(prices: map<string, real>, selected: seq<string>)
    requires forall a :: a in selected ==> a in prices && prices[a] >= 0.0
    ensures SelectionSum(prices, selected) >= 0.0
  {
    if |selected| > 0 {
      SelectionSumNonNegative(prices, selected[1..]);
    }
  }

  /** Revenue per sample: the selection's price sum when a non-empty price
      dictionary is loaded, the manual figure otherwise (the selection is
      then empty). */
  function RevenuePerSample(prices: map<string, real>, selected: seq<string>, manual: real): (r: real)
    requires forall a :: a in selected ==> a in prices
    ensures |prices| > 0 ==> r == SelectionSum(prices, selected)
    ensures |selected| == 0 && |prices| > 0 ==> r == 0.0
    ensures |prices| == 0 ==> r == manual
  {
    if |prices| > 0 then SelectionSum(prices, selected) else manual
  }

  /** With a price list loaded, selecting one more analyte raises the
      revenue per sample by exactly its price. */
  lemma RevenueOneMore(prices: map<string, real>, selected: seq<string>, a: string, manual: real)
    requires forall x :: x in selected ==> x in prices
    requires a in prices
    ensures RevenuePerSample(prices, selected + [a], manual)
         == RevenuePerSample(prices, selected, manual) + prices[a]
  {
    SelectOneMore(prices, selected, a);
  }

  /** Reordering the selection does not change the revenue per sample. */
  lemma RevenueOrderIrrelevant(prices: map<string, real>, s: seq<string>, t: seq<string>, manual: real)
    requires forall a :: a in s + t ==> a in prices
    requires multiset(s) == multiset(t)
    ensures RevenuePerSample(prices, s, manual) == RevenuePerSample(prices, t, manual)
  {
    SelectionOrderIrrelevant(prices, s, t);
  }

  /** A repeated analyte keeps the price of its last row. */
  lemma LaterDuplicateWins(a: string, p: real, q: real)
    ensures PriceMap([PriceRow(a, p), PriceRow(a, q)]) == map[a := q]
  {
  }
}
