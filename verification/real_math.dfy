/** Exact arithmetic used by the financial model: integer powers of a real,
    the compound-growth factor of an integer-percent slider, and Python's
    round-half-to-even at two decimal places. */
module RealMath {

  /** b raised to the n-th power. */
  function Pow(b: real, n: nat): (r: real)
    ensures b > 0.0 ==> r > 0.0
    ensures b >= 0.0 ==> r >= 0.0
  {
    if n == 0 then 1.0 else b * Pow(b, n - 1)
  }

  lemma {:induction false} PowOfOne(n: nat)
    ensures Pow(1.0, n) == 1.0
  {
    if n > 0 {
      PowOfOne(n - 1);
    }
  }

  /** A base of at least one never shrinks as the exponent grows. */
  lemma {:induction false} PowMonotone(b: real, m: nat, n: nat)
    requires b >= 1.0
    requires m <= n
    ensures 1.0 <= Pow(b, m) <= Pow(b, n)
  {
    if m < n {
      PowMonotone(b, m, n - 1);
      assert Pow(b, n) == b * Pow(b, n - 1);
    } else if m > 0 {
      PowMonotone(b, 0, m);
    }
  }

  /** The yearly factor 1 + pct/100 of an integer-percent growth slider:
      a rise never shrinks, a zero rate leaves the figure alone, and a
      higher rate grows faster. */
  function GrowthFactor(pct: int): (g: real)
    ensures (g - 1.0) * 100.0 == pct as real
    ensures pct >= 0 <==> g >= 1.0
    ensures pct == 0 <==> g == 1.0
    ensures pct > -100 <==> g > 0.0
  {
    1.0 + pct as real / 100.0
  }

  /** A higher percentage gives a larger yearly factor. */
  lemma GrowthFactorMonotone(p: int, q: int)
    requires p <= q
    ensures GrowthFactor(p) <= GrowthFactor(q)
  {
  }

  /** The integer nearest to y; a value exactly halfway between two integers
      goes to the even one, as Python's round does. */
  function RoundHalfEven(y: real): (n: int)
    ensures -0.5 <= y - n as real <= 0.5
    ensures y - n as real == 0.5 || y - n as real == -0.5 ==> n % 2 == 0
  {
    var f := y.Floor;
    var d := y - f as real;
    if d < 0.5 then f
    else if d > 0.5 then f + 1
    else if f % 2 == 0 then f
    else f + 1
  }

  /** x rounded to a whole number of hundredths (cents). */
  function Round2(x: real): (r: real)
    ensures -0.005 <= r - x <= 0.005
    ensures (r * 100.0).Floor as real == r * 100.0
  {
    RoundHalfEven(x * 100.0) as real / 100.0
  }
}
