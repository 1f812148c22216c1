/** Case-insensitive substring search, as used by the ledger's keyword mask:
    lower-casing (ASCII letters only) and "k occurs somewhere in s". */
module Text {

  function LowerChar(c: char): char
  {
    if 'A' <= c <= 'Z' then (c as int + 32) as char else c
  }

  function Lower(s: string): string
  {
    seq(|s|, i requires 0 <= i < |s| => LowerChar(s[i]))
  }

  /** k occurs in s starting at position i. */
  predicate OccursAt(s: string, k: string, i: int)
  {
    0 <= i && i + |k| <= |s| && s[i..i + |k|] == k
  }

  /** k occurs somewhere in s. */
  predicate Contains(s: string, k: string)
  {
    exists i | 0 <= i <= |s| - |k| :: OccursAt(s, k, i)
  }

  /** A left-to-right scan for k in s, as a regular-expression search for a
      literal performs it: the executable counterpart of Contains, which the
      ledger's keyword mask uses. */
  method Find(s: string, k: string) returns (found: bool)
    ensures found <==> Contains(s, k)
  {
    if |k| > |s| {
      return false;
    }
    var i := 0;
    while i <= |s| - |k|
      invariant 0 <= i <= |s| - |k| + 1
      invariant forall j :: 0 <= j < i ==> !OccursAt(s, k, j)
    {
      if s[i..i + |k|] == k {
        assert OccursAt(s, k, i);
        return true;
      }
      i := i + 1;
    }
    return false;
  }
}
