/** Strings of decimal digits and the numbers they denote: port numbers in the
    redirect URI, and millisecond timestamps stored as TEXT. */
module Digits {
  predicate IsDigits(s: string) {
    forall i | 0 <= i < |s| :: '0' <= s[i] <= '9'
  }

  function Pow10(n: nat): (p: nat)
    ensures p >= 1
  {
    if n == 0 then 1 else 10 * Pow10(n - 1)
  }

  lemma {:induction false} MulMonotone(x: nat, y: nat, p: nat)
    requires x <= y
    ensures x * p <= y * p
    decreases y - x
  {
    if x < y {
      MulMonotone(x, y - 1, p);
      assert y * p == (y - 1) * p + p;
    }
  }

  /** A leading digit outweighs everything after it. */
  lemma LeadingDigitDominates(d: nat, e: nat, p: nat, r: nat, q: nat)
    requires d < e && r < p
    ensures d * p + r < e * p + q
  {
    assert (d + 1) * p == d * p + p;
    MulMonotone(d + 1, e, p);
  }

  /** The number a string of decimal digits denotes. */
  function Value(s: string): (v: nat)
    requires IsDigits(s)
    ensures v < Pow10(|s|)
  {
    if s == [] then 0
    else
      var d := s[0] as int - '0' as int;
      var rest := Value(s[1..]);
      LeadingDigitDominates(d, 10, Pow10(|s| - 1), rest, 0);
      d * Pow10(|s| - 1) + rest
  }

  /** Shifting a number with a leading digit one place left. */
  lemma ShiftLeft(d: int, p: int, rest: int, c: int)
    ensures d * (10 * p) + (10 * rest + c) == 10 * (d * p + rest) + c
  {
  }

  /** Appending a digit multiplies the value by ten and adds that digit. */
  lemma {:induction false} ValueAppend(s: string, c: char)
    requires IsDigits(s) && '0' <= c <= '9'
    ensures IsDigits(s + [c]) && Value(s + [c]) == 10 * Value(s) + (c as int - '0' as int)
    decreases |s|
  {
    var t := s + [c];
    assert IsDigits(t);
    if s != [] {
      var u := s[1..];
      assert t[1..] == u + [c];
      ValueAppend(u, c);
      var d, p := s[0] as int - '0' as int, Pow10(|u|);
      assert Pow10(|t| - 1) == 10 * p;
      assert Value(t) == d * (10 * p) + Value(u + [c]);
      assert Value(s) == d * p + Value(u);
      ShiftLeft(d, p, Value(u), c as int - '0' as int);
    }
  }
}
