/**
 * Exact decimal rendering of the numbers the dashboard shows: JavaScript's
 * `Number.prototype.toFixed` and `Math.round` on non-negative rationals,
 * rounding half up, and the decimal digits of a natural number as produced
 * by template literals.
 */
module Decimal {

  predicate IsDigit(c: char) {
    '0' <= c <= '9'
  }

  predicate AllDigits(s: string) {
    forall i :: 0 <= i < |s| ==> IsDigit(s[i])
  }

  function DigitChar(d: nat): (c: char)
    requires d < 10
    ensures IsDigit(c)
  {
    (48 + d) as char
  }

  function DigitValue(c: char): (d: nat)
    requires IsDigit(c)
    ensures d < 10 && DigitChar(d) == c
  {
    c as int - 48
  }

  /** The decimal digits of n, most significant first, without leading zeros. */
  function NatToString(n: nat): (s: string)
    ensures |s| >= 1 && AllDigits(s)
    ensures |s| > 1 ==> s[0] != '0'
    decreases n
  {
    if n < 10 then [DigitChar(n)] else NatToString(n / 10) + [DigitChar(n % 10)]
  }

  /** The value of a string of decimal digits; the inverse of NatToString. */
  function ParseNat(s: string): nat
    requires AllDigits(s)
    decreases |s|
  {
    if |s| == 0 then 0 else ParseNat(s[..|s| - 1]) * 10 + DigitValue(s[|s| - 1])
  }

  lemma {:induction false} ParseNatToString(n: nat)
    ensures ParseNat(NatToString(n)) == n
    decreases n
  {
    var s := NatToString(n);
    if n >= 10 {
      ParseNatToString(n / 10);
      assert s[..|s| - 1] == NatToString(n / 10);
    }
  }

  /** Different numbers print differently. */
  lemma NatToStringInjective(m: nat, n: nat)
    ensures NatToString(m) == NatToString(n) ==> m == n
  {
    ParseNatToString(m);
    ParseNatToString(n);
  }

  /**
   * n / d rounded to the nearest integer, halves rounded up: the r with
   * r - 1/2 <= n / d < r + 1/2.
   */
  function RoundHalfUp(n: nat, d: nat): (r: nat)
    requires d > 0
    ensures 2 * r * d <= 2 * n + d < 2 * (r + 1) * d
  {
    var q := (2 * n + d) / (2 * d);
    DivBounds(2 * n + d, 2 * d);
    q
  }

  lemma DivBounds(a: nat, b: nat)
    requires b > 0
    ensures (a / b) * b <= a < (a / b + 1) * b
  {
  }

  /** The characterisation of RoundHalfUp fixes the result. */
  lemma RoundHalfUpUnique(n: nat, d: nat, r: nat)
    requires d > 0
    requires 2 * r * d <= 2 * n + d < 2 * (r + 1) * d
    ensures r == RoundHalfUp(n, d)
  {
    var q := RoundHalfUp(n, d);
    MulCancel(r, q + 1, 2 * d);
    MulCancel(q, r + 1, 2 * d);
  }

  /** A positive factor can be cancelled from a strict inequality. */
  lemma MulCancel(a: int, b: int, c: int)
    requires c > 0 && a * c < b * c
    ensures a < b
  {
    assert (b - a) * c > 0;
  }

  /** A rounding of a larger fraction over the same denominator is not smaller. */
  lemma RoundHalfUpMonotone(m: nat, n: nat, d: nat)
    requires d > 0 && m <= n
    ensures RoundHalfUp(m, d) <= RoundHalfUp(n, d)
  {
    var a, b := RoundHalfUp(m, d), RoundHalfUp(n, d);
    MulCancel(a, b + 1, 2 * d);
  }

  /** A whole number of units is rendered unchanged. */
  lemma RoundHalfUpExact(k: nat, d: nat)
    requires d > 0
    ensures RoundHalfUp(k * d, d) == k
  {
    RoundHalfUpUnique(k * d, d, k);
  }

  /** `x.toFixed(1)` for x = tenths / 10: integer part, a point, one digit. */
  function Fixed1(tenths: nat): (s: string)
    ensures |s| >= 3 && s[|s| - 2] == '.'
  {
    NatToString(tenths / 10) + "." + [DigitChar(tenths % 10)]
  }

  /** Reads a rendering of Fixed1 back; the inverse of Fixed1. */
  function ParseFixed1(s: string): nat
    requires |s| >= 3 && s[|s| - 2] == '.'
    requires AllDigits(s[..|s| - 2]) && IsDigit(s[|s| - 1])
  {
    ParseNat(s[..|s| - 2]) * 10 + DigitValue(s[|s| - 1])
  }

  lemma Fixed1RoundTrip(tenths: nat)
    ensures var s := Fixed1(tenths);
      AllDigits(s[..|s| - 2]) && IsDigit(s[|s| - 1]) && ParseFixed1(s) == tenths
  {
    var s := Fixed1(tenths);
    assert s[..|s| - 2] == NatToString(tenths / 10);
    ParseNatToString(tenths / 10);
  }

  /** `(n / d).toFixed(1)` computed exactly, rounding half up. */
  function ToFixed1(n: nat, d: nat): string
    requires d > 0
  {
    Fixed1(RoundHalfUp(10 * n, d))
  }

  /** `(n / d).toFixed(0)` and `Math.round(n / d)` computed exactly, rounding half up. */
  function ToFixed0(n: nat, d: nat): string
    requires d > 0
  {
    NatToString(RoundHalfUp(n, d))
  }
}
