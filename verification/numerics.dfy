/** Java numeric conversions that differ from Dafny's mathematical operators. */
module Numerics {

  function Abs(x: real): (a: real)
    ensures 0.0 <= a && (a == x || a == -x)
  {
    if x < 0.0 then -x else x
  }

  /** Java's `(int)` cast of a float: truncation toward zero. */
  function Trunc(x: real): (n: int)
    ensures 0.0 <= x ==> 0 <= n && n as real <= x < n as real + 1.0
    ensures x < 0.0 ==> n <= 0 && n as real - 1.0 < x <= n as real
  {
    if x >= 0.0 then x.Floor else -((-x).Floor)
  }

  /** Java's `/` on `int` by a positive divisor: the quotient is truncated toward zero. */
  function JavaDiv(a: int, n: int): (q: int)
    requires 0 < n
    ensures 0 <= a ==> 0 <= q * n <= a < q * n + n
    ensures a < 0 ==> q * n - n < a <= q * n <= 0
  {
    if a >= 0 then
      QuotientBounds(a, n, a / n, a % n);
      a / n
    else
      QuotientBounds(-a, n, (-a) / n, (-a) % n);
      -((-a) / n)
  }

  /** Euclidean division of a non-negative number, with quotient and remainder as plain unknowns. */
  lemma QuotientBounds(a: int, n: int, d: int, m: int)
    requires 0 <= a && 0 < n && a == d * n + m && 0 <= m < n
    ensures 0 <= d * n <= a < d * n + n
    ensures -a < (-d) * n + n && (-d) * n == -(d * n)
  {
  }

  /** A truncated quotient stays within any integer bounds that the exact quotient respects. */
  lemma JavaDivBetween(a: int, n: int, lo: int, hi: int)
    requires 0 < n
    requires lo * n <= a <= hi * n
    ensures lo <= JavaDiv(a, n) <= hi
  {
    var q := JavaDiv(a, n);
    assert q * n < a + n && a < q * n + n;
    AddOneTimes(hi, n);
    AddOneTimes(q, n);
    MulCancel(q, hi + 1, n);
    MulCancel(lo, q + 1, n);
  }

  lemma AddOneTimes(x: int, n: int)
    ensures (x + 1) * n == x * n + n
  {
  }

  /** Multiplying by a positive number preserves strict order, so it can be cancelled. */
  lemma MulCancel(x: int, y: int, n: int)
    requires 0 < n && x * n < y * n
    ensures x < y
  {
    if y <= x {
      MulMonotone(y, x, n);
    }
  }

  lemma MulMonotone(x: int, y: int, n: int)
    requires x <= y && 0 < n
    ensures x * n <= y * n
  {
  }

  predicate IsDigit(c: char) { '0' <= c <= '9' }

  /** Reads a string of decimal digits as a number. */
  function ParseDecimal(s: string): nat
    requires forall i :: 0 <= i < |s| ==> IsDigit(s[i])
  {
    if |s| == 0 then 0
    else
      assert IsDigit(s[|s| - 1]);
      ParseDecimal(s[..|s| - 1]) * 10 + (s[|s| - 1] as int - '0' as int)
  }

  /** Java's decimal rendering of a non-negative `int`, as used by string concatenation. */
  function NatToString(n: nat): (s: string)
    ensures |s| > 0 && forall i :: 0 <= i < |s| ==> IsDigit(s[i])
    ensures s[0] == '0' ==> s == "0"
    ensures ParseDecimal(s) == n
  {
    if n < 10 then [Digit(n)]
    else
      var s := NatToString(n / 10) + [Digit(n % 10)];
      assert s[..|s| - 1] == NatToString(n / 10);
      s
  }

  /** The character for one decimal digit. */
  function Digit(d: nat): (c: char)
    requires d < 10
    ensures IsDigit(c) && c as int - '0' as int == d
  {
    ('0' as int + d) as char
  }
}
