/**
 Integer arithmetic shared by the gauge model: Kotlin's 32-bit `Int` and the
 ceiling division that `kotlin.math.ceil(n / d.toDouble()).toInt()` computes.

 For a 32-bit `n` and the divisors the gauge uses (100 and 5) the double
 quotient is never rounded onto or across an integer, so `ceil` of it is the
 exact integer ceiling of `n / d`; this module works with that exact value.
 */
module Arith {

  const IntMin: int := -0x8000_0000
  const IntMax: int := 0x7fff_ffff

  /** Kotlin's `Int`. */
  type Int32 = x: int | IntMin <= x <= IntMax

  function Min(a: int, b: int): (m: int)
    ensures m <= a && m <= b
    ensures m == a || m == b
  {
    if a <= b then a else b
  }

  /** The ceiling of `n / d`: the least `q` with `n <= d * q`. */
  function CeilDiv(n: int, d: int): (q: int)
    requires d > 0
    ensures d * (q - 1) < n <= d * q
    ensures q > 0 <==> n > 0
  {
    var q := (n + d - 1) / d;
    assert d * q + (n + d - 1) % d == n + d - 1;
    MulSign(d, q - 1);
    MulSign(d, q);
    q
  }

  /** The sign of `d * x` is the sign of `x` when `d` is positive. */
  lemma MulSign(d: int, x: int)
    requires d > 0
    ensures x > 0 <==> d * x > 0
    ensures x < 0 <==> d * x < 0
  {
  }

  lemma MulMonotone(d: int, x: int, y: int)
    requires d > 0 && x <= y
    ensures d * x <= d * y
  {
    MulSign(d, y - x);
    assert d * y - d * x == d * (y - x);
  }

  /** Only one integer satisfies the defining inequalities of `CeilDiv`. */
  lemma CeilDivUnique(n: int, d: int, q: int)
    requires d > 0
    requires d * (q - 1) < n <= d * q
    ensures CeilDiv(n, d) == q
  {
    var c := CeilDiv(n, d);
    if c < q {
      MulMonotone(d, c, q - 1);
      assert false;
    } else if c > q {
      MulMonotone(d, q, c - 1);
      assert false;
    }
  }

  /** A larger numerator never has a smaller ceiling quotient. */
  lemma CeilDivMonotone(m: int, n: int, d: int)
    requires d > 0 && m <= n
    ensures CeilDiv(m, d) <= CeilDiv(n, d)
  {
    var a, b := CeilDiv(m, d), CeilDiv(n, d);
    if a > b {
      MulMonotone(d, b, a - 1);
      assert false;
    }
  }

  /** Rounding up twice, by `a` and then by `b`, is rounding up once by `a * b`. */
  lemma CeilDivNested(n: int, a: int, b: int)
    requires a > 0 && b > 0
    ensures CeilDiv(CeilDiv(n, a), b) == CeilDiv(n, a * b)
  {
    var q := CeilDiv(n, a);
    var p := CeilDiv(q, b);
    NestedUpper(n, a, b, q, p);
    NestedLower(n, a, b, q, p);
    CeilDivUnique(n, a * b, p);
  }

  /** n <= a * q <= a * (b * p) == (a * b) * p */
  lemma NestedUpper(n: int, a: int, b: int, q: int, p: int)
    requires a > 0 && b > 0
    requires n <= a * q && q <= b * p
    ensures n <= (a * b) * p
  {
    MulMonotone(a, q, b * p);
    assert a * (b * p) == (a * b) * p;
  }

  /** (a * b) * (p - 1) == a * (b * (p - 1)) <= a * (q - 1) < n */
  lemma NestedLower(n: int, a: int, b: int, q: int, p: int)
    requires a > 0 && b > 0
    requires a * (q - 1) < n && b * (p - 1) < q
    ensures (a * b) * (p - 1) < n
  {
    MulMonotone(a, b * (p - 1), q - 1);
    assert a * (b * (p - 1)) == (a * b) * (p - 1);
  }
}
