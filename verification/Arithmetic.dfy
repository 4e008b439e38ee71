/** Division and 64-bit arithmetic that more than one part of the model needs. */
module Arithmetic {

  const TWO63: nat := 0x8000_0000_0000_0000
  const TWO64: nat := 0x1_0000_0000_0000_0000
  const INT64_MAX: int := 0x7fff_ffff_ffff_ffff

  function Min(a: int, b: int): int { if a < b then a else b }

  /** The number is one of a signed 64-bit variable. */
  predicate Fits(x: int) { -INT64_MAX - 1 <= x <= INT64_MAX }

  /** What wrapping around leaves of a number in such a variable. */
  function Wrap(x: int): (r: int)
    ensures Fits(r) && (Fits(x) ==> r == x)
  {
    (x + TWO63) % TWO64 - TWO63
  }

  /** Division by a positive number as C does it, towards zero. */
  function Truncated(a: int, b: int): int
    requires 0 < b
  {
    if a >= 0 then a / b else -(-a / b)
  }

  /** There is only one quotient and one remainder. */
  lemma DivisionIs(a: int, b: int, q: int, r: int)
    requires a == q * b + r && 0 <= r < b
    ensures a / b == q && a % b == r
  {
    var x := a / b - q;
    assert a == b * (a / b) + a % b;
    assert b * x == b * (a / b) - q * b;
    assert x >= 1 ==> b * x >= b;
    assert x <= -1 ==> b * x <= 0 - b;
  }

  /** A larger number gives no smaller quotient, and a larger divisor no larger one. */
  lemma QuotientsOrdered(a: int, b: int, d: int)
    requires a <= b && 0 < d
    ensures a / d <= b / d
  {
    var x := a / d - b / d;
    assert a == d * (a / d) + a % d && b == d * (b / d) + b % d;
    assert d * x == d * (a / d) - d * (b / d);
    assert x >= 1 ==> d * x >= d;
  }

  lemma DivisorsOrdered(a: int, b: int, c: int)
    requires 0 <= a && 0 < b <= c
    ensures 0 <= a / c <= a / b
  {
    var q, d := a / c, a / b;
    var x := q - d;
    assert a == c * q + a % c && a == b * d + a % b;
    assert 0 <= q;
    assert 0 <= (c - b) * q;
    assert b * q == b * d + b * x;
    assert x >= 1 ==> b * x >= b;
  }
}
