/**
 * The C# arithmetic the game scripts rely on, written out over Dafny's
 * unbounded `int` and `real`: the `(int)` cast of a float (truncation toward
 * zero), integer division `/` (also truncating toward zero), and
 * `System.Random.Next(min, max)` driven by one explicit unit sample.
 */
module Numeric {

  /** One value of `System.Random.Sample()` / `NextDouble()`: a real in [0, 1). */
  type Sample = u: real | 0.0 <= u < 1.0

  /** The C# cast `(int)x` of a floating value: truncation toward zero. */
  function Trunc(x: real): (n: int)
    ensures 0.0 <= x ==> 0 <= n && n as real <= x < n as real + 1.0
    ensures x < 0.0 ==> n <= 0 && n as real - 1.0 < x <= n as real
  {
    if x >= 0.0 then x.Floor else -((-x).Floor)
  }

  /** Truncation never reverses the order of two values. */
  lemma TruncMonotone(x: real, y: real)
    requires x <= y
    ensures Trunc(x) <= Trunc(y)
  {
  }

  /** C# integer division `a / b` for a positive divisor: the quotient is
      truncated toward zero, so the remainder takes the sign of `a`. */
  function TruncDiv(a: int, b: int): (q: int)
    requires b > 0
    ensures 0 <= a ==> 0 <= q && 0 <= a - q * b < b
    ensures a < 0 ==> q <= 0 && -b < a - q * b <= 0
  {
    if a >= 0 then
      FloorDivBounds(a, b);
      a / b
    else
      FloorDivBounds(-a, b);
      NegatedProduct((-a) / b, b);
      -((-a) / b)
  }

  /** Euclidean and truncating division agree on a non-negative dividend. */
  lemma FloorDivBounds(a: int, b: int)
    requires 0 <= a && 0 < b
    ensures 0 <= a / b && 0 <= a - (a / b) * b < b
  {
    assert a == (a / b) * b + a % b;
  }

  lemma NegatedProduct(x: int, y: int)
    ensures (-x) * y == -(x * y)
  {
  }

  lemma NonNegativeProduct(a: real, b: real)
    requires 0.0 <= a && 0.0 <= b
    ensures 0.0 <= a * b
  {
  }

  lemma MulMonotone(x: real, y: real, c: real)
    requires x <= y && 0.0 <= c
    ensures x * c <= y * c
  {
    NonNegativeProduct(y - x, c);
    assert (y - x) * c == y * c - x * c;
  }

  /** Dividing by a non-zero span and multiplying back gives the original. */
  lemma DivMul(a: real, b: real)
    requires b != 0.0
    ensures (a / b) * b == a
  {
  }

  /** A sample times a span: strictly short of the span and on its side of
      0. Callers reason about this term rather than about the product, so
      the bounds are proved once, over plain parameters. */
  function ScaledSample(s: Sample, d: real): (p: real)
    ensures 0.0 < d ==> 0.0 <= p < d
    ensures d < 0.0 ==> d < p <= 0.0
    ensures d == 0.0 ==> p == 0.0
  {
    if d == 0.0 then 0.0
    else if 0.0 < d then
      ScaledPositiveSpan(s, d);
      s * d
    else
      ScaledNegativeSpan(s, d);
      s * d
  }

  lemma ScaledPositiveSpan(s: Sample, d: real)
    requires 0.0 < d
    ensures 0.0 <= s * d < d
  {
    assert d - s * d == (1.0 - s) * d;
  }

  lemma ScaledNegativeSpan(s: Sample, d: real)
    requires d < 0.0
    ensures d < s * d <= 0.0
  {
    assert s * d - d == (1.0 - s) * (-d);
    assert s * d == -(s * (-d));
  }

  /** `System.Random.Next(minValue, maxValue)` given the sample it consumes:
      `(int)(Sample() * (maxValue - minValue)) + minValue`. The call throws when
      `minValue > maxValue`, hence the precondition. */
  function Next(minValue: int, maxValue: int, s: Sample): (v: int)
    requires minValue <= maxValue
    ensures minValue == maxValue ==> v == minValue
    ensures minValue < maxValue ==> minValue <= v < maxValue
  {
    Trunc(ScaledSample(s, (maxValue - minValue) as real)) + minValue
  }
}
