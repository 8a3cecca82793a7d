/** Real-number helpers: minimum, rounding and powers. */
module Numeric {

  function MinReal(a: real, b: real): real { if a <= b then a else b }

  function MinInt(a: int, b: int): int { if a <= b then a else b }

  /** `round(x, 2)` on exact reals: to the nearest cent, halves rounded up. */
  function Round2(x: real): (r: real)
    ensures x - 0.005 < r <= x + 0.005
  {
    (x * 100.0 + 0.5).Floor as real / 100.0
  }

  /** `round(x, 3)` on exact reals: to the nearest thousandth, halves rounded up. */
  function Round3(x: real): (r: real)
    ensures x - 0.0005 < r <= x + 0.0005
  {
    (x * 1000.0 + 0.5).Floor as real / 1000.0
  }

  /** Two amounts at least a cent apart stay strictly ordered after rounding. */
  lemma Round2Separates(x: real, y: real)
    requires x + 0.01 <= y
    ensures Round2(x) < Round2(y)
  {
    var a, b := (x * 100.0 + 0.5).Floor, (y * 100.0 + 0.5).Floor;
    assert a as real <= x * 100.0 + 0.5 <= y * 100.0 + 0.5 - 1.0 < b as real;
  }

  /** A ratio whose numerator is at least its positive denominator is at least one. */
  lemma RatioAtLeastOne(a: real, b: real)
    requires b > 0.0
    ensures a >= b ==> a / b >= 1.0
  {
    var q := a / b;
    assert q * b == a;
    assert (q - 1.0) * b == a - b;
  }

  /** Dividing by a positive number keeps the order. */
  lemma RatioMonotone(a: real, b: real, c: real)
    requires c > 0.0 && a <= b
    ensures a / c <= b / c
  {
    var qa, qb := a / c, b / c;
    assert qa * c == a && qb * c == b;
    assert (qb - qa) * c == b - a;
  }

  /** `b ** n` for a natural exponent. */
  function Pow(b: real, n: nat): real
  {
    if n == 0 then 1.0 else b * Pow(b, n - 1)
  }

  lemma {:induction false} PowAtLeastOne(b: real, n: nat)
    requires b >= 1.0
    ensures Pow(b, n) >= 1.0
  {
    if n > 0 {
      PowAtLeastOne(b, n - 1);
      MulAtLeast(b, Pow(b, n - 1), 1.0);
    }
  }

  /** For a factor of at least one, `a * c >= c` and so `a * c >= lo` when `c >= lo`. */
  lemma MulAtLeast(a: real, c: real, lo: real)
    requires a >= 1.0 && c >= lo && lo >= 0.0
    ensures a * c >= lo
  {
    assert a * c - c == (a - 1.0) * c;
    assert (a - 1.0) * c >= 0.0;
  }
}
