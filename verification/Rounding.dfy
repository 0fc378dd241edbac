/**
 Half-up rounding of a non-negative quotient to a whole minor unit, and minima and maxima.
 */
module Rounding {

  function Min(a: int, b: int): int {
    if a <= b then a else b
  }

  function Max(a: int, b: int): int {
    if a >= b then a else b
  }

  /** `n / d` rounded to the nearest whole number, a tie going up. */
  function HalfUp(n: nat, d: nat): (r: nat)
    requires d > 0
    ensures 2 * d * r <= 2 * n + d < 2 * d * (r + 1)
  {
    var q := (2 * n + d) / (2 * d);
    QuotientBounds(2 * n + d, 2 * d);
    q
  }

  lemma QuotientBounds(x: nat, y: nat)
    requires y > 0
    ensures 0 <= x / y
    ensures y * (x / y) <= x < y * (x / y + 1)
  {
    var q, m := x / y, x % y;
    assert x == y * q + m;
    assert y * (q + 1) == y * q + y;
  }

  lemma Distribute(k: int, a: int, b: int)
    ensures k * (a + b) == k * a + k * b
  {
  }

  lemma MulMonotone(k: nat, a: int, b: int)
    ensures a <= b ==> k * a <= k * b
  {
    if a <= b {
      assert k * b == k * a + k * (b - a);
    }
  }

  lemma MulStrict(k: nat, a: int, b: int)
    requires k > 0 && k * a < k * b
    ensures a < b
  {
    MulMonotone(k, b, a);
  }

  /** The two inequalities of `HalfUp` leave no other answer. */
  lemma HalfUpUnique(n: nat, d: nat, r: int)
    requires d > 0
    requires 2 * d * r <= 2 * n + d < 2 * d * (r + 1)
    ensures r == HalfUp(n, d)
  {
    var s := HalfUp(n, d);
    MulStrict(2 * d, r, s + 1);
    MulStrict(2 * d, s, r + 1);
  }

  lemma HalfUpExact(k: nat, d: nat)
    requires d > 0
    ensures HalfUp(k * d, d) == k
  {
    assert 2 * d * k == 2 * (k * d);
    assert 2 * d * (k + 1) == 2 * (k * d) + 2 * d;
    HalfUpUnique(k * d, d, k);
  }

  lemma HalfUpMonotone(n: nat, m: nat, d: nat)
    requires d > 0 && n <= m
    ensures HalfUp(n, d) <= HalfUp(m, d)
  {
    var r, s := HalfUp(n, d), HalfUp(m, d);
    MulStrict(2 * d, r, s + 1);
  }

  /** Whole units pass through rounding unchanged. */
  lemma HalfUpShift(n: nat, k: nat, d: nat)
    requires d > 0
    ensures HalfUp(n + k * d, d) == HalfUp(n, d) + k
  {
    var r := HalfUp(n, d);
    assert 2 * d * (r + k) == 2 * d * r + 2 * (k * d);
    assert 2 * d * (r + k + 1) == 2 * d * (r + 1) + 2 * (k * d);
    HalfUpUnique(n + k * d, d, r + k);
  }
}
