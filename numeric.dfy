/**
 * Arithmetic helpers shared by the estimator and the calculators: Python's
 * `min`/`max`, `int(x)` on a float (truncation toward zero), the percentage
 * `int(p * 100)` and the independent-event union of two probabilities.
 */
module Numeric {

  function Min(a: int, b: int): (m: int)
    ensures m <= a && m <= b && (m == a || m == b)
  {
    if a <= b then a else b
  }

  function Max(a: int, b: int): (m: int)
    ensures m >= a && m >= b && (m == a || m == b)
  {
    if a >= b then a else b
  }

  function RealMin(a: real, b: real): (m: real)
    ensures m <= a && m <= b && (m == a || m == b)
  {
    if a <= b then a else b
  }

  function RealMax(a: real, b: real): (m: real)
    ensures m >= a && m >= b && (m == a || m == b)
  {
    if a >= b then a else b
  }

  /** Python's `int(x)` on a float: the integer part, rounding toward zero. */
  function TruncToInt(x: real): (n: int)
    ensures x >= 0.0 ==> 0 <= n && n as real <= x < n as real + 1.0
    ensures x < 0.0 ==> n <= 0 && n as real - 1.0 < x <= n as real
  {
    if x >= 0.0 then x.Floor else -((-x).Floor)
  }

  /** The whole-number percentage `int(p * 100)` reported for a probability. */
  function Percent(p: real): (n: int)
    ensures 0.0 <= p <= 1.0 ==> 0 <= n <= 100
    ensures 0.0 <= p ==> n as real <= p * 100.0 < n as real + 1.0
  {
    TruncToInt(p * 100.0)
  }

  lemma PercentMonotone(p: real, q: real)
    requires 0.0 <= p <= q
    ensures Percent(p) <= Percent(q)
  {
  }

  /**
   * Probability that at least one of two independent layers succeeds, in the
   * product-complement form `1 - (1 - p)(1 - q)`; it agrees with the
   * "first succeeds, or first fails and second succeeds" form.
   */
  function Union2(p: real, q: real): (r: real)
    ensures r == p + (1.0 - p) * q
  {
    1.0 - (1.0 - p) * (1.0 - q)
  }

  /** The product-complement expression is the union. */
  lemma UnionForm(p: real, q: real)
    ensures 1.0 - (1.0 - p) * (1.0 - q) == Union2(p, q)
  {
  }

  /** The union of two probabilities is a probability at least as large as each. */
  lemma Union2Bounds(p: real, q: real)
    requires 0.0 <= p <= 1.0 && 0.0 <= q <= 1.0
    ensures p <= Union2(p, q) <= 1.0 && q <= Union2(p, q)
  {
    ProductBelowFactors(1.0 - p, 1.0 - q);
  }

  /** Rounded to a whole percentage, the union still dominates each layer and stays within 100. */
  lemma Union2Percent(p: real, q: real)
    requires 0.0 <= p <= 1.0 && 0.0 <= q <= 1.0
    ensures Percent(p) <= Percent(Union2(p, q)) <= 100 && Percent(q) <= Percent(Union2(p, q))
  {
    Union2Bounds(p, q);
    PercentMonotone(p, Union2(p, q));
    PercentMonotone(q, Union2(p, q));
  }

  /** For factors in [0, 1], a product is no larger than either factor. */
  lemma ProductBelowFactors(a: real, b: real)
    requires 0.0 <= a <= 1.0 && 0.0 <= b <= 1.0
    ensures 0.0 <= a * b <= a && a * b <= b
  {
    assert a * b <= 1.0 * b by {
      assert (1.0 - a) * b >= 0.0;
    }
    assert a * b <= a * 1.0 by {
      assert a * (1.0 - b) >= 0.0;
    }
  }

  /** The product of two factors in [0, 1], which is no larger than either. */
  function Product(a: real, b: real): (r: real)
    requires 0.0 <= a <= 1.0 && 0.0 <= b <= 1.0
    ensures 0.0 <= r <= a && r <= b
  {
    var r := a * b;
    ProductBelowFactors(a, b);
    assert r <= a && r <= b;
    r
  }

  /** The union of three independent layers, `1 - (1 - p)(1 - q)(1 - r)`. */
  function Union3(p: real, q: real, r: real): real
  {
    1.0 - (1.0 - p) * (1.0 - q) * (1.0 - r)
  }

  /** Three layers combine like the first two combined, then with the third. */
  lemma Union3Bounds(p: real, q: real, r: real)
    requires 0.0 <= p <= 1.0 && 0.0 <= q <= 1.0 && 0.0 <= r <= 1.0
    ensures Union3(p, q, r) == Union2(Union2(p, q), r)
    ensures p <= Union3(p, q, r) <= 1.0 && q <= Union3(p, q, r) && r <= Union3(p, q, r)
  {
    var pq := Union2(p, q);
    Union2Bounds(p, q);
    Union2Bounds(pq, r);
    assert Union3(p, q, r) == Union2(pq, r);
  }

  /** Rounded to whole percentages, the three-layer union dominates each layer and stays within 100. */
  lemma Union3Percent(p: real, q: real, r: real)
    requires 0.0 <= p <= 1.0 && 0.0 <= q <= 1.0 && 0.0 <= r <= 1.0
    ensures Percent(p) <= Percent(Union3(p, q, r)) <= 100
    ensures Percent(q) <= Percent(Union3(p, q, r)) && Percent(r) <= Percent(Union3(p, q, r))
  {
    Union3Bounds(p, q, r);
    PercentMonotone(p, Union3(p, q, r));
    PercentMonotone(q, Union3(p, q, r));
    PercentMonotone(r, Union3(p, q, r));
  }
}
