/**
  Exact rational arithmetic shared by the metrics and the aggregation: count
  ratios with a count-or-1 denominator, and the F1 mean of ROUGE-L. Each
  non-linear step is a lemma of its own, so that callers reason linearly.
*/
module Ratios {

  /** `k / (n || 1)` for counts. */
  function Ratio(k: nat, n: nat): real
  {
    k as real / (if n == 0 then 1 else n) as real
  }

  lemma RatioBounds(k: nat, n: nat)
    requires k <= n
    ensures 0.0 <= Ratio(k, n) <= 1.0
  {
    if n > 0 {
      DivAtMostOne(k as real, n as real);
    }
  }

  lemma RatioOne(k: nat, n: nat)
    requires n > 0
    ensures Ratio(k, n) == 1.0 <==> k == n
  {
    DivIsOne(k as real, n as real);
  }

  lemma RatioPositive(k: nat, n: nat)
    requires k > 0
    ensures Ratio(k, n) > 0.0
  {
    DivPositive(k as real, (if n == 0 then 1 else n) as real);
  }

  /** The ROUGE-L F1 combination: 0 when precision and recall are both 0. */
  function F1(p: real, r: real): real
  {
    if p + r == 0.0 then 0.0 else 2.0 * p * r / (p + r)
  }

  lemma F1Nonzero(p: real, r: real)
    requires p + r != 0.0
    ensures F1(p, r) == (2.0 * p * r) / (p + r)
  {
  }

  lemma F1Bounds(p: real, r: real)
    requires 0.0 <= p <= 1.0 && 0.0 <= r <= 1.0
    ensures 0.0 <= F1(p, r) <= 1.0
  {
    if p + r != 0.0 {
      TwiceProductAtMostSum(p, r);
      DivAtMostOne(2.0 * p * r, p + r);
    }
  }

  lemma F1Positive(p: real, r: real)
    requires p > 0.0 && r > 0.0
    ensures F1(p, r) > 0.0
  {
    ProductPositive(p, r);
    Twice(p, r);
    DivPositive(2.0 * p * r, p + r);
  }

  /** With count-or-1 denominators, the F1 of two ratios of `k` vanishes exactly when `k` does. */
  lemma F1RatiosZeroIff(k: nat, m: nat, n: nat)
    ensures F1(Ratio(k, m), Ratio(k, n)) == 0.0 <==> k == 0
  {
    if k == 0 {
      assert Ratio(k, m) == 0.0 && Ratio(k, n) == 0.0;
    } else {
      RatioPositive(k, m);
      RatioPositive(k, n);
      F1Positive(Ratio(k, m), Ratio(k, n));
    }
  }

  lemma F1Symmetric(p: real, r: real)
    ensures F1(p, r) == F1(r, p)
  {
    Twice(p, r);
    Twice(r, p);
    Commute(p, r);
  }

  lemma TwiceProductAtMostSum(p: real, r: real)
    requires 0.0 <= p <= 1.0 && 0.0 <= r <= 1.0
    ensures 0.0 <= 2.0 * p * r <= p + r
  {
    var q := p * r;
    ProductAtMostBoth(p, r);
    assert 0.0 <= q <= p;
    assert q <= r;
    SumBound(p, r, q);
    Twice(p, r);
  }

  lemma SumBound(p: real, r: real, q: real)
    requires 0.0 <= q <= p && q <= r
    ensures 0.0 <= 2.0 * q <= p + r
  {
  }

  lemma Twice(p: real, r: real)
    ensures 2.0 * p * r == 2.0 * (p * r)
  {
  }

  lemma Commute(x: real, y: real)
    ensures x * y == y * x
  {
  }

  lemma MulNonneg(x: real, y: real)
    requires 0.0 <= x && 0.0 <= y
    ensures 0.0 <= x * y
  {
  }

  lemma ProductPositive(x: real, y: real)
    requires 0.0 < x && 0.0 < y
    ensures 0.0 < x * y
  {
  }

  /** A product of two numbers in [0, 1] is at most either of them. */
  lemma ProductAtMostBoth(x: real, y: real)
    requires 0.0 <= x <= 1.0 && 0.0 <= y <= 1.0
    ensures 0.0 <= x * y <= x && x * y <= y
  {
    MulNonneg(x, y);
    MulNonneg(x, 1.0 - y);
    MulNonneg(1.0 - x, y);
    assert x * (1.0 - y) == x - x * y;
    assert (1.0 - x) * y == y - x * y;
  }

  lemma DivAtMostOne(q: real, d: real)
    requires 0.0 <= q <= d && d > 0.0
    ensures 0.0 <= q / d <= 1.0
  {
  }

  lemma DivIsOne(q: real, d: real)
    requires d > 0.0
    ensures q / d == 1.0 <==> q == d
  {
  }

  lemma DivPositive(q: real, d: real)
    requires q > 0.0 && d > 0.0
    ensures q / d > 0.0
  {
  }
}
