/**
 Small facts of real arithmetic that the deal proofs rely on. Each keeps one
 product or quotient step on plain reals, away from the calculator's
 definitions, where the solver handles it reliably.
 */
module RealFacts {

  /** Multiplying by a non-negative factor preserves order. */
  lemma MulMonotone(x: real, a: real, b: real)
    requires x >= 0.0 && a <= b
    ensures x * a <= x * b && a * x <= b * x
  {
  }

  /** Two products by the same non-negative factor are ordered like the other factors. */
  lemma ProductsOrdered(k: real, a: real, b: real, ka: real, kb: real)
    requires k >= 0.0 && a <= b && ka == a * k && kb == b * k
    ensures ka <= kb
  {
    MulMonotone(k, a, b);
  }

  /**
   A monthly amount that is a twelfth of a yearly one, kept for a number of
   months: twelve times the total is the months times the yearly amount, a
   year of it is the yearly amount, and it is non-negative with the monthly one.
   */
  lemma MonthlyToTotal(monthly: real, months: real, yearly: real)
    requires 12.0 * monthly == yearly && months >= 0.0
    ensures 12.0 * (monthly * months) == months * yearly
    ensures months == 12.0 ==> monthly * months == yearly
    ensures monthly >= 0.0 ==> monthly * months >= 0.0
  {
    assert 12.0 * (monthly * months) == (12.0 * monthly) * months;
  }

  /**
   The cost of a non-negative principal at a non-negative periodic rate plus
   a fixed fee rate is no smaller over a longer period.
   */
  lemma CostOverLongerPeriod(principal: real, rate: real, fee: real, a: real, b: real, cost1: real, cost2: real)
    requires principal >= 0.0 && rate >= 0.0 && a <= b
    requires cost1 == principal * (rate * a + fee) && cost2 == principal * (rate * b + fee)
    ensures cost1 <= cost2
  {
    var r1, r2 := rate * a + fee, rate * b + fee;
    MulMonotone(rate, a, b);
    assert r1 <= r2;
    MulMonotone(principal, r1, r2);
  }

  /** Multiplying by a positive factor preserves strict order. */
  lemma MulStrict(x: real, a: real, b: real)
    requires x > 0.0 && a < b
    ensures x * a < x * b && a * x < b * x
  {
  }

  /** The product of two non-negative reals is non-negative. */
  lemma ProductNonNegative(a: real, b: real, product: real)
    requires a >= 0.0 && b >= 0.0 && product == a * b
    ensures product >= 0.0
  {
  }

  /** A share of a non-negative amount at a rate in [0, cap] lies between 0 and cap times the amount. */
  lemma ShareBounds(amount: real, rate: real, cap: real, share: real)
    requires amount >= 0.0 && 0.0 <= rate <= cap && share == amount * rate
    ensures 0.0 <= share <= cap * amount
  {
    MulMonotone(amount, rate, cap);
  }

  /** Cross-multiplication for ratios with positive denominators. */
  lemma DivideBoth(a: real, b: real, c: real, e: real)
    requires b > 0.0 && e > 0.0 && a * e <= c * b
    ensures a / b <= c / e
  {
    var x, y := a / b, c / e;
    assert x * b == a && y * e == c;
    assert x * (b * e) <= y * (b * e);
  }

  /** A quotient by a positive divisor has the sign of the dividend. */
  lemma QuotientSign(p: real, t: real)
    requires t > 0.0
    ensures p / t > 0.0 <==> p > 0.0
    ensures p / t == 0.0 <==> p == 0.0
    ensures p / t < 0.0 <==> p < 0.0
  {
    var q := p / t;
    assert q * t == p;
    if q > 0.0 {
      MulStrict(t, 0.0, q);
    } else if q < 0.0 {
      MulStrict(t, q, 0.0);
    }
  }

  /** A dividend at least c times a positive divisor gives a quotient of at least c. */
  lemma QuotientAtLeast(p: real, t: real, c: real)
    requires t > 0.0 && p >= c * t
    ensures p / t >= c
  {
    DivideBoth(c * t, t, p, t);
    assert (c * t) / t == c;
  }

  /** A dividend at most c times a positive divisor gives a quotient of at most c. */
  lemma QuotientAtMost(p: real, t: real, c: real)
    requires t > 0.0 && p <= c * t
    ensures p / t <= c
  {
    DivideBoth(p, t, c * t, t);
    assert (c * t) / t == c;
  }

  /**
   Moving a non-negative amount f from the profit p to the investment t
   never raises the ratio, as long as t + p is not negative.
   */
  lemma RatioShift(p: real, t: real, f: real)
    requires t > 0.0 && f >= 0.0 && t + p >= 0.0
    ensures (p - f) / (t + f) <= p / t
  {
    var loss := f * (t + p);
    ProductNonNegative(f, t + p, loss);
    assert (p - f) * t == p * t - f * t;
    assert p * (t + f) == p * t + p * f;
    assert loss == f * t + p * f;
    DivideBoth(p - f, t + f, p, t);
  }

  /** Two quantities inversely proportional to positive, strictly ordered amounts are strictly reversed. */
  lemma InverseProportionStrict(f1: real, r1: real, f2: real, r2: real, k: real)
    requires f1 > 0.0 && 0.0 < r1 < r2 && f1 * r1 == k && f2 * r2 == k
    ensures f2 < f1
  {
    if f2 >= f1 {
      MulMonotone(r2, f1, f2);
      MulStrict(f1, r1, r2);
      assert false;
    }
  }

  /** Scaling by k / h and multiplying back by h scales by k. */
  lemma ScaleByRatio(x: real, k: real, h: real)
    requires h > 0.0
    ensures x * (k / h) * h == k * x
    ensures x * (k / h) == x * k / h
  {
    var q := k / h;
    assert q * h == k;
    assert x * q * h == x * (q * h);
  }
}
