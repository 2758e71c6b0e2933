/**
  Exact model of JavaScript's `Math.round` applied to a rational `n / d`.

  `Math.round(x)` returns the integer nearest to `x`, breaking ties towards
  positive infinity; on exact rationals that is `floor(x + 1/2)`. Every
  rounded quantity of the dashboard is a rational `n / d` with integer `n`
  and positive integer `d`: an integer times an occupancy of tenths, a fee
  of percent or the OTA rate of 155/1000, or a ledger amount times 100 over
  the revenue. It is written here as `RoundDiv(n, d)`.
 */
module Rounding {

  /** The integer nearest to `n / d`, with halves rounded up (towards +∞). */
  function RoundDiv(n: int, d: int): (r: int)
    requires d > 0
    ensures d * (2 * r - 1) <= 2 * n < d * (2 * r + 1)
  {
    var q := (2 * n + d) / (2 * d);
    var m := (2 * n + d) % (2 * d);
    assert 2 * n + d == 2 * d * q + m && 0 <= m < 2 * d;
    q
  }

  /**
    The rounded share `rate / denominator` of `base`: what `Math.round(base * r)`
    gives for a decimal rate `r`. A share of a non-negative base at a rate
    between 0 and 1 lies between 0 and the base.
   */
  function Share(base: int, rate: int, denominator: int): (r: int)
    requires denominator > 0
    ensures denominator * (2 * r - 1) <= 2 * (base * rate) < denominator * (2 * r + 1)
    ensures base >= 0 && rate >= 0 ==> 0 <= r
    ensures base >= 0 && 0 <= rate <= denominator ==> r <= base
    ensures rate == 0 ==> r == 0
    ensures rate == denominator ==> r == base
  {
    ShareBounded(base, rate, denominator);
    RoundDiv(base * rate, denominator)
  }

  /** The characterisation in the contract of `Share` admits exactly one integer. */
  lemma ShareUnique(base: int, rate: int, denominator: int, r: int)
    requires denominator > 0
    requires denominator * (2 * r - 1) <= 2 * (base * rate) < denominator * (2 * r + 1)
    ensures Share(base, rate, denominator) == r
  {
    RoundDivUnique(base * rate, denominator, r);
  }

  lemma ShareBounded(base: int, rate: int, denominator: int)
    requires denominator > 0
    ensures base >= 0 && rate >= 0 ==> RoundDiv(base * rate, denominator) >= 0
    ensures base >= 0 && 0 <= rate <= denominator ==> RoundDiv(base * rate, denominator) <= base
    ensures rate == 0 ==> RoundDiv(base * rate, denominator) == 0
    ensures rate == denominator ==> RoundDiv(base * rate, denominator) == base
  {
    if base >= 0 && rate >= 0 {
      RoundDivNonNegative(base * rate, denominator);
      if rate <= denominator {
        if base > 0 { MulMonotone(base, rate, denominator); }
        RoundDivAtMost(base * rate, denominator, base);
      }
    }
    if rate == 0 {
      assert base * rate == denominator * 0;
      RoundDivExact(0, denominator);
    }
    if rate == denominator {
      assert base * rate == denominator * base;
      RoundDivExact(base, denominator);
    }
  }

  /** The characterisation in the contract of `RoundDiv` admits exactly one integer. */
  lemma RoundDivUnique(n: int, d: int, r: int)
    requires d > 0
    requires d * (2 * r - 1) <= 2 * n < d * (2 * r + 1)
    ensures RoundDiv(n, d) == r
  {
    var q := RoundDiv(n, d);
    if q < r {
      // d * (2q + 1) <= d * (2r - 1) because 2q + 1 <= 2r - 1
      MulMonotone(d, 2 * q + 1, 2 * r - 1);
      assert false;
    } else if q > r {
      MulMonotone(d, 2 * r + 1, 2 * q - 1);
      assert false;
    }
  }

  /** Rounding a non-negative value never produces a negative integer. */
  lemma RoundDivNonNegative(n: int, d: int)
    requires d > 0 && n >= 0
    ensures RoundDiv(n, d) >= 0
  {
    var r := RoundDiv(n, d);
    if r < 0 {
      MulMonotone(d, 2 * r + 1, -1);
      assert false;
    }
  }

  /** Rounding `n / d` where `n <= d * k` never exceeds `k`. */
  lemma RoundDivAtMost(n: int, d: int, k: int)
    requires d > 0 && n <= d * k
    ensures RoundDiv(n, d) <= k
  {
    var r := RoundDiv(n, d);
    if r > k {
      MulMonotone(d, 2 * k + 1, 2 * r - 1);
      assert false;
    }
  }

  /** An exact quotient rounds to itself. */
  lemma RoundDivExact(k: int, d: int)
    requires d > 0
    ensures RoundDiv(d * k, d) == k
  {
    RoundDivUnique(d * k, d, k);
  }

  lemma MulMonotone(d: int, a: int, b: int)
    requires d > 0 && a <= b
    ensures d * a <= d * b
  {
    assert d * b - d * a == d * (b - a);
  }
}
