/** Rounding to cents and the platform's commission. Amounts are integer cents;
    a commission rate is an integer number of hundredths of a percent. */
module Money {

  const FULL_RATE := 10000

  function Abs(x: int): nat {
    if x < 0 then -x else x
  }

  /** n / d rounded to the nearest integer, ties away from zero (ROUND_HALF_UP). */
  function Quantize(n: int, d: int): int
    requires d > 0
  {
    if n >= 0 then (2 * n + d) / (2 * d) else -((d - 2 * n) / (2 * d))
  }

  /** What "rounded half up" means, without saying how it is computed. */
  ghost predicate RoundedHalfUp(q: int, n: int, d: int)
    requires d > 0
  {
    && 2 * Abs(d * q - n) <= d
    && (2 * Abs(d * q - n) == d ==> Abs(d * q) > Abs(n))
  }

  lemma DivisionBounds(a: int, b: int)
    requires b > 0
    ensures b * (a / b) <= a < b * (a / b) + b
  {
  }

  lemma QuantizeRounds(n: int, d: int)
    requires d > 0
    ensures RoundedHalfUp(Quantize(n, d), n, d)
  {
    var q := Quantize(n, d);
    if n >= 0 {
      DivisionBounds(2 * n + d, 2 * d);
      assert 2 * d * q == 2 * (d * q);
    } else {
      var p := (d - 2 * n) / (2 * d);
      DivisionBounds(d - 2 * n, 2 * d);
      assert 2 * d * p == 2 * (d * p);
      assert d * q == -(d * p);
    }
  }

  /** Rounding half up determines the result. */
  lemma QuantizeUnique(q: int, n: int, d: int)
    requires d > 0 && RoundedHalfUp(q, n, d)
    ensures q == Quantize(n, d)
  {
    var r := Quantize(n, d);
    QuantizeRounds(n, d);
    if q < r {
      Spread(q, r, d);
    } else if r < q {
      Spread(r, q, d);
    }
  }

  lemma Spread(q: int, r: int, d: int)
    requires d > 0 && q < r
    ensures d * r >= d * q + d
  {
    var k := r - q - 1;
    assert d * k >= 0;
    assert d * r == d * q + d + d * k;
  }

  lemma QuantizeMonotone(m: int, n: int, d: int)
    requires d > 0 && m <= n
    ensures Quantize(m, d) <= Quantize(n, d)
  {
    var q, r := Quantize(m, d), Quantize(n, d);
    QuantizeRounds(m, d);
    QuantizeRounds(n, d);
    if r < q {
      Spread(r, q, d);
      assert m == n;  // both round from the same half-way point
    }
  }

  /** The commission on one payment: gross * rate / 100, rounded to cents. */
  function PlatformFee(gross: int, rate: int): int {
    Quantize(gross * rate, FULL_RATE)
  }

  /** Fee and share are both non-negative, so nothing is ever charged beyond the
      gross amount, and the fee is within half a cent of the exact commission. */
  lemma FeeSplit(gross: int, rate: int)
    requires gross > 0 && 0 <= rate <= 10_000
    ensures 0 <= PlatformFee(gross, rate) <= gross
    ensures 2 * Abs(10_000 * PlatformFee(gross, rate) - gross * rate) <= 10_000
  {
    CommissionBounds(gross, rate);
    QuantizeRounds(gross * rate, FULL_RATE);
    NearestWithin(PlatformFee(gross, rate), gross * rate, gross);
  }

  lemma CommissionBounds(gross: int, rate: int)
    requires gross > 0 && 0 <= rate <= FULL_RATE
    ensures 0 <= gross * rate <= FULL_RATE * gross
  {
    assert gross * (FULL_RATE - rate) >= 0;
  }

  /** The nearest cent to a commission between nothing and everything is between them too. */
  lemma NearestWithin(fee: int, exact: int, gross: int)
    requires 0 <= exact <= FULL_RATE * gross && 2 * Abs(FULL_RATE * fee - exact) <= FULL_RATE
    requires 2 * Abs(FULL_RATE * fee - exact) == FULL_RATE ==> Abs(FULL_RATE * fee) > Abs(exact)
    ensures 0 <= fee <= gross
  {
  }

  lemma FeeMonotone(gross: int, rate: int, gross': int, rate': int)
    requires 0 < gross <= gross' && 0 <= rate <= rate' <= FULL_RATE
    ensures PlatformFee(gross, rate) <= PlatformFee(gross', rate')
  {
    assert gross * rate <= gross' * rate' by {
      assert gross' * rate' - gross * rate == gross' * (rate' - rate) + (gross' - gross) * rate;
      assert gross' * (rate' - rate) >= 0 && (gross' - gross) * rate >= 0;
    }
    QuantizeMonotone(gross * rate, gross' * rate', FULL_RATE);
  }

  datatype Sale = Sale(gross: int, rate: int)

  function FeesCharged(sales: seq<Sale>): int {
    if |sales| == 0 then 0
    else FeesCharged(sales[..|sales| - 1]) + PlatformFee(sales[|sales| - 1].gross, sales[|sales| - 1].rate)
  }

  /** The exact commission, in units of 1/10000 cent. */
  function ExactFees(sales: seq<Sale>): int {
    if |sales| == 0 then 0
    else ExactFees(sales[..|sales| - 1]) + sales[|sales| - 1].gross * sales[|sales| - 1].rate
  }

  /** Rounding each of n payments moves the total by at most n / 2 cents,
      whatever sequence of rates was in force. */
  lemma {:induction false} FeesDrift(sales: seq<Sale>)
    requires forall i :: 0 <= i < |sales| ==> sales[i].gross > 0 && 0 <= sales[i].rate <= FULL_RATE
    ensures 2 * Abs(FULL_RATE * FeesCharged(sales) - ExactFees(sales)) <= FULL_RATE * |sales|
  {
    if |sales| > 0 {
      var n := |sales| - 1;
      FeesDrift(sales[..n]);
      FeeSplit(sales[n].gross, sales[n].rate);
    }
  }
}
