/** The delay before an activity's next attempt. */
module Backoff {
  import opened Store

  const TWO_63: int := 0x8000_0000_0000_0000

  /** math.Pow on exact reals. */
  function Pow(c: real, n: nat): real
  {
    if n == 0 then 1.0 else Pow(c, n - 1) * c
  }

  /** A float64 to int64 conversion in range: towards zero. */
  function Truncate(x: real): int
  {
    if x >= 0.0 then x.Floor else -((-x).Floor)
  }

  predicate IsInt64(x: int)
  {
    -TWO_63 <= x < TWO_63
  }

  /** The conversion as Go defines it: out of range it is whatever int64 value the
      platform gives. */
  function ToInt64(x: real, platform: int): int
  {
    if IsInt64(Truncate(x)) then Truncate(x) else platform
  }

  /** The product of two int64 values, as the machine keeps it. */
  function Wrap64(x: int): int
  {
    (x + TWO_63) % (2 * TWO_63) - TWO_63
  }

  function Power(row: ActivityTask): real
  {
    Pow(row.coefficient, if row.attempt >= 1 then row.attempt - 1 else 0)
  }

  /** The product initial interval * truncated power, without any overflow. */
  function Ideal(row: ActivityTask): int
  {
    row.initialInterval * Truncate(Power(row))
  }

  function Delay(row: ActivityTask, platform: int): int
  {
    var backoff := Wrap64(row.initialInterval * ToInt64(Power(row), platform));
    if row.maxInterval > 0 && backoff > row.maxInterval then row.maxInterval else backoff
  }

  lemma DelayWithinMaximum(row: ActivityTask, platform: int)
    requires row.maxInterval > 0
    ensures Delay(row, platform) <= row.maxInterval
  {
  }

  lemma {:induction false} PowGrows(c: real, m: nat, n: nat)
    requires c >= 1.0 && m <= n
    ensures 1.0 <= Pow(c, m) <= Pow(c, n)
    decreases n
  {
    if m < n {
      PowGrows(c, m, n - 1);
      ProductGrows(Pow(c, n - 1), c);
    } else if m > 0 {
      PowGrows(c, m - 1, n - 1);
      ProductGrows(Pow(c, m - 1), c);
    }
  }

  lemma ProductGrows(x: real, c: real)
    requires x >= 1.0 && c >= 1.0
    ensures x * c >= x
  {
    assert x * (c - 1.0) >= 0.0;
  }

  lemma IdealGrows(row: ActivityTask, later: ActivityTask)
    requires 1 <= row.attempt <= later.attempt && later == row.(attempt := later.attempt)
    requires row.coefficient >= 1.0 && row.initialInterval >= 0
    ensures 0 <= Ideal(row) <= Ideal(later)
  {
    hide Pow;
    var a, b := Power(row), Power(later);
    PowGrows(row.coefficient, row.attempt - 1, later.attempt - 1);
    ScaleGrows(row.initialInterval, Truncate(a), Truncate(b));
  }

  lemma WrapInRange(x: int)
    requires -TWO_63 <= x < TWO_63
    ensures Wrap64(x) == x
  {
  }

  /** If the product fits 64 bits, so does the power, unless the product is zero
      whatever the power. */
  lemma PowerFits(row: ActivityTask)
    requires row.attempt >= 1 && row.coefficient >= 1.0 && row.initialInterval >= 0
    ensures Truncate(Power(row)) >= 1
    ensures Ideal(row) < TWO_63 && row.initialInterval > 0 ==> Truncate(Power(row)) < TWO_63
  {
    PowGrows(row.coefficient, 0, row.attempt - 1);
    var x, k := Truncate(Power(row)), row.initialInterval;
    hide Power, Truncate;
    if k > 0 { ScaleGrows(x, 1, k); }
  }

  /** Without overflow the delay does not depend on the platform. */
  lemma DelayInRange(row: ActivityTask, platform: int)
    requires row.attempt >= 1 && row.coefficient >= 1.0 && row.initialInterval >= 0 && Ideal(row) < TWO_63
    ensures Delay(row, platform) == Capped(row)
  {
    PowerFits(row);
    IdealGrows(row, row);
    hide Power, Truncate, Wrap64;
    WrapInRange(Ideal(row));
  }

  /** For coefficient at least 1 and no overflow, later attempts wait no less. */
  lemma DelayNeverShrinks(row: ActivityTask, later: ActivityTask, platform: int)
    requires 1 <= row.attempt <= later.attempt && later == row.(attempt := later.attempt)
    requires row.coefficient >= 1.0 && row.initialInterval >= 0
    requires Ideal(later) < TWO_63
    ensures 0 <= Delay(row, platform) <= Delay(later, platform)
  {
    hide Ideal, Delay;
    IdealGrows(row, later);
    DelayInRange(row, platform);
    DelayInRange(later, platform);
  }

  /** The exponential backoff, cut at a positive maximum. */
  function Capped(row: ActivityTask): int
  {
    if row.maxInterval > 0 && Ideal(row) > row.maxInterval then row.maxInterval else Ideal(row)
  }

  /** The delay is the capped backoff on every platform exactly when the initial
      interval is zero, or the power fits 64 bits and the product does too or wraps
      round to something the maximum cuts off anyway. */
  lemma DelayIsCappedIff(row: ActivityTask)
    requires row.attempt >= 1 && row.coefficient >= 1.0 && row.initialInterval >= 0 && row.maxInterval < TWO_63
    ensures (forall platform :: IsInt64(platform) ==> Delay(row, platform) == Capped(row)) <==>
      || row.initialInterval == 0
      || (Truncate(Power(row)) < TWO_63 && (Ideal(row) < TWO_63 || 0 < row.maxInterval <= Wrap64(Ideal(row))))
  {
    PowerFits(row);
    IdealGrows(row, row);
    if Truncate(Power(row)) < TWO_63 {
      RepresentablePower(row);
    } else if row.initialInterval == 0 {
      forall platform ensures Delay(row, platform) == Capped(row) { ZeroInterval(row, platform); }
    } else {
      ScaleGrows(Truncate(Power(row)), 1, row.initialInterval);
      ZeroPlatform(row);
    }
  }

  /** With a representable power the platform plays no part. */
  lemma RepresentablePower(row: ActivityTask)
    requires 0 <= Truncate(Power(row)) < TWO_63 && 0 <= Ideal(row) && row.maxInterval < TWO_63
    ensures forall platform :: Delay(row, platform) == Delay(row, 0)
    ensures Delay(row, 0) == Capped(row) <==> Ideal(row) < TWO_63 || 0 < row.maxInterval <= Wrap64(Ideal(row))
    ensures IsInt64(0) && (row.initialInterval == 0 ==> Ideal(row) == 0)
  {
    hide Power, Truncate;
    if Ideal(row) < TWO_63 { WrapInRange(Ideal(row)); } else { WrapBounded(Ideal(row)); }
  }

  lemma ZeroInterval(row: ActivityTask, platform: int)
    requires row.initialInterval == 0
    ensures Delay(row, platform) == Capped(row)
  {
    hide Power, Truncate;
  }

  /** A platform that converts to zero shows the difference. */
  lemma ZeroPlatform(row: ActivityTask)
    requires Truncate(Power(row)) >= TWO_63 && Ideal(row) >= TWO_63 && row.maxInterval < TWO_63
    ensures IsInt64(0) && Delay(row, 0) != Capped(row)
  {
    hide Power, Truncate;
  }

  lemma WrapBounded(x: int)
    ensures -TWO_63 <= Wrap64(x) < TWO_63
  {
  }

  lemma ScaleGrows(k: int, x: int, y: int)
    requires k >= 0 && 0 <= x <= y
    ensures 0 <= k * x <= k * y
  {
    assert k * (y - x) >= 0;
  }

  /** The first retry waits the initial interval, and each further attempt multiplies
      the power by the coefficient; with a coefficient of 2 the backoff doubles. */
  lemma BackoffGrowsByCoefficient(row: ActivityTask)
    requires row.attempt >= 1
    ensures Power(row.(attempt := 1)) == 1.0 && Ideal(row.(attempt := 1)) == row.initialInterval
    ensures Power(row.(attempt := row.attempt + 1)) == Power(row) * row.coefficient
    ensures row.coefficient == 2.0 ==> Ideal(row.(attempt := row.attempt + 1)) == 2 * Ideal(row)
  {
    if row.coefficient == 2.0 { WholePowers(row.attempt - 1); }
  }

  lemma {:induction false} WholePowers(n: nat)
    ensures Pow(2.0, n) >= 1.0 && Pow(2.0, n) == Pow(2.0, n).Floor as real
    ensures Pow(2.0, n + 1).Floor == 2 * Pow(2.0, n).Floor
  {
    if n > 0 { WholePowers(n - 1); }
    assert Pow(2.0, n + 1) == Pow(2.0, n) * 2.0;
    assert Pow(2.0, n + 1) == (2 * Pow(2.0, n).Floor) as real;
  }

  /** Without the overflow condition a delay may even be negative: one second
      doubled 34 times wraps below zero, so the retry is visible at once. */
  lemma OverflowedDelayIsNegative(row: ActivityTask, platform: int)
    requires row.initialInterval == SECOND && row.coefficient == 2.0 && row.attempt == 35
    ensures Delay(row, platform) < 0
  {
    PowersOfTwo();
    assert Power(row) == 17179869184.0;
    assert Truncate(Power(row)) == 17179869184;
    assert Ideal(row) == 17179869184 * SECOND;
  }

  lemma PowersOfTwo()
    ensures Pow(2.0, 34) == 17179869184.0
  {
    PowAdds(2.0, 17, 17);
    PowAdds(2.0, 8, 9);
    PowAdds(2.0, 4, 4);
    PowAdds(2.0, 4, 5);
    PowAdds(2.0, 2, 2);
    PowAdds(2.0, 2, 3);
    assert Pow(2.0, 1) == 2.0;
    assert Pow(2.0, 2) == 4.0;
    assert Pow(2.0, 3) == 8.0;
    assert Pow(2.0, 4) == 16.0;
    assert Pow(2.0, 5) == 32.0;
    assert Pow(2.0, 8) == 256.0;
    assert Pow(2.0, 9) == 512.0;
    assert Pow(2.0, 17) == 131072.0;
  }

  lemma {:induction false} PowAdds(c: real, m: nat, n: nat)
    ensures Pow(c, m + n) == Pow(c, m) * Pow(c, n)
  {
    if n > 0 { PowAdds(c, m, n - 1); }
  }
}
