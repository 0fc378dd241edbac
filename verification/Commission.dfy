/**
 The platform's commission on a paid amount.
 Percentages are fractions of ten thousand, the scale of the stored column.
 */
module Commission {
  import opened Options
  import opened Rounding

  const PERCENT_SCALE := 10000

  datatype CommissionType = Percentage | Fixed

  datatype CommissionConfig = CommissionConfig(
    kind: CommissionType,
    percentage: Option<int>,
    fixedMinor: Option<int>)

  predicate ValidConfig(c: CommissionConfig) {
    && c.fixedMinor.Some? && c.fixedMinor.value >= 0
    && c.percentage.Some? && 0 <= c.percentage.value <= PERCENT_SCALE
  }

  /**
   The fee; an amount that is not positive is free of charge whatever the configuration. A percentage fee is
   the exact share to the nearest unit, a tie going up.
   */
  function PlatformFee(amount: int, c: CommissionConfig): (fee: Result<int>)
    ensures fee.Err? <==>
            amount > 0 && !(c.fixedMinor.Some? && c.fixedMinor.value >= 0
                            && c.percentage.Some? && 0 <= c.percentage.value <= 10_000)
    ensures fee.Ok? ==> 0 <= fee.value <= Max(amount, 0)
    ensures amount > 0 && fee.Ok? && c.kind == Fixed ==> fee.value == Min(c.fixedMinor.value, amount)
    ensures amount > 0 && fee.Ok? && c.kind == Percentage ==>
              -10_000 <= 2 * (amount * c.percentage.value - 10_000 * fee.value) < 10_000
  {
    if amount <= 0 then Ok(0)
    else if !ValidConfig(c) then Err(Invalid)
    else if c.kind == Fixed then Ok(Min(Max(c.fixedMinor.value, 0), amount))
    else
      ShareAtMost(amount, c.percentage.value);
      Ok(Min(Max(HalfUp(amount * c.percentage.value, PERCENT_SCALE), 0), amount))
  }

  /** Rounding a share of at most one never exceeds the whole. */
  lemma ShareAtMost(amount: nat, percentage: nat)
    requires percentage <= PERCENT_SCALE
    ensures amount * percentage >= 0
    ensures HalfUp(amount * percentage, PERCENT_SCALE) <= amount
  {
    MulMonotone(amount, percentage, PERCENT_SCALE);
    MulMonotone(amount, 0, percentage);
    HalfUpExact(amount, PERCENT_SCALE);
    HalfUpMonotone(amount * percentage, amount * PERCENT_SCALE, PERCENT_SCALE);
  }

  /**
   A percentage fee is the rounded share itself: the clamp to the amount never bites, because
   rounding a share of at most one never exceeds the whole.
   */
  lemma PercentageFee(amount: nat, c: CommissionConfig)
    requires ValidConfig(c) && c.kind == Percentage
    ensures PlatformFee(amount, c).value == HalfUp(amount * c.percentage.value, PERCENT_SCALE)
  {
    ShareAtMost(amount, c.percentage.value);
  }

  /** A larger payment never carries a smaller fee, and never leaves the provider with less. */
  lemma FeeMonotone(a: int, b: int, c: CommissionConfig)
    requires ValidConfig(c) && a <= b
    ensures PlatformFee(a, c).value <= PlatformFee(b, c).value
    ensures Max(a, 0) - PlatformFee(a, c).value <= Max(b, 0) - PlatformFee(b, c).value
  {
    if 0 < a && c.kind == Percentage {
      PercentageFee(a, c);
      PercentageFee(b, c);
      ShareGrowsSlower(a, b, c.percentage.value);
    }
  }

  lemma ShareGrowsSlower(a: nat, b: nat, p: nat)
    requires a <= b && p <= PERCENT_SCALE
    ensures 0 <= HalfUp(b * p, PERCENT_SCALE) - HalfUp(a * p, PERCENT_SCALE) <= b - a
  {
    var x, y, d := a * p, b * p, b - a;
    assert y == x + d * p;
    MulMonotone(d, p, PERCENT_SCALE);
    MulMonotone(d, 0, p);
    HalfUpMonotone(x, y, PERCENT_SCALE);
    HalfUpMonotone(y, x + d * PERCENT_SCALE, PERCENT_SCALE);
    HalfUpShift(x, d, PERCENT_SCALE);
  }
}
