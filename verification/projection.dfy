/** projection.go: compounding a base value forward at a monthly rate. */
module Compound {
  import opened GoNumeric

  /** `projection(val, numYears, monthlyGrowthRate)`: three guard returns in a
      fixed order (no years, then a zero value, then a zero rate), otherwise
      `val * (1 + rate)^(12 * numYears)` truncated toward zero. `numYears` is
      a Go `int` and may be negative, which makes the exponent negative; the
      one input for which Go's `math.Pow` yields an infinity (a negative
      exponent on a zero base) is excluded, because converting an infinity to
      `int64` has no defined result. */
  function Projection(val: int, numYears: int, rate: real): (r: int)
    requires !(numYears < 0 && val != 0 && rate == -1.0)
    // the guards, in their order of precedence
    ensures numYears == 0 ==> r == 0
    ensures numYears != 0 && val == 0 ==> r == 0
    ensures numYears != 0 && val != 0 && rate == 0.0 ==> r == val
    // the compound factor has an even exponent, so a value keeps its sign
    ensures val >= 0 ==> r >= 0
    ensures val <= 0 ==> r <= 0
    // a positive rate over at least one year never shrinks a positive value
    ensures val > 0 && rate > 0.0 && numYears >= 1 ==> r >= val
  {
    if numYears == 0 then 0
    else if val == 0 then 0
    else if rate == 0.0 then val
    else
      var periods := numYears * 12;
      var factor := IntPow(1.0 + rate, periods);
      CompoundFactor(numYears, rate);
      var result := val as real * factor;
      assert val > 0 ==> result >= 0.0;
      assert val < 0 ==> result <= 0.0;
      assert val > 0 && rate > 0.0 && numYears >= 1 ==> result >= val as real;
      Trunc(result)
  }

  /** The compound factor `(1 + rate)^(12 * numYears)` is never negative, and
      is at least one for a positive rate and a positive number of years. */
  lemma CompoundFactor(numYears: int, rate: real)
    requires numYears >= 0 || rate != -1.0
    ensures IntPow(1.0 + rate, 12 * numYears) >= 0.0
    ensures rate > 0.0 && numYears >= 1 ==> IntPow(1.0 + rate, 12 * numYears) >= 1.0
  {
    IntPowEvenNonNegative(1.0 + rate, 6 * numYears);
    assert 12 * numYears == 2 * (6 * numYears);
    if rate > 0.0 && numYears >= 1 {
      PowAtLeastOne(1.0 + rate, 12 * numYears);
    }
  }

  /** Zero years gives zero even for a zero rate: `projection(v, 0, 0) == 0`,
      not `v`, because the year guard comes first. */
  lemma ZeroYearsWinsOverZeroRate(val: int)
    ensures Projection(val, 0, 0.0) == 0
  {}

  /** One year at ten percent a month takes 1000 to 3138: the compound
      factor is 1.1^12 = 3.138428376721 and the fraction is dropped. */
  lemma OneYearAtTenPercent()
    ensures Projection(1000, 1, 0.1) == 3138
  {
    assert Trunc(3138.428376721) == 3138;
  }
}
