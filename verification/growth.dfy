/** growth.go: the naive month-over-month and first-to-last growth figures.
    Both are modelled as the code computes them, with Go's integer division. */
module Growth {
  import opened Common
  import opened GoNumeric

  /** The first position in `metrics` whose date is `t`, or `|metrics|` when
      no sample carries that date. */
  function FirstIndexOf(metrics: seq<DailyMetric>, t: Date): (r: nat)
    ensures r <= |metrics|
    ensures r < |metrics| ==> metrics[r].Date == t
    ensures forall j :: 0 <= j < r ==> metrics[j].Date != t
  {
    if metrics == [] then 0
    else if metrics[0].Date == t then 0
    else 1 + FirstIndexOf(metrics[1..], t)
  }

  /** The position of the baseline sample: the first one dated `t`, falling
      back to position 0 (the earliest sample of a sorted series) when none is. */
  function BaselineIndex(metrics: seq<DailyMetric>, t: Date): (r: nat)
    requires |metrics| > 0
    ensures r < |metrics|
    ensures (exists i :: 0 <= i < |metrics| && metrics[i].Date == t) ==>
      metrics[r].Date == t && forall j :: 0 <= j < r ==> metrics[j].Date != t
    ensures (forall i :: 0 <= i < |metrics| ==> metrics[i].Date != t) ==> r == 0
  {
    var k := FirstIndexOf(metrics, t);
    if k < |metrics| then k else 0
  }

  /** The date one month before the last sample, as `AddDate(0, -1, 0)`
      computes it; the calendar arithmetic is the parameter `monthBack`. */
  function OriginalDate(metrics: seq<DailyMetric>, monthBack: Date -> Date): Date
    requires |metrics| > 0
  {
    monthBack(Last(metrics).Date)
  }

  /** The sample `monthlyGrowth` compares the last sample with. */
  function Baseline(metrics: seq<DailyMetric>, monthBack: Date -> Date): DailyMetric
    requires |metrics| > 0
  {
    metrics[BaselineIndex(metrics, OriginalDate(metrics, monthBack))]
  }

  /** What `monthlyGrowth` returns: one hundred times the Go quotient of the
      change since the baseline by the baseline. Because the quotient is an
      integer, the result is a whole multiple of 100, and every change
      smaller in magnitude than the baseline itself reads as no growth. A
      zero baseline is an integer division by zero in Go. */
  function MonthlyGrowthOf(metrics: seq<DailyMetric>, monthBack: Date -> Date): (g: int)
    requires |metrics| > 0 && Baseline(metrics, monthBack).Total != 0
    ensures g % 100 == 0
    ensures (Abs(Last(metrics).Total - Baseline(metrics, monthBack).Total)
             < Abs(Baseline(metrics, monthBack).Total)) ==> g == 0
    ensures (Baseline(metrics, monthBack).Total > 0 &&
             Last(metrics).Total >= 2 * Baseline(metrics, monthBack).Total) ==> g >= 100
  {
    var present := Last(metrics).Total;
    var original := Baseline(metrics, monthBack).Total;
    var q := Quo(present - original, original);
    QuoSmallChange(present - original, original, q);
    100 * q
  }

  /** Facts about the quotient of a change by its base: it is zero when the
      change is smaller than the base, and at least one when a positive base
      has at least doubled. */
  lemma QuoSmallChange(d: int, b: int, q: int)
    requires b != 0 && q == Quo(d, b)
    ensures Abs(d) < Abs(b) ==> q == 0
    ensures b > 0 && d >= b ==> q >= 1
  {
    if Abs(d) < Abs(b) {
      assert Abs(d) / Abs(b) == 0;
    }
    if b > 0 && d >= b {
      assert q == d / b;
      DivAtLeastOne(d, b);
    }
  }

  lemma DivAtLeastOne(d: int, b: int)
    requires 0 < b <= d
    ensures d / b >= 1
  {
    assert d == (d / b) * b + d % b;
  }

  /** `monthlyGrowth`: a linear scan that stops at the first sample dated one
      month before the last one, keeping position 0 when none matches. */
  method MonthlyGrowth(metrics: seq<DailyMetric>, monthBack: Date -> Date) returns (growth: int)
    requires |metrics| > 0 && Baseline(metrics, monthBack).Total != 0
    ensures growth == MonthlyGrowthOf(metrics, monthBack)
  {
    var presentDate := metrics[|metrics| - 1].Date;
    var originalDate := monthBack(presentDate);
    var idx := 0;
    var i := 0;
    while i < |metrics|
      invariant 0 <= i <= |metrics|
      invariant idx == 0
      invariant forall j :: 0 <= j < i ==> metrics[j].Date != originalDate
    {
      if metrics[i].Date == originalDate {
        idx := i;
        break;
      }
      i := i + 1;
    }
    assert idx == BaselineIndex(metrics, originalDate);
    var presentValue := metrics[|metrics| - 1].Total;
    var originalValue := metrics[idx].Total;
    var growthRate := Quo(presentValue - originalValue, originalValue);
    growth := growthRate * 100;
  }

  /** Only the first sample dated a month back matters: rewriting any sample
      between it and the last one leaves the growth figure unchanged. */
  lemma LaterSamplesIgnored(metrics: seq<DailyMetric>, monthBack: Date -> Date, k: nat, x: DailyMetric)
    requires |metrics| > 0 && Baseline(metrics, monthBack).Total != 0
    requires FirstIndexOf(metrics, OriginalDate(metrics, monthBack)) < k < |metrics| - 1
    ensures Baseline(metrics[k := x], monthBack) == Baseline(metrics, monthBack)
    ensures MonthlyGrowthOf(metrics[k := x], monthBack) == MonthlyGrowthOf(metrics, monthBack)
  {
    var t := OriginalDate(metrics, monthBack);
    assert Last(metrics[k := x]) == Last(metrics);
    FirstIndexOfUnchanged(metrics, t, k, x);
  }

  /** The first match does not depend on anything after it. */
  lemma {:induction false} FirstIndexOfUnchanged(metrics: seq<DailyMetric>, t: Date, k: nat, x: DailyMetric)
    requires FirstIndexOf(metrics, t) < k < |metrics|
    ensures FirstIndexOf(metrics[k := x], t) == FirstIndexOf(metrics, t)
  {
    if metrics[0].Date != t {
      assert metrics[k := x][1..] == metrics[1..][k - 1 := x];
      FirstIndexOfUnchanged(metrics[1..], t, k - 1, x);
    }
  }

  /** A series whose baseline holds the same value as its last sample shows
      no monthly growth; in particular a single sample with a non-zero value,
      which is its own fallback baseline. */
  lemma SingleSampleNoMonthlyGrowth(d: Date, v: int, monthBack: Date -> Date)
    requires v != 0
    ensures MonthlyGrowthOf([DailyMetric(d, v)], monthBack) == 0
  {}

  /** A series whose samples all hold the same non-zero value shows no
      monthly growth, whichever sample serves as the baseline. */
  lemma ConstantSeriesNoMonthlyGrowth(metrics: seq<DailyMetric>, v: int, monthBack: Date -> Date)
    requires |metrics| > 0 && v != 0
    requires forall i :: 0 <= i < |metrics| ==> metrics[i].Total == v
    ensures MonthlyGrowthOf(metrics, monthBack) == 0
  {
    var b := BaselineIndex(metrics, OriginalDate(metrics, monthBack));
    assert metrics[b].Total == v;
  }

  /** `yearlyGrowth`: `(Pow(last - first, 1 / (len - 1)) - 1) * 100`, where
      the exponent is an integer division. One sample divides by zero; two
      samples give an exponent of one, so the figure is one hundred times the
      difference minus one; three or more give an exponent of zero, so the
      figure is always zero. Only the two end totals are read. */
  function YearlyGrowth(metrics: seq<DailyMetric>): (r: real)
    requires |metrics| >= 2
    ensures |metrics| == 2 ==>
      r == 100.0 * ((Last(metrics).Total - metrics[0].Total) as real - 1.0)
    ensures |metrics| >= 3 ==> r == 0.0
  {
    var presentValue := Last(metrics).Total;
    var originalValue := metrics[0].Total;
    var diff := |metrics| - 1;
    var exponent := Quo(1, diff);
    ExponentOfYearly(diff);
    PowSmallExponents((presentValue - originalValue) as real);
    (IntPow((presentValue - originalValue) as real, exponent) - 1.0) * 100.0
  }

  /** The integer `1 / n` for a positive `n` is one for `n == 1` and zero beyond. */
  lemma ExponentOfYearly(n: int)
    requires n >= 1
    ensures Quo(1, n) == if n == 1 then 1 else 0
  {}

  /** Two equal samples read as a fall of one hundred percent, because the
      code subtracts one from the difference rather than from a ratio. */
  lemma TwoEqualSamplesYearly(a: DailyMetric, b: DailyMetric)
    requires a.Total == b.Total
    ensures YearlyGrowth([a, b]) == -100.0
  {}

  /** Dates and middle samples never influence the yearly figure. */
  lemma YearlyGrowthReadsEndsOnly(m1: seq<DailyMetric>, m2: seq<DailyMetric>)
    requires |m1| == |m2| >= 2
    requires m1[0].Total == m2[0].Total && Last(m1).Total == Last(m2).Total
    ensures YearlyGrowth(m1) == YearlyGrowth(m2)
  {}
}
