/** cloudwatch.go: assembling the growth report once both series have been
    fetched, turning monitoring datapoints into daily samples, and the
    pagination test. The fetches themselves are network calls and arrive here
    as parameters. */
module CloudWatch {
  import opened Common
  import opened GoNumeric
  import opened Compound

  /** A series ordered by non-decreasing date. */
  predicate SortedByDate(s: seq<DailyMetric>)
  {
    forall i, j :: 0 <= i < j < |s| ==> s[i].Date <= s[j].Date
  }

  /** The first `n` elements of `a` are ordered by date. */
  ghost predicate SortedPrefix(a: array<DailyMetric>, n: int)
    reads a
  {
    forall p, q :: 0 <= p < q < n && q < a.Length ==> a[p].Date <= a[q].Date
  }

  /** `sort.Slice(xs, func(i, j) { xs[i].Date.Before(xs[j].Date) })`: the
      array ends up ordered by date and holds the same samples. The sort is
      not stable, so nothing is promised about the order of equal dates. */
  method SortByDate(a: array<DailyMetric>)
    modifies a
    ensures SortedByDate(a[..])
    ensures multiset(a[..]) == multiset(old(a[..]))
  {
    var i := 0;
    while i < a.Length
      invariant 0 <= i <= a.Length
      invariant SortedPrefix(a, i)
      invariant multiset(a[..]) == multiset(old(a[..]))
    {
      InsertIntoPrefix(a, i);
      i := i + 1;
    }
  }

  /** Moves `a[i]` down into the sorted prefix `a[..i]` by adjacent swaps. */
  method InsertIntoPrefix(a: array<DailyMetric>, i: nat)
    requires i < a.Length && SortedPrefix(a, i)
    modifies a
    ensures SortedPrefix(a, i + 1)
    ensures forall k :: i < k < a.Length ==> a[k] == old(a[k])
    ensures multiset(a[..]) == multiset(old(a[..]))
  {
    var j := i;
    while j > 0 && a[j - 1].Date > a[j].Date
      invariant 0 <= j <= i
      invariant forall p, q :: 0 <= p < q <= i && p != j && q != j ==> a[p].Date <= a[q].Date
      invariant forall q :: j < q <= i ==> a[j].Date < a[q].Date
      invariant forall k :: i < k < a.Length ==> a[k] == old(a[k])
      invariant multiset(a[..]) == multiset(old(a[..]))
    {
      SwapDown(a, j);
      j := j - 1;
    }
  }

  /** Exchanges `a[j - 1]` and `a[j]`, leaving everything else in place. */
  method SwapDown(a: array<DailyMetric>, j: int)
    requires 0 < j < a.Length
    modifies a
    ensures a[j - 1] == old(a[j]) && a[j] == old(a[j - 1])
    ensures forall k :: 0 <= k < a.Length && k != j - 1 && k != j ==> a[k] == old(a[k])
    ensures multiset(a[..]) == multiset(old(a[..]))
  {
    var t := a[j - 1];
    a[j - 1] := a[j];
    a[j] := t;
  }

  /** The outcome of one metric request: the series it produced, or the
      error the monitoring client returned. */
  datatype Fetch = Fetched(series: array<DailyMetric>) | FetchFailed(error: Error)

  /** The array a fetch handed over, if any. */
  function Footprint(f: Fetch): set<object>
  {
    if f.Fetched? then {f.series} else {}
  }

  /** The error returned for a bucket without size samples. */
  const ErrBucketEmpty: Error := Error("Bucket is empty")

  /** `Request.Measure` after the two requests. A failed size request is
      reported first, then a failed object request, then an empty size series;
      each comes with the zero report. Otherwise both series are sorted in
      place, the totals are the values of their last (latest) samples, the
      four growth figures come from `monthlyGrowthPct` and `yearlyGrowthPct`
      (passed in, their bodies are not part of this model), and all four
      projections use the monthly figure divided by 100 over one and five
      years. An empty object series next to a non-empty size series makes Go
      index out of range, hence the precondition. */
  method Measure(sizeFetch: Fetch, objectFetch: Fetch,
                 monthlyGrowthPct: seq<DailyMetric> -> real,
                 yearlyGrowthPct: seq<DailyMetric> -> real)
    returns (metrics: Metrics, err: Option<Error>)
    requires sizeFetch.Fetched? && objectFetch.Fetched? && sizeFetch.series.Length > 0 ==>
               objectFetch.series.Length > 0
    modifies Footprint(sizeFetch), Footprint(objectFetch)
    // error precedence
    ensures sizeFetch.FetchFailed? ==> err == Some(sizeFetch.error)
    ensures sizeFetch.Fetched? && objectFetch.FetchFailed? ==> err == Some(objectFetch.error)
    ensures sizeFetch.Fetched? && objectFetch.Fetched? && sizeFetch.series.Length == 0 ==>
              err == Some(ErrBucketEmpty)
    ensures err.Some? ==> metrics == ZeroMetrics
    ensures err.Some? && sizeFetch.Fetched? ==> unchanged(sizeFetch.series)
    ensures err.Some? && objectFetch.Fetched? ==> unchanged(objectFetch.series)
    // a report exactly when both requests succeeded and there is size data
    ensures err.None? <==>
              sizeFetch.Fetched? && objectFetch.Fetched? && sizeFetch.series.Length > 0
    ensures err.None? ==>
              var s, o := sizeFetch.series[..], objectFetch.series[..];
              && SortedByDate(s) && multiset(s) == multiset(old(sizeFetch.series[..]))
              && SortedByDate(o) && multiset(o) == multiset(old(objectFetch.series[..]))
              && |s| > 0 && |o| > 0
              && metrics.TotalSizeBytes == Last(s).Total
              && metrics.TotalObjectCount == Last(o).Total
              && (forall k :: 0 <= k < |s| ==> s[k].Date <= Last(s).Date)
              && (forall k :: 0 <= k < |o| ==> o[k].Date <= Last(o).Date)
              && metrics.SizeGrowthMonthly == monthlyGrowthPct(s)
              && metrics.ObjectGrowthMonthly == monthlyGrowthPct(o)
              && metrics.SizeGrowthYearly == yearlyGrowthPct(s)
              && metrics.ObjectGrowthYearly == yearlyGrowthPct(o)
              && metrics.Projections.Size1Year ==
                   Projection(metrics.TotalSizeBytes, 1, metrics.SizeGrowthMonthly / 100.0)
              && metrics.Projections.Size5Year ==
                   Projection(metrics.TotalSizeBytes, 5, metrics.SizeGrowthMonthly / 100.0)
              && metrics.Projections.Object1Year ==
                   Projection(metrics.TotalObjectCount, 1, metrics.ObjectGrowthMonthly / 100.0)
              && metrics.Projections.Object5Year ==
                   Projection(metrics.TotalObjectCount, 5, metrics.ObjectGrowthMonthly / 100.0)
  {
    if sizeFetch.FetchFailed? {
      return ZeroMetrics, Some(sizeFetch.error);
    }
    var sizeMetrics := sizeFetch.series;
    if objectFetch.FetchFailed? {
      return ZeroMetrics, Some(objectFetch.error);
    }
    var objectMetrics := objectFetch.series;

    if sizeMetrics.Length == 0 {
      return ZeroMetrics, Some(ErrBucketEmpty);
    }

    SortByDate(sizeMetrics);
    SortByDate(objectMetrics);

    var totalSize := sizeMetrics[sizeMetrics.Length - 1].Total;
    var totalObjects := objectMetrics[objectMetrics.Length - 1].Total;

    var sizeMonthly := monthlyGrowthPct(sizeMetrics[..]);
    var objectMonthly := monthlyGrowthPct(objectMetrics[..]);
    var sizeYearly := yearlyGrowthPct(sizeMetrics[..]);
    var objectYearly := yearlyGrowthPct(objectMetrics[..]);

    var proj := ProjectionMetrics(
      Size1Year := Projection(totalSize, 1, sizeMonthly / 100.0),
      Size5Year := Projection(totalSize, 5, sizeMonthly / 100.0),
      Object1Year := Projection(totalObjects, 1, objectMonthly / 100.0),
      Object5Year := Projection(totalObjects, 5, objectMonthly / 100.0));

    metrics := Metrics(
      TotalSizeBytes := totalSize, TotalObjectCount := totalObjects,
      SizeGrowthMonthly := sizeMonthly, SizeGrowthYearly := sizeYearly,
      ObjectGrowthMonthly := objectMonthly, ObjectGrowthYearly := objectYearly,
      Projections := proj);
    err := None;
  }

  /** A monitoring datapoint as the client returns it: a timestamp and a
      daily maximum, both behind pointers that may be nil. */
  datatype Datapoint = Datapoint(Timestamp: Option<Date>, Maximum: Option<real>)

  /** `marshalDailyMetric`: a new array of the same length whose element `i`
      carries the timestamp of datapoint `i` and its maximum truncated to an
      integer. Dereferencing a nil pointer panics in Go, hence the
      precondition. */
  method MarshalDailyMetric(results: seq<Datapoint>) returns (metrics: array<DailyMetric>)
    requires forall i :: 0 <= i < |results| ==>
               results[i].Timestamp.Some? && results[i].Maximum.Some?
    ensures fresh(metrics) && metrics.Length == |results|
    ensures forall i :: 0 <= i < |results| ==>
              && metrics[i].Date == results[i].Timestamp.value
              && metrics[i].Total == Trunc(results[i].Maximum.value)
  {
    metrics := new DailyMetric[|results|](_ => DailyMetric(0, 0));
    var i := 0;
    while i < |results|
      invariant 0 <= i <= |results|
      invariant forall k :: 0 <= k < i ==>
                  && metrics[k].Date == results[k].Timestamp.value
                  && metrics[k].Total == Trunc(results[k].Maximum.value)
    {
      metrics[i] := DailyMetric(Date := results[i].Timestamp.value,
                                Total := Trunc(results[i].Maximum.value));
      i := i + 1;
    }
  }

  /** `endOfResults`: there are no more pages exactly when the continuation
      token is the empty string. */
  function EndOfResults(token: string): (r: bool)
    ensures r <==> |token| == 0
  {
    token == ""
  }

  /** The two cases of the pagination test: an empty token ends the results,
      any other token does not. */
  lemma EndOfResultsCases()
    ensures EndOfResults("")
    ensures !EndOfResults("somerandomvalue")
  {}
}
