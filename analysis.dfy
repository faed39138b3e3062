/**
 * The numbers `perform_analysis` derives from a location's most recent
 * readings: the trend tag, the rolling average and the 3-point prediction.
 */
module Analysis {
  import opened Types
  import opened Seqs

  /** The concentration levels of some readings, in order. */
  function Levels(rs: seq<Reading>): (ls: seq<real>)
    ensures |ls| == |rs| && forall i :: 0 <= i < |rs| ==> ls[i] == rs[i].level
  {
    seq(|rs|, i requires 0 <= i < |rs| => rs[i].level)
  }

  /**
   * The trend of a window of levels, oldest first. With at least five
   * levels the mean of the latest five is compared with the mean of the
   * earlier ones; `None` stands for the ZeroDivisionError the comparison
   * raises when there are no earlier ones (exactly five levels).
   */
  function ClassifyTrend(levels: seq<real>): (t: Option<Trend>)
    ensures t == Some(InsufficientData) <==> |levels| < 5
    ensures t == None <==> |levels| == 5
  {
    if |levels| >= 5 then
      var split := |levels| - 5;
      var recent := Sum(levels[split..]) / 5.0;
      if split == 0 then None
      else
        var previous := Sum(levels[..split]) / split as real;
        Some(CompareMeans(recent, previous))
    else
      Some(InsufficientData)
  }

  /** The trend tag for the mean of the latest levels against the mean of the earlier ones (a 10% band). */
  function CompareMeans(recent: real, previous: real): Trend {
    if recent > previous * 1.1 then Increasing
    else if recent < previous * 0.9 then Decreasing
    else Stable
  }

  /** The rolling average of a non-empty window. */
  function Average(levels: seq<real>): real
    requires |levels| > 0
  {
    Sum(levels) / |levels| as real
  }

  /** The mean of the last three levels, or `fallback` if there are fewer than three. */
  function Prediction(levels: seq<real>, fallback: real): real {
    if |levels| >= 3 then Sum(levels[|levels| - 3..]) / 3.0 else fallback
  }

  /**
   * The analysis result for the incoming reading `data`, given the window of
   * its location's latest readings, the anomaly score and the clock.
   * `None` is a ZeroDivisionError: an empty window (the average) or a window
   * of exactly five (the trend).
   */
  function Summarize(window: seq<Reading>, data: Reading, score: real, now: Timestamp): (r: Option<AnalysisResult>)
    ensures r.None? <==> |window| == 0 || |window| == 5
    ensures r.Some? ==> r.value.location == data.location && r.value.timestamp == now
                        && r.value.anomalyScore == score
                        && Some(r.value.trend) == ClassifyTrend(Levels(window))
                        && r.value.averageLevel == Average(Levels(window))
                        && r.value.prediction == Prediction(Levels(window), data.level)
  {
    var levels := Levels(window);
    var trend := ClassifyTrend(levels);
    if trend.None? || |levels| == 0 then None
    else Some(AnalysisResult(now, data.location, Average(levels), trend.value, score,
                             Prediction(levels, data.level)))
  }

  /**
   * The window of a location with at least 50 readings holds exactly ten,
   * so its summary exists, its trend is never "insufficient data", and
   * the trend compares the latest five with the five before them.
   */
  lemma WarmWindowIsSummarized(locationReadings: seq<Reading>, data: Reading, score: real, now: Timestamp)
    requires |locationReadings| >= WARM_UP
    ensures |TakeLast(locationReadings, TREND_WINDOW)| == TREND_WINDOW
    ensures var r := Summarize(TakeLast(locationReadings, TREND_WINDOW), data, score, now);
            r.Some? && r.value.trend != InsufficientData
  {
  }

  /** The trend of ten levels, stated by the two halves' means. */
  lemma TrendOfTen(levels: seq<real>)
    requires |levels| == 10
    ensures var recent := Sum(levels[5..]) / 5.0;
            var previous := Sum(levels[..5]) / 5.0;
            && (ClassifyTrend(levels) == Some(Increasing) <==> recent > previous * 1.1)
            && (ClassifyTrend(levels) == Some(Decreasing) <==> !(recent > previous * 1.1) && recent < previous * 0.9)
            && (ClassifyTrend(levels) == Some(Stable) <==> previous * 0.9 <= recent <= previous * 1.1)
  {
  }

  /**
   * If each of the latest five levels exceeds 1.1 times every earlier
   * level, the trend is increasing.
   */
  lemma {:induction false} RecentAboveIsIncreasing(levels: seq<real>, lo: real, hi: real)
    requires |levels| == 10
    requires forall i :: 0 <= i < 5 ==> levels[i] <= hi
    requires forall i :: 5 <= i < 10 ==> lo <= levels[i]
    requires lo > hi * 1.1
    ensures ClassifyTrend(levels) == Some(Increasing)
  {
    SumAtMost(levels[..5], hi);
    SumAtLeast(levels[5..], lo);
  }

  /**
   * If the levels are not negative and each of the latest five is below 0.9
   * times every earlier level, the trend is decreasing.
   */
  lemma {:induction false} RecentBelowIsDecreasing(levels: seq<real>, lo: real, hi: real)
    requires |levels| == 10
    requires forall i :: 0 <= i < 5 ==> lo <= levels[i]
    requires forall i :: 5 <= i < 10 ==> levels[i] <= hi
    requires 0.0 <= lo && hi < lo * 0.9
    ensures ClassifyTrend(levels) == Some(Decreasing)
  {
    SumAtLeast(levels[..5], lo);
    SumAtMost(levels[5..], hi);
  }

  /**
   * The trend does not depend on the unit: scaling every level by the
   * same positive factor leaves it unchanged.
   */
  lemma {:induction false} TrendIgnoresScale(levels: seq<real>, k: real)
    requires k > 0.0
    ensures ClassifyTrend(Scale(levels, k)) == ClassifyTrend(levels)
  {
    var n := |levels|;
    if n > 5 {
      var split := n - 5;
      var scaled := Scale(levels, k);
      ScaleSplit(levels, k, split);
      var recent := ScaledSumMean(levels[split..], k, 5.0);
      var previous := ScaledSumMean(levels[..split], k, split as real);
      CompareMeansScaled(k, recent, previous);
      assert ClassifyTrend(scaled) == Some(CompareMeans(k * recent, k * previous));
    }
  }

  /** The mean-like quotient `Sum(xs) / d`, which scaling `xs` by `k` scales by `k`. */
  lemma ScaledSumMean(xs: seq<real>, k: real, d: real) returns (m: real)
    requires d > 0.0
    ensures m == Sum(xs) / d
    ensures Sum(Scale(xs, k)) / d == k * m
  {
    SumScale(xs, k);
    m := Sum(xs) / d;
    assert (k * Sum(xs)) / d == k * m;
  }

  lemma CompareMeansScaled(k: real, recent: real, previous: real)
    requires k > 0.0
    ensures CompareMeans(k * recent, k * previous) == CompareMeans(recent, previous)
  {
    ScaledComparison(k, recent, previous, 1.1);
    ScaledComparison(k, recent, previous, 0.9);
  }

  lemma ScaledComparison(k: real, a: real, b: real, c: real)
    requires k > 0.0
    ensures k * a > (k * b) * c <==> a > b * c
    ensures k * a < (k * b) * c <==> a < b * c
  {
    assert k * a - (k * b) * c == k * (a - b * c);
  }

  /**
   * Ten equal levels `c`: the average and the prediction are `c`; the
   * trend is stable when `c >= 0` but increasing when `c < 0`, because
   * `c > 1.1 * c` holds for every negative `c`.
   */
  lemma {:induction false} ConstantWindow(c: real)
    ensures Average(Repeat(c, 10)) == c
    ensures Prediction(Repeat(c, 10), c) == c
    ensures ClassifyTrend(Repeat(c, 10)) == Some(if c < 0.0 then Increasing else Stable)
  {
    var w := Repeat(c, 10);
    SumRepeat(c, 10);
    assert w[5..] == Repeat(c, 5);
    assert w[..5] == Repeat(c, 5);
    assert w[7..] == Repeat(c, 3);
    SumRepeat(c, 5);
    SumRepeat(c, 3);
  }

  /** If every level of the window lies in [lo, hi], so do the average and the prediction. */
  lemma {:induction false} SummaryWithinRange(levels: seq<real>, fallback: real, lo: real, hi: real)
    requires |levels| > 0
    requires forall i :: 0 <= i < |levels| ==> lo <= levels[i] <= hi
    requires lo <= fallback <= hi
    ensures lo <= Average(levels) <= hi
    ensures lo <= Prediction(levels, fallback) <= hi
  {
    SumAtMost(levels, hi);
    SumAtLeast(levels, lo);
    QuotientBetween(Sum(levels), |levels| as real, lo, hi);
    if |levels| >= 3 {
      var last := levels[|levels| - 3..];
      SumAtMost(last, hi);
      SumAtLeast(last, lo);
      QuotientBetween(Sum(last), 3.0, lo, hi);
    }
  }

  lemma QuotientBetween(s: real, n: real, lo: real, hi: real)
    requires n > 0.0 && n * lo <= s <= n * hi
    ensures lo <= s / n <= hi
  {
    assert s / n * n == s;
  }

  /** The step patterns 1,1,1,1,1,2,2,2,2,2 and 2,2,2,2,2,1,1,1,1,1. */
  lemma StepPatterns()
    ensures ClassifyTrend([1.0, 1.0, 1.0, 1.0, 1.0, 2.0, 2.0, 2.0, 2.0, 2.0]) == Some(Increasing)
    ensures ClassifyTrend([2.0, 2.0, 2.0, 2.0, 2.0, 1.0, 1.0, 1.0, 1.0, 1.0]) == Some(Decreasing)
  {
    RecentAboveIsIncreasing([1.0, 1.0, 1.0, 1.0, 1.0, 2.0, 2.0, 2.0, 2.0, 2.0], 2.0, 1.0);
    RecentBelowIsDecreasing([2.0, 2.0, 2.0, 2.0, 2.0, 1.0, 1.0, 1.0, 1.0, 1.0], 2.0, 1.0);
  }
}
