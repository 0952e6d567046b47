/**
 What the twelve features say about the bars: every value of every feature row in terms of prices and volumes, and the
 position it stands in.
 */
module FeatureValues {
  import opened Wrappers
  import opened Aggregates
  import opened Columns
  import opened Features

  function Total(values: seq<real>): real {
    if values == [] then 0.0 else Total(values[..|values| - 1]) + values[|values| - 1]
  }

  /** The sum of the squared distances of the values from `center`. */
  function Squares(values: seq<real>, center: real): real {
    if values == [] then
      0.0
    else
      var d := values[|values| - 1] - center;
      Squares(values[..|values| - 1], center) + d * d
  }

  /** The closes of the last `w` bars up to bar `i`. */
  function CloseWindow(bars: seq<Bar>, i: nat, w: nat): (r: seq<real>)
    requires w <= i + 1 <= |bars|
    ensures |r| == w
  {
    seq(w, k requires 0 <= k < w => bars[i + 1 - w + k].close)
  }

  /** The logarithms of one plus the volume of the last `w` bars up to bar `i`. */
  function LogVolumeWindow(bars: seq<Bar>, fns: Analysis, i: nat, w: nat): (r: seq<real>)
    requires w <= i + 1 <= |bars|
    ensures |r| == w
  {
    seq(w, k requires 0 <= k < w => fns.log1p(bars[i + 1 - w + k].volume as real))
  }

  /** The one-day returns of the last bars up to bar `i`. */
  predicate AreReturns(changes: seq<real>, bars: seq<Bar>, i: nat)
    requires |changes| <= i < |bars|
  {
    forall k :: 0 <= k < |changes| ==> IsReturn(changes[k], bars, i + 1 - |changes| + k)
  }

  predicate IsReturn(r: real, bars: seq<Bar>, i: nat)
    requires 1 <= i < |bars|
  {
    r * bars[i - 1].close == bars[i].close - bars[i - 1].close
  }

  /** The root of the sum of squared distances from the mean over the count less `ddof`. */
  ghost predicate IsDeviation(v: real, values: seq<real>, mean: real, variance: real, ddof: nat, sqrt: real -> real) {
    && mean * (|values| as real) == Total(values)
    && variance * ((|values| - ddof) as real) == Squares(values, mean)
    && v == sqrt(variance)
  }

  /** The volatility of the last `w` one-day returns up to bar `i`. */
  ghost predicate VolatilityOf(v: real, bars: seq<Bar>, i: nat, w: nat, sqrt: real -> real)
    requires w <= i < |bars|
  {
    exists changes, mean, variance ::
      |changes| == w && AreReturns(changes, bars, i) && IsDeviation(v, changes, mean, variance, 0, sqrt)
  }

  /** What a value of a feature at bar `i` means. */
  ghost predicate FeatureMeans(f: Feature, v: real, bars: seq<Bar>, fns: Analysis, i: nat)
    requires 20 <= i < |bars|
  {
    var (bar, before) := (bars[i], bars[i - 1]);
    match f
    case CloseReturn1d => v * before.close == bar.close - before.close
    case CloseReturn5d => v * bars[i - 5].close == bar.close - bars[i - 5].close
    case CloseReturn20d => v * bars[i - 20].close == bar.close - bars[i - 20].close
    case OvernightGap1d => v * before.close == bar.open - before.close
    case IntradayReturn1d => v * bar.open == bar.close - bar.open
    case RangePct1d => v * bar.open == bar.high - bar.low
    case CloseToSma5 => v * Total(CloseWindow(bars, i, 5)) == 5.0 * bar.close - Total(CloseWindow(bars, i, 5))
    case CloseToSma20 => v * Total(CloseWindow(bars, i, 20)) == 20.0 * bar.close - Total(CloseWindow(bars, i, 20))
    case RealizedVolatility5 => VolatilityOf(v, bars, i, 5, fns.sqrt)
    case RealizedVolatility20 => VolatilityOf(v, bars, i, 20, fns.sqrt)
    case LogVolumeChange1d => v == fns.log1p(bar.volume as real) - fns.log1p(before.volume as real)
    case LogVolumeDeviation20 =>
      v * 20.0 == 20.0 * fns.log1p(bar.volume as real) - Total(LogVolumeWindow(bars, fns, i, 20))
  }

  /** A feature row of bar `i`: its session, and the twelve values in their places. */
  ghost predicate RowMeans(row: FeatureRow, bars: seq<Bar>, fns: Analysis, i: nat)
    requires 20 <= i < |bars|
  {
    && row.session == bars[i].session && |row.values| == 12
    && FeatureMeans(CloseReturn1d, row.values[0], bars, fns, i)
    && FeatureMeans(CloseReturn5d, row.values[1], bars, fns, i)
    && FeatureMeans(CloseReturn20d, row.values[2], bars, fns, i)
    && FeatureMeans(OvernightGap1d, row.values[3], bars, fns, i)
    && FeatureMeans(IntradayReturn1d, row.values[4], bars, fns, i)
    && FeatureMeans(RangePct1d, row.values[5], bars, fns, i)
    && FeatureMeans(CloseToSma5, row.values[6], bars, fns, i)
    && FeatureMeans(CloseToSma20, row.values[7], bars, fns, i)
    && FeatureMeans(RealizedVolatility5, row.values[8], bars, fns, i)
    && FeatureMeans(RealizedVolatility20, row.values[9], bars, fns, i)
    && FeatureMeans(LogVolumeChange1d, row.values[10], bars, fns, i)
    && FeatureMeans(LogVolumeDeviation20, row.values[11], bars, fns, i)
  }

  // ---------------------------------------------------------------- quotients

  lemma QuotientMeans(a: real, b: real)
    requires b > 0.0
    ensures (a / b - 1.0) * b == a - b && a / b * b == a
  {
  }

  lemma QuotientAt(a: Series, b: Series, i: nat)
    requires |a| == |b| && i < |a| && a[i].Some? && b[i].Some? && b[i].value > 0.0
    ensures Ratio(a, b)[i] == Some(a[i].value / b[i].value)
    ensures Relative(a, b)[i] == Some(a[i].value / b[i].value - 1.0)
  {
    var quotient := Ratio(a, b);
    assert quotient[i] == Some(a[i].value / b[i].value);
    hide Ratio;
    assert Mapped(quotient, LessOne)[i] == Some(LessOne(quotient[i].value));
  }

  lemma CloseReturnMeans(bars: seq<Bar>, k: nat, i: nat)
    requires ValidHistory(bars) && 1 <= k <= i < |bars|
    ensures CloseReturn(bars, k)[i] == Some(bars[i].close / bars[i - k].close - 1.0)
    ensures CloseReturn(bars, k)[i].value * bars[i - k].close == bars[i].close - bars[i - k].close
  {
    QuotientMeans(bars[i].close, bars[i - k].close);
    hide Relative;
    QuotientAt(Closes(bars), Shift(Closes(bars), k), i);
  }

  lemma GapMeans(bars: seq<Bar>, i: nat)
    requires ValidHistory(bars) && 1 <= i < |bars|
    ensures var c := Relative(Opens(bars), Shift(Closes(bars), 1))[i];
            c.Some? && c.value * bars[i - 1].close == bars[i].open - bars[i - 1].close
  {
    QuotientMeans(bars[i].open, bars[i - 1].close);
    hide Relative;
    QuotientAt(Opens(bars), Shift(Closes(bars), 1), i);
  }

  lemma IntradayMeans(bars: seq<Bar>, i: nat)
    requires ValidHistory(bars) && i < |bars|
    ensures var c := Relative(Closes(bars), Opens(bars))[i];
            c.Some? && c.value * bars[i].open == bars[i].close - bars[i].open
    ensures var c := Ratio(Ranges(bars), Opens(bars))[i];
            c.Some? && c.value * bars[i].open == bars[i].high - bars[i].low
  {
    QuotientMeans(bars[i].close, bars[i].open);
    QuotientMeans(bars[i].high - bars[i].low, bars[i].open);
    hide Relative, Ratio;
    QuotientAt(Closes(bars), Opens(bars), i);
    QuotientAt(Ranges(bars), Opens(bars), i);
  }

  // ---------------------------------------------------------------- windows

  lemma {:induction false} TotalIsSum(values: seq<real>)
    ensures Total(values) == Sum(values, Identity)
  {
    if values != [] {
      TotalIsSum(values[..|values| - 1]);
    }
  }

  lemma {:induction false} SquaresAreSum(values: seq<real>, center: real)
    ensures Squares(values, center) == Sum(values, SquaredDeviation(center))
  {
    if values != [] {
      SquaresAreSum(values[..|values| - 1], center);
    }
  }

  /** The last entries up to row `i` are these values. */
  ghost predicate EndsWith(c: Series, i: nat, values: seq<real>)
    requires |values| <= i + 1 <= |c|
  {
    var first := i + 1 - |values|;
    forall j :: first <= j <= i ==> c[j] == Some(values[j - first])
  }

  /** A trailing statistic at row `i` is that of the last values. */
  lemma RollingAt(c: Series, statistic: seq<real> -> real, i: nat, values: seq<real>)
    requires 1 <= |values| <= i + 1 <= |c| && EndsWith(c, i, values)
    ensures Rolling(c, |values|, statistic)[i] == Some(statistic(values))
  {
    var w := |values|;
    var window := c[i + 1 - w..i + 1];
    forall k | 0 <= k < w ensures window[k] == Some(values[k]) {
      assert window[k] == c[i + 1 - w + k];
    }
    assert Values(window) == values;
  }

  lemma MeanMeans(values: seq<real>)
    requires values != []
    ensures Mean(values) * (|values| as real) == Total(values)
  {
    TotalIsSum(values);
    hide Sum;
    QuotientMeans(Sum(values, Identity), |values| as real);
  }

  lemma VarianceMeans(values: seq<real>, ddof: nat)
    requires |values| > ddof
    ensures Variance(values, ddof) * ((|values| - ddof) as real) == Squares(values, Mean(values))
  {
    hide Sum, Mean, SquaredDeviation;
    var sum, n := Sum(values, SquaredDeviation(Mean(values))), (|values| - ddof) as real;
    assert Variance(values, ddof) == sum / n;
    hide Variance;
    SquaresAreSum(values, Mean(values));
    QuotientMeans(sum, n);
  }

  lemma MeanAt(c: Series, i: nat, values: seq<real>)
    requires 1 <= |values| <= i + 1 <= |c| && EndsWith(c, i, values)
    ensures RollingMean(c, |values|)[i].Some?
    ensures RollingMean(c, |values|)[i].value * (|values| as real) == Total(values)
  {
    hide EndsWith, Rolling, Mean;
    RollingAt(c, MeanOrZero, i, values);
    MeanMeans(values);
  }

  lemma DeviationAt(c: Series, i: nat, values: seq<real>, ddof: nat, sqrt: real -> real)
    requires ddof < |values| <= i + 1 <= |c| && EndsWith(c, i, values)
    ensures RollingStd(c, |values|, ddof, sqrt)[i].Some?
    ensures IsDeviation(RollingStd(c, |values|, ddof, sqrt)[i].value, values, Mean(values), Variance(values, ddof),
                        ddof, sqrt)
  {
    hide EndsWith, Rolling, Mean, Variance;
    RollingAt(c, Deviation(ddof, sqrt), i, values);
    MeanMeans(values);
    VarianceMeans(values, ddof);
  }

  lemma MeanRelated(close: real, mean: real, w: real, total: real)
    requires mean > 0.0 && mean * w == total
    ensures (close / mean - 1.0) * total == w * close - total
  {
    QuotientMeans(close, mean);
    assert (close / mean - 1.0) * (mean * w) == ((close / mean - 1.0) * mean) * w;
  }

  lemma RelativeToMean(bars: seq<Bar>, w: nat, i: nat)
    requires ValidHistory(bars) && 1 <= w <= i + 1 <= |bars|
    ensures var c := Relative(Closes(bars), RollingMean(Closes(bars), w))[i];
            var total := Total(CloseWindow(bars, i, w));
            c.Some? && c.value * total == (w as real) * bars[i].close - total
  {
    hide Rolling, RollingMean, Total, Relative;
    var window := CloseWindow(bars, i, w);
    assert EndsWith(Closes(bars), i, window);
    MeanAt(Closes(bars), i, window);
    RollingMeanPositive(Closes(bars), w, 0);
    QuotientAt(Closes(bars), RollingMean(Closes(bars), w), i);
    MeanRelated(bars[i].close, RollingMean(Closes(bars), w)[i].value, w as real, Total(window));
  }

  /** The one-day returns of the last `w` bars up to bar `i`. */
  function ReturnWindow(bars: seq<Bar>, i: nat, w: nat): (r: seq<real>)
    requires ValidHistory(bars) && w <= i < |bars|
    ensures |r| == w
  {
    seq(w, k requires 0 <= k < w => bars[i + 1 - w + k].close / bars[i - w + k].close - 1.0)
  }

  lemma ReturnWindowMeans(bars: seq<Bar>, w: nat, i: nat)
    requires ValidHistory(bars) && 1 <= w <= i < |bars|
    ensures AreReturns(ReturnWindow(bars, i, w), bars, i)
    ensures EndsWith(CloseReturn(bars, 1), i, ReturnWindow(bars, i, w))
  {
    hide CloseReturn;
    var window, first := ReturnWindow(bars, i, w), i + 1 - w;
    forall k | 0 <= k < w ensures IsReturn(window[k], bars, first + k) {
      QuotientMeans(bars[first + k].close, bars[first + k - 1].close);
    }
    forall j | first <= j <= i ensures CloseReturn(bars, 1)[j] == Some(window[j - first]) {
      CloseReturnMeans(bars, 1, j);
    }
  }

  lemma VolatilityMeans(bars: seq<Bar>, w: nat, i: nat, sqrt: real -> real)
    requires ValidHistory(bars) && 1 <= w <= i < |bars|
    ensures var c := RollingStd(CloseReturn(bars, 1), w, 0, sqrt)[i];
            c.Some? && VolatilityOf(c.value, bars, i, w, sqrt)
  {
    hide RollingStd, IsDeviation, Mean, Variance, CloseReturn, ValidHistory, AreReturns, EndsWith;
    ReturnWindowMeans(bars, w, i);
    DeviationAt(CloseReturn(bars, 1), i, ReturnWindow(bars, i, w), 0, sqrt);
  }

  lemma LogVolumeMeans(bars: seq<Bar>, fns: Analysis, i: nat)
    requires 20 <= i < |bars|
    ensures var c := Difference(LogVolume(bars, fns), Shift(LogVolume(bars, fns), 1))[i];
            c == Some(fns.log1p(bars[i].volume as real) - fns.log1p(bars[i - 1].volume as real))
    ensures var c := Difference(LogVolume(bars, fns), RollingMean(LogVolume(bars, fns), 20))[i];
            c.Some?
            && c.value * 20.0 == 20.0 * fns.log1p(bars[i].volume as real) - Total(LogVolumeWindow(bars, fns, i, 20))
  {
    hide RollingMean, Total;
    var window := LogVolumeWindow(bars, fns, i, 20);
    assert EndsWith(LogVolume(bars, fns), i, window);
    MeanAt(LogVolume(bars, fns), i, window);
  }

  // ---------------------------------------------------------------- the feature rows

  /** Every feature has, at every bar after the warm-up, the value it stands for. */
  lemma FeatureValue(f: Feature, bars: seq<Bar>, fns: Analysis, i: nat)
    requires ValidHistory(bars) && 20 <= i < |bars|
    ensures FeatureColumn(f, bars, fns)[i].Some?
    ensures FeatureMeans(f, FeatureColumn(f, bars, fns)[i].value, bars, fns, i)
  {
    hide CloseReturn, Relative, Ratio, RollingMean, RollingStd, Difference, Total, VolatilityOf, ValidHistory;
    match f
    case CloseReturn1d => CloseReturnMeans(bars, 1, i);
    case CloseReturn5d => CloseReturnMeans(bars, 5, i);
    case CloseReturn20d => CloseReturnMeans(bars, 20, i);
    case OvernightGap1d => GapMeans(bars, i);
    case IntradayReturn1d => IntradayMeans(bars, i);
    case RangePct1d => IntradayMeans(bars, i);
    case CloseToSma5 => RelativeToMean(bars, 5, i);
    case CloseToSma20 => RelativeToMean(bars, 20, i);
    case RealizedVolatility5 => VolatilityMeans(bars, 5, i, fns.sqrt);
    case RealizedVolatility20 => VolatilityMeans(bars, 20, i, fns.sqrt);
    case LogVolumeChange1d => LogVolumeMeans(bars, fns, i);
    case LogVolumeDeviation20 => LogVolumeMeans(bars, fns, i);
  }

  lemma RowValue(bars: seq<Bar>, fns: Analysis, i: nat)
    requires ValidHistory(bars) && 20 <= i < |bars| && RowDefined(bars, fns, i)
    ensures RowMeans(FeatureRowAt(bars, fns, i), bars, fns, i)
  {
    hide FeatureColumn, FeatureMeans, ValidHistory;
    forall f ensures FeatureColumn(f, bars, fns)[i].Some?
                     && FeatureMeans(f, FeatureColumn(f, bars, fns)[i].value, bars, fns, i)
    {
      FeatureValue(f, bars, fns, i);
    }
  }

  /**
   The feature set of a history: refused up to twenty bars; otherwise one row for each bar from the twenty-first on,
   whose twelve values say of the bars up to it what their places stand for.
   */
  lemma FeaturesExactly(bars: seq<Bar>, fns: Analysis)
    requires ValidHistory(bars)
    ensures var r := BuildTrailingFeatureSet(bars, fns);
            && (r.Err? <==> |bars| <= 20)
            && (r.Ok? ==>
                  && |r.value| == |bars| - 20
                  && forall k :: 0 <= k < |r.value| ==> RowMeans(r.value[k], bars, fns, 20 + k))
  {
    hide RowDefined, FeatureRowAt, RowMeans, ValidHistory, BuildTrailingFeatureSet;
    FeaturesAlwaysBuilt(bars, fns);
    var r := BuildTrailingFeatureSet(bars, fns);
    if r.Ok? {
      forall k | 0 <= k < |r.value| ensures RowMeans(r.value[k], bars, fns, 20 + k) {
        var row := r.value[k];
        RowValue(bars, fns, 20 + k);
      }
    }
  }

  /** A value says what it stands for in one way only. */
  lemma ReturnsAreUnique(a: seq<real>, b: seq<real>, bars: seq<Bar>, i: nat)
    requires ValidHistory(bars) && |a| == |b| <= i < |bars| && AreReturns(a, bars, i) && AreReturns(b, bars, i)
    ensures a == b
  {
    forall k | 0 <= k < |a| ensures a[k] == b[k] {
      var close := bars[i + 1 - |a| + k - 1].close;
      assert IsReturn(a[k], bars, i + 1 - |a| + k) && IsReturn(b[k], bars, i + 1 - |b| + k);
      assert (a[k] - b[k]) * close == 0.0;
    }
  }
}
