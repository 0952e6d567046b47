/**
 What the regime labels of a session and the frozen volatility threshold say about the bars.
 */
module RegimeLabels {
  import opened Wrappers
  import opened Columns
  import opened Features
  import opened FeatureValues
  import opened Medians
  import opened Leakage
  import opened Regimes

  /** The last twenty log returns up to bar `i`. */
  function LogReturnWindow(bars: seq<Bar>, fns: Analysis, i: nat): (r: seq<real>)
    requires ValidHistory(bars) && 20 <= i < |bars|
    ensures |r| == 20
  {
    seq(20, k requires 0 <= k < 20 => fns.log(bars[i - 19 + k].close / bars[i - 20 + k].close))
  }

  /** `v` is the sample deviation of the last twenty log returns, annualised over 252 sessions. */
  ghost predicate IsReading(v: real, bars: seq<Bar>, fns: Analysis, i: nat)
    requires ValidHistory(bars) && 20 <= i < |bars|
  {
    exists mean, variance, root ::
      IsDeviation(root, LogReturnWindow(bars, fns, i), mean, variance, 1, fns.sqrt) && v == root * fns.sqrt(252.0)
  }

  /** The session closes at least a tenth below some close up to it. */
  predicate TenthBelow(bars: seq<Bar>, i: nat)
    requires i < |bars|
  {
    exists j :: 0 <= j <= i && 10.0 * bars[i].close <= 9.0 * bars[j].close
  }

  /** What the regime labels of bar `i` say. */
  ghost predicate LabelsMean(row: RegimeRow, bars: seq<Bar>, fns: Analysis, threshold: real, year: int -> int, i: nat)
    requires ValidHistory(bars) && i < |bars|
  {
    && row.session == bars[i].session
    && row.trend == (if i < 199 then Unavailable
                     else if 200.0 * bars[i].close >= Total(CloseWindow(bars, i, 200)) then Bull else Bear)
    && (row.volatility == Unavailable <==> i < 20)
    && (row.volatility == HighVolatility <==> i >= 20 && exists v :: IsReading(v, bars, fns, i) && v > threshold)
    && (row.volatility == LowerVolatility <==> i >= 20 && exists v :: IsReading(v, bars, fns, i) && v <= threshold)
    && row.drawdown == (if TenthBelow(bars, i) then InDrawdown else Normal)
    && row.calendarYear == Year(year(bars[i].session))
  }

  lemma {:induction false} PeakIsHighest(bars: seq<Bar>, i: nat)
    requires i < |bars|
    ensures forall j :: 0 <= j <= i ==> bars[j].close <= RunningPeak(bars, i)
    ensures exists j :: 0 <= j <= i && bars[j].close == RunningPeak(bars, i)
  {
    if i == 0 {
      assert bars[0].close == RunningPeak(bars, 0);
    } else {
      PeakIsHighest(bars, i - 1);
      var j :| 0 <= j <= i - 1 && bars[j].close == RunningPeak(bars, i - 1);
      assert bars[i].close == RunningPeak(bars, i) || bars[j].close == RunningPeak(bars, i);
    }
  }

  lemma AtMostNineTenths(close: real, peak: real)
    requires peak > 0.0
    ensures close / peak - 1.0 <= -0.1 <==> 10.0 * close <= 9.0 * peak
  {
    var q := close / peak;
    assert q * peak == close;
  }

  lemma DrawdownLabel(bars: seq<Bar>, i: nat)
    requires ValidHistory(bars) && i < |bars|
    ensures var drawdown := Divide(Some(bars[i].close), Some(RunningPeak(bars, i)));
            drawdown.Some? && (drawdown.value - 1.0 <= -0.1 <==> TenthBelow(bars, i))
  {
    hide RunningPeak;
    PeakIsHighest(bars, i);
    var j :| 0 <= j <= i && bars[j].close == RunningPeak(bars, i);
    AtMostNineTenths(bars[i].close, RunningPeak(bars, i));
  }

  lemma TrendKnown(bars: seq<Bar>, i: nat)
    requires ValidHistory(bars) && i < |bars|
    ensures var mean := RollingMean(Closes(bars), 200)[i];
            && (mean.None? <==> i < 199)
            && (i >= 199 ==> mean.value * 200.0 == Total(CloseWindow(bars, i, 200)))
  {
    if i >= 199 {
      hide Total;
      assert EndsWith(Closes(bars), i, CloseWindow(bars, i, 200));
      MeanAt(Closes(bars), i, CloseWindow(bars, i, 200));
    }
  }

  function LogReturns(bars: seq<Bar>, fns: Analysis): Series {
    Mapped(Ratio(Closes(bars), Shift(Closes(bars), 1)), fns.log)
  }

  lemma LogReturnAt(bars: seq<Bar>, fns: Analysis, i: nat)
    requires ValidHistory(bars) && i < |bars|
    ensures |LogReturns(bars, fns)| == |bars|
    ensures LogReturns(bars, fns)[i] == if i == 0 then None else Some(fns.log(bars[i].close / bars[i - 1].close))
  {
  }

  lemma LogReturnsEnd(bars: seq<Bar>, fns: Analysis, i: nat)
    requires ValidHistory(bars) && 20 <= i < |bars|
    ensures |LogReturns(bars, fns)| == |bars| && EndsWith(LogReturns(bars, fns), i, LogReturnWindow(bars, fns, i))
  {
    hide LogReturns, ValidHistory;
    LogReturnAt(bars, fns, i);
    var first, window := i - 19, LogReturnWindow(bars, fns, i);
    forall j | first <= j <= i ensures LogReturns(bars, fns)[j] == Some(window[j - first]) {
      LogReturnAt(bars, fns, j);
    }
  }

  lemma TooShort(c: Series, i: nat, sqrt: real -> real)
    requires i < |c| && c[0] == None && i < 20
    ensures RollingStd(c, 20, 1, sqrt)[i] == None
  {
    if i == 19 {
      var window := c[i + 1 - 20..i + 1];
      assert window[0] == None && !Complete(window);
    }
  }

  lemma VolatilityKnown(bars: seq<Bar>, fns: Analysis, i: nat)
    requires ValidHistory(bars) && i < |bars|
    ensures Volatility(bars, fns)[i].None? <==> i < 20
    ensures i >= 20 ==> IsReading(Volatility(bars, fns)[i].value, bars, fns, i)
  {
    hide RollingStd, IsDeviation, LogReturns, LogReturnWindow, Mean, Variance, ValidHistory, EndsWith;
    var c := LogReturns(bars, fns);
    assert Volatility(bars, fns) == Mapped(RollingStd(c, 20, 1, fns.sqrt), x => x * fns.sqrt(252.0)) by {
      VolatilityUnfolds(bars, fns);
    }
    hide Volatility;
    LogReturnAt(bars, fns, 0);
    if i < 20 {
      TooShort(c, i, fns.sqrt);
    } else {
      LogReturnsEnd(bars, fns, i);
      DeviationAt(c, i, LogReturnWindow(bars, fns, i), 1, fns.sqrt);
    }
  }

  lemma VolatilityUnfolds(bars: seq<Bar>, fns: Analysis)
    ensures Volatility(bars, fns)
            == Mapped(RollingStd(LogReturns(bars, fns), 20, 1, fns.sqrt), x => x * fns.sqrt(252.0))
  {
  }

  lemma {:induction false} DeviationIsUnique(a: real, b: real, values: seq<real>, m: real, n: real, x: real, y: real,
                                             ddof: nat, sqrt: real -> real)
    requires ddof < |values|
    requires IsDeviation(a, values, m, x, ddof, sqrt) && IsDeviation(b, values, n, y, ddof, sqrt)
    ensures a == b
  {
    assert (m - n) * (|values| as real) == 0.0;
    assert m == n;
    assert (x - y) * ((|values| - ddof) as real) == 0.0;
    assert x == y;
  }

  /** A bar has one reading. */
  lemma ReadingIsUnique(a: real, b: real, bars: seq<Bar>, fns: Analysis, i: nat)
    requires ValidHistory(bars) && 20 <= i < |bars| && IsReading(a, bars, fns, i) && IsReading(b, bars, fns, i)
    ensures a == b
  {
    hide LogReturnWindow, ValidHistory, IsDeviation;
    var window := LogReturnWindow(bars, fns, i);
    var m, x, p :| IsDeviation(p, window, m, x, 1, fns.sqrt) && a == p * fns.sqrt(252.0);
    var n, y, q :| IsDeviation(q, window, n, y, 1, fns.sqrt) && b == q * fns.sqrt(252.0);
    DeviationIsUnique(p, q, window, m, n, x, y, 1, fns.sqrt);
  }

  /** The regime labels of every bar of a history, given the frozen threshold. */
  lemma RegimesExactly(bars: seq<Bar>, fns: Analysis, threshold: real, year: int -> int, i: nat)
    requires ValidHistory(bars) && i < |bars|
    ensures LabelsMean(RegimeFrame(bars, fns, threshold, year)[i], bars, fns, threshold, year, i)
  {
    hide RollingMean, Volatility, IsReading, RunningPeak, ValidHistory, Total, TenthBelow, Closes;
    TrendKnown(bars, i);
    VolatilityKnown(bars, fns, i);
    DrawdownLabel(bars, i);
    if i >= 20 {
      var reading := Volatility(bars, fns)[i].value;
      forall v | IsReading(v, bars, fns, i) ensures v == reading {
        ReadingIsUnique(v, reading, bars, fns, i);
      }
    }
  }

  // ---------------------------------------------------------------- the frozen threshold

  /** These rows are the bars of the sessions that have a reading, and these values their readings. */
  ghost predicate ReadingsOf(rows: seq<int>, values: seq<real>, bars: seq<Bar>, fns: Analysis, sessions: seq<int>,
                             n: nat)
    requires ValidHistory(bars) && n <= |bars|
  {
    && |rows| == |values|
    && (forall a, b :: 0 <= a < b < |rows| ==> rows[a] < rows[b])
    && (forall i :: i in rows <==> 20 <= i < n && bars[i].session in sessions)
    && (forall k :: 0 <= k < |rows| ==> 20 <= rows[k] < n && IsReading(values[k], bars, fns, rows[k]))
  }

  lemma ReadingPassed(rows: seq<int>, values: seq<real>, bars: seq<Bar>, fns: Analysis, sessions: seq<int>, n: nat)
    requires ValidHistory(bars) && n < |bars| && ReadingsOf(rows, values, bars, fns, sessions, n)
    requires n < 20 || bars[n].session !in sessions
    ensures ReadingsOf(rows, values, bars, fns, sessions, n + 1)
  {
    hide IsReading, ValidHistory;
  }

  lemma ReadingTaken(rows: seq<int>, values: seq<real>, v: real, bars: seq<Bar>, fns: Analysis, sessions: seq<int>,
                     n: nat)
    requires ValidHistory(bars) && n < |bars| && ReadingsOf(rows, values, bars, fns, sessions, n)
    requires 20 <= n && bars[n].session in sessions && IsReading(v, bars, fns, n)
    ensures ReadingsOf(rows + [n], values + [v], bars, fns, sessions, n + 1)
  {
    hide IsReading, ValidHistory;
    var longer := rows + [n];
    forall a | 0 <= a < |rows| ensures rows[a] < n {
      assert rows[a] in rows;
    }
    forall i ensures i in longer <==> 20 <= i < n + 1 && bars[i].session in sessions {
      assert i in longer <==> i in rows || i == n;
    }
  }

  lemma {:induction false} TrainingReadings(bars: seq<Bar>, fns: Analysis, sessions: seq<int>, n: nat)
    returns (rows: seq<int>)
    requires ValidHistory(bars) && n <= |bars|
    ensures ReadingsOf(rows, TrainingValues(bars, Volatility(bars, fns), sessions, n), bars, fns, sessions, n)
  {
    hide Volatility, IsReading, ValidHistory;
    if n == 0 {
      rows := [];
    } else {
      hide ReadingsOf;
      rows := TrainingReadings(bars, fns, sessions, n - 1);
      var values, column := TrainingValues(bars, Volatility(bars, fns), sessions, n - 1), Volatility(bars, fns);
      VolatilityKnown(bars, fns, n - 1);
      if n - 1 >= 20 && bars[n - 1].session in sessions {
        ReadingTaken(rows, values, column[n - 1].value, bars, fns, sessions, n - 1);
        rows := rows + [n - 1];
      } else {
        ReadingPassed(rows, values, bars, fns, sessions, n - 1);
      }
    }
  }

  /**
   The frozen threshold is the median of the annualised volatilities of exactly the given sessions that have twenty
   returns to look back on, and zero when none has.
   */
  lemma ThresholdExactly(bars: seq<Bar>, fns: Analysis, sessions: seq<int>)
    requires ValidHistory(bars)
    ensures exists rows, values ::
              && ReadingsOf(rows, values, bars, fns, sessions, |bars|)
              && IsMedian(TrainingVolatilityThreshold(bars, fns, sessions), values)
  {
    hide Volatility, IsReading, ValidHistory, Median, IsMedian, ReadingsOf;
    var values := TrainingValues(bars, Volatility(bars, fns), sessions, |bars|);
    var rows := TrainingReadings(bars, fns, sessions, |bars|);
    MedianIsMiddle(values);
  }
}
