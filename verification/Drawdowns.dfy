/** Running-peak drawdown against the worst drop over all pairs of points, and compounding of daily returns. */
module Drawdowns {
  import opened Aggregates
  import opened OrderCosts
  import opened BacktestEngine
  import opened BacktestMetrics
  import opened BacktestResult

  predicate Positive(points: seq<real>) {
    forall i :: 0 <= i < |points| ==> points[i] > 0.0
  }

  /** The relative change from an earlier point to a later one. */
  function Change(points: seq<real>, a: nat, b: nat): real
    requires Positive(points) && a < |points| && b < |points|
  {
    points[b] / points[a] - 1.0
  }

  /** `worst` is the lowest change from any of the first `n` points to a later one (or to itself). */
  ghost predicate IsWorstDrop(points: seq<real>, n: nat, worst: real)
    requires Positive(points) && n <= |points|
  {
    && (forall a, b :: 0 <= a <= b < n ==> worst <= Change(points, a, b))
    && (exists a, b :: 0 <= a <= b < n && Change(points, a, b) == worst)
  }

  ghost predicate IsPeak(points: seq<real>, n: nat, peak: real)
    requires n <= |points|
  {
    && (forall k :: 0 <= k < n ==> points[k] <= peak)
    && (exists k :: 0 <= k < n && points[k] == peak)
  }

  lemma SmallerBaseLargerChange(value: real, base: real, peak: real)
    requires value > 0.0 && 0.0 < base <= peak
    ensures value / peak - 1.0 <= value / base - 1.0
  {
    assert value / peak * peak == value && value / base * base == value;
    if value / peak > value / base {
      ProductPositive(value / peak - value / base, base);
      ProductNonNegative(value / peak, peak - base);
    }
  }

  lemma ChangeToItself(points: seq<real>, i: nat)
    requires Positive(points) && i < |points|
    ensures Change(points, i, i) == 0.0
  {
  }

  /** One step of the running peak keeps the worst drop. */
  lemma WorstDropGrows(points: seq<real>, n: nat, worst: real, peak: real)
    requires Positive(points) && n < |points|
    requires n == 0 ==> worst == 0.0
    requires n > 0 ==> IsWorstDrop(points, n, worst)
    requires IsPeak(points, n + 1, peak)
    ensures peak > 0.0
    ensures IsWorstDrop(points, n + 1, LesserOf(worst, points[n] / peak - 1.0))
  {
    var change := points[n] / peak - 1.0;
    var p :| 0 <= p < n + 1 && points[p] == peak;
    assert Change(points, p, n) == change;
    ChangeToItself(points, n);
    forall a | 0 <= a <= n ensures change <= Change(points, a, n) {
      SmallerBaseLargerChange(points[n], points[a], peak);
    }
    if n > 0 {
      var a, b :| 0 <= a <= b < n && Change(points, a, b) == worst;
    }
  }

  function LesserOf(a: real, b: real): real {
    if b < a then b else a
  }

  /** `fall` is the relative change to point `i` from the highest point so far, where that is positive. */
  ghost predicate IsFallFromPeak(points: seq<real>, i: nat, fall: real)
    requires i < |points|
  {
    exists p :: 0 <= p <= i && points[p] > 0.0 && (forall k :: 0 <= k <= i ==> points[k] <= points[p])
                && fall == points[i] / points[p] - 1.0
  }

  /** `worst` is the lowest fall from a peak among the first `n` points, or zero. */
  ghost predicate IsWorstFallFromPeak(points: seq<real>, n: nat, worst: real)
    requires n <= |points|
  {
    && worst <= 0.0
    && (forall i: nat, fall: real :: i < n && IsFallFromPeak(points, i, fall) ==> worst <= fall)
    && (worst == 0.0 || exists i: nat :: i < n && IsFallFromPeak(points, i, worst))
  }

  lemma FallFromThePeak(points: seq<real>, i: nat, peak: real, fall: real)
    requires i < |points| && IsPeak(points, i + 1, peak)
    ensures IsFallFromPeak(points, i, fall) <==> peak > 0.0 && fall == points[i] / peak - 1.0
  {
    var p :| 0 <= p < i + 1 && points[p] == peak;
    if IsFallFromPeak(points, i, fall) {
      var q :| 0 <= q <= i && points[q] > 0.0 && (forall k :: 0 <= k <= i ==> points[k] <= points[q])
               && fall == points[i] / points[q] - 1.0;
      assert points[p] <= points[q] <= peak;
    }
  }

  lemma WorstFallGrows(points: seq<real>, n: nat, worst: real, peak: real)
    requires n < |points| && IsWorstFallFromPeak(points, n, worst) && IsPeak(points, n + 1, peak)
    ensures IsWorstFallFromPeak(points, n + 1, if peak > 0.0 then LesserOf(worst, points[n] / peak - 1.0) else worst)
  {
    forall fall: real ensures IsFallFromPeak(points, n, fall) <==> peak > 0.0 && fall == points[n] / peak - 1.0 {
      FallFromThePeak(points, n, peak, fall);
    }
    hide IsFallFromPeak, IsPeak;
    var next := if peak > 0.0 then LesserOf(worst, points[n] / peak - 1.0) else worst;
    assert worst == 0.0 || exists i: nat :: i < n && IsFallFromPeak(points, i, worst);
    assert next == 0.0 || exists i: nat :: i < n + 1 && IsFallFromPeak(points, i, next) by {
      if next != worst {
        assert IsFallFromPeak(points, n, next);
      }
    }
  }

  lemma NoFallYet(points: seq<real>)
    ensures IsWorstFallFromPeak(points, 0, 0.0)
  {
  }

  /**
   The benchmark's one-pass drawdown of an equity curve: the lowest fall below a running peak, which for a curve that
   stays positive is the lowest change over all pairs of points.
   */
  method MaximumDrawdown(curve: seq<real>) returns (worst: real)
    ensures IsWorstFallFromPeak(curve, |curve|, worst)
    ensures curve != [] && Positive(curve) ==> IsWorstDrop(curve, |curve|, worst)
  {
    hide Change, IsWorstDrop, IsWorstFallFromPeak;
    worst := 0.0;
    NoFallYet(curve);
    if curve == [] {
      return;
    }
    var peak := curve[0];
    for i := 0 to |curve|
      invariant IsPeak(curve, if i == 0 then 1 else i, peak)
      invariant i == 0 ==> worst == 0.0
      invariant IsWorstFallFromPeak(curve, i, worst)
      invariant i > 0 && Positive(curve) ==> IsWorstDrop(curve, i, worst)
    {
      if curve[i] > peak {
        peak := curve[i];
      }
      WorstFallGrows(curve, i, worst, peak);
      if Positive(curve) {
        WorstDropGrows(curve, i, worst, peak);
      }
      if peak > 0.0 {
        worst := LesserOf(worst, curve[i] / peak - 1.0);
      }
    }
  }

  /**
   The benchmark's drawdown leaves the initial cash out, so it is never deeper than the reported one; the two
   agree exactly when no fall below the initial cash beats it, in particular when the first equity is not below it.
   */
  lemma LeavingOutInitialCash(curve: seq<real>, initial: real, reported: real, benchmark: real)
    requires curve != [] && Positive(curve) && initial > 0.0
    requires Positive([initial] + curve)
    requires IsWorstDrop([initial] + curve, |curve| + 1, reported)
    requires IsWorstDrop(curve, |curve|, benchmark)
    ensures reported <= benchmark
    ensures reported == benchmark <==> forall b :: 0 <= b < |curve| ==> benchmark <= curve[b] / initial - 1.0
    ensures curve[0] >= initial ==> reported == benchmark
  {
    var points := [initial] + curve;
    var a, b :| 0 <= a <= b < |curve| && Change(curve, a, b) == benchmark;
    assert Change(points, a + 1, b + 1) == benchmark;
    forall k | 0 <= k < |curve| ensures reported <= curve[k] / initial - 1.0 {
      assert Change(points, 0, k + 1) == curve[k] / initial - 1.0;
    }
    var c, d :| 0 <= c <= d < |points| && Change(points, c, d) == reported;
    if c > 0 {
      assert Change(curve, c - 1, d - 1) == reported;
    } else if d == 0 {
      ChangeToItself(points, 0);
      ChangeToItself(curve, 0);
    } else {
      assert reported == curve[d - 1] / initial - 1.0;
    }
    if curve[0] >= initial {
      forall k | 0 <= k < |curve| ensures benchmark <= curve[k] / initial - 1.0 {
        assert benchmark <= Change(curve, 0, k);
        SmallerBaseLargerChange(curve[k], initial, curve[0]);
      }
    }
  }

  // ---------------------------------------------------------------- the reported metrics

  /** The initial cash followed by the equity of every session. */
  function EquityPoints(rows: seq<PortfolioRow>): (points: seq<real>)
    ensures |points| == |rows| + 1
  {
    [INITIAL_CASH] + Column(rows, Equity)
  }

  lemma {:induction false} RunningPeakIsPeak(rows: seq<PortfolioRow>, n: nat)
    requires n <= |rows|
    ensures IsPeak(EquityPoints(rows), n + 1, PeakThrough(rows, n))
  {
    if n == 0 {
      assert EquityPoints(rows)[0] == INITIAL_CASH;
    } else {
      RunningPeakIsPeak(rows, n - 1);
      var points := EquityPoints(rows);
      assert points[n] == rows[n - 1].equity;
      var k :| 0 <= k < n && points[k] == PeakThrough(rows, n - 1);
    }
  }

  ghost predicate PositiveEquity(rows: seq<PortfolioRow>) {
    forall i :: 0 <= i < |rows| ==> rows[i].equity > 0.0
  }

  lemma PointsPositive(rows: seq<PortfolioRow>)
    requires PositiveEquity(rows)
    ensures Positive(EquityPoints(rows))
  {
  }

  /** A session's recorded drawdown is its change from the peak so far. */
  lemma RecordedDrawdown(rows: seq<PortfolioRow>, i: nat)
    requires PortfolioMeasured(rows) && i < |rows|
    ensures Column(rows, Drawdown)[i] == EquityPoints(rows)[i + 1] / PeakThrough(rows, i + 1) - 1.0
    ensures Column(rows, Drawdown)[i] <= 0.0
  {
    hide PeakThrough, EquityBefore, Chronological, Max;
    assert MetricRow(rows[i], EquityBefore(rows, i), PeakThrough(rows, i + 1));
  }

  lemma RecordedIsDeepest(rows: seq<PortfolioRow>, a: nat, i: nat)
    requires PortfolioMeasured(rows) && PositiveEquity(rows) && a <= i + 1 && i < |rows|
    ensures Positive(EquityPoints(rows))
    ensures Column(rows, Drawdown)[i] <= Change(EquityPoints(rows), a, i + 1)
  {
    hide PeakThrough, PortfolioMeasured, Column;
    PointsPositive(rows);
    RunningPeakIsPeak(rows, i + 1);
    RecordedDrawdown(rows, i);
    SmallerBaseLargerChange(EquityPoints(rows)[i + 1], EquityPoints(rows)[a], PeakThrough(rows, i + 1));
  }

  lemma RecordedIsAttained(rows: seq<PortfolioRow>, i: nat) returns (k: nat)
    requires PortfolioMeasured(rows) && PositiveEquity(rows) && i < |rows|
    ensures Positive(EquityPoints(rows)) && k <= i + 1
    ensures Change(EquityPoints(rows), k, i + 1) == Column(rows, Drawdown)[i]
  {
    hide PeakThrough, PortfolioMeasured, Column;
    PointsPositive(rows);
    RunningPeakIsPeak(rows, i + 1);
    RecordedDrawdown(rows, i);
    k :| 0 <= k < i + 2 && EquityPoints(rows)[k] == PeakThrough(rows, i + 1);
  }

  /** The lowest drawdown column entry is the worst drop over all pairs of points, initial cash included. */
  lemma LowestDrawdownIsWorstDrop(rows: seq<PortfolioRow>)
    requires PortfolioMeasured(rows) && PositiveEquity(rows)
    ensures Positive(EquityPoints(rows))
    ensures IsWorstDrop(EquityPoints(rows), |rows| + 1, Least(Column(rows, Drawdown)))
  {
    hide PortfolioMeasured, PositiveEquity, Column, Change, EquityPoints, Positive, Least;
    LeastIsNotPositive(rows);
    PointsPositive(rows);
    var points, lows := EquityPoints(rows), Column(rows, Drawdown);
    var least := Least(lows);
    forall a, b | 0 <= a <= b < |points| ensures least <= Change(points, a, b) {
      if b == 0 {
        ChangeToItself(points, 0);
      } else {
        RecordedIsDeepest(rows, a, b - 1);
        assert least <= lows[b - 1];
      }
    }
    var i :| 0 <= i < |lows| && lows[i] == least;
    var k := RecordedIsAttained(rows, i);
  }

  /** The product of (1 + daily return) over the first `n` sessions. */
  function Compounded(rows: seq<PortfolioRow>, n: nat): real
    requires n <= |rows|
  {
    if n == 0 then 1.0 else Compounded(rows, n - 1) * (1.0 + rows[n - 1].dailyReturn)
  }

  lemma Chain(a: real, b: real, c: real)
    requires a > 0.0 && b > 0.0
    ensures (b / a) * (1.0 + (c / b - 1.0)) == c / a
  {
    assert c / b * b == c && b / a * a == b && c / a * a == c;
    var left, right := (b / a) * (c / b), c / a;
    assert left * a == (b / a * a) * (c / b);
    assert (left - right) * a == 0.0;
    if left > right { ProductPositive(left - right, a); }
    if left < right { ProductPositive(right - left, a); }
  }

  lemma {:induction false} ReturnsCompound(rows: seq<PortfolioRow>, n: nat)
    requires PortfolioMeasured(rows) && n <= |rows|
    ensures Compounded(rows, n) == EquityBefore(rows, n) / INITIAL_CASH
  {
    hide PeakThrough, Chronological, Max;
    if n > 0 {
      ReturnsCompound(rows, n - 1);
      assert MetricRow(rows[n - 1], EquityBefore(rows, n - 1), PeakThrough(rows, n));
      Chain(INITIAL_CASH, EquityBefore(rows, n - 1), rows[n - 1].equity);
    }
  }

  /**
   What the metrics of an accepted result mean: total return is the compounded daily returns less one, and maximum
   drawdown is the worst drop from any point of the account's history, initial cash included, to a later one.
   */
  lemma MetricsMeanWhatTheySay(frames: Frames, metrics: Metrics, signals: seq<SignalRow>, prices: seq<PriceRow>,
                               costs: CostAssumptions)
    requires ValidInputs(signals, prices)
    requires ResultAccepts(frames, metrics, signals, prices, costs)
    ensures metrics.totalReturn == Compounded(frames.portfolio, |frames.portfolio|) - 1.0
    ensures Positive(EquityPoints(frames.portfolio))
    ensures IsWorstDrop(EquityPoints(frames.portfolio), |frames.portfolio| + 1, -metrics.maximumDrawdown)
    ensures 0.0 <= metrics.maximumDrawdown <= 1.0
  {
    hide EngineRun, PortfolioMeasured, PortfolioAccounts, FillsMeasured, OrdersMeasured, DecisionsMeasured, SameNumbers,
      NumbersPairUp, Sum, CountIf, Column, Compounded, IsWorstDrop, Positive, EquityPoints;
    ResultIsTheRun(frames, metrics, signals, prices, costs);
    RunEquityPositive(signals, prices, costs);
    var rows := frames.portfolio;
    LowestDrawdownIsWorstDrop(rows);
    ReturnsCompound(rows, |rows|);
    LeastIsNotPositive(rows);
  }

  lemma LeastIsNotPositive(rows: seq<PortfolioRow>)
    requires PortfolioMeasured(rows)
    ensures Least(Column(rows, Drawdown)) <= 0.0
  {
    assert Least(Column(rows, Drawdown)) <= Column(rows, Drawdown)[0];
  }
}
