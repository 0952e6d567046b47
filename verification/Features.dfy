/** The twelve trailing features of a daily price history, and their warm-up. */
module Features {
  import opened Wrappers
  import opened Columns

  const TRAILING_WARMUP_ROWS := 20

  datatype Bar = Bar(session: int, open: real, high: real, low: real, close: real, volume: nat)

  /** A validated history: sessions strictly increase and prices are positive. */
  ghost predicate ValidHistory(bars: seq<Bar>) {
    && (forall i, j :: 0 <= i < j < |bars| ==> bars[i].session < bars[j].session)
    && (forall i :: 0 <= i < |bars| ==>
          bars[i].open > 0.0 && bars[i].high > 0.0 && bars[i].low > 0.0 && bars[i].close > 0.0)
  }

  /** The transcendental functions of the numeric library; nothing is assumed of them. */
  datatype Analysis = Analysis(log: real -> real, log1p: real -> real, sqrt: real -> real)

  datatype Feature =
    | CloseReturn1d
    | CloseReturn5d
    | CloseReturn20d
    | OvernightGap1d
    | IntradayReturn1d
    | RangePct1d
    | CloseToSma5
    | CloseToSma20
    | RealizedVolatility5
    | RealizedVolatility20
    | LogVolumeChange1d
    | LogVolumeDeviation20

  const FEATURE_COLUMNS: seq<Feature> := [
    CloseReturn1d, CloseReturn5d, CloseReturn20d, OvernightGap1d, IntradayReturn1d, RangePct1d,
    CloseToSma5, CloseToSma20, RealizedVolatility5, RealizedVolatility20, LogVolumeChange1d, LogVolumeDeviation20]

  datatype FeatureRow = FeatureRow(session: int, values: seq<real>)

  datatype FeatureError = InsufficientSourceRows | UndefinedFeature

  function BarSessions(bars: seq<Bar>): (r: seq<int>)
    ensures |r| == |bars| && forall i :: 0 <= i < |bars| ==> r[i] == bars[i].session
  {
    seq(|bars|, i requires 0 <= i < |bars| => bars[i].session)
  }

  function Opens(bars: seq<Bar>): (c: Series)
    ensures |c| == |bars|
  {
    seq(|bars|, i requires 0 <= i < |bars| => Some(bars[i].open))
  }

  function Closes(bars: seq<Bar>): (c: Series)
    ensures |c| == |bars|
  {
    seq(|bars|, i requires 0 <= i < |bars| => Some(bars[i].close))
  }

  function Ranges(bars: seq<Bar>): (c: Series)
    ensures |c| == |bars|
  {
    seq(|bars|, i requires 0 <= i < |bars| => Some(bars[i].high - bars[i].low))
  }

  function Volumes(bars: seq<Bar>): (c: Series)
    ensures |c| == |bars|
  {
    seq(|bars|, i requires 0 <= i < |bars| => Some(bars[i].volume as real))
  }

  /** The relative change of one column over another. */
  function Relative(a: Series, b: Series): (r: Series)
    requires |a| == |b|
    ensures |r| == |a|
  {
    Mapped(Ratio(a, b), LessOne)
  }

  function CloseReturn(bars: seq<Bar>, k: nat): (r: Series)
    ensures |r| == |bars|
  {
    Relative(Closes(bars), Shift(Closes(bars), k))
  }

  function LogVolume(bars: seq<Bar>, fns: Analysis): (r: Series)
    ensures |r| == |bars|
  {
    Mapped(Volumes(bars), fns.log1p)
  }

  function FeatureColumn(f: Feature, bars: seq<Bar>, fns: Analysis): (r: Series)
    ensures |r| == |bars|
  {
    match f
    case CloseReturn1d => CloseReturn(bars, 1)
    case CloseReturn5d => CloseReturn(bars, 5)
    case CloseReturn20d => CloseReturn(bars, 20)
    case OvernightGap1d => Relative(Opens(bars), Shift(Closes(bars), 1))
    case IntradayReturn1d => Relative(Closes(bars), Opens(bars))
    case RangePct1d => Ratio(Ranges(bars), Opens(bars))
    case CloseToSma5 => Relative(Closes(bars), RollingMean(Closes(bars), 5))
    case CloseToSma20 => Relative(Closes(bars), RollingMean(Closes(bars), 20))
    case RealizedVolatility5 => RollingStd(CloseReturn(bars, 1), 5, 0, fns.sqrt)
    case RealizedVolatility20 => RollingStd(CloseReturn(bars, 1), 20, 0, fns.sqrt)
    case LogVolumeChange1d => Difference(LogVolume(bars, fns), Shift(LogVolume(bars, fns), 1))
    case LogVolumeDeviation20 => Difference(LogVolume(bars, fns), RollingMean(LogVolume(bars, fns), 20))
  }

  /** Every feature has a value at row `i`. */
  predicate RowDefined(bars: seq<Bar>, fns: Analysis, i: nat)
    requires i < |bars|
  {
    forall f <- FEATURE_COLUMNS :: FeatureColumn(f, bars, fns)[i].Some?
  }

  function FeatureRowAt(bars: seq<Bar>, fns: Analysis, i: nat): FeatureRow
    requires i < |bars| && RowDefined(bars, fns, i)
  {
    FeatureRow(
      bars[i].session,
      seq(|FEATURE_COLUMNS|, j requires 0 <= j < |FEATURE_COLUMNS| =>
        assert FEATURE_COLUMNS[j] in FEATURE_COLUMNS; FeatureColumn(FEATURE_COLUMNS[j], bars, fns)[i].value))
  }

  function BuildTrailingFeatureSet(bars: seq<Bar>, fns: Analysis): Result<seq<FeatureRow>, FeatureError> {
    if |bars| <= TRAILING_WARMUP_ROWS then
      Err(InsufficientSourceRows)
    else if exists i | TRAILING_WARMUP_ROWS <= i < |bars| :: !RowDefined(bars, fns, i) then
      Err(UndefinedFeature)
    else
      Ok(seq(|bars| - TRAILING_WARMUP_ROWS, k requires 0 <= k < |bars| - TRAILING_WARMUP_ROWS =>
        assert RowDefined(bars, fns, TRAILING_WARMUP_ROWS + k); FeatureRowAt(bars, fns, TRAILING_WARMUP_ROWS + k)))
  }

  // ---------------------------------------------------------------- looking only backwards

  lemma PricesAgree(a: seq<Bar>, b: seq<Bar>, n: nat)
    requires Agree(a, b, n)
    ensures Agree(Opens(a), Opens(b), n) && Agree(Closes(a), Closes(b), n)
    ensures Agree(Ranges(a), Ranges(b), n) && Agree(Volumes(a), Volumes(b), n)
  {
  }

  lemma RelativeAgrees(a: Series, b: Series, c: Series, d: Series, n: nat)
    requires |a| == |b| && |c| == |d| && Agree(a, c, n) && Agree(b, d, n)
    ensures Agree(Relative(a, b), Relative(c, d), n)
  {
    hide Agree, Ratio, Mapped;
    RatioAgrees(a, b, c, d, n);
    MappedAgrees(Ratio(a, b), Ratio(c, d), LessOne, n);
  }

  lemma CloseReturnAgrees(a: seq<Bar>, b: seq<Bar>, k: nat, n: nat)
    requires Agree(a, b, n)
    ensures Agree(CloseReturn(a, k), CloseReturn(b, k), n)
  {
    hide Agree, Shift, Relative, Closes;
    PricesAgree(a, b, n);
    ShiftAgrees(Closes(a), Closes(b), k, n);
    RelativeAgrees(Closes(a), Shift(Closes(a), k), Closes(b), Shift(Closes(b), k), n);
  }

  lemma RollingMeanAgrees(a: Series, b: Series, w: nat, n: nat)
    requires Agree(a, b, n)
    ensures Agree(RollingMean(a, w), RollingMean(b, w), n)
  {
    hide Agree, Rolling;
    RollingAgrees(a, b, w, MeanOrZero, n);
  }

  lemma RollingStdAgrees(a: Series, b: Series, w: nat, ddof: nat, sqrt: real -> real, n: nat)
    requires Agree(a, b, n)
    ensures Agree(RollingStd(a, w, ddof, sqrt), RollingStd(b, w, ddof, sqrt), n)
  {
    forall i | 0 <= i < n ensures RollingStd(a, w, ddof, sqrt)[i] == RollingStd(b, w, ddof, sqrt)[i] {
      if w <= i + 1 {
        assert a[i + 1 - w..i + 1] == b[i + 1 - w..i + 1];
      }
    }
  }

  lemma LogVolumeAgrees(a: seq<Bar>, b: seq<Bar>, fns: Analysis, n: nat)
    requires Agree(a, b, n)
    ensures Agree(LogVolume(a, fns), LogVolume(b, fns), n)
  {
    hide Agree, Mapped, Volumes;
    PricesAgree(a, b, n);
    MappedAgrees(Volumes(a), Volumes(b), fns.log1p, n);
  }

  /** The first `n` entries of every feature column depend only on the first `n` bars. */
  lemma FeatureLooksBack(f: Feature, a: seq<Bar>, b: seq<Bar>, fns: Analysis, n: nat)
    requires Agree(a, b, n)
    ensures Agree(FeatureColumn(f, a, fns), FeatureColumn(f, b, fns), n)
  {
    hide Agree, Shift, Relative, Closes, Opens, Ranges, Volumes, RollingMean, RollingStd, CloseReturn, LogVolume, Ratio,
      Difference;
    PricesAgree(a, b, n);
    match f
    case CloseReturn1d => CloseReturnAgrees(a, b, 1, n);
    case CloseReturn5d => CloseReturnAgrees(a, b, 5, n);
    case CloseReturn20d => CloseReturnAgrees(a, b, 20, n);
    case OvernightGap1d =>
      ShiftAgrees(Closes(a), Closes(b), 1, n);
      RelativeAgrees(Opens(a), Shift(Closes(a), 1), Opens(b), Shift(Closes(b), 1), n);
    case IntradayReturn1d =>
      RelativeAgrees(Closes(a), Opens(a), Closes(b), Opens(b), n);
    case RangePct1d =>
      RatioAgrees(Ranges(a), Opens(a), Ranges(b), Opens(b), n);
    case CloseToSma5 =>
      RollingMeanAgrees(Closes(a), Closes(b), 5, n);
      RelativeAgrees(Closes(a), RollingMean(Closes(a), 5), Closes(b), RollingMean(Closes(b), 5), n);
    case CloseToSma20 =>
      RollingMeanAgrees(Closes(a), Closes(b), 20, n);
      RelativeAgrees(Closes(a), RollingMean(Closes(a), 20), Closes(b), RollingMean(Closes(b), 20), n);
    case RealizedVolatility5 =>
      CloseReturnAgrees(a, b, 1, n);
      RollingStdAgrees(CloseReturn(a, 1), CloseReturn(b, 1), 5, 0, fns.sqrt, n);
    case RealizedVolatility20 =>
      CloseReturnAgrees(a, b, 1, n);
      RollingStdAgrees(CloseReturn(a, 1), CloseReturn(b, 1), 20, 0, fns.sqrt, n);
    case LogVolumeChange1d =>
      LogVolumeAgrees(a, b, fns, n);
      ShiftAgrees(LogVolume(a, fns), LogVolume(b, fns), 1, n);
      DifferenceAgrees(LogVolume(a, fns), Shift(LogVolume(a, fns), 1), LogVolume(b, fns), Shift(LogVolume(b, fns), 1),
                       n);
    case LogVolumeDeviation20 =>
      LogVolumeAgrees(a, b, fns, n);
      RollingMeanAgrees(LogVolume(a, fns), LogVolume(b, fns), 20, n);
      DifferenceAgrees(LogVolume(a, fns), RollingMean(LogVolume(a, fns), 20),
                       LogVolume(b, fns), RollingMean(LogVolume(b, fns), 20), n);
  }

  /** Feature rows before `n` are the same for histories that agree on their first `n` bars. */
  lemma FeatureRowLooksBack(a: seq<Bar>, b: seq<Bar>, fns: Analysis, n: nat, i: nat)
    requires Agree(a, b, n) && i < n
    ensures RowDefined(a, fns, i) <==> RowDefined(b, fns, i)
    ensures RowDefined(a, fns, i) ==> FeatureRowAt(a, fns, i) == FeatureRowAt(b, fns, i)
  {
    hide FeatureColumn;
    forall f ensures FeatureColumn(f, a, fns)[i] == FeatureColumn(f, b, fns)[i] {
      FeatureLooksBack(f, a, b, fns, n);
    }
    if RowDefined(a, fns, i) {
      assert FeatureRowAt(a, fns, i).values == FeatureRowAt(b, fns, i).values;
    }
  }

  // ---------------------------------------------------------------- the warm-up is exact

  lemma CloseReturnKnown(bars: seq<Bar>, k: nat)
    requires ValidHistory(bars)
    ensures KnownFrom(CloseReturn(bars, k), k)
  {
  }

  lemma RelativeToMeanKnown(bars: seq<Bar>, w: nat)
    requires ValidHistory(bars) && w >= 1
    ensures KnownFrom(Relative(Closes(bars), RollingMean(Closes(bars), w)), w - 1)
  {
    hide RollingMean;
    RollingMeanPositive(Closes(bars), w, 0);
  }

  lemma FeatureKnown(f: Feature, bars: seq<Bar>, fns: Analysis)
    requires ValidHistory(bars)
    ensures KnownFrom(FeatureColumn(f, bars, fns), TRAILING_WARMUP_ROWS)
  {
    hide Rolling, CloseReturn, Relative, RollingMean, RollingStd;
    match f
    case CloseReturn1d => CloseReturnKnown(bars, 1);
    case CloseReturn5d => CloseReturnKnown(bars, 5);
    case CloseReturn20d => CloseReturnKnown(bars, 20);
    case OvernightGap1d => GapKnown(bars);
    case IntradayReturn1d => GapKnown(bars);
    case RangePct1d =>
    case CloseToSma5 => RelativeToMeanKnown(bars, 5);
    case CloseToSma20 => RelativeToMeanKnown(bars, 20);
    case RealizedVolatility5 =>
      CloseReturnKnown(bars, 1);
      StdKnown(CloseReturn(bars, 1), 5, fns.sqrt);
    case RealizedVolatility20 =>
      CloseReturnKnown(bars, 1);
      StdKnown(CloseReturn(bars, 1), 20, fns.sqrt);
    case LogVolumeChange1d =>
    case LogVolumeDeviation20 =>
      MeanKnown(LogVolume(bars, fns), 20);
  }

  lemma GapKnown(bars: seq<Bar>)
    requires ValidHistory(bars)
    ensures KnownFrom(Relative(Opens(bars), Shift(Closes(bars), 1)), 1)
    ensures KnownFrom(Relative(Closes(bars), Opens(bars)), 0)
  {
  }

  lemma StdKnown(c: Series, w: nat, sqrt: real -> real)
    requires w >= 1 && KnownFrom(c, 1)
    ensures KnownFrom(RollingStd(c, w, 0, sqrt), w)
  {
    RollingKnown(c, w, Deviation(0, sqrt), 1);
  }

  lemma MeanKnown(c: Series, w: nat)
    requires w >= 1 && KnownFrom(c, 0)
    ensures KnownFrom(RollingMean(c, w), w - 1)
  {
    RollingKnown(c, w, MeanOrZero, 0);
  }

  /** After the warm-up nothing is undefined: more than twenty bars always give one feature row per later bar. */
  lemma FeaturesAlwaysBuilt(bars: seq<Bar>, fns: Analysis)
    requires ValidHistory(bars)
    ensures var r := BuildTrailingFeatureSet(bars, fns);
            if |bars| <= TRAILING_WARMUP_ROWS then r == Err(InsufficientSourceRows)
            else && r.Ok? && |r.value| == |bars| - TRAILING_WARMUP_ROWS
                 && forall k :: 0 <= k < |r.value| ==>
                      && RowDefined(bars, fns, TRAILING_WARMUP_ROWS + k)
                      && r.value[k] == FeatureRowAt(bars, fns, TRAILING_WARMUP_ROWS + k)
  {
    hide FeatureColumn, ValidHistory;
    forall i | TRAILING_WARMUP_ROWS <= i < |bars| ensures RowDefined(bars, fns, i) {
      forall f ensures FeatureColumn(f, bars, fns)[i].Some? {
        FeatureKnown(f, bars, fns);
      }
    }
  }

  /** No shorter warm-up would do. */
  lemma WarmupIsNecessary(bars: seq<Bar>, fns: Analysis, i: nat)
    requires i < |bars|
    ensures i < TRAILING_WARMUP_ROWS ==> !RowDefined(bars, fns, i)
  {
    assert CloseReturn20d in FEATURE_COLUMNS by {
      assert FEATURE_COLUMNS[2] == CloseReturn20d;
    }
    if i < TRAILING_WARMUP_ROWS {
      assert FeatureColumn(CloseReturn20d, bars, fns)[i] == None;
    }
  }
}
