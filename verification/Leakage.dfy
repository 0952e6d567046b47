/**
 The whole data pipeline, from price history to split and frozen volatility threshold, and what later prices cannot
 change: nothing the model is trained on depends on a bar of the validation period, nothing it is selected on
 depends on a bar of the final test period.
 */
module Leakage {
  import opened Sequences
  import opened Wrappers
  import opened Columns
  import opened Features
  import opened Datasets
  import opened Splits
  import opened Medians

  datatype PipelineError =
    | FeaturesRefused(feature: FeatureError)
    | DatasetRefused(dataset: DatasetError)
    | SplitRefused(split: SplitError)

  /** Features, labels, alignment and split of one history. */
  function BuildPhase2(bars: seq<Bar>, fns: Analysis, rate: real): Result<Phase2Split, PipelineError>
    requires ValidHistory(bars) && rate >= 0.0
  {
    match BuildTrailingFeatureSet(bars, fns)
    case Err(e) => Err(FeaturesRefused(e))
    case Ok(features) =>
      match LabelsOf(bars, rate)
      case Err(e) => Err(DatasetRefused(e))
      case Ok(labels) =>
        CommonAreSupervised(features, labels, bars, fns, rate);
        match BuildSupervisedDataset(features, labels)
        case Err(e) => Err(DatasetRefused(e))
        case Ok(supervised) =>
          match ConstructPhase2Split(supervised, BarSessions(bars))
          case Err(e) => Err(SplitRefused(e))
          case Ok(split) => Ok(split)
  }

  // ---------------------------------------------------------------- the frozen volatility threshold

  /** Annualised standard deviation of the last twenty log returns, row by row. */
  function Volatility(bars: seq<Bar>, fns: Analysis): (r: Series)
    ensures |r| == |bars|
  {
    Mapped(RollingStd(Mapped(Ratio(Closes(bars), Shift(Closes(bars), 1)), fns.log), 20, 1, fns.sqrt),
           x => x * fns.sqrt(252.0))
  }

  /** The known values in the training sessions among the first `n` rows. */
  function TrainingValues(bars: seq<Bar>, column: Series, sessions: seq<int>, n: nat): seq<real>
    requires |column| == |bars| && n <= |bars|
  {
    if n == 0 then
      []
    else if bars[n - 1].session in sessions && column[n - 1].Some? then
      TrainingValues(bars, column, sessions, n - 1) + [column[n - 1].value]
    else
      TrainingValues(bars, column, sessions, n - 1)
  }

  function TrainingVolatilityThreshold(bars: seq<Bar>, fns: Analysis, sessions: seq<int>): real {
    Median(TrainingValues(bars, Volatility(bars, fns), sessions, |bars|))
  }

  // ---------------------------------------------------------------- what the pipeline builds

  lemma AlignedIsValid(s: Supervised, bars: seq<Bar>, fns: Analysis, rate: real)
    requires ValidHistory(bars) && rate >= 0.0 && s.labels != []
    requires AlignedRows(s, bars, fns, rate, TRAILING_WARMUP_ROWS)
    ensures ValidSupervised(s)
    ensures forall k :: 0 <= k < |s.labels| ==> s.labels[k].session == bars[TRAILING_WARMUP_ROWS + k].session
  {
    hide ValidHistory, RowDefined, NetForwardReturn;
    forall k | 0 <= k < |s.labels|
      ensures s.labels[k].session == s.features[k].session == bars[TRAILING_WARMUP_ROWS + k].session
      ensures s.labels[k].entrySession == bars[TRAILING_WARMUP_ROWS + k + ENTRY_OFFSET_SESSIONS].session
      ensures s.labels[k].exitSession == bars[TRAILING_WARMUP_ROWS + k + EXIT_OFFSET_SESSIONS].session
    {
      assert s.labels[k] == LabelAt(bars, TRAILING_WARMUP_ROWS + k, rate);
      assert s.features[k] == FeatureRowAt(bars, fns, TRAILING_WARMUP_ROWS + k);
    }
    ConsecutiveTimeline(s.labels, BarSessions(bars), TRAILING_WARMUP_ROWS) by {
      forall i, j | 0 <= i < j < |bars| ensures bars[i].session < bars[j].session {
        SessionsOrdered(bars, i, j);
      }
    }
  }

  lemma ConsecutiveTimeline(labels: seq<LabelRow>, source: seq<int>, first: nat)
    requires Increasing(source) && first + |labels| + EXIT_OFFSET_SESSIONS <= |source|
    requires forall k :: 0 <= k < |labels| ==>
               && labels[k].session == source[first + k]
               && labels[k].entrySession == source[first + k + ENTRY_OFFSET_SESSIONS]
               && labels[k].exitSession == source[first + k + EXIT_OFFSET_SESSIONS]
    ensures Timeline(labels)
  {
    hide Increasing;
    forall i, j | 0 <= i < j < |labels|
      ensures labels[i].session < labels[j].session
      ensures labels[i].entrySession < labels[j].entrySession
      ensures labels[i].exitSession < labels[j].exitSession
    {
      Rises(source, first + i, first + j);
      Rises(source, first + i + ENTRY_OFFSET_SESSIONS, first + j + ENTRY_OFFSET_SESSIONS);
      Rises(source, first + i + EXIT_OFFSET_SESSIONS, first + j + EXIT_OFFSET_SESSIONS);
    }
    forall i | 0 <= i < |labels| ensures labels[i].session < labels[i].entrySession < labels[i].exitSession {
      Rises(source, first + i, first + i + ENTRY_OFFSET_SESSIONS);
      Rises(source, first + i + ENTRY_OFFSET_SESSIONS, first + i + EXIT_OFFSET_SESSIONS);
    }
  }

  lemma Rises(source: seq<int>, i: nat, j: nat)
    requires Increasing(source) && i < j < |source|
    ensures source[i] < source[j]
  {
  }

  lemma SupervisedOf(bars: seq<Bar>, fns: Analysis, rate: real) returns (s: Supervised)
    requires ValidHistory(bars) && rate >= 0.0 && BuildPhase2(bars, fns, rate).Ok?
    ensures AlignedRows(s, bars, fns, rate, TRAILING_WARMUP_ROWS) && |s.labels| == SupervisedRows(bars) > 0
    ensures ConstructPhase2Split(s, BarSessions(bars)) == Ok(BuildPhase2(bars, fns, rate).value)
  {
    hide ValidHistory, BuildTrailingFeatureSet, LabelsOf, BuildSupervisedDataset, ConstructPhase2Split, AlignedRows;
    var features, labels := BuildTrailingFeatureSet(bars, fns).value, LabelsOf(bars, rate).value;
    AlignmentIsPositional(features, labels, bars, fns, rate);
    s := BuildSupervisedDataset(features, labels).value;
  }

  /** A partition made of `count` consecutive bars from bar `first` on. */
  ghost predicate MadeFrom(p: Partition, bars: seq<Bar>, fns: Analysis, rate: real, first: nat, count: nat)
    requires ValidHistory(bars) && rate >= 0.0
  {
    && |p.features| == |p.labels| == count
    && FeaturesFrom(p.features, bars, fns, first)
    && LabelsFrom(p.labels, bars, rate, first)
  }

  lemma MadeFromSlice(s: Supervised, bars: seq<Bar>, fns: Analysis, rate: real, p: nat, q: nat, purged: nat)
    requires ValidHistory(bars) && rate >= 0.0
    requires AlignedRows(s, bars, fns, rate, TRAILING_WARMUP_ROWS) && p <= q <= |s.labels|
    ensures MadeFrom(Partition(s.features[p..q], s.labels[p..q], purged), bars, fns, rate, TRAILING_WARMUP_ROWS + p,
                     q - p)
  {
    hide FeaturesFrom, LabelsFrom, ValidHistory;
    FeaturesSlice(s.features, bars, fns, TRAILING_WARMUP_ROWS, p, q);
    LabelsSlice(s.labels, bars, rate, TRAILING_WARMUP_ROWS, p, q);
  }

  /** Where in the history each part of a successful split comes from. */
  ghost predicate SplitOf(split: Phase2Split, bars: seq<Bar>, fns: Analysis, rate: real)
    requires ValidHistory(bars) && rate >= 0.0
  {
    var n := SupervisedRows(bars);
    && n > 2 * BOUNDARY_EXCLUSION_SESSIONS
    && TestStart(n) < n
    && TrainRows(n) > 0
    && MadeFrom(split.partitions.train, bars, fns, rate, TRAILING_WARMUP_ROWS, TrainRows(n))
    && MadeFrom(split.partitions.validation, bars, fns, rate, TRAILING_WARMUP_ROWS + ValidationStart(n),
                ValidationRows(n))
    && MadeFrom(split.partitions.test, bars, fns, rate, TRAILING_WARMUP_ROWS + TestStart(n), n - TestStart(n))
    && split.manifest.spec.validationStart == bars[TRAILING_WARMUP_ROWS + ValidationStart(n)].session
    && split.manifest.spec.testStart == bars[TRAILING_WARMUP_ROWS + TestStart(n)].session
    && split.manifest.train == BarSessions(bars)[TRAILING_WARMUP_ROWS..TRAILING_WARMUP_ROWS + TrainRows(n)]
  }

  lemma SplitComesFrom(bars: seq<Bar>, fns: Analysis, rate: real)
    requires ValidHistory(bars) && rate >= 0.0 && BuildPhase2(bars, fns, rate).Ok?
    ensures SplitOf(BuildPhase2(bars, fns, rate).value, bars, fns, rate)
  {
    hide ValidHistory, BuildPhase2, AlignedRows, MadeFrom, ConstructPhase2Split, TrainRows, ValidationRows,
      MeetsMinimums, SplitLayout, ValidSupervised;
    var s := SupervisedOf(bars, fns, rate);
    AlignedIsValid(s, bars, fns, rate);
    var source, n := BarSessions(bars), |s.labels|;
    ConstructionOutcome(s, source);
    var a, v, t := TrainRows(n), ValidationStart(n), TestStart(n);
    SplitRowsPositive(s, source);
    TrainSessions(s, source);
    MadeFromSlice(s, bars, fns, rate, 0, a, BOUNDARY_EXCLUSION_SESSIONS);
    MadeFromSlice(s, bars, fns, rate, v, v + ValidationRows(n), BOUNDARY_EXCLUSION_SESSIONS);
    MadeFromSlice(s, bars, fns, rate, t, n, 0);
  }

  lemma TrainSessions(s: Supervised, source: seq<int>)
    requires ValidSupervised(s) && ConstructPhase2Split(s, source).Ok?
    requires |source| >= TRAILING_WARMUP_ROWS + |s.labels| && |s.labels| > 2 * BOUNDARY_EXCLUSION_SESSIONS
    requires forall i :: 0 <= i < |s.labels| ==> s.labels[i].session == source[TRAILING_WARMUP_ROWS + i]
    ensures ConstructPhase2Split(s, source).value.manifest.train
         == source[TRAILING_WARMUP_ROWS..TRAILING_WARMUP_ROWS + TrainRows(|s.labels|)]
  {
    hide ConstructPhase2Split, TrainRows, ValidationRows, SplitLayout, Timeline, Increasing;
    ManifestLists(s, source);
    LabelsIncrease(s.labels);
    LayoutAlwaysFits(LabelSessions(s.labels));
    SourceSlice(s.labels, source, 0, TrainRows(|s.labels|));
  }

  lemma SplitRowsPositive(s: Supervised, source: seq<int>)
    requires ValidSupervised(s) && ConstructPhase2Split(s, source).Ok?
    ensures |s.labels| > 2 * BOUNDARY_EXCLUSION_SESSIONS
    ensures TrainRows(|s.labels|) > 0 && ValidationRows(|s.labels|) > 0
  {
    hide ConstructPhase2Split, TrainRows, ValidationRows, MeetsMinimums, SplitLayout, Timeline;
    ConstructionOutcome(s, source);
  }

  /** The manifest's seven session lists tile the sessions of the history, whatever its prices. */
  lemma HistoryIsTiled(bars: seq<Bar>, fns: Analysis, rate: real)
    requires ValidHistory(bars) && rate >= 0.0 && BuildPhase2(bars, fns, rate).Ok?
    ensures var m := BuildPhase2(bars, fns, rate).value.manifest;
            m.warmup + m.train + m.trainGap + m.validation + m.testGap + m.finalTest + m.horizon == BarSessions(bars)
  {
    hide ValidHistory, BuildPhase2, AlignedRows, ConstructPhase2Split, Timeline;
    var s := SupervisedOf(bars, fns, rate);
    AlignedIsValid(s, bars, fns, rate);
    SessionsTile(s, BarSessions(bars));
  }

  // ---------------------------------------------------------------- what later prices cannot change

  /** Two histories of the same sessions that agree on every bar before a session. */
  ghost predicate AgreeBefore(a: seq<Bar>, b: seq<Bar>, session: int) {
    && BarSessions(a) == BarSessions(b)
    && forall i :: 0 <= i < |a| && a[i].session < session ==> a[i] == b[i]
  }

  lemma AgreeOnPrefix(a: seq<Bar>, b: seq<Bar>, n: nat)
    requires ValidHistory(a) && n < |a| && AgreeBefore(a, b, a[n].session)
    ensures Agree(a, b, n)
  {
    hide ValidHistory;
    assert |a| == |BarSessions(a)| == |BarSessions(b)| == |b|;
    forall i | 0 <= i < n ensures a[i] == b[i] {
      SessionsOrdered(a, i, n);
    }
  }

  lemma SameFeatures(x: seq<FeatureRow>, y: seq<FeatureRow>, a: seq<Bar>, b: seq<Bar>, fns: Analysis, first: nat,
                     n: nat)
    requires FeaturesFrom(x, a, fns, first) && FeaturesFrom(y, b, fns, first) && |x| == |y|
    requires Agree(a, b, n) && first + |x| <= n
    ensures x == y
  {
    hide RowDefined, FeatureRowAt, Agree;
    forall k | 0 <= k < |x| ensures x[k] == y[k] {
      FeatureRowLooksBack(a, b, fns, n, first + k);
      assert x[first + k - first] == FeatureRowAt(a, fns, first + k);
      assert y[first + k - first] == FeatureRowAt(b, fns, first + k);
    }
  }

  lemma SameLabels(x: seq<LabelRow>, y: seq<LabelRow>, a: seq<Bar>, b: seq<Bar>, rate: real, first: nat, n: nat)
    requires ValidHistory(a) && ValidHistory(b) && rate >= 0.0
    requires LabelsFrom(x, a, rate, first) && LabelsFrom(y, b, rate, first) && |x| == |y|
    requires Agree(a, b, n) && first + |x| + EXIT_OFFSET_SESSIONS <= n
    ensures x == y
  {
    hide ValidHistory, NetForwardReturn;
    forall k | 0 <= k < |x| ensures x[k] == y[k] {
      assert x[first + k - first] == LabelAt(a, first + k, rate);
      assert y[first + k - first] == LabelAt(b, first + k, rate);
    }
  }

  lemma VolatilityAgrees(a: seq<Bar>, b: seq<Bar>, fns: Analysis, n: nat)
    requires Agree(a, b, n)
    ensures Agree(Volatility(a, fns), Volatility(b, fns), n)
  {
    hide Agree, Ratio, Shift, Closes, RollingStd;
    PricesAgree(a, b, n);
    ShiftAgrees(Closes(a), Closes(b), 1, n);
    RatioAgrees(Closes(a), Shift(Closes(a), 1), Closes(b), Shift(Closes(b), 1), n);
    var ra, rb := Ratio(Closes(a), Shift(Closes(a), 1)), Ratio(Closes(b), Shift(Closes(b), 1));
    MappedAgrees(ra, rb, fns.log, n);
    RollingStdAgrees(Mapped(ra, fns.log), Mapped(rb, fns.log), 20, 1, fns.sqrt, n);
    ScaledAgrees(RollingStd(Mapped(ra, fns.log), 20, 1, fns.sqrt), RollingStd(Mapped(rb, fns.log), 20, 1, fns.sqrt),
                 fns, n);
  }

  lemma ScaledAgrees(a: Series, b: Series, fns: Analysis, n: nat)
    requires Agree(a, b, n)
    ensures Agree(Mapped(a, x => x * fns.sqrt(252.0)), Mapped(b, x => x * fns.sqrt(252.0)), n)
  {
  }

  lemma {:induction false} SameValues(a: seq<Bar>, b: seq<Bar>, x: Series, y: Series, sessions: seq<int>, n: nat)
    requires |x| == |a| && |y| == |b| && Agree(a, b, n) && Agree(x, y, n)
    ensures TrainingValues(a, x, sessions, n) == TrainingValues(b, y, sessions, n)
  {
    if n > 0 {
      SameValues(a, b, x, y, sessions, n - 1);
    }
  }

  lemma {:induction false} LaterRowsAddNothing(bars: seq<Bar>, column: Series, sessions: seq<int>, n: nat, m: nat)
    requires |column| == |bars| && n <= m <= |bars|
    requires forall i :: n <= i < |bars| ==> bars[i].session !in sessions
    ensures TrainingValues(bars, column, sessions, m) == TrainingValues(bars, column, sessions, n)
    decreases m
  {
    if n < m {
      LaterRowsAddNothing(bars, column, sessions, n, m - 1);
    }
  }

  lemma NotAmongEarlier(bars: seq<Bar>, low: nat, high: nat, i: nat)
    requires ValidHistory(bars) && low <= high <= i < |bars|
    ensures bars[i].session !in BarSessions(bars)[low..high]
  {
    hide ValidHistory;
    var part := BarSessions(bars)[low..high];
    forall k | 0 <= k < |part| ensures part[k] != bars[i].session {
      SessionsOrdered(bars, low + k, i);
    }
  }

  lemma SameThreshold(a: seq<Bar>, b: seq<Bar>, fns: Analysis, low: nat, high: nat, n: nat)
    requires ValidHistory(a) && ValidHistory(b) && BarSessions(a) == BarSessions(b)
    requires Agree(a, b, n) && low <= high <= n
    ensures TrainingVolatilityThreshold(a, fns, BarSessions(a)[low..high])
         == TrainingVolatilityThreshold(b, fns, BarSessions(b)[low..high])
  {
    hide ValidHistory, Volatility, Median;
    var sessions := BarSessions(a)[low..high];
    VolatilityAgrees(a, b, fns, n);
    assert |a| == |BarSessions(a)| == |b|;
    forall i | n <= i < |a| ensures a[i].session !in sessions && b[i].session !in sessions {
      NotAmongEarlier(a, low, high, i);
      NotAmongEarlier(b, low, high, i);
    }
    SameValues(a, b, Volatility(a, fns), Volatility(b, fns), sessions, n);
    LaterRowsAddNothing(a, Volatility(a, fns), sessions, n, |a|);
    LaterRowsAddNothing(b, Volatility(b, fns), sessions, n, |b|);
  }

  /**
   Training does not see the validation period: histories of the same sessions that agree on every bar before
   validation starts give the same training features, training labels and volatility threshold.
   */
  lemma TrainIgnoresLaterPrices(a: seq<Bar>, b: seq<Bar>, fns: Analysis, rate: real)
    requires ValidHistory(a) && ValidHistory(b) && rate >= 0.0
    requires BuildPhase2(a, fns, rate).Ok? && BuildPhase2(b, fns, rate).Ok?
    requires AgreeBefore(a, b, BuildPhase2(a, fns, rate).value.manifest.spec.validationStart)
    ensures var (x, y) := (BuildPhase2(a, fns, rate).value, BuildPhase2(b, fns, rate).value);
            && x.partitions.train.features == y.partitions.train.features
            && x.partitions.train.labels == y.partitions.train.labels
            && TrainingVolatilityThreshold(a, fns, x.manifest.train)
               == TrainingVolatilityThreshold(b, fns, y.manifest.train)
  {
    hide ValidHistory, BuildPhase2, TrainRows, ValidationRows, FeaturesFrom, LabelsFrom, TrainingVolatilityThreshold,
      Agree;
    SplitComesFrom(a, fns, rate);
    SplitComesFrom(b, fns, rate);
    assert |a| == |BarSessions(a)| == |BarSessions(b)| == |b|;
    var x, y := BuildPhase2(a, fns, rate).value, BuildPhase2(b, fns, rate).value;
    var rows := TrainRows(SupervisedRows(a));
    var n := TRAILING_WARMUP_ROWS + ValidationStart(SupervisedRows(a));
    AgreeOnPrefix(a, b, n);
    SameFeatures(x.partitions.train.features, y.partitions.train.features, a, b, fns, TRAILING_WARMUP_ROWS, n);
    SameLabels(x.partitions.train.labels, y.partitions.train.labels, a, b, rate, TRAILING_WARMUP_ROWS, n);
    SameThreshold(a, b, fns, TRAILING_WARMUP_ROWS, TRAILING_WARMUP_ROWS + rows, n);
  }

  /** Nor do training and validation together see the final test period. */
  lemma SelectionIgnoresTestPrices(a: seq<Bar>, b: seq<Bar>, fns: Analysis, rate: real)
    requires ValidHistory(a) && ValidHistory(b) && rate >= 0.0
    requires BuildPhase2(a, fns, rate).Ok? && BuildPhase2(b, fns, rate).Ok?
    requires AgreeBefore(a, b, BuildPhase2(a, fns, rate).value.manifest.spec.testStart)
    ensures var (x, y) := (BuildPhase2(a, fns, rate).value, BuildPhase2(b, fns, rate).value);
            && x.partitions.train.features == y.partitions.train.features
            && x.partitions.train.labels == y.partitions.train.labels
            && x.partitions.validation.features == y.partitions.validation.features
            && x.partitions.validation.labels == y.partitions.validation.labels
            && TrainingVolatilityThreshold(a, fns, x.manifest.train)
               == TrainingVolatilityThreshold(b, fns, y.manifest.train)
  {
    hide ValidHistory, BuildPhase2, TrainRows, ValidationRows, FeaturesFrom, LabelsFrom, TrainingVolatilityThreshold,
      Agree;
    SplitComesFrom(a, fns, rate);
    SplitComesFrom(b, fns, rate);
    assert |a| == |BarSessions(a)| == |BarSessions(b)| == |b|;
    var x, y := BuildPhase2(a, fns, rate).value, BuildPhase2(b, fns, rate).value;
    var rows := TrainRows(SupervisedRows(a));
    var v := TRAILING_WARMUP_ROWS + ValidationStart(SupervisedRows(a));
    var n := TRAILING_WARMUP_ROWS + TestStart(SupervisedRows(a));
    AgreeOnPrefix(a, b, n);
    SameFeatures(x.partitions.train.features, y.partitions.train.features, a, b, fns, TRAILING_WARMUP_ROWS, n);
    SameLabels(x.partitions.train.labels, y.partitions.train.labels, a, b, rate, TRAILING_WARMUP_ROWS, n);
    SameFeatures(x.partitions.validation.features, y.partitions.validation.features, a, b, fns, v, n);
    SameLabels(x.partitions.validation.labels, y.partitions.validation.labels, a, b, rate, v, n);
    SameThreshold(a, b, fns, TRAILING_WARMUP_ROWS, TRAILING_WARMUP_ROWS + rows, n);
  }
}
