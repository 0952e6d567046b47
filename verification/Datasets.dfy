/** Forward labels and their alignment with the trailing features. */
module Datasets {
  import opened Wrappers
  import opened Sequences
  import opened Aggregates
  import opened Columns
  import opened OrderCosts
  import opened Features

  const ENTRY_OFFSET_SESSIONS := 1
  const EXIT_OFFSET_SESSIONS := 6

  datatype LabelRow = LabelRow(
    session: int,
    entrySession: int,
    exitSession: int,
    grossForwardReturn: real,
    netForwardReturn: real,
    target: int)

  datatype DatasetError =
    | InsufficientLabelRows
    | NoCommonSessions
    | MissingLabels
    | ExtraLabels

  /** What buying at one open and selling at another returns after the cost rate of each side. */
  function NetForwardReturn(entryOpen: real, exitOpen: real, rate: real): real
    requires entryOpen > 0.0 && rate >= 0.0
  {
    ProductPositive(entryOpen, 1.0 + rate);
    (exitOpen * (1.0 - rate)) / (entryOpen * (1.0 + rate)) - 1.0
  }

  /** Enter at the next open, leave at the open six sessions on; positive when the costs of both sides are earned. */
  function LabelAt(bars: seq<Bar>, i: nat, rate: real): LabelRow
    requires i + EXIT_OFFSET_SESSIONS < |bars|
    requires ValidHistory(bars) && rate >= 0.0
  {
    var entryOpen, exitOpen := bars[i + ENTRY_OFFSET_SESSIONS].open, bars[i + EXIT_OFFSET_SESSIONS].open;
    var net := NetForwardReturn(entryOpen, exitOpen, rate);
    LabelRow(bars[i].session, bars[i + ENTRY_OFFSET_SESSIONS].session, bars[i + EXIT_OFFSET_SESSIONS].session,
             exitOpen / entryOpen - 1.0, net, if net > 0.0 then 1 else 0)
  }

  function LabelsOf(bars: seq<Bar>, rate: real): (r: Result<seq<LabelRow>, DatasetError>)
    requires ValidHistory(bars) && rate >= 0.0
  {
    if |bars| <= EXIT_OFFSET_SESSIONS then
      Err(InsufficientLabelRows)
    else
      Ok(seq(|bars| - EXIT_OFFSET_SESSIONS, i requires 0 <= i < |bars| - EXIT_OFFSET_SESSIONS =>
             LabelAt(bars, i, rate)))
  }

  /** The label builder's loop: one record per session that still has an exit six sessions on. */
  method BuildForwardLabelSet(bars: seq<Bar>, rate: real) returns (result: Result<seq<LabelRow>, DatasetError>)
    requires ValidHistory(bars) && rate >= 0.0
    ensures result == LabelsOf(bars, rate)
  {
    hide ValidHistory, NetForwardReturn;
    if |bars| <= EXIT_OFFSET_SESSIONS {
      return Err(InsufficientLabelRows);
    }
    var records: seq<LabelRow> := [];
    var maxLabelIndex := |bars| - EXIT_OFFSET_SESSIONS;
    for index := 0 to maxLabelIndex
      invariant |records| == index
      invariant forall i :: 0 <= i < index ==> records[i] == LabelAt(bars, i, rate)
    {
      var entry, exit := bars[index + ENTRY_OFFSET_SESSIONS], bars[index + EXIT_OFFSET_SESSIONS];
      PricesPositive(bars, index + ENTRY_OFFSET_SESSIONS);
      var grossForwardReturn := exit.open / entry.open - 1.0;
      var netForwardReturn := NetForwardReturn(entry.open, exit.open, rate);
      records := records + [LabelRow(bars[index].session, entry.session, exit.session, grossForwardReturn,
                                     netForwardReturn, if netForwardReturn > 0.0 then 1 else 0)];
    }
    assert records == LabelsOf(bars, rate).value;
    result := Ok(records);
  }

  lemma PricesPositive(bars: seq<Bar>, i: nat)
    requires ValidHistory(bars) && i < |bars|
    ensures bars[i].open > 0.0
  {
  }

  lemma QuotientAboveOne(a: real, b: real)
    requires b > 0.0
    ensures a / b - 1.0 > 0.0 <==> a > b
  {
    var q := a / b;
    assert q * b == a;
    if q > 1.0 { ProductPositive(q - 1.0, b); } else { ProductNonNegative(1.0 - q, b); }
  }

  lemma NetReturnPositive(entryOpen: real, exitOpen: real, rate: real)
    requires entryOpen > 0.0 && rate >= 0.0
    ensures NetForwardReturn(entryOpen, exitOpen, rate) > 0.0 <==> exitOpen * (1.0 - rate) > entryOpen * (1.0 + rate)
  {
    ProductPositive(entryOpen, 1.0 + rate);
    QuotientAboveOne(exitOpen * (1.0 - rate), entryOpen * (1.0 + rate));
  }

  /**
   What a label of bar `k` says: enter at the next open, leave at the open six sessions on; gross and net return, the
   latter after the rate of each side; and a positive target exactly when the sale, after costs, returns more than the
   purchase cost.
   */
  predicate LabelMeans(row: LabelRow, bars: seq<Bar>, k: nat, rate: real)
    requires k + 6 < |bars|
  {
    var (entry, exit) := (bars[k + 1], bars[k + 6]);
    && row.session == bars[k].session && row.entrySession == entry.session && row.exitSession == exit.session
    && row.grossForwardReturn * entry.open == exit.open - entry.open
    && (1.0 + row.netForwardReturn) * (entry.open * (1.0 + rate)) == exit.open * (1.0 - rate)
    && row.target == (if exit.open * (1.0 - rate) > entry.open * (1.0 + rate) then 1 else 0)
  }

  lemma ReturnUndone(a: real, b: real)
    requires b > 0.0
    ensures (1.0 + (a / b - 1.0)) * b == a && (a / b - 1.0) * b == a - b
  {
  }

  lemma NetReturnMeans(entryOpen: real, exitOpen: real, rate: real)
    requires entryOpen > 0.0 && rate >= 0.0
    ensures (1.0 + NetForwardReturn(entryOpen, exitOpen, rate)) * (entryOpen * (1.0 + rate)) == exitOpen * (1.0 - rate)
  {
    ProductPositive(entryOpen, 1.0 + rate);
    ReturnUndone(exitOpen * (1.0 - rate), entryOpen * (1.0 + rate));
  }

  lemma LabelExactly(bars: seq<Bar>, k: nat, rate: real)
    requires ValidHistory(bars) && rate >= 0.0 && k + 6 < |bars|
    ensures LabelMeans(LabelAt(bars, k, rate), bars, k, rate)
  {
    var entry, exit := bars[k + 1].open, bars[k + 6].open;
    NetReturnPositive(entry, exit, rate);
    NetReturnMeans(entry, exit, rate);
    ReturnUndone(exit, entry);
    hide NetForwardReturn;
  }

  /** The labels of a history: none up to six bars, otherwise one for each bar with six more after it. */
  lemma LabelsExactly(bars: seq<Bar>, rate: real)
    requires ValidHistory(bars) && rate >= 0.0
    ensures var r := LabelsOf(bars, rate);
            && (r.Err? <==> |bars| <= 6)
            && (r.Ok? ==> |r.value| == |bars| - 6
                          && forall k :: 0 <= k < |r.value| ==> LabelMeans(r.value[k], bars, k, rate))
  {
    hide LabelMeans, ValidHistory;
    var r := LabelsOf(bars, rate);
    if r.Ok? {
      forall k | 0 <= k < |r.value| ensures LabelMeans(r.value[k], bars, k, rate) {
        LabelExactly(bars, k, rate);
      }
    }
  }

  /** A label is positive exactly when selling six sessions on, after costs, returns more than buying cost. */
  lemma PositiveLabelEarnsItsCosts(bars: seq<Bar>, i: nat, rate: real)
    requires i + EXIT_OFFSET_SESSIONS < |bars| && ValidHistory(bars) && rate >= 0.0
    ensures LabelAt(bars, i, rate).target == 1 <==>
            bars[i + EXIT_OFFSET_SESSIONS].open * (1.0 - rate) > bars[i + ENTRY_OFFSET_SESSIONS].open * (1.0 + rate)
  {
    hide NetForwardReturn, ValidHistory;
    var entry, exit := bars[i + ENTRY_OFFSET_SESSIONS].open, bars[i + EXIT_OFFSET_SESSIONS].open;
    PricesPositive(bars, i + ENTRY_OFFSET_SESSIONS);
    NetReturnPositive(entry, exit, rate);
  }

  // ---------------------------------------------------------------- alignment

  function LabelSession(l: LabelRow): int { l.session }

  function LabelledSessions(labels: seq<LabelRow>): set<int> {
    set l | l in labels :: l.session
  }

  function FeatureSession(f: FeatureRow): int { f.session }

  datatype Supervised = Supervised(features: seq<FeatureRow>, labels: seq<LabelRow>)

  /** The features and labels of the sessions both have, in feature order. */
  function BuildSupervisedDataset(features: seq<FeatureRow>, labels: seq<LabelRow>): Result<Supervised, DatasetError>
    requires features != [] && labels != []
  {
    var featureSessions, labelSessions := Column(features, FeatureSession), Column(labels, LabelSession);
    var common := Select(featureSessions, Column(featureSessions, s => s in labelSessions));
    if common == [] then
      Err(NoCommonSessions)
    else if common != Select(featureSessions, Column(featureSessions,
                               s => labelSessions[0] <= s <= labelSessions[|labels| - 1])) then
      Err(MissingLabels)
    else if common != Select(labelSessions, Column(labelSessions,
                               s => featureSessions[0] <= s <= featureSessions[|features| - 1])) then
      Err(ExtraLabels)
    else if exists s <- common :: s !in IndexBy(labels, LabelSession) then
      Err(MissingLabels)
    else
      Ok(Supervised(
           Select(features, Column(featureSessions, s => s in common)),
           seq(|common|, k requires 0 <= k < |common| && common[k] in IndexBy(labels, LabelSession) =>
             IndexBy(labels, LabelSession)[common[k]])))
  }

  lemma ColumnMembers<T>(rows: seq<T>, key: T -> int, s: int)
    ensures s in Column(rows, key) <==> exists i :: 0 <= i < |rows| && key(rows[i]) == s
  {
    var column := Column(rows, key);
    if i :| 0 <= i < |rows| && key(rows[i]) == s {
      assert column[i] == s;
    }
  }

  lemma KeysOfIncreasing(labels: seq<LabelRow>)
    requires Increasing(Column(labels, LabelSession))
    ensures KeysDiffer(labels, LabelSession)
  {
    var sessions := Column(labels, LabelSession);
    forall i, j | 0 <= i < j < |labels| ensures LabelSession(labels[i]) != LabelSession(labels[j]) {
      assert sessions[i] < sessions[j];
    }
  }

  /** The builder's checks, one by one. */
  lemma BuilderChecks(features: seq<FeatureRow>, labels: seq<LabelRow>, common: seq<int>)
    requires features != [] && labels != [] && Increasing(Column(labels, LabelSession))
    requires common == Select(Column(features, FeatureSession),
                              Column(Column(features, FeatureSession), s => s in Column(labels, LabelSession)))
    requires forall s :: s in common ==> s in Column(labels, LabelSession)
    ensures var (r, ours, theirs) := (BuildSupervisedDataset(features, labels), Column(features, FeatureSession),
                                      Column(labels, LabelSession));
            var first := common == Select(ours, Column(ours, s => theirs[0] <= s <= theirs[|theirs| - 1]));
            var second := common == Select(theirs, Column(theirs, s => ours[0] <= s <= ours[|ours| - 1]));
            && (r == Err(NoCommonSessions) <==> common == [])
            && (r == Err(MissingLabels) <==> common != [] && !first)
            && (r == Err(ExtraLabels) <==> common != [] && first && !second)
            && (r.Ok? <==> common != [] && first && second)
  {
    hide IndexBy, Select, Increasing;
    var featureSessions, labelSessions := Column(features, FeatureSession), Column(labels, LabelSession);
    assert common == Select(featureSessions, Column(featureSessions, s => s in labelSessions));
    IndexByFacts(labels, LabelSession);
    forall s | s in common ensures s in IndexBy(labels, LabelSession) {
      ColumnMembers(labels, LabelSession, s);
    }
  }

  lemma BuiltRows(features: seq<FeatureRow>, labels: seq<LabelRow>, common: seq<int>)
    requires features != [] && labels != [] && BuildSupervisedDataset(features, labels).Ok?
    requires common == Select(Column(features, FeatureSession),
                              Column(Column(features, FeatureSession), x => x in Column(labels, LabelSession)))
    requires forall s :: s in common ==> s in Column(labels, LabelSession)
    ensures var s := BuildSupervisedDataset(features, labels).value;
            && s.features == Select(features, Column(Column(features, FeatureSession), x => x in common))
            && |s.labels| == |common|
            && forall k :: 0 <= k < |common| ==> common[k] in IndexBy(labels, LabelSession)
                                                  && s.labels[k] == IndexBy(labels, LabelSession)[common[k]]
  {
    hide IndexBy, Select;
    var featureSessions, labelSessions := Column(features, FeatureSession), Column(labels, LabelSession);
    assert common == Select(featureSessions, Column(featureSessions, s => s in labelSessions));
    IndexByFacts(labels, LabelSession);
    forall k | 0 <= k < |common| ensures common[k] in IndexBy(labels, LabelSession) {
      assert common[k] in common;
      ColumnMembers(labels, LabelSession, common[k]);
    }
  }

  /** Feature rows of consecutive bars, starting at bar `first`. */
  ghost predicate FeaturesFrom(features: seq<FeatureRow>, bars: seq<Bar>, fns: Analysis, first: nat) {
    && first + |features| <= |bars|
    && forall i :: first <= i < first + |features| ==>
         RowDefined(bars, fns, i) && features[i - first] == FeatureRowAt(bars, fns, i)
  }

  /** Label rows of consecutive bars, starting at bar `first`. */
  ghost predicate LabelsFrom(labels: seq<LabelRow>, bars: seq<Bar>, rate: real, first: nat)
    requires ValidHistory(bars) && rate >= 0.0
  {
    && first + |labels| + EXIT_OFFSET_SESSIONS <= |bars|
    && forall i :: first <= i < first + |labels| ==> labels[i - first] == LabelAt(bars, i, rate)
  }

  /** Row for row, features and labels of consecutive bars, starting at bar `first`. */
  ghost predicate AlignedRows(s: Supervised, bars: seq<Bar>, fns: Analysis, rate: real, first: nat)
    requires ValidHistory(bars) && rate >= 0.0
  {
    |s.features| == |s.labels| && FeaturesFrom(s.features, bars, fns, first) && LabelsFrom(s.labels, bars, rate, first)
  }

  lemma FeaturesSlice(features: seq<FeatureRow>, bars: seq<Bar>, fns: Analysis, first: nat, low: nat, high: nat)
    requires FeaturesFrom(features, bars, fns, first) && low <= high <= |features|
    ensures FeaturesFrom(features[low..high], bars, fns, first + low)
  {
    hide RowDefined, FeatureRowAt;
    forall i | first + low <= i < first + high
      ensures RowDefined(bars, fns, i) && features[low..high][i - first - low] == FeatureRowAt(bars, fns, i)
    {
      assert features[low..high][i - first - low] == features[i - first];
    }
  }

  lemma LabelsSlice(labels: seq<LabelRow>, bars: seq<Bar>, rate: real, first: nat, low: nat, high: nat)
    requires ValidHistory(bars) && rate >= 0.0
    requires LabelsFrom(labels, bars, rate, first) && low <= high <= |labels|
    ensures LabelsFrom(labels[low..high], bars, rate, first + low)
  {
    hide LabelAt;
    forall i | first + low <= i < first + high ensures labels[low..high][i - first - low] == LabelAt(bars, i, rate) {
      assert labels[low..high][i - first - low] == labels[i - first];
    }
  }

  lemma SessionsOrdered(bars: seq<Bar>, i: nat, j: nat)
    requires ValidHistory(bars) && i < |bars| && j < |bars|
    ensures bars[i].session < bars[j].session <==> i < j
  {
  }

  lemma LabelSessionsAre(bars: seq<Bar>, rate: real)
    requires ValidHistory(bars) && rate >= 0.0 && |bars| > EXIT_OFFSET_SESSIONS
    ensures var r := LabelsOf(bars, rate);
            && r.Ok? && |r.value| == |bars| - EXIT_OFFSET_SESSIONS
            && forall k :: 0 <= k < |r.value| ==> Column(r.value, LabelSession)[k] == bars[k].session
  {
    hide ValidHistory, NetForwardReturn;
    var rows := LabelsOf(bars, rate).value;
    forall k | 0 <= k < |rows| ensures Column(rows, LabelSession)[k] == bars[k].session {
      assert rows[k] == LabelAt(bars, k, rate);
    }
  }

  /** A session is labelled exactly when it is one of the bars with an exit six sessions on. */
  lemma {:induction false} LabelledSession(bars: seq<Bar>, labels: seq<LabelRow>, i: nat)
    requires ValidHistory(bars) && i < |bars| && |labels| <= |bars|
    requires forall k :: 0 <= k < |labels| ==> labels[k].session == bars[k].session
    ensures bars[i].session in Column(labels, LabelSession) <==> i < |labels|
    ensures i < |labels| ==> bars[i].session in IndexBy(labels, LabelSession)
                             && IndexBy(labels, LabelSession)[bars[i].session] == labels[i]
  {
    hide IndexBy;
    var sessions := Column(labels, LabelSession);
    IndexByFacts(labels, LabelSession);
    if i < |labels| {
      assert sessions[i] == bars[i].session;
    }
    if bars[i].session in sessions {
      var k :| 0 <= k < |sessions| && sessions[k] == bars[i].session;
      SessionsOrdered(bars, i, k);
      SessionsOrdered(bars, k, i);
    }
    forall a, b | 0 <= a < b < |labels| ensures LabelSession(labels[a]) != LabelSession(labels[b]) {
      SessionsOrdered(bars, a, b);
    }
    assert KeysDiffer(labels, LabelSession);
    if i < |labels| {
      assert LabelSession(labels[i]) == bars[i].session;
    }
  }

  lemma CommonMask(bars: seq<Bar>, features: seq<FeatureRow>, labels: seq<LabelRow>)
    requires ValidHistory(bars) && |features| + TRAILING_WARMUP_ROWS == |bars|
    requires |labels| + EXIT_OFFSET_SESSIONS == |bars| && |labels| >= TRAILING_WARMUP_ROWS
    requires forall k :: 0 <= k < |features| ==> features[k].session == bars[TRAILING_WARMUP_ROWS + k].session
    requires forall k :: 0 <= k < |labels| ==> labels[k].session == bars[k].session
    ensures var (featureSessions, labelSessions) := (Column(features, FeatureSession), Column(labels, LabelSession));
            SetExactlyOn(Column(featureSessions, s => s in labelSessions), 0, |labels| - TRAILING_WARMUP_ROWS)
  {
    hide IndexBy;
    var featureSessions, labelSessions := Column(features, FeatureSession), Column(labels, LabelSession);
    var mask := Column(featureSessions, s => s in labelSessions);
    forall k | 0 <= k < |mask| ensures mask[k] <==> k < |labels| - TRAILING_WARMUP_ROWS {
      LabelledSession(bars, labels, TRAILING_WARMUP_ROWS + k);
    }
  }

  lemma LabelSpanMask(bars: seq<Bar>, features: seq<FeatureRow>, labels: seq<LabelRow>)
    requires ValidHistory(bars) && |features| + TRAILING_WARMUP_ROWS == |bars| && features != []
    requires |labels| + EXIT_OFFSET_SESSIONS == |bars| && |labels| > TRAILING_WARMUP_ROWS
    requires forall k :: 0 <= k < |features| ==> features[k].session == bars[TRAILING_WARMUP_ROWS + k].session
    requires forall k :: 0 <= k < |labels| ==> labels[k].session == bars[k].session
    ensures var (featureSessions, labelSessions) := (Column(features, FeatureSession), Column(labels, LabelSession));
            SetExactlyOn(Column(featureSessions, s => labelSessions[0] <= s <= labelSessions[|labels| - 1]),
                         0, |labels| - TRAILING_WARMUP_ROWS)
  {
    hide ValidHistory;
    var featureSessions, labelSessions := Column(features, FeatureSession), Column(labels, LabelSession);
    var mask := Column(featureSessions, s => labelSessions[0] <= s <= labelSessions[|labels| - 1]);
    forall k | 0 <= k < |mask| ensures mask[k] <==> k < |labels| - TRAILING_WARMUP_ROWS {
      SessionsOrdered(bars, 0, TRAILING_WARMUP_ROWS + k);
      SessionsOrdered(bars, |labels| - 1, TRAILING_WARMUP_ROWS + k);
    }
  }

  lemma FeatureSpanMask(bars: seq<Bar>, features: seq<FeatureRow>, labels: seq<LabelRow>)
    requires ValidHistory(bars) && |features| + TRAILING_WARMUP_ROWS == |bars| && features != []
    requires |labels| + EXIT_OFFSET_SESSIONS == |bars| && |labels| > TRAILING_WARMUP_ROWS
    requires forall k :: 0 <= k < |features| ==> features[k].session == bars[TRAILING_WARMUP_ROWS + k].session
    requires forall k :: 0 <= k < |labels| ==> labels[k].session == bars[k].session
    ensures var (featureSessions, labelSessions) := (Column(features, FeatureSession), Column(labels, LabelSession));
            SetExactlyOn(Column(labelSessions, s => featureSessions[0] <= s <= featureSessions[|features| - 1]),
                         TRAILING_WARMUP_ROWS, |labels|)
  {
    hide ValidHistory;
    var featureSessions, labelSessions := Column(features, FeatureSession), Column(labels, LabelSession);
    var mask := Column(labelSessions, s => featureSessions[0] <= s <= featureSessions[|features| - 1]);
    forall k | 0 <= k < |mask| ensures mask[k] <==> TRAILING_WARMUP_ROWS <= k {
      SessionsOrdered(bars, k, TRAILING_WARMUP_ROWS);
      SessionsOrdered(bars, |bars| - 1, k);
    }
  }

  /** How many supervised rows a history of this length has. */
  function SupervisedRows(bars: seq<Bar>): int {
    |bars| - TRAILING_WARMUP_ROWS - EXIT_OFFSET_SESSIONS
  }

  /** Features and labels built from the same history. */
  ghost predicate BuiltFrom(features: seq<FeatureRow>, labels: seq<LabelRow>, bars: seq<Bar>, fns: Analysis,
                            rate: real)
  {
    && ValidHistory(bars) && rate >= 0.0
    && BuildTrailingFeatureSet(bars, fns) == Ok(features)
    && LabelsOf(bars, rate) == Ok(labels)
  }

  lemma CommonAreSupervised(features: seq<FeatureRow>, labels: seq<LabelRow>, bars: seq<Bar>, fns: Analysis, rate: real)
    requires BuiltFrom(features, labels, bars, fns, rate)
    ensures |features| + TRAILING_WARMUP_ROWS == |bars| && |labels| + EXIT_OFFSET_SESSIONS == |bars|
    ensures features != [] && labels != []
    ensures FeaturesFrom(features, bars, fns, TRAILING_WARMUP_ROWS)
    ensures LabelsFrom(labels, bars, rate, 0)
    ensures forall k :: 0 <= k < |features| ==> features[k].session == bars[TRAILING_WARMUP_ROWS + k].session
    ensures forall k :: 0 <= k < |labels| ==> labels[k].session == bars[k].session
  {
    hide ValidHistory, RowDefined, NetForwardReturn;
    FeaturesAlwaysBuilt(bars, fns);
    LabelSessionsAre(bars, rate);
    forall i | TRAILING_WARMUP_ROWS <= i < |bars|
      ensures RowDefined(bars, fns, i) && features[i - TRAILING_WARMUP_ROWS] == FeatureRowAt(bars, fns, i)
    {
      var k := i - TRAILING_WARMUP_ROWS;
      assert features[k] == FeatureRowAt(bars, fns, TRAILING_WARMUP_ROWS + k);
    }
  }

  /**
   Built from one history, features and labels align by position: the supervised rows are bars 20 up to the
   seventh last, and the only possible refusal is a history with no such bar.
   */
  lemma AlignmentIsPositional(features: seq<FeatureRow>, labels: seq<LabelRow>, bars: seq<Bar>, fns: Analysis,
                              rate: real)
    requires BuiltFrom(features, labels, bars, fns, rate)
    ensures features != [] && labels != []
    ensures var r := BuildSupervisedDataset(features, labels);
            if SupervisedRows(bars) <= 0 then r == Err(NoCommonSessions)
            else && r.Ok? && |r.value.labels| == SupervisedRows(bars)
                 && AlignedRows(r.value, bars, fns, rate, TRAILING_WARMUP_ROWS)
  {
    hide FeaturesFrom, LabelsFrom, BuildSupervisedDataset, BuildTrailingFeatureSet, LabelsOf;
    CommonAreSupervised(features, labels, bars, fns, rate);
    if SupervisedRows(bars) <= 0 {
      NothingInCommon(features, labels, bars);
    } else {
      PositionsInCommon(features, labels, bars);
      var rows := SupervisedRows(bars);
      FeaturesSlice(features, bars, fns, TRAILING_WARMUP_ROWS, 0, rows);
      assert features[0..rows] == features[..rows];
      LabelsSlice(labels, bars, rate, 0, TRAILING_WARMUP_ROWS, |labels|);
      assert labels[TRAILING_WARMUP_ROWS..|labels|] == labels[TRAILING_WARMUP_ROWS..];
    }
  }

  lemma NothingInCommon(features: seq<FeatureRow>, labels: seq<LabelRow>, bars: seq<Bar>)
    requires ValidHistory(bars) && |features| + TRAILING_WARMUP_ROWS == |bars|
             && |labels| + EXIT_OFFSET_SESSIONS == |bars|
    requires |labels| <= TRAILING_WARMUP_ROWS && features != [] && labels != []
    requires forall k :: 0 <= k < |features| ==> features[k].session == bars[TRAILING_WARMUP_ROWS + k].session
    requires forall k :: 0 <= k < |labels| ==> labels[k].session == bars[k].session
    ensures BuildSupervisedDataset(features, labels) == Err(NoCommonSessions)
  {
    hide IndexBy, ValidHistory, Select;
    var featureSessions, labelSessions := Column(features, FeatureSession), Column(labels, LabelSession);
    var mask := Column(featureSessions, s => s in labelSessions);
    forall k | 0 <= k < |mask| ensures !mask[k] {
      LabelledSession(bars, labels, TRAILING_WARMUP_ROWS + k);
    }
    assert SetExactlyOn(mask, 0, 0);
    SelectSlice(featureSessions, mask, 0, 0);
  }

  lemma CommonIsSlice(features: seq<FeatureRow>, labels: seq<LabelRow>, bars: seq<Bar>)
    requires ValidHistory(bars) && |features| + TRAILING_WARMUP_ROWS == |bars|
             && |labels| + EXIT_OFFSET_SESSIONS == |bars|
    requires |labels| > TRAILING_WARMUP_ROWS && features != []
    requires forall k :: 0 <= k < |features| ==> features[k].session == bars[TRAILING_WARMUP_ROWS + k].session
    requires forall k :: 0 <= k < |labels| ==> labels[k].session == bars[k].session
    ensures var (ours, theirs) := (Column(features, FeatureSession), Column(labels, LabelSession));
            Select(ours, Column(ours, s => s in theirs)) == ours[..|labels| - TRAILING_WARMUP_ROWS]
  {
    hide ValidHistory, Select, SetExactlyOn;
    var ours, theirs := Column(features, FeatureSession), Column(labels, LabelSession);
    CommonMask(bars, features, labels);
    SelectSlice(ours, Column(ours, s => s in theirs), 0, |labels| - TRAILING_WARMUP_ROWS);
  }

  lemma SpansAreSlices(features: seq<FeatureRow>, labels: seq<LabelRow>, bars: seq<Bar>)
    requires ValidHistory(bars) && |features| + TRAILING_WARMUP_ROWS == |bars|
             && |labels| + EXIT_OFFSET_SESSIONS == |bars|
    requires |labels| > TRAILING_WARMUP_ROWS && features != []
    requires forall k :: 0 <= k < |features| ==> features[k].session == bars[TRAILING_WARMUP_ROWS + k].session
    requires forall k :: 0 <= k < |labels| ==> labels[k].session == bars[k].session
    ensures var (ours, theirs) := (Column(features, FeatureSession), Column(labels, LabelSession));
            && Select(ours, Column(ours, s => theirs[0] <= s <= theirs[|theirs| - 1]))
               == ours[..|labels| - TRAILING_WARMUP_ROWS]
            && Select(theirs, Column(theirs, s => ours[0] <= s <= ours[|ours| - 1])) == theirs[TRAILING_WARMUP_ROWS..]
  {
    hide ValidHistory, Select, SetExactlyOn;
    var ours, theirs := Column(features, FeatureSession), Column(labels, LabelSession);
    LabelSpanMask(bars, features, labels);
    SelectSlice(ours, Column(ours, s => theirs[0] <= s <= theirs[|labels| - 1]), 0, |labels| - TRAILING_WARMUP_ROWS);
    FeatureSpanMask(bars, features, labels);
    SelectSlice(theirs, Column(theirs, s => ours[0] <= s <= ours[|features| - 1]), TRAILING_WARMUP_ROWS, |labels|);
  }

  /** The sessions shared are the first of the features and the last of the labels. */
  lemma SharedSlices(features: seq<FeatureRow>, labels: seq<LabelRow>, bars: seq<Bar>)
    requires |features| + TRAILING_WARMUP_ROWS == |bars| && |labels| + EXIT_OFFSET_SESSIONS == |bars|
    requires |labels| > TRAILING_WARMUP_ROWS
    requires forall k :: 0 <= k < |features| ==> features[k].session == bars[TRAILING_WARMUP_ROWS + k].session
    requires forall k :: 0 <= k < |labels| ==> labels[k].session == bars[k].session
    ensures var (ours, theirs) := (Column(features, FeatureSession), Column(labels, LabelSession));
            var common := ours[..|labels| - TRAILING_WARMUP_ROWS];
            && theirs[TRAILING_WARMUP_ROWS..] == common && (forall s :: s in common ==> s in theirs)
            && forall k :: 0 <= k < |common| ==> common[k] == bars[TRAILING_WARMUP_ROWS + k].session
  {
    var ours, theirs := Column(features, FeatureSession), Column(labels, LabelSession);
    var common := ours[..|labels| - TRAILING_WARMUP_ROWS];
    forall k | 0 <= k < |common| ensures theirs[TRAILING_WARMUP_ROWS..][k] == common[k] {
      assert theirs[TRAILING_WARMUP_ROWS..][k] == theirs[TRAILING_WARMUP_ROWS + k];
    }
    assert theirs[TRAILING_WARMUP_ROWS..] == common;
  }

  lemma PositionsInCommon(features: seq<FeatureRow>, labels: seq<LabelRow>, bars: seq<Bar>)
    requires ValidHistory(bars) && |features| + TRAILING_WARMUP_ROWS == |bars|
             && |labels| + EXIT_OFFSET_SESSIONS == |bars|
    requires |labels| > TRAILING_WARMUP_ROWS && features != []
    requires forall k :: 0 <= k < |features| ==> features[k].session == bars[TRAILING_WARMUP_ROWS + k].session
    requires forall k :: 0 <= k < |labels| ==> labels[k].session == bars[k].session
    ensures var rows := |labels| - TRAILING_WARMUP_ROWS;
            BuildSupervisedDataset(features, labels)
            == Ok(Supervised(features[..rows], labels[TRAILING_WARMUP_ROWS..]))
  {
    hide IndexBy, ValidHistory, Select, SetExactlyOn, BuildSupervisedDataset, Increasing;
    var rows := |labels| - TRAILING_WARMUP_ROWS;
    var ours, theirs := Column(features, FeatureSession), Column(labels, LabelSession);
    var common := ours[..rows];
    CommonIsSlice(features, labels, bars);
    SpansAreSlices(features, labels, bars);
    SharedSlices(features, labels, bars);
    LabelsIncreaseWithBars(bars, labels);
    BuilderChecks(features, labels, common);
    BuiltRows(features, labels, common);
    KeptIsSlice(bars, features, common);
    BuiltLabels(bars, features, labels, common);
  }

  lemma LabelsIncreaseWithBars(bars: seq<Bar>, labels: seq<LabelRow>)
    requires ValidHistory(bars) && |labels| <= |bars|
    requires forall k :: 0 <= k < |labels| ==> labels[k].session == bars[k].session
    ensures Increasing(Column(labels, LabelSession))
  {
  }

  lemma BuiltLabels(bars: seq<Bar>, features: seq<FeatureRow>, labels: seq<LabelRow>, common: seq<int>)
    requires ValidHistory(bars) && TRAILING_WARMUP_ROWS + |common| == |labels| <= |bars| && features != []
             && labels != []
    requires forall k :: 0 <= k < |labels| ==> labels[k].session == bars[k].session
    requires forall k :: 0 <= k < |common| ==> common[k] == bars[TRAILING_WARMUP_ROWS + k].session
    requires BuildSupervisedDataset(features, labels).Ok?
    requires var s := BuildSupervisedDataset(features, labels).value;
             && |s.labels| == |common|
             && forall k :: 0 <= k < |common| ==> common[k] in IndexBy(labels, LabelSession)
                                                   && s.labels[k] == IndexBy(labels, LabelSession)[common[k]]
    ensures BuildSupervisedDataset(features, labels).value.labels == labels[TRAILING_WARMUP_ROWS..]
  {
    hide IndexBy, ValidHistory, BuildSupervisedDataset;
    var ours := BuildSupervisedDataset(features, labels).value.labels;
    forall k | 0 <= k < |common| ensures ours[k] == labels[TRAILING_WARMUP_ROWS..][k] {
      LabelledSession(bars, labels, TRAILING_WARMUP_ROWS + k);
    }
  }

  lemma KeptMask(bars: seq<Bar>, features: seq<FeatureRow>, common: seq<int>)
    requires ValidHistory(bars) && |features| + TRAILING_WARMUP_ROWS == |bars| && |common| <= |features|
    requires forall k :: 0 <= k < |features| ==> features[k].session == bars[TRAILING_WARMUP_ROWS + k].session
    requires common == Column(features, FeatureSession)[..|common|]
    ensures SetExactlyOn(Column(Column(features, FeatureSession), s => s in common), 0, |common|)
  {
    hide ValidHistory;
    var featureSessions := Column(features, FeatureSession);
    var mask := Column(featureSessions, s => s in common);
    forall k | 0 <= k < |mask| ensures mask[k] <==> k < |common| {
      if k < |common| {
        assert common[k] == featureSessions[k];
      }
      if featureSessions[k] in common {
        var j :| 0 <= j < |common| && common[j] == featureSessions[k];
        SessionsOrdered(bars, TRAILING_WARMUP_ROWS + j, TRAILING_WARMUP_ROWS + k);
        SessionsOrdered(bars, TRAILING_WARMUP_ROWS + k, TRAILING_WARMUP_ROWS + j);
      }
    }
  }

  lemma KeptIsSlice(bars: seq<Bar>, features: seq<FeatureRow>, common: seq<int>)
    requires ValidHistory(bars) && |features| + TRAILING_WARMUP_ROWS == |bars| && |common| <= |features|
    requires forall k :: 0 <= k < |features| ==> features[k].session == bars[TRAILING_WARMUP_ROWS + k].session
    requires common == Column(features, FeatureSession)[..|common|]
    ensures Select(features, Column(Column(features, FeatureSession), s => s in common)) == features[..|common|]
  {
    hide ValidHistory, Select, SetExactlyOn;
    KeptMask(bars, features, common);
    SelectSlice(features, Column(Column(features, FeatureSession), s => s in common), 0, |common|);
  }
}
