/**
 The benchmark split: a positional 70/15/remainder layout with six-row gaps on one side, and on the other a
 partitioner that only knows dates and purges every label whose exit crosses its end.
 */
module Splits {
  import opened Sequences
  import opened Naturals
  import opened Wrappers
  import opened Aggregates
  import opened Columns
  import opened Features
  import opened Datasets

  const BOUNDARY_EXCLUSION_SESSIONS := 6

  datatype SplitError =
    | RowCountMismatch
    | EmptyPredictionSessions
    | InvalidSessions
    | InsufficientAssignableRows
    | RemainderAllocationFailed
    | EmptyFinalTest
    | EmptySlice
    | InvalidSplitSpec
    | EmptyPartition
    | InvalidPartition
    | SessionOverlap
    | PartitionMismatch
    | MinimumCountsFailed

  /** A half-open range of row positions. */
  datatype Slice = Slice(start: nat, stop: nat)

  /** Slicing clips positions beyond the end. */
  function Cut<T>(rows: seq<T>, s: Slice): seq<T> {
    var stop := Min(s.stop, |rows|);
    rows[Min(s.start, stop)..stop]
  }

  datatype Layout = Layout(
    supervisedRows: nat,
    assignableRows: nat,
    train: Slice,
    trainGap: Slice,
    validation: Slice,
    testGap: Slice,
    finalTest: Slice)

  function SplitLayout(sessions: seq<int>): Result<Layout, SplitError> {
    var n := |sessions|;
    if n == 0 then
      Err(EmptyPredictionSessions)
    else if !Increasing(sessions) then
      Err(InvalidSessions)
    else if n - 2 * BOUNDARY_EXCLUSION_SESSIONS <= 0 then
      Err(InsufficientAssignableRows)
    else
      var assignable := n - 2 * BOUNDARY_EXCLUSION_SESSIONS;
      var trainRows := assignable * 70 / 100;
      var validationRows := assignable * 15 / 100;
      var finalRows := assignable - trainRows - validationRows;
      var validationStart := trainRows + BOUNDARY_EXCLUSION_SESSIONS;
      var testGapStart := validationStart + validationRows;
      var finalStart := testGapStart + BOUNDARY_EXCLUSION_SESSIONS;
      if finalStart + finalRows != n then
        Err(RemainderAllocationFailed)
      else if Cut(sessions, Slice(finalStart, n)) == [] then
        Err(EmptyFinalTest)
      else
        Ok(Layout(n, assignable,
                  Slice(0, trainRows),
                  Slice(trainRows, validationStart),
                  Slice(validationStart, testGapStart),
                  Slice(testGapStart, finalStart),
                  Slice(finalStart, finalStart + finalRows)))
  }

  // ---------------------------------------------------------------- the date-based partitioner

  datatype SplitSpec = SplitSpec(
    trainStart: int, trainEnd: int,
    validationStart: int, validationEnd: int,
    testStart: int, testEnd: int)

  /** What the ChronologicalSplitSpec constructor accepts. */
  predicate ValidSpec(s: SplitSpec) {
    s.trainStart <= s.trainEnd < s.validationStart <= s.validationEnd < s.testStart <= s.testEnd
  }

  /** The label time line: entry one and exit six labelled sessions on, as far as those are in the frame. */
  predicate Timeline(labels: seq<LabelRow>) {
    && (forall i, j :: 0 <= i < j < |labels| ==> labels[i].session < labels[j].session)
    && (forall i, j :: 0 <= i < j < |labels| ==> labels[i].entrySession < labels[j].entrySession)
    && (forall i, j :: 0 <= i < j < |labels| ==> labels[i].exitSession < labels[j].exitSession)
    && (forall i :: 0 <= i < |labels| ==> labels[i].session < labels[i].entrySession < labels[i].exitSession)
    && (forall i, j :: 0 <= i < |labels| && j == i + ENTRY_OFFSET_SESSIONS < |labels| ==>
          labels[i].entrySession == labels[j].session)
    && (forall i, j :: 0 <= i < |labels| && j == i + EXIT_OFFSET_SESSIONS < |labels| ==>
          labels[i].exitSession == labels[j].session)
  }

  predicate SameSessions(features: seq<FeatureRow>, labels: seq<LabelRow>) {
    |features| == |labels| && forall i :: 0 <= i < |labels| ==> features[i].session == labels[i].session
  }

  /** What the SupervisedDataset constructor accepts. */
  predicate ValidSupervised(s: Supervised) {
    s.labels != [] && SameSessions(s.features, s.labels) && Timeline(s.labels)
  }

  datatype Partition = Partition(features: seq<FeatureRow>, labels: seq<LabelRow>, purged: nat)

  function Included(labels: seq<LabelRow>, start: int, end: int): (m: seq<bool>)
    ensures |m| == |labels|
  {
    Column(labels, (l: LabelRow) => start <= l.session <= end && l.exitSession <= end)
  }

  function Crossing(labels: seq<LabelRow>, start: int, end: int): (m: seq<bool>)
    ensures |m| == |labels|
  {
    Column(labels, (l: LabelRow) => start <= l.session <= end && l.exitSession > end)
  }

  function BuildPartition(s: Supervised, start: int, end: int): Result<Partition, SplitError>
    requires |s.features| == |s.labels|
  {
    var included := Included(s.labels, start, end);
    var features, labels := Select(s.features, included), Select(s.labels, included);
    if features == [] then
      Err(EmptyPartition)
    else if || !Timeline(labels)
            || !SameSessions(features, labels)
            || (exists l <- labels :: l.session > end || l.exitSession > end || l.session < start)
    then
      Err(InvalidPartition)
    else
      Ok(Partition(features, labels, CountSet(Crossing(s.labels, start, end))))
  }

  datatype Partitions = Partitions(train: Partition, validation: Partition, test: Partition)

  function SplitSupervisedDataset(s: Supervised, spec: SplitSpec): Result<Partitions, SplitError>
    requires |s.features| == |s.labels|
  {
    match BuildPartition(s, spec.trainStart, spec.trainEnd)
    case Err(e) => Err(e)
    case Ok(train) =>
      match BuildPartition(s, spec.validationStart, spec.validationEnd)
      case Err(e) => Err(e)
      case Ok(validation) =>
        match BuildPartition(s, spec.testStart, spec.testEnd)
        case Err(e) => Err(e)
        case Ok(test) =>
          if LabelledSessions(train.labels) !! LabelledSessions(validation.labels) !! LabelledSessions(test.labels)
          then Ok(Partitions(train, validation, test))
          else Err(SessionOverlap)
  }

  // ---------------------------------------------------------------- the benchmark's construction

  function TargetSum(labels: seq<LabelRow>): int {
    if labels == [] then 0 else TargetSum(labels[..|labels| - 1]) + labels[|labels| - 1].target
  }

  predicate MeetsMinimum(labels: seq<LabelRow>, total: nat, positive: nat, negative: nat) {
    |labels| >= total && TargetSum(labels) >= positive && |labels| - TargetSum(labels) >= negative
  }

  predicate MeetsMinimums(train: seq<LabelRow>, validation: seq<LabelRow>, test: seq<LabelRow>) {
    && MeetsMinimum(train, 756, 120, 120)
    && MeetsMinimum(validation, 252, 40, 40)
    && MeetsMinimum(test, 252, 40, 40)
  }

  /** The session lists of the split manifest. */
  datatype Manifest = Manifest(
    layout: Layout,
    warmup: seq<int>,
    train: seq<int>,
    trainGap: seq<int>,
    validation: seq<int>,
    testGap: seq<int>,
    finalTest: seq<int>,
    horizon: seq<int>,
    spec: SplitSpec)

  datatype Phase2Split = Phase2Split(manifest: Manifest, partitions: Partitions)

  function SpecOf(train: seq<LabelRow>, validation: seq<LabelRow>, test: seq<LabelRow>): SplitSpec
    requires train != [] && validation != [] && test != []
  {
    SplitSpec(train[0].session, train[|train| - 1].exitSession,
              validation[0].session, validation[|validation| - 1].exitSession,
              test[0].session, test[|test| - 1].exitSession)
  }

  function LabelSessions(labels: seq<LabelRow>): (r: seq<int>)
    ensures |r| == |labels| && forall i :: 0 <= i < |labels| ==> r[i] == labels[i].session
  {
    Column(labels, LabelSession)
  }

  function ConstructPhase2Split(s: Supervised, source: seq<int>): Result<Phase2Split, SplitError> {
    if |s.features| != |s.labels| then
      Err(RowCountMismatch)
    else if !Increasing(LabelSessions(s.labels)) then
      Err(InvalidSessions)
    else
      match SplitLayout(LabelSessions(s.labels))
      case Err(e) => Err(e)
      case Ok(layout) =>
        var train, validation := Cut(s.labels, layout.train), Cut(s.labels, layout.validation);
        var test := Cut(s.labels, layout.finalTest);
        if layout.finalTest.stop != layout.supervisedRows then
          Err(RemainderAllocationFailed)
        else if train == [] || validation == [] || test == [] then
          Err(EmptySlice)
        else
          var spec := SpecOf(train, validation, test);
          if !ValidSpec(spec) then
            Err(InvalidSplitSpec)
          else
            match SplitSupervisedDataset(s, spec)
            case Err(e) => Err(e)
            case Ok(parts) =>
              if || LabelSessions(parts.train.labels) != LabelSessions(train)
                 || LabelSessions(parts.validation.labels) != LabelSessions(validation)
                 || LabelSessions(parts.test.labels) != LabelSessions(test)
              then
                Err(PartitionMismatch)
              else if !MeetsMinimums(train, validation, test) then
                Err(MinimumCountsFailed)
              else
                Ok(Phase2Split(
                     Manifest(layout,
                              Cut(source, Slice(0, TRAILING_WARMUP_ROWS)),
                              LabelSessions(train),
                              LabelSessions(Cut(s.labels, layout.trainGap)),
                              LabelSessions(validation),
                              LabelSessions(Cut(s.labels, layout.testGap)),
                              LabelSessions(test),
                              source[|source| - Min(EXIT_OFFSET_SESSIONS, |source|)..],
                              spec),
                     parts))
  }

  // ---------------------------------------------------------------- positional slices are date purges

  lemma SessionOrder(labels: seq<LabelRow>, i: nat, j: nat)
    requires Timeline(labels) && i < |labels| && j < |labels|
    ensures labels[i].session < labels[j].session <==> i < j
    ensures labels[i].exitSession < labels[j].exitSession <==> i < j
  {
  }

  /** An exit lies beyond a labelled session exactly when that session is fewer than six sessions on, or none is. */
  lemma ExitAgainstSession(labels: seq<LabelRow>, i: nat, j: nat)
    requires Timeline(labels) && i < |labels| && j < |labels| && |labels| > EXIT_OFFSET_SESSIONS
    ensures labels[j].session <= labels[i].exitSession <==> j <= i + EXIT_OFFSET_SESSIONS
  {
    var n := |labels|;
    if i + EXIT_OFFSET_SESSIONS < n {
      assert labels[i].exitSession == labels[i + EXIT_OFFSET_SESSIONS].session;
      SessionOrder(labels, i + EXIT_OFFSET_SESSIONS, j);
      SessionOrder(labels, j, i + EXIT_OFFSET_SESSIONS);
    } else {
      var k := n - 1 - EXIT_OFFSET_SESSIONS;
      assert labels[k].exitSession == labels[k + EXIT_OFFSET_SESSIONS].session;
      SessionOrder(labels, k, i);
      SessionOrder(labels, n - 1, j);
    }
  }

  lemma TimelineOfSlice(labels: seq<LabelRow>, p: nat, q: nat)
    requires Timeline(labels) && p <= q <= |labels|
    ensures Timeline(labels[p..q])
  {
    var part := labels[p..q];
    assert forall i :: 0 <= i < |part| ==> part[i] == labels[p + i];
  }

  /** The first label of a run of rows opens its dates; the exit of the last one closes them. */
  lemma IncludedIsSlice(labels: seq<LabelRow>, p: nat, q: nat)
    requires Timeline(labels) && p < q <= |labels| && |labels| > EXIT_OFFSET_SESSIONS
    ensures var (start, end) := (labels[p].session, labels[q - 1].exitSession);
            && SetExactlyOn(Included(labels, start, end), p, q)
            && SetExactlyOn(Crossing(labels, start, end), q, Min(q + BOUNDARY_EXCLUSION_SESSIONS, |labels|))
  {
    hide Timeline;
    var start, end := labels[p].session, labels[q - 1].exitSession;
    forall i | 0 <= i < |labels|
      ensures Included(labels, start, end)[i] <==> p <= i < q
      ensures Crossing(labels, start, end)[i] <==> q <= i < Min(q + BOUNDARY_EXCLUSION_SESSIONS, |labels|)
    {
      SessionOrder(labels, i, p);
      SessionOrder(labels, q - 1, i);
      ExitAgainstSession(labels, q - 1, i);
    }
  }

  /**
   The partitioner, given the dates of a run of consecutive rows, selects exactly those rows, and purges exactly the
   next six rows, or however many of them the data set still has.
   */
  lemma DatePurgeIsSlice(s: Supervised, p: nat, q: nat)
    requires ValidSupervised(s) && p < q <= |s.labels| && |s.labels| > EXIT_OFFSET_SESSIONS
    ensures BuildPartition(s, s.labels[p].session, s.labels[q - 1].exitSession)
         == Ok(Partition(s.features[p..q], s.labels[p..q], Min(BOUNDARY_EXCLUSION_SESSIONS, |s.labels| - q)))
  {
    hide Timeline, SetExactlyOn, Select, CountSet, Included, Crossing;
    var start, end := s.labels[p].session, s.labels[q - 1].exitSession;
    IncludedIsSlice(s.labels, p, q);
    SelectSlice(s.features, Included(s.labels, start, end), p, q);
    SelectSlice(s.labels, Included(s.labels, start, end), p, q);
    SelectSlice(s.labels, Crossing(s.labels, start, end), q, Min(q + BOUNDARY_EXCLUSION_SESSIONS, |s.labels|));
    TimelineOfSlice(s.labels, p, q);
    SliceInside(s.labels, p, q);
  }

  lemma SliceInside(labels: seq<LabelRow>, p: nat, q: nat)
    requires Timeline(labels) && p < q <= |labels| && |labels| > EXIT_OFFSET_SESSIONS
    ensures forall l :: l in labels[p..q] ==>
              labels[p].session <= l.session <= labels[q - 1].exitSession && l.exitSession <= labels[q - 1].exitSession
  {
    hide Timeline;
    forall l | l in labels[p..q]
      ensures labels[p].session <= l.session <= labels[q - 1].exitSession && l.exitSession <= labels[q - 1].exitSession
    {
      var i :| 0 <= i < q - p && labels[p..q][i] == l;
      SessionOrder(labels, p + i, p);
      SessionOrder(labels, q - 1, p + i);
      ExitAgainstSession(labels, q - 1, p + i);
    }
  }

  /** Six rows is the least gap between partitions for which their dates make a valid specification. */
  lemma SixIsTheLeastGap(labels: seq<LabelRow>, a: nat, b: nat, c: nat, gap: nat)
    requires Timeline(labels) && |labels| > EXIT_OFFSET_SESSIONS
    requires a >= 1 && b >= 1 && c >= 1 && a + gap + b + gap + c <= |labels|
    ensures var (v, t) := (a + gap, a + gap + b + gap);
            ValidSpec(SpecOf(labels[..a], labels[v..v + b], labels[t..t + c])) <==> gap >= BOUNDARY_EXCLUSION_SESSIONS
  {
    hide Timeline;
    var v, t := a + gap, a + gap + b + gap;
    ExitAgainstSession(labels, a - 1, v);
    ExitAgainstSession(labels, v + b - 1, t);
    ExitAgainstSession(labels, a - 1, 0);
    ExitAgainstSession(labels, v + b - 1, v);
    ExitAgainstSession(labels, t + c - 1, t);
  }

  // ---------------------------------------------------------------- what the construction does

  function TrainRows(n: nat): nat
    requires n > 2 * BOUNDARY_EXCLUSION_SESSIONS
  {
    (n - 2 * BOUNDARY_EXCLUSION_SESSIONS) * 70 / 100
  }

  function ValidationRows(n: nat): nat
    requires n > 2 * BOUNDARY_EXCLUSION_SESSIONS
  {
    (n - 2 * BOUNDARY_EXCLUSION_SESSIONS) * 15 / 100
  }

  function ValidationStart(n: nat): nat
    requires n > 2 * BOUNDARY_EXCLUSION_SESSIONS
  {
    TrainRows(n) + BOUNDARY_EXCLUSION_SESSIONS
  }

  function TestStart(n: nat): nat
    requires n > 2 * BOUNDARY_EXCLUSION_SESSIONS
  {
    ValidationStart(n) + ValidationRows(n) + BOUNDARY_EXCLUSION_SESSIONS
  }

  /** With assignable rows the layout always fits: the remainder and empty-final-test branches are never taken. */
  lemma LayoutAlwaysFits(sessions: seq<int>)
    requires Increasing(sessions)
    ensures var (n, r) := (|sessions|, SplitLayout(sessions));
            && (r.Err? <==> n <= 2 * BOUNDARY_EXCLUSION_SESSIONS)
            && (r.Err? ==> r.error == EmptyPredictionSessions || r.error == InsufficientAssignableRows)
            && (r.Ok? ==>
                  && TestStart(n) < n
                  && r.value == Layout(n, n - 2 * BOUNDARY_EXCLUSION_SESSIONS,
                                       Slice(0, TrainRows(n)),
                                       Slice(TrainRows(n), ValidationStart(n)),
                                       Slice(ValidationStart(n), ValidationStart(n) + ValidationRows(n)),
                                       Slice(ValidationStart(n) + ValidationRows(n), TestStart(n)),
                                       Slice(TestStart(n), n)))
  {
    hide Increasing;
    var n := |sessions|;
    if n > 2 * BOUNDARY_EXCLUSION_SESSIONS {
      assert TestStart(n) < n;
      assert |Cut(sessions, Slice(TestStart(n), n))| == n - TestStart(n);
    }
  }

  lemma LabelsIncrease(labels: seq<LabelRow>)
    requires Timeline(labels)
    ensures Increasing(LabelSessions(labels))
  {
  }

  lemma CutIs<T>(rows: seq<T>, low: nat, high: nat)
    requires low <= high <= |rows|
    ensures Cut(rows, Slice(low, high)) == rows[low..high]
  {
  }

  lemma SlicesDisjoint(labels: seq<LabelRow>, a: nat, v: nat, w: nat, t: nat)
    requires Timeline(labels) && a <= v <= w <= t <= |labels|
    ensures LabelledSessions(labels[0..a]) !! LabelledSessions(labels[v..w]) !! LabelledSessions(labels[t..|labels|])
  {
    hide Timeline;
    forall i, j | 0 <= i < j < |labels| ensures labels[i].session != labels[j].session {
      SessionOrder(labels, i, j);
    }
    forall x | x in LabelledSessions(labels[0..a])
      ensures x !in LabelledSessions(labels[v..w]) && x !in LabelledSessions(labels[t..|labels|])
    {
      var l :| l in labels[0..a] && l.session == x;
      var i :| 0 <= i < a && labels[0..a][i] == l;
      OutsideSlice(labels, i, v, w);
      OutsideSlice(labels, i, t, |labels|);
    }
    forall x | x in LabelledSessions(labels[v..w]) ensures x !in LabelledSessions(labels[t..|labels|]) {
      var l :| l in labels[v..w] && l.session == x;
      var i :| 0 <= i < w - v && labels[v..w][i] == l;
      OutsideSlice(labels, v + i, t, |labels|);
    }
  }

  lemma OutsideSlice(labels: seq<LabelRow>, i: nat, p: nat, q: nat)
    requires i < p <= q <= |labels|
    requires forall a, b :: 0 <= a < b < |labels| ==> labels[a].session != labels[b].session
    ensures labels[i].session !in LabelledSessions(labels[p..q])
  {
    forall l | l in labels[p..q] ensures l.session != labels[i].session {
      var k :| 0 <= k < q - p && labels[p..q][k] == l;
      assert labels[p + k] == l;
    }
  }

  /** The three positional row ranges with the rows each purge removed: six, six and none. */
  function PositionalPartitions(s: Supervised): Partitions
    requires |s.features| == |s.labels| > 2 * BOUNDARY_EXCLUSION_SESSIONS
    requires TestStart(|s.labels|) < |s.labels|
  {
    var n := |s.labels|;
    var a, v, t := TrainRows(n), ValidationStart(n), TestStart(n);
    var w := v + ValidationRows(n);
    Partitions(Partition(s.features[0..a], s.labels[0..a], BOUNDARY_EXCLUSION_SESSIONS),
               Partition(s.features[v..w], s.labels[v..w], BOUNDARY_EXCLUSION_SESSIONS),
               Partition(s.features[t..n], s.labels[t..n], 0))
  }

  /** The dates of the three row ranges. */
  function PositionalSpec(s: Supervised): SplitSpec
    requires |s.labels| > 2 * BOUNDARY_EXCLUSION_SESSIONS && TestStart(|s.labels|) < |s.labels|
    requires TrainRows(|s.labels|) > 0 && ValidationRows(|s.labels|) > 0
  {
    var n := |s.labels|;
    var v, t := ValidationStart(n), TestStart(n);
    SpecOf(s.labels[0..TrainRows(n)], s.labels[v..v + ValidationRows(n)], s.labels[t..n])
  }

  lemma PositionalSpecIsValid(s: Supervised)
    requires ValidSupervised(s) && |s.labels| > 2 * BOUNDARY_EXCLUSION_SESSIONS && TestStart(|s.labels|) < |s.labels|
    requires TrainRows(|s.labels|) > 0 && ValidationRows(|s.labels|) > 0
    ensures ValidSpec(PositionalSpec(s))
  {
    hide Timeline, SpecOf, ValidSpec, TrainRows, ValidationRows;
    var n := |s.labels|;
    var a, t := TrainRows(n), TestStart(n);
    SixIsTheLeastGap(s.labels, a, ValidationRows(n), n - t, BOUNDARY_EXCLUSION_SESSIONS);
    assert s.labels[0..a] == s.labels[..a] && s.labels[t..n] == s.labels[t..t + (n - t)];
  }

  lemma PartitionsArePositional(s: Supervised)
    requires ValidSupervised(s) && |s.labels| > 2 * BOUNDARY_EXCLUSION_SESSIONS && TestStart(|s.labels|) < |s.labels|
    requires TrainRows(|s.labels|) > 0 && ValidationRows(|s.labels|) > 0
    ensures SplitSupervisedDataset(s, PositionalSpec(s)) == Ok(PositionalPartitions(s))
  {
    hide Timeline, BuildPartition, LabelledSessions, TrainRows, ValidationRows;
    var n := |s.labels|;
    var a, v, t := TrainRows(n), ValidationStart(n), TestStart(n);
    var w := v + ValidationRows(n);
    DatePurgeIsSlice(s, 0, a);
    DatePurgeIsSlice(s, v, w);
    DatePurgeIsSlice(s, t, n);
    SlicesDisjoint(s.labels, a, v, w, t);
  }

  /**
   Every outcome of the construction on valid supervised rows: positional slicing and date purging never disagree,
   so only too few rows or too few labels of a kind are refused, and otherwise the partitions are the positional
   rows, with six, six and no rows purged.
   */
  lemma ConstructionOutcome(s: Supervised, source: seq<int>)
    requires ValidSupervised(s)
    ensures var (n, r) := (|s.labels|, ConstructPhase2Split(s, source));
            if n <= 2 * BOUNDARY_EXCLUSION_SESSIONS then r == Err(InsufficientAssignableRows)
            else if TrainRows(n) == 0 || ValidationRows(n) == 0 then r == Err(EmptySlice)
            else
              && TestStart(n) < n
              && var parts := PositionalPartitions(s);
              if !MeetsMinimums(parts.train.labels, parts.validation.labels, parts.test.labels)
              then r == Err(MinimumCountsFailed)
              else
                && r.Ok? && r.value.partitions == parts
                && r.value.manifest.spec == SpecOf(parts.train.labels, parts.validation.labels, parts.test.labels)
                && SplitLayout(LabelSessions(s.labels)) == Ok(r.value.manifest.layout)
  {
    hide Timeline, SplitSupervisedDataset, SplitLayout, MeetsMinimums, ValidSpec, SpecOf, Increasing, Cut,
      TrainRows, ValidationRows, LabelSessions;
    var n := |s.labels|;
    LabelsIncrease(s.labels);
    LayoutAlwaysFits(LabelSessions(s.labels));
    if n <= 2 * BOUNDARY_EXCLUSION_SESSIONS {
      LayoutRefusal(LabelSessions(s.labels));
    } else {
      CutIs(s.labels, 0, TrainRows(n));
      CutIs(s.labels, ValidationStart(n), ValidationStart(n) + ValidationRows(n));
      CutIs(s.labels, TestStart(n), n);
      if TrainRows(n) > 0 && ValidationRows(n) > 0 {
        PositionalSpecIsValid(s);
        PartitionsArePositional(s);
      }
    }
  }

  lemma LayoutRefusal(sessions: seq<int>)
    requires Increasing(sessions) && 0 < |sessions| <= 2 * BOUNDARY_EXCLUSION_SESSIONS
    ensures SplitLayout(sessions) == Err(InsufficientAssignableRows)
  {
  }

  lemma ManifestLists(s: Supervised, source: seq<int>)
    requires ConstructPhase2Split(s, source).Ok?
    ensures SplitLayout(LabelSessions(s.labels)).Ok?
    ensures var (m, layout) := (ConstructPhase2Split(s, source).value.manifest,
                                SplitLayout(LabelSessions(s.labels)).value);
            && m.warmup == Cut(source, Slice(0, TRAILING_WARMUP_ROWS))
            && m.train == LabelSessions(Cut(s.labels, layout.train))
            && m.trainGap == LabelSessions(Cut(s.labels, layout.trainGap))
            && m.validation == LabelSessions(Cut(s.labels, layout.validation))
            && m.testGap == LabelSessions(Cut(s.labels, layout.testGap))
            && m.finalTest == LabelSessions(Cut(s.labels, layout.finalTest))
            && m.horizon == source[|source| - Min(EXIT_OFFSET_SESSIONS, |source|)..]
  {
    hide SplitSupervisedDataset, SplitLayout, MeetsMinimums, ValidSpec, SpecOf, Increasing, Cut, LabelSessions;
  }

  /** Where in the source history the manifest's seven lists lie. */
  lemma ManifestSlices(s: Supervised, source: seq<int>)
    requires ValidSupervised(s)
    requires |source| == TRAILING_WARMUP_ROWS + |s.labels| + EXIT_OFFSET_SESSIONS
    requires forall i :: 0 <= i < |s.labels| ==> s.labels[i].session == source[TRAILING_WARMUP_ROWS + i]
    requires ConstructPhase2Split(s, source).Ok?
    ensures |s.labels| > 2 * BOUNDARY_EXCLUSION_SESSIONS && TestStart(|s.labels|) < |s.labels|
    ensures var (n, m) := (|s.labels|, ConstructPhase2Split(s, source).value.manifest);
            var (a, v, t) := (TrainRows(n), ValidationStart(n), TestStart(n));
            var w := v + ValidationRows(n);
            && m.warmup == source[..TRAILING_WARMUP_ROWS]
            && m.train == source[TRAILING_WARMUP_ROWS..TRAILING_WARMUP_ROWS + a]
            && m.trainGap == source[TRAILING_WARMUP_ROWS + a..TRAILING_WARMUP_ROWS + v]
            && m.validation == source[TRAILING_WARMUP_ROWS + v..TRAILING_WARMUP_ROWS + w]
            && m.testGap == source[TRAILING_WARMUP_ROWS + w..TRAILING_WARMUP_ROWS + t]
            && m.finalTest == source[TRAILING_WARMUP_ROWS + t..TRAILING_WARMUP_ROWS + n]
            && m.horizon == source[TRAILING_WARMUP_ROWS + n..]
  {
    hide Timeline, ConstructPhase2Split, SplitLayout, Increasing, TrainRows, ValidationRows, LabelSessions, Cut;
    var n := |s.labels|;
    ManifestLists(s, source);
    LabelsIncrease(s.labels);
    LayoutAlwaysFits(LabelSessions(s.labels));
    var a, v, t := TrainRows(n), ValidationStart(n), TestStart(n);
    var w := v + ValidationRows(n);
    SourceSlice(s.labels, source, 0, a);
    SourceSlice(s.labels, source, a, v);
    SourceSlice(s.labels, source, v, w);
    SourceSlice(s.labels, source, w, t);
    SourceSlice(s.labels, source, t, n);
    CutIs(source, 0, TRAILING_WARMUP_ROWS);
  }

  /** The seven session lists of the manifest, end to end, are the sessions of the source history. */
  lemma SessionsTile(s: Supervised, source: seq<int>)
    requires ValidSupervised(s)
    requires |source| == TRAILING_WARMUP_ROWS + |s.labels| + EXIT_OFFSET_SESSIONS
    requires forall i :: 0 <= i < |s.labels| ==> s.labels[i].session == source[TRAILING_WARMUP_ROWS + i]
    requires ConstructPhase2Split(s, source).Ok?
    ensures var m := ConstructPhase2Split(s, source).value.manifest;
            && |m.trainGap| == |m.testGap| == BOUNDARY_EXCLUSION_SESSIONS
            && m.warmup + m.train + m.trainGap + m.validation + m.testGap + m.finalTest + m.horizon == source
  {
    hide ValidSupervised, ConstructPhase2Split, TrainRows, ValidationRows, ValidationStart, TestStart;
    ManifestSlices(s, source);
    var n, first := |s.labels|, TRAILING_WARMUP_ROWS;
    var a, v, t := TrainRows(n), ValidationStart(n), TestStart(n);
    var w := v + ValidationRows(n);
    StartsAre(n);
    var (b, c, d, e, f) := (first + a, first + v, first + w, first + t, first + n);
    assert first <= b <= c <= d <= e <= f <= |source|;
    SixCuts(source, first, b, c, d, e, f);
  }

  lemma StartsAre(n: nat)
    requires n > 2 * BOUNDARY_EXCLUSION_SESSIONS
    ensures ValidationStart(n) == TrainRows(n) + BOUNDARY_EXCLUSION_SESSIONS
    ensures TestStart(n) == ValidationStart(n) + ValidationRows(n) + BOUNDARY_EXCLUSION_SESSIONS
  {
  }

  lemma SourceSlice(labels: seq<LabelRow>, source: seq<int>, p: nat, q: nat)
    requires |source| >= TRAILING_WARMUP_ROWS + |labels| && p <= q <= |labels|
    requires forall i :: 0 <= i < |labels| ==> labels[i].session == source[TRAILING_WARMUP_ROWS + i]
    ensures LabelSessions(Cut(labels, Slice(p, q))) == source[TRAILING_WARMUP_ROWS + p..TRAILING_WARMUP_ROWS + q]
  {
    CutIs(labels, p, q);
    forall i | 0 <= i < q - p
      ensures LabelSessions(labels[p..q])[i] == source[TRAILING_WARMUP_ROWS + p..TRAILING_WARMUP_ROWS + q][i]
    {
      assert labels[p..q][i] == labels[p + i];
    }
  }

  lemma SixCuts(x: seq<int>, a: nat, b: nat, c: nat, d: nat, e: nat, f: nat)
    requires a <= b <= c <= d <= e <= f <= |x|
    ensures x[..a] + x[a..b] + x[b..c] + x[c..d] + x[d..e] + x[e..f] + x[f..] == x
  {
    assert x[..a] + x[a..b] == x[..b];
    assert x[..b] + x[b..c] == x[..c];
    assert x[..c] + x[c..d] == x[..d];
    assert x[..d] + x[d..e] == x[..e];
    assert x[..e] + x[e..f] == x[..f];
  }

  // ---------------------------------------------------------------- the split in numbers

  /** `rows` is the whole part of `percent` hundredths of `all`. */
  predicate IsShare(rows: int, percent: int, all: int) {
    100 * rows <= percent * all < 100 * (rows + 1)
  }

  lemma SharesAre(n: nat, a: int, b: int)
    requires n > 12 && IsShare(a, 70, n - 12) && IsShare(b, 15, n - 12)
    ensures a == TrainRows(n) && b == ValidationRows(n)
    ensures a + 6 == ValidationStart(n) && a + b + 12 == TestStart(n) && 0 <= a && 0 <= b && a + b + 12 < n
  {
  }

  lemma {:induction false} TargetsCounted(labels: seq<LabelRow>, positions: set<int>)
    requires forall i :: 0 <= i < |labels| ==> labels[i].target == 0 || labels[i].target == 1
    requires forall i :: i in positions <==> 0 <= i < |labels| && labels[i].target == 1
    ensures TargetSum(labels) == |positions|
  {
    if labels == [] {
      EmptyPositions(positions);
    } else {
      TargetsCounted(labels[..|labels| - 1], positions - {|labels| - 1});
    }
  }

  /** At least so many rows, positive targets and other targets. */
  predicate Enough(labels: seq<LabelRow>, rows: int, positives: int, negatives: int) {
    |labels| >= rows && TargetSum(labels) >= positives && |labels| - TargetSum(labels) >= negatives
  }

  /**
   The split of valid supervised rows, where `a` is 70 and `b` 15 hundredths of the rows that two gaps of six leave:
   the first `a` rows train, six are left out, `b` validate, six are left out, and the rest is the final test. It is
   refused exactly when a part is empty or has too few rows or too few targets of a kind.
   */
  lemma SplitExactly(s: Supervised, source: seq<int>, a: int, b: int)
    requires ValidSupervised(s)
    requires |s.labels| > 12 ==> IsShare(a, 70, |s.labels| - 12) && IsShare(b, 15, |s.labels| - 12)
    ensures var (r, n, x, y) := (ConstructPhase2Split(s, source), |s.labels|, s.features, s.labels);
            if n <= 12 then r == Err(InsufficientAssignableRows)
            else
              && 0 <= a && 0 <= b && a + b + 12 < n
              && (r.Ok? <==>
                    && a >= 1 && b >= 1 && Enough(y[..a], 756, 120, 120)
                    && Enough(y[a + 6..a + 6 + b], 252, 40, 40) && Enough(y[a + b + 12..], 252, 40, 40))
              && (r.Ok? ==>
                    && r.value.partitions == Partitions(Partition(x[..a], y[..a], 6),
                                                        Partition(x[a + 6..a + 6 + b], y[a + 6..a + 6 + b], 6),
                                                        Partition(x[a + b + 12..], y[a + b + 12..], 0))
                    && r.value.manifest.spec
                       == SplitSpec(y[0].session, y[a - 1].exitSession, y[a + 6].session, y[a + b + 5].exitSession,
                                    y[a + b + 12].session, y[n - 1].exitSession)
                    && r.value.manifest.layout
                       == Layout(n, n - 12, Slice(0, a), Slice(a, a + 6), Slice(a + 6, a + 6 + b),
                                 Slice(a + 6 + b, a + b + 12), Slice(a + b + 12, n)))
  {
    hide ConstructPhase2Split, TrainRows, ValidationRows, IsShare, Timeline, SplitLayout, ValidationStart,
      TestStart, PositionalPartitions, MeetsMinimums, Enough, SpecOf;
    var n := |s.labels|;
    ConstructionOutcome(s, source);
    if n > 12 {
      SharesAre(n, a, b);
      LabelsIncrease(s.labels);
      LayoutAlwaysFits(LabelSessions(s.labels));
      PartsAre(s, a, b);
      if a >= 1 && b >= 1 {
        SpecIs(s.labels, a, b);
      }
    }
  }

  lemma PartsAre(s: Supervised, a: int, b: int)
    requires |s.features| == |s.labels| > 12 && IsShare(a, 70, |s.labels| - 12) && IsShare(b, 15, |s.labels| - 12)
    ensures var (n, x, y) := (|s.labels|, s.features, s.labels);
            && 0 <= a && 0 <= b && a + b + 12 < n && TestStart(n) < n
            && PositionalPartitions(s) == Partitions(Partition(x[..a], y[..a], 6),
                                                     Partition(x[a + 6..a + 6 + b], y[a + 6..a + 6 + b], 6),
                                                     Partition(x[a + b + 12..], y[a + b + 12..], 0))
            && (MeetsMinimums(y[..a], y[a + 6..a + 6 + b], y[a + b + 12..]) <==>
                  && Enough(y[..a], 756, 120, 120) && Enough(y[a + 6..a + 6 + b], 252, 40, 40)
                  && Enough(y[a + b + 12..], 252, 40, 40))
  {
    hide TrainRows, ValidationRows, IsShare, ValidationStart, TestStart, TargetSum;
    SharesAre(|s.labels|, a, b);
    SlicesToTheEnds(s, a, a + b + 12);
  }

  lemma SpecIs(y: seq<LabelRow>, a: int, b: int)
    requires a >= 1 && b >= 1 && a + b + 12 < |y|
    ensures SpecOf(y[..a], y[a + 6..a + 6 + b], y[a + b + 12..])
         == SplitSpec(y[0].session, y[a - 1].exitSession, y[a + 6].session, y[a + b + 5].exitSession,
                      y[a + b + 12].session, y[|y| - 1].exitSession)
  {
  }

  /** Rows that do not pair up, or whose sessions do not strictly increase, are refused before anything else. */
  lemma MalformedIsRefused(s: Supervised, source: seq<int>)
    ensures var r := ConstructPhase2Split(s, source);
            && (r == Err(RowCountMismatch) <==> |s.features| != |s.labels|)
            && (|s.features| == |s.labels| && !Increasing(LabelSessions(s.labels)) ==> r == Err(InvalidSessions))
  {
    hide Increasing, SpecOf, ValidSpec, MeetsMinimums, Cut, LabelSessions;
    LayoutErrors(LabelSessions(s.labels));
    if |s.features| == |s.labels| && SplitLayout(LabelSessions(s.labels)).Ok? {
      PartitionErrors(s);
    }
  }

  lemma LayoutErrors(sessions: seq<int>)
    ensures SplitLayout(sessions) != Err(RowCountMismatch)
  {
  }

  lemma PartitionErrors(s: Supervised)
    requires |s.features| == |s.labels|
    ensures forall spec :: SplitSupervisedDataset(s, spec) != Err(RowCountMismatch)
  {
    hide Included, Select, Crossing, Timeline, SameSessions;
  }

  lemma SlicesToTheEnds(s: Supervised, a: int, t: int)
    requires 0 <= a <= |s.labels| == |s.features| && 0 <= t <= |s.labels|
    ensures s.labels[0..a] == s.labels[..a] && s.features[0..a] == s.features[..a]
    ensures s.labels[t..|s.labels|] == s.labels[t..] && s.features[t..|s.features|] == s.features[t..]
  {
  }

  /** The manifest's seven lists of sessions of the source history. */
  lemma ManifestExactly(s: Supervised, source: seq<int>, a: int, b: int)
    requires ValidSupervised(s) && |source| == |s.labels| + 26
    requires forall i :: 0 <= i < |s.labels| ==> s.labels[i].session == source[20 + i]
    requires ConstructPhase2Split(s, source).Ok?
    requires IsShare(a, 70, |s.labels| - 12) && IsShare(b, 15, |s.labels| - 12)
    ensures var (n, m) := (|s.labels|, ConstructPhase2Split(s, source).value.manifest);
            && 0 <= a && 0 <= b && a + b + 12 < n
            && m.warmup == source[..20] && m.train == source[20..20 + a] && m.trainGap == source[20 + a..26 + a]
            && m.validation == source[26 + a..26 + a + b] && m.testGap == source[26 + a + b..32 + a + b]
            && m.finalTest == source[32 + a + b..20 + n] && m.horizon == source[20 + n..]
  {
    hide ConstructPhase2Split, TrainRows, ValidationRows, IsShare, ValidationStart, TestStart, ValidSupervised;
    ManifestSlices(s, source);
    SharesAre(|s.labels|, a, b);
  }
}
