/**
 Regime cells: every labelled session falls into exactly one cell of each regime, and whatever is attributed to
 cells by signal session adds up, over the cells, to what the labelled sessions have in total.
 */
module Regimes {
  import opened Wrappers
  import opened Sequences
  import opened Aggregates
  import opened Columns
  import opened Features
  import opened Datasets
  import opened Leakage
  import opened KeyedSums
  import Engine = BacktestEngine
  import Risk = RiskRules
  import Measures = BacktestMetrics

  datatype Regime = Trend200 | RealizedVolatility20 | Drawdown10 | CalendarYear

  datatype Cell =
    | Unavailable
    | Bull
    | Bear
    | HighVolatility
    | LowerVolatility
    | InDrawdown
    | Normal
    | Year(year: int)

  datatype RegimeRow = RegimeRow(session: int, trend: Cell, volatility: Cell, drawdown: Cell, calendarYear: Cell)

  function CellOf(row: RegimeRow, regime: Regime): Cell {
    match regime
    case Trend200 => row.trend
    case RealizedVolatility20 => row.volatility
    case Drawdown10 => row.drawdown
    case CalendarYear => row.calendarYear
  }

  /** The highest close up to and including row `i`. */
  function RunningPeak(bars: seq<Bar>, i: nat): real
    requires i < |bars|
  {
    if i == 0 then bars[0].close else Engine.Max(RunningPeak(bars, i - 1), bars[i].close)
  }

  function RegimeRowAt(bars: seq<Bar>, fns: Analysis, threshold: real, year: int -> int, i: nat): RegimeRow
    requires i < |bars|
  {
    var mean := RollingMean(Closes(bars), 200)[i];
    var volatility := Volatility(bars, fns)[i];
    var drawdown := Divide(Some(bars[i].close), Some(RunningPeak(bars, i)));
    RegimeRow(
      bars[i].session,
      if mean.None? then Unavailable else if bars[i].close >= mean.value then Bull else Bear,
      if volatility.None? then Unavailable
      else if volatility.value > threshold then HighVolatility
      else LowerVolatility,
      if drawdown.Some? && drawdown.value - 1.0 <= -0.1 then InDrawdown else Normal,
      Year(year(bars[i].session)))
  }

  /** The regime labels of every session of a history, given the frozen volatility threshold. */
  function RegimeFrame(bars: seq<Bar>, fns: Analysis, threshold: real, year: int -> int): (rows: seq<RegimeRow>)
    ensures |rows| == |bars|
  {
    seq(|bars|, i requires 0 <= i < |bars| => RegimeRowAt(bars, fns, threshold, year, i))
  }

  lemma {:induction false} PeakLooksBack(a: seq<Bar>, b: seq<Bar>, n: nat, i: nat)
    requires Agree(a, b, n) && i < n
    ensures RunningPeak(a, i) == RunningPeak(b, i)
  {
    if i > 0 {
      PeakLooksBack(a, b, n, i - 1);
    }
  }

  /** With the threshold frozen, a session's regime labels do not depend on later prices. */
  lemma RegimesLookBack(a: seq<Bar>, b: seq<Bar>, fns: Analysis, threshold: real, year: int -> int, n: nat)
    requires Agree(a, b, n)
    ensures Agree(RegimeFrame(a, fns, threshold, year), RegimeFrame(b, fns, threshold, year), n)
  {
    hide Volatility, RollingMean, Closes, RunningPeak;
    PricesAgree(a, b, n);
    RollingMeanAgrees(Closes(a), Closes(b), 200, n);
    VolatilityAgrees(a, b, fns, n);
    forall i | 0 <= i < n
      ensures RegimeFrame(a, fns, threshold, year)[i] == RegimeFrame(b, fns, threshold, year)[i]
    {
      PeakLooksBack(a, b, n, i);
    }
  }

  // ---------------------------------------------------------------- classification per cell

  /** A probability that is not a finite number is None. */
  datatype Prediction = Prediction(session: int, target: int, probability: Option<real>, predicted: int)

  datatype Confusion = Confusion(tn: int, fp: int, fn: int, tp: int)

  function IsTn(p: Prediction): bool { p.target == 0 && p.predicted == 0 }
  function IsFp(p: Prediction): bool { p.target == 0 && p.predicted == 1 }
  function IsFn(p: Prediction): bool { p.target == 1 && p.predicted == 0 }
  function IsTp(p: Prediction): bool { p.target == 1 && p.predicted == 1 }
  function IsPositiveTarget(p: Prediction): bool { p.target == 1 }
  function IsPositivePrediction(p: Prediction): bool { p.predicted == 1 }

  predicate Binary(rows: seq<Prediction>) {
    forall p <- rows :: (p.target == 0 || p.target == 1) && (p.predicted == 0 || p.predicted == 1)
  }

  /** What the classification metrics demand of their rows. */
  predicate Measurable(rows: seq<Prediction>) {
    rows != [] && Binary(rows) && forall p <- rows :: p.probability.Some? && 0.0 <= p.probability.value <= 1.0
  }

  function ConfusionOf(rows: seq<Prediction>): Confusion {
    Confusion(CountIf(rows, IsTn), CountIf(rows, IsFp), CountIf(rows, IsFn), CountIf(rows, IsTp))
  }

  /**
   The counting loop of the classification metrics.  No rows, a class other than 0 and 1, or a probability outside
   [0, 1] is refused.
   */
  method CountConfusion(rows: seq<Prediction>) returns (c: Option<Confusion>)
    ensures c == if Measurable(rows) then Some(ConfusionOf(rows)) else None
  {
    hide CountIf;
    if !Measurable(rows) {
      return None;
    }
    var tn, fp, fn, tp := 0, 0, 0, 0;
    EmptyCount(IsTn);
    EmptyCount(IsFp);
    EmptyCount(IsFn);
    EmptyCount(IsTp);
    for i := 0 to |rows|
      invariant Confusion(tn, fp, fn, tp) == ConfusionOf(rows[..i])
    {
      var p := rows[i];
      assert rows[..i + 1] == rows[..i] + [p];
      ConfusionSnoc(rows[..i], p);
      if p.target == 0 && p.predicted == 0 {
        tn := tn + 1;
      } else if p.target == 0 && p.predicted == 1 {
        fp := fp + 1;
      } else if p.target == 1 && p.predicted == 0 {
        fn := fn + 1;
      } else {
        tp := tp + 1;
      }
    }
    assert rows[..|rows|] == rows;
    c := Some(Confusion(tn, fp, fn, tp));
  }

  lemma ConfusionSnoc(rows: seq<Prediction>, p: Prediction)
    ensures var (c, d) := (ConfusionOf(rows + [p]), ConfusionOf(rows));
            && c.tn == d.tn + (if IsTn(p) then 1 else 0)
            && c.fp == d.fp + (if IsFp(p) then 1 else 0)
            && c.fn == d.fn + (if IsFn(p) then 1 else 0)
            && c.tp == d.tp + (if IsTp(p) then 1 else 0)
  {
    hide CountIf;
    CountSnoc(rows, p, IsTn);
    CountSnoc(rows, p, IsFp);
    CountSnoc(rows, p, IsFn);
    CountSnoc(rows, p, IsTp);
  }

  /** The four counts partition the rows, the actual positives and the predicted positives. */
  lemma {:induction false} ConfusionPartitions(rows: seq<Prediction>)
    requires Binary(rows)
    ensures var c := ConfusionOf(rows);
            && c.tn + c.fp + c.fn + c.tp == |rows|
            && c.tp + c.fn == CountIf(rows, IsPositiveTarget)
            && c.tp + c.fp == CountIf(rows, IsPositivePrediction)
  {
    if rows != [] {
      ConfusionPartitions(rows[..|rows| - 1]);
      assert rows[|rows| - 1] in rows;
    }
  }

  // ---------------------------------------------------------------- strategies per cell

  function OrderSession(o: Risk.ProposedOrder): int { o.signalSession }
  function FillSession(f: Engine.FillRecord): int { f.signalSession }
  function StateSession(r: Engine.PortfolioRow): int { r.signalSession }

  function NumbersOf(orders: seq<Risk.ProposedOrder>): set<int> {
    set o | o in orders :: o.sequenceNumber
  }

  /** What a set of signal sessions is responsible for; decisions follow their orders. */
  function Attributed(frames: Engine.Frames, sessions: set<int>): Engine.Frames {
    var orders := Filter(frames.orders, Within(OrderSession, sessions));
    Engine.Frames(
      orders,
      Filter(frames.decisions, Within(Risk.DecisionNumber, NumbersOf(orders))),
      Filter(frames.fills, Within(FillSession, sessions)),
      Filter(frames.portfolio, Within(StateSession, sessions)))
  }

  datatype StrategyTotals = StrategyTotals(
    orders: int,
    fills: int,
    approved: int,
    rejected: int,
    transactionCosts: real,
    slippage: real,
    turnover: real,
    endingCash: Option<real>,
    endingShares: Option<int>,
    exposurePercentage: Option<real>)

  function StrategyTotalsOf(frames: Engine.Frames): StrategyTotals {
    var states, approved := frames.portfolio, CountIf(frames.decisions, Measures.IsApproved);
    StrategyTotals(
      |frames.orders|, |frames.fills|, approved, |frames.decisions| - approved,
      Sum(frames.fills, Measures.Commission),
      Sum(frames.fills, Measures.SlippageCost),
      Sum(frames.fills, Measures.ReferenceNotional),
      if states == [] then None else Some(states[|states| - 1].cash),
      if states == [] then None else Some(states[|states| - 1].shares),
      if states == [] then None
      else Some((CountIf(states, Measures.Holds) as real) / (|states| as real) * 100.0))
  }

  // ---------------------------------------------------------------- the diagnostics of one regime

  datatype CellDiagnostics = CellDiagnostics(
    sampleSize: int,
    positiveCount: int,
    negativeCount: int,
    smallSample: bool,
    classifications: seq<Confusion>,
    strategies: seq<StrategyTotals>)

  /** `selected` are the selected model's predictions, `baselines` those of each classification baseline. */
  datatype Inputs = Inputs(
    joined: seq<RegimeRow>,
    targets: map<int, int>,
    selected: seq<Prediction>,
    baselines: seq<seq<Prediction>>,
    strategies: seq<Engine.Frames>,
    smallSampleThreshold: int)

  function RowSession(row: RegimeRow): int { row.session }

  function InCell(regime: Regime, cell: Cell): RegimeRow -> bool {
    row => CellOf(row, regime) == cell
  }

  function IsPositive(targets: map<int, int>): RegimeRow -> bool {
    (row: RegimeRow) => row.session in targets && targets[row.session] == 1
  }

  function SessionsIn(rows: seq<RegimeRow>): set<int> {
    set r | r in rows :: r.session
  }

  function CellSessions(joined: seq<RegimeRow>, regime: Regime, cell: Cell): set<int> {
    SessionsIn(Filter(joined, InCell(regime, cell)))
  }

  function PredictionSession(p: Prediction): int { p.session }

  /** The selected model, then each baseline. */
  function Predictors(inputs: Inputs): seq<seq<Prediction>> {
    [inputs.selected] + inputs.baselines
  }

  function PredictionsIn(predictions: seq<Prediction>, sessions: set<int>): seq<Prediction> {
    Filter(predictions, Within(PredictionSession, sessions))
  }

  function CellClassifications(inputs: Inputs, regime: Regime, cell: Cell): seq<Confusion> {
    var (all, sessions) := (Predictors(inputs), CellSessions(inputs.joined, regime, cell));
    seq(|all|, k requires 0 <= k < |all| => ConfusionOf(PredictionsIn(all[k], sessions)))
  }

  function CellStrategies(inputs: Inputs, regime: Regime, cell: Cell): seq<StrategyTotals> {
    var sessions := CellSessions(inputs.joined, regime, cell);
    seq(|inputs.strategies|, k requires 0 <= k < |inputs.strategies| =>
      StrategyTotalsOf(Attributed(inputs.strategies[k], sessions)))
  }

  /** What the diagnostics of a cell have to be. */
  function Diagnosis(inputs: Inputs, regime: Regime, cell: Cell): CellDiagnostics {
    var group := Filter(inputs.joined, InCell(regime, cell));
    var positive := CountIf(group, IsPositive(inputs.targets));
    CellDiagnostics(
      |group|, positive, |group| - positive, |group| < inputs.smallSampleThreshold,
      CellClassifications(inputs, regime, cell),
      CellStrategies(inputs, regime, cell))
  }

  /** A cell is refused when the predictions of some predictor for its sessions cannot be measured. */
  predicate CellRefused(inputs: Inputs, regime: Regime, cell: Cell) {
    exists predictions <- Predictors(inputs) ::
      !Measurable(PredictionsIn(predictions, CellSessions(inputs.joined, regime, cell)))
  }

  function CellsOf(joined: seq<RegimeRow>, regime: Regime): set<Cell> {
    set r | r in joined :: CellOf(r, regime)
  }

  /** The diagnostics loop of one regime: group by group, each cell's entry is computed and filed. */
  method RegimeCells(inputs: Inputs, regime: Regime) returns (result: Option<map<Cell, CellDiagnostics>>)
    ensures result.None? <==> exists cell :: cell in CellsOf(inputs.joined, regime) && CellRefused(inputs, regime, cell)
    ensures result.Some? ==>
              && result.value.Keys == CellsOf(inputs.joined, regime)
              && forall cell :: cell in result.value ==> result.value[cell] == Diagnosis(inputs, regime, cell)
  {
    hide CellsOf, CellRefused, Diagnosis;
    var cells: map<Cell, CellDiagnostics> := map[];
    var remaining := CellsOf(inputs.joined, regime);
    while remaining != {}
      invariant remaining <= CellsOf(inputs.joined, regime)
      invariant cells.Keys == CellsOf(inputs.joined, regime) - remaining
      invariant forall cell :: cell in cells ==>
                  cells[cell] == Diagnosis(inputs, regime, cell) && !CellRefused(inputs, regime, cell)
      decreases |remaining|
    {
      var cell :| cell in remaining;
      var diagnosis := DiagnoseCell(inputs, regime, cell);
      if diagnosis.None? {
        return None;
      }
      cells := cells[cell := diagnosis.value];
      remaining := remaining - {cell};
    }
    result := Some(cells);
  }

  method DiagnoseCell(inputs: Inputs, regime: Regime, cell: Cell) returns (diagnosis: Option<CellDiagnostics>)
    ensures diagnosis == if CellRefused(inputs, regime, cell) then None else Some(Diagnosis(inputs, regime, cell))
  {
    hide CountIf, Filter, Sum, ConfusionOf, StrategyTotalsOf, Attributed, Measurable, PredictionsIn;
    var group := Filter(inputs.joined, InCell(regime, cell));
    var total := |group|;
    var positive := CountPositive(group, inputs.targets);
    var classifications := Classify(Predictors(inputs), CellSessions(inputs.joined, regime, cell));
    if classifications.None? {
      return None;
    }
    assert classifications.value == CellClassifications(inputs, regime, cell);
    var strategies := AttributeStrategies(inputs.strategies, CellSessions(inputs.joined, regime, cell));
    assert strategies == CellStrategies(inputs, regime, cell);
    diagnosis := Some(CellDiagnostics(total, positive, total - positive, total < inputs.smallSampleThreshold,
                                      classifications.value, strategies));
  }

  /** The confusion counts of every predictor over the given sessions. */
  method Classify(predictors: seq<seq<Prediction>>, sessions: set<int>) returns (result: Option<seq<Confusion>>)
    ensures result.None? <==> exists predictions <- predictors :: !Measurable(PredictionsIn(predictions, sessions))
    ensures result.Some? ==>
              && |result.value| == |predictors|
              && forall k :: 0 <= k < |predictors| ==>
                 result.value[k] == ConfusionOf(PredictionsIn(predictors[k], sessions))
  {
    hide Measurable, ConfusionOf, PredictionsIn;
    var counts := [];
    for i := 0 to |predictors|
      invariant |counts| == i
      invariant forall k :: 0 <= k < i ==>
                  && Measurable(PredictionsIn(predictors[k], sessions))
                  && counts[k] == ConfusionOf(PredictionsIn(predictors[k], sessions))
    {
      var confusion := CountConfusion(PredictionsIn(predictors[i], sessions));
      if confusion.None? {
        return None;
      }
      counts := counts + [confusion.value];
    }
    result := Some(counts);
  }

  method CountPositive(group: seq<RegimeRow>, targets: map<int, int>) returns (positive: nat)
    ensures positive == CountIf(group, IsPositive(targets))
  {
    positive := 0;
    for i := 0 to |group|
      invariant positive == CountIf(group[..i], IsPositive(targets))
    {
      assert group[..i + 1] == group[..i] + [group[i]];
      CountSnoc(group[..i], group[i], IsPositive(targets));
      if group[i].session in targets && targets[group[i].session] == 1 {
        positive := positive + 1;
      }
    }
    assert group[..|group|] == group;
  }

  method AttributeStrategies(strategies: seq<Engine.Frames>, sessions: set<int>) returns (totals: seq<StrategyTotals>)
    ensures |totals| == |strategies|
    ensures forall k :: 0 <= k < |strategies| ==> totals[k] == StrategyTotalsOf(Attributed(strategies[k], sessions))
  {
    totals := [];
    for k := 0 to |strategies|
      invariant |totals| == k
      invariant forall j :: 0 <= j < k ==> totals[j] == StrategyTotalsOf(Attributed(strategies[j], sessions))
    {
      totals := totals + [StrategyTotalsOf(Attributed(strategies[k], sessions))];
    }
  }

  // ---------------------------------------------------------------- conservation

  /** Sessions are unique in the joined rows; so are order numbers in a strategy's frames. */
  ghost predicate UniqueSessions(rows: seq<RegimeRow>) {
    KeysDiffer(rows, RowSession)
  }

  /** The session sets of the cells, in the order the cells are listed. */
  function CellFamily(joined: seq<RegimeRow>, regime: Regime, order: seq<Cell>): seq<set<int>> {
    if order == [] then
      []
    else
      CellFamily(joined, regime, order[..|order| - 1]) + [CellSessions(joined, regime, order[|order| - 1])]
  }

  /** The number sets of the orders each cell is responsible for. */
  function NumberFamily(joined: seq<RegimeRow>, regime: Regime, order: seq<Cell>,
                        frames: Engine.Frames): seq<set<int>>
  {
    if order == [] then
      []
    else
      NumberFamily(joined, regime, order[..|order| - 1], frames)
      + [NumbersOf(Attributed(frames, CellSessions(joined, regime, order[|order| - 1])).orders)]
  }

  function CountTotal(inputs: Inputs, regime: Regime, order: seq<Cell>, field: CellDiagnostics -> int): int {
    if order == [] then
      0
    else
      CountTotal(inputs, regime, order[..|order| - 1], field) + field(Diagnosis(inputs, regime, order[|order| - 1]))
  }

  function AmountTotal(inputs: Inputs, regime: Regime, order: seq<Cell>, field: CellDiagnostics -> real): real {
    if order == [] then
      0.0
    else
      AmountTotal(inputs, regime, order[..|order| - 1], field) + field(Diagnosis(inputs, regime, order[|order| - 1]))
  }

  lemma {:induction false} FamilyFacts(joined: seq<RegimeRow>, regime: Regime, order: seq<Cell>)
    ensures |CellFamily(joined, regime, order)| == |order|
    ensures forall i :: 0 <= i < |order| ==>
              CellFamily(joined, regime, order)[i] == CellSessions(joined, regime, order[i])
  {
    hide CellSessions;
    if order != [] {
      FamilyFacts(joined, regime, order[..|order| - 1]);
    }
  }

  lemma CellSessionsMembers(joined: seq<RegimeRow>, regime: Regime, cell: Cell, s: int)
    ensures s in CellSessions(joined, regime, cell) <==>
            exists i :: 0 <= i < |joined| && joined[i].session == s && CellOf(joined[i], regime) == cell
  {
    FilterMembers(joined, InCell(regime, cell));
    if s in CellSessions(joined, regime, cell) {
      var r :| r in Filter(joined, InCell(regime, cell)) && r.session == s;
      var i :| 0 <= i < |joined| && joined[i] == r;
    }
    if i :| 0 <= i < |joined| && joined[i].session == s && CellOf(joined[i], regime) == cell {
      assert joined[i] in Filter(joined, InCell(regime, cell));
    }
  }

  /** A session lies in one cell only. */
  lemma CellsAreDisjoint(joined: seq<RegimeRow>, regime: Regime, a: Cell, b: Cell)
    requires UniqueSessions(joined) && a != b
    ensures CellSessions(joined, regime, a) !! CellSessions(joined, regime, b)
  {
    hide CellSessions, CellOf;
    forall s | s in CellSessions(joined, regime, a) ensures s !in CellSessions(joined, regime, b) {
      CellSessionsMembers(joined, regime, a, s);
      CellSessionsMembers(joined, regime, b, s);
      var i :| 0 <= i < |joined| && joined[i].session == s && CellOf(joined[i], regime) == a;
      forall j | 0 <= j < |joined| && joined[j].session == s ensures CellOf(joined[j], regime) == a {
        SameRow(joined, i, j);
      }
    }
  }

  lemma SameRow(joined: seq<RegimeRow>, i: nat, j: nat)
    requires UniqueSessions(joined) && i < |joined| && j < |joined|
    ensures joined[i].session == joined[j].session ==> i == j
  {
    if i < j {
      assert RowSession(joined[i]) != RowSession(joined[j]);
    }
    if j < i {
      assert RowSession(joined[j]) != RowSession(joined[i]);
    }
  }

  /** The cells together hold every joined session. */
  lemma CellsCover(joined: seq<RegimeRow>, regime: Regime, order: seq<Cell>)
    requires UniqueSessions(joined) && NoDuplicates(order)
    requires forall c :: c in order <==> c in CellsOf(joined, regime)
    ensures Disjoint(CellFamily(joined, regime, order))
    ensures Union(CellFamily(joined, regime, order)) == SessionsIn(joined)
  {
    hide CellSessions, CellOf, Union, CellFamily;
    var family := CellFamily(joined, regime, order);
    FamilyFacts(joined, regime, order);
    forall i, j | 0 <= i < j < |family| ensures family[i] !! family[j] {
      CellsAreDisjoint(joined, regime, order[i], order[j]);
    }
    UnionMembers(family);
    forall s ensures s in Union(family) <==> s in SessionsIn(joined) {
      if s in Union(family) {
        var i :| 0 <= i < |family| && s in family[i];
        CellSessionsMembers(joined, regime, order[i], s);
      }
      if s in SessionsIn(joined) {
        var k :| 0 <= k < |joined| && joined[k].session == s;
        var cell := CellOf(joined[k], regime);
        assert joined[k] in joined && cell in CellsOf(joined, regime);
        var i :| 0 <= i < |order| && order[i] == cell;
        CellSessionsMembers(joined, regime, cell, s);
        assert s in family[i];
      }
    }
  }

  // Fields of a cell's diagnostics that conservation is about.
  function SampleSize(d: CellDiagnostics): int { d.sampleSize }
  function PositiveCount(d: CellDiagnostics): int { d.positiveCount }

  // Fields of the k-th predictor's confusion counts in a cell.
  function TrueNegativesOf(k: nat): CellDiagnostics -> int {
    (d: CellDiagnostics) => if k < |d.classifications| then d.classifications[k].tn else 0
  }

  function FalsePositivesOf(k: nat): CellDiagnostics -> int {
    (d: CellDiagnostics) => if k < |d.classifications| then d.classifications[k].fp else 0
  }

  function FalseNegativesOf(k: nat): CellDiagnostics -> int {
    (d: CellDiagnostics) => if k < |d.classifications| then d.classifications[k].fn else 0
  }

  function TruePositivesOf(k: nat): CellDiagnostics -> int {
    (d: CellDiagnostics) => if k < |d.classifications| then d.classifications[k].tp else 0
  }

  /** A count taken per cell, of the rows a family of key sets picks, adds up to the count over the family. */
  lemma {:induction false} CountsConserved<T>(inputs: Inputs, regime: Regime, order: seq<Cell>,
      field: CellDiagnostics -> int, family: seq<set<int>>, rows: seq<T>, key: T -> int, holds: T -> bool)
    requires |family| == |order|
    requires forall i :: 0 <= i < |order| ==>
               field(Diagnosis(inputs, regime, order[i])) == CountIf(Filter(rows, Within(key, family[i])), holds)
    ensures CountTotal(inputs, regime, order, field) == CountOver(family, rows, key, holds)
  {
    hide Diagnosis, Filter, CountIf;
    if order != [] {
      var n := |order| - 1;
      CountsConserved(inputs, regime, order[..n], field, family[..n], rows, key, holds);
    }
  }

  lemma {:induction false} AmountsConserved<T>(inputs: Inputs, regime: Regime, order: seq<Cell>,
      field: CellDiagnostics -> real, family: seq<set<int>>, rows: seq<T>, key: T -> int, value: T -> real)
    requires |family| == |order|
    requires forall i :: 0 <= i < |order| ==>
               field(Diagnosis(inputs, regime, order[i])) == Sum(Filter(rows, Within(key, family[i])), value)
    ensures AmountTotal(inputs, regime, order, field) == SumOver(family, rows, key, value)
  {
    hide Diagnosis, Filter, Sum;
    if order != [] {
      var n := |order| - 1;
      AmountsConserved(inputs, regime, order[..n], field, family[..n], rows, key, value);
    }
  }

  /** Grouping by cell and picking by the cell's sessions give the same rows. */
  lemma {:induction false} GroupIsBySession(rows: seq<RegimeRow>, keep: RegimeRow -> bool, sessions: set<int>)
    requires forall r :: r in rows ==> (keep(r) <==> r.session in sessions)
    ensures Filter(rows, keep) == Filter(rows, Within(RowSession, sessions))
  {
    if rows != [] {
      var front, last := rows[..|rows| - 1], rows[|rows| - 1];
      assert rows == front + [last];
      assert last in rows && forall r :: r in front ==> r in rows;
      WithinIs(RowSession, sessions, last);
      GroupIsBySession(front, keep, sessions);
    }
  }

  lemma CellIsBySession(joined: seq<RegimeRow>, regime: Regime, cell: Cell)
    requires UniqueSessions(joined)
    ensures Filter(joined, InCell(regime, cell))
            == Filter(joined, Within(RowSession, CellSessions(joined, regime, cell)))
  {
    hide CellSessions, CellOf, Filter;
    forall r | r in joined ensures InCell(regime, cell)(r) <==> r.session in CellSessions(joined, regime, cell) {
      CellSessionsMembers(joined, regime, cell, r.session);
      var i :| 0 <= i < |joined| && joined[i] == r;
      forall j | 0 <= j < |joined| && joined[j].session == r.session ensures joined[j] == r {
        SameRow(joined, i, j);
      }
    }
    GroupIsBySession(joined, InCell(regime, cell), CellSessions(joined, regime, cell));
  }

  lemma {:induction false} AllWithin(rows: seq<RegimeRow>, sessions: set<int>)
    requires forall r :: r in rows ==> r.session in sessions
    ensures Filter(rows, Within(RowSession, sessions)) == rows
  {
    if rows != [] {
      var front, last := rows[..|rows| - 1], rows[|rows| - 1];
      assert rows == front + [last];
      assert last in rows && forall r :: r in front ==> r in rows;
      WithinIs(RowSession, sessions, last);
      AllWithin(front, sessions);
    }
  }

  /** The listed cells are exactly the cells of the regime, each once. */
  ghost predicate Listing(order: seq<Cell>, inputs: Inputs, regime: Regime) {
    NoDuplicates(order) && forall c :: c in order <==> c in CellsOf(inputs.joined, regime)
  }

  /** Counts picked by signal session are conserved. */
  lemma PickedCount<T>(inputs: Inputs, regime: Regime, order: seq<Cell>, field: CellDiagnostics -> int,
                       rows: seq<T>, key: T -> int, holds: T -> bool)
    requires UniqueSessions(inputs.joined) && Listing(order, inputs, regime)
    requires forall c :: field(Diagnosis(inputs, regime, c))
                         == CountIf(Filter(rows, Within(key, CellSessions(inputs.joined, regime, c))), holds)
    ensures CountTotal(inputs, regime, order, field)
         == CountIf(Filter(rows, Within(key, SessionsIn(inputs.joined))), holds)
  {
    hide Filter, CountIf, CellSessions, CellFamily, Union, CountTotal, Diagnosis;
    var family := CellFamily(inputs.joined, regime, order);
    FamilyFacts(inputs.joined, regime, order);
    CellsCover(inputs.joined, regime, order);
    CountsConserved(inputs, regime, order, field, family, rows, key, holds);
    CountsAddUp(family, rows, key, holds);
  }

  /** So are amounts. */
  lemma PickedAmount<T>(inputs: Inputs, regime: Regime, order: seq<Cell>, field: CellDiagnostics -> real,
                        rows: seq<T>, key: T -> int, value: T -> real)
    requires UniqueSessions(inputs.joined) && Listing(order, inputs, regime)
    requires forall c :: field(Diagnosis(inputs, regime, c))
                         == Sum(Filter(rows, Within(key, CellSessions(inputs.joined, regime, c))), value)
    ensures AmountTotal(inputs, regime, order, field)
            == Sum(Filter(rows, Within(key, SessionsIn(inputs.joined))), value)
  {
    hide Filter, Sum, CellSessions, CellFamily, Union, AmountTotal, Diagnosis;
    var family := CellFamily(inputs.joined, regime, order);
    FamilyFacts(inputs.joined, regime, order);
    CellsCover(inputs.joined, regime, order);
    AmountsConserved(inputs, regime, order, field, family, rows, key, value);
    SumsAddUp(family, rows, key, value);
  }

  /** Sample sizes add up to the labelled sessions, positive counts to their positives. */
  lemma SamplesConserved(inputs: Inputs, regime: Regime, order: seq<Cell>)
    requires UniqueSessions(inputs.joined) && Listing(order, inputs, regime)
    ensures CountTotal(inputs, regime, order, SampleSize) == |inputs.joined|
    ensures CountTotal(inputs, regime, order, PositiveCount) == CountIf(inputs.joined, IsPositive(inputs.targets))
  {
    hide Filter, CountIf, CellSessions, CountTotal;
    var joined := inputs.joined;
    forall c ensures SampleSize(Diagnosis(inputs, regime, c))
                     == CountIf(Filter(joined, Within(RowSession, CellSessions(joined, regime, c))), Any()) {
      CellIsBySession(joined, regime, c);
      CountAny(Filter(joined, InCell(regime, c)));
    }
    PickedCount(inputs, regime, order, SampleSize, joined, RowSession, Any());
    AllWithin(joined, SessionsIn(joined));
    CountAny(joined);
    forall c ensures PositiveCount(Diagnosis(inputs, regime, c))
                     == CountIf(Filter(joined, Within(RowSession, CellSessions(joined, regime, c))),
                                IsPositive(inputs.targets)) {
      CellIsBySession(joined, regime, c);
    }
    PickedCount(inputs, regime, order, PositiveCount, joined, RowSession, IsPositive(inputs.targets));
  }

  lemma CellClassification(inputs: Inputs, regime: Regime, c: Cell, k: nat)
    requires k < |Predictors(inputs)|
    ensures var d := Diagnosis(inputs, regime, c);
            && k < |d.classifications|
            && d.classifications[k]
            == ConfusionOf(Filter(Predictors(inputs)[k],
                                  Within(PredictionSession, CellSessions(inputs.joined, regime, c))))
  {
    hide CellSessions, ConfusionOf, Filter, CountIf, CellStrategies;
  }

  /** Confusion counts of every predictor add up to those of all its predictions for labelled sessions. */
  lemma ConfusionConserved(inputs: Inputs, regime: Regime, order: seq<Cell>, k: nat)
    requires UniqueSessions(inputs.joined) && Listing(order, inputs, regime) && k < |Predictors(inputs)|
    ensures Confusion(CountTotal(inputs, regime, order, TrueNegativesOf(k)),
                      CountTotal(inputs, regime, order, FalsePositivesOf(k)),
                      CountTotal(inputs, regime, order, FalseNegativesOf(k)),
                      CountTotal(inputs, regime, order, TruePositivesOf(k)))
         == ConfusionOf(Filter(Predictors(inputs)[k], Within(PredictionSession, SessionsIn(inputs.joined))))
  {
    hide Filter, CountIf, CellSessions, CountTotal, Diagnosis, Predictors;
    var rows := Predictors(inputs)[k];
    forall c
      ensures var picked := Filter(rows, Within(PredictionSession, CellSessions(inputs.joined, regime, c)));
              && TrueNegativesOf(k)(Diagnosis(inputs, regime, c)) == CountIf(picked, IsTn)
              && FalsePositivesOf(k)(Diagnosis(inputs, regime, c)) == CountIf(picked, IsFp)
              && FalseNegativesOf(k)(Diagnosis(inputs, regime, c)) == CountIf(picked, IsFn)
              && TruePositivesOf(k)(Diagnosis(inputs, regime, c)) == CountIf(picked, IsTp)
    {
      CellClassification(inputs, regime, c, k);
    }
    PickedCount(inputs, regime, order, TrueNegativesOf(k), rows, PredictionSession, IsTn);
    PickedCount(inputs, regime, order, FalsePositivesOf(k), rows, PredictionSession, IsFp);
    PickedCount(inputs, regime, order, FalseNegativesOf(k), rows, PredictionSession, IsFn);
    PickedCount(inputs, regime, order, TruePositivesOf(k), rows, PredictionSession, IsTp);
  }

  // Fields of the k-th strategy's totals in a cell.
  function OrdersIn(k: nat): CellDiagnostics -> int {
    (d: CellDiagnostics) => if k < |d.strategies| then d.strategies[k].orders else 0
  }

  function FillsIn(k: nat): CellDiagnostics -> int {
    (d: CellDiagnostics) => if k < |d.strategies| then d.strategies[k].fills else 0
  }

  function ApprovedIn(k: nat): CellDiagnostics -> int {
    (d: CellDiagnostics) => if k < |d.strategies| then d.strategies[k].approved else 0
  }

  function DecisionsIn(k: nat): CellDiagnostics -> int {
    (d: CellDiagnostics) => if k < |d.strategies| then d.strategies[k].approved + d.strategies[k].rejected else 0
  }

  function CostsIn(k: nat): CellDiagnostics -> real {
    (d: CellDiagnostics) => if k < |d.strategies| then d.strategies[k].transactionCosts else 0.0
  }

  function SlippageIn(k: nat): CellDiagnostics -> real {
    (d: CellDiagnostics) => if k < |d.strategies| then d.strategies[k].slippage else 0.0
  }

  function TurnoverIn(k: nat): CellDiagnostics -> real {
    (d: CellDiagnostics) => if k < |d.strategies| then d.strategies[k].turnover else 0.0
  }

  lemma CellStrategy(inputs: Inputs, regime: Regime, c: Cell, k: nat)
    requires k < |inputs.strategies|
    ensures var d := Diagnosis(inputs, regime, c);
            && k < |d.strategies|
            && d.strategies[k]
            == StrategyTotalsOf(Attributed(inputs.strategies[k], CellSessions(inputs.joined, regime, c)))
  {
    hide StrategyTotalsOf, Attributed, CellSessions, ConfusionOf, Filter, CountIf;
  }

  /** Orders, fills, costs, slippage and turnover add up to those of all signals in labelled sessions. */
  lemma StrategyConserved(inputs: Inputs, regime: Regime, order: seq<Cell>, k: nat)
    requires UniqueSessions(inputs.joined) && Listing(order, inputs, regime) && k < |inputs.strategies|
    ensures var whole := StrategyTotalsOf(Attributed(inputs.strategies[k], SessionsIn(inputs.joined)));
            && CountTotal(inputs, regime, order, OrdersIn(k)) == whole.orders
            && CountTotal(inputs, regime, order, FillsIn(k)) == whole.fills
            && AmountTotal(inputs, regime, order, CostsIn(k)) == whole.transactionCosts
            && AmountTotal(inputs, regime, order, SlippageIn(k)) == whole.slippage
            && AmountTotal(inputs, regime, order, TurnoverIn(k)) == whole.turnover
  {
    hide Filter, CountIf, Sum, CellSessions, CountTotal, AmountTotal, Diagnosis, NumbersOf;
    var frames, all := inputs.strategies[k], SessionsIn(inputs.joined);
    forall c
      ensures OrdersIn(k)(Diagnosis(inputs, regime, c))
           == CountIf(Filter(frames.orders, Within(OrderSession, CellSessions(inputs.joined, regime, c))), Any())
      ensures FillsIn(k)(Diagnosis(inputs, regime, c))
           == CountIf(Filter(frames.fills, Within(FillSession, CellSessions(inputs.joined, regime, c))), Any())
    {
      CellStrategy(inputs, regime, c, k);
      CountAny(Filter(frames.orders, Within(OrderSession, CellSessions(inputs.joined, regime, c))));
      CountAny(Filter(frames.fills, Within(FillSession, CellSessions(inputs.joined, regime, c))));
    }
    PickedCount(inputs, regime, order, OrdersIn(k), frames.orders, OrderSession, Any());
    PickedCount(inputs, regime, order, FillsIn(k), frames.fills, FillSession, Any());
    CountAny(Filter(frames.orders, Within(OrderSession, all)));
    CountAny(Filter(frames.fills, Within(FillSession, all)));
    FillAmountsConserved(inputs, regime, order, k);
  }

  lemma FillAmountsConserved(inputs: Inputs, regime: Regime, order: seq<Cell>, k: nat)
    requires UniqueSessions(inputs.joined) && Listing(order, inputs, regime) && k < |inputs.strategies|
    ensures var fills := Filter(inputs.strategies[k].fills, Within(FillSession, SessionsIn(inputs.joined)));
            && AmountTotal(inputs, regime, order, CostsIn(k)) == Sum(fills, Measures.Commission)
            && AmountTotal(inputs, regime, order, SlippageIn(k)) == Sum(fills, Measures.SlippageCost)
            && AmountTotal(inputs, regime, order, TurnoverIn(k)) == Sum(fills, Measures.ReferenceNotional)
  {
    hide Filter, CountIf, Sum, CellSessions, AmountTotal, Diagnosis, NumbersOf;
    var fills := inputs.strategies[k].fills;
    forall c
      ensures CostsIn(k)(Diagnosis(inputs, regime, c))
           == Sum(Filter(fills, Within(FillSession, CellSessions(inputs.joined, regime, c))), Measures.Commission)
      ensures SlippageIn(k)(Diagnosis(inputs, regime, c))
           == Sum(Filter(fills, Within(FillSession, CellSessions(inputs.joined, regime, c))), Measures.SlippageCost)
      ensures TurnoverIn(k)(Diagnosis(inputs, regime, c))
           == Sum(Filter(fills, Within(FillSession, CellSessions(inputs.joined, regime, c))),
                  Measures.ReferenceNotional)
    {
      CellStrategy(inputs, regime, c, k);
    }
    PickedAmount(inputs, regime, order, CostsIn(k), fills, FillSession, Measures.Commission);
    PickedAmount(inputs, regime, order, SlippageIn(k), fills, FillSession, Measures.SlippageCost);
    PickedAmount(inputs, regime, order, TurnoverIn(k), fills, FillSession, Measures.ReferenceNotional);
  }

  // ---------------------------------------------------------------- decisions follow their orders

  lemma NumbersMembers(orders: seq<Risk.ProposedOrder>, sessions: set<int>, n: int)
    ensures n in NumbersOf(Filter(orders, Within(OrderSession, sessions))) <==>
            exists i :: 0 <= i < |orders| && orders[i].sequenceNumber == n && orders[i].signalSession in sessions
  {
    hide Filter;
    var kept := Filter(orders, Within(OrderSession, sessions));
    FilterMembers(orders, Within(OrderSession, sessions));
    if n in NumbersOf(kept) {
      var o :| o in kept && o.sequenceNumber == n;
      WithinIs(OrderSession, sessions, o);
      var i :| 0 <= i < |orders| && orders[i] == o;
    }
    if i :| 0 <= i < |orders| && orders[i].sequenceNumber == n && orders[i].signalSession in sessions {
      WithinIs(OrderSession, sessions, orders[i]);
      assert orders[i] in kept;
    }
  }

  lemma NumbersDisjoint(orders: seq<Risk.ProposedOrder>, a: set<int>, b: set<int>)
    requires KeysDiffer(orders, Risk.OrderNumber) && a !! b
    ensures NumbersOf(Filter(orders, Within(OrderSession, a))) !! NumbersOf(Filter(orders, Within(OrderSession, b)))
  {
    hide Filter, NumbersOf;
    forall n | n in NumbersOf(Filter(orders, Within(OrderSession, a)))
      ensures n !in NumbersOf(Filter(orders, Within(OrderSession, b)))
    {
      NumbersMembers(orders, a, n);
      NumbersMembers(orders, b, n);
      var i :| 0 <= i < |orders| && orders[i].sequenceNumber == n && orders[i].signalSession in a;
      forall j | 0 <= j < |orders| && orders[j].sequenceNumber == n ensures orders[j].signalSession !in b {
        SameOrder(orders, i, j);
      }
    }
  }

  lemma SameOrder(orders: seq<Risk.ProposedOrder>, i: nat, j: nat)
    requires KeysDiffer(orders, Risk.OrderNumber) && i < |orders| && j < |orders|
    ensures orders[i].sequenceNumber == orders[j].sequenceNumber ==> i == j
  {
    if i < j {
      assert Risk.OrderNumber(orders[i]) != Risk.OrderNumber(orders[j]);
    }
    if j < i {
      assert Risk.OrderNumber(orders[j]) != Risk.OrderNumber(orders[i]);
    }
  }

  lemma {:induction false} NumberFamilyFacts(joined: seq<RegimeRow>, regime: Regime, order: seq<Cell>,
                                             frames: Engine.Frames)
    ensures |NumberFamily(joined, regime, order, frames)| == |order|
    ensures forall i :: 0 <= i < |order| ==>
              NumberFamily(joined, regime, order, frames)[i]
              == NumbersOf(Attributed(frames, CellSessions(joined, regime, order[i])).orders)
  {
    hide CellSessions, NumbersOf, Attributed;
    if order != [] {
      NumberFamilyFacts(joined, regime, order[..|order| - 1], frames);
    }
  }

  lemma NumbersCover(joined: seq<RegimeRow>, regime: Regime, order: seq<Cell>, frames: Engine.Frames)
    requires UniqueSessions(joined) && NoDuplicates(order) && KeysDiffer(frames.orders, Risk.OrderNumber)
    requires forall c :: c in order <==> c in CellsOf(joined, regime)
    ensures var family := NumberFamily(joined, regime, order, frames);
            Disjoint(family) && Union(family) == NumbersOf(Attributed(frames, SessionsIn(joined)).orders)
  {
    hide CellSessions, CellOf, Union, CellFamily, NumberFamily, NumbersOf, Filter, SessionsIn;
    var family, sets := NumberFamily(joined, regime, order, frames), CellFamily(joined, regime, order);
    NumberFamilyFacts(joined, regime, order, frames);
    FamilyFacts(joined, regime, order);
    CellsCover(joined, regime, order);
    forall i, j | 0 <= i < j < |family| ensures family[i] !! family[j] {
      NumbersDisjoint(frames.orders, sets[i], sets[j]);
    }
    UnionMembers(family);
    UnionMembers(sets);
    forall n ensures n in Union(family) <==> n in NumbersOf(Attributed(frames, SessionsIn(joined)).orders) {
      NumbersMembers(frames.orders, SessionsIn(joined), n);
      if n in Union(family) {
        var i :| 0 <= i < |family| && n in family[i];
        NumbersMembers(frames.orders, sets[i], n);
        var a :| 0 <= a < |frames.orders| && frames.orders[a].sequenceNumber == n
          && frames.orders[a].signalSession in sets[i];
        assert frames.orders[a].signalSession in Union(sets);
      }
      if a :| 0 <= a < |frames.orders| && frames.orders[a].sequenceNumber == n
              && frames.orders[a].signalSession in SessionsIn(joined) {
        var i :| 0 <= i < |sets| && frames.orders[a].signalSession in sets[i];
        NumbersMembers(frames.orders, sets[i], n);
        assert n in family[i];
      }
    }
  }

  /**
   Decisions go where their orders go: approved and decided counts add up to those of the orders of labelled
   sessions, each decision being counted in one cell.
   */
  lemma DecisionsConserved(inputs: Inputs, regime: Regime, order: seq<Cell>, k: nat)
    requires UniqueSessions(inputs.joined) && Listing(order, inputs, regime) && k < |inputs.strategies|
    requires KeysDiffer(inputs.strategies[k].orders, Risk.OrderNumber)
    ensures var whole := StrategyTotalsOf(Attributed(inputs.strategies[k], SessionsIn(inputs.joined)));
            && CountTotal(inputs, regime, order, ApprovedIn(k)) == whole.approved
            && CountTotal(inputs, regime, order, DecisionsIn(k)) == whole.approved + whole.rejected
  {
    hide Filter, CountIf, Sum, CellSessions, CountTotal, Diagnosis, NumbersOf, Union, NumberFamily, SessionsIn;
    var frames := inputs.strategies[k];
    var family := NumberFamily(inputs.joined, regime, order, frames);
    NumberFamilyFacts(inputs.joined, regime, order, frames);
    NumbersCover(inputs.joined, regime, order, frames);
    forall i | 0 <= i < |order|
      ensures ApprovedIn(k)(Diagnosis(inputs, regime, order[i]))
           == CountIf(Filter(frames.decisions, Within(Risk.DecisionNumber, family[i])), Measures.IsApproved)
      ensures DecisionsIn(k)(Diagnosis(inputs, regime, order[i]))
           == CountIf(Filter(frames.decisions, Within(Risk.DecisionNumber, family[i])), Any())
    {
      CellStrategy(inputs, regime, order[i], k);
      CountAny(Filter(frames.decisions, Within(Risk.DecisionNumber, family[i])));
    }
    CountsConserved(inputs, regime, order, ApprovedIn(k), family, frames.decisions, Risk.DecisionNumber,
                    Measures.IsApproved);
    CountsConserved(inputs, regime, order, DecisionsIn(k), family, frames.decisions, Risk.DecisionNumber, Any());
    CountsAddUp(family, frames.decisions, Risk.DecisionNumber, Measures.IsApproved);
    CountsAddUp(family, frames.decisions, Risk.DecisionNumber, Any());
    CountAny(Filter(frames.decisions, Within(Risk.DecisionNumber, Union(family))));
  }

  // ---------------------------------------------------------------- the joined rows are the labelled sessions

  /** The regime rows of the labelled sessions. */
  function Join(regimes: seq<RegimeRow>, labels: seq<LabelRow>): seq<RegimeRow> {
    Filter(regimes, Within(RowSession, LabelledSessions(labels)))
  }

  function TargetsOf(labels: seq<LabelRow>): map<int, int> {
    var rows := IndexBy(labels, LabelSession);
    map s | s in rows :: rows[s].target
  }

  function HasPositiveLabel(l: LabelRow): bool { l.target == 1 }

  function TargetIsPositive(targets: map<int, int>): int -> bool {
    (s: int) => s in targets && targets[s] == 1
  }

  lemma JoinedMembers(regimes: seq<RegimeRow>, labels: seq<LabelRow>, s: int)
    requires forall l :: l in labels ==> exists i :: 0 <= i < |regimes| && regimes[i].session == l.session
    ensures s in Column(Join(regimes, labels), RowSession) <==> s in Column(labels, LabelSession)
  {
    hide Filter;
    var joined := Join(regimes, labels);
    FilterMembers(regimes, Within(RowSession, LabelledSessions(labels)));
    if s in Column(joined, RowSession) {
      var i :| 0 <= i < |joined| && joined[i].session == s;
      assert joined[i] in joined;
      WithinIs(RowSession, LabelledSessions(labels), joined[i]);
      var l :| l in labels && l.session == s;
      var k :| 0 <= k < |labels| && labels[k] == l;
      assert Column(labels, LabelSession)[k] == s;
    }
    if s in Column(labels, LabelSession) {
      var k :| 0 <= k < |labels| && labels[k].session == s;
      assert labels[k] in labels;
      var i :| 0 <= i < |regimes| && regimes[i].session == labels[k].session;
      WithinIs(RowSession, LabelledSessions(labels), regimes[i]);
      assert regimes[i] in joined;
      var j :| 0 <= j < |joined| && joined[j] == regimes[i];
      assert Column(joined, RowSession)[j] == s;
    }
  }

  /** When every label has a regime row, the cells' samples are the labels and their positives the positive labels. */
  lemma JoinIsTheLabels(regimes: seq<RegimeRow>, labels: seq<LabelRow>)
    requires UniqueSessions(regimes) && KeysDiffer(labels, LabelSession)
    requires forall l :: l in labels ==> exists i :: 0 <= i < |regimes| && regimes[i].session == l.session
    ensures var joined := Join(regimes, labels);
            && UniqueSessions(joined)
            && |joined| == |labels|
            && CountIf(joined, IsPositive(TargetsOf(labels))) == CountIf(labels, HasPositiveLabel)
  {
    hide Filter, CountIf, IndexBy;
    var joined, targets := Join(regimes, labels), TargetsOf(labels);
    FilterKeysDiffer(regimes, Within(RowSession, LabelledSessions(labels)), RowSession);
    var ours, theirs := Column(joined, RowSession), Column(labels, LabelSession);
    forall s ensures s in ours <==> s in theirs {
      JoinedMembers(regimes, labels, s);
    }
    SameElements(ours, theirs);
    assert |ours| == |multiset(ours)| && |theirs| == |multiset(theirs)|;
    IndexByFacts(labels, LabelSession);
    CountByKey(joined, RowSession, TargetIsPositive(targets), IsPositive(targets));
    CountByKey(labels, LabelSession, TargetIsPositive(targets), HasPositiveLabel);
    CountRearranged(ours, theirs, TargetIsPositive(targets));
  }
}
