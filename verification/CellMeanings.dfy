/**
 What the diagnostics of a regime cell say: its counts, in terms of the rows that carry its label, the predictions for
 their sessions, and the orders, decisions, fills and closing states of their signals.
 */
module CellMeanings {
  import opened Wrappers
  import opened Aggregates
  import opened KeyedSums
  import opened Regimes
  import Engine = BacktestEngine
  import Risk = RiskRules
  import Measures = BacktestMetrics

  /** The row carries the cell's label in this regime. */
  predicate Falls(row: RegimeRow, regime: Regime, cell: Cell) {
    match regime
    case Trend200 => row.trend == cell
    case RealizedVolatility20 => row.volatility == cell
    case Drawdown10 => row.drawdown == cell
    case CalendarYear => row.calendarYear == cell
  }

  /** Some row of the cell is of this session. */
  ghost predicate InCellSession(s: int, joined: seq<RegimeRow>, regime: Regime, cell: Cell) {
    exists i :: 0 <= i < |joined| && joined[i].session == s && Falls(joined[i], regime, cell)
  }

  function RowsIn(joined: seq<RegimeRow>, regime: Regime, cell: Cell): set<int> {
    set i | 0 <= i < |joined| && Falls(joined[i], regime, cell)
  }

  function PositiveRowsIn(inputs: Inputs, regime: Regime, cell: Cell): set<int> {
    set i | 0 <= i < |inputs.joined| && Falls(inputs.joined[i], regime, cell)
            && inputs.joined[i].session in inputs.targets && inputs.targets[inputs.joined[i].session] == 1
  }

  function PredictorAt(inputs: Inputs, k: nat): seq<Prediction>
    requires k <= |inputs.baselines|
  {
    if k == 0 then inputs.selected else inputs.baselines[k - 1]
  }

  /** The predictions for sessions of the cell with this target and this class. */
  ghost function Predicted(rows: seq<Prediction>, target: int, predicted: int, joined: seq<RegimeRow>, regime: Regime,
                           cell: Cell): set<int>
  {
    set i | 0 <= i < |rows| && rows[i].target == target && rows[i].predicted == predicted
            && InCellSession(rows[i].session, joined, regime, cell)
  }

  ghost predicate ConfusionMeans(c: Confusion, rows: seq<Prediction>, joined: seq<RegimeRow>, regime: Regime,
                                 cell: Cell)
  {
    && c.tn == |Predicted(rows, 0, 0, joined, regime, cell)|
    && c.fp == |Predicted(rows, 0, 1, joined, regime, cell)|
    && c.fn == |Predicted(rows, 1, 0, joined, regime, cell)|
    && c.tp == |Predicted(rows, 1, 1, joined, regime, cell)|
  }

  /** The order with this number was signalled in a session of the cell. */
  ghost predicate OrderedIn(number: int, frames: Engine.Frames, joined: seq<RegimeRow>, regime: Regime, cell: Cell) {
    exists i :: 0 <= i < |frames.orders| && frames.orders[i].sequenceNumber == number
                && InCellSession(frames.orders[i].signalSession, joined, regime, cell)
  }

  ghost function OrdersIn(frames: Engine.Frames, joined: seq<RegimeRow>, regime: Regime, cell: Cell): set<int> {
    set i | 0 <= i < |frames.orders| && InCellSession(frames.orders[i].signalSession, joined, regime, cell)
  }

  ghost function FillsIn(frames: Engine.Frames, joined: seq<RegimeRow>, regime: Regime, cell: Cell): set<int> {
    set i | 0 <= i < |frames.fills| && InCellSession(frames.fills[i].signalSession, joined, regime, cell)
  }

  ghost function DecisionsIn(approved: bool, frames: Engine.Frames, joined: seq<RegimeRow>, regime: Regime, cell: Cell)
    : set<int>
  {
    set i | 0 <= i < |frames.decisions| && frames.decisions[i].approved == approved
            && OrderedIn(frames.decisions[i].orderSequenceNumber, frames, joined, regime, cell)
  }

  /** The closing states of the cell's signals. */
  ghost function StatesIn(rows: seq<Engine.PortfolioRow>, joined: seq<RegimeRow>, regime: Regime,
                          cell: Cell): set<int>
  {
    set i | 0 <= i < |rows| && InCellSession(rows[i].signalSession, joined, regime, cell)
  }

  ghost function HoldingIn(rows: seq<Engine.PortfolioRow>, joined: seq<RegimeRow>, regime: Regime, cell: Cell)
    : set<int>
  {
    set i | 0 <= i < |rows| && rows[i].shares >= 1 && InCellSession(rows[i].signalSession, joined, regime, cell)
  }

  /** Commission, slippage and reference notional of the fills signalled in sessions of the cell. */
  ghost function AmountsIn(fills: seq<Engine.FillRecord>, joined: seq<RegimeRow>, regime: Regime, cell: Cell)
    : (real, real, real)
  {
    if fills == [] then
      (0.0, 0.0, 0.0)
    else
      var before, f := AmountsIn(fills[..|fills| - 1], joined, regime, cell), fills[|fills| - 1];
      if InCellSession(f.signalSession, joined, regime, cell) then
        (before.0 + f.commission, before.1 + f.slippageCost, before.2 + f.referenceNotional)
      else
        before
  }

  /** Row `last` is the last closing state of the cell's signals. */
  ghost predicate IsLastState(last: int, rows: seq<Engine.PortfolioRow>, joined: seq<RegimeRow>, regime: Regime,
                              cell: Cell)
  {
    && last in StatesIn(rows, joined, regime, cell)
    && forall i :: i in StatesIn(rows, joined, regime, cell) ==> i <= last
  }

  ghost predicate EndingMeans(t: StrategyTotals, rows: seq<Engine.PortfolioRow>, joined: seq<RegimeRow>,
                              regime: Regime, cell: Cell)
  {
    if StatesIn(rows, joined, regime, cell) == {} then
      t.endingCash == None && t.endingShares == None && t.exposurePercentage == None
    else
      && (exists last :: IsLastState(last, rows, joined, regime, cell)
                         && t.endingCash == Some(rows[last].cash) && t.endingShares == Some(rows[last].shares))
      && t.exposurePercentage.Some?
      && t.exposurePercentage.value * (|StatesIn(rows, joined, regime, cell)| as real)
      == 100.0 * (|HoldingIn(rows, joined, regime, cell)| as real)
  }

  /** What a strategy's totals in a cell say. */
  ghost predicate StrategyMeans(t: StrategyTotals, frames: Engine.Frames, joined: seq<RegimeRow>, regime: Regime,
                                cell: Cell)
  {
    && t.orders == |OrdersIn(frames, joined, regime, cell)| && t.fills == |FillsIn(frames, joined, regime, cell)|
    && t.approved == |DecisionsIn(true, frames, joined, regime, cell)|
    && t.rejected == |DecisionsIn(false, frames, joined, regime, cell)|
    && (t.transactionCosts, t.slippage, t.turnover) == AmountsIn(frames.fills, joined, regime, cell)
    && EndingMeans(t, frames.portfolio, joined, regime, cell)
  }

  /** What the diagnostics of a cell say. */
  ghost predicate CellMeans(d: CellDiagnostics, inputs: Inputs, regime: Regime, cell: Cell) {
    && d.sampleSize == |RowsIn(inputs.joined, regime, cell)|
    && d.positiveCount == |PositiveRowsIn(inputs, regime, cell)|
    && d.negativeCount == d.sampleSize - d.positiveCount
    && d.smallSample == (d.sampleSize < inputs.smallSampleThreshold)
    && |d.classifications| == 1 + |inputs.baselines|
    && (forall k :: 0 <= k < |d.classifications| ==>
          ConfusionMeans(d.classifications[k], PredictorAt(inputs, k), inputs.joined, regime, cell))
    && |d.strategies| == |inputs.strategies|
    && forall k :: 0 <= k < |d.strategies| ==>
         StrategyMeans(d.strategies[k], inputs.strategies[k], inputs.joined, regime, cell)
  }

  lemma SessionsAre(joined: seq<RegimeRow>, regime: Regime, cell: Cell)
    ensures forall s :: s in CellSessions(joined, regime, cell) <==> InCellSession(s, joined, regime, cell)
  {
    hide CellSessions;
    forall s ensures s in CellSessions(joined, regime, cell) <==> InCellSession(s, joined, regime, cell) {
      CellSessionsMembers(joined, regime, cell, s);
      if InCellSession(s, joined, regime, cell) {
        var i :| 0 <= i < |joined| && joined[i].session == s && Falls(joined[i], regime, cell);
        assert CellOf(joined[i], regime) == cell;
      }
    }
  }

  lemma GroupCounted(inputs: Inputs, regime: Regime, cell: Cell)
    ensures |Filter(inputs.joined, InCell(regime, cell))| == |RowsIn(inputs.joined, regime, cell)|
    ensures CountIf(Filter(inputs.joined, InCell(regime, cell)), IsPositive(inputs.targets))
         == |PositiveRowsIn(inputs, regime, cell)|
  {
    hide Filter, CountIf;
    FilteredLength(inputs.joined, InCell(regime, cell), RowsIn(inputs.joined, regime, cell));
    FilteredCount(inputs.joined, InCell(regime, cell), IsPositive(inputs.targets),
                  PositiveRowsIn(inputs, regime, cell));
  }

  lemma ConfusionCounted(rows: seq<Prediction>, joined: seq<RegimeRow>, regime: Regime, cell: Cell)
    ensures ConfusionMeans(ConfusionOf(PredictionsIn(rows, CellSessions(joined, regime, cell))), rows, joined, regime,
                           cell)
  {
    hide Filter, CountIf, CellSessions, InCellSession;
    var sessions := CellSessions(joined, regime, cell);
    SessionsAre(joined, regime, cell);
    PickedPositions(rows, PredictionSession, sessions, IsTn, Predicted(rows, 0, 0, joined, regime, cell));
    PickedPositions(rows, PredictionSession, sessions, IsFp, Predicted(rows, 0, 1, joined, regime, cell));
    PickedPositions(rows, PredictionSession, sessions, IsFn, Predicted(rows, 1, 0, joined, regime, cell));
    PickedPositions(rows, PredictionSession, sessions, IsTp, Predicted(rows, 1, 1, joined, regime, cell));
  }

  lemma OrderNumbersAre(frames: Engine.Frames, joined: seq<RegimeRow>, regime: Regime, cell: Cell, number: int)
    ensures number in NumbersOf(Filter(frames.orders, Within(OrderSession, CellSessions(joined, regime, cell))))
            <==> OrderedIn(number, frames, joined, regime, cell)
  {
    hide Filter, CellSessions, InCellSession;
    var sessions := CellSessions(joined, regime, cell);
    var picked := Filter(frames.orders, Within(OrderSession, sessions));
    SessionsAre(joined, regime, cell);
    FilterMembers(frames.orders, Within(OrderSession, sessions));
    if number in NumbersOf(picked) {
      var o :| o in picked && o.sequenceNumber == number;
      WithinIs(OrderSession, sessions, o);
    }
    if OrderedIn(number, frames, joined, regime, cell) {
      var i :| 0 <= i < |frames.orders| && frames.orders[i].sequenceNumber == number
               && InCellSession(frames.orders[i].signalSession, joined, regime, cell);
      WithinIs(OrderSession, sessions, frames.orders[i]);
      assert frames.orders[i] in picked;
    }
  }

  function IsRefused(d: Risk.RiskDecision): bool { !d.approved }

  lemma DecisionsCounted(frames: Engine.Frames, joined: seq<RegimeRow>, regime: Regime, cell: Cell)
    ensures var decisions := Attributed(frames, CellSessions(joined, regime, cell)).decisions;
            && CountIf(decisions, Measures.IsApproved) == |DecisionsIn(true, frames, joined, regime, cell)|
            && |decisions| - CountIf(decisions, Measures.IsApproved)
               == |DecisionsIn(false, frames, joined, regime, cell)|
  {
    hide Filter, CountIf, CellSessions, NumbersOf, OrderedIn;
    var numbers := NumbersOf(Filter(frames.orders, Within(OrderSession, CellSessions(joined, regime, cell))));
    forall number ensures number in numbers <==> OrderedIn(number, frames, joined, regime, cell) {
      OrderNumbersAre(frames, joined, regime, cell, number);
    }
    PickedPositions(frames.decisions, Risk.DecisionNumber, numbers, Measures.IsApproved,
                    DecisionsIn(true, frames, joined, regime, cell));
    PickedPositions(frames.decisions, Risk.DecisionNumber, numbers, IsRefused,
                    DecisionsIn(false, frames, joined, regime, cell));
    CountSplits(Filter(frames.decisions, Within(Risk.DecisionNumber, numbers)), Measures.IsApproved, IsRefused);
  }

  lemma RowsCounted(frames: Engine.Frames, joined: seq<RegimeRow>, regime: Regime, cell: Cell)
    ensures var theirs := Attributed(frames, CellSessions(joined, regime, cell));
            && |theirs.orders| == |OrdersIn(frames, joined, regime, cell)|
            && |theirs.fills| == |FillsIn(frames, joined, regime, cell)|
  {
    hide Filter, CellSessions, NumbersOf, InCellSession;
    var sessions := CellSessions(joined, regime, cell);
    SessionsAre(joined, regime, cell);
    PickedLength(frames.orders, OrderSession, sessions, OrdersIn(frames, joined, regime, cell));
    PickedLength(frames.fills, FillSession, sessions, FillsIn(frames, joined, regime, cell));
  }

  lemma {:induction false} AmountsSummed(fills: seq<Engine.FillRecord>, joined: seq<RegimeRow>, regime: Regime,
                                         cell: Cell)
    ensures var theirs := Filter(fills, Within(FillSession, CellSessions(joined, regime, cell)));
            AmountsIn(fills, joined, regime, cell)
            == (Sum(theirs, Measures.Commission), Sum(theirs, Measures.SlippageCost),
                Sum(theirs, Measures.ReferenceNotional))
  {
    hide CellSessions, InCellSession, Sum;
    EmptySum(Measures.Commission);
    EmptySum(Measures.SlippageCost);
    EmptySum(Measures.ReferenceNotional);
    if fills != [] {
      var front, f := fills[..|fills| - 1], fills[|fills| - 1];
      var before := Filter(front, Within(FillSession, CellSessions(joined, regime, cell)));
      AmountsSummed(front, joined, regime, cell);
      SessionsAre(joined, regime, cell);
      SumSnoc(before, f, Measures.Commission);
      SumSnoc(before, f, Measures.SlippageCost);
      SumSnoc(before, f, Measures.ReferenceNotional);
    }
  }

  lemma PercentageMeans(held: real, all: real)
    requires all > 0.0
    ensures held / all * 100.0 * all == 100.0 * held
  {
    assert held / all * all == held;
  }

  lemma StatesCounted(rows: seq<Engine.PortfolioRow>, joined: seq<RegimeRow>, regime: Regime, cell: Cell)
    ensures var theirs := Filter(rows, Within(StateSession, CellSessions(joined, regime, cell)));
            && |theirs| == |StatesIn(rows, joined, regime, cell)|
            && CountIf(theirs, Measures.Holds) == |HoldingIn(rows, joined, regime, cell)|
  {
    hide Filter, CountIf, CellSessions, InCellSession;
    var sessions := CellSessions(joined, regime, cell);
    SessionsAre(joined, regime, cell);
    PickedLength(rows, StateSession, sessions, StatesIn(rows, joined, regime, cell));
    PickedPositions(rows, StateSession, sessions, Measures.Holds, HoldingIn(rows, joined, regime, cell));
  }

  lemma LastStateIs(rows: seq<Engine.PortfolioRow>, joined: seq<RegimeRow>, regime: Regime, cell: Cell)
    returns (last: nat)
    requires Filter(rows, Within(StateSession, CellSessions(joined, regime, cell))) != []
    ensures var theirs := Filter(rows, Within(StateSession, CellSessions(joined, regime, cell)));
            IsLastState(last, rows, joined, regime, cell) && rows[last] == theirs[|theirs| - 1]
  {
    hide Filter, CellSessions, InCellSession;
    var sessions := CellSessions(joined, regime, cell);
    var keep := Within(StateSession, sessions);
    SessionsAre(joined, regime, cell);
    last := FilteredLast(rows, keep);
    forall j | 0 <= j < |rows| ensures keep(rows[j]) <==> rows[j].signalSession in sessions {
      WithinIs(StateSession, sessions, rows[j]);
    }
  }

  lemma EndingReported(t: StrategyTotals, frames: Engine.Frames, joined: seq<RegimeRow>, regime: Regime, cell: Cell)
    requires t == StrategyTotalsOf(Attributed(frames, CellSessions(joined, regime, cell)))
    ensures EndingMeans(t, frames.portfolio, joined, regime, cell)
  {
    hide Filter, CountIf, CellSessions, StatesIn, HoldingIn, IsLastState, NumbersOf, Sum;
    StatesCounted(frames.portfolio, joined, regime, cell);
    var theirs := Filter(frames.portfolio, Within(StateSession, CellSessions(joined, regime, cell)));
    if theirs != [] {
      var last := LastStateIs(frames.portfolio, joined, regime, cell);
      PercentageMeans(CountIf(theirs, Measures.Holds) as real, |theirs| as real);
    }
  }

  lemma StrategyCounted(frames: Engine.Frames, joined: seq<RegimeRow>, regime: Regime, cell: Cell)
    ensures StrategyMeans(StrategyTotalsOf(Attributed(frames, CellSessions(joined, regime, cell))), frames, joined,
                          regime, cell)
  {
    hide Filter, CountIf, CellSessions, NumbersOf, Sum, EndingMeans, OrdersIn, FillsIn, DecisionsIn, AmountsIn;
    RowsCounted(frames, joined, regime, cell);
    DecisionsCounted(frames, joined, regime, cell);
    AmountsSummed(frames.fills, joined, regime, cell);
    EndingReported(StrategyTotalsOf(Attributed(frames, CellSessions(joined, regime, cell))), frames, joined, regime,
                   cell);
  }

  /** What the diagnostics loop files for a cell says what it should. */
  lemma DiagnosisExactly(inputs: Inputs, regime: Regime, cell: Cell)
    ensures CellMeans(Diagnosis(inputs, regime, cell), inputs, regime, cell)
  {
    hide Filter, CountIf, CellSessions, ConfusionMeans, StrategyMeans, ConfusionOf, StrategyTotalsOf, Attributed,
      RowsIn, PositiveRowsIn, PredictionsIn;
    GroupCounted(inputs, regime, cell);
    var d := Diagnosis(inputs, regime, cell);
    forall k | 0 <= k < |d.classifications|
      ensures ConfusionMeans(d.classifications[k], PredictorAt(inputs, k), inputs.joined, regime, cell)
    {
      ConfusionCounted(PredictorAt(inputs, k), inputs.joined, regime, cell);
    }
    forall k | 0 <= k < |d.strategies|
      ensures StrategyMeans(d.strategies[k], inputs.strategies[k], inputs.joined, regime, cell)
    {
      StrategyCounted(inputs.strategies[k], inputs.joined, regime, cell);
    }
  }

  /** The cells are the labels that occur. */
  lemma CellsExactly(joined: seq<RegimeRow>, regime: Regime, cell: Cell)
    ensures cell in CellsOf(joined, regime) <==> exists i :: 0 <= i < |joined| && Falls(joined[i], regime, cell)
  {
    if cell in CellsOf(joined, regime) {
      var r :| r in joined && CellOf(r, regime) == cell;
      var i :| 0 <= i < |joined| && joined[i] == r;
      assert Falls(joined[i], regime, cell);
    }
    if i :| 0 <= i < |joined| && Falls(joined[i], regime, cell) {
      assert joined[i] in joined && CellOf(joined[i], regime) == cell;
    }
  }

  /** A prediction that can be counted: both classes binary, and a probability between zero and one. */
  predicate Countable(p: Prediction) {
    && (p.target == 0 || p.target == 1) && (p.predicted == 0 || p.predicted == 1)
    && p.probability.Some? && 0.0 <= p.probability.value <= 1.0
  }

  /** Among the predictions for the cell's sessions there is none, or one that cannot be counted. */
  ghost predicate Uncounted(rows: seq<Prediction>, joined: seq<RegimeRow>, regime: Regime, cell: Cell) {
    || (forall p :: p in rows ==> !InCellSession(p.session, joined, regime, cell))
    || (exists p :: p in rows && InCellSession(p.session, joined, regime, cell) && !Countable(p))
  }

  /** A cell is refused exactly when some predictor has no prediction for it, or one that cannot be counted. */
  lemma RefusedExactly(inputs: Inputs, regime: Regime, cell: Cell)
    ensures CellRefused(inputs, regime, cell) <==>
            exists k :: 0 <= k <= |inputs.baselines| && Uncounted(PredictorAt(inputs, k), inputs.joined, regime, cell)
  {
    hide Uncounted, Measurable, PredictionsIn, CellSessions;
    var all, sessions := Predictors(inputs), CellSessions(inputs.joined, regime, cell);
    forall k | 0 <= k < |all|
      ensures all[k] == PredictorAt(inputs, k)
      ensures Measurable(PredictionsIn(all[k], sessions)) <==> !Uncounted(all[k], inputs.joined, regime, cell)
    {
      UncountedExactly(all[k], inputs.joined, regime, cell);
    }
  }

  lemma UncountedExactly(rows: seq<Prediction>, joined: seq<RegimeRow>, regime: Regime, cell: Cell)
    ensures Measurable(PredictionsIn(rows, CellSessions(joined, regime, cell)))
            <==> !Uncounted(rows, joined, regime, cell)
  {
    hide Filter, CellSessions, InCellSession;
    var theirs := PredictionsIn(rows, CellSessions(joined, regime, cell));
    SessionsAre(joined, regime, cell);
    FilterMembers(rows, Within(PredictionSession, CellSessions(joined, regime, cell)));
    forall p ensures p in theirs <==> p in rows && InCellSession(p.session, joined, regime, cell) {
      WithinIs(PredictionSession, CellSessions(joined, regime, cell), p);
    }
    if theirs != [] {
      assert theirs[0] in theirs;
    }
  }
}
