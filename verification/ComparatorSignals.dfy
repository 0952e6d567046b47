/**
 The benchmark's comparators: signals from probabilities, buy and hold, always cash and momentum, and what the
 simulator makes of them.
 */
module ComparatorSignals {
  import opened Sequences
  import opened Trading
  import opened Wrappers
  import opened Columns
  import opened Features
  import opened OrderCosts
  import opened RiskRules
  import opened BacktestEngine
  import opened EngineSafety
  import opened AuditReplay
  import opened ReplayTrade
  import Datasets
  import Splits

  const LONG_PROBABILITY_THRESHOLD := 0.5

  datatype SignalError =
    | LengthMismatch
    | UnknownSession
    | NoNextSession
    | NoSignals
    | TooFewPriorSessions
    | InvalidSplit
    | InvalidSignalSet

  /** The position of a session among the market's sessions. */
  function Position(market: seq<Session>, session: Session): (i: nat)
    requires session in market
    ensures i < |market| && market[i] == session
  {
    if market[|market| - 1] == session then
      |market| - 1
    else
      assert market == market[..|market| - 1] + [market[|market| - 1]];
      Position(market[..|market| - 1], session)
  }

  /** The session has a market session after it to execute in. */
  predicate Placeable(market: seq<Session>, session: Session) {
    session in market && Position(market, session) + 1 < |market|
  }

  function TargetOf(probability: real): Target {
    if probability >= LONG_PROBABILITY_THRESHOLD then 1 else 0
  }

  /** These rows are the signals: each executes at the market session after its own. */
  ghost predicate SignalsFor(rows: seq<SignalRow>, market: seq<Session>, sessions: seq<Session>,
                             probabilities: seq<real>)
  {
    && |rows| == |sessions| == |probabilities|
    && forall k :: 0 <= k < |rows| ==>
         && Placeable(market, sessions[k])
         && rows[k] == SignalRow(sessions[k], market[Position(market, sessions[k]) + 1], TargetOf(probabilities[k]))
  }

  datatype SignalSet = SignalSet(rows: seq<SignalRow>, probabilities: seq<real>, spec: Splits.SplitSpec)

  /** What the StrategySignalSet constructor accepts. */
  predicate ValidSignalSet(s: SignalSet, market: seq<Session>) {
    && market != [] && Increasing(market)
    && s.rows != [] && |s.probabilities| == |s.rows|
    && (forall i, j :: 0 <= i < j < |s.rows| ==> s.rows[i].signalSession < s.rows[j].signalSession)
    && (forall i, j :: 0 <= i < j < |s.rows| ==> s.rows[i].executionSession < s.rows[j].executionSession)
    && (forall i :: 0 <= i < |s.rows| ==> Adjacent(market, s.rows[i]))
    && s.spec.testStart <= s.rows[0].signalSession
    && s.rows[|s.rows| - 1].signalSession <= s.spec.testEnd
    && s.spec.testStart <= s.rows[0].executionSession
    && s.rows[|s.rows| - 1].executionSession <= s.spec.testEnd
    && (forall i :: 0 <= i < |s.rows| ==>
          0.0 <= s.probabilities[i] <= 1.0 && s.rows[i].target == TargetOf(s.probabilities[i]))
  }

  /** A row executes in the market session right after its signal's. */
  predicate Adjacent(market: seq<Session>, row: SignalRow) {
    && row.signalSession < row.executionSession
    && row.signalSession in market && row.executionSession in market
    && Position(market, row.executionSession) == Position(market, row.signalSession) + 1
  }

  /**
   The split a signal set is filed under: the preferred one if its test range holds the signals, or one made for them.
   */
  function StrategySplitSpec(market: seq<Session>, firstSignal: Session, lastExecution: Session,
                             preferred: Splits.SplitSpec)
    : Result<Splits.SplitSpec, SignalError>
    requires firstSignal in market
  {
    var first := Position(market, firstSignal);
    if preferred.testStart <= firstSignal && lastExecution <= preferred.testEnd then
      Ok(preferred)
    else if first < 2 then
      Err(TooFewPriorSessions)
    else
      var spec := Splits.SplitSpec(market[0], market[0], market[first - 1], market[first - 1], firstSignal,
                                   lastExecution);
      if Splits.ValidSpec(spec) then Ok(spec) else Err(InvalidSplit)
  }

  /** The test range holds every signal from its session to its execution. */
  predicate InRange(market: seq<Session>, sessions: seq<Session>, spec: Splits.SplitSpec)
    requires sessions != [] && Placeable(market, sessions[|sessions| - 1])
  {
    && spec.testStart <= sessions[0]
    && market[Position(market, sessions[|sessions| - 1]) + 1] <= spec.testEnd
  }

  /** What it takes to build a signal set. */
  ghost predicate Buildable(market: seq<Session>, sessions: seq<Session>, probabilities: seq<real>,
                            preferred: Splits.SplitSpec)
  {
    && sessions != [] && |sessions| == |probabilities|
    && Increasing(market) && Increasing(sessions)
    && (forall k :: 0 <= k < |sessions| ==> Placeable(market, sessions[k]) && 0.0 <= probabilities[k] <= 1.0)
    && (InRange(market, sessions, preferred) || Position(market, sessions[0]) >= 2)
  }

  lemma NextPosition(market: seq<Session>, i: nat)
    requires Increasing(market) && i < |market|
    ensures Position(market, market[i]) == i
  {
    var p := Position(market, market[i]);
    assert market[p] == market[i];
  }

  lemma RowsAreAdjacent(rows: seq<SignalRow>, market: seq<Session>, sessions: seq<Session>, probabilities: seq<real>)
    requires Increasing(market) && SignalsFor(rows, market, sessions, probabilities)
    ensures forall k :: 0 <= k < |rows| ==> Adjacent(market, rows[k])
  {
    hide Position;
    forall k | 0 <= k < |rows| ensures Adjacent(market, rows[k]) {
      NextPosition(market, Position(market, sessions[k]) + 1);
      NextSessionIsLater(market, sessions[k]);
    }
  }

  lemma ExecutionsIncrease(rows: seq<SignalRow>, market: seq<Session>, sessions: seq<Session>, probabilities: seq<real>)
    requires Increasing(market) && Increasing(sessions) && SignalsFor(rows, market, sessions, probabilities)
    ensures forall i, j :: 0 <= i < j < |rows| ==> rows[i].executionSession < rows[j].executionSession
  {
    hide Position;
    forall i, j | 0 <= i < j < |rows| ensures rows[i].executionSession < rows[j].executionSession {
      NextSessionsIncrease(market, sessions[i], sessions[j]);
    }
  }

  /** Signals that can be built get a split whose test range holds them. */
  lemma SplitIsFound(rows: seq<SignalRow>, market: seq<Session>, sessions: seq<Session>, probabilities: seq<real>,
                     preferred: Splits.SplitSpec)
    requires rows != [] && SignalsFor(rows, market, sessions, probabilities)
    requires Buildable(market, sessions, probabilities, preferred)
    ensures rows[0].signalSession in market
    ensures var (first, last) := (rows[0], rows[|rows| - 1]);
            var spec := StrategySplitSpec(market, first.signalSession, last.executionSession, preferred);
            && spec.Ok?
            && spec.value.testStart <= first.signalSession && last.executionSession <= spec.value.testEnd
  {
    var (first, last) := (rows[0], rows[|rows| - 1]);
    assert first.signalSession == sessions[0] && last.signalSession == sessions[|sessions| - 1];
    NextSessionIsLater(market, last.signalSession);
    assert first.signalSession <= last.signalSession;
    hide Position;
  }

  lemma BuildableIsValid(rows: seq<SignalRow>, market: seq<Session>, sessions: seq<Session>, probabilities: seq<real>,
                         preferred: Splits.SplitSpec, spec: Splits.SplitSpec)
    requires rows != [] && SignalsFor(rows, market, sessions, probabilities)
    requires Buildable(market, sessions, probabilities, preferred)
    requires spec.testStart <= rows[0].signalSession && rows[|rows| - 1].executionSession <= spec.testEnd
    ensures ValidSignalSet(SignalSet(rows, probabilities, spec), market)
  {
    RowsAreAdjacent(rows, market, sessions, probabilities);
    ExecutionsIncrease(rows, market, sessions, probabilities);
    assert Adjacent(market, rows[0]) && Adjacent(market, rows[|rows| - 1]);
    assert rows[0].signalSession == sessions[0];
    hide Position, InRange;
  }

  lemma ValidIsBuildable(rows: seq<SignalRow>, market: seq<Session>, sessions: seq<Session>, probabilities: seq<real>,
                         preferred: Splits.SplitSpec)
    requires rows != [] && SignalsFor(rows, market, sessions, probabilities)
    requires rows[0].signalSession in market
    requires var spec := StrategySplitSpec(market, rows[0].signalSession, rows[|rows| - 1].executionSession, preferred);
             spec.Ok? && ValidSignalSet(SignalSet(rows, probabilities, spec.value), market)
    ensures Buildable(market, sessions, probabilities, preferred)
  {
    assert forall k :: 0 <= k < |rows| ==> rows[k].signalSession == sessions[k];
    hide Position, Adjacent;
  }

  /** Signals that can be built satisfy every check that follows; those checks refuse nothing else. */
  lemma BuildableIsAccepted(rows: seq<SignalRow>, market: seq<Session>, sessions: seq<Session>,
                            probabilities: seq<real>, preferred: Splits.SplitSpec)
    requires rows != [] && SignalsFor(rows, market, sessions, probabilities)
    ensures rows[0].signalSession in market
    ensures var spec := StrategySplitSpec(market, rows[0].signalSession, rows[|rows| - 1].executionSession, preferred);
            Buildable(market, sessions, probabilities, preferred)
            <==> spec.Ok? && ValidSignalSet(SignalSet(rows, probabilities, spec.value), market)
  {
    assert rows[0].signalSession == sessions[0];
    hide Buildable, ValidSignalSet, StrategySplitSpec;
    var spec := StrategySplitSpec(market, rows[0].signalSession, rows[|rows| - 1].executionSession, preferred);
    if Buildable(market, sessions, probabilities, preferred) {
      SplitIsFound(rows, market, sessions, probabilities, preferred);
      BuildableIsValid(rows, market, sessions, probabilities, preferred, spec.value);
    }
    if spec.Ok? && ValidSignalSet(SignalSet(rows, probabilities, spec.value), market) {
      ValidIsBuildable(rows, market, sessions, probabilities, preferred);
    }
  }

  /** Builds a signal set and files it under a split; every refusal on the way is listed in `Buildable`. */
  method SignalSetFromProbabilities(market: seq<Session>, sessions: seq<Session>, probabilities: seq<real>,
                                    preferred: Splits.SplitSpec)
    returns (result: Result<SignalSet, SignalError>)
    ensures result.Ok? <==> Buildable(market, sessions, probabilities, preferred)
    ensures result.Ok? ==>
              && SignalsFor(result.value.rows, market, sessions, probabilities)
              && ValidSignalSet(result.value, market)
              && result.value.probabilities == probabilities
              && SignalsPlaced(result.value.rows, market, sessions, probabilities)
              && (InRange(market, sessions, preferred) ==> result.value.spec == preferred)
              && (!InRange(market, sessions, preferred) ==> MadeFor(result.value.spec, market, result.value.rows))
  {
    hide ValidSignalSet, StrategySplitSpec;
    if |sessions| != |probabilities| {
      return Err(LengthMismatch);
    }
    var rows: seq<SignalRow> := [];
    for k := 0 to |sessions|
      invariant |rows| == k
      invariant forall j :: 0 <= j < k ==>
                  && Placeable(market, sessions[j])
                  && rows[j] == SignalRow(sessions[j], market[Position(market, sessions[j]) + 1],
                                          TargetOf(probabilities[j]))
    {
      if sessions[k] !in market {
        return Err(UnknownSession);
      }
      var execution := Position(market, sessions[k]) + 1;
      if execution >= |market| {
        return Err(NoNextSession);
      }
      rows := rows + [SignalRow(sessions[k], market[execution], TargetOf(probabilities[k]))];
    }
    if rows == [] {
      return Err(NoSignals);
    }
    BuildableIsAccepted(rows, market, sessions, probabilities, preferred);
    var spec := StrategySplitSpec(market, rows[0].signalSession, rows[|rows| - 1].executionSession, preferred);
    if spec.Err? {
      return Err(spec.error);
    }
    var signals := SignalSet(rows, probabilities, spec.value);
    if !ValidSignalSet(signals, market) {
      return Err(InvalidSignalSet);
    }
    SpecIsChosen(rows, market, sessions, probabilities, preferred);
    SignalsArePlaced(rows, market, sessions, probabilities);
    result := Ok(signals);
  }

  /** Without a preferred range that holds the signals, the split tests on them and trains and validates before. */
  ghost predicate MadeFor(spec: Splits.SplitSpec, market: seq<Session>, rows: seq<SignalRow>) {
    exists p :: 2 <= p < |market| && rows != [] && market[p] == rows[0].signalSession
                && spec == Splits.SplitSpec(market[0], market[0], market[p - 1], market[p - 1],
                                            rows[0].signalSession, rows[|rows| - 1].executionSession)
  }

  lemma SpecIsChosen(rows: seq<SignalRow>, market: seq<Session>, sessions: seq<Session>, probabilities: seq<real>,
                     preferred: Splits.SplitSpec)
    requires rows != [] && SignalsFor(rows, market, sessions, probabilities)
    ensures rows[0].signalSession in market
    ensures var spec := StrategySplitSpec(market, rows[0].signalSession, rows[|rows| - 1].executionSession, preferred);
            && (InRange(market, sessions, preferred) ==> spec == Ok(preferred))
            && (!InRange(market, sessions, preferred) && spec.Ok? ==> MadeFor(spec.value, market, rows))
  {
    hide Position;
    var p := Position(market, sessions[0]);
    assert market[p] == rows[0].signalSession;
  }

  /** The signal of the `k`-th session executes in the market session right after it, and is long from one half on. */
  ghost predicate PlacedNext(row: SignalRow, market: seq<Session>, session: Session, probability: real) {
    exists p :: 0 <= p && p + 1 < |market| && market[p] == session
                && row == SignalRow(session, market[p + 1], if 2.0 * probability >= 1.0 then 1 else 0)
  }

  ghost predicate SignalsPlaced(rows: seq<SignalRow>, market: seq<Session>, sessions: seq<Session>,
                                probabilities: seq<real>)
  {
    && |rows| == |sessions| == |probabilities|
    && forall k :: 0 <= k < |rows| ==> PlacedNext(rows[k], market, sessions[k], probabilities[k])
  }

  lemma SignalsArePlaced(rows: seq<SignalRow>, market: seq<Session>, sessions: seq<Session>, probabilities: seq<real>)
    requires SignalsFor(rows, market, sessions, probabilities)
    ensures SignalsPlaced(rows, market, sessions, probabilities)
  {
    hide Position;
    forall k | 0 <= k < |rows| ensures PlacedNext(rows[k], market, sessions[k], probabilities[k]) {
      var p := Position(market, sessions[k]);
      assert market[p] == sessions[k] && rows[k].executionSession == market[p + 1];
    }
  }

  /** The open and close of every execution session. */
  ghost predicate PricesFor(prices: seq<PriceRow>, rows: seq<SignalRow>, bars: seq<Bar>) {
    && |prices| == |rows|
    && forall k :: 0 <= k < |rows| ==>
         exists i :: 0 <= i < |bars| && bars[i].session == rows[k].executionSession
                     && prices[k] == PriceRow(bars[i].session, bars[i].open, bars[i].close)
  }

  lemma NextSessionsIncrease(market: seq<Session>, a: Session, b: Session)
    requires Increasing(market) && Placeable(market, a) && Placeable(market, b) && a < b
    ensures market[Position(market, a) + 1] < market[Position(market, b) + 1]
  {
  }

  lemma NextSessionIsLater(market: seq<Session>, a: Session)
    requires Increasing(market) && Placeable(market, a)
    ensures a < market[Position(market, a) + 1]
  {
  }

  lemma HistoryPricesArePositive(bars: seq<Bar>, rows: seq<SignalRow>, prices: seq<PriceRow>)
    requires ValidHistory(bars) && PricesFor(prices, rows, bars)
    ensures |prices| == |rows|
    ensures forall i :: 0 <= i < |rows| ==>
              && prices[i].executionSession == rows[i].executionSession
              && prices[i].referenceOpen > 0.0
              && prices[i].closePrice > 0.0
  {
  }

  /**
   Signals built for increasing sessions of a valid history are inputs every result about the simulator applies to.
   */
  lemma BuiltSignalsAreValid(bars: seq<Bar>, market: seq<Session>, sessions: seq<Session>, probabilities: seq<real>,
                             rows: seq<SignalRow>, prices: seq<PriceRow>)
    requires ValidHistory(bars) && Increasing(market) && Increasing(sessions)
    requires SignalsFor(rows, market, sessions, probabilities) && PricesFor(prices, rows, bars)
    ensures ValidInputs(rows, prices)
  {
    HistoryPricesArePositive(bars, rows, prices);
    hide Position, ValidHistory, PricesFor;
    forall i | 0 <= i < |rows| ensures rows[i].signalSession < rows[i].executionSession {
      NextSessionIsLater(market, sessions[i]);
    }
    forall i, j | 0 <= i < j < |rows|
      ensures rows[i].signalSession < rows[j].signalSession && rows[i].executionSession < rows[j].executionSession
    {
      NextSessionsIncrease(market, sessions[i], sessions[j]);
    }
  }

  // ---------------------------------------------------------------- buy and hold

  datatype HeldSignals = HeldSignals(sessions: seq<Session>, probabilities: seq<real>)

  /** Signals from before the first entry to before the final exit, long until the last one. */
  function BuyAndHoldSignals(market: seq<Session>, firstEntry: Session, finalExit: Session)
    : Result<HeldSignals, SignalError>
  {
    if firstEntry !in market || finalExit !in market then
      Err(UnknownSession)
    else
      var entry, exit := Position(market, firstEntry) - 1, Position(market, finalExit);
      if entry < 0 || entry >= exit then
        Err(NoSignals)
      else
        var n := exit - entry;
        Ok(HeldSignals(market[entry..exit], seq(n, k requires 0 <= k < n => if k == n - 1 then 0.0 else 1.0)))
  }

  /** Long at every signal but the last. */
  predicate HoldsToTheLast(rows: seq<SignalRow>) {
    rows != [] && forall k :: 0 <= k < |rows| ==> (rows[k].target == 1 <==> k < |rows| - 1)
  }

  /** Buy and hold signals exist whenever the first entry has a session before it and is no later than the exit. */
  lemma HeldSignalsExist(market: seq<Session>, firstEntry: Session, finalExit: Session)
    requires Increasing(market) && firstEntry in market && finalExit in market
    ensures BuyAndHoldSignals(market, firstEntry, finalExit).Ok? <==> market[0] < firstEntry <= finalExit
  {
    hide Position;
  }

  lemma HeldSessions(market: seq<Session>, firstEntry: Session, finalExit: Session)
    requires Increasing(market) && BuyAndHoldSignals(market, firstEntry, finalExit).Ok?
    ensures firstEntry in market && finalExit in market
    ensures var (held, first) := (BuyAndHoldSignals(market, firstEntry, finalExit).value.sessions,
                                  Position(market, firstEntry) - 1);
            && Increasing(held) && |held| == Position(market, finalExit) - first
            && forall k :: 0 <= k < |held| ==> Placeable(market, held[k]) && Position(market, held[k]) == first + k
  {
    hide Position, Increasing;
    var held := BuyAndHoldSignals(market, firstEntry, finalExit).value.sessions;
    var first := Position(market, firstEntry) - 1;
    forall k | 0 <= k < |held| ensures Placeable(market, held[k]) && Position(market, held[k]) == first + k {
      OnlyPosition(market, first + k);
    }
    SliceIncreases(market, first, Position(market, finalExit));
  }

  lemma SliceIncreases(market: seq<Session>, low: nat, high: nat)
    requires Increasing(market) && low <= high <= |market|
    ensures Increasing(market[low..high])
  {
  }

  /** They can be placed, hold to the last, enter at the first entry and leave at the final exit. */
  lemma HeldSignalsHold(market: seq<Session>, firstEntry: Session, finalExit: Session, rows: seq<SignalRow>)
    requires Increasing(market) && BuyAndHoldSignals(market, firstEntry, finalExit).Ok?
    requires var held := BuyAndHoldSignals(market, firstEntry, finalExit).value;
             SignalsFor(rows, market, held.sessions, held.probabilities)
    ensures HoldsToTheLast(rows)
    ensures rows[0].executionSession == firstEntry && rows[|rows| - 1].executionSession == finalExit
  {
    hide Position, Increasing, Placeable;
    HeldSessions(market, firstEntry, finalExit);
  }

  lemma OnlyPosition(market: seq<Session>, i: nat)
    requires Increasing(market) && i < |market|
    ensures market[i] in market && Position(market, market[i]) == i
  {
    assert market[i] in market;
  }

  /** At this open the untouched account can buy at least one share. */
  predicate Affordable(price: PriceRow, cash: real, costs: CostAssumptions) {
    var affordable := MaximumAffordableBuyQuantity(cash, price.referenceOpen, costs);
    affordable.Ok? && affordable.value >= 1
  }

  /** Out of cash, a long signal is filled exactly when one share is affordable. */
  lemma LongFillsIffAffordable(number: int, signal: SignalRow, price: PriceRow, cash: real, costs: CostAssumptions)
    requires number >= 1 && SessionInputs(signal, price) && Solvent(cash, 0) && signal.target == 1
    ensures DecideTrade(number, signal, price, cash, 0, costs).Ok?
    ensures DecideTrade(number, signal, price, cash, 0, costs).value.Filled? <==> Affordable(price, cash, costs)
  {
    hide ProposeOrder, EvaluateOrderRisk, FillFromApprovedOrder, EstimateOrderCost, CostsMatch, ValidOrder,
      MaximumAffordableBuyQuantity, CanonicalOrder;
    var open := price.referenceOpen;
    TradeOutcome(number, signal, price, cash, 0, costs);
    ProposalExists(number, signal, open, cash, 0, costs);
    ProposalIsRecorded(number, signal, open, cash, 0, costs);
    var o := ProposeOrder(number, signal, open, cash, 0, costs).value.value;
    BuyApprovedIffAffordable(o, OpenState(signal.executionSession, cash, 0, open), costs);
    AffordableQuantityIsLargest(cash, open, costs, o.quantity);
  }

  /** What the account looks like while every signal so far was long. */
  ghost predicate LongSoFar(run: Run, prices: seq<PriceRow>, costs: CostAssumptions, n: nat)
    requires n <= |prices|
  {
    var fills := FillsOf(run.trades);
    if exists k :: 0 <= k < n && Affordable(prices[k], INITIAL_CASH, costs) then
      run.account.shares > 0 && |fills| == 1 && fills[0].side == Buy && fills[0].quantity == run.account.shares
    else
      run.account.shares == 0 && run.account.cash == INITIAL_CASH && fills == []
  }

  lemma LongStep(run: Run, signal: SignalRow, price: PriceRow, prices: seq<PriceRow>, costs: CostAssumptions, n: nat)
    requires n < |prices| && price == prices[n] && signal.target == 1 && SessionInputs(signal, price)
             && Sound(run.account)
    requires LongSoFar(run, prices, costs, n) && EngineStep(run, signal, price, costs).Ok?
    ensures LongSoFar(EngineStep(run, signal, price, costs).value, prices, costs, n + 1)
  {
    hide DecideTrade, Collect, Affordable, OrdersOf, DecisionsOf;
    var number, account := |OrdersOf(run.trades)| + 1, run.account;
    TradeOutcome(number, signal, price, account.cash, account.shares, costs);
    var t := DecideTrade(number, signal, price, account.cash, account.shares, costs).value;
    FramesSnoc(run.trades, t);
    if account.shares == 0 {
      LongFillsIffAffordable(number, signal, price, account.cash, costs);
      assert FillsOf(run.trades) == [];
    } else {
      assert FillsOf(run.trades) + [] == FillsOf(run.trades);
    }
  }

  lemma {:induction false} LongPhase(rows: seq<SignalRow>, prices: seq<PriceRow>, costs: CostAssumptions, n: nat)
    requires ValidInputs(rows, prices) && n <= |rows| && forall k :: 0 <= k < n ==> rows[k].target == 1
    ensures EngineRun(rows, prices, costs, n).Ok?
    ensures LongSoFar(EngineRun(rows, prices, costs, n).value, prices, costs, n)
  {
    hide EngineStep, LongSoFar, SoundRow;
    if n == 0 {
      NothingBought(prices, costs);
    } else {
      LongPhase(rows, prices, costs, n - 1);
      EveryRunIsSound(rows, prices, costs, n - 1);
      StopsOnlyWhenUnsellable(rows, prices, costs, n - 1);
      LongStep(EngineRun(rows, prices, costs, n - 1).value, rows[n - 1], prices[n - 1], prices, costs, n - 1);
    }
  }

  lemma NothingBought(prices: seq<PriceRow>, costs: CostAssumptions)
    ensures LongSoFar(START, prices, costs, 0)
  {
  }

  /**
   Buy and hold makes at most one round trip and ends flat: it buys at the first open at which the cash buys a
   share, and sells the same quantity at the final exit; if no open before the exit is affordable it never trades.
   */
  lemma BuyAndHoldEndsFlat(rows: seq<SignalRow>, prices: seq<PriceRow>, costs: CostAssumptions)
    requires ValidInputs(rows, prices) && HoldsToTheLast(rows)
    ensures var (r, n) := (EngineRun(rows, prices, costs, |rows|), |rows| - 1);
            if exists k :: 0 <= k < n && Affordable(prices[k], INITIAL_CASH, costs) then
              && (r.Ok? <==> Sellable(costs))
              && (r.Ok? ==>
                    var fills := FillsOf(r.value.trades);
                    && r.value.account.shares == 0
                    && |fills| == 2 && fills[0].side == Buy && fills[1].side == Sell
                    && fills[0].quantity == fills[1].quantity
                    && fills[1].executionSession == rows[n].executionSession)
            else
              && r.Ok? && FillsOf(r.value.trades) == []
              && r.value.account.cash == INITIAL_CASH && r.value.account.shares == 0
  {
    hide EngineStep, FillsOf, SoundRow, Affordable;
    var n := |rows| - 1;
    LongPhase(rows, prices, costs, n);
    EveryRunIsSound(rows, prices, costs, n);
    StopsOnlyWhenUnsellable(rows, prices, costs, n);
    if EngineRun(rows, prices, costs, n + 1).Ok? {
      ExitStep(EngineRun(rows, prices, costs, n).value, rows[n], prices[n], costs);
    }
  }

  lemma ExitStep(run: Run, signal: SignalRow, price: PriceRow, costs: CostAssumptions)
    requires signal.target == 0 && SessionInputs(signal, price) && Sound(run.account)
    requires EngineStep(run, signal, price, costs).Ok?
    ensures var next := EngineStep(run, signal, price, costs).value;
            && next.account.shares == 0
            && (run.account.shares == 0 ==>
                  FillsOf(next.trades) == FillsOf(run.trades) && next.account.cash == run.account.cash)
            && (run.account.shares > 0 ==>
                  exists f: FillRecord :: FillsOf(next.trades) == FillsOf(run.trades) + [f] && f.side == Sell
                                          && f.quantity == run.account.shares
                                          && f.executionSession == signal.executionSession)
  {
    hide DecideTrade, FillsOf, OrdersOf, DecisionsOf;
    var number, account := |OrdersOf(run.trades)| + 1, run.account;
    TradeOutcome(number, signal, price, account.cash, account.shares, costs);
    var t := DecideTrade(number, signal, price, account.cash, account.shares, costs).value;
    FramesSnoc(run.trades, t);
    if account.shares == 0 {
      assert FillsOf(run.trades) + [] == FillsOf(run.trades);
    } else {
      FillSession(number, signal, price, account.cash, account.shares, costs);
    }
  }

  lemma FillSession(number: int, signal: SignalRow, price: PriceRow, cash: real, shares: int, costs: CostAssumptions)
    requires DecideTrade(number, signal, price, cash, shares, costs).Ok?
    ensures var t := DecideTrade(number, signal, price, cash, shares, costs).value;
            t.Filled? ==> t.fill.executionSession == signal.executionSession
  {
    hide EstimateOrderCost, EvaluateOrderRisk, MaximumAffordableBuyQuantity, ValidOrder, ValidFill;
  }

  /** Always cash never trades. */
  lemma {:induction false} AlwaysCashNeverTrades(rows: seq<SignalRow>, prices: seq<PriceRow>, costs: CostAssumptions,
                                                 n: nat)
    requires ValidInputs(rows, prices) && n <= |rows| && forall k :: 0 <= k < n ==> rows[k].target == 0
    ensures EngineRun(rows, prices, costs, n).Ok?
    ensures var run := EngineRun(rows, prices, costs, n).value;
            run.account.cash == INITIAL_CASH && run.account.shares == 0 && FillsOf(run.trades) == []
  {
    hide EngineStep, FillsOf, SoundRow;
    if n == 0 {
      NoRowsYet(rows, prices, costs);
    } else {
      AlwaysCashNeverTrades(rows, prices, costs, n - 1);
      EveryRunIsSound(rows, prices, costs, n - 1);
      StopsOnlyWhenUnsellable(rows, prices, costs, n - 1);
      ExitStep(EngineRun(rows, prices, costs, n - 1).value, rows[n - 1], prices[n - 1], costs);
    }
  }

  // ---------------------------------------------------------------- momentum

  const MOMENTUM_SESSIONS := 20

  /** Long after twenty sessions of gain; in cash before there are twenty sessions to look back on. */
  function MomentumTarget(bars: seq<Bar>, i: nat): Target
    requires ValidHistory(bars) && i < |bars|
  {
    if i < MOMENTUM_SESSIONS then 0
    else if bars[i].close / bars[i - MOMENTUM_SESSIONS].close - 1.0 > 0.0 then 1
    else 0
  }

  method MomentumTargets(bars: seq<Bar>, sessions: seq<Session>) returns (result: Result<seq<Target>, SignalError>)
    requires ValidHistory(bars)
    ensures result.Ok? <==> forall k :: 0 <= k < |sessions| ==> sessions[k] in BarSessions(bars)
    ensures result.Ok? ==>
              && |result.value| == |sessions|
              && forall k :: 0 <= k < |sessions| ==>
                   result.value[k] == MomentumTarget(bars, Position(BarSessions(bars), sessions[k]))
  {
    var market := BarSessions(bars);
    var targets: seq<Target> := [];
    for k := 0 to |sessions|
      invariant |targets| == k
      invariant forall j :: 0 <= j < k ==>
                  sessions[j] in market && targets[j] == MomentumTarget(bars, Position(market, sessions[j]))
    {
      if sessions[k] !in market {
        return Err(UnknownSession);
      }
      var index := Position(market, sessions[k]);
      if index < MOMENTUM_SESSIONS {
        targets := targets + [0];
      } else {
        var momentum := bars[index].close / bars[index - MOMENTUM_SESSIONS].close - 1.0;
        targets := targets + [if momentum > 0.0 then 1 else 0];
      }
    }
    result := Ok(targets);
  }

  /** A session is long exactly when its close is above the close twenty sessions before; later prices play no part. */
  lemma MomentumLooksBack(a: seq<Bar>, b: seq<Bar>, n: nat, i: nat)
    requires ValidHistory(a) && ValidHistory(b) && Agree(a, b, n) && i < n
    ensures MomentumTarget(a, i) == MomentumTarget(b, i)
    ensures MomentumTarget(a, i) == 1 <==> i >= 20 && a[i].close > a[i - 20].close
  {
    if i >= MOMENTUM_SESSIONS {
      Datasets.QuotientAboveOne(a[i].close, a[i - MOMENTUM_SESSIONS].close);
    }
  }
}
