/**
 The next-open long-or-cash simulator: it proposes an order when the target differs from the position,
 asks the risk rule, fills what was approved, and closes every session with one portfolio row.
 */
module BacktestEngine {
  import opened Trading
  import opened Wrappers
  import opened OrderCosts
  import opened RiskRules

  const INITIAL_CASH := 10000.0

  type Target = t: int | t == 0 || t == 1

  datatype SignalRow = SignalRow(signalSession: Session, executionSession: Session, target: Target)

  datatype PriceRow = PriceRow(executionSession: Session, referenceOpen: real, closePrice: real)

  datatype FillRecord = FillRecord(
    orderSequenceNumber: int,
    symbol: string,
    side: Side,
    quantity: int,
    signalSession: Session,
    executionSession: Session,
    referenceOpen: real,
    executionPrice: real,
    referenceNotional: real,
    executionNotional: real,
    commission: real,
    slippageCost: real,
    totalTransactionCost: real,
    cashChange: real,
    sharesBefore: int,
    sharesAfter: int,
    cashBefore: real,
    cashAfter: real,
    riskApproved: bool)

  datatype PortfolioRow = PortfolioRow(
    session: Session,
    signalSession: Session,
    targetPosition: int,
    cash: real,
    shares: int,
    closePrice: real,
    marketValue: real,
    equity: real,
    dailyReturn: real,
    drawdown: real)

  /** The four audit frames of a run. */
  datatype Frames = Frames(
    orders: seq<ProposedOrder>,
    decisions: seq<RiskDecision>,
    fills: seq<FillRecord>,
    portfolio: seq<PortfolioRow>)

  datatype BacktestError =
    | CostRefused(cost: CostError)
    | OrderRefused
    | RiskRefused(risk: RiskError)
    | FillRefused
    | UndefinedReturn

  /** What one signal led to. */
  datatype Trade =
    | NoTrade
    | Rejected(order: ProposedOrder, decision: RiskDecision)
    | Filled(order: ProposedOrder, decision: RiskDecision, fill: FillRecord)

  /** The loop's running values. */
  datatype Account = Account(cash: real, shares: int, previousEquity: real, runningPeak: real)

  datatype Run = Run(account: Account, trades: seq<Trade>, portfolio: seq<PortfolioRow>)

  /** Signals are chronological, execute after they are made, and every execution session has positive prices. */
  ghost predicate ValidInputs(signals: seq<SignalRow>, prices: seq<PriceRow>) {
    && |prices| == |signals|
    && (forall i :: 0 <= i < |signals| ==> signals[i].signalSession < signals[i].executionSession)
    && (forall i, j :: 0 <= i < j < |signals| ==> signals[i].signalSession < signals[j].signalSession)
    && (forall i, j :: 0 <= i < j < |signals| ==> signals[i].executionSession < signals[j].executionSession)
    && (forall i :: 0 <= i < |signals| ==>
          && prices[i].executionSession == signals[i].executionSession
          && prices[i].referenceOpen > 0.0
          && prices[i].closePrice > 0.0)
  }

  /** What the FillRecord constructor accepts. */
  predicate ValidFill(f: FillRecord) {
    && f.orderSequenceNumber >= 1
    && f.symbol == SUPPORTED_SYMBOL
    && f.quantity >= 1
    && f.executionSession > f.signalSession
    && f.referenceOpen > 0.0
    && f.executionPrice > 0.0
    && f.referenceNotional >= 0.0
    && f.executionNotional >= 0.0
    && f.commission >= 0.0
    && f.slippageCost >= 0.0
    && f.totalTransactionCost >= 0.0
    && f.sharesBefore >= 0
    && f.sharesAfter >= 0
    && f.cashBefore >= 0.0
    && f.cashAfter >= 0.0
    && f.riskApproved
    && f.referenceNotional == (f.quantity as real) * f.referenceOpen
    && f.executionNotional == (f.quantity as real) * f.executionPrice
    && f.slippageCost == Abs(f.executionPrice - f.referenceOpen) * (f.quantity as real)
    && f.totalTransactionCost == f.commission + f.slippageCost
    && (f.side == Buy ==>
          && f.sharesAfter == f.sharesBefore + f.quantity
          && f.cashChange == -(f.executionNotional + f.commission))
    && (f.side == Sell ==>
          && f.sharesAfter == f.sharesBefore - f.quantity
          && f.cashChange == f.executionNotional - f.commission)
    && f.cashAfter == f.cashBefore + f.cashChange
  }

  function BuildOrder(number: int, side: Side, quantity: int, signal: SignalRow, open: real,
                      cash: real, shares: int, costs: CostAssumptions): Result<ProposedOrder, BacktestError> {
    match EstimateOrderCost(side, quantity, open, costs)
    case Err(e) => Err(CostRefused(e))
    case Ok(e) =>
      var order := ProposedOrder(number, SUPPORTED_SYMBOL, side, quantity, signal.signalSession,
                                 signal.executionSession, signal.target, open, e.executionPrice,
                                 e.commission, e.cashChange, cash, shares);
      if ValidOrder(order) then Ok(order) else Err(OrderRefused)
  }

  /** Out of cash into the largest affordable position, or out of the whole position; otherwise nothing. */
  function ProposeOrder(number: int, signal: SignalRow, open: real, cash: real, shares: int,
                        costs: CostAssumptions): Result<Option<ProposedOrder>, BacktestError> {
    if signal.target == 1 then
      if shares > 0 then
        Ok(None)
      else
        match MaximumAffordableBuyQuantity(cash, open, costs)
        case Err(e) => Err(CostRefused(e))
        case Ok(affordable) =>
          var quantity := if affordable <= 0 then 1 else affordable;
          match BuildOrder(number, Buy, quantity, signal, open, cash, shares, costs)
          case Err(e) => Err(e)
          case Ok(order) => Ok(Some(order))
    else if shares == 0 then
      Ok(None)
    else
      match BuildOrder(number, Sell, shares, signal, open, cash, shares, costs)
      case Err(e) => Err(e)
      case Ok(order) => Ok(Some(order))
  }

  function FillFromApprovedOrder(order: ProposedOrder, cash: real, shares: int, costs: CostAssumptions)
    : Result<FillRecord, BacktestError>
  {
    match EstimateOrderCost(order.side, order.quantity, order.referenceOpen, costs)
    case Err(e) => Err(CostRefused(e))
    case Ok(e) =>
      var fill := FillRecord(
        order.sequenceNumber, order.symbol, order.side, order.quantity, order.signalSession,
        order.executionSession, order.referenceOpen, e.executionPrice, e.referenceNotional,
        e.executionNotional, e.commission, e.slippageCost, e.totalTransactionCost, e.cashChange,
        shares, if order.side == Buy then shares + order.quantity else shares - order.quantity,
        cash, cash + e.cashChange, true);
      if ValidFill(fill) then Ok(fill) else Err(FillRefused)
  }

  function OpenState(session: Session, cash: real, shares: int, price: real): PortfolioState {
    PortfolioState(session, cash, shares, price, (shares as real) * price, cash + (shares as real) * price)
  }

  function DecideTrade(number: int, signal: SignalRow, price: PriceRow, cash: real, shares: int,
                       costs: CostAssumptions): Result<Trade, BacktestError> {
    match ProposeOrder(number, signal, price.referenceOpen, cash, shares, costs)
    case Err(e) => Err(e)
    case Ok(None) => Ok(NoTrade)
    case Ok(Some(order)) =>
      var state := OpenState(signal.executionSession, cash, shares, price.referenceOpen);
      match EvaluateOrderRisk(order, state, costs)
      case Err(e) => Err(RiskRefused(e))
      case Ok(decision) =>
        if !decision.approved then
          Ok(Rejected(order, decision))
        else
          match FillFromApprovedOrder(order, cash, shares, costs)
          case Err(e) => Err(e)
          case Ok(fill) => Ok(Filled(order, decision, fill))
  }

  function CashAfter(trade: Trade, cash: real): real {
    if trade.Filled? then trade.fill.cashAfter else cash
  }

  function SharesAfter(trade: Trade, shares: int): int {
    if trade.Filled? then trade.fill.sharesAfter else shares
  }

  function Max(a: real, b: real): real {
    if a < b then b else a
  }

  /** Marks the position at the close: the session's row and the values carried to the next session. */
  function CloseSession(index: nat, signal: SignalRow, price: PriceRow, cash: real, shares: int,
                        previousEquity: real, runningPeak: real): Result<(PortfolioRow, Account), BacktestError> {
    var marketValue := (shares as real) * price.closePrice;
    var equity := cash + marketValue;
    var base := if index == 0 then INITIAL_CASH else previousEquity;
    var peak := Max(runningPeak, equity);
    if base == 0.0 || peak == 0.0 then
      Err(UndefinedReturn)
    else
      Ok((PortfolioRow(signal.executionSession, signal.signalSession, signal.target, cash, shares,
                       price.closePrice, marketValue, equity, equity / base - 1.0, equity / peak - 1.0),
          Account(cash, shares, equity, peak)))
  }

  function OrderRows(t: Trade): seq<ProposedOrder> {
    if t.NoTrade? then [] else [t.order]
  }

  function DecisionRows(t: Trade): seq<RiskDecision> {
    if t.NoTrade? then [] else [t.decision]
  }

  function FillRows(t: Trade): seq<FillRecord> {
    if t.Filled? then [t.fill] else []
  }

  /** The rows a run appended to one frame, signal by signal. */
  function Collect<T>(trades: seq<Trade>, rows: Trade -> seq<T>): seq<T> {
    if trades == [] then [] else Collect(trades[..|trades| - 1], rows) + rows(trades[|trades| - 1])
  }

  function OrdersOf(trades: seq<Trade>): seq<ProposedOrder> {
    Collect(trades, OrderRows)
  }

  function DecisionsOf(trades: seq<Trade>): seq<RiskDecision> {
    Collect(trades, DecisionRows)
  }

  function FillsOf(trades: seq<Trade>): seq<FillRecord> {
    Collect(trades, FillRows)
  }

  function FramesOf(run: Run): Frames {
    Frames(OrdersOf(run.trades), DecisionsOf(run.trades), FillsOf(run.trades), run.portfolio)
  }

  function EngineStep(run: Run, signal: SignalRow, price: PriceRow, costs: CostAssumptions)
    : Result<Run, BacktestError>
  {
    var number := |OrdersOf(run.trades)| + 1;
    match DecideTrade(number, signal, price, run.account.cash, run.account.shares, costs)
    case Err(e) => Err(e)
    case Ok(trade) =>
      match CloseSession(|run.portfolio|, signal, price,
                         CashAfter(trade, run.account.cash), SharesAfter(trade, run.account.shares),
                         run.account.previousEquity, run.account.runningPeak)
      case Err(e) => Err(e)
      case Ok((row, account)) => Ok(Run(account, run.trades + [trade], run.portfolio + [row]))
  }

  const START := Run(Account(INITIAL_CASH, 0, INITIAL_CASH, INITIAL_CASH), [], [])

  /** The simulator after its first `n` signals. */
  function EngineRun(signals: seq<SignalRow>, prices: seq<PriceRow>, costs: CostAssumptions, n: nat)
    : Result<Run, BacktestError>
    requires n <= |signals| == |prices|
  {
    if n == 0 then
      Ok(START)
    else
      match EngineRun(signals, prices, costs, n - 1)
      case Err(e) => Err(e)
      case Ok(run) => EngineStep(run, signals[n - 1], prices[n - 1], costs)
  }

  lemma FramesSnoc(trades: seq<Trade>, t: Trade)
    ensures OrdersOf(trades + [t]) == OrdersOf(trades) + OrderRows(t)
    ensures DecisionsOf(trades + [t]) == DecisionsOf(trades) + DecisionRows(t)
    ensures FillsOf(trades + [t]) == FillsOf(trades) + FillRows(t)
  {
    assert (trades + [t])[..|trades|] == trades;
  }

  /** A run that stopped early stays stopped. */
  lemma ErrorsPersist(signals: seq<SignalRow>, prices: seq<PriceRow>, costs: CostAssumptions, n: nat, m: nat)
    requires n <= m <= |signals| == |prices|
    requires EngineRun(signals, prices, costs, n).Err?
    ensures EngineRun(signals, prices, costs, m) == EngineRun(signals, prices, costs, n)
    decreases m
  {
    hide EngineStep;
    if n < m {
      ErrorsPersist(signals, prices, costs, n, m - 1);
    }
  }

  /**
   The simulator's loop over the signal rows. It keeps the running cash, shares, previous equity and peak
   in variables and appends to four record lists.
   */
  method RunSignalBacktest(signals: seq<SignalRow>, prices: seq<PriceRow>, costs: CostAssumptions)
    returns (result: Result<Frames, BacktestError>)
    requires |signals| == |prices|
    ensures var run := EngineRun(signals, prices, costs, |signals|);
            result == if run.Ok? then Ok(FramesOf(run.value)) else Err(run.error)
  {
    hide EngineRun, ProposeOrder, EvaluateOrderRisk, FillFromApprovedOrder, OrdersOf, DecisionsOf, FillsOf, Max;
    var cash, shares, previousEquity, runningPeak := INITIAL_CASH, 0, INITIAL_CASH, INITIAL_CASH;
    var nextSequence := 1;
    var orders: seq<ProposedOrder>, decisions: seq<RiskDecision> := [], [];
    var fills: seq<FillRecord>, portfolio: seq<PortfolioRow> := [], [];
    ghost var run := START;
    NoRowsYet(signals, prices, costs);
    for i := 0 to |signals|
      invariant EngineRun(signals, prices, costs, i) == Ok(run)
      invariant run.account == Account(cash, shares, previousEquity, runningPeak)
      invariant FramesOf(run) == Frames(orders, decisions, fills, portfolio)
      invariant nextSequence == |orders| + 1
      invariant |portfolio| == i
    {
      var signal, price := signals[i], prices[i];
      ghost var decided := DecideTrade(nextSequence, signal, price, cash, shares, costs);
      RunContinues(signals, prices, costs, i);
      var proposed := ProposeOrder(nextSequence, signal, price.referenceOpen, cash, shares, costs);
      if proposed.Err? {
        return Err(proposed.error);
      }
      if proposed.value.Some? {
        var order := proposed.value.value;
        nextSequence := nextSequence + 1;
        orders := orders + [order];
        var state := OpenState(signal.executionSession, cash, shares, price.referenceOpen);
        var evaluated := EvaluateOrderRisk(order, state, costs);
        if evaluated.Err? {
          return Err(RiskRefused(evaluated.error));
        }
        decisions := decisions + [evaluated.value];
        if evaluated.value.approved {
          var filled := FillFromApprovedOrder(order, cash, shares, costs);
          if filled.Err? {
            return Err(filled.error);
          }
          cash, shares := filled.value.cashAfter, filled.value.sharesAfter;
          fills := fills + [filled.value];
        }
      }
      FramesSnoc(run.trades, decided.value);
      var marketValue := (shares as real) * price.closePrice;
      var equity := cash + marketValue;
      var base := if portfolio == [] then INITIAL_CASH else previousEquity;
      runningPeak := Max(runningPeak, equity);
      if base == 0.0 || runningPeak == 0.0 {
        return Err(UndefinedReturn);
      }
      previousEquity := equity;
      portfolio := portfolio + [PortfolioRow(signal.executionSession, signal.signalSession, signal.target, cash,
                                             shares, price.closePrice, marketValue, equity,
                                             equity / base - 1.0, equity / runningPeak - 1.0)];
      run := EngineStep(run, signal, price, costs).value;
    }
    result := Ok(Frames(orders, decisions, fills, portfolio));
  }

  lemma NoRowsYet(signals: seq<SignalRow>, prices: seq<PriceRow>, costs: CostAssumptions)
    requires |signals| == |prices|
    ensures OrdersOf([]) == [] && DecisionsOf([]) == [] && FillsOf([]) == []
    ensures EngineRun(signals, prices, costs, 0) == Ok(START)
  {
  }

  lemma RunContinues(signals: seq<SignalRow>, prices: seq<PriceRow>, costs: CostAssumptions, i: nat)
    requires i < |signals| == |prices|
    requires EngineRun(signals, prices, costs, i).Ok?
    ensures var next := EngineStep(EngineRun(signals, prices, costs, i).value, signals[i], prices[i], costs);
            && EngineRun(signals, prices, costs, i + 1) == next
            && (next.Err? ==> EngineRun(signals, prices, costs, |signals|) == next)
  {
    hide EngineStep;
    if EngineRun(signals, prices, costs, i + 1).Err? {
      ErrorsPersist(signals, prices, costs, i + 1, |signals|);
    }
  }
}
