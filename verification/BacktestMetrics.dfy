/** The metric calculation over the four audit frames, and the identities its result has to satisfy. */
module BacktestMetrics {
  import opened Trading
  import opened Wrappers
  import opened Sequences
  import opened Aggregates
  import opened OrderCosts
  import opened RiskRules
  import opened BacktestEngine

  datatype Metrics = Metrics(
    sessionCount: int,
    initialCash: real,
    finalCash: real,
    finalShares: int,
    finalMarketValue: real,
    finalEquity: real,
    totalReturn: real,
    maximumDrawdown: real,
    totals: FillTotals,
    turnoverRatio: real,
    exposureFraction: real,
    proposedOrderCount: int,
    approvedOrderCount: int,
    rejectedOrderCount: int,
    fillCount: int,
    buyFillCount: int,
    sellFillCount: int)

  datatype FillTotals = FillTotals(
    referenceNotional: real,
    executionNotional: real,
    commission: real,
    slippageCost: real,
    transactionCost: real)

  // Columns of the frames.
  function ReferenceNotional(f: FillRecord): real { f.referenceNotional }
  function ExecutionNotional(f: FillRecord): real { f.executionNotional }
  function Commission(f: FillRecord): real { f.commission }
  function SlippageCost(f: FillRecord): real { f.slippageCost }
  function TransactionCost(f: FillRecord): real { f.totalTransactionCost }
  function IsBuy(f: FillRecord): bool { f.side == Buy }
  function IsSell(f: FillRecord): bool { f.side == Sell }
  function IsApproved(d: RiskDecision): bool { d.approved }
  function Holds(row: PortfolioRow): bool { row.shares > 0 }
  function SessionOf(row: PortfolioRow): Session { row.session }
  function Shares(row: PortfolioRow): int { row.shares }
  function Equity(row: PortfolioRow): real { row.equity }
  function Drawdown(row: PortfolioRow): real { row.drawdown }

  /** A portfolio row agrees with the equity before it and the peak up to it. */
  predicate RowAccounts(row: PortfolioRow, base: real, peak: real) {
    && row.cash >= 0.0 && row.shares >= 0 && row.closePrice > 0.0
    && row.marketValue == (row.shares as real) * row.closePrice
    && row.equity == row.cash + row.marketValue
    && base != 0.0 && peak != 0.0
    && row.dailyReturn == row.equity / base - 1.0
    && row.drawdown == row.equity / peak - 1.0
    && row.drawdown <= 0.0
  }

  predicate MetricRow(row: PortfolioRow, base: real, peak: real) {
    && RowAccounts(row, base, peak)
    && (row.targetPosition == 0 || row.targetPosition == 1)
    && row.marketValue >= 0.0 && row.equity >= 0.0
    && row.drawdown >= -1.0
    && base > 0.0
  }

  function EquityBefore(rows: seq<PortfolioRow>, i: nat): real
    requires i <= |rows|
  {
    if i == 0 then INITIAL_CASH else rows[i - 1].equity
  }

  function PeakThrough(rows: seq<PortfolioRow>, n: nat): real
    requires n <= |rows|
  {
    if n == 0 then INITIAL_CASH else Max(PeakThrough(rows, n - 1), rows[n - 1].equity)
  }

  predicate Chronological(rows: seq<PortfolioRow>) {
    forall i, j :: 0 <= i < j < |rows| ==> rows[i].session < rows[j].session
  }

  predicate AccountsThrough(rows: seq<PortfolioRow>, n: nat)
    requires n <= |rows|
  {
    forall i :: 0 <= i < n ==> RowAccounts(rows[i], EquityBefore(rows, i), PeakThrough(rows, i + 1))
  }

  /** The result's own check of the portfolio frame. */
  predicate PortfolioAccounts(rows: seq<PortfolioRow>) {
    rows != [] && Chronological(rows) && AccountsThrough(rows, |rows|)
  }

  predicate MeasuredThrough(rows: seq<PortfolioRow>, n: nat)
    requires n <= |rows|
  {
    forall i :: 0 <= i < n ==> MetricRow(rows[i], EquityBefore(rows, i), PeakThrough(rows, i + 1))
  }

  /** The metric calculation's check of the portfolio frame. */
  predicate PortfolioMeasured(rows: seq<PortfolioRow>) {
    rows != [] && Chronological(rows) && MeasuredThrough(rows, |rows|)
  }

  /** The metric calculation asks of a fill row what the FillRecord constructor asks. */
  predicate FillsMeasured(fills: seq<FillRecord>) {
    forall i :: 0 <= i < |fills| ==> ValidFill(fills[i])
  }

  predicate MetricOrder(o: ProposedOrder) {
    && o.sequenceNumber >= 1 && o.symbol == SUPPORTED_SYMBOL && o.quantity >= 1
    && o.executionSession > o.signalSession
    && (o.targetPosition == 0 || o.targetPosition == 1)
    && o.referenceOpen > 0.0 && o.estimatedExecutionPrice > 0.0 && o.estimatedCommission >= 0.0
    && o.currentCash >= 0.0 && o.currentShares >= 0
  }

  predicate OrdersMeasured(orders: seq<ProposedOrder>) {
    && (forall i :: 0 <= i < |orders| ==> MetricOrder(orders[i]))
    && KeysDiffer(orders, OrderNumber)
  }

  /** The metric calculation asks of a decision row what the RiskDecision constructor asks. */
  predicate DecisionsMeasured(decisions: seq<RiskDecision>) {
    && (forall i :: 0 <= i < |decisions| ==> ValidDecision(decisions[i]))
    && KeysDiffer(decisions, DecisionNumber)
  }

  predicate SameNumbers(orders: seq<ProposedOrder>, decisions: seq<RiskDecision>) {
    multiset(Column(orders, OrderNumber)) == multiset(Column(decisions, DecisionNumber))
  }

  function TotalsOf(fills: seq<FillRecord>): FillTotals {
    FillTotals(Sum(fills, ReferenceNotional), Sum(fills, ExecutionNotional), Sum(fills, Commission),
               Sum(fills, SlippageCost), Sum(fills, TransactionCost))
  }

  /** The identities the BacktestMetrics constructor enforces. */
  predicate ValidMetrics(m: Metrics) {
    && m.sessionCount > 0
    && m.finalShares >= 0
    && m.proposedOrderCount >= 0 && m.approvedOrderCount >= 0 && m.rejectedOrderCount >= 0
    && m.fillCount >= 0 && m.buyFillCount >= 0 && m.sellFillCount >= 0
    && m.finalCash >= 0.0 && m.finalMarketValue >= 0.0 && m.finalEquity >= 0.0
    && 0.0 <= m.maximumDrawdown <= 1.0
    && m.totals.referenceNotional >= 0.0 && m.totals.executionNotional >= 0.0 && m.totals.commission >= 0.0
    && m.totals.slippageCost >= 0.0 && m.totals.transactionCost >= 0.0
    && m.turnoverRatio >= 0.0
    && 0.0 <= m.exposureFraction <= 1.0
    && m.initialCash == INITIAL_CASH
    && m.finalEquity == m.finalCash + m.finalMarketValue
    && m.totalReturn == m.finalEquity / INITIAL_CASH - 1.0
    && m.totals.transactionCost == m.totals.commission + m.totals.slippageCost
    && m.approvedOrderCount + m.rejectedOrderCount == m.proposedOrderCount
    && m.fillCount == m.approvedOrderCount
    && m.buyFillCount + m.sellFillCount == m.fillCount
  }

  function MeanEquity(rows: seq<PortfolioRow>): real
    requires rows != []
  {
    Sum(rows, Equity) / (|rows| as real)
  }

  function MetricsOf(frames: Frames): Metrics
    requires frames.portfolio != [] && MeanEquity(frames.portfolio) != 0.0
  {
    var rows := frames.portfolio;
    var last := rows[|rows| - 1];
    var approved := CountIf(frames.decisions, IsApproved);
    Metrics(
      |rows|, INITIAL_CASH, last.cash, last.shares, last.marketValue, last.equity,
      last.equity / INITIAL_CASH - 1.0,
      Abs(Least(Column(rows, Drawdown))),
      TotalsOf(frames.fills),
      Sum(frames.fills, ReferenceNotional) / MeanEquity(rows),
      (CountIf(rows, Holds) as real) / (|rows| as real),
      |frames.orders|, approved, |frames.orders| - approved,
      |frames.fills|, CountIf(frames.fills, IsBuy), CountIf(frames.fills, IsSell))
  }

  /** The metrics of the frames; none when a check fails. */
  function CalculateMetrics(frames: Frames): Option<Metrics> {
    if || !PortfolioMeasured(frames.portfolio) || !FillsMeasured(frames.fills)
       || !OrdersMeasured(frames.orders) || !DecisionsMeasured(frames.decisions)
       || !SameNumbers(frames.orders, frames.decisions)
       || MeanEquity(frames.portfolio) <= 0.0
    then
      None
    else
      var m := MetricsOf(frames);
      if ValidMetrics(m) then Some(m) else None
  }

  // ---------------------------------------------------------------- the calculation's loops

  method MeasurePortfolio(rows: seq<PortfolioRow>)
    returns (ok: bool, equities: seq<real>, shares: seq<int>, drawdowns: seq<real>)
    ensures ok <==> PortfolioMeasured(rows)
    ensures ok ==> equities == Column(rows, Equity) && drawdowns == Column(rows, Drawdown)
    ensures ok ==> shares == Column(rows, Shares)
  {
    hide MetricRow, Max, Column, PeakThrough, EquityBefore, MeasuredThrough, Increasing, Chronological;
    equities, shares, drawdowns := [], [], [];
    if rows == [] {
      return false, [], [], [];
    }
    ghost var equityColumn, shareColumn := Column(rows, Equity), Column(rows, Shares);
    ghost var drawdownColumn := Column(rows, Drawdown);
    ghost var sessionColumn := Column(rows, SessionOf);
    var sessions: seq<Session> := [];
    var previousEquity, runningPeak := INITIAL_CASH, INITIAL_CASH;
    NothingMeasuredYet(rows);
    for i := 0 to |rows|
      invariant MeasuredThrough(rows, i)
      invariant previousEquity == EquityBefore(rows, i) && runningPeak == PeakThrough(rows, i)
      invariant sessions == sessionColumn[..i] && equities == equityColumn[..i]
      invariant shares == shareColumn[..i] && drawdowns == drawdownColumn[..i]
    {
      var row := rows[i];
      RowMeasured(rows, i);
      runningPeak := Max(runningPeak, row.equity);
      if !MetricRow(row, previousEquity, runningPeak) {
        return false, [], [], [];
      }
      sessions, equities := sessions + [row.session], equities + [row.equity];
      shares, drawdowns := shares + [row.shares], drawdowns + [row.drawdown];
      previousEquity := row.equity;
    }
    assert sessions == sessionColumn;
    SessionsIncrease(rows);
    ok := Increasing(sessions);
  }

  lemma SessionsIncrease(rows: seq<PortfolioRow>)
    ensures Increasing(Column(rows, SessionOf)) <==> Chronological(rows)
  {
    var sessions := Column(rows, SessionOf);
    assert forall i :: 0 <= i < |rows| ==> sessions[i] == rows[i].session;
  }

  lemma NothingMeasuredYet(rows: seq<PortfolioRow>)
    ensures MeasuredThrough(rows, 0) && EquityBefore(rows, 0) == INITIAL_CASH && PeakThrough(rows, 0) == INITIAL_CASH
  {
  }

  lemma RowMeasured(rows: seq<PortfolioRow>, i: nat)
    requires i < |rows|
    ensures PeakThrough(rows, i + 1) == Max(PeakThrough(rows, i), rows[i].equity)
    ensures EquityBefore(rows, i + 1) == rows[i].equity
    ensures MeasuredThrough(rows, i + 1) <==>
            MeasuredThrough(rows, i) && MetricRow(rows[i], EquityBefore(rows, i), PeakThrough(rows, i + 1))
    ensures !MeasuredThrough(rows, i + 1) ==> !MeasuredThrough(rows, |rows|)
  {
    hide MetricRow, Max, EquityBefore, PeakThrough;
    PeakStep(rows, i);
  }

  /** The result's loop over the portfolio frame. */
  method ValidatePortfolioFrame(rows: seq<PortfolioRow>) returns (ok: bool)
    ensures ok <==> PortfolioAccounts(rows)
  {
    hide RowAccounts, Max, PeakThrough, EquityBefore, AccountsThrough, Increasing, Chronological;
    SessionsIncrease(rows);
    if rows == [] || !Increasing(Column(rows, SessionOf)) {
      return false;
    }
    var runningPeak, previousEquity := INITIAL_CASH, INITIAL_CASH;
    NothingAccounted(rows);
    for i := 0 to |rows|
      invariant AccountsThrough(rows, i)
      invariant previousEquity == EquityBefore(rows, i) && runningPeak == PeakThrough(rows, i)
    {
      RowAccounted(rows, i);
      runningPeak := Max(runningPeak, rows[i].equity);
      if !RowAccounts(rows[i], previousEquity, runningPeak) {
        return false;
      }
      previousEquity := rows[i].equity;
    }
    ok := true;
  }

  lemma NothingAccounted(rows: seq<PortfolioRow>)
    ensures AccountsThrough(rows, 0) && EquityBefore(rows, 0) == INITIAL_CASH && PeakThrough(rows, 0) == INITIAL_CASH
  {
  }

  lemma RowAccounted(rows: seq<PortfolioRow>, i: nat)
    requires i < |rows|
    ensures PeakThrough(rows, i + 1) == Max(PeakThrough(rows, i), rows[i].equity)
    ensures EquityBefore(rows, i + 1) == rows[i].equity
    ensures AccountsThrough(rows, i + 1) <==>
            AccountsThrough(rows, i) && RowAccounts(rows[i], EquityBefore(rows, i), PeakThrough(rows, i + 1))
    ensures !AccountsThrough(rows, i + 1) ==> !AccountsThrough(rows, |rows|)
  {
    hide RowAccounts, Max, EquityBefore, PeakThrough;
    PeakStep(rows, i);
  }

  lemma PeakStep(rows: seq<PortfolioRow>, i: nat)
    requires i < |rows|
    ensures PeakThrough(rows, i + 1) == Max(PeakThrough(rows, i), rows[i].equity)
    ensures EquityBefore(rows, i + 1) == rows[i].equity
  {
  }

  method MeasureFills(fills: seq<FillRecord>) returns (ok: bool, totals: FillTotals, buys: nat, sells: nat)
    ensures ok <==> FillsMeasured(fills)
    ensures ok ==> totals == TotalsOf(fills) && buys == CountIf(fills, IsBuy) && sells == CountIf(fills, IsSell)
  {
    hide ValidFill, Tallied, TotalsOf, CountIf;
    totals, buys, sells := FillTotals(0.0, 0.0, 0.0, 0.0, 0.0), 0, 0;
    NothingTallied();
    assert fills[..0] == [];
    for i := 0 to |fills|
      invariant forall j :: 0 <= j < i ==> ValidFill(fills[j])
      invariant Tallied(fills[..i], totals, buys, sells)
    {
      var f := fills[i];
      if !ValidFill(f) {
        return false, totals, 0, 0;
      }
      assert fills[..i + 1] == fills[..i] + [f];
      TallySnoc(fills[..i], f, totals, buys, sells);
      if f.side == Buy {
        buys := buys + 1;
      } else {
        sells := sells + 1;
      }
      totals := FillTotals(
        totals.referenceNotional + f.referenceNotional,
        totals.executionNotional + f.executionNotional,
        totals.commission + f.commission,
        totals.slippageCost + f.slippageCost,
        totals.transactionCost + f.totalTransactionCost);
    }
    assert fills[..|fills|] == fills;
    TallyMeans(fills, totals, buys, sells);
    ok := true;
  }

  /** The accumulators hold the totals and counts of `fills`. */
  ghost predicate Tallied(fills: seq<FillRecord>, totals: FillTotals, buys: nat, sells: nat) {
    totals == TotalsOf(fills) && buys == CountIf(fills, IsBuy) && sells == CountIf(fills, IsSell)
  }

  lemma TallyMeans(fills: seq<FillRecord>, totals: FillTotals, buys: nat, sells: nat)
    ensures Tallied(fills, totals, buys, sells) <==>
            totals == TotalsOf(fills) && buys == CountIf(fills, IsBuy) && sells == CountIf(fills, IsSell)
  {
    hide TotalsOf, CountIf;
  }

  lemma NothingTallied()
    ensures Tallied([], FillTotals(0.0, 0.0, 0.0, 0.0, 0.0), 0, 0)
  {
  }

  lemma TallySnoc(fills: seq<FillRecord>, f: FillRecord, totals: FillTotals, buys: nat, sells: nat)
    requires Tallied(fills, totals, buys, sells)
    ensures Tallied(fills + [f],
                    FillTotals(totals.referenceNotional + f.referenceNotional,
                               totals.executionNotional + f.executionNotional,
                               totals.commission + f.commission,
                               totals.slippageCost + f.slippageCost,
                               totals.transactionCost + f.totalTransactionCost),
                    if f.side == Buy then buys + 1 else buys,
                    if f.side == Buy then sells else sells + 1)
  {
    hide Sum, CountIf;
    SumSnoc(fills, f, ReferenceNotional);
    SumSnoc(fills, f, ExecutionNotional);
    SumSnoc(fills, f, Commission);
    SumSnoc(fills, f, SlippageCost);
    SumSnoc(fills, f, TransactionCost);
    CountSnoc(fills, f, IsBuy);
    CountSnoc(fills, f, IsSell);
  }

  method MeasureOrders(orders: seq<ProposedOrder>) returns (ok: bool, numbers: seq<int>)
    ensures ok <==> OrdersMeasured(orders)
    ensures ok ==> numbers == Column(orders, OrderNumber)
  {
    hide MetricOrder;
    numbers := [];
    for i := 0 to |orders|
      invariant forall j :: 0 <= j < i ==> MetricOrder(orders[j])
      invariant |numbers| == i && forall j :: 0 <= j < i ==> numbers[j] == orders[j].sequenceNumber
    {
      if !MetricOrder(orders[i]) {
        return false, [];
      }
      numbers := numbers + [orders[i].sequenceNumber];
    }
    ok := NoDuplicates(numbers);
    assert ok <==> KeysDiffer(orders, OrderNumber);
  }

  method MeasureDecisions(decisions: seq<RiskDecision>) returns (ok: bool, numbers: seq<int>, approved: nat)
    ensures ok <==> DecisionsMeasured(decisions)
    ensures ok ==> numbers == Column(decisions, DecisionNumber) && approved == CountIf(decisions, IsApproved)
  {
    hide ValidDecision;
    numbers, approved := [], 0;
    for i := 0 to |decisions|
      invariant forall j :: 0 <= j < i ==> ValidDecision(decisions[j])
      invariant |numbers| == i && forall j :: 0 <= j < i ==> numbers[j] == decisions[j].orderSequenceNumber
      invariant approved == CountIf(decisions[..i], IsApproved)
    {
      var d := decisions[i];
      if !ValidDecision(d) {
        return false, [], 0;
      }
      assert decisions[..i + 1] == decisions[..i] + [d];
      CountSnoc(decisions[..i], d, IsApproved);
      numbers := numbers + [d.orderSequenceNumber];
      if d.approved {
        approved := approved + 1;
      }
    }
    assert decisions[..|decisions|] == decisions;
    ok := NoDuplicates(numbers);
    assert ok <==> KeysDiffer(decisions, DecisionNumber);
  }

  method CalculateBacktestMetrics(frames: Frames) returns (result: Option<Metrics>)
    ensures result == CalculateMetrics(frames)
  {
    hide PortfolioMeasured, FillsMeasured, OrdersMeasured, DecisionsMeasured, ValidMetrics, CountIf, Sum;
    var measured, equities, shares, drawdowns := MeasurePortfolio(frames.portfolio);
    if !measured {
      return None;
    }
    var filled, totals, buys, sells := MeasureFills(frames.fills);
    var ordered, orderNumbers := MeasureOrders(frames.orders);
    var decided, decisionNumbers, approved := MeasureDecisions(frames.decisions);
    if !filled || !ordered || !decided || multiset(orderNumbers) != multiset(decisionNumbers) {
      return None;
    }
    MeasuredIsNonEmpty(frames.portfolio);
    var rows := frames.portfolio;
    var final := rows[|rows| - 1];
    var total, held := SumAndCount(equities, shares, rows);
    var mean := total / (|equities| as real);
    if mean <= 0.0 {
      return None;
    }
    var metrics := Metrics(
      |equities|, INITIAL_CASH, final.cash, shares[|shares| - 1], final.marketValue, equities[|equities| - 1],
      equities[|equities| - 1] / INITIAL_CASH - 1.0,
      Abs(Least(drawdowns)),
      totals,
      totals.referenceNotional / mean,
      (held as real) / (|shares| as real),
      |orderNumbers|, approved, |orderNumbers| - approved,
      |frames.fills|, buys, sells);
    result := if ValidMetrics(metrics) then Some(metrics) else None;
  }

  lemma MeasuredIsNonEmpty(rows: seq<PortfolioRow>)
    requires PortfolioMeasured(rows)
    ensures rows != []
  {
  }

  method SumAndCount(equities: seq<real>, shares: seq<int>, ghost rows: seq<PortfolioRow>)
    returns (total: real, held: nat)
    requires equities == Column(rows, Equity)
    requires shares == Column(rows, Shares)
    ensures total == Sum(rows, Equity) && held == CountIf(rows, Holds)
  {
    total, held := 0.0, 0;
    for i := 0 to |equities|
      invariant total == Sum(rows[..i], Equity) && held == CountIf(rows[..i], Holds)
    {
      assert rows[..i + 1] == rows[..i] + [rows[i]];
      SumSnoc(rows[..i], rows[i], Equity);
      CountSnoc(rows[..i], rows[i], Holds);
      total := total + equities[i];
      if shares[i] > 0 {
        held := held + 1;
      }
    }
    assert rows[..|rows|] == rows;
  }
}
