/**
 The result object's checks of a run: portfolio frame, audit replay, row counts, sequence numbers and
 metrics. It never rejects what the simulator produced, and accepts nothing else.
 */
module BacktestResult {
  import opened Wrappers
  import opened Sequences
  import opened Aggregates
  import opened OrderCosts
  import opened RiskRules
  import opened BacktestEngine
  import opened EngineSafety
  import opened AuditReplay
  import opened ReplayTrade
  import opened ReplayFrames
  import opened ReplayTheorems
  import opened BacktestMetrics

  function ApprovedNumbers(decisions: seq<RiskDecision>): seq<int> {
    if decisions == [] then
      []
    else
      var last := decisions[|decisions| - 1];
      ApprovedNumbers(decisions[..|decisions| - 1]) + (if last.approved then [last.orderSequenceNumber] else [])
  }

  ghost predicate RowsFollowSignals(rows: seq<PortfolioRow>, signals: seq<SignalRow>, prices: seq<PriceRow>) {
    && |rows| == |signals| == |prices|
    && forall i :: 0 <= i < |rows| ==>
         && rows[i].session == signals[i].executionSession
         && rows[i].session == prices[i].executionSession
         && rows[i].signalSession == signals[i].signalSession
  }

  /** Orders, decisions and fills pair up by sequence number. */
  ghost predicate NumbersPairUp(frames: Frames) {
    && KeysDiffer(frames.orders, OrderNumber)
    && SameNumbers(frames.orders, frames.decisions)
    && KeysDiffer(frames.decisions, DecisionNumber)
    && multiset(Column(frames.fills, FillNumber)) == multiset(ApprovedNumbers(frames.decisions))
    && KeysDiffer(frames.fills, FillNumber)
  }

  ghost predicate MetricsMatch(m: Metrics, frames: Frames) {
    && ValidMetrics(m)
    && m.sessionCount == |frames.portfolio|
    && m.proposedOrderCount == |frames.orders|
    && m.approvedOrderCount == |ApprovedNumbers(frames.decisions)|
    && m.fillCount == |frames.fills|
    && m.totals == TotalsOf(frames.fills)
    && CalculateMetrics(frames) == Some(m)
  }

  /** The checks of the result's constructor, in its order. */
  ghost predicate ResultAccepts(frames: Frames, metrics: Metrics, signals: seq<SignalRow>, prices: seq<PriceRow>,
                                costs: CostAssumptions) {
    && PortfolioAccounts(frames.portfolio)
    && ReplayAccepts(frames, signals, prices, costs)
    && RowsFollowSignals(frames.portfolio, signals, prices)
    && NumbersPairUp(frames)
    && FillsMeasured(frames.fills)
    && (forall i :: 0 <= i < |frames.decisions| && frames.decisions[i].approved ==>
          frames.decisions[i].reasonCodes == [Approved])
    && MetricsMatch(metrics, frames)
  }

  // ---------------------------------------------------------------- a run's portfolio is measured

  lemma {:induction false} PeakOfPrefix(rows: seq<PortfolioRow>, more: seq<PortfolioRow>, n: nat)
    requires n <= |rows|
    ensures PeakThrough(rows + more, n) == PeakThrough(rows, n)
  {
    if n > 0 {
      PeakOfPrefix(rows, more, n - 1);
    }
  }

  lemma ClosedRowMeasured(index: nat, signal: SignalRow, price: PriceRow, cash: real, shares: int,
                          previousEquity: real, runningPeak: real)
    requires SessionInputs(signal, price) && Solvent(cash, shares)
    requires previousEquity > 0.0 && runningPeak >= INITIAL_CASH
    requires index == 0 ==> previousEquity == INITIAL_CASH
    ensures var r := CloseSession(index, signal, price, cash, shares, previousEquity, runningPeak);
            && r.Ok?
            && MetricRow(r.value.0, previousEquity, r.value.1.runningPeak)
            && r.value.1.runningPeak == Max(runningPeak, r.value.0.equity)
            && r.value.1.previousEquity == r.value.0.equity
            && r.value.0.session == signal.executionSession && r.value.0.signalSession == signal.signalSession
  {
    hide Max;
    ClosingStaysSound(index, signal, price, cash, shares, previousEquity, runningPeak);
    ProductNonNegative(shares as real, price.closePrice);
  }

  lemma StepMeasured(run: Run, signal: SignalRow, price: PriceRow, costs: CostAssumptions)
    requires SessionInputs(signal, price) && Sound(run.account)
    requires |run.portfolio| == 0 ==> run.account.previousEquity == INITIAL_CASH
    requires EngineStep(run, signal, price, costs).Ok?
    ensures var next := EngineStep(run, signal, price, costs).value;
            var row := next.portfolio[|run.portfolio|];
            && |next.portfolio| == |run.portfolio| + 1 && next.portfolio == run.portfolio + [row]
            && MetricRow(row, run.account.previousEquity, next.account.runningPeak)
            && next.account.runningPeak == Max(run.account.runningPeak, row.equity)
            && next.account.previousEquity == row.equity
            && row.session == signal.executionSession && row.signalSession == signal.signalSession
  {
    hide DecideTrade, CloseSession, Sellable, MetricRow, ValidFill, OrdersOf, Max;
    var number := |OrdersOf(run.trades)| + 1;
    var (cash, shares) := (run.account.cash, run.account.shares);
    TradeOutcome(number, signal, price, cash, shares, costs);
    var trade := DecideTrade(number, signal, price, cash, shares, costs).value;
    TradeKeepsSolvent(trade, cash, shares);
    ClosedRowMeasured(|run.portfolio|, signal, price, CashAfter(trade, cash), SharesAfter(trade, shares),
                      run.account.previousEquity, run.account.runningPeak);
  }

  ghost predicate SessionsFollow(rows: seq<PortfolioRow>, signals: seq<SignalRow>) {
    && |rows| <= |signals|
    && forall i :: 0 <= i < |rows| ==>
         rows[i].session == signals[i].executionSession && rows[i].signalSession == signals[i].signalSession
  }

  lemma RowAppended(rows: seq<PortfolioRow>, row: PortfolioRow)
    requires MeasuredThrough(rows, |rows|)
    requires MetricRow(row, EquityBefore(rows, |rows|), Max(PeakThrough(rows, |rows|), row.equity))
    ensures MeasuredThrough(rows + [row], |rows| + 1)
    ensures PeakThrough(rows + [row], |rows| + 1) == Max(PeakThrough(rows, |rows|), row.equity)
    ensures EquityBefore(rows + [row], |rows| + 1) == row.equity
  {
    hide MetricRow, Max;
    var longer := rows + [row];
    PeakOfPrefix(rows, [row], |rows|);
    forall i | 0 <= i < |longer| ensures MetricRow(longer[i], EquityBefore(longer, i), PeakThrough(longer, i + 1)) {
      if i < |rows| {
        PeakOfPrefix(rows, [row], i + 1);
        assert EquityBefore(longer, i) == EquityBefore(rows, i);
      }
    }
  }

  /** A run's rows account for every session against the equity before it and the peak up to it. */
  lemma {:induction false} RunIsMeasured(signals: seq<SignalRow>, prices: seq<PriceRow>, costs: CostAssumptions, n: nat)
    requires ValidInputs(signals, prices) && n <= |signals|
    requires EngineRun(signals, prices, costs, n).Ok?
    ensures var (rows, account) := (EngineRun(signals, prices, costs, n).value.portfolio,
                                    EngineRun(signals, prices, costs, n).value.account);
            && |rows| == n
            && account.previousEquity == EquityBefore(rows, n)
            && account.runningPeak == PeakThrough(rows, n)
            && MeasuredThrough(rows, |rows|)
            && SessionsFollow(rows, signals)
  {
    hide EngineStep, SoundRow, MetricRow, Max, MeasuredThrough;
    if n == 0 {
      NothingMeasured();
    } else {
      hide PeakThrough, EquityBefore;
      RunIsMeasured(signals, prices, costs, n - 1);
      EveryRunIsSound(signals, prices, costs, n - 1);
      var run := EngineRun(signals, prices, costs, n - 1).value;
      StartIsInitial(run.portfolio);
      StepMeasured(run, signals[n - 1], prices[n - 1], costs);
      RowAppended(run.portfolio, EngineRun(signals, prices, costs, n).value.portfolio[n - 1]);
    }
  }

  lemma NothingMeasured()
    ensures MeasuredThrough([], 0)
  {
  }

  lemma StartIsInitial(rows: seq<PortfolioRow>)
    ensures rows == [] ==> EquityBefore(rows, |rows|) == INITIAL_CASH
  {
  }

  lemma MeasuredAccounts(rows: seq<PortfolioRow>)
    requires PortfolioMeasured(rows)
    ensures PortfolioAccounts(rows)
  {
  }

  lemma RunPortfolioMeasured(signals: seq<SignalRow>, prices: seq<PriceRow>, costs: CostAssumptions)
    requires ValidInputs(signals, prices) && signals != []
    requires EngineRun(signals, prices, costs, |signals|).Ok?
    ensures var rows := EngineRun(signals, prices, costs, |signals|).value.portfolio;
            PortfolioMeasured(rows) && PortfolioAccounts(rows) && RowsFollowSignals(rows, signals, prices)
  {
    hide EngineRun, MetricRow, RowAccounts, PeakThrough;
    RunIsMeasured(signals, prices, costs, |signals|);
    MeasuredAccounts(EngineRun(signals, prices, costs, |signals|).value.portfolio);
  }

  // ---------------------------------------------------------------- sequence numbers pair up

  lemma {:induction false} ApprovedMembers(decisions: seq<RiskDecision>, k: int)
    ensures k in ApprovedNumbers(decisions) <==>
            exists i :: 0 <= i < |decisions| && decisions[i].approved && decisions[i].orderSequenceNumber == k
    ensures |ApprovedNumbers(decisions)| == CountIf(decisions, IsApproved)
  {
    if decisions != [] {
      var front, n := decisions[..|decisions| - 1], |decisions| - 1;
      ApprovedMembers(front, k);
      if k in ApprovedNumbers(front) {
        var i :| 0 <= i < |front| && front[i].approved && front[i].orderSequenceNumber == k;
        assert decisions[i].approved && decisions[i].orderSequenceNumber == k;
      }
      if i :| 0 <= i < |decisions| && decisions[i].approved && decisions[i].orderSequenceNumber == k {
        if i < n {
          assert front[i].approved && front[i].orderSequenceNumber == k;
        }
      }
    }
  }

  lemma {:induction false} ApprovedUnrepeated(decisions: seq<RiskDecision>)
    requires KeysDiffer(decisions, DecisionNumber)
    ensures NoDuplicates(ApprovedNumbers(decisions))
  {
    if decisions != [] {
      var front, last := decisions[..|decisions| - 1], decisions[|decisions| - 1];
      assert forall i :: 0 <= i < |front| ==> DecisionNumber(decisions[i]) != DecisionNumber(last);
      ApprovedUnrepeated(front);
      ApprovedMembers(front, last.orderSequenceNumber);
      AppendOne(ApprovedNumbers(front), if last.approved then [last.orderSequenceNumber] else []);
    }
  }

  lemma OrderAndDecisionNumbers(frames: Frames, signals: seq<SignalRow>, costs: CostAssumptions)
    requires FramesReconstruct(frames, signals, costs)
    ensures KeysDiffer(frames.orders, OrderNumber) && KeysDiffer(frames.decisions, DecisionNumber)
    ensures SameNumbers(frames.orders, frames.decisions)
  {
    hide ValidOrder, EstimateRecorded, ValidDecision, FillsReconstruct, OrdersMatchSignals, IndexBy;
    IndexByFacts(frames.decisions, DecisionNumber);
    var ours, theirs := Column(frames.orders, OrderNumber), Column(frames.decisions, DecisionNumber);
    forall i, j | 0 <= i < j < |frames.decisions|
      ensures DecisionNumber(frames.decisions[i]) != DecisionNumber(frames.decisions[j])
    {
      assert DecisionNumber(frames.decisions[i]) != DecisionNumber(frames.decisions[j]);
    }
    forall k ensures k in ours <==> k in theirs {
      if k in ours {
        var i :| 0 <= i < |frames.orders| && ours[i] == k;
        assert k in DecisionsBySequence(frames.decisions);
        var d := DecisionsBySequence(frames.decisions)[k];
        var j :| 0 <= j < |frames.decisions| && frames.decisions[j] == d;
        assert theirs[j] == k;
      }
      if k in theirs {
        var j :| 0 <= j < |frames.decisions| && theirs[j] == k;
        assert DecisionNumber(frames.decisions[j]) in DecisionsBySequence(frames.decisions);
        assert ours[k - 1] == k;
      }
    }
    SameElements(ours, theirs);
  }

  /** Only approved decisions are filled. */
  ghost predicate FilledWhenApproved(trades: seq<Trade>) {
    forall j :: 0 <= j < |trades| && !trades[j].NoTrade? ==> (trades[j].decision.approved <==> trades[j].Filled?)
  }

  lemma FillAndApprovalNumbers(frames: Frames, signals: seq<SignalRow>, costs: CostAssumptions, trades: seq<Trade>)
    requires FramesReconstruct(frames, signals, costs) && Filing(frames, signals, costs, trades)
    requires FilledWhenApproved(trades)
    requires FillsBySequence(frames.fills).Keys == FilledNumbers(trades)
    requires KeysDiffer(frames.decisions, DecisionNumber)
    ensures multiset(Column(frames.fills, FillNumber)) == multiset(ApprovedNumbers(frames.decisions))
  {
    hide OrdersReconstruct, DecisionsReconstruct, OrdersMatchSignals, IndexBy, TradeRecorded, ValidFill,
      ApprovedNumbers;
    var filled, approved := Column(frames.fills, FillNumber), ApprovedNumbers(frames.decisions);
    IndexByFacts(frames.fills, FillNumber);
    ApprovedUnrepeated(frames.decisions);
    forall k ensures k in filled <==> k in approved {
      ApprovedMembers(frames.decisions, k);
      if k in filled {
        var i :| 0 <= i < |filled| && filled[i] == k;
        assert FillNumber(frames.fills[i]) in FillsBySequence(frames.fills).Keys;
        ApprovalOfFill(frames, signals, costs, trades, k);
      }
      if k in approved {
        var i :| 0 <= i < |frames.decisions| && frames.decisions[i].approved
                 && frames.decisions[i].orderSequenceNumber == k;
        FillOfApproval(frames, signals, costs, trades, i);
        var f := FillsBySequence(frames.fills)[k];
        var a :| 0 <= a < |frames.fills| && frames.fills[a] == f;
        assert filled[a] == k;
      }
    }
    SameElements(filled, approved);
  }

  lemma ApprovalOfFill(frames: Frames, signals: seq<SignalRow>, costs: CostAssumptions, trades: seq<Trade>, k: int)
    requires Filing(frames, signals, costs, trades) && FilledWhenApproved(trades)
    requires k in FilledNumbers(trades)
    ensures exists i :: 0 <= i < |frames.decisions| && frames.decisions[i].approved
                        && frames.decisions[i].orderSequenceNumber == k
  {
    hide OrderRecorded, ValidFill, ValidDecision, IndexBy;
    IndexByFacts(frames.decisions, DecisionNumber);
    var j :| 0 <= j < |trades| && trades[j].Filled? && trades[j].order.sequenceNumber == k;
    assert Recorded(frames, signals[j]) == Some(trades[j]);
    var d := trades[j].decision;
    var i :| 0 <= i < |frames.decisions| && frames.decisions[i] == d;
    assert frames.decisions[i].approved;
  }

  lemma FillOfApproval(frames: Frames, signals: seq<SignalRow>, costs: CostAssumptions, trades: seq<Trade>, i: nat)
    requires FramesReconstruct(frames, signals, costs) && Filing(frames, signals, costs, trades)
    requires FilledWhenApproved(trades) && i < |frames.decisions| && frames.decisions[i].approved
    requires FillsBySequence(frames.fills).Keys == FilledNumbers(trades)
    ensures frames.decisions[i].orderSequenceNumber in FillsBySequence(frames.fills)
  {
    hide ValidOrder, EstimateRecorded, ValidFill, ValidDecision, IndexBy, OrdersMatchSignals, FillsReconstruct;
    IndexByFacts(frames.decisions, DecisionNumber);
    var k := frames.decisions[i].orderSequenceNumber;
    assert DecisionNumber(frames.decisions[i]) == k && k in DecisionsBySequence(frames.decisions);
    var j := EveryOrderFiled(frames, signals, costs, trades, k - 1);
    assert Recorded(frames, signals[j]) == Some(trades[j]);
    assert trades[j].decision == frames.decisions[i];
    assert k in FilledNumbers(trades);
    assert k in FillsBySequence(frames.fills).Keys;
  }

  // ---------------------------------------------------------------- the metric identities

  lemma TotalsValid(fills: seq<FillRecord>)
    requires FillsMeasured(fills)
    ensures var t := TotalsOf(fills);
            && t.referenceNotional >= 0.0 && t.executionNotional >= 0.0 && t.commission >= 0.0
            && t.slippageCost >= 0.0 && t.transactionCost >= 0.0
            && t.transactionCost == t.commission + t.slippageCost
    ensures CountIf(fills, IsBuy) + CountIf(fills, IsSell) == |fills|
  {
    hide Sum, CountIf;
    SumNonNegative(fills, ReferenceNotional);
    SumNonNegative(fills, ExecutionNotional);
    SumNonNegative(fills, Commission);
    SumNonNegative(fills, SlippageCost);
    SumNonNegative(fills, TransactionCost);
    SumAdds(fills, Commission, SlippageCost, TransactionCost);
    CountSplits(fills, IsBuy, IsSell);
  }

  lemma QuotientNonNegative(a: real, b: real)
    requires a >= 0.0 && b > 0.0
    ensures a / b >= 0.0
    ensures a <= b ==> a / b <= 1.0
  {
  }

  lemma DrawdownValid(rows: seq<PortfolioRow>)
    requires PortfolioMeasured(rows)
    ensures 0.0 <= Abs(Least(Column(rows, Drawdown))) <= 1.0
  {
    hide EquityBefore, PeakThrough, Chronological;
    var values := Column(rows, Drawdown);
    var least := Least(values);
    var i :| 0 <= i < |values| && values[i] == least;
    assert values[i] == rows[i].drawdown;
  }

  lemma MetricsComplete(frames: Frames)
    requires PortfolioMeasured(frames.portfolio) && FillsMeasured(frames.fills)
    requires OrdersMeasured(frames.orders) && DecisionsMeasured(frames.decisions)
    requires NumbersPairUp(frames)
    requires forall i :: 0 <= i < |frames.portfolio| ==> frames.portfolio[i].equity > 0.0
    ensures MeanEquity(frames.portfolio) > 0.0
    ensures CalculateMetrics(frames) == Some(MetricsOf(frames))
    ensures MetricsMatch(MetricsOf(frames), frames)
  {
    hide Sum, CountIf, OrdersMeasured, DecisionsMeasured, FillsMeasured, PeakThrough, EquityBefore, Chronological,
      ApprovedNumbers, Column, Least;
    var rows := frames.portfolio;
    SumPositive(rows, Equity);
    ProductPositive(MeanEquity(rows), |rows| as real);
    TotalsValid(frames.fills);
    DrawdownValid(rows);
    QuotientNonNegative(Sum(frames.fills, ReferenceNotional), MeanEquity(rows));
    QuotientNonNegative(CountIf(rows, Holds) as real, |rows| as real);
    ApprovedMembers(frames.decisions, 0);
    SameLength(Column(frames.fills, FillNumber), ApprovedNumbers(frames.decisions));
    SameLength(Column(frames.orders, OrderNumber), Column(frames.decisions, DecisionNumber));
    LastRow(rows);
    assert ValidMetrics(MetricsOf(frames));
  }

  lemma SameLength<T>(s: seq<T>, t: seq<T>)
    requires multiset(s) == multiset(t)
    ensures |s| == |t|
  {
    assert |s| == |multiset(s)| && |t| == |multiset(t)|;
  }

  lemma LastRow(rows: seq<PortfolioRow>)
    requires PortfolioMeasured(rows)
    ensures var last := rows[|rows| - 1];
            && last.cash >= 0.0 && last.shares >= 0 && last.marketValue >= 0.0 && last.equity >= 0.0
            && last.equity == last.cash + last.marketValue
  {
    assert MetricRow(rows[|rows| - 1], EquityBefore(rows, |rows| - 1), PeakThrough(rows, |rows|));
  }

  // ---------------------------------------------------------------- the theorems

  lemma ReplayedTradesFillApprovals(signals: seq<SignalRow>, prices: seq<PriceRow>, costs: CostAssumptions,
                                    t: Trade, j: nat, cash: real, shares: int)
    requires j < |signals| == |prices|
    requires TradeReplays(t, signals[j], prices[j].referenceOpen, cash, shares, costs)
    ensures !t.NoTrade? ==> (t.decision.approved <==> t.Filled?)
  {
    hide OrderReplays, FillMatches;
  }

  /** The records behind a renumbered run: everything the frame checks and the pairing of numbers need. */
  lemma RecordsOfRun(frames: Frames, signals: seq<SignalRow>, prices: seq<PriceRow>, costs: CostAssumptions,
                     numbers: seq<int>) returns (trades: seq<Trade>)
    requires ValidInputs(signals, prices)
    requires EngineRun(signals, prices, costs, |signals|).Ok?
    requires RecordsRun(frames, EngineRun(signals, prices, costs, |signals|).value, numbers)
    ensures FramesReconstruct(frames, signals, costs) && OnlySpy(frames.orders)
    ensures Filing(frames, signals, costs, trades) && FilledWhenApproved(trades)
    ensures FillsBySequence(frames.fills).Keys == FilledNumbers(trades)
  {
    hide EngineRun, TradeRecorded, Recorded, FilledNumbers, Renumbered, FramesReconstruct, Collect, OnlySpy, RowsOf,
      TradeReplays, FillsBySequence;
    var run := EngineRun(signals, prices, costs, |signals|).value;
    RunsArePrefixes(signals, prices, costs, |signals|, |signals|);
    trades := RenumberAll(run.trades, numbers);
    forall j | 0 <= j < |signals|
      ensures TradeRecorded(trades[j], signals[j], costs)
      ensures !trades[j].NoTrade? ==> (trades[j].decision.approved <==> trades[j].Filled?)
    {
      TradingNumbersPositive(frames, run.trades, numbers, j);
      TradePasses(signals, prices, costs, |signals|, j, numbers[j]);
      var account := EngineRun(signals, prices, costs, j).value.account;
      ReplayedTradesFillApprovals(signals, prices, costs, trades[j], j, account.cash, account.shares);
    }
    TradesReconstruct(frames, signals, prices, costs, trades);
  }

  lemma ReconstructedIsMeasured(frames: Frames, signals: seq<SignalRow>, costs: CostAssumptions)
    requires FramesReconstruct(frames, signals, costs) && OnlySpy(frames.orders)
    ensures FillsMeasured(frames.fills)
    ensures OrdersMeasured(frames.orders) && DecisionsMeasured(frames.decisions)
    ensures forall i :: 0 <= i < |frames.decisions| && frames.decisions[i].approved ==>
              frames.decisions[i].reasonCodes == [Approved]
  {
    hide EstimateRecorded, OrdersMatchSignals, IndexBy, Column;
    OrderAndDecisionNumbers(frames, signals, costs);
  }

  lemma RunEquityPositive(signals: seq<SignalRow>, prices: seq<PriceRow>, costs: CostAssumptions)
    requires ValidInputs(signals, prices)
    requires EngineRun(signals, prices, costs, |signals|).Ok?
    ensures var rows := EngineRun(signals, prices, costs, |signals|).value.portfolio;
            forall i :: 0 <= i < |rows| ==> rows[i].equity > 0.0
  {
    hide EngineRun;
    EveryRunIsSound(signals, prices, costs, |signals|);
  }

  /** Completeness: a finished run, under any renumbering, has metrics and is accepted with them. */
  lemma RenumberedRunAccepted(frames: Frames, signals: seq<SignalRow>, prices: seq<PriceRow>, costs: CostAssumptions,
                              numbers: seq<int>)
    requires ValidInputs(signals, prices) && signals != []
    requires EngineRun(signals, prices, costs, |signals|).Ok?
    requires RecordsRun(frames, EngineRun(signals, prices, costs, |signals|).value, numbers)
    ensures CalculateMetrics(frames).Some?
    ensures ResultAccepts(frames, CalculateMetrics(frames).value, signals, prices, costs)
  {
    hide EngineRun, ReplayAccepts, FramesReconstruct, Filing, FilledWhenApproved, FillsBySequence, FilledNumbers,
      OnlySpy, PortfolioMeasured, PortfolioAccounts, OrdersMeasured, DecisionsMeasured, FillsMeasured,
      CalculateMetrics, Column, RowsFollowSignals, MetricsMatch, RowsOf, ValidMetrics, SoundRow;
    var trades := RecordsOfRun(frames, signals, prices, costs, numbers);
    RunFramesAccepted(frames, signals, prices, costs, numbers);
    RunPortfolioMeasured(signals, prices, costs);
    RunEquityPositive(signals, prices, costs);
    OrderAndDecisionNumbers(frames, signals, costs);
    FillAndApprovalNumbers(frames, signals, costs, trades);
    FillKeysDiffer(frames, signals, costs);
    ReconstructedIsMeasured(frames, signals, costs);
    MetricsComplete(frames);
  }

  lemma FillKeysDiffer(frames: Frames, signals: seq<SignalRow>, costs: CostAssumptions)
    requires FramesReconstruct(frames, signals, costs)
    ensures KeysDiffer(frames.fills, FillNumber)
  {
  }

  lemma MeasuredIsSpy(frames: Frames)
    requires CalculateMetrics(frames).Some?
    ensures OnlySpy(frames.orders)
  {
    hide PortfolioMeasured, FillsMeasured, DecisionsMeasured, MetricsOf, ValidMetrics, Column;
  }

  /**
   The result accepts frames and metrics exactly when there is something to report, the simulator finishes, the
   frames are its run up to a renumbering, and the metrics are the calculated ones.
   */
  lemma ResultIsTheRun(frames: Frames, metrics: Metrics, signals: seq<SignalRow>, prices: seq<PriceRow>,
                       costs: CostAssumptions)
    requires ValidInputs(signals, prices)
    ensures ResultAccepts(frames, metrics, signals, prices, costs)
            <==>
            && signals != []
            && EngineRun(signals, prices, costs, |signals|).Ok?
            && CalculateMetrics(frames) == Some(metrics)
            && exists numbers :: RecordsRun(frames, EngineRun(signals, prices, costs, |signals|).value, numbers)
  {
    hide EngineRun, ReplayAccepts, RecordsRun, CalculateMetrics, OnlySpy, NumbersPairUp, FillsMeasured, ValidMetrics;
    if ResultAccepts(frames, metrics, signals, prices, costs) {
      MeasuredIsSpy(frames);
      var numbers := AcceptedFramesRecordTheRun(frames, signals, prices, costs);
    }
    if signals != [] && EngineRun(signals, prices, costs, |signals|).Ok? {
      forall numbers | RecordsRun(frames, EngineRun(signals, prices, costs, |signals|).value, numbers)
        ensures CalculateMetrics(frames).Some?
        ensures ResultAccepts(frames, CalculateMetrics(frames).value, signals, prices, costs)
      {
        RenumberedRunAccepted(frames, signals, prices, costs, numbers);
      }
    }
  }

  /** The result never rejects the simulator's own output. */
  lemma OwnResultAccepted(signals: seq<SignalRow>, prices: seq<PriceRow>, costs: CostAssumptions)
    requires ValidInputs(signals, prices) && signals != []
    requires EngineRun(signals, prices, costs, |signals|).Ok?
    ensures var frames := FramesOf(EngineRun(signals, prices, costs, |signals|).value);
            && CalculateMetrics(frames).Some?
            && ResultAccepts(frames, CalculateMetrics(frames).value, signals, prices, costs)
  {
    hide EngineRun, ResultAccepts, RecordsRun, CalculateMetrics, FramesOf;
    var numbers := OwnFramesRecorded(signals, prices, costs);
    RenumberedRunAccepted(FramesOf(EngineRun(signals, prices, costs, |signals|).value), signals, prices, costs,
                          numbers);
  }
}
