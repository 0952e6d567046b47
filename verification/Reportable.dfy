/**
 Which frames have metrics: what the metric calculation asks of every row, without what follows from the rest, and of
 the frames together.
 */
module Reportable {
  import opened Trading
  import opened Wrappers
  import opened Sequences
  import opened Aggregates
  import opened OrderCosts
  import opened RiskRules
  import opened BacktestEngine
  import opened BacktestMetrics
  import opened BacktestResult
  import opened SessionOutcomes
  import opened MetricMeanings

  /** A closing row that accounts for its session: out of positive equity, and fallen from the peak as it says. */
  ghost predicate RowReportable(rows: seq<PortfolioRow>, i: nat)
    requires i < |rows|
  {
    var row := rows[i];
    && row.cash >= 0.0 && row.shares >= 0 && row.closePrice > 0.0
    && row.marketValue == (row.shares as real) * row.closePrice && row.equity == row.cash + row.marketValue
    && (row.targetPosition == 0 || row.targetPosition == 1)
    && (i > 0 ==> rows[i - 1].equity > 0.0)
    && (1.0 + row.dailyReturn) * (if i == 0 then 10000.0 else rows[i - 1].equity) == row.equity
    && exists peak :: FallsFrom(rows, i, peak)
  }

  ghost predicate RowsReportable(rows: seq<PortfolioRow>) {
    && rows != [] && rows[0].equity > 0.0
    && (forall i, j :: 0 <= i < j < |rows| ==> rows[i].session < rows[j].session)
    && forall i :: 0 <= i < |rows| ==> RowReportable(rows, i)
  }

  /** A fill whose amounts, shares and cash follow from its quantity, prices and commission. */
  predicate FillReportable(f: FillRecord) {
    && f.orderSequenceNumber >= 1 && f.symbol == "SPY" && f.quantity >= 1 && f.riskApproved
    && f.executionSession > f.signalSession
    && f.referenceOpen > 0.0 && f.executionPrice > 0.0 && f.commission >= 0.0
    && f.sharesBefore >= 0 && f.sharesAfter >= 0 && f.cashBefore >= 0.0 && f.cashAfter >= 0.0
    && f.referenceNotional == (f.quantity as real) * f.referenceOpen
    && f.executionNotional == (f.quantity as real) * f.executionPrice
    && f.slippageCost == (if f.executionPrice < f.referenceOpen then f.referenceNotional - f.executionNotional
                          else f.executionNotional - f.referenceNotional)
    && f.totalTransactionCost == f.commission + f.slippageCost
    && f.sharesAfter - f.sharesBefore == (if f.side == Buy then f.quantity else -f.quantity)
    && f.cashChange
    == (if f.side == Buy then -(f.executionNotional + f.commission) else f.executionNotional - f.commission)
    && f.cashAfter == f.cashBefore + f.cashChange
  }

  predicate OrderReportable(o: ProposedOrder) {
    && o.sequenceNumber >= 1 && o.symbol == "SPY" && o.quantity >= 1 && o.executionSession > o.signalSession
    && (o.targetPosition == 0 || o.targetPosition == 1)
    && o.referenceOpen > 0.0 && o.estimatedExecutionPrice > 0.0 && o.estimatedCommission >= 0.0
    && o.currentCash >= 0.0 && o.currentShares >= 0
  }

  /** A decision with its one approval, or with refusals that are none, and a sound projection. */
  predicate DecisionReportable(d: RiskDecision) {
    && d.orderSequenceNumber >= 1 && d.reasonCodes != []
    && (forall i, j :: 0 <= i < j < |d.reasonCodes| ==> d.reasonCodes[i] != d.reasonCodes[j])
    && (if d.approved then d.reasonCodes == [Approved] else Approved !in d.reasonCodes)
    && d.projectedCash >= 0.0 && d.projectedShares >= 0 && d.projectedMarketValue >= 0.0
    && d.projectedEquity == d.projectedCash + d.projectedMarketValue
  }

  predicate IsDecided(o: ProposedOrder, decisions: seq<RiskDecision>) {
    exists j :: 0 <= j < |decisions| && decisions[j].orderSequenceNumber == o.sequenceNumber
  }

  predicate IsOrdered(d: RiskDecision, orders: seq<ProposedOrder>) {
    exists i :: 0 <= i < |orders| && orders[i].sequenceNumber == d.orderSequenceNumber
  }

  /** Orders and decisions pair up one to one by their numbers, which repeat on neither side. */
  ghost predicate Paired(orders: seq<ProposedOrder>, decisions: seq<RiskDecision>) {
    && (forall i, j :: 0 <= i < j < |orders| ==> orders[i].sequenceNumber != orders[j].sequenceNumber)
    && (forall i, j :: 0 <= i < j < |decisions| ==>
          decisions[i].orderSequenceNumber != decisions[j].orderSequenceNumber)
    && (forall i :: 0 <= i < |orders| ==> IsDecided(orders[i], decisions))
    && (forall j :: 0 <= j < |decisions| ==> IsOrdered(decisions[j], orders))
  }

  lemma ReturnIs(r: real, value: real, base: real)
    requires base > 0.0
    ensures r == value / base - 1.0 <==> (1.0 + r) * base == value
  {
    var q := value / base;
    assert q * base == value;
    if (1.0 + r) * base == value {
      assert (1.0 + r - q) * base == 0.0;
      if 1.0 + r > q { ProductPositive(1.0 + r - q, base); }
      if 1.0 + r < q { ProductPositive(q - (1.0 + r), base); }
    }
  }

  lemma FallBounds(drawdown: real, equity: real, peak: real)
    requires peak > 0.0 && 0.0 <= equity <= peak && (1.0 + drawdown) * peak == equity
    ensures -1.0 <= drawdown <= 0.0
  {
    if drawdown > 0.0 { ProductPositive(drawdown, peak); }
    if 1.0 + drawdown < 0.0 { ProductPositive(-(1.0 + drawdown), peak); }
  }

  lemma HighestIsUnique(rows: seq<PortfolioRow>, n: nat, p: real, q: real)
    requires n <= |rows| && IsHighest(rows, n, p) && IsHighest(rows, n, q)
    ensures p == q
  {
  }

  lemma MarketValueNonNegative(row: PortfolioRow)
    requires row.shares >= 0 && row.closePrice > 0.0 && row.marketValue == (row.shares as real) * row.closePrice
    ensures row.marketValue >= 0.0
  {
    ProductNonNegative(row.shares as real, row.closePrice);
  }

  lemma PeakBounds(rows: seq<PortfolioRow>, i: nat)
    requires i < |rows|
    ensures PeakThrough(rows, i + 1) >= 10000.0 && PeakThrough(rows, i + 1) >= rows[i].equity
  {
    hide PeakThrough;
    PeakIsHighest(rows, i + 1);
  }

  lemma FallIs(rows: seq<PortfolioRow>, i: nat)
    requires i < |rows|
    ensures (exists peak :: FallsFrom(rows, i, peak))
            <==> (1.0 + rows[i].drawdown) * PeakThrough(rows, i + 1) == rows[i].equity
  {
    hide PeakThrough, IsHighest;
    var highest := PeakThrough(rows, i + 1);
    PeakIsHighest(rows, i + 1);
    if (1.0 + rows[i].drawdown) * highest == rows[i].equity {
      assert FallsFrom(rows, i, highest);
    }
    if peak :| FallsFrom(rows, i, peak) {
      HighestIsUnique(rows, i + 1, peak, highest);
    }
  }

  lemma RowNumbers(row: PortfolioRow, base: real, peak: real)
    requires peak > 0.0 && peak >= row.equity
    ensures MetricRow(row, base, peak) <==>
            && row.cash >= 0.0 && row.shares >= 0 && row.closePrice > 0.0
            && row.marketValue == (row.shares as real) * row.closePrice && row.equity == row.cash + row.marketValue
            && (row.targetPosition == 0 || row.targetPosition == 1)
            && base > 0.0 && (1.0 + row.dailyReturn) * base == row.equity
            && (1.0 + row.drawdown) * peak == row.equity
  {
    if base > 0.0 {
      ReturnIs(row.dailyReturn, row.equity, base);
    }
    ReturnIs(row.drawdown, row.equity, peak);
    if row.cash >= 0.0 && row.shares >= 0 && row.closePrice > 0.0
       && row.marketValue == (row.shares as real) * row.closePrice && row.equity == row.cash + row.marketValue
       && (1.0 + row.drawdown) * peak == row.equity
    {
      MarketValueNonNegative(row);
      FallBounds(row.drawdown, row.equity, peak);
    }
  }

  /** The calculation's check of a row is this one. */
  lemma RowChecked(rows: seq<PortfolioRow>, i: nat)
    requires i < |rows|
    ensures MetricRow(rows[i], EquityBefore(rows, i), PeakThrough(rows, i + 1)) <==> RowReportable(rows, i)
  {
    hide PeakThrough, IsHighest, FallsFrom, MetricRow;
    FallIs(rows, i);
    PeakBounds(rows, i);
    RowNumbers(rows[i], EquityBefore(rows, i), PeakThrough(rows, i + 1));
  }

  /** And a first session with any equity is a positive mean. */
  lemma {:induction false} EquitySum(rows: seq<PortfolioRow>)
    requires rows != [] && forall i :: 0 <= i < |rows| ==> RowReportable(rows, i)
    ensures Sum(rows, Equity) >= rows[0].equity >= 0.0
    ensures Sum(rows, Equity) > 0.0 <==> rows[0].equity > 0.0
  {
    hide FallsFrom, RowReportable;
    RowEquity(rows, |rows| - 1);
    if |rows| > 1 {
      var front := rows[..|rows| - 1];
      FrontReportable(rows, front);
      EquitySum(front);
      RowEquity(rows, 1);
    } else {
      assert rows[..0] == [] && Sum(rows, Equity) == Sum(rows[..0], Equity) + rows[0].equity;
    }
  }

  lemma RowEquity(rows: seq<PortfolioRow>, i: nat)
    requires i < |rows| && RowReportable(rows, i)
    ensures rows[i].equity >= 0.0 && (i > 0 ==> rows[i - 1].equity > 0.0)
  {
    MarketValueNonNegative(rows[i]);
  }

  lemma FrontReportable(rows: seq<PortfolioRow>, front: seq<PortfolioRow>)
    requires |rows| > 1 && front == rows[..|rows| - 1] && forall i :: 0 <= i < |rows| ==> RowReportable(rows, i)
    ensures forall i :: 0 <= i < |front| ==> RowReportable(front, i)
  {
    forall i | 0 <= i < |front| ensures RowReportable(front, i) {
      assert RowReportable(rows, i);
      var peak :| FallsFrom(rows, i, peak);
      assert IsHighest(front, i + 1, peak);
      assert FallsFrom(front, i, peak);
    }
  }

  lemma RowsChecked(rows: seq<PortfolioRow>)
    requires rows != []
    ensures PortfolioMeasured(rows) && MeanEquity(rows) > 0.0 <==> RowsReportable(rows)
  {
    hide MetricRow, RowReportable, PeakThrough, EquityBefore, Sum;
    forall i | 0 <= i < |rows|
      ensures MetricRow(rows[i], EquityBefore(rows, i), PeakThrough(rows, i + 1)) <==> RowReportable(rows, i)
    {
      RowChecked(rows, i);
    }
    if forall i :: 0 <= i < |rows| ==> RowReportable(rows, i) {
      EquitySum(rows);
      MeanPositive(Sum(rows, Equity), |rows| as real);
    }
  }

  lemma MeanPositive(sum: real, n: real)
    requires n > 0.0
    ensures sum / n > 0.0 <==> sum > 0.0
  {
    var mean := sum / n;
    assert mean * n == sum;
    if mean > 0.0 {
      ProductPositive(mean, n);
    } else {
      ProductNonNegative(-mean, n);
    }
  }

  lemma GapIs(price: real, open: real, shares: real)
    ensures Abs(price - open) * shares
            == if price < open then shares * open - shares * price else shares * price - shares * open
  {
  }

  lemma FillChecked(f: FillRecord)
    ensures ValidFill(f) <==> FillReportable(f)
  {
    GapIs(f.executionPrice, f.referenceOpen, f.quantity as real);
    if FillReportable(f) {
      ProductPositive(f.quantity as real, f.referenceOpen);
      ProductPositive(f.quantity as real, f.executionPrice);
      ProductNonNegative(Abs(f.executionPrice - f.referenceOpen), f.quantity as real);
    }
  }

  lemma RecordsChecked(frames: Frames)
    ensures FillsMeasured(frames.fills) <==> forall i :: 0 <= i < |frames.fills| ==> FillReportable(frames.fills[i])
    ensures OrdersMeasured(frames.orders) <==>
            && (forall i :: 0 <= i < |frames.orders| ==> OrderReportable(frames.orders[i]))
            && KeysDiffer(frames.orders, OrderNumber)
    ensures DecisionsMeasured(frames.decisions) <==>
            && (forall i :: 0 <= i < |frames.decisions| ==> DecisionReportable(frames.decisions[i]))
            && KeysDiffer(frames.decisions, DecisionNumber)
  {
    forall f: FillRecord ensures ValidFill(f) <==> FillReportable(f) {
      FillChecked(f);
    }
    hide ValidFill, FillReportable, KeysDiffer;
  }

  lemma NumbersChecked(orders: seq<ProposedOrder>, decisions: seq<RiskDecision>)
    ensures KeysDiffer(orders, OrderNumber) && KeysDiffer(decisions, DecisionNumber) && SameNumbers(orders, decisions)
            <==> Paired(orders, decisions)
  {
    hide IsDecided, IsOrdered, NoDuplicates;
    var ours, theirs := Column(orders, OrderNumber), Column(decisions, DecisionNumber);
    DistinctNumbers(orders, decisions);
    if KeysDiffer(orders, OrderNumber) && KeysDiffer(decisions, DecisionNumber) && SameNumbers(orders, decisions) {
      Rearranged(ours, theirs);
      PairsFound(orders, decisions);
    }
    if Paired(orders, decisions) {
      NumbersShared(orders, decisions);
      SameElements(ours, theirs);
    }
  }

  lemma DistinctNumbers(orders: seq<ProposedOrder>, decisions: seq<RiskDecision>)
    ensures KeysDiffer(orders, OrderNumber) <==>
            forall i, j :: 0 <= i < j < |orders| ==> orders[i].sequenceNumber != orders[j].sequenceNumber
    ensures KeysDiffer(orders, OrderNumber) <==> NoDuplicates(Column(orders, OrderNumber))
    ensures KeysDiffer(decisions, DecisionNumber) <==>
            forall i, j :: 0 <= i < j < |decisions| ==>
              decisions[i].orderSequenceNumber != decisions[j].orderSequenceNumber
    ensures KeysDiffer(decisions, DecisionNumber) <==> NoDuplicates(Column(decisions, DecisionNumber))
  {
    forall i | 0 <= i < |orders| ensures OrderNumber(orders[i]) == Column(orders, OrderNumber)[i] {
    }
    forall i | 0 <= i < |decisions| ensures DecisionNumber(decisions[i]) == Column(decisions, DecisionNumber)[i] {
    }
  }

  lemma PairsFound(orders: seq<ProposedOrder>, decisions: seq<RiskDecision>)
    requires forall k :: k in Column(orders, OrderNumber) <==> k in Column(decisions, DecisionNumber)
    ensures forall i :: 0 <= i < |orders| ==> IsDecided(orders[i], decisions)
    ensures forall j :: 0 <= j < |decisions| ==> IsOrdered(decisions[j], orders)
  {
    var ours, theirs := Column(orders, OrderNumber), Column(decisions, DecisionNumber);
    forall i | 0 <= i < |orders| ensures IsDecided(orders[i], decisions) {
      assert ours[i] in theirs;
      var j :| 0 <= j < |theirs| && theirs[j] == ours[i];
      assert decisions[j].orderSequenceNumber == orders[i].sequenceNumber;
    }
    forall j | 0 <= j < |decisions| ensures IsOrdered(decisions[j], orders) {
      assert theirs[j] in ours;
      var i :| 0 <= i < |ours| && ours[i] == theirs[j];
      assert orders[i].sequenceNumber == decisions[j].orderSequenceNumber;
    }
  }

  lemma NumberIsDecided(orders: seq<ProposedOrder>, decisions: seq<RiskDecision>, i: nat)
    requires i < |orders| && IsDecided(orders[i], decisions)
    ensures Column(orders, OrderNumber)[i] in Column(decisions, DecisionNumber)
  {
    var theirs := Column(decisions, DecisionNumber);
    var j :| 0 <= j < |decisions| && decisions[j].orderSequenceNumber == orders[i].sequenceNumber;
    assert theirs[j] == orders[i].sequenceNumber;
  }

  lemma NumberIsOrdered(orders: seq<ProposedOrder>, decisions: seq<RiskDecision>, j: nat)
    requires j < |decisions| && IsOrdered(decisions[j], orders)
    ensures Column(decisions, DecisionNumber)[j] in Column(orders, OrderNumber)
  {
    var ours := Column(orders, OrderNumber);
    var i :| 0 <= i < |orders| && orders[i].sequenceNumber == decisions[j].orderSequenceNumber;
    assert ours[i] == decisions[j].orderSequenceNumber;
  }

  lemma NumbersShared(orders: seq<ProposedOrder>, decisions: seq<RiskDecision>)
    requires forall i :: 0 <= i < |orders| ==> IsDecided(orders[i], decisions)
    requires forall j :: 0 <= j < |decisions| ==> IsOrdered(decisions[j], orders)
    ensures forall k :: k in Column(orders, OrderNumber) <==> k in Column(decisions, DecisionNumber)
  {
    hide IsDecided, IsOrdered;
    var ours, theirs := Column(orders, OrderNumber), Column(decisions, DecisionNumber);
    forall k ensures k in ours <==> k in theirs {
      if k in ours {
        var i :| 0 <= i < |ours| && ours[i] == k;
        NumberIsDecided(orders, decisions, i);
      }
      if k in theirs {
        var j :| 0 <= j < |theirs| && theirs[j] == k;
        NumberIsOrdered(orders, decisions, j);
      }
    }
  }

  /** Of the identities the metrics have to satisfy, only that of fills and approvals does not follow from the rows. */
  lemma IdentitiesFollow(frames: Frames)
    requires PortfolioMeasured(frames.portfolio) && MeanEquity(frames.portfolio) > 0.0 && FillsMeasured(frames.fills)
    requires SameNumbers(frames.orders, frames.decisions)
    ensures ValidMetrics(MetricsOf(frames)) <==> |frames.fills| == |ApprovedRows(frames.decisions)|
  {
    hide Sum, CountIf, FillsMeasured, PeakThrough, EquityBefore, Chronological, Column, Least, TotalsOf,
      PortfolioMeasured, ApprovedRows, SameNumbers;
    var rows := frames.portfolio;
    TotalsValid(frames.fills);
    DrawdownValid(rows);
    TurnoverValid(frames);
    OrdersReported(frames);
    LastRow(rows);
  }

  lemma TurnoverValid(frames: Frames)
    requires PortfolioMeasured(frames.portfolio) && MeanEquity(frames.portfolio) > 0.0 && FillsMeasured(frames.fills)
    ensures MetricsOf(frames).turnoverRatio >= 0.0
    ensures 0.0 <= MetricsOf(frames).exposureFraction <= 1.0
  {
    hide Sum, CountIf, FillsMeasured, PeakThrough, EquityBefore, Chronological, Column, Least;
    TotalsValid(frames.fills);
    QuotientNonNegative(Sum(frames.fills, ReferenceNotional), MeanEquity(frames.portfolio));
    QuotientNonNegative(CountIf(frames.portfolio, Holds) as real, |frames.portfolio| as real);
  }

  /**
   Frames have metrics exactly when every row can be reported, orders and decisions pair up, and approvals are filled.
   */
  lemma MetricsExistExactly(frames: Frames)
    ensures CalculateMetrics(frames).Some? <==>
            && RowsReportable(frames.portfolio)
            && (forall i :: 0 <= i < |frames.fills| ==> FillReportable(frames.fills[i]))
            && (forall i :: 0 <= i < |frames.orders| ==> OrderReportable(frames.orders[i]))
            && (forall i :: 0 <= i < |frames.decisions| ==> DecisionReportable(frames.decisions[i]))
            && Paired(frames.orders, frames.decisions)
            && |frames.fills| == |ApprovedRows(frames.decisions)|
  {
    hide PortfolioMeasured, FillsMeasured, OrdersMeasured, DecisionsMeasured, SameNumbers, MetricsOf, ValidMetrics,
      MeanEquity, RowsReportable, FillReportable, OrderReportable, DecisionReportable, Paired, KeysDiffer,
      ApprovedRows;
    NoRowsNoMetrics(frames);
    if frames.portfolio != [] {
      RowsChecked(frames.portfolio);
      RecordsChecked(frames);
      NumbersChecked(frames.orders, frames.decisions);
      if && PortfolioMeasured(frames.portfolio) && MeanEquity(frames.portfolio) > 0.0 && FillsMeasured(frames.fills)
         && SameNumbers(frames.orders, frames.decisions)
      {
        IdentitiesFollow(frames);
      }
    }
  }

  lemma NoRowsNoMetrics(frames: Frames)
    ensures frames.portfolio == [] ==> !PortfolioMeasured(frames.portfolio) && !RowsReportable(frames.portfolio)
  {
  }
}
