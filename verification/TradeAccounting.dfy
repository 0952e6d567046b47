/** Round trips: the benchmark's pairing of buy and sell fills, and what its profits add up to. */
module TradeAccounting {
  import opened Trading
  import opened Wrappers
  import opened Aggregates
  import opened OrderCosts
  import opened BacktestEngine
  import opened EngineSafety
  import opened BacktestMetrics
  import opened BacktestResult
  import opened EquityAccounting

  datatype CompletedTrade = CompletedTrade(profit: real, tradeReturn: real)

  /** Completed round trips and the cash change of an entry still open. */
  datatype TradeBook = TradeBook(completed: seq<CompletedTrade>, entry: Option<real>)

  /** What the fill frame guarantees of a fill: a buy spends money. */
  ghost predicate Spends(fills: seq<FillRecord>) {
    forall i :: 0 <= i < |fills| && fills[i].side == Buy ==> fills[i].cashChange < 0.0
  }

  function Post(book: TradeBook, f: FillRecord): TradeBook
    requires book.entry.Some? ==> book.entry.value < 0.0
  {
    if f.side == Buy then
      book.(entry := Some(f.cashChange))
    else if book.entry.Some? then
      var profit := book.entry.value + f.cashChange;
      TradeBook(book.completed + [CompletedTrade(profit, profit / Abs(book.entry.value))], None)
    else
      book
  }

  function BookOf(fills: seq<FillRecord>): (book: TradeBook)
    requires Spends(fills)
    ensures book.entry.Some? ==> book.entry.value < 0.0
  {
    if fills == [] then TradeBook([], None) else Post(BookOf(fills[..|fills| - 1]), fills[|fills| - 1])
  }

  method CompletedTradeProfitAndReturns(fills: seq<FillRecord>) returns (completed: seq<CompletedTrade>)
    requires Spends(fills)
    ensures completed == BookOf(fills).completed
  {
    completed := [];
    var entry: Option<real> := None;
    for i := 0 to |fills|
      invariant Spends(fills[..i])
      invariant BookOf(fills[..i]) == TradeBook(completed, entry)
    {
      assert fills[..i + 1][..i] == fills[..i];
      if fills[i].side == Buy {
        entry := Some(fills[i].cashChange);
      } else if entry.Some? {
        var profit := entry.value + fills[i].cashChange;
        completed := completed + [CompletedTrade(profit, profit / Abs(entry.value))];
        entry := None;
      }
    }
    assert fills[..|fills|] == fills;
  }

  lemma BookSnoc(fills: seq<FillRecord>, f: FillRecord)
    requires Spends(fills) && (f.side == Buy ==> f.cashChange < 0.0)
    ensures Spends(fills + [f]) && BookOf(fills + [f]) == Post(BookOf(fills), f)
  {
    assert (fills + [f])[..|fills|] == fills;
  }

  /** A sell right after a buy, which it completes a trade with. */
  predicate Completes(fills: seq<FillRecord>, s: int) {
    1 <= s < |fills| && fills[s - 1].side == Buy && fills[s].side == Sell
  }

  /** The trade's profit is what buy and sell did to cash, its return the profit's share of what the buy spent. */
  predicate TripOf(t: CompletedTrade, buy: FillRecord, sell: FillRecord) {
    && t.profit == buy.cashChange + sell.cashChange
    && t.tradeReturn * -buy.cashChange == t.profit
  }

  /** The positions of the sells right after a buy, in order. */
  ghost predicate SellsAre(sells: seq<int>, fills: seq<FillRecord>) {
    && (forall a, b :: 0 <= a < b < |sells| ==> sells[a] < sells[b])
    && (forall s :: s in sells <==> Completes(fills, s))
  }

  /** One completed trade for each of these sells and the buy before it. */
  ghost predicate TripsOf(completed: seq<CompletedTrade>, fills: seq<FillRecord>, sells: seq<int>) {
    && |completed| == |sells|
    && (forall k :: 0 <= k < |sells| ==>
          Completes(fills, sells[k]) && TripOf(completed[k], fills[sells[k] - 1], fills[sells[k]]))
  }

  /** An entry is open after a last buy. */
  predicate EntryOf(entry: Option<real>, fills: seq<FillRecord>) {
    entry == if fills != [] && fills[|fills| - 1].side == Buy then Some(fills[|fills| - 1].cashChange) else None
  }

  lemma ShareOfSpent(buy: FillRecord, sell: FillRecord)
    requires buy.cashChange < 0.0
    ensures var profit := buy.cashChange + sell.cashChange;
            TripOf(CompletedTrade(profit, profit / Abs(buy.cashChange)), buy, sell)
  {
  }

  lemma CompletesBefore(fills: seq<FillRecord>, f: FillRecord, s: int)
    ensures s != |fills| ==> (Completes(fills + [f], s) <==> Completes(fills, s))
  {
  }

  lemma SellsGrow(sells: seq<int>, fills: seq<FillRecord>, f: FillRecord)
    requires SellsAre(sells, fills)
    ensures SellsAre(if Completes(fills + [f], |fills|) then sells + [|fills|] else sells, fills + [f])
  {
    var longer, n := fills + [f], |fills|;
    var sells' := if Completes(longer, n) then sells + [n] else sells;
    forall a | 0 <= a < |sells| ensures sells[a] < n {
      assert sells[a] in sells;
    }
    forall s ensures s in sells' <==> Completes(longer, s) {
      CompletesBefore(fills, f, s);
      assert s in sells' <==> s in sells || (s == n && Completes(longer, n));
    }
  }

  lemma TripsKept(completed: seq<CompletedTrade>, fills: seq<FillRecord>, sells: seq<int>, f: FillRecord)
    requires TripsOf(completed, fills, sells)
    ensures TripsOf(completed, fills + [f], sells)
  {
    hide TripOf;
    forall k | 0 <= k < |sells|
      ensures Completes(fills + [f], sells[k])
              && TripOf(completed[k], (fills + [f])[sells[k] - 1], (fills + [f])[sells[k]])
    {
      CompletesBefore(fills, f, sells[k]);
    }
  }

  lemma TripAdded(completed: seq<CompletedTrade>, fills: seq<FillRecord>, sells: seq<int>, t: CompletedTrade, s: int)
    requires TripsOf(completed, fills, sells) && Completes(fills, s) && TripOf(t, fills[s - 1], fills[s])
    ensures TripsOf(completed + [t], fills, sells + [s])
  {
    hide TripOf, Completes;
  }

  lemma TripsGrow(book: TradeBook, fills: seq<FillRecord>, sells: seq<int>, f: FillRecord)
    requires TripsOf(book.completed, fills, sells) && EntryOf(book.entry, fills) && Spends(fills)
    requires book.entry.Some? ==> book.entry.value < 0.0
    ensures var (longer, next) := (fills + [f], Post(book, f));
            && TripsOf(next.completed, longer, if Completes(longer, |fills|) then sells + [|fills|] else sells)
            && EntryOf(next.entry, longer)
  {
    var longer, n := fills + [f], |fills|;
    TripsKept(book.completed, fills, sells, f);
    if Completes(longer, n) {
      var profit := book.entry.value + f.cashChange;
      ShareOfSpent(fills[n - 1], f);
      hide TripsOf, TripOf;
      TripAdded(book.completed, longer, sells, CompletedTrade(profit, profit / Abs(book.entry.value)), n);
    } else {
      hide TripsOf;
    }
  }

  /** What the pairing of any fills returns: one trade for each sell right after a buy. */
  lemma {:induction false} TripsExactly(fills: seq<FillRecord>) returns (sells: seq<int>)
    requires Spends(fills)
    ensures SellsAre(sells, fills) && TripsOf(BookOf(fills).completed, fills, sells)
    ensures EntryOf(BookOf(fills).entry, fills)
  {
    if fills == [] {
      sells := [];
    } else {
      var front, f := fills[..|fills| - 1], fills[|fills| - 1];
      assert Spends(front) && front + [f] == fills;
      BookSnoc(front, f);
      hide SellsAre, TripsOf, EntryOf, Completes, BookOf, Post, Spends;
      sells := TripsExactly(front);
      TripsGrow(BookOf(front), front, sells, f);
      SellsGrow(sells, front, f);
      sells := if Completes(fills, |front|) then sells + [|front|] else sells;
    }
  }

  /** Fills alternate buy, sell, buy, ...; each sell closes exactly the quantity bought before it. */
  ghost predicate Alternating(fills: seq<FillRecord>) {
    forall i :: 0 <= i < |fills| ==>
      && (fills[i].side == Buy <==> i % 2 == 0)
      && (i % 2 == 1 ==> fills[i].quantity == fills[i - 1].quantity)
  }

  function Profit(t: CompletedTrade): real { t.profit }
  function Gain(t: CompletedTrade): real { if t.profit > 0.0 then t.profit else 0.0 }
  function Loss(t: CompletedTrade): real { if t.profit < 0.0 then t.profit else 0.0 }

  function OpenEntry(book: TradeBook): real {
    if book.entry.Some? then book.entry.value else 0.0
  }

  /** What fills, position and cash have to do with each other after any number of sessions. */
  ghost predicate RoundTrips(fills: seq<FillRecord>, cash: real, shares: int) {
    && Alternating(fills)
    && Spends(fills)
    && shares == (if |fills| % 2 == 1 then fills[|fills| - 1].quantity else 0)
    && (|fills| % 2 == 1 ==> shares >= 1)
    && var book := BookOf(fills);
    && (book.entry.Some? <==> |fills| % 2 == 1)
    && |book.completed| == CountIf(fills, IsSell)
    && Sum(book.completed, Profit) == cash - INITIAL_CASH - OpenEntry(book)
  }

  /** Entering from cash, or leaving with the whole position, keeps the books. */
  lemma FillKeepsRoundTrips(fills: seq<FillRecord>, cash: real, shares: int, f: FillRecord)
    requires RoundTrips(fills, cash, shares) && ValidFill(f) && f.cashBefore == cash && f.sharesBefore == shares
    requires f.side == Buy ==> shares == 0 && f.cashChange < 0.0
    requires f.side == Sell ==> f.sharesAfter == 0
    ensures RoundTrips(fills + [f], f.cashAfter, f.sharesAfter)
  {
    hide CountIf, Sum, BookOf;
    FillAlternates(fills, cash, shares, f);
    BookSnoc(fills, f);
    CountSnoc(fills, f, IsSell);
    var book := BookOf(fills);
    if f.side == Sell {
      var profit := book.entry.value + f.cashChange;
      SumSnoc(book.completed, CompletedTrade(profit, profit / Abs(book.entry.value)), Profit);
    }
  }

  lemma FillAlternates(fills: seq<FillRecord>, cash: real, shares: int, f: FillRecord)
    requires RoundTrips(fills, cash, shares) && ValidFill(f) && f.sharesBefore == shares
    requires f.side == Buy ==> shares == 0
    requires f.side == Sell ==> f.sharesAfter == 0
    ensures f.side == Buy <==> |fills| % 2 == 0
    ensures f.side == Sell ==> f.quantity == fills[|fills| - 1].quantity
    ensures Alternating(fills + [f])
  {
    hide CountIf, Sum, BookOf;
  }

  lemma StepKeepsRoundTrips(run: Run, signal: SignalRow, price: PriceRow, costs: CostAssumptions)
    requires SessionInputs(signal, price) && Sound(run.account)
    requires RoundTrips(FillsOf(run.trades), run.account.cash, run.account.shares)
    requires EngineStep(run, signal, price, costs).Ok?
    ensures var next := EngineStep(run, signal, price, costs).value;
            RoundTrips(FillsOf(next.trades), next.account.cash, next.account.shares)
  {
    hide DecideTrade, FillsOf, OrdersOf, DecisionsOf, RoundTrips, ValidFill, Sellable, Max;
    var number := |OrdersOf(run.trades)| + 1;
    var (cash, shares) := (run.account.cash, run.account.shares);
    TradeOutcome(number, signal, price, cash, shares, costs);
    var t := DecideTrade(number, signal, price, cash, shares, costs).value;
    FramesSnoc(run.trades, t);
    if t.Filled? {
      BuySpends(t.fill);
      FillKeepsRoundTrips(FillsOf(run.trades), cash, shares, t.fill);
    } else {
      assert FillsOf(run.trades) + [] == FillsOf(run.trades);
    }
  }

  lemma BuySpends(f: FillRecord)
    requires ValidFill(f)
    ensures f.side == Buy ==> f.cashChange < 0.0
  {
    ProductPositive(f.quantity as real, f.executionPrice);
  }

  lemma {:induction false} RunKeepsRoundTrips(signals: seq<SignalRow>, prices: seq<PriceRow>, costs: CostAssumptions,
                                              n: nat)
    requires ValidInputs(signals, prices) && n <= |signals|
    requires EngineRun(signals, prices, costs, n).Ok?
    ensures var run := EngineRun(signals, prices, costs, n).value;
            RoundTrips(FillsOf(run.trades), run.account.cash, run.account.shares)
  {
    hide EngineStep, FillsOf, OrdersOf, DecisionsOf, RoundTrips, SoundRow;
    if n == 0 {
      NoRowsYet(signals, prices, costs);
      NoTripsYet();
    } else {
      RunKeepsRoundTrips(signals, prices, costs, n - 1);
      EveryRunIsSound(signals, prices, costs, n - 1);
      StepKeepsRoundTrips(EngineRun(signals, prices, costs, n - 1).value, signals[n - 1], prices[n - 1], costs);
    }
  }

  lemma NoTripsYet()
    ensures RoundTrips([], INITIAL_CASH, 0)
  {
  }

  lemma {:induction false} GrossSplits(completed: seq<CompletedTrade>)
    ensures Sum(completed, Gain) + Sum(completed, Loss) == Sum(completed, Profit)
  {
    SumAdds(completed, Gain, Loss, Profit);
  }

  /**
   Long-or-cash accounting of a finished run: fills alternate buys and sells of equal quantities; every sell
   completes one trade; gross profit and gross loss together are the change in cash, leaving out an entry still
   open; and when the account ends flat they are the change in equity.
   */
  lemma RoundTripsAddUp(signals: seq<SignalRow>, prices: seq<PriceRow>, costs: CostAssumptions)
    requires ValidInputs(signals, prices) && signals != []
    requires EngineRun(signals, prices, costs, |signals|).Ok?
    ensures var run := EngineRun(signals, prices, costs, |signals|).value;
            var fills := FillsOf(run.trades);
            && Alternating(fills) && Spends(fills)
            && CalculateMetrics(FramesOf(run)).Some?
            && var (metrics, book) := (CalculateMetrics(FramesOf(run)).value, BookOf(fills));
            var gross := Sum(book.completed, Gain) + Sum(book.completed, Loss);
            && |book.completed| == metrics.sellFillCount
            && gross == metrics.finalCash - INITIAL_CASH - OpenEntry(book)
            && (book.entry.Some? <==> metrics.finalShares > 0)
            && (metrics.finalShares == 0 ==> gross == metrics.finalEquity - INITIAL_CASH)
  {
    hide EngineRun, ResultAccepts, BookOf, Collect, Alternating, Spends, Sum, CountIf, ValidMetrics, PortfolioMeasured,
      FillsMeasured, OrdersMeasured, DecisionsMeasured, SameNumbers, Column, Least;
    var run := EngineRun(signals, prices, costs, |signals|).value;
    OwnResultAccepted(signals, prices, costs);
    RunKeepsRoundTrips(signals, prices, costs, |signals|);
    LastRowIsAccount(signals, prices, costs, |signals|);
    GrossSplits(BookOf(FillsOf(run.trades)).completed);
    var last := run.portfolio[|run.portfolio| - 1];
    if last.shares == 0 {
      assert last.marketValue == 0.0;
    }
  }
}
