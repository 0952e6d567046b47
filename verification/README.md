# Verification of the SPY market agent's core

This project models the parts of the SPY market agent whose mistakes would cost most, and proves what they promise.
Each module follows one component of the repository; methods keep the source's loops and state, functions and
datatypes state what they compute, and lemmas say what holds of every input, run or reachable state.

| component | modules |
|---|---|
| paper execution: durable ledger, submit and reconcile workflows, kill switch | `PaperLedger`, `PaperRepository`, `PaperProtocol`, `PaperOutcomes`, `PaperSafety`, `PaperService` |
| order costs, risk rule, simulator, comparators | `OrderCosts`, `RiskRules`, `RiskReasons`, `BacktestEngine`, `EngineSafety`, `SessionOutcomes`, `ComparatorSignals` |
| audit replay, metrics, result object, accounting | `AuditReplay`, `ReplayTrade`, `ReplayFrames`, `ReplayTheorems`, `BacktestMetrics`, `BacktestResult`, `MetricMeanings`, `Reportable`, `EquityAccounting`, `Drawdowns`, `TradeAccounting` |
| features, labels, splits, leakage, regimes | `Columns`, `Features`, `FeatureValues`, `Datasets`, `Alignment`, `Splits`, `Medians`, `Leakage`, `Regimes`, `RegimeLabels`, `CellMeanings` |
| benchmark artifact workflow | `ArtifactWorkflow`, `ArtifactSafety`, `ArtifactRecovery`, `ArtifactDamage`, `ArtifactOutcomes`, `ArtifactContents`, `BenchmarkVerification`, `BenchmarkPipeline` |
| report printer | `MarkdownReport` |
| shared | `Wrappers`, `Trading`, `Naturals`, `Sequences`, `Aggregates`, `KeyedSums` |

`dafny verify dfyconfig.toml` checks everything.

## How the world is idealised

- Decimal and float values are real numbers; conversions between them are the identity and every closeness tolerance
  is zero. Logarithm and square root are arbitrary functions.
- A checksum is a constructor applied to the content, so it is injective.
- Dates and timestamps are integers; identifiers and fingerprints are strings compared for equality.
- A repository method is one transaction. It may commit, be lost, or commit without reporting so. A process may die
  before any broker call, transaction or artifact write, and inside an artifact write, which then leaves its temporary
  file.
- A runtime, that is commit, interpreter and dependency versions, is one number, and a benchmark report is its stage and
  a number.
- The broker answers anything. Its one promise is that a request that could not be built was not sent; after every
  other reply it may hold the order.
- Between any two calls of a paper-execution workflow, other processes and the operator may make any moves the protocol
  has (`PaperService.PaperExecutionService.Preempt`). All other code runs alone.
- An order snapshot may match, contradict its row, or hold a field that cannot be read.
- The risk rule is modelled as written, not assumed.

## Where the code falls short

- The audit replay does not pin the symbol of a rejected order (`ReplayTheorems.ForeignSymbolReplays`); the metric
  calculation does, which is why `BacktestResult.ResultIsTheRun` needs no condition on symbols.
- A death inside any artifact write is final. Its temporary file fails every later verification, stops every later
  index, and no command removes it (`ArtifactDamage.TornWriteIsFinal`).
- A validation that dies after its first and before its fifth artifact leaves a directory no command can repair
  (`ArtifactOutcomes.ValidationCrashOutcome` gives the exact condition), because a second validation first verifies
  the directory and finds unexpected artifacts.
- A final test that dies after writing its access record and before its index is stranded for good, even when its
  completion record is already there: no commands lead to a tested directory that verifies
  (`ArtifactOutcomes.TestCrashOutcome` gives the exact condition, and `ArtifactOutcomes.LockableExactly` and
  `ArtifactOutcomes.TestableExactly` say of every directory what can still become of it).
- Neither locking nor validation checks that the test was already completed. Locking again
  (`ArtifactDamage.LockingAgainUnverifies`) and validating again (`ArtifactDamage.ValidatingAgainUnverifies`) each leave
  a completed directory that no longer verifies. The exact condition on command, contents, runtime and death is
  `ArtifactDamage.HarmlessExactly`, over whole histories `ArtifactDamage.CompletedStaysVerified`. The damage cannot be
  undone (`ArtifactDamage.DamageIsPermanent`), though an audit replay goes on passing
  (`ArtifactSafety.AuditKeepsPassing`).
- A code span over empty text or over nothing but spaces does not read back
  (`MarkdownReport.CodeSpanRoundTrip` gives the exact condition).

## Model

| member | source | states |
|---|---|---|
| `PaperLedger.EveryHistoryKeepsChains` | src/spy_market_agent/execution/repository.py:179-467 | Whatever transactions callers commit, in whatever order and with whatever arguments, every row keeps its identity, no row leaves a terminal status, ranks never fall, and each attempt's events stay one unbroken chain ending in the row's status. |
| `PaperLedger.ReserveKeepsInv` | src/spy_market_agent/execution/repository.py:179-271 | A reservation that commits uses a client_order_id not seen before and keeps identifiers and (symbol, session) unique and all chains whole. |
| `PaperLedger.TransitionKeepsInv` | src/spy_market_agent/execution/repository.py:297-331 | Rewriting one row along an allowed transition, with its event, keeps the ledger's invariants and only advances that row. |
| `PaperLedger.SwitchKeepsInv` | src/spy_market_agent/execution/repository.py:121-177 | Writing the kill switch adds an event and changes no attempt. |
| `PaperLedger.CommitKeepsInv` | src/spy_market_agent/execution/repository.py:273-467 | Every transaction, accepted or refused and rolled back, keeps the ledger's invariants and only advances rows. |
| `PaperLedger.EventsNeverGoBack` | src/spy_market_agent/execution/repository.py:628-660 | Any two events of one attempt, in the order written: the earlier did not end in a terminal state, the later starts no lower than the earlier ended, and neighbouring events link up exactly. |
| `PaperLedger.RowIsLastEvent` | src/spy_market_agent/execution/repository.py:628-660 | A row's status is the new state of its last event, and its first event is the reservation from nothing. |
| `PaperLedger.TrailOnlyAdvances` | src/spy_market_agent/execution/repository.py:56-71 | Along an unbroken trail the rank reserved < submission_unknown < terminal never falls, and a terminal state is never left. |
| `PaperLedger.ReceiptRecordedExactly` | src/spy_market_agent/execution/repository.py:273-345 | A receipt is recorded exactly over a row with its identity that is reserved, or, to reconcile it, unknown; the row then carries what the broker said. |
| `PaperLedger.MarkedExactly` | src/spy_market_agent/execution/repository.py:347-467 | A mark is written exactly over the statuses it may replace, and then sets status and failure code and nothing else. |
| `PaperLedger.SwitchSetExactly` | src/spy_market_agent/execution/repository.py:121-177 | The switch is written exactly unless it would be released without confirmation, and then stands as asked, with its event. |
| `PaperRepository.SQLitePaperExecutionRepository.constructor` | src/spy_market_agent/persistence/schema.py:328-334 | A fresh ledger holds no rows and an engaged switch, and satisfies every ledger invariant. |
| `PaperRepository.SQLitePaperExecutionRepository.SetKillSwitch` | src/spy_market_agent/execution/repository.py:121-177 | Exactly the specified transaction, under every write fate; disengaging needs the confirmation. |
| `PaperRepository.SQLitePaperExecutionRepository.ReserveAttempt` | src/spy_market_agent/execution/repository.py:179-271 | Exactly the specified reservation, under every write fate; success returns the row as stored. |
| `PaperRepository.SQLitePaperExecutionRepository.RecordReceipt` | src/spy_market_agent/execution/repository.py:273-345 | Exactly the specified receipt transaction: transition table, lineage and order terms checked before the row changes. |
| `PaperRepository.SQLitePaperExecutionRepository.MarkSubmissionUnknown` | src/spy_market_agent/execution/repository.py:347-406 | Exactly the specified transaction; only reserved and submission_unknown rows can be marked. |
| `PaperRepository.SQLitePaperExecutionRepository.MarkFailure` | src/spy_market_agent/execution/repository.py:408-467 | Exactly the specified transaction; only blocked and rejected can be written, only over reserved. |
| `PaperRepository.SQLitePaperExecutionRepository.UnresolvedSubmissionCount` | src/spy_market_agent/execution/repository.py:527-589 | Counts exactly the rows that are reserved or submission_unknown. |
| `PaperSafety.StepKeepsInv` | src/spy_market_agent/execution/service.py:108-371 | Every move of every process, write outcome, kill-switch write or death keeps the protocol invariant. |
| `PaperSafety.RunKeepsInv` | src/spy_market_agent/execution/service.py:108-371 | The invariant holds after every interleaving of any number of submitters, reconcilers, switch writers, lost writes and deaths, from any ledger earlier runs may have left. |
| `PaperSafety.AtMostOnceSubmission` | src/spy_market_agent/execution/service.py:150-259 | In every reachable world two sends to the broker that share a client_order_id, signal_id, approval_id or execution session are the same send. |
| `PaperSafety.NoLostOrder` | src/spy_market_agent/execution/service.py:208-371 | Every order ever sent has its row, with the identity sent; the row is unresolved and counted as such, or accepted after a returned order, reconciled, or rejected after a definitive rejection. |
| `PaperSafety.BlockedWasNeverSent` | src/spy_market_agent/execution/service.py:156-219 | A row that is blocked or broker_existing_order_found was never sent by any process of this service. |
| `PaperSafety.SendsAreGated` | src/spy_market_agent/execution/service.py:208-219 | Every send follows, in this order, its reservation under an approval that names its instruction and is later than it, a clock read inside the open execution session before expiry and after approval, and a read of the durable kill switch at a moment when the switch was off. |
| `PaperSafety.ReconcileResolves` | src/spy_market_agent/execution/service.py:311-371 | From any reachable world, one reconcile of an unresolved attempt against a broker that returns a SPY paper order on the supported terms with the row's identifier, side and quantity, with working writes, ends with that row reconciled, carrying the order's own identifier and status, and resolves exactly that attempt. |
| `PaperOutcomes.ReceiptExactly` | src/spy_market_agent/execution/service.py:708-776 | A broker order becomes a receipt exactly when its identifier, symbol, side, quantity, terms and environment are those of the row and its fields are sound; the receipt repeats the order field by field. |
| `PaperOutcomes.ReservationExactly` | src/spy_market_agent/execution/repository.py:179-271 | A reservation commits exactly when identifier, signal, approval and execution session are free, and then adds the reserved row and its event. |
| `PaperOutcomes.SubmissionEnds` | src/spy_market_agent/execution/service.py:108-309 | A submission that others at most interrupt with kill-switch writes leaves the row of its attempt, failure code, broker fields and events included, exactly as a table of its inputs says; without such writes it is known beforehand whether it reserves. |
| `PaperOutcomes.ReconciliationEnds` | src/spy_market_agent/execution/service.py:311-371 | A reconciliation under the same conditions leaves the row of its attempt exactly as its table says. |
| `PaperService.PaperExecutionService.SubmitApprovedOrder` | src/spy_market_agent/execution/service.py:108-309 | Whatever the broker answers, whichever writes fail and whatever other processes and the operator do between any two of its calls, the workflow extends one run of the protocol by one submitter taken from start to end and returns a receipt exactly when its last step wrote it, as the broker's order says. Undisturbed, the repository's row and its events afterwards are those the ending table gives for instruction, approval and broker: rejected after a definitive refusal, blocked after a request not built, a closed clock or an engaged or unreadable switch, unknown after an unclear outcome or a contradicting order. |
| `PaperService.SucceedsExactlyWhen` | src/spy_market_agent/execution/service.py:108-309 | An undisturbed submission ends with a receipt if and only if every gate is passed, the reservation commits, the broker returns an order with the reserved identifier, side, quantity and terms, and the receipt is written: no row stands in the way of its own receipt. |
| `PaperService.ReconcileSucceedsExactly` | src/spy_market_agent/execution/service.py:311-371 | A reconciliation yields a receipt if and only if the attempt is unresolved, the broker returns an order with its identifier, side, quantity and terms, and the receipt is written. |
| `PaperService.PaperExecutionService.ReserveAndSubmit` | src/spy_market_agent/execution/service.py:150-309 | The same from the reservation on, with interference at every call: a receipt is returned exactly when the last step wrote it; undisturbed, exactly when the reservation commits and what follows succeeds. |
| `PaperService.PaperExecutionService.ReconcileByClientOrderId` | src/spy_market_agent/execution/service.py:311-371 | With interference at every call, the workflow extends the protocol run by one reconciler taken from start to end and returns a receipt exactly when its last step wrote it; undisturbed, the row ends reconciled, with what the broker's order says, exactly when the attempt is unresolved and that order has its identifier, side, quantity and terms, unknown when the order contradicts it, and unchanged when there is none. |
| `PaperService.PaperExecutionService.RefreshPreSubmissionClock` | src/spy_market_agent/execution/service.py:404-457 | Passes exactly when the second clock read succeeds, admits the instruction and keeps the approval valid, and then leaves that read in the log; otherwise the row is marked and the workflow ends. |
| `PaperService.PaperExecutionService.AssertFinalKillSwitchGate` | src/spy_market_agent/execution/service.py:373-402 | Passes exactly when a read of the durable switch made during the call, whatever was read before and whoever wrote meanwhile, finds it off; it is still off on return. Otherwise the row is marked and the workflow ends. |
| `PaperService.PaperExecutionService.SubmitAndRecord` | src/spy_market_agent/execution/service.py:218-309 | After the submit call: a returned receipt holds the identifier, side, quantity and status of the broker's order, which are those of the row, and is recorded as accepted; only a request that was never built is reported as not sent, and only a refusal as rejected. |
| `PaperService.PaperExecutionService.AdoptExistingOrder` | src/spy_market_agent/execution/service.py:177-207 | An order the broker already holds is recorded instead of submitted, or the attempt is marked unknown. |
| `PaperService.PaperExecutionService.ServiceRunsAreProtocolRuns` | src/spy_market_agent/execution/service.py:108-371 | Between any calls of the service, by any processes with any interference, the world is a reachable one of the protocol, so at-most-once submission, gated sends and no lost order hold, and the ledger in the repository is sound. |
| `OrderCosts.AffordableQuantityIsLargest` | src/spy_market_agent/backtesting/costs.py:179-209 | The floor-division quantity is the largest whole-share buy whose estimate leaves cash non-negative, for every cash, price and cost. |
| `OrderCosts.CashChangeDecomposes` | src/spy_market_agent/backtesting/costs.py:145-164 | An order's cash change is its reference notional, signed, less exactly its total transaction cost. |
| `OrderCosts.EstimateSigns` | src/spy_market_agent/backtesting/costs.py:116-176 | Signs of every estimate: a buy spends, and a sell earns exactly when commission stays below the notional. |
| `OrderCosts.SellPriceable` | src/spy_market_agent/backtesting/costs.py:129-144 | A sell can be priced exactly when slippage is below the whole price. |
| `OrderCosts.CostsInBasisPoints` | src/spy_market_agent/backtesting/costs.py:116-176 | In every estimate commission is the configured basis points of the executed notional, slippage those of the reference notional, the price lies that share above the reference for a buy and below it for a sell, and cash moves by executed notional and commission. |
| `OrderCosts.AffordableExactly` | src/spy_market_agent/backtesting/costs.py:179-209 | The sized quantity is the largest number of shares the cash covers at the reference price and the configured basis points. |
| `OrderCosts.RefusedExactly` | src/spy_market_agent/backtesting/costs.py:116-209 | An estimate is refused exactly for a quantity below one, a reference price not positive, or a sell whose slippage takes the whole price, in this order; sizing exactly for negative cash or a reference price not positive. |
| `RiskRules.EvaluateOrderRisk` | src/spy_market_agent/risk/rules.py:96-286 | Every decision the rule returns satisfies the RiskDecision constructor and carries the order's own sequence number. |
| `RiskRules.DecisionIgnoresSequence` | src/spy_market_agent/risk/rules.py:96-286 | The rule only copies the sequence number: renumbering an order renumbers its decision and changes nothing else. |
| `RiskRules.ApprovalProjectsTheFill` | src/spy_market_agent/risk/rules.py:190-286 | An approved order is a SPY order that agrees with the account, and its projection is the account after the fill, with no debt and no short position. |
| `RiskRules.BuyApprovedIffAffordable` | src/spy_market_agent/risk/rules.py:190-286 | A correctly priced buy out of cash is approved exactly when the cash covers it. |
| `RiskReasons.DecisionExactly` | src/spy_market_agent/risk/rules.py:96-286 | A decision approves exactly when no reason holds; a refusal gives every reason that holds, once and in the rule's order, and leaves the account as it is; each reason is given in terms of order, account and basis points, and an approval projects the account after the order. |
| `RiskReasons.DecisionExists` | src/spy_market_agent/risk/rules.py:96-286 | The rule returns a decision if and only if the account is sound, the number is positive, and an approval would leave neither debt nor a short position. |
| `BacktestEngine.RunSignalBacktest` | src/spy_market_agent/backtesting/engine.py:440-530 | The loop's four frames are those of the specified run, or its first error, for every input. |
| `EngineSafety.TradeOutcome` | src/spy_market_agent/backtesting/engine.py:180-285 | What one signal leads to: a refusal exactly when a position must be sold and cannot be; no trade exactly when target and position agree; only entries are rejected; a sale leaves no shares and some cash. |
| `EngineSafety.TradeIgnoresNumber` | src/spy_market_agent/backtesting/engine.py:180-285 | The sequence number plays no part in what a signal leads to. |
| `EngineSafety.EveryRunIsSound` | src/spy_market_agent/backtesting/engine.py:461-525 | In every state of every run cash and shares are non-negative and equity is positive, so every return exceeds -1 and every drawdown lies above -1 and not above 0. |
| `EngineSafety.StopsOnlyWhenUnsellable` | src/spy_market_agent/backtesting/engine.py:461-525 | A run stops at a signal exactly when that signal closes a position that slippage or commission makes unsellable. |
| `EngineSafety.SellableRunsFinish` | src/spy_market_agent/backtesting/engine.py:461-525 | With both rates below 1 every run finishes. |
| `SessionOutcomes.RunExactly` | src/spy_market_agent/backtesting/engine.py:440-530 | Every session of every run: no order exactly when target and position agree, otherwise an order for the whole position or for the most shares the cash covers, refused exactly when the cash does not cover one; order, decision, fill and closing row hold the amounts that open, close, basis points and the row before give them. |
| `SessionOutcomes.TradeIsDetermined` | src/spy_market_agent/backtesting/engine.py:180-285 | Those conditions leave one trade for a session, up to its number. |
| `ComparatorSignals.SignalSetFromProbabilities` | src/spy_market_agent/benchmark/strategies.py:209-289 | Builds a signal set if and only if there are as many signals as probabilities and at least one, market and signal sessions increase, every signal session has a next one, every probability lies in [0, 1], and the signals lie in the preferred test range or have two sessions before them. Each signal executes at the next session, long from probability one half on; outside the preferred range the split is made for the signals. |
| `ComparatorSignals.BuildableIsAccepted` | src/spy_market_agent/strategies/models.py:273-494 | The constructor's own checks, increasing executions, adjacency, split bounds and threshold among them, refuse nothing that the building steps let through beyond those conditions. |
| `ComparatorSignals.BuiltSignalsAreValid` | src/spy_market_agent/backtesting/engine.py:74-104 | Signals built for increasing sessions of a valid history, with that history's prices, satisfy everything the results about the simulator ask of their inputs. |
| `ComparatorSignals.HeldSignalsExist` | src/spy_market_agent/benchmark/strategies.py:386-397 | Buy and hold signals exist exactly when the first entry has a session before it and is no later than the exit. |
| `ComparatorSignals.HeldSignalsHold` | src/spy_market_agent/benchmark/strategies.py:386-397 | They enter at the first entry session, stay long, and leave at the final exit session. |
| `ComparatorSignals.BuyAndHoldEndsFlat` | src/spy_market_agent/benchmark/strategies.py:386-397 | Run through the simulator, buy and hold makes at most one round trip of one quantity and ends flat; it trades exactly when some open before the exit is affordable. |
| `ComparatorSignals.AlwaysCashNeverTrades` | src/spy_market_agent/benchmark/strategies.py:71-86 | Always cash never trades and keeps the initial cash. |
| `ComparatorSignals.MomentumTargets` | src/spy_market_agent/benchmark/strategies.py:400-412 | One target per known session, equal to the momentum rule at that session's row. |
| `ComparatorSignals.MomentumLooksBack` | src/spy_market_agent/benchmark/strategies.py:400-412 | A session is long exactly when its close is above the close twenty sessions before; later prices play no part. |
| `AuditReplay.IndexOrders` | src/spy_market_agent/backtesting/models.py:1969-1991 | Accepts exactly valid, correctly priced orders numbered 1, 2, 3, ... in row order, and files them by signal. |
| `AuditReplay.IndexDecisions` | src/spy_market_agent/backtesting/models.py:1993-2008 | Accepts exactly valid decisions, one per order number, and indexes them. |
| `AuditReplay.IndexFills` | src/spy_market_agent/backtesting/models.py:2010-2019 | Accepts exactly valid fills, at most one per number, and indexes them. |
| `AuditReplay.MatchOrdersToSignals` | src/spy_market_agent/backtesting/models.py:2021-2043 | Accepts exactly when every order belongs to one signal with that signal's target and no signal has two orders. |
| `AuditReplay.ReplaySignals` | src/spy_market_agent/backtesting/models.py:2045-2272 | The chronological pass accepts exactly what the specified replay accepts, and consumes the same fills. |
| `AuditReplay.ValidateAuditReplay` | src/spy_market_agent/backtesting/models.py:1939-2280 | The whole checker accepts frames exactly when the specified checks hold. |
| `ReplayTrade.ReplayedIsDecided` | src/spy_market_agent/backtesting/models.py:1803-1936 | A recorded trade that passes the chronological checks is the trade the simulator decides on from the same account. |
| `ReplayTrade.DecidedReplays` | src/spy_market_agent/backtesting/engine.py:180-285 | The simulator's trade passes every check the audit makes of it. |
| `ReplayTheorems.AcceptedFramesRecordTheRun` | src/spy_market_agent/backtesting/models.py:1939-2280 | Soundness: accepted SPY frames with one portfolio row per signal are the one run of the inputs: the same portfolio, and per signal the same order, decision and fill under other sequence numbers. |
| `ReplayTheorems.RunFramesAccepted` | src/spy_market_agent/backtesting/models.py:1939-2280 | Completeness: every finished run, under any renumbering and any order of decision and fill rows, is accepted. |
| `ReplayTheorems.ReplayAcceptsExactlyTheRun` | src/spy_market_agent/backtesting/models.py:1939-2280 | The two independently written programs agree: SPY frames with the right row count are accepted if and only if the simulator finishes and they record its run. |
| `ReplayTheorems.RenumberingIsBijective` | src/spy_market_agent/backtesting/models.py:1969-1991 | In accepted frames each number 1 to n belongs to exactly one of the signals that traded. |
| `ReplayTheorems.OwnNumbering` | src/spy_market_agent/backtesting/engine.py:478-480 | The simulator numbers its orders 1, 2, 3, ... in time order. |
| `ReplayTheorems.OwnFramesAccepted` | src/spy_market_agent/backtesting/engine.py:440-530 | The simulator's own frames are always accepted. |
| `ReplayTheorems.ForeignSymbolReplays` | src/spy_market_agent/backtesting/models.py:1803-1833 | Why the symbol has to be checked elsewhere: for every other symbol there are frames with a rejected order that the replay accepts and the simulator never writes. |
| `BacktestMetrics.MeasurePortfolio` | src/spy_market_agent/backtesting/metrics.py:120-198 | Accepts exactly the portfolio frames whose every row accounts for the equity before it and the peak up to it, and returns their columns. |
| `BacktestMetrics.MeasureFills` | src/spy_market_agent/backtesting/metrics.py:201-324 | Accepts exactly frames of valid fills and returns their totals and side counts. |
| `BacktestMetrics.MeasureOrders` | src/spy_market_agent/backtesting/metrics.py:327-385 | Accepts exactly frames of SPY orders with unique numbers. |
| `BacktestMetrics.MeasureDecisions` | src/spy_market_agent/backtesting/metrics.py:388-465 | Accepts exactly frames of valid decisions with unique numbers, and counts approvals. |
| `BacktestMetrics.CalculateBacktestMetrics` | src/spy_market_agent/backtesting/metrics.py:468-559 | The calculation returns the specified metrics, or none when a check or a BacktestMetrics identity fails; MetricsExactly and MetricsExistExactly say what they are and when there are any. |
| `BacktestMetrics.ValidatePortfolioFrame` | src/spy_market_agent/backtesting/models.py:1225-1313 | The result's own loop accepts exactly the frames that account for every session. |
| `Reportable.MetricsExistExactly` | src/spy_market_agent/backtesting/metrics.py:120-559 | Frames have metrics if and only if the first session closes with equity, every row, fill, order and decision is sound in itself, orders and decisions pair up by number, and there are as many fills as approvals: no other identity of the metrics can fail. |
| `MetricMeanings.MetricsExactly` | src/spy_market_agent/backtesting/metrics.py:518-559 | Every reported number: exposure times the sessions is the number of sessions that close with a share, turnover times the sum of the equities is the sessions times the traded reference notional, maximum drawdown is the deepest of the rows, total return is final over initial equity, totals and counts are those of the rows. |
| `MetricMeanings.CostsReported` | src/spy_market_agent/backtesting/metrics.py:521-534 | In an accepted result every fill was made at the open of a session of the inputs and costs what the basis points make of it, and reported commission and slippage are those basis points of the reported executed and reference notionals. |
| `MetricMeanings.CashReportsNothing` | src/spy_market_agent/backtesting/metrics.py:518-559 | An accepted result for signals that never ask for a position reports no exposure, turnover, fill, cost, return or drawdown. |
| `BacktestResult.RunIsMeasured` | src/spy_market_agent/backtesting/engine.py:504-525 | Every row a run writes accounts for its session against the equity before it and the peak up to it. |
| `BacktestResult.OrderAndDecisionNumbers` | src/spy_market_agent/backtesting/models.py:2659-2679 | In frames the replay reconstructs, orders and decisions carry the same numbers, each once. |
| `BacktestResult.FillAndApprovalNumbers` | src/spy_market_agent/backtesting/models.py:2680-2695 | The numbers filled are exactly the numbers approved. |
| `BacktestResult.RenumberedRunAccepted` | src/spy_market_agent/backtesting/models.py:2608-2941 | Completeness of the result object: a finished run, renumbered and reordered in any way, has metrics and is accepted with them. |
| `BacktestResult.ResultIsTheRun` | src/spy_market_agent/backtesting/models.py:2608-2941 | The result accepts frames and metrics if and only if there is a signal, the simulator finishes, the frames record its run, and the metrics are the calculated ones. |
| `BacktestResult.OwnResultAccepted` | src/spy_market_agent/backtesting/engine.py:527-623 | The result never rejects the simulator's own output. |
| `EquityAccounting.CashIsTraded` | src/spy_market_agent/backtesting/engine.py:461-503 | At every point of a run cash is what trading at reference prices leaves, less the transaction costs so far. |
| `EquityAccounting.EquityDecomposes` | src/spy_market_agent/backtesting/metrics.py:521-557 | For every accepted result final equity is initial cash less bought and plus sold reference notionals, plus the open position at the last close, less exactly the reported total transaction cost. |
| `Drawdowns.MaximumDrawdown` | src/spy_market_agent/benchmark/metrics.py:168-178 | For every curve the one-pass result is the lowest fall of a point below a positive running peak, or zero; for a positive curve that is the lowest change from any point to a later one. |
| `Drawdowns.LowestDrawdownIsWorstDrop` | src/spy_market_agent/backtesting/metrics.py:535 | The lowest drawdown column entry is the lowest change over all pairs of points, initial cash included. |
| `Drawdowns.LeavingOutInitialCash` | src/spy_market_agent/benchmark/metrics.py:168-178 | The benchmark's drawdown is never deeper than the reported one; they agree exactly when no fall below initial cash beats it, in particular when the first equity is not below it. |
| `Drawdowns.ReturnsCompound` | src/spy_market_agent/backtesting/engine.py:506-508 | The product of (1 + daily return) is the ratio of equity to initial cash. |
| `Drawdowns.MetricsMeanWhatTheySay` | src/spy_market_agent/backtesting/models.py:788-923 | In an accepted result total return is the compounded daily returns less one, and maximum drawdown is the worst drop over the account's whole history and lies in [0, 1]. |
| `TradeAccounting.CompletedTradeProfitAndReturns` | src/spy_market_agent/benchmark/strategies.py:349-363 | The pairing loop returns the specified round trips with profit and return. |
| `TradeAccounting.TripsExactly` | src/spy_market_agent/benchmark/strategies.py:349-363 | For any fills: one trade for each sell right after a buy, in order, whose profit is what the two did to cash and whose return is the profit's share of what the buy spent; a last buy stays open. |
| `TradeAccounting.RunKeepsRoundTrips` | src/spy_market_agent/benchmark/strategies.py:349-363 | Throughout a run fills alternate buy and sell with equal quantities, each sell completes one trade, and realised profit plus the open entry is the change in cash. |
| `TradeAccounting.RoundTripsAddUp` | src/spy_market_agent/benchmark/strategies.py:315-346 | Completed trades number the sell fills; gross profit and gross loss add up to the change in cash without an open entry, and to the change in equity when flat. |
| `Features.FeatureLooksBack` | src/spy_market_agent/features/engineering.py:41-88 | The first n entries of each of the twelve features depend only on the first n bars. |
| `Features.FeatureRowLooksBack` | src/spy_market_agent/features/engineering.py:50-102 | Whether a feature row exists and what it holds depends only on bars up to its own. |
| `Features.FeaturesAlwaysBuilt` | src/spy_market_agent/features/engineering.py:28-102 | More than twenty bars give exactly one defined feature row per bar after the warm-up; twenty or fewer are refused; the undefined-feature branch is never taken. |
| `FeatureValues.FeaturesExactly` | src/spy_market_agent/features/engineering.py:28-102 | Refused up to twenty bars; otherwise one row for each later bar whose twelve values, in the order of FEATURE_COLUMNS, are the 1-, 5- and 20-day returns, overnight gap, intraday return, range, distances from the 5- and 20-day means, 5- and 20-day deviations of returns and the two log-volume features of the bars up to it. |
| `Features.WarmupIsNecessary` | src/spy_market_agent/features/engineering.py:47-90 | No row inside the warm-up has all its features, so no shorter warm-up would do. |
| `Datasets.BuildForwardLabelSet` | src/spy_market_agent/datasets/labels.py:29-73 | The loop labels exactly the sessions with an exit six sessions on, with the specified returns and target. |
| `Datasets.PositiveLabelEarnsItsCosts` | src/spy_market_agent/datasets/labels.py:47-69 | A label is positive exactly when selling six sessions on, after costs, brings more than buying at the next open costs. |
| `Datasets.LabelsExactly` | src/spy_market_agent/datasets/labels.py:29-73 | Refused up to six bars; otherwise one label for each bar with six more after it, with the sessions one and six on, gross and net return of their opens, and the target. |
| `Alignment.AlignmentOutcome` | src/spy_market_agent/datasets/models.py:722-794 | For features and labels of any increasing sessions: refused exactly when no session is shared, else when a feature session within the label span has no label, else when a label within the feature span has no features. |
| `Alignment.AlignedExactly` | src/spy_market_agent/datasets/models.py:778-794 | What comes out holds, in order and side by side, exactly the rows whose session both sides have. |
| `Datasets.AlignmentIsPositional` | src/spy_market_agent/datasets/models.py:722-794 | Features and labels of one history align by position; the only possible refusal is a history with no common session. |
| `Splits.DatePurgeIsSlice` | src/spy_market_agent/datasets/splits.py:414-500 | Given the dates of any run of consecutive rows, the date-based partitioner selects exactly those rows and purges exactly the next six, or as many as there are. |
| `Splits.SixIsTheLeastGap` | src/spy_market_agent/datasets/splits.py:53-104 | The derived date bounds are valid if and only if the gap has at least six rows. |
| `Splits.LayoutAlwaysFits` | src/spy_market_agent/benchmark/splits.py:176-242 | The layout fails exactly when no rows are assignable; the remainder and empty-final-test branches are never taken. |
| `Splits.ConstructionOutcome` | src/spy_market_agent/benchmark/splits.py:78-173 | Every outcome of the construction: positional slices and date purges never disagree; only too few rows or too few labels of a kind are refused; six, six and no rows are purged. |
| `Splits.SplitExactly` | src/spy_market_agent/benchmark/splits.py:78-242 | With a and b the whole parts of 70 and 15 hundredths of the rows that two gaps of six leave: the first a rows train, six are left out, b validate, six are left out, the rest is the final test; refused exactly when a part is empty or misses its minimum of rows, positives or negatives. |
| `Splits.MalformedIsRefused` | src/spy_market_agent/benchmark/splits.py:84-102 | Features and labels of different number, and sessions that do not strictly increase, are refused before anything else. |
| `Splits.SessionsTile` | src/spy_market_agent/benchmark/splits.py:137-160 | The seven session lists of the manifest, end to end, are the source sessions. |
| `Splits.ManifestExactly` | src/spy_market_agent/benchmark/splits.py:116-173 | Each of the manifest's seven session lists is the stated stretch of the source sessions. |
| `Medians.MedianHalves` | src/spy_market_agent/benchmark/regimes.py:44-48 | At most half of the values lie above the computed median and at most half below. |
| `RegimeLabels.ThresholdExactly` | src/spy_market_agent/benchmark/regimes.py:28-48 | The frozen threshold is the median of the annualised twenty-return deviations of exactly the given sessions that have one, and zero when none has. |
| `Leakage.SplitComesFrom` | src/spy_market_agent/benchmark/splits.py:78-173 | Each partition of a successful split is made of stated consecutive bars of the history. |
| `Leakage.HistoryIsTiled` | src/spy_market_agent/benchmark/splits.py:137-160 | For every history that can be split, the manifest's seven lists tile its sessions. |
| `Leakage.TrainIgnoresLaterPrices` | src/spy_market_agent/benchmark/splits.py:78-173 | Histories with the same sessions that agree before validation starts give the same training features, labels and volatility threshold. |
| `Leakage.SelectionIgnoresTestPrices` | src/spy_market_agent/benchmark/splits.py:78-173 | Histories with the same sessions that agree before the final test starts give the same training and validation features and labels and the same threshold. |
| `Regimes.RegimesLookBack` | src/spy_market_agent/benchmark/regimes.py:51-85 | With the threshold frozen, a session's regime labels do not depend on later prices. |
| `RegimeLabels.RegimesExactly` | src/spy_market_agent/benchmark/regimes.py:51-85 | Every label of every bar: the trend against the mean of its last 200 closes, unavailable before; the volatility against the threshold, unavailable before the twenty-first bar; a drawdown exactly when the close is at most nine tenths of some close so far; the calendar year. |
| `Regimes.CountConfusion` | src/spy_market_agent/benchmark/metrics.py:25-45 | The counting loop returns the four confusion counts; no rows, a class other than 0 and 1 or a probability that is not finite in [0, 1] is refused. |
| `Regimes.ConfusionPartitions` | src/spy_market_agent/benchmark/metrics.py:36-49 | The four counts partition the rows, the actual positives and the predicted positives. |
| `Regimes.RegimeCells` | src/spy_market_agent/benchmark/regimes.py:149-214 | One entry per cell with that cell's specified diagnostics, the selected model and every baseline included; refused exactly when the predictions of one of them for some cell are empty, not binary or hold an invalid probability. |
| `CellMeanings.DiagnosisExactly` | src/spy_market_agent/benchmark/regimes.py:149-214 | What is filed for a cell: its rows and positives, the small-sample mark, each predictor's four counts over the predictions for its sessions, and each strategy's orders, decisions, fills, amounts, last cash and shares and share of sessions held over its signals. |
| `CellMeanings.RefusedExactly` | src/spy_market_agent/benchmark/regimes.py:162-180 | A cell is refused exactly when some predictor has no prediction for its sessions, or one that cannot be counted. |
| `CellMeanings.CellsExactly` | src/spy_market_agent/benchmark/regimes.py:149-152 | The cells of a regime are the labels that occur. |
| `Regimes.CellsCover` | src/spy_market_agent/benchmark/regimes.py:142-152 | The cells of a regime partition the joined sessions. |
| `Regimes.SamplesConserved` | src/spy_market_agent/benchmark/regimes.py:151-213 | Sample sizes add up to the joined sessions and positive counts to their positives. |
| `Regimes.ConfusionConserved` | src/spy_market_agent/benchmark/regimes.py:162-180 | The confusion counts of the selected model and of every baseline add up, over the cells, to those of all their predictions for joined sessions. |
| `Regimes.StrategyConserved` | src/spy_market_agent/benchmark/strategies.py:415-467 | Orders, fills, costs, slippage and turnover add up, over the cells, to those of all signals in joined sessions. |
| `Regimes.DecisionsConserved` | src/spy_market_agent/benchmark/strategies.py:415-467 | Decisions follow their orders: approved and decided counts add up to those of the joined sessions' orders, each decision in one cell. |
| `Regimes.JoinIsTheLabels` | src/spy_market_agent/benchmark/regimes.py:142-147 | When every label has a regime row, the joined sessions are the labelled ones and their positives the positive labels. |
| `BenchmarkPipeline.BenchmarkArtifactStore.WriteBytes` | src/spy_market_agent/benchmark/artifacts.py:148-316 | Equal content is left alone, other content is a conflict unless it may be replaced, and nothing else changes; a death inside the write leaves a temporary file and the artifact as it was. |
| `BenchmarkPipeline.BenchmarkArtifactStore.WriteIndex` | src/spy_market_agent/benchmark/pipeline.py:884-913 | The index is replaced by one that names the checksum of every other artifact present; a temporary file in the directory stops it. |
| `BenchmarkPipeline.BenchmarkPipeline.PrepareBenchmark` | src/spy_market_agent/benchmark/pipeline.py:165-203 | For a process that dies before or inside any of its writes, the directory is exactly that of the specified attempt. |
| `BenchmarkPipeline.BenchmarkPipeline.RunValidation` | src/spy_market_agent/benchmark/pipeline.py:217-327 | Starts exactly on a directory that verifies, under its lock's runtime; the directory afterwards is exactly that of the specified attempt, wherever the process dies. |
| `BenchmarkPipeline.BenchmarkPipeline.FinalizeLock` | src/spy_market_agent/benchmark/pipeline.py:330-386 | Starts exactly when acknowledged, under the lock's runtime, with all validation artifacts present; the directory afterwards is exactly that of the specified attempt, wherever the process dies. |
| `BenchmarkPipeline.BenchmarkPipeline.RunFinalTest` | src/spy_market_agent/benchmark/pipeline.py:389-525 | Without audit replay: starts exactly on a matching acknowledged lock, under its runtime, with no access record and no results; the directory afterwards is exactly that of the specified attempt, wherever the process dies. |
| `BenchmarkPipeline.BenchmarkPipeline.ReplayFinalTest` | src/spy_market_agent/benchmark/pipeline.py:389-446 | The audit replay, check by check: it changes nothing, passes exactly when every comparison holds, and reports differing results only when the stored ones would have passed. |
| `ArtifactSafety.ArtifactsAreImmutable` | src/spy_market_agent/benchmark/artifacts.py:148-180 | Over every history of commands with deaths before or inside any effect, every artifact but the report and the index never changes once present. |
| `ArtifactSafety.EveryRunIsLinked` | src/spy_market_agent/benchmark/pipeline.py:389-500 | In every reachable directory each checksum in the lock, its checksum file, the selected-model, final-lock, access and completion records names current content, the test's records name the lock's runtime, and the final test was evaluated at most once. |
| `ArtifactSafety.AuditLineageHolds` | src/spy_market_agent/benchmark/pipeline.py:598-672 | The checksum comparisons of an audit replay never fail on a directory that any history of commands completed. |
| `ArtifactSafety.AuditPassesExactly` | src/spy_market_agent/benchmark/pipeline.py:431-446 | On every directory any history leaves, an audit replay passes if and only if the test was completed, the runtime is the lock's and the stored results are those computed anew. |
| `ArtifactSafety.AuditKeepsPassing` | src/spy_market_agent/benchmark/pipeline.py:431-446 | An audit replay that passes goes on passing after any further commands, also those after which the directory no longer verifies. |
| `ArtifactContents.PreparedExactly` | src/spy_market_agent/benchmark/pipeline.py:165-203 | What a preparation of an empty directory leaves, name by name, with an index of all of it. |
| `ArtifactContents.ValidatedExactly` | src/spy_market_agent/benchmark/pipeline.py:217-327 | What a validation adds and replaces, name by name; everything else stays, and the index lists everything. |
| `ArtifactContents.LockedExactly` | src/spy_market_agent/benchmark/pipeline.py:330-386 | The final lock holds the checksums of what it locks and the selected model; everything else stays. |
| `ArtifactContents.TestedExactly` | src/spy_market_agent/benchmark/pipeline.py:419-500 | What a final test adds and replaces, name by name, after exactly one evaluation; everything else stays. |
| `ArtifactContents.WritesInOrder` | src/spy_market_agent/benchmark/pipeline.py:165-500 | A process that dies has touched nothing but the first names of its command's stated order. |
| `ArtifactContents.LockStartsExactly` | src/spy_market_agent/benchmark/pipeline.py:330-361 | On any directory a history leaves, locking starts exactly when acknowledged, on a lock with its validation artifacts, under its runtime. |
| `ArtifactContents.TestStartsExactly` | src/spy_market_agent/benchmark/pipeline.py:389-430 | On any directory a history leaves, the final test starts exactly when acknowledged, on a final lock never accessed, under the lock's runtime. |
| `ArtifactContents.CompletionRecordPins` | src/spy_market_agent/benchmark/verification.py:683-802 | Any two directories that verify with the same completion record, however they came about, hold the same locks, validation artifacts, access record and results. |
| `ArtifactContents.TamperingIsNoticed` | src/spy_market_agent/benchmark/verification.py:221-346 | Changing or removing an indexed file of a directory that verifies, or adding any file, makes it fail. |
| `ArtifactRecovery.InterruptedPrepareResumes` | src/spy_market_agent/benchmark/pipeline.py:165-203 | Preparation interrupted between any two writes and repeated ends as if never interrupted. |
| `ArtifactRecovery.InterruptedLockResumes` | src/spy_market_agent/benchmark/pipeline.py:330-386 | So does locking interrupted between its writes. |
| `ArtifactRecovery.PreparedVerifies` | src/spy_market_agent/benchmark/verification.py:79-109 | Preparing an empty directory gives one that verifies at its stage. |
| `ArtifactRecovery.ValidatedVerifies` | src/spy_market_agent/benchmark/verification.py:79-109 | Validating a directory that verifies as prepared gives one that verifies as validated. |
| `ArtifactRecovery.LockedVerifies` | src/spy_market_agent/benchmark/verification.py:683-723 | Locking a directory with exactly the artifacts up to validation, whatever its index says, gives one that verifies as locked. |
| `ArtifactRecovery.TestedVerifies` | src/spy_market_agent/benchmark/verification.py:726-802 | Testing a directory with exactly the artifacts of the locked stage, whatever its index says, gives one that verifies as tested. |
| `ArtifactDamage.DamageIsPermanent` | src/spy_market_agent/benchmark/pipeline.py:217-525 | Once the final test has been started, a directory that does not verify never verifies again, whatever commands run on it and wherever they die. |
| `ArtifactDamage.HarmlessExactly` | src/spy_market_agent/benchmark/pipeline.py:165-525 | For every command, contents, runtime and death: run on a completed directory that verifies, it leaves one that verifies if and only if it is harmless, and then changes nothing. Preparing and testing again are always harmless; locking again is unless it reaches the index; validating again is unless it repeats what is there and reaches the report. |
| `ArtifactDamage.CompletedStaysVerified` | src/spy_market_agent/benchmark/pipeline.py:165-525 | A completed directory still verifies after any history of further commands and deaths if and only if each of them is harmless on it. |
| `ArtifactDamage.LockVerifiesExactly` | src/spy_market_agent/benchmark/pipeline.py:330-386 | On every reachable directory on which locking starts, its result verifies if and only if preparation is complete and neither an artifact of the final test nor a temporary file is there. |
| `ArtifactDamage.LockingAgainUnverifies` | src/spy_market_agent/benchmark/pipeline.py:384-385 | Locking once more after a completed test makes verification fail, while the audit's checksum comparisons still hold. |
| `ArtifactDamage.ValidatingAgainUnverifies` | src/spy_market_agent/benchmark/pipeline.py:217-319 | On every completed directory the validation that repeats its validation artifacts starts, rewrites report and index, and leaves a directory that does not verify. |
| `ArtifactDamage.TornWriteIsFinal` | src/spy_market_agent/benchmark/artifacts.py:281-316 | After a death inside any write, at any stage, the directory never verifies again and its index never changes again, whatever commands run on it. |
| `ArtifactOutcomes.LockableExactly` | src/spy_market_agent/benchmark/pipeline.py:165-386 | From every directory any history leaves, some commands lead to a verified lock if and only if it holds no temporary file, no access record, and not just a part of a validation. |
| `ArtifactOutcomes.TestableExactly` | src/spy_market_agent/benchmark/pipeline.py:165-525 | From every directory any history leaves, some commands lead to a verified completed test if and only if it is one already or a verified lock can still be reached. |
| `ArtifactOutcomes.PreparationCompletes` | src/spy_market_agent/benchmark/pipeline.py:165-203 | On every directory that only preparations have written to, however often they died between writes, some preparation runs to its end and leaves a directory that verifies. |
| `ArtifactOutcomes.ValidationCrashOutcome` | src/spy_market_agent/benchmark/pipeline.py:217-319 | After a validation that dies, on whatever directory it started, a verified lock can still be reached if and only if the final test was not started, the death was not inside a write, and the validation was complete before or the death came before the first or after the fifth artifact. |
| `ArtifactOutcomes.PreparedValidationTears` | src/spy_market_agent/benchmark/pipeline.py:217-319 | On a prepared directory each of a validation's seven effects is a write a death can tear. |
| `ArtifactOutcomes.TestCrashOutcome` | src/spy_market_agent/benchmark/pipeline.py:419-500 | After a final test that dies, on whatever directory it started, a verified completed test can still be reached if and only if there was no temporary file and the test lived to its end or died before, not inside, the write of its access record. |
| `ArtifactOutcomes.CompletionRecordOutcome` | src/spy_market_agent/benchmark/pipeline.py:419-500 | The completion record alone can still be had if and only if the test died before its access record was written or after the completion record was. |
| `BenchmarkVerification.BenchmarkVerifier.VerifyBenchmarkDirectory` | src/spy_market_agent/benchmark/verification.py:112-169 | Passes exactly on directories that verify; on any other it stops at a missing or unreadable artifact or reports exactly what is wrong; a pass names exactly the artifacts looked at. |
| `BenchmarkVerification.BenchmarkVerifier.VerifyStageArtifacts` | src/spy_market_agent/benchmark/verification.py:221-234 | Reports exactly the artifacts missing from or unexpected at the declared stage. |
| `BenchmarkVerification.BenchmarkVerifier.ValidateKnownArtifacts` | src/spy_market_agent/benchmark/verification.py:237-288 | Stops exactly when an artifact of the stage is missing; otherwise reports exactly the schema failures. |
| `BenchmarkVerification.BenchmarkVerifier.VerifyArtifactIndexHashes` | src/spy_market_agent/benchmark/verification.py:331-346 | Reports exactly the indexed artifacts that are missing or have another checksum. |
| `BenchmarkVerification.BenchmarkVerifier.VerifyFinalLockStage` | src/spy_market_agent/benchmark/verification.py:683-723 | From the locked stage on, reports exactly a wrong checksum in the final lock and a wrong selected model. |
| `BenchmarkVerification.BenchmarkVerifier.VerifyCompletedFinalStage` | src/spy_market_agent/benchmark/verification.py:726-802 | At the tested stage, reports exactly wrong result parts, invalid records, wrong completion checksums and records that name another runtime than the lock. |
| `BenchmarkVerification.VerifiesIffNothingFound` | src/spy_market_agent/benchmark/verification.py:112-169 | A readable directory verifies if and only if no check has anything to report. |
| `BenchmarkVerification.ChangeIsReported` | src/spy_market_agent/benchmark/verification.py:331-346 | One indexed artifact with other content in a directory that verifies is reported by name. |
| `BenchmarkVerification.AdditionIsReported` | src/spy_market_agent/benchmark/verification.py:221-234 | One artifact too many is reported by name. |
| `BenchmarkVerification.RemovalIsReported` | src/spy_market_agent/benchmark/verification.py:221-288 | One missing artifact stops the verification, except for the report and the lock's checksum file, which are reported by name. |
| `BenchmarkVerification.PassChecksEverything` | src/spy_market_agent/benchmark/verification.py:112-169 | A pass has looked at every artifact of the directory, except for a report the index does not list. |
| `MarkdownReport.EscapeRoundTrip` | src/spy_market_agent/intelligence/axiom_reporting.py:425-428 | Undoing backslash escapes and character references (sections 2.4 and 2.5 of CommonMark 0.31.2) on the escaped text gives the text back, for every text and every reference table that knows amp, lt and gt. |
| `MarkdownReport.EscapeIsInjective` | src/spy_market_agent/intelligence/axiom_reporting.py:425-428 | Different texts are printed differently. |
| `MarkdownReport.EscapedExactly` | src/spy_market_agent/intelligence/axiom_reporting.py:38-428 | Escaping goes character by character: exactly the seventeen markup characters get a backslash and exactly ampersand and angle brackets become references. |
| `MarkdownReport.NormalizedHasNoLineEnds` | src/spy_market_agent/intelligence/axiom_reporting.py:441 | Normalised text has no line ends and is the text itself when it had none. |
| `MarkdownReport.NormalizedExactly` | src/spy_market_agent/intelligence/axiom_reporting.py:441 | Normalising goes character by character and spells out carriage return and line feed. |
| `MarkdownReport.CodeSpanExactly` | src/spy_market_agent/intelligence/axiom_reporting.py:438-449 | The span is the normalised text between fences one backtick longer than any run in it, padded exactly when it starts or ends with a backtick or a space. |
| `MarkdownReport.CodeSpanRoundTrip` | src/spy_market_agent/intelligence/axiom_reporting.py:438-449 | Parsing the printed span under section 6.1 of CommonMark 0.31.2, between text that neither escapes nor lengthens its fences, gives exactly the normalised text and ends where the span ends, if and only if the text has a character other than a space. |
| `MarkdownReport.LinesEscape` | src/spy_market_agent/intelligence/axiom_reporting.py:434-435 | Escaping neither joins nor splits lines. |
| `MarkdownReport.SplitExactly` | src/spy_market_agent/intelligence/axiom_reporting.py:435 | The lines of a text have no line end within them, and together with one line end after each they are the text. |
| `MarkdownReport.BlockquoteExactly` | src/spy_market_agent/intelligence/axiom_reporting.py:431-435 | Each printed line is the prefix, the marker and the escaped line, and the bare marker for an empty one. |
| `MarkdownReport.BlockquoteRoundTrip` | src/spy_market_agent/intelligence/axiom_reporting.py:431-435 | Taking off the quote markers (section 5.1) and undoing the escapes gives back the lines of the quoted text, one for one. |

## Left out

- Float rounding, Decimal context precision and non-zero tolerances: values are exact, so a result the code rejects
  only because of rounding is not seen.
- Broker account, configuration, asset, position and open-order checks and the execution-time risk evaluation before a
  reservation: one accepting or refusing answer each (`gatesOpen`, `stateAccepted`), since nothing has been written yet.
- Timestamps, free-text reasons, metadata and request identifiers of ledger rows and events: no transition reads them.
- The attempt list, the event list and the rest of the status report: queries without state of their own.
- SQLite itself: transactions are atomic and serial, constraints are those of the schema.
- Market-data validation, checksums of price sets and schema-version lineage of frames and signal sets: equality checks
  on opaque identifiers.
- Strategy signal construction from a final-test evaluation: signals are any chronological rows, and
  `ComparatorSignals.BuiltSignalsAreValid` shows where they come from in the benchmark.
- Annualised return, volatility, Sharpe, Sortino and Calmar ratios, win rate and averages: formulas over values whose
  meaning is proved here.
- Model training, candidate selection, ROC, log-loss and calibration: opaque libraries.
- Regime counts, the regime policy summary and the sorting of cells: restatements of what the cells hold.
- The order of regime cells and of index entries: maps and sets, so only which entries there are.
- BenchmarkPipeline.BenchmarkPipeline.RunFinalTest: the evaluation itself; its results, like those an audit replay
  computes anew, are an input.
- BenchmarkPipeline.BenchmarkArtifactStore.WriteBytes: errors the operating system reports, after which the code removes
  its temporary file, and paths, symbolic links and races are not modelled.
- BenchmarkVerification.BenchmarkVerifier.VerifyBenchmarkDirectory: identity, policy, lineage and recomputation checks
  are one answer, `reproduces`; reasons are compared as a set, because the code visits artifacts in set order.
- BenchmarkVerification.BenchmarkVerifier.VerifyCompletedFinalStage: the recomputed results are part of the same answer;
  the access state is fixed by the record's schema.
- BenchmarkPipeline.BenchmarkPipeline.PrepareBenchmark: eligibility, policy and identity of the benchmark are inputs;
  contents are opaque except for the checksums, runtimes and stages they hold.
- MarkdownReport.EscapeRoundTrip: reads the escapes only; block structure such as leading spaces, indented code or
  paragraph continuation is not parsed.
- MarkdownReport.BlockquoteRoundTrip: line for line, with the prefix as fixed indentation.
- PaperSafety.AtMostOnceSubmission: the symbol is always SPY, because the row reader refuses any other, so one order per
  execution session is the same as one per symbol and session.
- TradeAccounting.CompletedTradeProfitAndReturns: asks that a buy spends money, which every fill the simulator makes
  does; the code divides by the entry's cash change.
- HTTP services, dashboards, command lines, settings, intelligence briefs, gates and memory registries.
