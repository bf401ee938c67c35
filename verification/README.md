# Verification of the trading runtime

A Dafny model of the bot's live runtime and of the self-contained algorithms around it, with proofs.

- **Order store and reconciliation.** The store keeps two indexes over shared order objects (`OrderManager.dfy`, against
  the value model in `OrderBook.dfy`); over runs each order is what the events naming it tell (`OrderHistory.dfy`). The
  reconciler repairs the store from exchange snapshots (`Reconciler.dfy`, `Reconciliation.dfy`), its reports are exact
  (`ReconcileReports.dfy`), and one cycle reaches a fixed point (`Convergence.dfy`).
- **The runtime as a state machine.** Candles, order events, drills, startup inspections, reconcile cycles and failures
  come in any order (`Runtime.dfy`). Its parts are the block flags (`BlockGate.dfy`), protective exits (`Fills.dfy`,
  `StrategyOrders.dfy`), and entry decisions (`Entries.dfy`, `Risk.dfy`, `Sizing.dfy`, `Execution.dfy`, `Rounding.dfy`).
  `Orchestrator.dfy` holds the handlers statement by statement over live objects; driven through any events, the object
  ends where the state machine does, so the statements about runs are statements about it.
- **Statements about runs.** Flags and counters agree, exits are accounted for, the mismatch counter and the abort reason
  are explained by the history (`Runtime.dfy`), and so are the order counters (`RunCounts.dfy`); two cycles against an
  unchanging snapshot stabilise (`Stabilisation.dfy`); exposure stays within the position limit (`Exposure.dfy`,
  `ExposureRuns.dfy`); a filled entry gets the exit that protects it (`EntryToExit.dfy`).
- **Verdicts.** The soak and the promotion verdict of reports that runs produce (`SoakReport.dfy`,
  `PromotionReadiness.dfy`).
- **Algorithms.** Decision export, rate limiter, parameter grid, configuration merge, threshold analysis, purged
  cross-validation, candles and market state, each in a file of its own.

Numbers are exact (`real` or `int`), times are integers or reals, and each handler or lock body is one atomic step.
Exchange snapshots, acknowledgements, fills and updates are inputs that may be anything; where a statement needs the
exchange to be consistent, its precondition says how.

Where a method is proved against a specification function, lemmas beside the function say what it computes in other
terms, field by field and condition by condition, so that a change to both would not go unnoticed.

`dafny verify dfyconfig.toml` checks the project.

## Findings

What the code does differently from its documentation, or from what its names and checks suggest. Each is a lemma, with
the exact condition where a property holds only sometimes.

| finding | source | input, and when it happens |
|---|---|---|
| The check for entry fills without a placed exit fires although no entry filled. | src/trading/runtime/soak_report.py:147 | `SoakReport.ReduceOnlyFillTripsCheck`: one reduce-only order adopted from a snapshot, then filled. The count falls back to all fills when none was an entry. `SoakReport.FillChecksOnRuns`: on reports of runs the check fires if and only if no entry fill was counted and some order filled. |
| The check for an unresolved orphan block misses a block that is up after an earlier one was cleared. | src/trading/runtime/promotion_readiness.py:193-228 | `PromotionReadiness.SecondOrphanBlockIsMissed`: blocked, cleared, blocked again. `PromotionReadiness.OrphanCheckOnRuns`: it is true if and only if the flag is up and was never cleared. The verdict is unaffected, since an orphan block implies a startup block (`PromotionReadiness.DisqualifyingOnRuns`). |
| The gap before a validation segment is the larger of embargo and purge, while the documentation adds them; samples at the last time are in no fold; rolling mode uses an undefined name. | src/trading/research/evaluation/purged_cv.py:40-105 | `PurgedCv.TrainsInsideDocumentedGap` trains on a sample 8 seconds before a segment with 5 seconds of embargo and 5 of purging; `PurgedCv.TrainsAsDocumentedIff`: the training set is the documented one if and only if no sample lies between the two cutoffs. `PurgedCv.ValidationCovers`: the last time. `PurgedCv.Split`: rolling mode fails whenever there is something to split into two folds or more. |
| Bars can overlap. | src/trading/marketdata/candle_builder.py:97-118 | `CandleBuilder.OverlapIff`: if and only if the timeframe does not divide 60. |
| Merging configuration files is not associative. | src/trading/settings.py:348-356 | `ConfigMerge.LeafBetweenObjects` gives three files; `ConfigMerge.AssociativeIff` says exactly when grouping matters. |
| A second reconcile pass is not always clean. | src/trading/execution/reconciler.py:65-131 | `Convergence.SecondPassIsClean`: if and only if every linked order of the snapshot has an open status. |
| The index keys of the store need not name their orders. | src/trading/execution/order_manager.py:139-188 | `OrderBook.SharedOrderIdBreaksCoherence`: two link ids under one order id. `OrderBook.KeyedIffSeparate`: an event keeps the keys right if and only if the order id it binds is the only one leading to its order, and a new link id comes with a new order id. |
| The last branch of a reconcile cycle is never taken. | src/trading/runtime/orchestrator.py:2104-2119 | `BlockGate.GuardsAreExhaustive`. |
| A rejection reason is reported for a size that is positive. | src/trading/risk/sizing.py:79-103 | `Sizing.RejectedYetSized`: a budget of 5 at a price of 10, a floor of 50. `Sizing.RejectionMatchesSize`: if and only if the budget rounds down below the minimum quantity and the floor does not. |
| A fill can be exported twice. | src/trading/research/datasets/export.py:90-105 | `DecisionExport.MixedLinksReuseFill` and `DecisionExport.SharedLinkReusesFill`: a linked intent takes its link's fill without marking it used. `DecisionExport.FillsOnceIff`: intents allow it if and only if two of them carry a symbol, at least one is linked, and they are not linked to different ids. |
| A drill acknowledgement that names another link id counts as a strategy acknowledgement. | src/trading/runtime/orchestrator.py:1595-1604 | `Runtime.DrillAckMiscounted`: if and only if the drill is acknowledged under another link id. |
| A limit of zero requests or fewer fails instead of waiting. | src/trading/exchange/rate_limiter.py:30-47 | `RateLimiter.EndpointRateLimiter.Acquire`: if and only if the limit admits no request. |
| Counts of the threshold grid need not add up. | src/trading/research/evaluation/threshold_analysis.py:64-101 | `ThresholdAnalysis.CountsPartitionIff`: they do if and only if every label is 0 or 1. |

## Model

| member | source | states |
|---|---|---|
| OrderBook.ReplayKeepsStructure | src/trading/execution/order_manager.py:36-188 | Over any interleaving of registrations, acks, stream updates, closes and snapshot upserts, no link id is forgotten or handed to another order object, iteration order only grows, and every order in the order-id index is in the link index too. |
| OrderBook.ApplyKeepsStructure | src/trading/execution/order_manager.py:36-188 | The same for one event of any kind, whatever the exchange sends. |
| OrderBook.KeyedIffSeparate | src/trading/execution/order_manager.py:36-188 | An event keeps every index key equal to the field of its order, and every order found under its own link id, if and only if it is separate: an order id it binds to an order is the only one that leads there, and a snapshot order with a new link id brings an order id not known yet. Both are plain before the event. |
| OrderBook.ReplayKeyedIff | src/trading/execution/order_manager.py:36-188 | The indexes stay keyed after every prefix of a run if and only if every event of it is separate as it happens. |
| OrderBook.ConformingIsSeparate | src/trading/execution/order_manager.py:36-188 | Ids that pair up one to one suffice: on a store coherent with the pairing, an event that agrees with it is separate. |
| OrderBook.ReplayKeepsCoherence | src/trading/execution/order_manager.py:36-188 | The store is coherent with a one-to-one pairing of link ids and order ids after every prefix of a run if and only if every event agrees with the pairing in what it binds. |
| OrderBook.CoherentIffConforms | src/trading/execution/order_manager.py:36-188 | The same for one event; events that bind nothing always agree. |
| OrderBook.TargetIsOwn | src/trading/execution/order_manager.py:69-96 | An update whose two ids are a pair agrees with the pairing in what it binds, although it is looked up by order id first and may name only one id. |
| OrderBook.UpsertByLink | src/trading/execution/order_manager.py:139-188 | On a coherent store a snapshot order with a new link id never meets a tracked order through its order id, and upserting keeps the store coherent. |
| OrderBook.SharedOrderIdBreaksCoherence | src/trading/execution/order_manager.py:139-188 | Two snapshot orders sharing an order id under different link ids leave the first link id on an order that names the second. |
| OrderBook.OpenLinksExact | src/trading/execution/order_manager.py:124-133 | The open orders listed are exactly those indexed with status New or PartiallyFilled (of the symbol, when one is given), each once. |
| OrderHistory.UpdateSetsWhatItGives | src/trading/execution/order_manager.py:69-96 | After an update that reaches an order its status, filled quantity, average price and order id are the update's where it gives them and the old ones otherwise; its symbol, quantity, reduce-only flag, creation time and metadata stay, and no other order changes. |
| OrderHistory.UpdateMovesOpenLinks | src/trading/execution/order_manager.py:69-96 | An update with a status takes its link off the open ones if the status is Filled, Cancelled or Rejected and puts it there if it is New or PartiallyFilled; other links stay as they were. |
| OrderHistory.StrayUpdateChangesNothing | src/trading/execution/order_manager.py:69-82 | An update that names neither a tracked link id nor an indexed order id changes nothing. |
| OrderHistory.OrderIdComesFirst | src/trading/execution/order_manager.py:69-82 | On any store the update lands in the order its order id leads to when the index knows it, and otherwise in the order under its link id; no other order changes, and the order id it brings then leads there. |
| OrderHistory.AppliedIsTold | src/trading/execution/order_manager.py:36-188 | Each of the five store operations, field by field: it makes of the order it names what the event says, and leaves every other order alone. |
| OrderHistory.ReplayIsLife | src/trading/execution/order_manager.py:36-188 | Over any run of events that name their orders, each tracked order is what the events naming it tell, whatever the other orders go through. |
| OrderHistory.FieldsAreLastValues | src/trading/execution/order_manager.py:69-96 | Told by any stream of updates, status, filled quantity, average price and order id are the last values given that were not null, and all other fields stay. |
| OrderHistory.StreamLeavesLastValues | src/trading/execution/order_manager.py:69-96 | The same of the store itself. |
| OrderManager.Manager.RegisterIntent | src/trading/execution/order_manager.py:36-58 | A link id already tracked keeps its order object; otherwise one new object is indexed, with the entry side noted in its metadata. Object identity and all other orders are as before. |
| OrderManager.Manager.AckExchangeOrder | src/trading/execution/order_manager.py:60-67 | An unknown link id changes nothing; a known one gets the order id in the object and in the order-id index, and nothing else moves. |
| OrderManager.Manager.ApplyOrderUpdate | src/trading/execution/order_manager.py:69-96 | The object found by order id, else by link id, takes the fields present; the order-id index gains the update's id; an update that finds nothing changes nothing. What the fields then are is stated apart from the specification function by `OrderHistory.UpdateSetsWhatItGives`. |
| OrderManager.Manager.MarkClosedMissingOnExchange | src/trading/execution/order_manager.py:98-122 | Succeeds exactly when the order is tracked and open, cancels that object with the reason noted, and leaves both indexes alone. |
| OrderManager.Manager.GetOpenOrders | src/trading/execution/order_manager.py:124-133 | Returns the objects under the open links, in the order of the dictionary, all of them or those of one symbol. |
| OrderManager.Manager.GetByLinkId | src/trading/execution/order_manager.py:135-137 | Nothing exactly for an untracked link id, otherwise the indexed object with its current fields. |
| OrderManager.Manager.UpsertFromExchangeSnapshot | src/trading/execution/order_manager.py:139-188 | An order known by link id or order id is overwritten in place, creation time and metadata kept, and both keys point at it; otherwise a new object is tracked. Aliasing between the two indexes is the specification's. |
| Reconciliation.ReconcileIsDifference | src/trading/execution/reconciler.py:51-131 | On a coherent store one pass leaves the snapshot's version of every order the snapshot names and the old version of all others, and its issues are the difference between the store and the snapshot before the pass, although the store changes under the loop. |
| Reconciliation.LocalPassEffect | src/trading/execution/reconciler.py:65-100 | What the first loop has done after any number of local orders. |
| Reconciliation.RemotePassEffect | src/trading/execution/reconciler.py:101-131 | What the second loop has done after any number of snapshot orders. |
| Reconciliation.UpsertEffect | src/trading/execution/order_manager.py:139-188 | Seen through the link index, an upsert changes one entry and no other. |
| Reconciler.Reconciler.ExchangeByLink | src/trading/execution/reconciler.py:65-72 | Snapshot orders without a link id are ignored and of several with one link id the last counts. |
| Reconciler.Reconciler.ReconcileOrders | src/trading/execution/reconciler.py:51-131 | The loops over the live store leave the book, and report the issues, that the passes over values do. |
| Reconciler.Reconciler.CompareLocal | src/trading/execution/reconciler.py:72-100 | One local order against the snapshot: missing, overwritten, or overwritten with a quantity issue. |
| Reconciler.Reconciler.ReconcilePositions | src/trading/execution/reconciler.py:133-171 | An issue for exactly the non-flat positions without a reduce-only order both tracked locally and in the second snapshot. |
| ReconcileReports.OrderReportIsExact | src/trading/execution/reconciler.py:65-131 | On a coherent store the issues of a pass are exactly those due: gone from the snapshot while open here, another quantity there, or not open here; each with the symbol, ids, quantity and reduce-only flag it should have, and at most one per link id. |
| ReconcileReports.PositionReportIsExact | src/trading/execution/reconciler.py:133-171 | One issue, with symbol, size and side, for exactly the non-flat positions without an open reduce-only order of the symbol here or without a reduce-only order of it in the snapshot. |
| ReconcileReports.SnapshotTakesLast | src/trading/execution/reconciler.py:65-72 | Of several snapshot orders with one link id the last is the one compared. |
| Convergence.SyncReachesSnapshot | src/trading/runtime/orchestrator.py:1827-1865 | After a pass and the closing of every order reported missing, every close has succeeded and each tracked order is the snapshot's, closed, or unchanged. |
| Convergence.ReportedGone | src/trading/runtime/orchestrator.py:1827-1865 | The links reported missing are the open ones the snapshot does not name, each once. |
| Convergence.SyncedTableMirrors | src/trading/execution/reconciler.py:65-131 | Afterwards the open link ids are those of the snapshot's open orders, with the snapshot's quantities. |
| Convergence.SecondPassIsClean | src/trading/execution/reconciler.py:65-131 | A second pass on the same snapshot reports nothing if and only if every linked order of the snapshot is open. |
| Convergence.CloseMissingEffect | src/trading/execution/order_manager.py:98-122 | Closing any number of open links closes those and nothing else. |
| BlockGate.FlagsAfterCycle | src/trading/runtime/orchestrator.py:1867-2119 | Both flags and the mismatch counter after a completed cycle. A cycle is repaired if the position report is clean and the orders were either all to be synced or all gone and all closed; it clears both flags, except that the startup flag stays up when an order missing locally is not marked reduce-only. Any other cycle counts as a mismatch and raises the startup flag. |
| BlockGate.ClearsOnlyWhenProtected | src/trading/runtime/orchestrator.py:1867-1978 | A flag comes down only in a cycle whose position report is clean and whose orders were all gone and all closed, or all synced. |
| BlockGate.MismatchMeans | src/trading/runtime/orchestrator.py:1867-1978 | When a cycle counts as a mismatch, in terms of the two reports and the closes that took effect. |
| BlockGate.CountsAfterCycle | src/trading/runtime/orchestrator.py:1827-2103 | What a cycle adds to the counters: orders found gone, closes that took effect, mismatch cycles, all issues of a mismatch, and a block for each flag that goes up. |
| BlockGate.MismatchIsDescribed | src/trading/runtime/orchestrator.py:1979-2043 | A mismatch is described by its unprotected positions when there are any and by its order issues otherwise; a repaired cycle empties the orphan details. |
| BlockGate.GuardsAreExhaustive | src/trading/runtime/orchestrator.py:2104-2119 | With both reports clean the first guard already holds, so the last branch of the cycle is never taken. |
| BlockGate.StepKeepsAccounts | src/trading/runtime/orchestrator.py:1783-2119 | Blocks counted minus blocks cleared are 1 while a flag is up and 0 otherwise, for both flags; details are kept exactly while a flag is up; an orphan block never stands without a startup block. |
| BlockGate.AfterCycleKeepsBalance | src/trading/runtime/orchestrator.py:1867-2119 | The counted blocks and clears stay in balance through every branch of a cycle. |
| BlockGate.AbortsAfterCycle | src/trading/runtime/orchestrator.py:2038-2043 | A cycle adds the abort reason exactly when it is the third mismatch in a row or later and the reason is not there yet. |
| BlockGate.StepKeepsExplanation | src/trading/runtime/orchestrator.py:1979-2043 | The counter stays the length of the trailing run of mismatch cycles and the abort reason is listed once if and only if some run reached three. |
| Fills.EventKeepsAccounts | src/trading/runtime/orchestrator.py:768-870 | Any order event, duplicates and re-opened orders included, keeps entry fills = submitted + failed + skipped, skipped = sum of the reason counts, and entry fills at most strategy fills; an attempt is exactly one more entry fill, for a link id not filled before. |
| Fills.PlacementResolvesOne | src/trading/runtime/orchestrator.py:1238-1533 | Placing an exit moves exactly one of submitted, failed and skipped, by one, and never the entry fills. |
| Fills.TallyIsTransition | src/trading/runtime/orchestrator.py:813-870 | The handler counts statuses the way the outcome tracker's own transition does. |
| StrategyOrders.StrategyOrderOutcomes.ApplyOrderStatusTransition | src/trading/runtime/strategy_orders.py:43-65 | The new counters and seen-sets, and an answer that is true exactly for a link id newly filled. |
| StrategyOrders.CountsAreDistinctLinks | src/trading/runtime/strategy_orders.py:26-65 | Over any sequence of transitions each count is the number of distinct link ids that ever reached the status. |
| Entries.AcceptedMeans | src/trading/runtime/orchestrator.py:1020-1212 | An accepted candidate's intent field by field, the action it carries in its metadata included, and what let it pass: every hard risk limit at its sized notional, the confidence, both block flags, and the entry guard. |
| Entries.AcceptedIff | src/trading/runtime/orchestrator.py:1020-1212 | A candidate is accepted if and only if the regime allows it, it has a side and an action, its symbol is configured, its size is positive, every risk limit holds at that size, the model passes it, no flag is up, and the guard lets it pass. |
| Entries.AcceptedPrice | src/trading/execution/execution_engine.py:192-196 | A limit entry is priced so many basis points on the passive side of the reference price, never below zero; a marketable one has no price. |
| Entries.GuardMeans | src/trading/runtime/orchestrator.py:2543-2613 | The guard passes with adds on as long as the symbol has fewer working entries than the limit, and with adds off only a symbol that holds at most half a step and has none; working entries are the open orders of the symbol that neither reduce nor drill. |
| Entries.ReentryCounted | src/trading/runtime/orchestrator.py:2543-2613 | A re-entry is counted if and only if the guard is asked, with adds off, about a symbol that holds at most half a step and still tracks a working exit. |
| Entries.WorkingCountIsSize | src/trading/runtime/orchestrator.py:2543-2613 | The loop over open orders counts each working entry once. |
| Runtime.HaltedCandle | src/trading/runtime/orchestrator.py:1020-1156 | With the breaker tripped, in safe mode, or while a block flag is up, a candle with any candidates leaves the whole state as it was. |
| Risk.ApprovedIff | src/trading/risk/risk_engine.py:225-307 | An order is approved if and only if the breaker is not tripped, safe mode is off, the daily loss, total notional, leverage, liquidation, symbol notional and symbol position limits hold, and the scaled confidence suffices; a refusal for confidence means that every hard limit holds. |
| Risk.ReasonIsFirst | src/trading/risk/risk_engine.py:225-307 | The reason of a refusal is the first limit that does not hold, hard limits first and in their order. |
| Risk.TotalIsSum | src/trading/risk/portfolio_state.py:44-45 | The total notional is the sum over the positions. |
| Entries.SizedEntryIsCovered | src/trading/execution/execution_engine.py:110-158 | A sized entry filled in full gets a reduce-only exit for exactly its quantity, priced on the profit side whenever the profit distance exceeds half a tick. |
| Entries.DecisionRespectsLimit | src/trading/runtime/orchestrator.py:2543-2613 | A decision never takes a symbol above the larger of what it had and the entry limit, and never adds to another symbol. |
| Entries.DecisionsRespectLimit | src/trading/runtime/orchestrator.py:1020-1236 | Nor do several candidates on one candle, since open orders are read again for each. |
| Risk.ApprovedOrderFitsPosition | src/trading/risk/risk_engine.py:278-296 | An approved order keeps the projected position of its symbol within the position limit. |
| Risk.ApprovedQtyFitsPosition | src/trading/risk/risk_engine.py:278-296 | The same for a quantity priced at the signal's reference price, where the division by that price must undo the multiplication. |
| Exposure.AcceptedOrderFits | src/trading/runtime/orchestrator.py:1156-1212 | With adds off, acceptance means a position of exactly zero, no live entry, and a quantity within the limit on its own. |
| Exposure.DecisionKeepsLimits | src/trading/runtime/orchestrator.py:1156-1212 | A decision with a right view of the position keeps all limits, whether its order reaches the exchange or not. |
| ExposureRuns.ExposureStaysWithinLimits | src/trading/runtime/orchestrator.py:1156-1212 | Over every run of the runtime from a fresh start, against an exchange that fills, reduces and cancels as it likes and reports truthfully: a symbol never has two live entries, and position plus unfilled entry stays within max_position_abs. |
| ExposureRuns.StepIsSafe | src/trading/runtime/orchestrator.py:764-1236 | Candles with any number of candidates, order events with the exits they place, drills, inspections and reconcile cycles each keep the limits, the live orders tracked and the store coherent. |
| ExposureRuns.CycleKeepsTracked | src/trading/runtime/orchestrator.py:1804-1865 | A cycle against a truthful snapshot never closes or disowns an entry that is still live. |
| ExposureRuns.UpdateKeepsTracked | src/trading/execution/order_manager.py:69-96 | A truthful update never takes a live order off the list the guard counts, whichever id it is found by. |
| ExposureRuns.OpeningIsSafe | src/trading/risk/risk_engine.py:278-296 | A fresh start with whole-step positions within the limits satisfies the invariant. |
| Sizing.VolatilityAwareSizer.SizeQty | src/trading/risk/sizing.py:43-77 | The size and the recorded floor details, reset by every call. |
| Sizing.NonZeroSizeIsLargest | src/trading/risk/sizing.py:43-77 | A non-zero size is a whole number of steps, at least the minimum, and the largest within the risk budget, or within the floor notional, itself within the equity cap, when the floor produced it. |
| Sizing.ZeroSizeIff | src/trading/risk/sizing.py:43-77 | The size is zero if and only if the inputs are not eligible, or neither the risk budget nor the floor notional affords a tradable quantity; the floor decides if and only if the budget affords none and the floor does. |
| Sizing.BudgetMeans | src/trading/risk/sizing.py:43-60 | The risk budget is proportional to equity, base risk, the smaller leverage and the confidence between a tenth and one, and inversely so to a volatility above 100 basis points. |
| Sizing.FloorNotionalMeans | src/trading/risk/sizing.py:60-77 | The floor notional is the larger of budget and floor, cut at the equity cap. |
| Sizing.RejectionMatchesSize | src/trading/risk/sizing.py:79-103 | No rejection is reported exactly for positive sizes, if and only if the floor does not rescue the size: budget rounded down below the minimum quantity, floor notional rounded down not below it. When it does, the reason is the minimum quantity and the size is at least that. |
| Sizing.RejectReasonMeans | src/trading/risk/sizing.py:79-103 | The reason names the first check that fails: price or equity, confidence, or a budget that affords no tradable quantity. |
| Sizing.RejectedYetSized | src/trading/risk/sizing.py:43-103 | A configuration and inputs with a rejection reason and a size of five. |
| Rounding.DownToStepIsMaximal | src/trading/risk/sizing.py:105-110 | Rounding down gives the largest whole number of steps not above a non-negative value. |
| Rounding.DownToStepIsOdd | src/trading/risk/sizing.py:105-110 | Rounding down is toward zero on both sides of it. |
| Rounding.HalfGoesEven | src/trading/execution/execution_engine.py:128-145 | A value halfway between two integers goes to the even one. |
| Rounding.NearestStepIsClose | src/trading/execution/execution_engine.py:128-145 | Rounding to the nearest step moves a value by at most half a step. |
| Rounding.NearestStepFixesWholeSteps | src/trading/execution/execution_engine.py:128-145 | Whole numbers of steps are left alone. |
| Execution.ProtectiveExitCoversFill | src/trading/execution/execution_engine.py:110-158 | For a fill in whole steps the exit closes exactly the filled quantity on the other side, within half a tick of the target, at a profit when the profit distance exceeds half a tick. |
| EntryToExit.FilledEntryIsProtected | src/trading/runtime/orchestrator.py:1020-1420 | From the candidate to the plan: an accepted entry whose action agrees with its side, registered and then filled in full, is planned a reduce-only exit on the other side, for exactly the filled quantity, at a profit when the profit distance exceeds half a tick. |
| EntryToExit.FilledEntryGetsItsExit | src/trading/runtime/orchestrator.py:768-1533 | And to the store: the handler tracks that exit under its own link id, submits it when placement is on, binds the exchange's order id, and counts one entry fill and one exit planned, tracked, and submitted or failed, and acknowledged if the id is not empty. |
| EntryToExit.PlanIsDecided | src/trading/runtime/orchestrator.py:1238-1420 | Why a fill gets no exit, or which symbol and quantity it gets, from the order and the event: exactly the first of the six checks that fails. |
| EntryToExit.SkippedIsRecorded | src/trading/runtime/orchestrator.py:1238-1420 | A fill without a plan is counted under its reason and no other, and changes nothing else. |
| EntryToExit.AcknowledgedIsDone | src/trading/runtime/orchestrator.py:1420-1533 | The entry's exit counts as done if and only if it is submitted and acknowledged with an id that is not empty. |
| Runtime.RunIsSound | src/trading/runtime/orchestrator.py:764-2119 | In every run, in any order of events: flags, details and counters agree, exits are accounted for, and no counter is present with value zero. |
| Runtime.StepIsSound | src/trading/runtime/orchestrator.py:764-2119 | Each kind of event keeps this. |
| Runtime.RunExplainsCounter | src/trading/runtime/orchestrator.py:1979-2043 | In every run the mismatch counter is the trailing run of mismatch cycles, and the abort reason is listed once if some three completed cycles in a row were mismatches and never otherwise. |
| Runtime.AttemptsAreDistinct | src/trading/runtime/orchestrator.py:813-856 | In every run no entry link id triggers two placement attempts, and the attempts are exactly the counted entry fills. |
| Runtime.InspectionIsExact | src/trading/runtime/orchestrator.py:1733-1802 | The startup inspection reports exactly the configured symbols that hold a position or rest an order that is not reduce-only, each with its first position and the numbers of its orders. |
| Runtime.InspectionRaisesFlag | src/trading/runtime/orchestrator.py:1733-1802 | The startup flag goes up if and only if some symbol is reported, with reason and details, and otherwise nothing changes. |
| RunCounts.RunTallies | src/trading/runtime/orchestrator.py:764-2200 | In every run the submissions counted are the strategy's and the drills, the acknowledgements likewise except that stray drill acknowledgements count as the strategy's, intents agree, and each reason of the guard is counted as often as it is listed, under both of its names. |
| RunCounts.ReportedAcksAreBounded | src/trading/runtime/soak_report.py:465-466 | On the report of any run acknowledgements exceed submissions by no more than the drill acknowledgements that named another link id. |
| RunCounts.IncidentsAreTallied | src/trading/runtime/orchestrator.py:419-500 | In every run stale feeds and failed decision tasks are counted as often as they happened; a stale feed is an abort reason once, failed startups and dead tasks each time. |
| RunCounts.TransitionCounted | src/trading/runtime/orchestrator.py:768-812 | A transition is counted if and only if the event names a tracked order by its link id and its status is not the order's already. |
| RunCounts.DrillIsTracked | src/trading/runtime/orchestrator.py:656-756 | A drill is tracked under its own link id, new and as it was built, with the order id it is acknowledged with. |
| RunCounts.DrillLinkIsLatest | src/trading/runtime/orchestrator.py:656-756 | In every run the drill's link id is the one generated last, whether that drill was placed or refused. |
| RunCounts.DrillEventsStayApart | src/trading/runtime/orchestrator.py:768-870 | An event of the drill's link changes the store and the transition count, and no outcome, exit or other counter of the strategy. |
| Stabilisation.RunIsCoherent | src/trading/runtime/orchestrator.py:764-1865 | The store stays coherent over any run whose exchange ids pair up. |
| Stabilisation.StepKeepsCoherence | src/trading/runtime/orchestrator.py:764-1865 | Each kind of event keeps it coherent. |
| Stabilisation.FlagsAfterFetch | src/trading/runtime/orchestrator.py:1827-2119 | The flags and the counter after any completed cycle on a coherent store, from the orders tracked before it, the snapshot and the positions left exposed alone. In particular a cycle that only syncs and exposes nothing leaves the startup flag up if and only if it was up and the snapshot holds an order that was not open locally and is not reduce-only. |
| Stabilisation.FirstCycle | src/trading/runtime/orchestrator.py:1867-2043 | Against a lasting snapshot that protects every position, the first cycle leaves both flags as they follow from the tracked orders and the snapshot: it is a mismatch exactly when some open order is gone and another is to be synced; otherwise the startup flag survives exactly when the snapshot holds an order that was not open locally and is not reduce-only. |
| Stabilisation.CyclesSettle | src/trading/runtime/orchestrator.py:1804-1865 | After one or more cycles the open orders are the snapshot's and the next cycle has nothing to repair. |
| Stabilisation.SettledCycle | src/trading/runtime/orchestrator.py:1867-2043 | On a settled store a cycle takes both flags down if every non-flat position is protected and puts both up otherwise. |
| Stabilisation.TwoCyclesStabilise | src/trading/runtime/orchestrator.py:1827-2043 | From any state of any run, two or more cycles against an unchanging snapshot leave both flags down and the counter at zero if every non-flat position is protected, and both flags up with a positive counter if one is not, whatever the first cycle had to repair. |
| Orchestrator.RunSession | src/trading/runtime/orchestrator.py:262-271 | An orchestrator built from scratch and driven through any events ends in the state machine's state, which is sound. |
| Orchestrator.Orchestrator.constructor | src/trading/runtime/orchestrator.py:100-210 | A fresh orchestrator owns fresh parts and starts in the state machine's start state. |
| Orchestrator.Orchestrator.Drive | src/trading/runtime/orchestrator.py:764-2200 | Whatever the events, the object's handlers end where the state machine does, so that the flags, the exits and the mismatch counter of the object meet the statements about runs. |
| Orchestrator.Orchestrator.Handle | src/trading/runtime/orchestrator.py:764-2200 | Each handler takes the object where one step of the state machine goes. |
| Orchestrator.Orchestrator.ReconcileCycle | src/trading/runtime/orchestrator.py:1804-2145 | The book and the gate after a cycle, including one that fails after the orders were already synced. |
| Orchestrator.Orchestrator.CloseMissingOrders | src/trading/runtime/orchestrator.py:1827-1865 | Every order reported gone is closed once, and detections and successful closes are counted. |
| Orchestrator.Orchestrator.SettleCycle | src/trading/runtime/orchestrator.py:1867-2119 | The three guarded outcomes in place, with the last branch proved dead; `BlockGate.FlagsAfterCycle` says what they leave. |
| Orchestrator.Orchestrator.CountAndBlock | src/trading/runtime/orchestrator.py:1979-2103 | Counter, flags, details and the abort latch of a mismatch cycle. |
| Orchestrator.Orchestrator.InspectStartup | src/trading/runtime/orchestrator.py:1733-1802 | The startup flag goes up exactly when some configured symbol is dirty, with one detail per dirty symbol. |
| Orchestrator.Orchestrator.OnOrderEvent | src/trading/runtime/orchestrator.py:768-870 | The store, counters, outcomes and skip reasons after an order event, exit placement included. |
| Orchestrator.Orchestrator.CountTransition | src/trading/runtime/orchestrator.py:813-870 | First fills are counted once per link id and lead to an exit for entries; other statuses are counted once each. |
| Orchestrator.Orchestrator.PlaceProtectiveExit | src/trading/runtime/orchestrator.py:1238-1533 | Skip, fail, or register and submit: what each does to store and counters. |
| Orchestrator.Orchestrator.PlanProtectiveExit | src/trading/runtime/orchestrator.py:1238-1420 | The first check that fails decides the skip reason; otherwise the planned exit. `EntryToExit.PlanIsDecided` and `EntryToExit.FilledEntryIsProtected` say what the plan is apart from the specification function. |
| Orchestrator.Orchestrator.SubmitIntent | src/trading/runtime/orchestrator.py:1535-1640 | A submission is always counted; an acknowledgement is counted and recorded when it arrives, a failure is swallowed. |
| Orchestrator.Orchestrator.OnCandle | src/trading/runtime/orchestrator.py:1020-1236 | All candidates of a candle, each decided against the orders as they then are. |
| Orchestrator.Orchestrator.OnCandidate | src/trading/runtime/orchestrator.py:1020-1236 | One candidate through all stages. |
| Orchestrator.Orchestrator.PassesScreen | src/trading/runtime/orchestrator.py:1020-1156 | Regime, sizing, risk, model and the two block flags, in this order; `Entries.AcceptedIff` says when all of them pass. |
| Orchestrator.Orchestrator.ShouldBlockNewEntry | src/trading/runtime/orchestrator.py:2543-2613 | The guard's answer, and the re-entry it counts for a flat symbol that still tracks an exit. |
| Orchestrator.Orchestrator.PlaceDrill | src/trading/runtime/orchestrator.py:656-756 | A drill whose intent is built is tracked and counted as a submission, and takes its acknowledgement. |
| Orchestrator.Orchestrator.RefuseDrill | src/trading/runtime/orchestrator.py:720-748 | A drill refused once its link id is generated leaves only the link id behind. |
| Runtime.DrillAckMiscounted | src/trading/runtime/orchestrator.py:1595-1604 | The strategy acknowledgements go up by one if and only if the drill is acknowledged under another link id, and stay otherwise. |
| Orchestrator.Orchestrator.OnTaskDied | src/trading/runtime/orchestrator.py:462-500 | A dead task is an abort reason each time, and a dead decision task is counted. |
| Orchestrator.Orchestrator.OnStaleFeed | src/trading/runtime/orchestrator.py:2165-2176 | Each stale feed is counted and its abort reason is listed once. |
| Orchestrator.Orchestrator.OnDisturbance | src/trading/runtime/orchestrator.py:419-424 | A failed startup is an abort reason; the other failures go to their handlers. |
| SoakReport.ComputeVerdict | src/trading/runtime/soak_report.py:354-498 | Verdict, failures and warnings, in order, of any report; a failure and a warning are listed exactly when their own condition on the report's fields holds, and they alone decide the verdict. |
| SoakReport.VerdictIff | src/trading/runtime/soak_report.py:354-498 | FAIL if and only if one of the seven failure conditions holds of the report, PASS if and only if none of them and none of the eleven warning conditions does. |
| SoakReport.FailureListed | src/trading/runtime/soak_report.py:354-466 | Each failure is listed if and only if its condition holds, among them submissions exceeding acknowledgements. |
| SoakReport.WarningListed | src/trading/runtime/soak_report.py:354-498 | Each warning likewise. |
| SoakReport.ReportOfRun | src/trading/runtime/soak_report.py:101-322 | The report of any run: blocks exceed clears by one exactly while a flag is up, startup diagnostics are there if the startup flag ever was up, fills are the distinct filled links, and once an entry fill is counted the exits submitted, failed and skipped add up to the entry fills and the fills without an acknowledged exit are the exits submitted and not acknowledged. |
| SoakReport.FillChecksOnRuns | src/trading/runtime/soak_report.py:147 | On the report of any run the check for unresolved entry fills fires if and only if no entry fill was counted and some order filled; the check for more entry fills than fills never fires. |
| SoakReport.ReduceOnlyFillTripsCheck | src/trading/runtime/soak_report.py:404-408 | An input on which the first check fires: one reduce-only order adopted from the exchange and then filled. |
| SoakReport.PassMeansClean | src/trading/runtime/soak_report.py:354-498 | A pass rules out aborts, failed exits, unresolved fills, blocks and mismatch cycles. |
| PromotionReadiness.AggregateSoakReports | src/trading/runtime/promotion_readiness.py:86-346 | The sums, flags and attribution lists over any batch. |
| PromotionReadiness.ComputePromotionVerdict | src/trading/runtime/promotion_readiness.py:363-431 | Label and reasons from the aggregate. |
| PromotionReadiness.NotReadyIffSomeReport | src/trading/runtime/promotion_readiness.py:393-431 | A non-empty batch is NOT_READY if and only if one of its reports is disqualifying on its own. |
| PromotionReadiness.LabelMeans | src/trading/runtime/promotion_readiness.py:363-431 | NOT_READY if and only if the batch is empty or some report gives one of the seven reasons; READY if and only if not, and passing sessions, duration and, unless every session is on paper, entry fills and evaluations reach their minimums. |
| PromotionReadiness.BlockerIffGiven | src/trading/runtime/promotion_readiness.py:393-431 | Each reason for not being ready is listed if and only if some report gives it by its own fields. |
| PromotionReadiness.ShortfallMeans | src/trading/runtime/promotion_readiness.py:405-431 | Each missing minimum is listed if and only if the batch falls short of it. |
| PromotionReadiness.SumsMean | src/trading/runtime/promotion_readiness.py:136-270 | Sessions, paper sessions, passing sessions, fills, evaluations and duration are counts and sums over the reports. |
| PromotionReadiness.AttributionMeans | src/trading/runtime/promotion_readiness.py:239-270 | A session id is in an attribution list if and only if a report of that id gives the reason the list is kept for. |
| PromotionReadiness.NotReadyOfParts | src/trading/runtime/promotion_readiness.py:393-431 | Splitting a batch into non-empty parts does not change whether it is ready. |
| PromotionReadiness.LabelOfPermutation | src/trading/runtime/promotion_readiness.py:136-270 | The label does not depend on the order of the reports. |
| PromotionReadiness.DisqualifyingOnRuns | src/trading/runtime/promotion_readiness.py:193-228 | The report of a run is disqualifying if and only if its soak verdict is FAIL or the session ended with the startup flag up. |
| PromotionReadiness.OrphanCheckOnRuns | src/trading/runtime/promotion_readiness.py:193-228 | The orphan check is true of a run if and only if the orphan flag is up at its end and was never cleared before. |
| PromotionReadiness.SecondOrphanBlockIsMissed | src/trading/runtime/promotion_readiness.py:193-228 | A run of three cycles that ends with the orphan flag up and does not show in the check. |
| PromotionReadiness.PassNeverDisqualifies | src/trading/runtime/promotion_readiness.py:193-245 | No report of a run whose soak verdict is PASS is disqualifying. |
| PromotionReadiness.DisqualifiedSessionsAreNamed | src/trading/runtime/promotion_readiness.py:239-245 | Every disqualified session of a batch is named among the failing or the uncleared sessions. |
| DecisionExport.ExtractDecisionRecords | src/trading/research/datasets/export.py:36-136 | One record per decision, in order, with each field taken from the decision or from the intent and the fill it was paired with: approved exactly with an intent, filled exactly with a fill. |
| DecisionExport.DecisionTakesIntent | src/trading/research/datasets/export.py:56-88 | Each decision takes the first intent of its symbol that no earlier decision took and that is not earlier than itself, failing that the first one not taken, and none only if there is none. |
| DecisionExport.DecisionTakesFill | src/trading/research/datasets/export.py:90-105 | A linked intent takes the last fill of its link, taken or not; an unlinked one the first fill of the symbol not earlier than the intent that no earlier unlinked one took; without an intent there is no fill. |
| DecisionExport.SelectIsFilter | src/trading/research/datasets/export.py:36-55 | Decisions, intents and fills are the events of their kind, in order. |
| DecisionExport.AssignedIsMatching | src/trading/research/datasets/export.py:70-88 | Only equal symbols are paired and no intent twice. |
| DecisionExport.AssignedPerSymbol | src/trading/research/datasets/export.py:70-88 | The pairs of a symbol number as many as the scarcer of its decisions and its intents. |
| DecisionExport.AssignedIsMaximum | src/trading/research/datasets/export.py:45-136 | No pairing of equal symbols, over any set of symbols, pairs more decisions than the greedy export, although it looks at timestamps. |
| DecisionExport.ApprovedRecordsFillRoom | src/trading/research/datasets/export.py:45-136 | The records approved number the sum over symbols of the smaller of decisions and intents. |
| DecisionExport.FillsOnceIff | src/trading/research/datasets/export.py:90-105 | Whatever else is in the ledger, no fill is exported twice: this holds of a list of intents if and only if no two of them clash, that is carry a symbol, at least one linked, and not by different link ids. |
| DecisionExport.FillsUsedOnce | src/trading/research/datasets/export.py:90-105 | When no two intents clash, each fill is used at most once under any pairing of equal symbols, not only the greedy one. |
| DecisionExport.MixedLinksReuseFill | src/trading/research/datasets/export.py:90-105 | A linked and an unlinked intent of one symbol: one fill, used twice. |
| DecisionExport.SharedLinkReusesFill | src/trading/research/datasets/export.py:90-105 | Two intents of one link: its fill, used twice. |
| RateLimiter.EndpointRateLimiter.Acquire | src/trading/exchange/rate_limiter.py:30-47 | Grants at once exactly when the queue has room, otherwise after at most two sleeps, and then when the oldest grant leaves the window, give or take the oversleep and the one-millisecond minimum; the log grows by the grant and other groups are untouched; fails exactly when the limit admits no request. |
| RateLimiter.EndpointRateLimiter.WaitForRoom | src/trading/exchange/rate_limiter.py:30-47 | Two sleeps suffice however long each overshoots, and the queue stays the unevicted end of the log. |
| RateLimiter.EndpointRateLimiter.HistoryIsBounded | src/trading/exchange/rate_limiter.py:30-47 | At any time no window of a group's whole history holds more grants than permitted. |
| RateLimiter.GrantKeepsSound | src/trading/exchange/rate_limiter.py:30-47 | A grant into a queue with room keeps any max + 1 consecutive grants more than a window apart. |
| RateLimiter.WindowHoldsAtMostMax | src/trading/exchange/rate_limiter.py:30-47 | A log so spaced holds at most the permitted number of grants in any window, wherever it starts. |
| RateLimiter.FarGrantsAreApart | src/trading/exchange/rate_limiter.py:30-47 | Grants max or more positions apart are more than a window apart. |
| ParamGrid.ExpandGrid | src/trading/backtest/optimizer.py:40-48 | One dict per tuple of the Cartesian product, in lexicographic order. |
| ParamGrid.Expansion.Product | src/trading/backtest/optimizer.py:50-63 | Although all branches share one dict with stale deeper keys, each emits exactly the completions of its prefix. |
| ParamGrid.TuplesExact | src/trading/backtest/optimizer.py:40-63 | The expansion holds exactly the tuples that pick one value per parameter. |
| ParamGrid.TuplesSize | src/trading/backtest/optimizer.py:40-63 | Its length is the product of the list sizes. |
| ParamGrid.TupleAt | src/trading/backtest/optimizer.py:40-63 | Entry i is the mixed-radix decoding of i. |
| ConfigMerge.DeepMerge | src/trading/settings.py:348-356 | The loop over keys computes the recursive merge. |
| ConfigMerge.EmptyIsIdentity | src/trading/settings.py:348-356 | The empty object is a two-sided identity. |
| ConfigMerge.MergeIsIdempotent | src/trading/settings.py:348-356 | Merging a file with itself changes nothing. |
| ConfigMerge.CoveredMeansReplaced | src/trading/settings.py:348-356 | The later file replaces the earlier one altogether if and only if it defines everything the earlier one does. |
| ConfigMerge.AssociativeIff | src/trading/settings.py:348-356 | Three files merge associatively if and only if, wherever the middle one puts a leaf between two objects, the last object covers the first. |
| ConfigMerge.CompatibleAssociate | src/trading/settings.py:348-356 | Files that agree with their neighbours on object versus leaf do. |
| ConfigMerge.LeafBetweenObjects | src/trading/settings.py:348-356 | A leaf between two objects with different keys: grouping matters. |
| ConfigMerge.StackTakesLast | src/trading/settings.py:359-373 | In a stack of files that agree on what is an object, every leaf path has the value of the last file defining it. |
| ConfigMerge.LoadConfigStack | src/trading/settings.py:337-373 | The six files in their order, an empty one as an empty object; loading fails on the first that is missing or no YAML object, except that the model registry may be missing. |
| ThresholdAnalysis.PercentileBetween | src/trading/research/evaluation/threshold_analysis.py:166-175 | The interpolated percentile lies between its sorted neighbours and is the sample itself when it falls on one. |
| ThresholdAnalysis.PercentileMonotone | src/trading/research/evaluation/threshold_analysis.py:166-175 | It is monotone in p. |
| ThresholdAnalysis.RetentionIsReached | src/trading/research/evaluation/threshold_analysis.py:222-237 | The threshold for a target retention t keeps at least one sample and at least t*(n-1) of n. |
| ThresholdAnalysis.RecommendationKeepsShare | src/trading/research/evaluation/threshold_analysis.py:196-255 | So does the retained count reported with a recommendation. |
| ThresholdAnalysis.ComputeRetentionRecommendations | src/trading/research/evaluation/threshold_analysis.py:196-255 | Exactly one recommendation per profile, and none for no samples or lists of different lengths. |
| ThresholdAnalysis.ComputeThresholdGrid | src/trading/research/evaluation/threshold_analysis.py:42-101 | The metrics at each threshold in order; an error exactly when the lists differ in length. |
| ThresholdAnalysis.CountsPartitionIff | src/trading/research/evaluation/threshold_analysis.py:64-101 | The four counts partition the retained and the filtered samples if and only if every label is 0 or 1. |
| ThresholdAnalysis.MetricsMean | src/trading/research/evaluation/threshold_analysis.py:64-101 | Counts are numbers of samples; precision, recall and F1 are shares of them to six places, and zero where there is nothing to divide by; F1 is the share of twice the true positives in both errors and them. |
| ThresholdAnalysis.RaisingThreshold | src/trading/research/evaluation/threshold_analysis.py:64-101 | A higher threshold never retains more and never raises the recall reported, and the positives stay the same. |
| PurgedCv.Split | src/trading/research/evaluation/purged_cv.py:54-105 | The folds yielded, and the inputs on which the generator fails: rolling mode from its second fold on, and an empty list that the size check lets through. Rolling mode with one split yields what expanding mode does. |
| PurgedCv.NoLeakage | src/trading/research/evaluation/purged_cv.py:54-105 | Training indices are a prefix, and every training time is more than max(embargo, purge) before every validation time. |
| PurgedCv.FoldMeans | src/trading/research/evaluation/purged_cv.py:54-105 | A fold validates on its segment, from the second of splits + 1 equal ones on, and trains on exactly the samples earlier than it by more than the embargo and more than the purge. |
| PurgedCv.TrainsAsDocumentedIff | src/trading/research/evaluation/purged_cv.py:40-90 | The training set is the documented one, cut at both settings together, if and only if no sample lies between the two cutoffs. |
| PurgedCv.TrainsInsideDocumentedGap | src/trading/research/evaluation/purged_cv.py:40-90 | Four samples and a fold that trains inside the documented gap. |
| PurgedCv.FoldsAdvance | src/trading/research/evaluation/purged_cv.py:54-105 | Training sets grow with the fold and validation sets follow each other without overlap. |
| PurgedCv.ValidationIsContiguous | src/trading/research/evaluation/purged_cv.py:54-105 | A validation set has no holes. |
| PurgedCv.ValidationCovers | src/trading/research/evaluation/purged_cv.py:54-105 | When every fold is large enough the validation sets together are exactly the samples from the first segment's end up to, and not including, the last time. |
| PurgedCv.FoldsExact | src/trading/research/evaluation/purged_cv.py:54-105 | The folds yielded are the large enough ones, each under its own id. |
| CandleBuilder.CandleBuilder.OnTrade | src/trading/marketdata/candle_builder.py:39-65 | The working candle of the trade's symbol and the bar closed, if any; other symbols are untouched. |
| CandleBuilder.CandleBuilder.FlushOpenCandle | src/trading/marketdata/candle_builder.py:86-95 | The working candle is handed out unconfirmed and removed. |
| CandleBuilder.VolumeIsConserved | src/trading/marketdata/candle_builder.py:39-65 | Volume and turnover of closed bars plus working candle equal those of all trades, in any arrival order. |
| CandleBuilder.CandlesAreShaped | src/trading/marketdata/candle_builder.py:39-65 | Open and close lie between low and high in every bar, in any arrival order. |
| CandleBuilder.BuildIsFaithful | src/trading/marketdata/candle_builder.py:39-65 | For trades in time order each closed bar summarises exactly the trades of its bucket, bars strictly increase, and no traded bucket is lost. |
| CandleBuilder.BuilderIsFaithful | src/trading/marketdata/candle_builder.py:114-118 | The same for the buckets the builder uses. |
| CandleBuilder.SymbolsAreIndependent | src/trading/marketdata/candle_builder.py:39-65 | A symbol's bars depend on its own trades alone, however symbols interleave. |
| CandleBuilder.OverlapIff | src/trading/marketdata/candle_builder.py:97-118 | Bars of different buckets never overlap if and only if the timeframe divides 60. |
| MarketState.MarketState.ApplyEvent | src/trading/marketdata/market_state.py:46-76 | The snapshot dicts, buffers and queue after one event. |
| MarketState.MarketState.ApplyEvents | src/trading/marketdata/market_state.py:78-80 | A list of events is applied in order. |
| MarketState.MarketState.NextConfirmedKline | src/trading/marketdata/market_state.py:94-95 | The consumer gets the front of the queue and removes it. |
| MarketState.MergeUpdate | src/trading/marketdata/market_state.py:102-144 | Nulls change nothing, other fields overwrite, and the raw payload of wallet and positions is the latest. |
| MarketState.EntriesAreLastValues | src/trading/marketdata/market_state.py:46-144 | After any events each field of an order, wallet or position entry is the last non-null value seen of it. |
| MarketState.BuffersAreNewestTrades | src/trading/marketdata/market_state.py:46-76 | Each trade buffer is exactly the last N trades of its symbol. |
| MarketState.SlotsAreLatest | src/trading/marketdata/market_state.py:46-76 | Tickers, confirmed klines and executions show the last event that brought one, and nothing before the first. |
| MarketState.KlinesAreConserved | src/trading/marketdata/market_state.py:46-95 | However events and consumption interleave, consumed and queued klines together are the confirmed klines, in order. |

## Left out

- REST and WebSocket clients, signing, retries, stores and sinks, logging, alerts, report and session writers, command line: I/O; snapshots, acks and updates are inputs.
- Interleaving inside a handler at its suspension points: each handler is one atomic step; only a reconcile cycle that fails after syncing the orders is modelled as cut short.
- Decimal precision and float rounding: arithmetic is exact; rounding is kept where it is part of a rule (steps, ticks, six places of grid metrics, one decimal of the promotion duration).
- The candidate generator, regime filter, signal engine, model filter and circuit breaker: their answers are inputs of a decision.
- Pipeline and model counts of the soak report: inputs of the report, since they do not interact with the runtime's state.
- Missing or malformed report fields: a missing number reads as the default its readers give it, and counts are not negative; the entry fill count, which is read with two different defaults, may be missing.
- Texts: detail messages, ledger records, reconcile diagnostics, averages, and the breakdown of acknowledgement gaps.
- `filled_qty` of a tracked order: the runtime passes the order's quantity for it, so nothing is claimed about it before a fill.
- The handler for an exchange error in exit placement (src/trading/runtime/orchestrator.py:1514): submitting swallows that error, so it is never reached.
- Rolling mode of the purged splitter beyond its failure on the second fold; the ratio splitter.
- Protective-exit per-fill outcome lists, drill outcome bookkeeping, exit and stop intents, confirmed-kline bars, snapshot copies of the market state: single-body facts.
- Percentiles and sweeps in model calibration: the percentile is the one in threshold analysis and the sweep counts one side of a threshold.
- Win rates, uplift, positive rates and retain ratios of threshold analysis, and the rounding of a recommended threshold for display: quotients of counts that are modelled.
- Backtest position netting and the registry, model training and triple-barrier scaffolds.
- ThresholdAnalysis.ComputeRetentionRecommendations: shares are required to lie between 0 and 1, while any float is taken; outside that range the percentile's index leaves the list or counts from its end.
- ThresholdAnalysis.PercentileBetween: p is required to lie between 0 and 100, for the same reason.
- PromotionReadiness.ComputePromotionVerdict: the minimums are parameters; the defaults of 3 sessions, 7200 seconds, 3 fills and 10 evaluations are not singled out.
- ExposureRuns.ExposureStaysWithinLimits: does not cover foreign entry orders at the exchange or a portfolio snapshot that is stale when a candle closes; reports are assumed truthful, so that no live order is reported closed and every snapshot lists the live ones.
- Stabilisation.TwoCyclesStabilise: does not cover a snapshot whose linked orders are not open; `Convergence.SecondPassIsClean` says that such a snapshot is never clean.
- RateLimiter.EndpointRateLimiter.Acquire: the per-group lock is held throughout, so two acquisitions of a group never interleave, and the clock never goes back.
- ConfigMerge.LoadConfigStack: parsing the files and the symbol synchronisation after merging are not part of this model; a failure names the file and not the kind of error.
- Orchestrator.Orchestrator.PlaceDrill: which drills are validated, built or refused is an input, since it depends on settings and market data; a refusal before the link id is generated changes nothing that is modelled.
- PromotionReadiness.AggregateSoakReports: does not model the averages, the breakdowns of blocks and acknowledgement gaps, and the reconcile diagnostics of the aggregate, which no verdict reads.
- ThresholdAnalysis.ComputeThresholdGrid: does not model the retain ratio, the win rates and the positive rates of a row, which are quotients of its counts or need a list of profitable fills.
- Key order of the parameter dicts, which are compared as maps.
