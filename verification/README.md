# Trading kernel, verified

The repository under study is a research and backtesting platform. This project models its trading kernel, which
exists there in several versions that must agree, and proves what they are for:

- **One ledger.** Long-only average-cost accounting with cash, positions, costs and marks (`Ledger`, `Costs`).
- **Two engines over it.** The backtest loop with one pending slot (`Backtest`, `BacktestProofs`) and the event-driven
  paper session with a validator, a queue, a risk gate, a kill switch, an order state machine, a fill factory and a
  closing reconciliation (`Paper*`, `PartialFills`, `MarketData`, `KillSwitches`). `Simulation` and `Drift` prove that
  they are the same engine, bar by bar, under conditions on the strategy, the stream and the configurations;
  `Divergence` and `Refusal` hold literal streams. `PaperTiming`, `PaperFillTimes` and `PaperQueue` say when fills happen,
  `WholeFills` that a partial fill of everything is no partial fill.
- **A two-party protocol.** The execution gateway with its own book, its idempotency store and its capital limits,
  against a venue that keeps a second book and may fill, part-fill, reject, time out, be disconnected or raise at any
  step (`LiveOrders`, `LiveRisk`, `LiveReconciliation`, `MockBroker`, `Gateways`, `GatewayProofs`, `GatewayRuns`).
- **Companions.** Realized-profit replay (`TradeReplay`, `ReplayTrust`), drawdown, corporate actions, the order reconciler
  and symbol history.

## How it is built

Each stateful component appears twice. A description on values (a datatype and functions: `AfterFill`,
`ProcessEvent`, `Submit`, ...) is what the theorems quantify over, because they speak of whole runs. A class or a
method with loops (`Portfolio`, `PaperSession`, `ExecutionGateway`, `Backtest.Run`, ...) has the source's own form -
fields updated in place, shared order objects, dictionaries reassigned, early returns - and its contract ties every
new state to that description. `View()` reads the value out of an object.

Floats are reals, with the source's tolerances 1e-9, 1e-6, 1e-4 and 1e-12 kept as constants. Timestamps are seconds,
dates are day numbers. Order, intent and fill ids are terms made of the parts that are hashed; a client order id is
the payload string that is hashed. A strategy is any function of all the contexts it has been shown; an exception in
it is one of its answers.

## What turned out to be different from the claims

- The two engines are proved equal under `Simulation.Matched`, `Comparable` and `Replays`: the bars, strictly increasing
  and of one non-blank symbol, arrive as consecutively numbered events with distinct ids, on open days and of known
  instruments where the feed asks for that; at most one order per bar, market orders of positive quantity, a strategy
  that ignores the membership field (the paper session always sets it to TRUE, the backtest never sets it); orders
  filled whole, the same cash, rates and slippage, covered sale costs; and the ceilings only the paper session has are
  off or out of reach (`NeverBind`). Five of these are dropped one at a time on a literal stream, at the registered
  rates, on which the drift comparison then reports something: `Divergence.TwoOrdersDrift`, `PartialDrifts`,
  `LimitOrderDrifts`, `MembershipDrifts`, `CeilingDrifts`.
- Orders of the size of the tolerance may be refused by the ledger, which makes the backtest raise and the paper session
  halt (`RunFailsIff`, `RefusedIff`, `Refusal.SpecksAreRefused`).
- A partially filled paper order that meets any obstacle raises, because the table has no edge to REJECTED
  (`PaperAttempts.Attempted`, an if-and-only-if, and the session `Divergence.PartialFillHalts`).
- The gateway protects UNKNOWN, part-filled and stuck intents from being sent again, but not FILLED ones
  (`RetryAllowedIff`, `FilledIntentSentTwice`).
- Corporate actions are not idempotent: factors multiply again and dividends are paid again (`SecondApplicationIff`,
  `SecondApplicationUnsignedIff`, `DividendsPaidTwice`). A split leaves the last mark unadjusted, so equity jumps until
  the next mark (`SplitKeepsEquityIff`, `SplitDoublesEquity`).
- The profit replay is to be trusted only while no sale leaves a rest in (0, 1e-12] or below zero (`ReplayTrustedIff`,
  `DustMisleadsReplay`, `OversellingMisleadsReplay`).
- The running-peak drawdown may miss the worst pair once equity is negative (`WorstPairIff` says when,
  `NegativeEquityMayHideFalls`).
- Symbols before the listing date, or before the first change without one, are answered with the current symbol
  (`EarlierAnswersKeptIff`, `UnknownListingAnswers`, `ChangeRewritesThePast`).

## Model

| member | source | states |
|---|---|---|
| `Ledger.ProfitAndLossIdentity` | src/quantfund/backtest/portfolio.py:41-106 | After any sequence of accepted fills, marks and equity records over any number of symbols, equity is initial cash plus realized plus unrealized profit minus costs, and cash plus entry value has moved only by realized profit and costs |
| `Ledger.BalanceKept` | src/quantfund/backtest/portfolio.py:60-94 | No single operation changes cash + Σ average × quantity − realized + costs, although a buy divides to get its new average |
| `Ledger.EquitySplit` | src/quantfund/backtest/portfolio.py:41-58 | The three dictionary sums (market value, unrealized profit, entry value) are consistent: equity is cash plus entry value plus unrealized profit |
| `Ledger.EveryPointSplits` | src/quantfund/backtest/portfolio.py:96-106 | The same split for every equity point ever recorded: each was taken of the book some prefix of the operations leaves, and splits into initial cash, realized, unrealized and that book’s costs |
| `Ledger.Portfolio.ApplyFill` | src/quantfund/backtest/portfolio.py:63-94 | The whole new state of the portfolio, including what a refused fill has already recorded; false exactly when the original raises |
| `Ledger.Portfolio.TotalMarketValue` | src/quantfund/backtest/portfolio.py:41-45 | The loop adds every position at its mark, or at its average when it has none |
| `Ledger.Portfolio.UnrealizedPnl` | src/quantfund/backtest/portfolio.py:47-55 | The loop adds (mark − average) × quantity over the positions |
| `Ledger.Portfolio.UpdateMark` | src/quantfund/backtest/portfolio.py:60-61 | Only the one mark changes |
| `Ledger.Portfolio.RecordEquity` | src/quantfund/backtest/portfolio.py:96-106 | One equity point, built from the loops above, is appended and nothing else changes |
| `Costs.SellCostsCoveredIff` | src/quantfund/backtest/costs.py:110-145 | For every rate card, whatever the signs of its rates: no sale of any quantity at any price costs more than it brings in if and only if SellsCovered holds of the rates, a condition on three sums of them |
| `Costs.DefaultCostsCovered` | src/quantfund/backtest/costs.py:70-98 | The default equity-delivery rates satisfy it |
| `Costs.SlipPositive` | src/quantfund/backtest/broker_sim.py:29-35 | A slipped price stays positive if and only if the side is buy or the slippage is under 10,000 basis points |
| `Costs.SellCostAtMostProceeds` | src/quantfund/backtest/costs.py:110-145 | The direction of the same fact that the engines use: a covered rate card never makes a sale cost cash |
| `Backtest.CheckChronological` | src/quantfund/backtest/engine.py:134-137 | True exactly when no bar is earlier than its predecessor |
| `Backtest.Run` | src/quantfund/backtest/engine.py:128-284 | The engine (one portfolio object, one pending slot, nested loops) returns exactly the result of the step-by-step description the theorems below are about, failures included |
| `Backtest.TryFill` | src/quantfund/backtest/engine.py:153-190 | The pending order meets the open: look-ahead failure, cancellation for want of cash, refusal by the ledger or a fill |
| `Backtest.PlaceOrders` | src/quantfund/backtest/engine.py:218-282 | Every intended order in turn: risk refusal, no next bar, time not advancing, superseding |
| `Backtest.OneBar` | src/quantfund/backtest/engine.py:150-284 | One bar, from the open to the equity point |
| `BacktestProofs.NoLookAhead` | src/quantfund/backtest/engine.py:150-284 | Strictly increasing bar lists that share their first k bars give the same contexts, signals, fills, book and equity points after k bars, or the same failure, although placing an order reads the next bar |
| `BacktestProofs.NoLookAheadInResults` | src/quantfund/backtest/engine.py:128-284 | The complete results of two such runs agree on their first k signals, contexts and equity points and on every fill up to the k-th bar |
| `BacktestProofs.RunExplained` | src/quantfund/backtest/engine.py:150-284 | Every fill is the execution, at the open of bar i + 1, of an order the strategy gave at the close of bar i, and each bar is shown to the strategy exactly once |
| `BacktestProofs.RunExtends` | src/quantfund/backtest/engine.py:192-284 | What a run has recorded after k bars is a prefix of what it has recorded later |
| `BacktestProofs.LateFills` | src/quantfund/backtest/engine.py:153-190 | Fills made after bar k carry later timestamps |
| `BacktestProofs.RunFailsIff` | src/quantfund/backtest/engine.py:128-284 | A single-symbol run over strictly increasing bars with slippage under 100% fails, and then as a short sale, if and only if some bar meets an affordable buy of no more than the symbol is short; otherwise cash and position stay at least −1e-9 and the profit identity holds |
| `BacktestProofs.RunNeverFails` | src/quantfund/backtest/engine.py:128-284 | In particular no such run whose lots are above 1e-9 fails |
| `PaperOrders.OrderIntent.constructor` | src/quantfund/paper/orders.py:122-157 | A new intent: CREATED, nothing filled, named by session, event and order |
| `PaperOrders.OrderIntent.MoveTo` | src/quantfund/paper/orders.py:92-104 | The status moves, and a reason is kept, exactly when the table allows it; otherwise nothing changes |
| `KillSwitches.KillSwitch.Trip` | src/quantfund/paper/kill_switch.py:46-58 | A blank reason changes nothing; otherwise triggered and recorded |
| `KillSwitches.KillSwitch.Rearm` | src/quantfund/paper/kill_switch.py:60-75 | Needs a reason and an actor; the history only grows |
| `MarketData.Validator.Validate` | src/quantfund/paper/market_data.py:61-133 | Accepts exactly the events without an issue, in the order the checks report, and leaves the state alone on a rejection |
| `MarketData.Validator.Clear` | src/quantfund/paper/market_data.py:55-59 | Everything seen is forgotten |
| `MarketData.AcceptedIff` | src/quantfund/paper/market_data.py:61-133 | On every reachable state the seen-pairs set and the stale test together are one comparison: time strictly above the symbol’s watermark |
| `MarketData.AcceptedStreamOrdered` | src/quantfund/paper/market_data.py:61-133 | For every event list the accepted events have strictly increasing sequence numbers, distinct ids and strictly increasing times per symbol |
| `MarketData.OrderedStreamAccepted` | src/quantfund/paper/market_data.py:61-133 | Conversely an ordered admissible list is accepted whole |
| `PaperRisk.PaperRiskEngine.CheckIntent` | src/quantfund/paper/risk.py:63-143 | The paper gate and then the shared risk verdict; a refused intent becomes REJECTED with the reason, an accepted one is left as it was, one in the wrong state is refused |
| `PaperRisk.PaperRiskEngine.RecordAccepted` | src/quantfund/paper/risk.py:145-147 | One order and its notional are charged |
| `PaperExecution.PaperExecutionAdapter.Execute` | src/quantfund/paper/execution.py:63-166 | One attempt at the open: the adapter, the intent and the outcome are exactly what the pure description gives |
| `PaperExecution.PaperExecutionAdapter.Refused` | src/quantfund/paper/execution.py:79-128 | A refusal moves the intent to REJECTED, or raises when the table forbids it |
| `PaperExecution.PaperExecutionAdapter.Book` | src/quantfund/paper/execution.py:130-166 | A fill is built, numbered, remembered, and moves the intent to FILLED or PARTIALLY_FILLED |
| `PaperBooks.PaperPortfolio.ApplyFill` | src/quantfund/paper/portfolio.py:114-138 | A repeated fill id or a ledger refusal raises; otherwise ledger rows, cash rows and the portfolio move together |
| `PaperAttempts.Attempted` | src/quantfund/paper/execution.py:63-166 | An attempt on an open intent raises an illegal transition if and only if the intent is PARTIALLY_FILLED and something stands against it (the missing edge in the table), raises on the fill if and only if the slipped price is not positive, and otherwise refuses or fills |
| `PaperAttempts.AttemptedMoney` | src/quantfund/paper/execution.py:105-128 | A filled buy is affordable and a filled sale covered, each within one tolerance |
| `PaperReconciliation.Reconcile` | src/quantfund/paper/reconciliation.py:30-141 | Each finding code is reported if and only if the fills, replayed independently, contradict the book in that respect |
| `PaperReconciliation.Accumulate` | src/quantfund/paper/reconciliation.py:39-60 | The loop over the fills yields each symbol’s net quantity and the net cash |
| `PaperKernel.PaperSession.Start` | src/quantfund/paper/session.py:142-158 | Refuses a second start; fixes the day’s starting equity |
| `PaperKernel.PaperSession.ActivateKillSwitch` | src/quantfund/paper/session.py:160-165 | Only the switch changes |
| `PaperKernel.PaperSession.ResetKillSwitch` | src/quantfund/paper/session.py:167-169 | Only the switch changes |
| `PaperKernel.PaperSession.WalkQueue` | src/quantfund/paper/session.py:222-280 | The loop over shared, mutable order objects does what the description on values does, also when it stops half way |
| `PaperKernel.PaperSession.ExecutePendingOrders` | src/quantfund/paper/session.py:222-280 | The queue is replaced only if no ledger refusal or exception ended the walk |
| `PaperKernel.PaperSession.BookFill` | src/quantfund/paper/session.py:252-279 | The fill is listed before the ledger may refuse it; a remainder is rescheduled for the next number |
| `PaperKernel.PaperSession.ObserveClose` | src/quantfund/paper/session.py:282-305 | Mark, history and the context shown to the strategy |
| `PaperKernel.PaperSession.ScreenIntent` | src/quantfund/paper/session.py:336-374 | Structural check, validation, risk verdict, acceptance, each through the transition table |
| `PaperKernel.PaperSession.SubmitOrders` | src/quantfund/paper/session.py:320-384 | Every order becomes a new object; accepted ones are charged and queued for the next sequence number |
| `PaperKernel.PaperSession.DecideAtClose` | src/quantfund/paper/session.py:297-386 | Decision, orders, equity point; an exception in the strategy halts |
| `PaperKernel.PaperSession.ProcessEvent` | src/quantfund/paper/session.py:175-386 | One event, from validation to the equity point, with every way of halting |
| `PaperKernel.PaperSession.Stop` | src/quantfund/paper/session.py:388-415 | Reconciles the book with the fills; a mismatch halts |
| `WholeFills.SameRun` | src/quantfund/paper/fills.py:11-31 | A session that may fill partially but with ratio 1, the default, goes through exactly the states of the all-or-nothing session, over any run from any state |
| `PaperLifecycle.LifecycleOverRuns` | src/quantfund/paper/session.py:221-384 | In every run of a session that fills orders whole, kill-switch commands included, no illegal transition is attempted, each intent’s filled quantity is the sum of its fills, each is filled at most once, in full, at its scheduled event |
| `PaperLifecycle.RunLife` | src/quantfund/paper/orders.py:27-104 | Over any run no intent loses its place, changes its order or moves except along the table, and terminal ones never change; true of partial fills too |
| `PaperFillTimes.FillsAreConsecutive` | src/quantfund/paper/session.py:221-280 | Every run, either fill policy: an order’s first fill is at the number after the event that created it and each later fill at the number after the fill before it; after n fills an open order has exactly q(1 − r)^n left and waits for its next number; no fill comes once the fills so far are enough, that is n·r·1e-9 has reached q |
| `PaperFillTimes.FreezeEnds` | src/quantfund/paper/session.py:320-384 | The freeze under either fill policy: once the switch is tripped and not reset new orders are rejected, later fills belong to orders that were queued, come at consecutive numbers, and are over by the n-th number after the order’s event for every n that is enough |
| `PaperMoney.RunReconciles` | src/quantfund/paper/reconciliation.py:30-141 | For every event list, strategy and fill policy, halted or not: the closing reconciliation finds nothing, cash is at least −1e-9 and the profit identity holds; or the session halted on a ledger refusal, its last fill bought no more than a holding that was short by at most 1e-9, and the reconciliation finds nothing but a cash mismatch, and that if and only if that fill’s cash is more than 1e-6 |
| `PaperMoney.RefusedIff` | src/quantfund/paper/session.py:252-268 | Exactly when the ledger refuses an attempt, under either policy: a buy is filled whose next quantity is no more than the symbol is short |
| `PaperMoney.EveryRunReconciles` | src/quantfund/paper/session.py:388-402 | Orders filled whole, lots above 1e-9 and covered costs: the ledger never refuses and every run reconciles |
| `PaperMoney.NeverRefused` | src/quantfund/paper/execution.py:113-128 | The adapter’s pre-checks are strong enough that the ledger accepts what they let through |
| `PaperTiming.KillSwitchFreezes` | src/quantfund/paper/session.py:320-384 | Once tripped and not reset, in a session that fills orders whole, every later intent is rejected, and any later fill belongs to an order already queued and happens at the very next sequence number |
| `PaperTiming.OnlyQueuedOrdersFill` | src/quantfund/paper/session.py:320-384 | The same for either fill policy: nothing new is accepted and only orders queued at the trip ever fill |
| `PaperQueue.QueueHoldsOnlyNext` | src/quantfund/paper/session.py:221-280 | On consecutively numbered events of one symbol, with either fill policy and switch commands anywhere, every queued order is for that symbol and the very next number |
| `PaperTiming.MissedOrderNeverFills` | src/quantfund/paper/session.py:221-229 | Under either fill policy an order, or the remainder of a part-filled one, whose number has passed stays exactly as it is in every continuation, and none of the later fills is its own |
| `PaperTiming.CapsHoldOverRuns` | src/quantfund/paper/risk.py:63-147 | Over any run, for each cap that is set: accepted orders within their cap (unless none was accepted), accepted turnover within its cap plus one single 1e-9 |
| `PartialFills.PartialFillsShrink` | src/quantfund/paper/fills.py:21-31 | After n fills an open order has exactly q(1 − r)^n left, at most q/(1 + n·r); it never overfills; it is FILLED once n·r·1e-9 reaches q |
| `PartialFills.GeometricBelowHyperbola` | src/quantfund/paper/fills.py:21-31 | (1 − r)^n (1 + n·r) ≤ 1, the bound behind termination |
| `PartialFills.PartialOrderCompletes` | src/quantfund/paper/session.py:221-280 | Inside the session: on consecutive events of its symbol an accepted order is rejected at its first attempt or gains one fill per event until it is FILLED, unless the session halts |
| `Simulation.EnginesAgree` | src/quantfund/phase13/drift.py:68-136 | For every strategy and stream of the stated kind, after every bar: the same contexts but for the membership field, the same cash, positions, profits, costs, marks, equity curve and trades; the paper session halts if and only if the backtest has failed, and for the same reason |
| `Simulation.RunsAgree` | src/quantfund/phase13/drift.py:68-136 | The simulation relation, including the pending slot against the pending queue, holds after every bar |
| `Simulation.SameFactories` | src/quantfund/backtest/broker_sim.py:48-88 | The backtest’s and the paper session’s fill factories build the same trade |
| `Simulation.SameCashCheck` | src/quantfund/paper/execution.py:105-128 | The backtest’s check after building the fill and the paper session’s check before building it cancel the same orders |
| `Simulation.VerdictsAgree` | src/quantfund/paper/risk.py:63-143 | The two risk gates give the same verdict under the matched configuration, optional ceilings out of reach included, and an accepted order keeps them out of reach |
| `Simulation.SecondOrderSupersedes` | src/quantfund/backtest/engine.py:264-272 | The mechanism behind the two-order drift: of any two orders both engines accept at one close the backtest keeps the second, the paper session queues both |
| `Refusal.SpecksAreRefused` | src/quantfund/backtest/portfolio.py:69-73 | A literal stream at the registered rates with lots of the size of 1e-9: the backtest raises and the paper session halts on the same refusal |
| `Drift.Compare` | src/quantfund/phase13/drift.py:68-136 | Reports each kind of drift if and only if it is there |
| `Drift.ReplayHasNoDrift` | src/quantfund/phase13/drift.py:68-136 | Replaying a successful backtest through the paper session leaves the comparison with nothing to report |
| `Drift.RunLogs` | src/quantfund/backtest/engine.py:176-189 | The fill events the comparison reads are the portfolio’s fills, in order |
| `Divergence.TwoOrdersDrift` | src/quantfund/backtest/engine.py:264-272 | Two bars, two events and a strategy with two market orders at one close, all else as the equality asks: one fill against two, which the comparison reports |
| `Divergence.LimitOrderDrifts` | src/quantfund/paper/orders.py:160-166 | The same for one limit order, which the backtest fills and the paper session rejects |
| `Divergence.MembershipDrifts` | src/quantfund/paper/session.py:297-305 | The same for a strategy that looks at the membership field |
| `Divergence.CeilingDrifts` | src/quantfund/paper/risk.py:63-143 | The same for a paper order ceiling the backtest does not have |
| `Divergence.PartialDrifts` | src/quantfund/paper/fills.py:21-31 | The same for partial fills: one share against half a share |
| `Divergence.PartialFillHalts` | src/quantfund/paper/execution.py:79-128 | A literal session of three events, half a share bought and then an open it cannot pay for, that ends halted on an illegal transition |
| `LiveOrders.ClientOrderIdsDistinct` | src/quantfund/execution/live_orders.py:42-50 | Within a session no two (intent, epoch) pairs share a client order id payload, whatever characters the intent contains |
| `LiveOrders.RetryOnlyAfterTerminal` | src/quantfund/execution/live_orders.py:85-102 | A retry is allowed if and only if every record of the intent is terminal or only created |
| `LiveOrders.IdempotencyStore.PutRecord` | src/quantfund/execution/live_orders.py:79-83 | Both dictionaries move together; an id is listed once |
| `LiveOrders.IdempotencyStore.Retryable` | src/quantfund/execution/live_orders.py:85-102 | The loop returns the first blocking record’s reason |
| `LiveRisk.Merge` | src/quantfund/execution/live_risk.py:32-60 | The fold returns the greatest lower bound of the levels in every component, a missing level being infinity; no level is an error |
| `LiveRisk.MeetUnique` | src/quantfund/execution/live_risk.py:32-60 | which determines it |
| `LiveRisk.LiveRiskEngine.constructor` | src/quantfund/execution/live_risk.py:83-99 | The effective limits are the meet of the four levels, so the hierarchy check can never raise |
| `LiveRisk.LiveRiskEngine.Check` | src/quantfund/execution/live_risk.py:101-159 | The verdict, check by check |
| `LiveRisk.LiveRiskEngine.RecordAccepted` | src/quantfund/execution/live_risk.py:161-163 | One order and its notional are counted |
| `MockBroker.MockBrokerAdapter.SubmitOrder` | src/quantfund/execution/mock_broker.py:99-143 | Disconnected, capability error, time-out, rejection or trade: the venue’s whole new state and its answer |
| `MockBroker.MockBrokerAdapter.TradeOrder` | src/quantfund/execution/mock_broker.py:145-215 | Fill, part-fill, or refusal for want of cash or holdings, including the division that raises on a zero new quantity |
| `LiveReconciliation.ReconcileLiveState` | src/quantfund/execution/reconciliation_live.py:30-140 | The findings are exactly those that hold of the records, the positions and the cash |
| `LiveReconciliation.NoIssueIff` | src/quantfund/execution/reconciliation_live.py:43-130 | None at all if and only if no record and no position is disputed |
| `GatewayKernel.ExecutionGateway.constructor` | src/quantfund/execution/gateway.py:122-157 | A fresh gateway over its own store, switch, venue and risk engine |
| `GatewayKernel.ExecutionGateway.Exposure` | src/quantfund/execution/gateway.py:276-278 | The loop values every position at the order’s price |
| `GatewayKernel.ExecutionGateway.Admit` | src/quantfund/execution/gateway.py:234-301 | The first objection, in the order the checks are made |
| `GatewayKernel.ExecutionGateway.WriteAhead` | src/quantfund/execution/gateway.py:303-348 | The record is stored as CREATED and SUBMITTED before the venue is asked |
| `GatewayKernel.ExecutionGateway.TakeAnswer` | src/quantfund/execution/gateway.py:351-416 | The answer is recorded, counted and closes the epoch, by broker state |
| `GatewayKernel.ExecutionGateway.SubmitIntent` | src/quantfund/execution/gateway.py:224-416 | One submission over five objects leaves exactly the state and reply of the description on values |
| `GatewayKernel.ExecutionGateway.ApplyInternalFill` | src/quantfund/execution/gateway.py:443-454 | Internal position, cash and session capital after a fill |
| `GatewayKernel.ExecutionGateway.StartSession` | src/quantfund/execution/gateway.py:163-201 | Connects and starts |
| `GatewayKernel.ExecutionGateway.Reconcile` | src/quantfund/execution/gateway.py:456-488 | No finding if and only if the two parties agree; otherwise blocked and tripped |
| `GatewayKernel.ExecutionGateway.Recover` | src/quantfund/execution/recovery.py:21-50 | The walk over the store and the reconciliation meet the recovery specification, whatever order the dictionary is walked in |
| `GatewayProofs.NeverDiverge` | src/quantfund/execution/gateway.py:224-488 | For every run and every choice of fill, part-fill, reject, time-out and disconnect at each step: both books are equal, every record says what the venue says, reconciliation always passes, the gateway is never blocked |
| `GatewayProofs.BrokerAnswers` | src/quantfund/execution/mock_broker.py:99-215 | Whatever the venue does with a new id, what it answers is what it then shows, and its book moves by exactly what it reports |
| `GatewayProofs.PlaceKeeps` | src/quantfund/execution/gateway.py:224-416 | One submission keeps the protocol invariant, also when the venue raises half way |
| `GatewayProofs.RecoversIff` | src/quantfund/execution/recovery.py:21-50 | In every reachable state recovery succeeds if and only if the gateway was started, no record is UNKNOWN and the switch is armed; an UNKNOWN record is never adopted |
| `GatewayRuns.NoBlindRetry` | src/quantfund/execution/gateway.py:295-412 | Over any run each intent has at most one open record, an intent with an open record is never sent again, all ids ever sent differ, and the two store maps index the same records once each |
| `GatewayRuns.RetryAllowedIff` | src/quantfund/execution/live_orders.py:85-102 | In a reachable state another submission is allowed if and only if every record of the intent is REJECTED or FILLED |
| `GatewayRuns.FilledIntentSentTwice` | src/quantfund/execution/gateway.py:411-412 | A run in which one intent is filled twice under two ids, under limits that are the meet of three levels and the platform’s: filled intents are not protected |
| `GatewayRuns.LimitsHoldOverRuns` | src/quantfund/execution/gateway.py:275-293 | With positive reference prices: order count within its cap, turnover and session capital within theirs plus one 1e-9, cash and every position at least −1e-9, on both sides, over any run |
| `TradeReplay.TradePnls` | src/quantfund/analytics/metrics.py:56-84 | The loop returns the replay’s list of sale profits; its dictionary lookup never fails |
| `TradeReplay.ReplayRecoversRealized` | src/quantfund/analytics/metrics.py:56-84 | The sale profits sum to the ledger’s realized profit minus the costs of the sales whenever no sale leaves a rest in (0, 1e-12] or below zero |
| `TradeReplay.WholeReplayRecoversRealized` | src/quantfund/analytics/metrics.py:56-84 | Always so for whole-number quantities the ledger accepts |
| `ReplayTrust.ReplayTrustedIff` | src/quantfund/analytics/metrics.py:56-84 | For every accepted sequence of fills: no sale left a rest in (0, 1e-12] or below zero if and only if the replay reports rightly on every clean continuation of every prefix |
| `ReplayTrust.DustMisleadsReplay` | src/quantfund/analytics/metrics.py:81-83 | Accepted fills as the factory builds them, with distinct ids, that leave a rest of 5e-13 and on which replay and ledger differ |
| `ReplayTrust.OversellingMisleadsReplay` | src/quantfund/analytics/metrics.py:81-83 | The same for a sale a little beyond the holding, which the ledger’s tolerance lets pass |
| `Drawdown.MaxDrawdown` | src/quantfund/phase13/portfolio.py:63-71 | The loop’s result is minus the minimum of the elementwise falls of the analytics version, on every curve |
| `Drawdown.OnePassIsWorstPair` | src/quantfund/analytics/metrics.py:46-53 | On a curve with a positive point that never goes below zero it is the largest relative fall over all ordered pairs, in [0, 1], below 1 when every point is positive |
| `Drawdown.WorstPairIff` | src/quantfund/phase13/portfolio.py:63-71 | On every curve it is that if and only if some point is positive and every fall from a positive point to one below zero is outdone by a fall under the running peak |
| `Drawdown.NegativeEquityMayHideFalls` | src/quantfund/phase13/portfolio.py:63-71 | Two curves below zero: on one the running peak hides the worst pair, on the other it does not |
| `CorporateActions.ApplyToBook` | src/quantfund/phase13/portfolio.py:95-157 | The loop over the sorted actions leaves exactly the described book and outcomes |
| `CorporateActions.ByDateStable` | src/quantfund/phase13/portfolio.py:103 | The order used is by ex-date, each day’s actions in the order given |
| `CorporateActions.StableUnique` | src/quantfund/phase13/portfolio.py:103 | No other order has those properties |
| `CorporateActions.BatchAdjusts` | src/quantfund/phase13/portfolio.py:103-156 | Any batch keeps every average × quantity, multiplies each quantity by its symbol’s factors, moves cash by exactly the dividends on quantities split so far, and touches nothing else |
| `CorporateActions.FutureActionsIgnored` | src/quantfund/phase13/portfolio.py:104-106 | Actions after the as-of day change nothing |
| `CorporateActions.BatchCut` | src/quantfund/phase13/portfolio.py:103-156 | A batch cut at any day equals the two parts applied in turn |
| `CorporateActions.BatchIsDayByDay` | src/quantfund/phase13/portfolio.py:103-156 | One batch in any listed order equals applying each day’s actions on that day |
| `CorporateActions.SecondApplicationIff` | src/quantfund/phase13/portfolio.py:103-156 | Applying the same batch again changes nothing if and only if every held symbol’s factors multiply to 1 and the dividends due, each with its sign, add up to nothing |
| `CorporateActions.SecondApplicationUnsignedIff` | src/quantfund/phase13/portfolio.py:103-156 | Without negative amounts: if and only if the factors multiply to 1 and no non-zero dividend is due on a positive holding |
| `CorporateActions.DividendsPaidTwice` | src/quantfund/phase13/portfolio.py:130-138 | A dividend of 1 on 10 shares is paid a second time; a dividend and its reversal may be repeated |
| `CorporateActions.SplitKeepsEquityIff` | src/quantfund/phase13/portfolio.py:124-128 | A split keeps equity if and only if the symbol has no mark, the factor is 1 or its value is zero: the mark is not adjusted |
| `CorporateActions.SplitDoublesEquity` | src/quantfund/phase13/portfolio.py:124-128 | Ten shares marked at 10 and split two for one: equity goes from 100 to 200 |
| `SymbolHistory.ApplySymbolChange` | src/quantfund/data/identity.py:33-97 | The loop closes the open entry and appends the new one, or refuses |
| `SymbolHistory.SymbolIsStepFunction` | src/quantfund/data/models.py:82-89 | From a known listing date with changes in date order, every day from the listing answers the latest change on or before it |
| `SymbolHistory.EarlierAnswersKeptIff` | src/quantfund/data/models.py:82-89 | A later change leaves an earlier day’s answer alone if and only if the day is not before the listing or the name is the same |
| `SymbolHistory.UnknownListingAnswers` | src/quantfund/data/identity.py:67-76 | Without a listing date, after any number of changes: from the day before the first change the latest change decides, and every earlier day answers the current symbol |
| `SymbolHistory.ChangeRewritesThePast` | src/quantfund/data/identity.py:67-76 | One change, listed and unlisted: the answer for an early day turns from the old symbol to the new one |
| `BrokerReconciler.Reconcile` | src/quantfund/execution/reconciliation.py:86-326 | matched if and only if the two sides agree, stated on the lists without any dictionary; the findings are exactly those that hold |
| `BrokerReconciler.NothingHoldsIff` | src/quantfund/execution/reconciliation.py:95-326 | The dictionary comparisons find nothing if and only if the declarative agreement holds |
| `BrokerReconciler.FindRepeats` | src/quantfund/execution/reconciliation.py:96-139 | The seen-set loops report exactly the repeated ids |

## Left out

- Float rounding: arithmetic is over the reals; the tolerances are kept, the rounding they are there for is not.
- Time zones, ISO formatting, wall-clock fields, snapshots, state hashes and audit files: I/O and presentation. The
  backtest's event list is kept as far as the drift comparison reads it.
- Eligibility, certification and operator gates are single booleans of the gateway: long conjunctions of flags.
- `Strategy.prepare_data` and the optional context enricher of the backtest: the bars and the contexts are parameters.
- The status fields of backtest orders and its lists of orders and rejected orders: the log records the same events.
- `BrokerSimulator.execute` ignores the order type; so does the model, and the paper gate does not.
- SHA-256 itself: an id is its payload, so collisions are not modelled.
- Unicode whitespace in `str.strip`: blank means made of ASCII white space.
- `MockBrokerAdapter.cancel_order`, `get_open_orders` and `DryRunTransport.stats`: never used by the gateway.
- `ExecutionGateway.stop` and the exception for a missing operator reason: they change no state the model keeps.
- The order in which a dictionary is walked: where the source depends on it (which unknown record ends a recovery) the
  contract allows any order.
- Messages of findings: findings carry their code and key, not their text.
- `resolve_instrument_id` and the identity checks of `data/identity.py`: each is settled by reading its branches.
- Phase 11 to 13 session wrappers, order router, intent store, journals, dashboards and feature code: they rewrap this
  kernel or depend on adapters that are not part of this model.
- PaperMoney.EveryRunReconciles: is stated for rate cards that satisfy `SellsCovered`; `Costs.SellCostsCoveredIff` says
  exactly which these are, and the defaults are among them.
- GatewayKernel.ExecutionGateway.StartSession: the eligibility evaluation of the cited lines is a boolean parameter; the
  connection, the refusals and the new state follow it.
