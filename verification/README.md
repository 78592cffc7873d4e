# Verification of the trading ledger and its simulators

A Dafny model of the Python services that turn broker snapshots, paper fills and candles into positions, cash and
profit and loss, with proofs of the laws those services rely on. The modules follow the services:

- **LIVE order ledger.** `OrderStatus`, `LivePosition`, `LiveLedger`, `Polling`, `LiveBooks`, `Reconciliation`: broker snapshots are
  upserted into order rows, what they newly report as filled becomes an execution, and executions move a signed net
  position. `Polling` is the state machine over whole runs, in which the process may die between the commit of an order
  row and the commit of its execution.
- **Keyed placement.** `Placement` is the idempotency protocol as interleaved database steps of any number of requests,
  with failing commits and crashes anywhere; `IdempotencyService` is the service itself, whose every database step is
  one step of that protocol. `Replays` says what a key answers from then on, `LiveExits` what that means for protective
  exits.
- **Guards.** `RiskGuards` is the pre-trade guard chain; `FrequencyGuard` adds time and the frequency guard to the
  placement protocol.
- **PAPER accounting.** `TransactionCosts`, `PaperAccounting`, `PaperLaws`, `TrailingStop`, `StopLossService`.
- **Candle engines.** `FrozenEngine` is the frozen session; `FrozenTrades`, `FrozenExits`, `FrozenLevels` and `FrozenDrawdown` (with
  `Drawdown`) are what its scorecard and comments promise, `FrozenSession` the session updated in place. `Backtest` is
  the multi-strategy engine, with `BacktestTrades`, `BacktestLedger`, `BacktestPortfolio` and `NoLookAhead`.
- **Valuation.** `Valuation` for LIVE and `PaperValuation` for PAPER positions.

`Decimals`, `Market`, `MapSums` and `Text` hold shared vocabulary. Objects that the program updates in place are
classes; what each method does is tied to a function of the old state, and the laws are proved of that function over
every run.

`Decimal` amounts are `real` numbers with every `quantize` written out: half-even where the code names no mode,
half-up (away from zero) in the cost service. Tables are maps with atomic commits. Strategies are arbitrary functions
of the bars they have been shown.

`dafny verify dfyconfig.toml` checks the whole project.

## What the proofs found

- A fill that is lost between the two commits, or that arrives without an average price, is never made up for:
  executions add up to the stored fill of every order if and only if no such event happened
  (`Polling.ExecutionsCompleteExactlyWhenLossless`).
- Executions match the stored fills after every event if and only if no cumulative fill falls and none is lost
  (`Polling.AlwaysCompleteExactlyWhen`); for 5, 3 and 4 shares reported, 6 are executed
  (`Polling.FallingFillsOverExecute`), and a fill lost to a crash stays lost when it is reported again
  (`LiveBooks.LostFillStaysLost`).
- Positions are always what their executions make of them (`LiveBooks.PositionsAreTheirExecutions`). In a
  serial run that loses nothing they match the order rows at all times if and only if no average is restated
  (`LiveBooks.BooksAlwaysMatchExactlyWhen`); a restated average leaves them off by exactly the restatement (`Polling.BooksFollowOrders`, `LiveBooks.RestatedAverageSplitsTheBooks`).
- Once a keyed order has been executed, a later request with its key and payload gets a value if and only if the
  broker's acceptance has been stored, confirmed or not, and no recovery write after it: in every run, however the first
  request goes on or ends (`Replays.ReplayReturnsExactlyWhenStored`). Otherwise the order was executed all the same. When
  the process dies before the write, its key is in conflict for ever (`Replays.LostOrderStaysInConflict`); when the write
  cannot be read back and the recovery goes through, its replay reports a failure
  (`Replays.UnreadOrderIsReportedFailed`).
- The key of a LIVE protective exit names the price that fired it. Until a fill changes the open quantity, no more full
  exits are placed than there were different prices, in any run (`LiveExits.AtMostOneExitPerPrice`), and exactly as many
  when every commit and order goes through and nobody interferes (`LiveExits.OneExitPerPrice`).
- A limit of N orders a minute lets at most N - 1 keyed orders through, because an order's own row is committed before
  it asks the guard (`FrequencyGuard.MinuteRate`).
- The frozen engine's comments promise a target strictly above and a stop strictly below the entry. An evaluated position
  keeps that promise if and only if each level is on its side already or the entry is at least 25 (stop) and 15 (target)
  paise (`FrozenLevels.RepairedIsStrictExactlyWhen`); a configuration keeps it on all candles exactly when its lowest
  possible entry does (`FrozenLevels.StrictExactlyWhen`), and a position entered at 0.10 is evaluated with both levels
  at 0.10 (`FrozenLevels.TenPaiseAreLoose`).
- The scorecard's violation count is always 0 if and only if the configuration never trades, or its target ratio is at
  least 1/0.999 and its threshold above minus half a paisa (`FrozenExits.CleanExactlyWhenWide`).
- A raised trailing stop can fire itself at once, at tiny prices only; the exact condition on the average is
  `TrailingStop.RaisesAreSafe`.
- The one-pass drawdown is exact after every value if and only if each new value is not negative or the loss to it from
  the lowest positive value so far is within the figure (`Drawdown.AlwaysExactExactlyWhen`). A gap to one paisa makes a
  session report too little (`FrozenDrawdown.FallingSessionUnderstates`); candles within a range of one to nine, from 12
  paise up, never do (`FrozenDrawdown.ContainedDrawdownIsWorstPair`).
- The backtest's reported net asset value starts from the total capital even when custom allocations do not add up to
  it; it differs from the books by exactly that gap, up to rounding (`BacktestPortfolio.NavGapIsUnallocated`,
  `BacktestPortfolio.UnallocatedCapitalIsReported`). The class comment speaks of portfolio exposure limits and entries
  at the next open; the code limits quantity per symbol and enters at the close.
- Trades executed are completed trades and open positions if and only if no fill of the backtest was dust, a fill of at
  most 0.00005 shares that is rounded away (`BacktestPortfolio.RunIsAuditedExactlyWhen`,
  `BacktestPortfolio.DustIsCountedAsTrade`).
- The ledger's and the reconciliation report's reading of a broker word agree exactly on words without padding, unless
  the ledger shows PARTIAL under a word that does not itself read PARTIAL (`OrderStatus.NormalisersAgree`); the report
  strips nothing, so padded words never agree.
- For PAPER portfolios the quote-by-quote pass discards quotes more than 35 percent off the average, which the full pass
  accepts, and the full pass distrusts options above 2000, which the other does not. The exact condition for
  storing the same rows is `PaperValuation.Agrees` (`PaperValuation.IncrementalEqualsFullPassExactlyWhen`).
- Against quotes finer than a paisa a trade can be better than quoted (1.004 buys at 1.00), and a higher quote can sell
  for less (9.9999 at 10.00, 10.00 at 9.99). The exact conditions are `TransactionCosts.BuysNoBetterExactlyWhen`,
  `TransactionCosts.SellsNoBetterExactlyWhen` and `TransactionCosts.SalesKeepOrderExactlyWhen`.

## Model

| member | source | states |
|---|---|---|
| LivePosition.FillConserves | backend/app/services/execution_position_service.py:190-214 | in every branch a fill moves the net quantity by its signed size and realised P&L less cost of the holding by minus its value |
| LivePosition.FillIsDetermined | backend/app/services/execution_position_service.py:190-214 | four bookkeeping rules that do not mention the branches (nothing realised by adding, partial closes keep the average, flips carry the fill price, conservation) admit exactly one result, and it is the computed one |
| LivePosition.FillKeepsConsistent | backend/app/services/execution_position_service.py:190-214 | with positive prices the average stays non-negative and is 0 exactly when the quantity is 0 |
| LivePosition.RunConserves | backend/app/services/execution_position_service.py:190-214 | for every run of fills from flat: realised P&L = sells - buys + quantity times average, quantity = bought - sold, average 0 exactly when flat |
| LivePosition.AverageWithinFills | backend/app/services/execution_position_service.py:190-214 | the average of an open position lies between the cheapest and dearest fill of the run, through adds, partial closes and flips |
| LivePosition.TradingPosition.ApplyLivePosition | backend/app/services/execution_position_service.py:164-219 | the update in place leaves the specified position and conserves net proceeds |
| LiveLedger.OrderLedger.UpsertFromBroker | backend/app/database/repositories/broker_order_repository.py:55-126 | the stored row takes the snapshot's fields, keeps the old average when none is reported, and its normalised status; no other row changes |
| LiveLedger.OrderLedger.ReconcileBrokerOrder | backend/app/services/execution_position_service.py:34-100 | the new part of a fill becomes one execution at the incremental price and one position change; no new part, a known execution or a missing price change nothing, and only the last raises |
| LiveLedger.OrderLedger.FindExecution | backend/app/services/execution_position_service.py:56-58 | true exactly when an execution of this order and cumulative fill exists |
| LiveLedger.OrderLedger.ReconcileOrders | backend/app/services/broker_order_service.py:342-378 | a poll reads the previous fill before it upserts and applies the orders one after another, stopping at the first that raises with the earlier ones recorded |
| LiveLedger.ReplayIsIdle | backend/app/services/broker_order_service.py:354-368 | recording a snapshot again changes nothing, even after an attempt that stopped between the two commits |
| LiveLedger.RestOfPollSkipped | backend/app/services/broker_order_service.py:354-368 | after an order that raises, the outcome does not depend on the rest of the poll |
| Polling.IncrementTelescopes | backend/app/services/execution_position_service.py:24-32 | the incremental price values the new part at the growth of filled quantity times average |
| Polling.NewFillIsExecuted | backend/app/services/execution_position_service.py:43-58 | with rising fills the duplicate check never suppresses anything: every priced new fill is executed |
| Polling.StepAccounts | backend/app/services/broker_order_service.py:354-368 | one event adds to an order's executions what its row gained less what the event lost |
| Polling.ExecutionsAccountForFills | backend/app/services/broker_order_service.py:354-368 | for every serial run, crashes included, executions sum to the stored fill less exactly what was lost, so never exceed it |
| Polling.ExecutionsCompleteExactlyWhenLossless | backend/app/services/broker_order_service.py:354-368 | they sum to the stored fill for every order if and only if no event crashed between the commits or lacked a price on a new fill |
| Polling.StepStaysCompleteExactlyWhen | backend/app/services/execution_position_service.py:43-58 | from complete executions one event keeps them complete if and only if its fill has not fallen and is not lost |
| Polling.AlwaysCompleteExactlyWhen | backend/app/services/broker_order_service.py:354-368 | for every run at all: executions match the stored fills after every event if and only if no fill falls and none is lost |
| Polling.FallingFillsOverExecute | backend/app/services/execution_position_service.py:43-58 | reports of 5, 3, 4 shares execute 6: the bound needs rising fills |
| Polling.StepKeepsBooks | backend/app/services/execution_position_service.py:25-54 | a lossless event moves a symbol's position together with the sum over its order rows, apart from what it restates |
| Polling.BooksFollowOrders | backend/app/services/execution_position_service.py:25-54 | for every lossless run: net quantity is the signed sum of fills, and realised P&L less cost of the holding is minus the sum of fill times average, corrected by the restatements |
| Polling.BooksMatchUnlessRestated | backend/app/services/execution_position_service.py:43-54 | matching books stay matching for all symbols if and only if the event does not restate an average without a new fill |
| Polling.ScheduleIndependence | backend/app/services/execution_position_service.py:25-54 | two runs ending with the same fills and averages end with the same quantity and the same realised P&L less cost, whatever the polling points and interleaving |
| LiveBooks.PositionsAreTheirExecutions | backend/app/services/execution_position_service.py:60-100 | for every run at all each symbol's position is the position arithmetic run over its executions in order: executions and positions change together |
| LiveBooks.LedgerConserves | backend/app/services/execution_position_service.py:60-100 | for every run and symbol realised P&L is what the executions brought in less what they cost plus the cost of the holding, and the quantity is bought less sold |
| LiveBooks.PollIsRun | backend/app/services/broker_order_service.py:354-368 | a poll takes the ledger through its orders one event each, or through those up to the one that raises |
| LiveBooks.RaisesExactlyWhen | backend/app/services/execution_position_service.py:43-49 | an order raises exactly when it has a new fill and no average, of its own or stored |
| LiveBooks.PollKeepsBooks | backend/app/services/broker_order_service.py:354-368 | after an accepted poll, in a serial run that loses and restates nothing, every position is the signed sum of its order rows at minus the sum of fill times average |
| LiveBooks.ExecutionsAreToldApart | backend/app/services/execution_position_service.py:54-58 | in every run no two executions share order and cumulative fill |
| LiveBooks.SecondFillIsIncremental | backend/app/services/broker_order_service.py:354-368 | five shares at 100 and then ten at an average of 110: the second execution is five at 120 |
| LiveBooks.BooksAlwaysMatchExactlyWhen | backend/app/services/execution_position_service.py:25-54 | in a serial lossless run positions match the order rows after every event, for all symbols, if and only if no event restates an average |
| LiveBooks.LostFillStaysLost | backend/app/services/broker_order_service.py:354-368 | five shares whose execution a crash prevented are not executed when reported again |
| LiveBooks.RestatedAverageSplitsTheBooks | backend/app/services/execution_position_service.py:43-54 | five shares executed at 1.00 and restated at 2.00: the row says 10.00 spent, the position 5.00 |
| OrderStatus.NormalisersAgree | backend/app/database/repositories/broker_order_repository.py:38-53 | for every word: the ledger's and the report's reading agree if and only if it has no padding and the ledger does not show PARTIAL under a word that does not itself read PARTIAL |
| OrderStatus.WordsAre | backend/app/services/admin_reconciliation_service.py:31-42 | the fourteen broker words and what each reads as |
| OrderStatus.WholeFillsReadTheWord | backend/app/database/repositories/broker_order_repository.py:43-53 | unfilled and wholly filled orders show what the word table makes of the stripped word |
| OrderStatus.PartialExactlyWhen | backend/app/database/repositories/broker_order_repository.py:40-42 | PARTIAL is stored exactly for part fills the broker does not call CANCELLED or REJECTED, and for its own word PARTIAL |
| Reconciliation.IndexById | backend/app/services/admin_reconciliation_service.py:44-50 | the index holds the last snapshot entry of every order id |
| Reconciliation.CompareOrders | backend/app/services/admin_reconciliation_service.py:44-75 | the report holds exactly one line for every differing order known to either side and no other line |
| Reconciliation.UnreportedExactlyWhen | backend/app/services/admin_reconciliation_service.py:53-69 | an order is left out of the report exactly when both sides know it with the same fill and the same status word |
| Reconciliation.PollIngests | backend/app/services/broker_order_service.py:353-360 | after an accepted poll every snapshot order is in the ledger with the symbol, side, quantity, fill, reported average and normalised status of its last entry, and other orders are as they were |
| Reconciliation.ReportAfterPoll | backend/app/services/admin_reconciliation_service.py:44-75 | comparing the ledger with the snapshot just ingested, for any snapshot, lists exactly the orders it lacks and those whose last entry has a word the two sides read differently |
| Placement.ComputeFingerprint | backend/app/services/idempotency_service.py:31-48 | the hashed payload is the request without its sensitive fields, compared case-insensitively |
| Placement.FingerprintsAgreeExactlyWhen | backend/app/services/idempotency_service.py:31-48 | two payloads count as one request exactly when they agree on everything but the six sensitive fields in any capitalisation |
| Placement.NoFallThrough | backend/app/services/idempotency_service.py:82-117 | a request that meets another's row never reaches the execution; it returns a value exactly when the row is COMPLETED with its own fingerprint, and then the accepted order's five fields |
| Placement.StepKeepsInv | backend/app/database/repositories/order_idempotency_repository.py:38-171 | any step of any request, with any commit outcome, broker answer or crash, keeps: finished rows carry a payload, one owner a key, one call a key |
| Placement.ReachableInv | backend/app/services/idempotency_service.py:69-146 | the invariant holds after every interleaving |
| Placement.AtMostOnce | backend/app/services/idempotency_service.py:69-146 | per user, broker and non-blank key the order is executed at most once |
| Placement.ReturnedIsTheAcceptedOrder | backend/app/services/idempotency_service.py:100-130 | whoever gets a value gets the order id, symbol, side, quantity and status of the one order accepted for its key and payload |
| Placement.ReplaysAgree | backend/app/services/broker_order_service.py:262-278 | two requests of one key that both get a value asked for the same order and get the same order id, symbol, side, quantity and status |
| Placement.UnkeyedGoesThrough | backend/app/services/idempotency_service.py:69-70 | a request whose key is all white space goes to the broker each time, gets the whole order or the error, and leaves no row |
| Replays.FinalForever | backend/app/database/repositories/order_idempotency_repository.py:90-171 | once its owner is through, finished or dead, no step of anyone changes a row |
| Replays.EndOfOwnerIsFinal | backend/app/database/repositories/order_idempotency_repository.py:90-171 | any step that ends the owner, its death included, leaves the row final as it then is |
| Replays.ReplayDecides | backend/app/services/idempotency_service.py:82-117 | a request decides on the row it has found, in any run and whatever has become of its owner |
| Replays.ReplayReturnsExactlyWhenStored | backend/app/services/idempotency_service.py:82-146 | in every run, once a keyed order has been executed: a request of its key and payload gets a value if and only if the broker's acceptance has been stored and no recovery write after it, and then the accepted order's id, symbol, side, quantity and status; without a write a conflict, after a network error an unknown outcome, after another error or a recovery a replayed failure; executed once in each case |
| Replays.FreeKeyIsExecuted | backend/app/services/idempotency_service.py:119-146 | alone, with commits going through, the first request of a key is executed once and gets the whole accepted order, its error, or an unknown outcome after a network error |
| Replays.OtherPayloadIsTurnedAway | backend/app/services/idempotency_service.py:82-90 | in every run a request with the key of an executed order and another payload is a mismatch |
| Replays.LostOrderStaysInConflict | backend/app/services/idempotency_service.py:119-130 | an order whose process dies before the COMPLETED write is placed once, and its key is in conflict for ever |
| Replays.UnreadOrderIsReportedFailed | backend/app/services/idempotency_service.py:119-146 | an order whose COMPLETED write cannot be read back is placed once, and its replay reports a failure |
| Replays.CutOrderIsReturned | backend/app/services/idempotency_service.py:119-146 | a stored but unconfirmed COMPLETED write followed by death: the replay returns the order |
| LiveExits.SameKeyExactlyWhenSamePrice | backend/app/services/stop_loss_service.py:372-372 | two exits of one open quantity share a key if and only if the same price fired them |
| LiveExits.NextFiring | backend/app/services/stop_loss_service.py:372-380 | when every commit and order goes through and nobody interferes: a further firing is suppressed if and only if its price has fired before at that quantity |
| LiveExits.OneExitPerPrice | backend/app/services/stop_loss_service.py:372-380 | when every commit and order goes through and nobody interferes: as many full exits are placed at one open quantity as there were different prices |
| LiveExits.AtMostOneExitPerPrice | backend/app/services/stop_loss_service.py:372-380 | in every run, with others, failing commits and crashes, no more than that |
| IdempotencyService.Service.GetOrCreatePending | backend/app/database/repositories/order_idempotency_repository.py:38-88 | lookup, insert, and reread after a refused insert, as exactly these steps of the protocol, with the request as owner exactly when the key was free and the commit confirmed |
| IdempotencyService.Service.Mark | backend/app/database/repositories/order_idempotency_repository.py:90-171 | the row's final state as written, nothing on a failed commit, confirmation only after commit and refresh |
| IdempotencyService.Service.Decide | backend/app/services/idempotency_service.py:82-117 | the outcome against an existing row, the fall-through being unreachable |
| IdempotencyService.Service.ExecuteIdempotentOrder | backend/app/services/idempotency_service.py:50-146 | a request takes exactly the protocol steps its script of database and broker answers calls for, with others' steps in every gap, and ends in the outcome it returns |
| IdempotencyService.Service.Conclude | backend/app/services/idempotency_service.py:119-146 | the broker's answer is settled as COMPLETED, UNKNOWN or FAILED, with one recovery write when the COMPLETED commit is not confirmed |
| RiskGuards.NetHeld | backend/app/services/risk_engine.py:79-85 | the loop sums the holdings of the symbol, case-insensitively |
| RiskGuards.HoldingAfter | backend/app/services/risk_engine.py:79-87 | a further holding counts exactly when it is named and its symbol is the same but for capitals |
| RiskGuards.ValidateOrder | backend/app/services/risk_engine.py:22-115 | passes exactly when no guard is breached; otherwise the first breached guard in the stated order refuses |
| RiskGuards.PassesExactlyWhen | backend/app/services/risk_engine.py:46-115 | no guard is breached exactly when the order keeps each of the seven limits, the holding after it included |
| FrequencyGuard.NextKeepsRate | backend/app/database/repositories/trading_risk_repository.py:74-87 | one tick, placement step or guard check keeps the rate bound of every minute and account |
| FrequencyGuard.ExecutingHasRow | backend/app/services/idempotency_service.py:75-80 | a request that executes has its row in the table, so the guard counts it: a consequence of the protocol's invariant |
| FrequencyGuard.PassesExactlyWhenRoom | backend/app/database/repositories/trading_risk_repository.py:74-87 | an executing order passes exactly when the rows its account created in the last sixty seconds, its own included, are fewer than the limit |
| FrequencyGuard.MinuteRate | backend/app/services/risk_engine.py:51-59 | under every interleaving of the placement protocol at most limit - 1 keyed orders of an account are both created and passed within any minute |
| TransactionCosts.SlippageBounds | backend/app/services/transaction_cost_service.py:24-52 | slippage is at most 0.1 percent plus half a paisa and 0 below five rupees |
| TransactionCosts.EffectivePriceIs | backend/app/services/transaction_cost_service.py:24-52 | slippage is that rate of the price to half a paisa, added to a purchase and taken off a sale down to one paisa |
| TransactionCosts.SlippageRateIs | backend/app/services/transaction_cost_service.py:24-52 | 0.05 percent when calm, in proportion to the volatility, 0.1 percent from 3 percent on |
| TransactionCosts.SlippageIsAdverse | backend/app/services/transaction_cost_service.py:24-52 | against the quote rounded to the paisa a purchase never gets a better price and a sale never a better one down to the one-paisa floor |
| TransactionCosts.BuysNoBetterExactlyWhen | backend/app/services/transaction_cost_service.py:24-52 | a purchase gets no better price than quoted if and only if rounding has not lowered the quote or slippage reaches half a paisa |
| TransactionCosts.SellsNoBetterExactlyWhen | backend/app/services/transaction_cost_service.py:24-52 | a sale gets no better price than quoted, down to the floor, if and only if rounding has not raised the quote above it or slippage reaches half a paisa |
| TransactionCosts.FinerQuoteBuysCheaper | backend/app/services/transaction_cost_service.py:24-52 | 1.004 buys at 1.00 |
| TransactionCosts.PurchasesKeepOrder | backend/app/services/transaction_cost_service.py:24-52 | a higher quote never makes a cheaper purchase |
| TransactionCosts.SalesKeepOrderExactlyWhen | backend/app/services/transaction_cost_service.py:24-52 | a higher quote sells for no less, except exactly when both quotes round to one paisa while slippage steps up between them above the floor |
| TransactionCosts.SlippageKeepsOrder | backend/app/services/transaction_cost_service.py:24-52 | a sale at a higher quote is worse by at most one paisa, and not at all at quotes in paise |
| TransactionCosts.FinerQuoteSellsDearer | backend/app/services/transaction_cost_service.py:24-52 | 9.9999 sells at 10.00 and 10.00 at 9.99 |
| TransactionCosts.TotalIsSum | backend/app/services/transaction_cost_service.py:55-120 | the rounded total is exactly the sum of the rounded components |
| TransactionCosts.SmallTradesAreFree | backend/app/services/transaction_cost_service.py:55-120 | below 4.99 every charge rounds to nothing |
| TransactionCosts.ChargesNearExact | backend/app/services/transaction_cost_service.py:55-120 | the total is within 3.27 paise of the unrounded tariff |
| TransactionCosts.TariffIs | backend/app/services/transaction_cost_service.py:55-120 | every part of the charges is its percentage of the value to half a paisa, by side, product and exchange |
| TransactionCosts.ChargesBelowValue | backend/app/services/transaction_cost_service.py:55-120 | charges are never negative and never exceed the order value, for any value, side, product and exchange |
| TransactionCosts.ChargesMonotone | backend/app/services/transaction_cost_service.py:55-120 | a larger order never pays less |
| PaperAccounting.CostsAreCovered | backend/app/services/paper_accounting_service.py:176-190 | the cost of a fill covers its charges |
| PaperAccounting.FillKeepsSolvent | backend/app/services/paper_accounting_service.py:191-245 | no accepted fill of any size, price and rounding takes cash or a holding below zero |
| PaperAccounting.OpeningBuy | backend/app/services/paper_accounting_service.py:202-217 | an opening purchase of whole shares is carried at exactly its cost without charges |
| PaperAccounting.AdditionalBuy | backend/app/services/paper_accounting_service.py:202-217 | a further purchase is carried at cost with charges, up to 0.00005 per share then held |
| PaperAccounting.AnySell | backend/app/services/paper_accounting_service.py:229-245 | a sale's proceeds, released cost and realised P&L cancel exactly |
| PaperAccounting.FillConserves | backend/app/services/paper_accounting_service.py:182-245 | one fill keeps cash plus holdings at average less realised P&L, apart from opening charges and the rounding of a new average |
| PaperAccounting.RunConserves | backend/app/services/paper_accounting_service.py:182-245 | for every run of whole-share fills at paise prices that sum stays at its start less the opening charges, up to 0.00005 per share after each further purchase |
| PaperAccounting.BookedOnce | backend/app/services/paper_accounting_service.py:111-119 | in every run a named execution is booked at most once, and is on record exactly when it was |
| PaperLaws.AcceptedExactlyWhen | backend/app/services/paper_accounting_service.py:104-223 | a fill is booked exactly when it is a PAPER fill of a new execution with sound parameters that cash or the holding covers |
| PaperLaws.RefusedWith | backend/app/services/paper_accounting_service.py:104-145 | mode, duplicate and parameters are refused in that order; cash refuses purchases only, the holding sales only |
| PaperLaws.FillMovesCashAndHolding | backend/app/services/paper_accounting_service.py:191-243 | an accepted fill moves cash by cost and charges and the holding by its quantity, to the fourth decimal, and touches no other symbol |
| PaperLaws.RunKeepsPnl | backend/app/services/paper_accounting_service.py:229-232 | after any fills the portfolio's realised P&L is the sum of its positions' |
| PaperLaws.SaleRealizesGain | backend/app/services/paper_accounting_service.py:229-232 | a sale realises the gain on the average less its charges, on its position and on the portfolio alike; a purchase realises nothing |
| PaperLaws.CostBasisIsCarried | backend/app/services/paper_accounting_service.py:202-243 | the cost basis is what the holding is carried at, up to rounding, plus the charges of an opening purchase |
| PaperLaws.RoundTripCosts | backend/app/services/paper_accounting_service.py:182-245 | ten shares bought and sold at 100 with delivery charges leave 1997.77 of 2000 and a realised -1.04 |
| PaperAccounting.PaperPortfolio.RecordFill | backend/app/services/paper_accounting_service.py:73-290 | the update in place leaves the specified account, or the account unchanged and the specified error |
| PaperAccounting.GetRiskSnapshot | backend/app/services/paper_accounting_service.py:40-71 | the snapshot lists exactly the positions of all the user's portfolios, and the exposure is their holdings at cost together |
| TrailingStop.CandidateMonotone | backend/app/services/stop_loss_service.py:125-141 | a higher price never justifies a lower stop, across the profit levels and their rounding |
| TrailingStop.RaisedTo | backend/app/services/stop_loss_service.py:125-145 | the stop after a price, to half a paisa: 3.5, 1.5 and 0.1 percent above the average from gains of 5, 3 and 1.5 percent, or 1.5 percent below the price |
| TrailingStop.FollowIsClosedForm | backend/app/services/stop_loss_service.py:115-145 | after any run of ticks the stop is the greater of its start and what the highest tick justifies |
| TrailingStop.NeverFalls | backend/app/services/stop_loss_service.py:115-145 | the stop only ratchets upwards |
| TrailingStop.OrderIsIrrelevant | backend/app/services/stop_loss_service.py:115-145 | any reordering of the ticks ends with the same stop |
| TrailingStop.FiresAtFirstCrossing | backend/app/services/stop_loss_service.py:201-209 | a watched position fires at the first tick at or below the closed form of the ticks up to it, and not before |
| TrailingStop.RaiseStaysBelowPrice | backend/app/services/stop_loss_service.py:125-145 | for averages above 5/14 a newly raised stop is strictly below the price that raised it |
| TrailingStop.RaisesNeverFireExactlyWhenSafe | backend/app/services/stop_loss_service.py:125-145 | for any average, raising never fires the stop at any price if and only if four checkable inequalities on the average hold |
| TrailingStop.TinyPricesFireThemselves | backend/app/services/stop_loss_service.py:139-145 | bought at 0.3448, a tick of 0.35 raises the stop to 0.35 and fires it |
| StopLossService.SellAllFlattens | backend/app/services/stop_loss_service.py:247-259 | the protective sale is always accepted, at the quote and free of charges, leaves the position flat and touches no other |
| StopLossService.Monitor.UpdateTrailingStop | backend/app/services/stop_loss_service.py:99-150 | the stop moves to the greater of itself and its candidate |
| StopLossService.Monitor.EvaluatePosition | backend/app/services/stop_loss_service.py:193-304 | the stop is raised first; the position is sold out and closed exactly when the price is at or below it and its exit is not in flight already; the in-flight set is left as it was |
| StopLossService.Monitor.ScanAndEnforce | backend/app/services/stop_loss_service.py:413-421 | every quoted position is handled once and reported exactly when sold; unquoted ones are untouched |
| StopLossService.GuardedIsSafe | backend/app/services/stop_loss_service.py:201-209 | after a scan a quoted position is flat, or above a stop that has not fallen, or its exit is in flight |
| StopLossService.MonitorFollowsRatchet | backend/app/services/stop_loss_service.py:201-209 | over any ticks the monitor holds the stop of the ratchet and closes the position at its first crossing |
| StopLossService.NoAverageNoRatchet | backend/app/services/stop_loss_service.py:121-122 | a position without a positive average keeps its stop |
| Drawdown.OnePassIsWorstPair | backend/app/services/frozen_strategy_paper_trading_engine.py:308-317 | while no value is negative the running figure is attained by some pair and bounds the loss of every ordered pair |
| Drawdown.StepStaysExactExactlyWhen | backend/app/services/frozen_strategy_paper_trading_engine.py:308-317 | from an exact history the next value leaves the figure exact if and only if it is not negative or the loss to it from the lowest positive value so far is within the figure |
| Drawdown.AlwaysExactExactlyWhen | backend/app/services/frozen_strategy_paper_trading_engine.py:308-317 | the figure has been exact after every value if and only if that held at every value |
| Drawdown.WorstIsAttained | backend/app/services/frozen_strategy_paper_trading_engine.py:308-317 | for any history the figure is the loss from some value to a later one |
| FrozenEngine.CandleKeepsBalance | backend/app/services/frozen_strategy_paper_trading_engine.py:189-222 | a candle keeps cash plus open notional = capital + realised P&L, P&L and charges = sums over the log, and the reported value |
| FrozenEngine.RunIsBalanced | backend/app/services/frozen_strategy_paper_trading_engine.py:260-306 | that holds after every candle of every run |
| FrozenEngine.EntryNeverOverspends | backend/app/services/frozen_strategy_paper_trading_engine.py:248-291 | an entry of a whole number of shares costs quantity times effective price, within the cash and the configured quantity |
| FrozenEngine.HeldPositionIsMarkedToMarket | backend/app/services/frozen_strategy_paper_trading_engine.py:223-228 | a position carried through a candle is valued at its close |
| FrozenTrades.OpensExactlyWhen | backend/app/services/frozen_strategy_paper_trading_engine.py:233-260 | a flat session opens a position exactly on a close at the threshold or above, with the change and range the filters ask for, and one share configured and affordable |
| FrozenTrades.RaisesExactlyWhenPriceless | backend/app/services/frozen_strategy_paper_trading_engine.py:248-257 | a candle raises exactly when a flat session is to buy at a price that rounds to nothing |
| FrozenTrades.OpensAsManyAsPossible | backend/app/services/frozen_strategy_paper_trading_engine.py:250-291 | the position is of as many shares as configured or else as cash buys, at the effective close |
| FrozenTrades.LevelsKeepProportion | backend/app/services/frozen_strategy_paper_trading_engine.py:267-278 | target and stop keep the configured proportion to the entry to half a paisa, or 3.5 percent up and 2 down where that makes no sense |
| FrozenTrades.RepairsOnlyWrongLevels | backend/app/services/frozen_strategy_paper_trading_engine.py:127-136 | a level on its side of the entry is left alone, the other is re-derived |
| FrozenTrades.ClosesExactlyWhen | backend/app/services/frozen_strategy_paper_trading_engine.py:138-228 | an open position is closed exactly by a candle that reaches a level, the stop first, at the open through a gap, with its figures; otherwise only its mark changes |
| FrozenTrades.RunIsJustified | backend/app/services/frozen_strategy_paper_trading_engine.py:189-306 | in every run each trade and the open position were entered on a qualifying candle at its effective close, and each trade's gain, charges and net add up |
| FrozenTrades.ShippedConfigBuysRises | backend/app/services/frozen_strategy_paper_trading_engine.py:235-248 | the shipped configuration buys a rise of 1.2 percent to 396 and not the same candle falling by 3 |
| FrozenExits.TakeProfitNotBelowEntry | backend/app/services/frozen_strategy_paper_trading_engine.py:155-167 | no gap, slippage or rounding takes a take-profit exit at a safe target below the entry |
| FrozenExits.StopLossNotAboveEntry | backend/app/services/frozen_strategy_paper_trading_engine.py:145-167 | no stop-loss exit ends above the entry |
| FrozenExits.TouchedStopNeverProfits | backend/app/services/frozen_strategy_paper_trading_engine.py:145-154 | a candle that touches the stop closes the position at or below entry even when it touches the target |
| FrozenLevels.RepairedIsStrictExactlyWhen | backend/app/services/frozen_strategy_paper_trading_engine.py:127-136 | an evaluated position lies strictly between its levels if and only if each level is on its side already or the entry is at least 25 paise (stop) and 15 paise (target) |
| FrozenLevels.StrictExactlyWhen | backend/app/services/frozen_strategy_paper_trading_engine.py:264-278 | for every configuration: on any capital and candles every open position is evaluated strictly between its levels if and only if it never trades or its lowest possible entry has strict levels |
| FrozenLevels.QuarterRupeeIsStrict | backend/app/services/frozen_strategy_paper_trading_engine.py:264-278 | with a threshold of at least 0.25 every run evaluates every position strictly between its levels |
| FrozenLevels.TenPaiseAreLoose | backend/app/services/frozen_strategy_paper_trading_engine.py:127-136 | a session entered at 0.10 is evaluated with stop, entry and target all at 0.10 |
| FrozenLevels.StrictAtGrows | backend/app/services/frozen_strategy_paper_trading_engine.py:264-278 | levels that survive rounding at one entry price survive it at every higher one |
| FrozenExits.NoViolations | backend/app/services/frozen_strategy_paper_trading_engine.py:385-391 | for every candle sequence the log holds no violation when the target covers the highest slippage rate |
| FrozenExits.CleanExactlyWhenWide | backend/app/services/frozen_strategy_paper_trading_engine.py:267-278 | for every configuration: no capital and no candles give a violation if and only if it never trades, or its target multiplier is at least 1/0.999 and its threshold above minus half a paisa |
| FrozenExits.NarrowTargetViolates | backend/app/services/frozen_strategy_paper_trading_engine.py:267-278 | a target 0.05 percent above the threshold gives a take-profit at 1000.00 of an entry at 1000.50 |
| FrozenExits.ShippedConfigIsWide | backend/app/services/frozen_strategy_service.py:147-149 | the shipped configuration meets the condition |
| FrozenDrawdown.SessionPeakIsOnePass | backend/app/services/frozen_strategy_paper_trading_engine.py:293-317 | the session's peak and drawdown are the one-pass fold over its reported values |
| FrozenDrawdown.DrawdownIsWorstPair | backend/app/services/frozen_strategy_paper_trading_engine.py:293-317 | while no reported value is negative, the drawdown is the largest loss between any two of them |
| FrozenDrawdown.SalePaysCharges | backend/app/services/frozen_strategy_paper_trading_engine.py:169-194 | a sale at a tenth of the purchase price or more pays the charges of both, for any size |
| FrozenDrawdown.ContainedDrawdownIsWorstPair | backend/app/services/frozen_strategy_paper_trading_engine.py:293-317 | for every configuration and non-negative capital, candles within a range of one to nine from 12 paise up keep the value from going negative, so the drawdown is exact |
| FrozenDrawdown.FallingSessionUnderstates | backend/app/services/frozen_strategy_paper_trading_engine.py:293-317 | a session of three candles with values 1000.50, 1000.50, 990.00 and -1.18 reports less than the loss from 990.00 to -1.18 |
| FrozenSession.PaperSession.ProcessCandle | backend/app/services/frozen_strategy_paper_trading_engine.py:95-320 | the update in place leaves the specified session, or an unchanged one when the candle raises |
| FrozenSession.PaperSession.EvaluateExit | backend/app/services/frozen_strategy_paper_trading_engine.py:121-228 | repair, exit or mark of an open position |
| FrozenSession.PaperSession.TryEntry | backend/app/services/frozen_strategy_paper_trading_engine.py:233-291 | filters, sizing and levels of an entry |
| FrozenSession.PaperSession.Integrity | backend/app/services/frozen_strategy_paper_trading_engine.py:385-398 | for any session a run has produced, the discrepancy is exactly 0 and the violation count 0 when the target is wide |
| Backtest.Engine.IndexFeed | backend/app/services/backtesting_engine_service.py:225-243 | the candle index and the timestamps of a feed |
| Backtest.Engine.CombinedQuantity | backend/app/services/backtesting_engine_service.py:414-417 | what all buckets hold of a symbol |
| Backtest.Engine.EvaluateExit | backend/app/services/backtesting_engine_service.py:264-343 | a touched level closes the position at that level, with slippage and charges |
| Backtest.Engine.EvaluateEntry | backend/app/services/backtesting_engine_service.py:370-448 | sizing, the capital and limit checks and the fill; a signal blocked for capital abandons the bar |
| Backtest.Engine.ProcessBar | backend/app/services/backtesting_engine_service.py:252-468 | one bucket's bar: exit, then signal, entry and equity; no other bucket changes |
| Backtest.Engine.RunBacktest | backend/app/services/backtesting_engine_service.py:249-473 | the nested loops compute the specified run |
| Backtest.Engine.FinalNav | backend/app/services/backtesting_engine_service.py:524-543 | total capital plus the realised P&L of all buckets, rounded |
| BacktestTrades.ClosesExactlyWhen | backend/app/services/backtesting_engine_service.py:265-343 | a held bucket is sold out exactly by a bar that reaches its stop or target, at the one reached, or by the rule when both are, with its figures |
| BacktestTrades.BuysExactlyWhen | backend/app/services/backtesting_engine_service.py:370-448 | a flat bucket fills a purchase signal exactly when quantity, cash and limit allow, at the stated price, cost and levels; the two kinds of blocking are told apart |
| BacktestTrades.IgnoresOtherSignals | backend/app/services/backtesting_engine_service.py:370-372 | no signal, a sale or a purchase while holding moves nothing |
| BacktestTrades.SizesToCash | backend/app/services/backtesting_engine_service.py:383-390 | auto-sizing asks for what was signalled or else for as many whole shares as cash buys with 0.2 percent to spare |
| BacktestTrades.BarIsObserved | backend/app/services/backtesting_engine_service.py:460-468 | equity, peak and worst loss of a bar that is not abandoned |
| BacktestTrades.RunShows | backend/app/services/backtesting_engine_service.py:252-368 | each strategy is shown exactly the bars of its symbol in the order of time, the present one included |
| BacktestTrades.SweepNavIsWorth | backend/app/services/backtesting_engine_service.py:460-473 | the equity point of a timestamp is what the buckets with a bar that were not abandoned are worth at its close |
| BacktestTrades.CurveIsWorth | backend/app/services/backtesting_engine_service.py:249-473 | each point of the equity curve is, to the paisa, what the buckets with a bar that were not abandoned were worth at its close |
| BacktestTrades.RunStaysHonest | backend/app/services/backtesting_engine_service.py:305-343 | in every run each trade's charges and net add up, and realised P&L is their sum up to one rounding a trade |
| BacktestLedger.ExitKeeps | backend/app/services/backtesting_engine_service.py:297-324 | an exit keeps a bucket's counters and books |
| BacktestLedger.EntryIsAuditedExactlyWhen | backend/app/services/backtesting_engine_service.py:373-434 | every purchase signal is counted once; the trade counter goes on agreeing with the books if and only if the fill is no dust |
| BacktestLedger.EntryKeeps | backend/app/services/backtesting_engine_service.py:383-434 | an entry takes its cost basis out of cash, never more than there is, and respects the position limit |
| BacktestLedger.EntrySetsLevels | backend/app/services/backtesting_engine_service.py:436-448 | whatever levels a signal names, the stop ends at or below and the target at or above the entry price |
| BacktestLedger.StopFirstIsPessimistic | backend/app/services/backtesting_engine_service.py:278-287 | when a bar touches both levels, the stop-first rule never reports a better exit price than the other |
| BacktestLedger.BarKeeps | backend/app/services/backtesting_engine_service.py:252-468 | one bar keeps a bucket's signal count, cash and books for every configuration, price and strategy |
| BacktestLedger.BarIsAuditedExactlyWhen | backend/app/services/backtesting_engine_service.py:252-468 | one bar keeps the trade counter agreeing with the books if and only if its fill is no dust |
| BacktestPortfolio.HeldAfterUpdate | backend/app/services/backtesting_engine_service.py:414-417 | changing one bucket changes a symbol's total by that bucket's change |
| BacktestPortfolio.NewBucketsAreKept | backend/app/services/backtesting_engine_service.py:105-129 | new buckets meet the invariant, whatever capital they are given |
| BacktestPortfolio.RunKeepsAll | backend/app/services/backtesting_engine_service.py:249-473 | for every configuration, feed and strategy, after every timestamp: signals are counted once, no symbol exceeds the limit over all buckets (up to the rounding of a finer quantity), cash stays at or above the lesser of the capital and 0 with slippage on, and cash + cost basis = capital + realised P&L up to a stated drift in every bucket without a dust fill; exactly for whole shares, slippage on and capital of at most four decimals |
| BacktestPortfolio.RunIsAuditedExactlyWhen | backend/app/services/backtesting_engine_service.py:249-473 | for every configuration, feed and strategy, from counted buckets: executed signals are completed trades and open positions in every bucket at the end if and only if they were at the start and no fill was dust |
| BacktestPortfolio.DustIsCountedAsTrade | backend/app/services/backtesting_engine_service.py:426-434 | a signal for 0.00004 shares is counted as a trade and leaves neither a trade nor a position |
| BacktestPortfolio.BooksAddUp | backend/app/services/backtesting_engine_service.py:522-532 | the buckets' cash and cost basis sum to allocated capital plus realised P&L, up to the drift of their trades |
| BacktestPortfolio.NavGapIsUnallocated | backend/app/services/backtesting_engine_service.py:199-217 | for any allocation the reported value differs from the books by the capital not allocated, up to half a paisa and the drift of the trades |
| BacktestPortfolio.UnallocatedCapitalIsReported | backend/app/services/backtesting_engine_service.py:537-537 | 100 of 1000 allocated to nobody: the report says 1000, the books hold 900 |
| BacktestPortfolio.ReportedNavMatchesBooks | backend/app/services/backtesting_engine_service.py:174-175 | for every backtest with the default split and no dust fill, under any configuration and strategy, the reported value is cash plus cost basis, up to the roundings of the split, the report and the trades; the trades add none for whole shares with slippage on |
| NoLookAhead.TimestampsAreSorted | backend/app/services/backtesting_engine_service.py:225-233 | the timestamps are the distinct ones of the feed in increasing order |
| NoLookAhead.TimestampsBefore | backend/app/services/backtesting_engine_service.py:225-233 | dropping later candles leaves exactly the earlier timestamps |
| NoLookAhead.SameCandlesBefore | backend/app/services/backtesting_engine_service.py:238-243 | and the same candle for every symbol at them, last one winning |
| NoLookAhead.RunReadsOnlyItsTimes | backend/app/services/backtesting_engine_service.py:249-256 | a run depends only on the candles at its timestamps |
| NoLookAhead.NoLookAhead | backend/app/services/backtesting_engine_service.py:226-473 | without the candles after t the backtest ends with the very buckets and equity curve the full run had at t |
| Valuation.QuotesAccumulate | backend/app/services/portfolio_valuation_service.py:223-250 | quotes one at a time mark exactly the rows whose symbol has come up |
| Valuation.IncrementalEqualsFullPass | backend/app/services/portfolio_valuation_service.py:223-250 | one quote per held symbol, in any order and with repeats, stores the same rows and ends with the same report as one full pass |
| Valuation.TotalIsLiquidation | backend/app/services/portfolio_valuation_service.py:114-146 | the reported total P&L is what closing every position at its quote through the position ledger would realise, up to one rounding per position |
| Valuation.MarketValueIsAtQuotes | backend/app/services/portfolio_valuation_service.py:118-146 | market value is the holdings at their quotes and realised P&L the rows, up to rounding; unrealised is the rest of the total |
| Valuation.ClosingRealizes | backend/app/services/execution_position_service.py:201-214 | trading away a whole position at a price realises its reported unrealised P&L and leaves it flat |
| Valuation.LiveBook.ValueLive | backend/app/services/portfolio_valuation_service.py:114-152 | marks and totals the quoted rows; one non-positive quote of a held symbol raises and stores nothing |
| Valuation.LiveBook.RevalueFromQuote | backend/app/services/portfolio_valuation_service.py:223-252 | marks one symbol and totals every row; raises and stores nothing exactly for a non-positive price |
| PaperValuation.QuotesAccumulate | backend/app/services/portfolio_valuation_service.py:254-297 | quotes one at a time mark exactly the held rows that have come up with a quote that is no outlier |
| PaperValuation.IncrementalEqualsFullPassExactlyWhen | backend/app/services/portfolio_valuation_service.py:154-297 | one quote per held symbol, in any order and with repeats, stores the rows of the full pass if and only if on every row neither guard bites (or a discarded quote finds the row at the full price already, and flat rows have no last price); then the reports are the same |
| PaperValuation.OutlierSplitsThePasses | backend/app/services/portfolio_valuation_service.py:271-279 | a share bought at 100 and quoted at 140 is valued at 140 by the full pass and left alone by the single quote |
| PaperValuation.OutlierExactlyWhen | backend/app/services/portfolio_valuation_service.py:272-279 | a quote is discarded exactly below 65 or above 135 percent of the average |
| PaperValuation.ValuedAt | backend/app/services/portfolio_valuation_service.py:179-200 | a held row is valued at its quote, else the exchange, else the books, with the option guard |
| PaperValuation.OptionsAreTold | backend/app/services/portfolio_valuation_service.py:190-191 | NIFTY below 1000 and names with -OPT are options, NIFTY at 1000 and TCS are not |
| PaperValuation.ReportAddsUp | backend/app/services/portfolio_valuation_service.py:205-216 | equity is cash and market value, total is realised and unrealised, over the held rows, up to rounding |
| PaperValuation.PaperBook.ValuePaper | backend/app/services/portfolio_valuation_service.py:154-222 | clears flat rows and marks held ones at quote, exchange or book price past the option guard; raises and stores nothing exactly for a non-positive quote of a held symbol |
| PaperValuation.PaperBook.RevalueFromQuote | backend/app/services/portfolio_valuation_service.py:254-297 | zeroes flat rows, marks the quoted symbol unless the quote is an outlier, totals the held rows; raises and stores nothing exactly for a non-positive price |

## Left out

- Frontend, broker SDKs, price feeds, Redis, HTTP wiring, migrations and scripts: input and output.
- Strategy factory and signal generation: any deterministic function of the bars shown stands for them.
- Event publishing, audit logging, wall-clock reads and generated ids: no effect on the claims; time is an argument.
- Decimal's 28-digit context and the `Numeric` column widths: amounts are exact reals between the `quantize` calls; floats (percentages, drawdown, chart values) are reals too.
- Locks, sessions and rollback: every table is a map with atomic commits; SHA-256 is an injective fingerprint.
- Two overlapping pollers with different snapshots of one order: the execution properties are for serial polling.
- More than one account per LIVE ledger; strategy instance ids, signal ids and order source.
- Modifying and cancelling LIVE orders, and order sides other than BUY and SELL.
- Letter case and padding outside ASCII; execution ids spell out the cumulative fill, and two spellings of one number are the same id here.
- `_compare_positions` and the truncation of the report's details to 100: easy members; the order of report lines is left open.
- The lookup of risk settings and kill-switch updates: query only; the guard's inputs are arguments.
- PAPER position columns that `record_fill` only carries along (status, last price, valuation), and the execution ledger's own duplicate check, which is one set of processed ids with the portfolio's.
- StopLossService.SellAllFlattens: the fresh id of the protective sale is not added to the processed ids.
- The trigger of LIVE protective exits, long and short: only their keys and placement are modelled, and prices are the spellings in the key.
- The failure of the whole quote request in PAPER valuation is the case of no quotes; quotes for symbols that are not held are ignored.
- Valuation.LiveBook.ValueLive: in-memory changes made before a bad quote raises are never committed, so they are not kept.
- Timestamps are integers, every candle has one, and the numbered steps used when no candle has a timestamp are not modelled.
- Backtest.Engine.EvaluateEntry: buckets are values in a sequence (no aliasing); duplicate strategy ids and the setup of buckets from definitions are not modelled.
- Chart markers, per-strategy summaries, profit factors and percentages of the backtest, and the display rounding of its trades.
- Equity points of bars on which a bucket is skipped or abandoned are modelled as they are and not claimed to sum to the portfolio.
- The frozen session's step counter, per-tax totals and display percentages, and the rest of its scorecard.
- LiveLedger.OrderLedger.UpsertFromBroker: does not model the return of an existing row after an integrity error, which needs a second poller, nor the descriptive columns.
- BacktestPortfolio.ReportedNavMatchesBooks: leaves out backtests with a dust fill, whose cost the next entry overwrites.
- PaperAccounting.GetRiskSnapshot: the user's portfolios are given; looking them up, and falling back to the default one when that fails, is not modelled.
- StopLossService.Monitor.ScanAndEnforce: the PAPER half of the scan; the LIVE half places keyed orders (`LiveExits`).
- Replays.ReplayReturnsExactlyWhenStored: does not look into the execution. One that raises after the broker has accepted, because storing the order raises on a fill without a price, is an `OtherError` here: its key becomes FAILED and its replay a failure although the order is placed.
