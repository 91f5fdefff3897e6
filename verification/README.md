# RealStock: verified model of the trading, messaging and market-data core

This project models six cooperating parts of RealStock and proves what they promise:

| part | files |
|---|---|
| Paper-trading ledger, its row locks and its valuation | `Money`, `Sums`, `UnitOfWork`, `TradingModels`, `TradingLedger`, `LedgerInvariants`, `TradingLocks`, `TradingOutcomes`, `TradingProgress`, `Valuation`, `TradingResults`, `PendingOrders` |
| Transactional outbox and its dispatchers | `OutboxTable`, `OutboxProtocol`, `OutboxAcks`, `OutboxRuns` |
| Alert worker idempotency | `AlertWorker`, `AlertProtocol` |
| Portfolio writes as an event-sourced system | `PortfolioEvents`, `PortfolioOutcomes`, `PortfolioRaces` |
| Risk engine | `RiskEngine` |
| Batch market quotes | `MarketBatch` |

`Basics` holds the shared result types. `dafny verify dfyconfig.toml` checks everything.

## How it is built

**Objects and specification functions.** Each class of the program that updates its fields is a
class here (`PaperAccount`, `PaperBroker`, `PersistentPaperTradingService`, `UnitOfWork`,
`OutboxRepository`, `OutboxDispatcher`, `IdempotencyStore`, `PortfolioService`,
`RiskEngineService`, `BatchMarketQuoteService`, ...). Its methods are proved against functions on
values, and the properties are lemmas about those functions. What such a function comes to is stated
column by column as well, in plain arithmetic and without it (`TradingOutcomes`, `PortfolioOutcomes`, and
lemmas beside the other functions). An exception is an `Err` or `Fail`
value. Failures of the outside world (database, bus, quote source, cache, crash) are parameters or
steps, so each theorem quantifies over all of them.

**Money.** Domain arithmetic is exact. A column rounds once, half away from zero, when a value is
written: `Store(c, x)` for a `Column` that is `Exact`, `Scale6` (`Numeric(20, 6)`) or `Scale10`
(`Numeric(38, 10)`). Ledger theorems hold for each of them.

**Concurrency.** A protocol is a state machine, `Exec(config, initial, actions)`, over an arbitrary
list of actions of any number of participants. An action that is not possible changes nothing, so
every list is a run. Results are proved for all lists.

## Main results

* *Requests.* For every trading and portfolio request: exactly when it commits, the rows, event and
  execution it leaves, and the error it reports otherwise (`MarketOutcome`, `MarketRefusal`,
  `ProcessOutcome`, `AddOutcome`, ...). A limit that rounds to zero is accepted, and the order can never
  be read, filled or cancelled again (`PlacedOrderIsReadableIff`, `UnreadableOrderStaysForever`).
* *Trading.* Every interleaving of market, submit, process and cancel transactions, with crashes
  and refusals, leaves the database that the committed ones leave when run one at a time in
  account-lock order (`Serializable`). So balances and holdings never go negative, each limit
  order has at most one, full-size execution within its limit, and shares are conserved
  (`ConcurrentLedger`); a holder of an account row never waits (`HolderNeverWaits`, `NoDeadlock`), and a
  transaction that meets no other ends exactly as its request does (`LoneTransactionIsRun`);
  when the prices traded at fit the columns, cash and positions are a replay of the execution log
  (`ConcurrentReplay`) and value drifts by at most half a step per share held after each buy
  (`EveryGridRun`); equity is explained by realized and unrealized gains (`ConcurrentEquity`); and
  whatever concurrent workers go on to do, logged executions stay and settled orders never change
  (`ConcurrentHistoryStays`).
* *A limit of the stored ledger.* A price with more decimals than the column makes the log disagree
  with the balance; `OffGridReplayDiffers` is such a run. `ReplaysIffPriceFits` is the exact
  condition, for every price: all runs at that price replay exactly when it fits the columns, or is
  so small that the tables refuse to record a trade at it.
* *Outbox.* In every run, what is marked published has reached the bus, nothing is lost or
  un-published, and no event gets stuck. The acknowledgement reads the row with a plain `SELECT`
  and then updates it by key, so three more properties depend on what its write finds: two workers
  never hold running leases on one event (`OneLeaseHolder`), the attempt counter counts the recorded
  failures and the backoff bound holds (`BackoffBound`), claims of one event are min(lease, 5 s)
  apart (`ClaimRate`). For each of them, `HarmsLease`, `HarmsCounter` and `HarmsRate` are the exact
  conditions on a write, all of them known before it: the property's invariant holds at every moment
  of a run exactly when no write of the run does that harm (`KeptIff`). A write that harms a lease
  does lead to two holders, and one that harms the rate to a claim that comes too early
  (`HarmfulWriteMakesTwoHolders`, `HarmfulWriteBreaksRate`, from every reachable state). Runs whose
  writes are never *stale* (the event was not claimed again since the read) do no harm at all
  (`FreshRunsAreSafe`); such are runs whose writes land within their own lease, and runs whose
  writes follow their read at once. `LateWriteFreesAnothersLease` and `LateWriteLosesAFailure` are
  runs with the default lease that do harm.
* *Alerts.* A message is deleted only if a notification for its event was sent; a stale claim never completes
  or deletes its successor's; notified claims of one event are more than min(lease, retention) apart,
  and more than a whole retention when the earlier one was completed. The bound is tight
  (`UncompletedClaimRepeats`).
* *Portfolio events.* A run's events rebuild the tables at every moment exactly when every committed
  request brings values that fit `Numeric(38, 10)` (`AlwaysReplaysIff`), and then every event's
  account of the past is right. A value below half a step is stored as zero, by an insert or an
  update, and from then on the portfolio can never be loaded again (`AddedPositionLoadsIff`,
  `UpdatedPositionLoadsIff`, `PoisonStaysForever`; `TinyPositionPoisonsPortfolio` is a run).
  `PortfolioRaces` interleaves the load, lock and write of updates and deletes. The locked read does
  not refresh a row the session still holds, so a commit may work from old values: `EventFitsIff` and
  `RacesReplayIff` say exactly when the events stay right, and `RaceTellsOldValues` is a run in which
  they do not.
* *Risk engine.* The alerts are exactly the rule applied to neighbours in each instrument's series of
  newest quotes; instruments are independent; redelivery is silent.
* *Batch quotes.* Every requested symbol gets what a per-symbol specification says, under every
  combination of cache and provider failures, and whatever others write to the cache meanwhile.

Where code and documentation differ, the code is followed. The outbox repository's documentation says
only the worker owning the lease may acknowledge: the code tests `locked_by` and not `locked_until`,
and tests it before, not at, the write.

## Model

| member | source | states |
|---|---|---|
| Money.StoreError | libs/database/models/trading.py:134-156 | one write moves a value by at most half a step of its column |
| Money.StoreIsNearest | libs/database/models/trading.py:134-156 | a written value is the nearest one with six, or ten, decimals, farther from zero on a tie |
| Money.NearestIsUnique | libs/database/models/trading.py:134-156 | there is only one such value |
| Money.StoreLandsOnGrid | libs/database/models/trading.py:134-156 | a stored value survives being written again |
| Money.ChargeIsExactIffOnGrid | libs/database/models/trading.py:326-336 | a positive price fits its column exactly when, for every share count and every balance that covers it, the written price explains the charge |
| Money.OffGridChargeDiffers | libs/database/models/trading.py:326-336 | for every price that does not fit there is a share count that no balance at all is charged exactly for |
| UnitsOfWork.UnitOfWork.Commit | libs/database/unit_of_work.py:144-161 | commits everything pending, or rolls back and raises |
| UnitsOfWork.UnitOfWork.Rollback | libs/database/unit_of_work.py:163-177 | discards pending work once per scope |
| UnitsOfWork.UnitOfWork.Exit | libs/database/unit_of_work.py:179-208 | leaving the scope uncommitted rolls back, with or without an exception, and says so |
| TradingModels.PaperAccount.EnsureCanBuy | libs/trading/models.py:39-59 | which orders are refused, with which error |
| TradingModels.PaperAccount.Debit | libs/trading/models.py:61-72 | cash falls by the amount or nothing changes |
| TradingModels.PaperAccount.Credit | libs/trading/models.py:74-80 | cash grows by the amount or nothing changes |
| TradingModels.Position.BuyShares | libs/trading/models.py:110-135 | the holding becomes `Bought`, or nothing changes on a refusal |
| TradingModels.Position.SellShares | libs/trading/models.py:137-167 | the holding becomes `Sold`, or loses only its shares when no price is given, or nothing changes; refusals in the code's order |
| TradingModels.BuyKeepsCost | libs/trading/models.py:110-135 | the weighted average keeps total cost: old cost plus price paid |
| TradingModels.SellMovesCostToPnl | libs/trading/models.py:137-167 | a sale takes its shares' cost out of the position and books the rest as realized gain |
| TradingModels.FillKeepsBooks | libs/trading/paper_broker.py:175-237 | a fill of either side leaves cash plus cost minus realized gain as it was |
| TradingModels.PaperOrder.MarkPending | libs/trading/models.py:261-267 | only a NEW order becomes PENDING |
| TradingModels.PaperOrder.RecordFill | libs/trading/models.py:269-288 | a fill within the remaining quantity is added; the status is FILLED exactly at the full quantity |
| TradingModels.PaperOrder.Cancel | libs/trading/models.py:290-300 | settled orders cannot be cancelled |
| TradingModels.PaperBroker.ExecuteMarketOrder | libs/trading/paper_broker.py:10-36 | the three objects hold the result of the fill; otherwise account and position are untouched and the order is PENDING exactly when it passed validation |
| TradingModels.PaperBroker.SubmitLimitOrder | libs/trading/paper_broker.py:38-56 | which limit orders become PENDING; nothing else changes |
| TradingModels.PaperBroker.ProcessQuote | libs/trading/paper_broker.py:58-95 | fills a triggered PENDING limit order in full; otherwise everything is untouched |
| TradingModels.PaperBroker.ExecuteBuy | libs/trading/paper_broker.py:175-208 | debit, average cost and fill happen together at the ask, or not at all |
| TradingModels.PaperBroker.ExecuteSell | libs/trading/paper_broker.py:210-237 | sale, credit and fill happen together at the bid, or not at all |
| TradingModels.LimitFillIsWithinLimit | libs/trading/paper_broker.py:58-145 | a limit order fills in full and never beyond its limit; it waits only at a worse price, and at a price within the limit fails only for want of cash or shares |
| TradingLedger.PersistentPaperTradingService.Market | services/trading/persistent_paper_trading_service.py:94-206 | commits the whole trade with exactly its execution appended, or leaves the database as it was and reports `RefusalOf` |
| TradingLedger.PersistentPaperTradingService.SubmitLimitOrder | services/trading/persistent_paper_trading_service.py:208-320 | commits the placed order, or leaves the database as it was and reports `RefusalOf` |
| TradingLedger.PersistentPaperTradingService.ProcessLimitOrder | services/trading/persistent_paper_trading_service.py:322-431 | commits the fill with exactly its execution, or commits nothing and reports `RefusalOf`; success means the transaction committed |
| TradingLedger.PersistentPaperTradingService.CancelLimitOrder | services/trading/persistent_paper_trading_service.py:433-516 | commits the cancellation, or leaves the database as it was and reports `RefusalOf` |
| TradingLedger.PersistentPaperTradingService.Persist | services/trading/persistent_paper_trading_service.py:518-634 | account, position, order and execution are written together exactly when the tables' constraints admit them |
| TradingLedger.PersistentPaperTradingService.RequireAccountForUpdate | services/trading/persistent_paper_trading_service.py:636-668 | yields the committed account row, or an error when it is absent or does not load |
| TradingLedger.PersistentPaperTradingService.GetOrCreatePositionForUpdate | services/trading/persistent_paper_trading_service.py:670-706 | yields the committed position row, or an empty position |
| LedgerInvariants.EffectsAreSound | services/trading/persistent_paper_trading_service.py:374-427 | whatever a transaction writes comes from the current rows by one broker call |
| LedgerInvariants.TradesFillInFull | libs/trading/paper_broker.py:175-237 | a trade completes one order that had no fill yet; PARTIALLY_FILLED is unreachable |
| LedgerInvariants.EveryRun | services/trading/persistent_paper_trading_service.py:322-427 | after any serial run: rows non-negative, order life cycle, one full-size execution per FILLED order within its limit, shares conserved, drift bounded by rounding |
| LedgerInvariants.EveryGridRun | services/trading/persistent_paper_trading_service.py:518-630 | when the prices traded at fit: cash and positions equal a replay of the log, and drift is at most half a step per share held after each buy |
| LedgerInvariants.PositionsReplayStays | libs/trading/models.py:110-167 | one more transaction, if it trades at a price that fits, keeps every position equal to its replay |
| LedgerInvariants.TradePriceIsQuoted | libs/trading/paper_broker.py:175-237 | in every run a committed purchase is made at its quote's ask and a sale at its bid |
| LedgerInvariants.ReplaysIffPriceFits | libs/database/models/trading.py:326-336 | for every positive price p: all runs quoted at p replay from the log exactly when p fits the columns or is stored as zero, which the tables refuse |
| LedgerInvariants.UnfitPriceBreaksReplay | services/trading/persistent_paper_trading_service.py:518-565 | for every other p, a run of one deposit and one purchase that the log does not explain |
| LedgerInvariants.DriftStaysBounded | libs/trading/models.py:110-167 | one more transaction moves an account's drift by no more than the bound grows; a sale at a fitting price adds nothing |
| LedgerInvariants.HistoryStays | libs/database/repositories/trading.py:527-595 | executions, settled orders and every order's account survive every later transaction |
| LedgerInvariants.OffGridReplayDiffers | libs/database/models/trading.py:326-336 | a run with a seven-decimal price whose balance the log does not explain |
| TradingOutcomes.FillOutcome | libs/trading/paper_broker.py:146-237 | one fill in plain arithmetic: when it happens, at which price, what account, holding and order are afterwards, and the error otherwise; a whole holding can be sold |
| TradingOutcomes.MarketOutcome | services/trading/persistent_paper_trading_service.py:94-206 | a market order commits exactly with readable rows, a free key, a quote, a price that is not stored as zero and enough cash or shares; it then fills in full on the side asked for, and the four tables change as stated |
| TradingOutcomes.MarketMovesShares | services/trading/persistent_paper_trading_service.py:94-206 | the holding goes up by n for a purchase and down by n for a sale; other holdings and accounts stay |
| TradingOutcomes.SubmitOutcome | services/trading/persistent_paper_trading_service.py:208-320 | when a limit order is placed; the one row it adds has the side, size and rounded limit asked for, and nothing else changes |
| TradingOutcomes.ProcessOutcome | services/trading/persistent_paper_trading_service.py:322-431 | when processing commits; nothing changes unless the order is pending and the price within its limit, and then its remaining shares are traded |
| TradingOutcomes.CancelOutcome | services/trading/persistent_paper_trading_service.py:433-516 | a new, pending or partially filled order is cancelled, any other is not; only the status changes |
| TradingOutcomes.OpenOutcome | services/trading/trading_account_service.py:18-57 | when an account is opened, and its row |
| TradingOutcomes.MarketRefusal | services/trading/persistent_paper_trading_service.py:94-206 | the error of a market order that does not commit, case by case |
| TradingOutcomes.SubmitRefusal | services/trading/persistent_paper_trading_service.py:208-320 | likewise for placing a limit order |
| TradingOutcomes.ProcessRefusal | services/trading/persistent_paper_trading_service.py:322-431 | likewise for processing one |
| TradingOutcomes.CancelRefusal | services/trading/persistent_paper_trading_service.py:433-516 | likewise for cancelling one |
| TradingOutcomes.TablesAdmit | libs/database/models/trading.py:33-281 | which writes the tables' keys and checks admit |
| TradingOutcomes.PlacedOrderIsReadableIff | libs/database/models/trading.py:170-191 | a placed order can be read back exactly when its limit is not stored as zero |
| TradingOutcomes.UnreadableOrderStaysForever | services/trading/persistent_paper_trading_service.py:322-516 | an order that cannot be read is left as it is by every continuation of the run |
| TradingLocks.Serializable | services/trading/persistent_paper_trading_service.py:322-427 | every interleaving equals the committed transactions run one at a time, per account in lock-grant order |
| TradingLocks.ConcurrentLedger | services/trading/persistent_paper_trading_service.py:636-706 | no interleaving overdraws, oversells, loses an update or fills an order twice |
| TradingLocks.HolderNeverWaits | services/trading/persistent_paper_trading_service.py:374-402 | a transaction holding its account row can always take its next step |
| TradingLocks.NoDeadlock | services/trading/persistent_paper_trading_service.py:374-402 | while a transaction is unfinished, it or the holder of its account row can step |
| TradingLocks.RoutingNeverMisleads | services/trading/persistent_paper_trading_service.py:465-500 | the unlocked routing read still names the right account once the lock is held |
| TradingProgress.ReadyStepIsRun | services/trading/persistent_paper_trading_service.py:374-427 | with its rows locked a transaction's next step commits exactly when its request does on the current database, with the same result |
| TradingProgress.LoneTransactionIsRun | services/trading/persistent_paper_trading_service.py:322-431 | after any interleaving, a transaction that finds its account row unlocked and is left alone ends as its request does on the current database |
| TradingProgress.StepWaitsIff | services/trading/persistent_paper_trading_service.py:374-402 | a transaction waits exactly for a row another one has locked |
| TradingProgress.StepTakesLock | libs/database/repositories/trading.py:123-145 | each row read for update is locked by its reader; a position not stored yet has no row to lock |
| TradingProgress.CrashUnblocks | libs/database/unit_of_work.py:179-208 | after a crash of the holder of an account row, whoever waited for it can go on, and nothing stored has changed |
| Valuation.Calculate | libs/trading/portfolio.py:22-64 | totals are `MarketValue`, `UnrealizedPnl` and `RealizedPnl` of every list of positions; fails exactly when an open position lacks a positive price |
| Valuation.ValuedAtMarket | libs/trading/models.py:169-188 | an open holding is worth its price times its shares and has gained the price above its cost, times its shares; a closed one is worth nothing |
| Valuation.TotalsAreSums | libs/trading/portfolio.py:22-64 | the totals are the sums of the rows' own values at market |
| Valuation.ValidateMarketPrices | services/trading/trading_portfolio_service.py:250-278 | passes exactly when every symbol has a positive price |
| Valuation.ValuePositions | services/trading/trading_portfolio_service.py:280-330 | per-position values in order, and their total cost |
| Valuation.GetSnapshot | services/trading/trading_portfolio_service.py:123-248 | fails exactly for an unknown account or an unpriced open position, a price source that raises included; every open holding is valued at its market price, and the totals are the sums of the valuations; no price is needed when everything is closed |
| Valuation.CostPlusGainIsValue | services/trading/trading_portfolio_service.py:123-201 | total cost basis plus unrealized gain is market value |
| Valuation.EquityIdentity | libs/trading/portfolio.py:22-64 | equity above initial cash is realized plus unrealized gain, up to the rounding bound, for every run and listing |
| Valuation.ExactEquityIdentity | libs/trading/portfolio.py:22-64 | the same as an equation in exact arithmetic |
| TradingResults.ConcurrentReplay | services/trading/persistent_paper_trading_service.py:518-630 | under every interleaving whose committed trades are made at fitting prices, the log explains every balance and position |
| TradingResults.FittingQuotesSuffice | services/trading/persistent_paper_trading_service.py:518-630 | it is enough that all quotes fit |
| TradingResults.ConcurrentEquity | services/trading/trading_portfolio_service.py:123-201 | the equity identity for every state a concurrent run reaches, with the sharper bound when traded prices fit, and as an equation in exact arithmetic |
| TradingResults.ConcurrentHistoryStays | libs/database/repositories/trading.py:527-595 | from one moment of an interleaved run to any later one: executions, settled orders and every order's account survive, and a CANCELLED order never executes |
| PendingOrders.PendingOrderWorker.DiscoverPendingOrderIds | services/trading/pending_order_worker.py:163-186 | distinct pending limit orders, at most a batch, all of them when they fit |
| PendingOrders.PendingOrderWorker.RunOnce | services/trading/pending_order_worker.py:87-134 | works on what discovery returns; each discovered order is counted once, whatever others commit between two orders; fills counted are the executions this pass added |
| PendingOrders.UndisturbedPass | services/trading/pending_order_worker.py:87-134 | undisturbed, the ledger is that of the orders' transactions in turn, and the fills counted are all it gained |
| OutboxTable.OutboxRepository.AddEvent | libs/database/repositories/outbox.py:122-183 | an event without an aggregate is refused; a new one is unlocked and due at once |
| OutboxTable.OutboxRepository.ClaimPending | libs/database/repositories/outbox.py:253-378 | leases exactly the least batch of due, unleased rows and returns their own failure counts |
| OutboxTable.OutboxRepository.Select | libs/database/repositories/outbox.py:313-356 | the batch is in (occurred_at, id) order and anything left out comes after a full batch |
| OutboxTable.OutboxRepository.MarkPublished | libs/database/repositories/outbox.py:384-431 | succeeds exactly for an unpublished row locked by this worker; the lease is cleared |
| OutboxTable.OutboxRepository.MarkFailed | libs/database/repositories/outbox.py:437-500 | succeeds exactly for an unpublished row locked by this worker; one more failure, rescheduled, lease cleared |
| OutboxTable.ClaimIsDetermined | libs/database/repositories/outbox.py:313-356 | a table, a time and the skipped rows determine the batch |
| OutboxTable.ClaimTakesOldest | libs/database/repositories/outbox.py:313-356 | a batch holds unpublished, due, unleased rows, ordered by occurred_at, then id; what it leaves out is later than all of a full batch |
| OutboxTable.EarlierIsClaimedFirst | libs/database/repositories/outbox.py:337-349 | of two due events with room for one, the earlier is claimed |
| OutboxTable.LeaseWritesOnlyLocks | libs/database/repositories/outbox.py:357-378 | a claim writes the lease of its batch and nothing else |
| OutboxTable.RetryDelays | services/outbox_dispatcher/dispatcher.py:346-379 | 5, 30, 120, then 600 seconds |
| OutboxTable.OutboxDispatcher.Acknowledge | services/outbox_dispatcher/dispatcher.py:243-341 | whatever others have made of the table, takes effect exactly when the row is still this worker's and the commit goes through |
| OutboxTable.OutboxDispatcher.DispatchOnce | services/outbox_dispatcher/dispatcher.py:138-197 | under any changes of others during the pass: events are settled in batch order up to the first acknowledgement that is refused, where the pass raises; on return claimed = published + failed; the bus got exactly the accepted ones |
| OutboxTable.UndisturbedPass | services/outbox_dispatcher/dispatcher.py:138-197 | undisturbed, at each acknowledgement the events before it are settled, those after it keep only their lease, no other row has changed, and it goes through exactly when its commit does |
| OutboxTable.DispatchFreesAll | services/outbox_dispatcher/dispatcher.py:138-197 | an undisturbed pass that returns leaves every claimed row published or due exactly from its retry time, with no lease |
| OutboxTable.SettledRowIsFreed | services/outbox_dispatcher/dispatcher.py:298-309 | a failed row counts one more failure and is due again exactly 5, 30, 120 or 600 seconds later; a published one never; the rest of the row stays |
| OutboxTable.LeaseOnlyDelays | libs/database/repositories/outbox.py:322-336 | a row abandoned under a lease is claimable exactly when the lease ends |
| OutboxProtocol.EveryRunKeeps | libs/database/repositories/outbox.py:253-543 | the invariant of rows, leases, batches and histories holds in every run of any number of workers, its stronger half in every run without stale writes |
| OutboxProtocol.DeliverySafety | services/outbox_dispatcher/dispatcher.py:166-191 | published_at set implies the bus accepted the event |
| OutboxProtocol.NothingIsLost | libs/database/repositories/outbox.py:384-500 | no event is removed, altered or un-published by any run from any state |
| OutboxProtocol.NoEventIsStuck | libs/database/repositories/outbox.py:313-356 | an unpublished event is claimable after the longer of one lease and 600 s, and is passed over only for a full batch of events with an earlier (occurred_at, id) |
| OutboxAcks.StaleAckIsRejected | libs/database/repositories/outbox.py:506-543 | the ownership test at the read passes only for the last worker granted the lease, whose claimed failure count is still the row's; without stale writes for exactly that one |
| OutboxAcks.WriteIsStaleIff | libs/database/repositories/outbox.py:506-543 | a write lands on its own lease exactly when the event was not claimed between its read and the write |
| OutboxAcks.WriteKeepsOwnershipIff | libs/database/repositories/outbox.py:384-500 | in every reachable state a write leaves the event's last holder in possession exactly when it is not stale or that holder is gone |
| OutboxAcks.StepIsSafeIff | libs/database/repositories/outbox.py:313-500 | no step but a write endangers a running lease; a write does exactly when it records a failure that makes the event due while another worker works on it under the lease granted last |
| OutboxAcks.HarmfulWriteMakesTwoHolders | libs/database/repositories/outbox.py:437-500 | from every reachable state such a write, then time, then a claim give two running leases on one event |
| OutboxAcks.CrashedEventIsReclaimed | libs/database/repositories/outbox.py:313-369 | after a crash of any worker in any reachable state, every unpublished event can be claimed again once a lease and 600 s have passed, by that worker too |
| OutboxAcks.WriteKeepsOrderIff | libs/database/repositories/outbox.py:481-493 | a write keeps the failure history in order (counter, delays between failures, last delay not over before the event is due) exactly when it records a success or the row's counter is the one it read |
| OutboxAcks.WriteKeepsCounterIff | libs/database/repositories/outbox.py:481-493 | in every reachable state the same condition decides about the counter alone |
| OutboxAcks.StepKeepsRateIff | libs/database/repositories/outbox.py:313-500 | no step but a write lets an event be claimed too soon; a write does exactly when its retry time is within min(lease, 5 s) of the last claim and some worker can still have such a clock reading |
| OutboxAcks.HarmfulWriteBreaksRate | libs/database/repositories/outbox.py:437-500 | from every reachable state such a write leads to a claim that comes too soon |
| OutboxAcks.KeptIff | libs/database/repositories/outbox.py:313-543 | for whole runs: running leases are exclusive, histories in order, claims spaced at every moment, each exactly when no write of the run does its harm |
| OutboxAcks.OneLeaseHolder | libs/database/repositories/outbox.py:313-369 | in every run without a write that harms a lease, two workers never hold running leases on one event |
| OutboxAcks.BackoffBound | services/outbox_dispatcher/dispatcher.py:346-379 | in every run without a write that harms a counter, attempts equal recorded failures, and first and n-th failed claims are all delays in between apart |
| OutboxAcks.ClaimRate | libs/database/repositories/outbox.py:313-369 | in every run without a write that harms the rate, one event is claimed at most once in min(lease, 5 s), however many workers there are |
| OutboxAcks.FreshRunsAreSafe | libs/database/repositories/outbox.py:506-543 | runs without stale writes do none of the three harms |
| OutboxAcks.PromptRunsAreFresh | services/outbox_dispatcher/dispatcher.py:243-341 | writes that land before their own lease ends are never stale |
| OutboxAcks.AtomicRunsAreFresh | services/outbox_dispatcher/dispatcher.py:243-341 | nor are writes that follow their read at once, however late |
| OutboxRuns.LateWriteFreesAnothersLease | libs/database/repositories/outbox.py:437-543 | a run in which a late write clears another worker's running lease, and two claims come in the same second |
| OutboxRuns.LateWriteLosesAFailure | libs/database/repositories/outbox.py:437-543 | a run in which a late write overwrites the attempt counter and the retry time |
| OutboxRuns.PassIsARun | services/outbox_dispatcher/dispatcher.py:138-197 | the steps of an undisturbed pass leave the rows the dispatcher's method leaves |
| AlertWorker.IdempotencyStore.Claim | services/alert_worker/idempotency.py:131-212 | granted exactly when there is no record or it has expired |
| AlertWorker.IdempotencyStore.Complete | services/alert_worker/idempotency.py:270-321 | takes effect exactly for the claim that is processing |
| AlertWorker.IdempotencyStore.Release | services/alert_worker/idempotency.py:323-353 | deletes exactly the record of the claim that is processing |
| AlertWorker.AlertWorkerService.ProcessEvent | services/alert_worker/service.py:226-445 | when a notification is sent, what is reported and what the table holds, whatever others do between the steps |
| AlertWorker.SqsAlertConsumer.PollOnce | services/alert_worker/consumer.py:100-315 | a usable message is processed: when the notification is sent, what the record is afterwards, which status or error is reported; it is deleted exactly when it was notified and settled by this worker, or is COMPLETED already, and the delete goes through |
| AlertProtocol.EveryRunKeeps | services/alert_worker/idempotency.py:131-353 | the invariant of records, claims and jobs holds in every run |
| AlertProtocol.AckSafety | services/alert_worker/consumer.py:177-229 | deleted implies that some claim of the event sent its notification; COMPLETED implies that its own claim did |
| AlertProtocol.Fencing | services/alert_worker/idempotency.py:270-353 | completing or releasing changes only its own record, and only while its claim is the latest and processing |
| AlertProtocol.InTimeCompletionSucceeds | services/alert_worker/idempotency.py:270-321 | a holder that completes within its lease is never refused, and its claim is then completed |
| AlertProtocol.NotifiedClaimsApart | services/alert_worker/idempotency.py:145-212 | notified claims of one event are more than min(lease, retention) apart, more than a retention once completed |
| AlertProtocol.NotificationsPerWindow | services/alert_worker/service.py:342-391 | a window of W seconds holds at most 1 + W / (min + 1) of them |
| AlertProtocol.OncePerRetention | services/alert_worker/idempotency.py:270-321 | a retention period holds at most one of them when all but the last were completed |
| AlertProtocol.UncompletedClaimRepeats | services/alert_worker/service.py:342-391 | with the default times, a run with two notifications exactly that far apart |
| AlertProtocol.AlwaysClaimableAgain | services/alert_worker/idempotency.py:145-212 | every event can be claimed again once the longer of lease and retention is over |
| AlertProtocol.CrashedEventIsRetried | services/alert_worker/idempotency.py:145-212 | after a crash, in whatever step, any event's redelivered message is granted a claim once both times are over |
| AlertProtocol.LostReportIsRetried | services/alert_worker/service.py:342-391 | a publish that raises although the notification went out leaves no record, so the event is notified again |
| AlertProtocol.LostCompletionIsDuplicate | services/alert_worker/consumer.py:177-229 | a completion whose report is lost stands, and the redelivery is deleted without a second notification |
| AlertProtocol.SweepIsInvisible | services/alert_worker/idempotency.py:145-212 | whether the table itself has removed an expired record makes no difference to any later claim |
| AlertProtocol.PassIsARun | services/alert_worker/service.py:260-445 | the steps of an undisturbed pass leave the records and the deletion the consumer's methods leave |
| PortfolioEvents.PortfolioService.Create | services/api/portfolio/service.py:79-117 | portfolio and event are committed together, or the database is as it was |
| PortfolioEvents.PortfolioService.Add | services/api/portfolio/service.py:155-253 | position and event are committed together, or the database is as it was; which error a caller sees, a concurrent insert of the same instrument included |
| PortfolioEvents.PortfolioService.Update | services/api/portfolio/service.py:255-353 | new values and event are committed together, or the database is as it was; which error a caller sees |
| PortfolioEvents.PortfolioService.Delete | services/api/portfolio/service.py:355-428 | removal and event are committed together, or the database is as it was; which error a caller sees |
| PortfolioOutcomes.CreateOutcome | services/api/portfolio/service.py:79-117 | exactly when a portfolio is created, its row and event, and the error otherwise |
| PortfolioOutcomes.AddOutcome | services/api/portfolio/service.py:155-253 | exactly when a position is added; its row holds each value rounded in its own column, its event the values as given, nothing else changes; and the error otherwise |
| PortfolioOutcomes.UpdateOutcome | services/api/portfolio/service.py:255-353 | exactly when an update succeeds; values given are set, the others kept; the event tells both; and the error otherwise |
| PortfolioOutcomes.DeleteOutcome | services/api/portfolio/service.py:355-428 | exactly when a delete succeeds; exactly that row goes; and the error otherwise |
| PortfolioOutcomes.LoadsIff | libs/database/repositories/portfolio.py:64-92 | a portfolio loads exactly when its own texts and all its positions are well-formed |
| PortfolioEvents.EventRetellsIffOnGrid | libs/events/portfolio.py:49-150 | an event fits the tables before it, and turns them into the tables after it exactly when its values fit the columns |
| PortfolioEvents.NextReplaysIff | libs/database/models/portfolio.py:122-136 | from a history that replays, the next request keeps it so exactly when it fails or its values fit |
| PortfolioEvents.EveryRunReplays | services/api/portfolio/service.py:79-428 | when the values of every committed request fit, replaying the events rebuilds every portfolio and position, whatever failed on the way |
| PortfolioEvents.AlwaysReplaysIff | libs/database/models/portfolio.py:122-136 | a run replays at every moment exactly when the values of every committed request fit |
| PortfolioEvents.EveryEventFits | libs/events/portfolio.py:80-150 | in such a run previous values and removed positions are those of the replay just before |
| PortfolioEvents.OneEventPerCommit | libs/database/unit_of_work.py:128-208 | one event per success, none per failure, none taken back |
| PortfolioEvents.EveryRunIsSound | libs/database/models/portfolio.py:84-95 | an instrument at most once per portfolio, every position in an existing portfolio |
| PortfolioEvents.AddedPositionLoadsIff | libs/database/repositories/portfolio.py:373-408 | a new position leaves its portfolio loadable exactly when neither value is stored as zero |
| PortfolioEvents.UpdatedPositionLoadsIff | libs/database/repositories/portfolio.py:230-263 | so does an update, for the values it leaves |
| PortfolioEvents.PoisonStays | services/api/portfolio/service.py:79-428 | a stored portfolio that does not load still does not load after any request |
| PortfolioEvents.PoisonStaysForever | services/api/portfolio/service.py:79-428 | nor after any run |
| PortfolioEvents.TinyValueIsStoredAsZero | libs/database/models/portfolio.py:122-136 | that happens exactly below half a step of the column |
| PortfolioEvents.TinyPositionPoisonsPortfolio | libs/database/repositories/portfolio.py:129-157 | a run of two accepted requests whose events do not replay and whose portfolio cannot be loaded |
| PortfolioRaces.EventFitsIff | libs/database/repositories/portfolio.py:195-228 | in every reachable state a committed update or delete tells the values the replay holds exactly when they are those of the row as it was locked |
| PortfolioRaces.CommitReplaysIff | libs/database/repositories/portfolio.py:230-263 | from a history that replays, a committed update keeps it so exactly when its values fit and every column it does not write holds what it thinks it holds; a delete always does |
| PortfolioRaces.RacesReplayIff | services/api/portfolio/service.py:255-428 | an interleaved run replays at every moment exactly when all its commits are of that kind |
| PortfolioRaces.RefreshedRunsTellThePast | services/api/portfolio/service.py:255-428 | when no session still holds at the lock what it loaded with the portfolio, every event tells the past right |
| PortfolioRaces.LonePassIsRun | services/api/portfolio/service.py:255-428 | after any interleaving, a request that finds its row unlocked and is left alone does what the service's transaction does, whatever the session holds on to |
| PortfolioRaces.CrashFreesRow | libs/database/unit_of_work.py:179-208 | a crash gives up its lock and changes nothing stored |
| PortfolioRaces.RaceTellsOldValues | services/api/portfolio/service.py:267-353 | a run of two updates in which the second's event tells a quantity that was already replaced, and the replay differs from the table |
| RiskEngine.KeyIsInjective | services/risk_engine/state.py:49-67 | different instruments have different keys |
| RiskEngine.UsedQuotes | services/risk_engine/state.py:49-67 | which quotes are used, and the key they are kept under |
| RiskEngine.AlertMeansMove | libs/domain/risk/rules.py:81-159 | an alert is raised exactly for a move of the middle of bid and ask by at least the warning percentage, critical exactly from the critical one; it tells the move, the threshold and the instrument; quotes of different instruments are refused |
| RiskEngine.DefaultThresholds | libs/domain/risk/rules.py:33-42 | the default rule warns from 2 and is critical from 5 percent |
| RiskEngine.RiskEngineService.ProcessEvent | services/risk_engine/service.py:39-109 | state advances exactly for newer valid quotes; raises only for malformed ones, without changing state |
| RiskEngine.StateIsLastRecord | services/risk_engine/state.py:69-92 | the state is each instrument's newest quote of the whole stream |
| RiskEngine.RecordsIncrease | services/risk_engine/service.py:70-79 | the series of newest quotes is strictly increasing in time |
| RiskEngine.AlertsAreNeighbourAlerts | services/risk_engine/service.py:39-109 | alerts are exactly the rule on neighbours in that series, for every stream and instrument |
| RiskEngine.InstrumentsAreIndependent | services/risk_engine/state.py:69-92 | dropping all other events changes neither an instrument's state nor its alerts |
| RiskEngine.RedeliveryIsSilent | services/risk_engine/service.py:70-79 | any redelivery of processed events emits nothing and changes nothing |
| MarketBatch.MarketSnapshotCache.GetFreshMany | services/api/market_snapshot_cache.py:96-141 | exactly the requested symbols with a live, readable fresh entry |
| MarketBatch.MarketSnapshotCache.GetStaleMany | services/api/market_snapshot_cache.py:143-188 | exactly the requested symbols with a live, readable stale entry |
| MarketBatch.ReadableBeforeExpiry | services/api/market_snapshot_cache.py:96-188 | an entry is read before its expiry, and only if its text parses |
| MarketBatch.MarketSnapshotCache.PutMany | services/api/market_snapshot_cache.py:190-232 | a prefix of the paired writes is carried out, all of them when it completes |
| MarketBatch.CompletedPutPairs | services/api/market_snapshot_cache.py:190-232 | whatever the cache held, a completed put leaves every symbol it writes with a fresh entry and an equal stale entry that strictly outlives it |
| MarketBatch.LastQuoteIsStored | services/api/market_snapshot_cache.py:190-232 | and both hold the last quote given for the symbol, each for its own time to live |
| MarketBatch.WholeWritesKeepPairs | services/api/market_snapshot_cache.py:190-232 | a completed put keeps a cache paired as a whole |
| MarketBatch.CutWriteKeepsPairsIff | services/api/market_snapshot_cache.py:200-232 | a put cut short keeps the pairs exactly when it stopped between quotes, or the old stale entry already served |
| MarketBatch.TwelveDataMarketDataProvider.GetQuotes | services/market_ingestor/providers/twelve_data.py:783-901 | asks once for each symbol; quotes and errors partition them; a quote is returned only for the symbol it names |
| MarketBatch.AnswerFor | services/market_ingestor/providers/twelve_data.py:783-901 | a bare answer is for a single symbol, others are looked up by symbol; a quote counts only for the symbol it names |
| MarketBatch.DedupeKeepsOrder | services/market_ingestor/providers/twelve_data.py:795-815 | symbols are asked for in the order of their first occurrence |
| MarketBatch.MissesKeepOrder | services/api/market_batch.py:79-85 | missing symbols keep the order of the request |
| MarketBatch.ItemOutcome | services/api/market_batch.py:184-260 | what one symbol gets: fresh, else provider, else stale, else an error that says whether the provider was asked |
| MarketBatch.BatchMarketQuoteService.GetQuotes | services/api/market_batch.py:56-296 | whatever others write to the cache between its accesses: items in request order are what the per-symbol specification says; only misses are asked for; counts partition the request; other symbols' entries stay, and a write that gets through leaves every provided quote under both keys |
| MarketBatch.AskedIffNormalized | services/market_ingestor/providers/twelve_data.py:795-815 | a missing symbol can be answered by the provider exactly when normalizing leaves it alone |

## Left out

* HTTP routes, settings, wiring, metrics, tracing and logging; the AWS, Redis and SQLAlchemy clients, which appear as tables, locks, a clock and steps that may fail.
* The news, watchlist, candle and status components, and the provider's field parsers: they add only simpler members.
* Trimming and upper-casing of strings: symbols are taken as normalized, except in the batch quotes, where the normalizing function is a parameter; JSON round trips of payloads are taken as faithful.
* Generated identifiers are taken as fresh; created and updated times of trading and portfolio rows are not modelled.
* Overflow of the numeric columns' precision counts as a refusal by the database; division for the average cost is exact before its one rounding. The risk rule's percentage, a 28-digit `Decimal` quotient, is exact too.
* The row objects a session has already loaded: a session holds them weakly and does not refresh one that is still there. In trading the routing read's order object, to which nothing refers any more, is taken to be gone when the row is locked, so a locked read returns the latest committed row. In the portfolio service this is left to the run: `PortfolioRaces` models it, and `PortfolioEvents` takes portfolio transactions one at a time. Creating a portfolio and adding a position are single steps in both.
* Looking an account up by its user, and the uniqueness of accounts per user.
* Buying and selling variants of one service method are one method with a side parameter.
* Rejecting an order: no service calls it, and the order life cycle shows the state is never reached.
* In the alert protocol reading the clock and writing the record are one step, and all workers share one clock; a publish that raises although the notification went out counts as not notified by that claim.
* PortfolioEvents.EveryRunReplays: for committed values that fit the columns only; otherwise it is false, and `AlwaysReplaysIff` states exactly when.
* OutboxAcks.OneLeaseHolder: for runs in which no write harms a lease; `KeptIff` and `HarmfulWriteMakesTwoHolders` show that this is the exact condition, `LateWriteFreesAnothersLease` a run outside it.
* OutboxAcks.BackoffBound: for runs in which no write harms a counter; exact by `KeptIff`, with `LateWriteLosesAFailure` outside it.
* OutboxAcks.ClaimRate: for runs in which no write harms the rate; exact by `KeptIff` and `HarmfulWriteBreaksRate`, with `LateWriteFreesAnothersLease` outside it, where one event is claimed twice in the same second.
* LedgerInvariants.EveryGridRun: for traded prices that fit the columns only; `ReplaysIffPriceFits` states exactly when.
* MarketBatch.MarketSnapshotCache.PutMany: commands of other requests between the commands of one put.
