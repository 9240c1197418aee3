# Verified model of the trading engine's ledgers, protocols and gates

This project models, in Dafny, the parts of the repository where state, money and concurrency meet,
and proves what those parts promise over whole histories rather than over one call.

| files | what they model |
|---|---|
| `PaperLedger`, `PaperLaws`, `PaperOrders`, `PaperSolvency`, `PaperEngine` | the paper-trading account: slippage, costs, positions, journal, per-day counters (`app/paper`) |
| `Backtest`, `BacktestLaws`, `BacktestOrders`, `BacktestEngine`, `Drawdown`, `BacktestDrawdown` | the candle loop that drives it and the metrics read off the result (`app/backtesting`) |
| `OrderStore`, `ExecutionProtocol`, `ExecutionRecords`, `ExecutionAgent` | the idempotency store, the six-step order protocol under any interleaving and any crash, and the broker permit (`app/execution`, `app/brokers/base.py`) |
| `Shadow`, `ShadowLaws`, `ShadowTurns`, `ShadowRuns`, `ShadowTies`, `ShadowFlush`, `ShadowService` | the shadow-observation lifecycle: opening, marking, exits, re-entry wait, session sweep (`app/services`) |
| `TradeActions`, `RiskSizing`, `RiskEngine`, `RiskReasons` | the risk gate: sizing as a minimum of floors, and its decision (`app/risk`) |
| `Intraday`, `IntradayLaws`, `IntradayTrades`, `IntradayPipeline` | scoring, the agent-review layer, the latched kill switch, the pipeline loop, virtual positions (`app/intraday`, `app/agentic/orchestrator.py`) |
| `DailyReport` | the end-of-day folds (`app/intraday/daily_report.py`) |
| `Common` | options, raised errors, sums over dictionaries, folds over lists, de-duplication, signs of products |

Each component has a specification (functions on values), classes and methods with the source's own
loops and assignments proved equal to it, and laws about every run of the specification. The modules `PaperOrders`,
`BacktestOrders`, `ExecutionRecords`, `ShadowTurns`, `IntradayTrades` and `RiskReasons` say what each operation does in
the terms of its inputs alone (the request, the bar, the broker's answer, the quote, the agents' records, the question),
so that a specification and a method that were wrong in the same way would not meet them.

Conventions. Money and prices are `real`: floats are idealised, and so are `Numeric(18,4)` columns and
`round(...)`. Timestamps are integers, microseconds of UTC. Ids are opaque values; a fresh one is a
parameter. Symbols are already upper-cased and stripped. A Python exception is a `Raised` result (or
`None` where only its occurrence matters). Agents, strategies, news and quality checks are arbitrary
values or arbitrary functions. A database transaction is one atomic step. Where a range is enforced by a
constructor or a settings schema, the model states it once, as a subset type or a predicate
(`CostModel`, `RiskLimits`, `Question.WellFormed`, `Settings.InRange`).

## Where the code does not do what one would expect

Each of these is a lemma, most with the exact condition under which the code does meet the expectation.

- Cash can go below zero. `CashNeverNegativeExactly`: no history of an account overdraws it exactly when its
  starting cash does not exceed the buffer plus the flat fee, or slippage exceeds 100%, or there is no flat fee
  and either the proportional costs are at most 100% or slippage is exactly 100%. `FlatFeeCanOverdraw` is one
  account.
- The one-pass percentage drawdown can understate. `OnePassBoundsEveryFallExactly` says when, on any curve: only
  levels below zero matter, and each plunge must be matched by one from the running peak; at a curve's first level
  below zero that means all positive levels before it are equal (`FirstNegativeLevelExactly`).
  `RunCanBeUnderstated` is a backtest whose own curve is understated: a flat fee of 10, one unit held, prices
  20, 25, 5.
- A backtest's equity can go below zero as well, though under a narrower condition, because one position is held at
  a time and always sold whole. No run shows it exactly when the starting cash does not exceed the buffer plus the flat
  fee, or slippage exceeds 100%, or the buffer covers the flat fee and either the proportional costs are at most 100%
  or slippage is exactly 100% (`EquityNeverNegativeExactly`).
- The re-entry cooldown consults one closed row. If a cycle starts at the very reading of an earlier mark, a swept
  row can hide a longer wait. `CycleKeepsWaitExactly` says when one cycle does so; the breaking cycle quotes one symbol
  twice, which a repeated name in the symbol lists brings about, since they are not de-duplicated
  (`app/core/config.py:206-211`). `TieIsReached` gets there from an empty database, from any two readings on different
  days; `TieIsPassed` breaks the wait with no symbol quoted twice and exits on or off, one cycle later. It takes a cycle
  that starts on one day and is still marking when a cooldown begun at the next midnight is over.
  `MonotoneClockSufficesExactly` says that a clock which merely never runs backwards is enough exactly when every day of
  both markets, in whatever time zone and with whatever summer time, is shorter than the cooldown; at a fixed distance
  from UTC, such as Asia/Kolkata, that is a cooldown above 1440 minutes (`FixedZonesSufficeExactly`).
- With a zero giveback threshold, which the settings accept, it matters whether the session flushes the newest sample
  before the query (`CurrentMarkCountsForNothingExactly`): the default session factory (`app/db/session.py`) does not,
  and a row can then stay open although its stored path calls for an exit. A row's status follows from its figures and
  stored samples in every run exactly when the threshold is positive or samples are flushed first
  (`StatusFollowsExactly`). What the price levels call for is always done (`StillOpenMeansInside`,
  `EveryExitHasItsCause`).
- A sale is sized as if it added exposure, so a long position in a full market cannot be sold
  (`SaleWithoutRoomIsRefused`).
- An FX status without a rate makes the risk gate raise instead of reject (`RaisesExactlyWithoutRate`).
- With both score thresholds at zero, a cautious review can turn a rejected signal into a trade, because
  truncation moves -1 to 0 (`ReviewOnlyRemovesExactly`).
- The open-position limit is read once per snapshot and can be overshot by all strategies but one; it holds in
  every run exactly when there is at most one strategy (`LimitHoldsExactly`).
- The risk budget bounds the approval, not the position: risk is measured again at the fill. For longs and shorts alike
  it stays within what was approved exactly without slippage and spread, or when the stop lies beyond the signal's
  price, on the side the fill moves to, by at least half of what the fill lost (`RiskGrowsWithTheFill`).
- A call stopped between its reservation and its write leaves its key unusable for good: nothing writes it or places an
  order under it again, so an order stopped before the broker was asked is never placed (`StoppedCallKeepsItsKey`).
- A backtest raises exactly when a bar it reaches holds a position after its entry phase and either slippage
  exceeds 100% or the position's target is not positive and the bar's low is above its stop (`RunRaisesExactly`).
- Expectancy counts flat exits as average losses (`ExpectancyNeverExceedsMean`).

## Model

| member | source | states |
|---|---|---|
| PaperLaws.CashIsConserved | app/paper/engine.py:167-244 | after any list of orders, exit checks and close-outs (accepted, blocked, partial or raising), cash plus the entry basis of all open positions is starting cash plus realized P&L |
| PaperLaws.EquityIsExplained | app/paper/engine.py:138-162 | whenever a snapshot can be taken, equity is starting cash plus realized plus unrealized P&L, for any marks |
| PaperLaws.SnapshotDefinedExactly | app/paper/engine.py:147-152 | in any reachable account a snapshot raises exactly when some open position's mark is not positive, or slippage exceeds 100% with a position open |
| PaperLaws.JournalRebuildsBooks | app/paper/engine.py:179-264 | folding the journal alone, with its own posting rules, rebuilds cash, realized P&L, costs, per-day entry counts, per-day P&L and every open lot; each symbol's units are bought minus sold and never negative |
| PaperLaws.BlockedEntriesSayNothing | app/paper/engine.py:287-311 | striking every blocked entry from a journal changes nothing that is rebuilt from it |
| PaperLaws.EntriesRespectLimits | app/paper/engine.py:172-193 | every OPENED entry of every history came with fewer earlier entries that day than the limit, day P&L above minus the loss limit, and left at least the cash buffer |
| PaperLaws.NoDayExceedsTradeLimit | app/paper/engine.py:280-282 | no day of any history has more entries than the limit |
| PaperLaws.RefusalChangesOnlyJournal | app/paper/engine.py:167-177 | every call writes at most one journal entry, and if that entry is a refusal nothing else in the account differs |
| PaperLaws.SaleRaisesExactly | app/paper/models.py:51-62 | a sale raises exactly when it is otherwise valid and the price is not positive or slippage exceeds 100% |
| PaperLaws.StopLossLoses | app/paper/engine.py:87-99 | a stop-loss exit empties the position and books a strictly negative P&L, whatever the costs |
| PaperLaws.SplittingASaleCostsOneFlatFee | app/paper/engine.py:228-244 | closing in two parts at one price leaves the positions of a single close and costs exactly one flat fee more |
| PaperOrders.PurchaseDecidedExactly | app/paper/engine.py:167-211 | at the end of any history a purchase files a position with the requested market, quantity, stop, target and time, at the slipped price and for the full outlay, exactly when there is no objection; otherwise it is refused for the first objection in the order invalid, already open, trade count, loss limit, cash, with counts, losses and cash read off the journal |
| PaperOrders.SaleDecidedExactly | app/paper/engine.py:213-269 | a sale that raises changes nothing; any other, when covered, takes exactly those units and is booked under the reason given, and otherwise is refused as invalid or as a short sale |
| PaperOrders.ExitChecksProtect | app/paper/engine.py:75-113 | an exit check that does not raise sells the whole position, at its stop and as STOP_LOSS when the low reaches it, at its target and as PROFIT_TARGET when only the high does, and otherwise changes nothing |
| PaperOrders.CloseOutsSellWhole | app/paper/engine.py:115-136 | a close-out sells whatever is held in that market at the price given, or is refused |
| PaperOrders.EveryEntryIsBooked | app/paper/engine.py:172-311 | every entry of every history has the slipped price, gross value, costs and cash change that its request and the cost model imply, and every sale the result its lot in the journal implies |
| PaperOrders.PositionsAreAsOrdered | app/paper/engine.py:179-196 | every open position of every history goes back to one buy order of its symbol, held ever since, with that order's market, stop, target and time, its slipped price and its costs, and at most its quantity |
| PaperOrders.EquityIsLiquidationCash | app/paper/engine.py:138-162 | closing out every position at its mark, in any order, turns a snapshot's equity into cash and its unrealized result into a realized one |
| PaperSolvency.CashNeverNegativeExactly | app/paper/engine.py:172-235 | no history makes cash negative exactly when nothing can be bought (starting cash at most the buffer plus the flat fee), nothing can be sold (slippage above 100%), or no sale can cost more than it brings in (no flat fee, and proportional costs of at most 100% or slippage of exactly 100%) |
| PaperSolvency.CashNeverNegative | app/paper/engine.py:176-180 | in such an account every history keeps cash at or above zero, and when nothing can be bought none changes it |
| PaperSolvency.OverdrawnByDraining | app/paper/engine.py:213-244 | any other account is overdrawn by buying down to the buffer and selling unit by unit |
| PaperSolvency.PurchaseNeedsFunds | app/paper/engine.py:172-177 | an entry is refused whenever cash is at most the buffer plus the flat fee |
| PaperSolvency.FlatFeeCanOverdraw | app/paper/engine.py:228-235 | a concrete history in which a flat fee takes cash from 0 to -9 |
| PaperEngine.PaperTradingEngine.constructor | app/paper/engine.py:33-52 | a new engine holds the opening account |
| PaperEngine.PaperTradingEngine.SubmitOrder | app/paper/engine.py:54-73 | the object's new contents, error, journal entry and reported position are those of the specification, and the purchase or sale is decided as PurchaseDecidedExactly and SaleDecidedExactly say |
| PaperEngine.PaperTradingEngine.OpenPosition | app/paper/engine.py:167-211 | an entry, blocked or opened, leaves the specified account: the position filed with the levels asked for, or the first objection |
| PaperEngine.PaperTradingEngine.ClosePosition | app/paper/engine.py:213-269 | a sale, blocked, partial, full or raising, leaves the specified account |
| PaperEngine.PaperTradingEngine.FindBlockReason | app/paper/engine.py:271-285 | the first reason to refuse an entry, in the source's order |
| PaperEngine.PaperTradingEngine.Blocked | app/paper/engine.py:287-311 | a refusal appends its journal entry and changes nothing else |
| PaperEngine.PaperTradingEngine.Reduce | app/paper/engine.py:238-244 | the position object loses its units in place, or leaves the dictionary when none remain |
| PaperEngine.PaperTradingEngine.EvaluateExit | app/paper/engine.py:75-113 | the protective sale is triggered, stop before target, exactly as specified, and the position sold whole at its own level |
| PaperEngine.PaperTradingEngine.CloseOpenPosition | app/paper/engine.py:115-136 | closing out sells whatever is held |
| PaperEngine.PaperTradingEngine.TakeSnapshot | app/paper/engine.py:138-162 | a snapshot is returned exactly when all positions can be priced, and is the account marked to market |
| PaperEngine.AddUp | app/paper/engine.py:145-152 | the loop over positions, in whatever order, computes the two sums |
| Drawdown.MaxDrawdownPct | app/backtesting/engine.py:200-207 | the one-pass loop returns the specified figure, never negative |
| Drawdown.OnePassBoundsEveryFall | app/backtesting/engine.py:200-207 | on non-negative equity the result is in [0,1] and at least (e_i - e_j)/e_i for all i <= j with e_i positive |
| Drawdown.OnePassIsReached | app/backtesting/engine.py:200-207 | unless zero, the result is one of those falls |
| Drawdown.OnePassBoundsEveryFallExactly | app/backtesting/engine.py:200-207 | on any curve the result bounds every fall exactly when each plunge below zero, measured from any earlier positive level, is no deeper than some plunge measured from the running peak |
| Drawdown.FirstNegativeLevelExactly | app/backtesting/engine.py:200-207 | when a non-negative curve first goes below zero the result still bounds every fall exactly when all its positive levels are equal |
| Drawdown.LowestIsExtreme | app/backtesting/engine.py:203-207 | on any curve the result is the largest of zero and the distances below the running peak |
| Drawdown.NegativeEquityIsUnderstated | app/backtesting/engine.py:203-207 | a list of levels whose worst fall the result misses |
| BacktestDrawdown.RunCanBeUnderstated | app/backtesting/engine.py:87-122 | a concrete account, strategy and three valid candles whose finished curve is 30, 15, -5: it reports 7/6 although from 15 it fell by 4/3 |
| BacktestLaws.RunsDoNotRaise | app/backtesting/engine.py:87-101 | with slippage at most 100% and targets positive when given, a run over valid candles never raises |
| BacktestLaws.BarRaisesExactly | app/backtesting/engine.py:87-101 | a bar raises exactly when the position held after its entry phase meets slippage above 100%, or has a target that is not positive while the bar's low is above its stop |
| BacktestLaws.RunRaisesExactly | app/backtesting/engine.py:87-101 | a run raises exactly when one of the bars it reaches does |
| BacktestLaws.LiquidationNeverRaises | app/backtesting/engine.py:103-116 | the final liquidation never raises, empties the position and adds one equity point |
| BacktestLaws.BarsInv | app/backtesting/engine.py:87-101 | after every bar: the account invariant, one equity point per bar, alternating entries and full exits, losing stops, and an open position untouched since its entry bar |
| BacktestLaws.ReportIsConsistent | app/backtesting/engine.py:103-198 | entries, closed and blocked trades make up the journal; net P&L is the realized P&L and total costs are the account's; the curve has one point per candle plus one if liquidated; with close-on-end the run ends flat, entries equal closed trades and final equity minus starting cash is net P&L |
| BacktestLaws.StopsAlwaysLose | app/paper/engine.py:87-99 | every STOP_LOSS exit of a finished run is a closed trade at a strict loss, and every entry respected the account's limits |
| BacktestLaws.OpenPositionIsUntouched | app/backtesting/engine.py:94-100 | from an open position's entry bar onwards every low is above its stop and every high below its target |
| BacktestLaws.SameBarsSameState | app/backtesting/engine.py:87-101 | two series that agree on k bars give equal accounts and curves after them, for any pure strategy |
| BacktestLaws.NoLookAhead | app/backtesting/engine.py:87-122 | the finished journals and curves of two such series both extend one common journal and curve of the first k bars |
| BacktestLaws.EntryIgnoresRestOfBar | app/backtesting/engine.py:87-92 | the entries made at bar k depend only on earlier bars and bar k's open and timestamp |
| BacktestLaws.ReportedRatesAreConsistent | app/backtesting/engine.py:169-198 | winners, losers and even trades make up the closed trades, the win rate is their share, and the total return reproduces the final equity |
| BacktestOrders.EveryBarIsDone | app/backtesting/engine.py:87-101 | a completed bar is the purchase its signal asks for, if it acts on one, then the exit check on the bar's low and high, then one equity point: cash plus what selling the position at the close would bring in, after slippage and costs |
| BacktestOrders.BuysAtBarExactly | app/backtesting/engine.py:87-92 | a bar writes a buy entry exactly when it is not the first, the symbol is flat and the strategy, shown exactly the bars before it, signals this symbol and market; the entry has the signal's quantity, the bar's open and its time |
| BacktestOrders.PositionIsTheSignals | app/backtesting/engine.py:124-146 | every position of a run goes back to one bar's signal, with its quantity, stop and target at that bar's open, held ever since, and no bar since has touched those levels |
| BacktestOrders.SignalLevelsAreHonoured | app/backtesting/engine.py:94-100 | from the entry bar on, a bar that reaches the signal's stop sells the whole position at it, one that only reaches the signal's target sells it at the target, any other keeps it |
| BacktestOrders.EndIsLiquidated | app/backtesting/engine.py:103-116 | with closing on end what is held after the last bar is sold whole at its close, with one more point; otherwise nothing happens |
| BacktestOrders.MetricsCountEntries | app/backtesting/engine.py:164-198 | the counts are numbers of journal entries: purchases, sales, refusals, sales at a profit, sales at a loss; the win rate is the share of winners and zero without trades; final equity is the last point's |
| BacktestOrders.SoundExactly | app/backtesting/engine.py:213-219 | a candle is sound exactly when its prices are positive and open and close lie between low and high |
| BacktestDrawdown.DrawdownOfRun | app/backtesting/engine.py:179-207 | whenever a run shows no negative equity, whatever the costs, the reported drawdown is in [0,1], bounds every fall between two points of the curve and, unless zero, is one |
| BacktestDrawdown.EquityNeverNegativeExactly | app/backtesting/engine.py:87-122 | no finished run of an account, for any strategy, valid candles and either setting of closing on end, shows negative equity exactly when starting cash is at most the buffer plus the flat fee, slippage exceeds 100%, or the flat fee is within the buffer and the proportional costs are at most 100% or slippage is exactly 100% |
| BacktestDrawdown.EquityBelowZero | app/backtesting/engine.py:94-101 | in any other account one unit bought down to the buffer on the second bar shows negative equity at that bar's close |
| BacktestEngine.SortingFixesNothingExactly | app/backtesting/engine.py:220-221 | stable sorting returns a non-decreasing list and leaves the candles as they are exactly when they are non-decreasing |
| BacktestEngine.AsManyTimesAsCandlesExactly | app/backtesting/engine.py:222-224 | there are as many distinct timestamps as candles exactly when no two are equal |
| BacktestEngine.HistoricalBacktestEngine.ValidatedCandles | app/backtesting/engine.py:209-225 | accepts exactly the valid series; otherwise raises the error of the first bad candle, then of order, then of duplicates |
| BacktestEngine.HistoricalBacktestEngine.FindFault | app/backtesting/engine.py:213-219 | the first bad candle's fault |
| BacktestEngine.HistoricalBacktestEngine.RunSingleSymbol | app/backtesting/engine.py:70-122 | returns the specified journal, curve and metrics, and raises exactly when the specified run does; journal and curve are the finished run's and the metrics say what MetricsCountEntries states of them |
| BacktestEngine.HistoricalBacktestEngine.RunBars | app/backtesting/engine.py:87-101 | the candle loop computes the specified state bar by bar |
| BacktestEngine.HistoricalBacktestEngine.RunBar | app/backtesting/engine.py:87-101 | one bar: entry, exit check, equity point |
| BacktestEngine.HistoricalBacktestEngine.CloseAtEnd | app/backtesting/engine.py:103-116 | the final liquidation, when configured |
| BacktestEngine.HistoricalBacktestEngine.SubmitSignal | app/backtesting/engine.py:124-146 | a signal for another symbol or market is ignored, any other is submitted at the bar's open |
| BacktestEngine.HistoricalBacktestEngine.TakePoint | app/backtesting/engine.py:148-161 | the equity point is the snapshot at the close |
| OrderStore.ReserveRefinesDictionary | app/execution/idempotency.py:31-49 | on agreeing tables a reservation is refused exactly for a key already held or an id already used, and otherwise adds exactly that record to the dictionary callers see |
| OrderStore.UpsertRefinesDictionary | app/execution/idempotency.py:51-74 | an upsert that goes through writes exactly that record, and is refused exactly when it would insert a second order row for a key |
| OrderStore.OwnerUpsert | app/execution/idempotency.py:51-74 | the holder of a key can always write it and the tables stay in agreement, with no row added |
| OrderStore.StrangerUpsertRaises | app/execution/idempotency.py:51-74 | an upsert under a taken key by another record is refused |
| OrderStore.ReserveKeepsAgreement | app/execution/idempotency.py:31-49 | reserving keeps the two tables in agreement |
| OrderStore.OrderIdempotencyStore.ReserveKey | app/execution/idempotency.py:31-49 | both rows are inserted, or neither and the duplicate error is raised |
| OrderStore.OrderIdempotencyStore.UpsertRecord | app/execution/idempotency.py:51-74 | both rows are written, or neither and the duplicate error is raised |
| OrderStore.OrderIdempotencyStore.Find | app/execution/idempotency.py:24-29 | the payload stored under the key |
| OrderStore.InMemoryOrderIdempotencyStore.ReserveKey | app/execution/idempotency.py:131-134 | the dictionary the durable store refines: refused exactly for a key already there |
| OrderStore.InMemoryOrderIdempotencyStore.UpsertRecord | app/execution/idempotency.py:136-137 | the record replaces whatever was there |
| ExecutionProtocol.AtMostOncePlacement | app/execution/order_manager.py:36-71 | for any number of agents, any interleaving and any raise or crash between steps, the broker's log has no two orders with one key, each passed the pre-trade checks, and each is for the intent stored under its key |
| ExecutionProtocol.OnlyClearedOrdersArePlaced | app/execution/order_manager.py:73-105 | whatever reached the broker did so with the kill switch off, live trading enabled, an approved matching decision, a healthy broker of its market and, for India, approved compliance |
| ExecutionProtocol.TablesAgree | app/execution/idempotency.py:31-74 | in every reachable state each key row has exactly one order row, equal column by column; what is stored under a key is the last record any step wrote there; duplicates are blocked exactly when the status is unknown; and there are as many rows in one table as in the other |
| ExecutionProtocol.StoreHoldsLastWrite | app/execution/idempotency.py:24-74 | for every run and key, what a lookup finds is the last record reserved or upserted under it |
| ExecutionProtocol.SettledMeansPlacedOnce | app/execution/order_manager.py:48-71 | a key whose record left (CREATED, REQUIRED) was placed exactly once |
| ExecutionProtocol.SettledForever | app/execution/order_manager.py:48-71 | over any continuation a stored record keeps its identity, and once settled never changes again |
| ExecutionProtocol.StoppedCallKeepsItsKey | app/execution/order_manager.py:42-71 | a call that crashes, or whose reconciliation raises, between its reservation and its write leaves the reserved record under its key over every continuation, with an order placed under it exactly when the broker had been asked |
| ExecutionProtocol.AbandonedForever | app/execution/order_manager.py:38-44 | over any continuation a taken key that no call under way holds is neither written nor placed under |
| ExecutionRecords.SettledRecordsTell | app/execution/order_manager.py:47-71 | in every reachable state a settled record says what the broker answered the call that wrote it: its order id and response and the reconciled status, RECONCILED exactly when that is known, an unknown status without an id; or the error, blocking duplicates |
| ExecutionRecords.PhasesTell | app/execution/order_manager.py:47-71 | the same of every call under way, after placing and after reconciling |
| ExecutionRecords.ClearedExactly | app/execution/order_manager.py:73-105 | the pre-trade checks pass exactly when every one of their conditions holds |
| ExecutionRecords.ErrorIsFirstFailure | app/execution/order_manager.py:73-105 | a call that is not cleared is refused with the error of the first check that fails, in the source's order |
| ExecutionProtocol.WritesNeverRaise | app/execution/order_manager.py:56-70 | the write after a placement is never refused by the store |
| ExecutionProtocol.ReturnedRecordIsTheKeys | app/execution/order_manager.py:38-40 | a call that returns, whether it placed the order or found it, returns the order stored under its key |
| ExecutionProtocol.RunInv | app/execution/order_manager.py:26-71 | the protocol's invariant in every reachable state |
| ExecutionAgent.PermitFitsExactly | app/brokers/base.py:51-85 | a permit issued for an order lets through exactly the orders with its key, decision, broker and market, at that adapter, with that issuer token, for thirty seconds |
| ExecutionAgent.PermitErrorIsFirst | app/brokers/base.py:51-66 | a permit that does not fit is refused with the error of its first mismatch |
| ExecutionAgent.IssuedExactly | app/brokers/base.py:68-85 | a permit is issued exactly to an intent with a risk decision |
| ExecutionAgent.AloneIsARun | app/execution/order_manager.py:26-71 | an uninterrupted call is one of the interleavings |
| ExecutionAgent.AlonePlacesOnceExactly | app/execution/order_manager.py:38-71 | uninterrupted, a cleared call with an unused key places exactly one order and settles it unless reconciling raises; with a used key it places none and returns what is stored |
| ExecutionAgent.AloneRecordsAnswers | app/execution/order_manager.py:47-71 | uninterrupted, a cleared call with an unused key stores and returns a record that says what the broker answered; only when reconciling raises does it stay as reserved |
| ExecutionAgent.ExecutionAgent.Execute | app/execution/order_manager.py:26-71 | the imperative call leaves the store, the broker's log and the result of the six steps; for a cleared call with a fresh key and id, a record that says what the broker answered |
| ExecutionAgent.ExecutionAgent.PlaceAndRecord | app/execution/order_manager.py:45-71 | placing, reconciling and recording, with the error path written back before raising |
| ExecutionAgent.Broker.PlaceOrder | app/brokers/base.py:88-98 | every attempt is logged; the answer is the permit's error or the broker's own outcome |
| Shadow.Peak | app/services/shadow_training_service.py:532-532 | a sample of the path that no other exceeds |
| ShadowLaws.PeakIsFirstOfEquals | app/services/shadow_training_service.py:532-532 | and the first of those |
| Shadow.FindOpen | app/services/shadow_training_service.py:301-308 | an open row of the symbol, absent exactly when there is none |
| ShadowLaws.AtMostOneOpenRow | app/services/shadow_training_service.py:300-396 | after any run of cycles, on any clock, at most one row per market and symbol is open |
| ShadowLaws.HistoryIsNeverRewritten | app/services/shadow_training_service.py:397-427 | later cycles only add rows or close open ones; entry price, levels and opening time never change, closed rows never change at all |
| ShadowLaws.CooldownIsRespected | app/services/shadow_training_service.py:587-610 | with a positive cooldown, a clock that never runs backwards inside a cycle and cycles starting after all earlier readings, every row opens no earlier than each previous exit of its symbol plus the cooldown |
| ShadowLaws.CheckingLatestIsCheckingAll | app/services/shadow_training_service.py:745-777 | in every such state, whichever of equally late rows the query returns, the one row decides as checking all closed rows would |
| ShadowLaws.LatestRowSpeaksForAll | app/services/shadow_training_service.py:754-777 | the same for any state that keeps the spacing invariant, also between the turns of a cycle |
| ShadowTies.CycleKeepsWaitExactly | app/services/shadow_training_service.py:690-733 | from any such state, every possible cycle at a given start keeps the wait exactly when no row it sweeps was last marked at that very reading, past its wait |
| ShadowTies.TiedSweepBreaksWait | app/services/shadow_training_service.py:754-764 | after such a tie two quotes of one symbol in the same cycle suffice to re-enter inside the cooldown |
| ShadowTies.TieIsReached | app/services/shadow_training_service.py:690-733 | on any calendar and for any two readings on different days, the later one no earlier than a cooldown after the last instant of the day before its own: three cycles from an empty table, with exits on and a clock that never runs backwards, break the wait |
| ShadowTies.TieIsPassed | app/services/shadow_training_service.py:745-777 | with exits on or off and no symbol quoted twice in a cycle, a fourth cycle on a later day breaks it, if it comes within a cooldown of the tie |
| ShadowTies.LongWaitsSurvive | app/services/shadow_training_service.py:690-733 | with a cooldown longer than every day no run on such a clock ties a sweep |
| ShadowTies.MonotoneClockSufficesExactly | app/services/shadow_training_service.py:745-777 | on a clock that merely never runs backwards, in any time zones, every run keeps the wait exactly when every day of both markets is shorter than the cooldown, and likewise every run that never quotes a symbol twice in a cycle |
| ShadowTies.FixedZonesSufficeExactly | app/services/shadow_training_service.py:853-859 | with local midnights at any fixed distances from UTC, exactly when the cooldown exceeds 1440 minutes |
| ShadowLaws.NothingStaleAfterACycle | app/services/shadow_training_service.py:62-67 | after every completed cycle of every run on a clock that never runs backwards, cycles starting no earlier than the last reading before them, no open row predates its market's day start, and each swept row keeps its figures and gets an exit time from its opening up to its last mark, strictly before the day start |
| ShadowLaws.CycleSweepsClean | app/services/shadow_training_service.py:683-733 | the same for one cycle, from any table whose rows were all opened and marked by its start, with turns in order |
| ShadowLaws.SweepRows | app/services/shadow_training_service.py:690-733 | the sweep closes exactly the stale rows of the market and leaves every other row alone |
| ShadowLaws.RecordRows | app/services/shadow_training_service.py:300-432 | a turn touches no row, one open row or one new row, and leaves it open or closed as the exit policy says |
| ShadowTurns.TurnsDecidedExactly | app/services/shadow_training_service.py:300-432 | a quote marks the open row of its symbol; with none open it opens a row exactly when it is a BUY, news and loss discipline let it and the consulted row's wait is over; otherwise nothing changes. A new row has the quote's market, symbol, price, time and levels and the largest affordable size; a marked one the price move times its size; a closed one the turn's exit time and wait; each leaves one sample of its figures, and one more when closed |
| ShadowTurns.SweepsDecidedExactly | app/services/shadow_training_service.py:690-733 | a day's start closes exactly the market's open rows of earlier days, at the last instant not after their mark and not of the new day |
| ShadowTurns.EveryRowWasAskedFor | app/services/shadow_training_service.py:310-396 | in every reachable state every row goes back to a BUY quote of the run that neither news nor loss discipline held back, with that quote's price, time and levels |
| ShadowTurns.AdviceExactly | app/services/shadow_exit_service.py:68-190 | while no exit is due a sized row is advised to lock its profit exactly when the price is far enough toward the target, else to watch the stop exactly when it is far enough toward it, else to hold or wait by the sign of the move |
| ShadowLaws.StatusFollowsFromRecord | app/services/shadow_training_service.py:480-573 | with a positive giveback threshold, or with samples flushed before they are read, in every reachable state a row is open exactly when the exit policy, read off its own figures and stored samples, asks for no exit, and otherwise its status names the exit asked for; a row closed by the sweep had none due |
| ShadowFlush.StatusFollowsExactly | app/services/shadow_training_service.py:519-549 | with exits enabled that holds of every run exactly when the threshold is positive or samples are flushed before they are read |
| ShadowLaws.LevelsAlwaysAgree | app/services/shadow_training_service.py:480-517 | for any settings, in every reachable state a row whose own price and levels call for an exit carries that exit's status when exits are enabled, and any other row is open, given back or swept |
| ShadowLaws.StillOpenMeansInside | app/services/shadow_training_service.py:480-573 | with exits enabled a sized open row with both levels has stop < price < target and is outside the booking zone, whatever the giveback settings; and with a positive threshold, or samples flushed first, given two samples: if its highest stored profit can be locked, by amount or by percentage, less than the threshold share of it is gone, and for a threshold of at most 1 so for every stored profit lockable by amount |
| ShadowLaws.GaveBackExactly | app/services/shadow_training_service.py:531-549 | for any threshold, on any path: the giveback test is met exactly when the peak is positive, lockable by amount or by percentage, and at least the threshold share of it is gone |
| ShadowLaws.EveryExitHasItsCause | app/services/shadow_exit_service.py:68-190 | in every reachable state with exits enabled, whatever the giveback settings, a sized row with levels is closed by stop exactly when its price is at or below the stop, by target exactly when at or above it, by booking exactly when between them in the booking zone; other rows close only by giveback or sweep; with a positive threshold, or samples flushed first, a giveback exit has a lockable peak whose threshold share is gone |
| ShadowLaws.SizeIsLargestAffordable | app/services/shadow_training_service.py:434-437 | a number of shares is at most the size exactly when its notional fits the budget |
| ShadowLaws.MarkedReturnIsPriceReturn | app/services/shadow_training_service.py:397-401 | a mark's percentage is the return of its price whatever the exchange rate, and its P&L has the sign of the price move |
| ShadowLaws.CurrentMarkCountsForNothingExactly | app/services/shadow_training_service.py:519-573 | counting or omitting the current mark gives the same giveback verdict on every path of two or more samples exactly when the threshold is positive |
| ShadowLaws.CurrentMarkIsNeutral | app/services/shadow_training_service.py:529-549 | the same for one path, also for a first flat sample, and for any threshold when the path already reaches the mark |
| ShadowService.ShadowTrainingService.RunCycle | app/services/shadow_training_service.py:41-98 | two sweeps, then the turns in order; the tables, the sweep counts and the number of updates are the specified ones |
| ShadowService.ShadowTrainingService.RecordShadowObservation | app/services/shadow_training_service.py:289-432 | opens, marks or declines as specified and as TurnsDecidedExactly says, and reports whether it wrote |
| ShadowService.ShadowTrainingService.ApplyExitPolicy | app/services/shadow_training_service.py:480-517 | closes the row exactly when an exit is due, by the right action |
| ShadowService.ShadowTrainingService.ProfitPathExit | app/services/shadow_training_service.py:519-573 | the search for the peak and the measure of what is left agree with the specification |
| ShadowService.ShadowTrainingService.CloseObservation | app/services/shadow_training_service.py:575-639 | status, exit time and re-entry block are written, and one exit sample added |
| ShadowService.ShadowTrainingService.CloseStaleObservations | app/services/shadow_training_service.py:683-743 | the loop closes exactly the stale rows and counts them |
| ShadowService.ShadowTrainingService.ActiveReentryCooldown | app/services/shadow_training_service.py:745-777 | the running wait of the one row returned, if any |
| RiskSizing.SizedIsGreatest | app/risk/position_sizing.py:11-69 | every positive n fits the risk budget, the position cap, the market room and (buying) the cash or (selling) the held long exactly when n is at most the sized quantity |
| RiskSizing.FloorDiv | app/risk/position_sizing.py:20-21 | the greatest integer whose product with the unit does not exceed the amount |
| RiskEngine.ApprovedExactlyWhenOneUnitFits | app/risk/risk_engine.py:148-261 | a BUY or SELL is approved exactly when no other check objects, one unit fits, and the sized order keeps the total exposure limit |
| RiskEngine.ApprovedPurchaseIsGreatest | app/risk/risk_engine.py:198-261 | an approved BUY is the greatest quantity that fits, within cash and risk budget, and leaves total and market exposure within their limits |
| RiskEngine.ApprovedSaleIsCovered | app/risk/long_only.py:8-25 | an approved SELL is at least one unit, at most the held long, and the greatest that fits |
| RiskEngine.SaleWithoutRoomIsRefused | app/risk/position_sizing.py:43-61 | with less market room than one unit's price every SELL is rejected |
| RiskEngine.RaisesExactlyWithoutRate | app/risk/risk_engine.py:198-200 | the gate raises exactly for a US order with a stop and an FX status that carries no rate |
| RiskReasons.DecisionFigures | app/risk/risk_engine.py:198-261 | approved exactly for a trade without reasons; an approval states quantity times rupee price and quantity times rupee distance to the stop, any other decision states zeros |
| RiskReasons.RejectionReasonsExactly | app/risk/risk_engine.py:112-236 | a reason is given exactly when the environment, the data, the rate, the stop, the losses, the slots, the exposures, the cash or the size has that objection |
| RiskReasons.HeldIsFirstMatch | app/risk/long_only.py:8-25 | the long held is the quantity of the first position of the symbol |
| RiskEngine.Evaluate | app/risk/risk_engine.py:35-261 | the step-by-step gate returns the specified decision with its reasons, in order and without repetition |
| RiskEngine.SizeAndCheck | app/risk/risk_engine.py:194-236 | sizing, its objections, and when it raises |
| RiskEngine.CheckExposure | app/risk/exposure.py:8-29 | the exposure reasons, in order |
| IntradayLaws.MultiplierNeverUpgradesExactly | app/intraday/scoring.py:22-39 | no review verdict improves any signal's decision exactly when the watch score is at least 1 or the valid threshold lies below it |
| IntradayLaws.ReviewOnlyRemoves | app/intraday/pipeline.py:113-291 | for any verdicts, the strategies that open with review enabled are among those that open with it disabled, unless a capped score can be truncated up to a valid one |
| IntradayLaws.ReviewOnlyRemovesExactly | app/agentic/orchestrator.py:256-273 | with settings in range the subset holds for all snapshots, states and verdicts exactly when the two score thresholds are not both zero |
| IntradayTrades.ReviewDecidesExactly | app/agentic/orchestrator.py:256-273 | with review enabled a regime record that is invalid, says BLOCK or is HIGH opens nothing; a strategy whose signal or risk record is so is no opener; and one neither refused nor cautioned opens exactly when it would with review disabled |
| IntradayTrades.StrategyOpensExactly | app/intraday/pipeline.py:113-291 | a strategy opens a position exactly when no agent stops it, its score, cut to four fifths by a MEDIUM record, reaches the threshold, it passes every limit and the price is still there; the position has the signal's levels, the largest affordable quantity and the fill's price; the journal hears rejected, accepted and missed, or accepted and filled |
| IntradayTrades.RefusalReasonsExactly | app/intraday/risk_manager.py:31-100 | the risk gate gives a reason exactly when the signal, the data, the day's state, the regime or the size has that objection |
| IntradayTrades.SnapshotsDecidedExactly | app/intraday/pipeline.py:59-292 | a snapshot adds one position per opening strategy, in order, unless the switch, the universe or the regime review stops it |
| IntradayTrades.TripReasonsExactly | app/intraday/kill_switch.py:22-45 | the reasons after an evaluation are the old ones and each one whose limit is hit |
| IntradayTrades.ScoreIsMarks | app/intraday/scoring.py:11-46 | a signal scores 100 less 25, 15, 7, 15, 15, 10 and 5 for the components it misses, held below the watch score in an untradable regime |
| IntradayLaws.TrippedStaysTripped | app/intraday/kill_switch.py:30-48 | from a tripped switch, over any run without a reset, the reasons only grow, keeping the earlier ones in front, and no snapshot opens a position |
| IntradayLaws.SwitchLatches | app/intraday/kill_switch.py:30-45 | one evaluation, with any counts and latency, keeps the old reasons in front and adds no repetition |
| IntradayLaws.SwitchTripsExactly | app/intraday/kill_switch.py:30-45 | an untripped switch trips exactly when a loss limit is hit, the losing streak is too long, the data is bad for a stated reason, more than 50 signals were rejected or latency exceeds 2000 ms |
| IntradayLaws.OpenPositionsAreBounded | app/intraday/pipeline.py:65-95 | with the default risk state the open count never exceeds the limit minus one plus the number of strategies |
| IntradayLaws.BoundIsReached | app/intraday/risk_manager.py:65-67 | and some run reaches that bound |
| IntradayLaws.LimitHoldsExactly | app/intraday/risk_manager.py:65-67 | the limit itself holds over every default run exactly when there is at most one strategy |
| IntradayLaws.JournalAccountsForPositions | app/intraday/pipeline.py:207-291 | in every run filled orders equal positions, and accepted signals equal filled plus missed orders |
| IntradayLaws.ApprovedExactly | app/intraday/risk_manager.py:31-100 | approval comes exactly for a valid signal within every limit whose one unit fits the risk budget, and then for the greatest such quantity |
| IntradayLaws.SoundSignalIsApproved | app/intraday/risk_manager.py:31-100 | a valid one-share long with free slots meets no objection, so the gate is not vacuous |
| IntradayLaws.FillsAreNeverFavourable | app/intraday/shadow_execution.py:60-66 | a simulated fill is at or above a long signal's price and at or below a short one's, and equal to it exactly without slippage and spread |
| IntradayLaws.RiskGrowsWithTheFill | app/intraday/positions.py:23-44 | for any signal, long or short, and any stop: the position's risk is quantity times the distance from fill to stop, which is the approved risk plus quantity times what the fill lost when the stop is on the losing side, and within the approved risk exactly without slippage and spread or when the stop lies beyond the price by half of the loss or more |
| IntradayLaws.ExcursionsAreExtremes | app/intraday/positions.py:46-68 | after any marks the two excursions are the extremes of zero and every marked gross P&L, and net plus charges is gross |
| IntradayTrades.MarksAreWorth | app/intraday/positions.py:46-68 | a mark gives a long its exit value less its entry value and a short the reverse, charges on the bought and the sold value in that order, net of both, and widens the excursions |
| IntradayTrades.ClosesAreWorth | app/intraday/positions.py:70-104 | closing books the same at the exit price under the status of its reason |
| Intraday.RawScore | app/intraday/scoring.py:13-22 | the score lies between 8 and 100, and is 100 exactly when every component is earned |
| IntradayPipeline.KillSwitchManager.Evaluate | app/intraday/kill_switch.py:22-45 | the state becomes the specified list of reasons; once triggered it stays so |
| IntradayPipeline.KillSwitchManager.Reset | app/intraday/kill_switch.py:47-48 | no reasons are left |
| IntradayPipeline.SignalScoringEngine.ScoreSignal | app/intraday/scoring.py:11-46 | the capped score and the decision it earns |
| IntradayPipeline.RiskManager.ApproveSignal | app/intraday/risk_manager.py:31-100 | the approval or the reasons against it, in order |
| IntradayPipeline.VirtualPositionManager.OpenPosition | app/intraday/positions.py:23-44 | a filled order of positive quantity adds one open position, anything else nothing |
| IntradayPipeline.VirtualPositionManager.UpdateMark | app/intraday/positions.py:46-68 | one position is re-marked, all others stay; an unknown id raises |
| IntradayPipeline.VirtualPositionManager.ClosePosition | app/intraday/positions.py:70-104 | one position is closed with the status of its reason, all others stay; an unknown id raises |
| IntradayPipeline.IntradayShadowPipeline.ProcessSnapshot | app/intraday/pipeline.py:59-292 | switch, universe, regime review and the strategy loop leave the specified state, with the positions and events that SnapshotsDecidedExactly states |
| IntradayPipeline.IntradayShadowPipeline.JudgeSignal | app/intraday/pipeline.py:113-291 | one signal through the gate chain, with its journal events and its position |
| IntradayPipeline.IntradayShadowPipeline.DecideSignal | app/intraday/pipeline.py:117-129 | the score after a review's cut, truncated toward zero, and its decision |
| DailyReport.GroupPnl | app/intraday/daily_report.py:61-66 | each group that occurs is there with its total, no other is, and the groups sum to net P&L |
| DailyReport.MaxDrawdown | app/intraday/daily_report.py:69-77 | the one-pass result is the largest loss over any contiguous block of exits |
| DailyReport.ExpectancyNeverExceedsMean | app/intraday/daily_report.py:19-27 | expectancy is at most the mean net P&L, and equal exactly when there are no flat exits or no losing exits |
| DailyReport.ProfitFactorSeparates | app/intraday/daily_report.py:24-26 | with a losing exit the profit factor is above, or exactly, 1 just when net P&L is above, or exactly, 0 |
| DailyReport.Partition | app/intraday/daily_report.py:17-18 | wins, losses and flat exits make up the day in number and in amount |
| DailyReport.DirectionsSplit | app/intraday/daily_report.py:57-58 | if every exit is LONG or SHORT the two sides add up to net P&L |
| DailyReport.ChargesSplit | app/intraday/daily_report.py:15-16 | if every exit is net of its charges, the day's net P&L is gross P&L less total charges |
| DailyReport.FindExtreme | app/intraday/daily_report.py:28-29 | the first exit with the highest, or the lowest, net P&L; none on an empty day |
| DailyReport.Generate | app/intraday/daily_report.py:8-53 | each strategy, regime and symbol that exited is there with what its exits made, no other is, and each breakdown sums to net P&L; long and short sides, accepted and rejected signals, gross P&L and charges are their own totals; drawdown is the largest block loss, best and worst trade are the first extremes and the mistake is the worst one's exit reason |

## Left out

- ShadowLaws.CooldownIsRespected: the cycles are assumed to run one after another; two cycles writing at once are not modelled, and the schema has no unique key that would order them.
- Shadow.Peak: samples are taken in the order they were written, which is the order of their times on a clock that never runs backwards; a database's choice among equal times is not modelled.
- Intraday.RawScore: an integer score times 0.8 is exact here; the float product can be one unit in the last place lower before truncation.
- PaperEngine.PaperTradingEngine.SubmitOrder: journal ids, messages and metadata are not modelled, nor the zero entries a `defaultdict` gains on being read.
- ExecutionAgent.ExecutionAgent.Execute: the store keeps values copied at the call; the in-memory store's sharing of the caller's live record is not modelled.
- ExecutionAgent.Broker.PlaceOrder: every attempt that reaches an adapter is logged as a placement, also one its permit check then refuses.
- ExecutionProtocol.SettledMeansPlacedOnce: when reconciling raises, the stored record stays as reserved and the store does not learn the broker's id; nothing is claimed about that id.
- IntradayPipeline.VirtualPositionManager.OpenPosition: positions are values in a list indexed by order of opening, so aliasing of a returned position object is not modelled.
- ShadowService.ShadowTrainingService.RunCycle: rows are values in a list; notes, audit rows, risk events, instruments, signals and model training are not modelled. A cycle that raises is rolled back and therefore not a cycle here.
- RiskEngine.Evaluate: kill-switch, live-mode, compliance, broker, provider, calendar, liquidity and slippage checks enter as arbitrary lists of reasons; the metrics dictionary is not modelled. No sector is ever passed, so the sector cap is not part of the gate.
- Loss-discipline pauses and news guards only ever block an entry and enter as arbitrary booleans; their statistics are not modelled.
- Nothing bounds an order intent's quantity by the approved quantity, because the protocol never compares them.
- Strategies, regime votes, universe and data-quality checks and the agents' own reasoning are arbitrary values; a strategy that raises is not modelled.
- The shadow exit levels' labels, urgencies and plans are not modelled, only the action.
- Time zones, trading hours and holiday tables: a day start is any function that is never later than its argument, and a cycle may quote either market at any hour.
- SQL and JSON encoding, HTTP adapters, token exchange, email, dashboards, scripts and migrations.
- Foreign-key failures at a reservation behave like any other refused reservation.
- The performance, readiness and model-training reports, which are further folds of the kind shown here.
