/**
 The paper-trading account as a value: what one request does to the cash, the positions, the
 journal and the per-day counters. PaperTradingEngine (PaperEngine.dfy) is proved against it.
 Timestamps are microseconds since the epoch, in UTC.
 */
module PaperLedger {
  import opened Common

  datatype TradeStatus = OPENED | CLOSED | BLOCKED

  datatype ExitReason = NO_EXIT | STOP_LOSS | PROFIT_TARGET | MANUAL_RESEARCH_EXIT | END_OF_BACKTEST

  datatype BlockReason =
    | DAILY_LOSS_LIMIT
    | INSUFFICIENT_CASH
    | INVALID_REQUEST
    | MAX_TRADES_PER_DAY
    | POSITION_ALREADY_OPEN
    | SHORT_SELLING_DISABLED

  datatype Costs = Costs(brokeragePct: real, brokerageFlat: real, taxesPct: real, slippageBps: real) {
    predicate NonNegative() {
      brokeragePct >= 0.0 && brokerageFlat >= 0.0 && taxesPct >= 0.0 && slippageBps >= 0.0
    }

    function ExecutionPrice(side: OrderSide, referencePrice: real): Result<real> {
      if referencePrice <= 0.0 then Raised("reference_price_must_be_positive")
      else if side.BUY? then Ok(referencePrice * (1.0 + slippageBps / 10000.0))
      else Ok(referencePrice * (1.0 - slippageBps / 10000.0))
    }

    function TransactionCost(grossValue: real): Result<real> {
      if grossValue < 0.0 then Raised("gross_value_must_be_non_negative")
      else Ok(grossValue * (brokeragePct + taxesPct) + brokerageFlat)
    }
  }

  /** A cost model that survived its own constructor. */
  type CostModel = c: Costs | c.NonNegative() witness Costs(0.0, 0.0, 0.0, 0.0)

  datatype Limits = Limits(maxTradesPerDay: int, maxDailyLoss: real, minCashBuffer: real) {
    predicate Accepted() {
      maxTradesPerDay > 0 && maxDailyLoss > 0.0 && minCashBuffer >= 0.0
    }
  }

  type RiskLimits = r: Limits | r.Accepted() witness Limits(1, 1.0, 0.0)

  datatype Account = Account(startingCash: real, costs: CostModel, limits: RiskLimits)

  datatype Request = Request(
    symbol: string,
    market: Market,
    side: OrderSide,
    quantity: int,
    referencePrice: real,
    submittedAt: int,
    stopLoss: Option<real>,
    takeProfit: Option<real>
  )

  /** The contents of an open position. */
  datatype Holding = Holding(
    market: Market,
    quantity: int,
    averageEntryPrice: real,
    entryCostPerUnit: real,
    stopLoss: real,
    takeProfit: Option<real>,
    openedAt: int
  ) {
    function EntryBasis(): real {
      (averageEntryPrice + entryCostPerUnit) * quantity as real
    }
  }

  datatype Entry = Entry(
    timestamp: int,
    symbol: string,
    market: Market,
    side: OrderSide,
    quantity: int,
    requestedPrice: real,
    executionPrice: real,
    grossValue: real,
    costs: real,
    cashChange: real,
    status: TradeStatus,
    realizedPnl: real,
    exitReason: ExitReason,
    blockReason: Option<BlockReason>
  )

  function CostsIn(e: Entry): real {
    e.costs
  }

  datatype Ledger = Ledger(
    cash: real,
    realizedPnl: real,
    totalCosts: real,
    positions: map<string, Holding>,
    journal: seq<Entry>,
    dailyEntryCount: map<int, int>,
    dailyRealizedPnl: map<int, real>
  )

  /** The UTC calendar day of a timestamp. */
  function Day(timestamp: int): int {
    timestamp / MICROSECONDS_PER_DAY
  }

  function Gross(price: real, quantity: int): real {
    price * quantity as real
  }

  function Opening(startingCash: real): Ledger {
    Ledger(startingCash, 0.0, 0.0, map[], [], map[], map[])
  }

  function BlockedEntry(request: Request, reason: BlockReason): Entry {
    Entry(request.submittedAt, request.symbol, request.market, request.side, MaxInt(request.quantity, 0),
          Max(request.referencePrice, 0.0), 0.0, 0.0, 0.0, 0.0, BLOCKED, 0.0, NO_EXIT, Some(reason))
  }

  function Block(l: Ledger, request: Request, reason: BlockReason): Ledger {
    l.(journal := l.journal + [BlockedEntry(request, reason)])
  }

  function EntryBlockReason(a: Account, l: Ledger, request: Request): Option<BlockReason> {
    if request.quantity <= 0 || request.referencePrice <= 0.0 then Some(INVALID_REQUEST)
    else if request.stopLoss.None? then Some(INVALID_REQUEST)
    else if request.stopLoss.value >= request.referencePrice then Some(INVALID_REQUEST)
    else if request.symbol in l.positions then Some(POSITION_ALREADY_OPEN)
    else if GetOr(l.dailyEntryCount, Day(request.submittedAt), 0) >= a.limits.maxTradesPerDay then
      Some(MAX_TRADES_PER_DAY)
    else if GetOr(l.dailyRealizedPnl, Day(request.submittedAt), 0.0) <= -a.limits.maxDailyLoss then
      Some(DAILY_LOSS_LIMIT)
    else None
  }

  /** The account after a purchase at the given price and costs. */
  function Bought(l: Ledger, request: Request, price: real, gross: real, costs: real, costPerUnit: real): Ledger
    requires request.stopLoss.Some?
  {
    var day := Day(request.submittedAt);
    l.(cash := l.cash - (gross + costs),
       totalCosts := l.totalCosts + costs,
       positions := l.positions[request.symbol :=
         Holding(request.market, request.quantity, price, costPerUnit,
                 request.stopLoss.value, request.takeProfit, request.submittedAt)],
       dailyEntryCount := l.dailyEntryCount[day := GetOr(l.dailyEntryCount, day, 0) + 1],
       journal := l.journal +
         [Entry(request.submittedAt, request.symbol, request.market, BUY, request.quantity,
                request.referencePrice, price, gross, costs, -(gross + costs), OPENED, 0.0, NO_EXIT, None)])
  }

  function Open(a: Account, l: Ledger, request: Request): Result<Ledger> {
    var block := EntryBlockReason(a, l, request);
    if block.Some? then Ok(Block(l, request, block.value)) else
    var price :- a.costs.ExecutionPrice(BUY, request.referencePrice);
    var gross := Gross(price, request.quantity);
    var costs :- a.costs.TransactionCost(gross);
    if l.cash - (gross + costs) < a.limits.minCashBuffer then Ok(Block(l, request, INSUFFICIENT_CASH))
    else Ok(Bought(l, request, price, gross, costs, costs / request.quantity as real))
  }

  function SoldBasis(held: Holding, quantity: int): real {
    (held.averageEntryPrice + held.entryCostPerUnit) * quantity as real
  }

  /** The positions with some units of one of them gone; a position without units is dropped. */
  function Reduced(positions: map<string, Holding>, symbol: string, quantity: int): map<string, Holding>
    requires symbol in positions
  {
    var remaining := positions[symbol].quantity - quantity;
    if remaining <= 0 then positions - {symbol}
    else positions[symbol := positions[symbol].(quantity := remaining)]
  }

  /** The account after a sale at the given price and costs. */
  function Sold(l: Ledger, request: Request, exitReason: ExitReason, price: real, gross: real, costs: real,
                realized: real): Ledger
    requires request.symbol in l.positions
  {
    var day := Day(request.submittedAt);
    l.(cash := l.cash + (gross - costs),
       realizedPnl := l.realizedPnl + realized,
       totalCosts := l.totalCosts + costs,
       dailyRealizedPnl := l.dailyRealizedPnl[day := GetOr(l.dailyRealizedPnl, day, 0.0) + realized],
       positions := Reduced(l.positions, request.symbol, request.quantity),
       journal := l.journal +
         [Entry(request.submittedAt, request.symbol, request.market, SELL, request.quantity,
                request.referencePrice, price, gross, costs, gross - costs, CLOSED, realized,
                exitReason, None)])
  }

  function Close(a: Account, l: Ledger, request: Request, exitReason: ExitReason): Result<Ledger> {
    if request.symbol !in l.positions then Ok(Block(l, request, INVALID_REQUEST)) else
    var held := l.positions[request.symbol];
    if held.market != request.market || request.quantity <= 0 then Ok(Block(l, request, INVALID_REQUEST))
    else if request.quantity > held.quantity then Ok(Block(l, request, SHORT_SELLING_DISABLED)) else
    var price :- a.costs.ExecutionPrice(SELL, request.referencePrice);
    var gross := Gross(price, request.quantity);
    var costs :- a.costs.TransactionCost(gross);
    Ok(Sold(l, request, exitReason, price, gross, costs, gross - costs - SoldBasis(held, request.quantity)))
  }

  /** A request that raises raises before anything is written. */
  function Submit(a: Account, l: Ledger, request: Request, exitReason: ExitReason): Result<Ledger> {
    if request.side.BUY? then Open(a, l, request) else Close(a, l, request, exitReason)
  }

  /** The protective order a bar triggers; the stop is looked at before the target. */
  function ExitOrder(l: Ledger, symbol: string, market: Market, timestamp: int, low: real, high: real):
    Option<(Request, ExitReason)>
  {
    if symbol !in l.positions || l.positions[symbol].market != market then None else
    var held := l.positions[symbol];
    if low <= held.stopLoss then
      Some((Request(symbol, market, SELL, held.quantity, held.stopLoss, timestamp, None, None), STOP_LOSS))
    else if held.takeProfit.Some? && high >= held.takeProfit.value then
      Some((Request(symbol, market, SELL, held.quantity, held.takeProfit.value, timestamp, None, None),
            PROFIT_TARGET))
    else None
  }

  function EvaluateExit(a: Account, l: Ledger, symbol: string, market: Market, timestamp: int, low: real,
                        high: real): Result<Ledger>
  {
    match ExitOrder(l, symbol, market, timestamp, low, high)
    case None => Ok(l)
    case Some((request, reason)) => Submit(a, l, request, reason)
  }

  function CloseOutRequest(l: Ledger, symbol: string, market: Market, price: real, timestamp: int): Request {
    Request(symbol, market, SELL, if symbol in l.positions then l.positions[symbol].quantity else 0,
            price, timestamp, None, None)
  }

  function CloseOpenPosition(a: Account, l: Ledger, symbol: string, market: Market, price: real,
                             timestamp: int, reason: ExitReason): Result<Ledger>
  {
    Submit(a, l, CloseOutRequest(l, symbol, market, price, timestamp), reason)
  }

  // ---------- marking the open positions ----------

  /** What selling the holding at the mark would bring in, net of slippage and costs. */
  function SaleValue(c: CostModel, held: Holding, mark: real): Result<real> {
    var price :- c.ExecutionPrice(SELL, mark);
    var gross := Gross(price, held.quantity);
    var costs :- c.TransactionCost(gross);
    Ok(gross - costs)
  }

  function MarkOf(positions: map<string, Holding>, marks: map<string, real>, symbol: string): real
    requires symbol in positions
  {
    GetOr(marks, symbol, positions[symbol].averageEntryPrice)
  }

  function ProceedsOf(c: CostModel, positions: map<string, Holding>, marks: map<string, real>,
                      symbol: string): Result<real>
    requires symbol in positions
  {
    SaleValue(c, positions[symbol], MarkOf(positions, marks, symbol))
  }

  ghost predicate Priceable(c: CostModel, positions: map<string, Holding>, marks: map<string, real>) {
    forall s :: s in positions ==> ProceedsOf(c, positions, marks, s).Ok?
  }

  ghost function SaleValues(c: CostModel, positions: map<string, Holding>,
                            marks: map<string, real>): map<string, real> {
    map s | s in positions && ProceedsOf(c, positions, marks, s).Ok? :: ProceedsOf(c, positions, marks, s).value
  }

  function Bases(positions: map<string, Holding>): map<string, real> {
    map s | s in positions :: positions[s].EntryBasis()
  }

  datatype Snapshot = Snapshot(
    timestamp: int, cash: real, equity: real, realizedPnl: real, unrealizedPnl: real, totalCosts: real)

  /** The account marked to market. */
  ghost function Marked(a: Account, l: Ledger, timestamp: int, marks: map<string, real>): Snapshot
    requires Priceable(a.costs, l.positions, marks)
  {
    var liquidation := Sum(SaleValues(a.costs, l.positions, marks));
    Snapshot(timestamp, l.cash, l.cash + liquidation, l.realizedPnl,
             liquidation - Sum(Bases(l.positions)), l.totalCosts)
  }
}
