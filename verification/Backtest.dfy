/** Bar-by-bar replay of one symbol against the paper account, as a function of the bars seen so far. */
module Backtest {
  import opened Common
  import opened PaperLedger

  datatype Candle = Candle(timestamp: int, open: real, high: real, low: real, close: real, volume: real) {
    predicate PositivePrices() {
      Min(Min(open, high), Min(low, close)) > 0.0
    }

    predicate Consistent() {
      high >= Max(open, close) && low <= Min(open, close)
    }
  }

  datatype Signal = Signal(symbol: string, market: Market, quantity: int, stopLoss: real, takeProfit: Option<real>)

  /** A strategy sees candles and may answer with a signal; it keeps no state. */
  type Strategy = seq<Candle> -> Option<Signal>

  datatype Config = Config(startingCash: real, costs: CostModel, limits: RiskLimits, closeOpenPositionsOnEnd: bool)

  datatype EquityPoint = EquityPoint(timestamp: int, equity: real, cash: real, realizedPnl: real, unrealizedPnl: real)

  datatype Setting = Setting(account: Account, symbol: string, market: Market, strategy: Strategy)

  datatype Progress = Progress(ledger: Ledger, curve: seq<EquityPoint>)

  function Equities(curve: seq<EquityPoint>): (r: seq<real>)
    ensures |r| == |curve|
  {
    seq(|curve|, i requires 0 <= i < |curve| => curve[i].equity)
  }

  predicate Ascending(candles: seq<Candle>) {
    forall i, j :: 0 <= i < j < |candles| ==> candles[i].timestamp < candles[j].timestamp
  }

  predicate ValidCandles(candles: seq<Candle>) {
    && (forall i :: 0 <= i < |candles| ==> candles[i].PositivePrices() && candles[i].Consistent())
    && Ascending(candles)
  }

  function SignalRequest(s: Setting, signal: Signal, open: real, timestamp: int): Request {
    Request(s.symbol, s.market, BUY, signal.quantity, open, timestamp, Some(signal.stopLoss), signal.takeProfit)
  }

  /** Asks the strategy for an entry at a bar's open, showing it the earlier bars only. */
  function EntryPhase(s: Setting, l: Ledger, history: seq<Candle>, open: real, timestamp: int): Result<Ledger> {
    if |history| == 0 || s.symbol in l.positions then Ok(l) else
    var signal := s.strategy(history);
    if signal.None? || signal.value.symbol != s.symbol || signal.value.market != s.market then Ok(l)
    else Submit(s.account, l, SignalRequest(s, signal.value, open, timestamp), NO_EXIT)
  }

  function ExitPhase(s: Setting, l: Ledger, candle: Candle): Result<Ledger> {
    EvaluateExit(s.account, l, s.symbol, s.market, candle.timestamp, candle.low, candle.high)
  }

  ghost function Point(s: Setting, l: Ledger, candle: Candle): Option<EquityPoint> {
    if Priceable(s.account.costs, l.positions, map[s.symbol := candle.close]) then
      var m := Marked(s.account, l, candle.timestamp, map[s.symbol := candle.close]);
      Some(EquityPoint(candle.timestamp, m.equity, m.cash, m.realizedPnl, m.unrealizedPnl))
    else None
  }

  /** None when the account or the snapshot raises. */
  ghost function Mark(s: Setting, l: Result<Ledger>, curve: seq<EquityPoint>, candle: Candle): Option<Progress> {
    if l.Raised? || Point(s, l.value, candle).None? then None
    else Some(Progress(l.value, curve + [Point(s, l.value, candle).value]))
  }

  ghost function Bar(s: Setting, p: Progress, history: seq<Candle>, candle: Candle): Option<Progress> {
    var entered := EntryPhase(s, p.ledger, history, candle.open, candle.timestamp);
    if entered.Raised? then None else Mark(s, ExitPhase(s, entered.value, candle), p.curve, candle)
  }

  /** The run after its first k bars; None when it has raised by then. */
  ghost function Bars(s: Setting, candles: seq<Candle>, k: nat): Option<Progress>
    requires k <= |candles|
  {
    if k == 0 then Some(Progress(Opening(s.account.startingCash), [])) else
    var before := Bars(s, candles, k - 1);
    if before.None? then None else Bar(s, before.value, candles[..k - 1], candles[k - 1])
  }

  ghost function Liquidate(s: Setting, p: Progress, last: Candle): Option<Progress> {
    Mark(s, CloseOpenPosition(s.account, p.ledger, s.symbol, s.market, last.close, last.timestamp, END_OF_BACKTEST),
         p.curve, last)
  }

  ghost function Finished(s: Setting, candles: seq<Candle>, closeOnEnd: bool): Option<Progress> {
    var all := Bars(s, candles, |candles|);
    if all.Some? && closeOnEnd && |candles| > 0 && s.symbol in all.value.ledger.positions then
      Liquidate(s, all.value, candles[|candles| - 1])
    else all
  }

  // ---------- metrics ----------

  predicate IsEntry(e: Entry) {
    e.side.BUY? && e.status.OPENED?
  }

  predicate IsClosing(e: Entry) {
    e.side.SELL? && e.status.CLOSED?
  }

  predicate IsBlocked(e: Entry) {
    e.status.BLOCKED?
  }

  function Pnl(e: Entry): real {
    e.realizedPnl
  }

  datatype Metrics = Metrics(
    entries: nat,
    closedTrades: nat,
    blockedEntries: nat,
    winningTrades: nat,
    losingTrades: nat,
    winRate: real,
    netPnl: real,
    totalCosts: real,
    finalEquity: real,
    totalReturnPct: real,
    maxDrawdownPct: real
  )

  function MetricsOf(journal: seq<Entry>, curve: seq<EquityPoint>, startingCash: real, drawdown: real): Metrics
    requires startingCash > 0.0
  {
    var closing := Filter(journal, IsClosing);
    var winning := Count(closing, (e: Entry) => e.realizedPnl > 0.0);
    var finalEquity := if curve == [] then startingCash else curve[|curve| - 1].equity;
    Metrics(
      Count(journal, IsEntry), |closing|, Count(journal, IsBlocked), winning,
      Count(closing, (e: Entry) => e.realizedPnl < 0.0),
      if closing == [] then 0.0 else winning as real / |closing| as real,
      Total(closing, Pnl), Total(journal, CostsIn), finalEquity,
      (finalEquity - startingCash) / startingCash, drawdown)
  }

  datatype BacktestResult = BacktestResult(journal: seq<Entry>, curve: seq<EquityPoint>, metrics: Metrics)
}
