/**
 The intraday shadow pipeline as functions: scoring, the review layer, the risk gate, the simulated fill
 and what one snapshot does to the kill switch, the positions and the journal.
 */
module Intraday {
  import opened Common
  import opened RiskSizing

  datatype Direction = LONG | SHORT

  datatype Regime =
    | STRONG_BULLISH | WEAK_BULLISH | STRONG_BEARISH | WEAK_BEARISH
    | SIDEWAYS | HIGH_VOLATILITY | LOW_LIQUIDITY | NO_TRADING

  datatype SignalDecision = VALID | WATCH_ONLY | SIGNAL_REJECTED

  datatype PositionStatus = OPEN | EXITED | STOPPED_OUT | TARGET_HIT | FORCE_CLOSED | INVALIDATED

  /** Strategies quote positive entry prices. */
  type Price = x: real | x > 0.0 witness 1.0

  datatype Settings = Settings(
    capital: real,
    riskPerTradePct: real,
    maxDailyLossPct: real,
    maxWeeklyLossPct: real,
    maxOpenPositions: int,
    maxTradesPerDay: int,
    maxConsecutiveLosses: int,
    minRewardToRisk: real,
    allowShorts: bool,
    allowSideways: bool,
    allowHighVolatility: bool,
    minSignalScore: int,
    watchScore: int,
    maxSpreadPct: real,
    maxEntryMovePct: real,
    slippageBps: real
  ) {
    function RiskBudget(): real {
      capital * riskPerTradePct
    }

    /** The ranges the settings schema enforces. */
    predicate InRange() {
      && capital > 0.0 && riskPerTradePct > 0.0 && maxDailyLossPct > 0.0 && maxWeeklyLossPct > 0.0
      && maxOpenPositions >= 1 && maxTradesPerDay >= 1 && maxConsecutiveLosses >= 1
      && 0 <= minSignalScore <= 100 && 0 <= watchScore <= 100
      && maxSpreadPct >= 0.0 && maxEntryMovePct >= 0.0 && slippageBps >= 0.0
    }
  }

  datatype Signal = Signal(
    direction: Direction,
    regime: Regime,
    entryPrice: Price,
    stopLoss: real,
    targetPrice: real,
    riskRewardRatio: real,
    reasonCodes: seq<string>,
    regimeReasons: seq<string>,
    spreadPct: Option<real>
  ) {
    function StopDistance(): real {
      Abs(entryPrice - stopLoss)
    }
  }

  datatype Quality = Quality(ok: bool, reasons: seq<string>)

  /** A snapshot with everything read off it: quality, universe, regime, and each strategy's signal. */
  datatype Snapshot = Snapshot(
    lastPrice: real,
    bid: Option<real>,
    ask: Option<real>,
    quality: Quality,
    universeAllowed: bool,
    regime: Regime,
    signals: seq<Option<Signal>>
  )

  datatype Position = Position(
    direction: Direction,
    entryPrice: real,
    stopLoss: real,
    targetPrice: real,
    quantity: int,
    riskAmount: real,
    status: PositionStatus,
    currentPrice: real,
    grossPnl: real,
    charges: real,
    netPnl: real,
    maxFavorable: real,
    maxAdverse: real
  )

  datatype RiskState = RiskState(
    dailyPnl: real,
    weeklyPnl: real,
    tradesToday: int,
    consecutiveLosses: int,
    openPositions: seq<Position>
  )

  // ---------- scoring ----------

  predicate Occurs(needle: string, text: string) {
    exists i :: 0 <= i <= |text| && needle <= text[i..]
  }

  predicate Mentions(reasons: seq<string>, needle: string) {
    exists k :: 0 <= k < |reasons| && Occurs(needle, reasons[k])
  }

  predicate Bullish(regime: Regime) {
    regime == STRONG_BULLISH || regime == WEAK_BULLISH
  }

  predicate Bearish(regime: Regime) {
    regime == STRONG_BEARISH || regime == WEAK_BEARISH
  }

  function RegimeScore(signal: Signal): int {
    if signal.direction == LONG && Bullish(signal.regime) then 25
    else if signal.direction == SHORT && Bearish(signal.regime) then 25
    else 0
  }

  predicate StructureConfirmed(signal: Signal) {
    || "higher_high_higher_low" in signal.reasonCodes
    || "lower_high_lower_low" in signal.reasonCodes
    || "opening_range_breakout" in signal.reasonCodes
    || "opening_range_breakdown" in signal.reasonCodes
  }

  predicate SpreadOk(signal: Signal) {
    signal.spreadPct.None? || signal.spreadPct.value <= 0.003
  }

  function Points(earned: bool, points: int): int {
    if earned then points else 0
  }

  predicate Aligned(signal: Signal) {
    (signal.direction == LONG && Bullish(signal.regime)) || (signal.direction == SHORT && Bearish(signal.regime))
  }

  /** Full marks take every component, and the sector's default is the floor. */
  function RawScore(cfg: Settings, signal: Signal): (r: int)
    ensures 8 <= r <= 100
    ensures r == 100 <==>
              && Aligned(signal) && Mentions(signal.reasonCodes, "vwap") && Mentions(signal.regimeReasons, "sector")
              && "volume_confirmation" in signal.reasonCodes && StructureConfirmed(signal)
              && signal.riskRewardRatio >= cfg.minRewardToRisk && SpreadOk(signal)
  {
    RegimeScore(signal)
    + Points(Mentions(signal.reasonCodes, "vwap"), 15)
    + (if Mentions(signal.regimeReasons, "sector") then 15 else 8)
    + Points("volume_confirmation" in signal.reasonCodes, 15)
    + Points(StructureConfirmed(signal), 15)
    + Points(signal.riskRewardRatio >= cfg.minRewardToRisk, 10)
    + Points(SpreadOk(signal), 5)
  }

  predicate Untradable(cfg: Settings, regime: Regime) {
    (regime == SIDEWAYS && !cfg.allowSideways) || regime == HIGH_VOLATILITY || regime == LOW_LIQUIDITY ||
      regime == NO_TRADING
  }

  function Score(cfg: Settings, signal: Signal): int {
    if Untradable(cfg, signal.regime) then MinInt(RawScore(cfg, signal), cfg.watchScore - 1) else RawScore(cfg, signal)
  }

  function DecisionFor(cfg: Settings, score: int): SignalDecision {
    if score >= cfg.minSignalScore then VALID
    else if score >= cfg.watchScore then WATCH_ONLY
    else SIGNAL_REJECTED
  }

  // ---------- reviews ----------

  datatype Severity = LOW | MEDIUM | HIGH

  /** What an agent's decision record contributes: whether its output was valid, its action and its severity. */
  datatype Record = Record(valid: bool, blocked: bool, severity: Severity)

  datatype Review = Review(block: bool, multiplier: real)

  function ReviewOf(record: Record): Review {
    if !record.valid then Review(true, 1.0)
    else Review(record.blocked || record.severity == HIGH, if record.severity == MEDIUM then 0.8 else 1.0)
  }

  /** The agents' verdicts on one snapshot, strategy by strategy. */
  datatype Reviews = Reviews(enabled: bool, regime: Record, signal: int -> Record, risk: int -> Record) {
    function Of(record: Record): Review {
      if enabled then ReviewOf(record) else Review(false, 1.0)
    }
  }

  /** Truncation toward zero. */
  function Truncated(x: real): int {
    if x < 0.0 then -(-x).Floor else x.Floor
  }

  function Scaled(score: int, multiplier: real): int {
    Truncated(score as real * multiplier)
  }

  function Reviewed(score: int, review: Review): int {
    if review.multiplier < 1.0 then Scaled(score, review.multiplier) else score
  }

  // ---------- the risk gate ----------

  function OpenCountOf(positions: seq<Position>): nat {
    Count(positions, IS_OPEN)
  }

  const IS_OPEN: Position -> bool := (p: Position) => p.status == OPEN

  predicate LossHit(pnl: real, capital: real, pct: real) {
    pnl <= -capital * pct
  }

  function QuantityFor(cfg: Settings, signal: Signal): int {
    if signal.StopDistance() > 0.0 then FloorDiv(cfg.RiskBudget(), signal.StopDistance()) else 0
  }

  function Prefixed(prefix: string, reasons: seq<string>): (r: seq<string>)
    ensures |r| == |reasons|
  {
    seq(|reasons|, k requires 0 <= k < |reasons| => prefix + reasons[k])
  }

  function QualityReasons(quality: Quality): seq<string> {
    if quality.ok then [] else Prefixed("data_quality:", quality.reasons)
  }

  function Noted(reasons: seq<string>, condition: bool, reason: string): (r: seq<string>)
    ensures reasons <= r
  {
    if condition then reasons + [reason] else reasons
  }

  function SignalReasons(cfg: Settings, signal: Signal, decision: SignalDecision, quality: Quality): seq<string> {
    var verdict := Noted([], decision != VALID, if decision == WATCH_ONLY then "signal_not_valid:WATCH_ONLY"
      else "signal_not_valid:REJECTED");
    var data := verdict + QualityReasons(quality);
    var stop := Noted(data, signal.stopLoss <= 0.0, "stop_loss_missing");
    var distance := Noted(stop, signal.StopDistance() <= 0.0, "stop_distance_invalid");
    var reward := Noted(distance, signal.riskRewardRatio < cfg.minRewardToRisk, "reward_risk_below_threshold");
    Noted(reward, signal.spreadPct.Some? && signal.spreadPct.value > cfg.maxSpreadPct, "spread_too_wide")
  }

  function StateReasons(cfg: Settings, before: seq<string>, state: RiskState): (r: seq<string>)
    ensures before <= r
  {
    var daily := Noted(before, LossHit(state.dailyPnl, cfg.capital, cfg.maxDailyLossPct), "daily_loss_limit_reached");
    var weekly := Noted(daily, LossHit(state.weeklyPnl, cfg.capital, cfg.maxWeeklyLossPct),
      "weekly_loss_limit_reached");
    var trades := Noted(weekly, state.tradesToday >= cfg.maxTradesPerDay, "max_trades_per_day_reached");
    var losses := Noted(trades, state.consecutiveLosses >= cfg.maxConsecutiveLosses, "max_consecutive_losses_reached");
    Noted(losses, OpenCountOf(state.openPositions) >= cfg.maxOpenPositions, "max_open_positions_reached")
  }

  function RegimeReasons(cfg: Settings, before: seq<string>, signal: Signal, regime: Regime): (r: seq<string>)
    ensures before <= r
  {
    var shorts := Noted(before, signal.direction == SHORT && !cfg.allowShorts, "shorts_disabled");
    var changed := Noted(shorts, regime != signal.regime, "market_regime_changed");
    var sideways := Noted(changed, signal.regime == SIDEWAYS && !cfg.allowSideways, "sideways_regime_blocked");
    Noted(sideways, signal.regime == HIGH_VOLATILITY && !cfg.allowHighVolatility, "high_volatility_blocked")
  }

  datatype Approval = Approval(approved: bool, quantity: int, riskAmount: real, reasons: seq<string>)

  function Approve(cfg: Settings, signal: Signal, decision: SignalDecision, quality: Quality, state: RiskState,
                   regime: Regime): Approval {
    var quantity := QuantityFor(cfg, signal);
    var signalled := SignalReasons(cfg, signal, decision, quality);
    var checked := RegimeReasons(cfg, StateReasons(cfg, signalled, state), signal, regime);
    var reasons := Dedup(Noted(checked, quantity <= 0, "quantity_zero"));
    if reasons != [] then Approval(false, 0, 0.0, reasons)
    else Approval(true, quantity, Times(quantity, signal.StopDistance()), [])
  }

  // ---------- the simulated fill ----------

  function OrEntry(quote: Option<real>, entryPrice: real): real {
    if quote.Some? && quote.value != 0.0 then quote.value else entryPrice
  }

  predicate MovedTooFar(cfg: Settings, signal: Signal, lastPrice: real) {
    Abs(lastPrice - signal.entryPrice) / signal.entryPrice > cfg.maxEntryMovePct
  }

  function FillPrice(cfg: Settings, signal: Signal, snapshot: Snapshot): real {
    var spread := Max(OrEntry(snapshot.ask, signal.entryPrice) - OrEntry(snapshot.bid, signal.entryPrice), 0.0);
    var slippage := signal.entryPrice * cfg.slippageBps / 10000.0;
    if signal.direction == LONG then signal.entryPrice + slippage + spread / 2.0
    else signal.entryPrice - slippage - spread / 2.0
  }

  function NewPosition(signal: Signal, fill: real, quantity: int): Position {
    Position(signal.direction, fill, signal.stopLoss, signal.targetPrice, quantity,
             Times(quantity, Abs(fill - signal.stopLoss)), OPEN, fill, 0.0, 0.0, 0.0, 0.0, 0.0)
  }

  // ---------- one snapshot ----------

  datatype Event =
    | DATA_OR_UNIVERSE_BLOCK
    | AGENTIC_REGIME_BLOCK
    | SIGNAL_REJECTED_EVENT
    | SIGNAL_ACCEPTED
    | SHADOW_ORDER_FILLED
    | SHADOW_ORDER_REJECTED

  datatype Outcome = Outcome(events: seq<Event>, position: Option<Position>)

  /** One strategy's signal through the gate chain. */
  function Judge(cfg: Settings, snapshot: Snapshot, state: RiskState, signal: Signal, signalReview: Review,
                 riskReview: Review): Outcome {
    var decision := DecisionFor(cfg, Reviewed(Score(cfg, signal), signalReview));
    if signalReview.block || decision != VALID then Outcome([SIGNAL_REJECTED_EVENT], None) else
    var approval := Approve(cfg, signal, decision, snapshot.quality, state, snapshot.regime);
    if !approval.approved || riskReview.block then Outcome([SIGNAL_REJECTED_EVENT], None)
    else if MovedTooFar(cfg, signal, snapshot.lastPrice) then Outcome([SIGNAL_ACCEPTED, SHADOW_ORDER_REJECTED], None)
    else Outcome([SIGNAL_ACCEPTED, SHADOW_ORDER_FILLED],
                 Some(NewPosition(signal, FillPrice(cfg, signal, snapshot), approval.quantity)))
  }

  /** The pipeline's own state; a position's id is its place in the list. */
  datatype Pipe = Pipe(killReasons: seq<string>, positions: seq<Position>, journal: seq<Event>)

  function JudgeAt(cfg: Settings, snapshot: Snapshot, state: RiskState, reviews: Reviews, k: nat): Outcome
    requires k < |snapshot.signals|
  {
    if snapshot.signals[k].None? then Outcome([], None)
    else Judge(cfg, snapshot, state, snapshot.signals[k].value, reviews.Of(reviews.signal(k)),
      reviews.Of(reviews.risk(k)))
  }

  function Applied(pipe: Pipe, outcome: Outcome): Pipe {
    pipe.(journal := pipe.journal + outcome.events,
          positions := if outcome.position.Some? then pipe.positions + [outcome.position.value] else pipe.positions)
  }

  /** The first n strategies, all judged against the same risk state. */
  function RunStrategies(cfg: Settings, pipe: Pipe, snapshot: Snapshot, state: RiskState, reviews: Reviews,
                         n: nat): Pipe
    requires n <= |snapshot.signals|
  {
    if n == 0 then pipe else
    Applied(RunStrategies(cfg, pipe, snapshot, state, reviews, n - 1), JudgeAt(cfg, snapshot, state, reviews, n - 1))
  }

  function Collected(cfg: Settings, before: seq<string>, state: RiskState, quality: Option<Quality>,
                     rejectedSignals: int, latencyMs: Option<real>): (r: seq<string>)
    ensures before <= r
  {
    var daily := Noted(before, LossHit(state.dailyPnl, cfg.capital, cfg.maxDailyLossPct), "daily_loss_limit_hit");
    var weekly := Noted(daily, LossHit(state.weeklyPnl, cfg.capital, cfg.maxWeeklyLossPct), "weekly_loss_limit_hit");
    var losses := Noted(weekly, state.consecutiveLosses >= cfg.maxConsecutiveLosses, "max_consecutive_losses_hit");
    var data := if quality.None? then losses else losses + QualityReasons(quality.value);
    var rejected := Noted(data, rejectedSignals > 50, "too_many_rejected_signals");
    Noted(rejected, latencyMs.Some? && latencyMs.value > 2000.0, "api_latency_too_high")
  }

  function KillReasons(cfg: Settings, before: seq<string>, state: RiskState, quality: Option<Quality>,
                       rejectedSignals: int, latencyMs: Option<real>): seq<string> {
    Dedup(Collected(cfg, before, state, quality, rejectedSignals, latencyMs))
  }

  function DefaultState(positions: seq<Position>): RiskState {
    RiskState(0.0, 0.0, 0, 0, positions)
  }

  function StateFor(pipe: Pipe, riskState: Option<RiskState>): RiskState {
    riskState.GetOr(DefaultState(pipe.positions))
  }

  function Process(cfg: Settings, pipe: Pipe, snapshot: Snapshot, riskState: Option<RiskState>,
                   reviews: Reviews): Pipe {
    var state := StateFor(pipe, riskState);
    var killed := pipe.(killReasons := KillReasons(cfg, pipe.killReasons, state, Some(snapshot.quality), 0, None));
    if killed.killReasons != [] || !snapshot.universeAllowed then
      killed.(journal := killed.journal + [DATA_OR_UNIVERSE_BLOCK])
    else if reviews.Of(reviews.regime).block then
      killed.(journal := killed.journal + [AGENTIC_REGIME_BLOCK])
    else RunStrategies(cfg, killed, snapshot, state, reviews, |snapshot.signals|)
  }

  // ---------- open positions ----------

  function Gross(p: Position, price: real): real {
    if p.direction == LONG then (price - p.entryPrice) * p.quantity as real
      else (p.entryPrice - price) * p.quantity as real
  }

  function Value(price: real, quantity: int): real {
    price * quantity as real
  }

  /** The cost model, as an arbitrary function of the value bought and the value sold. */
  type Charges = (real, real) -> real

  function Marked(p: Position, price: real, charges: Charges): Position {
    var entryValue, markValue := Value(p.entryPrice, p.quantity), Value(price, p.quantity);
    var cost := if p.direction == LONG then charges(entryValue, markValue) else charges(markValue, entryValue);
    var gross := Gross(p, price);
    p.(currentPrice := price, grossPnl := gross, charges := cost, netPnl := gross - cost,
       maxFavorable := Max(p.maxFavorable, gross), maxAdverse := Min(p.maxAdverse, gross))
  }

  function StatusFor(reason: string): PositionStatus {
    if reason == "STOP_LOSS" then STOPPED_OUT
    else if reason == "TARGET_HIT" then TARGET_HIT
    else if reason == "END_OF_DAY" then FORCE_CLOSED
    else if reason == "INVALIDATED" then INVALIDATED
    else EXITED
  }

  /** Closing books the figures at the exit price; the excursions keep what the marks recorded. */
  function ClosedAt(p: Position, price: real, reason: string, charges: Charges): Position {
    Marked(p, price, charges).(maxFavorable := p.maxFavorable, maxAdverse := p.maxAdverse, status := StatusFor(reason))
  }
}
