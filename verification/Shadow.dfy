/**
 The life of a shadow observation, as functions on the two tables a training cycle writes: when a row
 opens, how a mark changes it, which exit closes it, what the start of a new session sweeps away.
 */
module Shadow {
  import opened Common

  datatype Status =
    | OPEN_OBSERVATION
    | CLOSED_STOP_LOSS
    | CLOSED_TAKE_PROFIT
    | CLOSED_PROFIT_BOOKED
    | CLOSED_PROFIT_GIVEBACK
    | CLOSED_SESSION_CLOSE

  datatype ExitAction =
    | EXIT_STOP_LOSS
    | EXIT_TAKE_PROFIT
    | EXIT_PROFIT_BOOKING
    | EXIT_PROFIT_GIVEBACK
    | EXIT_SESSION_CLOSE
    | NO_EXIT_LEVELS
    | NO_POSITION_SIZE
    | LOCK_PROFIT_OR_TRAIL
    | WATCH_STOP_CLOSELY
    | HOLD_WINNER
    | HOLD_WITH_STOP
    | WAIT_FOR_MOVE
  {
    predicate Closes() {
      EXIT_STOP_LOSS? || EXIT_TAKE_PROFIT? || EXIT_PROFIT_BOOKING? || EXIT_PROFIT_GIVEBACK?
    }
  }

  datatype Settings = Settings(
    exitEnabled: bool,
    cooldownMinutes: nat,
    notionalBudget: real,
    profitLockPct: real,
    lossWatchPct: real,
    bookingEnabled: bool,
    bookingProgress: real,
    bookingMinPnl: real,
    bookingMinPct: real,
    lockMinPnl: real,
    lockMinPct: real,
    givebackPct: real,
    autoflush: bool
  ) {
    function Cooldown(): int {
      cooldownMinutes * 60_000_000
    }
  }

  datatype Levels = Levels(stopLoss: Option<real>, takeProfit: Option<real>)

  datatype Exit = Exit(at: int, reentryBlockedUntil: int)

  datatype Observation = Observation(
    market: Market,
    symbol: string,
    openedAt: int,
    lastMarkedAt: int,
    entryPrice: real,
    currentPrice: real,
    quantity: int,
    notional: real,
    pnl: real,
    pnlPct: real,
    levels: Levels,
    status: Status,
    exit: Option<Exit>
  ) {
    predicate IsOpen() {
      status == OPEN_OBSERVATION
    }

    predicate Of(market: Market, symbol: string) {
      this.market == market && this.symbol == symbol
    }
  }

  datatype SampleKind = INTRADAY_MARK | SHADOW_EXIT

  datatype Sample = Sample(observation: nat, at: int, price: real, quantity: int, notional: real, pnl: real,
                           pnlPct: real, kind: SampleKind)

  datatype Table = Table(rows: seq<Observation>, samples: seq<Sample>)

  /** One symbol's turn in a cycle: the quote, the assessment, the guards' verdicts, the clock readings. */
  datatype Turn = Turn(
    market: Market,
    symbol: string,
    price: real,
    fxRate: real,
    isBuy: bool,
    levels: Levels,
    newsBlocks: bool,
    lossPaused: bool,
    now: int,
    sampleAt: int,
    exitAt: int
  )

  // ---------- sizing and marking ----------

  function Size(budget: real, entryPrice: real, fxRate: real): int {
    var priceInr := entryPrice * fxRate;
    if priceInr > 0.0 then (budget / priceInr).Floor else 0
  }

  function Notional(quantity: int, entryPrice: real, fxRate: real): real {
    quantity as real * entryPrice * fxRate
  }

  function Pnl(price: real, entryPrice: real, quantity: int, fxRate: real): real {
    (price - entryPrice) * quantity as real * fxRate
  }

  function OrOne(notional: real): real {
    if notional == 0.0 then 1.0 else notional
  }

  function Opened(cfg: Settings, turn: Turn): Observation {
    var quantity := Size(cfg.notionalBudget, turn.price, turn.fxRate);
    Observation(turn.market, turn.symbol, turn.now, turn.now, turn.price, turn.price, quantity,
                Notional(quantity, turn.price, turn.fxRate), 0.0, 0.0, turn.levels, OPEN_OBSERVATION, None)
  }

  function Marked(cfg: Settings, o: Observation, turn: Turn): Observation {
    var quantity := Size(cfg.notionalBudget, o.entryPrice, turn.fxRate);
    var notional := Notional(quantity, o.entryPrice, turn.fxRate);
    var pnl := Pnl(turn.price, o.entryPrice, quantity, turn.fxRate);
    o.(quantity := quantity, notional := notional, currentPrice := turn.price, lastMarkedAt := turn.now,
       pnl := pnl, pnlPct := pnl / OrOne(notional))
  }

  function SampleOf(o: Observation, i: nat, at: int, kind: SampleKind): Sample {
    Sample(i, at, o.currentPrice, o.quantity, o.notional, o.pnl, o.pnlPct, kind)
  }

  // ---------- exits ----------

  function SafeRatio(numerator: real, denominator: real): Option<real> {
    if denominator <= 0.0 then None else Some(numerator / denominator)
  }

  function PctOf(pnl: real, notional: real): real {
    if notional > 0.0 then pnl / notional else 0.0
  }

  predicate BookingTriggered(cfg: Settings, pnl: real, pct: real, progress: Option<real>) {
    && cfg.bookingEnabled
    && pnl > 0.0 && progress.Some?
    && (pnl >= cfg.bookingMinPnl || pct >= cfg.bookingMinPct)
    && progress.value >= cfg.bookingProgress
  }

  predicate Positive(level: Option<real>) {
    level.Some? && level.value > 0.0
  }

  function Evaluate(cfg: Settings, o: Observation): ExitAction {
    var entry, current := o.entryPrice, o.currentPrice;
    if entry <= 0.0 || current <= 0.0 then NO_EXIT_LEVELS
    else if o.quantity <= 0 then NO_POSITION_SIZE
    else if !Positive(o.levels.stopLoss) || !Positive(o.levels.takeProfit) then NO_EXIT_LEVELS
    else
      var stop, target := o.levels.stopLoss.value, o.levels.takeProfit.value;
      var toTarget := SafeRatio(current - entry, Max(target - entry, 0.0));
      var toStop := SafeRatio(entry - current, Max(entry - stop, 0.0));
      if current <= stop then EXIT_STOP_LOSS
      else if current >= target then EXIT_TAKE_PROFIT
      else if BookingTriggered(cfg, o.pnl, PctOf(o.pnl, o.notional), toTarget) then EXIT_PROFIT_BOOKING
      else if toTarget.Some? && toTarget.value >= cfg.profitLockPct then LOCK_PROFIT_OR_TRAIL
      else if toStop.Some? && toStop.value >= cfg.lossWatchPct then WATCH_STOP_CLOSELY
      else if current > entry then HOLD_WINNER
      else if current < entry then HOLD_WITH_STOP
      else WAIT_FOR_MOVE
  }

  /** The samples of one observation, oldest first. */
  function Path(samples: seq<Sample>, i: nat): seq<Sample> {
    if samples == [] then [] else
    var last := samples[|samples| - 1];
    Path(samples[..|samples| - 1], i) + if last.observation == i then [last] else []
  }

  /** The first of the samples with the largest P&L. */
  function Peak(path: seq<Sample>): (peak: Sample)
    requires path != []
    ensures peak in path && forall s :: s in path ==> s.pnl <= peak.pnl
  {
    if |path| == 1 then path[0] else
    var before := Peak(path[..|path| - 1]);
    if path[|path| - 1].pnl > before.pnl then path[|path| - 1] else before
  }

  predicate CanLock(cfg: Settings, peak: Sample) {
    peak.pnl >= cfg.lockMinPnl || peak.pnlPct >= cfg.lockMinPct
  }

  predicate GaveBack(cfg: Settings, path: seq<Sample>, currentPnl: real) {
    |path| >= 2 &&
    var peak := Peak(path);
    && CanLock(cfg, peak)
    && peak.pnl > 0.0
    && Max(peak.pnl - currentPnl, 0.0) / peak.pnl >= cfg.givebackPct
  }

  function ExitFor(cfg: Settings, o: Observation, path: seq<Sample>): ExitAction {
    var action := Evaluate(cfg, o);
    if !action.Closes() && GaveBack(cfg, path, o.pnl) then EXIT_PROFIT_GIVEBACK else action
  }

  function ClosedStatus(action: ExitAction): Status
    requires action.Closes() || action == EXIT_SESSION_CLOSE
  {
    match action
    case EXIT_STOP_LOSS => CLOSED_STOP_LOSS
    case EXIT_TAKE_PROFIT => CLOSED_TAKE_PROFIT
    case EXIT_PROFIT_BOOKING => CLOSED_PROFIT_BOOKED
    case EXIT_PROFIT_GIVEBACK => CLOSED_PROFIT_GIVEBACK
    case EXIT_SESSION_CLOSE => CLOSED_SESSION_CLOSE
  }

  function Closed(cfg: Settings, o: Observation, action: ExitAction, at: int): Observation
    requires action.Closes() || action == EXIT_SESSION_CLOSE
  {
    o.(status := ClosedStatus(action), exit := Some(Exit(at, at + cfg.Cooldown())))
  }

  function CloseRow(cfg: Settings, t: Table, i: nat, action: ExitAction, at: int): Table
    requires i < |t.rows|
    requires action.Closes() || action == EXIT_SESSION_CLOSE
  {
    Table(t.rows[i := Closed(cfg, t.rows[i], action, at)], t.samples + [SampleOf(t.rows[i], i, at, SHADOW_EXIT)])
  }

  /** The path an exit decision sees: with autoflush off, the sample just added is still pending. */
  function VisiblePath(cfg: Settings, stored: seq<Sample>, pending: Sample, i: nat): seq<Sample> {
    Path(if cfg.autoflush then stored + [pending] else stored, i)
  }

  /** A fresh or newly marked row takes its sample and faces the exit policy. */
  function Settle(cfg: Settings, t: Table, i: nat, turn: Turn): Table
    requires i < |t.rows| && t.rows[i].IsOpen()
  {
    var sample := SampleOf(t.rows[i], i, turn.sampleAt, INTRADAY_MARK);
    var sampled := Table(t.rows, t.samples + [sample]);
    var action := ExitFor(cfg, t.rows[i], VisiblePath(cfg, t.samples, sample, i));
    if cfg.exitEnabled && action.Closes() then CloseRow(cfg, sampled, i, action, turn.exitAt) else sampled
  }

  // ---------- re-entry ----------

  function FindOpen(rows: seq<Observation>, market: Market, symbol: string): (r: Option<nat>)
    ensures r.Some? ==> r.value < |rows| && rows[r.value].Of(market, symbol) && rows[r.value].IsOpen()
    ensures r.None? ==> forall o :: o in rows && o.Of(market, symbol) ==> !o.IsOpen()
  {
    if rows == [] then None else
    var earlier := FindOpen(rows[..|rows| - 1], market, symbol);
    var last := rows[|rows| - 1];
    if earlier.None? && last.Of(market, symbol) && last.IsOpen() then Some(|rows| - 1) else earlier
  }

  ghost predicate ClosedOf(rows: seq<Observation>, market: Market, symbol: string, i: nat) {
    i < |rows| && rows[i].Of(market, symbol) && !rows[i].IsOpen()
  }

  /** What the query for the latest closed row may answer; among equal marks, any of them. */
  ghost predicate IsLatestClosed(rows: seq<Observation>, market: Market, symbol: string, answer: Option<nat>) {
    match answer
    case None => forall i: nat :: !ClosedOf(rows, market, symbol, i)
    case Some(k) =>
      && ClosedOf(rows, market, symbol, k)
      && forall i: nat :: ClosedOf(rows, market, symbol, i) ==> rows[i].lastMarkedAt <= rows[k].lastMarkedAt
  }

  predicate BlocksAt(o: Observation, now: int) {
    o.exit.Some? && o.exit.value.reentryBlockedUntil > now
  }

  predicate Cooling(cfg: Settings, rows: seq<Observation>, latest: Option<nat>, now: int)
    requires latest.Some? ==> latest.value < |rows|
  {
    cfg.cooldownMinutes > 0 && latest.Some? && BlocksAt(rows[latest.value], now)
  }

  predicate MayOpen(cfg: Settings, rows: seq<Observation>, turn: Turn, latest: Option<nat>)
    requires latest.Some? ==> latest.value < |rows|
  {
    turn.isBuy && !turn.newsBlocks && !Cooling(cfg, rows, latest, turn.now) && !turn.lossPaused
  }

  function Record(cfg: Settings, t: Table, turn: Turn, latest: Option<nat>): Table
    requires latest.Some? ==> latest.value < |t.rows|
  {
    match FindOpen(t.rows, turn.market, turn.symbol)
    case Some(i) => Settle(cfg, Table(t.rows[i := Marked(cfg, t.rows[i], turn)], t.samples), i, turn)
    case None =>
      if MayOpen(cfg, t.rows, turn, latest)
      then Settle(cfg, Table(t.rows + [Opened(cfg, turn)], t.samples), |t.rows|, turn)
      else t
  }

  // ---------- sweeping, cycles ----------

  predicate Stale(o: Observation, market: Market, dayStart: int) {
    o.market == market && o.IsOpen() && o.openedAt < dayStart
  }

  function SweepTime(o: Observation, dayStart: int): int {
    MinInt(o.lastMarkedAt, dayStart - 1)
  }

  /** Closes the stale rows among the first n, in order. */
  function SweepFirst(cfg: Settings, t: Table, market: Market, dayStart: int, n: nat): (r: Table)
    requires n <= |t.rows|
    ensures |r.rows| == |t.rows|
  {
    if n == 0 then t else
    var before := SweepFirst(cfg, t, market, dayStart, n - 1);
    if Stale(t.rows[n - 1], market, dayStart)
    then CloseRow(cfg, before, n - 1, EXIT_SESSION_CLOSE, SweepTime(before.rows[n - 1], dayStart))
    else before
  }

  function Sweep(cfg: Settings, t: Table, market: Market, dayStart: int): Table {
    SweepFirst(cfg, t, market, dayStart, |t.rows|)
  }

  /** Midnight of a market's day at an instant: never later than the instant. */
  ghost predicate IsCalendar(dayStart: (Market, int) -> int) {
    forall m, at :: dayStart(m, at) <= at
  }

  function SweepBoth(cfg: Settings, dayStart: (Market, int) -> int, t: Table, startedAt: int): Table {
    Sweep(cfg, Sweep(cfg, t, INDIA, dayStart(INDIA, startedAt)), US, dayStart(US, startedAt))
  }

  /** A turn together with the row its cooldown query happened to return. */
  datatype Move = Move(turn: Turn, latest: Option<nat>)

  ghost predicate Answered(rows: seq<Observation>, move: Move) {
    IsLatestClosed(rows, move.turn.market, move.turn.symbol, move.latest)
  }

  ghost predicate Possible(cfg: Settings, t: Table, moves: seq<Move>)
    decreases |moves|
  {
    moves != [] ==>
      Answered(t.rows, moves[0]) && Possible(cfg, Record(cfg, t, moves[0].turn, moves[0].latest), moves[1..])
  }

  ghost function RecordAll(cfg: Settings, t: Table, moves: seq<Move>): Table
    requires Possible(cfg, t, moves)
    decreases |moves|
  {
    if moves == [] then t else RecordAll(cfg, Record(cfg, t, moves[0].turn, moves[0].latest), moves[1..])
  }

  /** One completed training cycle: its start and, symbol by symbol, its moves. */
  datatype Cycle = Cycle(startedAt: int, moves: seq<Move>)
}
