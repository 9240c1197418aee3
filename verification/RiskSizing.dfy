/** Position sizing and the risk gate's reasons, for one candidate against one portfolio. */
module RiskSizing {
  import opened Common
  import opened TradeActions

  datatype AssetClass = EQUITY | ETF | CASH

  datatype Candidate = Candidate(
    market: Market,
    symbol: string,
    assetClass: AssetClass,
    action: TradeAction,
    entryPrice: real,
    stopLoss: Option<real>,
    rewardRiskRatio: real
  )

  datatype OpenPosition = OpenPosition(market: Market, symbol: string, quantity: int)

  datatype Portfolio = Portfolio(
    totalValue: real,
    cash: real,
    equityExposure: real,
    indiaExposure: real,
    usExposure: real,
    dailyPnl: real,
    weeklyPnl: real,
    monthlyDrawdownPct: real,
    totalDrawdownPct: real,
    positions: seq<OpenPosition>
  ) {
    function MarketExposure(market: Market): real {
      if market == INDIA then indiaExposure else usExposure
    }
  }

  datatype RiskConfig = RiskConfig(
    maxRiskPerTradePct: real,
    maxDailyLossPct: real,
    maxWeeklyLossPct: real,
    maxMonthlyDrawdownPct: real,
    maxTotalDrawdownPct: real,
    maxStockPositionPct: real,
    maxEtfPositionPct: real,
    maxTotalExposurePct: real,
    maxIndiaExposurePct: real,
    maxUsExposurePct: real,
    maxOpenTotal: int,
    maxOpenIndia: int,
    maxOpenUs: int,
    minRewardRisk: real
  ) {
    function PositionPct(assetClass: AssetClass): real {
      if assetClass == ETF then maxEtfPositionPct else maxStockPositionPct
    }

    function MarketPct(market: Market): real {
      if market == INDIA then maxIndiaExposurePct else maxUsExposurePct
    }

    function MarketSlots(market: Market): int {
      if market == INDIA then maxOpenIndia else maxOpenUs
    }
  }

  /** What the schemas reject before the gate is ever reached. */
  predicate Validated(c: Candidate, p: Portfolio) {
    && c.entryPrice > 0.0
    && (c.stopLoss.Some? ==> c.stopLoss.value > 0.0)
    && p.totalValue > 0.0 && p.cash >= 0.0
    && (forall k :: 0 <= k < |p.positions| ==> p.positions[k].quantity >= 0)
  }

  // ---------- quantities ----------

  function FloorDiv(x: real, unit: real): (n: int)
    requires unit > 0.0
    ensures forall m: int :: m <= n <==> Times(m, unit) <= x
  {
    var n := (x / unit).Floor;
    FloorBounds(x, unit, n);
    n
  }

  function Times(m: int, unit: real): real {
    m as real * unit
  }

  lemma FloorBounds(x: real, unit: real, n: int)
    requires unit > 0.0 && n == (x / unit).Floor
    ensures forall m: int :: m <= n <==> Times(m, unit) <= x
  {
    var ratio := x / unit;
    assert ratio * unit == x;
    forall m: int ensures m <= n <==> Times(m, unit) <= x {
      assert m <= n <==> m as real <= ratio;
      ScaleKeepsOrder(m as real, ratio, unit);
    }
  }

  function QuantityByRisk(totalValue: real, entry: real, stop: real, riskPct: real): int {
    var unitRisk := Abs(entry - stop);
    if unitRisk <= 0.0 then 0 else MaxInt(FloorDiv(totalValue * riskPct, unitRisk), 0)
  }

  function Room(c: Candidate, p: Portfolio, cfg: RiskConfig): real {
    p.totalValue * cfg.MarketPct(c.market) - p.MarketExposure(c.market)
  }

  function CapQuantity(c: Candidate, p: Portfolio, cfg: RiskConfig, byRisk: int, price: real): int
    requires price > 0.0
  {
    var byPosition := FloorDiv(p.totalValue * cfg.PositionPct(c.assetClass), price);
    var byCash := if c.action == TradeAction.BUY then FloorDiv(p.cash, price) else byRisk;
    var byMarket := FloorDiv(Max(Room(c, p, cfg), 0.0), price);
    MaxInt(MinInt(MinInt(byRisk, byPosition), MinInt(byCash, byMarket)), 0)
  }

  /** The quantity of the first position that matches, as the portfolio lists them. */
  function HeldLong(c: Candidate, positions: seq<OpenPosition>): (held: int)
    ensures held >= 0
  {
    if positions == [] then 0
    else if positions[0].market == c.market && positions[0].symbol == c.symbol then MaxInt(positions[0].quantity, 0)
    else HeldLong(c, positions[1..])
  }

  function Sized(c: Candidate, p: Portfolio, cfg: RiskConfig, price: real, stop: real): int
    requires price > 0.0
  {
    var capped := CapQuantity(c, p, cfg, QuantityByRisk(p.totalValue, price, stop, cfg.maxRiskPerTradePct), price);
    if c.action == TradeAction.SELL then MinInt(capped, HeldLong(c, p.positions)) else capped
  }

  /** Everything an order of n units must fit into at once. */
  ghost predicate Fits(c: Candidate, p: Portfolio, cfg: RiskConfig, price: real, stop: real, n: int) {
    && price != stop
    && Times(n, Abs(price - stop)) <= p.totalValue * cfg.maxRiskPerTradePct
    && Times(n, price) <= p.totalValue * cfg.PositionPct(c.assetClass)
    && (c.action == TradeAction.BUY ==> Times(n, price) <= p.cash)
    && p.MarketExposure(c.market) + Times(n, price) <= p.totalValue * cfg.MarketPct(c.market)
    && (c.action == TradeAction.SELL ==> n <= HeldLong(c, p.positions))
  }

  /** The sized quantity is the greatest that fits: every positive n up to it fits, none beyond it does. */
  lemma SizedIsGreatest(c: Candidate, p: Portfolio, cfg: RiskConfig, price: real, stop: real)
    requires price > 0.0
    ensures Sized(c, p, cfg, price, stop) >= 0
    ensures forall n: int :: n >= 1 ==> (n <= Sized(c, p, cfg, price, stop) <==> Fits(c, p, cfg, price, stop, n))
  {
    hide FloorDiv, Times;
    forall n: int | n >= 1 ensures n <= Sized(c, p, cfg, price, stop) <==> Fits(c, p, cfg, price, stop, n) {
      PositiveTimes(n, price);
    }
  }

  lemma PositiveTimes(n: int, unit: real)
    requires n >= 1 && unit > 0.0
    ensures Times(n, unit) > 0.0
  {
  }

  // ---------- reasons ----------

  function If(condition: bool, reason: string): seq<string> {
    if condition then [reason] else []
  }

  datatype FxStatus = FxStatus(rate: Option<real>, missing: bool, isFresh: bool)

  function FxReasons(market: Market, fx: Option<FxStatus>): seq<string> {
    if market != US then []
    else if fx.None? || fx.value.missing || fx.value.rate.None? then ["usd_inr_fx_missing"]
    else If(!fx.value.isFresh, "usd_inr_fx_stale")
  }

  function StopReasons(c: Candidate): seq<string> {
    if (c.action == TradeAction.BUY || c.action == TradeAction.SELL) && c.stopLoss.None? then ["stop_loss_required"]
    else If(c.stopLoss == Some(c.entryPrice), "stop_loss_equals_entry_price")
  }

  function LossPct(pnl: real, totalValue: real): real
    requires totalValue > 0.0
  {
    Abs(Min(pnl, 0.0)) / totalValue
  }

  function DrawdownReasons(p: Portfolio, cfg: RiskConfig): seq<string>
    requires p.totalValue > 0.0
  {
    If(LossPct(p.dailyPnl, p.totalValue) > cfg.maxDailyLossPct, "daily_loss_limit_exceeded")
    + If(LossPct(p.weeklyPnl, p.totalValue) > cfg.maxWeeklyLossPct, "weekly_loss_limit_exceeded")
    + If(p.monthlyDrawdownPct > cfg.maxMonthlyDrawdownPct, "monthly_drawdown_limit_exceeded")
    + If(p.totalDrawdownPct > cfg.maxTotalDrawdownPct, "total_drawdown_limit_exceeded")
  }

  function OpenCount(p: Portfolio): nat {
    Count(p.positions, (o: OpenPosition) => o.quantity > 0)
  }

  function OpenCountIn(p: Portfolio, market: Market): nat {
    Count(p.positions, (o: OpenPosition) => o.quantity > 0 && o.market == market)
  }

  function SlotReasons(c: Candidate, p: Portfolio, cfg: RiskConfig): seq<string> {
    if c.action != TradeAction.BUY then [] else
    If(OpenCount(p) >= cfg.maxOpenTotal, "max_open_positions_total_exceeded")
    + If(OpenCountIn(p, c.market) >= cfg.MarketSlots(c.market),
         if c.market == INDIA then "max_open_positions_india_exceeded" else "max_open_positions_us_exceeded")
  }

  function LongOnlyReasons(c: Candidate, quantity: int, positions: seq<OpenPosition>): seq<string> {
    if c.action != TradeAction.SELL then []
    else if HeldLong(c, positions) <= 0 then ["sell_without_existing_long_position"]
    else If(quantity > HeldLong(c, positions), "sell_quantity_exceeds_existing_long_position")
  }

  function ExposureReasons(market: Market, p: Portfolio, cfg: RiskConfig, orderValue: real): seq<string> {
    If(p.equityExposure + orderValue > p.totalValue * cfg.maxTotalExposurePct, "total_equity_exposure_limit_exceeded")
    + If(p.MarketExposure(market) + orderValue > p.totalValue * cfg.MarketPct(market),
         if market == INDIA then "india_exposure_limit_exceeded" else "us_exposure_limit_exceeded")
  }

  datatype DecisionType = APPROVED | REJECTED | NO_TRADE

  datatype RiskDecision = RiskDecision(
    decision: DecisionType,
    approvedQuantity: int,
    approvedCapital: real,
    approvedRisk: real,
    rejectionReasons: seq<string>
  )

  /** What the gate is asked: the candidate, and the reasons its environment checks have already collected. */
  datatype Question = Question(
    candidate: Candidate,
    portfolio: Portfolio,
    config: RiskConfig,
    environment: seq<string>,
    quality: seq<string>,
    fx: Option<FxStatus>
  ) {
    /** The rate used for sizing: absent only when a status without a rate was supplied for a US candidate. */
    function FxRate(): Option<real> {
      if candidate.market == US && fx.Some? then fx.value.rate else Some(1.0)
    }

    predicate WellFormed() {
      Validated(candidate, portfolio) && (fx.Some? && fx.value.rate.Some? ==> fx.value.rate.value > 0.0)
    }
  }

  function InRupees(price: real, rate: real): (r: real)
    ensures price > 0.0 && rate > 0.0 ==> r > 0.0
  {
    price * rate
  }

  /** The order as sized in rupees: the quantity, its capital and its risk. */
  datatype Sizing = Sizing(quantity: int, capital: real, risk: real)

  function SizeOrder(q: Question, rate: real): Sizing
    requires q.WellFormed() && rate > 0.0 && q.candidate.stopLoss.Some?
  {
    var price, stop := InRupees(q.candidate.entryPrice, rate), InRupees(q.candidate.stopLoss.value, rate);
    var quantity := Sized(q.candidate, q.portfolio, q.config, price, stop);
    Sizing(quantity, Times(quantity, price), Times(quantity, Abs(price - stop)))
  }

  /** Collected before sizing. */
  function EarlyReasons(q: Question): seq<string>
    requires q.WellFormed()
  {
    var c, p, cfg := q.candidate, q.portfolio, q.config;
    q.environment + (FxReasons(c.market, q.fx) + (StopReasons(c) + (DrawdownReasons(p, cfg) + (q.quality
    + (If(c.rewardRiskRatio < cfg.minRewardRisk, "reward_risk_ratio_below_minimum") + SlotReasons(c, p, cfg))))))
  }

  /** Collected while sizing; without a stop there is nothing to size. */
  function SizingReasons(q: Question, sizing: Option<Sizing>): seq<string>
    requires q.WellFormed()
  {
    var c, p := q.candidate, q.portfolio;
    var quantity := if sizing.Some? then sizing.value.quantity else 0;
    (if sizing.None? then [] else
       LongOnlyReasons(c, quantity, p.positions) +
         ExposureReasons(c.market, p, q.config, Added(q, sizing.value.capital)))
    + (If(c.action == TradeAction.BUY && p.cash <= 0.0, "cash_unavailable")
       + If(quantity <= 0 && StopReasons(c) == [], "position_size_zero"))
  }

  /** The exposure an order adds: a sale is counted as adding none. */
  function Added(q: Question, capital: real): real {
    if q.candidate.action == TradeAction.BUY then capital else 0.0
  }

  const MISSING_RATE := "unsupported operand type(s) for *: 'float' and 'NoneType'"

  function Decide(q: Question): Result<RiskDecision>
    requires q.WellFormed()
  {
    if q.candidate.action == HOLD || q.candidate.action == TradeAction.NO_TRADE then
      Ok(RiskDecision(DecisionType.NO_TRADE, 0, 0.0, 0.0, []))
    else if q.candidate.stopLoss.Some? && q.FxRate().None? then Raised(MISSING_RATE)
    else
      var sizing := if q.candidate.stopLoss.Some? then Some(SizeOrder(q, q.FxRate().value)) else None;
      var reasons := Dedup(EarlyReasons(q) + SizingReasons(q, sizing));
      if reasons != [] || sizing.None? then Ok(RiskDecision(REJECTED, 0, 0.0, 0.0, reasons))
      else Ok(RiskDecision(APPROVED, sizing.value.quantity, sizing.value.capital, sizing.value.risk, []))
  }
}
