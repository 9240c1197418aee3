/** The risk gate step by step, and what an approval guarantees. */
module RiskEngine {
  import opened Common
  import opened TradeActions
  import opened RiskSizing

  // ---------- the gate as it runs ----------

  method CheckExposure(market: Market, p: Portfolio, cfg: RiskConfig, orderValue: real) returns (reasons: seq<string>)
    ensures reasons == ExposureReasons(market, p, cfg, orderValue)
  {
    reasons := [];
    var totalAfter := p.equityExposure + orderValue;
    if totalAfter > p.totalValue * cfg.maxTotalExposurePct {
      reasons := reasons + ["total_equity_exposure_limit_exceeded"];
    }
    if market == INDIA {
      if p.indiaExposure + orderValue > p.totalValue * cfg.maxIndiaExposurePct {
        reasons := reasons + ["india_exposure_limit_exceeded"];
      }
    } else {
      if p.usExposure + orderValue > p.totalValue * cfg.maxUsExposurePct {
        reasons := reasons + ["us_exposure_limit_exceeded"];
      }
    }
  }

  method SizeInRupees(q: Question, rate: real) returns (r: Sizing)
    requires q.WellFormed() && rate > 0.0 && q.candidate.stopLoss.Some?
    ensures r == SizeOrder(q, rate)
  {
    hide InRupees, Times, CapQuantity, QuantityByRisk, HeldLong;
    var c, p, cfg := q.candidate, q.portfolio, q.config;
    var price, stop := InRupees(c.entryPrice, rate), InRupees(c.stopLoss.value, rate);
    var quantity := CapQuantity(c, p, cfg, QuantityByRisk(p.totalValue, price, stop, cfg.maxRiskPerTradePct), price);
    if c.action == TradeAction.SELL {
      var available := HeldLong(c, p.positions);
      quantity := MinInt(quantity, available);
    }
    r := Sizing(quantity, Times(quantity, price), Times(quantity, Abs(price - stop)));
  }

  /** Sizes the order, raising when a US candidate's rate is missing, and collects what sizing objects to. */
  method SizeAndCheck(q: Question) returns (r: Result<(Option<Sizing>, seq<string>)>)
    requires q.WellFormed()
    ensures r.Raised? <==> q.candidate.stopLoss.Some? && q.FxRate().None?
    ensures r.Raised? ==> r.error == MISSING_RATE
    ensures r.Ok? ==>
              && r.value.0 == (if q.candidate.stopLoss.Some? then Some(SizeOrder(q, q.FxRate().value)) else None)
              && r.value.1 == SizingReasons(q, r.value.0)
  {
    hide StopReasons, LongOnlyReasons, ExposureReasons, SizeOrder;
    var c, p, cfg := q.candidate, q.portfolio, q.config;
    var reasons: seq<string> := [];
    var quantity, sizing := 0, None;
    if c.stopLoss.Some? {
      var rate := q.FxRate();
      if rate.None? {
        return Raised(MISSING_RATE);
      }
      var order := SizeInRupees(q, rate.value);
      quantity, sizing := order.quantity, Some(order);
      var exposure := CheckExposure(c.market, p, cfg, if c.action == TradeAction.BUY then sizing.value.capital
        else 0.0);
      reasons := LongOnlyReasons(c, quantity, p.positions) + exposure;
    }
    var late: seq<string> := [];
    if c.action == TradeAction.BUY && p.cash <= 0.0 {
      late := late + ["cash_unavailable"];
    }
    if quantity <= 0 && StopReasons(c) == [] {
      late := late + ["position_size_zero"];
    }
    r := Ok((sizing, reasons + late));
  }

  method Evaluate(q: Question) returns (r: Result<RiskDecision>)
    requires q.WellFormed()
    ensures r == Decide(q)
  {
    hide FxReasons, StopReasons, DrawdownReasons, SlotReasons, SizingReasons, SizeOrder, Dedup;
    var c, p, cfg := q.candidate, q.portfolio, q.config;
    if c.action == TradeAction.HOLD || c.action == TradeAction.NO_TRADE {
      return Ok(RiskDecision(DecisionType.NO_TRADE, 0, 0.0, 0.0, []));
    }
    var early := SlotReasons(c, p, cfg);
    if c.rewardRiskRatio < cfg.minRewardRisk {
      early := ["reward_risk_ratio_below_minimum"] + early;
    }
    assert early == If(c.rewardRiskRatio < cfg.minRewardRisk, "reward_risk_ratio_below_minimum") +
      SlotReasons(c, p, cfg);
    early := q.environment + (FxReasons(c.market, q.fx) +
      (StopReasons(c) + (DrawdownReasons(p, cfg) + (q.quality + early))));
    var sized := SizeAndCheck(q);
    if sized.Raised? {
      return Raised(sized.error);
    }
    var (sizing, objections) := sized.value;
    var deduped := Dedup(early + objections);
    if deduped != [] || sizing.None? {
      return Ok(RiskDecision(REJECTED, 0, 0.0, 0.0, deduped));
    }
    r := Ok(RiskDecision(APPROVED, sizing.value.quantity, sizing.value.capital, sizing.value.risk, []));
  }

  // ---------- what a decision means ----------

  ghost predicate Trades(q: Question) {
    q.candidate.action == TradeAction.BUY || q.candidate.action == TradeAction.SELL
  }

  ghost predicate Approves(q: Question)
    requires q.WellFormed()
  {
    Decide(q).Ok? && Decide(q).value.decision == APPROVED
  }

  ghost predicate LossWithin(pnl: real, limitPct: real, totalValue: real) {
    Max(-pnl, 0.0) <= limitPct * totalValue
  }

  /** Nothing outside the sizing objects. */
  ghost predicate Clear(q: Question) {
    var c, p, cfg := q.candidate, q.portfolio, q.config;
    && q.environment == [] && q.quality == []
    && (c.market == US ==> q.fx.Some? && q.fx.value.rate.Some? && !q.fx.value.missing && q.fx.value.isFresh)
    && LossWithin(p.dailyPnl, cfg.maxDailyLossPct, p.totalValue)
    && LossWithin(p.weeklyPnl, cfg.maxWeeklyLossPct, p.totalValue)
    && p.monthlyDrawdownPct <= cfg.maxMonthlyDrawdownPct
    && p.totalDrawdownPct <= cfg.maxTotalDrawdownPct
    && c.rewardRiskRatio >= cfg.minRewardRisk
    && (c.action == TradeAction.BUY ==>
         OpenCount(p) < cfg.maxOpenTotal && OpenCountIn(p, c.market) < cfg.MarketSlots(c.market))
  }

  ghost predicate UnitFits(q: Question, n: int)
    requires q.candidate.stopLoss.Some? && q.FxRate().Some?
  {
    var rate := q.FxRate().value;
    Fits(q.candidate, q.portfolio, q.config, InRupees(q.candidate.entryPrice, rate),
      InRupees(q.candidate.stopLoss.value, rate), n)
  }

  ghost predicate TotalExposureKept(q: Question, capital: real) {
    q.portfolio.equityExposure + Added(q, capital) <= q.portfolio.totalValue * q.config.maxTotalExposurePct
  }

  /** An order is approved exactly when nothing else objects, one unit fits, and its capital fits the total limit. */
  lemma ApprovedExactlyWhenOneUnitFits(q: Question)
    requires q.WellFormed() && Trades(q)
    ensures Approves(q) <==>
              && Clear(q)
              && q.candidate.stopLoss.Some? && q.FxRate().Some?
              && UnitFits(q, 1)
              && TotalExposureKept(q, SizeOrder(q, q.FxRate().value).capital)
  {
    hide FxReasons, DrawdownReasons, SlotReasons, SizingReasons, EarlyReasons, Clear, StopReasons, Sized, Times, Dedup,
      Fits, InRupees;
    if q.candidate.stopLoss.Some? && q.FxRate().Some? {
      var rate := q.FxRate().value;
      var price, stop := InRupees(q.candidate.entryPrice, rate), InRupees(q.candidate.stopLoss.value, rate);
      RateKeepsDifference(q.candidate.entryPrice, q.candidate.stopLoss.value, rate);
      SizedIsGreatest(q.candidate, q.portfolio, q.config, price, stop);
      SizingReasonsExactly(q, rate);
      NothingCollected(EarlyReasons(q), SizingReasons(q, Some(SizeOrder(q, rate))));
    }
    EarlyReasonsExactly(q);
  }

  lemma RateKeepsDifference(x: real, y: real, rate: real)
    requires rate > 0.0
    ensures x == y <==> InRupees(x, rate) == InRupees(y, rate)
  {
    assert x == InRupees(x, rate) / rate && y == InRupees(y, rate) / rate;
  }

  lemma LossWithinExactly(pnl: real, limitPct: real, totalValue: real)
    requires totalValue > 0.0
    ensures LossPct(pnl, totalValue) > limitPct <==> !LossWithin(pnl, limitPct, totalValue)
  {
    ScaleKeepsOrder(LossPct(pnl, totalValue), limitPct, totalValue);
    assert Max(-pnl, 0.0) / totalValue * totalValue == Max(-pnl, 0.0);
  }

  lemma EarlyReasonsExactly(q: Question)
    requires q.WellFormed()
    ensures EarlyReasons(q) == [] <==> Clear(q) && StopReasons(q.candidate) == []
  {
    hide StopReasons, OpenCount, OpenCountIn, LossPct, LossWithin;
    var p, cfg := q.portfolio, q.config;
    LossWithinExactly(p.dailyPnl, cfg.maxDailyLossPct, p.totalValue);
    LossWithinExactly(p.weeklyPnl, cfg.maxWeeklyLossPct, p.totalValue);
  }

  lemma SizingReasonsExactly(q: Question, rate: real)
    requires q.WellFormed() && Trades(q) && q.candidate.stopLoss.Some? && q.FxRate() == Some(rate)
    ensures StopReasons(q.candidate) == [] && SizingReasons(q, Some(SizeOrder(q, rate))) == [] <==>
            UnitFits(q, 1) && TotalExposureKept(q, SizeOrder(q, rate).capital)
  {
    hide Sized, Times, InRupees;
    var c, p, cfg := q.candidate, q.portfolio, q.config;
    var price, stop := InRupees(c.entryPrice, rate), InRupees(c.stopLoss.value, rate);
    RateKeepsDifference(c.entryPrice, c.stopLoss.value, rate);
    SizedIsGreatest(c, p, cfg, price, stop);
    PositiveTimes(1, price);
    var n := Sized(c, p, cfg, price, stop);
    if n >= 1 {
      assert Fits(c, p, cfg, price, stop, n);
      PositiveTimes(n, price);
    }
  }

  /** An approved purchase is the largest that fits, and leaves both exposure limits respected. */
  lemma ApprovedPurchaseIsGreatest(q: Question)
    requires q.WellFormed() && q.candidate.action == TradeAction.BUY && Approves(q)
    ensures q.candidate.stopLoss.Some? && q.FxRate().Some?
    ensures var d, p := Decide(q).value, q.portfolio;
            && d.approvedQuantity >= 1
            && (forall n: int :: n >= 1 ==> (n <= d.approvedQuantity <==> UnitFits(q, n)))
            && d.approvedCapital == Times(d.approvedQuantity, InRupees(q.candidate.entryPrice, q.FxRate().value)) <=
                 p.cash
            && d.approvedRisk <= p.totalValue * q.config.maxRiskPerTradePct
            && p.equityExposure + d.approvedCapital <= p.totalValue * q.config.maxTotalExposurePct
            && p.MarketExposure(q.candidate.market) + d.approvedCapital <=
                 p.totalValue * q.config.MarketPct(q.candidate.market)
  {
    hide Decide, Sized, Times, InRupees, HeldLong;
    ApprovedIsGreatest(q);
  }

  /** An approved sale never exceeds the long position held, and is the largest that fits besides. */
  lemma ApprovedSaleIsCovered(q: Question)
    requires q.WellFormed() && q.candidate.action == TradeAction.SELL && Approves(q)
    ensures q.candidate.stopLoss.Some? && q.FxRate().Some?
    ensures var d := Decide(q).value;
            && 1 <= d.approvedQuantity <= HeldLong(q.candidate, q.portfolio.positions)
            && forall n: int :: n >= 1 ==> (n <= d.approvedQuantity <==> UnitFits(q, n))
  {
    hide Decide, Sized, Times, InRupees, HeldLong;
    ApprovedIsGreatest(q);
  }

  lemma ApprovedIsGreatest(q: Question)
    requires q.WellFormed() && Trades(q) && Approves(q)
    ensures q.candidate.stopLoss.Some? && q.FxRate().Some?
    ensures var d := Decide(q).value;
            && d == RiskDecision(APPROVED, SizeOrder(q, q.FxRate().value).quantity,
                 SizeOrder(q, q.FxRate().value).capital,
                                 SizeOrder(q, q.FxRate().value).risk, [])
            && d.approvedQuantity >= 1
            && (forall n: int :: n >= 1 ==> (n <= d.approvedQuantity <==> UnitFits(q, n)))
            && UnitFits(q, d.approvedQuantity)
            && TotalExposureKept(q, d.approvedCapital)
  {
    hide SizingReasons, EarlyReasons, Clear, StopReasons, Sized, Times, Dedup, Fits, InRupees, TotalExposureKept;
    ApprovedExactlyWhenOneUnitFits(q);
    var rate := q.FxRate().value;
    var price, stop := InRupees(q.candidate.entryPrice, rate), InRupees(q.candidate.stopLoss.value, rate);
    SizedIsGreatest(q.candidate, q.portfolio, q.config, price, stop);
    assert Fits(q.candidate, q.portfolio, q.config, price, stop, 1);
  }

  /**
   Selling is capped by the room left in the market as if it were buying: with less than one unit of room, no
   sale passes.
   */
  lemma SaleWithoutRoomIsRefused(q: Question)
    requires q.WellFormed() && q.candidate.action == TradeAction.SELL
    requires q.candidate.stopLoss.Some? && q.FxRate().Some?
    requires Room(q.candidate, q.portfolio, q.config) < InRupees(q.candidate.entryPrice, q.FxRate().value)
    ensures Decide(q).Ok? && Decide(q).value.decision == REJECTED
  {
    hide SizingReasons, EarlyReasons, Clear, StopReasons, Sized, Dedup, InRupees, TotalExposureKept;
    ApprovedExactlyWhenOneUnitFits(q);
  }

  /** The gate raises exactly when sizing meets a US candidate whose status carries no rate. */
  lemma RaisesExactlyWithoutRate(q: Question)
    requires q.WellFormed()
    ensures Decide(q).Raised? <==>
              Trades(q) && q.candidate.stopLoss.Some? && q.candidate.market == US && q.fx.Some? && q.fx.value.rate.None?
  {
    hide SizingReasons, EarlyReasons, SizeOrder, Dedup;
  }
}
