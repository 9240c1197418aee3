/**
 What the gate answers, in the terms of the question: every reason for a rejection, and the figures of an
 approval.
 */
module RiskReasons {
  import opened Common
  import opened TradeActions
  import opened RiskSizing
  import opened RiskEngine

  // ---------- positions ----------

  ghost predicate FirstMatch(c: Candidate, positions: seq<OpenPosition>, k: nat) {
    && k < |positions| && positions[k].market == c.market && positions[k].symbol == c.symbol
    && forall j :: 0 <= j < k ==> positions[j].market != c.market || positions[j].symbol != c.symbol
  }

  /** The long held is the quantity of the first position of the symbol, and none where there is no such position. */
  lemma {:induction false} HeldIsFirstMatch(c: Candidate, positions: seq<OpenPosition>)
    ensures forall k: nat :: FirstMatch(c, positions, k) ==> HeldLong(c, positions) == MaxInt(positions[k].quantity, 0)
    ensures (forall k: nat :: !FirstMatch(c, positions, k)) ==> HeldLong(c, positions) == 0
  {
    if positions != [] {
      var rest := positions[1..];
      HeldIsFirstMatch(c, rest);
      if positions[0].market == c.market && positions[0].symbol == c.symbol {
        assert FirstMatch(c, positions, 0);
      } else {
        forall k: nat ensures FirstMatch(c, positions, k) <==> k > 0 && FirstMatch(c, rest, k - 1) {
        }
        forall k: nat | FirstMatch(c, rest, k) ensures FirstMatch(c, positions, k + 1) {
        }
      }
    }
  }

  function OpenPlaces(positions: seq<OpenPosition>, markets: set<Market>): set<nat> {
    set k: nat | k < |positions| && positions[k].quantity > 0 && positions[k].market in markets
  }

  lemma {:induction false} CountsArePlaces(positions: seq<OpenPosition>, p: OpenPosition -> bool, markets: set<Market>)
    requires forall o :: p(o) <==> o.quantity > 0 && o.market in markets
    ensures Count(positions, p) == |OpenPlaces(positions, markets)|
  {
    if positions != [] {
      var n := |positions| - 1;
      CountsArePlaces(positions[..n], p, markets);
      assert OpenPlaces(positions, markets) ==
        OpenPlaces(positions[..n], markets) + if p(positions[n]) then {n} else {};
    }
  }

  lemma SlotsArePlaces(p: Portfolio, market: Market)
    ensures OpenCount(p) == |OpenPlaces(p.positions, {INDIA, US})|
    ensures OpenCountIn(p, market) == |OpenPlaces(p.positions, {market})|
  {
    forall o: OpenPosition ensures o.market in {INDIA, US} {
      assert o.market == INDIA || o.market == US;
    }
    CountsArePlaces(p.positions, (o: OpenPosition) => o.quantity > 0, {INDIA, US});
    CountsArePlaces(p.positions, (o: OpenPosition) => o.quantity > 0 && o.market == market, {market});
  }

  // ---------- the figures of an approval ----------

  /** Rupees per unit of the candidate's currency. */
  function Rate(q: Question): real
    requires q.FxRate().Some?
  {
    if q.candidate.market == US && q.fx.Some? then q.fx.value.rate.value else 1.0
  }

  /** What one unit costs in rupees. */
  function RupeePrice(q: Question): real
    requires q.FxRate().Some?
  {
    q.candidate.entryPrice * Rate(q)
  }

  /** What one unit loses in rupees when its stop is hit. */
  function RupeeRisk(q: Question): real
    requires q.FxRate().Some? && q.candidate.stopLoss.Some?
  {
    Abs(q.candidate.entryPrice - q.candidate.stopLoss.value) * Rate(q)
  }

  /** An approval states what the order costs and risks, in rupees; any other decision states nothing. */
  lemma DecisionFigures(q: Question)
    requires q.WellFormed() && Decide(q).Ok?
    ensures var d := Decide(q).value;
            && (d.decision == APPROVED <==> Trades(q) && d.rejectionReasons == [])
            && (d.decision == REJECTED <==> Trades(q) && d.rejectionReasons != [])
            && (d.decision == DecisionType.NO_TRADE <==> !Trades(q))
            && (d.decision == APPROVED ==>
                  && q.candidate.stopLoss.Some? && q.FxRate().Some?
                  && d.approvedCapital == Times(d.approvedQuantity, RupeePrice(q))
                  && d.approvedRisk == Times(d.approvedQuantity, RupeeRisk(q)))
            && (d.decision != APPROVED ==> d.approvedQuantity == 0 && d.approvedCapital == d.approvedRisk == 0.0)
  {
    hide Decide, Abs;
    DecidedByReasons(q);
    if Decide(q).value.decision == APPROVED {
      ApprovedSizing(q);
    }
  }

  lemma DecidedByReasons(q: Question)
    requires q.WellFormed() && Decide(q).Ok?
    ensures var d := Decide(q).value;
            && (d.decision == APPROVED <==> Trades(q) && d.rejectionReasons == [])
            && (d.decision == REJECTED <==> Trades(q) && d.rejectionReasons != [])
            && (d.decision == DecisionType.NO_TRADE <==> !Trades(q))
            && (d.decision != APPROVED ==> d.approvedQuantity == 0 && d.approvedCapital == d.approvedRisk == 0.0)
  {
    if Trades(q) && q.candidate.stopLoss.None? {
      StopIsNeeded(q);
    }
    hide Dedup, EarlyReasons, SizingReasons, SizeOrder;
  }

  lemma ApprovedSizing(q: Question)
    requires q.WellFormed() && Decide(q).Ok? && Decide(q).value.decision == APPROVED
    ensures q.candidate.stopLoss.Some? && q.FxRate().Some?
    ensures var d := Decide(q).value;
            && d.approvedCapital == Times(d.approvedQuantity, RupeePrice(q))
            && d.approvedRisk == Times(d.approvedQuantity, RupeeRisk(q))
  {
    hide Times;
    ApprovedAsSized(q);
    hide Decide, SizeOrder, Abs;
    SizingFigures(q);
  }

  lemma ApprovedAsSized(q: Question)
    requires q.WellFormed() && Decide(q).Ok? && Decide(q).value.decision == APPROVED
    ensures q.candidate.stopLoss.Some? && q.FxRate().Some?
    ensures var d, sizing := Decide(q).value, SizeOrder(q, q.FxRate().value);
            d.approvedQuantity == sizing.quantity && d.approvedCapital == sizing.capital &&
              d.approvedRisk == sizing.risk
  {
    hide SizeOrder, Dedup, EarlyReasons, SizingReasons;
  }

  lemma SizingFigures(q: Question)
    requires q.WellFormed() && q.candidate.stopLoss.Some? && q.FxRate().Some?
    ensures var sizing := SizeOrder(q, q.FxRate().value);
            sizing.capital == Times(sizing.quantity, RupeePrice(q)) &&
              sizing.risk == Times(sizing.quantity, RupeeRisk(q))
  {
    hide Sized, Times;
    var entry, stop := q.candidate.entryPrice, q.candidate.stopLoss.value;
    assert Rate(q) == q.FxRate().value && InRupees(entry, Rate(q)) == RupeePrice(q);
    RateScalesDistance(entry, stop, Rate(q));
    assert Abs(InRupees(entry, Rate(q)) - InRupees(stop, Rate(q))) == RupeeRisk(q);
    hide RupeePrice, RupeeRisk, InRupees;
  }

  lemma RateScalesDistance(x: real, y: real, rate: real)
    requires rate > 0.0
    ensures Abs(InRupees(x, rate) - InRupees(y, rate)) == Abs(x - y) * rate
  {
    assert x * rate - y * rate == (x - y) * rate;
    assert y * rate - x * rate == (y - x) * rate;
    ScaleKeepsSign(x - y, rate);
    ScaleKeepsSign(y - x, rate);
  }

  lemma StopIsNeeded(q: Question)
    requires q.WellFormed() && Trades(q) && q.candidate.stopLoss.None? && Decide(q).Ok?
    ensures Decide(q).value.decision == REJECTED && Decide(q).value.rejectionReasons != []
  {
    hide Sized, Dedup, FxReasons, DrawdownReasons, SlotReasons, SizingReasons;
    var all := EarlyReasons(q) + SizingReasons(q, None);
    NothingCollected(EarlyReasons(q), SizingReasons(q, None));
  }

  // ---------- the reasons of a rejection ----------

  /** What the candidate, the rate and the account object to before any sizing. */
  ghost predicate ObjectsEarly(q: Question, x: string) {
    var c, p, cfg := q.candidate, q.portfolio, q.config;
    || (x == "usd_inr_fx_missing" && c.market == US && (q.fx.None? || q.fx.value.missing || q.fx.value.rate.None?))
    || (x == "usd_inr_fx_stale" && c.market == US && q.fx.Some? && !q.fx.value.missing && q.fx.value.rate.Some? &&
        !q.fx.value.isFresh)
    || (x == "stop_loss_required" && c.stopLoss.None?)
    || (x == "stop_loss_equals_entry_price" && c.stopLoss == Some(c.entryPrice))
    || (x == "daily_loss_limit_exceeded" && !LossWithin(p.dailyPnl, cfg.maxDailyLossPct, p.totalValue))
    || (x == "weekly_loss_limit_exceeded" && !LossWithin(p.weeklyPnl, cfg.maxWeeklyLossPct, p.totalValue))
    || (x == "monthly_drawdown_limit_exceeded" && p.monthlyDrawdownPct > cfg.maxMonthlyDrawdownPct)
    || (x == "total_drawdown_limit_exceeded" && p.totalDrawdownPct > cfg.maxTotalDrawdownPct)
    || (x == "reward_risk_ratio_below_minimum" && c.rewardRiskRatio < cfg.minRewardRisk)
    || (c.action == TradeAction.BUY && ObjectsToSlots(q, x))
  }

  ghost predicate ObjectsToSlots(q: Question, x: string) {
    var p, market := q.portfolio, q.candidate.market;
    || (x == "max_open_positions_total_exceeded" && |OpenPlaces(p.positions, {INDIA, US})| >= q.config.maxOpenTotal)
    || (x == "max_open_positions_india_exceeded" && market == INDIA &&
        |OpenPlaces(p.positions, {INDIA})| >= q.config.maxOpenIndia)
    || (x == "max_open_positions_us_exceeded" && market == US &&
        |OpenPlaces(p.positions, {US})| >= q.config.maxOpenUs)
  }

  /** What the sized order, if there is a stop to size it by, objects to. */
  ghost predicate ObjectsToSize(q: Question, x: string)
    requires q.WellFormed() && Trades(q) && (q.candidate.stopLoss.Some? ==> q.FxRate().Some?)
  {
    var c, p, cfg := q.candidate, q.portfolio, q.config;
    || (c.stopLoss.Some? &&
        var added := if c.action == TradeAction.BUY then SizeOrder(q, q.FxRate().value).capital else 0.0;
        || (x == "total_equity_exposure_limit_exceeded" &&
            p.equityExposure + added > p.totalValue * cfg.maxTotalExposurePct)
        || (x == "india_exposure_limit_exceeded" && c.market == INDIA &&
            p.indiaExposure + added > p.totalValue * cfg.maxIndiaExposurePct)
        || (x == "us_exposure_limit_exceeded" && c.market == US &&
            p.usExposure + added > p.totalValue * cfg.maxUsExposurePct)
        || (x == "sell_without_existing_long_position" && c.action == TradeAction.SELL &&
            HeldLong(c, p.positions) == 0)
        || (x == "position_size_zero" && c.stopLoss != Some(c.entryPrice) && !UnitFits(q, 1)))
    || (x == "cash_unavailable" && c.action == TradeAction.BUY && p.cash <= 0.0)
  }

  lemma IfExactly(condition: bool, reason: string, x: string)
    ensures x in If(condition, reason) <==> condition && x == reason
  {
  }

  lemma EarlyExactly(q: Question, x: string)
    requires q.WellFormed() && Trades(q)
    ensures x in EarlyReasons(q) <==> x in q.environment || x in q.quality || ObjectsEarly(q, x)
  {
    hide If, LossPct, LossWithin, OpenCount, OpenCountIn;
    var c, p, cfg := q.candidate, q.portfolio, q.config;
    LossWithinExactly(p.dailyPnl, cfg.maxDailyLossPct, p.totalValue);
    LossWithinExactly(p.weeklyPnl, cfg.maxWeeklyLossPct, p.totalValue);
    DrawdownExactly(q, x);
    SlotsExactly(q, x);
    StopExactly(q, x);
    FxExactly(q, x);
    IfExactly(c.rewardRiskRatio < cfg.minRewardRisk, "reward_risk_ratio_below_minimum", x);
    hide DrawdownReasons, SlotReasons, StopReasons, FxReasons, ObjectsToSlots;
  }

  lemma FxExactly(q: Question, x: string)
    ensures x in FxReasons(q.candidate.market, q.fx) <==>
              || (x == "usd_inr_fx_missing" && q.candidate.market == US &&
                  (q.fx.None? || q.fx.value.missing || q.fx.value.rate.None?))
              || (x == "usd_inr_fx_stale" && q.candidate.market == US && q.fx.Some? && !q.fx.value.missing &&
                  q.fx.value.rate.Some? && !q.fx.value.isFresh)
  {
  }

  lemma StopExactly(q: Question, x: string)
    requires Trades(q)
    ensures x in StopReasons(q.candidate) <==>
              || (x == "stop_loss_required" && q.candidate.stopLoss.None?)
              || (x == "stop_loss_equals_entry_price" && q.candidate.stopLoss == Some(q.candidate.entryPrice))
  {
  }

  lemma DrawdownExactly(q: Question, x: string)
    requires q.WellFormed()
    ensures var p, cfg := q.portfolio, q.config;
            x in DrawdownReasons(p, cfg) <==>
              || (x == "daily_loss_limit_exceeded" && LossPct(p.dailyPnl, p.totalValue) > cfg.maxDailyLossPct)
              || (x == "weekly_loss_limit_exceeded" && LossPct(p.weeklyPnl, p.totalValue) > cfg.maxWeeklyLossPct)
              || (x == "monthly_drawdown_limit_exceeded" && p.monthlyDrawdownPct > cfg.maxMonthlyDrawdownPct)
              || (x == "total_drawdown_limit_exceeded" && p.totalDrawdownPct > cfg.maxTotalDrawdownPct)
  {
    hide LossPct;
  }

  lemma SlotsExactly(q: Question, x: string)
    ensures x in SlotReasons(q.candidate, q.portfolio, q.config) <==>
              q.candidate.action == TradeAction.BUY && ObjectsToSlots(q, x)
  {
    SlotsArePlaces(q.portfolio, q.candidate.market);
    hide OpenCount, OpenCountIn, OpenPlaces;
  }

  lemma SizingExactly(q: Question, x: string)
    requires q.WellFormed() && Trades(q) && q.candidate.stopLoss.Some? && q.FxRate().Some?
    ensures x in SizingReasons(q, Some(SizeOrder(q, q.FxRate().value))) <==> ObjectsToSize(q, x)
  {
    hide Times, InRupees, HeldLong, Sized, Fits, SizeOrder, LongOnlyReasons, ExposureReasons, StopReasons, UnitFits;
    var c, p, sizing := q.candidate, q.portfolio, SizeOrder(q, q.FxRate().value);
    SizedToFit(q);
    UncoveredExactly(c, sizing.quantity, p.positions, x);
    ExposureExactly(c.market, p, q.config, Added(q, sizing.capital), x);
    StopGiven(q);
    IfExactly(c.action == TradeAction.BUY && p.cash <= 0.0, "cash_unavailable", x);
    IfExactly(sizing.quantity <= 0 && StopReasons(c) == [], "position_size_zero", x);
    hide If;
  }

  lemma StopGiven(q: Question)
    requires Trades(q) && q.candidate.stopLoss.Some?
    ensures StopReasons(q.candidate) == [] <==> q.candidate.stopLoss != Some(q.candidate.entryPrice)
  {
  }

  lemma SizedToFit(q: Question)
    requires q.WellFormed() && Trades(q) && q.candidate.stopLoss.Some? && q.FxRate().Some?
    ensures var n := SizeOrder(q, q.FxRate().value).quantity;
            && (n <= 0 <==> !UnitFits(q, 1))
            && (q.candidate.action == TradeAction.SELL ==> n <= HeldLong(q.candidate, q.portfolio.positions))
  {
    hide Times, InRupees, HeldLong, Sized, Fits;
    var c, p, rate := q.candidate, q.portfolio, q.FxRate().value;
    var price, stop := InRupees(c.entryPrice, rate), InRupees(c.stopLoss.value, rate);
    SizedIsGreatest(c, p, q.config, price, stop);
    CoveredSale(q, price, stop);
  }

  lemma UncoveredExactly(c: Candidate, quantity: int, positions: seq<OpenPosition>, x: string)
    requires c.action == TradeAction.SELL ==> quantity <= HeldLong(c, positions)
    ensures x in LongOnlyReasons(c, quantity, positions) <==>
              x == "sell_without_existing_long_position" && c.action == TradeAction.SELL && HeldLong(c, positions) == 0
  {
    hide HeldLong;
  }

  lemma ExposureExactly(market: Market, p: Portfolio, cfg: RiskConfig, added: real, x: string)
    ensures x in ExposureReasons(market, p, cfg, added) <==>
              || (x == "total_equity_exposure_limit_exceeded" &&
                  p.equityExposure + added > p.totalValue * cfg.maxTotalExposurePct)
              || (x == "india_exposure_limit_exceeded" && market == INDIA &&
                  p.indiaExposure + added > p.totalValue * cfg.maxIndiaExposurePct)
              || (x == "us_exposure_limit_exceeded" && market == US &&
                  p.usExposure + added > p.totalValue * cfg.maxUsExposurePct)
  {
  }

  lemma CoveredSale(q: Question, price: real, stop: real)
    requires price > 0.0
    ensures q.candidate.action == TradeAction.SELL ==>
              Sized(q.candidate, q.portfolio, q.config, price, stop) <= HeldLong(q.candidate, q.portfolio.positions)
  {
    hide CapQuantity, HeldLong;
  }

  /** A rejection gives a reason exactly when the environment, the data or the question itself has that objection. */
  lemma RejectionReasonsExactly(q: Question, x: string)
    requires q.WellFormed() && Trades(q) && Decide(q).Ok?
    ensures x in Decide(q).value.rejectionReasons <==>
              x in q.environment || x in q.quality || ObjectsEarly(q, x) || ObjectsToSize(q, x)
  {
    hide EarlyReasons, SizingReasons, SizeOrder, ObjectsEarly, ObjectsToSize, Dedup;
    EarlyExactly(q, x);
    if q.candidate.stopLoss.Some? {
      SizingExactly(q, x);
      ReasonsListed(EarlyReasons(q), SizingReasons(q, Some(SizeOrder(q, q.FxRate().value))), x);
    } else {
      UnsizedExactly(q, x);
      ReasonsListed(EarlyReasons(q), SizingReasons(q, None), x);
    }
  }

  lemma ReasonsListed(early: seq<string>, late: seq<string>, x: string)
    ensures x in Dedup(early + late) <==> x in early || x in late
  {
    DedupKeepsElements(early + late, x);
    hide Dedup;
  }

  lemma UnsizedExactly(q: Question, x: string)
    requires q.WellFormed() && Trades(q) && q.candidate.stopLoss.None?
    ensures x in SizingReasons(q, None) <==> ObjectsToSize(q, x)
  {
  }
}
