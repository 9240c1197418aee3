/** The pipeline's objects: the latched kill switch, the position book, and the loop over strategies. */
module IntradayPipeline {
  import opened Common
  import opened RiskSizing
  import opened Intraday
  import IntradayLaws
  import IntradayTrades

  class KillSwitchManager {
    const config: Settings
    var reasons: seq<string>

    constructor (config: Settings)
      ensures this.config == config && reasons == []
    {
      this.config := config;
      reasons := [];
    }

    predicate Triggered()
      reads this
    {
      reasons != []
    }

    method Evaluate(state: RiskState, quality: Option<Quality>, rejectedSignals: int, latencyMs: Option<real>)
      returns (triggered: bool)
      modifies this
      ensures reasons == KillReasons(config, old(reasons), state, quality, rejectedSignals, latencyMs)
      ensures Distinct(old(reasons)) ==> old(reasons) <= reasons && Distinct(reasons)
      ensures triggered == Triggered()
      ensures Distinct(old(reasons)) && old(Triggered()) ==> triggered
    {
      hide Dedup, Collected, Distinct;
      if Distinct(reasons) {
        IntradayLaws.SwitchLatches(config, reasons, state, quality, rejectedSignals, latencyMs);
      }
      var collected := Collect(state, quality, rejectedSignals, latencyMs);
      reasons := Dedup(collected);
      triggered := reasons != [];
    }

    method Collect(state: RiskState, quality: Option<Quality>, rejectedSignals: int, latencyMs: Option<real>)
      returns (collected: seq<string>)
      ensures collected == Collected(config, reasons, state, quality, rejectedSignals, latencyMs)
    {
      hide LossHit, QualityReasons;
      collected := reasons;
      if LossHit(state.dailyPnl, config.capital, config.maxDailyLossPct) {
        collected := collected + ["daily_loss_limit_hit"];
      }
      if LossHit(state.weeklyPnl, config.capital, config.maxWeeklyLossPct) {
        collected := collected + ["weekly_loss_limit_hit"];
      }
      if state.consecutiveLosses >= config.maxConsecutiveLosses {
        collected := collected + ["max_consecutive_losses_hit"];
      }
      if quality.Some? {
        collected := collected + QualityReasons(quality.value);
      }
      if rejectedSignals > 50 {
        collected := collected + ["too_many_rejected_signals"];
      }
      if latencyMs.Some? && latencyMs.value > 2000.0 {
        collected := collected + ["api_latency_too_high"];
      }
    }

    method Reset()
      modifies this
      ensures reasons == []
    {
      reasons := [];
    }
  }

  class SignalScoringEngine {
    const config: Settings

    constructor (config: Settings)
      ensures this.config == config
    {
      this.config := config;
    }

    method ScoreSignal(signal: Signal) returns (score: int, decision: SignalDecision)
      ensures score == Score(config, signal) && decision == DecisionFor(config, score)
    {
      hide Mentions, SpreadOk, StructureConfirmed, RegimeScore;
      score := RawScore(config, signal);
      if signal.regime == SIDEWAYS && !config.allowSideways {
        score := MinInt(score, config.watchScore - 1);
      }
      if signal.regime == HIGH_VOLATILITY || signal.regime == LOW_LIQUIDITY || signal.regime == NO_TRADING {
        score := MinInt(score, config.watchScore - 1);
      }
      if score >= config.minSignalScore {
        decision := VALID;
      } else if score >= config.watchScore {
        decision := WATCH_ONLY;
      } else {
        decision := SIGNAL_REJECTED;
      }
    }
  }

  class RiskManager {
    const config: Settings

    constructor (config: Settings)
      ensures this.config == config
    {
      this.config := config;
    }

    method ApproveSignal(signal: Signal, decision: SignalDecision, quality: Quality, state: RiskState, regime: Regime)
      returns (approval: Approval)
      ensures approval == Approve(config, signal, decision, quality, state, regime)
    {
      hide LossHit, Dedup, OpenCountOf, FloorDiv, Times, SignalReasons, StateReasons, RegimeReasons;
      var reasons := CheckSignal(signal, decision, quality);
      reasons := CheckState(reasons, state);
      reasons := CheckRegime(reasons, signal, regime);
      var stopDistance := signal.StopDistance();
      var allowedRisk := config.RiskBudget();
      var quantity := if stopDistance > 0.0 then FloorDiv(allowedRisk, stopDistance) else 0;
      if quantity <= 0 {
        reasons := reasons + ["quantity_zero"];
      }
      var deduped := Dedup(reasons);
      if deduped != [] {
        return Approval(false, 0, 0.0, deduped);
      }
      approval := Approval(true, quantity, Times(quantity, stopDistance), []);
    }

    method CheckSignal(signal: Signal, decision: SignalDecision, quality: Quality) returns (reasons: seq<string>)
      ensures reasons == SignalReasons(config, signal, decision, quality)
    {
      hide QualityReasons;
      reasons := [];
      if decision != VALID {
        reasons := reasons + [if decision == WATCH_ONLY then "signal_not_valid:WATCH_ONLY"
          else "signal_not_valid:REJECTED"];
      }
      reasons := reasons + QualityReasons(quality);
      if signal.stopLoss <= 0.0 {
        reasons := reasons + ["stop_loss_missing"];
      }
      if signal.StopDistance() <= 0.0 {
        reasons := reasons + ["stop_distance_invalid"];
      }
      if signal.riskRewardRatio < config.minRewardToRisk {
        reasons := reasons + ["reward_risk_below_threshold"];
      }
      if signal.spreadPct.Some? && signal.spreadPct.value > config.maxSpreadPct {
        reasons := reasons + ["spread_too_wide"];
      }
    }

    method CheckRegime(before: seq<string>, signal: Signal, regime: Regime) returns (reasons: seq<string>)
      ensures reasons == RegimeReasons(config, before, signal, regime)
    {
      reasons := before;
      if signal.direction == SHORT && !config.allowShorts {
        reasons := reasons + ["shorts_disabled"];
      }
      if regime != signal.regime {
        reasons := reasons + ["market_regime_changed"];
      }
      if signal.regime == SIDEWAYS && !config.allowSideways {
        reasons := reasons + ["sideways_regime_blocked"];
      }
      if signal.regime == HIGH_VOLATILITY && !config.allowHighVolatility {
        reasons := reasons + ["high_volatility_blocked"];
      }
    }

    method CheckState(before: seq<string>, state: RiskState) returns (reasons: seq<string>)
      ensures reasons == StateReasons(config, before, state)
    {
      hide LossHit;
      reasons := before;
      if LossHit(state.dailyPnl, config.capital, config.maxDailyLossPct) {
        reasons := reasons + ["daily_loss_limit_reached"];
      }
      if LossHit(state.weeklyPnl, config.capital, config.maxWeeklyLossPct) {
        reasons := reasons + ["weekly_loss_limit_reached"];
      }
      if state.tradesToday >= config.maxTradesPerDay {
        reasons := reasons + ["max_trades_per_day_reached"];
      }
      if state.consecutiveLosses >= config.maxConsecutiveLosses {
        reasons := reasons + ["max_consecutive_losses_reached"];
      }
      if OpenCountOf(state.openPositions) >= config.maxOpenPositions {
        reasons := reasons + ["max_open_positions_reached"];
      }
    }
  }

  /** The position book: ids are places in the list, in order of opening. */
  class VirtualPositionManager {
    const charges: Charges
    var positions: seq<Position>

    constructor (charges: Charges)
      ensures this.charges == charges && positions == []
    {
      this.charges := charges;
      positions := [];
    }

    method OpenPosition(signal: Signal, fill: Option<real>, quantity: int) returns (id: Option<nat>)
      modifies this
      ensures id == if fill.Some? && quantity > 0 then Some(|old(positions)|) else None
      ensures positions == if id.Some? then old(positions) + [NewPosition(signal, fill.value, quantity)]
              else old(positions)
    {
      if fill.None? || quantity <= 0 {
        return None;
      }
      positions := positions + [NewPosition(signal, fill.value, quantity)];
      id := Some(|positions| - 1);
    }

    method UpdateMark(id: nat, lastPrice: real) returns (r: Result<Position>)
      modifies this
      ensures r.Ok? <==> id < |old(positions)|
      ensures r.Ok? ==>
              r.value == Marked(old(positions)[id], lastPrice, charges) && positions == old(positions)[id := r.value]
      ensures r.Raised? ==> positions == old(positions)
    {
      if id >= |positions| {
        return Raised("KeyError");
      }
      hide Gross, Value;
      var p := positions[id];
      var gross := Gross(p, lastPrice);
      var buyValue, sellValue := Value(p.entryPrice, p.quantity), Value(lastPrice, p.quantity);
      if p.direction == SHORT {
        buyValue, sellValue := sellValue, buyValue;
      }
      var cost := charges(buyValue, sellValue);
      p := p.(currentPrice := lastPrice, grossPnl := gross, charges := cost, netPnl := gross - cost,
              maxFavorable := Max(p.maxFavorable, gross), maxAdverse := Min(p.maxAdverse, gross));
      positions := positions[id := p];
      r := Ok(p);
    }

    method ClosePosition(id: nat, exitPrice: real, reason: string) returns (r: Result<Position>)
      modifies this
      ensures r.Ok? <==> id < |old(positions)|
      ensures r.Ok? ==>
              r.value == ClosedAt(old(positions)[id], exitPrice, reason, charges) &&
                positions == old(positions)[id := r.value]
      ensures r.Ok? ==> !IS_OPEN(r.value)
      ensures r.Raised? ==> positions == old(positions)
    {
      if id >= |positions| {
        return Raised("KeyError");
      }
      hide Gross, Value;
      var p := positions[id];
      var gross := Gross(p, exitPrice);
      var buyValue, sellValue := Value(p.entryPrice, p.quantity), Value(exitPrice, p.quantity);
      if p.direction == SHORT {
        buyValue, sellValue := sellValue, buyValue;
      }
      var cost := charges(buyValue, sellValue);
      var status := EXITED;
      if reason == "STOP_LOSS" {
        status := STOPPED_OUT;
      } else if reason == "TARGET_HIT" {
        status := TARGET_HIT;
      } else if reason == "END_OF_DAY" {
        status := FORCE_CLOSED;
      } else if reason == "INVALIDATED" {
        status := INVALIDATED;
      }
      p := p.(currentPrice := exitPrice, grossPnl := gross, charges := cost, netPnl := gross - cost, status := status);
      positions := positions[id := p];
      r := Ok(p);
    }
  }

  class IntradayShadowPipeline {
    const config: Settings
    const scoring: SignalScoringEngine
    const risk: RiskManager
    const book: VirtualPositionManager
    const killSwitch: KillSwitchManager
    var journal: seq<Event>

    ghost predicate Valid()
      reads this
    {
      scoring.config == risk.config == killSwitch.config == config
    }

    ghost function Contents(): Pipe
      reads this, book, killSwitch
    {
      Pipe(killSwitch.reasons, book.positions, journal)
    }

    constructor (config: Settings, charges: Charges)
      ensures this.config == config && Valid() && Contents() == IntradayLaws.FRESH
      ensures fresh(book) && fresh(killSwitch)
    {
      this.config := config;
      scoring := new SignalScoringEngine(config);
      risk := new RiskManager(config);
      book := new VirtualPositionManager(charges);
      killSwitch := new KillSwitchManager(config);
      journal := [];
    }

    method ProcessSnapshot(snapshot: Snapshot, riskState: Option<RiskState>, reviews: Reviews)
      requires Valid()
      modifies this, book, killSwitch
      ensures Valid() && Contents() == old(Process(config, Contents(), snapshot, riskState, reviews))
      ensures var state := if riskState.Some? then riskState.value else RiskState(0.0, 0.0, 0, 0, old(book.positions));
              exists added ::
                IntradayTrades.SnapshotTaken(config, old(Contents()), snapshot, state, reviews, added, Contents())
    {
      hide KillReasons, Judge, IntradayTrades.SnapshotTaken;
      ghost var added := IntradayTrades.SnapshotsDecidedExactly(config, Contents(), snapshot, riskState, reviews);
      var state := riskState.GetOr(DefaultState(book.positions));
      var triggered := killSwitch.Evaluate(state, Some(snapshot.quality), 0, None);
      if triggered || !snapshot.universeAllowed {
        journal := journal + [DATA_OR_UNIVERSE_BLOCK];
        return;
      }
      var regimeReview := reviews.Of(reviews.regime);
      if regimeReview.block {
        journal := journal + [AGENTIC_REGIME_BLOCK];
        return;
      }
      ghost var killed := Contents();
      for k := 0 to |snapshot.signals|
        invariant Valid()
        invariant Contents() == RunStrategies(config, killed, snapshot, state, reviews, k)
      {
        var signal := snapshot.signals[k];
        if signal.Some? {
          JudgeSignal(snapshot, state, signal.value, reviews.Of(reviews.signal(k)), reviews.Of(reviews.risk(k)));
        }
      }
    }

    /** The score, cut by a review that asks for it, and the decision it then earns. */
    method DecideSignal(signal: Signal, review: Review) returns (decision: SignalDecision)
      requires Valid()
      ensures decision == DecisionFor(config, Reviewed(Score(config, signal), review))
    {
      hide Score, Scaled;
      var score: int;
      score, decision := scoring.ScoreSignal(signal);
      if review.multiplier < 1.0 {
        score := Scaled(score, review.multiplier);
        decision := DecisionFor(config, score);
      }
    }

    method JudgeSignal(snapshot: Snapshot, state: RiskState, signal: Signal, signalReview: Review, riskReview: Review)
      requires Valid()
      modifies this, book
      ensures Valid()
      ensures Contents() == Applied(old(Contents()), Judge(config, snapshot, state, signal, signalReview, riskReview))
    {
      hide Score, Approve, FillPrice, MovedTooFar, DecisionFor, Reviewed, NewPosition;
      var decision := DecideSignal(signal, signalReview);
      if signalReview.block || decision != VALID {
        journal := journal + [SIGNAL_REJECTED_EVENT];
        return;
      }
      var approval := risk.ApproveSignal(signal, decision, snapshot.quality, state, snapshot.regime);
      if !approval.approved || riskReview.block {
        journal := journal + [SIGNAL_REJECTED_EVENT];
        return;
      }
      journal := journal + [SIGNAL_ACCEPTED];
      var fill := None;
      if !MovedTooFar(config, signal, snapshot.lastPrice) {
        fill := Some(FillPrice(config, signal, snapshot));
      }
      var event := if fill.Some? then SHADOW_ORDER_FILLED else SHADOW_ORDER_REJECTED;
      journal := journal + [event];
      assert journal == old(journal) + [SIGNAL_ACCEPTED, event];
      IntradayLaws.ApprovedExactly(config, signal, decision, snapshot.quality, state, snapshot.regime);
      var id := book.OpenPosition(signal, fill, approval.quantity);
    }
  }
}
