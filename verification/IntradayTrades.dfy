/**
 What one snapshot does, in the terms of its signals, the agents' records and the limits: which strategies
 open a position, what that position is, what stops the others, and what a marked position is worth.
 */
module IntradayTrades {
  import opened Common
  import opened RiskSizing
  import opened Intraday
  import opened IntradayLaws

  // ---------- the score ----------

  function Unless(earned: bool, points: int): int {
    if earned then 0 else points
  }

  predicate InTrend(signal: Signal) {
    || (signal.direction == LONG && signal.regime in {STRONG_BULLISH, WEAK_BULLISH})
    || (signal.direction == SHORT && signal.regime in {STRONG_BEARISH, WEAK_BEARISH})
  }

  predicate Structured(signal: Signal) {
    exists code :: code in signal.reasonCodes &&
      code in ["higher_high_higher_low", "lower_high_lower_low", "opening_range_breakout", "opening_range_breakdown"]
  }

  /** The word is part of the text. */
  ghost predicate Contains(text: string, word: string) {
    exists before: string, rest: string :: text == before + word + rest
  }

  ghost predicate Names(reasons: seq<string>, word: string) {
    exists reason :: reason in reasons && Contains(reason, word)
  }

  lemma ContainsExactly(text: string, word: string)
    ensures Occurs(word, text) <==> Contains(text, word)
  {
    if Occurs(word, text) {
      var i :| 0 <= i <= |text| && word <= text[i..];
      var rest := text[i..][|word|..];
      assert text[i..] == word + rest;
      assert text == text[..i] + word + rest;
    }
    if Contains(text, word) {
      var before: string, rest: string :| text == before + word + rest;
      assert text[|before|..] == word + rest;
      assert word <= text[|before|..];
    }
  }

  lemma NamesExactly(reasons: seq<string>, word: string)
    ensures Mentions(reasons, word) <==> Names(reasons, word)
  {
    forall text ensures Occurs(word, text) <==> Contains(text, word) {
      ContainsExactly(text, word);
    }
    hide Occurs, Contains;
    if Names(reasons, word) {
      var reason :| reason in reasons && Contains(reason, word);
      var k :| 0 <= k < |reasons| && reasons[k] == reason;
      assert Occurs(word, reasons[k]);
    }
  }

  /** Full marks less what each missing component costs. */
  ghost function Marks(cfg: Settings, signal: Signal): int {
    100 - Unless(InTrend(signal), 25) - Unless(Names(signal.reasonCodes, "vwap"), 15)
    - Unless(Names(signal.regimeReasons, "sector"), 7) - Unless("volume_confirmation" in signal.reasonCodes, 15)
    - Unless(Structured(signal), 15) - Unless(signal.riskRewardRatio >= cfg.minRewardToRisk, 10)
    - Unless(signal.spreadPct.None? || signal.spreadPct.value <= 0.003, 5)
  }

  predicate Capped(cfg: Settings, regime: Regime) {
    (regime == SIDEWAYS && !cfg.allowSideways) || regime in {HIGH_VOLATILITY, LOW_LIQUIDITY, NO_TRADING}
  }

  /** A signal scores its marks, held below the watch score in a regime that is not to be traded. */
  lemma ScoreIsMarks(cfg: Settings, signal: Signal)
    ensures RawScore(cfg, signal) == Marks(cfg, signal)
    ensures Score(cfg, signal) ==
            if Capped(cfg, signal.regime) && Marks(cfg, signal) >= cfg.watchScore then cfg.watchScore - 1
            else Marks(cfg, signal)
  {
    NamesExactly(signal.reasonCodes, "vwap");
    NamesExactly(signal.regimeReasons, "sector");
    hide Mentions, Names;
    assert Structured(signal) <==> StructureConfirmed(signal) by {
      StructuredExactly(signal);
    }
  }

  lemma StructuredExactly(signal: Signal)
    ensures Structured(signal) <==> StructureConfirmed(signal)
  {
    var codes := ["higher_high_higher_low", "lower_high_lower_low", "opening_range_breakout",
      "opening_range_breakdown"];
    assert codes[0] in codes && codes[1] in codes && codes[2] in codes && codes[3] in codes;
  }

  /** Four fifths of a score, cut toward zero. */
  function FourFifths(score: int): int {
    if score >= 0 then score * 4 / 5 else -(-score * 4 / 5)
  }

  lemma ScaledIsFourFifths(score: int)
    ensures Scaled(score, 0.8) == FourFifths(score)
  {
  }

  // ---------- the agents ----------

  /** An agent stops what it reviewed: its record is invalid, says BLOCK, or is of high severity. */
  predicate Refuses(record: Record) {
    !record.valid || record.blocked || record.severity == HIGH
  }

  /** An agent cuts the score of what it reviewed. */
  predicate Cautions(record: Record) {
    record.valid && record.severity == MEDIUM
  }

  lemma ReviewsAreRecords(reviews: Reviews, record: Record)
    ensures reviews.Of(record).block <==> reviews.enabled && Refuses(record)
    ensures reviews.Of(record).multiplier == if reviews.enabled && Cautions(record) then 0.8 else 1.0
  {
  }

  /** The score a decision is taken on. */
  function ReviewedMarks(cfg: Settings, signal: Signal, cautioned: bool): int {
    if cautioned then FourFifths(Score(cfg, signal)) else Score(cfg, signal)
  }

  // ---------- which strategies open a position ----------

  ghost predicate Affords(cfg: Settings, signal: Signal, n: int) {
    && signal.entryPrice != signal.stopLoss
    && Times(n, Abs(signal.entryPrice - signal.stopLoss)) <= cfg.capital * cfg.riskPerTradePct
  }

  /** The last price is still within the allowed distance of the signal's price. */
  predicate StillThere(cfg: Settings, signal: Signal, lastPrice: real) {
    Abs(lastPrice - signal.entryPrice) <= cfg.maxEntryMovePct * signal.entryPrice
  }

  /** Everything a signal must pass to be accepted, but for the agents and the score. */
  ghost predicate Passes(cfg: Settings, snapshot: Snapshot, state: RiskState, signal: Signal) {
    WithinLimits(cfg, signal, snapshot.quality, state, snapshot.regime) && Affords(cfg, signal, 1)
  }

  ghost predicate Accepts(cfg: Settings, snapshot: Snapshot, state: RiskState, reviews: Reviews, k: nat)
    requires k < |snapshot.signals|
  {
    snapshot.signals[k].Some? &&
    var signal := snapshot.signals[k].value;
    && !(reviews.enabled && (Refuses(reviews.signal(k)) || Refuses(reviews.risk(k))))
    && ReviewedMarks(cfg, signal, reviews.enabled && Cautions(reviews.signal(k))) >= cfg.minSignalScore
    && Passes(cfg, snapshot, state, signal)
  }

  /** An accepted signal is filled unless the price has moved away. */
  ghost predicate Opens(cfg: Settings, snapshot: Snapshot, state: RiskState, reviews: Reviews, k: nat)
    requires k < |snapshot.signals|
  {
    Accepts(cfg, snapshot, state, reviews, k) && StillThere(cfg, snapshot.signals[k].value, snapshot.lastPrice)
  }

  /** What the journal hears of one strategy. */
  ghost function Heard(cfg: Settings, snapshot: Snapshot, state: RiskState, reviews: Reviews, k: nat): seq<Event>
    requires k < |snapshot.signals|
  {
    if snapshot.signals[k].None? then []
    else if !Accepts(cfg, snapshot, state, reviews, k) then [SIGNAL_REJECTED_EVENT]
    else [SIGNAL_ACCEPTED,
          if Opens(cfg, snapshot, state, reviews, k) then SHADOW_ORDER_FILLED else SHADOW_ORDER_REJECTED]
  }

  /** Half the spread, as the snapshot quotes it; a missing or zero quote stands for the signal's price. */
  function HalfSpread(signal: Signal, snapshot: Snapshot): real {
    var ask := if snapshot.ask.Some? && snapshot.ask.value != 0.0 then snapshot.ask.value else signal.entryPrice;
    var bid := if snapshot.bid.Some? && snapshot.bid.value != 0.0 then snapshot.bid.value else signal.entryPrice;
    if ask > bid then (ask - bid) / 2.0 else 0.0
  }

  /** The position a signal opens: the largest the risk budget affords, filled at the price and what the fill costs. */
  ghost predicate OpenedFor(cfg: Settings, snapshot: Snapshot, signal: Signal, p: Position) {
    var lost := signal.entryPrice * cfg.slippageBps / 10000.0 + HalfSpread(signal, snapshot);
    && p.direction == signal.direction && p.stopLoss == signal.stopLoss && p.targetPrice == signal.targetPrice
    && p.entryPrice == p.currentPrice == (if signal.direction == LONG then signal.entryPrice + lost
      else signal.entryPrice - lost)
    && p.quantity >= 1 && (forall n: int :: n >= 1 ==> (n <= p.quantity <==> Affords(cfg, signal, n)))
    && p.riskAmount == Times(p.quantity, Abs(p.entryPrice - p.stopLoss)) && p.status == OPEN
    && p.grossPnl == p.charges == p.netPnl == p.maxFavorable == p.maxAdverse == 0.0
  }

  lemma MovedExactly(cfg: Settings, signal: Signal, lastPrice: real)
    ensures MovedTooFar(cfg, signal, lastPrice) <==> !StillThere(cfg, signal, lastPrice)
  {
    var moved := Abs(lastPrice - signal.entryPrice);
    ScaleKeepsOrder(moved / signal.entryPrice, cfg.maxEntryMovePct, signal.entryPrice);
    assert moved / signal.entryPrice * signal.entryPrice == moved;
  }

  lemma AffordsExactly(cfg: Settings, signal: Signal, n: int)
    ensures Affords(cfg, signal, n) <==> RiskFits(cfg, signal, n)
  {
    hide Times;
  }

  lemma FillIsOpened(cfg: Settings, snapshot: Snapshot, signal: Signal, quantity: int)
    requires quantity >= 1 && forall n: int :: n >= 1 ==> (n <= quantity <==> RiskFits(cfg, signal, n))
    ensures OpenedFor(cfg, snapshot, signal, NewPosition(signal, FillPrice(cfg, signal, snapshot), quantity))
  {
    hide Times, RiskFits, Affords;
    forall n: int | n >= 1 ensures n <= quantity <==> Affords(cfg, signal, n) {
      AffordsExactly(cfg, signal, n);
    }
  }

  lemma JudgedExactly(cfg: Settings, snapshot: Snapshot, state: RiskState, signal: Signal, signalReview: Review,
                      riskReview: Review)
    ensures var o := Judge(cfg, snapshot, state, signal, signalReview, riskReview);
            var accepted :=
              && !signalReview.block && !riskReview.block
              && Reviewed(Score(cfg, signal), signalReview) >= cfg.minSignalScore &&
                   Passes(cfg, snapshot, state, signal);
            var filled := accepted && StillThere(cfg, signal, snapshot.lastPrice);
            && (o.position.Some? <==> filled)
            && (filled ==> OpenedFor(cfg, snapshot, signal, o.position.value))
            && o.events ==
                 if !accepted then [SIGNAL_REJECTED_EVENT]
                 else [SIGNAL_ACCEPTED, if filled then SHADOW_ORDER_FILLED else SHADOW_ORDER_REJECTED]
  {
    hide Score, Approve, MovedTooFar, StillThere, WithinLimits, Reviewed, OpenedFor, FillPrice, NewPosition, Affords,
      RiskFits;
    var decision := DecisionFor(cfg, Reviewed(Score(cfg, signal), signalReview));
    ApprovedExactly(cfg, signal, decision, snapshot.quality, state, snapshot.regime);
    MovedExactly(cfg, signal, snapshot.lastPrice);
    AffordsExactly(cfg, signal, 1);
    var approval := Approve(cfg, signal, decision, snapshot.quality, state, snapshot.regime);
    if approval.approved {
      FillIsOpened(cfg, snapshot, signal, approval.quantity);
    }
  }

  /** A strategy opens a position exactly when no agent stops it, its score is high enough, and it passes every gate. */
  lemma StrategyOpensExactly(cfg: Settings, snapshot: Snapshot, state: RiskState, reviews: Reviews, k: nat)
    requires k < |snapshot.signals|
    ensures var o := JudgeAt(cfg, snapshot, state, reviews, k);
            && (o.position.Some? <==> Opens(cfg, snapshot, state, reviews, k))
            && (o.position.Some? ==> OpenedFor(cfg, snapshot, snapshot.signals[k].value, o.position.value))
            && o.events == Heard(cfg, snapshot, state, reviews, k)
  {
    hide StillThere, Score, Judge, Passes, OpenedFor, Scaled, FourFifths, Refuses, Cautions;
    if snapshot.signals[k].Some? {
      var signal := snapshot.signals[k].value;
      ReviewsAreRecords(reviews, reviews.signal(k));
      ReviewsAreRecords(reviews, reviews.risk(k));
      ScaledIsFourFifths(Score(cfg, signal));
      JudgedExactly(cfg, snapshot, state, signal, reviews.Of(reviews.signal(k)), reviews.Of(reviews.risk(k)));
    }
  }

  /**
   With review enabled: a refused regime opens nothing, a refused signal or risk opens nothing for its strategy,
   and a strategy neither refused nor cautioned opens exactly when it would with review disabled.
   */
  lemma ReviewDecidesExactly(cfg: Settings, snapshot: Snapshot, state: RiskState, reviews: Reviews)
    requires reviews.enabled
    ensures var on := Openers(cfg, snapshot, state, reviews);
            var off := Openers(cfg, snapshot, state, reviews.(enabled := false));
            && (Refuses(reviews.regime) ==> on == {})
            && (!Refuses(reviews.regime) ==>
                 forall k: nat :: k < |snapshot.signals| ==>
                   && (Refuses(reviews.signal(k)) || Refuses(reviews.risk(k)) ==> k !in on)
                   && (!Refuses(reviews.signal(k)) && !Refuses(reviews.risk(k)) && !Cautions(reviews.signal(k)) ==>
                        (k in on <==> k in off)))
  {
    hide JudgeAt, Passes, OpenedFor, Score, FourFifths;
    ReviewsAreRecords(reviews, reviews.regime);
    forall k: nat | k < |snapshot.signals|
      ensures JudgeAt(cfg, snapshot, state, reviews, k).position.Some? <==> Opens(cfg, snapshot, state, reviews, k)
      ensures JudgeAt(cfg, snapshot, state, reviews.(enabled := false), k).position.Some? <==>
                Opens(cfg, snapshot, state, reviews.(enabled := false), k)
    {
      StrategyOpensExactly(cfg, snapshot, state, reviews, k);
      StrategyOpensExactly(cfg, snapshot, state, reviews.(enabled := false), k);
    }
  }

  // ---------- one snapshot ----------

  /** The positions the first n strategies added, in the strategies' order: one for each that opens. */
  ghost predicate AddedBy(cfg: Settings, snapshot: Snapshot, state: RiskState, reviews: Reviews, n: nat,
                          added: seq<Position>)
    requires n <= |snapshot.signals|
  {
    if n == 0 then added == []
    else if !Opens(cfg, snapshot, state, reviews, n - 1) then AddedBy(cfg, snapshot, state, reviews, n - 1, added)
    else
      && added != [] && OpenedFor(cfg, snapshot, snapshot.signals[n - 1].value, added[|added| - 1])
      && AddedBy(cfg, snapshot, state, reviews, n - 1, added[..|added| - 1])
  }

  ghost function HeardOf(cfg: Settings, snapshot: Snapshot, state: RiskState, reviews: Reviews, n: nat): seq<Event>
    requires n <= |snapshot.signals|
  {
    if n == 0 then []
    else HeardOf(cfg, snapshot, state, reviews, n - 1) + Heard(cfg, snapshot, state, reviews, n - 1)
  }

  lemma {:induction false} StrategiesAddInOrder(cfg: Settings, pipe: Pipe, snapshot: Snapshot, state: RiskState,
                                                reviews: Reviews, n: nat) returns (added: seq<Position>)
    requires n <= |snapshot.signals|
    ensures var r := RunStrategies(cfg, pipe, snapshot, state, reviews, n);
            && r.positions == pipe.positions + added && AddedBy(cfg, snapshot, state, reviews, n, added)
            && r.journal == pipe.journal + HeardOf(cfg, snapshot, state, reviews, n)
            && r.killReasons == pipe.killReasons
  {
    hide JudgeAt, Opens, OpenedFor, Heard;
    added := [];
    if n != 0 {
      added := StrategiesAddInOrder(cfg, pipe, snapshot, state, reviews, n - 1);
      StrategyOpensExactly(cfg, snapshot, state, reviews, n - 1);
      var o := JudgeAt(cfg, snapshot, state, reviews, n - 1);
      if o.position.Some? {
        var before := added;
        added := before + [o.position.value];
        assert added[..|added| - 1] == before;
      }
    }
  }

  /** What a snapshot leaves behind, but for the kill switch's own reasons. */
  ghost predicate SnapshotTaken(cfg: Settings, pipe: Pipe, snapshot: Snapshot, state: RiskState, reviews: Reviews,
                                added: seq<Position>, r: Pipe) {
    && r.positions == pipe.positions + added
    && if r.killReasons != [] || !snapshot.universeAllowed then
         added == [] && r.journal == pipe.journal + [DATA_OR_UNIVERSE_BLOCK]
       else if reviews.enabled && Refuses(reviews.regime) then
         added == [] && r.journal == pipe.journal + [AGENTIC_REGIME_BLOCK]
       else
         && AddedBy(cfg, snapshot, state, reviews, |snapshot.signals|, added)
         && r.journal == pipe.journal + HeardOf(cfg, snapshot, state, reviews, |snapshot.signals|)
  }

  /**
   A snapshot adds one position for each strategy that opens, in order, unless the kill switch, the universe
   or the regime review stops it; without a risk state of its own it is judged against the open positions alone.
   */
  lemma SnapshotsDecidedExactly(cfg: Settings, pipe: Pipe, snapshot: Snapshot, riskState: Option<RiskState>,
                                reviews: Reviews) returns (added: seq<Position>)
    ensures var state := if riskState.Some? then riskState.value else RiskState(0.0, 0.0, 0, 0, pipe.positions);
            var r := Process(cfg, pipe, snapshot, riskState, reviews);
            && SnapshotTaken(cfg, pipe, snapshot, state, reviews, added, r)
            && r.killReasons == KillReasons(cfg, pipe.killReasons, state, Some(snapshot.quality), 0, None)
  {
    hide KillReasons, RunStrategies, AddedBy, HeardOf;
    var state := StateFor(pipe, riskState);
    var killed := pipe.(killReasons := KillReasons(cfg, pipe.killReasons, state, Some(snapshot.quality), 0, None));
    ReviewsAreRecords(reviews, reviews.regime);
    added := StrategiesAddInOrder(cfg, killed, snapshot, state, reviews, |snapshot.signals|);
    if killed.killReasons != [] || !snapshot.universeAllowed || (reviews.enabled && Refuses(reviews.regime)) {
      added := [];
    }
    assert pipe.positions + [] == pipe.positions;
  }

  /** Which reasons one evaluation of the kill switch leaves: the old ones, and each one whose limit is hit. */
  lemma TripReasonsExactly(cfg: Settings, before: seq<string>, state: RiskState, quality: Option<Quality>,
                           rejectedSignals: int, latencyMs: Option<real>, reason: string)
    ensures reason in KillReasons(cfg, before, state, quality, rejectedSignals, latencyMs) <==>
              || reason in before
              || (reason == "daily_loss_limit_hit" && state.dailyPnl <= -(cfg.capital * cfg.maxDailyLossPct))
              || (reason == "weekly_loss_limit_hit" && state.weeklyPnl <= -(cfg.capital * cfg.maxWeeklyLossPct))
              || (reason == "max_consecutive_losses_hit" && state.consecutiveLosses >= cfg.maxConsecutiveLosses)
              || (quality.Some? && !quality.value.ok &&
                  exists q :: q in quality.value.reasons && reason == "data_quality:" + q)
              || (reason == "too_many_rejected_signals" && rejectedSignals > 50)
              || (reason == "api_latency_too_high" && latencyMs.Some? && latencyMs.value > 2000.0)
  {
    DedupKeepsElements(Collected(cfg, before, state, quality, rejectedSignals, latencyMs), reason);
    CollectedExactly(cfg, before, state, quality, rejectedSignals, latencyMs, reason);
    hide Dedup, Collected;
    LossHitExactly(state.dailyPnl, cfg.capital, cfg.maxDailyLossPct);
    LossHitExactly(state.weeklyPnl, cfg.capital, cfg.maxWeeklyLossPct);
    hide LossHit;
    if quality.Some? && !quality.value.ok {
      PrefixedExactly("data_quality:", quality.value.reasons, reason);
    }
  }

  lemma LossHitExactly(pnl: real, capital: real, pct: real)
    ensures LossHit(pnl, capital, pct) <==> pnl <= -(capital * pct)
  {
  }

  lemma NotedExactly(reasons: seq<string>, condition: bool, reason: string, x: string)
    ensures x in Noted(reasons, condition, reason) <==> x in reasons || (condition && x == reason)
  {
  }

  lemma CollectedExactly(cfg: Settings, before: seq<string>, state: RiskState, quality: Option<Quality>,
                         rejectedSignals: int, latencyMs: Option<real>, x: string)
    ensures x in Collected(cfg, before, state, quality, rejectedSignals, latencyMs) <==>
              || x in before
              || (x == "daily_loss_limit_hit" && LossHit(state.dailyPnl, cfg.capital, cfg.maxDailyLossPct))
              || (x == "weekly_loss_limit_hit" && LossHit(state.weeklyPnl, cfg.capital, cfg.maxWeeklyLossPct))
              || (x == "max_consecutive_losses_hit" && state.consecutiveLosses >= cfg.maxConsecutiveLosses)
              || (quality.Some? && !quality.value.ok && x in Prefixed("data_quality:", quality.value.reasons))
              || (x == "too_many_rejected_signals" && rejectedSignals > 50)
              || (x == "api_latency_too_high" && latencyMs.Some? && latencyMs.value > 2000.0)
  {
    hide LossHit, Noted, Prefixed;
    var daily := Noted(before, LossHit(state.dailyPnl, cfg.capital, cfg.maxDailyLossPct), "daily_loss_limit_hit");
    var weekly := Noted(daily, LossHit(state.weeklyPnl, cfg.capital, cfg.maxWeeklyLossPct), "weekly_loss_limit_hit");
    var losses := Noted(weekly, state.consecutiveLosses >= cfg.maxConsecutiveLosses, "max_consecutive_losses_hit");
    var data := if quality.None? then losses else losses + QualityReasons(quality.value);
    var rejected := Noted(data, rejectedSignals > 50, "too_many_rejected_signals");
    NotedExactly(before, LossHit(state.dailyPnl, cfg.capital, cfg.maxDailyLossPct), "daily_loss_limit_hit", x);
    NotedExactly(daily, LossHit(state.weeklyPnl, cfg.capital, cfg.maxWeeklyLossPct), "weekly_loss_limit_hit", x);
    NotedExactly(weekly, state.consecutiveLosses >= cfg.maxConsecutiveLosses, "max_consecutive_losses_hit", x);
    NotedExactly(data, rejectedSignals > 50, "too_many_rejected_signals", x);
    NotedExactly(rejected, latencyMs.Some? && latencyMs.value > 2000.0, "api_latency_too_high", x);
  }

  lemma PrefixedExactly(prefix: string, reasons: seq<string>, reason: string)
    ensures reason in Prefixed(prefix, reasons) <==> exists q :: q in reasons && reason == prefix + q
  {
    var all := Prefixed(prefix, reasons);
    assert forall k :: 0 <= k < |reasons| ==> all[k] == prefix + reasons[k];
  }

  // ---------- why the risk gate refuses ----------

  ghost predicate SignalObjects(cfg: Settings, signal: Signal, decision: SignalDecision, quality: Quality, x: string) {
    || (x == "signal_not_valid:WATCH_ONLY" && decision == WATCH_ONLY)
    || (x == "signal_not_valid:REJECTED" && decision == SIGNAL_REJECTED)
    || (!quality.ok && exists q :: q in quality.reasons && x == "data_quality:" + q)
    || (x == "stop_loss_missing" && signal.stopLoss <= 0.0)
    || (x == "stop_distance_invalid" && signal.stopLoss == signal.entryPrice)
    || (x == "reward_risk_below_threshold" && signal.riskRewardRatio < cfg.minRewardToRisk)
    || (x == "spread_too_wide" && signal.spreadPct.Some? && signal.spreadPct.value > cfg.maxSpreadPct)
  }

  ghost predicate StateObjects(cfg: Settings, state: RiskState, x: string) {
    || (x == "daily_loss_limit_reached" && state.dailyPnl <= -(cfg.capital * cfg.maxDailyLossPct))
    || (x == "weekly_loss_limit_reached" && state.weeklyPnl <= -(cfg.capital * cfg.maxWeeklyLossPct))
    || (x == "max_trades_per_day_reached" && state.tradesToday >= cfg.maxTradesPerDay)
    || (x == "max_consecutive_losses_reached" && state.consecutiveLosses >= cfg.maxConsecutiveLosses)
    || (x == "max_open_positions_reached" && |OpenAt(state.openPositions)| >= cfg.maxOpenPositions)
  }

  ghost predicate RegimeObjects(cfg: Settings, signal: Signal, regime: Regime, x: string) {
    || (x == "shorts_disabled" && signal.direction == SHORT && !cfg.allowShorts)
    || (x == "market_regime_changed" && regime != signal.regime)
    || (x == "sideways_regime_blocked" && signal.regime == SIDEWAYS && !cfg.allowSideways)
    || (x == "high_volatility_blocked" && signal.regime == HIGH_VOLATILITY && !cfg.allowHighVolatility)
  }

  function OpenAt(positions: seq<Position>): set<nat> {
    set k: nat | k < |positions| && positions[k].status == OPEN
  }

  lemma {:induction false} OpenCountIsPlaces(positions: seq<Position>)
    ensures OpenCountOf(positions) == |OpenAt(positions)|
  {
    if positions != [] {
      var n := |positions| - 1;
      OpenCountIsPlaces(positions[..n]);
      assert OpenAt(positions) == OpenAt(positions[..n]) + if positions[n].status == OPEN then {n} else {};
    }
  }

  lemma SignalObjectsExactly(cfg: Settings, signal: Signal, decision: SignalDecision, quality: Quality, x: string)
    ensures x in SignalReasons(cfg, signal, decision, quality) <==> SignalObjects(cfg, signal, decision, quality, x)
  {
    if !quality.ok {
      PrefixedExactly("data_quality:", quality.reasons, x);
    }
    hide Prefixed, Noted;
    var verdict := Noted([], decision != VALID, if decision == WATCH_ONLY then "signal_not_valid:WATCH_ONLY"
      else "signal_not_valid:REJECTED");
    var data := verdict + QualityReasons(quality);
    var stop := Noted(data, signal.stopLoss <= 0.0, "stop_loss_missing");
    var distance := Noted(stop, signal.StopDistance() <= 0.0, "stop_distance_invalid");
    var reward := Noted(distance, signal.riskRewardRatio < cfg.minRewardToRisk, "reward_risk_below_threshold");
    NotedExactly([], decision != VALID, if decision == WATCH_ONLY then "signal_not_valid:WATCH_ONLY"
      else "signal_not_valid:REJECTED", x);
    NotedExactly(data, signal.stopLoss <= 0.0, "stop_loss_missing", x);
    NotedExactly(stop, signal.StopDistance() <= 0.0, "stop_distance_invalid", x);
    NotedExactly(distance, signal.riskRewardRatio < cfg.minRewardToRisk, "reward_risk_below_threshold", x);
    NotedExactly(reward, signal.spreadPct.Some? && signal.spreadPct.value > cfg.maxSpreadPct, "spread_too_wide", x);
  }

  lemma StateObjectsExactly(cfg: Settings, before: seq<string>, state: RiskState, x: string)
    ensures x in StateReasons(cfg, before, state) <==> x in before || StateObjects(cfg, state, x)
  {
    OpenCountIsPlaces(state.openPositions);
    LossHitExactly(state.dailyPnl, cfg.capital, cfg.maxDailyLossPct);
    LossHitExactly(state.weeklyPnl, cfg.capital, cfg.maxWeeklyLossPct);
    hide LossHit, OpenCountOf, OpenAt, Noted;
    var daily := Noted(before, LossHit(state.dailyPnl, cfg.capital, cfg.maxDailyLossPct), "daily_loss_limit_reached");
    var weekly := Noted(daily, LossHit(state.weeklyPnl, cfg.capital, cfg.maxWeeklyLossPct),
      "weekly_loss_limit_reached");
    var trades := Noted(weekly, state.tradesToday >= cfg.maxTradesPerDay, "max_trades_per_day_reached");
    var losses := Noted(trades, state.consecutiveLosses >= cfg.maxConsecutiveLosses, "max_consecutive_losses_reached");
    NotedExactly(before, LossHit(state.dailyPnl, cfg.capital, cfg.maxDailyLossPct), "daily_loss_limit_reached", x);
    NotedExactly(daily, LossHit(state.weeklyPnl, cfg.capital, cfg.maxWeeklyLossPct), "weekly_loss_limit_reached", x);
    NotedExactly(weekly, state.tradesToday >= cfg.maxTradesPerDay, "max_trades_per_day_reached", x);
    NotedExactly(trades, state.consecutiveLosses >= cfg.maxConsecutiveLosses, "max_consecutive_losses_reached", x);
    NotedExactly(losses, OpenCountOf(state.openPositions) >= cfg.maxOpenPositions, "max_open_positions_reached", x);
  }

  lemma RegimeObjectsExactly(cfg: Settings, before: seq<string>, signal: Signal, regime: Regime, x: string)
    ensures x in RegimeReasons(cfg, before, signal, regime) <==> x in before || RegimeObjects(cfg, signal, regime, x)
  {
  }

  /** The gate gives a reason exactly when signal, data, state, regime or size has that objection. */
  lemma RefusalReasonsExactly(cfg: Settings, signal: Signal, decision: SignalDecision, quality: Quality,
                              state: RiskState, regime: Regime, x: string)
    ensures x in Approve(cfg, signal, decision, quality, state, regime).reasons <==>
              || SignalObjects(cfg, signal, decision, quality, x) || StateObjects(cfg, state, x)
              || RegimeObjects(cfg, signal, regime, x) || (x == "quantity_zero" && !Affords(cfg, signal, 1))
  {
    hide OpenCountOf, LossHit, QuantityFor, RiskFits, Times, SignalReasons, StateReasons, RegimeReasons, Dedup,
      SignalObjects, StateObjects, RegimeObjects, Affords;
    QuantityIsGreatest(cfg, signal);
    AffordsExactly(cfg, signal, 1);
    var signalled := SignalReasons(cfg, signal, decision, quality);
    var stated := StateReasons(cfg, signalled, state);
    var checked := RegimeReasons(cfg, stated, signal, regime);
    SignalObjectsExactly(cfg, signal, decision, quality, x);
    StateObjectsExactly(cfg, signalled, state, x);
    RegimeObjectsExactly(cfg, stated, signal, regime, x);
    NotedExactly(checked, QuantityFor(cfg, signal) <= 0, "quantity_zero", x);
    DedupKeepsElements(Noted(checked, QuantityFor(cfg, signal) <= 0, "quantity_zero"), x);
  }

  // ---------- open positions ----------

  /** What a position gains at a price: units times the move in its own direction, and the charges of its two legs. */
  ghost predicate WorthAt(p: Position, price: real, charges: Charges, r: Position) {
    var entryValue, exitValue := Value(p.entryPrice, p.quantity), Value(price, p.quantity);
    && r.currentPrice == price
    && (p.direction == LONG ==> r.grossPnl == exitValue - entryValue && r.charges == charges(entryValue, exitValue))
    && (p.direction == SHORT ==> r.grossPnl == entryValue - exitValue && r.charges == charges(exitValue, entryValue))
    && r.netPnl == r.grossPnl - r.charges
  }

  predicate SameEntry(p: Position, r: Position) {
    && r.direction == p.direction && r.entryPrice == p.entryPrice && r.quantity == p.quantity
    && r.stopLoss == p.stopLoss && r.targetPrice == p.targetPrice && r.riskAmount == p.riskAmount
  }

  /** A value is price times units, so the difference of two is the move times the units. */
  lemma ValuesAreProducts(x: real, y: real, quantity: int)
    ensures Value(x, quantity) == x * quantity as real
    ensures (x - y) * quantity as real == Value(x, quantity) - Value(y, quantity)
  {
  }

  /** A mark gives the position its worth at the price and widens its excursions to it; nothing else changes. */
  lemma MarksAreWorth(p: Position, price: real, charges: Charges)
    ensures var r := Marked(p, price, charges);
            && WorthAt(p, price, charges, r) && SameEntry(p, r) && r.status == p.status
            && r.maxFavorable == (if r.grossPnl > p.maxFavorable then r.grossPnl else p.maxFavorable)
            && r.maxAdverse == (if r.grossPnl < p.maxAdverse then r.grossPnl else p.maxAdverse)
  {
    ValuesAreProducts(price, p.entryPrice, p.quantity);
    ValuesAreProducts(p.entryPrice, price, p.quantity);
    hide Value;
  }

  const CLOSING_REASONS := map["STOP_LOSS" := STOPPED_OUT, "TARGET_HIT" := PositionStatus.TARGET_HIT,
                               "END_OF_DAY" := FORCE_CLOSED, "INVALIDATED" := PositionStatus.INVALIDATED]

  /** Closing books the worth at the exit price, under the status of its reason; the excursions stay as marked. */
  lemma ClosesAreWorth(p: Position, price: real, reason: string, charges: Charges)
    ensures var r := ClosedAt(p, price, reason, charges);
            && WorthAt(p, price, charges, r) && SameEntry(p, r)
            && r.status == (if reason in CLOSING_REASONS then CLOSING_REASONS[reason] else EXITED)
            && r.maxFavorable == p.maxFavorable && r.maxAdverse == p.maxAdverse
  {
    MarksAreWorth(p, price, charges);
    hide Marked;
  }
}
