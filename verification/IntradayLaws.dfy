/**
 What every run of the intraday pipeline keeps: reviews only remove trades, a tripped kill switch stays
 tripped, and how many positions can be open at once.
 */
module IntradayLaws {
  import opened Common
  import opened RiskSizing
  import opened Intraday

  // ---------- the multiplier ----------

  function Rank(d: SignalDecision): int {
    match d
    case SIGNAL_REJECTED => 0
    case WATCH_ONLY => 1
    case VALID => 2
  }

  lemma TruncatedBounds(score: int)
    ensures score >= 0 ==> 0 <= Scaled(score, 0.8) <= score
    ensures score < 0 ==> score < Scaled(score, 0.8) <= 0
  {
  }

  lemma ScoreBounds(cfg: Settings, signal: Signal)
    ensures Score(cfg, signal) >= 0 || (Score(cfg, signal) == cfg.watchScore - 1 && Untradable(cfg, signal.regime))
  {
    hide RawScore;
  }

  /** A short signal in an illiquid market, which scores nothing for its regime. */
  function Illiquid(cfg: Settings): Signal {
    var d: real := if cfg.RiskBudget() > 0.0 then cfg.RiskBudget() else 1.0;
    Signal(LONG, LOW_LIQUIDITY, d + 1.0, 1.0, d + 2.0, cfg.minRewardToRisk, [], [], None)
  }

  ghost predicate NeverUpgrades(cfg: Settings, signal: Signal, record: Record) {
    var score := Score(cfg, signal);
    Rank(DecisionFor(cfg, Reviewed(score, ReviewOf(record)))) <= Rank(DecisionFor(cfg, score))
  }

  /** No verdict ever improves a decision exactly when capped scores stay non-negative or count as valid anyway. */
  lemma MultiplierNeverUpgradesExactly(cfg: Settings)
    ensures (forall signal, record :: NeverUpgrades(cfg, signal, record)) <==>
            cfg.watchScore >= 1 || cfg.minSignalScore < cfg.watchScore
  {
    hide RawScore;
    if cfg.watchScore >= 1 || cfg.minSignalScore < cfg.watchScore {
      forall signal, record ensures NeverUpgrades(cfg, signal, record) {
        ScoreBounds(cfg, signal);
        TruncatedBounds(Score(cfg, signal));
      }
    } else {
      var signal, record := Illiquid(cfg), Record(true, false, MEDIUM);
      TruncatedBounds(Score(cfg, signal));
      assert !NeverUpgrades(cfg, signal, record);
    }
  }

  // ---------- reviews only remove ----------

  /** The strategies that open a position on this snapshot from this risk state. */
  ghost function Openers(cfg: Settings, snapshot: Snapshot, state: RiskState, reviews: Reviews): set<nat> {
    if reviews.Of(reviews.regime).block then {}
    else set k: nat | k < |snapshot.signals| && JudgeAt(cfg, snapshot, state, reviews, k).position.Some?
  }

  /** Some capped score is negative, not valid, and truncates up to a valid one. */
  predicate CanUpgradeToValid(cfg: Settings) {
    var capped := cfg.watchScore - 1;
    capped < 0 && capped < cfg.minSignalScore <= Scaled(capped, 0.8)
  }

  ghost predicate OnlyRemoves(cfg: Settings, snapshot: Snapshot, state: RiskState, reviews: Reviews) {
    Openers(cfg, snapshot, state, reviews.(enabled := true)) <=
      Openers(cfg, snapshot, state, reviews.(enabled := false))
  }

  /** The gate looks at the decision only to ask whether it is valid, so review can only take openers away. */
  lemma ReviewOnlyRemoves(cfg: Settings, snapshot: Snapshot, state: RiskState, reviews: Reviews)
    requires !CanUpgradeToValid(cfg)
    ensures OnlyRemoves(cfg, snapshot, state, reviews)
  {
    hide RawScore, Approve, FillPrice, MovedTooFar, Untradable;
    var on, off := reviews.(enabled := true), reviews.(enabled := false);
    forall k: nat | k in Openers(cfg, snapshot, state, on) ensures k in Openers(cfg, snapshot, state, off) {
      var signal := snapshot.signals[k].value;
      ScoreBounds(cfg, signal);
      TruncatedBounds(Score(cfg, signal));
    }
  }

  /** With settings in range, a review can add an opener exactly when both score thresholds are zero. */
  lemma ReviewOnlyRemovesExactly(cfg: Settings)
    requires cfg.InRange()
    ensures (forall snapshot, state, reviews :: OnlyRemoves(cfg, snapshot, state, reviews)) <==>
            !(cfg.watchScore == 0 && cfg.minSignalScore == 0)
  {
    hide OnlyRemoves;
    assert CanUpgradeToValid(cfg) <==> cfg.watchScore == 0 && cfg.minSignalScore == 0;
    if CanUpgradeToValid(cfg) {
      AddedOpener(cfg);
    } else {
      forall snapshot, state, reviews ensures OnlyRemoves(cfg, snapshot, state, reviews) {
        ReviewOnlyRemoves(cfg, snapshot, state, reviews);
      }
    }
  }

  const QUIET := RiskState(0.0, 0.0, 0, 0, [])

  function Calm(record: Record): Reviews {
    Reviews(true, Record(true, false, LOW), k => record, k => Record(true, false, LOW))
  }

  function Quote(cfg: Settings, signal: Signal): Snapshot {
    Snapshot(signal.entryPrice, None, None, Quality(true, []), true, signal.regime, [Some(signal)])
  }

  lemma AddedOpener(cfg: Settings)
    requires cfg.InRange() && cfg.watchScore == 0 && cfg.minSignalScore == 0
    ensures exists snapshot, state, reviews :: !OnlyRemoves(cfg, snapshot, state, reviews)
  {
    hide RawScore, FillPrice, Approve, LossHit;
    var signal := Illiquid(cfg);
    var snapshot, reviews := Quote(cfg, signal), Calm(Record(true, false, MEDIUM));
    SoundSignalIsApproved(cfg, signal, snapshot.quality, QUIET);
    assert Score(cfg, signal) == -1;
    assert Scaled(-1, 0.8) == 0;
    assert 0 in Openers(cfg, snapshot, QUIET, reviews);
    assert 0 !in Openers(cfg, snapshot, QUIET, reviews.(enabled := false));
    assert !OnlyRemoves(cfg, snapshot, QUIET, reviews);
  }

  /** Nothing in the gate objects to a valid one-share long in its own regime while slots are free. */
  lemma SoundSignalIsApproved(cfg: Settings, signal: Signal, quality: Quality, state: RiskState)
    requires cfg.InRange() && quality.ok
    requires signal.direction == LONG && signal.regime != SIDEWAYS && signal.regime != HIGH_VOLATILITY
    requires signal.spreadPct.None? && signal.riskRewardRatio >= cfg.minRewardToRisk
    requires signal.stopLoss == 1.0 && signal.entryPrice == cfg.RiskBudget() + 1.0
    requires state == DefaultState(state.openPositions) && OpenCountOf(state.openPositions) < cfg.maxOpenPositions
    ensures Approve(cfg, signal, VALID, quality, state, signal.regime) == Approval(true, 1, signal.StopDistance(), [])
    ensures !MovedTooFar(cfg, signal, signal.entryPrice)
  {
    var budget := cfg.RiskBudget();
    assert budget > 0.0;
    assert signal.StopDistance() == budget;
    assert Times(1, budget) == budget && Times(2, budget) > budget;
    assert QuantityFor(cfg, signal) == 1;
    PositiveLimits(cfg.capital, cfg.maxDailyLossPct, cfg.maxWeeklyLossPct);
  }

  lemma PositiveLimits(capital: real, daily: real, weekly: real)
    requires capital > 0.0 && daily > 0.0 && weekly > 0.0
    ensures !LossHit(0.0, capital, daily) && !LossHit(0.0, capital, weekly)
  {
    assert capital * daily > 0.0 && capital * weekly > 0.0;
  }

  // ---------- runs ----------

  /** Everything that can happen to a pipeline between two reports. */
  datatype Action =
    | Snap(snapshot: Snapshot, riskState: Option<RiskState>, reviews: Reviews)
    | Mark(id: nat, price: real, charges: Charges)
    | Close(id: nat, price: real, reason: string, charges: Charges)
    | Reset

  const FRESH := Pipe([], [], [])

  /** An unknown position id raises and changes nothing. */
  function Do(cfg: Settings, pipe: Pipe, action: Action): Pipe {
    match action
    case Snap(snapshot, riskState, reviews) => Process(cfg, pipe, snapshot, riskState, reviews)
    case Mark(id, price, charges) =>
      if id >= |pipe.positions| then pipe else
      pipe.(positions := pipe.positions[id := Marked(pipe.positions[id], price, charges)])
    case Close(id, price, reason, charges) =>
      if id >= |pipe.positions| then pipe else
      pipe.(positions := pipe.positions[id := ClosedAt(pipe.positions[id], price, reason, charges)])
    case Reset => pipe.(killReasons := [])
  }

  function Run(cfg: Settings, pipe: Pipe, actions: seq<Action>): Pipe
    decreases |actions|
  {
    if actions == [] then pipe else Do(cfg, Run(cfg, pipe, actions[..|actions| - 1]), actions[|actions| - 1])
  }

  // ---------- the kill switch latch ----------

  lemma {:induction false} StrategiesKeepSwitch(cfg: Settings, pipe: Pipe, snapshot: Snapshot, state: RiskState,
                                                reviews: Reviews, n: nat)
    requires n <= |snapshot.signals|
    ensures RunStrategies(cfg, pipe, snapshot, state, reviews, n).killReasons == pipe.killReasons
  {
    hide Judge;
    if n != 0 {
      StrategiesKeepSwitch(cfg, pipe, snapshot, state, reviews, n - 1);
    }
  }

  /** One action: the reasons stay distinct and, unless it is a reset, keep the earlier ones in front. */
  lemma DoKeepsReasons(cfg: Settings, pipe: Pipe, action: Action)
    requires Distinct(pipe.killReasons)
    ensures Distinct(Do(cfg, pipe, action).killReasons)
    ensures !action.Reset? ==> pipe.killReasons <= Do(cfg, pipe, action).killReasons
    ensures !action.Reset? && pipe.killReasons != [] ==> |Do(cfg, pipe, action).positions| == |pipe.positions|
  {
    hide LossHit, QualityReasons, RunStrategies, Distinct;
    if action.Snap? {
      var state := StateFor(pipe, action.riskState);
      SwitchLatches(cfg, pipe.killReasons, state, Some(action.snapshot.quality), 0, None);
      var killed := pipe.(killReasons := KillReasons(cfg, pipe.killReasons, state, Some(action.snapshot.quality), 0,
        None));
      StrategiesKeepSwitch(cfg, killed, action.snapshot, state, action.reviews, |action.snapshot.signals|);
    } else if action.Reset? {
      assert Distinct<string>([]) by { EmptyIsDistinct(); }
    }
  }

  lemma EmptyIsDistinct()
    ensures Distinct<string>([])
  {
  }

  /** Every evaluation keeps the old reasons, in order, in front of the new ones. */
  lemma SwitchLatches(cfg: Settings, before: seq<string>, state: RiskState, quality: Option<Quality>,
                      rejectedSignals: int, latencyMs: Option<real>)
    requires Distinct(before)
    ensures var after := KillReasons(cfg, before, state, quality, rejectedSignals, latencyMs);
            before <= after && Distinct(after)
  {
    hide LossHit, QualityReasons;
    var all := Collected(cfg, before, state, quality, rejectedSignals, latencyMs);
    hide Dedup, Collected;
    DedupKeepsPrefix(before, all);
  }

  /**
   An untripped switch trips exactly when a loss limit, the losing streak, the data, the rejections or the
   latency says so.
   */
  lemma SwitchTripsExactly(cfg: Settings, state: RiskState, quality: Option<Quality>, rejectedSignals: int,
                           latencyMs: Option<real>)
    ensures KillReasons(cfg, [], state, quality, rejectedSignals, latencyMs) != [] <==>
              || state.dailyPnl <= -cfg.capital * cfg.maxDailyLossPct
              || state.weeklyPnl <= -cfg.capital * cfg.maxWeeklyLossPct
              || state.consecutiveLosses >= cfg.maxConsecutiveLosses
              || (quality.Some? && !quality.value.ok && quality.value.reasons != [])
              || rejectedSignals > 50
              || (latencyMs.Some? && latencyMs.value > 2000.0)
  {
    var collected := Collected(cfg, [], state, quality, rejectedSignals, latencyMs);
    assert collected + [] == collected;
    NothingCollected(collected, []);
    hide Dedup;
  }

  lemma {:induction false} RunKeepsDistinct(cfg: Settings, pipe: Pipe, actions: seq<Action>)
    requires Distinct(pipe.killReasons)
    ensures Distinct(Run(cfg, pipe, actions).killReasons)
    decreases |actions|
  {
    hide Do, Distinct;
    if actions != [] {
      RunKeepsDistinct(cfg, pipe, actions[..|actions| - 1]);
      DoKeepsReasons(cfg, Run(cfg, pipe, actions[..|actions| - 1]), actions[|actions| - 1]);
    }
  }

  ghost predicate NoReset(actions: seq<Action>) {
    forall k :: 0 <= k < |actions| ==> !actions[k].Reset?
  }

  /**
   From a tripped switch, over any run without a reset: the reasons only grow, keeping the earlier ones
   in front, and no snapshot opens a position.
   */
  lemma {:induction false} TrippedStaysTripped(cfg: Settings, pipe: Pipe, actions: seq<Action>)
    requires Distinct(pipe.killReasons) && pipe.killReasons != [] && NoReset(actions)
    ensures pipe.killReasons <= Run(cfg, pipe, actions).killReasons
    ensures |Run(cfg, pipe, actions).positions| == |pipe.positions|
    decreases |actions|
  {
    hide Do, Distinct;
    if actions != [] {
      var before := actions[..|actions| - 1];
      TrippedStaysTripped(cfg, pipe, before);
      RunKeepsDistinct(cfg, pipe, before);
      DoKeepsReasons(cfg, Run(cfg, pipe, before), actions[|actions| - 1]);
    }
  }

  // ---------- how many positions can be open ----------

  lemma {:induction false} OpenCountAppend(positions: seq<Position>, p: Position)
    ensures OpenCountOf(positions + [p]) == OpenCountOf(positions) + if p.status == OPEN then 1 else 0
  {
    assert (positions + [p])[..|positions|] == positions;
  }

  /** Replacing one position changes the count by that position alone. */
  lemma {:induction false} OpenCountReplace(positions: seq<Position>, i: nat, p: Position)
    requires i < |positions|
    ensures OpenCountOf(positions[i := p]) ==
            OpenCountOf(positions) - (if positions[i].status == OPEN then 1 else 0) + if p.status == OPEN then 1 else 0
    decreases |positions|
  {
    var last := |positions| - 1;
    if i == last {
      assert positions[i := p][..last] == positions[..last];
    } else {
      assert positions[i := p][..last] == positions[..last][i := p];
      OpenCountReplace(positions[..last], i, p);
    }
  }

  /** With every slot taken no strategy opens; otherwise each opens at most one position. */
  lemma {:induction false} StrategiesOpenAtMostOneEach(cfg: Settings, pipe: Pipe, snapshot: Snapshot, state: RiskState,
                                                       reviews: Reviews, n: nat)
    requires n <= |snapshot.signals|
    ensures var r := RunStrategies(cfg, pipe, snapshot, state, reviews, n);
            && OpenCountOf(r.positions) <= OpenCountOf(pipe.positions) + n
            && (OpenCountOf(state.openPositions) >= cfg.maxOpenPositions ==> r.positions == pipe.positions)
  {
    hide OpenCountOf, FillPrice, Score, Approve, QuantityFor, MovedTooFar, DecisionFor;
    if n != 0 {
      StrategiesOpenAtMostOneEach(cfg, pipe, snapshot, state, reviews, n - 1);
      var before := RunStrategies(cfg, pipe, snapshot, state, reviews, n - 1);
      var outcome := JudgeAt(cfg, snapshot, state, reviews, n - 1);
      if outcome.position.Some? {
        OpenCountAppend(before.positions, outcome.position.value);
        if OpenCountOf(state.openPositions) >= cfg.maxOpenPositions {
          NoSlotNoApproval(cfg, snapshot.signals[n - 1].value, VALID, snapshot.quality, state, snapshot.regime);
        }
      } else {
        assert Applied(before, outcome).positions == before.positions;
      }
    }
  }

  lemma NoSlotNoApproval(cfg: Settings, signal: Signal, decision: SignalDecision, quality: Quality, state: RiskState,
                         regime: Regime)
    requires OpenCountOf(state.openPositions) >= cfg.maxOpenPositions
    ensures !Approve(cfg, signal, decision, quality, state, regime).approved
  {
    hide SignalReasons, RegimeReasons, LossHit, OpenCountOf, QuantityFor;
    var signalled := SignalReasons(cfg, signal, decision, quality);
    var checked := RegimeReasons(cfg, StateReasons(cfg, signalled, state), signal, regime);
    assert StateReasons(cfg, signalled, state) != [];
    NothingCollected(checked, []);
    NothingCollected(Noted(checked, QuantityFor(cfg, signal) <= 0, "quantity_zero"), []);
    assert forall s: seq<string> :: s + [] == s;
  }

  /** Every snapshot uses the pipeline's own positions as its risk state and runs n strategies. */
  ghost predicate DefaultRun(actions: seq<Action>, n: nat) {
    forall k :: 0 <= k < |actions| && actions[k].Snap? ==>
      actions[k].riskState.None? && |actions[k].snapshot.signals| <= n
  }

  /** The limit is read once per snapshot, so it can be overshot by all strategies but one. */
  lemma {:induction false} OpenPositionsAreBounded(cfg: Settings, actions: seq<Action>, n: nat)
    requires cfg.maxOpenPositions >= 1 && DefaultRun(actions, n)
    ensures OpenCountOf(Run(cfg, FRESH, actions).positions) <= cfg.maxOpenPositions - 1 + n
    decreases |actions|
  {
    hide OpenCountOf, RunStrategies, KillReasons, Marked, Gross;
    if actions == [] {
      NoneOpen();
    } else {
      OpenPositionsAreBounded(cfg, actions[..|actions| - 1], n);
      var pipe, action := Run(cfg, FRESH, actions[..|actions| - 1]), actions[|actions| - 1];
      match action
      case Snap(snapshot, riskState, reviews) =>
        var killed := pipe.(killReasons := KillReasons(cfg, pipe.killReasons, DefaultState(pipe.positions),
          Some(snapshot.quality), 0, None));
        StrategiesOpenAtMostOneEach(cfg, killed, snapshot, DefaultState(pipe.positions), reviews, |snapshot.signals|);
      case Mark(id, price, charges) =>
        if id < |pipe.positions| {
          MarkedStaysAsOpen(pipe.positions[id], price, charges);
          OpenCountReplace(pipe.positions, id, Marked(pipe.positions[id], price, charges));
        }
      case Close(id, price, reason, charges) =>
        if id < |pipe.positions| {
          OpenCountReplace(pipe.positions, id, ClosedAt(pipe.positions[id], price, reason, charges));
        }
      case Reset =>
    }
  }

  lemma NoneOpen()
    ensures OpenCountOf([]) == 0
  {
  }

  lemma MarkedStaysAsOpen(p: Position, price: real, charges: Charges)
    ensures Marked(p, price, charges).status == p.status
  {
  }

  /** A full-score long breakout that asks for one share. */
  function Breakout(cfg: Settings): Signal
    requires cfg.InRange()
  {
    var d: real := cfg.RiskBudget();
    assert d > 0.0;
    Signal(LONG, STRONG_BULLISH, d + 1.0, 1.0, d + 2.0, cfg.minRewardToRisk,
           ["vwap", "volume_confirmation", "opening_range_breakout"], ["sector"], None)
  }

  function Breakouts(cfg: Settings, n: nat): Snapshot
    requires cfg.InRange()
  {
    var signal := Breakout(cfg);
    Snapshot(signal.entryPrice, None, None, Quality(true, []), true, signal.regime, seq(n, _ => Some(signal)))
  }

  lemma BreakoutOpens(cfg: Settings, state: RiskState, n: nat, k: nat)
    requires cfg.InRange() && k < n
    requires state == DefaultState(state.openPositions) && OpenCountOf(state.openPositions) < cfg.maxOpenPositions
    ensures var outcome := JudgeAt(cfg, Breakouts(cfg, n), state, Calm(Record(true, false, LOW)), k);
            outcome.position.Some? && outcome.position.value.status == OPEN
  {
    hide FillPrice, Approve;
    var signal, snapshot := Breakout(cfg), Breakouts(cfg, n);
    SoundSignalIsApproved(cfg, signal, snapshot.quality, state);
    FullScore(cfg);
  }

  lemma FullScore(cfg: Settings)
    requires cfg.InRange()
    ensures Score(cfg, Breakout(cfg)) == 100
  {
    var signal := Breakout(cfg);
    assert Occurs("vwap", signal.reasonCodes[0]) by { assert signal.reasonCodes[0][0..] == "vwap"; }
    assert Occurs("sector", signal.regimeReasons[0]) by { assert signal.regimeReasons[0][0..] == "sector"; }
    assert signal.reasonCodes[1] == "volume_confirmation" && signal.reasonCodes[2] == "opening_range_breakout";
  }

  lemma {:induction false} BreakoutsAllOpen(cfg: Settings, pipe: Pipe, n: nat, m: nat)
    requires cfg.InRange() && m <= n && OpenCountOf(pipe.positions) < cfg.maxOpenPositions
    ensures var r := RunStrategies(cfg, pipe, Breakouts(cfg, n), DefaultState(pipe.positions),
            Calm(Record(true, false, LOW)), m);
            OpenCountOf(r.positions) == OpenCountOf(pipe.positions) + m && r.killReasons == pipe.killReasons
    decreases m
  {
    hide OpenCountOf, Judge;
    if m != 0 {
      BreakoutsAllOpen(cfg, pipe, n, m - 1);
      var state, reviews := DefaultState(pipe.positions), Calm(Record(true, false, LOW));
      var before := RunStrategies(cfg, pipe, Breakouts(cfg, n), state, reviews, m - 1);
      BreakoutOpens(cfg, state, n, m - 1);
      OpenCountAppend(before.positions, JudgeAt(cfg, Breakouts(cfg, n), state, reviews, m - 1).position.value);
    }
  }

  lemma SnapOfBreakouts(cfg: Settings, pipe: Pipe, n: nat)
    requires cfg.InRange() && pipe.killReasons == [] && OpenCountOf(pipe.positions) < cfg.maxOpenPositions
    ensures var r := Do(cfg, pipe, Snap(Breakouts(cfg, n), None, Calm(Record(true, false, LOW))));
            OpenCountOf(r.positions) == OpenCountOf(pipe.positions) + n && r.killReasons == []
  {
    hide OpenCountOf, RunStrategies;
    PositiveLimits(cfg.capital, cfg.maxDailyLossPct, cfg.maxWeeklyLossPct);
    BreakoutsAllOpen(cfg, pipe, n, n);
    assert KillReasons(cfg, [], DefaultState(pipe.positions), Some(Quality(true, [])), 0, None) == [] by {
      hide Dedup;
      DedupOfDistinct<string>([]);
    }
    assert pipe.(killReasons := []) == pipe;
  }

  lemma {:induction false} FilledToTheLast(cfg: Settings, m: nat) returns (actions: seq<Action>)
    requires cfg.InRange() && m < cfg.maxOpenPositions
    ensures DefaultRun(actions, 1)
    ensures OpenCountOf(Run(cfg, FRESH, actions).positions) == m && Run(cfg, FRESH, actions).killReasons == []
  {
    hide OpenCountOf, Do, Breakouts;
    if m == 0 {
      NoneOpen();
      actions := [];
    } else {
      var before := FilledToTheLast(cfg, m - 1);
      SnapOfBreakouts(cfg, Run(cfg, FRESH, before), 1);
      BreakoutsLength(cfg, 1);
      actions := before + [Snap(Breakouts(cfg, 1), None, Calm(Record(true, false, LOW)))];
      assert actions[..|actions| - 1] == before;
    }
  }

  lemma BreakoutsLength(cfg: Settings, n: nat)
    requires cfg.InRange()
    ensures |Breakouts(cfg, n).signals| == n
  {
  }

  /** The bound is reached: one slot short of the limit, one snapshot lets every strategy open. */
  lemma BoundIsReached(cfg: Settings, n: nat)
    requires cfg.InRange() && n >= 1
    ensures exists actions ::
            DefaultRun(actions, n) && OpenCountOf(Run(cfg, FRESH, actions).positions) == cfg.maxOpenPositions - 1 + n
  {
    hide OpenCountOf, Do, Breakouts;
    var before := FilledToTheLast(cfg, cfg.maxOpenPositions - 1);
    SnapOfBreakouts(cfg, Run(cfg, FRESH, before), n);
    BreakoutsLength(cfg, n);
    var actions := before + [Snap(Breakouts(cfg, n), None, Calm(Record(true, false, LOW)))];
    assert actions[..|actions| - 1] == before;
    assert DefaultRun(actions, n);
  }

  /** The limit holds over every default run exactly when there is at most one strategy. */
  lemma LimitHoldsExactly(cfg: Settings, n: nat)
    requires cfg.InRange()
    ensures (forall actions :: DefaultRun(actions, n) ==>
               OpenCountOf(Run(cfg, FRESH, actions).positions) <= cfg.maxOpenPositions) <==> n <= 1
  {
    hide OpenCountOf, Run, DefaultRun;
    if n <= 1 {
      forall actions | DefaultRun(actions, n)
        ensures OpenCountOf(Run(cfg, FRESH, actions).positions) <= cfg.maxOpenPositions
      {
        OpenPositionsAreBounded(cfg, actions, n);
      }
    } else {
      BoundIsReached(cfg, n);
    }
  }

  // ---------- the journal, the approvals, the excursions ----------

  const FILLED: Event -> bool := e => e == SHADOW_ORDER_FILLED
  const ACCEPTED: Event -> bool := e => e == SIGNAL_ACCEPTED
  const MISSED: Event -> bool := e => e == SHADOW_ORDER_REJECTED

  /** Every filled order is a position, every accepted signal an order, filled or not. */
  ghost predicate JournalAccounts(pipe: Pipe) {
    && Count(pipe.journal, FILLED) == |pipe.positions|
    && Count(pipe.journal, ACCEPTED) == Count(pipe.journal, FILLED) + Count(pipe.journal, MISSED)
  }

  lemma CountAppend(journal: seq<Event>, e: Event)
    ensures Count(journal + [e], FILLED) == Count(journal, FILLED) + if e.SHADOW_ORDER_FILLED? then 1 else 0
    ensures Count(journal + [e], ACCEPTED) == Count(journal, ACCEPTED) + if e.SIGNAL_ACCEPTED? then 1 else 0
    ensures Count(journal + [e], MISSED) == Count(journal, MISSED) + if e.SHADOW_ORDER_REJECTED? then 1 else 0
  {
    assert (journal + [e])[..|journal|] == journal;
  }

  lemma OutcomeAccounts(cfg: Settings, pipe: Pipe, snapshot: Snapshot, state: RiskState, reviews: Reviews, k: nat)
    requires k < |snapshot.signals| && JournalAccounts(pipe)
    ensures JournalAccounts(Applied(pipe, JudgeAt(cfg, snapshot, state, reviews, k)))
  {
    hide Count, Score, Approve, FillPrice, MovedTooFar, DecisionFor;
    var outcome := JudgeAt(cfg, snapshot, state, reviews, k);
    var r := Applied(pipe, outcome);
    if |outcome.events| == 0 {
      assert r.journal == pipe.journal;
    } else if |outcome.events| == 1 {
      CountAppend(pipe.journal, outcome.events[0]);
    } else {
      CountAppend(pipe.journal, outcome.events[0]);
      CountAppend(pipe.journal + [outcome.events[0]], outcome.events[1]);
      assert r.journal == pipe.journal + [outcome.events[0]] + [outcome.events[1]];
    }
  }

  lemma {:induction false} StrategiesAccount(cfg: Settings, pipe: Pipe, snapshot: Snapshot, state: RiskState,
                                             reviews: Reviews, n: nat)
    requires n <= |snapshot.signals| && JournalAccounts(pipe)
    ensures JournalAccounts(RunStrategies(cfg, pipe, snapshot, state, reviews, n))
  {
    hide JournalAccounts, Judge;
    if n != 0 {
      StrategiesAccount(cfg, pipe, snapshot, state, reviews, n - 1);
      OutcomeAccounts(cfg, RunStrategies(cfg, pipe, snapshot, state, reviews, n - 1), snapshot, state, reviews, n - 1);
    }
  }

  lemma {:induction false} JournalAccountsForPositions(cfg: Settings, actions: seq<Action>)
    ensures JournalAccounts(Run(cfg, FRESH, actions))
    decreases |actions|
  {
    hide RunStrategies, KillReasons, Count, Marked, ClosedAt;
    if actions == [] {
      NothingJournalled();
    } else {
      JournalAccountsForPositions(cfg, actions[..|actions| - 1]);
      var pipe, action := Run(cfg, FRESH, actions[..|actions| - 1]), actions[|actions| - 1];
      if action.Snap? {
        var state := StateFor(pipe, action.riskState);
        var killed := pipe.(killReasons := KillReasons(cfg, pipe.killReasons, state, Some(action.snapshot.quality), 0,
          None));
        CountAppend(pipe.journal, DATA_OR_UNIVERSE_BLOCK);
        CountAppend(pipe.journal, AGENTIC_REGIME_BLOCK);
        StrategiesAccount(cfg, killed, action.snapshot, state, action.reviews, |action.snapshot.signals|);
      }
    }
  }

  lemma NothingJournalled()
    ensures JournalAccounts(FRESH)
  {
  }

  /** Signal, limits and regime all in order. */
  ghost predicate WithinLimits(cfg: Settings, signal: Signal, quality: Quality, state: RiskState, regime: Regime) {
    && (quality.ok || quality.reasons == [])
    && signal.stopLoss > 0.0
    && signal.riskRewardRatio >= cfg.minRewardToRisk
    && (signal.spreadPct.Some? ==> signal.spreadPct.value <= cfg.maxSpreadPct)
    && state.dailyPnl > -cfg.capital * cfg.maxDailyLossPct
    && state.weeklyPnl > -cfg.capital * cfg.maxWeeklyLossPct
    && state.tradesToday < cfg.maxTradesPerDay
    && state.consecutiveLosses < cfg.maxConsecutiveLosses
    && OpenCountOf(state.openPositions) < cfg.maxOpenPositions
    && (signal.direction == SHORT ==> cfg.allowShorts)
    && regime == signal.regime
    && (signal.regime == SIDEWAYS ==> cfg.allowSideways)
    && (signal.regime == HIGH_VOLATILITY ==> cfg.allowHighVolatility)
  }

  ghost predicate RiskFits(cfg: Settings, signal: Signal, n: int) {
    signal.StopDistance() > 0.0 && Times(n, signal.StopDistance()) <= cfg.RiskBudget()
  }

  /** Approval comes exactly within every limit, for the greatest quantity whose risk fits the budget. */
  lemma ApprovedExactly(cfg: Settings, signal: Signal, decision: SignalDecision, quality: Quality, state: RiskState,
                        regime: Regime)
    ensures var a := Approve(cfg, signal, decision, quality, state, regime);
            && (a.approved <==>
                 decision == VALID && WithinLimits(cfg, signal, quality, state, regime) && RiskFits(cfg, signal, 1))
            && (a.approved ==>
                  && a.quantity >= 1
                  && (forall n: int :: n >= 1 ==> (n <= a.quantity <==> RiskFits(cfg, signal, n)))
                  && a.riskAmount == Times(a.quantity, signal.StopDistance()) <= cfg.RiskBudget())
            && (!a.approved ==> a.quantity == 0 && a.riskAmount == 0.0 && a.reasons != [])
  {
    hide OpenCountOf, LossHit, QuantityFor, RiskFits, Times, SignalReasons, StateReasons, RegimeReasons, Dedup;
    QuantityIsGreatest(cfg, signal);
    var signalled := SignalReasons(cfg, signal, decision, quality);
    var stated := StateReasons(cfg, signalled, state);
    var checked := RegimeReasons(cfg, stated, signal, regime);
    SignalReasonsExactly(cfg, signal, decision, quality);
    StateReasonsExactly(cfg, signalled, state);
    RegimeReasonsExactly(cfg, stated, signal, regime);
    var reasons := Noted(checked, QuantityFor(cfg, signal) <= 0, "quantity_zero");
    assert reasons + [] == reasons;
    NothingCollected(reasons, []);
  }

  lemma QuantityIsGreatest(cfg: Settings, signal: Signal)
    ensures forall n: int :: n >= 1 ==> (n <= QuantityFor(cfg, signal) <==> RiskFits(cfg, signal, n))
    ensures QuantityFor(cfg, signal) >= 1 ==>
              Times(QuantityFor(cfg, signal), signal.StopDistance()) <= cfg.RiskBudget()
    ensures RiskFits(cfg, signal, 1) ==> signal.StopDistance() > 0.0
  {
    hide FloorDiv, Times;
  }

  lemma SignalReasonsExactly(cfg: Settings, signal: Signal, decision: SignalDecision, quality: Quality)
    ensures SignalReasons(cfg, signal, decision, quality) == [] <==>
              && decision == VALID && (quality.ok || quality.reasons == [])
              && signal.stopLoss > 0.0 && signal.StopDistance() > 0.0
              && signal.riskRewardRatio >= cfg.minRewardToRisk
              && (signal.spreadPct.Some? ==> signal.spreadPct.value <= cfg.maxSpreadPct)
  {
    hide Prefixed;
  }

  lemma StateReasonsExactly(cfg: Settings, before: seq<string>, state: RiskState)
    ensures StateReasons(cfg, before, state) == before <==>
              && state.dailyPnl > -cfg.capital * cfg.maxDailyLossPct
              && state.weeklyPnl > -cfg.capital * cfg.maxWeeklyLossPct
              && state.tradesToday < cfg.maxTradesPerDay
              && state.consecutiveLosses < cfg.maxConsecutiveLosses
              && OpenCountOf(state.openPositions) < cfg.maxOpenPositions
  {
    hide OpenCountOf;
  }

  lemma RegimeReasonsExactly(cfg: Settings, before: seq<string>, signal: Signal, regime: Regime)
    ensures RegimeReasons(cfg, before, signal, regime) == before <==>
              && (signal.direction == SHORT ==> cfg.allowShorts)
              && regime == signal.regime
              && (signal.regime == SIDEWAYS ==> cfg.allowSideways)
              && (signal.regime == HIGH_VOLATILITY ==> cfg.allowHighVolatility)
  {
  }

  lemma SlippageNonNegative(entry: real, bps: real)
    requires entry > 0.0 && bps >= 0.0
    ensures entry * bps / 10000.0 >= 0.0
    ensures entry * bps / 10000.0 == 0.0 <==> bps == 0.0
  {
    ScaleKeepsSign(bps, entry);
  }

  /** A simulated fill is never better than the signal's price, and meets it exactly without slippage or spread. */
  lemma FillsAreNeverFavourable(cfg: Settings, signal: Signal, snapshot: Snapshot)
    requires cfg.slippageBps >= 0.0
    ensures signal.direction == LONG ==> FillPrice(cfg, signal, snapshot) >= signal.entryPrice
    ensures signal.direction == SHORT ==> FillPrice(cfg, signal, snapshot) <= signal.entryPrice
    ensures FillPrice(cfg, signal, snapshot) == signal.entryPrice <==> Frictionless(cfg, signal, snapshot)
  {
    SlippageNonNegative(signal.entryPrice, cfg.slippageBps);
  }

  /** No slippage is configured, and the quotes leave no spread. */
  predicate Frictionless(cfg: Settings, signal: Signal, snapshot: Snapshot) {
    cfg.slippageBps == 0.0 && OrEntry(snapshot.ask, signal.entryPrice) <= OrEntry(snapshot.bid, signal.entryPrice)
  }

  /** How far a signal's stop lies from its price on the side a fill moves to: above for a long, below for a short. */
  function StopBeyond(signal: Signal): real {
    if signal.direction == LONG then signal.stopLoss - signal.entryPrice else signal.entryPrice - signal.stopLoss
  }

  /**
   A position's risk is measured from its fill, not from the signal's price, so with the stop on the losing
   side it is the approved risk plus what the fill lost. The budget bounds the approval; it bounds the position
   exactly when the fill lost nothing, or the stop lies beyond the signal's price by half of the loss or more.
   */
  lemma RiskGrowsWithTheFill(cfg: Settings, signal: Signal, snapshot: Snapshot, quantity: int)
    requires cfg.slippageBps >= 0.0 && quantity > 0
    ensures var fill := FillPrice(cfg, signal, snapshot);
            var lost := Abs(fill - signal.entryPrice);
            var approved, carried := Times(quantity, signal.StopDistance()),
              NewPosition(signal, fill, quantity).riskAmount;
            && carried == Times(quantity, Abs(lost - StopBeyond(signal)))
            && (StopBeyond(signal) <= 0.0 ==> carried == approved + Times(quantity, lost))
            && (carried <= approved <==> Frictionless(cfg, signal, snapshot) || 2.0 * StopBeyond(signal) >= lost)
  {
    FillsAreNeverFavourable(cfg, signal, snapshot);
    hide FillPrice;
    var fill := FillPrice(cfg, signal, snapshot);
    var lost := Abs(fill - signal.entryPrice);
    TimesAdds(quantity, signal.StopDistance(), lost);
    TimesKeepsOrder(quantity, Abs(lost - StopBeyond(signal)), signal.StopDistance());
    hide Times;
    assert Abs(fill - signal.stopLoss) == Abs(lost - StopBeyond(signal));
  }

  lemma TimesKeepsOrder(n: int, x: real, y: real)
    requires n > 0
    ensures Times(n, x) <= Times(n, y) <==> x <= y
  {
    ScaleKeepsOrder(x, y, n as real);
  }

  lemma TimesAdds(n: int, x: real, y: real)
    ensures Times(n, x + y) == Times(n, x) + Times(n, y)
  {
  }

  function MarkAll(p: Position, prices: seq<real>, charges: Charges): Position {
    if prices == [] then p else Marked(MarkAll(p, prices[..|prices| - 1], charges), prices[|prices| - 1], charges)
  }

  /** From a fresh fill, the excursions are the extremes of zero and every marked P&L. */
  lemma {:induction false} ExcursionsAreExtremes(p: Position, prices: seq<real>, charges: Charges)
    requires p.maxFavorable == p.maxAdverse == 0.0
    ensures var r := MarkAll(p, prices, charges);
            && r.direction == p.direction && r.entryPrice == p.entryPrice && r.quantity == p.quantity &&
                 r.status == p.status
            && r.maxAdverse <= 0.0 <= r.maxFavorable
            && (forall k :: 0 <= k < |prices| ==> r.maxAdverse <= Gross(p, prices[k]) <= r.maxFavorable)
            && (r.maxFavorable == 0.0 || exists k :: 0 <= k < |prices| && Gross(p, prices[k]) == r.maxFavorable)
            && (r.maxAdverse == 0.0 || exists k :: 0 <= k < |prices| && Gross(p, prices[k]) == r.maxAdverse)
            && (prices != [] ==> r.netPnl + r.charges == r.grossPnl == Gross(p, prices[|prices| - 1]))
  {
    if prices != [] {
      var before := prices[..|prices| - 1];
      ExcursionsAreExtremes(p, before, charges);
      var q := MarkAll(p, before, charges);
      GrossDependsOnEntry(p, q, prices[|prices| - 1]);
      hide Gross;
      var r := MarkAll(p, prices, charges);
      assert forall k :: 0 <= k < |before| ==> prices[k] == before[k];
      assert Gross(p, prices[|prices| - 1]) == Gross(q, prices[|prices| - 1]);
      if r.maxFavorable == q.maxFavorable && q.maxFavorable != 0.0 {
        var k :| 0 <= k < |before| && Gross(p, before[k]) == q.maxFavorable;
        assert Gross(p, prices[k]) == r.maxFavorable;
      }
      if r.maxAdverse == q.maxAdverse && q.maxAdverse != 0.0 {
        var k :| 0 <= k < |before| && Gross(p, before[k]) == q.maxAdverse;
        assert Gross(p, prices[k]) == r.maxAdverse;
      }
    }
  }

  lemma GrossDependsOnEntry(p: Position, q: Position, price: real)
    requires p.direction == q.direction && p.entryPrice == q.entryPrice && p.quantity == q.quantity
    ensures Gross(p, price) == Gross(q, price)
  {
  }
}
