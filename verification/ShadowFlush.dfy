/** Exactly when it does not matter whether the newest sample is flushed before the exit policy reads the path. */
module ShadowFlush {
  import opened Common
  import opened Shadow
  import opened ShadowLaws
  import opened ShadowRuns

  /** High enough above the entry price that the profit on one share can be locked. */
  function Gain(cfg: Settings): real {
    Max(cfg.lockMinPnl, 1.0)
  }

  function Rise(cfg: Settings, now: int): Move {
    Quote(INDIA, cfg.notionalBudget + Gain(cfg), now, None)
  }

  lemma OneShare(cfg: Settings, o: Observation, now: int)
    requires cfg.notionalBudget > 0.0 && o.entryPrice == cfg.notionalBudget
    ensures Marked(cfg, o, Rise(cfg, now).turn).pnl == Gain(cfg)
  {
    assert cfg.notionalBudget / (cfg.notionalBudget * 1.0) == 1.0;
    assert Size(cfg.notionalBudget, cfg.notionalBudget, 1.0) == 1;
    assert Pnl(cfg.notionalBudget + Gain(cfg), cfg.notionalBudget, 1, 1.0) == Gain(cfg);
  }

  /** Unflushed, the rise is not on the path the policy reads, and the row stays open. */
  lemma RiseLeavesOpen(cfg: Settings, t: Table, now: int)
    requires !cfg.autoflush && cfg.notionalBudget > 0.0
    requires QuietTable(cfg, INDIA, t) && |t.rows| == 1 && t.rows[0].IsOpen()
    ensures Answered(t.rows, Rise(cfg, now))
    ensures var r := Record(cfg, t, Rise(cfg, now).turn, None);
            && |r.rows| == 1 && r.rows[0].IsOpen() && r.rows[0].pnl == Gain(cfg)
            && exists mark: Sample :: mark.pnl == Gain(cfg) && Path(r.samples, 0) == Path(t.samples, 0) + [mark]
  {
    hide ExitFor;
    var turn := Rise(cfg, now).turn;
    assert FindOpen(t.rows, INDIA, "X") == Some(0);
    OneShare(cfg, t.rows[0], now);
    var o := Marked(cfg, t.rows[0], turn);
    var mark := SampleOf(o, 0, now, INTRADAY_MARK);
    PathIsPart(t.samples, 0);
    QuietLeavesOpen(cfg, o, Path(t.samples, 0));
    PathAppend(t.samples, mark, 0);
    var r := Record(cfg, t, turn, None);
    assert r.samples == t.samples + [mark];
  }

  /** On the stored path, the rise is the peak, and nothing of it is left to lose before the threshold is met. */
  lemma RiseIsDue(cfg: Settings, o: Observation, path: seq<Sample>, mark: Sample)
    requires cfg.exitEnabled && cfg.givebackPct <= 0.0
    requires path != [] && (forall s :: s in path ==> s.pnl == 0.0)
    requires mark.pnl == o.pnl == Gain(cfg)
    ensures Due(cfg, o, path + [mark]) != OPEN_OBSERVATION
  {
    hide Evaluate;
    assert (path + [mark])[..|path|] == path;
    assert Peak(path + [mark]) == mark;
  }

  lemma RiseBreaksFaith(cfg: Settings, t: Table, now: int)
    requires cfg.exitEnabled && cfg.notionalBudget > 0.0 && cfg.givebackPct <= 0.0 && !cfg.autoflush
    requires QuietTable(cfg, INDIA, t) && |t.rows| == 1 && t.rows[0].IsOpen() && Sampled(t)
    ensures Answered(t.rows, Rise(cfg, now))
    ensures !Faithful(cfg, Record(cfg, t, Rise(cfg, now).turn, None))
  {
    hide Record, Answered, Due;
    RiseLeavesOpen(cfg, t, now);
    var r := Record(cfg, t, Rise(cfg, now).turn, None);
    var mark: Sample :| mark.pnl == Gain(cfg) && Path(r.samples, 0) == Path(t.samples, 0) + [mark];
    PathIsPart(t.samples, 0);
    assert FromFlatTo(Path(t.samples, 0), t.rows[0].pnl);
    RiseIsDue(cfg, r.rows[0], Path(t.samples, 0), mark);
    assert !StatusIsDue(cfg, r, 0);
  }

  /** A row opened at the day's start, then marked at a profit in a second cycle. */
  lemma UnfaithfulRun(cfg: Settings, dayStart: (Market, int) -> int)
    requires cfg.exitEnabled && cfg.notionalBudget > 0.0 && cfg.givebackPct <= 0.0 && !cfg.autoflush
    ensures exists cycles :: RunPossible(cfg, dayStart, cycles) && !Faithful(cfg, Run(cfg, dayStart, cycles))
  {
    hide Record, SweepBoth, Run, RunPossible, Answered, Faithful, Opened;
    var now := dayStart(INDIA, 0);
    var first := [Cycle(0, [Quiet(cfg, INDIA, now, None)])];
    RunOfNone(cfg, dayStart);
    NothingToSweep(cfg, dayStart, EMPTY, 0);
    assert Answered(EMPTY.rows, Quiet(cfg, INDIA, now, None)) by {
      NothingClosed(Quiet(cfg, INDIA, now, None));
    }
    QuietOpens(cfg, INDIA, EMPTY, now, None);
    RunOfOneMoreQuote(cfg, dayStart, [], 0, Quiet(cfg, INDIA, now, None));
    assert [] + first == first;
    var t := Run(cfg, dayStart, first);
    OpenedFacts(cfg, Quiet(cfg, INDIA, now, None).turn);
    if Faithful(cfg, t) {
      FaithfulIsSampled(cfg, t);
      NothingToSweep(cfg, dayStart, t, 0);
      RiseBreaksFaith(cfg, t, now);
      RunOfOneMoreQuote(cfg, dayStart, first, 0, Rise(cfg, now));
    }
  }

  lemma NothingClosed(move: Move)
    requires move.latest.None?
    ensures Answered([], move)
  {
  }

  lemma OpenedFacts(cfg: Settings, turn: Turn)
    ensures var o := Opened(cfg, turn);
            o.IsOpen() && o.openedAt == turn.now && o.market == turn.market
  {
  }

  lemma FaithfulIsSampled(cfg: Settings, t: Table)
    requires Faithful(cfg, t)
    ensures Sampled(t)
  {
  }

  /**
   With exits enabled the status of every row of every run follows from its figures and its stored samples
   exactly when the giveback threshold is positive or samples are flushed before they are read.
   */
  lemma StatusFollowsExactly(cfg: Settings, dayStart: (Market, int) -> int)
    requires cfg.exitEnabled && cfg.notionalBudget > 0.0
    ensures (forall cycles :: RunPossible(cfg, dayStart, cycles) ==> Faithful(cfg, Run(cfg, dayStart, cycles))) <==>
            cfg.givebackPct > 0.0 || cfg.autoflush
  {
    hide RunPossible, Run, Faithful;
    if cfg.givebackPct > 0.0 || cfg.autoflush {
      forall cycles: seq<Cycle> | RunPossible(cfg, dayStart, cycles)
        ensures Faithful(cfg, Run(cfg, dayStart, cycles))
      {
        StatusFollowsFromRecord(cfg, dayStart, cycles);
      }
    } else {
      UnfaithfulRun(cfg, dayStart);
    }
  }
}
