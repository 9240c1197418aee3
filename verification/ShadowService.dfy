/** The training service: one session's tables, written symbol by symbol, cycle by cycle. */
module ShadowService {
  import opened Common
  import opened Shadow
  import ShadowLaws
  import ShadowTurns

  function StaleCount(rows: seq<Observation>, market: Market, dayStart: int): nat {
    Count(rows, (o: Observation) => Stale(o, market, dayStart))
  }

  /** How many of a cycle's moves open or mark a row. */
  ghost function Updates(cfg: Settings, t: Table, moves: seq<Move>): nat
    requires Possible(cfg, t, moves)
    decreases |moves|
  {
    if moves == [] then 0 else
    var turn, latest := moves[0].turn, moves[0].latest;
    (if ShadowLaws.Facing(cfg, t, turn, latest).Some? then 1 else 0) +
      Updates(cfg, Record(cfg, t, turn, latest), moves[1..])
  }

  class ShadowTrainingService {
    const settings: Settings
    var rows: seq<Observation>
    var samples: seq<Sample>

    function Contents(): Table
      reads this
    {
      Table(rows, samples)
    }

    constructor (settings: Settings)
      ensures this.settings == settings && Contents() == ShadowLaws.EMPTY
    {
      this.settings := settings;
      rows, samples := [], [];
    }

    /** The turns must come with answers the cooldown queries could have given. */
    method RunCycle(cycle: Cycle, dayStart: (Market, int) -> int) returns (closed: map<Market, nat>, updated: nat)
      requires ShadowLaws.CyclePossible(settings, dayStart, Contents(), cycle)
      modifies this
      ensures Contents() == ShadowLaws.RunCycle(settings, dayStart, old(Contents()), cycle)
      ensures var t := old(Contents());
              var swept := Sweep(settings, t, INDIA, dayStart(INDIA, cycle.startedAt));
              closed == map[INDIA := StaleCount(t.rows, INDIA, dayStart(INDIA, cycle.startedAt)),
                            US := StaleCount(swept.rows, US, dayStart(US, cycle.startedAt))]
      ensures updated == Updates(settings, SweepBoth(settings, dayStart, old(Contents()), cycle.startedAt), cycle.moves)
    {
      hide Record, IsLatestClosed, Sweep, StaleCount;
      var india := CloseStaleObservations(INDIA, dayStart(INDIA, cycle.startedAt));
      var us := CloseStaleObservations(US, dayStart(US, cycle.startedAt));
      closed := map[INDIA := india, US := us];
      updated := 0;
      ghost var swept := Contents();
      for k := 0 to |cycle.moves|
        invariant Possible(settings, Contents(), cycle.moves[k..])
        invariant updated + Updates(settings, Contents(), cycle.moves[k..]) == Updates(settings, swept, cycle.moves)
        invariant RecordAll(settings, Contents(), cycle.moves[k..]) == RecordAll(settings, swept, cycle.moves)
      {
        var recorded := RecordShadowObservation(cycle.moves[k].turn, cycle.moves[k].latest);
        if recorded {
          updated := updated + 1;
        }
      }
    }

    method RecordShadowObservation(turn: Turn, latest: Option<nat>) returns (recorded: bool)
      requires Answered(rows, Move(turn, latest))
      modifies this
      ensures Contents() == Record(settings, old(Contents()), turn, latest)
      ensures recorded <==> ShadowLaws.Facing(settings, old(Contents()), turn, latest).Some?
      ensures recorded <==> |samples| > |old(samples)|
      ensures ShadowTurns.TurnTaken(settings, old(Contents()), turn, latest, Contents())
    {
      hide Evaluate, Size, Notional, Pnl, Path, ShadowTurns.TurnTaken;
      ShadowTurns.TurnsDecidedExactly(settings, Contents(), turn, latest);
      var found := FindOpen(rows, turn.market, turn.symbol);
      var i: nat;
      if found.None? {
        if !turn.isBuy || turn.newsBlocks {
          return false;
        }
        var cooldown := ActiveReentryCooldown(latest, turn.now);
        if cooldown.Some? || turn.lossPaused {
          return false;
        }
        i := |rows|;
        rows := rows + [Opened(settings, turn)];
      } else {
        i := found.value;
        rows := rows[i := Marked(settings, rows[i], turn)];
      }
      ghost var faced := Contents();
      var stored := samples;
      samples := samples + [SampleOf(rows[i], i, turn.sampleAt, INTRADAY_MARK)];
      ApplyExitPolicy(i, stored, turn.exitAt);
      assert Contents() == Settle(settings, faced, i, turn);
      return true;
    }

    /** The end of the wait if it is still running, by the one closed row the query returned. */
    method ActiveReentryCooldown(latest: Option<nat>, now: int) returns (until: Option<int>)
      requires latest.Some? ==> latest.value < |rows|
      ensures until.Some? <==> Cooling(settings, rows, latest, now)
      ensures until.Some? ==> until.value > now && rows[latest.value].exit.value.reentryBlockedUntil == until.value
    {
      if settings.cooldownMinutes <= 0 || latest.None? {
        return None;
      }
      var exit := rows[latest.value].exit;
      if exit.None? {
        return None;
      }
      var blockedUntil := exit.value.reentryBlockedUntil;
      until := if blockedUntil > now then Some(blockedUntil) else None;
    }

    method ApplyExitPolicy(i: nat, stored: seq<Sample>, now: int)
      requires i < |rows| && rows[i].IsOpen()
      requires samples != [] && stored == samples[..|samples| - 1]
      modifies this
      ensures var before, action := old(Contents()),
              old(ExitFor(settings, rows[i], VisiblePath(settings, stored, samples[|samples| - 1], i)));
              Contents() == if settings.exitEnabled && action.Closes() then CloseRow(settings, before, i, action, now)
                else before
    {
      hide Evaluate, Path;
      if !settings.exitEnabled {
        return;
      }
      assert stored + [samples[|samples| - 1]] == samples;
      var action := Evaluate(settings, rows[i]);
      if !action.Closes() {
        var path := Path(if settings.autoflush then samples else stored, i);
        var givenBack := ProfitPathExit(path, rows[i].pnl);
        if givenBack {
          action := EXIT_PROFIT_GIVEBACK;
        }
      }
      if action.Closes() {
        CloseObservation(i, action, now);
      }
    }

    /** Looks for the highest P&L on the path, the first of equals, and measures what is left of it. */
    method ProfitPathExit(path: seq<Sample>, currentPnl: real) returns (exit: bool)
      ensures exit <==> GaveBack(settings, path, currentPnl)
    {
      if |path| < 2 {
        return false;
      }
      var peak := path[0];
      for k := 1 to |path|
        invariant peak == Peak(path[..k])
      {
        assert path[..k + 1][..k] == path[..k];
        if path[k].pnl > peak.pnl {
          peak := path[k];
        }
      }
      assert path[..|path|] == path;
      var giveback := Max(peak.pnl - currentPnl, 0.0);
      var givebackPct := if peak.pnl > 0.0 then giveback / peak.pnl else 0.0;
      exit := CanLock(settings, peak) && peak.pnl > 0.0 && givebackPct >= settings.givebackPct;
    }

    method CloseObservation(i: nat, action: ExitAction, now: int)
      requires i < |rows|
      requires action.Closes() || action == EXIT_SESSION_CLOSE
      modifies this
      ensures Contents() == CloseRow(settings, old(Contents()), i, action, now)
    {
      var sample := SampleOf(rows[i], i, now, SHADOW_EXIT);
      rows := rows[i := Closed(settings, rows[i], action, now)];
      samples := samples + [sample];
    }

    method CloseStaleObservations(market: Market, dayStart: int) returns (closed: nat)
      modifies this
      ensures Contents() == Sweep(settings, old(Contents()), market, dayStart)
      ensures closed == StaleCount(old(rows), market, dayStart)
    {
      closed := 0;
      ghost var was, before := rows, Contents();
      var stale := (o: Observation) => Stale(o, market, dayStart);
      for k := 0 to |rows|
        invariant |rows| == |was|
        invariant Contents() == SweepFirst(settings, before, market, dayStart, k)
        invariant closed == Count(was[..k], stale)
      {
        ShadowLaws.SweepFirstRows(settings, before, market, dayStart, k, k);
        assert was[..k + 1][..k] == was[..k];
        if stale(rows[k]) {
          CloseObservation(k, EXIT_SESSION_CLOSE, SweepTime(rows[k], dayStart));
          closed := closed + 1;
        }
      }
      assert was[..|was|] == was;
    }
  }
}
