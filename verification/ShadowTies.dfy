/**
 The one way the re-entry wait can fail: a cycle that starts at the very reading of an earlier mark. When
 that hurts, exactly, and runs in which it does.
 */
module ShadowTies {
  import opened Common
  import opened Shadow
  import opened ShadowLaws
  import opened ShadowRuns

  // ---------- exactly when one more cycle keeps the wait ----------

  /** The quote that opens a one-share row and stops it out at the same reading. */
  function StoppedAtOnce(cfg: Settings, market: Market, symbol: string, now: int): Turn {
    Turn(market, symbol, cfg.notionalBudget, 1.0, true, Levels(Some(cfg.notionalBudget), Some(cfg.notionalBudget)),
         false, false, now, now, now)
  }

  lemma StoppedAtOnceOpensAndCloses(cfg: Settings, t: Table, move: Move, now: int)
    requires cfg.notionalBudget > 0.0 && cfg.exitEnabled
    requires var turn := move.turn; turn == StoppedAtOnce(cfg, turn.market, turn.symbol, now)
    requires move.latest.Some? ==> move.latest.value < |t.rows|
    requires FindOpen(t.rows, move.turn.market, move.turn.symbol).None?
    requires !Cooling(cfg, t.rows, move.latest, now)
    ensures var r := Record(cfg, t, move.turn, move.latest).rows;
            && |r| == |t.rows| + 1 && r[..|t.rows|] == t.rows
            && r[|t.rows|] == Closed(cfg, Opened(cfg, move.turn), EXIT_STOP_LOSS, now)
  {
    hide Record, VisiblePath, Cooling;
    RecordRows(cfg, t, move.turn, move.latest);
    assert cfg.notionalBudget / (cfg.notionalBudget * 1.0) == 1.0;
  }

  /** Two quotes after a tied sweep: the first row of the pair is still cooling when the second one opens. */
  lemma TiedSweepBreaksWait(cfg: Settings, t: Table, k: nat, now: int)
    requires cfg.cooldownMinutes > 0 && cfg.exitEnabled && cfg.notionalBudget > 0.0
    requires k < |t.rows| && !t.rows[k].IsOpen() && t.rows[k].lastMarkedAt == now && !BlocksAt(t.rows[k], now)
    requires forall o :: o in t.rows ==> o.lastMarkedAt <= now
    requires forall o :: o in t.rows && SameKey(o, t.rows[k]) ==> !o.IsOpen()
    ensures exists moves ::
              Possible(cfg, t, moves) && InOrder(now, moves) && !EveryReentryWaits(cfg, RecordAll(cfg, t, moves).rows)
  {
    hide Record, Marked;
    var turn := StoppedAtOnce(cfg, t.rows[k].market, t.rows[k].symbol, now);
    var move := Move(turn, Some(k));
    StoppedAtOnceOpensAndCloses(cfg, t, move, now);
    var once := Record(cfg, t, turn, Some(k));
    assert forall o :: o in once.rows ==> o in t.rows || o == once.rows[|t.rows|];
    assert once.rows[..|t.rows|][k] == t.rows[k];
    StoppedAtOnceOpensAndCloses(cfg, once, move, now);
    var twice := Record(cfg, once, turn, Some(k));
    var n := |t.rows|;
    assert twice.rows[..n + 1][n] == once.rows[n];
    assert SameKey(twice.rows[n], twice.rows[n + 1]) && twice.rows[n + 1].openedAt == now;
    var moves := [move, move];
    assert Answered(once.rows, move);
    assert moves[1..] == [move] && [move][1..] == [];
    assert RecordAll(cfg, once, [move]) == RecordAll(cfg, twice, []) == twice;
    assert InOrder(now, []) && InOrder(now, [move]);
    assert Possible(cfg, once, [move]);
    assert Possible(cfg, t, moves) && InOrder(now, moves) && RecordAll(cfg, t, moves) == twice;
  }

  ghost predicate WaitKept(cfg: Settings, t: Table, moves: seq<Move>)
    requires Possible(cfg, t, moves)
  {
    EveryReentryWaits(cfg, RecordAll(cfg, t, moves).rows)
  }

  /** The wait survives every possible cycle from here exactly when no sweep ties with the cycle's start. */
  lemma CycleKeepsWaitExactly(cfg: Settings, dayStart: (Market, int) -> int, t: Table, startedAt: int, start: int,
                              clock: int)
    requires cfg.cooldownMinutes > 0 && cfg.exitEnabled && cfg.notionalBudget > 0.0 && IsCalendar(dayStart)
    requires Spaced(cfg, t.rows, start, clock) && clock <= startedAt
    ensures var swept := SweepBoth(cfg, dayStart, t, startedAt);
            BothSafe(cfg, dayStart, t.rows, startedAt) <==>
            forall moves :: Possible(cfg, swept, moves) && InOrder(startedAt, moves) ==> WaitKept(cfg, swept, moves)
  {
    hide SweepBoth, Possible, RecordAll, InOrder, Record;
    var swept := SweepBoth(cfg, dayStart, t, startedAt);
    if BothSafe(cfg, dayStart, t.rows, startedAt) {
      forall moves | Possible(cfg, swept, moves) && InOrder(startedAt, moves) ensures WaitKept(cfg, swept, moves) {
        var cycle := Cycle(startedAt, moves);
        CycleKeepsSpaced(cfg, dayStart, t, cycle, start, clock);
        SpacedReentriesWait(cfg, RunCycle(cfg, dayStart, t, cycle).rows, startedAt, Ended(cycle));
      }
    } else {
      var k :| 0 <= k < |t.rows| && TiedAt(cfg, t.rows[k], dayStart(t.rows[k].market, startedAt), startedAt);
      SweepBothRows(cfg, dayStart, t, startedAt);
      TiedRowIsDone(cfg, dayStart, t.rows, swept.rows, k, startedAt, start, clock);
      TiedSweepBreaksWait(cfg, swept, k, startedAt);
    }
  }

  ghost predicate TiedAt(cfg: Settings, o: Observation, dayStart: int, now: int) {
    Stale(o, o.market, dayStart) && o.lastMarkedAt >= now && now >= dayStart - 1 + cfg.Cooldown()
  }

  lemma TiedRowIsDone(cfg: Settings, dayStart: (Market, int) -> int, rows: seq<Observation>, swept: seq<Observation>,
                      k: nat, now: int, start: int, clock: int)
    requires Spaced(cfg, rows, start, clock) && clock <= now && IsCalendar(dayStart)
    requires |swept| == |rows| && k < |rows| && TiedAt(cfg, rows[k], dayStart(rows[k].market, now), now)
    requires forall i :: 0 <= i < |rows| ==>
             swept[i] == Swept(cfg, rows[i], rows[i].market, dayStart(rows[i].market, now))
    ensures !swept[k].IsOpen() && swept[k].lastMarkedAt == now && !BlocksAt(swept[k], now)
    ensures forall o :: o in swept ==> o.lastMarkedAt <= now
    ensures forall o :: o in swept && SameKey(o, swept[k]) ==> !o.IsOpen()
  {
    assert rows[k] in rows;
    SpacedIsAlone(cfg, rows, start, clock);
    forall i | 0 <= i < |swept|
      ensures swept[i].lastMarkedAt <= now && (SameKey(swept[i], swept[k]) ==> !swept[i].IsOpen()) {
      assert rows[i] in rows;
    }
  }

  // ---------- runs that get there ----------

  /** Opens a row at one instant; marks it, in a cycle that starts then, at another. */
  function TowardsATie(cfg: Settings, market: Market, first: int, marked: int): seq<Cycle> {
    [Cycle(first, [Quiet(cfg, market, first, None)])] + [Cycle(first, [Quiet(cfg, market, marked, None)])]
  }

  function Carried(cfg: Settings, market: Market, first: int, marked: int): Observation {
    Marked(cfg, Opened(cfg, Quiet(cfg, market, first, None).turn), Quiet(cfg, market, marked, None).turn)
  }

  lemma CarriedFigures(cfg: Settings, market: Market, first: int, marked: int)
    ensures var o := Carried(cfg, market, first, marked);
            o.market == market && o.IsOpen() && o.openedAt == first && o.lastMarkedAt == marked && o.exit.None?
  {
  }

  lemma TieIsNear(cfg: Settings, dayStart: (Market, int) -> int, market: Market, first: int, marked: int)
    requires IsCalendar(dayStart)
    ensures var cycles := TowardsATie(cfg, market, first, marked);
            && RunPossible(cfg, dayStart, cycles)
            && QuietTable(cfg, market, Run(cfg, dayStart, cycles))
            && Run(cfg, dayStart, cycles).rows == [Carried(cfg, market, first, marked)]
  {
    hide Record, SweepBoth, Run, RunPossible, Marked;
    RunOfNone(cfg, dayStart);
    NothingToSweep(cfg, dayStart, EMPTY, first);
    QuietOpens(cfg, market, EMPTY, first, None);
    RunOfOneMoreQuote(cfg, dayStart, [], first, Quiet(cfg, market, first, None));
    var start := [Cycle(first, [Quiet(cfg, market, first, None)])];
    assert [] + start == start;
    var t := Run(cfg, dayStart, start);
    NothingToSweep(cfg, dayStart, t, first);
    assert FindOpen(t.rows, market, "X") == Some(0);
    QuietMarks(cfg, market, t, 0, marked, None);
    RunOfOneMoreQuote(cfg, dayStart, start, first, Quiet(cfg, market, marked, None));
  }

  ghost predicate BreaksWait(cfg: Settings, dayStart: (Market, int) -> int, cycles: seq<Cycle>) {
    && RunPossible(cfg, dayStart, cycles) && NeverBackwards(cycles)
    && !EveryReentryWaits(cfg, Run(cfg, dayStart, cycles).rows)
  }

  /** Opened on an earlier day than it was marked on, by when a wait begun at that day's start is over. */
  ghost predicate CarriedOver(cfg: Settings, dayStart: (Market, int) -> int, market: Market, first: int, marked: int) {
    first < dayStart(market, marked) && dayStart(market, marked) - 1 + cfg.Cooldown() <= marked
  }

  /**
   From an empty table: a cycle that starts on one day and still marks on the next, when a wait begun at
   midnight is over, and another that starts at that very reading and quotes the symbol twice.
   */
  lemma TieIsReached(cfg: Settings, dayStart: (Market, int) -> int, market: Market, first: int, marked: int)
    requires cfg.cooldownMinutes > 0 && cfg.exitEnabled && cfg.notionalBudget > 0.0 && IsCalendar(dayStart)
    requires CarriedOver(cfg, dayStart, market, first, marked)
    ensures exists moves :: BreaksWait(cfg, dayStart, TowardsATie(cfg, market, first, marked) + [Cycle(marked, moves)])
  {
    hide Possible, RecordAll, InOrder, RunPossible, Run, SweepBoth, Record;
    var cycles := TowardsATie(cfg, market, first, marked);
    TieIsNear(cfg, dayStart, market, first, marked);
    CarriedFigures(cfg, market, first, marked);
    var t := Run(cfg, dayStart, cycles);
    assert t.rows[0] in t.rows;
    CycleKeepsWaitExactly(cfg, dayStart, t, marked, first, marked);
    var swept := SweepBoth(cfg, dayStart, t, marked);
    var moves :| Possible(cfg, swept, moves) && InOrder(marked, moves) && !WaitKept(cfg, swept, moves);
    RunOfOneMore(cfg, dayStart, cycles, Cycle(marked, moves));
    TowardsATieIsOrdered(cfg, market, first, marked);
    assert BreaksWait(cfg, dayStart, cycles + [Cycle(marked, moves)]);
  }

  lemma QuietIsInOrder(cfg: Settings, market: Market, startedAt: int, now: int, latest: Option<nat>)
    requires startedAt <= now
    ensures var moves := [Quiet(cfg, market, now, latest)];
            InOrder(startedAt, moves) && Ended(Cycle(startedAt, moves)) == now
  {
    assert [Quiet(cfg, market, now, latest)][1..] == [];
  }

  lemma TowardsATieIsOrdered(cfg: Settings, market: Market, first: int, marked: int)
    requires first <= marked
    ensures NeverBackwards(TowardsATie(cfg, market, first, marked))
    ensures Ended(TowardsATie(cfg, market, first, marked)[1]) == marked
  {
    QuietIsInOrder(cfg, market, first, first, None);
    QuietIsInOrder(cfg, market, first, marked, None);
  }

  /** No cycle quotes a symbol twice. */
  ghost predicate QuotedOnce(cycles: seq<Cycle>) {
    forall c :: c in cycles ==> forall i, j :: 0 <= i < j < |c.moves| ==>
      c.moves[i].turn.market != c.moves[j].turn.market || c.moves[i].turn.symbol != c.moves[j].turn.symbol
  }

  /** Two more cycles of one quote each: one at the very reading of the mark, one on a later day within the wait. */
  function PastTheTie(cfg: Settings, market: Market, first: int, marked: int, later: int): seq<Cycle> {
    TowardsATie(cfg, market, first, marked) + [Cycle(marked, [Quiet(cfg, market, marked, Some(0))])] +
      [Cycle(later, [Quiet(cfg, market, later, Some(0))])]
  }

  /** The carried row is closed and a second one opened in its place. */
  ghost predicate Reopened(cfg: Settings, market: Market, marked: int, t: Table) {
    && QuietTable(cfg, market, t) && |t.rows| == 2
    && !t.rows[0].IsOpen() && t.rows[0].lastMarkedAt == marked && !BlocksAt(t.rows[0], marked)
    && t.rows[1] == Opened(cfg, Quiet(cfg, market, marked, None).turn)
  }

  lemma TiedQuoteOpens(cfg: Settings, dayStart: (Market, int) -> int, market: Market, first: int, marked: int)
    requires IsCalendar(dayStart) && CarriedOver(cfg, dayStart, market, first, marked)
    ensures var cycles := TowardsATie(cfg, market, first, marked) +
              [Cycle(marked, [Quiet(cfg, market, marked, Some(0))])];
            RunPossible(cfg, dayStart, cycles) && Reopened(cfg, market, marked, Run(cfg, dayStart, cycles))
  {
    hide Record, SweepBoth, Run, RunPossible, Carried;
    var cycles := TowardsATie(cfg, market, first, marked);
    TieIsNear(cfg, dayStart, market, first, marked);
    CarriedFigures(cfg, market, first, marked);
    var t := Run(cfg, dayStart, cycles);
    SweepBothRows(cfg, dayStart, t, marked);
    SweepKeepsQuiet(cfg, market, dayStart, t, marked);
    var swept := SweepBoth(cfg, dayStart, t, marked);
    QuietOpens(cfg, market, swept, marked, Some(0));
    RunOfOneMoreQuote(cfg, dayStart, cycles, marked, Quiet(cfg, market, marked, Some(0)));
  }

  /** With no symbol quoted twice in a cycle, and exits on or off: the second row's wait is not seen. */
  lemma TieIsPassed(cfg: Settings, dayStart: (Market, int) -> int, market: Market, first: int, marked: int, later: int)
    requires IsCalendar(dayStart) && CarriedOver(cfg, dayStart, market, first, marked)
    requires marked < dayStart(market, later) && later < marked + cfg.Cooldown()
    ensures var cycles := PastTheTie(cfg, market, first, marked, later);
            QuotedOnce(cycles) && BreaksWait(cfg, dayStart, cycles)
  {
    hide Record, SweepBoth, Run, RunPossible, Opened, TowardsATie, NeverBackwards;
    var cycles := TowardsATie(cfg, market, first, marked) + [Cycle(marked, [Quiet(cfg, market, marked, Some(0))])];
    TiedQuoteOpens(cfg, dayStart, market, first, marked);
    OpenedFigures(cfg, Quiet(cfg, market, marked, None).turn);
    var t := Run(cfg, dayStart, cycles);
    SweepBothRows(cfg, dayStart, t, later);
    SweepKeepsQuiet(cfg, market, dayStart, t, later);
    var swept := SweepBoth(cfg, dayStart, t, later);
    QuietOpens(cfg, market, swept, later, Some(0));
    RunOfOneMoreQuote(cfg, dayStart, cycles, later, Quiet(cfg, market, later, Some(0)));
    OpenedFigures(cfg, Quiet(cfg, market, later, Some(0)).turn);
    PastTheTieIsOrdered(cfg, market, first, marked, later);
    var rows := Run(cfg, dayStart, PastTheTie(cfg, market, first, marked, later)).rows;
    assert SameKey(rows[1], rows[2]) && rows[2].openedAt == later && rows[1].exit.value.at == marked;
  }

  lemma OpenedFigures(cfg: Settings, turn: Turn)
    ensures var o := Opened(cfg, turn);
            o.Of(turn.market, turn.symbol) && o.IsOpen() && o.openedAt == o.lastMarkedAt == turn.now
  {
  }

  lemma PastTheTieIsOrdered(cfg: Settings, market: Market, first: int, marked: int, later: int)
    requires first <= marked <= later
    ensures var cycles := PastTheTie(cfg, market, first, marked, later);
            NeverBackwards(cycles) && QuotedOnce(cycles)
  {
    QuietIsInOrder(cfg, market, first, first, None);
    QuietIsInOrder(cfg, market, first, marked, None);
    QuietIsInOrder(cfg, market, marked, marked, Some(0));
    QuietIsInOrder(cfg, market, later, later, Some(0));
  }

  // ---------- days ----------

  ghost predicate DayEnds(dayStart: (Market, int) -> int, market: Market, at: int) {
    exists later :: at < dayStart(market, later)
  }

  /** All instants since a day's start share it, and every day ends; days may differ in length, as with summer time. */
  ghost predicate IsDaily(dayStart: (Market, int) -> int) {
    && IsCalendar(dayStart)
    && (forall m: Market, a: int, b: int :: dayStart(m, a) <= b <= a ==> dayStart(m, b) == dayStart(m, a))
    && forall m: Market, at: int :: DayEnds(dayStart, m, at)
  }

  ghost predicate DaysShorterThan(dayStart: (Market, int) -> int, length: int) {
    forall m: Market, at: int :: at + 1 - dayStart(m, at) < length
  }

  lemma LastInstant(dayStart: (Market, int) -> int, market: Market, at: int) returns (last: int)
    requires IsDaily(dayStart)
    ensures at <= last && dayStart(market, last) == dayStart(market, at) && dayStart(market, last + 1) == last + 1
  {
    assert DayEnds(dayStart, market, at);
    var later :| at < dayStart(market, later);
    last := at;
    while dayStart(market, last + 1) == dayStart(market, at)
      invariant at <= last < dayStart(market, later) && dayStart(market, last) == dayStart(market, at)
      decreases later - last
    {
      last := last + 1;
    }
  }

  /** A wait longer than every day outlasts the day that any sweep starts in, so no sweep ties. */
  lemma {:induction false} LongWaitsSurvive(cfg: Settings, dayStart: (Market, int) -> int, cycles: seq<Cycle>)
    requires cfg.cooldownMinutes > 0 && IsCalendar(dayStart) && DaysShorterThan(dayStart, cfg.Cooldown())
    requires RunPossible(cfg, dayStart, cycles) && NeverBackwards(cycles)
    ensures cycles == [] ==> Run(cfg, dayStart, cycles) == EMPTY
    ensures cycles != [] ==>
              var last := cycles[|cycles| - 1];
              Spaced(cfg, Run(cfg, dayStart, cycles).rows, last.startedAt, Ended(last))
    decreases |cycles|
  {
    hide RunCycle, CyclePossible, InOrder;
    if cycles != [] {
      var before, cycle := cycles[..|cycles| - 1], cycles[|cycles| - 1];
      LongWaitsSurvive(cfg, dayStart, before);
      var rows := Run(cfg, dayStart, before).rows;
      var start, clock :=
        if before == [] then cycle.startedAt else before[|before| - 1].startedAt,
        if before == [] then cycle.startedAt else Ended(before[|before| - 1]);
      assert Spaced(cfg, rows, start, clock);
      CycleKeepsSpaced(cfg, dayStart, Run(cfg, dayStart, before), cycle, start, clock);
    }
  }

  lemma LongWaitsAreKept(cfg: Settings, dayStart: (Market, int) -> int, cycles: seq<Cycle>)
    requires cfg.cooldownMinutes > 0 && IsCalendar(dayStart) && DaysShorterThan(dayStart, cfg.Cooldown())
    ensures !BreaksWait(cfg, dayStart, cycles)
  {
    hide RunPossible, Run, NeverBackwards, EveryReentryWaits;
    if RunPossible(cfg, dayStart, cycles) && NeverBackwards(cycles) {
      LongWaitsSurvive(cfg, dayStart, cycles);
      if cycles == [] {
        assert EveryReentryWaits(cfg, []) by {
          NoRowsWait(cfg);
        }
      } else {
        var last := cycles[|cycles| - 1];
        SpacedReentriesWait(cfg, Run(cfg, dayStart, cycles).rows, last.startedAt, Ended(last));
      }
    }
  }

  lemma NoRowsWait(cfg: Settings)
    ensures EveryReentryWaits(cfg, [])
  {
  }

  /**
   On a clock that merely never runs backwards, every run keeps the wait exactly when every day of both
   markets is shorter than the cooldown; and so it is when no cycle quotes a symbol twice.
   */
  lemma MonotoneClockSufficesExactly(cfg: Settings, dayStart: (Market, int) -> int)
    requires cfg.cooldownMinutes > 0 && IsDaily(dayStart)
    ensures (forall cycles :: !BreaksWait(cfg, dayStart, cycles)) <==> DaysShorterThan(dayStart, cfg.Cooldown())
    ensures (forall cycles :: QuotedOnce(cycles) ==> !BreaksWait(cfg, dayStart, cycles)) <==>
            DaysShorterThan(dayStart, cfg.Cooldown())
  {
    hide BreaksWait, QuotedOnce;
    if DaysShorterThan(dayStart, cfg.Cooldown()) {
      forall cycles: seq<Cycle> ensures !BreaksWait(cfg, dayStart, cycles) {
        LongWaitsAreKept(cfg, dayStart, cycles);
      }
    } else {
      var market: Market, at: int :| at + 1 - dayStart(market, at) >= cfg.Cooldown();
      var last := LastInstant(dayStart, market, at);
      TieIsPassed(cfg, dayStart, market, dayStart(market, at) - 1, last, last + 1);
    }
  }

  // ---------- days of 24 hours ----------

  /** The last local midnight in a zone at a fixed distance from UTC. */
  function LocalMidnight(offset: int, at: int): int {
    (at - offset) / MICROSECONDS_PER_DAY * MICROSECONDS_PER_DAY + offset
  }

  function FixedZones(india: int, us: int): (Market, int) -> int {
    (market: Market, at: int) => LocalMidnight(if market.INDIA? then india else us, at)
  }

  lemma LocalMidnights(offset: int, at: int)
    ensures var start := LocalMidnight(offset, at);
            && start <= at < start + MICROSECONDS_PER_DAY
            && forall b :: start <= b < start + MICROSECONDS_PER_DAY ==> LocalMidnight(offset, b) == start
    ensures LocalMidnight(offset, at + MICROSECONDS_PER_DAY) > at
    ensures LocalMidnight(offset, offset + MICROSECONDS_PER_DAY - 1) == offset
  {
  }

  lemma FixedZonesAreDaily(india: int, us: int)
    ensures IsDaily(FixedZones(india, us))
    ensures forall length :: DaysShorterThan(FixedZones(india, us), length) <==> length > MICROSECONDS_PER_DAY
  {
    hide LocalMidnight;
    var days := FixedZones(india, us);
    forall m: Market, a: int ensures days(m, a) <= a < days(m, a) + MICROSECONDS_PER_DAY {
      LocalMidnights(if m.INDIA? then india else us, a);
    }
    forall m: Market, a: int, b: int | days(m, a) <= b <= a ensures days(m, b) == days(m, a) {
      LocalMidnights(if m.INDIA? then india else us, a);
    }
    forall m: Market, a: int ensures DayEnds(days, m, a) {
      LocalMidnights(if m.INDIA? then india else us, a);
      assert a < days(m, a + MICROSECONDS_PER_DAY);
    }
    forall length: int ensures DaysShorterThan(days, length) <==> length > MICROSECONDS_PER_DAY {
      LocalMidnights(india, india);
      assert days(INDIA, india + MICROSECONDS_PER_DAY - 1) == india;
    }
  }

  /** In zones at any fixed distance from UTC: exactly when the cooldown is longer than 24 hours. */
  lemma FixedZonesSufficeExactly(cfg: Settings, india: int, us: int)
    requires cfg.cooldownMinutes > 0
    ensures (forall cycles :: !BreaksWait(cfg, FixedZones(india, us), cycles)) <==> cfg.cooldownMinutes > 1440
  {
    hide BreaksWait, FixedZones, IsDaily, DaysShorterThan;
    FixedZonesAreDaily(india, us);
    MonotoneClockSufficesExactly(cfg, FixedZones(india, us));
  }
}
