/**
 What every run of training cycles keeps: one open row per symbol, the re-entry wait, exits that are
 justified by the numbers on the row, and no stale row after a cycle.
 */
module ShadowLaws {
  import opened Common
  import opened Shadow

  // ---------- what one step does to the rows ----------

  ghost predicate SameKey(a: Observation, b: Observation) {
    a.market == b.market && a.symbol == b.symbol
  }

  /** The row a turn leaves behind, given the row it opened or marked. */
  function Outcome(cfg: Settings, o: Observation, path: seq<Sample>, turn: Turn): Observation {
    var action := ExitFor(cfg, o, path);
    if cfg.exitEnabled && action.Closes() then Closed(cfg, o, action, turn.exitAt) else o
  }

  lemma SettleRows(cfg: Settings, t: Table, i: nat, turn: Turn)
    requires i < |t.rows| && t.rows[i].IsOpen()
    ensures Settle(cfg, t, i, turn).rows ==
            t.rows[i := Outcome(cfg, t.rows[i], VisiblePath(cfg, t.samples,
              SampleOf(t.rows[i], i, turn.sampleAt, INTRADAY_MARK), i), turn)]
  {
    hide ExitFor, VisiblePath;
    assert t.rows[i := t.rows[i]] == t.rows;
  }

  /** Whether a cycle's turn touches a row and, if so, the row as it stood before the exit policy. */
  function Facing(cfg: Settings, t: Table, turn: Turn, latest: Option<nat>): Option<(nat, Observation)>
    requires latest.Some? ==> latest.value < |t.rows|
  {
    match FindOpen(t.rows, turn.market, turn.symbol)
    case Some(i) => Some((i, Marked(cfg, t.rows[i], turn)))
    case None => if MayOpen(cfg, t.rows, turn, latest) then Some((|t.rows|, Opened(cfg, turn))) else None
  }

  function PathSeen(cfg: Settings, t: Table, turn: Turn, i: nat, o: Observation): seq<Sample> {
    VisiblePath(cfg, t.samples, SampleOf(o, i, turn.sampleAt, INTRADAY_MARK), i)
  }

  /** The rows with one of them replaced, or one more at the end. */
  function Put(rows: seq<Observation>, i: nat, o: Observation): (r: seq<Observation>)
    requires i <= |rows|
    ensures |r| == MaxInt(|rows|, i + 1) && r[i] == o
    ensures forall k :: 0 <= k < |rows| && k != i ==> r[k] == rows[k]
  {
    if i < |rows| then rows[i := o] else rows + [o]
  }

  lemma RecordRows(cfg: Settings, t: Table, turn: Turn, latest: Option<nat>)
    requires latest.Some? ==> latest.value < |t.rows|
    ensures var f, r := Facing(cfg, t, turn, latest), Record(cfg, t, turn, latest);
            && (f.None? ==> r == t)
            && (f.Some? ==>
                  var (i, o) := f.value;
                  && i <= |t.rows| && o.IsOpen() && o.Of(turn.market, turn.symbol)
                  && r.rows == Put(t.rows, i, Outcome(cfg, o, PathSeen(cfg, t, turn, i, o), turn)))
  {
    hide ExitFor, VisiblePath, Size, Settle, Outcome;
    var f := Facing(cfg, t, turn, latest);
    if f.Some? {
      var (i, o) := f.value;
      var faced := Table(Put(t.rows, i, o), t.samples);
      SettleRows(cfg, faced, i, turn);
    }
  }

  lemma {:induction false} SweepFirstRows(cfg: Settings, t: Table, market: Market, dayStart: int, n: nat, k: nat)
    requires n <= |t.rows| && k < |t.rows|
    ensures SweepFirst(cfg, t, market, dayStart, n).rows[k] == if k < n then Swept(cfg, t.rows[k], market, dayStart)
            else t.rows[k]
  {
    if n != 0 {
      SweepFirstRows(cfg, t, market, dayStart, n - 1, k);
      if k != n - 1 {
        SweepFirstRows(cfg, t, market, dayStart, n - 1, n - 1);
      }
    }
  }

  function Swept(cfg: Settings, o: Observation, market: Market, dayStart: int): Observation {
    if Stale(o, market, dayStart) then Closed(cfg, o, EXIT_SESSION_CLOSE, SweepTime(o, dayStart)) else o
  }

  lemma SweepRows(cfg: Settings, t: Table, market: Market, dayStart: int)
    ensures var r := Sweep(cfg, t, market, dayStart).rows;
            |r| == |t.rows| && forall k :: 0 <= k < |r| ==> r[k] == Swept(cfg, t.rows[k], market, dayStart)
  {
    forall k: nat | k < |t.rows|
      ensures Sweep(cfg, t, market, dayStart).rows[k] == Swept(cfg, t.rows[k], market, dayStart) {
      SweepFirstRows(cfg, t, market, dayStart, |t.rows|, k);
    }
  }

  // ---------- at most one open row per symbol, whatever the clock does ----------

  ghost predicate Alone(rows: seq<Observation>) {
    forall i, j :: 0 <= i < j < |rows| && SameKey(rows[i], rows[j]) ==> !rows[i].IsOpen()
  }

  lemma RecordKeepsAlone(cfg: Settings, t: Table, turn: Turn, latest: Option<nat>)
    requires latest.Some? ==> latest.value < |t.rows|
    requires Alone(t.rows)
    ensures Alone(Record(cfg, t, turn, latest).rows)
  {
    hide Record, Marked, Opened, PathSeen, MayOpen, ExitFor;
    RecordRows(cfg, t, turn, latest);
    var f := Facing(cfg, t, turn, latest);
    if f.Some? {
      FacedIsLast(cfg, t, turn, latest);
    }
  }

  /** A turn never touches a row that has a later row of the same symbol. */
  lemma FacedIsLast(cfg: Settings, t: Table, turn: Turn, latest: Option<nat>)
    requires latest.Some? ==> latest.value < |t.rows|
    requires Alone(t.rows)
    requires Facing(cfg, t, turn, latest).Some?
    ensures var i := Facing(cfg, t, turn, latest).value.0;
            forall j :: 0 <= j < |t.rows| && t.rows[j].Of(turn.market, turn.symbol) && j != i ==>
              j < i && !t.rows[j].IsOpen()
  {
    hide Marked, Opened, MayOpen;
    var i := Facing(cfg, t, turn, latest).value.0;
    forall j | 0 <= j < |t.rows| && t.rows[j].Of(turn.market, turn.symbol) && j != i
      ensures j < i && !t.rows[j].IsOpen()
    {
      assert t.rows[j] in t.rows;
      if i < |t.rows| {
        assert SameKey(t.rows[i], t.rows[j]);
      }
    }
  }

  lemma SweepKeepsAlone(cfg: Settings, t: Table, market: Market, dayStart: int)
    requires Alone(t.rows)
    ensures Alone(Sweep(cfg, t, market, dayStart).rows)
  {
    hide Sweep;
    SweepRows(cfg, t, market, dayStart);
  }

  // ---------- rows are never rewritten ----------

  /** A later state of the same row: the entry is fixed, and once closed nothing changes any more. */
  ghost predicate Continues(a: Observation, b: Observation) {
    && SameKey(a, b) && a.openedAt == b.openedAt && a.entryPrice == b.entryPrice && a.levels == b.levels
    && (!a.IsOpen() ==> b == a)
  }

  ghost predicate Grows(a: seq<Observation>, b: seq<Observation>) {
    |a| <= |b| && forall k :: 0 <= k < |a| ==> Continues(a[k], b[k])
  }

  lemma RecordGrows(cfg: Settings, t: Table, turn: Turn, latest: Option<nat>)
    requires latest.Some? ==> latest.value < |t.rows|
    ensures Grows(t.rows, Record(cfg, t, turn, latest).rows)
  {
    hide Record, PathSeen, MayOpen, ExitFor, Size, Notional, Pnl;
    RecordRows(cfg, t, turn, latest);
  }

  lemma SweepGrows(cfg: Settings, t: Table, market: Market, dayStart: int)
    ensures Grows(t.rows, Sweep(cfg, t, market, dayStart).rows)
  {
    hide Sweep;
    SweepRows(cfg, t, market, dayStart);
  }

  // ---------- runs ----------

  const EMPTY := Table([], [])

  ghost predicate CyclePossible(cfg: Settings, dayStart: (Market, int) -> int, t: Table, cycle: Cycle) {
    Possible(cfg, SweepBoth(cfg, dayStart, t, cycle.startedAt), cycle.moves)
  }

  ghost function RunCycle(cfg: Settings, dayStart: (Market, int) -> int, t: Table, cycle: Cycle): Table
    requires CyclePossible(cfg, dayStart, t, cycle)
  {
    RecordAll(cfg, SweepBoth(cfg, dayStart, t, cycle.startedAt), cycle.moves)
  }

  ghost predicate RunPossible(cfg: Settings, dayStart: (Market, int) -> int, cycles: seq<Cycle>)
    decreases |cycles|, 0
  {
    cycles != [] ==>
      && RunPossible(cfg, dayStart, cycles[..|cycles| - 1])
      && CyclePossible(cfg, dayStart, Run(cfg, dayStart, cycles[..|cycles| - 1]), cycles[|cycles| - 1])
  }

  /** The tables after a list of completed cycles, from an empty database. */
  ghost function Run(cfg: Settings, dayStart: (Market, int) -> int, cycles: seq<Cycle>): Table
    requires RunPossible(cfg, dayStart, cycles)
    decreases |cycles|, 1
  {
    if cycles == [] then EMPTY
    else RunCycle(cfg, dayStart, Run(cfg, dayStart, cycles[..|cycles| - 1]), cycles[|cycles| - 1])
  }

  /** Any clock at all: two cycles, or two turns, never leave two open rows for one symbol. */
  lemma {:induction false} AtMostOneOpenRow(cfg: Settings, dayStart: (Market, int) -> int, cycles: seq<Cycle>)
    requires RunPossible(cfg, dayStart, cycles)
    ensures Alone(Run(cfg, dayStart, cycles).rows)
    decreases |cycles|
  {
    hide Record, Possible, RecordAll, Sweep;
    if cycles != [] {
      var before, cycle := cycles[..|cycles| - 1], cycles[|cycles| - 1];
      AtMostOneOpenRow(cfg, dayStart, before);
      var t := Run(cfg, dayStart, before);
      SweepKeepsAlone(cfg, t, INDIA, dayStart(INDIA, cycle.startedAt));
      SweepKeepsAlone(cfg, Sweep(cfg, t, INDIA, dayStart(INDIA, cycle.startedAt)), US, dayStart(US, cycle.startedAt));
      RecordAllKeepsAlone(cfg, SweepBoth(cfg, dayStart, t, cycle.startedAt), cycle.moves);
    }
  }

  lemma {:induction false} RecordAllKeepsAlone(cfg: Settings, t: Table, moves: seq<Move>)
    requires Possible(cfg, t, moves) && Alone(t.rows)
    ensures Alone(RecordAll(cfg, t, moves).rows)
    decreases |moves|
  {
    hide Record, Alone;
    if moves != [] {
      RecordKeepsAlone(cfg, t, moves[0].turn, moves[0].latest);
      RecordAllKeepsAlone(cfg, Record(cfg, t, moves[0].turn, moves[0].latest), moves[1..]);
    }
  }

  lemma AnswerInRange(rows: seq<Observation>, move: Move)
    requires Answered(rows, move)
    ensures move.latest.Some? ==> move.latest.value < |rows|
  {
  }

  lemma {:induction false} RecordAllGrows(cfg: Settings, t: Table, moves: seq<Move>)
    requires Possible(cfg, t, moves)
    ensures Grows(t.rows, RecordAll(cfg, t, moves).rows)
    decreases |moves|
  {
    hide Record, IsLatestClosed;
    if moves != [] {
      assert Answered(t.rows, moves[0]);
      AnswerInRange(t.rows, moves[0]);
      RecordGrows(cfg, t, moves[0].turn, moves[0].latest);
      RecordAllGrows(cfg, Record(cfg, t, moves[0].turn, moves[0].latest), moves[1..]);
    }
  }

  /** Later cycles add rows and may close open ones; entries stay as written and closed rows stay closed. */
  lemma {:induction false} HistoryIsNeverRewritten(cfg: Settings, dayStart: (Market, int) -> int, cycles: seq<Cycle>,
                                                   n: nat)
    requires RunPossible(cfg, dayStart, cycles) && n <= |cycles|
    ensures RunPossible(cfg, dayStart, cycles[..n])
    ensures Grows(Run(cfg, dayStart, cycles[..n]).rows, Run(cfg, dayStart, cycles).rows)
    decreases |cycles|
  {
    hide Possible, RecordAll, Sweep;
    if n == |cycles| {
      assert cycles[..n] == cycles;
    } else {
      var before, cycle := cycles[..|cycles| - 1], cycles[|cycles| - 1];
      assert before[..n] == cycles[..n];
      HistoryIsNeverRewritten(cfg, dayStart, before, n);
      var t := Run(cfg, dayStart, before);
      var india := Sweep(cfg, t, INDIA, dayStart(INDIA, cycle.startedAt));
      SweepGrows(cfg, t, INDIA, dayStart(INDIA, cycle.startedAt));
      SweepGrows(cfg, india, US, dayStart(US, cycle.startedAt));
      RecordAllGrows(cfg, SweepBoth(cfg, dayStart, t, cycle.startedAt), cycle.moves);
    }
  }

  // ---------- the re-entry wait ----------

  ghost predicate InOrder(from: int, moves: seq<Move>)
    decreases |moves|
  {
    moves != [] ==>
      var turn := moves[0].turn;
      from <= turn.now <= turn.sampleAt <= turn.exitAt && InOrder(turn.exitAt, moves[1..])
  }

  function LastReading(from: int, moves: seq<Move>): int {
    if moves == [] then from else moves[|moves| - 1].turn.exitAt
  }

  /** The clock never runs backwards inside a cycle, and each cycle starts after every earlier reading. */
  ghost predicate Clocked(cycles: seq<Cycle>) {
    && (forall c :: c in cycles ==> InOrder(c.startedAt, c.moves))
    && forall k :: 0 < k < |cycles| ==> Ended(cycles[k - 1]) < cycles[k].startedAt
  }

  /** No reading is ever earlier than one before it; a cycle may start at the last reading of the one before. */
  ghost predicate NeverBackwards(cycles: seq<Cycle>) {
    && (forall c :: c in cycles ==> InOrder(c.startedAt, c.moves))
    && forall k :: 0 < k < |cycles| ==> Ended(cycles[k - 1]) <= cycles[k].startedAt
  }

  function Ended(cycle: Cycle): int {
    LastReading(cycle.startedAt, cycle.moves)
  }

  ghost predicate Timed(cfg: Settings, o: Observation, start: int, clock: int) {
    && o.openedAt <= o.lastMarkedAt <= clock
    && (o.IsOpen() <==> o.exit.None?)
    && (o.exit.Some? ==> ExitTimed(cfg, o, o.exit.value, start, clock))
  }

  ghost predicate ExitTimed(cfg: Settings, o: Observation, exit: Exit, start: int, clock: int) {
    && o.openedAt <= exit.at <= clock
    && exit.reentryBlockedUntil == exit.at + cfg.Cooldown()
    && (o.lastMarkedAt < start || o.lastMarkedAt < exit.reentryBlockedUntil)
  }

  /** The later row of a symbol opened after the earlier one's wait and after its last mark. */
  ghost predicate Waits(a: Observation, b: Observation) {
    a.exit.Some? && a.exit.value.reentryBlockedUntil <= b.openedAt && a.lastMarkedAt < b.openedAt
  }

  ghost predicate Ordered(rows: seq<Observation>) {
    forall i, j :: 0 <= i < j < |rows| && SameKey(rows[i], rows[j]) ==> Waits(rows[i], rows[j])
  }

  ghost predicate AllTimed(cfg: Settings, rows: seq<Observation>, start: int, clock: int) {
    forall o :: o in rows ==> Timed(cfg, o, start, clock)
  }

  ghost predicate Spaced(cfg: Settings, rows: seq<Observation>, start: int, clock: int) {
    start <= clock && AllTimed(cfg, rows, start, clock) && Ordered(rows)
  }

  /** The one row the query returns decides as if every closed row of the symbol had been checked. */
  lemma LatestRowSpeaksForAll(cfg: Settings, rows: seq<Observation>, start: int, clock: int,
                              market: Market, symbol: string, latest: Option<nat>, now: int)
    requires cfg.cooldownMinutes > 0
    requires Spaced(cfg, rows, start, clock) && clock <= now
    requires IsLatestClosed(rows, market, symbol, latest)
    ensures Cooling(cfg, rows, latest, now) <==>
            exists i: nat :: ClosedOf(rows, market, symbol, i) && BlocksAt(rows[i], now)
    ensures !Cooling(cfg, rows, latest, now) ==>
              forall i: nat :: ClosedOf(rows, market, symbol, i) ==>
                rows[i].exit.Some? && rows[i].exit.value.reentryBlockedUntil <= now && rows[i].lastMarkedAt < now
  {
    if latest.Some? {
      var k := latest.value;
      assert rows[k] in rows;
      forall i: nat | ClosedOf(rows, market, symbol, i)
        ensures rows[i].exit.Some?
        ensures rows[i].exit.value.reentryBlockedUntil <= rows[k].exit.value.reentryBlockedUntil
        ensures rows[i].lastMarkedAt <= rows[k].lastMarkedAt
      {
        assert rows[i] in rows;
        assert i < k ==> Waits(rows[i], rows[k]);
        assert k < i ==> Waits(rows[k], rows[i]);
      }
    }
  }

  lemma RecordKeepsSpaced(cfg: Settings, t: Table, move: Move, start: int, clock: int)
    requires cfg.cooldownMinutes > 0
    requires Spaced(cfg, t.rows, start, clock) && Answered(t.rows, move)
    requires clock <= move.turn.now <= move.turn.sampleAt <= move.turn.exitAt
    ensures Spaced(cfg, Record(cfg, t, move.turn, move.latest).rows, start, move.turn.exitAt)
  {
    hide Record, PathSeen, ExitFor, Size, Notional, Pnl, Cooling;
    var turn, latest := move.turn, move.latest;
    RecordRows(cfg, t, turn, latest);
    SpacedIsAlone(cfg, t.rows, start, clock);
    LatestRowSpeaksForAll(cfg, t.rows, start, clock, turn.market, turn.symbol, latest, turn.now);
    var f := Facing(cfg, t, turn, latest);
    if f.Some? {
      var (i, o) := f.value;
      FacedIsLast(cfg, t, turn, latest);
      var row := Outcome(cfg, o, PathSeen(cfg, t, turn, i, o), turn);
      if i < |t.rows| {
        assert t.rows[i] in t.rows;
      }
      forall j | 0 <= j < i && SameKey(t.rows[j], row) ensures Waits(t.rows[j], row) {
        if i == |t.rows| {
          assert ClosedOf(t.rows, turn.market, turn.symbol, j);
        } else {
          assert Waits(t.rows[j], t.rows[i]);
        }
      }
      PutKeepsSpaced(cfg, t.rows, i, row, start, clock, turn.exitAt);
    }
  }

  lemma PutKeepsSpaced(cfg: Settings, rows: seq<Observation>, i: nat, row: Observation, start: int, clock: int,
                       later: int)
    requires Spaced(cfg, rows, start, clock) && clock <= later && i <= |rows|
    requires Timed(cfg, row, start, later)
    requires forall j :: 0 <= j < |rows| && SameKey(rows[j], row) && j != i ==> j < i
    requires forall j :: 0 <= j < i && SameKey(rows[j], row) ==> Waits(rows[j], row)
    ensures Spaced(cfg, Put(rows, i, row), start, later)
  {
    hide Put;
    var r := Put(rows, i, row);
    forall k | 0 <= k < |r| ensures Timed(cfg, r[k], start, later) {
      if k != i {
        assert rows[k] in rows;
      }
    }
    forall j, k | 0 <= j < k < |r| && SameKey(r[j], r[k]) ensures Waits(r[j], r[k]) {
      if j != i && k != i {
        assert Waits(rows[j], rows[k]);
      }
    }
  }

  lemma SpacedIsAlone(cfg: Settings, rows: seq<Observation>, start: int, clock: int)
    requires Spaced(cfg, rows, start, clock)
    ensures Alone(rows)
  {
    forall i, j | 0 <= i < j < |rows| && SameKey(rows[i], rows[j]) ensures !rows[i].IsOpen() {
      assert rows[i] in rows && Waits(rows[i], rows[j]);
    }
  }

  /** Sweeping these rows at that instant leaves each one's wait covering its last mark. */
  ghost predicate SweepSafe(cfg: Settings, rows: seq<Observation>, market: Market, dayStart: int, now: int) {
    forall o :: o in rows && Stale(o, market, dayStart) ==> o.lastMarkedAt < now || now < dayStart - 1 + cfg.Cooldown()
  }

  lemma SweepKeepsSpaced(cfg: Settings, t: Table, market: Market, dayStart: int, now: int)
    requires Spaced(cfg, t.rows, now, now) && dayStart <= now && SweepSafe(cfg, t.rows, market, dayStart, now)
    ensures Spaced(cfg, Sweep(cfg, t, market, dayStart).rows, now, now)
  {
    hide Sweep;
    SweepRows(cfg, t, market, dayStart);
    var rows := Sweep(cfg, t, market, dayStart).rows;
    forall k | 0 <= k < |rows| ensures Timed(cfg, rows[k], now, now) {
      assert t.rows[k] in t.rows;
    }
    forall i, j | 0 <= i < j < |rows| && SameKey(rows[i], rows[j]) ensures Waits(rows[i], rows[j]) {
      assert t.rows[i] in t.rows && Waits(t.rows[i], t.rows[j]);
    }
  }

  lemma LaterIsSpaced(cfg: Settings, rows: seq<Observation>, start: int, clock: int, now: int)
    requires Spaced(cfg, rows, start, clock) && clock <= now
    ensures Spaced(cfg, rows, now, now)
  {
    forall o | o in rows ensures Timed(cfg, o, now, now) {
      assert Timed(cfg, o, start, clock);
    }
  }

  lemma {:induction false} RecordAllKeepsSpaced(cfg: Settings, t: Table, moves: seq<Move>, start: int, clock: int)
    requires cfg.cooldownMinutes > 0
    requires Possible(cfg, t, moves) && InOrder(clock, moves)
    requires Spaced(cfg, t.rows, start, clock)
    ensures Spaced(cfg, RecordAll(cfg, t, moves).rows, start, LastReading(clock, moves))
    decreases |moves|
  {
    hide Record, Spaced;
    if moves != [] {
      var turn := moves[0].turn;
      RecordKeepsSpaced(cfg, t, moves[0], start, clock);
      RecordAllKeepsSpaced(cfg, Record(cfg, t, turn, moves[0].latest), moves[1..], start, turn.exitAt);
    }
  }

  ghost predicate BothSafe(cfg: Settings, dayStart: (Market, int) -> int, rows: seq<Observation>, now: int) {
    SweepSafe(cfg, rows, INDIA, dayStart(INDIA, now), now) && SweepSafe(cfg, rows, US, dayStart(US, now), now)
  }

  lemma CycleKeepsSpaced(cfg: Settings, dayStart: (Market, int) -> int, t: Table, cycle: Cycle, start: int, clock: int)
    requires cfg.cooldownMinutes > 0 && IsCalendar(dayStart)
    requires CyclePossible(cfg, dayStart, t, cycle) && InOrder(cycle.startedAt, cycle.moves)
    requires Spaced(cfg, t.rows, start, clock) && clock <= cycle.startedAt
    requires BothSafe(cfg, dayStart, t.rows, cycle.startedAt)
    ensures Spaced(cfg, RunCycle(cfg, dayStart, t, cycle).rows, cycle.startedAt, Ended(cycle))
  {
    hide Record, Spaced, Sweep, Possible, RecordAll, InOrder, Stale;
    var s := cycle.startedAt;
    LaterIsSpaced(cfg, t.rows, start, clock, s);
    SweepKeepsSpaced(cfg, t, INDIA, dayStart(INDIA, s), s);
    var swept := Sweep(cfg, t, INDIA, dayStart(INDIA, s));
    assert SweepSafe(cfg, swept.rows, US, dayStart(US, s), s) by {
      SweepRows(cfg, t, INDIA, dayStart(INDIA, s));
      OtherMarketKept(cfg, t.rows, swept.rows, dayStart(INDIA, s), dayStart(US, s));
    }
    SweepKeepsSpaced(cfg, swept, US, dayStart(US, s), s);
    RecordAllKeepsSpaced(cfg, SweepBoth(cfg, dayStart, t, s), cycle.moves, s, s);
  }

  lemma OtherMarketKept(cfg: Settings, rows: seq<Observation>, swept: seq<Observation>, indiaDay: int, usDay: int)
    requires |swept| == |rows| && forall k :: 0 <= k < |rows| ==> swept[k] == Swept(cfg, rows[k], INDIA, indiaDay)
    ensures forall o :: o in swept && Stale(o, US, usDay) ==> o in rows
  {
  }

  lemma {:induction false} RunIsSpaced(cfg: Settings, dayStart: (Market, int) -> int, cycles: seq<Cycle>)
    requires cfg.cooldownMinutes > 0 && IsCalendar(dayStart)
    requires RunPossible(cfg, dayStart, cycles) && Clocked(cycles)
    ensures cycles == [] ==> Run(cfg, dayStart, cycles) == EMPTY
    ensures cycles != [] ==>
              var last := cycles[|cycles| - 1];
              Spaced(cfg, Run(cfg, dayStart, cycles).rows, last.startedAt, Ended(last))
    decreases |cycles|
  {
    hide RunCycle, CyclePossible, InOrder;
    if cycles != [] {
      var before, cycle := cycles[..|cycles| - 1], cycles[|cycles| - 1];
      RunIsSpaced(cfg, dayStart, before);
      var rows := Run(cfg, dayStart, before).rows;
      var start, clock :=
        if before == [] then cycle.startedAt - 1 else before[|before| - 1].startedAt,
        if before == [] then cycle.startedAt - 1 else Ended(before[|before| - 1]);
      assert Spaced(cfg, rows, start, clock);
      assert clock < cycle.startedAt;
      assert forall o :: o in rows ==> Timed(cfg, o, start, clock);
      CycleKeepsSpaced(cfg, dayStart, Run(cfg, dayStart, before), cycle, start, clock);
    }
  }

  /** Every observation opened no earlier than each previous exit of its symbol plus the cooldown. */
  ghost predicate EveryReentryWaits(cfg: Settings, rows: seq<Observation>) {
    forall i, j :: 0 <= i < j < |rows| && SameKey(rows[i], rows[j]) ==>
      rows[i].exit.Some? && rows[j].openedAt >= rows[i].exit.value.at + cfg.Cooldown()
  }

  lemma SpacedReentriesWait(cfg: Settings, rows: seq<Observation>, start: int, clock: int)
    requires Spaced(cfg, rows, start, clock)
    ensures EveryReentryWaits(cfg, rows)
  {
    forall i, j | 0 <= i < j < |rows| && SameKey(rows[i], rows[j])
      ensures rows[i].exit.Some? && rows[j].openedAt >= rows[i].exit.value.at + cfg.Cooldown()
    {
      assert Waits(rows[i], rows[j]) && Timed(cfg, rows[i], start, clock);
    }
  }

  lemma CooldownIsRespected(cfg: Settings, dayStart: (Market, int) -> int, cycles: seq<Cycle>)
    requires cfg.cooldownMinutes > 0 && IsCalendar(dayStart)
    requires RunPossible(cfg, dayStart, cycles) && Clocked(cycles)
    ensures EveryReentryWaits(cfg, Run(cfg, dayStart, cycles).rows)
  {
    hide Run, RunPossible;
    RunIsSpaced(cfg, dayStart, cycles);
    if cycles != [] {
      var last := cycles[|cycles| - 1];
      SpacedReentriesWait(cfg, Run(cfg, dayStart, cycles).rows, last.startedAt, Ended(last));
    }
  }

  /** In every reachable state, at any later reading, one row decides as all closed rows would. */
  lemma CheckingLatestIsCheckingAll(cfg: Settings, dayStart: (Market, int) -> int, cycles: seq<Cycle>,
                                    market: Market, symbol: string, latest: Option<nat>, now: int)
    requires cfg.cooldownMinutes > 0 && IsCalendar(dayStart)
    requires RunPossible(cfg, dayStart, cycles) && Clocked(cycles)
    requires cycles != [] ==> Ended(cycles[|cycles| - 1]) <= now
    requires IsLatestClosed(Run(cfg, dayStart, cycles).rows, market, symbol, latest)
    ensures var rows := Run(cfg, dayStart, cycles).rows;
            Cooling(cfg, rows, latest, now) <==>
              exists i: nat :: ClosedOf(rows, market, symbol, i) && BlocksAt(rows[i], now)
  {
    hide Run, RunPossible, Cooling;
    RunIsSpaced(cfg, dayStart, cycles);
    var rows := Run(cfg, dayStart, cycles).rows;
    if cycles != [] {
      var last := cycles[|cycles| - 1];
      LatestRowSpeaksForAll(cfg, rows, last.startedAt, Ended(last), market, symbol, latest, now);
    } else {
      LatestRowSpeaksForAll(cfg, rows, now, now, market, symbol, latest, now);
    }
  }

  lemma SweepBothRows(cfg: Settings, dayStart: (Market, int) -> int, t: Table, startedAt: int)
    ensures var r := SweepBoth(cfg, dayStart, t, startedAt).rows;
            |r| == |t.rows| &&
            forall k :: 0 <= k < |r| ==>
              r[k] == Swept(cfg, t.rows[k], t.rows[k].market, dayStart(t.rows[k].market, startedAt))
  {
    hide Sweep;
    SweepRows(cfg, t, INDIA, dayStart(INDIA, startedAt));
    SweepRows(cfg, Sweep(cfg, t, INDIA, dayStart(INDIA, startedAt)), US, dayStart(US, startedAt));
  }

  // ---------- a completed cycle leaves no stale row ----------

  ghost predicate Fresh(dayStart: (Market, int) -> int, rows: seq<Observation>, startedAt: int) {
    forall o :: o in rows && o.IsOpen() ==> o.openedAt >= dayStart(o.market, startedAt)
  }

  ghost predicate MarkedBy(rows: seq<Observation>, clock: int) {
    forall o :: o in rows ==> o.openedAt <= o.lastMarkedAt <= clock
  }

  lemma {:induction false} RecordAllKeepsFresh(cfg: Settings, dayStart: (Market, int) -> int, t: Table,
                                               moves: seq<Move>, startedAt: int, from: int)
    requires IsCalendar(dayStart) && Possible(cfg, t, moves) && InOrder(from, moves) && startedAt <= from
    requires Fresh(dayStart, t.rows, startedAt) && MarkedBy(t.rows, from)
    ensures Fresh(dayStart, RecordAll(cfg, t, moves).rows, startedAt)
    ensures MarkedBy(RecordAll(cfg, t, moves).rows, LastReading(from, moves))
    decreases |moves|
  {
    hide Record, Size, Notional, Pnl, PathSeen, ExitFor, MayOpen, IsLatestClosed;
    if moves != [] {
      var turn, latest := moves[0].turn, moves[0].latest;
      assert Answered(t.rows, moves[0]);
      AnswerInRange(t.rows, moves[0]);
      var r := Record(cfg, t, turn, latest);
      RecordGrows(cfg, t, turn, latest);
      RecordRows(cfg, t, turn, latest);
      forall k | 0 <= k < |r.rows|
        ensures r.rows[k].IsOpen() ==> r.rows[k].openedAt >= dayStart(r.rows[k].market, startedAt)
        ensures r.rows[k].openedAt <= r.rows[k].lastMarkedAt <= turn.exitAt
      {
        if k < |t.rows| {
          assert t.rows[k] in t.rows && Continues(t.rows[k], r.rows[k]);
        }
      }
      RecordAllKeepsFresh(cfg, dayStart, r, moves[1..], startedAt, turn.exitAt);
    }
  }

  /** What a cycle that starts at this instant does to the rows of an earlier day. */
  ghost predicate SweptClean(dayStart: (Market, int) -> int, before: seq<Observation>, after: seq<Observation>,
                             startedAt: int) {
    && Fresh(dayStart, after, startedAt)
    && |before| <= |after|
    && forall k :: 0 <= k < |before| && Stale(before[k], before[k].market, dayStart(before[k].market, startedAt)) ==>
         SweptSoundly(before[k], after[k], dayStart(before[k].market, startedAt))
  }

  /** Closed at its last mark or just before midnight, whichever came first, with its last figures. */
  ghost predicate SweptSoundly(a: Observation, b: Observation, dayStart: int) {
    && b.status == CLOSED_SESSION_CLOSE && b.exit.Some?
    && a.openedAt <= b.exit.value.at <= a.lastMarkedAt
    && b.exit.value.at < dayStart
    && b == a.(status := b.status, exit := b.exit)
  }

  lemma CycleSweepsClean(cfg: Settings, dayStart: (Market, int) -> int, t: Table, cycle: Cycle)
    requires IsCalendar(dayStart) && InOrder(cycle.startedAt, cycle.moves)
    requires CyclePossible(cfg, dayStart, t, cycle)
    requires MarkedBy(t.rows, cycle.startedAt)
    ensures SweptClean(dayStart, t.rows, RunCycle(cfg, dayStart, t, cycle).rows, cycle.startedAt)
    ensures MarkedBy(RunCycle(cfg, dayStart, t, cycle).rows, Ended(cycle))
  {
    hide SweepBoth, Possible, RecordAll, InOrder, LastReading;
    var swept := SweepBoth(cfg, dayStart, t, cycle.startedAt);
    SweepBothRows(cfg, dayStart, t, cycle.startedAt);
    RecordAllKeepsFresh(cfg, dayStart, swept, cycle.moves, cycle.startedAt, cycle.startedAt);
    RecordAllGrows(cfg, swept, cycle.moves);
    var rows := RunCycle(cfg, dayStart, t, cycle).rows;
    forall k | 0 <= k < |t.rows| && Stale(t.rows[k], t.rows[k].market, dayStart(t.rows[k].market, cycle.startedAt))
      ensures SweptSoundly(t.rows[k], rows[k], dayStart(t.rows[k].market, cycle.startedAt))
    {
      assert t.rows[k] in t.rows && Continues(swept.rows[k], rows[k]);
    }
  }

  /** After every completed cycle of every run whose clock never runs back, nothing open predates its market's day. */
  lemma {:induction false} NothingStaleAfterACycle(cfg: Settings, dayStart: (Market, int) -> int, cycles: seq<Cycle>)
    requires IsCalendar(dayStart) && cycles != []
    requires RunPossible(cfg, dayStart, cycles) && NeverBackwards(cycles)
    ensures var last := |cycles| - 1;
            && SweptClean(dayStart, Run(cfg, dayStart, cycles[..last]).rows, Run(cfg, dayStart, cycles).rows,
                 cycles[last].startedAt)
            && MarkedBy(Run(cfg, dayStart, cycles).rows, Ended(cycles[last]))
    decreases |cycles|
  {
    hide RunCycle, CyclePossible, InOrder, SweptClean, LastReading;
    var before, cycle := cycles[..|cycles| - 1], cycles[|cycles| - 1];
    if before != [] {
      NothingStaleAfterACycle(cfg, dayStart, before);
    }
    CycleSweepsClean(cfg, dayStart, Run(cfg, dayStart, before), cycle);
  }

  // ---------- the giveback path ----------

  /** The peak is the first of the samples that no other exceeds. */
  lemma {:induction false} PeakIsFirstOfEquals(path: seq<Sample>) returns (k: nat)
    requires path != []
    ensures k < |path| && Peak(path) == path[k]
    ensures forall j :: 0 <= j < |path| ==> path[j].pnl <= path[k].pnl
    ensures forall j :: 0 <= j < k ==> path[j].pnl < path[k].pnl
  {
    var n := |path| - 1;
    if n == 0 {
      k := 0;
    } else {
      k := PeakIsFirstOfEquals(path[..n]);
      forall j | 0 <= j < n ensures path[j].pnl <= path[k].pnl && (j < k ==> path[j].pnl < path[k].pnl) {
        assert path[j] == path[..n][j];
      }
      if path[n].pnl > path[k].pnl {
        k := n;
      }
    }
  }

  /**
   A sample carrying the P&L being judged never changes the verdict, provided there is a path to judge: for a
   positive threshold always, for any other when the path already reaches that P&L.
   */
  lemma CurrentMarkIsNeutral(cfg: Settings, path: seq<Sample>, mark: Sample)
    requires cfg.givebackPct > 0.0 || (path != [] && mark.pnl <= Peak(path).pnl)
    requires |path| == 1 ==> path[0].pnl <= 0.0
    ensures GaveBack(cfg, path + [mark], mark.pnl) == GaveBack(cfg, path, mark.pnl)
  {
    hide CanLock;
    if path != [] {
      assert (path + [mark])[..|path|] == path;
      if Peak(path).pnl < mark.pnl {
        NothingGivenBack(cfg, path, mark.pnl);
        NothingGivenBack(cfg, path + [mark], mark.pnl);
      } else {
        assert Peak(path + [mark]) == Peak(path);
      }
    }
  }

  /** At or above the peak a positive threshold is never met. */
  lemma NothingGivenBack(cfg: Settings, path: seq<Sample>, pnl: real)
    requires cfg.givebackPct > 0.0 && path != [] && Peak(path).pnl <= pnl
    ensures !GaveBack(cfg, path, pnl)
  {
    hide Peak, CanLock;
  }

  function Flat(): Sample {
    Sample(0, 0, 0.0, 0, 0.0, 0.0, 0.0, INTRADAY_MARK)
  }

  /** Counting or omitting the current mark gives the same verdict on every path exactly for a positive threshold. */
  lemma CurrentMarkCountsForNothingExactly(cfg: Settings)
    ensures cfg.givebackPct > 0.0 <==>
            forall path: seq<Sample>, mark: Sample :: |path| >= 2 ==>
              GaveBack(cfg, path + [mark], mark.pnl) == GaveBack(cfg, path, mark.pnl)
  {
    if cfg.givebackPct > 0.0 {
      forall path: seq<Sample>, mark: Sample | |path| >= 2
        ensures GaveBack(cfg, path + [mark], mark.pnl) == GaveBack(cfg, path, mark.pnl)
      {
        CurrentMarkIsNeutral(cfg, path, mark);
      }
    } else {
      var path := [Flat(), Flat()];
      var mark := Flat().(pnl := Max(cfg.lockMinPnl, 1.0));
      assert (path + [mark])[..2] == path;
      assert !GaveBack(cfg, path, mark.pnl) && GaveBack(cfg, path + [mark], mark.pnl);
    }
  }

  // ---------- the status follows from the record ----------

  /** The status a row's own figures and its own samples call for. */
  function Due(cfg: Settings, o: Observation, path: seq<Sample>): Status {
    var action := ExitFor(cfg, o, path);
    if cfg.exitEnabled && action.Closes() then ClosedStatus(action) else OPEN_OBSERVATION
  }

  lemma {:induction false} PathAppend(samples: seq<Sample>, s: Sample, i: nat)
    ensures Path(samples + [s], i) == Path(samples, i) + if s.observation == i then [s] else []
  {
    assert (samples + [s])[..|samples|] == samples;
  }

  /** Every row has samples, all of them of existing rows; the first one is flat and the last one is the row's own. */
  ghost predicate Sampled(t: Table) {
    && (forall i: nat :: i >= |t.rows| ==> Path(t.samples, i) == [])
    && forall i: nat :: i < |t.rows| ==> FromFlatTo(Path(t.samples, i), t.rows[i].pnl)
  }

  ghost predicate FromFlatTo(path: seq<Sample>, pnl: real) {
    path != [] && path[0].pnl == 0.0 && path[|path| - 1].pnl == pnl
  }

  /** The exit policy's verdict is the one the stored path gives, whenever the newest sample gets stored. */
  ghost predicate JudgesStoredPath(cfg: Settings) {
    cfg.givebackPct > 0.0 || cfg.autoflush
  }

  ghost predicate StatusIsDue(cfg: Settings, t: Table, i: nat)
    requires i < |t.rows|
  {
    var due := Due(cfg, t.rows[i], Path(t.samples, i));
    if t.rows[i].status == CLOSED_SESSION_CLOSE then due == OPEN_OBSERVATION else t.rows[i].status == due
  }

  ghost predicate Faithful(cfg: Settings, t: Table) {
    Sampled(t) && forall i: nat :: i < |t.rows| ==> StatusIsDue(cfg, t, i)
  }

  /** Neither the status, nor the exit time, nor one more sample of the same P&L changes what is due. */
  lemma DueIsStable(cfg: Settings, o: Observation, closed: Observation, path: seq<Sample>, mark: Sample)
    requires cfg.givebackPct > 0.0 || (path != [] && path[|path| - 1].pnl == o.pnl)
    requires closed == o.(status := closed.status, exit := closed.exit)
    requires |path| == 1 ==> path[0].pnl <= 0.0
    requires mark.pnl == o.pnl
    ensures Due(cfg, closed, path) == Due(cfg, o, path) == Due(cfg, o, path + [mark])
  {
    hide GaveBack;
    CurrentMarkIsNeutral(cfg, path, mark);
  }

  /** One more sample lengthens its own row's path and no other. */
  lemma PathsAppend(samples: seq<Sample>, s: Sample)
    ensures forall i: nat ::
            Path(samples + [s], i) == if i == s.observation then Path(samples, i) + [s] else Path(samples, i)
  {
    forall i: nat
      ensures Path(samples + [s], i) == if i == s.observation then Path(samples, i) + [s] else Path(samples, i) {
      PathAppend(samples, s, i);
    }
  }

  lemma SettledRowIsDue(cfg: Settings, o: Observation, path: seq<Sample>, seen: seq<Sample>, turn: Turn, mark: Sample,
                        exit: Sample)
    requires o.IsOpen() && (cfg.givebackPct > 0.0 || seen == path + [mark])
    requires path == [] || path[0].pnl == 0.0
    requires path == [] ==> o.pnl == 0.0
    requires mark.pnl == o.pnl && exit.pnl == o.pnl
    requires seen == path || seen == path + [mark]
    ensures var row := Outcome(cfg, o, seen, turn);
            row.status == Due(cfg, row, path + [mark]) == Due(cfg, row, path + [mark] + [exit])
  {
    hide GaveBack, Evaluate;
    var row := Outcome(cfg, o, seen, turn);
    if cfg.givebackPct > 0.0 {
      DueIsStable(cfg, o, row, path, mark);
    }
    DueIsStable(cfg, o, row, path + [mark], exit);
    DueIsStable(cfg, row, row, path + [mark], exit);
  }

  lemma SettleKeepsFaithful(cfg: Settings, t: Table, i: nat, o: Observation, turn: Turn)
    requires JudgesStoredPath(cfg) && Faithful(cfg, t)
    requires i <= |t.rows| && o.IsOpen() && (i == |t.rows| ==> o.pnl == 0.0)
    ensures Faithful(cfg, Settle(cfg, Table(Put(t.rows, i, o), t.samples), i, turn))
  {
    hide Due, Path, ExitFor;
    var mark := SampleOf(o, i, turn.sampleAt, INTRADAY_MARK);
    var exit := SampleOf(o, i, turn.exitAt, SHADOW_EXIT);
    var faced := Table(Put(t.rows, i, o), t.samples);
    var path, seen := Path(t.samples, i), VisiblePath(cfg, t.samples, mark, i);
    var r := Settle(cfg, faced, i, turn);
    PathsAppend(t.samples, mark);
    PathsAppend(t.samples + [mark], exit);
    SettleRows(cfg, faced, i, turn);
    SettledRowIsDue(cfg, o, path, seen, turn, mark, exit);
    assert r.samples == t.samples + [mark] || r.samples == t.samples + [mark] + [exit];
    forall k: nat | k < |r.rows| ensures StatusIsDue(cfg, r, k) {
      if k != i {
        assert StatusIsDue(cfg, t, k);
      }
    }
  }

  lemma RecordKeepsFaithful(cfg: Settings, t: Table, turn: Turn, latest: Option<nat>)
    requires JudgesStoredPath(cfg)
    requires latest.Some? ==> latest.value < |t.rows|
    requires Faithful(cfg, t)
    ensures Faithful(cfg, Record(cfg, t, turn, latest))
  {
    hide MayOpen, Size, Notional, Pnl, Settle, Faithful;
    match FindOpen(t.rows, turn.market, turn.symbol)
    case Some(i) =>
      SettleKeepsFaithful(cfg, t, i, Marked(cfg, t.rows[i], turn), turn);
    case None =>
      if MayOpen(cfg, t.rows, turn, latest) {
        SettleKeepsFaithful(cfg, t, |t.rows|, Opened(cfg, turn), turn);
      }
  }

  lemma {:induction false} SweepFirstKeepsFaithful(cfg: Settings, t: Table, market: Market, dayStart: int, n: nat)
    requires JudgesStoredPath(cfg) && Faithful(cfg, t) && n <= |t.rows|
    ensures Faithful(cfg, SweepFirst(cfg, t, market, dayStart, n))
  {
    hide Due, Path, Faithful;
    if n != 0 {
      var before := SweepFirst(cfg, t, market, dayStart, n - 1);
      SweepFirstKeepsFaithful(cfg, t, market, dayStart, n - 1);
      SweepFirstRows(cfg, t, market, dayStart, n - 1, n - 1);
      if Stale(t.rows[n - 1], market, dayStart) {
        SessionCloseKeepsFaithful(cfg, before, n - 1, SweepTime(before.rows[n - 1], dayStart));
      }
    }
  }

  /** A swept row was open, so its own figures called for no exit; the sweep leaves them as they were. */
  lemma SessionCloseKeepsFaithful(cfg: Settings, t: Table, i: nat, at: int)
    requires JudgesStoredPath(cfg) && Faithful(cfg, t) && i < |t.rows| && t.rows[i].IsOpen()
    ensures Faithful(cfg, CloseRow(cfg, t, i, EXIT_SESSION_CLOSE, at))
  {
    hide Due, Path;
    var mark := SampleOf(t.rows[i], i, at, SHADOW_EXIT);
    var r := CloseRow(cfg, t, i, EXIT_SESSION_CLOSE, at);
    PathsAppend(t.samples, mark);
    DueIsStable(cfg, t.rows[i], r.rows[i], Path(t.samples, i), mark);
    DueIsStable(cfg, r.rows[i], r.rows[i], Path(t.samples, i), mark);
    forall k: nat | k < |r.rows| ensures StatusIsDue(cfg, r, k) {
      assert StatusIsDue(cfg, t, k);
    }
  }

  lemma {:induction false} RecordAllKeepsFaithful(cfg: Settings, t: Table, moves: seq<Move>)
    requires JudgesStoredPath(cfg) && Possible(cfg, t, moves) && Faithful(cfg, t)
    ensures Faithful(cfg, RecordAll(cfg, t, moves))
    decreases |moves|
  {
    hide Record, Faithful, IsLatestClosed;
    if moves != [] {
      assert Answered(t.rows, moves[0]);
      AnswerInRange(t.rows, moves[0]);
      RecordKeepsFaithful(cfg, t, moves[0].turn, moves[0].latest);
      RecordAllKeepsFaithful(cfg, Record(cfg, t, moves[0].turn, moves[0].latest), moves[1..]);
    }
  }

  /**
   In every reachable state, on any clock, a row is open exactly when the exit policy, read off the
   row's own figures and its stored samples, asks for no exit; otherwise its status names the exit
   asked for. A row closed at the end of its session had no exit due.
   */
  lemma {:induction false} StatusFollowsFromRecord(cfg: Settings, dayStart: (Market, int) -> int, cycles: seq<Cycle>)
    requires cfg.givebackPct > 0.0 || cfg.autoflush
    requires RunPossible(cfg, dayStart, cycles)
    ensures Faithful(cfg, Run(cfg, dayStart, cycles))
    decreases |cycles|
  {
    hide Faithful, Possible, RecordAll, SweepFirst;
    if cycles == [] {
      NothingIsFaithful(cfg);
    } else {
      var before, cycle := cycles[..|cycles| - 1], cycles[|cycles| - 1];
      StatusFollowsFromRecord(cfg, dayStart, before);
      var t := Run(cfg, dayStart, before);
      var s := cycle.startedAt;
      SweepFirstKeepsFaithful(cfg, t, INDIA, dayStart(INDIA, s), |t.rows|);
      var india := Sweep(cfg, t, INDIA, dayStart(INDIA, s));
      SweepFirstKeepsFaithful(cfg, india, US, dayStart(US, s), |india.rows|);
      RecordAllKeepsFaithful(cfg, SweepBoth(cfg, dayStart, t, s), cycle.moves);
    }
  }

  lemma NothingIsFaithful(cfg: Settings)
    ensures Faithful(cfg, EMPTY)
  {
  }

  // ---------- the status agrees with the levels, whatever the giveback settings ----------

  /** A row whose own figures call for an exit was closed by it; any other is open, given back or swept. */
  ghost predicate LevelsAgree(cfg: Settings, o: Observation) {
    var action := Evaluate(cfg, o);
    if cfg.exitEnabled && action.Closes() then o.status == ClosedStatus(action)
    else o.IsOpen() || o.status == CLOSED_SESSION_CLOSE || o.status == CLOSED_PROFIT_GIVEBACK
  }

  ghost predicate AllLevelsAgree(cfg: Settings, rows: seq<Observation>) {
    forall k :: 0 <= k < |rows| ==> LevelsAgree(cfg, rows[k])
  }

  lemma EvaluateReadsFigures(cfg: Settings, o: Observation, closed: Observation)
    requires closed == o.(status := closed.status, exit := closed.exit)
    ensures Evaluate(cfg, closed) == Evaluate(cfg, o)
  {
  }

  lemma OutcomeAgrees(cfg: Settings, o: Observation, path: seq<Sample>, turn: Turn)
    requires o.IsOpen()
    ensures LevelsAgree(cfg, Outcome(cfg, o, path, turn))
  {
    EvaluateReadsFigures(cfg, o, Outcome(cfg, o, path, turn));
    hide Evaluate, GaveBack;
  }

  lemma RecordKeepsLevels(cfg: Settings, t: Table, turn: Turn, latest: Option<nat>)
    requires latest.Some? ==> latest.value < |t.rows|
    requires AllLevelsAgree(cfg, t.rows)
    ensures AllLevelsAgree(cfg, Record(cfg, t, turn, latest).rows)
  {
    hide Record, Facing, PathSeen, Outcome, LevelsAgree;
    RecordRows(cfg, t, turn, latest);
    var f := Facing(cfg, t, turn, latest);
    if f.Some? {
      OutcomeAgrees(cfg, f.value.1, PathSeen(cfg, t, turn, f.value.0, f.value.1), turn);
    }
  }

  lemma {:induction false} RecordAllKeepsLevels(cfg: Settings, t: Table, moves: seq<Move>)
    requires Possible(cfg, t, moves) && AllLevelsAgree(cfg, t.rows)
    ensures AllLevelsAgree(cfg, RecordAll(cfg, t, moves).rows)
    decreases |moves|
  {
    hide Record, AllLevelsAgree, IsLatestClosed;
    if moves != [] {
      assert Answered(t.rows, moves[0]);
      AnswerInRange(t.rows, moves[0]);
      RecordKeepsLevels(cfg, t, moves[0].turn, moves[0].latest);
      RecordAllKeepsLevels(cfg, Record(cfg, t, moves[0].turn, moves[0].latest), moves[1..]);
    }
  }

  lemma SweepKeepsLevels(cfg: Settings, dayStart: (Market, int) -> int, t: Table, startedAt: int)
    requires AllLevelsAgree(cfg, t.rows)
    ensures AllLevelsAgree(cfg, SweepBoth(cfg, dayStart, t, startedAt).rows)
  {
    hide SweepBoth, Evaluate, Stale;
    SweepBothRows(cfg, dayStart, t, startedAt);
    var rows := SweepBoth(cfg, dayStart, t, startedAt).rows;
    forall k | 0 <= k < |rows| ensures LevelsAgree(cfg, rows[k]) {
      EvaluateReadsFigures(cfg, t.rows[k], rows[k]);
      assert LevelsAgree(cfg, t.rows[k]);
      if t.rows[k].IsOpen() {
        OpenMeansNoExit(cfg, t.rows[k]);
      } else {
        ClosedIsNotSwept(cfg, t.rows[k], dayStart(t.rows[k].market, startedAt));
      }
    }
  }

  lemma OpenMeansNoExit(cfg: Settings, o: Observation)
    requires LevelsAgree(cfg, o) && o.IsOpen()
    ensures !(cfg.exitEnabled && Evaluate(cfg, o).Closes())
  {
    hide Evaluate;
  }

  lemma ClosedIsNotSwept(cfg: Settings, o: Observation, dayStart: int)
    requires !o.IsOpen()
    ensures Swept(cfg, o, o.market, dayStart) == o
  {
  }

  lemma {:induction false} LevelsAlwaysAgree(cfg: Settings, dayStart: (Market, int) -> int, cycles: seq<Cycle>)
    requires RunPossible(cfg, dayStart, cycles)
    ensures AllLevelsAgree(cfg, Run(cfg, dayStart, cycles).rows)
    decreases |cycles|
  {
    hide Possible, RecordAll, SweepBoth, LevelsAgree;
    if cycles != [] {
      var before, cycle := cycles[..|cycles| - 1], cycles[|cycles| - 1];
      LevelsAlwaysAgree(cfg, dayStart, before);
      var t := Run(cfg, dayStart, before);
      SweepKeepsLevels(cfg, dayStart, t, cycle.startedAt);
      RecordAllKeepsLevels(cfg, SweepBoth(cfg, dayStart, t, cycle.startedAt), cycle.moves);
    }
  }

  ghost predicate SizedWithLevels(o: Observation) {
    && o.entryPrice > 0.0 && o.currentPrice > 0.0 && o.quantity > 0
    && o.levels.stopLoss.Some? && o.levels.stopLoss.value > 0.0
    && o.levels.takeProfit.Some? && o.levels.takeProfit.value > 0.0
  }

  /** In profit, by enough, and far enough along the way to the target. */
  ghost predicate InBookingZone(cfg: Settings, o: Observation)
    requires o.levels.takeProfit.Some?
  {
    && cfg.bookingEnabled
    && o.pnl > 0.0
    && (o.pnl >= cfg.bookingMinPnl ||
        if o.notional > 0.0 then o.pnl >= cfg.bookingMinPct * o.notional else cfg.bookingMinPct <= 0.0)
    && o.levels.takeProfit.value > o.entryPrice
    && o.currentPrice - o.entryPrice >= cfg.bookingProgress * (o.levels.takeProfit.value - o.entryPrice)
  }

  /** Some stored profit was large enough in rupees to lock, and the threshold share of it is gone. */
  ghost predicate GaveBackFrom(cfg: Settings, profit: real, pnl: real) {
    profit > 0.0 && profit >= cfg.lockMinPnl && profit - pnl >= cfg.givebackPct * profit
  }

  /** A profit large enough to lock, in rupees or in percent. */
  ghost predicate Lockable(cfg: Settings, s: Sample) {
    s.pnl > 0.0 && (s.pnl >= cfg.lockMinPnl || s.pnlPct >= cfg.lockMinPct)
  }

  /** The highest stored profit can be locked, and the threshold share of it is gone. */
  ghost predicate PeakGivenBack(cfg: Settings, path: seq<Sample>, pnl: real) {
    |path| >= 2 &&
    var peak := Peak(path);
    Lockable(cfg, peak) && (if pnl < peak.pnl then peak.pnl - pnl else 0.0) >= cfg.givebackPct * peak.pnl
  }

  lemma GaveBackExactly(cfg: Settings, path: seq<Sample>, pnl: real)
    ensures GaveBack(cfg, path, pnl) <==> PeakGivenBack(cfg, path, pnl)
  {
    hide Peak;
    if |path| >= 2 && Peak(path).pnl > 0.0 {
      RatioAtLeast(Max(Peak(path).pnl - pnl, 0.0), Peak(path).pnl, cfg.givebackPct);
    }
  }

  /**
   What it means that a row is still open, in every reachable state with exits enabled: it is between its
   levels and outside the booking zone. And wherever the verdict is the stored path's, its peak, if it can
   be locked at all, keeps more than the threshold leaves; and so does every stored profit that could be
   locked by its amount alone.
   */
  lemma StillOpenMeansInside(cfg: Settings, dayStart: (Market, int) -> int, cycles: seq<Cycle>, i: nat)
    requires cfg.exitEnabled
    requires RunPossible(cfg, dayStart, cycles)
    requires i < |Run(cfg, dayStart, cycles).rows|
    ensures var t := Run(cfg, dayStart, cycles);
            var o, path := t.rows[i], Path(t.samples, i);
            o.IsOpen() ==>
              && (SizedWithLevels(o) ==>
                    o.levels.stopLoss.value < o.currentPrice < o.levels.takeProfit.value && !InBookingZone(cfg, o))
              && (cfg.givebackPct > 0.0 || cfg.autoflush ==> NothingToGiveBack(cfg, path, o.pnl))
  {
    hide Run, RunPossible, NothingToGiveBack;
    LevelsAlwaysAgree(cfg, dayStart, cycles);
    var o := Run(cfg, dayStart, cycles).rows[i];
    assert LevelsAgree(cfg, o);
    if o.IsOpen() {
      OpenMeansNoExit(cfg, o);
      if SizedWithLevels(o) {
        NoExitMeansBetween(cfg, o);
      }
      if JudgesStoredPath(cfg) {
        OpenMeansKept(cfg, dayStart, cycles, i);
      }
    }
  }

  ghost predicate NothingToGiveBack(cfg: Settings, path: seq<Sample>, pnl: real) {
    |path| >= 2 ==>
      && (var peak := Peak(path); Lockable(cfg, peak) ==> peak.pnl - pnl < cfg.givebackPct * peak.pnl)
      && (cfg.givebackPct <= 1.0 ==> forall s :: s in path ==> !GaveBackFrom(cfg, s.pnl, pnl))
  }

  lemma OpenMeansKept(cfg: Settings, dayStart: (Market, int) -> int, cycles: seq<Cycle>, i: nat)
    requires cfg.exitEnabled && JudgesStoredPath(cfg)
    requires RunPossible(cfg, dayStart, cycles)
    requires i < |Run(cfg, dayStart, cycles).rows| && Run(cfg, dayStart, cycles).rows[i].IsOpen()
    ensures var t := Run(cfg, dayStart, cycles);
            NothingToGiveBack(cfg, Path(t.samples, i), t.rows[i].pnl)
  {
    hide Run, RunPossible, GaveBack, Path, Evaluate;
    StatusFollowsFromRecord(cfg, dayStart, cycles);
    var t := Run(cfg, dayStart, cycles);
    var o, path := t.rows[i], Path(t.samples, i);
    assert StatusIsDue(cfg, t, i);
    GaveBackExactly(cfg, path, o.pnl);
    if |path| >= 2 && cfg.givebackPct <= 1.0 {
      NotGivenBack(cfg, path, o.pnl);
    }
  }

  lemma NoExitMeansBetween(cfg: Settings, o: Observation)
    requires SizedWithLevels(o) && !Evaluate(cfg, o).Closes()
    ensures o.levels.stopLoss.value < o.currentPrice < o.levels.takeProfit.value && !InBookingZone(cfg, o)
  {
    PctExactly(o.pnl, o.notional, cfg.bookingMinPct);
    hide PctOf;
    var reach := o.levels.takeProfit.value - o.entryPrice;
    if InBookingZone(cfg, o) {
      RatioAtLeast(o.currentPrice - o.entryPrice, reach, cfg.bookingProgress);
    }
  }

  lemma PctExactly(pnl: real, notional: real, pct: real)
    ensures PctOf(pnl, notional) >= pct <==> if notional > 0.0 then pnl >= pct * notional else pct <= 0.0
  {
    if notional > 0.0 {
      RatioAtLeast(pnl, notional, pct);
    }
  }

  lemma RatioAtLeast(part: real, whole: real, share: real)
    requires whole > 0.0
    ensures part / whole >= share <==> part >= share * whole
  {
    ScaleKeepsSign(part / whole - share, whole);
    assert part / whole * whole == part;
  }

  lemma NotGivenBack(cfg: Settings, path: seq<Sample>, pnl: real)
    requires |path| >= 2 && cfg.givebackPct <= 1.0
    requires !PeakGivenBack(cfg, path, pnl)
    ensures forall s :: s in path ==> !GaveBackFrom(cfg, s.pnl, pnl)
  {
    var peak := Peak(path);
    forall s | s in path ensures !GaveBackFrom(cfg, s.pnl, pnl) {
      assert s.pnl <= peak.pnl;
      if s.pnl > 0.0 && s.pnl >= cfg.lockMinPnl {
        if GaveBackFrom(cfg, s.pnl, pnl) {
          PeakCovers(cfg.givebackPct, s.pnl, peak.pnl, pnl);
        }
      }
    }
  }

  lemma PeakCovers(share: real, x: real, peak: real, pnl: real)
    requires 0.0 < x <= peak && share <= 1.0 && x - pnl >= share * x
    ensures (if pnl < peak then peak - pnl else 0.0) >= share * peak
  {
    KeptGrows(share, x, peak);
    NoShareOfNothing(share, x, peak);
    LinearCover(x, peak, pnl, share * x, share * peak);
  }

  lemma KeptGrows(share: real, x: real, y: real)
    requires x <= y && share <= 1.0
    ensures x - share * x <= y - share * y
  {
    NonNegativeProduct(y - x, 1.0 - share);
    assert (y - x) * (1.0 - share) == (y - share * y) - (x - share * x);
  }

  lemma LinearCover(x: real, peak: real, pnl: real, ofX: real, ofPeak: real)
    requires x <= peak && x - pnl >= ofX && x - ofX <= peak - ofPeak && (ofX <= 0.0 ==> ofPeak <= 0.0)
    ensures (if pnl < peak then peak - pnl else 0.0) >= ofPeak
  {
  }

  lemma NoShareOfNothing(share: real, x: real, y: real)
    requires x > 0.0 && y > 0.0
    ensures share * x <= 0.0 ==> share * y <= 0.0
  {
    ScaleKeepsSign(share, x);
    ScaleKeepsSign(share, y);
  }

  /** The three exits that the row's own levels can call for, told apart by its own figures. */
  ghost predicate ClosedForCause(cfg: Settings, o: Observation) {
    if SizedWithLevels(o) then
      var stop, target := o.levels.stopLoss.value, o.levels.takeProfit.value;
      && (o.status == CLOSED_STOP_LOSS <==> o.currentPrice <= stop)
      && (o.status == CLOSED_TAKE_PROFIT <==> stop < o.currentPrice && target <= o.currentPrice)
      && (o.status == CLOSED_PROFIT_BOOKED <==> stop < o.currentPrice < target && InBookingZone(cfg, o))
    else
      o.IsOpen() || o.status == CLOSED_PROFIT_GIVEBACK || o.status == CLOSED_SESSION_CLOSE
  }

  /** In every reachable state a closed row's figures justify the name of its exit, and justify no other. */
  lemma EveryExitHasItsCause(cfg: Settings, dayStart: (Market, int) -> int, cycles: seq<Cycle>, i: nat)
    requires cfg.exitEnabled
    requires RunPossible(cfg, dayStart, cycles)
    requires i < |Run(cfg, dayStart, cycles).rows|
    ensures var t := Run(cfg, dayStart, cycles);
            var o, path := t.rows[i], Path(t.samples, i);
            && ClosedForCause(cfg, o)
            && ((cfg.givebackPct > 0.0 || cfg.autoflush) && o.status == CLOSED_PROFIT_GIVEBACK ==>
                  PeakGivenBack(cfg, path, o.pnl))
  {
    hide Run, RunPossible, Path, PeakGivenBack;
    LevelsAlwaysAgree(cfg, dayStart, cycles);
    var o := Run(cfg, dayStart, cycles).rows[i];
    assert LevelsAgree(cfg, o);
    CauseOf(cfg, o);
    if JudgesStoredPath(cfg) && o.status == CLOSED_PROFIT_GIVEBACK {
      GivebackHasItsCause(cfg, dayStart, cycles, i);
    }
    hide Evaluate, InBookingZone;
  }

  lemma GivebackHasItsCause(cfg: Settings, dayStart: (Market, int) -> int, cycles: seq<Cycle>, i: nat)
    requires cfg.exitEnabled && JudgesStoredPath(cfg)
    requires RunPossible(cfg, dayStart, cycles)
    requires i < |Run(cfg, dayStart, cycles).rows| &&
             Run(cfg, dayStart, cycles).rows[i].status == CLOSED_PROFIT_GIVEBACK
    ensures var t := Run(cfg, dayStart, cycles);
            PeakGivenBack(cfg, Path(t.samples, i), t.rows[i].pnl)
  {
    hide Run, RunPossible, GaveBack, Path, Evaluate;
    StatusFollowsFromRecord(cfg, dayStart, cycles);
    var t := Run(cfg, dayStart, cycles);
    var o, path := t.rows[i], Path(t.samples, i);
    assert StatusIsDue(cfg, t, i);
    CauseOf(cfg, o);
    GaveBackExactly(cfg, path, o.pnl);
  }

  lemma CauseOf(cfg: Settings, o: Observation)
    ensures var action := Evaluate(cfg, o);
            if SizedWithLevels(o) then
              var stop, target := o.levels.stopLoss.value, o.levels.takeProfit.value;
              && (action == EXIT_STOP_LOSS <==> o.currentPrice <= stop)
              && (action == EXIT_TAKE_PROFIT <==> stop < o.currentPrice && target <= o.currentPrice)
              && (action == EXIT_PROFIT_BOOKING <==> stop < o.currentPrice < target && InBookingZone(cfg, o))
            else !action.Closes()
    ensures !Evaluate(cfg, o).EXIT_PROFIT_GIVEBACK? && !Evaluate(cfg, o).EXIT_SESSION_CLOSE?
  {
    PctExactly(o.pnl, o.notional, cfg.bookingMinPct);
    hide PctOf;
    if SizedWithLevels(o) && o.levels.takeProfit.value > o.entryPrice {
      RatioAtLeast(o.currentPrice - o.entryPrice, o.levels.takeProfit.value - o.entryPrice, cfg.bookingProgress);
    }
  }

  // ---------- what the figures on a row mean ----------

  /** The size is the largest whole number of shares the budget affords at the entry price. */
  lemma SizeIsLargestAffordable(budget: real, entryPrice: real, fxRate: real, n: int)
    requires entryPrice * fxRate > 0.0
    ensures n <= Size(budget, entryPrice, fxRate) <==> Notional(n, entryPrice, fxRate) <= budget
  {
    var price := entryPrice * fxRate;
    var ratio := budget / price;
    ScaleKeepsSign(ratio - n as real, price);
    assert ratio * price == budget;
    assert Notional(n, entryPrice, fxRate) == n as real * price;
  }

  lemma ReturnArithmetic(price: real, entry: real, q: real, fx: real)
    requires entry > 0.0 && q > 0.0 && fx > 0.0
    ensures q * entry * fx > 0.0
    ensures (price - entry) * q * fx / (q * entry * fx) == (price - entry) / entry
  {
    var scale := q * fx;
    assert scale > 0.0;
    assert q * entry * fx == entry * scale;
    assert (price - entry) * q * fx == (price - entry) * scale;
    var ratio := (price - entry) / entry;
    assert ratio * entry == price - entry;
    assert (price - entry) * scale == ratio * (entry * scale);
  }

  /**
   A marked row's percentage is the return of its price, whatever the exchange rate; its sign is the sign of
   its P&L.
   */
  lemma MarkedReturnIsPriceReturn(cfg: Settings, o: Observation, turn: Turn)
    requires o.entryPrice > 0.0 && turn.fxRate > 0.0 && Size(cfg.notionalBudget, o.entryPrice, turn.fxRate) > 0
    ensures var m := Marked(cfg, o, turn);
            && m.pnlPct == (turn.price - o.entryPrice) / o.entryPrice == m.pnl / m.notional
            && (m.pnl > 0.0 <==> turn.price > o.entryPrice)
            && (m.pnl == 0.0 <==> turn.price == o.entryPrice)
  {
    hide Size;
    var q := Size(cfg.notionalBudget, o.entryPrice, turn.fxRate);
    ReturnArithmetic(turn.price, o.entryPrice, q as real, turn.fxRate);
    ScaleKeepsSign(turn.price - o.entryPrice, q as real);
    ScaleKeepsSign((turn.price - o.entryPrice) * q as real, turn.fxRate);
    ScaleKeepsSign(o.entryPrice - turn.price, q as real);
    ScaleKeepsSign((o.entryPrice - turn.price) * q as real, turn.fxRate);
    assert (o.entryPrice - turn.price) * q as real == -((turn.price - o.entryPrice) * q as real);
  }
}
