/**
 What one quote does to the tables, in the quote's own terms: when a row opens and with what, how an open
 row is marked, what a closed one records; and that every row of every run goes back to such a quote.
 */
module ShadowTurns {
  import opened Common
  import opened Shadow
  import opened ShadowLaws

  // ---------- when a quote opens a row ----------

  ghost predicate SymbolIsOpen(rows: seq<Observation>, market: Market, symbol: string) {
    exists k :: 0 <= k < |rows| && rows[k].market == market && rows[k].symbol == symbol &&
      rows[k].status == OPEN_OBSERVATION
  }

  /** The wait of the one closed row the query returned is still running. */
  ghost predicate StillWaiting(cfg: Settings, rows: seq<Observation>, latest: Option<nat>, now: int)
    requires latest.Some? ==> latest.value < |rows|
  {
    && cfg.cooldownMinutes > 0 && latest.Some?
    && rows[latest.value].exit.Some? && rows[latest.value].exit.value.reentryBlockedUntil > now
  }

  /** What that many shares cost, in the account's currency. */
  function Worth(n: int, price: real, fxRate: real): real {
    n as real * price * fxRate
  }

  /** The quantity is the largest number of shares the budget affords, and the notional is its price. */
  ghost predicate SizedFor(cfg: Settings, o: Observation, fxRate: real) {
    && o.notional == Worth(o.quantity, o.entryPrice, fxRate)
    && if o.entryPrice * fxRate > 0.0 then
         forall n: int :: n <= o.quantity <==> Worth(n, o.entryPrice, fxRate) <= cfg.notionalBudget
       else o.quantity == 0
  }

  /** The row a quote opens: its market, symbol, price, time and levels, at no profit yet. */
  ghost predicate OpenedOn(cfg: Settings, turn: Turn, o: Observation) {
    && o.market == turn.market && o.symbol == turn.symbol
    && o.entryPrice == o.currentPrice == turn.price && o.openedAt == o.lastMarkedAt == turn.now
    && o.levels.stopLoss == turn.levels.stopLoss && o.levels.takeProfit == turn.levels.takeProfit
    && o.pnl == o.pnlPct == 0.0 && SizedFor(cfg, o, turn.fxRate)
  }

  /** The row a quote marks: price, time and result are the quote's, entry and levels stay. */
  ghost predicate MarkedOn(cfg: Settings, turn: Turn, before: Observation, o: Observation) {
    && o.market == before.market && o.symbol == before.symbol && o.openedAt == before.openedAt
    && o.entryPrice == before.entryPrice && o.levels == before.levels
    && o.currentPrice == turn.price && o.lastMarkedAt == turn.now
    && o.pnl == (turn.price - o.entryPrice) * o.quantity as real * turn.fxRate
    && (o.notional != 0.0 ==> o.pnlPct * o.notional == o.pnl)
    && SizedFor(cfg, o, turn.fxRate)
  }

  /** A row is left open, or closed at the turn's exit time with the wait that starts there. */
  ghost predicate LeftBy(cfg: Settings, turn: Turn, o: Observation, before: Option<Exit>) {
    if o.status == OPEN_OBSERVATION then o.exit == before
    else
      && cfg.exitEnabled && o.status != CLOSED_SESSION_CLOSE
      && o.exit == Some(Exit(turn.exitAt, turn.exitAt + cfg.cooldownMinutes * 60_000_000))
  }

  ghost predicate Mirrors(s: Sample, i: nat, o: Observation, at: int, kind: SampleKind) {
    && s.observation == i && s.at == at && s.kind == kind
    && s.price == o.currentPrice && s.quantity == o.quantity && s.notional == o.notional
    && s.pnl == o.pnl && s.pnlPct == o.pnlPct
  }

  /** One sample of the row's figures at the mark, and one more when the turn closes it. */
  ghost predicate SampledBy(turn: Turn, before: seq<Sample>, after: seq<Sample>, i: nat, o: Observation) {
    && |after| == |before| + (if o.status == OPEN_OBSERVATION then 1 else 2) && before == after[..|before|]
    && Mirrors(after[|before|], i, o, turn.sampleAt, INTRADAY_MARK)
    && (o.status != OPEN_OBSERVATION ==> Mirrors(after[|before| + 1], i, o, turn.exitAt, SHADOW_EXIT))
  }

  lemma SizeIsFor(cfg: Settings, entryPrice: real, fxRate: real)
    ensures var n := Size(cfg.notionalBudget, entryPrice, fxRate);
            if entryPrice * fxRate > 0.0 then
              forall m: int :: m <= n <==> Worth(m, entryPrice, fxRate) <= cfg.notionalBudget
            else n == 0
  {
    if entryPrice * fxRate > 0.0 {
      forall m: int
        ensures m <= Size(cfg.notionalBudget, entryPrice, fxRate) <==>
                  Worth(m, entryPrice, fxRate) <= cfg.notionalBudget
      {
        SizeIsLargestAffordable(cfg.notionalBudget, entryPrice, fxRate, m);
        hide Size;
      }
    }
  }

  lemma OpenedIsOpened(cfg: Settings, turn: Turn)
    ensures OpenedOn(cfg, turn, Opened(cfg, turn)) && Opened(cfg, turn).IsOpen() && Opened(cfg, turn).exit.None?
  {
    SizeIsFor(cfg, turn.price, turn.fxRate);
    hide Size;
  }

  lemma MarkedIsMarked(cfg: Settings, before: Observation, turn: Turn)
    ensures MarkedOn(cfg, turn, before, Marked(cfg, before, turn))
    ensures Marked(cfg, before, turn).status == before.status && Marked(cfg, before, turn).exit == before.exit
  {
    SizeIsFor(cfg, before.entryPrice, turn.fxRate);
    var quantity := Size(cfg.notionalBudget, before.entryPrice, turn.fxRate);
    hide Size;
    var notional, pnl := Notional(quantity, before.entryPrice, turn.fxRate),
      Pnl(turn.price, before.entryPrice, quantity, turn.fxRate);
    if notional != 0.0 {
      QuotientIsShare(pnl, notional);
    }
  }

  lemma QuotientIsShare(x: real, y: real)
    requires y != 0.0
    ensures x / y * y == x
  {
  }

  lemma SettledIsLeft(cfg: Settings, t: Table, i: nat, turn: Turn)
    requires i < |t.rows| && t.rows[i].IsOpen()
    ensures var r := Settle(cfg, t, i, turn);
            && |r.rows| == |t.rows| && (forall k :: 0 <= k < |t.rows| && k != i ==> r.rows[k] == t.rows[k])
            && r.rows[i] == t.rows[i].(status := r.rows[i].status, exit := r.rows[i].exit)
            && LeftBy(cfg, turn, r.rows[i], t.rows[i].exit) && SampledBy(turn, t.samples, r.samples, i, r.rows[i])
  {
    hide Evaluate, GaveBack, VisiblePath;
    EvaluateReadsFigures(cfg, t.rows[i], t.rows[i]);
  }

  // ---------- one turn ----------

  /**
   Which row a turn touches, and how: the open row of the symbol is marked; or a new one opens; or nothing
   happens.
   */
  ghost predicate TurnTaken(cfg: Settings, t: Table, turn: Turn, latest: Option<nat>, r: Table)
    requires latest.Some? ==> latest.value < |t.rows|
  {
    var n := |t.rows|;
    if SymbolIsOpen(t.rows, turn.market, turn.symbol) then
      && |r.rows| == n
      && exists i: nat :: i < n && Touched(cfg, t, turn, i, r)
    else if turn.isBuy && !turn.newsBlocks && !turn.lossPaused && !StillWaiting(cfg, t.rows, latest, turn.now) then
      && |r.rows| == n + 1 && t.rows == r.rows[..n]
      && OpenedOn(cfg, turn, r.rows[n]) && LeftBy(cfg, turn, r.rows[n], None)
      && SampledBy(turn, t.samples, r.samples, n, r.rows[n])
    else r == t
  }

  ghost predicate Touched(cfg: Settings, t: Table, turn: Turn, i: nat, r: Table)
    requires i < |t.rows| == |r.rows|
  {
    var o := t.rows[i];
    && o.market == turn.market && o.symbol == turn.symbol && o.status == OPEN_OBSERVATION
    && (forall k :: 0 <= k < |t.rows| && k != i ==> r.rows[k] == t.rows[k])
    && MarkedOn(cfg, turn, o, r.rows[i]) && LeftBy(cfg, turn, r.rows[i], o.exit)
    && SampledBy(turn, t.samples, r.samples, i, r.rows[i])
  }

  lemma OpenIsFound(rows: seq<Observation>, market: Market, symbol: string)
    ensures FindOpen(rows, market, symbol).Some? <==> SymbolIsOpen(rows, market, symbol)
  {
    hide FindOpen;
    if FindOpen(rows, market, symbol).None? {
      forall k | 0 <= k < |rows| && rows[k].market == market && rows[k].symbol == symbol
        ensures rows[k].status != OPEN_OBSERVATION
      {
        assert rows[k] in rows;
      }
    }
  }

  /** Neither status nor exit enters what a quote opened or marked. */
  lemma FiguresSettled(cfg: Settings, turn: Turn, before: Observation, o: Observation, left: Observation)
    requires left == o.(status := left.status, exit := left.exit)
    ensures OpenedOn(cfg, turn, o) ==> OpenedOn(cfg, turn, left)
    ensures MarkedOn(cfg, turn, before, o) ==> MarkedOn(cfg, turn, before, left)
  {
    hide Worth;
  }

  lemma TurnMarks(cfg: Settings, t: Table, turn: Turn, i: nat)
    requires i < |t.rows| && t.rows[i].IsOpen() && t.rows[i].Of(turn.market, turn.symbol)
    ensures var faced := Table(t.rows[i := Marked(cfg, t.rows[i], turn)], t.samples);
            |Settle(cfg, faced, i, turn).rows| == |t.rows| && Touched(cfg, t, turn, i, Settle(cfg, faced, i, turn))
  {
    hide Settle, Marked, OpenedOn, MarkedOn, SampledBy, LeftBy;
    MarkedIsMarked(cfg, t.rows[i], turn);
    var faced := Table(t.rows[i := Marked(cfg, t.rows[i], turn)], t.samples);
    SettledIsLeft(cfg, faced, i, turn);
    FiguresSettled(cfg, turn, t.rows[i], faced.rows[i], Settle(cfg, faced, i, turn).rows[i]);
  }

  lemma TurnOpens(cfg: Settings, t: Table, turn: Turn)
    ensures var n := |t.rows|;
            var r := Settle(cfg, Table(t.rows + [Opened(cfg, turn)], t.samples), n, turn);
            && |r.rows| == n + 1 && t.rows == r.rows[..n]
            && OpenedOn(cfg, turn, r.rows[n]) && LeftBy(cfg, turn, r.rows[n], None)
            && SampledBy(turn, t.samples, r.samples, n, r.rows[n])
  {
    hide Settle, Opened, OpenedOn, MarkedOn, SampledBy, LeftBy;
    OpenedIsOpened(cfg, turn);
    var faced := Table(t.rows + [Opened(cfg, turn)], t.samples);
    SettledIsLeft(cfg, faced, |t.rows|, turn);
    FiguresSettled(cfg, turn, faced.rows[|t.rows|], faced.rows[|t.rows|], Settle(cfg, faced, |t.rows|,
      turn).rows[|t.rows|]);
  }

  /**
   A quote marks the open row of its symbol; with none open it opens a new row exactly when it is a BUY, news
   and loss discipline let it, and the wait of the closed row consulted is over; otherwise it changes nothing.
   */
  lemma TurnsDecidedExactly(cfg: Settings, t: Table, turn: Turn, latest: Option<nat>)
    requires latest.Some? ==> latest.value < |t.rows|
    ensures TurnTaken(cfg, t, turn, latest, Record(cfg, t, turn, latest))
  {
    hide Settle, Opened, Marked, FindOpen, OpenedOn, SampledBy, LeftBy, Touched, SymbolIsOpen;
    OpenIsFound(t.rows, turn.market, turn.symbol);
    TurnOpens(cfg, t, turn);
    if FindOpen(t.rows, turn.market, turn.symbol).Some? {
      TurnMarks(cfg, t, turn, FindOpen(t.rows, turn.market, turn.symbol).value);
    }
  }

  // ---------- the sweep ----------

  /** A stale row is closed at the last instant that is neither after its last mark nor of the new day. */
  ghost predicate SweptAt(cfg: Settings, before: Observation, after: Observation, dayStart: int) {
    && after == before.(status := CLOSED_SESSION_CLOSE, exit := after.exit) && after.exit.Some?
    && var at := after.exit.value.at;
       && at <= before.lastMarkedAt && at < dayStart && (at == before.lastMarkedAt || at + 1 == dayStart)
       && after.exit.value.reentryBlockedUntil == at + cfg.cooldownMinutes * 60_000_000
  }

  /** The start of a day closes exactly the market's open rows of earlier days, and touches nothing else. */
  lemma SweepsDecidedExactly(cfg: Settings, t: Table, market: Market, dayStart: int, k: nat)
    requires k < |t.rows|
    ensures var r := Sweep(cfg, t, market, dayStart);
            && |r.rows| == |t.rows|
            && if t.rows[k].market == market && t.rows[k].status == OPEN_OBSERVATION && t.rows[k].openedAt < dayStart
               then SweptAt(cfg, t.rows[k], r.rows[k], dayStart)
               else r.rows[k] == t.rows[k]
  {
    hide Sweep;
    SweepRows(cfg, t, market, dayStart);
  }

  // ---------- where the rows come from ----------

  /**
   The quote behind a row: a BUY that neither news nor loss discipline held back, at the row's price, time and
   levels.
   */
  predicate AskedFor(turn: Turn, o: Observation) {
    && turn.isBuy && !turn.newsBlocks && !turn.lossPaused
    && turn.market == o.market && turn.symbol == o.symbol && turn.now == o.openedAt && turn.price == o.entryPrice
    && turn.levels == o.levels
  }

  ghost predicate AskedIn(cycles: seq<Cycle>, o: Observation) {
    exists c, j :: 0 <= c < |cycles| && 0 <= j < |cycles[c].moves| && AskedFor(cycles[c].moves[j].turn, o)
  }

  ghost predicate AllAskedIn(cycles: seq<Cycle>, rows: seq<Observation>) {
    forall k :: 0 <= k < |rows| ==> AskedIn(cycles, rows[k])
  }

  lemma AskedStays(cycles: seq<Cycle>, a: Observation, b: Observation)
    requires AskedIn(cycles, a) && Continues(a, b)
    ensures AskedIn(cycles, b)
  {
    var c, j :| 0 <= c < |cycles| && 0 <= j < |cycles[c].moves| && AskedFor(cycles[c].moves[j].turn, a);
    assert AskedFor(cycles[c].moves[j].turn, b);
  }

  lemma GrownIsAsked(cycles: seq<Cycle>, before: seq<Observation>, after: seq<Observation>)
    requires AllAskedIn(cycles, before) && Grows(before, after)
    requires forall k :: |before| <= k < |after| ==> AskedIn(cycles, after[k])
    ensures AllAskedIn(cycles, after)
  {
    hide AskedIn, Continues;
    forall k | 0 <= k < |after| ensures AskedIn(cycles, after[k]) {
      if k < |before| {
        AskedStays(cycles, before[k], after[k]);
      }
    }
  }

  lemma TurnIsAsked(cfg: Settings, t: Table, cycles: seq<Cycle>, c: nat, j: nat)
    requires c < |cycles| && j < |cycles[c].moves|
    requires var move := cycles[c].moves[j]; move.latest.Some? ==> move.latest.value < |t.rows|
    requires AllAskedIn(cycles, t.rows)
    ensures var move := cycles[c].moves[j]; AllAskedIn(cycles, Record(cfg, t, move.turn, move.latest).rows)
  {
    hide Record, Continues, SampledBy, SizedFor, LeftBy, AskedFor;
    var move := cycles[c].moves[j];
    var r := Record(cfg, t, move.turn, move.latest);
    RecordGrows(cfg, t, move.turn, move.latest);
    TurnsDecidedExactly(cfg, t, move.turn, move.latest);
    if |r.rows| > |t.rows| {
      NewRowIsAsked(cfg, t, move.turn, move.latest);
    }
    GrownIsAsked(cycles, t.rows, r.rows);
  }

  lemma NewRowIsAsked(cfg: Settings, t: Table, turn: Turn, latest: Option<nat>)
    requires latest.Some? ==> latest.value < |t.rows|
    requires |Record(cfg, t, turn, latest).rows| > |t.rows|
    ensures |Record(cfg, t, turn, latest).rows| == |t.rows| + 1
    ensures AskedFor(turn, Record(cfg, t, turn, latest).rows[|t.rows|])
  {
    hide Record, SampledBy, SizedFor, LeftBy;
    TurnsDecidedExactly(cfg, t, turn, latest);
  }

  lemma {:induction false} MovesAreAsked(cfg: Settings, t: Table, cycles: seq<Cycle>, c: nat, j: nat)
    requires c < |cycles| && j <= |cycles[c].moves| && Possible(cfg, t, cycles[c].moves[j..])
    requires AllAskedIn(cycles, t.rows)
    ensures AllAskedIn(cycles, RecordAll(cfg, t, cycles[c].moves[j..]).rows)
    decreases |cycles[c].moves| - j
  {
    hide Record, AllAskedIn, IsLatestClosed;
    var moves := cycles[c].moves[j..];
    if moves != [] {
      assert Answered(t.rows, moves[0]);
      AnswerInRange(t.rows, moves[0]);
      TurnIsAsked(cfg, t, cycles, c, j);
      assert moves[1..] == cycles[c].moves[j + 1..];
      MovesAreAsked(cfg, Record(cfg, t, moves[0].turn, moves[0].latest), cycles, c, j + 1);
    }
  }

  lemma SweptIsAsked(cfg: Settings, dayStart: (Market, int) -> int, t: Table, cycles: seq<Cycle>, startedAt: int)
    requires AllAskedIn(cycles, t.rows)
    ensures AllAskedIn(cycles, SweepBoth(cfg, dayStart, t, startedAt).rows)
  {
    hide Sweep, AskedIn, Continues;
    var india := Sweep(cfg, t, INDIA, dayStart(INDIA, startedAt));
    SweepGrows(cfg, t, INDIA, dayStart(INDIA, startedAt));
    SweepRows(cfg, t, INDIA, dayStart(INDIA, startedAt));
    GrownIsAsked(cycles, t.rows, india.rows);
    SweepGrows(cfg, india, US, dayStart(US, startedAt));
    SweepRows(cfg, india, US, dayStart(US, startedAt));
    GrownIsAsked(cycles, india.rows, SweepBoth(cfg, dayStart, t, startedAt).rows);
  }

  lemma AskedEarlier(before: seq<Cycle>, cycles: seq<Cycle>, rows: seq<Observation>)
    requires before <= cycles && AllAskedIn(before, rows)
    ensures AllAskedIn(cycles, rows)
  {
    forall k | 0 <= k < |rows| ensures AskedIn(cycles, rows[k]) {
      assert AskedIn(before, rows[k]);
      var c, j :| 0 <= c < |before| && 0 <= j < |before[c].moves| && AskedFor(before[c].moves[j].turn, rows[k]);
      assert cycles[c] == before[c];
    }
  }

  /** In every reachable state, every row was opened by a quote of the run that asked for exactly that row. */
  lemma {:induction false} EveryRowWasAskedFor(cfg: Settings, dayStart: (Market, int) -> int, cycles: seq<Cycle>)
    requires RunPossible(cfg, dayStart, cycles)
    ensures AllAskedIn(cycles, Run(cfg, dayStart, cycles).rows)
    decreases |cycles|
  {
    if cycles != [] {
      hide AllAskedIn, Possible, RecordAll, SweepBoth;
      var n := |cycles| - 1;
      EveryRowWasAskedFor(cfg, dayStart, cycles[..n]);
      var t := Run(cfg, dayStart, cycles[..n]);
      AskedEarlier(cycles[..n], cycles, t.rows);
      SweptIsAsked(cfg, dayStart, t, cycles, cycles[n].startedAt);
      assert cycles[n].moves[0..] == cycles[n].moves;
      MovesAreAsked(cfg, SweepBoth(cfg, dayStart, t, cycles[n].startedAt), cycles, n, 0);
    }
  }

  // ---------- what is advised while nothing is due ----------

  ghost predicate NearTarget(cfg: Settings, o: Observation)
    requires o.levels.takeProfit.Some?
  {
    var reach := o.levels.takeProfit.value - o.entryPrice;
    reach > 0.0 && o.currentPrice - o.entryPrice >= cfg.profitLockPct * reach
  }

  ghost predicate NearStop(cfg: Settings, o: Observation)
    requires o.levels.stopLoss.Some?
  {
    var reach := o.entryPrice - o.levels.stopLoss.value;
    reach > 0.0 && o.entryPrice - o.currentPrice >= cfg.lossWatchPct * reach
  }

  /** While no exit is due: lock or trail near the target, watch near the stop, otherwise hold or wait by the price. */
  lemma AdviceExactly(cfg: Settings, o: Observation)
    requires !Evaluate(cfg, o).Closes()
    ensures var action := Evaluate(cfg, o);
            if SizedWithLevels(o) then
              var locks, watches := NearTarget(cfg, o), NearStop(cfg, o);
              && (action == LOCK_PROFIT_OR_TRAIL <==> locks)
              && (action == WATCH_STOP_CLOSELY <==> !locks && watches)
              && (action == HOLD_WINNER <==> !locks && !watches && o.currentPrice > o.entryPrice)
              && (action == HOLD_WITH_STOP <==> !locks && !watches && o.currentPrice < o.entryPrice)
              && (action == WAIT_FOR_MOVE <==> !locks && !watches && o.currentPrice == o.entryPrice)
            else
              action == if o.entryPrice > 0.0 && o.currentPrice > 0.0 && o.quantity <= 0 then NO_POSITION_SIZE
                else NO_EXIT_LEVELS
  {
    hide BookingTriggered, PctOf;
    if SizedWithLevels(o) {
      var up, down := o.levels.takeProfit.value - o.entryPrice, o.entryPrice - o.levels.stopLoss.value;
      if up > 0.0 {
        RatioAtLeast(o.currentPrice - o.entryPrice, up, cfg.profitLockPct);
      }
      if down > 0.0 {
        RatioAtLeast(o.entryPrice - o.currentPrice, down, cfg.lossWatchPct);
      }
    }
  }
}
