/** Building blocks for concrete runs of training cycles: cycles of one quote, and quotes that leave a row flat. */
module ShadowRuns {
  import opened Common
  import opened Shadow
  import opened ShadowLaws

  // ---------- one more cycle ----------

  lemma OneMove(cfg: Settings, t: Table, move: Move)
    requires Answered(t.rows, move)
    ensures Possible(cfg, t, [move]) && RecordAll(cfg, t, [move]) == Record(cfg, t, move.turn, move.latest)
  {
    hide Record;
    assert [move][1..] == [];
  }

  lemma OneMoveCycle(cfg: Settings, dayStart: (Market, int) -> int, t: Table, startedAt: int, move: Move)
    requires Answered(SweepBoth(cfg, dayStart, t, startedAt).rows, move)
    ensures CyclePossible(cfg, dayStart, t, Cycle(startedAt, [move]))
    ensures RunCycle(cfg, dayStart, t, Cycle(startedAt, [move])) ==
            Record(cfg, SweepBoth(cfg, dayStart, t, startedAt), move.turn, move.latest)
  {
    hide Record, SweepBoth, Answered, RecordAll, Possible;
    OneMove(cfg, SweepBoth(cfg, dayStart, t, startedAt), move);
  }

  lemma RunOfNone(cfg: Settings, dayStart: (Market, int) -> int)
    ensures RunPossible(cfg, dayStart, []) && Run(cfg, dayStart, []) == EMPTY
  {
  }

  lemma RunOfOneMore(cfg: Settings, dayStart: (Market, int) -> int, cycles: seq<Cycle>, cycle: Cycle)
    requires RunPossible(cfg, dayStart, cycles) && CyclePossible(cfg, dayStart, Run(cfg, dayStart, cycles), cycle)
    ensures RunPossible(cfg, dayStart, cycles + [cycle])
    ensures Run(cfg, dayStart, cycles + [cycle]) == RunCycle(cfg, dayStart, Run(cfg, dayStart, cycles), cycle)
  {
    hide CyclePossible, RunCycle;
    assert (cycles + [cycle])[..|cycles|] == cycles;
  }

  /** Appends a cycle of one quote to a run. */
  lemma RunOfOneMoreQuote(cfg: Settings, dayStart: (Market, int) -> int, cycles: seq<Cycle>, startedAt: int,
                          move: Move)
    requires RunPossible(cfg, dayStart, cycles)
    requires Answered(SweepBoth(cfg, dayStart, Run(cfg, dayStart, cycles), startedAt).rows, move)
    ensures RunPossible(cfg, dayStart, cycles + [Cycle(startedAt, [move])])
    ensures Run(cfg, dayStart, cycles + [Cycle(startedAt, [move])]) ==
            Record(cfg, SweepBoth(cfg, dayStart, Run(cfg, dayStart, cycles), startedAt), move.turn, move.latest)
  {
    hide Record, SweepBoth, Answered, Run, RunPossible, RunCycle, CyclePossible;
    OneMoveCycle(cfg, dayStart, Run(cfg, dayStart, cycles), startedAt, move);
    RunOfOneMore(cfg, dayStart, cycles, Cycle(startedAt, [move]));
  }

  lemma {:induction false} SweepsNothing(cfg: Settings, t: Table, market: Market, dayStart: int, n: nat)
    requires n <= |t.rows| && forall o :: o in t.rows ==> !Stale(o, market, dayStart)
    ensures SweepFirst(cfg, t, market, dayStart, n) == t
  {
    if n != 0 {
      SweepsNothing(cfg, t, market, dayStart, n - 1);
      assert t.rows[n - 1] in t.rows;
    }
  }

  lemma NothingToSweep(cfg: Settings, dayStart: (Market, int) -> int, t: Table, startedAt: int)
    requires forall o :: o in t.rows ==> o.openedAt >= dayStart(o.market, startedAt)
    ensures SweepBoth(cfg, dayStart, t, startedAt) == t
  {
    SweepsNothing(cfg, t, INDIA, dayStart(INDIA, startedAt), |t.rows|);
    SweepsNothing(cfg, t, US, dayStart(US, startedAt), |t.rows|);
  }

  // ---------- quotes without levels ----------

  /** A quote that only the giveback rule could close a row on. */
  function Quote(market: Market, price: real, now: int, latest: Option<nat>): Move {
    Move(Turn(market, "X", price, 1.0, true, Levels(None, None), false, false, now, now, now), latest)
  }

  /** A quote at the entry price: it opens a row or marks it flat, and never closes it. */
  function Quiet(cfg: Settings, market: Market, now: int, latest: Option<nat>): Move {
    Quote(market, cfg.notionalBudget, now, latest)
  }

  /** Rows of the quiet quotes' symbol only, none of them ever in profit. */
  ghost predicate QuietTable(cfg: Settings, market: Market, t: Table) {
    && (forall k :: 0 <= k < |t.rows| ==> QuietRow(cfg, market, t.rows[k]))
    && forall s :: s in t.samples ==> s.pnl == 0.0
  }

  ghost predicate QuietRow(cfg: Settings, market: Market, o: Observation) {
    o.Of(market, "X") && o.levels == Levels(None, None) && o.entryPrice == cfg.notionalBudget && o.pnl == 0.0
  }

  lemma {:induction false} PathIsPart(samples: seq<Sample>, i: nat)
    ensures forall s :: s in Path(samples, i) ==> s in samples
  {
    if samples != [] {
      PathIsPart(samples[..|samples| - 1], i);
    }
  }

  lemma QuietLeavesOpen(cfg: Settings, o: Observation, path: seq<Sample>)
    requires o.levels == Levels(None, None) && forall s :: s in path ==> s.pnl <= 0.0
    ensures !ExitFor(cfg, o, path).Closes()
  {
  }

  lemma QuietSettles(cfg: Settings, market: Market, t: Table, i: nat, turn: Turn)
    requires QuietTable(cfg, market, t) && i < |t.rows| && t.rows[i].IsOpen()
    ensures Settle(cfg, t, i, turn).rows == t.rows && QuietTable(cfg, market, Settle(cfg, t, i, turn))
  {
    hide ExitFor;
    var mark := SampleOf(t.rows[i], i, turn.sampleAt, INTRADAY_MARK);
    PathIsPart(t.samples, i);
    PathIsPart(t.samples + [mark], i);
    QuietLeavesOpen(cfg, t.rows[i], VisiblePath(cfg, t.samples, mark, i));
  }

  lemma QuietMarks(cfg: Settings, market: Market, t: Table, i: nat, now: int, latest: Option<nat>)
    requires QuietTable(cfg, market, t) && FindOpen(t.rows, market, "X") == Some(i)
    requires latest.Some? ==> latest.value < |t.rows|
    ensures var turn := Quiet(cfg, market, now, latest).turn;
            var r := Record(cfg, t, turn, latest);
            r.rows == t.rows[i := Marked(cfg, t.rows[i], turn)] && QuietTable(cfg, market, r)
  {
    hide Settle;
    var turn := Quiet(cfg, market, now, latest).turn;
    QuietSettles(cfg, market, Table(t.rows[i := Marked(cfg, t.rows[i], turn)], t.samples), i, turn);
  }

  lemma QuietOpens(cfg: Settings, market: Market, t: Table, now: int, latest: Option<nat>)
    requires QuietTable(cfg, market, t) && FindOpen(t.rows, market, "X").None?
    requires latest.Some? ==> latest.value < |t.rows|
    requires !Cooling(cfg, t.rows, latest, now)
    ensures var turn := Quiet(cfg, market, now, latest).turn;
            var r := Record(cfg, t, turn, latest);
            r.rows == t.rows + [Opened(cfg, turn)] && QuietTable(cfg, market, r)
  {
    hide Settle, Cooling;
    var turn := Quiet(cfg, market, now, latest).turn;
    QuietSettles(cfg, market, Table(t.rows + [Opened(cfg, turn)], t.samples), |t.rows|, turn);
  }

  lemma {:induction false} SweepFirstKeepsQuiet(cfg: Settings, market: Market, t: Table, swept: Market, dayStart: int,
                                                n: nat)
    requires QuietTable(cfg, market, t) && n <= |t.rows|
    ensures QuietTable(cfg, market, SweepFirst(cfg, t, swept, dayStart, n))
  {
    if n != 0 {
      SweepFirstKeepsQuiet(cfg, market, t, swept, dayStart, n - 1);
    }
  }

  lemma SweepKeepsQuiet(cfg: Settings, market: Market, dayStart: (Market, int) -> int, t: Table, startedAt: int)
    requires QuietTable(cfg, market, t)
    ensures QuietTable(cfg, market, SweepBoth(cfg, dayStart, t, startedAt))
  {
    hide SweepFirst, QuietTable;
    SweepFirstKeepsQuiet(cfg, market, t, INDIA, dayStart(INDIA, startedAt), |t.rows|);
    var india := Sweep(cfg, t, INDIA, dayStart(INDIA, startedAt));
    SweepFirstKeepsQuiet(cfg, market, india, US, dayStart(US, startedAt), |india.rows|);
  }
}
