/**
 What a run does at each bar, in the terms of the bar and the strategy's own signal: when it buys, with
 which levels, when and where those levels close the position, and what the equity point shows.
 */
module BacktestOrders {
  import opened Common
  import opened PaperLedger
  import opened PaperLaws
  import opened PaperOrders
  import opened Backtest
  import opened BacktestLaws

  /** The signal a bar acts on: given while flat, on the bars before this one, for this symbol and market. */
  ghost function SignalAt(s: Setting, candles: seq<Candle>, k: nat): Option<Signal>
    requires k < |candles| && Bars(s, candles, k).Some?
  {
    if k == 0 || s.symbol in Bars(s, candles, k).value.ledger.positions then None else
    var signal := s.strategy(candles[..k]);
    if signal.Some? && signal.value.symbol == s.symbol && signal.value.market == s.market then signal else None
  }

  /** The purchase a signal asks for at a bar. */
  function OrderFor(signal: Signal, candle: Candle): Request {
    Request(signal.symbol, signal.market, BUY, signal.quantity, candle.open, candle.timestamp, Some(signal.stopLoss),
            signal.takeProfit)
  }

  /** The account marked at a close: cash, and what selling the position there would bring in. */
  ghost predicate MarkedAt(s: Setting, l: Ledger, candle: Candle, point: EquityPoint) {
    && point.timestamp == candle.timestamp && point.cash == l.cash && point.realizedPnl == l.realizedPnl
    && if s.symbol in l.positions then
         var c, held := s.account.costs, l.positions[s.symbol];
         var gross := candle.close * (1.0 - c.slippageBps / 10000.0) * held.quantity as real;
         && point.equity == l.cash + (gross - (gross * (c.brokeragePct + c.taxesPct) + c.brokerageFlat))
         && point.unrealizedPnl == point.equity - l.cash - held.EntryBasis()
       else point.equity == l.cash && point.unrealizedPnl == 0.0
  }

  /** The account between a bar's purchase and its exit check. */
  ghost predicate Between(s: Setting, candles: seq<Candle>, k: nat, entered: Ledger)
    requires k < |candles| && Bars(s, candles, k).Some?
  {
    var l, signal := Bars(s, candles, k).value.ledger, SignalAt(s, candles, k);
    if signal.None? then entered == l
    else BuyDecided(s.account, l, OrderFor(signal.value, candles[k]), entered)
  }

  ghost predicate BarDone(s: Setting, candles: seq<Candle>, k: nat, entered: Ledger)
    requires k < |candles| && Bars(s, candles, k).Some? && Bars(s, candles, k + 1).Some?
  {
    var p, q := Bars(s, candles, k).value, Bars(s, candles, k + 1).value;
    && Between(s, candles, k, entered)
    && Protected(entered, s.symbol, s.market, candles[k].timestamp, candles[k].low, candles[k].high, q.ledger)
    && |q.curve| == |p.curve| + 1 && p.curve == q.curve[..|p.curve|]
    && MarkedAt(s, q.ledger, candles[k], q.curve[|p.curve|])
  }

  lemma EntryIsBetween(s: Setting, candles: seq<Candle>, k: nat)
    requires k < |candles| && Bars(s, candles, k).Some? && JournalAgrees(s.account, Bars(s, candles, k).value.ledger)
    ensures var r := EntryPhase(s, Bars(s, candles, k).value.ledger, candles[..k], candles[k].open,
              candles[k].timestamp);
            r.Ok? && Between(s, candles, k, r.value)
  {
    hide BuyDecided, Submit, JournalAgrees, Bars;
    var l, signal := Bars(s, candles, k).value.ledger, SignalAt(s, candles, k);
    if signal.Some? {
      BuyIsDecided(s.account, l, OrderFor(signal.value, candles[k]), NO_EXIT);
    }
  }

  lemma PointIsMarked(s: Setting, l: Ledger, candle: Candle)
    requires OnlySymbol(s, l) && Point(s, l, candle).Some?
    ensures MarkedAt(s, l, candle, Point(s, l, candle).value)
  {
    var marks := map[s.symbol := candle.close];
    var values, bases := SaleValues(s.account.costs, l.positions, marks), Bases(l.positions);
    if s.symbol in l.positions {
      assert ProceedsOf(s.account.costs, l.positions, marks, s.symbol).Ok?;
      SumSplit(values, s.symbol);
      SumSplit(bases, s.symbol);
      assert values - {s.symbol} == map[] && bases - {s.symbol} == map[];
    } else {
      assert values == map[] && bases == map[];
    }
  }

  /** Every completed bar: the signal's purchase, if there is one, then the exit check, then a point of the curve. */
  lemma EveryBarIsDone(s: Setting, candles: seq<Candle>, k: nat) returns (entered: Ledger)
    requires k < |candles| && Bars(s, candles, k + 1).Some?
    ensures Bars(s, candles, k).Some? && BarDone(s, candles, k, entered)
    ensures AccountInv(s, entered)
  {
    BarsInv(s, candles, k);
    var p, candle := Bars(s, candles, k).value, candles[k];
    EntryIsBetween(s, candles, k);
    EntryKeepsAccount(s, p.ledger, candles[..k], candle.open, candle.timestamp);
    entered := EntryPhase(s, p.ledger, candles[..k], candle.open, candle.timestamp).value;
    hide EntryPhase, Between, Point;
    ExitIsProtective(s.account, entered, s.symbol, s.market, candle.timestamp, candle.low, candle.high);
    ExitKeepsAccount(s, entered, candle);
    PointIsMarked(s, ExitPhase(s, entered, candle).value, candle);
  }

  // ---------- when a run buys ----------

  ghost predicate SellsOnly(journal: seq<Entry>, from: nat) {
    forall i :: from <= i < |journal| ==> journal[i].side.SELL?
  }

  /** A bar writes one buy entry, for its signal and at its open, exactly when it acts on a signal. */
  lemma BuysAtBarExactly(s: Setting, candles: seq<Candle>, k: nat)
    requires k < |candles| && candles[k].open > 0.0 && Bars(s, candles, k + 1).Some?
    ensures Bars(s, candles, k).Some?
    ensures var before, after := Bars(s, candles, k).value.ledger.journal, Bars(s, candles, k + 1).value.ledger.journal;
            && before <= after
            && match SignalAt(s, candles, k)
               case None => SellsOnly(after, |before|)
               case Some(signal) =>
                 && |before| < |after| && SellsOnly(after, |before| + 1)
                 && var e := after[|before|];
                    && e.side.BUY? && e.symbol == s.symbol && e.market == s.market
                    && e.quantity == MaxInt(signal.quantity, 0)
                    && e.requestedPrice == candles[k].open && e.timestamp == candles[k].timestamp
  {
    hide Bars, SignalAt, MarkedAt, MoneyBooked, NoObjection, FirstObjection, FiledAs;
    var entered := EveryBarIsDone(s, candles, k);
    SignalIsOurs(s, candles, k);
  }

  lemma SignalIsOurs(s: Setting, candles: seq<Candle>, k: nat)
    requires k < |candles| && Bars(s, candles, k).Some?
    ensures var signal := SignalAt(s, candles, k);
            signal.Some? ==>
              && signal.value.symbol == s.symbol && signal.value.market == s.market
              && s.symbol !in Bars(s, candles, k).value.ledger.positions
  {
    hide Bars;
  }

  // ---------- whose levels close a position ----------

  ghost predicate OpenedAtBar(s: Setting, candles: seq<Candle>, e: nat, signal: Signal) {
    && e < |candles| && Bars(s, candles, e).Some? && SignalAt(s, candles, e) == Some(signal)
    && NoObjection(s.account, Bars(s, candles, e).value.ledger, OrderFor(signal, candles[e]))
  }

  ghost predicate HeldAt(s: Setting, candles: seq<Candle>, k: nat)
    requires k <= |candles|
  {
    Bars(s, candles, k).Some? && s.symbol in Bars(s, candles, k).value.ledger.positions
  }

  ghost predicate HeldSince(s: Setting, candles: seq<Candle>, e: nat, k: nat)
    requires k <= |candles|
  {
    forall j: nat :: e < j <= k ==> HeldAt(s, candles, j)
  }

  predicate Inside(signal: Signal, candle: Candle) {
    candle.low > signal.stopLoss && (signal.takeProfit.Some? ==> candle.high < signal.takeProfit.value)
  }

  /**
   The position after k bars is the one bar e's signal asked for, and no bar since has touched that signal's
   levels.
   */
  ghost predicate PositionFrom(s: Setting, candles: seq<Candle>, k: nat, e: nat, signal: Signal)
    requires k <= |candles| && HeldAt(s, candles, k)
  {
    && e < k && OpenedAtBar(s, candles, e, signal) && HeldSince(s, candles, e, k)
    && FiledAs(s.account.costs, OrderFor(signal, candles[e]), Bars(s, candles, k).value.ledger.positions[s.symbol])
    && forall i :: e <= i < k ==> Inside(signal, candles[i])
  }

  lemma KeptAnotherBar(s: Setting, candles: seq<Candle>, k: nat, e: nat, signal: Signal)
    requires k < |candles| && HeldAt(s, candles, k) && HeldAt(s, candles, k + 1)
    requires PositionFrom(s, candles, k, e, signal)
    ensures PositionFrom(s, candles, k + 1, e, signal)
  {
    hide Bars, MarkedAt, FiledAs, NoObjection, OpenedAtBar;
    var entered := EveryBarIsDone(s, candles, k);
    SignalIsOurs(s, candles, k);
    var held := entered.positions[s.symbol];
    LevelsFiled(s.account.costs, OrderFor(signal, candles[e]), held);
    hide SignalAt, BuyDecided;
    assert Bars(s, candles, k + 1).value.ledger == entered;
  }

  lemma LevelsFiled(c: Costs, r: Request, held: Holding)
    requires FiledAs(c, r, held)
    ensures Some(held.stopLoss) == r.stopLoss && held.takeProfit == r.takeProfit && held.quantity == r.quantity
  {
  }

  lemma JustOpened(s: Setting, candles: seq<Candle>, k: nat) returns (signal: Signal)
    requires k < |candles| && Bars(s, candles, k).Some? && !HeldAt(s, candles, k) && HeldAt(s, candles, k + 1)
    ensures PositionFrom(s, candles, k + 1, k, signal)
  {
    hide Bars, MarkedAt, FiledAs, NoObjection, FirstObjection, Answers, MoneyBooked;
    var entered := EveryBarIsDone(s, candles, k);
    SignalIsOurs(s, candles, k);
    signal := SignalAt(s, candles, k).value;
    LevelsFiled(s.account.costs, OrderFor(signal, candles[k]), entered.positions[s.symbol]);
    hide SignalAt;
    assert Bars(s, candles, k + 1).value.ledger == entered;
  }

  /**
   Every position of a run goes back to one bar's signal, and every bar since has stayed inside that signal's
   levels.
   */
  lemma {:induction false} PositionIsTheSignals(s: Setting, candles: seq<Candle>, k: nat)
    returns (e: nat, signal: Signal)
    requires k <= |candles| && HeldAt(s, candles, k)
    ensures PositionFrom(s, candles, k, e, signal)
  {
    hide PositionFrom, HeldAt, Bars;
    NothingHeldYet(s, candles);
    HeldNow(s, candles, k);
    EarlierBars(s, candles, k - 1);
    if HeldAt(s, candles, k - 1) {
      e, signal := PositionIsTheSignals(s, candles, k - 1);
      KeptAnotherBar(s, candles, k - 1, e, signal);
    } else {
      e := k - 1;
      signal := JustOpened(s, candles, k - 1);
    }
  }

  lemma NothingHeldYet(s: Setting, candles: seq<Candle>)
    ensures !HeldAt(s, candles, 0)
  {
  }

  lemma HeldNow(s: Setting, candles: seq<Candle>, k: nat)
    requires k <= |candles| && HeldAt(s, candles, k)
    ensures Bars(s, candles, k).Some?
  {
    hide Bars;
  }

  lemma EarlierBars(s: Setting, candles: seq<Candle>, k: nat)
    requires k < |candles| && Bars(s, candles, k + 1).Some?
    ensures Bars(s, candles, k).Some?
  {
    hide Bar;
  }

  /** The position a bar starts its exit check with has the levels of the signal that opened it. */
  lemma EnteredWithLevels(s: Setting, candles: seq<Candle>, k: nat, e: nat, signal: Signal, entered: Ledger)
    requires e <= k < |candles| && Bars(s, candles, k).Some?
    requires OpenedAtBar(s, candles, e, signal) && HeldSince(s, candles, e, k)
    requires Between(s, candles, k, entered)
    ensures s.symbol in entered.positions
    ensures FiledAs(s.account.costs, OrderFor(signal, candles[e]), entered.positions[s.symbol])
  {
    hide Bars, FiledAs, NoObjection, FirstObjection, Answers, MoneyBooked;
    SignalIsOurs(s, candles, e);
    if e < k {
      assert HeldAt(s, candles, k);
      SignalIsOurs(s, candles, k);
      var e', signal' := PositionIsTheSignals(s, candles, k);
      SignalIsOurs(s, candles, e');
      assert e < e' ==> HeldAt(s, candles, e');
      assert e' < e ==> HeldAt(s, candles, e);
    }
  }

  /**
   A bar that reaches the stop of the signal that opened the position sells the whole of it at that stop; one
   that only reaches the signal's target, at that target; any other bar keeps the position as it is. The bar
   that opens it is no exception.
   */
  lemma SignalLevelsAreHonoured(s: Setting, candles: seq<Candle>, k: nat, e: nat, signal: Signal)
    requires e <= k < |candles| && Bars(s, candles, k + 1).Some?
    requires OpenedAtBar(s, candles, e, signal) && HeldSince(s, candles, e, k)
    ensures var candle, q := candles[k], Bars(s, candles, k + 1).value.ledger;
            if candle.low <= signal.stopLoss then
              ClosedAtLevel(s, q, candle.timestamp, signal.quantity, signal.stopLoss, STOP_LOSS)
            else if signal.takeProfit.Some? && signal.takeProfit.value <= candle.high then
              ClosedAtLevel(s, q, candle.timestamp, signal.quantity, signal.takeProfit.value, PROFIT_TARGET)
            else
              s.symbol in q.positions && FiledAs(s.account.costs, OrderFor(signal, candles[e]), q.positions[s.symbol])
  {
    hide Bars, MarkedAt, FiledAs, Between, SignalAt, OpenedAtBar;
    var entered := EveryBarIsDone(s, candles, k);
    EnteredWithLevels(s, candles, k, e, signal, entered);
    LevelsFiled(s.account.costs, OrderFor(signal, candles[e]), entered.positions[s.symbol]);
  }

  ghost predicate ClosedAtLevel(s: Setting, l: Ledger, timestamp: int, units: int, price: real, reason: ExitReason) {
    && s.symbol !in l.positions && l.journal != []
    && var e := l.journal[|l.journal| - 1];
       && e.status.CLOSED? && e.symbol == s.symbol && e.exitReason == reason && e.timestamp == timestamp
       && e.quantity == units && e.requestedPrice == price
  }

  // ---------- the end of a run ----------

  /**
   What is held after the last bar is sold at its close when so configured, with one more point; else nothing
   happens.
   */
  lemma EndIsLiquidated(s: Setting, candles: seq<Candle>, closeOnEnd: bool)
    requires ValidCandles(candles) && Finished(s, candles, closeOnEnd).Some?
    ensures Bars(s, candles, |candles|).Some?
    ensures var p, q := Bars(s, candles, |candles|).value, Finished(s, candles, closeOnEnd).value;
            if closeOnEnd && candles != [] && s.symbol in p.ledger.positions then
              var last := candles[|candles| - 1];
              && SoldWholeAt(p.ledger, s.symbol, last.timestamp, last.close, END_OF_BACKTEST, q.ledger)
              && |q.curve| == |p.curve| + 1 && p.curve == q.curve[..|p.curve|]
              && MarkedAt(s, q.ledger, last, q.curve[|p.curve|])
            else q == p
  {
    hide Bars, MarkedAt, SoldWholeAt, Point, CloseOpenPosition, RoundTrips, StopsLose, StatusBySide;
    var n := |candles|;
    var p := Bars(s, candles, n).value;
    if closeOnEnd && candles != [] && s.symbol in p.ledger.positions {
      var last := candles[n - 1];
      BarsInv(s, candles, n);
      LiquidationNeverRaises(s, candles);
      CloseOutIsWhole(s.account, p.ledger, s.symbol, s.market, last.close, last.timestamp, END_OF_BACKTEST);
      PointIsMarked(s, Finished(s, candles, closeOnEnd).value.ledger, last);
    }
  }

  // ---------- what the counts count ----------

  function Places(journal: seq<Entry>, p: Entry -> bool): set<nat> {
    set i: nat | i < |journal| && p(journal[i])
  }

  lemma {:induction false} CountIsCardinality(journal: seq<Entry>, p: Entry -> bool)
    ensures Count(journal, p) == |Places(journal, p)|
  {
    if journal != [] {
      var n := |journal| - 1;
      CountIsCardinality(journal[..n], p);
      assert Places(journal, p) == Places(journal[..n], p) + if p(journal[n]) then {n} else {};
    }
  }

  lemma {:induction false} CountOfFiltered(journal: seq<Entry>, p: Entry -> bool, q: Entry -> bool, both: Entry -> bool)
    requires forall e :: both(e) <==> p(e) && q(e)
    ensures Count(Filter(journal, p), q) == Count(journal, both)
    ensures |Filter(journal, p)| == Count(journal, p)
  {
    if journal != [] {
      var before, e := journal[..|journal| - 1], journal[|journal| - 1];
      CountOfFiltered(before, p, q, both);
      FoldsAppend(Filter(before, p), e, q, Pnl);
      assert Filter(before, p) + [] == Filter(before, p);
    }
  }

  predicate Purchased(e: Entry) {
    e.side.BUY? && e.status.OPENED?
  }

  predicate ClosedTrade(e: Entry) {
    e.side.SELL? && e.status.CLOSED?
  }

  predicate TurnedDown(e: Entry) {
    e.status.BLOCKED?
  }

  predicate WonTrade(e: Entry) {
    ClosedTrade(e) && e.realizedPnl > 0.0
  }

  predicate LostTrade(e: Entry) {
    ClosedTrade(e) && e.realizedPnl < 0.0
  }

  /**
   What the metrics say of a journal and a curve: how many purchases, sales, refusals, sales at a profit and at a
   loss there are, the share of winners, the last equity and the return it makes on the starting cash.
   */
  ghost predicate MetricsTell(m: Metrics, journal: seq<Entry>, curve: seq<EquityPoint>, startingCash: real) {
    && m.entries == |Places(journal, Purchased)| && m.closedTrades == |Places(journal, ClosedTrade)|
    && m.blockedEntries == |Places(journal, TurnedDown)|
    && m.winningTrades == |Places(journal, WonTrade)| && m.losingTrades == |Places(journal, LostTrade)|
    && m.winRate * m.closedTrades as real == m.winningTrades as real
    && (m.closedTrades == 0 ==> m.winRate == 0.0)
    && m.finalEquity == (if curve == [] then startingCash else curve[|curve| - 1].equity)
    && startingCash * (1.0 + m.totalReturnPct) == m.finalEquity
  }

  lemma PlacesOfCounts(journal: seq<Entry>)
    ensures Count(journal, IsEntry) == |Places(journal, Purchased)|
    ensures |Filter(journal, IsClosing)| == |Places(journal, ClosedTrade)|
    ensures Count(journal, IsBlocked) == |Places(journal, TurnedDown)|
    ensures Count(Filter(journal, IsClosing), (e: Entry) => e.realizedPnl > 0.0) == |Places(journal, WonTrade)|
    ensures Count(Filter(journal, IsClosing), (e: Entry) => e.realizedPnl < 0.0) == |Places(journal, LostTrade)|
  {
    CountOfFiltered(journal, IsClosing, (e: Entry) => e.realizedPnl > 0.0, WonTrade);
    CountOfFiltered(journal, IsClosing, (e: Entry) => e.realizedPnl < 0.0, LostTrade);
    CountIsCardinality(journal, WonTrade);
    CountIsCardinality(journal, LostTrade);
    CountIsCardinality(journal, IsClosing);
    CountIsCardinality(journal, IsEntry);
    CountIsCardinality(journal, IsBlocked);
    hide Count, Filter;
    assert Places(journal, IsEntry) == Places(journal, Purchased);
    assert Places(journal, IsClosing) == Places(journal, ClosedTrade);
    assert Places(journal, IsBlocked) == Places(journal, TurnedDown);
  }

  /** The metrics of a run are read off its journal and its curve. */
  lemma MetricsCountEntries(journal: seq<Entry>, curve: seq<EquityPoint>, startingCash: real, drawdown: real)
    requires startingCash > 0.0
    ensures MetricsTell(MetricsOf(journal, curve, startingCash, drawdown), journal, curve, startingCash)
    ensures MetricsOf(journal, curve, startingCash, drawdown).maxDrawdownPct == drawdown
  {
    hide Count, Filter, Places, Total;
    PlacesOfCounts(journal);
    ReportedRatesAreConsistent(journal, curve, startingCash, drawdown);
  }

  // ---------- which candles are accepted ----------

  /** A candle is sound exactly when all its prices are positive and the bar spans its open and its close. */
  lemma SoundExactly(c: Candle)
    ensures c.PositivePrices() && c.Consistent() <==>
              && 0.0 < c.low <= c.open <= c.high && c.low <= c.close <= c.high
    ensures c.PositivePrices() <==> c.open > 0.0 && c.high > 0.0 && c.low > 0.0 && c.close > 0.0
  {
  }
}
