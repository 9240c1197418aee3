/** Exactly which accounts never show negative equity in a backtest, and what a reported drawdown is worth. */
module BacktestDrawdown {
  import opened Common
  import opened PaperLedger
  import opened PaperLaws
  import opened PaperSolvency
  import opened Backtest
  import opened BacktestLaws
  import Drawdown

  lemma PointOfOne(s: Setting, l: Ledger, held: Holding, candle: Candle, value: real)
    requires l.positions == map[s.symbol := held]
    requires SaleValue(s.account.costs, held, candle.close) == Ok(value)
    ensures Point(s, l, candle) ==
            Some(EquityPoint(candle.timestamp, l.cash + value, l.cash, l.realizedPnl, value - held.EntryBasis()))
  {
    var marks := map[s.symbol := candle.close];
    assert MarkOf(l.positions, marks, s.symbol) == candle.close;
    var values, bases := SaleValues(s.account.costs, l.positions, marks), Bases(l.positions);
    SumSplit(values, s.symbol);
    SumSplit(bases, s.symbol);
    assert values - {s.symbol} == map[] && bases - {s.symbol} == map[];
  }

  lemma PointOfNone(s: Setting, l: Ledger, candle: Candle)
    requires l.positions == map[]
    ensures Point(s, l, candle) == Some(EquityPoint(candle.timestamp, l.cash, l.cash, l.realizedPnl, 0.0))
  {
    assert SaleValues(s.account.costs, l.positions, map[s.symbol := candle.close]) == map[] &&
      Bases(l.positions) == map[];
  }

  lemma NextBar(s: Setting, candles: seq<Candle>, k: nat)
    requires 0 < k <= |candles| && Bars(s, candles, k - 1).Some?
    ensures Bars(s, candles, k) == Bar(s, Bars(s, candles, k - 1).value, candles[..k - 1], candles[k - 1])
  {
    hide Bar;
  }

  // ---------- accounts whose backtests never show negative equity ----------

  /** While something is held the buffer is untouched, and it covers the flat fee of the sale. */
  ghost predicate Funded(a: Account, l: Ledger) {
    l.cash >= 0.0 && (l.positions != map[] ==> l.cash >= a.limits.minCashBuffer)
  }

  ghost predicate Solvent(p: Progress) {
    forall i :: 0 <= i < |p.curve| ==> p.curve[i].equity >= 0.0
  }

  lemma EntryKeepsFunded(s: Setting, l: Ledger, history: seq<Candle>, open: real, timestamp: int)
    requires AccountInv(s, l) && Funded(s.account, l) && EntryPhase(s, l, history, open, timestamp).Ok?
    ensures Funded(s.account, EntryPhase(s, l, history, open, timestamp).value)
  {
    if EntryPhase(s, l, history, open, timestamp) != Ok(l) {
      var request := SignalRequest(s, s.strategy(history).value, open, timestamp);
      if EntryBlockReason(s.account, l, request).None? {
        var price, gross, costs := Purchase(s.account, l, request);
      }
    }
  }

  /** Emptying the position takes at most the flat fee away. */
  lemma SaleKeepsFunded(s: Setting, l: Ledger, price: real, timestamp: int, reason: ExitReason)
    requires FeesWithin(s.account.costs, s.account.limits.minCashBuffer)
    requires AccountInv(s, l) && Funded(s.account, l) && s.symbol in l.positions
    requires CloseOpenPosition(s.account, l, s.symbol, s.market, price, timestamp, reason).Ok?
    ensures Funded(s.account, CloseOpenPosition(s.account, l, s.symbol, s.market, price, timestamp, reason).value)
  {
    var request := CloseOutRequest(l, s.symbol, s.market, price, timestamp);
    FullSale(s, l, price, timestamp, reason);
    var p, gross, costs, realized := Sale(s.account, l, request, reason);
    FeesAtMostGross(s.account.costs, price, request.quantity);
    var l' := CloseOpenPosition(s.account, l, s.symbol, s.market, price, timestamp, reason).value;
    assert l'.positions == map[];
  }

  lemma ExitKeepsFunded(s: Setting, l: Ledger, candle: Candle)
    requires FeesWithin(s.account.costs, s.account.limits.minCashBuffer)
    requires AccountInv(s, l) && Funded(s.account, l) && ExitPhase(s, l, candle).Ok?
    ensures Funded(s.account, ExitPhase(s, l, candle).value)
  {
    hide AccountInv, Funded, CloseOpenPosition;
    var order := ExitOrder(l, s.symbol, s.market, candle.timestamp, candle.low, candle.high);
    if order.Some? {
      var (request, reason) := order.value;
      assert request == CloseOutRequest(l, s.symbol, s.market, request.referencePrice, candle.timestamp);
      ClosesOut(s, l, request.referencePrice, candle.timestamp, reason);
      SaleKeepsFunded(s, l, request.referencePrice, candle.timestamp, reason);
    }
  }

  lemma ClosesOut(s: Setting, l: Ledger, price: real, timestamp: int, reason: ExitReason)
    ensures CloseOpenPosition(s.account, l, s.symbol, s.market, price, timestamp, reason) ==
            Submit(s.account, l, CloseOutRequest(l, s.symbol, s.market, price, timestamp), reason)
  {
  }

  lemma PointSolvent(s: Setting, l: Ledger, candle: Candle)
    requires FeesWithin(s.account.costs, s.account.limits.minCashBuffer)
    requires AccountInv(s, l) && Funded(s.account, l) && Point(s, l, candle).Some?
    ensures Point(s, l, candle).value.equity >= 0.0
  {
    var values := SaleValues(s.account.costs, l.positions, map[s.symbol := candle.close]);
    if s.symbol in l.positions {
      var held := l.positions[s.symbol];
      var gross := Gross(s.account.costs.ExecutionPrice(SELL, candle.close).value, held.quantity);
      FeesAtMostGross(s.account.costs, candle.close, held.quantity);
      assert values[s.symbol] >= -s.account.limits.minCashBuffer;
      SumSplit(values, s.symbol);
      assert values - {s.symbol} == map[];
    } else {
      assert values == map[];
    }
  }

  lemma BarSolvent(s: Setting, p: Progress, history: seq<Candle>, candle: Candle)
    requires FeesWithin(s.account.costs, s.account.limits.minCashBuffer)
    requires AccountInv(s, p.ledger) && Funded(s.account, p.ledger) && Solvent(p)
    requires Bar(s, p, history, candle).Some?
    ensures var q := Bar(s, p, history, candle).value;
            Funded(s.account, q.ledger) && Solvent(q)
  {
    hide EntryPhase, ExitPhase, Point, AccountInv, Funded, FeesWithin;
    var l := p.ledger;
    EntryKeepsAccount(s, l, history, candle.open, candle.timestamp);
    EntryKeepsFunded(s, l, history, candle.open, candle.timestamp);
    var entered := EntryPhase(s, l, history, candle.open, candle.timestamp).value;
    ExitKeepsFunded(s, entered, candle);
    ExitKeepsAccount(s, entered, candle);
    PointSolvent(s, ExitPhase(s, entered, candle).value, candle);
  }

  lemma {:induction false} BarsSolvent(s: Setting, candles: seq<Candle>, k: nat)
    requires FeesWithin(s.account.costs, s.account.limits.minCashBuffer) && s.account.startingCash >= 0.0
    requires k <= |candles| && Bars(s, candles, k).Some?
    ensures Funded(s.account, Bars(s, candles, k).value.ledger) && Solvent(Bars(s, candles, k).value)
  {
    hide Bar;
    if k > 0 {
      BarsSolvent(s, candles, k - 1);
      BarsInv(s, candles, k - 1);
      BarSolvent(s, Bars(s, candles, k - 1).value, candles[..k - 1], candles[k - 1]);
    }
  }

  lemma FinishedSolvent(s: Setting, candles: seq<Candle>, closeOnEnd: bool)
    requires FeesWithin(s.account.costs, s.account.limits.minCashBuffer) && s.account.startingCash >= 0.0
    requires ValidCandles(candles) && Finished(s, candles, closeOnEnd).Some?
    ensures Solvent(Finished(s, candles, closeOnEnd).value)
  {
    hide Bars, CloseOpenPosition, Point, FeesWithin, Funded;
    var n := |candles|;
    BarsSolvent(s, candles, n);
    BarsInv(s, candles, n);
    var p := Bars(s, candles, n).value;
    if Finished(s, candles, closeOnEnd) != Bars(s, candles, n) {
      var last := candles[n - 1];
      LiquidationNeverRaises(s, candles);
      SaleKeepsFunded(s, p.ledger, last.close, last.timestamp, END_OF_BACKTEST);
      PointSolvent(s, Liquidate(s, p, last).value.ledger, last);
    }
  }

  /** Nothing was ever bought: every point shows the starting cash. */
  ghost predicate Idle(a: Account, p: Progress) {
    Untraded(a, p.ledger) && forall i :: 0 <= i < |p.curve| ==> p.curve[i].equity == a.startingCash
  }

  /** Where nothing can be bought, or nothing sold, a bar that does not raise holds nothing. */
  lemma BarIdle(s: Setting, p: Progress, history: seq<Candle>, candle: Candle)
    requires NothingBuys(s.account) || NothingSells(s.account.costs)
    requires candle.PositivePrices() && AccountInv(s, p.ledger) && Idle(s.account, p)
    requires Bar(s, p, history, candle).Some?
    ensures Idle(s.account, Bar(s, p, history, candle).value)
  {
    hide AccountInv, Point;
    var l := p.ledger;
    EntryEffect(s, l, history, candle.open, candle.timestamp);
    BarRaisesExactly(s, p, history, candle);
    var entered := EntryPhase(s, l, history, candle.open, candle.timestamp).value;
    if NothingBuys(s.account) && entered != l {
      SubmitKeepsUntraded(s.account, l, SignalRequest(s, s.strategy(history).value, candle.open, candle.timestamp),
        NO_EXIT);
    }
    hide EntryPhase;
    assert s.symbol !in entered.positions;
    assert Untraded(s.account, entered) && ExitPhase(s, entered, candle) == Ok(entered);
    PointOfNone(s, entered, candle);
  }

  lemma {:induction false} BarsIdle(s: Setting, candles: seq<Candle>, k: nat)
    requires NothingBuys(s.account) || NothingSells(s.account.costs)
    requires ValidCandles(candles) && k <= |candles| && Bars(s, candles, k).Some?
    ensures Idle(s.account, Bars(s, candles, k).value)
  {
    hide Bar;
    if k > 0 {
      BarsIdle(s, candles, k - 1);
      BarsInv(s, candles, k - 1);
      BarIdle(s, Bars(s, candles, k - 1).value, candles[..k - 1], candles[k - 1]);
    }
  }

  predicate AlwaysSolvent(a: Account) {
    NothingBuys(a) || NothingSells(a.costs) || FeesWithin(a.costs, a.limits.minCashBuffer)
  }

  /** In such an account no run shows negative equity. */
  lemma EquityNeverNegative(s: Setting, candles: seq<Candle>, closeOnEnd: bool)
    requires s.account.startingCash > 0.0 && AlwaysSolvent(s.account)
    requires ValidCandles(candles) && Finished(s, candles, closeOnEnd).Some?
    ensures Drawdown.NonNegative(Equities(Finished(s, candles, closeOnEnd).value.curve))
  {
    hide Bars;
    if NothingBuys(s.account) || NothingSells(s.account.costs) {
      BarsIdle(s, candles, |candles|);
    } else {
      FinishedSolvent(s, candles, closeOnEnd);
    }
  }

  // ---------- any other account ----------

  /** Asks for one unit whenever it is asked, with a stop at zero. */
  function OneUnit(a: Account): Setting {
    Setting(a, "X", INDIA, (history: seq<Candle>) => Some(Signal("X", INDIA, 1, 0.0, None)))
  }

  /** A bar to start on, and one that opens at one price and closes at another. */
  function OpenAndClose(open: real, close: real): seq<Candle> {
    [Candle(0, 1.0, 1.0, 1.0, 1.0, 0.0), Candle(1, open, Max(open, close), Min(open, close), close, 0.0)]
  }

  lemma FirstBar(s: Setting, candles: seq<Candle>)
    requires candles != []
    ensures Bars(s, candles, 1) ==
            Some(Progress(Opening(s.account.startingCash),
                          [EquityPoint(candles[0].timestamp, s.account.startingCash, s.account.startingCash, 0.0,
                            0.0)]))
  {
    hide Point;
    var opening, candle := Opening(s.account.startingCash), candles[0];
    assert candles[..0] == [];
    assert Bars(s, candles, 0) == Some(Progress(opening, []));
    NextBar(s, candles, 1);
    assert EntryPhase(s, opening, candles[..0], candle.open, candle.timestamp) == Ok(opening);
    assert ExitPhase(s, opening, candle) == Ok(opening);
    PointOfNone(s, opening, candle);
    var point := Point(s, opening, candle).value;
    assert [] + [point] == [point];
  }

  /** One unit bought down to the buffer, which no bar of positive prices sells. */
  lemma OneUnitBuys(a: Account) returns (held: Holding)
    requires !NothingBuys(a)
    ensures var open := SpendingAll(a, 1);
            var r := EntryPhase(OneUnit(a), Opening(a.startingCash), OpenAndClose(open, 1.0)[..1], open, 1);
            && open > 0.0 && r.Ok? && r.value.positions == map["X" := held] && r.value.cash == a.limits.minCashBuffer
    ensures held.quantity == 1 && held.stopLoss == 0.0 && held.takeProfit.None?
  {
    var open := SpendingAll(a, 1);
    var l, request := Opening(a.startingCash), Buy(open, 1);
    assert SignalRequest(OneUnit(a), Signal("X", INDIA, 1, 0.0, None), open, 1) == request;
    var calls := [Order(request, NO_EXIT)];
    SpendsAll(a, 1);
    assert calls[..0] == [];
    assert After(a, calls) == Apply(a, l, calls[0]);
    hide SpendingAll;
    assert EntryBlockReason(a, l, request).None?;
    var price, gross, costs := Purchase(a, l, request);
    held := After(a, calls).positions["X"];
  }

  /** At that close, selling the unit costs more than it brings in and the buffer together. */
  lemma OneUnitIsWorth(a: Account, held: Holding, close: real, loss: real)
    requires TakesAway(a.costs, close, loss) && held.quantity == 1
    ensures SaleValue(a.costs, held, close).Ok? && SaleValue(a.costs, held, close).value <= -loss
  {
    SaleDefinedExactly(a.costs, held, close);
    var price := SellPrice(a.costs, close);
    assert Gross(price, 1) == price;
  }

  /** Bought down to the buffer, then closed at a price whose costs it does not cover. */
  lemma EquityBelowZero(a: Account) returns (close: real)
    requires !AlwaysSolvent(a)
    ensures var s, candles := OneUnit(a), OpenAndClose(SpendingAll(a, 1), close);
            ValidCandles(candles) && Finished(s, candles, false).Some? &&
            !Drawdown.NonNegative(Equities(Finished(s, candles, false).value.curve))
  {
    hide Point, SaleValue, Bars, EntryPhase, TakesAway, SpendingAll;
    var loss;
    close, loss := SomePriceTakesAway(a.costs, a.limits.minCashBuffer);
    assert close > 0.0 by { TakesAwayIsPriced(a.costs, close, loss); }
    var open := SpendingAll(a, 1);
    var s, candles := OneUnit(a), OpenAndClose(open, close);
    var held := OneUnitBuys(a);
    FirstBar(s, candles);
    NextBar(s, candles, 2);
    assert candles[..1] == OpenAndClose(open, 1.0)[..1];
    var l := EntryPhase(s, Opening(a.startingCash), candles[..1], open, 1).value;
    OneUnitIsWorth(a, held, close, loss);
    var value := SaleValue(a.costs, held, close).value;
    PointOfOne(s, l, held, candles[1], value);
    var p := Bars(s, candles, 1).value;
    assert ExitPhase(s, l, candles[1]) == Ok(l);
    var q := Bars(s, candles, 2).value;
    assert q.curve == p.curve + [Point(s, l, candles[1]).value];
    assert Equities(q.curve)[1] == a.limits.minCashBuffer + value;
  }

  lemma TakesAwayIsPriced(c: CostModel, reference: real, loss: real)
    requires TakesAway(c, reference, loss)
    ensures reference > 0.0
  {
  }

  ghost predicate ShowsNoDebt(s: Setting, candles: seq<Candle>, closeOnEnd: bool) {
    ValidCandles(candles) && Finished(s, candles, closeOnEnd).Some? ==>
      Drawdown.NonNegative(Equities(Finished(s, candles, closeOnEnd).value.curve))
  }

  /**
   No finished run of an account, for any strategy and candles, shows negative equity exactly when nothing can
   be bought, nothing can be sold, or the buffer covers the flat fee and a sale its proportional costs.
   */
  lemma EquityNeverNegativeExactly(a: Account)
    requires a.startingCash > 0.0
    ensures (forall s: Setting, candles: seq<Candle>, closeOnEnd: bool ::
               s.account == a ==> ShowsNoDebt(s, candles, closeOnEnd)) <==>
              || a.startingCash <= a.limits.minCashBuffer + a.costs.brokerageFlat
              || a.costs.slippageBps > 10000.0
              || (a.costs.brokerageFlat <= a.limits.minCashBuffer &&
                  (a.costs.brokeragePct + a.costs.taxesPct <= 1.0 || a.costs.slippageBps == 10000.0))
  {
    if AlwaysSolvent(a) {
      forall s: Setting, candles: seq<Candle>, closeOnEnd: bool | s.account == a
        ensures ShowsNoDebt(s, candles, closeOnEnd)
      {
        if ValidCandles(candles) && Finished(s, candles, closeOnEnd).Some? {
          EquityNeverNegative(s, candles, closeOnEnd);
        }
      }
    } else {
      var close := EquityBelowZero(a);
      assert !ShowsNoDebt(OneUnit(a), OpenAndClose(SpendingAll(a, 1), close), false);
    }
  }

  // ---------- what the reported drawdown is worth ----------

  /**
   Whenever no equity of a run is negative, for whatever reason, the reported drawdown is a share between 0
   and 1 that no fall between two points of the curve exceeds and, unless it is zero, some fall reaches.
   */
  lemma DrawdownOfRun(s: Setting, candles: seq<Candle>, closeOnEnd: bool)
    requires s.account.startingCash > 0.0
    requires ValidCandles(candles) && Finished(s, candles, closeOnEnd).Some?
    ensures var equity := Equities(Finished(s, candles, closeOnEnd).value.curve);
            var reported := -Drawdown.Lowest(equity);
            && (AlwaysSolvent(s.account) ==> Drawdown.NonNegative(equity))
            && (Drawdown.NonNegative(equity) ==>
                  && 0.0 <= reported <= 1.0
                  && Drawdown.BoundsEveryFall(equity, reported)
                  && (reported == 0.0 ||
                      exists i, j ::
                        0 <= i <= j < |equity| && equity[i] > 0.0 && Drawdown.Fall(equity, i, j) == reported))
  {
    if AlwaysSolvent(s.account) {
      EquityNeverNegative(s, candles, closeOnEnd);
    }
    var equity := Equities(Finished(s, candles, closeOnEnd).value.curve);
    if Drawdown.NonNegative(equity) {
      Drawdown.OnePassBoundsEveryFall(equity);
      if Drawdown.Lowest(equity) != 0.0 {
        var i, j := Drawdown.OnePassIsReached(equity);
      }
    }
  }

  // ---------- a run whose drawdown is understated ----------

  /** 30 of cash, a flat fee of 10, and a strategy that always asks for one unit with a stop at 1. */
  function Eager(): Setting {
    Setting(Account(30.0, Costs(0.0, 10.0, 0.0, 0.0), Limits(1, 1.0, 0.0)), "X", INDIA,
            (history: seq<Candle>) => Some(Signal("X", INDIA, 1, 1.0, None)))
  }

  /** Flat at 20, up to 25, down to 5. */
  function RiseAndFall(): seq<Candle> {
    [Candle(0, 20.0, 20.0, 20.0, 20.0, 0.0), Candle(1, 20.0, 25.0, 20.0, 25.0, 0.0),
      Candle(2, 25.0, 25.0, 5.0, 5.0, 0.0)]
  }

  function HeldByEager(): Holding {
    Holding(INDIA, 1, 20.0, 10.0, 1.0, None, 1)
  }

  lemma EagerBuys(l: Ledger)
    requires l == Opening(30.0)
    ensures var r := EntryPhase(Eager(), l, RiseAndFall()[..1], 20.0, 1);
            r.Ok? && r.value.positions == map["X" := HeldByEager()] && r.value.cash == 0.0
  {
    var a, request := Eager().account, SignalRequest(Eager(), Signal("X", INDIA, 1, 1.0, None), 20.0, 1);
    assert a.costs.ExecutionPrice(BUY, 20.0) == Ok(20.0) && Gross(20.0, 1) == 20.0 &&
      a.costs.TransactionCost(20.0) == Ok(10.0);
    var price, gross, costs := Purchase(a, l, request);
  }

  lemma HeldIsWorth(close: real)
    requires close > 0.0
    ensures SaleValue(Eager().account.costs, HeldByEager(), close) == Ok(close - 10.0)
  {
    var c := Eager().account.costs;
    assert c.ExecutionPrice(SELL, close) == Ok(close) && Gross(close, 1) == close &&
      c.TransactionCost(close) == Ok(10.0);
  }

  ghost predicate HoldsEager(p: Progress) {
    p.ledger.positions == map["X" := HeldByEager()] && p.ledger.cash == 0.0
  }

  lemma EagerSecondBar()
    ensures var r := Bars(Eager(), RiseAndFall(), 2);
            r.Some? && HoldsEager(r.value) && Equities(r.value.curve) == [30.0, 15.0]
  {
    hide Point, SaleValue, Bars, EntryPhase;
    var s, candles := Eager(), RiseAndFall();
    FirstBar(s, candles);
    EagerBuys(Opening(30.0));
    var l := EntryPhase(s, Opening(30.0), candles[..1], 20.0, 1).value;
    HeldIsWorth(25.0);
    PointOfOne(s, l, HeldByEager(), candles[1], 15.0);
    NextBar(s, candles, 2);
  }

  lemma EagerThirdBar()
    ensures var r := Bars(Eager(), RiseAndFall(), 3);
            r.Some? && Equities(r.value.curve) == [30.0, 15.0, -5.0]
  {
    hide Point, SaleValue, Bars;
    var s, candles := Eager(), RiseAndFall();
    EagerSecondBar();
    var p := Bars(s, candles, 2).value;
    HeldIsWorth(5.0);
    PointOfOne(s, p.ledger, HeldByEager(), candles[2], -5.0);
    NextBar(s, candles, 3);
    var q := Bars(s, candles, 3).value;
    assert q.curve == p.curve + [EquityPoint(2, -5.0, 0.0, p.ledger.realizedPnl, -5.0 - HeldByEager().EntryBasis())];
    assert Equities(q.curve) == Equities(p.curve) + [-5.0];
  }

  /** The run's equity goes 30, 15, -5: it reports 7/6 of the peak, though from 15 it fell by 4/3. */
  lemma RunCanBeUnderstated()
    ensures var s, candles := Eager(), RiseAndFall();
            && ValidCandles(candles) && Finished(s, candles, false).Some?
            && var equity := Equities(Finished(s, candles, false).value.curve);
               && equity == [30.0, 15.0, -5.0]
               && -Drawdown.Lowest(equity) == 7.0 / 6.0 && Drawdown.Fall(equity, 1, 2) == 4.0 / 3.0
  {
    hide Bars;
    EagerThirdBar();
    var equity := [30.0, 15.0, -5.0];
    assert equity[..2] == [30.0, 15.0] && equity[..2][..1] == [30.0] && [30.0][..0] == [];
    assert Drawdown.Peak([30.0, 15.0]) == 30.0 && Drawdown.Peak(equity) == 30.0;
    assert Drawdown.Lowest([30.0]) == 0.0;
    assert Drawdown.Lowest([30.0, 15.0]) == -0.5;
  }
}
