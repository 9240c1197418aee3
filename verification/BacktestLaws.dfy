/** What every backtest keeps, whatever the strategy. */
module BacktestLaws {
  import opened Common
  import opened PaperLedger
  import opened PaperLaws
  import opened Backtest

  // ---------- what a bar can do to the account ----------

  /** An accepted entry: the position it files, and the journal entry it writes. */
  ghost predicate Entered(s: Setting, l: Ledger, l': Ledger, timestamp: int) {
    && s.symbol !in l.positions && s.symbol in l'.positions
    && l'.positions == l.positions[s.symbol := l'.positions[s.symbol]]
    && l'.positions[s.symbol].market == s.market && l'.positions[s.symbol].openedAt == timestamp
    && |l'.journal| == |l.journal| + 1 && l'.journal[..|l.journal|] == l.journal
    && l'.journal[|l.journal|].timestamp == timestamp
    && IsEntry(l'.journal[|l.journal|])
  }

  ghost predicate Refused(l: Ledger, l': Ledger, timestamp: int) {
    && |l'.journal| == |l.journal| + 1 && l'.journal[..|l.journal|] == l.journal
    && IsBlocked(l'.journal[|l.journal|]) && l'.journal[|l.journal|].timestamp == timestamp
    && l'.journal[|l.journal|].side.BUY?
    && l' == l.(journal := l'.journal)
  }

  lemma EntryEffect(s: Setting, l: Ledger, history: seq<Candle>, open: real, timestamp: int)
    ensures var r := EntryPhase(s, l, history, open, timestamp);
            r.Ok? && (r.value == l || Refused(l, r.value, timestamp) || Entered(s, l, r.value, timestamp))
  {
    var r := EntryPhase(s, l, history, open, timestamp);
    if r != Ok(l) {
      var request := SignalRequest(s, s.strategy(history).value, open, timestamp);
      if EntryBlockReason(s.account, l, request).None? {
        var price, gross, costs := Purchase(s.account, l, request);
      }
    }
  }

  /** A sale that empties the symbol's position. */
  ghost predicate Emptied(s: Setting, l: Ledger, l': Ledger, timestamp: int, reason: ExitReason) {
    && s.symbol in l.positions
    && l'.positions == l.positions - {s.symbol}
    && |l'.journal| == |l.journal| + 1 && l'.journal[..|l.journal|] == l.journal
    && var e := l'.journal[|l.journal|];
       IsClosing(e) && e.timestamp == timestamp && e.exitReason == reason
  }

  lemma FullSale(s: Setting, l: Ledger, price: real, timestamp: int, reason: ExitReason)
    requires s.symbol in l.positions && l.positions[s.symbol].market == s.market && l.positions[s.symbol].quantity > 0
    ensures var r := CloseOpenPosition(s.account, l, s.symbol, s.market, price, timestamp, reason);
            && (r.Ok? ==> Emptied(s, l, r.value, timestamp, reason))
            && (r.Ok? <==> price > 0.0 && s.account.costs.slippageBps <= 10000.0)
  {
    var request := CloseOutRequest(l, s.symbol, s.market, price, timestamp);
    SaleRaisesExactly(s.account, l, request, reason);
    if Close(s.account, l, request, reason).Ok? {
      var p, g, c, z := Sale(s.account, l, request, reason);
    }
  }

  ghost predicate ClearOf(held: Holding, candle: Candle) {
    candle.low > held.stopLoss && (held.takeProfit.None? || candle.high < held.takeProfit.value)
  }

  /** The bar's exit check either finds nothing to do and the bar is clear of both levels, or empties the position. */
  lemma ExitEffect(s: Setting, l: Ledger, candle: Candle)
    requires s.symbol in l.positions ==> HoldingOk(l.positions[s.symbol]) && l.positions[s.symbol].market == s.market
    requires ExitPhase(s, l, candle).Ok?
    ensures var l' := ExitPhase(s, l, candle).value;
            if s.symbol !in l.positions then l' == l
            else if ClearOf(l.positions[s.symbol], candle) then l' == l
            else exists reason ::
              Emptied(s, l, l', candle.timestamp, reason) && (reason.STOP_LOSS? || reason.PROFIT_TARGET?) &&
                   (reason.STOP_LOSS? ==> l'.journal[|l.journal|].realizedPnl < 0.0)
  {
    var order := ExitOrder(l, s.symbol, s.market, candle.timestamp, candle.low, candle.high);
    if order.Some? {
      var (request, reason) := order.value;
      FullSale(s, l, request.referencePrice, candle.timestamp, reason);
      assert request == CloseOutRequest(l, s.symbol, s.market, request.referencePrice, candle.timestamp);
      if reason.STOP_LOSS? {
        StopLossLoses(s.account, l, s.symbol, s.market, candle.timestamp, candle.low, candle.high);
      }
    }
  }

  // ---------- the invariant of a run ----------

  ghost predicate OnlySymbol(s: Setting, l: Ledger) {
    && l.positions.Keys <= {s.symbol}
    && (s.symbol in l.positions ==> l.positions[s.symbol].market == s.market)
  }

  function OpenCount(s: Setting, l: Ledger): nat {
    if s.symbol in l.positions then 1 else 0
  }

  ghost predicate RoundTrips(s: Setting, l: Ledger) {
    Count(l.journal, IsEntry) == Count(l.journal, IsClosing) + OpenCount(s, l)
  }

  predicate LosesAtStop(e: Entry) {
    e.exitReason.STOP_LOSS? ==> IsClosing(e) && e.realizedPnl < 0.0
  }

  ghost predicate StopsLose(l: Ledger) {
    forall i :: 0 <= i < |l.journal| ==> LosesAtStop(l.journal[i])
  }

  ghost predicate StatusBySide(l: Ledger) {
    forall i :: 0 <= i < |l.journal| ==> IsEntry(l.journal[i]) || IsClosing(l.journal[i]) || IsBlocked(l.journal[i])
  }

  /** Since its entry bar, no bar touched the open position's levels. */
  ghost predicate Untouched(s: Setting, l: Ledger, candles: seq<Candle>, k: nat)
    requires k <= |candles|
  {
    s.symbol in l.positions ==>
      var held := l.positions[s.symbol];
      exists e :: 0 <= e < k && candles[e].timestamp == held.openedAt && forall i :: e <= i < k ==>
        ClearOf(held, candles[i])
  }

  /** The last point of the curve is the account as it stands. */
  ghost predicate CurveEndsHere(s: Setting, p: Progress) {
    p.curve != [] ==>
      var last := p.curve[|p.curve| - 1];
      && last.cash == p.ledger.cash && last.realizedPnl == p.ledger.realizedPnl
      && last.equity == s.account.startingCash + last.realizedPnl + last.unrealizedPnl
      && (s.symbol !in p.ledger.positions ==> last.unrealizedPnl == 0.0)
  }

  ghost predicate AccountInv(s: Setting, l: Ledger) {
    Inv(s.account, l) && OnlySymbol(s, l) && RoundTrips(s, l) && StopsLose(l) && StatusBySide(l)
  }

  lemma EntryKeepsAccount(s: Setting, l: Ledger, history: seq<Candle>, open: real, timestamp: int)
    requires AccountInv(s, l)
    ensures EntryPhase(s, l, history, open, timestamp).Ok? &&
            AccountInv(s, EntryPhase(s, l, history, open, timestamp).value)
  {
    EntryEffect(s, l, history, open, timestamp);
    var l' := EntryPhase(s, l, history, open, timestamp).value;
    if l' != l {
      var signal := s.strategy(history).value;
      SubmitKeeps(s.account, l, SignalRequest(s, signal, open, timestamp), NO_EXIT);
      EntryJournal(s, l, history, open, timestamp);
    }
  }

  lemma EntryJournal(s: Setting, l: Ledger, history: seq<Candle>, open: real, timestamp: int)
    requires RoundTrips(s, l) && StopsLose(l) && StatusBySide(l) && OnlySymbol(s, l)
    requires EntryPhase(s, l, history, open, timestamp).Ok?
    ensures var l' := EntryPhase(s, l, history, open, timestamp).value;
            RoundTrips(s, l') && StopsLose(l') && StatusBySide(l') && OnlySymbol(s, l')
  {
    EntryEffect(s, l, history, open, timestamp);
    var l' := EntryPhase(s, l, history, open, timestamp).value;
    if l' != l {
      var e := l'.journal[|l.journal|];
      assert l'.journal == l.journal + [e];
      FoldsAppend(l.journal, e, IsEntry, Pnl);
      FoldsAppend(l.journal, e, IsClosing, Pnl);
      BuyEntriesHaveNoExitReason(s, l, history, open, timestamp);
    }
  }

  lemma BuyEntriesHaveNoExitReason(s: Setting, l: Ledger, history: seq<Candle>, open: real, timestamp: int)
    requires EntryPhase(s, l, history, open, timestamp).Ok?
    ensures var l' := EntryPhase(s, l, history, open, timestamp).value;
            l' != l ==> l'.journal != [] && l'.journal[|l'.journal| - 1].exitReason.NO_EXIT?
  {
    if EntryPhase(s, l, history, open, timestamp).value != l {
      var request := SignalRequest(s, s.strategy(history).value, open, timestamp);
      if EntryBlockReason(s.account, l, request).None? {
        var price, gross, costs := Purchase(s.account, l, request);
      }
    }
  }

  lemma SaleJournal(s: Setting, l: Ledger, l': Ledger, timestamp: int, reason: ExitReason)
    requires RoundTrips(s, l) && StopsLose(l) && StatusBySide(l) && OnlySymbol(s, l)
    requires Emptied(s, l, l', timestamp, reason)
    requires reason.STOP_LOSS? ==> l'.journal[|l.journal|].realizedPnl < 0.0
    ensures RoundTrips(s, l') && StopsLose(l') && StatusBySide(l') && OnlySymbol(s, l')
  {
    var e := l'.journal[|l.journal|];
    assert l'.journal == l.journal + [e];
    FoldsAppend(l.journal, e, IsEntry, Pnl);
    FoldsAppend(l.journal, e, IsClosing, Pnl);
  }

  lemma ExitKeepsAccount(s: Setting, l: Ledger, candle: Candle)
    requires AccountInv(s, l) && ExitPhase(s, l, candle).Ok?
    ensures AccountInv(s, ExitPhase(s, l, candle).value)
  {
    var l' := ExitPhase(s, l, candle).value;
    ExitEffect(s, l, candle);
    if l' != l {
      ApplyKeeps(s.account, l, ExitCheck(s.symbol, s.market, candle.timestamp, candle.low, candle.high));
      var reason :| Emptied(s, l, l', candle.timestamp, reason) &&
        (reason.STOP_LOSS? ==> l'.journal[|l.journal|].realizedPnl < 0.0);
      SaleJournal(s, l, l', candle.timestamp, reason);
    }
  }

  lemma PointIsExplained(s: Setting, l: Ledger, candle: Candle)
    requires AccountInv(s, l) && Point(s, l, candle).Some?
    ensures var point := Point(s, l, candle).value;
            && point.cash == l.cash && point.realizedPnl == l.realizedPnl
            && point.equity == s.account.startingCash + l.realizedPnl + point.unrealizedPnl
            && (s.symbol !in l.positions ==> point.unrealizedPnl == 0.0)
  {
    if s.symbol !in l.positions {
      assert l.positions == map[];
      assert SaleValues(s.account.costs, l.positions, map[s.symbol := candle.close]) == map[] &&
        Bases(l.positions) == map[];
    }
  }

  ghost predicate NotLiquidated(l: Ledger) {
    forall i :: 0 <= i < |l.journal| ==> !l.journal[i].exitReason.END_OF_BACKTEST?
  }

  ghost predicate RunInv(s: Setting, p: Progress, candles: seq<Candle>, k: nat)
    requires k <= |candles|
  {
    && AccountInv(s, p.ledger) && NotLiquidated(p.ledger)
    && Untouched(s, p.ledger, candles, k) && CurveEndsHere(s, p) && |p.curve| == k
  }

  lemma EntryDoesNotLiquidate(s: Setting, l: Ledger, history: seq<Candle>, open: real, timestamp: int)
    requires NotLiquidated(l)
    ensures var r := EntryPhase(s, l, history, open, timestamp);
            r.Ok? && NotLiquidated(r.value)
  {
    EntryEffect(s, l, history, open, timestamp);
    BuyEntriesHaveNoExitReason(s, l, history, open, timestamp);
  }

  lemma ExitDoesNotLiquidate(s: Setting, l: Ledger, candle: Candle)
    requires NotLiquidated(l) && AccountInv(s, l) && ExitPhase(s, l, candle).Ok?
    ensures NotLiquidated(ExitPhase(s, l, candle).value)
  {
    ExitEffect(s, l, candle);
  }

  lemma UntouchedGrows(s: Setting, l: Ledger, entered: Ledger, candles: seq<Candle>, k: nat)
    requires k < |candles| && AccountInv(s, l) && Untouched(s, l, candles, k) && AccountInv(s, entered)
    requires entered == l || Refused(l, entered, candles[k].timestamp) || Entered(s, l, entered, candles[k].timestamp)
    requires ExitPhase(s, entered, candles[k]).Ok?
    ensures Untouched(s, ExitPhase(s, entered, candles[k]).value, candles, k + 1)
  {
    ExitEffect(s, entered, candles[k]);
    var l' := ExitPhase(s, entered, candles[k]).value;
    if s.symbol in l'.positions {
      var held := l'.positions[s.symbol];
      assert l' == entered && ClearOf(held, candles[k]);
      if Entered(s, l, entered, candles[k].timestamp) {
        assert candles[k].timestamp == held.openedAt && forall i :: k <= i < k + 1 ==> ClearOf(held, candles[i]);
      } else {
        var e :| 0 <= e < k && candles[e].timestamp == held.openedAt && forall i :: e <= i < k ==>
          ClearOf(held, candles[i]);
        assert forall i :: e <= i < k + 1 ==> ClearOf(held, candles[i]);
      }
    }
  }

  lemma BarKeepsRunInv(s: Setting, p: Progress, candles: seq<Candle>, k: nat)
    requires k < |candles| && RunInv(s, p, candles, k)
    requires Bar(s, p, candles[..k], candles[k]).Some?
    ensures RunInv(s, Bar(s, p, candles[..k], candles[k]).value, candles, k + 1)
  {
    var l, candle, history := p.ledger, candles[k], candles[..k];
    EntryEffect(s, l, history, candle.open, candle.timestamp);
    EntryKeepsAccount(s, l, history, candle.open, candle.timestamp);
    EntryDoesNotLiquidate(s, l, history, candle.open, candle.timestamp);
    var entered := EntryPhase(s, l, history, candle.open, candle.timestamp).value;
    hide EntryPhase, ExitPhase, Point, NotLiquidated, Untouched, AccountInv;
    ExitDoesNotLiquidate(s, entered, candle);
    ExitKeepsAccount(s, entered, candle);
    UntouchedGrows(s, l, entered, candles, k);
    PointIsExplained(s, ExitPhase(s, entered, candle).value, candle);
  }

  lemma {:induction false} BarsInv(s: Setting, candles: seq<Candle>, k: nat)
    requires k <= |candles| && Bars(s, candles, k).Some?
    ensures RunInv(s, Bars(s, candles, k).value, candles, k)
  {
    if k == 0 {
      OpeningInv(s.account);
    } else {
      hide Bar, RunInv;
      BarsInv(s, candles, k - 1);
      BarKeepsRunInv(s, Bars(s, candles, k - 1).value, candles, k - 1);
    }
  }

  // ---------- when a run raises ----------

  ghost predicate TargetsPositive(s: Setting) {
    forall history :: s.strategy(history).Some? && s.strategy(history).value.takeProfit.Some? ==>
      s.strategy(history).value.takeProfit.value > 0.0
  }

  ghost predicate TargetOk(s: Setting, l: Ledger) {
    s.symbol in l.positions && l.positions[s.symbol].takeProfit.Some? ==> l.positions[s.symbol].takeProfit.value > 0.0
  }

  lemma EntryKeepsTarget(s: Setting, l: Ledger, history: seq<Candle>, open: real, timestamp: int)
    requires TargetsPositive(s) && TargetOk(s, l)
    requires EntryPhase(s, l, history, open, timestamp).Ok?
    ensures TargetOk(s, EntryPhase(s, l, history, open, timestamp).value)
  {
    EntryEffect(s, l, history, open, timestamp);
    if EntryPhase(s, l, history, open, timestamp).value != l {
      var request := SignalRequest(s, s.strategy(history).value, open, timestamp);
      if EntryBlockReason(s.account, l, request).None? {
        var price, gross, costs := Purchase(s.account, l, request);
      }
    }
  }

  lemma PointDefined(s: Setting, l: Ledger, candle: Candle)
    requires AccountInv(s, l) && candle.close > 0.0
    ensures s.account.costs.slippageBps <= 10000.0 || s.symbol !in l.positions <==> Point(s, l, candle).Some?
  {
    if s.symbol in l.positions {
      assert MarkOf(l.positions, map[s.symbol := candle.close], s.symbol) == candle.close;
      SaleDefinedExactly(s.account.costs, l.positions[s.symbol], candle.close);
      assert forall x :: x in l.positions ==> x == s.symbol;
    }
  }

  lemma ExitDefined(s: Setting, l: Ledger, candle: Candle)
    requires AccountInv(s, l) && TargetOk(s, l) && candle.low > 0.0 && s.account.costs.slippageBps <= 10000.0
    ensures ExitPhase(s, l, candle).Ok? && TargetOk(s, ExitPhase(s, l, candle).value)
  {
    var order := ExitOrder(l, s.symbol, s.market, candle.timestamp, candle.low, candle.high);
    if order.Some? {
      var (request, reason) := order.value;
      FullSale(s, l, request.referencePrice, candle.timestamp, reason);
      assert request == CloseOutRequest(l, s.symbol, s.market, request.referencePrice, candle.timestamp);
    }
  }

  /** The position's target can never be sold at, and the bar reaches it without touching the stop. */
  ghost predicate SellsAtNothing(held: Holding, candle: Candle) {
    held.takeProfit.Some? && held.takeProfit.value <= 0.0 && candle.low > held.stopLoss
  }

  /** The account between a bar's entry and its exit check. */
  function EnteredAt(s: Setting, l: Ledger, history: seq<Candle>, candle: Candle): Ledger {
    var r := EntryPhase(s, l, history, candle.open, candle.timestamp);
    if r.Ok? then r.value else l
  }

  lemma ExitRaisesExactly(s: Setting, l: Ledger, candle: Candle)
    requires AccountInv(s, l) && candle.PositivePrices()
    ensures ExitPhase(s, l, candle).Raised? <==>
              s.symbol in l.positions &&
              var held := l.positions[s.symbol];
              !ClearOf(held, candle) && (s.account.costs.slippageBps > 10000.0 || SellsAtNothing(held, candle))
  {
    var order := ExitOrder(l, s.symbol, s.market, candle.timestamp, candle.low, candle.high);
    if order.Some? {
      var (request, reason) := order.value;
      FullSale(s, l, request.referencePrice, candle.timestamp, reason);
      assert request == CloseOutRequest(l, s.symbol, s.market, request.referencePrice, candle.timestamp);
    }
  }

  /**
   A bar raises exactly when the position held after its entry phase cannot be priced for slippage, or
   its target is reached at a price that is not positive.
   */
  lemma BarRaisesExactly(s: Setting, p: Progress, history: seq<Candle>, candle: Candle)
    requires candle.PositivePrices() && AccountInv(s, p.ledger)
    ensures var entered := EnteredAt(s, p.ledger, history, candle);
            Bar(s, p, history, candle).None? <==>
              s.symbol in entered.positions &&
              (s.account.costs.slippageBps > 10000.0 || SellsAtNothing(entered.positions[s.symbol], candle))
  {
    var l := p.ledger;
    EntryKeepsAccount(s, l, history, candle.open, candle.timestamp);
    var entered := EntryPhase(s, l, history, candle.open, candle.timestamp).value;
    ExitRaisesExactly(s, entered, candle);
    if ExitPhase(s, entered, candle).Ok? {
      ExitEffect(s, entered, candle);
      ExitKeepsAccount(s, entered, candle);
      PointDefined(s, ExitPhase(s, entered, candle).value, candle);
    }
  }

  ghost predicate RaisesAt(s: Setting, candles: seq<Candle>, i: nat)
    requires i < |candles|
  {
    Bars(s, candles, i).Some? &&
    var entered := EnteredAt(s, Bars(s, candles, i).value.ledger, candles[..i], candles[i]);
    s.symbol in entered.positions &&
    (s.account.costs.slippageBps > 10000.0 || SellsAtNothing(entered.positions[s.symbol], candles[i]))
  }

  /** A run raises exactly when one of the bars it reaches does. */
  lemma {:induction false} RunRaisesExactly(s: Setting, candles: seq<Candle>, k: nat)
    requires ValidCandles(candles) && k <= |candles|
    ensures Bars(s, candles, k).None? <==> exists i :: 0 <= i < k && RaisesAt(s, candles, i)
  {
    hide Bar, EnteredAt, SellsAtNothing;
    if k > 0 {
      RunRaisesExactly(s, candles, k - 1);
      if Bars(s, candles, k - 1).Some? {
        BarsInv(s, candles, k - 1);
        BarRaisesExactly(s, Bars(s, candles, k - 1).value, candles[..k - 1], candles[k - 1]);
        assert RaisesAt(s, candles, k - 1) <==> Bars(s, candles, k).None?;
      }
    }
  }

  lemma BarDefined(s: Setting, p: Progress, history: seq<Candle>, candle: Candle)
    requires candle.PositivePrices() && AccountInv(s, p.ledger) && TargetOk(s, p.ledger)
    requires TargetsPositive(s) && s.account.costs.slippageBps <= 10000.0
    ensures Bar(s, p, history, candle).Some? && TargetOk(s, Bar(s, p, history, candle).value.ledger)
  {
    var l := p.ledger;
    EntryKeepsAccount(s, l, history, candle.open, candle.timestamp);
    EntryKeepsTarget(s, l, history, candle.open, candle.timestamp);
    var entered := EntryPhase(s, l, history, candle.open, candle.timestamp).value;
    ExitDefined(s, entered, candle);
    ExitKeepsAccount(s, entered, candle);
    PointDefined(s, ExitPhase(s, entered, candle).value, candle);
  }

  /** With slippage at most 100% and targets positive when given, a run over valid candles never raises. */
  lemma {:induction false} RunsDoNotRaise(s: Setting, candles: seq<Candle>, k: nat)
    requires ValidCandles(candles) && k <= |candles|
    requires TargetsPositive(s) && s.account.costs.slippageBps <= 10000.0
    ensures Bars(s, candles, k).Some? && TargetOk(s, Bars(s, candles, k).value.ledger)
  {
    hide Bar;
    if k > 0 {
      RunsDoNotRaise(s, candles, k - 1);
      BarsInv(s, candles, k - 1);
      BarDefined(s, Bars(s, candles, k - 1).value, candles[..k - 1], candles[k - 1]);
    }
  }

  /** Liquidating at the end never raises once the bars have not. */
  lemma LiquidationNeverRaises(s: Setting, candles: seq<Candle>)
    requires ValidCandles(candles) && candles != [] && Bars(s, candles, |candles|).Some?
    requires s.symbol in Bars(s, candles, |candles|).value.ledger.positions
    ensures var n := |candles|;
            var p := Bars(s, candles, n).value;
            && Liquidate(s, p, candles[n - 1]).Some?
            && var q := Liquidate(s, p, candles[n - 1]).value;
               && Emptied(s, p.ledger, q.ledger, candles[n - 1].timestamp, END_OF_BACKTEST)
               && AccountInv(s, q.ledger) && CurveEndsHere(s, q) && |q.curve| == n + 1 && q.curve[..n] == p.curve
  {
    var n := |candles|;
    var p := Bars(s, candles, n).value;
    var last := candles[n - 1];
    assert last.PositivePrices();
    BarsInv(s, candles, n);
    PointDefined(s, p.ledger, last);
    assert Point(s, p.ledger, last).Some?;
    FullSale(s, p.ledger, last.close, last.timestamp, END_OF_BACKTEST);
    var l' := CloseOpenPosition(s.account, p.ledger, s.symbol, s.market, last.close, last.timestamp,
      END_OF_BACKTEST).value;
    ApplyKeeps(s.account, p.ledger, CloseOut(s.symbol, s.market, last.close, last.timestamp, END_OF_BACKTEST));
    SaleJournal(s, p.ledger, l', last.timestamp, END_OF_BACKTEST);
    PointDefined(s, l', last);
    PointIsExplained(s, l', last);
  }

  // ---------- the results of a finished run ----------

  lemma {:induction false} ClosedTradesSumToRealized(journal: seq<Entry>)
    requires forall i :: 0 <= i < |journal| ==> IsEntry(journal[i]) || IsClosing(journal[i]) || IsBlocked(journal[i])
    ensures Total(Filter(journal, IsClosing), Pnl) == RealizedPnl(journal)
    ensures |Filter(journal, IsClosing)| == Count(journal, IsClosing)
    ensures Count(journal, IsEntry) + Count(journal, IsClosing) + Count(journal, IsBlocked) == |journal|
  {
    if journal != [] {
      var before, e := journal[..|journal| - 1], journal[|journal| - 1];
      ClosedTradesSumToRealized(before);
      hide Filter, Count, Total;
      assert journal == before + [e] && Filter(before, IsClosing) + [] == Filter(before, IsClosing);
      FoldsAppend(before, e, IsEntry, Pnl);
      FoldsAppend(before, e, IsBlocked, Pnl);
      FoldsAppend(before, e, IsClosing, Pnl);
      FoldsAppend(Filter(before, IsClosing), e, IsClosing, Pnl);
      PostAppended(0.0, before, e);
    }
  }

  ghost predicate FinishedInv(s: Setting, p: Progress, candles: seq<Candle>, closeOnEnd: bool) {
    && AccountInv(s, p.ledger) && CurveEndsHere(s, p)
    && (closeOnEnd && candles != [] ==> s.symbol !in p.ledger.positions)
    && |p.curve| == |candles| + Count(p.ledger.journal, (e: Entry) => e.exitReason.END_OF_BACKTEST?)
  }

  lemma {:induction false} CountNone(journal: seq<Entry>)
    requires forall i :: 0 <= i < |journal| ==> !journal[i].exitReason.END_OF_BACKTEST?
    ensures Count(journal, (e: Entry) => e.exitReason.END_OF_BACKTEST?) == 0
  {
    if journal != [] {
      CountNone(journal[..|journal| - 1]);
    }
  }

  lemma FinishedKeeps(s: Setting, candles: seq<Candle>, closeOnEnd: bool)
    requires ValidCandles(candles) && Finished(s, candles, closeOnEnd).Some?
    ensures FinishedInv(s, Finished(s, candles, closeOnEnd).value, candles, closeOnEnd)
  {
    var n := |candles|;
    BarsInv(s, candles, n);
    var p := Bars(s, candles, n).value;
    CountNone(p.ledger.journal);
    if closeOnEnd && n > 0 && s.symbol in p.ledger.positions {
      LiquidationNeverRaises(s, candles);
      var q := Liquidate(s, p, candles[n - 1]).value;
      var e := q.ledger.journal[|p.ledger.journal|];
      assert q.ledger.journal == p.ledger.journal + [e];
      FoldsAppend(p.ledger.journal, e, (x: Entry) => x.exitReason.END_OF_BACKTEST?, Pnl);
    }
  }

  /**
   The report agrees with the account: every journal entry is an entry, a closing or a refusal; entries
   are the closed trades plus what is still open; the equity curve has a point per candle and one more
   for a final liquidation; and final equity less starting cash is net P&L plus the last unrealized
   result. With closing on end set, nothing stays open and the two are equal.
   */
  lemma ReportIsConsistent(s: Setting, candles: seq<Candle>, closeOnEnd: bool, drawdown: real)
    requires ValidCandles(candles) && s.account.startingCash > 0.0 && Finished(s, candles, closeOnEnd).Some?
    ensures var p := Finished(s, candles, closeOnEnd).value;
            var m := MetricsOf(p.ledger.journal, p.curve, s.account.startingCash, drawdown);
            && m.entries + m.closedTrades + m.blockedEntries == |p.ledger.journal|
            && m.entries == m.closedTrades + |p.ledger.positions|
            && m.netPnl == p.ledger.realizedPnl
            && m.totalCosts == p.ledger.totalCosts
            && |p.curve| == |candles| + Count(p.ledger.journal, (e: Entry) => e.exitReason.END_OF_BACKTEST?)
            && m.finalEquity - s.account.startingCash ==
                 m.netPnl + (if p.curve == [] then 0.0 else p.curve[|p.curve| - 1].unrealizedPnl)
            && (closeOnEnd ==>
                  && p.ledger.positions == map[]
                  && m.entries == m.closedTrades
                  && m.finalEquity - s.account.startingCash == m.netPnl)
  {
    FinishedKeeps(s, candles, closeOnEnd);
    var p := Finished(s, candles, closeOnEnd).value;
    var l := p.ledger;
    ClosedTradesSumToRealized(l.journal);
    assert JournalAgrees(s.account, l);
    if s.symbol in l.positions {
      assert l.positions.Keys == {s.symbol};
      assert |l.positions| == |l.positions.Keys| == 1;
    } else {
      assert l.positions == map[];
    }
  }

  const EVEN: Entry -> bool := (e: Entry) => e.realizedPnl == 0.0

  lemma {:induction false} OutcomesPartition(closing: seq<Entry>)
    ensures Count(closing, (e: Entry) => e.realizedPnl > 0.0) + Count(closing, (e: Entry) => e.realizedPnl < 0.0)
            + Count(closing, EVEN) == |closing|
  {
    if closing != [] {
      OutcomesPartition(closing[..|closing| - 1]);
    }
  }

  /**
   The reported rates are rates: winners, losers and even trades make up the closed ones, and the return
   reproduces the equity.
   */
  lemma ReportedRatesAreConsistent(journal: seq<Entry>, curve: seq<EquityPoint>, startingCash: real, drawdown: real)
    requires startingCash > 0.0
    ensures var m := MetricsOf(journal, curve, startingCash, drawdown);
            && m.winningTrades + m.losingTrades + Count(Filter(journal, IsClosing), EVEN) == m.closedTrades
            && 0.0 <= m.winRate <= 1.0
            && m.winRate * m.closedTrades as real == m.winningTrades as real
            && startingCash * (1.0 + m.totalReturnPct) == m.finalEquity
  {
    hide Filter, Count, Total;
    var closing := Filter(journal, IsClosing);
    OutcomesPartition(closing);
    var m := MetricsOf(journal, curve, startingCash, drawdown);
    if closing != [] {
      ShareIsRate(m.winningTrades as real, |closing| as real);
    }
    ReturnReproduces(startingCash, m.finalEquity);
  }

  lemma ReturnReproduces(start: real, final: real)
    requires start > 0.0
    ensures start * (1.0 + (final - start) / start) == final
  {
    assert (final - start) / start * start == final - start;
  }

  lemma ShareIsRate(part: real, whole: real)
    requires 0.0 <= part <= whole && whole > 0.0
    ensures 0.0 <= part / whole <= 1.0 && part / whole * whole == part
  {
  }

  /** Every stop-loss exit of a finished run is a closed trade at a strict loss, and no day exceeds its limits. */
  lemma StopsAlwaysLose(s: Setting, candles: seq<Candle>, closeOnEnd: bool)
    requires ValidCandles(candles) && Finished(s, candles, closeOnEnd).Some?
    ensures var j := Finished(s, candles, closeOnEnd).value.ledger.journal;
            && (forall i :: 0 <= i < |j| && j[i].exitReason.STOP_LOSS? ==> IsClosing(j[i]) && j[i].realizedPnl < 0.0)
            && (forall i :: 0 <= i < |j| ==> EntryWasAllowed(s.account, j, i))
  {
    FinishedKeeps(s, candles, closeOnEnd);
    var j := Finished(s, candles, closeOnEnd).value.ledger.journal;
    forall i | 0 <= i < |j| && j[i].exitReason.STOP_LOSS?
      ensures IsClosing(j[i]) && j[i].realizedPnl < 0.0
    {
      assert LosesAtStop(j[i]);
    }
  }

  /** While a position is open, every bar since its entry bar stayed above its stop and below its target. */
  lemma OpenPositionIsUntouched(s: Setting, candles: seq<Candle>, k: nat)
    requires k <= |candles| && Bars(s, candles, k).Some?
    requires s.symbol in Bars(s, candles, k).value.ledger.positions
    ensures var held := Bars(s, candles, k).value.ledger.positions[s.symbol];
            exists e :: 0 <= e < k && candles[e].timestamp == held.openedAt &&
              forall i :: e <= i < k ==>
                candles[i].low > held.stopLoss && (held.takeProfit.Some? ==> candles[i].high < held.takeProfit.value)
  {
    BarsInv(s, candles, k);
    var held := Bars(s, candles, k).value.ledger.positions[s.symbol];
    var e :| 0 <= e < k && candles[e].timestamp == held.openedAt && forall i :: e <= i < k ==>
      ClearOf(held, candles[i]);
    forall i | e <= i < k
      ensures candles[i].low > held.stopLoss && (held.takeProfit.Some? ==> candles[i].high < held.takeProfit.value)
    {
      assert ClearOf(held, candles[i]);
    }
  }

  // ---------- no look-ahead ----------

  /** Two series that agree on their first k bars are in the same state after them. */
  lemma {:induction false} SameBarsSameState(s: Setting, c1: seq<Candle>, c2: seq<Candle>, k: nat)
    requires k <= |c1| && k <= |c2| && c1[..k] == c2[..k]
    ensures Bars(s, c1, k) == Bars(s, c2, k)
  {
    if k > 0 {
      assert c1[..k - 1] == c1[..k][..k - 1] && c2[..k - 1] == c2[..k][..k - 1];
      assert c1[k - 1] == c1[..k][k - 1] && c2[k - 1] == c2[..k][k - 1];
      SameBarsSameState(s, c1, c2, k - 1);
    }
  }

  /** p has everything q has written, in the same order. */
  ghost predicate Extends(p: Progress, q: Progress) {
    q.ledger.journal <= p.ledger.journal && q.curve <= p.curve
  }

  ghost predicate AllSells(journal: seq<Entry>, from: nat) {
    forall i :: from <= i < |journal| ==> journal[i].side.SELL?
  }

  ghost predicate AllBuysAt(journal: seq<Entry>, from: nat, timestamp: int) {
    forall i :: from <= i < |journal| ==> journal[i].side.BUY? && journal[i].timestamp == timestamp
  }

  lemma EntryWritesBuys(s: Setting, l: Ledger, history: seq<Candle>, open: real, timestamp: int)
    ensures var r := EntryPhase(s, l, history, open, timestamp);
            r.Ok? && l.journal <= r.value.journal && AllBuysAt(r.value.journal, |l.journal|, timestamp)
  {
    EntryEffect(s, l, history, open, timestamp);
  }

  lemma ExitWritesSales(s: Setting, l: Ledger, candle: Candle)
    requires AccountInv(s, l) && ExitPhase(s, l, candle).Ok?
    ensures var after := ExitPhase(s, l, candle).value.journal;
            l.journal <= after && AllSells(after, |l.journal|)
  {
    ExitEffect(s, l, candle);
  }

  /** Within a bar the journal grows by buys at the bar's time, then by sales. */
  lemma BarJournal(s: Setting, l: Ledger, history: seq<Candle>, candle: Candle)
    requires AccountInv(s, l)
    requires EntryPhase(s, l, history, candle.open, candle.timestamp).Ok?
    requires ExitPhase(s, EntryPhase(s, l, history, candle.open, candle.timestamp).value, candle).Ok?
    ensures var entered := EntryPhase(s, l, history, candle.open, candle.timestamp).value.journal;
            var after := ExitPhase(s, EntryPhase(s, l, history, candle.open, candle.timestamp).value,
              candle).value.journal;
            && l.journal <= entered <= after
            && AllBuysAt(entered, |l.journal|, candle.timestamp) && AllSells(after, |entered|)
  {
    EntryWritesBuys(s, l, history, candle.open, candle.timestamp);
    EntryKeepsAccount(s, l, history, candle.open, candle.timestamp);
    ExitWritesSales(s, EntryPhase(s, l, history, candle.open, candle.timestamp).value, candle);
  }

  lemma BarExtends(s: Setting, candles: seq<Candle>, k: nat)
    requires k < |candles| && Bars(s, candles, k + 1).Some?
    ensures Bars(s, candles, k).Some? && Extends(Bars(s, candles, k + 1).value, Bars(s, candles, k).value)
    ensures var before := Bars(s, candles, k).value.ledger.journal;
            var entered := JournalAfterEntry(s, candles, k);
            var after := Bars(s, candles, k + 1).value.ledger.journal;
            before <= entered <= after && AllBuysAt(entered, |before|, candles[k].timestamp) &&
              AllSells(after, |entered|)
  {
    BarsInv(s, candles, k);
    BarJournal(s, Bars(s, candles, k).value.ledger, candles[..k], candles[k]);
  }

  lemma {:induction false} LaterBarsExtend(s: Setting, candles: seq<Candle>, k: nat, m: nat)
    requires k <= m <= |candles| && Bars(s, candles, m).Some?
    ensures Bars(s, candles, k).Some? && Extends(Bars(s, candles, m).value, Bars(s, candles, k).value)
    decreases m
  {
    hide Bar;
    if k < m {
      BarExtends(s, candles, m - 1);
      LaterBarsExtend(s, candles, k, m - 1);
      ExtendsTransitive(Bars(s, candles, m).value, Bars(s, candles, m - 1).value, Bars(s, candles, k).value);
    }
  }

  lemma ExtendsTransitive(p: Progress, q: Progress, r: Progress)
    requires Extends(p, q) && Extends(q, r)
    ensures Extends(p, r)
  {
  }

  lemma FinishExtends(s: Setting, candles: seq<Candle>, closeOnEnd: bool)
    requires ValidCandles(candles) && Finished(s, candles, closeOnEnd).Some?
    ensures var n := |candles|;
            var p := Finished(s, candles, closeOnEnd).value;
            && Bars(s, candles, n).Some?
            && var q := Bars(s, candles, n).value;
               Extends(p, q) && forall i :: |q.ledger.journal| <= i < |p.ledger.journal| ==>
                 p.ledger.journal[i].side.SELL?
  {
    var n := |candles|;
    if Finished(s, candles, closeOnEnd) != Bars(s, candles, n) {
      LiquidationNeverRaises(s, candles);
    }
  }

  /**
   No look-ahead: two finished runs over series that agree on their first k bars share the journal
   and the equity curve written over those bars.
   */
  lemma NoLookAhead(s: Setting, c1: seq<Candle>, c2: seq<Candle>, k: nat, end1: bool, end2: bool)
    requires ValidCandles(c1) && ValidCandles(c2)
    requires k <= |c1| && k <= |c2| && c1[..k] == c2[..k]
    requires Finished(s, c1, end1).Some? && Finished(s, c2, end2).Some?
    ensures var p1, p2 := Finished(s, c1, end1).value, Finished(s, c2, end2).value;
            && Bars(s, c1, k).Some?
            && var q := Bars(s, c1, k).value;
               |q.curve| == k && Extends(p1, q) && Extends(p2, q)
  {
    FinishExtends(s, c1, end1);
    FinishExtends(s, c2, end2);
    LaterBarsExtend(s, c1, k, |c1|);
    LaterBarsExtend(s, c2, k, |c2|);
    SameBarsSameState(s, c1, c2, k);
    BarsInv(s, c1, k);
  }

  predicate BoughtBy(e: Entry, timestamp: int) {
    e.side.BUY? && e.timestamp <= timestamp
  }

  lemma {:induction false} FilterConcat(a: seq<Entry>, b: seq<Entry>, p: Entry -> bool)
    ensures Filter(a + b, p) == Filter(a, p) + Filter(b, p)
  {
    if b == [] {
      assert a + b == a;
    } else {
      var n := |b| - 1;
      assert (a + b)[..|a + b| - 1] == a + b[..n];
      FilterConcat(a, b[..n], p);
    }
  }

  lemma {:induction false} FilterNone(a: seq<Entry>, p: Entry -> bool)
    requires forall i :: 0 <= i < |a| ==> !p(a[i])
    ensures Filter(a, p) == []
  {
    if a != [] {
      FilterNone(a[..|a| - 1], p);
    }
  }

  lemma SameAfterExtension(longer: seq<Entry>, shorter: seq<Entry>, p: Entry -> bool)
    requires shorter <= longer && forall i :: |shorter| <= i < |longer| ==> !p(longer[i])
    ensures Filter(longer, p) == Filter(shorter, p)
  {
    var rest := longer[|shorter|..];
    assert longer == shorter + rest;
    FilterConcat(shorter, rest, p);
    FilterNone(rest, p);
  }

  ghost function JournalAfterEntry(s: Setting, candles: seq<Candle>, k: nat): seq<Entry>
    requires k < |candles| && Bars(s, candles, k).Some?
  {
    var r := EntryPhase(s, Bars(s, candles, k).value.ledger, candles[..k], candles[k].open, candles[k].timestamp);
    if r.Ok? then r.value.journal else []
  }

  /** Nothing is bought at or before bar k's time once bar k's entry phase is over. */
  lemma {:induction false} EntriesSettledAfter(s: Setting, candles: seq<Candle>, k: nat, m: nat)
    requires Ascending(candles) && k < m <= |candles| && Bars(s, candles, m).Some?
    ensures Bars(s, candles, k).Some?
    ensures Filter(Bars(s, candles, m).value.ledger.journal, (e: Entry) => BoughtBy(e, candles[k].timestamp)) ==
            Filter(JournalAfterEntry(s, candles, k), (e: Entry) => BoughtBy(e, candles[k].timestamp))
    decreases m
  {
    var t := candles[k].timestamp;
    var p := (e: Entry) => BoughtBy(e, t);
    var j := Bars(s, candles, m).value.ledger.journal;
    BarExtends(s, candles, m - 1);
    if m == k + 1 {
      SameAfterExtension(j, JournalAfterEntry(s, candles, k), p);
    } else {
      EntriesSettledAfter(s, candles, k, m - 1);
      SameAfterExtension(j, Bars(s, candles, m - 1).value.ledger.journal, p);
    }
  }

  /**
   What is bought, or refused, up to and including bar k is settled by the bars before k and bar k's
   open and time: the rest of bar k, and everything after it, cannot change it.
   */
  lemma EntryIgnoresRestOfBar(s: Setting, c1: seq<Candle>, c2: seq<Candle>, k: nat, end1: bool, end2: bool)
    requires ValidCandles(c1) && ValidCandles(c2)
    requires k < |c1| && k < |c2| && c1[..k] == c2[..k]
    requires c1[k].open == c2[k].open && c1[k].timestamp == c2[k].timestamp
    requires Finished(s, c1, end1).Some? && Finished(s, c2, end2).Some?
    ensures Filter(Finished(s, c1, end1).value.ledger.journal, (e: Entry) => BoughtBy(e, c1[k].timestamp)) ==
            Filter(Finished(s, c2, end2).value.ledger.journal, (e: Entry) => BoughtBy(e, c1[k].timestamp))
  {
    var p := (e: Entry) => BoughtBy(e, c1[k].timestamp);
    FinishExtends(s, c1, end1);
    FinishExtends(s, c2, end2);
    EntriesSettledAfter(s, c1, k, |c1|);
    EntriesSettledAfter(s, c2, k, |c2|);
    SameBarsSameState(s, c1, c2, k);
    SameAfterExtension(Finished(s, c1, end1).value.ledger.journal, Bars(s, c1, |c1|).value.ledger.journal, p);
    SameAfterExtension(Finished(s, c2, end2).value.ledger.journal, Bars(s, c2, |c2|).value.ledger.journal, p);
  }
}
