/**
 What each request does, in the request's own terms: when an order is carried out and why not, at which
 prices and costs, with which levels a position is filed, and at which level it is protected.
 */
module PaperOrders {
  import opened Common
  import opened PaperLedger
  import opened PaperLaws

  // ---------- what a journal entry says ----------

  /** The entry repeats the request; a refused one records negative figures as zero. */
  ghost predicate Answers(e: Entry, r: Request) {
    && e.timestamp == r.submittedAt && e.symbol == r.symbol && e.market == r.market && e.side == r.side
    && e.quantity == MaxInt(r.quantity, 0) && e.requestedPrice == Max(r.referencePrice, 0.0)
  }

  /** A refusal moves no money; a trade moves the slipped price times the quantity, less or plus its costs. */
  ghost predicate MoneyBooked(c: Costs, e: Entry) {
    if e.status.BLOCKED? then
      && e.executionPrice == e.grossValue == e.costs == e.cashChange == e.realizedPnl == 0.0
      && e.blockReason.Some? && e.exitReason.NO_EXIT?
    else
      var slip := c.slippageBps / 10000.0;
      && (e.status.OPENED? <==> e.side.BUY?)
      && e.executionPrice == e.requestedPrice * (if e.side.BUY? then 1.0 + slip else 1.0 - slip)
      && e.grossValue == e.executionPrice * e.quantity as real
      && e.costs == e.grossValue * (c.brokeragePct + c.taxesPct) + c.brokerageFlat
      && e.cashChange == (if e.side.BUY? then -(e.grossValue + e.costs) else e.grossValue - e.costs)
      && (e.side.BUY? ==> e.realizedPnl == 0.0 && e.exitReason.NO_EXIT?)
      && e.blockReason.None?
  }

  /** A sale realizes its proceeds less what the sold units cost, by the lot the journal had built up so far. */
  ghost predicate PnlBooked(lots: map<string, Lot>, e: Entry) {
    e.status.CLOSED? ==>
      && e.symbol in lots && lots[e.symbol].market == e.market && 0 < e.quantity <= lots[e.symbol].quantity
      && var lot := lots[e.symbol];
         e.realizedPnl ==
         e.cashChange - (lot.averageEntryPrice + lot.entryCostPerUnit) * e.quantity as real
  }

  // ---------- why an entry is refused ----------

  /** What a purchase would cost, fees included. */
  function Outlay(c: Costs, r: Request): real {
    var gross := r.referencePrice * (1.0 + c.slippageBps / 10000.0) * r.quantity as real;
    gross + (gross * (c.brokeragePct + c.taxesPct) + c.brokerageFlat)
  }

  ghost predicate Objects(a: Account, l: Ledger, r: Request, o: BlockReason) {
    match o
    case INVALID_REQUEST =>
      r.quantity <= 0 || r.referencePrice <= 0.0 || r.stopLoss.None? || r.stopLoss.value >= r.referencePrice
    case POSITION_ALREADY_OPEN => r.symbol in l.positions
    case MAX_TRADES_PER_DAY => EntriesOn(l.journal, Day(r.submittedAt)) >= a.limits.maxTradesPerDay
    case DAILY_LOSS_LIMIT => PnlOn(l.journal, Day(r.submittedAt)) <= -a.limits.maxDailyLoss
    case INSUFFICIENT_CASH => CashAfter(a.startingCash, l.journal) - Outlay(a.costs, r) < a.limits.minCashBuffer
    case SHORT_SELLING_DISABLED => false
  }

  /** In the order in which the reasons are looked for. */
  const PRECEDENCE := [INVALID_REQUEST, POSITION_ALREADY_OPEN, MAX_TRADES_PER_DAY, DAILY_LOSS_LIMIT, INSUFFICIENT_CASH]

  ghost predicate NoObjection(a: Account, l: Ledger, r: Request) {
    forall k :: 0 <= k < |PRECEDENCE| ==> !Objects(a, l, r, PRECEDENCE[k])
  }

  ghost predicate FirstObjection(a: Account, l: Ledger, r: Request, o: BlockReason) {
    exists k :: 0 <= k < |PRECEDENCE| && o == PRECEDENCE[k] && Objects(a, l, r, o) &&
      forall j :: 0 <= j < k ==> !Objects(a, l, r, PRECEDENCE[j])
  }

  /** The position a purchase files: the requested levels, the slipped price, the costs spread over the units. */
  ghost predicate FiledAs(c: Costs, r: Request, held: Holding) {
    && held.market == r.market && held.quantity == r.quantity && held.openedAt == r.submittedAt
    && Some(held.stopLoss) == r.stopLoss && held.takeProfit == r.takeProfit
    && held.averageEntryPrice == r.referencePrice * (1.0 + c.slippageBps / 10000.0)
    && held.EntryBasis() == Outlay(c, r)
  }

  /** A purchase either files the position asked for, or is refused for the first objection there is. */
  ghost predicate BuyDecided(a: Account, l: Ledger, r: Request, l': Ledger) {
    && |l'.journal| == |l.journal| + 1 && l.journal == l'.journal[..|l.journal|]
    && var e := l'.journal[|l.journal|];
       && Answers(e, r) && MoneyBooked(a.costs, e)
       && if NoObjection(a, l, r) then
            && e.status.OPENED? && r.symbol in l'.positions && FiledAs(a.costs, r, l'.positions[r.symbol])
            && l'.positions == l.positions[r.symbol := l'.positions[r.symbol]]
          else
            && e.status.BLOCKED? && FirstObjection(a, l, r, e.blockReason.value)
            && l' == l.(journal := l'.journal)
  }

  lemma BlockAnswers(a: Account, l: Ledger, r: Request, o: BlockReason)
    ensures var l' := Block(l, r, o);
            && |l'.journal| == |l.journal| + 1 && l.journal == l'.journal[..|l.journal|]
            && l' == l.(journal := l'.journal)
            && var e := l'.journal[|l.journal|];
               e.status.BLOCKED? && Answers(e, r) && MoneyBooked(a.costs, e) && e.blockReason == Some(o)
  {
  }

  /** The reasons found before the price is worked out are the first four objections, in their order. */
  lemma BlockReasonIsFirst(a: Account, l: Ledger, r: Request)
    requires JournalAgrees(a, l)
    ensures match EntryBlockReason(a, l, r)
            case None => forall k :: 0 <= k < 4 ==> !Objects(a, l, r, PRECEDENCE[k])
            case Some(o) => FirstObjection(a, l, r, o)
  {
    var day := Day(r.submittedAt);
    assert GetOr(l.dailyEntryCount, day, 0) == EntriesOn(l.journal, day);
    assert GetOr(l.dailyRealizedPnl, day, 0.0) == PnlOn(l.journal, day);
    hide JournalAgrees, EntriesOn, PnlOn, CashAfter, Outlay;
    if EntryBlockReason(a, l, r).Some? {
      var o := EntryBlockReason(a, l, r).value;
      var k := if o.INVALID_REQUEST? then 0 else if o.POSITION_ALREADY_OPEN? then 1 else if o.MAX_TRADES_PER_DAY? then 2
        else 3;
      assert o == PRECEDENCE[k] && Objects(a, l, r, o);
    }
  }

  lemma LastObjection(a: Account, l: Ledger, r: Request)
    requires forall k :: 0 <= k < 4 ==> !Objects(a, l, r, PRECEDENCE[k])
    ensures NoObjection(a, l, r) <==> !Objects(a, l, r, INSUFFICIENT_CASH)
    ensures !NoObjection(a, l, r) ==> FirstObjection(a, l, r, INSUFFICIENT_CASH)
  {
    hide Objects;
    assert PRECEDENCE[4] == INSUFFICIENT_CASH;
  }

  lemma BoughtAsAsked(a: Account, l: Ledger, r: Request, price: real, gross: real, costs: real)
    requires EntryBlockReason(a, l, r).None?
    requires a.costs.ExecutionPrice(BUY, r.referencePrice) == Ok(price) && gross == Gross(price, r.quantity)
    requires a.costs.TransactionCost(gross) == Ok(costs)
    requires r.side.BUY?
    ensures gross + costs == Outlay(a.costs, r)
    ensures var l' := Bought(l, r, price, gross, costs, costs / r.quantity as real);
            var e := l'.journal[|l.journal|];
            && Answers(e, r) && MoneyBooked(a.costs, e) && e.status.OPENED?
            && FiledAs(a.costs, r, l'.positions[r.symbol])
  {
    BasisOfPurchase(price, costs, r.quantity);
  }

  lemma BuyIsDecided(a: Account, l: Ledger, r: Request, reason: ExitReason)
    requires JournalAgrees(a, l) && r.side.BUY?
    ensures Submit(a, l, r, reason).Ok? && BuyDecided(a, l, r, Submit(a, l, r, reason).value)
  {
    BlockReasonIsFirst(a, l, r);
    var block := EntryBlockReason(a, l, r);
    if block.Some? {
      BlockAnswers(a, l, r, block.value);
    } else {
      LastObjection(a, l, r);
      BlockAnswers(a, l, r, INSUFFICIENT_CASH);
      var price, gross, costs := Purchase(a, l, r);
      BoughtAsAsked(a, l, r, price, gross, costs);
      assert l.cash == CashAfter(a.startingCash, l.journal);
      hide Answers, MoneyBooked, FiledAs, EntryBlockReason, NoObjection, FirstObjection, Outlay, JournalAgrees,
        CashAfter;
    }
  }

  // ---------- sales ----------

  /** The units a position keeps, and nothing else about it changes; no units, no position. */
  ghost predicate UnitsTaken(before: map<string, Holding>, after: map<string, Holding>, symbol: string, units: int)
    requires symbol in before
  {
    var held := before[symbol];
    if units == held.quantity then after == before - {symbol}
    else after == before[symbol := held.(quantity := held.quantity - units)]
  }

  /** A covered sale is booked with the reason given for it; any other is refused, and why. */
  ghost predicate SaleDecided(a: Account, l: Ledger, r: Request, reason: ExitReason, l': Ledger) {
    && |l'.journal| == |l.journal| + 1 && l.journal == l'.journal[..|l.journal|]
    && var e := l'.journal[|l.journal|];
       && Answers(e, r) && MoneyBooked(a.costs, e)
       && if Sells(l, r) then
            && e.status.CLOSED? && e.exitReason == reason && UnitsTaken(l.positions, l'.positions, r.symbol, r.quantity)
            && PnlBooked(BooksOf(l).lots, e)
          else
            && e.status.BLOCKED? && l' == l.(journal := l'.journal)
            && e.blockReason == Some(
                 if r.symbol in l.positions && l.positions[r.symbol].market == r.market && r.quantity > 0
                 then SHORT_SELLING_DISABLED else INVALID_REQUEST)
  }

  lemma SoldAsAsked(a: Account, l: Ledger, r: Request, reason: ExitReason, price: real, gross: real, costs: real)
    requires Sells(l, r) && r.side.SELL? && r.referencePrice > 0.0
    requires a.costs.ExecutionPrice(SELL, r.referencePrice) == Ok(price) && gross == Gross(price, r.quantity)
    requires a.costs.TransactionCost(gross) == Ok(costs)
    ensures var l' := Sold(l, r, reason, price, gross, costs, gross - costs -
              SoldBasis(l.positions[r.symbol], r.quantity));
            SaleDecided(a, l, r, reason, l')
  {
    assert BooksOf(l).lots[r.symbol] == LotOf(l.positions[r.symbol]);
    hide BooksOf;
  }

  lemma SaleIsDecided(a: Account, l: Ledger, r: Request, reason: ExitReason)
    requires r.side.SELL? && Submit(a, l, r, reason).Ok?
    ensures SaleDecided(a, l, r, reason, Submit(a, l, r, reason).value)
  {
    if Sells(l, r) {
      var price, gross, costs, realized := Sale(a, l, r, reason);
      SoldAsAsked(a, l, r, reason, price, gross, costs);
    } else {
      BlockAnswers(a, l, r, INVALID_REQUEST);
      BlockAnswers(a, l, r, SHORT_SELLING_DISABLED);
      hide Answers, MoneyBooked;
    }
  }

  // ---------- protective exits ----------

  /** The whole position is sold for that reason, asked at that price. */
  ghost predicate SoldWholeAt(l: Ledger, symbol: string, timestamp: int, price: real, reason: ExitReason, l': Ledger)
    requires symbol in l.positions
  {
    && |l'.journal| == |l.journal| + 1 && l.journal == l'.journal[..|l.journal|]
    && l'.positions == l.positions - {symbol}
    && var e := l'.journal[|l.journal|];
       && e.status.CLOSED? && e.side.SELL? && e.symbol == symbol && e.exitReason == reason && e.timestamp == timestamp
       && e.quantity == l.positions[symbol].quantity && e.requestedPrice == price
  }

  /**
   A bar that reaches the stop sells at the stop; one that only reaches the target, at the target; any other,
   nothing.
   */
  ghost predicate Protected(l: Ledger, symbol: string, market: Market, timestamp: int, low: real, high: real,
                            l': Ledger) {
    if symbol !in l.positions || l.positions[symbol].market != market then l' == l else
    var held := l.positions[symbol];
    if low <= held.stopLoss then SoldWholeAt(l, symbol, timestamp, held.stopLoss, STOP_LOSS, l')
    else if held.takeProfit.Some? && held.takeProfit.value <= high then
      SoldWholeAt(l, symbol, timestamp, held.takeProfit.value, PROFIT_TARGET, l')
    else l' == l
  }

  lemma WholeSale(a: Account, l: Ledger, r: Request, reason: ExitReason)
    requires r.side.SELL? && Sells(l, r) && r.quantity == l.positions[r.symbol].quantity
    requires Submit(a, l, r, reason).Ok?
    ensures SoldWholeAt(l, r.symbol, r.submittedAt, r.referencePrice, reason, Submit(a, l, r, reason).value)
  {
    SaleRaisesExactly(a, l, r, reason);
    SaleIsDecided(a, l, r, reason);
    hide Submit, MoneyBooked, PnlBooked;
  }

  /** An exit check that does not raise protects the position at its own levels. */
  lemma ExitIsProtective(a: Account, l: Ledger, symbol: string, market: Market, timestamp: int, low: real, high: real)
    requires symbol in l.positions ==> l.positions[symbol].quantity > 0
    requires EvaluateExit(a, l, symbol, market, timestamp, low, high).Ok?
    ensures Protected(l, symbol, market, timestamp, low, high,
              EvaluateExit(a, l, symbol, market, timestamp, low, high).value)
  {
    hide Submit, SoldWholeAt;
    var order := ExitOrder(l, symbol, market, timestamp, low, high);
    if order.Some? {
      WholeSale(a, l, order.value.0, order.value.1);
    }
  }

  // ---------- over every history ----------

  ghost predicate StepBooked(a: Account, l: Ledger, l': Ledger) {
    l' == l ||
    (&& |l'.journal| == |l.journal| + 1 && l.journal == l'.journal[..|l.journal|]
     && MoneyBooked(a.costs, l'.journal[|l.journal|]) && PnlBooked(BooksOf(l).lots, l'.journal[|l.journal|]))
  }

  lemma SubmitBooks(a: Account, l: Ledger, r: Request, reason: ExitReason)
    requires Inv(a, l) && Submit(a, l, r, reason).Ok?
    ensures StepBooked(a, l, Submit(a, l, r, reason).value)
  {
    if r.side.BUY? {
      BuyIsDecided(a, l, r, reason);
    } else {
      SaleIsDecided(a, l, r, reason);
    }
    hide Submit, MoneyBooked, Answers, NoObjection, FirstObjection, FiledAs, UnitsTaken, BooksOf;
  }

  lemma ApplyBooks(a: Account, l: Ledger, call: Call)
    requires Inv(a, l)
    ensures StepBooked(a, l, Apply(a, l, call))
  {
    hide Submit, Inv, StepBooked;
    NothingBooked(a, l);
    if Attempt(a, l, call).Ok? {
      match call
      case Order(r, reason) => SubmitBooks(a, l, r, reason);
      case ExitCheck(s, m, ts, low, high) =>
        var order := ExitOrder(l, s, m, ts, low, high);
        if order.Some? {
          SubmitBooks(a, l, order.value.0, order.value.1);
        }
      case CloseOut(s, m, price, ts, reason) => SubmitBooks(a, l, CloseOutRequest(l, s, m, price, ts), reason);
    }
  }

  lemma NothingBooked(a: Account, l: Ledger)
    ensures StepBooked(a, l, l)
  {
  }

  ghost predicate EntryBooked(a: Account, journal: seq<Entry>, i: nat)
    requires i < |journal|
  {
    MoneyBooked(a.costs, journal[i]) && PnlBooked(Replay(a.startingCash, journal[..i]).lots, journal[i])
  }

  ghost predicate AllBooked(a: Account, journal: seq<Entry>) {
    forall i: nat :: i < |journal| ==> EntryBooked(a, journal, i)
  }

  lemma AppendBooked(a: Account, before: seq<Entry>, after: seq<Entry>)
    requires AllBooked(a, before)
    requires |after| == |before| + 1 && before == after[..|before|]
    requires MoneyBooked(a.costs, after[|before|])
    requires PnlBooked(Replay(a.startingCash, before).lots, after[|before|])
    ensures AllBooked(a, after)
  {
    hide Replay, MoneyBooked, PnlBooked;
    forall i: nat | i < |after| ensures EntryBooked(a, after, i) {
      if i < |before| {
        assert EntryBooked(a, before, i);
        assert after[..i] == before[..i];
      }
    }
  }

  /** Every entry of every history has the prices, costs and results that the configuration and the journal imply. */
  lemma {:induction false} EveryEntryIsBooked(a: Account, calls: seq<Call>)
    ensures AllBooked(a, After(a, calls).journal)
  {
    hide AllBooked, Apply, BooksOf, MoneyBooked, PnlBooked;
    if calls == [] {
      NothingToBook(a);
    } else {
      var before := calls[..|calls| - 1];
      EveryEntryIsBooked(a, before);
      AfterInv(a, before);
      var l, l' := After(a, before), After(a, calls);
      ApplyBooks(a, l, calls[|calls| - 1]);
      JournalRebuildsBooks(a, before);
      if l' != l {
        AppendBooked(a, l.journal, l'.journal);
      }
    }
  }

  lemma NothingToBook(a: Account)
    ensures AllBooked(a, [])
  {
  }

  lemma OneMoreCall(a: Account, calls: seq<Call>, call: Call)
    ensures After(a, calls + [call]) == Apply(a, After(a, calls), call)
  {
    assert (calls + [call])[..|calls|] == calls;
  }

  /** At the end of any history a purchase is carried out exactly when nothing objects, or refused for what does. */
  lemma PurchaseDecidedExactly(a: Account, calls: seq<Call>, r: Request, reason: ExitReason)
    requires r.side.BUY?
    ensures BuyDecided(a, After(a, calls), r, After(a, calls + [Order(r, reason)]))
  {
    hide After, Submit, BuyDecided;
    AfterInv(a, calls);
    OneMoreCall(a, calls, Order(r, reason));
    BuyIsDecided(a, After(a, calls), r, reason);
  }

  /** A sale that raises leaves the account alone; any other is carried out when covered, or refused, and why. */
  lemma SaleDecidedExactly(a: Account, calls: seq<Call>, r: Request, reason: ExitReason)
    requires r.side.SELL?
    ensures var l, l' := After(a, calls), After(a, calls + [Order(r, reason)]);
            if Sells(l, r) && (r.referencePrice <= 0.0 || a.costs.slippageBps > 10000.0) then l' == l
            else SaleDecided(a, l, r, reason, l')
  {
    hide After, SaleDecided, Close;
    var l := After(a, calls);
    OneMoreCall(a, calls, Order(r, reason));
    SaleRaisesExactly(a, l, r, reason);
    if Submit(a, l, r, reason).Ok? {
      SaleIsDecided(a, l, r, reason);
    }
  }

  /** An exit check of any history raises, and changes nothing, or sells the whole position at its own level. */
  lemma ExitChecksProtect(a: Account, calls: seq<Call>, symbol: string, market: Market, timestamp: int, low: real,
                          high: real)
    ensures var l, l' := After(a, calls), After(a, calls + [ExitCheck(symbol, market, timestamp, low, high)]);
            if EvaluateExit(a, l, symbol, market, timestamp, low, high).Raised? then l' == l
            else Protected(l, symbol, market, timestamp, low, high, l')
  {
    hide After, Protected, EvaluateExit;
    var l := After(a, calls);
    AfterInv(a, calls);
    OneMoreCall(a, calls, ExitCheck(symbol, market, timestamp, low, high));
    if EvaluateExit(a, l, symbol, market, timestamp, low, high).Ok? {
      ExitIsProtective(a, l, symbol, market, timestamp, low, high);
    }
  }

  // ---------- where the open positions come from ----------

  ghost predicate SameButUnits(a: Holding, b: Holding) {
    b == a.(quantity := b.quantity) && 0 < b.quantity <= a.quantity
  }

  /** What may be held after a call: what was held, with fewer units perhaps, or what the call ordered. */
  ghost predicate HeldAfter(a: Account, l: Ledger, call: Call, l': Ledger, symbol: string)
    requires symbol in l'.positions
  {
    if symbol in l.positions then SameButUnits(l.positions[symbol], l'.positions[symbol])
    else
      && call.Order? && call.request.side.BUY? && call.request.symbol == symbol
      && FiledAs(a.costs, call.request, l'.positions[symbol])
  }

  lemma SaleAddsNothing(a: Account, l: Ledger, r: Request, reason: ExitReason)
    requires Inv(a, l) && r.side.SELL? && Submit(a, l, r, reason).Ok?
    ensures var l' := Submit(a, l, r, reason).value;
            forall s :: s in l'.positions ==> s in l.positions && SameButUnits(l.positions[s], l'.positions[s])
  {
    SaleIsDecided(a, l, r, reason);
    hide Submit, MoneyBooked, Answers, PnlBooked;
  }

  lemma PositionsAfterCall(a: Account, l: Ledger, call: Call)
    requires Inv(a, l)
    ensures var l' := Apply(a, l, call);
            forall s :: s in l'.positions ==> HeldAfter(a, l, call, l', s)
  {
    if Attempt(a, l, call).Ok? {
      match call
      case Order(r, reason) =>
        if r.side.BUY? {
          BuyIsDecided(a, l, r, reason);
          BuyNeedsNoPosition(a, l, r);
        } else {
          SaleAddsNothing(a, l, r, reason);
        }
      case ExitCheck(s, m, ts, low, high) =>
        var order := ExitOrder(l, s, m, ts, low, high);
        if order.Some? {
          SaleAddsNothing(a, l, order.value.0, order.value.1);
        }
      case CloseOut(s, m, price, ts, reason) => SaleAddsNothing(a, l, CloseOutRequest(l, s, m, price, ts), reason);
    }
    hide Submit, MoneyBooked, Answers, FiledAs, FirstObjection, NoObjection;
  }

  lemma BuyNeedsNoPosition(a: Account, l: Ledger, r: Request)
    ensures NoObjection(a, l, r) ==> r.symbol !in l.positions
  {
    assert NoObjection(a, l, r) ==> !Objects(a, l, r, PRECEDENCE[1]);
  }

  /** The order behind a position: it filed it when none was held, and it has been held ever since. */
  ghost predicate OpenedBy(a: Account, calls: seq<Call>, i: nat, symbol: string, held: Holding)
    requires i < |calls|
  {
    && calls[i].Order? && calls[i].request.side.BUY? && calls[i].request.symbol == symbol
    && held.quantity <= calls[i].request.quantity
    && FiledAs(a.costs, calls[i].request, held.(quantity := calls[i].request.quantity))
    && symbol !in After(a, calls[..i]).positions
    && forall j :: i < j <= |calls| ==> symbol in After(a, calls[..j]).positions
  }

  ghost predicate OpenedByOrder(a: Account, calls: seq<Call>, symbol: string, held: Holding) {
    exists i: nat :: i < |calls| && OpenedBy(a, calls, i, symbol, held)
  }

  lemma OrderRemembered(a: Account, calls: seq<Call>, i: nat, symbol: string, held: Holding, now: Holding)
    requires calls != [] && i < |calls| - 1 && OpenedBy(a, calls[..|calls| - 1], i, symbol, held)
    requires SameButUnits(held, now) && symbol in After(a, calls).positions
    ensures OpenedBy(a, calls, i, symbol, now)
  {
    hide After, FiledAs;
    var before := calls[..|calls| - 1];
    assert before[..i] == calls[..i];
    forall j | i < j <= |calls| ensures symbol in After(a, calls[..j]).positions {
      if j == |calls| {
        assert calls[..j] == calls;
      } else {
        assert calls[..j] == before[..j];
      }
    }
  }

  lemma OrderJustMade(a: Account, calls: seq<Call>, symbol: string)
    requires calls != [] && symbol in After(a, calls).positions
    requires symbol !in After(a, calls[..|calls| - 1]).positions
    requires HeldAfter(a, After(a, calls[..|calls| - 1]), calls[|calls| - 1], After(a, calls), symbol)
    ensures OpenedBy(a, calls, |calls| - 1, symbol, After(a, calls).positions[symbol])
  {
    hide After;
    var held := After(a, calls).positions[symbol];
    assert held.(quantity := held.quantity) == held;
    assert calls[..|calls|] == calls;
  }

  /**
   Every open position of every history goes back to one buy order of its symbol, and has that order's market,
   stop, target and time, its slipped price and its costs, and at most its quantity.
   */
  lemma {:induction false} PositionsAreAsOrdered(a: Account, calls: seq<Call>, symbol: string)
    requires symbol in After(a, calls).positions
    ensures OpenedByOrder(a, calls, symbol, After(a, calls).positions[symbol])
    decreases |calls|
  {
    var before, call := calls[..|calls| - 1], calls[|calls| - 1];
    AfterInv(a, before);
    PositionsAfterCall(a, After(a, before), call);
    var l, l' := After(a, before), After(a, calls);
    assert l' == Apply(a, l, call);
    assert HeldAfter(a, l, call, l', symbol);
    hide After, Inv, OpenedBy, FiledAs, Apply;
    if symbol in l.positions {
      PositionsAreAsOrdered(a, before, symbol);
      var i: nat :| i < |before| && OpenedBy(a, before, i, symbol, l.positions[symbol]);
      OrderRemembered(a, calls, i, symbol, l.positions[symbol], l'.positions[symbol]);
    } else {
      OrderJustMade(a, calls, symbol);
    }
  }

  // ---------- closing out, and what a snapshot's equity is worth ----------

  lemma CloseOutIsWhole(a: Account, l: Ledger, symbol: string, market: Market, price: real, timestamp: int,
                        reason: ExitReason)
    requires symbol in l.positions && l.positions[symbol].market == market && l.positions[symbol].quantity > 0
    requires CloseOpenPosition(a, l, symbol, market, price, timestamp, reason).Ok?
    ensures SoldWholeAt(l, symbol, timestamp, price, reason,
              CloseOpenPosition(a, l, symbol, market, price, timestamp, reason).value)
  {
    hide Submit, SoldWholeAt;
    WholeSale(a, l, CloseOutRequest(l, symbol, market, price, timestamp), reason);
  }

  /** A close-out sells whatever is held at the price given; with nothing to sell in that market it is refused. */
  lemma CloseOutsSellWhole(a: Account, calls: seq<Call>, symbol: string, market: Market, price: real, timestamp: int,
                           reason: ExitReason)
    ensures var l, l' := After(a, calls), After(a, calls + [CloseOut(symbol, market, price, timestamp, reason)]);
            if symbol in l.positions && l.positions[symbol].market == market then
              if price <= 0.0 || a.costs.slippageBps > 10000.0 then l' == l
              else SoldWholeAt(l, symbol, timestamp, price, reason, l')
            else
              && |l'.journal| == |l.journal| + 1 && l' == l.(journal := l'.journal)
              && var e := l'.journal[|l.journal|];
                 && e.blockReason == Some(INVALID_REQUEST) && e.requestedPrice == Max(price, 0.0)
                 && e.quantity == if symbol in l.positions then l.positions[symbol].quantity else 0
  {
    hide After, SoldWholeAt, Close;
    var l := After(a, calls);
    AfterInv(a, calls);
    OneMoreCall(a, calls, CloseOut(symbol, market, price, timestamp, reason));
    var r := CloseOutRequest(l, symbol, market, price, timestamp);
    SaleRaisesExactly(a, l, r, reason);
    if Submit(a, l, r, reason).Ok? {
      SaleIsDecided(a, l, r, reason);
      if Sells(l, r) {
        WholeSale(a, l, r, reason);
      }
    }
  }

  /** The price a position is marked at: the mark given, or else what it was bought at. */
  function MarkFor(l: Ledger, marks: map<string, real>, symbol: string): real
    requires symbol in l.positions
  {
    if symbol in marks then marks[symbol] else l.positions[symbol].averageEntryPrice
  }

  /** The account once the listed positions have been closed out, each at its mark. */
  function Liquidated(a: Account, l: Ledger, marks: map<string, real>, symbols: seq<string>, timestamp: int): Ledger
    decreases |symbols|
  {
    if symbols == [] || symbols[0] !in l.positions then l else
    var s := symbols[0];
    Liquidated(a, Apply(a, l, CloseOut(s, l.positions[s].market, MarkFor(l, marks, s), timestamp,
      MANUAL_RESEARCH_EXIT)),
               marks, symbols[1..], timestamp)
  }

  lemma CloseOutPays(a: Account, l: Ledger, marks: map<string, real>, s: string, timestamp: int)
    requires Inv(a, l) && s in l.positions && Priceable(a.costs, l.positions, marks)
    ensures var l' := Apply(a, l, CloseOut(s, l.positions[s].market, MarkFor(l, marks, s), timestamp,
              MANUAL_RESEARCH_EXIT));
            && l'.positions == l.positions - {s} && Inv(a, l')
            && l'.cash == l.cash + SaleValues(a.costs, l.positions, marks)[s]
  {
    var held := l.positions[s];
    var call := CloseOut(s, held.market, MarkFor(l, marks, s), timestamp, MANUAL_RESEARCH_EXIT);
    ApplyKeeps(a, l, call);
    assert ProceedsOf(a.costs, l.positions, marks, s).Ok?;
    SaleDefinedExactly(a.costs, held, MarkFor(l, marks, s));
    var r := CloseOutRequest(l, s, held.market, MarkFor(l, marks, s), timestamp);
    SaleRaisesExactly(a, l, r, MANUAL_RESEARCH_EXIT);
    var price, gross, costs, realized := Sale(a, l, r, MANUAL_RESEARCH_EXIT);
  }

  lemma RestPriceable(a: Account, l: Ledger, l': Ledger, marks: map<string, real>, s: string)
    requires s in l.positions && l'.positions == l.positions - {s} && Priceable(a.costs, l.positions, marks)
    ensures Priceable(a.costs, l'.positions, marks)
    ensures SaleValues(a.costs, l'.positions, marks) == SaleValues(a.costs, l.positions, marks) - {s}
  {
    forall x | x in l'.positions
      ensures ProceedsOf(a.costs, l'.positions, marks, x) == ProceedsOf(a.costs, l.positions, marks, x)
    {
    }
    assert forall x :: x in l.positions ==> ProceedsOf(a.costs, l.positions, marks, x).Ok?;
  }

  lemma {:induction false} LiquidationPays(a: Account, l: Ledger, marks: map<string, real>, symbols: seq<string>,
                                           timestamp: int)
    requires Inv(a, l) && Priceable(a.costs, l.positions, marks)
    requires Distinct(symbols) && forall s :: s in symbols <==> s in l.positions
    ensures var end := Liquidated(a, l, marks, symbols, timestamp);
            end.positions == map[] && Inv(a, end) && end.cash == l.cash + Sum(SaleValues(a.costs, l.positions, marks))
    decreases |symbols|
  {
    hide Apply, Inv, Priceable, SaleValues, MarkFor;
    if symbols == [] {
      assert l.positions == map[];
      NothingToSell(a, l, marks);
    } else {
      var s := symbols[0];
      assert s in symbols;
      CloseOutPays(a, l, marks, s, timestamp);
      var l' := Apply(a, l, CloseOut(s, l.positions[s].market, MarkFor(l, marks, s), timestamp, MANUAL_RESEARCH_EXIT));
      RestPriceable(a, l, l', marks, s);
      forall x ensures x in symbols[1..] <==> x in l'.positions {
        assert x in symbols <==> x == s || x in symbols[1..];
      }
      SaleListed(a, l, marks, s);
      SumSplit(SaleValues(a.costs, l.positions, marks), s);
      LiquidationPays(a, l', marks, symbols[1..], timestamp);
    }
  }

  lemma SaleListed(a: Account, l: Ledger, marks: map<string, real>, s: string)
    requires Priceable(a.costs, l.positions, marks) && s in l.positions
    ensures s in SaleValues(a.costs, l.positions, marks)
  {
    assert ProceedsOf(a.costs, l.positions, marks, s).Ok?;
  }

  lemma NothingToSell(a: Account, l: Ledger, marks: map<string, real>)
    requires l.positions == map[]
    ensures Sum(SaleValues(a.costs, l.positions, marks)) == 0.0
  {
    assert SaleValues(a.costs, l.positions, marks) == map[];
  }

  /**
   A snapshot is worth what it says: closing out every position at its mark, in whatever order, turns the
   equity into cash and the unrealized result into a realized one.
   */
  lemma EquityIsLiquidationCash(a: Account, calls: seq<Call>, marks: map<string, real>, symbols: seq<string>,
                                timestamp: int)
    requires Priceable(a.costs, After(a, calls).positions, marks)
    requires Distinct(symbols) && forall s :: s in symbols <==> s in After(a, calls).positions
    ensures var m := Marked(a, After(a, calls), timestamp, marks);
            var end := Liquidated(a, After(a, calls), marks, symbols, timestamp);
            && end.positions == map[] && end.cash == m.equity
            && end.realizedPnl == m.realizedPnl + m.unrealizedPnl
            && m.timestamp == timestamp && m.cash == After(a, calls).cash && m.totalCosts == After(a, calls).totalCosts
            && m.realizedPnl == After(a, calls).realizedPnl
  {
    hide After, Liquidated, SaleValues, Bases;
    AfterInv(a, calls);
    var l := After(a, calls);
    LiquidationPays(a, l, marks, symbols, timestamp);
    var end := Liquidated(a, l, marks, symbols, timestamp);
    NothingOwned(end);
  }

  lemma NothingOwned(l: Ledger)
    requires l.positions == map[]
    ensures Sum(Bases(l.positions)) == 0.0
  {
    assert Bases(l.positions) == map[];
  }
}
