/** What every history of the paper account keeps. */
module PaperLaws {
  import opened Common
  import opened PaperLedger

  // ---------- histories ----------

  datatype Call =
    | Order(request: Request, exitReason: ExitReason)
    | ExitCheck(symbol: string, market: Market, timestamp: int, low: real, high: real)
    | CloseOut(symbol: string, market: Market, price: real, timestamp: int, reason: ExitReason)

  function Attempt(a: Account, l: Ledger, call: Call): Result<Ledger> {
    match call
    case Order(request, reason) => Submit(a, l, request, reason)
    case ExitCheck(s, m, ts, low, high) => EvaluateExit(a, l, s, m, ts, low, high)
    case CloseOut(s, m, price, ts, reason) => CloseOpenPosition(a, l, s, m, price, ts, reason)
  }

  /** A call that raises leaves the account as it was. */
  function Apply(a: Account, l: Ledger, call: Call): Ledger {
    var r := Attempt(a, l, call);
    if r.Ok? then r.value else l
  }

  function After(a: Account, calls: seq<Call>): Ledger {
    if calls == [] then Opening(a.startingCash)
    else Apply(a, After(a, calls[..|calls| - 1]), calls[|calls| - 1])
  }

  // ---------- bookkeeping from the journal alone ----------

  /** What the journal can know of a position: everything but its exit levels. */
  datatype Lot = Lot(market: Market, quantity: int, averageEntryPrice: real, entryCostPerUnit: real, openedAt: int)

  datatype Books = Books(
    cash: real,
    realizedPnl: real,
    totalCosts: real,
    lots: map<string, Lot>,
    dailyEntryCount: map<int, int>,
    dailyRealizedPnl: map<int, real>
  )

  function LotOf(h: Holding): Lot {
    Lot(h.market, h.quantity, h.averageEntryPrice, h.entryCostPerUnit, h.openedAt)
  }

  function BooksOf(l: Ledger): Books {
    Books(l.cash, l.realizedPnl, l.totalCosts, map s | s in l.positions :: LotOf(l.positions[s]),
          l.dailyEntryCount, l.dailyRealizedPnl)
  }

  function ReduceLot(lots: map<string, Lot>, symbol: string, quantity: int): map<string, Lot> {
    if symbol !in lots || lots[symbol].quantity <= quantity then lots - {symbol}
    else lots[symbol := lots[symbol].(quantity := lots[symbol].quantity - quantity)]
  }

  function Post(b: Books, e: Entry): Books {
    var day := Day(e.timestamp);
    match e.status
    case BLOCKED => b
    case OPENED =>
      b.(cash := b.cash + e.cashChange,
         totalCosts := b.totalCosts + e.costs,
         lots := b.lots[e.symbol :=
           Lot(e.market, e.quantity, e.executionPrice,
               if e.quantity == 0 then 0.0 else e.costs / e.quantity as real, e.timestamp)],
         dailyEntryCount := b.dailyEntryCount[day := GetOr(b.dailyEntryCount, day, 0) + 1])
    case CLOSED =>
      b.(cash := b.cash + e.cashChange,
         realizedPnl := b.realizedPnl + e.realizedPnl,
         totalCosts := b.totalCosts + e.costs,
         lots := ReduceLot(b.lots, e.symbol, e.quantity),
         dailyRealizedPnl := b.dailyRealizedPnl[day := GetOr(b.dailyRealizedPnl, day, 0.0) + e.realizedPnl])
  }

  function Replay(startingCash: real, journal: seq<Entry>): Books {
    if journal == [] then BooksOf(Opening(startingCash))
    else Post(Replay(startingCash, journal[..|journal| - 1]), journal[|journal| - 1])
  }

  // ---------- independent readings of a journal ----------

  predicate OpenedOn(e: Entry, day: int) {
    e.status.OPENED? && Day(e.timestamp) == day
  }

  predicate ClosedOn(e: Entry, day: int) {
    e.status.CLOSED? && Day(e.timestamp) == day
  }

  function EntriesOn(journal: seq<Entry>, day: int): nat {
    Count(journal, (e: Entry) => OpenedOn(e, day))
  }

  function PnlOn(journal: seq<Entry>, day: int): real {
    Total(journal, (e: Entry) => if ClosedOn(e, day) then e.realizedPnl else 0.0)
  }

  function RealizedPnl(journal: seq<Entry>): real {
    Total(journal, (e: Entry) => if e.status.CLOSED? then e.realizedPnl else 0.0)
  }

  function CashAfter(startingCash: real, journal: seq<Entry>): real {
    startingCash + Total(journal, (e: Entry) => e.cashChange)
  }

  function UnitsHeld(l: Ledger, symbol: string): int {
    if symbol in l.positions then l.positions[symbol].quantity else 0
  }

  function UnitsMoved(e: Entry, symbol: string): int {
    if e.symbol != symbol then 0 else
    match e.status
    case OPENED => e.quantity
    case CLOSED => -e.quantity
    case BLOCKED => 0
  }

  /** Units opened minus units closed. */
  function NetUnits(journal: seq<Entry>, symbol: string): int {
    if journal == [] then 0 else
    var e := journal[|journal| - 1];
    NetUnits(journal[..|journal| - 1], symbol) + UnitsMoved(e, symbol)
  }

  /** The gates an entry passed, read off the journal written before it. */
  ghost predicate EntryWasAllowed(a: Account, journal: seq<Entry>, i: int)
    requires 0 <= i < |journal|
  {
    var day := Day(journal[i].timestamp);
    journal[i].status.OPENED? ==>
      && EntriesOn(journal[..i], day) < a.limits.maxTradesPerDay
      && PnlOn(journal[..i], day) > -a.limits.maxDailyLoss
      && CashAfter(a.startingCash, journal[..i + 1]) >= a.limits.minCashBuffer
  }

  // ---------- the invariant ----------

  ghost predicate HoldingOk(h: Holding) {
    h.quantity > 0 && h.stopLoss < h.averageEntryPrice && h.averageEntryPrice > 0.0 && h.entryCostPerUnit >= 0.0
  }

  ghost predicate Conserved(a: Account, l: Ledger) {
    l.cash + Sum(Bases(l.positions)) == a.startingCash + l.realizedPnl
  }

  ghost predicate JournalAgrees(a: Account, l: Ledger) {
    && Replay(a.startingCash, l.journal) == BooksOf(l)
    && CashAfter(a.startingCash, l.journal) == l.cash
    && RealizedPnl(l.journal) == l.realizedPnl
    && Total(l.journal, CostsIn) == l.totalCosts
    && (forall d :: GetOr(l.dailyEntryCount, d, 0) == EntriesOn(l.journal, d))
    && (forall d :: GetOr(l.dailyRealizedPnl, d, 0.0) == PnlOn(l.journal, d))
    && (forall s :: NetUnits(l.journal, s) == UnitsHeld(l, s))
  }

  ghost predicate Inv(a: Account, l: Ledger) {
    && Conserved(a, l)
    && JournalAgrees(a, l)
    && (forall s :: s in l.positions ==> HoldingOk(l.positions[s]))
    && (forall i :: 0 <= i < |l.journal| ==> EntryWasAllowed(a, l.journal, i))
  }

  // ---------- arithmetic ----------

  lemma BasisOfPurchase(price: real, costs: real, quantity: int)
    requires quantity > 0
    ensures (price + costs / quantity as real) * quantity as real == Gross(price, quantity) + costs
  {
    var q := quantity as real;
    assert (costs / q) * q == costs;
    assert (price + costs / q) * q == price * q + (costs / q) * q;
  }

  lemma BasisSplits(unit: real, all: int, part: int)
    ensures unit * (all - part) as real == unit * all as real - unit * part as real
  {
    assert (all - part) as real == all as real - part as real;
  }

  // ---------- one more journal entry ----------

  lemma AppendEntry(a: Account, journal: seq<Entry>, e: Entry)
    requires forall i :: 0 <= i < |journal| ==> EntryWasAllowed(a, journal, i)
    requires e.status.OPENED? ==>
               && EntriesOn(journal, Day(e.timestamp)) < a.limits.maxTradesPerDay
               && PnlOn(journal, Day(e.timestamp)) > -a.limits.maxDailyLoss
               && CashAfter(a.startingCash, journal) + e.cashChange >= a.limits.minCashBuffer
    ensures forall i :: 0 <= i < |journal + [e]| ==> EntryWasAllowed(a, journal + [e], i)
  {
    var j := journal + [e];
    forall i | 0 <= i < |j|
      ensures EntryWasAllowed(a, j, i)
    {
      if i < |journal| {
        assert j[..i] == journal[..i] && j[..i + 1] == journal[..i + 1];
        assert EntryWasAllowed(a, journal, i);
      } else {
        assert j[..i] == journal && j[..i + 1] == j;
      }
    }
  }

  lemma PostAppended(startingCash: real, journal: seq<Entry>, e: Entry)
    ensures Replay(startingCash, journal + [e]) == Post(Replay(startingCash, journal), e)
    ensures CashAfter(startingCash, journal + [e]) == CashAfter(startingCash, journal) + e.cashChange
    ensures RealizedPnl(journal + [e]) == RealizedPnl(journal) + if e.status.CLOSED? then e.realizedPnl else 0.0
    ensures Total(journal + [e], CostsIn) == Total(journal, CostsIn) + e.costs
    ensures forall d :: EntriesOn(journal + [e], d) == EntriesOn(journal, d) + if OpenedOn(e, d) then 1 else 0
    ensures forall d :: PnlOn(journal + [e], d) == PnlOn(journal, d) + if ClosedOn(e, d) then e.realizedPnl else 0.0
    ensures forall s :: NetUnits(journal + [e], s) == NetUnits(journal, s) + UnitsMoved(e, s)
  {
    assert (journal + [e])[..|journal|] == journal;
  }

  // ---------- every step keeps the invariant ----------

  lemma BlockKeeps(a: Account, l: Ledger, request: Request, reason: BlockReason)
    requires Inv(a, l)
    ensures Inv(a, Block(l, request, reason))
  {
    var e := BlockedEntry(request, reason);
    PostAppended(a.startingCash, l.journal, e);
    AppendEntry(a, l.journal, e);
  }

  ghost predicate Sells(l: Ledger, request: Request) {
    && request.symbol in l.positions
    && l.positions[request.symbol].market == request.market
    && 0 < request.quantity <= l.positions[request.symbol].quantity
  }

  lemma Fees(c: CostModel, gross: real) returns (costs: real)
    requires gross >= 0.0
    ensures c.TransactionCost(gross) == Ok(costs) && costs >= c.brokerageFlat >= 0.0
  {
    NonNegativeProduct(gross, c.brokeragePct + c.taxesPct);
    costs := c.TransactionCost(gross).value;
  }

  lemma BuyPrice(c: CostModel, reference: real) returns (price: real)
    requires reference > 0.0
    ensures c.ExecutionPrice(BUY, reference) == Ok(price) && price >= reference
  {
    var slip := c.slippageBps / 10000.0;
    NonNegativeProduct(reference, slip);
    assert reference * (1.0 + slip) == reference + reference * slip;
    price := c.ExecutionPrice(BUY, reference).value;
  }

  lemma SellPrice(c: CostModel, reference: real) returns (price: real)
    requires reference > 0.0
    ensures c.ExecutionPrice(SELL, reference) == Ok(price) && price <= reference
    ensures c.slippageBps <= 10000.0 <==> price >= 0.0
  {
    var slip := c.slippageBps / 10000.0;
    NonNegativeProduct(reference, slip);
    assert reference * (1.0 - slip) == reference - reference * slip;
    price := c.ExecutionPrice(SELL, reference).value;
    if slip <= 1.0 {
      NonNegativeProduct(reference, 1.0 - slip);
    } else {
      PositiveProduct(reference, slip - 1.0);
      assert reference * (slip - 1.0) == -price;
    }
  }

  /** A purchase never raises; these are its numbers. */
  lemma Purchase(a: Account, l: Ledger, request: Request) returns (price: real, gross: real, costs: real)
    requires EntryBlockReason(a, l, request).None?
    ensures price >= request.referencePrice && gross == Gross(price, request.quantity) && gross >= 0.0 && costs >= 0.0
    ensures a.costs.ExecutionPrice(BUY, request.referencePrice) == Ok(price) &&
            a.costs.TransactionCost(gross) == Ok(costs)
    ensures Open(a, l, request) == Ok(
              if l.cash - (gross + costs) < a.limits.minCashBuffer then Block(l, request, INSUFFICIENT_CASH)
              else Bought(l, request, price, gross, costs, costs / request.quantity as real))
  {
    price := BuyPrice(a.costs, request.referencePrice);
    gross := Gross(price, request.quantity);
    NonNegativeProduct(price, request.quantity as real);
    costs := Fees(a.costs, gross);
  }

  /** The numbers of a sale that does not raise. */
  lemma Sale(a: Account, l: Ledger, request: Request, reason: ExitReason)
    returns (price: real, gross: real, costs: real, realized: real)
    requires Sells(l, request) && Close(a, l, request, reason).Ok?
    ensures request.referencePrice > 0.0 && 0.0 <= price <= request.referencePrice
    ensures a.costs.ExecutionPrice(SELL, request.referencePrice) == Ok(price)
    ensures gross == Gross(price, request.quantity) && gross >= 0.0
    ensures a.costs.TransactionCost(gross) == Ok(costs) && costs >= 0.0
    ensures realized == gross - costs - SoldBasis(l.positions[request.symbol], request.quantity)
    ensures Close(a, l, request, reason) == Ok(Sold(l, request, reason, price, gross, costs, realized))
  {
    price := SellPrice(a.costs, request.referencePrice);
    gross := Gross(price, request.quantity);
    if price < 0.0 {
      PositiveProduct(-price, request.quantity as real);
    }
    costs := Fees(a.costs, gross);
    realized := gross - costs - SoldBasis(l.positions[request.symbol], request.quantity);
  }

  /** A journal entry that matches the change in the books keeps journal and books in agreement. */
  lemma AgreementGrows(a: Account, l: Ledger, l': Ledger, e: Entry)
    requires JournalAgrees(a, l)
    requires l'.journal == l.journal + [e]
    requires BooksOf(l') == Post(BooksOf(l), e)
    requires e.status.BLOCKED? ==> e.cashChange == 0.0 && e.costs == 0.0
    requires forall s :: UnitsHeld(l', s) == UnitsHeld(l, s) + UnitsMoved(e, s)
    ensures JournalAgrees(a, l')
  {
    PostAppended(a.startingCash, l.journal, e);
    var b, b' := BooksOf(l), BooksOf(l');
    assert forall d :: GetOr(b'.dailyEntryCount, d, 0) ==
                       GetOr(b.dailyEntryCount, d, 0) + if OpenedOn(e, d) then 1 else 0;
    assert forall d :: GetOr(b'.dailyRealizedPnl, d, 0.0) ==
                       GetOr(b.dailyRealizedPnl, d, 0.0) + if ClosedOn(e, d) then e.realizedPnl else 0.0;
    forall s
      ensures NetUnits(l'.journal, s) == UnitsHeld(l', s)
    {
      assert NetUnits(l.journal, s) == UnitsHeld(l, s);
    }
  }

  lemma BasisAdded(positions: map<string, Holding>, symbol: string, held: Holding)
    requires symbol !in positions
    ensures Sum(Bases(positions[symbol := held])) == Sum(Bases(positions)) + held.EntryBasis()
  {
    assert Bases(positions[symbol := held]) == Bases(positions)[symbol := held.EntryBasis()];
    assert Bases(positions) - {symbol} == Bases(positions);
    SumUpdate(Bases(positions), symbol, held.EntryBasis());
  }

  lemma BasisRemoved(positions: map<string, Holding>, symbol: string)
    requires symbol in positions
    ensures Sum(Bases(positions - {symbol})) == Sum(Bases(positions)) - positions[symbol].EntryBasis()
  {
    SumSplit(Bases(positions), symbol);
    assert Bases(positions - {symbol}) == Bases(positions) - {symbol};
  }

  lemma BasisReplaced(positions: map<string, Holding>, symbol: string, held: Holding)
    requires symbol in positions
    ensures Sum(Bases(positions[symbol := held])) ==
            Sum(Bases(positions)) - positions[symbol].EntryBasis() + held.EntryBasis()
  {
    BasisRemoved(positions, symbol);
    BasisAdded(positions - {symbol}, symbol, held);
    assert (positions - {symbol})[symbol := held] == positions[symbol := held];
  }

  lemma BoughtConserves(a: Account, l: Ledger, request: Request, price: real, gross: real, costs: real, unit: real)
    requires Conserved(a, l) && EntryBlockReason(a, l, request).None?
    requires gross == Gross(price, request.quantity)
    requires unit == costs / request.quantity as real
    ensures Conserved(a, Bought(l, request, price, gross, costs, unit))
  {
    var held := Bought(l, request, price, gross, costs, unit).positions[request.symbol];
    assert held.EntryBasis() == gross + costs by {
      BasisOfPurchase(price, costs, request.quantity);
    }
    BasisAdded(l.positions, request.symbol, held);
  }

  lemma BoughtAgrees(a: Account, l: Ledger, request: Request, price: real, gross: real, costs: real, unit: real)
    requires JournalAgrees(a, l) && EntryBlockReason(a, l, request).None?
    requires unit == costs / request.quantity as real
    ensures JournalAgrees(a, Bought(l, request, price, gross, costs, unit))
  {
    hide JournalAgrees;
    var l' := Bought(l, request, price, gross, costs, unit);
    var e := l'.journal[|l.journal|];
    assert BooksOf(l').lots == Post(BooksOf(l), e).lots;
    assert forall s :: UnitsHeld(l', s) == UnitsHeld(l, s) + UnitsMoved(e, s);
    AgreementGrows(a, l, l', e);
  }

  lemma BoughtAllowed(a: Account, l: Ledger, request: Request, price: real, gross: real, costs: real, unit: real)
    requires Inv(a, l) && EntryBlockReason(a, l, request).None?
    requires l.cash - (gross + costs) >= a.limits.minCashBuffer
    ensures var j := Bought(l, request, price, gross, costs, unit).journal;
            forall i :: 0 <= i < |j| ==> EntryWasAllowed(a, j, i)
  {
    var e := Bought(l, request, price, gross, costs, unit).journal[|l.journal|];
    var day := Day(e.timestamp);
    assert GetOr(l.dailyEntryCount, day, 0) == EntriesOn(l.journal, day);
    assert GetOr(l.dailyRealizedPnl, day, 0.0) == PnlOn(l.journal, day);
    AppendEntry(a, l.journal, e);
  }

  lemma BoughtKeeps(a: Account, l: Ledger, request: Request, price: real, gross: real, costs: real, unit: real)
    requires Inv(a, l) && EntryBlockReason(a, l, request).None?
    requires price >= request.referencePrice && gross == Gross(price, request.quantity) && costs >= 0.0
    requires unit == costs / request.quantity as real
    requires l.cash - (gross + costs) >= a.limits.minCashBuffer
    ensures Inv(a, Bought(l, request, price, gross, costs, unit))
  {
    BoughtConserves(a, l, request, price, gross, costs, unit);
    BoughtAgrees(a, l, request, price, gross, costs, unit);
    BoughtAllowed(a, l, request, price, gross, costs, unit);
    assert unit >= 0.0;
  }

  lemma OpenKeeps(a: Account, l: Ledger, request: Request)
    requires Inv(a, l)
    ensures Open(a, l, request).Ok? && Inv(a, Open(a, l, request).value)
  {
    var block := EntryBlockReason(a, l, request);
    if block.Some? {
      BlockKeeps(a, l, request, block.value);
    } else {
      var price, gross, costs := Purchase(a, l, request);
      if l.cash - (gross + costs) < a.limits.minCashBuffer {
        BlockKeeps(a, l, request, INSUFFICIENT_CASH);
      } else {
        BoughtKeeps(a, l, request, price, gross, costs, costs / request.quantity as real);
      }
    }
  }

  lemma SoldConserves(a: Account, l: Ledger, request: Request, reason: ExitReason, price: real, gross: real,
                      costs: real, realized: real)
    requires Conserved(a, l) && Sells(l, request)
    requires realized == gross - costs - SoldBasis(l.positions[request.symbol], request.quantity)
    ensures Conserved(a, Sold(l, request, reason, price, gross, costs, realized))
  {
    var held := l.positions[request.symbol];
    var left := held.(quantity := held.quantity - request.quantity);
    assert left.EntryBasis() == held.EntryBasis() - SoldBasis(held, request.quantity) by {
      BasisSplits(held.averageEntryPrice + held.entryCostPerUnit, held.quantity, request.quantity);
    }
    if request.quantity == held.quantity {
      BasisRemoved(l.positions, request.symbol);
    } else {
      BasisReplaced(l.positions, request.symbol, left);
    }
  }

  lemma SoldAgrees(a: Account, l: Ledger, request: Request, reason: ExitReason, price: real, gross: real, costs: real,
                   realized: real)
    requires JournalAgrees(a, l) && Sells(l, request)
    ensures JournalAgrees(a, Sold(l, request, reason, price, gross, costs, realized))
  {
    hide JournalAgrees;
    var l' := Sold(l, request, reason, price, gross, costs, realized);
    var e := l'.journal[|l.journal|];
    assert BooksOf(l').lots == Post(BooksOf(l), e).lots;
    assert forall s :: UnitsHeld(l', s) == UnitsHeld(l, s) + UnitsMoved(e, s);
    AgreementGrows(a, l, l', e);
  }

  lemma SoldAllowed(a: Account, l: Ledger, request: Request, reason: ExitReason, price: real, gross: real, costs: real,
                    realized: real)
    requires Inv(a, l) && Sells(l, request)
    ensures var l' := Sold(l, request, reason, price, gross, costs, realized);
            && (forall s :: s in l'.positions ==> HoldingOk(l'.positions[s]))
            && (forall i :: 0 <= i < |l'.journal| ==> EntryWasAllowed(a, l'.journal, i))
  {
    AppendEntry(a, l.journal, Sold(l, request, reason, price, gross, costs, realized).journal[|l.journal|]);
    assert HoldingOk(l.positions[request.symbol]);
  }

  lemma SoldKeeps(a: Account, l: Ledger, request: Request, reason: ExitReason, price: real, gross: real, costs: real,
                  realized: real)
    requires Inv(a, l) && Sells(l, request)
    requires realized == gross - costs - SoldBasis(l.positions[request.symbol], request.quantity)
    ensures Inv(a, Sold(l, request, reason, price, gross, costs, realized))
  {
    SoldConserves(a, l, request, reason, price, gross, costs, realized);
    SoldAgrees(a, l, request, reason, price, gross, costs, realized);
    SoldAllowed(a, l, request, reason, price, gross, costs, realized);
  }

  lemma CloseKeeps(a: Account, l: Ledger, request: Request, reason: ExitReason)
    requires Inv(a, l)
    requires Close(a, l, request, reason).Ok?
    ensures Inv(a, Close(a, l, request, reason).value)
  {
    if Sells(l, request) {
      var price, gross, costs, realized := Sale(a, l, request, reason);
      SoldKeeps(a, l, request, reason, price, gross, costs, realized);
    } else {
      BlockKeeps(a, l, request, INVALID_REQUEST);
      BlockKeeps(a, l, request, SHORT_SELLING_DISABLED);
    }
  }

  lemma SubmitKeeps(a: Account, l: Ledger, request: Request, reason: ExitReason)
    requires Inv(a, l) && Submit(a, l, request, reason).Ok?
    ensures Inv(a, Submit(a, l, request, reason).value)
  {
    if request.side.BUY? {
      OpenKeeps(a, l, request);
    } else {
      CloseKeeps(a, l, request, reason);
    }
  }

  lemma OpeningInv(a: Account)
    ensures Inv(a, Opening(a.startingCash))
  {
  }

  lemma ApplyKeeps(a: Account, l: Ledger, call: Call)
    requires Inv(a, l)
    ensures Inv(a, Apply(a, l, call))
  {
    if Attempt(a, l, call).Ok? {
      match call
      case Order(request, reason) => SubmitKeeps(a, l, request, reason);
      case ExitCheck(s, m, ts, low, high) =>
        var order := ExitOrder(l, s, m, ts, low, high);
        if order.Some? {
          SubmitKeeps(a, l, order.value.0, order.value.1);
        }
      case CloseOut(s, m, price, ts, reason) => SubmitKeeps(a, l, CloseOutRequest(l, s, m, price, ts), reason);
    }
  }

  lemma {:induction false} AfterInv(a: Account, calls: seq<Call>)
    ensures Inv(a, After(a, calls))
  {
    if calls == [] {
      OpeningInv(a);
    } else {
      AfterInv(a, calls[..|calls| - 1]);
      ApplyKeeps(a, After(a, calls[..|calls| - 1]), calls[|calls| - 1]);
    }
  }

  // ---------- the laws, over every history ----------

  /** Cash plus what the open positions cost is the starting cash plus the realized result. */
  lemma CashIsConserved(a: Account, calls: seq<Call>)
    ensures var l := After(a, calls);
            l.cash + Sum(Bases(l.positions)) == a.startingCash + l.realizedPnl
  {
    AfterInv(a, calls);
  }

  /** Whatever the marks, equity is starting cash plus realized plus unrealized result. */
  lemma EquityIsExplained(a: Account, calls: seq<Call>, timestamp: int, marks: map<string, real>)
    requires Priceable(a.costs, After(a, calls).positions, marks)
    ensures var m := Marked(a, After(a, calls), timestamp, marks);
            m.equity == a.startingCash + m.realizedPnl + m.unrealizedPnl
  {
    AfterInv(a, calls);
  }

  /** A snapshot raises exactly when a mark is not positive or slippage eats more than the price. */
  lemma SnapshotDefinedExactly(a: Account, calls: seq<Call>, marks: map<string, real>)
    ensures var l := After(a, calls);
            Priceable(a.costs, l.positions, marks) <==>
            forall s :: s in l.positions ==> MarkOf(l.positions, marks, s) > 0.0 && a.costs.slippageBps <= 10000.0
  {
    var l := After(a, calls);
    AfterInv(a, calls);
    forall s | s in l.positions
      ensures SaleValue(a.costs, l.positions[s], MarkOf(l.positions, marks, s)).Ok? <==>
              MarkOf(l.positions, marks, s) > 0.0 && a.costs.slippageBps <= 10000.0
    {
      SaleDefinedExactly(a.costs, l.positions[s], MarkOf(l.positions, marks, s));
    }
  }

  lemma SaleDefinedExactly(c: CostModel, held: Holding, mark: real)
    requires held.quantity > 0
    ensures SaleValue(c, held, mark).Ok? <==> mark > 0.0 && c.slippageBps <= 10000.0
  {
    if mark > 0.0 {
      var price := SellPrice(c, mark);
      if price >= 0.0 {
        NonNegativeProduct(price, held.quantity as real);
      } else {
        PositiveProduct(-price, held.quantity as real);
        assert Gross(price, held.quantity) == -(-price * held.quantity as real);
      }
    }
  }

  /** The journal alone rebuilds the books: totals, per-day counters, and every open lot. */
  lemma JournalRebuildsBooks(a: Account, calls: seq<Call>)
    ensures var l := After(a, calls);
            && Replay(a.startingCash, l.journal) == BooksOf(l)
            && l.cash == CashAfter(a.startingCash, l.journal)
            && l.realizedPnl == RealizedPnl(l.journal)
            && l.totalCosts == Total(l.journal, CostsIn)
            && (forall d :: GetOr(l.dailyEntryCount, d, 0) == EntriesOn(l.journal, d))
            && (forall d :: GetOr(l.dailyRealizedPnl, d, 0.0) == PnlOn(l.journal, d))
            && (forall s :: NetUnits(l.journal, s) == UnitsHeld(l, s) >= 0)
  {
    AfterInv(a, calls);
    var l := After(a, calls);
    assert JournalAgrees(a, l);
    forall s
      ensures NetUnits(l.journal, s) == UnitsHeld(l, s) >= 0
    {
    }
  }

  /** Blocked entries can be struck from the journal without changing what it says. */
  lemma {:induction false} BlockedEntriesSayNothing(startingCash: real, journal: seq<Entry>)
    ensures Replay(startingCash, Filter(journal, (e: Entry) => !e.status.BLOCKED?)) == Replay(startingCash, journal)
  {
    if journal != [] {
      var keep := (e: Entry) => !e.status.BLOCKED?;
      var rest, e := journal[..|journal| - 1], journal[|journal| - 1];
      BlockedEntriesSayNothing(startingCash, rest);
      if keep(e) {
        PostAppended(startingCash, Filter(rest, keep), e);
      } else {
        assert Filter(rest, keep) + [] == Filter(rest, keep);
      }
    }
  }

  /** Every entry in the journal had passed the day's trade count, the day's loss limit and the cash buffer. */
  lemma EntriesRespectLimits(a: Account, calls: seq<Call>)
    ensures var j := After(a, calls).journal;
            forall i :: 0 <= i < |j| ==> EntryWasAllowed(a, j, i)
  {
    AfterInv(a, calls);
  }

  lemma {:induction false} AllowedEntriesStayUnderLimit(a: Account, journal: seq<Entry>, day: int)
    requires forall i :: 0 <= i < |journal| ==> EntryWasAllowed(a, journal, i)
    ensures EntriesOn(journal, day) <= a.limits.maxTradesPerDay
  {
    if journal != [] {
      var n := |journal| - 1;
      forall i | 0 <= i < n
        ensures EntryWasAllowed(a, journal[..n], i)
      {
        assert EntryWasAllowed(a, journal, i);
        assert journal[..n][..i] == journal[..i] && journal[..n][..i + 1] == journal[..i + 1];
      }
      AllowedEntriesStayUnderLimit(a, journal[..n], day);
      assert EntryWasAllowed(a, journal, n);
    }
  }

  /** No day of any history has more entries than the limit. */
  lemma NoDayExceedsTradeLimit(a: Account, calls: seq<Call>, day: int)
    ensures EntriesOn(After(a, calls).journal, day) <= a.limits.maxTradesPerDay
  {
    AfterInv(a, calls);
    AllowedEntriesStayUnderLimit(a, After(a, calls).journal, day);
  }

  /** l' is l with one more journal entry, and if that entry is a refusal nothing else differs. */
  ghost predicate OneMoreEntry(l: Ledger, l': Ledger) {
    && |l'.journal| == |l.journal| + 1 && l.journal == l'.journal[..|l.journal|]
    && (l'.journal[|l.journal|].status.BLOCKED? ==> l' == l.(journal := l'.journal))
  }

  lemma OpenAddsOneEntry(a: Account, l: Ledger, request: Request)
    ensures Open(a, l, request).Ok? && OneMoreEntry(l, Open(a, l, request).value)
  {
    if EntryBlockReason(a, l, request).None? {
      var price, gross, costs := Purchase(a, l, request);
    }
  }

  lemma CloseAddsOneEntry(a: Account, l: Ledger, request: Request, reason: ExitReason)
    requires Close(a, l, request, reason).Ok?
    ensures OneMoreEntry(l, Close(a, l, request, reason).value)
  {
    if Sells(l, request) {
      var price, gross, costs, realized := Sale(a, l, request, reason);
    }
  }

  lemma SubmitAddsOneEntry(a: Account, l: Ledger, request: Request, reason: ExitReason)
    requires Submit(a, l, request, reason).Ok?
    ensures OneMoreEntry(l, Submit(a, l, request, reason).value)
  {
    if request.side.BUY? {
      OpenAddsOneEntry(a, l, request);
    } else {
      CloseAddsOneEntry(a, l, request, reason);
    }
  }

  /** A call writes at most one journal entry, and a refused one changes nothing else. */
  lemma RefusalChangesOnlyJournal(a: Account, l: Ledger, call: Call)
    ensures Apply(a, l, call) == l || OneMoreEntry(l, Apply(a, l, call))
  {
    if Attempt(a, l, call).Ok? {
      match call
      case Order(request, reason) => SubmitAddsOneEntry(a, l, request, reason);
      case ExitCheck(s, m, ts, low, high) =>
        var order := ExitOrder(l, s, m, ts, low, high);
        if order.Some? {
          SubmitAddsOneEntry(a, l, order.value.0, order.value.1);
        }
      case CloseOut(s, m, price, ts, reason) => SubmitAddsOneEntry(a, l, CloseOutRequest(l, s, m, price, ts), reason);
    }
  }

  /** A sale raises exactly when it is a valid sale at a non-positive price or with more than 100% slippage. */
  lemma SaleRaisesExactly(a: Account, l: Ledger, request: Request, reason: ExitReason)
    ensures Close(a, l, request, reason).Raised? <==>
            Sells(l, request) && (request.referencePrice <= 0.0 || a.costs.slippageBps > 10000.0)
  {
    if Sells(l, request) {
      SaleDefinedExactly(a.costs, l.positions[request.symbol].(quantity := request.quantity), request.referencePrice);
    }
  }

  lemma SellingBelowEntryLoses(held: Holding, price: real, costs: real)
    requires HoldingOk(held) && price <= held.stopLoss && costs >= 0.0
    ensures Gross(price, held.quantity) - costs - SoldBasis(held, held.quantity) < 0.0
  {
    var q := held.quantity as real;
    ProductMonotone(price, held.stopLoss, q);
    PositiveProduct(held.averageEntryPrice - held.stopLoss, q);
    assert (held.averageEntryPrice - held.stopLoss) * q == held.averageEntryPrice * q - held.stopLoss * q;
    NonNegativeProduct(held.entryCostPerUnit, q);
    assert SoldBasis(held, held.quantity) == held.averageEntryPrice * q + held.entryCostPerUnit * q;
  }

  /** A stop-loss exit empties the position at a strict loss, whatever the costs. */
  lemma StopLossLoses(a: Account, l: Ledger, symbol: string, market: Market, timestamp: int, low: real, high: real)
    requires symbol in l.positions && HoldingOk(l.positions[symbol])
    requires l.positions[symbol].market == market && low <= l.positions[symbol].stopLoss
    requires EvaluateExit(a, l, symbol, market, timestamp, low, high).Ok?
    ensures var l' := EvaluateExit(a, l, symbol, market, timestamp, low, high).value;
            && symbol !in l'.positions
            && |l'.journal| == |l.journal| + 1
            && var e := l'.journal[|l.journal|];
               e.status.CLOSED? && e.exitReason.STOP_LOSS? && e.realizedPnl < 0.0 && l'.realizedPnl < l.realizedPnl
  {
    var order := ExitOrder(l, symbol, market, timestamp, low, high).value;
    var price, gross, costs, realized := Sale(a, l, order.0, order.1);
    SellingBelowEntryLoses(l.positions[symbol], price, costs);
  }

  /** Closing in two parts at one price differs from closing at once by one flat fee. */
  lemma SplittingASaleCostsOneFlatFee(a: Account, l: Ledger, request: Request, first: int, reason: ExitReason)
    requires request.side.SELL? && Sells(l, request) && 0 < first < request.quantity
    requires Close(a, l, request, reason).Ok?
    ensures var whole := Close(a, l, request, reason).value;
            var one := Close(a, l, request.(quantity := first), reason);
            && one.Ok?
            && var two := Close(a, one.value, request.(quantity := request.quantity - first), reason);
               && two.Ok?
               && two.value.positions == whole.positions
               && two.value.cash == whole.cash - a.costs.brokerageFlat
               && two.value.totalCosts == whole.totalCosts + a.costs.brokerageFlat
               && two.value.realizedPnl == whole.realizedPnl - a.costs.brokerageFlat
  {
    hide Close, SoldBasis, Gross;
    var held := l.positions[request.symbol];
    var part1, part2 := request.(quantity := first), request.(quantity := request.quantity - first);
    SaleRaisesExactly(a, l, request, reason);
    SaleRaisesExactly(a, l, part1, reason);
    var price, gross, costs, realized := Sale(a, l, request, reason);
    var _, gross1, costs1, realized1 := Sale(a, l, part1, reason);
    var l1 := Sold(l, part1, reason, price, gross1, costs1, realized1);
    SaleRaisesExactly(a, l1, part2, reason);
    var _, gross2, costs2, realized2 := Sale(a, l1, part2, reason);
    FeesSplit(a.costs, price, request.quantity, first);
    BasisOfParts(held, request.quantity, first);
    SameBasis(l1.positions[request.symbol], held, request.quantity - first);
    SoldTwice(l, request, first, reason, price, gross1, costs1, realized1, gross2, costs2, realized2, gross, costs,
      realized);
  }

  lemma BasisOfParts(held: Holding, all: int, part: int)
    ensures SoldBasis(held, all) == SoldBasis(held, part) + SoldBasis(held, all - part)
  {
    BasisSplits(held.averageEntryPrice + held.entryCostPerUnit, all, part);
  }

  lemma SameBasis(held: Holding, other: Holding, quantity: int)
    requires held.averageEntryPrice == other.averageEntryPrice && held.entryCostPerUnit == other.entryCostPerUnit
    ensures SoldBasis(held, quantity) == SoldBasis(other, quantity)
  {
  }

  lemma SoldTwice(l: Ledger, request: Request, first: int, reason: ExitReason, price: real,
                  gross1: real, costs1: real, realized1: real, gross2: real, costs2: real, realized2: real,
                  gross: real, costs: real, realized: real)
    requires Sells(l, request) && 0 < first < request.quantity && gross == gross1 + gross2
    ensures var l1 := Sold(l, request.(quantity := first), reason, price, gross1, costs1, realized1);
            && request.symbol in l1.positions
            && var l2 := Sold(l1, request.(quantity := request.quantity - first), reason, price, gross2, costs2,
                 realized2);
               var l0 := Sold(l, request, reason, price, gross, costs, realized);
               && l2.positions == l0.positions
               && l2.cash == l0.cash - (costs1 + costs2 - costs)
               && l2.totalCosts == l0.totalCosts + (costs1 + costs2 - costs)
               && l2.realizedPnl == l0.realizedPnl + (realized1 + realized2 - realized)
  {
    var held := l.positions[request.symbol];
    var rest := held.(quantity := held.quantity - first);
    assert l.positions[request.symbol := rest] - {request.symbol} == l.positions - {request.symbol};
  }

  lemma FeesSplit(c: CostModel, price: real, quantity: int, first: int)
    requires price >= 0.0 && 0 <= first <= quantity
    ensures Gross(price, quantity) == Gross(price, first) + Gross(price, quantity - first)
    ensures c.TransactionCost(Gross(price, first)).Ok? && c.TransactionCost(Gross(price, quantity - first)).Ok?
            && c.TransactionCost(Gross(price, quantity)).Ok?
    ensures c.TransactionCost(Gross(price, first)).value + c.TransactionCost(Gross(price, quantity - first)).value
            == c.TransactionCost(Gross(price, quantity)).value + c.brokerageFlat
  {
    BasisSplits(price, quantity, first);
    NonNegativeProduct(price, first as real);
    NonNegativeProduct(price, (quantity - first) as real);
    FeesAdd(c, Gross(price, first), Gross(price, quantity - first));
  }

  lemma FeesAdd(c: CostModel, x: real, y: real)
    requires x >= 0.0 && y >= 0.0
    ensures c.TransactionCost(x).value + c.TransactionCost(y).value == c.TransactionCost(x + y).value + c.brokerageFlat
  {
    var rate := c.brokeragePct + c.taxesPct;
    assert (x + y) * rate == x * rate + y * rate;
  }
}
