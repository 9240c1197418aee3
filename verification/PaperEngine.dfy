/** The paper-trading engine: one mutable object per account, one per open position. */
module PaperEngine {
  import opened Common
  import opened PaperLedger
  import PaperLaws
  import PaperOrders

  class PaperPosition {
    const symbol: string
    const market: Market
    var quantity: int
    const averageEntryPrice: real
    const entryCostPerUnit: real
    const stopLoss: real
    const takeProfit: Option<real>
    const openedAt: int

    constructor (symbol: string, held: Holding)
      ensures this.symbol == symbol && Contents() == held
    {
      this.symbol := symbol;
      market, quantity := held.market, held.quantity;
      averageEntryPrice, entryCostPerUnit := held.averageEntryPrice, held.entryCostPerUnit;
      stopLoss, takeProfit, openedAt := held.stopLoss, held.takeProfit, held.openedAt;
    }

    function Contents(): Holding
      reads this
    {
      Holding(market, quantity, averageEntryPrice, entryCostPerUnit, stopLoss, takeProfit, openedAt)
    }
  }

  datatype ExecutionResult = ExecutionResult(accepted: bool, entry: Entry, position: Option<PaperPosition>)

  class PaperTradingEngine {
    const account: Account
    var cash: real
    var positions: map<string, PaperPosition>
    var journal: seq<Entry>
    var realizedPnl: real
    var totalCosts: real
    var dailyEntryCount: map<int, int>
    var dailyRealizedPnl: map<int, real>

    /** Positions are filed under their own symbol, so no two symbols share an object. */
    ghost predicate Valid()
      reads this`positions
    {
      forall s :: s in positions ==> positions[s].symbol == s
    }

    function Holdings(): map<string, Holding>
      reads this`positions, positions.Values
    {
      map s | s in positions :: positions[s].Contents()
    }

    ghost function Contents(): Ledger
      reads this, positions.Values
    {
      Ledger(cash, realizedPnl, totalCosts, Holdings(), journal, dailyEntryCount, dailyRealizedPnl)
    }

    constructor (account: Account)
      requires account.startingCash > 0.0
      ensures this.account == account && positions == map[]
      ensures Valid() && Contents() == Opening(account.startingCash)
    {
      this.account := account;
      cash, realizedPnl, totalCosts := account.startingCash, 0.0, 0.0;
      positions, journal, dailyEntryCount, dailyRealizedPnl := map[], [], map[], map[];
    }

    /** What every request promises: the account it leaves, and the entry and position it reports. */
    twostate predicate Performed(expected: Result<Ledger>, new r: Result<ExecutionResult>)
      reads this, positions.Values
    {
      && Valid()
      && fresh(positions.Values - old(positions.Values))
      && r.Ok? == expected.Ok?
      && (r.Raised? ==> r.error == expected.error && Contents() == old(Contents()) && positions == old(positions))
      && (r.Ok? ==> Contents() == expected.value && Reports(r.value))
    }

    ghost predicate Reports(r: ExecutionResult)
      reads this`journal, this`positions
    {
      && journal != [] && r.entry == journal[|journal| - 1]
      && r.accepted == !r.entry.status.BLOCKED?
      && r.position == if r.accepted && r.entry.symbol in positions then Some(positions[r.entry.symbol]) else None
    }

    method SubmitOrder(request: Request, exitReason: ExitReason) returns (r: Result<ExecutionResult>)
      requires Valid()
      modifies this, positions.Values
      ensures Performed(old(Submit(account, Contents(), request, exitReason)), r)
      ensures request.side.BUY? && old(PaperLaws.JournalAgrees(account, Contents())) ==>
                PaperOrders.BuyDecided(account, old(Contents()), request, Contents())
      ensures request.side.SELL? && r.Ok? ==>
                PaperOrders.SaleDecided(account, old(Contents()), request, exitReason, Contents())
    {
      hide PaperOrders.BuyDecided, PaperOrders.SaleDecided, PaperLaws.JournalAgrees, Open, Close;
      if request.side.SELL? && Submit(account, Contents(), request, exitReason).Ok? {
        PaperOrders.SaleIsDecided(account, Contents(), request, exitReason);
      }
      if request.side == BUY {
        r := OpenPosition(request);
      } else {
        r := ClosePosition(request, exitReason);
      }
    }

    method OpenPosition(request: Request) returns (r: Result<ExecutionResult>)
      requires Valid()
      modifies this
      ensures Performed(old(Open(account, Contents(), request)), r)
      ensures request.side.BUY? && old(PaperLaws.JournalAgrees(account, Contents())) ==>
                PaperOrders.BuyDecided(account, old(Contents()), request, Contents())
    {
      hide PaperOrders.BuyDecided, PaperLaws.JournalAgrees;
      if request.side.BUY? && PaperLaws.JournalAgrees(account, Contents()) {
        PaperOrders.BuyIsDecided(account, Contents(), request, NO_EXIT);
      }
      var block := FindBlockReason(request);
      if block.Some? {
        var blocked := Blocked(request, block.value);
        return Ok(blocked);
      }
      ghost var price', gross', costs' := PaperLaws.Purchase(account, Contents(), request);
      var price := account.costs.ExecutionPrice(BUY, request.referencePrice).value;
      var gross := Gross(price, request.quantity);
      var costs := account.costs.TransactionCost(gross).value;
      if cash - (gross + costs) < account.limits.minCashBuffer {
        var blocked := Blocked(request, INSUFFICIENT_CASH);
        return Ok(blocked);
      }
      var result := Buy(request, price, gross, costs, costs / request.quantity as real);
      r := Ok(result);
    }

    /** Pays, books the position and writes the journal entry. */
    method Buy(request: Request, price: real, gross: real, costs: real, costPerUnit: real) returns (r: ExecutionResult)
      requires Valid() && request.stopLoss.Some?
      modifies this
      ensures Valid() && fresh(positions.Values - old(positions.Values))
      ensures Contents() == old(Bought(Contents(), request, price, gross, costs, costPerUnit))
      ensures Reports(r)
    {
      hide GetOr, Day;
      Pay(Day(request.submittedAt), gross + costs, costs);
      var position := File(request.symbol,
        Holding(request.market, request.quantity, price, costPerUnit,
                request.stopLoss.value, request.takeProfit, request.submittedAt));
      var entry := Entry(request.submittedAt, request.symbol, request.market, BUY, request.quantity,
                         request.referencePrice, price, gross, costs, -(gross + costs), OPENED, 0.0, NO_EXIT, None);
      journal := journal + [entry];
      r := ExecutionResult(true, entry, Some(position));
    }

    method Pay(day: int, price: real, costs: real)
      modifies `cash, `totalCosts, `dailyEntryCount
      ensures cash == old(cash) - price && totalCosts == old(totalCosts) + costs
      ensures dailyEntryCount == old(dailyEntryCount)[day := GetOr(old(dailyEntryCount), day, 0) + 1]
    {
      cash := cash - price;
      totalCosts := totalCosts + costs;
      dailyEntryCount := dailyEntryCount[day := GetOr(dailyEntryCount, day, 0) + 1];
    }

    /** Files a new position object under its symbol. */
    method File(symbol: string, held: Holding) returns (position: PaperPosition)
      requires Valid()
      modifies `positions
      ensures Valid() && fresh(position) && positions == old(positions)[symbol := position]
      ensures Holdings() == old(Holdings())[symbol := held]
    {
      position := new PaperPosition(symbol, held);
      positions := positions[symbol := position];
    }

    method ClosePosition(request: Request, exitReason: ExitReason) returns (r: Result<ExecutionResult>)
      requires Valid()
      modifies this, positions.Values
      ensures Performed(old(Close(account, Contents(), request, exitReason)), r)
    {
      if request.symbol !in positions {
        var blocked := Blocked(request, INVALID_REQUEST);
        return Ok(blocked);
      }
      var position := positions[request.symbol];
      if position.market != request.market {
        var blocked := Blocked(request, INVALID_REQUEST);
        return Ok(blocked);
      }
      if request.quantity <= 0 {
        var blocked := Blocked(request, INVALID_REQUEST);
        return Ok(blocked);
      }
      if request.quantity > position.quantity {
        var blocked := Blocked(request, SHORT_SELLING_DISABLED);
        return Ok(blocked);
      }
      var price :- account.costs.ExecutionPrice(SELL, request.referencePrice);
      var gross := Gross(price, request.quantity);
      var costs :- account.costs.TransactionCost(gross);
      var entryBasis := SoldBasis(position.Contents(), request.quantity);
      var result := Sell(request, exitReason, price, gross, costs, gross - costs - entryBasis);
      r := Ok(result);
    }

    /** Banks the proceeds, reduces or drops the position and writes the journal entry. */
    method Sell(request: Request, exitReason: ExitReason, price: real, gross: real, costs: real, realized: real)
      returns (r: ExecutionResult)
      requires Valid() && request.symbol in positions
      modifies this, positions.Values
      ensures Valid() && fresh(positions.Values - old(positions.Values))
      ensures Contents() == old(Sold(Contents(), request, exitReason, price, gross, costs, realized))
      ensures Reports(r)
    {
      hide GetOr, Day, Reduced;
      Bank(Day(request.submittedAt), gross - costs, costs, realized);
      var updated := Reduce(request.symbol, request.quantity);
      ghost var left := Holdings();
      var entry := Entry(request.submittedAt, request.symbol, request.market, SELL, request.quantity,
                         request.referencePrice, price, gross, costs, gross - costs, CLOSED, realized,
                         exitReason, None);
      journal := journal + [entry];
      assert Holdings() == left;
      r := ExecutionResult(true, entry, updated);
    }

    method Bank(day: int, proceeds: real, costs: real, realized: real)
      modifies `cash, `realizedPnl, `totalCosts, `dailyRealizedPnl
      ensures cash == old(cash) + proceeds && totalCosts == old(totalCosts) + costs
      ensures realizedPnl == old(realizedPnl) + realized
      ensures dailyRealizedPnl == old(dailyRealizedPnl)[day := GetOr(old(dailyRealizedPnl), day, 0.0) + realized]
    {
      cash := cash + proceeds;
      realizedPnl := realizedPnl + realized;
      totalCosts := totalCosts + costs;
      dailyRealizedPnl := dailyRealizedPnl[day := GetOr(dailyRealizedPnl, day, 0.0) + realized];
    }

    /** Takes units off a position, and drops the position when none are left. */
    method Reduce(symbol: string, quantity: int) returns (updated: Option<PaperPosition>)
      requires Valid() && symbol in positions
      modifies this`positions, positions.Values
      ensures Valid() && positions.Values <= old(positions.Values)
      ensures updated == if symbol in positions then Some(positions[symbol]) else None
      ensures Holdings() == old(Reduced(Holdings(), symbol, quantity))
    {
      var position := positions[symbol];
      var remaining := position.quantity - quantity;
      if remaining <= 0 {
        positions := positions - {symbol};
        updated := None;
      } else {
        position.quantity := remaining;
        updated := Some(position);
      }
    }

    method FindBlockReason(request: Request) returns (block: Option<BlockReason>)
      requires Valid()
      ensures block == EntryBlockReason(account, Contents(), request)
    {
      if request.quantity <= 0 || request.referencePrice <= 0.0 {
        return Some(INVALID_REQUEST);
      }
      if request.stopLoss.None? {
        return Some(INVALID_REQUEST);
      }
      if request.stopLoss.value >= request.referencePrice {
        return Some(INVALID_REQUEST);
      }
      if request.symbol in positions {
        return Some(POSITION_ALREADY_OPEN);
      }
      var tradingDay := Day(request.submittedAt);
      if GetOr(dailyEntryCount, tradingDay, 0) >= account.limits.maxTradesPerDay {
        return Some(MAX_TRADES_PER_DAY);
      }
      if GetOr(dailyRealizedPnl, tradingDay, 0.0) <= -account.limits.maxDailyLoss {
        return Some(DAILY_LOSS_LIMIT);
      }
      return None;
    }

    method Blocked(request: Request, reason: BlockReason) returns (r: ExecutionResult)
      requires Valid()
      modifies this`journal
      ensures Valid() && Contents() == old(Block(Contents(), request, reason))
      ensures r == ExecutionResult(false, BlockedEntry(request, reason), None) && Reports(r)
    {
      var entry := BlockedEntry(request, reason);
      journal := journal + [entry];
      r := ExecutionResult(false, entry, None);
    }

    /** Sells the whole position at its stop when the bar touched it, else at its target when the bar touched that. */
    method EvaluateExit(symbol: string, market: Market, timestamp: int, low: real, high: real)
      returns (r: Result<Option<ExecutionResult>>)
      requires Valid()
      modifies this, positions.Values
      ensures Valid() && fresh(positions.Values - old(positions.Values))
      ensures var expected := old(PaperLedger.EvaluateExit(account, Contents(), symbol, market, timestamp, low, high));
              if expected.Ok? then r.Ok? && Contents() == expected.value
              else r == Raised(expected.error) && Contents() == old(Contents())
      ensures r.Ok? ==> r.value.Some? == old(ExitOrder(Contents(), symbol, market, timestamp, low, high).Some?)
      ensures r.Ok? && old(symbol in positions ==> positions[symbol].quantity > 0) ==>
                PaperOrders.Protected(old(Contents()), symbol, market, timestamp, low, high, Contents())
    {
      hide PaperOrders.Protected;
      if (symbol in positions ==> positions[symbol].quantity > 0) &&
         PaperLedger.EvaluateExit(account, Contents(), symbol, market, timestamp, low, high).Ok? {
        PaperOrders.ExitIsProtective(account, Contents(), symbol, market, timestamp, low, high);
      }
      if symbol !in positions || positions[symbol].market != market {
        return Ok(None);
      }
      var position := positions[symbol];
      if low <= position.stopLoss {
        var sold :- SubmitOrder(Request(position.symbol, position.market, SELL, position.quantity,
                                        position.stopLoss, timestamp, None, None), STOP_LOSS);
        return Ok(Some(sold));
      }
      if position.takeProfit.Some? && high >= position.takeProfit.value {
        var sold :- SubmitOrder(Request(position.symbol, position.market, SELL, position.quantity,
                                        position.takeProfit.value, timestamp, None, None), PROFIT_TARGET);
        return Ok(Some(sold));
      }
      return Ok(None);
    }

    method CloseOpenPosition(symbol: string, market: Market, referencePrice: real, timestamp: int,
                             exitReason: ExitReason)
      returns (r: Result<ExecutionResult>)
      requires Valid()
      modifies this, positions.Values
      ensures Performed(old(PaperLedger.CloseOpenPosition(account, Contents(), symbol, market, referencePrice,
              timestamp, exitReason)), r)
    {
      var quantity := if symbol in positions then positions[symbol].quantity else 0;
      r := SubmitOrder(Request(symbol, market, SELL, quantity, referencePrice, timestamp, None, None), exitReason);
    }

    method TakeSnapshot(timestamp: int, marks: map<string, real>) returns (r: Result<Snapshot>)
      requires Valid()
      ensures r.Ok? <==> Priceable(account.costs, Contents().positions, marks)
      ensures r.Ok? ==> r.value == Marked(account, Contents(), timestamp, marks)
    {
      hide ProceedsOf, Priceable, SaleValues, Bases, Sum;
      var totals :- AddUp(account.costs, Holdings(), marks);
      var (liquidationValue, entryBasis) := totals;
      r := Ok(Snapshot(timestamp, cash, cash + liquidationValue, realizedPnl, liquidationValue - entryBasis,
        totalCosts));
    }
  }

  /** Adds up, position by position, what selling everything would bring and what it had cost. */
  method AddUp(c: CostModel, positions: map<string, Holding>, marks: map<string, real>)
    returns (r: Result<(real, real)>)
    ensures r.Ok? <==> Priceable(c, positions, marks)
    ensures r.Ok? ==> r.value == (Sum(SaleValues(c, positions, marks)), Sum(Bases(positions)))
  {
    ghost var values, bases := SaleValues(c, positions, marks), Bases(positions);
    var liquidationValue, entryBasis := 0.0, 0.0;
    var left := positions.Keys;
    NothingYet(values, left);
    NothingYet(bases, left);
    while left != {}
      invariant left <= positions.Keys
      invariant forall s :: s in positions && s !in left ==> ProceedsOf(c, positions, marks, s).Ok?
      invariant liquidationValue == Sum(values - left)
      invariant entryBasis == Sum(bases - left)
    {
      var s :| s in left;
      var proceeds :- ProceedsOf(c, positions, marks, s);
      AddOne(values, left, s);
      AddOne(bases, left, s);
      liquidationValue := liquidationValue + proceeds;
      entryBasis := entryBasis + positions[s].EntryBasis();
      left := left - {s};
    }
    assert values - {} == values && bases - {} == bases;
    r := Ok((liquidationValue, entryBasis));
  }

  lemma NothingYet(m: map<string, real>, left: set<string>)
    requires m.Keys <= left
    ensures Sum(m - left) == 0.0
  {
  }

  lemma AddOne(m: map<string, real>, left: set<string>, s: string)
    requires s in m && s in left
    ensures Sum(m - (left - {s})) == Sum(m - left) + m[s]
  {
    var bigger := m - (left - {s});
    SumSplit(bigger, s);
    assert bigger - {s} == m - left;
  }
}
