/** Exactly which paper accounts can be overdrawn, whatever is done with them. */
module PaperSolvency {
  import opened Common
  import opened PaperLedger
  import opened PaperLaws

  function Rate(c: Costs): real {
    c.brokeragePct + c.taxesPct
  }

  /** Slippage of more than 100%: no sale goes through. */
  predicate NothingSells(c: Costs) {
    c.slippageBps > 10000.0
  }

  /** The flat fee is within the cover, and a sale brings in at least its proportional costs. */
  predicate FeesWithin(c: CostModel, cover: real) {
    c.brokerageFlat <= cover && (Rate(c) <= 1.0 || c.slippageBps == 10000.0)
  }

  /** No sale costs more than it brings in. */
  predicate SalesPay(c: CostModel) {
    FeesWithin(c, 0.0)
  }

  /** What is left above the buffer does not cover the flat fee of a purchase. */
  predicate NothingBuys(a: Account) {
    a.startingCash <= a.limits.minCashBuffer + a.costs.brokerageFlat
  }

  // ---------- accounts that stay solvent ----------

  lemma FeesAtMostGross(c: CostModel, reference: real, quantity: int)
    requires Rate(c) <= 1.0 || c.slippageBps == 10000.0
    requires quantity > 0 && c.ExecutionPrice(SELL, reference).Ok?
    requires c.TransactionCost(Gross(c.ExecutionPrice(SELL, reference).value, quantity)).Ok?
    ensures var gross := Gross(c.ExecutionPrice(SELL, reference).value, quantity);
            c.TransactionCost(gross).value <= gross + c.brokerageFlat
  {
    var gross := Gross(c.ExecutionPrice(SELL, reference).value, quantity);
    if Rate(c) <= 1.0 {
      ProductMonotone(Rate(c), 1.0, gross);
    } else {
      assert c.ExecutionPrice(SELL, reference).value == 0.0;
      assert gross == 0.0;
    }
  }

  /** A purchase needs more than the flat fee above the buffer. */
  lemma PurchaseNeedsFunds(a: Account, l: Ledger, request: Request)
    requires EntryBlockReason(a, l, request).None? && l.cash <= a.limits.minCashBuffer + a.costs.brokerageFlat
    ensures Open(a, l, request) == Ok(Block(l, request, INSUFFICIENT_CASH))
  {
    var price, gross, costs := Purchase(a, l, request);
    PositiveProduct(price, request.quantity as real);
    var fees := Fees(a.costs, gross);
  }

  ghost predicate Untraded(a: Account, l: Ledger) {
    l.positions == map[] && l.cash == a.startingCash
  }

  lemma SubmitKeepsUntraded(a: Account, l: Ledger, request: Request, reason: ExitReason)
    requires NothingBuys(a) && Untraded(a, l)
    ensures Submit(a, l, request, reason).Ok? ==> Untraded(a, Submit(a, l, request, reason).value)
  {
    if request.side.BUY? && EntryBlockReason(a, l, request).None? {
      PurchaseNeedsFunds(a, l, request);
    }
  }

  lemma SubmitKeepsSolvent(a: Account, l: Ledger, request: Request, reason: ExitReason)
    requires SalesPay(a.costs) || NothingSells(a.costs)
    requires Inv(a, l) && l.cash >= 0.0
    ensures Submit(a, l, request, reason).Ok? ==> Submit(a, l, request, reason).value.cash >= 0.0
  {
    if request.side.BUY? && EntryBlockReason(a, l, request).None? {
      var price, gross, costs := Purchase(a, l, request);
    }
    if request.side.SELL? && Sells(l, request) && Close(a, l, request, reason).Ok? {
      SaleRaisesExactly(a, l, request, reason);
      var price, gross, costs, realized := Sale(a, l, request, reason);
      FeesAtMostGross(a.costs, request.referencePrice, request.quantity);
    }
  }

  lemma ApplyKeepsSolvent(a: Account, l: Ledger, call: Call)
    requires SalesPay(a.costs) || NothingSells(a.costs)
    requires Inv(a, l) && l.cash >= 0.0
    ensures Apply(a, l, call).cash >= 0.0
  {
    match call
    case Order(request, reason) => SubmitKeepsSolvent(a, l, request, reason);
    case ExitCheck(s, m, ts, low, high) =>
      var order := ExitOrder(l, s, m, ts, low, high);
      if order.Some? {
        SubmitKeepsSolvent(a, l, order.value.0, order.value.1);
      }
    case CloseOut(s, m, price, ts, reason) => SubmitKeepsSolvent(a, l, CloseOutRequest(l, s, m, price, ts), reason);
  }

  lemma ApplyKeepsUntraded(a: Account, l: Ledger, call: Call)
    requires NothingBuys(a) && Untraded(a, l)
    ensures Untraded(a, Apply(a, l, call))
  {
    match call
    case Order(request, reason) => SubmitKeepsUntraded(a, l, request, reason);
    case ExitCheck(s, m, ts, low, high) =>
    case CloseOut(s, m, price, ts, reason) =>
      SubmitKeepsUntraded(a, l, CloseOutRequest(l, s, m, price, ts), reason);
  }

  predicate CannotOverdraw(a: Account) {
    NothingBuys(a) || NothingSells(a.costs) || SalesPay(a.costs)
  }

  /** In such an account no history makes cash negative. */
  lemma {:induction false} CashNeverNegative(a: Account, calls: seq<Call>)
    requires a.startingCash >= 0.0 && CannotOverdraw(a)
    ensures After(a, calls).cash >= 0.0
    ensures NothingBuys(a) ==> Untraded(a, After(a, calls))
  {
    if calls != [] {
      var n := |calls| - 1;
      CashNeverNegative(a, calls[..n]);
      AfterInv(a, calls[..n]);
      var l := After(a, calls[..n]);
      if NothingBuys(a) {
        ApplyKeepsUntraded(a, l, calls[n]);
      } else {
        ApplyKeepsSolvent(a, l, calls[n]);
      }
    }
  }

  // ---------- accounts that can be drained ----------

  function Buy(reference: real, quantity: int): Request {
    Request("X", INDIA, OrderSide.BUY, quantity, reference, 1, Some(0.0), None)
  }

  function SellOne(reference: real): Request {
    Request("X", INDIA, OrderSide.SELL, 1, reference, 1, None, None)
  }

  /** Buys once, then sells unit by unit at one price. */
  function Drain(a: Account, buyAt: real, units: int, sellAt: real, sales: nat): seq<Call> {
    if sales == 0 then [Order(Buy(buyAt, units), NO_EXIT)]
    else Drain(a, buyAt, units, sellAt, sales - 1) + [Order(SellOne(sellAt), NO_EXIT)]
  }

  ghost predicate Holds(l: Ledger, units: int) {
    "X" in l.positions && l.positions["X"].market == INDIA && l.positions["X"].quantity == units
  }

  /** At this reference price a one-unit sale goes through and takes at least this much cash away. */
  ghost predicate TakesAway(c: CostModel, reference: real, loss: real) {
    reference > 0.0 && c.slippageBps <= 10000.0 &&
    var price := c.ExecutionPrice(SELL, reference).value;
    price - (price * Rate(c) + c.brokerageFlat) <= -loss
  }

  lemma OneSale(a: Account, l: Ledger, reference: real, loss: real, units: int)
    requires TakesAway(a.costs, reference, loss) && units >= 1 && Holds(l, units)
    ensures var after := Apply(a, l, Order(SellOne(reference), NO_EXIT));
            after.cash <= l.cash - loss && (units > 1 ==> Holds(after, units - 1))
  {
    var request := SellOne(reference);
    SaleRaisesExactly(a, l, request, NO_EXIT);
    var price, gross, costs, realized := Sale(a, l, request, NO_EXIT);
    assert gross == price;
  }

  function Drained(sales: nat, loss: real): real {
    sales as real * loss
  }

  lemma OneMoreDrained(sales: nat, loss: real)
    ensures Drained(0, loss) == 0.0 && Drained(sales + 1, loss) == Drained(sales, loss) + loss
  {
  }

  lemma {:induction false} SalesDrain(a: Account, buyAt: real, units: int, sellAt: real, loss: real, sales: nat)
    requires TakesAway(a.costs, sellAt, loss) && sales <= units && 1 <= units
    requires var bought := After(a, Drain(a, buyAt, units, sellAt, 0));
             bought.cash <= a.limits.minCashBuffer && Holds(bought, units)
    ensures var l := After(a, Drain(a, buyAt, units, sellAt, sales));
            l.cash <= a.limits.minCashBuffer - Drained(sales, loss) && (sales < units ==> Holds(l, units - sales))
  {
    hide Drained, Apply, TakesAway;
    if sales == 0 {
      OneMoreDrained(0, loss);
    } else {
      SalesDrain(a, buyAt, units, sellAt, loss, sales - 1);
      var before := Drain(a, buyAt, units, sellAt, sales - 1);
      var calls := Drain(a, buyAt, units, sellAt, sales);
      assert calls[..|calls| - 1] == before;
      OneSale(a, After(a, before), sellAt, loss, units - sales + 1);
      OneMoreDrained(sales - 1, loss);
    }
  }

  /** The reference price at which that many units take the account down to its buffer. */
  function SpendingAll(a: Account, units: int): real
    requires units >= 1
  {
    var spend := a.startingCash - a.limits.minCashBuffer - a.costs.brokerageFlat;
    spend / (1.0 + Rate(a.costs)) / units as real / (1.0 + a.costs.slippageBps / 10000.0)
  }

  lemma SpendingArithmetic(spend: real, rate: real, units: real, slip: real)
    requires spend > 0.0 && rate >= 0.0 && units >= 1.0 && slip >= 0.0
    ensures var reference := spend / (1.0 + rate) / units / (1.0 + slip);
            var gross := reference * (1.0 + slip) * units;
            reference > 0.0 && gross * rate + gross == spend
  {
    var gross := spend / (1.0 + rate);
    var price := gross / units;
    var reference := price / (1.0 + slip);
    assert gross * (1.0 + rate) == spend;
    assert price * units == gross;
    assert reference * (1.0 + slip) == price;
    ScaleKeepsSign(gross, 1.0 + rate);
    ScaleKeepsSign(price, units);
    ScaleKeepsSign(reference, 1.0 + slip);
    assert gross * (1.0 + rate) == gross + gross * rate;
  }

  lemma SpendsAll(a: Account, units: int)
    requires units >= 1 && !NothingBuys(a)
    ensures var l := After(a, [Order(Buy(SpendingAll(a, units), units), NO_EXIT)]);
            l.cash == a.limits.minCashBuffer && Holds(l, units)
  {
    var request := Buy(SpendingAll(a, units), units);
    var spend := a.startingCash - a.limits.minCashBuffer - a.costs.brokerageFlat;
    SpendingArithmetic(spend, Rate(a.costs), units as real, a.costs.slippageBps / 10000.0);
    var calls := [Order(request, NO_EXIT)];
    assert calls[..0] == [];
    var opening := Opening(a.startingCash);
    assert After(a, calls) == Apply(a, opening, calls[0]);
    var price, gross, costs := Purchase(a, opening, request);
    assert costs == gross * Rate(a.costs) + a.costs.brokerageFlat;
  }

  /** Half of what the flat fee exceeds the cover by takes that much more away; or else a high enough price does. */
  lemma SomePriceTakesAway(c: CostModel, cover: real) returns (reference: real, loss: real)
    requires cover >= 0.0 && !NothingSells(c) && !FeesWithin(c, cover)
    ensures loss > cover && TakesAway(c, reference, loss)
  {
    var fee := c.brokerageFlat;
    if fee > cover {
      reference, loss := (fee - cover) / 2.0, (fee + cover) / 2.0;
      var price := SellPrice(c, reference);
      NonNegativeProduct(price, Rate(c));
    } else {
      var kept, excess := 1.0 - c.slippageBps / 10000.0, Rate(c) - 1.0;
      PositiveProduct(kept, excess);
      loss := cover + 1.0;
      reference := loss / (kept * excess);
      ScaleKeepsSign(reference, kept * excess);
      assert reference * (kept * excess) == loss;
      var price := reference * kept;
      assert price * excess == loss;
      assert price * Rate(c) == price + price * excess;
    }
  }

  lemma EnoughSales(buffer: real, loss: real) returns (sales: nat)
    requires buffer >= 0.0 && loss > 0.0
    ensures sales >= 1 && Drained(sales, loss) > buffer
  {
    var ratio := buffer / loss;
    RatioIsShare(buffer, loss);
    sales := ratio.Floor + 1;
    var count := sales as real;
    assert ratio < count;
    ScaleKeepsOrder(ratio, count, loss);
  }

  lemma RatioIsShare(x: real, y: real)
    requires x >= 0.0 && y > 0.0
    ensures x / y * y == x && x / y >= 0.0
  {
    ScaleKeepsSign(x / y, y);
  }

  lemma OverdrawnByDraining(a: Account)
    requires !CannotOverdraw(a)
    ensures exists calls :: After(a, calls).cash < 0.0
  {
    hide After, TakesAway, Holds, Drained, SpendingAll;
    var sellAt, loss := SomePriceTakesAway(a.costs, 0.0);
    var units := EnoughSales(a.limits.minCashBuffer, loss);
    SpendsAll(a, units);
    SalesDrain(a, SpendingAll(a, units), units, sellAt, loss, units);
    assert After(a, Drain(a, SpendingAll(a, units), units, sellAt, units)).cash < 0.0;
  }

  /**
   No history takes cash below zero exactly when nothing can be bought, nothing can be sold, or no sale
   can cost more than it brings in.
   */
  lemma CashNeverNegativeExactly(a: Account)
    requires a.startingCash > 0.0
    ensures (forall calls :: After(a, calls).cash >= 0.0) <==>
              || a.startingCash <= a.limits.minCashBuffer + a.costs.brokerageFlat
              || a.costs.slippageBps > 10000.0
              || (a.costs.brokerageFlat == 0.0 &&
                  (a.costs.brokeragePct + a.costs.taxesPct <= 1.0 || a.costs.slippageBps == 10000.0))
  {
    if CannotOverdraw(a) {
      forall calls ensures After(a, calls).cash >= 0.0 {
        CashNeverNegative(a, calls);
      }
    } else {
      OverdrawnByDraining(a);
    }
  }

  /** For instance: selling one unit for 1 at a flat fee of 10 takes cash from 0 to -9. */
  lemma FlatFeeCanOverdraw()
    ensures var a := Account(101.0, Costs(0.0, 10.0, 0.0, 0.0), Limits(1, 1.0, 0.0));
            var buy := Order(Request("X", INDIA, BUY, 1, 91.0, 0, Some(1.0), None), NO_EXIT);
            var sell := Order(Request("X", INDIA, SELL, 1, 1.0, 0, None, None), NO_EXIT);
            After(a, [buy]).cash == 0.0 && After(a, [buy, sell]).cash == -9.0
  {
    var a := Account(101.0, Costs(0.0, 10.0, 0.0, 0.0), Limits(1, 1.0, 0.0));
    var buy := Order(Request("X", INDIA, BUY, 1, 91.0, 0, Some(1.0), None), NO_EXIT);
    var sell := Order(Request("X", INDIA, SELL, 1, 1.0, 0, None, None), NO_EXIT);
    assert [buy][..0] == [] && [buy, sell][..1] == [buy];
    assert a.costs.ExecutionPrice(BUY, 91.0) == Ok(91.0) && a.costs.TransactionCost(91.0) == Ok(10.0);
    assert Gross(91.0, 1) == 91.0;
    assert After(a, []) == Opening(101.0);
    var l := After(a, [buy]);
    assert l == Apply(a, Opening(101.0), buy);
    assert a.costs.ExecutionPrice(SELL, 1.0) == Ok(1.0) && a.costs.TransactionCost(1.0) == Ok(10.0);
    assert Gross(1.0, 1) == 1.0;
    assert After(a, [buy, sell]) == Apply(a, l, sell);
  }
}
