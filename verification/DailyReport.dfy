/** The end-of-day review: folds over the day's exits, and what their figures have to do with each other. */
module DailyReport {
  import opened Common

  datatype RowKind = SIGNAL_ACCEPTED | SIGNAL_REJECTED | POSITION_EXITED | OTHER

  /** A journal row; absent figures count as zero, absent names as unknown. */
  datatype Row = Row(
    kind: RowKind,
    direction: string,
    strategy: Option<string>,
    regime: Option<string>,
    symbol: Option<string>,
    netPnl: Option<real>,
    grossPnl: Option<real>,
    charges: Option<real>,
    exitReason: Option<string>
  )

  datatype Field = STRATEGY | REGIME | SYMBOL

  function Named(name: Option<string>): string {
    if name.None? || name.value == "" then "UNKNOWN" else name.value
  }

  function GroupOf(row: Row, field: Field): string {
    match field
    case STRATEGY => Named(row.strategy)
    case REGIME => Named(row.regime)
    case SYMBOL => Named(row.symbol)
  }

  const NET: Row -> real := (row: Row) => row.netPnl.GetOr(0.0)
  const GROSS: Row -> real := (row: Row) => row.grossPnl.GetOr(0.0)
  const CHARGES: Row -> real := (row: Row) => row.charges.GetOr(0.0)
  const EXITED: Row -> bool := (row: Row) => row.kind == POSITION_EXITED
  const IDENTITY: real -> real := x => x
  const WINS: real -> bool := x => x > 0.0
  const LOSES: real -> bool := x => x < 0.0
  const FLAT: real -> bool := x => x == 0.0

  function Summed(pnls: seq<real>): real {
    Total(pnls, IDENTITY)
  }

  function NetPnls(exits: seq<Row>): (pnls: seq<real>)
    ensures |pnls| == |exits|
    ensures forall k :: 0 <= k < |exits| ==> pnls[k] == NET(exits[k])
  {
    seq(|exits|, k requires 0 <= k < |exits| => NET(exits[k]))
  }

  lemma {:induction false} SummedAppend(pnls: seq<real>, x: real)
    ensures Summed(pnls + [x]) == Summed(pnls) + x
  {
    assert (pnls + [x])[..|pnls|] == pnls;
  }

  // ---------- groups ----------

  ghost predicate InGroup(row: Row, field: Field, name: string) {
    GroupOf(row, field) == name
  }

  ghost predicate Seen(rows: seq<Row>, n: nat, field: Field, name: string)
    requires n <= |rows|
  {
    exists k :: 0 <= k < n && InGroup(rows[k], field, name)
  }

  /** What the rows of one group add up to. */
  ghost function GroupTotal(rows: seq<Row>, field: Field, name: string): real {
    if rows == [] then 0.0 else
    var last := rows[|rows| - 1];
    GroupTotal(rows[..|rows| - 1], field, name) + if InGroup(last, field, name) then NET(last) else 0.0
  }

  /** Every group that occurs is there with its total, no other is, and together they make the net P&L. */
  method GroupPnl(rows: seq<Row>, field: Field) returns (grouped: map<string, real>)
    ensures Sum(grouped) == Total(rows, NET)
    ensures forall name :: name in grouped <==> Seen(rows, |rows|, field, name)
    ensures forall name :: name in grouped ==> grouped[name] == GroupTotal(rows, field, name)
  {
    hide Sum, Total, GroupTotal, NET, GroupOf, Seen;
    grouped := map[];
    NoGroups(rows, field);
    for i := 0 to |rows|
      invariant Sum(grouped) == Total(rows[..i], NET)
      invariant forall name :: name in grouped <==> Seen(rows, i, field, name)
      invariant forall name :: GroupTotal(rows[..i], field, name) == GetOr(grouped, name, 0.0)
    {
      var name := GroupOf(rows[i], field);
      ghost var before := grouped;
      GroupGrows(grouped, name, NET(rows[i]));
      grouped := grouped[name := GetOr(grouped, name, 0.0) + NET(rows[i])];
      forall other
        ensures other in grouped <==> Seen(rows, i + 1, field, other)
        ensures GroupTotal(rows[..i + 1], field, other) == GetOr(grouped, other, 0.0)
      {
        OneMoreRow(rows, i, field, other);
        assert GroupTotal(rows[..i], field, other) == GetOr(before, other, 0.0);
      }
      assert Total(rows[..i + 1], NET) == Total(rows[..i], NET) + NET(rows[i]) by { OneMoreRow(rows, i, field, name); }
    }
    assert rows[..|rows|] == rows;
  }

  lemma NoGroups(rows: seq<Row>, field: Field)
    ensures forall name :: !Seen(rows, 0, field, name)
    ensures Sum<string>(map[]) == Total<Row>([], NET) == 0.0
    ensures forall name :: GroupTotal([], field, name) == 0.0
  {
  }

  lemma OneMoreRow(rows: seq<Row>, i: nat, field: Field, name: string)
    requires i < |rows|
    ensures Total(rows[..i + 1], NET) == Total(rows[..i], NET) + NET(rows[i])
    ensures GroupTotal(rows[..i + 1], field, name) ==
            GroupTotal(rows[..i], field, name) + if name == GroupOf(rows[i], field) then NET(rows[i]) else 0.0
    ensures Seen(rows, i + 1, field, name) <==> Seen(rows, i, field, name) || name == GroupOf(rows[i], field)
  {
    assert rows[..i + 1][..i] == rows[..i];
    assert InGroup(rows[i], field, GroupOf(rows[i], field));
  }

  lemma GroupGrows(grouped: map<string, real>, name: string, x: real)
    ensures Sum(grouped[name := GetOr(grouped, name, 0.0) + x]) == Sum(grouped) + x
  {
    SumUpdate(grouped, name, GetOr(grouped, name, 0.0) + x);
    if name in grouped {
      SumSplit(grouped, name);
    } else {
      assert grouped - {name} == grouped;
    }
  }

  method PnlByDirection(rows: seq<Row>, direction: string) returns (sum: real)
    ensures sum == Total(rows, (row: Row) => if row.direction == direction then NET(row) else 0.0)
  {
    var share := (row: Row) => if row.direction == direction then NET(row) else 0.0;
    sum := 0.0;
    for i := 0 to |rows|
      invariant sum == Total(rows[..i], share)
    {
      assert rows[..i + 1][..i] == rows[..i];
      if rows[i].direction == direction {
        sum := sum + NET(rows[i]);
      }
    }
    assert rows[..|rows|] == rows;
  }

  // ---------- drawdown ----------

  /** What the consecutive exits from the i-th up to the j-th lost together. */
  function BlockLoss(pnls: seq<real>, i: nat, j: nat): real
    requires i <= j <= |pnls|
  {
    -Summed(pnls[i..j])
  }

  lemma {:induction false} BlockIsDifference(pnls: seq<real>, i: nat, j: nat)
    requires i <= j <= |pnls|
    ensures Summed(pnls[..j]) == Summed(pnls[..i]) - BlockLoss(pnls, i, j)
    decreases j
  {
    if i == j {
      assert pnls[i..j] == [];
    } else {
      BlockIsDifference(pnls, i, j - 1);
      assert pnls[..j] == pnls[..j - 1] + [pnls[j - 1]];
      assert pnls[i..j] == pnls[i..j - 1] + [pnls[j - 1]];
      SummedAppend(pnls[..j - 1], pnls[j - 1]);
      SummedAppend(pnls[i..j - 1], pnls[j - 1]);
    }
  }

  /** The largest loss over any block of consecutive exits; the empty block loses nothing. */
  ghost predicate IsLargestBlockLoss(pnls: seq<real>, n: nat, loss: real)
    requires n <= |pnls|
  {
    && (forall i, j :: 0 <= i <= j <= n ==> BlockLoss(pnls, i, j) <= loss)
    && exists i, j :: 0 <= i <= j <= n && BlockLoss(pnls, i, j) == loss
  }

  ghost predicate IsHighest(pnls: seq<real>, n: nat, peak: real)
    requires n <= |pnls|
  {
    && (forall i :: 0 <= i <= n ==> Summed(pnls[..i]) <= peak)
    && exists i :: 0 <= i <= n && Summed(pnls[..i]) == peak
  }

  lemma OneMoreExit(pnls: seq<real>, n: nat, peak: real, loss: real)
    requires n < |pnls| && IsHighest(pnls, n, peak) && IsLargestBlockLoss(pnls, n, loss)
    ensures var equity := Summed(pnls[..n]) + pnls[n];
            && Summed(pnls[..n + 1]) == equity
            && IsHighest(pnls, n + 1, Max(peak, equity))
            && IsLargestBlockLoss(pnls, n + 1, Max(loss, Max(peak, equity) - equity))
  {
    hide Summed, BlockLoss;
    var equity := Summed(pnls[..n]) + pnls[n];
    assert pnls[..n + 1] == pnls[..n] + [pnls[n]];
    SummedAppend(pnls[..n], pnls[n]);
    var top := Max(peak, equity);
    var t :| 0 <= t <= n && Summed(pnls[..t]) == peak;
    var u := if peak < equity then n + 1 else t;
    assert Summed(pnls[..u]) == top;
    var m := n + 1;
    forall i | 0 <= i <= m ensures BlockLoss(pnls, i, m) <= top - equity {
      BlockIsDifference(pnls, i, m);
    }
    BlockIsDifference(pnls, u, n + 1);
    var i, j :| 0 <= i <= j <= n && BlockLoss(pnls, i, j) == loss;
    var largest := Max(loss, top - equity);
    var (a, b) := if loss < top - equity then (u, n + 1) else (i, j);
    assert 0 <= a <= b <= n + 1 && BlockLoss(pnls, a, b) == largest;
  }

  /** One pass, remembering the highest equity and the deepest fall below it. */
  method MaxDrawdown(pnls: seq<real>) returns (loss: real)
    ensures IsLargestBlockLoss(pnls, |pnls|, loss) && loss >= 0.0
  {
    hide Summed, BlockLoss, IsHighest, IsLargestBlockLoss;
    var peak, equity, maxDrawdown := 0.0, 0.0, 0.0;
    NothingYet(pnls);
    for n := 0 to |pnls|
      invariant maxDrawdown <= 0.0
      invariant equity == Summed(pnls[..n])
      invariant IsHighest(pnls, n, peak)
      invariant IsLargestBlockLoss(pnls, n, -maxDrawdown)
    {
      OneMoreExit(pnls, n, peak, -maxDrawdown);
      equity := equity + pnls[n];
      peak := Max(peak, equity);
      maxDrawdown := Min(maxDrawdown, equity - peak);
    }
    loss := Abs(maxDrawdown);
  }

  lemma NothingYet(pnls: seq<real>)
    ensures Summed(pnls[..0]) == 0.0 && IsHighest(pnls, 0, 0.0) && IsLargestBlockLoss(pnls, 0, 0.0)
  {
    assert Summed(pnls[..0]) == 0.0 && BlockLoss(pnls, 0, 0) == 0.0;
  }

  // ---------- expectancy ----------

  function Per(x: real, n: real): real
    requires n != 0.0
  {
    x / n
  }

  function Mean(xs: seq<real>): real {
    if xs == [] then 0.0 else Per(Summed(xs), |xs| as real)
  }

  function Won(pnls: seq<real>): seq<real> {
    Filter(pnls, WINS)
  }

  /** The losing exits, as positive amounts. */
  function Lost(pnls: seq<real>): (r: seq<real>)
    ensures |r| == |Filter(pnls, LOSES)|
  {
    var losing := Filter(pnls, LOSES);
    seq(|losing|, k requires 0 <= k < |losing| => Abs(losing[k]))
  }

  function WinRate(pnls: seq<real>): real {
    if pnls == [] then 0.0 else Per(|Won(pnls)| as real, |pnls| as real)
  }

  lemma WinRateIsShare(pnls: seq<real>)
    ensures WinRate(pnls) * |pnls| as real == |Won(pnls)| as real
    ensures pnls == [] ==> WinRate(pnls) == 0.0
  {
  }

  function LossRate(pnls: seq<real>): real {
    if pnls == [] then 0.0 else 1.0 - WinRate(pnls)
  }

  function Expected(winRate: real, averageWin: real, lossRate: real, averageLoss: real): real {
    winRate * averageWin - lossRate * averageLoss
  }

  function Expectancy(pnls: seq<real>): real {
    Expected(WinRate(pnls), Mean(Won(pnls)), LossRate(pnls), Mean(Lost(pnls)))
  }

  function ProfitFactor(pnls: seq<real>): real {
    var profit, loss := Summed(Won(pnls)), Summed(Lost(pnls));
    if loss > 0.0 then profit / loss else profit
  }

  /** Winners, losers and flat exits make up the day, in number and in amount. */
  lemma {:induction false} Partition(pnls: seq<real>)
    ensures |pnls| == |Won(pnls)| + |Lost(pnls)| + Count(pnls, FLAT)
    ensures Summed(pnls) == Summed(Won(pnls)) - Summed(Lost(pnls))
    ensures Summed(Lost(pnls)) >= 0.0 && (Summed(Lost(pnls)) == 0.0 <==> Lost(pnls) == [])
    ensures Summed(Won(pnls)) >= 0.0
  {
    if pnls != [] {
      var before, last := pnls[..|pnls| - 1], pnls[|pnls| - 1];
      Partition(before);
      assert Won(pnls) == Won(before) + if last > 0.0 then [last] else [];
      assert Lost(pnls) == Lost(before) + if last < 0.0 then [-last] else [];
      if last > 0.0 {
        SummedAppend(Won(before), last);
        assert Lost(before) + [] == Lost(before);
      } else if last < 0.0 {
        SummedAppend(Lost(before), -last);
        assert Won(before) + [] == Won(before);
      } else {
        assert Won(before) + [] == Won(before) && Lost(before) + [] == Lost(before);
      }
    }
  }

  lemma ShareOfMean(part: real, count: real, n: real)
    requires count > 0.0 && n > 0.0
    ensures count / n * (part / count) == part / n
  {
    assert part == part / count * count;
  }

  lemma Complement(part: real, rest: real, n: real)
    requires n > 0.0 && n == part + rest
    ensures 1.0 - part / n == rest / n
  {
    assert (part + rest) / n == part / n + rest / n;
  }

  /** What counting flat exits as losers takes off the mean. */
  function FlatPenalty(flats: real, n: real, loss: real, losers: real): (r: real)
    requires n > 0.0 && flats >= 0.0 && losers >= 0.0 && (losers > 0.0 ==> loss > 0.0)
    ensures r >= 0.0 && (r == 0.0 <==> flats == 0.0 || losers == 0.0)
  {
    if losers == 0.0 then 0.0 else
    ScaleKeepsSign(flats / n, loss / losers);
    flats / n * (loss / losers)
  }

  lemma WinnersTerm(w: real, n: real, profit: real, meanWon: real)
    requires n > 0.0 && MeanIs(w, profit, meanWon)
    ensures Per(w, n) * meanWon == Per(profit, n)
  {
    if w > 0.0 {
      ShareOfMean(profit, w, n);
    }
  }

  lemma LosersTerm(w: real, f: real, l: real, n: real, loss: real, meanLost: real)
    requires n > 0.0 && n == w + f + l && f >= 0.0 && l > 0.0 && loss > 0.0 && meanLost == Per(loss, l)
    ensures (1.0 - Per(w, n)) * meanLost == Per(loss, n) + FlatPenalty(f, n, loss, l)
  {
    Complement(w, f + l, n);
    ShareOfMean(loss, l, n);
    SharesAdd(f, l, n, meanLost);
  }

  lemma SharesAdd(f: real, l: real, n: real, x: real)
    requires n > 0.0
    ensures (f + l) / n * x == f / n * x + l / n * x
  {
    assert (f + l) / n == f / n + l / n;
  }

  lemma PerDifference(x: real, y: real, n: real)
    requires n > 0.0
    ensures Per(x - y, n) == Per(x, n) - Per(y, n)
  {
  }

  lemma ExpectancyArithmetic(w: real, f: real, l: real, n: real, profit: real, loss: real, meanWon: real,
                             meanLost: real)
    requires n > 0.0 && n == w + f + l && f >= 0.0
    requires MeanIs(w, profit, meanWon) && MeanIs(l, loss, meanLost) && (l > 0.0 ==> loss > 0.0)
    ensures Expected(Per(w, n), meanWon, 1.0 - Per(w, n), meanLost) ==
            Per(profit - loss, n) - FlatPenalty(f, n, loss, l)
  {
    hide Per, FlatPenalty;
    WinnersTerm(w, n, profit, meanWon);
    PerDifference(profit, loss, n);
    if l > 0.0 {
      LosersTerm(w, f, l, n, loss, meanLost);
    } else {
      NothingLost(n, 1.0 - Per(w, n));
    }
  }

  lemma NothingLost(n: real, rate: real)
    requires n > 0.0
    ensures Per(0.0, n) == 0.0 && rate * 0.0 == 0.0
  {
  }

  lemma NoneSummed()
    ensures Summed([]) == 0.0
  {
  }

  /** A mean is a sum per count; a mean of nothing is zero, and so is the sum. */
  ghost predicate MeanIs(count: real, sum: real, mean: real) {
    count >= 0.0 && if count == 0.0 then sum == 0.0 && mean == 0.0 else mean == Per(sum, count)
  }

  lemma MeanOf(xs: seq<real>)
    ensures MeanIs(|xs| as real, Summed(xs), Mean(xs))
  {
    NoneSummed();
    hide Summed;
  }

  lemma ExpectancyIsMeanLessPenalty(pnls: seq<real>)
    requires pnls != []
    ensures Summed(Lost(pnls)) > 0.0 || |Lost(pnls)| == 0
    ensures Expectancy(pnls) ==
            Mean(pnls) - FlatPenalty(Count(pnls, FLAT) as real, |pnls| as real, Summed(Lost(pnls)),
              |Lost(pnls)| as real)
  {
    hide Summed, Lost, Won, Count, Per, Expected, FlatPenalty, Mean;
    Partition(pnls);
    MeanOf(pnls);
    MeanOf(Won(pnls));
    MeanOf(Lost(pnls));
    var n, w, f, l := |pnls| as real, |Won(pnls)| as real, Count(pnls, FLAT) as real, |Lost(pnls)| as real;
    assert n == w + f + l;
    ExpectancyArithmetic(w, f, l, n, Summed(Won(pnls)), Summed(Lost(pnls)), Mean(Won(pnls)), Mean(Lost(pnls)));
  }

  /** Expectancy charges flat exits as if they were average losses, so it never flatters the mean. */
  lemma ExpectancyNeverExceedsMean(pnls: seq<real>)
    ensures Expectancy(pnls) <= Mean(pnls)
    ensures Expectancy(pnls) == Mean(pnls) <==> Count(pnls, FLAT) == 0 || Lost(pnls) == []
  {
    if pnls == [] {
      NothingExpected(Mean(Won(pnls)), Mean(Lost(pnls)));
    } else {
      hide Summed, Lost, Won, Count, Per, Expectancy, Mean, FlatPenalty;
      ExpectancyIsMeanLessPenalty(pnls);
    }
  }

  lemma NothingExpected(averageWin: real, averageLoss: real)
    ensures Expected(0.0, averageWin, 0.0, averageLoss) == 0.0
  {
  }

  /** With a losing exit, the profit factor tells a profitable day from a losing one. */
  lemma ProfitFactorSeparates(pnls: seq<real>)
    requires Lost(pnls) != []
    ensures ProfitFactor(pnls) > 1.0 <==> Summed(pnls) > 0.0
    ensures ProfitFactor(pnls) == 1.0 <==> Summed(pnls) == 0.0
  {
    hide Summed, Lost, Won;
    Partition(pnls);
    var profit, loss := Summed(Won(pnls)), Summed(Lost(pnls));
    var ratio := profit / loss;
    assert ratio * loss == profit;
    Compare(ratio, loss, profit);
    assert ProfitFactor(pnls) == ratio;
    assert Summed(pnls) == profit - loss;
  }

  lemma Compare(ratio: real, loss: real, profit: real)
    requires loss > 0.0 && ratio * loss == profit
    ensures ratio > 1.0 <==> profit > loss
    ensures ratio == 1.0 <==> profit == loss
  {
    assert (ratio - 1.0) * loss == profit - loss;
  }

  // ---------- the report ----------

  datatype Report = Report(
    signals: nat,
    accepted: nat,
    rejected: nat,
    trades: nat,
    winRate: real,
    averageWin: real,
    averageLoss: real,
    profitFactor: real,
    expectancy: real,
    grossPnl: real,
    netPnl: real,
    totalCharges: real,
    maxDrawdown: real,
    longPnl: real,
    shortPnl: real,
    byStrategy: map<string, real>,
    byRegime: map<string, real>,
    bySymbol: map<string, real>,
    biggestMistake: Option<string>,
    bestTrade: Option<Row>,
    worstTrade: Option<Row>
  )

  lemma {:induction false} NetIsSummed(exits: seq<Row>)
    ensures Summed(NetPnls(exits)) == Total(exits, NET)
  {
    if exits == [] {
    } else {
      NetIsSummed(exits[..|exits| - 1]);
      assert NetPnls(exits) == NetPnls(exits[..|exits| - 1]) + [NET(exits[|exits| - 1])];
      SummedAppend(NetPnls(exits[..|exits| - 1]), NET(exits[|exits| - 1]));
    }
  }

  lemma {:induction false} DirectionsSplit(exits: seq<Row>, long: Row -> real, short: Row -> real)
    requires forall row :: long(row) == (if row.direction == "LONG" then NET(row) else 0.0)
    requires forall row :: short(row) == (if row.direction == "SHORT" then NET(row) else 0.0)
    requires forall k :: 0 <= k < |exits| ==> exits[k].direction == "LONG" || exits[k].direction == "SHORT"
    ensures Total(exits, long) + Total(exits, short) == Total(exits, NET)
  {
    if exits != [] {
      DirectionsSplit(exits[..|exits| - 1], long, short);
    }
  }

  lemma {:induction false} KindsPartition(rows: seq<Row>)
    ensures Count(rows, (row: Row) => row.kind == SIGNAL_ACCEPTED || row.kind == SIGNAL_REJECTED) ==
            Count(rows, (row: Row) => row.kind == SIGNAL_ACCEPTED) +
              Count(rows, (row: Row) => row.kind == SIGNAL_REJECTED)
  {
    if rows != [] {
      KindsPartition(rows[..|rows| - 1]);
    }
  }

  /** The first of the exits with the highest net P&L, or of those with the lowest; none on an empty day. */
  ghost predicate IsFirstExtreme(exits: seq<Row>, highest: bool, trade: Option<Row>) {
    if exits == [] then trade == None
    else exists k :: 0 <= k < |exits| && trade == Some(exits[k]) && ExtremeAt(exits, highest, k)
  }

  ghost predicate ExtremeAt(exits: seq<Row>, highest: bool, k: nat)
    requires k < |exits|
  {
    && (forall j :: 0 <= j < |exits| ==>
         if highest then NET(exits[j]) <= NET(exits[k]) else NET(exits[j]) >= NET(exits[k]))
    && (forall j :: 0 <= j < k ==> NET(exits[j]) != NET(exits[k]))
  }

  method FindExtreme(exits: seq<Row>, highest: bool) returns (trade: Option<Row>)
    ensures IsFirstExtreme(exits, highest, trade)
  {
    if exits == [] {
      return None;
    }
    var k := 0;
    for n := 1 to |exits|
      invariant 0 <= k < n
      invariant forall j :: 0 <= j < n ==>
                if highest then NET(exits[j]) <= NET(exits[k]) else NET(exits[j]) >= NET(exits[k])
      invariant forall j :: 0 <= j < k ==> NET(exits[j]) != NET(exits[k])
    {
      if (if highest then NET(exits[n]) > NET(exits[k]) else NET(exits[n]) < NET(exits[k])) {
        k := n;
      }
    }
    assert ExtremeAt(exits, highest, k);
    trade := Some(exits[k]);
  }

  ghost predicate NetOfCharges(exits: seq<Row>) {
    forall k :: 0 <= k < |exits| ==> NET(exits[k]) == GROSS(exits[k]) - CHARGES(exits[k])
  }

  /** If every exit is net of its charges, so is the day. */
  lemma {:induction false} ChargesSplit(exits: seq<Row>)
    requires NetOfCharges(exits)
    ensures Total(exits, NET) == Total(exits, GROSS) - Total(exits, CHARGES)
  {
    if exits != [] {
      assert NET(exits[|exits| - 1]) == GROSS(exits[|exits| - 1]) - CHARGES(exits[|exits| - 1]);
      ChargesSplit(exits[..|exits| - 1]);
    }
  }

  /** What was earned before charges, and the charges. */
  method AddUpCharges(exits: seq<Row>) returns (gross: real, charges: real)
    ensures gross == Total(exits, GROSS) && charges == Total(exits, CHARGES)
    ensures gross == Total(exits, (row: Row) => row.grossPnl.GetOr(0.0))
    ensures charges == Total(exits, (row: Row) => row.charges.GetOr(0.0))
    ensures NetOfCharges(exits) ==> gross - charges == Total(exits, NET)
  {
    gross, charges := Total(exits, GROSS), Total(exits, CHARGES);
    if NetOfCharges(exits) {
      ChargesSplit(exits);
    }
  }

  ghost function StrategyTotal(exits: seq<Row>, name: string): real {
    if exits == [] then 0.0 else
    var last := exits[|exits| - 1];
    StrategyTotal(exits[..|exits| - 1], name) + if Named(last.strategy) == name then last.netPnl.GetOr(0.0) else 0.0
  }

  ghost function RegimeTotal(exits: seq<Row>, name: string): real {
    if exits == [] then 0.0 else
    var last := exits[|exits| - 1];
    RegimeTotal(exits[..|exits| - 1], name) + if Named(last.regime) == name then last.netPnl.GetOr(0.0) else 0.0
  }

  ghost function SymbolTotal(exits: seq<Row>, name: string): real {
    if exits == [] then 0.0 else
    var last := exits[|exits| - 1];
    SymbolTotal(exits[..|exits| - 1], name) + if Named(last.symbol) == name then last.netPnl.GetOr(0.0) else 0.0
  }

  lemma {:induction false} GroupTotals(exits: seq<Row>, name: string)
    ensures GroupTotal(exits, STRATEGY, name) == StrategyTotal(exits, name)
    ensures GroupTotal(exits, REGIME, name) == RegimeTotal(exits, name)
    ensures GroupTotal(exits, SYMBOL, name) == SymbolTotal(exits, name)
  {
    if exits != [] {
      GroupTotals(exits[..|exits| - 1], name);
    }
  }

  /** What each strategy, regime and symbol that exited made, and no other. */
  ghost predicate BreaksDown(r: Report, exits: seq<Row>) {
    && (forall name :: name in r.byStrategy <==> exists k :: 0 <= k < |exits| && Named(exits[k].strategy) == name)
    && (forall name :: name in r.byRegime <==> exists k :: 0 <= k < |exits| && Named(exits[k].regime) == name)
    && (forall name :: name in r.bySymbol <==> exists k :: 0 <= k < |exits| && Named(exits[k].symbol) == name)
    && (forall name :: name in r.byStrategy ==> r.byStrategy[name] == StrategyTotal(exits, name))
    && (forall name :: name in r.byRegime ==> r.byRegime[name] == RegimeTotal(exits, name))
    && (forall name :: name in r.bySymbol ==> r.bySymbol[name] == SymbolTotal(exits, name))
  }

  /** The maps are those of GroupPnl, one for each field. */
  ghost predicate GroupedBy(grouped: map<string, real>, exits: seq<Row>, field: Field) {
    && (forall name :: name in grouped <==> Seen(exits, |exits|, field, name))
    && (forall name :: name in grouped ==> grouped[name] == GroupTotal(exits, field, name))
  }

  lemma BreakdownsAreGroups(r: Report, exits: seq<Row>)
    requires GroupedBy(r.byStrategy, exits, STRATEGY) && GroupedBy(r.byRegime, exits, REGIME)
    requires GroupedBy(r.bySymbol, exits, SYMBOL)
    ensures BreaksDown(r, exits)
  {
    forall name
      ensures Seen(exits, |exits|, STRATEGY, name) <==>
                exists k :: 0 <= k < |exits| && Named(exits[k].strategy) == name
      ensures Seen(exits, |exits|, REGIME, name) <==> exists k :: 0 <= k < |exits| && Named(exits[k].regime) == name
      ensures Seen(exits, |exits|, SYMBOL, name) <==> exists k :: 0 <= k < |exits| && Named(exits[k].symbol) == name
      ensures GroupTotal(exits, STRATEGY, name) == StrategyTotal(exits, name)
      ensures GroupTotal(exits, REGIME, name) == RegimeTotal(exits, name)
      ensures GroupTotal(exits, SYMBOL, name) == SymbolTotal(exits, name)
    {
      GroupTotals(exits, name);
      SeenByName(exits, name);
    }
    hide GroupTotal, StrategyTotal, RegimeTotal, SymbolTotal, Seen, Named;
  }

  lemma SeenByName(exits: seq<Row>, name: string)
    ensures Seen(exits, |exits|, STRATEGY, name) <==> exists k :: 0 <= k < |exits| && Named(exits[k].strategy) == name
    ensures Seen(exits, |exits|, REGIME, name) <==> exists k :: 0 <= k < |exits| && Named(exits[k].regime) == name
    ensures Seen(exits, |exits|, SYMBOL, name) <==> exists k :: 0 <= k < |exits| && Named(exits[k].symbol) == name
  {
    hide Named;
    forall k | 0 <= k < |exits|
      ensures InGroup(exits[k], STRATEGY, name) <==> Named(exits[k].strategy) == name
      ensures InGroup(exits[k], REGIME, name) <==> Named(exits[k].regime) == name
      ensures InGroup(exits[k], SYMBOL, name) <==> Named(exits[k].symbol) == name
    {
    }
  }

  /** The figures agree with each other: every breakdown adds up to the net P&L. */
  method Generate(rows: seq<Row>) returns (r: Report)
    ensures var exits := Filter(rows, EXITED);
            var pnls := NetPnls(exits);
            && r.trades == |exits|
            && r.signals == r.accepted + r.rejected
            && r.accepted == Count(rows, (row: Row) => row.kind == SIGNAL_ACCEPTED)
            && r.rejected == Count(rows, (row: Row) => row.kind == SIGNAL_REJECTED)
            && r.winRate * r.trades as real == |Won(pnls)| as real && (r.trades == 0 ==> r.winRate == 0.0)
            && BreaksDown(r, exits)
            && r.longPnl == Total(exits, (row: Row) => if row.direction == "LONG" then NET(row) else 0.0)
            && r.shortPnl == Total(exits, (row: Row) => if row.direction == "SHORT" then NET(row) else 0.0)
            && r.netPnl == Summed(pnls) == Sum(r.byStrategy) == Sum(r.byRegime) == Sum(r.bySymbol)
            && (AllDirected(exits) ==> r.longPnl + r.shortPnl == r.netPnl)
            && r.winRate == WinRate(pnls) && r.averageWin == Mean(Won(pnls)) && r.averageLoss == Mean(Lost(pnls))
            && r.profitFactor == ProfitFactor(pnls)
            && r.expectancy == Expectancy(pnls) <= Mean(pnls)
            && r.grossPnl == Total(exits, (row: Row) => row.grossPnl.GetOr(0.0))
            && r.totalCharges == Total(exits, (row: Row) => row.charges.GetOr(0.0))
            && (NetOfCharges(exits) ==> r.netPnl == r.grossPnl - r.totalCharges)
            && IsFirstExtreme(exits, true, r.bestTrade) && IsFirstExtreme(exits, false, r.worstTrade)
            && r.biggestMistake == (if r.worstTrade.Some? then r.worstTrade.value.exitReason else None)
            && IsLargestBlockLoss(pnls, |pnls|, r.maxDrawdown)
  {
    hide Summed, IsLargestBlockLoss, Mean, Won, Lost, Filter, Sum, Count, Total, IDENTITY, IsFirstExtreme, NetOfCharges,
      BreaksDown, GroupTotal, Seen;
    var exits := Filter(rows, EXITED);
    var pnls := NetPnls(exits);
    var accepted, rejected, signals := CountSignals(rows);
    var byStrategy := GroupPnl(exits, STRATEGY);
    var byRegime := GroupPnl(exits, REGIME);
    var bySymbol := GroupPnl(exits, SYMBOL);
    var maxDrawdown := MaxDrawdown(pnls);
    var longPnl, shortPnl := SplitByDirection(exits);
    var grossPnl, totalCharges := AddUpCharges(exits);
    var best := FindExtreme(exits, true);
    var worst := FindExtreme(exits, false);
    var mistake := if worst.Some? then worst.value.exitReason else None;
    var won, lost := Won(pnls), Lost(pnls);
    var winRate, lossRate := WinRate(pnls), LossRate(pnls);
    var grossProfit, grossLoss := Summed(won), Summed(lost);
    var profitFactor := if grossLoss > 0.0 then grossProfit / grossLoss else grossProfit;
    var expectancy := Expected(winRate, Mean(won), lossRate, Mean(lost));
    NetIsSummed(exits);
    WinRateIsShare(pnls);
    ExpectancyNeverExceedsMean(pnls);
    assert profitFactor == ProfitFactor(pnls) && expectancy == Expectancy(pnls);
    hide ProfitFactor, Expectancy, WinRate, LossRate;
    r := Report(signals, accepted, rejected, |exits|, winRate, Mean(won), Mean(lost), profitFactor,
                expectancy, grossPnl, Summed(pnls), totalCharges, maxDrawdown, longPnl, shortPnl,
                byStrategy, byRegime, bySymbol, mistake, best, worst);
    BreakdownsAreGroups(r, exits);
  }

  method CountSignals(rows: seq<Row>) returns (accepted: nat, rejected: nat, signals: nat)
    ensures signals == accepted + rejected
    ensures accepted == Count(rows, (row: Row) => row.kind == SIGNAL_ACCEPTED)
    ensures rejected == Count(rows, (row: Row) => row.kind == SIGNAL_REJECTED)
  {
    accepted := Count(rows, (row: Row) => row.kind == SIGNAL_ACCEPTED);
    rejected := Count(rows, (row: Row) => row.kind == SIGNAL_REJECTED);
    signals := Count(rows, (row: Row) => row.kind == SIGNAL_ACCEPTED || row.kind == SIGNAL_REJECTED);
    KindsPartition(rows);
  }

  ghost predicate AllDirected(exits: seq<Row>) {
    forall k :: 0 <= k < |exits| ==> exits[k].direction == "LONG" || exits[k].direction == "SHORT"
  }

  method SplitByDirection(exits: seq<Row>) returns (long: real, short: real)
    ensures AllDirected(exits) ==> long + short == Total(exits, NET)
    ensures long == Total(exits, (row: Row) => if row.direction == "LONG" then NET(row) else 0.0)
    ensures short == Total(exits, (row: Row) => if row.direction == "SHORT" then NET(row) else 0.0)
  {
    long := PnlByDirection(exits, "LONG");
    short := PnlByDirection(exits, "SHORT");
    if AllDirected(exits) {
      DirectionsSplit(exits, (row: Row) => if row.direction == "LONG" then NET(row) else 0.0,
                      (row: Row) => if row.direction == "SHORT" then NET(row) else 0.0);
    }
  }
}
