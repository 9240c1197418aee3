/** The backtester: drives a paper engine over the candles and reports on what it did. */
module BacktestEngine {
  import opened Common
  import opened PaperLedger
  import PaperEngine
  import opened Backtest
  import BacktestLaws
  import BacktestOrders
  import Drawdown

  // ---------- the candle check ----------

  function CandleFault(c: Candle): Option<string> {
    if !c.PositivePrices() then Some("candle_prices_must_be_positive")
    else if !c.Consistent() then Some("candle_high_low_inconsistent")
    else None
  }

  function Insert(c: Candle, sorted: seq<Candle>): seq<Candle> {
    if sorted == [] then [c] else
    var n := |sorted| - 1;
    if c.timestamp < sorted[n].timestamp then Insert(c, sorted[..n]) + [sorted[n]] else sorted + [c]
  }

  /** A stable sort by timestamp. */
  function SortedByTime(candles: seq<Candle>): seq<Candle> {
    if candles == [] then [] else Insert(candles[|candles| - 1], SortedByTime(candles[..|candles| - 1]))
  }

  predicate NonDecreasing(candles: seq<Candle>) {
    forall i, j :: 0 <= i < j < |candles| ==> candles[i].timestamp <= candles[j].timestamp
  }

  lemma {:induction false} InsertSorted(c: Candle, sorted: seq<Candle>)
    requires NonDecreasing(sorted)
    ensures NonDecreasing(Insert(c, sorted)) && |Insert(c, sorted)| == |sorted| + 1
    ensures forall x :: x in Insert(c, sorted) ==> x == c || x in sorted
  {
    if sorted != [] {
      var n := |sorted| - 1;
      if c.timestamp < sorted[n].timestamp {
        InsertSorted(c, sorted[..n]);
        var front := Insert(c, sorted[..n]);
        assert forall x :: x in front ==> x.timestamp <= sorted[n].timestamp;
      }
    }
  }

  lemma {:induction false} SortingFixesNothingExactly(candles: seq<Candle>)
    ensures NonDecreasing(SortedByTime(candles)) && |SortedByTime(candles)| == |candles|
    ensures SortedByTime(candles) == candles <==> NonDecreasing(candles)
  {
    if candles != [] {
      var n := |candles| - 1;
      SortingFixesNothingExactly(candles[..n]);
      InsertSorted(candles[n], SortedByTime(candles[..n]));
      if NonDecreasing(candles) {
        assert NonDecreasing(candles[..n]);
        assert candles[..n] + [candles[n]] == candles;
        if n > 0 {
          assert candles[..n][n - 1].timestamp <= candles[n].timestamp;
        }
      }
    }
  }

  function Timestamps(candles: seq<Candle>): set<int> {
    set c | c in candles :: c.timestamp
  }

  predicate DistinctTimes(candles: seq<Candle>) {
    forall i, j :: 0 <= i < j < |candles| ==> candles[i].timestamp != candles[j].timestamp
  }

  /** One more candle adds its timestamp, which is new exactly when no earlier candle carries it. */
  lemma OneMoreTimestamp(before: seq<Candle>, candle: Candle)
    ensures Timestamps(before + [candle]) == Timestamps(before) + {candle.timestamp}
    ensures DistinctTimes(before + [candle]) <==> DistinctTimes(before) && candle.timestamp !in Timestamps(before)
  {
    var all := before + [candle];
    assert forall i :: 0 <= i < |before| ==> all[i] == before[i];
    if candle.timestamp in Timestamps(before) {
      var c :| c in before && c.timestamp == candle.timestamp;
      var i :| 0 <= i < |before| && before[i] == c;
      assert all[i].timestamp == all[|before|].timestamp;
    } else {
      forall i | 0 <= i < |before| ensures all[i].timestamp != candle.timestamp {
        assert before[i] in before;
      }
    }
  }

  lemma {:induction false} AsManyTimesAsCandlesExactly(candles: seq<Candle>)
    ensures |Timestamps(candles)| <= |candles|
    ensures |Timestamps(candles)| == |candles| <==> DistinctTimes(candles)
  {
    if candles != [] {
      hide Timestamps, DistinctTimes;
      var before, last := candles[..|candles| - 1], candles[|candles| - 1];
      AsManyTimesAsCandlesExactly(before);
      OneMoreTimestamp(before, last);
      assert candles == before + [last];
    }
  }

  ghost predicate AllSound(candles: seq<Candle>) {
    forall i :: 0 <= i < |candles| ==> CandleFault(candles[i]).None?
  }

  ghost predicate FirstFault(candles: seq<Candle>, error: string) {
    exists i :: 0 <= i < |candles| && CandleFault(candles[i]) == Some(error) && AllSound(candles[..i])
  }

  lemma AscendingExactly(candles: seq<Candle>)
    ensures Ascending(candles) <==> NonDecreasing(candles) && DistinctTimes(candles)
    ensures ValidCandles(candles) <==> AllSound(candles) && Ascending(candles)
  {
    if AllSound(candles) {
      forall i | 0 <= i < |candles|
        ensures candles[i].PositivePrices() && candles[i].Consistent()
      {
        assert CandleFault(candles[i]).None?;
      }
    }
  }

  class HistoricalBacktestEngine {
    const config: Config

    constructor (config: Config)
      ensures this.config == config
    {
      this.config := config;
    }

    function SettingFor(symbol: string, market: Market, strategy: Strategy): Setting {
      Setting(Account(config.startingCash, config.costs, config.limits), symbol, market, strategy)
    }

    /** The fault of the first bad candle. */
    method FindFault(candles: seq<Candle>) returns (fault: Option<string>)
      ensures fault.None? <==> AllSound(candles)
      ensures fault.Some? ==> FirstFault(candles, fault.value)
    {
      for i := 0 to |candles|
        invariant forall k :: 0 <= k < i ==> CandleFault(candles[k]).None?
      {
        if !candles[i].PositivePrices() {
          return Some("candle_prices_must_be_positive");
        }
        if !candles[i].Consistent() {
          return Some("candle_high_low_inconsistent");
        }
      }
      return None;
    }

    /** Accepts exactly the valid series; the first bad candle is reported before any ordering fault. */
    method ValidatedCandles(candles: seq<Candle>) returns (r: Result<seq<Candle>>)
      ensures r.Ok? <==> ValidCandles(candles)
      ensures r.Ok? ==> r.value == candles
      ensures r.Raised? && !AllSound(candles) ==> FirstFault(candles, r.error)
      ensures r.Raised? && AllSound(candles) ==>
                r.error == if NonDecreasing(candles) then "duplicate_candle_timestamps_not_allowed"
                           else "candles_must_be_sorted_ascending"
    {
      var fault := FindFault(candles);
      if fault.Some? {
        return Raised(fault.value);
      }
      SortingFixesNothingExactly(candles);
      AsManyTimesAsCandlesExactly(candles);
      AscendingExactly(candles);
      if candles != SortedByTime(candles) {
        return Raised("candles_must_be_sorted_ascending");
      }
      if |candles| != |Timestamps(candles)| {
        return Raised("duplicate_candle_timestamps_not_allowed");
      }
      return Ok(candles);
    }

    ghost function Report(p: Progress): BacktestResult
      requires config.startingCash > 0.0
    {
      BacktestResult(p.ledger.journal, p.curve,
        MetricsOf(p.ledger.journal, p.curve, config.startingCash, -Drawdown.Lowest(Equities(p.curve))))
    }

    method ReportOn(journal: seq<Entry>, curve: seq<EquityPoint>, ghost p: Progress) returns (r: BacktestResult)
      requires config.startingCash > 0.0 && journal == p.ledger.journal && curve == p.curve
      ensures r == Report(p)
    {
      var drawdown := Drawdown.MaxDrawdownPct(Equities(curve));
      r := BacktestResult(journal, curve, MetricsOf(journal, curve, config.startingCash, drawdown));
    }

    method TakePoint(engine: PaperEngine.PaperTradingEngine, ghost s: Setting, symbol: string, candle: Candle)
      returns (r: Result<EquityPoint>)
      requires engine.Valid() && s.account == engine.account && s.symbol == symbol
      ensures r.Ok? == Point(s, engine.Contents(), candle).Some?
      ensures r.Ok? ==> Some(r.value) == Point(s, engine.Contents(), candle)
    {
      var snapshot :- engine.TakeSnapshot(candle.timestamp, map[symbol := candle.close]);
      r := Ok(EquityPoint(candle.timestamp, snapshot.equity, snapshot.cash, snapshot.realizedPnl,
        snapshot.unrealizedPnl));
    }

    /** The entry phase of a bar. */
    method OfferEntry(engine: PaperEngine.PaperTradingEngine, symbol: string, market: Market, strategy: Strategy,
                      history: seq<Candle>, candle: Candle)
      requires engine.Valid() && engine.account == SettingFor(symbol, market, strategy).account
      modifies engine, engine.positions.Values
      ensures engine.Valid() && fresh(engine.positions.Values - old(engine.positions.Values))
      ensures Ok(engine.Contents()) ==
              EntryPhase(SettingFor(symbol, market, strategy), old(engine.Contents()), history, candle.open,
                candle.timestamp)
    {
      ghost var s := SettingFor(symbol, market, strategy);
      BacktestLaws.EntryEffect(s, engine.Contents(), history, candle.open, candle.timestamp);
      if |history| > 0 && symbol !in engine.positions {
        var signal := strategy(history);
        if signal.Some? {
          SubmitSignal(engine, signal.value, symbol, market, candle);
        }
      }
    }

    method SubmitSignal(engine: PaperEngine.PaperTradingEngine, signal: Signal, expectedSymbol: string,
                        expectedMarket: Market, candle: Candle)
      requires engine.Valid()
      modifies engine, engine.positions.Values
      ensures engine.Valid() && fresh(engine.positions.Values - old(engine.positions.Values))
      ensures if signal.symbol != expectedSymbol || signal.market != expectedMarket then
                engine.Contents() == old(engine.Contents())
              else
                var expected := old(Submit(engine.account, engine.Contents(),
                  Request(expectedSymbol, expectedMarket, BUY, signal.quantity, candle.open, candle.timestamp,
                          Some(signal.stopLoss), signal.takeProfit), NO_EXIT));
                engine.Contents() == if expected.Ok? then expected.value else old(engine.Contents())
    {
      if signal.symbol != expectedSymbol || signal.market != expectedMarket {
        return;
      }
      var _ := engine.SubmitOrder(
        Request(expectedSymbol, expectedMarket, BUY, signal.quantity, candle.open, candle.timestamp,
                Some(signal.stopLoss), signal.takeProfit), NO_EXIT);
    }

    /** What the run is expected to report; None when it raises. */
    ghost function Expected(symbol: string, market: Market, candles: seq<Candle>,
                            strategy: Strategy): Option<BacktestResult>
      requires config.startingCash > 0.0
    {
      var p := Finished(SettingFor(symbol, market, strategy), candles, config.closeOpenPositionsOnEnd);
      if p.None? then None else Some(Report(p.value))
    }

    /** Valid candles give the finished run's journal, curve and metrics, unless the run raises; invalid ones raise. */
    method RunSingleSymbol(symbol: string, market: Market, candles: seq<Candle>, strategy: Strategy)
      returns (r: Result<BacktestResult>)
      ensures ValidCandles(candles) && config.startingCash > 0.0 ==>
                if r.Ok? then Expected(symbol, market, candles, strategy) == Some(r.value)
                else Expected(symbol, market, candles, strategy).None?
      ensures !ValidCandles(candles) || config.startingCash <= 0.0 ==> r.Raised?
      ensures r.Ok? ==>
                var p := Finished(SettingFor(symbol, market, strategy), candles, config.closeOpenPositionsOnEnd);
                && p.Some? && r.value.journal == p.value.ledger.journal && r.value.curve == p.value.curve
                && BacktestOrders.MetricsTell(r.value.metrics, r.value.journal, r.value.curve, config.startingCash)
                && r.value.metrics.maxDrawdownPct == -Drawdown.Lowest(Equities(r.value.curve))
    {
      hide BacktestOrders.MetricsTell, Finished;
      var ordered :- ValidatedCandles(candles);
      if config.startingCash <= 0.0 {
        return Raised("starting_cash_must_be_positive");
      }
      r := Replay(symbol, market, ordered, strategy);
      if r.Ok? {
        BacktestOrders.MetricsCountEntries(r.value.journal, r.value.curve, config.startingCash,
          -Drawdown.Lowest(Equities(r.value.curve)));
      }
    }

    method Replay(symbol: string, market: Market, candles: seq<Candle>, strategy: Strategy)
      returns (r: Result<BacktestResult>)
      requires config.startingCash > 0.0
      ensures if r.Ok? then Expected(symbol, market, candles, strategy) == Some(r.value)
              else Expected(symbol, market, candles, strategy).None?
    {
      var engine := new PaperEngine.PaperTradingEngine(Account(config.startingCash, config.costs, config.limits));
      var bars :- RunBars(engine, symbol, market, candles, strategy);
      var curve :- CloseAtEnd(engine, symbol, market, candles, strategy, bars);
      var report := ReportOn(engine.journal, curve, Progress(engine.Contents(), curve));
      r := Ok(report);
    }

    method RunBars(engine: PaperEngine.PaperTradingEngine, symbol: string, market: Market, candles: seq<Candle>,
                   strategy: Strategy) returns (r: Result<seq<EquityPoint>>)
      requires engine.Valid() && engine.account == SettingFor(symbol, market, strategy).account
      requires engine.Contents() == Opening(config.startingCash)
      modifies engine, engine.positions.Values
      ensures engine.Valid() && fresh(engine.positions.Values - old(engine.positions.Values))
      ensures var expected := Bars(SettingFor(symbol, market, strategy), candles, |candles|);
              && (r.Ok? <==> expected.Some?)
              && (r.Ok? ==> expected == Some(Progress(engine.Contents(), r.value)))
    {
      hide Bar;
      ghost var s := SettingFor(symbol, market, strategy);
      var curve: seq<EquityPoint> := [];
      for index := 0 to |candles|
        invariant engine.Valid() && fresh(engine.positions.Values - old(engine.positions.Values))
        invariant Bars(s, candles, index) == Some(Progress(engine.Contents(), curve))
      {
        if Bars(s, candles, index + 1).None? {
          NoneStaysNone(s, candles, index + 1);
        }
        var point :- RunBar(engine, symbol, market, strategy, candles[..index], candles[index], curve);
        curve := curve + [point];
      }
      r := Ok(curve);
    }

    /** Sells what is still open at the last close, when the configuration asks for it. */
    method CloseAtEnd(engine: PaperEngine.PaperTradingEngine, symbol: string, market: Market, candles: seq<Candle>,
                      strategy: Strategy, curve: seq<EquityPoint>) returns (r: Result<seq<EquityPoint>>)
      requires engine.Valid() && engine.account == SettingFor(symbol, market, strategy).account
      requires Bars(SettingFor(symbol, market, strategy), candles, |candles|) ==
               Some(Progress(engine.Contents(), curve))
      modifies engine, engine.positions.Values
      ensures engine.Valid()
      ensures var expected := Finished(SettingFor(symbol, market, strategy), candles, config.closeOpenPositionsOnEnd);
              && (r.Ok? <==> expected.Some?)
              && (r.Ok? ==> expected == Some(Progress(engine.Contents(), r.value)))
    {
      hide Bars, Point;
      if config.closeOpenPositionsOnEnd && |candles| > 0 && symbol in engine.positions {
        var final := candles[|candles| - 1];
        var _ :- engine.CloseOpenPosition(symbol, market, final.close, final.timestamp, END_OF_BACKTEST);
        var point :- TakePoint(engine, SettingFor(symbol, market, strategy), symbol, final);
        return Ok(curve + [point]);
      }
      return Ok(curve);
    }

    method RunBar(engine: PaperEngine.PaperTradingEngine, symbol: string, market: Market, strategy: Strategy,
                  history: seq<Candle>, candle: Candle, ghost curve: seq<EquityPoint>) returns (r: Result<EquityPoint>)
      requires engine.Valid() && engine.account == SettingFor(symbol, market, strategy).account
      modifies engine, engine.positions.Values
      ensures engine.Valid() && fresh(engine.positions.Values - old(engine.positions.Values))
      ensures var expected := old(Bar(SettingFor(symbol, market, strategy), Progress(engine.Contents(), curve), history,
              candle));
              && (r.Ok? <==> expected.Some?)
              && (r.Ok? ==> expected == Some(Progress(engine.Contents(), curve + [r.value])))
    {
      hide EntryPhase, Point, PaperLedger.EvaluateExit;
      ghost var s := SettingFor(symbol, market, strategy);
      OfferEntry(engine, symbol, market, strategy, history, candle);
      var _ :- engine.EvaluateExit(symbol, market, candle.timestamp, candle.low, candle.high);
      r := TakePoint(engine, s, symbol, candle);
    }
  }

  /** Once a run has raised, it stays raised. */
  lemma {:induction false} NoneStaysNone(s: Setting, candles: seq<Candle>, k: nat)
    requires k <= |candles| && Bars(s, candles, k).None?
    ensures Bars(s, candles, |candles|).None?
    decreases |candles| - k
  {
    if k < |candles| {
      NoneStaysNone(s, candles, k + 1);
    }
  }
}
