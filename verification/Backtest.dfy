/** The multi-strategy backtest: isolated buckets, driven bar by bar in one synchronised loop. */
module Backtest {
  import opened Decimals
  import opened Market
  import opened TransactionCosts
  import opened Drawdown

  /** Timestamps are compared only for order, so they are numbers here. */
  datatype Bar = Bar(timestamp: int, open: real, high: real, low: real, close: real, change: real)

  datatype Signal = Signal(side: Side, quantity: Option<real>, stopLoss: Option<real>, target: Option<real>)

  /** A strategy is a deterministic machine: its signal depends on the bars it has been shown, the last one included. */
  type Strategy = (string, seq<Bar>) -> Option<Signal>

  datatype Reason = StopLoss | TakeProfit

  datatype Trade = Trade(entryTime: int, entryPrice: real, exitTime: int, exitPrice: real, quantity: real,
                         entryCharges: real, exitCharges: real, netPnl: real, reason: Reason)

  datatype Config = Config(stopFirst: bool, applyCosts: bool, applySlippage: bool, autoSize: bool,
                           maxPositionQuantity: Option<real>, product: Product)

  datatype Bucket = Bucket(id: string, symbol: string, initialCapital: real, cash: real, quantity: real,
                           averagePrice: real, costBasis: real, stop: Option<real>, target: Option<real>,
                           entryTime: int, entryCharges: real, realizedPnl: real, trades: seq<Trade>, peak: Peak,
                           signalsGenerated: nat, tradesExecuted: nat, blockedCapital: nat, blockedRisk: nat,
                           history: seq<Bar>)

  function NewBucket(id: string, symbol: string, capital: real): Bucket {
    Bucket(id, symbol, capital, capital, 0.0, 0.0, 0.0, None, None, 0, 0.0, 0.0, [], Peak(capital, 0.0), 0, 0, 0, 0, [])
  }

  // ---- Exit -------------------------------------------------------------------------------------------------

  function FillPrice(cfg: Config, price: real, side: Side, bar: Bar): real {
    if cfg.applySlippage then EffectivePrice(price, side, Some(Abs(bar.change))) else price
  }

  function FillCharges(cfg: Config, value: real, side: Side): real {
    if cfg.applyCosts then Charges(value, side, cfg.product) else 0.0
  }

  /** A level touched inside the bar; when both are, the configured rule decides. */
  function Touched(cfg: Config, b: Bucket, bar: Bar): Option<(Reason, real)> {
    var stopHit := b.stop.Some? && bar.low <= b.stop.value;
    var targetHit := b.target.Some? && bar.high >= b.target.value;
    if stopHit && (cfg.stopFirst || !targetHit) then Some((StopLoss, b.stop.value))
    else if targetHit then Some((TakeProfit, b.target.value))
    else None
  }

  function Closing(cfg: Config, b: Bucket, bar: Bar, reason: Reason, level: real): Trade {
    var price := FillPrice(cfg, level, Sell, bar);
    var charges := FillCharges(cfg, Notional(b.quantity, price), Sell);
    Trade(b.entryTime, b.averagePrice, bar.timestamp, price, b.quantity, b.entryCharges, charges,
          Notional(b.quantity, price - b.averagePrice) - (b.entryCharges + charges), reason)
  }

  function Exited(cfg: Config, b: Bucket, bar: Bar): Bucket {
    if b.quantity > 0.0 && Touched(cfg, b, bar).Some? then
      var (reason, level) := Touched(cfg, b, bar).value;
      var t := Closing(cfg, b, bar, reason, level);
      b.(cash := HalfEven4(b.cash + (Notional(b.quantity, t.exitPrice) - t.exitCharges)),
         realizedPnl := HalfEven4(b.realizedPnl + t.netPnl),
         quantity := 0.0, averagePrice := 0.0, costBasis := 0.0, stop := None, target := None,
         trades := b.trades + [t])
    else b
  }

  // ---- Entry ------------------------------------------------------------------------------------------------

  function RequestedQuantity(s: Signal): real {
    if s.quantity.Some? && s.quantity.value != 0.0 then s.quantity.value else 10.0
  }

  function AffordableQuantity(cash: real, price: real): real {
    var perShare := price * 1.002;
    if perShare > 0.0 then Truncated(cash / perShare) as real else 0.0
  }

  function OrderQuantity(cfg: Config, b: Bucket, price: real, s: Signal): real {
    var affordable := AffordableQuantity(b.cash, price);
    if cfg.autoSize && affordable > 0.0 then Min(RequestedQuantity(s), affordable) else RequestedQuantity(s)
  }

  function StopFor(price: real, s: Signal): real {
    if s.stopLoss.Some? && s.stopLoss.value < price then HalfEven2(s.stopLoss.value) else HalfEven2(price * 0.98)
  }

  function TargetFor(price: real, s: Signal): real {
    if s.target.Some? && s.target.value > price then HalfEven2(s.target.value) else HalfEven2(price * 1.04)
  }

  /** What a purchase signal does to a flat bucket, and whether the bar is then abandoned for this bucket.
      `combined` is what all buckets hold of the symbol. */
  function Entered(cfg: Config, combined: real, b: Bucket, bar: Bar, s: Signal): (Bucket, bool) {
    var c := b.(signalsGenerated := b.signalsGenerated + 1);
    var price := FillPrice(cfg, bar.close, Buy, bar);
    var quantity := OrderQuantity(cfg, b, price, s);
    var cost := Notional(quantity, price);
    var charges := FillCharges(cfg, cost, Buy);
    if quantity <= 0.0 || b.cash < cost + charges then (c.(blockedCapital := b.blockedCapital + 1), true)
    else if cfg.maxPositionQuantity.Some? && combined + quantity > cfg.maxPositionQuantity.value then
      (c.(blockedRisk := b.blockedRisk + 1), false)
    else
      (c.(cash := HalfEven4(b.cash - (cost + charges)),
           quantity := HalfEven4(quantity), averagePrice := HalfEven4(price),
          costBasis := cost + charges, entryCharges := charges, entryTime := bar.timestamp,
          tradesExecuted := b.tradesExecuted + 1,
          stop := Some(StopFor(price, s)), target := Some(TargetFor(price, s))), false)
  }

  // ---- One bar of one bucket --------------------------------------------------------------------------------

  function HeldOf(buckets: seq<Bucket>, symbol: string): real {
    if buckets == [] then 0.0
    else
      var last := buckets[|buckets| - 1];
      HeldOf(buckets[..|buckets| - 1], symbol) + (if last.symbol == symbol then last.quantity else 0.0)
  }

  function Equity(b: Bucket, bar: Bar): real { b.cash + Notional(b.quantity, bar.close) }

  /** The bucket after its exit check, its strategy having seen the bar. */
  function Shown(cfg: Config, b: Bucket, bar: Bar): Bucket {
    Exited(cfg, b, bar).(history := b.history + [bar])
  }

  /** The bucket at the end of the bar, and its equity unless the bar was abandoned. */
  function BarDone(cfg: Config, strategy: Strategy, combined: real, b: Bucket, bar: Bar): (Bucket, Option<real>) {
    var signal := strategy(b.id, b.history);
    var (c, abandoned) :=
      if signal.Some? && b.quantity == 0.0 && signal.value.side.Buy? then Entered(cfg, combined, b, bar, signal.value)
      else (b, false);
    if abandoned then (c, None)
    else (c.(peak := Observe(c.peak, Equity(c, bar))), Some(Equity(c, bar)))
  }

  type Candles = map<(string, int), Bar>

  /** The buckets and the portfolio value collected so far within one timestamp. */
  datatype Sweep = Sweep(buckets: seq<Bucket>, nav: real)

  function BucketStep(cfg: Config, strategy: Strategy, candles: Candles, time: int, s: Sweep, i: nat): (t: Sweep)
    requires i < |s.buckets|
    ensures |t.buckets| == |s.buckets|
  {
    var b := s.buckets[i];
    if (b.symbol, time) !in candles then s
    else
      var bar := candles[(b.symbol, time)];
      var shown := Shown(cfg, b, bar);
      var buckets := s.buckets[i := shown];
      var (c, equity) := BarDone(cfg, strategy, HeldOf(buckets, b.symbol), shown, bar);
      Sweep(buckets[i := c], s.nav + (if equity.Some? then equity.value else 0.0))
  }

  function SweepFirst(cfg: Config, strategy: Strategy, candles: Candles, time: int,
                      buckets: seq<Bucket>, n: nat): (t: Sweep)
    requires n <= |buckets|
    ensures |t.buckets| == |buckets|
  {
    if n == 0 then Sweep(buckets, 0.0)
    else BucketStep(cfg, strategy, candles, time, SweepFirst(cfg, strategy, candles, time, buckets, n - 1), n - 1)
  }

  datatype Progress = Progress(buckets: seq<Bucket>, curve: seq<real>)

  function AfterTimestamp(cfg: Config, strategy: Strategy, candles: Candles, p: Progress, time: int): Progress {
    var s := SweepFirst(cfg, strategy, candles, time, p.buckets, |p.buckets|);
    Progress(s.buckets, p.curve + [HalfEven2(s.nav)])
  }

  function RunOver(cfg: Config, strategy: Strategy, candles: Candles, buckets: seq<Bucket>, times: seq<int>): Progress {
    if times == [] then Progress(buckets, [])
    else
      var last := |times| - 1;
      AfterTimestamp(cfg, strategy, candles, RunOver(cfg, strategy, candles, buckets, times[..last]), times[last])
  }

  // ---- Feed -------------------------------------------------------------------------------------------------

  /** The candles of all symbols in the order they are indexed. */
  datatype Quote = Quote(symbol: string, bar: Bar)

  /** A later candle of the same symbol and timestamp replaces an earlier one. */
  function CandleMap(feed: seq<Quote>): Candles {
    if feed == [] then map[]
    else
      var last := feed[|feed| - 1];
      CandleMap(feed[..|feed| - 1])[(last.symbol, last.bar.timestamp) := last.bar]
  }

  function Inserted(times: seq<int>, t: int): seq<int> {
    if times == [] || times[|times| - 1] < t then times + [t]
    else if times[|times| - 1] == t then times
    else Inserted(times[..|times| - 1], t) + [times[|times| - 1]]
  }

  /** The distinct timestamps of the feed in order. */
  function Timestamps(feed: seq<Quote>): seq<int> {
    if feed == [] then [] else Inserted(Timestamps(feed[..|feed| - 1]), feed[|feed| - 1].bar.timestamp)
  }

  function Run(cfg: Config, strategy: Strategy, buckets: seq<Bucket>, feed: seq<Quote>): Progress {
    RunOver(cfg, strategy, CandleMap(feed), buckets, Timestamps(feed))
  }

  function TotalRealized(buckets: seq<Bucket>): real {
    if buckets == [] then 0.0 else TotalRealized(buckets[..|buckets| - 1]) + buckets[|buckets| - 1].realizedPnl
  }

  function ReportedNav(totalCapital: real, buckets: seq<Bucket>): real {
    HalfEven2(totalCapital + TotalRealized(buckets))
  }

  // ---- The engine -------------------------------------------------------------------------------------------

  class Engine {
    const cfg: Config
    const strategy: Strategy
    var buckets: seq<Bucket>
    var curve: seq<real>

    ghost function Contents(): Progress
      reads this
    {
      Progress(buckets, curve)
    }

    constructor (cfg: Config, strategy: Strategy, buckets: seq<Bucket>)
      ensures this.cfg == cfg && this.strategy == strategy && Contents() == Progress(buckets, [])
    {
      this.cfg, this.strategy := cfg, strategy;
      this.buckets, curve := buckets, [];
    }

    method IndexFeed(feed: seq<Quote>) returns (candles: Candles, times: seq<int>)
      ensures candles == CandleMap(feed) && times == Timestamps(feed)
    {
      candles, times := map[], [];
      for i := 0 to |feed|
        invariant candles == CandleMap(feed[..i]) && times == Timestamps(feed[..i])
      {
        assert feed[..i + 1][..i] == feed[..i];
        candles := candles[(feed[i].symbol, feed[i].bar.timestamp) := feed[i].bar];
        times := Inserted(times, feed[i].bar.timestamp);
      }
      assert feed[..|feed|] == feed;
    }

    method CombinedQuantity(symbol: string) returns (combined: real)
      ensures combined == HeldOf(buckets, symbol)
    {
      combined := 0.0;
      for i := 0 to |buckets|
        invariant combined == HeldOf(buckets[..i], symbol)
      {
        assert buckets[..i + 1][..i] == buckets[..i];
        if buckets[i].symbol == symbol {
          combined := combined + buckets[i].quantity;
        }
      }
      assert buckets[..|buckets|] == buckets;
    }

    method EvaluateExit(i: nat, bar: Bar)
      requires i < |buckets|
      modifies this`buckets
      ensures buckets == old(buckets)[i := Exited(cfg, old(buckets)[i], bar)]
    {
      hide FillPrice, FillCharges, Notional, HalfEven4;
      var b := buckets[i];
      if b.quantity > 0.0 {
        var stopHit := b.stop.Some? && bar.low <= b.stop.value;
        var targetHit := b.target.Some? && bar.high >= b.target.value;
        if !stopHit && !targetHit {
          return;
        }
        var reason, level;
        if stopHit && targetHit {
          if cfg.stopFirst {
            reason, level := StopLoss, b.stop.value;
          } else {
            reason, level := TakeProfit, b.target.value;
          }
        } else if stopHit {
          reason, level := StopLoss, b.stop.value;
        } else {
          reason, level := TakeProfit, b.target.value;
        }
        var price := FillPrice(cfg, level, Sell, bar);
        var proceeds := Notional(b.quantity, price);
        var charges := FillCharges(cfg, proceeds, Sell);
        var net := Notional(b.quantity, price - b.averagePrice) - (b.entryCharges + charges);
        var trade := Trade(b.entryTime, b.averagePrice, bar.timestamp, price, b.quantity, b.entryCharges, charges, net,
                           reason);
        b := b.(cash := HalfEven4(b.cash + (proceeds - charges)), realizedPnl := HalfEven4(b.realizedPnl + net));
        b := b.(quantity := 0.0, averagePrice := 0.0, costBasis := 0.0, stop := None, target := None);
        b := b.(trades := b.trades + [trade]);
        buckets := buckets[i := b];
      }
    }

    method EvaluateEntry(i: nat, bar: Bar, s: Signal) returns (abandoned: bool)
      requires i < |buckets|
      modifies this`buckets
      ensures var (c, skipped) := Entered(cfg, HeldOf(old(buckets), old(buckets)[i].symbol), old(buckets)[i], bar, s);
              buckets == old(buckets)[i := c] && abandoned == skipped
    {
      hide FillPrice, FillCharges, Notional, HalfEven4, OrderQuantity, StopFor, TargetFor, HeldOf;
      var b := buckets[i];
      b := b.(signalsGenerated := b.signalsGenerated + 1);
      var price := FillPrice(cfg, bar.close, Buy, bar);
      var quantity := OrderQuantity(cfg, b, price, s);
      SameOrderQuantity(cfg, b, buckets[i], price, s);
      var cost := Notional(quantity, price);
      var charges := FillCharges(cfg, cost, Buy);
      if quantity <= 0.0 || b.cash < cost + charges {
        buckets := buckets[i := b.(blockedCapital := b.blockedCapital + 1)];
        return true;
      }
      if cfg.maxPositionQuantity.Some? {
        var combined := CombinedQuantity(b.symbol);
        if combined + quantity > cfg.maxPositionQuantity.value {
          buckets := buckets[i := b.(blockedRisk := b.blockedRisk + 1)];
          return false;
        }
      }
      b := b.(cash := HalfEven4(b.cash - (cost + charges)), quantity := HalfEven4(quantity),
              averagePrice := HalfEven4(price), costBasis := cost + charges);
      b := b.(entryCharges := charges, entryTime := bar.timestamp, tradesExecuted := b.tradesExecuted + 1);
      b := b.(stop := Some(StopFor(price, s)), target := Some(TargetFor(price, s)));
      buckets := buckets[i := b];
      abandoned := false;
    }

    method ProcessBar(time: int, i: nat, candles: Candles, nav: real) returns (total: real)
      requires i < |buckets|
      modifies this`buckets
      ensures Sweep(buckets, total) == BucketStep(cfg, strategy, candles, time, Sweep(old(buckets), nav), i)
    {
      hide Exited, Entered, HeldOf, Observe, Equity;
      total := nav;
      var b := buckets[i];
      if (b.symbol, time) !in candles {
        return;
      }
      var bar := candles[(b.symbol, time)];
      EvaluateExit(i, bar);
      ExitKeepsIdentity(cfg, b, bar);
      buckets := buckets[i := buckets[i].(history := b.history + [bar])];
      ghost var shown := buckets;
      assert shown == old(buckets)[i := Shown(cfg, b, bar)];
      var signal := strategy(b.id, buckets[i].history);
      if signal.Some? && buckets[i].quantity == 0.0 && signal.value.side.Buy? {
        var abandoned := EvaluateEntry(i, bar, signal.value);
        if abandoned {
          assert BarDone(cfg, strategy, HeldOf(shown, b.symbol), shown[i], bar) == (buckets[i], None);
          return;
        }
      }
      var equity := Equity(buckets[i], bar);
      EquityIgnoresPeak(buckets[i], bar, Observe(buckets[i].peak, equity));
      buckets := buckets[i := buckets[i].(peak := Observe(buckets[i].peak, equity))];
      total := nav + equity;
    }

    method RunBacktest(feed: seq<Quote>)
      requires curve == []
      modifies this
      ensures Contents() == Run(cfg, strategy, old(buckets), feed)
    {
      hide BucketStep, CandleMap, Timestamps, HalfEven2;
      var candles, times := IndexFeed(feed);
      for k := 0 to |times|
        invariant Contents() == RunOver(cfg, strategy, candles, old(buckets), times[..k])
      {
        assert times[..k + 1][..k] == times[..k];
        var nav := 0.0;
        ghost var before := buckets;
        for i := 0 to |buckets|
          invariant |buckets| == |before| && curve == RunOver(cfg, strategy, candles, old(buckets), times[..k]).curve
          invariant Sweep(buckets, nav) == SweepFirst(cfg, strategy, candles, times[k], before, i)
        {
          nav := ProcessBar(times[k], i, candles, nav);
        }
        curve := curve + [HalfEven2(nav)];
      }
      assert times[..|times|] == times;
    }

    method FinalNav(totalCapital: real) returns (nav: real)
      ensures nav == ReportedNav(totalCapital, buckets)
    {
      var realized := 0.0;
      for i := 0 to |buckets|
        invariant realized == TotalRealized(buckets[..i])
      {
        assert buckets[..i + 1][..i] == buckets[..i];
        realized := realized + buckets[i].realizedPnl;
      }
      assert buckets[..|buckets|] == buckets;
      nav := HalfEven2(totalCapital + realized);
    }
  }

  lemma SameOrderQuantity(cfg: Config, b: Bucket, c: Bucket, price: real, s: Signal)
    requires b.cash == c.cash
    ensures OrderQuantity(cfg, b, price, s) == OrderQuantity(cfg, c, price, s)
  {}

  lemma ExitKeepsIdentity(cfg: Config, b: Bucket, bar: Bar)
    ensures Exited(cfg, b, bar).id == b.id && Exited(cfg, b, bar).symbol == b.symbol
    ensures Exited(cfg, b, bar).history == b.history
  {
    hide Closing, Touched, HalfEven4;
  }

  lemma EquityIgnoresPeak(b: Bucket, bar: Bar, p: Peak)
    ensures Equity(b.(peak := p), bar) == Equity(b, bar)
  {}
}
