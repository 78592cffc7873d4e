/** When a bucket trades, at what, and what it has seen. */
module BacktestTrades {
  import opened Decimals
  import opened Market
  import opened TransactionCosts
  import opened Drawdown
  import opened Backtest

  // ---- Exits ------------------------------------------------------------------------------------------------

  /** A trade's figures: the sale's charges, and the gain on the price less the charges of both sides. */
  predicate AddsUp(cfg: Config, t: Trade) {
    && t.exitCharges == (if cfg.applyCosts then Charges(Notional(t.quantity, t.exitPrice), Sell, cfg.product) else 0.0)
    && t.netPnl == Notional(t.quantity, t.exitPrice - t.entryPrice) - t.entryCharges - t.exitCharges
  }

  /** The bucket has sold what it held at this level. */
  predicate SoldAt(cfg: Config, b: Bucket, bar: Bar, c: Bucket, reason: Reason, level: real) {
    && |c.trades| == |b.trades| + 1 && c.trades[..|b.trades|] == b.trades
    && var t := c.trades[|b.trades|];
       && t.reason == reason
       && t.exitPrice == (if cfg.applySlippage then EffectivePrice(level, Sell, Some(Abs(bar.change))) else level)
       && t.exitTime == bar.timestamp && t.entryTime == b.entryTime
       && t.entryPrice == b.averagePrice && t.quantity == b.quantity && t.entryCharges == b.entryCharges
       && AddsUp(cfg, t)
       && Abs(c.cash - (b.cash + Notional(t.quantity, t.exitPrice) - t.exitCharges)) <= 0.00005
       && Abs(c.realizedPnl - (b.realizedPnl + t.netPnl)) <= 0.00005
  }

  /** A held bucket is sold out exactly by a bar that reaches its stop or its target: at the stop when only that is
      reached, at the target when only that is, and at the one the configured rule names when both are. */
  lemma ClosesExactlyWhen(cfg: Config, b: Bucket, bar: Bar)
    requires 0.0 < b.quantity
    ensures var c := Exited(cfg, b, bar);
            var stopHit := b.stop.Some? && bar.low <= b.stop.value;
            var targetHit := b.target.Some? && b.target.value <= bar.high;
            && (c.quantity == 0.0 <==> stopHit || targetHit)
            && (!stopHit && !targetHit ==> c == b)
            && (stopHit && !targetHit ==> SoldAt(cfg, b, bar, c, StopLoss, b.stop.value))
            && (targetHit && !stopHit ==> SoldAt(cfg, b, bar, c, TakeProfit, b.target.value))
            && (stopHit && targetHit && cfg.stopFirst ==> SoldAt(cfg, b, bar, c, StopLoss, b.stop.value))
            && (stopHit && targetHit && !cfg.stopFirst ==> SoldAt(cfg, b, bar, c, TakeProfit, b.target.value))
            && (stopHit || targetHit ==>
                  c.stop == None && c.target == None && c.averagePrice == 0.0 && c.costBasis == 0.0)
  {
    hide HalfEven4, EffectivePrice, Charges, Notional;
  }

  // ---- Entries ----------------------------------------------------------------------------------------------

  /** What the signal is filled at, and what the fill takes out of cash. */
  function BuyPrice(cfg: Config, bar: Bar): real {
    if cfg.applySlippage then EffectivePrice(bar.close, Buy, Some(Abs(bar.change))) else bar.close
  }

  function BuyTotal(cfg: Config, quantity: real, price: real): real {
    Notional(quantity, price) + (if cfg.applyCosts then Charges(Notional(quantity, price), Buy, cfg.product) else 0.0)
  }

  /** The bucket has bought at this bar. */
  predicate BoughtAt(cfg: Config, b: Bucket, bar: Bar, c: Bucket, s: Signal, quantity: real) {
    var price := BuyPrice(cfg, bar);
    && c.tradesExecuted == b.tradesExecuted + 1
    && c.blockedCapital == b.blockedCapital && c.blockedRisk == b.blockedRisk
    && Abs(c.quantity - quantity) <= 0.00005 && Abs(c.averagePrice - price) <= 0.00005
    && c.costBasis == BuyTotal(cfg, quantity, price)
    && c.entryCharges == c.costBasis - Notional(quantity, price) && c.entryTime == bar.timestamp
    && Abs(c.cash - (b.cash - c.costBasis)) <= 0.00005
    && c.stop.Some? && c.target.Some?
    && Abs(c.stop.value - (if s.stopLoss.Some? && s.stopLoss.value < price then s.stopLoss.value
                           else price * 0.98)) <= 0.005
    && Abs(c.target.value - (if s.target.Some? && price < s.target.value then s.target.value
                             else price * 1.04)) <= 0.005
  }

  /** The bucket holds and owes what it did, whatever its counters. */
  predicate Untouched(b: Bucket, c: Bucket) {
    && c.cash == b.cash && c.quantity == b.quantity && c.averagePrice == b.averagePrice && c.costBasis == b.costBasis
    && c.stop == b.stop && c.target == b.target && c.tradesExecuted == b.tradesExecuted
    && c.realizedPnl == b.realizedPnl && c.trades == b.trades
  }

  /** A flat bucket fills a purchase signal exactly when the quantity is positive, cash covers cost and charges, and the
      symbol stays within the limit over all buckets. Without the first two it is blocked for capital and the bar is
      abandoned, without the third for risk. */
  lemma BuysExactlyWhen(cfg: Config, strategy: Strategy, combined: real, b: Bucket, bar: Bar, s: Signal)
    requires b.quantity == 0.0 && strategy(b.id, b.history) == Some(s) && s.side == Buy
    ensures var (c, equity) := BarDone(cfg, strategy, combined, b, bar);
            var price := BuyPrice(cfg, bar);
            var quantity := OrderQuantity(cfg, b, price, s);
            var funded := 0.0 < quantity && BuyTotal(cfg, quantity, price) <= b.cash;
            var room := cfg.maxPositionQuantity.Some? ==> combined + quantity <= cfg.maxPositionQuantity.value;
            && c.signalsGenerated == b.signalsGenerated + 1
            && (equity.None? <==> !funded)
            && (funded && room ==> BoughtAt(cfg, b, bar, c, s, quantity))
            && (funded && !room ==> Untouched(b, c) && c.blockedRisk == b.blockedRisk + 1
                                    && c.blockedCapital == b.blockedCapital)
            && (!funded ==> Untouched(b, c) && c.blockedCapital == b.blockedCapital + 1
                            && c.blockedRisk == b.blockedRisk)
  {
    hide HalfEven4, HalfEven2, EffectivePrice, Charges, Notional, OrderQuantity, Observe, Equity;
  }

  /** No other signal moves a bucket: none, a sale, or a purchase while something is held. */
  lemma IgnoresOtherSignals(cfg: Config, strategy: Strategy, combined: real, b: Bucket, bar: Bar)
    requires strategy(b.id, b.history).None? || strategy(b.id, b.history).value.side == Sell || b.quantity != 0.0
    ensures var (c, equity) := BarDone(cfg, strategy, combined, b, bar);
            equity.Some? && c == b.(peak := c.peak)
  {
    hide Observe, Equity;
  }

  /** Auto-sizing asks for what was signalled, or else for as many whole shares as the cash buys with 0.2 percent to
      spare; ten shares when the signal names none. A bucket that cannot buy one share asks for what was signalled. */
  lemma SizesToCash(cfg: Config, b: Bucket, price: real, s: Signal)
    requires 0.0 < price && 0.0 <= b.cash
    ensures var wanted := if s.quantity.Some? && s.quantity.value != 0.0 then s.quantity.value else 10.0;
            var n := OrderQuantity(cfg, b, price, s);
            && (!cfg.autoSize || b.cash < price * 1.002 ==> n == wanted)
            && (cfg.autoSize && price * 1.002 <= b.cash ==>
                  && n <= wanted && Notional(n, price * 1.002) <= b.cash
                  && (n == wanted || (Whole(n) && b.cash < Notional(n + 1.0, price * 1.002))))
  {
    var share := price * 1.002;
    CashInShares(b.cash, share);
    var n := AffordableQuantity(b.cash, price);
    assert n == (Truncated(b.cash / share)) as real;
    WholeInt(Truncated(b.cash / share));
    var wanted := RequestedQuantity(s);
    hide AffordableQuantity, Truncated;
    if wanted <= n {
      NotionalSplits(n, n - wanted, share);
      NotionalNonNegative(n - wanted, share);
    }
  }

  lemma CashInShares(cash: real, share: real)
    requires 0.0 < share && 0.0 <= cash
    ensures var n := Truncated(cash / share) as real;
            && 0.0 <= n && (1.0 <= n <==> share <= cash)
            && Notional(n, share) <= cash < Notional(n + 1.0, share)
  {
    var exact := cash / share;
    DivideBack(cash, share);
    assert 0.0 <= exact by { QuotientSign(cash, share); }
    var n := Truncated(exact) as real;
    assert n <= exact < n + 1.0 && 0.0 <= n;
    assert 1.0 <= n <==> 1.0 <= exact;
    assert Notional(exact, share) == cash;
    NotionalOfOne(share);
    hide Notional;
    SharesOrder(n, exact, share);
    SharesOrder(exact, n + 1.0, share);
    SharesOrder(1.0, exact, share);
  }

  lemma SharesOrder(x: real, y: real, share: real)
    requires 0.0 < share
    ensures x < y <==> Notional(x, share) < Notional(y, share)
    ensures x <= y <==> Notional(x, share) <= Notional(y, share)
  {
    NotionalSplits(y, x, share);
    SignOfProduct(share, y - x);
    NotionalIs(y - x, share);
  }

  /** A bar that is not abandoned is measured: its equity is cash and holding at the close, the peak is the greater of
      the old one and that, and the worst loss covers the fall from it. */
  lemma BarIsObserved(cfg: Config, strategy: Strategy, combined: real, b: Bucket, bar: Bar)
    ensures var (c, equity) := BarDone(cfg, strategy, combined, b, bar);
            && (equity.None? ==> c.peak == b.peak)
            && (equity.Some? ==>
                  && equity.value == c.cash + Notional(c.quantity, bar.close)
                  && c.peak.high == Max(b.peak.high, equity.value)
                  && c.peak.worst == Max(b.peak.worst, Loss(c.peak.high, equity.value)))
  {
    hide Loss, Notional, OrderQuantity, FillPrice, FillCharges, HalfEven4, StopFor, TargetFor;
  }

  // ---- What a bucket has seen -------------------------------------------------------------------------------

  /** The bars of a symbol at these times. */
  function Seen(candles: Candles, symbol: string, times: seq<int>): seq<Bar> {
    if times == [] then []
    else
      var time := times[|times| - 1];
      Seen(candles, symbol, times[..|times| - 1])
      + (if (symbol, time) in candles then [candles[(symbol, time)]] else [])
  }

  lemma BarKeepsIdentity(cfg: Config, strategy: Strategy, combined: real, b: Bucket, bar: Bar)
    ensures var c := BarDone(cfg, strategy, combined, Shown(cfg, b, bar), bar).0;
            c.id == b.id && c.symbol == b.symbol && c.history == b.history + [bar]
  {
    ExitKeepsIdentity(cfg, b, bar);
    hide Exited, HalfEven4, OrderQuantity, FillPrice, FillCharges, StopFor, TargetFor, Observe, Equity;
  }

  /** A step shows its bucket the bar, and leaves all others alone. */
  lemma StepShows(cfg: Config, strategy: Strategy, candles: Candles, time: int, s: Sweep, i: nat)
    requires i < |s.buckets|
    ensures var t := BucketStep(cfg, strategy, candles, time, s, i);
            var b := s.buckets[i];
            && (forall k :: 0 <= k < |s.buckets| && k != i ==> t.buckets[k] == s.buckets[k])
            && t.buckets[i].symbol == b.symbol
            && t.buckets[i].history == b.history + Seen(candles, b.symbol, [time])
  {
    hide Shown, BarDone, HeldOf;
    var b := s.buckets[i];
    assert [time][..0] == [];
    if (b.symbol, time) in candles {
      var bar := candles[(b.symbol, time)];
      BarKeepsIdentity(cfg, strategy, HeldOf(s.buckets[i := Shown(cfg, b, bar)], b.symbol), b, bar);
    }
  }

  lemma {:induction false} SweepShows(cfg: Config, strategy: Strategy, candles: Candles, time: int,
                                      buckets: seq<Bucket>, n: nat)
    requires n <= |buckets|
    ensures var t := SweepFirst(cfg, strategy, candles, time, buckets, n);
            && (forall i :: n <= i < |buckets| ==> t.buckets[i] == buckets[i])
            && (forall i :: 0 <= i < n ==>
                  && t.buckets[i].symbol == buckets[i].symbol
                  && t.buckets[i].history == buckets[i].history + Seen(candles, buckets[i].symbol, [time]))
  {
    hide BucketStep, Seen;
    if n > 0 {
      SweepShows(cfg, strategy, candles, time, buckets, n - 1);
      StepShows(cfg, strategy, candles, time, SweepFirst(cfg, strategy, candles, time, buckets, n - 1), n - 1);
    }
  }

  /** Every bucket's strategy is shown exactly the bars of its symbol, in the order of time, up to the present one. */
  lemma {:induction false} RunShows(cfg: Config, strategy: Strategy, candles: Candles, buckets: seq<Bucket>,
                                    times: seq<int>)
    ensures var final := RunOver(cfg, strategy, candles, buckets, times).buckets;
            && |final| == |buckets|
            && forall i :: 0 <= i < |buckets| ==>
                 && final[i].symbol == buckets[i].symbol
                 && final[i].history == buckets[i].history + Seen(candles, buckets[i].symbol, times)
  {
    hide SweepFirst;
    if times != [] {
      var last := |times| - 1;
      RunShows(cfg, strategy, candles, buckets, times[..last]);
      var before := RunOver(cfg, strategy, candles, buckets, times[..last]).buckets;
      SweepShows(cfg, strategy, candles, times[last], before, |before|);
      forall i | 0 <= i < |buckets|
        ensures Seen(candles, buckets[i].symbol, times)
                == Seen(candles, buckets[i].symbol, times[..last]) + Seen(candles, buckets[i].symbol, [times[last]])
      {
        assert [times[last]][..0] == [];
      }
    }
  }

  // ---- The portfolio value of a timestamp -------------------------------------------------------------------

  /** What the buckets that have a bar and were not abandoned on it are worth at its close. */
  function Worth(candles: Candles, time: int, before: seq<Bucket>, after: seq<Bucket>, n: nat): real
    requires n <= |before| == |after|
  {
    if n == 0 then 0.0
    else
      var b, c := before[n - 1], after[n - 1];
      Worth(candles, time, before, after, n - 1)
      + (if (b.symbol, time) in candles && c.blockedCapital == b.blockedCapital
         then c.cash + Notional(c.quantity, candles[(b.symbol, time)].close) else 0.0)
  }

  lemma {:induction false} WorthOfPrefix(candles: Candles, time: int, before: seq<Bucket>, a: seq<Bucket>,
                                         c: seq<Bucket>, n: nat)
    requires n <= |before| == |a| == |c| && forall i :: 0 <= i < n ==> a[i] == c[i]
    ensures Worth(candles, time, before, a, n) == Worth(candles, time, before, c, n)
  {
    hide Notional;
    if n > 0 { WorthOfPrefix(candles, time, before, a, c, n - 1); }
  }

  lemma AbandonedIsBlocked(cfg: Config, strategy: Strategy, combined: real, b: Bucket, bar: Bar)
    ensures var (c, equity) := BarDone(cfg, strategy, combined, Shown(cfg, b, bar), bar);
            && (equity.Some? <==> c.blockedCapital == b.blockedCapital)
            && (equity.Some? ==> equity.value == c.cash + Notional(c.quantity, bar.close))
  {
    hide Closing, Touched, HalfEven4, OrderQuantity, FillPrice, FillCharges, StopFor, TargetFor, Observe, Notional;
  }

  lemma StepAddsWorth(cfg: Config, strategy: Strategy, candles: Candles, time: int, s: Sweep, i: nat)
    requires i < |s.buckets|
    ensures var t := BucketStep(cfg, strategy, candles, time, s, i);
            var b, c := s.buckets[i], t.buckets[i];
            t.nav == s.nav + (if (b.symbol, time) in candles && c.blockedCapital == b.blockedCapital
                              then c.cash + Notional(c.quantity, candles[(b.symbol, time)].close) else 0.0)
  {
    hide Shown, BarDone, HeldOf, Notional;
    var b := s.buckets[i];
    if (b.symbol, time) in candles {
      var bar := candles[(b.symbol, time)];
      AbandonedIsBlocked(cfg, strategy, HeldOf(s.buckets[i := Shown(cfg, b, bar)], b.symbol), b, bar);
    }
  }

  /** The equity point of a timestamp is what those buckets are worth. */
  lemma {:induction false} SweepNavIsWorth(cfg: Config, strategy: Strategy, candles: Candles, time: int,
                                           buckets: seq<Bucket>, n: nat)
    requires n <= |buckets|
    ensures var t := SweepFirst(cfg, strategy, candles, time, buckets, n);
            t.nav == Worth(candles, time, buckets, t.buckets, n)
  {
    hide BucketStep, Notional;
    if n > 0 {
      var s := SweepFirst(cfg, strategy, candles, time, buckets, n - 1);
      SweepNavIsWorth(cfg, strategy, candles, time, buckets, n - 1);
      SweepShows(cfg, strategy, candles, time, buckets, n - 1);
      StepShows(cfg, strategy, candles, time, s, n - 1);
      StepAddsWorth(cfg, strategy, candles, time, s, n - 1);
      var t := SweepFirst(cfg, strategy, candles, time, buckets, n);
      WorthOfPrefix(candles, time, buckets, s.buckets, t.buckets, n - 1);
    }
  }

  /** The point is the worth of the buckets at this time, to the paisa. */
  predicate PointIsWorth(point: real, candles: Candles, time: int, before: seq<Bucket>, after: seq<Bucket>) {
    |before| == |after| && Cents(point) && Abs(point - Worth(candles, time, before, after, |before|)) <= 0.005
  }

  lemma LastPointIsWorth(cfg: Config, strategy: Strategy, candles: Candles, p: Progress, time: int)
    ensures var q := AfterTimestamp(cfg, strategy, candles, p, time);
            && |q.curve| == |p.curve| + 1 && q.curve[..|p.curve|] == p.curve
            && PointIsWorth(q.curve[|p.curve|], candles, time, p.buckets, q.buckets)
  {
    hide SweepFirst, HalfEven2, Cents, Worth;
    SweepNavIsWorth(cfg, strategy, candles, time, p.buckets, |p.buckets|);
  }

  /** Each point of the equity curve is what the buckets were worth at its time. */
  lemma {:induction false} CurveIsWorth(cfg: Config, strategy: Strategy, candles: Candles, buckets: seq<Bucket>,
                                        times: seq<int>)
    ensures var curve := RunOver(cfg, strategy, candles, buckets, times).curve;
            && |curve| == |times|
            && forall k :: 0 <= k < |times| ==>
                 PointIsWorth(curve[k], candles, times[k],
                              RunOver(cfg, strategy, candles, buckets, times[..k]).buckets,
                              RunOver(cfg, strategy, candles, buckets, times[..k + 1]).buckets)
  {
    hide AfterTimestamp, PointIsWorth;
    if times != [] {
      var last := |times| - 1;
      CurveIsWorth(cfg, strategy, candles, buckets, times[..last]);
      LastPointIsWorth(cfg, strategy, candles, RunOver(cfg, strategy, candles, buckets, times[..last]), times[last]);
      var front := times[..last];
      assert times[..last + 1] == times;
      forall k | 0 <= k <= last ensures front[..k] == times[..k] {}
    }
  }

  // ---- Honest trades ----------------------------------------------------------------------------------------

  function SumNet(trades: seq<Trade>): real {
    if trades == [] then 0.0 else SumNet(trades[..|trades| - 1]) + trades[|trades| - 1].netPnl
  }

  /** Every trade's figures add up, and realised P&L is their sum, up to one rounding a trade. */
  predicate Honest(cfg: Config, b: Bucket) {
    && (forall i :: 0 <= i < |b.trades| ==> AddsUp(cfg, b.trades[i]))
    && Abs(b.realizedPnl - SumNet(b.trades)) <= |b.trades| as real * 0.00005
  }

  lemma ExitStaysHonest(cfg: Config, b: Bucket, bar: Bar)
    requires Honest(cfg, b)
    ensures Honest(cfg, Exited(cfg, b, bar))
  {
    hide Touched, HalfEven4, EffectivePrice, Charges, Notional;
    if 0.0 < b.quantity { ClosesExactlyWhen(cfg, b, bar); }
    assert forall t: Trade :: (b.trades + [t])[..|b.trades|] == b.trades;
  }

  lemma BarStaysHonest(cfg: Config, strategy: Strategy, combined: real, b: Bucket, bar: Bar)
    requires Honest(cfg, b)
    ensures Honest(cfg, BarDone(cfg, strategy, combined, Shown(cfg, b, bar), bar).0)
  {
    ExitStaysHonest(cfg, b, bar);
    BarAddsNoTrade(cfg, strategy, combined, Shown(cfg, b, bar), bar);
    hide Exited, BarDone, AddsUp;
  }

  lemma BarAddsNoTrade(cfg: Config, strategy: Strategy, combined: real, b: Bucket, bar: Bar)
    ensures var c := BarDone(cfg, strategy, combined, b, bar).0; c.trades == b.trades && c.realizedPnl == b.realizedPnl
  {
    hide HalfEven4, OrderQuantity, FillPrice, FillCharges, StopFor, TargetFor, Observe, Equity;
  }

  ghost predicate AllHonest(cfg: Config, buckets: seq<Bucket>) {
    forall i :: 0 <= i < |buckets| ==> Honest(cfg, buckets[i])
  }

  lemma StepStaysHonest(cfg: Config, strategy: Strategy, candles: Candles, time: int, s: Sweep, i: nat)
    requires i < |s.buckets| && AllHonest(cfg, s.buckets)
    ensures AllHonest(cfg, BucketStep(cfg, strategy, candles, time, s, i).buckets)
  {
    hide Shown, BarDone, HeldOf, Honest;
    var b := s.buckets[i];
    if (b.symbol, time) in candles {
      var bar := candles[(b.symbol, time)];
      BarStaysHonest(cfg, strategy, HeldOf(s.buckets[i := Shown(cfg, b, bar)], b.symbol), b, bar);
    }
  }

  lemma {:induction false} SweepStaysHonest(cfg: Config, strategy: Strategy, candles: Candles, time: int,
                                            buckets: seq<Bucket>, n: nat)
    requires n <= |buckets| && AllHonest(cfg, buckets)
    ensures AllHonest(cfg, SweepFirst(cfg, strategy, candles, time, buckets, n).buckets)
  {
    hide BucketStep, AllHonest;
    if n > 0 {
      SweepStaysHonest(cfg, strategy, candles, time, buckets, n - 1);
      StepStaysHonest(cfg, strategy, candles, time, SweepFirst(cfg, strategy, candles, time, buckets, n - 1), n - 1);
    }
  }

  /** In every run the figures of every trade of every bucket add up, and its realised P&L is their sum, up to
      rounding. */
  lemma {:induction false} RunStaysHonest(cfg: Config, strategy: Strategy, candles: Candles, buckets: seq<Bucket>,
                                          times: seq<int>)
    requires AllHonest(cfg, buckets)
    ensures AllHonest(cfg, RunOver(cfg, strategy, candles, buckets, times).buckets)
  {
    hide SweepFirst, AllHonest;
    if times != [] {
      var last := |times| - 1;
      RunStaysHonest(cfg, strategy, candles, buckets, times[..last]);
      var before := RunOver(cfg, strategy, candles, buckets, times[..last]).buckets;
      SweepStaysHonest(cfg, strategy, candles, times[last], before, |before|);
    }
  }
}
