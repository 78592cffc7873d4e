/** Exits of the frozen session against its entries: what the scorecard counts as a violation. */
module FrozenExits {
  import opened Decimals
  import opened Market
  import opened TransactionCosts
  import opened Drawdown
  import opened FrozenEngine

  // ---- Exits respect the entry ------------------------------------------------------------------------------

  predicate Violation(t: Trade) {
    if t.reason.TakeProfit? then t.exitPrice < t.entryPrice else t.exitPrice > t.entryPrice
  }

  /** A target a sale can be executed at without falling below the entry: with the half paisa its own rounding may
      have cost, it covers the highest slippage rate. */
  predicate SafeTarget(entry: real, target: real) {
    Cents(target) && entry <= (target + 0.005) * 0.999
  }

  predicate SoundPosition(p: Position) {
    Cents(p.entryPrice) && 0.01 <= p.entryPrice && SafeTarget(p.entryPrice, p.target) && p.stop <= p.entryPrice
  }

  /** Slippage and rounding never take a sale at or above a safe target below the entry. */
  lemma TakeProfitNotBelowEntry(entry: real, target: real, raw: real, c: Candle)
    requires Cents(entry) && 0.01 <= entry && SafeTarget(entry, target) && target <= raw
    ensures entry <= ExitPrice(raw, c)
  {
    hide HalfUp2, Cents, Portion, SlippageRate;
    var slip := SlippageAmount(raw, Some(Abs(c.change)));
    assert Cents(slip);
    hide SlippageAmount;
    SlippageBounds(raw, Some(Abs(c.change)));
    if entry <= raw * 0.999 {
      RoundsUpToEntry(raw - slip, entry);
    } else {
      // Slippage and margin are both whole paise, and less than one paisa separates them.
      CentsSum(target, entry);
      LessThanAPaisaMore(slip, target - entry);
      RoundingKeepsSide(raw - slip, entry);
    }
  }

  lemma RoundsUpToEntry(x: real, entry: real)
    requires Cents(entry) && 0.0 < entry && entry - 0.005 <= x
    ensures entry <= HalfUp2(x)
  {
    hide HalfUp2;
    RoundsUpTo(x * 100.0, (entry * 100.0).Floor);
    HalfUp2Is(x);
  }

  lemma RoundsUpTo(y: real, n: int)
    requires 0 < n && n as real <= y + 0.5
    ensures n <= RoundHalfUp(y)
  {}

  lemma HalfUp2Is(x: real)
    ensures HalfUp2(x) == RoundHalfUp(x * 100.0) as real / 100.0
  {}

  /** A sale at or below the stop never ends above the entry, through any gap. */
  lemma StopLossNotAboveEntry(entry: real, stop: real, raw: real, c: Candle)
    requires Cents(entry) && 0.01 <= entry && raw <= stop <= entry
    ensures ExitPrice(raw, c) <= entry
  {
    hide SlippageAmount, HalfUp2, Cents;
    var slip := SlippageAmount(raw, Some(Abs(c.change)));
    SlippageBounds(raw, Some(Abs(c.change)));
    OneCent();
    RoundingKeepsSide(raw - slip, entry);
    RoundingKeepsSide(raw - slip, 0.01);
  }

  lemma TargetIsSafe(entry: real, m: real, target: real)
    requires Cents(entry) && 0.01 <= entry && 1.0 <= m * 0.999 && target == HalfEven2(Notional(entry, m))
    ensures SafeTarget(entry, target)
  {
    hide HalfEven2, Cents;
    NotionalNonNegative(entry, m * 0.999 - 1.0);
    assert entry * (m * 0.999 - 1.0) == Notional(entry, m) * 0.999 - entry;
  }

  lemma StopIsBelow(entry: real, m: real)
    requires Cents(entry) && 0.01 <= entry && m < 1.0
    ensures HalfEven2(Notional(entry, m)) <= entry
  {
    hide HalfEven2, Cents;
    NotionalNonNegative(entry, 1.0 - m);
    NotionalOfGain(entry, 1.0, m);
    assert Notional(entry, 1.0) == entry;
    RoundingKeepsSide(Notional(entry, m), entry);
  }

  lemma RepairKeepsSound(p: Position)
    requires SoundPosition(p)
    ensures SoundPosition(Repaired(p)) && Repaired(p).entryPrice == p.entryPrice
  {
    hide HalfEven2, Cents;
    assert Notional(p.entryPrice, 1.035) == p.entryPrice * 1.035;
    assert Notional(p.entryPrice, 0.980) == p.entryPrice * 0.980;
    TargetIsSafe(p.entryPrice, 1.035, HalfEven2(Notional(p.entryPrice, 1.035)));
    StopIsBelow(p.entryPrice, 0.980);
  }

  predicate Clean(log: seq<Trade>) {
    forall i :: 0 <= i < |log| ==> !Violation(log[i])
  }

  predicate ViolationFree(s: Session) {
    && Clean(s.log)
    && (s.position.Some? ==> SoundPosition(s.position.value))
  }

  /** The target multiplier covers the highest slippage rate, and no close that reaches the threshold rounds to a
      negative price. */
  predicate WideTarget(cfg: Config) {
    -0.005 < cfg.buyThreshold && 1.0 <= TargetMultiplier(cfg) * 0.999
  }

  /** An entry that is not a division by zero is at one paisa or more. */
  lemma EntryIsPositive(cfg: Config, c: Candle)
    requires -0.005 < cfg.buyThreshold && EntrySignal(cfg, c) && EntryPrice(c) != 0.0
    ensures 0.01 <= EntryPrice(c)
    ensures 0.01 <= c.close ==> HalfUp2(c.close) <= EntryPrice(c)
  {
    hide HalfUp2, Cents, Portion, SlippageRate;
    var slip := SlippageAmount(c.close, Some(Abs(c.change)));
    assert Cents(slip);
    hide SlippageAmount;
    SlippageBounds(c.close, Some(Abs(c.change)));
    OneCent();
    if c.close < 0.0 {
      SameCent(slip, 0.0);
      SameCent(HalfUp2(c.close), 0.0);
    } else {
      HalfUp2Monotone(c.close, c.close + slip);
      RoundedBounds(c.close + slip, c.close + slip);
      PositiveCents(EntryPrice(c));
    }
  }

  lemma EntryIsSound(cfg: Config, c: Candle, quantity: real)
    requires WideTarget(cfg) && EntrySignal(cfg, c) && EntryPrice(c) != 0.0
    ensures SoundPosition(NewPosition(cfg, c, quantity))
  {
    hide HalfEven2, Cents, TargetMultiplier, Notional;
    EntryIsPositive(cfg, c);
    TargetIsSafe(EntryPrice(c), TargetMultiplier(cfg), HalfEven2(Notional(EntryPrice(c), TargetMultiplier(cfg))));
    StopIsBelow(EntryPrice(c), StopMultiplier(cfg));
  }

  lemma PositiveCents(x: real)
    requires Cents(x) && 0.0 < x
    ensures 0.01 <= x
  {}

  lemma CandleKeepsViolationFree(cfg: Config, s: Session, c: Candle)
    requires WideTarget(cfg) && ViolationFree(s)
    ensures ViolationFree(Next(cfg, s, c))
  {
    hide HalfEven2, Cents, ExitPrice, EntryPrice, SafeTarget, Notional, Charges;
    hide EntrySignal, Observe, TargetMultiplier, NewPosition, Affordable;
    match s.position
    case Some(p) =>
      RepairKeepsSound(p);
      var q := Repaired(p);
      hide Repaired;
      match RawExit(q, c) {
        case Some((reason, raw)) =>
          if reason.TakeProfit? {
            TakeProfitNotBelowEntry(q.entryPrice, q.target, raw, c);
          } else {
            StopLossNotAboveEntry(q.entryPrice, q.stop, raw, c);
          }
        case None =>
      }
    case None =>
      if EntrySignal(cfg, c) && EntryPrice(c) != 0.0 {
        EntryIsSound(cfg, c, Min(cfg.quantity as real, Affordable(s.cash, EntryPrice(c))));
      }
  }

  /** For every candle sequence, gaps and all, no stop-loss exit ends above its entry and no take-profit exit below,
      when the target leaves room for slippage. */
  lemma {:induction false} NoViolations(cfg: Config, capital: real, candles: seq<Candle>)
    requires WideTarget(cfg)
    ensures ViolationFree(Run(cfg, capital, candles))
  {
    hide Next, WideTarget;
    if candles != [] {
      NoViolations(cfg, capital, candles[..|candles| - 1]);
      CandleKeepsViolationFree(cfg, Run(cfg, capital, candles[..|candles| - 1]), candles[|candles| - 1]);
    }
  }

  // ---- A narrow target always violates ----------------------------------------------------------------------

  /** Whatever the capital and the candles, a configuration never violates if and only if it never trades or has a
      wide target: one that covers the highest slippage rate, at prices that round to more than nothing. */
  lemma CleanExactlyWhenWide(cfg: Config)
    ensures (forall capital, candles :: Clean(Run(cfg, capital, candles).log))
            <==> (Tradable(cfg) ==> WideTarget(cfg))
  {
    hide Run, WideTarget, Tradable, Violation, SoundPosition;
    if !Tradable(cfg) {
      forall capital, candles ensures Clean(Run(cfg, capital, candles).log) {
        NeverTrades(cfg, capital, candles);
      }
    } else if WideTarget(cfg) {
      forall capital, candles ensures Clean(Run(cfg, capital, candles).log) {
        NoViolations(cfg, capital, candles);
      }
    } else {
      var capital, candles := NarrowTargetFails(cfg);
      assert !Clean(Run(cfg, capital, candles).log);
    }
  }

  lemma NarrowTargetFails(cfg: Config) returns (capital: real, candles: seq<Candle>)
    requires Tradable(cfg) && !WideTarget(cfg)
    ensures !Clean(Run(cfg, capital, candles).log)
  {
    if cfg.buyThreshold <= -0.005 {
      capital, candles := NegativeEntryFails(cfg);
    } else {
      capital, candles := NarrowMarginFails(cfg);
    }
  }

  /** The two candles: an entry at a price high enough for the missing margin to outweigh all rounding, then one that
      stands still at the target while slippage is at its highest. */
  lemma NarrowMarginFails(cfg: Config) returns (capital: real, candles: seq<Candle>)
    requires Tradable(cfg) && TargetMultiplier(cfg) * 0.999 < 1.0
    ensures !Clean(Run(cfg, capital, candles).log)
  {
    hide Next, Run, Tradable, TargetMultiplier, NewPosition, EntryPrice, Notional, Violation, Cents;
    var m := TargetMultiplier(cfg);
    MultiplierAboveOne(cfg);
    var price := HighEnough(cfg.buyThreshold, m);
    var c1 := Still(cfg, price);
    capital := EntryPrice(c1);
    PaysAtLeast(c1);
    EntersOneShare(cfg, price);
    MarginIsMissed(capital, m, price);
    var target := NewPosition(cfg, c1, 1.0).target;
    var c2 := Candle(target, target, target, target, 3.0, "2");
    SellsAtTarget(cfg, Next(cfg, Fresh(capital), c1), c1, c2);
    candles := [c1, c2];
    TwoCandles(cfg, capital, c1, c2);
  }

  lemma PaysAtLeast(c: Candle)
    requires Cents(c.close) && 0.0 <= c.close
    ensures c.close <= EntryPrice(c)
  {
    SlippageIsAdverse(c.close, Some(Abs(c.change)));
  }

  /** A threshold of minus half a paisa or less lets a position in at a negative price. Both its levels end up on the
      wrong side, and the sale never goes below one paisa. */
  lemma NegativeEntryFails(cfg: Config) returns (capital: real, candles: seq<Candle>)
    requires Tradable(cfg) && cfg.buyThreshold <= -0.005
    ensures !Clean(Run(cfg, capital, candles).log)
  {
    hide Next, Run, Tradable, NewPosition, EntryPrice, Violation, Repaired;
    var c1 := Still(cfg, cfg.buyThreshold);
    capital := EntryPrice(c1);
    NegativeEntry(cfg, c1);
    EntersOneShare(cfg, cfg.buyThreshold);
    var c2 := Candle(capital, capital, capital, capital, 0.0, "2");
    SellsAboveNegativeEntry(cfg, Next(cfg, Fresh(capital), c1), c1, c2);
    candles := [c1, c2];
    TwoCandles(cfg, capital, c1, c2);
  }

  lemma NegativeEntry(cfg: Config, c: Candle)
    requires c == Still(cfg, cfg.buyThreshold) && cfg.buyThreshold <= -0.005
    ensures EntryPrice(c) <= -0.01
    ensures var q := Repaired(NewPosition(cfg, c, 1.0)); q.entryPrice == EntryPrice(c) && EntryPrice(c) <= q.stop
  {
    hide HalfUp2, HalfEven2, SlippageAmount, Cents, Notional;
    var e := EntryPrice(c);
    var raw := c.close + SlippageAmount(c.close, Some(Abs(c.change)));
    SlippageBounds(c.close, Some(Abs(c.change)));
    HalfUp2Monotone(raw, -0.005);
    assert HalfUp2(-0.005) == -0.01 by { HalfPaisaAway(); }
    StopIsAboveNegative(e, StopMultiplier(cfg));
    StopIsAboveNegative(e, 0.980);
    NotionalIs(e, 0.980);
  }

  lemma HalfPaisaAway()
    ensures HalfUp2(-0.005) == -0.01
  {
    assert RoundHalfUp(-0.005 * 100.0) == -1;
  }

  lemma StopIsAboveNegative(entry: real, m: real)
    requires Cents(entry) && entry < 0.0 && m < 1.0
    ensures entry <= HalfEven2(Notional(entry, m))
  {
    hide HalfEven2, Cents;
    NotionalNonNegative(-entry, 1.0 - m);
    NotionalOfNegative(entry, 1.0 - m);
    NotionalOfGain(entry, 1.0, m);
    NotionalIs(entry, 1.0);
    RoundingKeepsSide(Notional(entry, m), entry);
  }

  lemma SellsAboveNegativeEntry(cfg: Config, s: Session, c1: Candle, c2: Candle)
    requires s.log == [] && s.position == Some(NewPosition(cfg, c1, 1.0))
    requires var q := Repaired(NewPosition(cfg, c1, 1.0)); q.entryPrice == EntryPrice(c1) <= q.stop
    requires EntryPrice(c1) < 0.0
    requires var e := EntryPrice(c1); c2 == Candle(e, e, e, e, 0.0, "2")
    ensures var t := Next(cfg, s, c2); |t.log| == 1 && Violation(t.log[0])
  {
    hide HalfUp2, NewPosition, Repaired, Notional, Charges, Observe, SlippageAmount, EntryPrice;
  }

  lemma HighEnough(threshold: real, m: real) returns (price: real)
    requires 1.0 < m && m * 0.999 < 1.0
    ensures Cents(price) && 10.0 <= price && threshold <= price
    ensures 1.0 / (m - 1.0) <= price && 1.0 / (1.0 - m * 0.999) <= price
  {
    var low := Max(Max(threshold, 10.0), Max(1.0 / (m - 1.0), 1.0 / (1.0 - m * 0.999)));
    var n := low.Floor + 1;
    price := n as real;
    WholeInt(n * 100);
    assert price * 100.0 == (n * 100) as real;
  }

  lemma MultiplierAboveOne(cfg: Config)
    ensures 1.0 < TargetMultiplier(cfg)
  {}

  /** A margin below the slippage rate: the target is more than a paisa above the entry, and still too low. */
  lemma MarginIsMissed(entry: real, m: real, price: real)
    requires 1.0 < m && m * 0.999 < 1.0 && price <= entry
    requires 1.0 / (m - 1.0) <= price && 1.0 / (1.0 - m * 0.999) <= price
    ensures entry + 1.0 <= Notional(entry, m) && Notional(entry, m) * 0.999 <= entry - 1.0
  {
    DivideBack(1.0, m - 1.0);
    DivideBack(1.0, 1.0 - m * 0.999);
    NotionalNonNegative(entry - 1.0 / (m - 1.0), m - 1.0);
    NotionalNonNegative(entry - 1.0 / (1.0 - m * 0.999), 1.0 - m * 0.999);
    assert entry * (m - 1.0) == Notional(entry, m) - entry;
    assert entry * (1.0 - m * 0.999) == entry - Notional(entry, m) * 0.999;
  }

  lemma SellsAtTarget(cfg: Config, s: Session, c1: Candle, c2: Candle)
    requires s.log == [] && s.position == Some(NewPosition(cfg, c1, 1.0)) && 10.0 <= EntryPrice(c1)
    requires var value := Notional(EntryPrice(c1), TargetMultiplier(cfg));
             EntryPrice(c1) + 1.0 <= value && value * 0.999 <= EntryPrice(c1) - 1.0
    requires var target := NewPosition(cfg, c1, 1.0).target; c2 == Candle(target, target, target, target, 3.0, "2")
    ensures var t := Next(cfg, s, c2); |t.log| == 1 && Violation(t.log[0])
  {
    hide HalfUp2, HalfEven2, Cents, TargetMultiplier, Notional, Charges, Observe, SlippageRate, Portion;
    var p := NewPosition(cfg, c1, 1.0);
    StopIsBelow(p.entryPrice, StopMultiplier(cfg));
    assert Notional(p.entryPrice, 0.980) == p.entryPrice * 0.980 by { NotionalIs(p.entryPrice, 0.980); }
    StopIsBelow(p.entryPrice, 0.980);
    hide StopMultiplier;
    var q := Repaired(p);
    assert q.target == p.target && q.stop < q.target;
    HighestSlippage(p.target);
    assert ExitPrice(p.target, c2) < p.entryPrice;
  }

  lemma HighestSlippage(price: real)
    requires 0.0 <= price
    ensures SlippageAmount(price, Some(Abs(3.0))) >= price * 0.001 - 0.005
  {
    hide HalfUp2;
    assert SlippageRate(Some(Abs(3.0))) == 0.001;
    assert Portion(price, 0.001) == price * 0.001;
  }

  /** With a target only 0.05 percent above the threshold it happens: a take-profit exit at 1000.00 of a position
      entered at 1000.50. */
  lemma NarrowTargetViolates()
    ensures var cfg := Config(1000.0, 980.0, 1000.5, 1, false, 0.0, false, 0.0);
            var s := Run(cfg, 2000.0, [Candle(1000.0, 1000.0, 1000.0, 1000.0, 0.0, "1"),
                                       Candle(1000.6, 1001.0, 1000.0, 1000.8, 3.0, "2")]);
            && |s.log| == 1 && s.log[0].reason == TakeProfit
            && s.log[0].entryPrice == 1000.5 && s.log[0].exitPrice == 1000.0 && Violation(s.log[0])
  {
    hide Next;
    var cfg := Config(1000.0, 980.0, 1000.5, 1, false, 0.0, false, 0.0);
    var c1 := Candle(1000.0, 1000.0, 1000.0, 1000.0, 0.0, "1");
    var c2 := Candle(1000.6, 1001.0, 1000.0, 1000.8, 3.0, "2");
    TwoCandles(cfg, 2000.0, c1, c2);
    NarrowEntry(cfg, c1);
    NarrowExit(cfg, Next(cfg, Fresh(2000.0), c1), c2);
  }

  lemma NarrowEntry(cfg: Config, c: Candle)
    requires cfg == Config(1000.0, 980.0, 1000.5, 1, false, 0.0, false, 0.0)
    requires c == Candle(1000.0, 1000.0, 1000.0, 1000.0, 0.0, "1")
    ensures var s := Next(cfg, Fresh(2000.0), c);
            s.log == [] && s.position == Some(Position(1.0, 1000.5, 1000.0, 0.0, "1", 980.49, 1001.0))
  {
    hide Observe, HalfUp2, HalfEven2, Affordable;
    AmountsAreCents();
    NearestCent(1000.0 * 0.0005, 0.5);
    NearestCent(1000.5, 1000.5);
    assert SlippageRate(Some(Abs(c.change))) == 0.0005;
    assert SlippageAmount(1000.0, Some(Abs(c.change))) == 0.5;
    assert EntryPrice(c) == 1000.5;
    NearestCent(Notional(1000.5, 0.98), 980.49);
    NearestCent(Notional(1000.5, 1.0005), 1001.0);
    OneShare();
  }

  lemma OneShare()
    ensures Affordable(2000.0, 1000.5) == 1.0
  {}

  lemma AmountsAreCents()
    ensures Cents(0.5) && Cents(1000.5) && Cents(980.49) && Cents(1001.0) && Cents(1.0) && Cents(1000.0)
  {}

  lemma NarrowExit(cfg: Config, s: Session, c: Candle)
    requires s.log == [] && s.position == Some(Position(1.0, 1000.5, 1000.0, 0.0, "1", 980.49, 1001.0))
    requires c == Candle(1000.6, 1001.0, 1000.0, 1000.8, 3.0, "2")
    ensures var t := Next(cfg, s, c);
            && |t.log| == 1 && t.log[0].reason == TakeProfit
            && t.log[0].entryPrice == 1000.5 && t.log[0].exitPrice == 1000.0
  {
    hide Observe, HalfUp2, HalfEven2, Charges, AfterEntry, Notional;
    AmountsAreCents();
    NearestCent(1001.0 * 0.001, 1.0);
    NearestCent(1000.0, 1000.0);
    assert SlippageRate(Some(Abs(c.change))) == 0.001;
    assert SlippageAmount(1001.0, Some(Abs(c.change))) == 1.0;
    assert ExitPrice(1001.0, c) == 1000.0;
  }

  /** The shipped configuration leaves room: threshold 390.78, stop 382.20, target 403.65. */
  lemma ShippedConfigIsWide(cfg: Config)
    requires cfg.buyThreshold == 390.78 && cfg.stopLoss == 382.20 && cfg.target == 403.65
    ensures WideTarget(cfg)
  {}

  /** A candle that touches the stop of an open position never closes it at a profit on the price, even when it
      touches the target as well. */
  lemma TouchedStopNeverProfits(cfg: Config, s: Session, c: Candle)
    requires s.position.Some? && SoundPosition(s.position.value)
    requires c.low <= Repaired(s.position.value).stop
    ensures var t := Next(cfg, s, c);
            && t.position.None? && t.log[..|s.log|] == s.log && |t.log| == |s.log| + 1
            && t.log[|s.log|].exitPrice <= t.log[|s.log|].entryPrice
  {
    hide HalfEven2, Cents, ExitPrice, SafeTarget, Charges, Observe, Notional;
    var p := s.position.value;
    RepairKeepsSound(p);
    var q := Repaired(p);
    StopLossNotAboveEntry(q.entryPrice, q.stop, Min(q.stop, c.open), c);
  }
}
