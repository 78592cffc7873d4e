/** When the frozen session trades, and at what. */
module FrozenTrades {
  import opened Decimals
  import opened Market
  import opened TransactionCosts
  import opened Drawdown
  import opened FrozenEngine

  // ---- Entries ----------------------------------------------------------------------------------------------

  /** The candle passes the configured filters and closes at the threshold or above. */
  predicate Qualifies(cfg: Config, c: Candle) {
    && cfg.buyThreshold <= c.close
    && (cfg.useTrendFilter ==> cfg.trendThreshold <= c.change)
    && (cfg.useVolatilityFilter ==>
          if c.open > 0.0 then Abs(c.high - c.low) * 100.0 <= cfg.maxVolatility * c.open else 0.0 <= cfg.maxVolatility)
  }

  lemma RangeInPercent(range: real, open: real, limit: real)
    requires 0.0 < open
    ensures Abs(range / open * 100.0) <= limit <==> Abs(range) * 100.0 <= limit * open
  {
    var x := range / open;
    DivideBack(range, open);
    AbsScales(open, x);
    SignOfProduct(open, limit - Abs(x) * 100.0);
    assert open * (limit - Abs(x) * 100.0) == limit * open - open * Abs(x) * 100.0;
  }

  lemma AbsScales(q: real, x: real)
    requires 0.0 < q
    ensures Abs(q * x) == q * Abs(x)
  {
    SignOfProduct(q, x);
  }

  lemma SignalExactlyWhenQualifies(cfg: Config, c: Candle)
    ensures EntrySignal(cfg, c) <==> Qualifies(cfg, c)
  {
    if c.open > 0.0 { RangeInPercent(c.high - c.low, c.open, cfg.maxVolatility); }
  }

  lemma AffordsOneExactlyWhen(cash: real, price: real)
    requires price != 0.0
    ensures 1.0 <= Affordable(cash, price) <==> 0.0 < price <= cash || cash <= price < 0.0
  {
    var exact := cash / price;
    DivideBack(cash, price);
    assert 1.0 <= Affordable(cash, price) <==> 1.0 <= exact;
    if 0.0 < price {
      SignOfProduct(price, exact - 1.0);
    } else {
      SignOfProduct(-price, exact - 1.0);
      assert -price * (exact - 1.0) == price - cash;
    }
  }

  /** A flat session opens a position exactly on a candle that closes at the threshold or above, rises enough when the
      trend filter is on, stays within the range when the volatility filter is on, and costs no more a share than the
      cash there is (or is negative as the cash is); and then only if a share is configured. */
  lemma OpensExactlyWhen(cfg: Config, s: Session, c: Candle)
    requires s.position.None?
    ensures var price := EffectivePrice(c.close, Buy, Some(Abs(c.change)));
            Next(cfg, s, c).position.Some? <==>
              && cfg.buyThreshold <= c.close
              && (cfg.useTrendFilter ==> cfg.trendThreshold <= c.change)
              && (cfg.useVolatilityFilter ==>
                    if c.open > 0.0 then Abs(c.high - c.low) * 100.0 <= cfg.maxVolatility * c.open
                    else 0.0 <= cfg.maxVolatility)
              && 1 <= cfg.quantity && (0.0 < price <= s.cash || s.cash <= price < 0.0)
  {
    SignalExactlyWhenQualifies(cfg, c);
    hide EntrySignal, EffectivePrice, Affordable, NewPosition, Observe, Notional;
    var price := EffectivePrice(c.close, Buy, Some(Abs(c.change)));
    if price != 0.0 { AffordsOneExactlyWhen(s.cash, price); }
  }

  /** A candle raises, and leaves the session as it was, exactly when a flat session is to buy at a price that rounds to
      nothing. */
  lemma RaisesExactlyWhenPriceless(cfg: Config, s: Session, c: Candle)
    ensures Processed(cfg, s, c).Err?
            <==> s.position.None? && Qualifies(cfg, c) && EffectivePrice(c.close, Buy, Some(Abs(c.change))) == 0.0
    ensures Processed(cfg, s, c).Err? ==> Next(cfg, s, c) == s
  {
    SignalExactlyWhenQualifies(cfg, c);
    hide EntrySignal, Qualifies, EffectivePrice, Affordable, NewPosition, Observe, Notional;
  }

  /** The position opened is of as many shares as are configured, or else as the cash buys. */
  lemma OpensAsManyAsPossible(cfg: Config, s: Session, c: Candle)
    requires s.position.None? && 0.0 <= s.cash && Next(cfg, s, c).position.Some?
    ensures var p := Next(cfg, s, c).position.value;
            && p.entryPrice == EffectivePrice(c.close, Buy, Some(Abs(c.change))) && 0.0 < p.entryPrice
            && p.entryTime == c.timestamp && p.currentPrice == c.close && p.unrealizedPnl == 0.0
            && Whole(p.quantity) && 1.0 <= p.quantity <= cfg.quantity as real
            && Notional(p.quantity, p.entryPrice) <= s.cash
            && (p.quantity == cfg.quantity as real || s.cash < Notional(p.quantity + 1.0, p.entryPrice))
            && Next(cfg, s, c).cash == s.cash - Notional(p.quantity, p.entryPrice)
  {
    hide EntrySignal, EffectivePrice, StopMultiplier, TargetMultiplier, Observe, HalfEven2, Notional;
    EntryNeverOverspends(cfg, s, c);
    var price := EntryPrice(c);
    AffordsOneExactlyWhen(s.cash, price);
    MoreThanAffordable(s.cash, price);
  }

  lemma MoreThanAffordable(cash: real, price: real)
    requires 0.0 <= cash && price != 0.0
    ensures 0.0 < price ==> cash < Notional(Affordable(cash, price) + 1.0, price)
  {
    if 0.0 < price {
      var exact := cash / price;
      DivideBack(cash, price);
      assert 0.0 <= exact by { QuotientSign(cash, price); }
      assert exact < Affordable(cash, price) + 1.0;
      SignOfProduct(price, Affordable(cash, price) + 1.0 - exact);
    }
  }

  /** The levels keep the configured distances from the entry in proportion, to half a paisa; a distance that makes no
      sense is replaced by two percent down and three and a half up. */
  lemma LevelsKeepProportion(cfg: Config, c: Candle, quantity: real)
    ensures var p := NewPosition(cfg, c, quantity);
            var base := if cfg.buyThreshold > 0.0 then cfg.buyThreshold else 390.0;
            && (if base < cfg.target
                then Abs(Notional(p.target, base) - Notional(p.entryPrice, cfg.target)) <= 0.005 * base
                else Abs(p.target - p.entryPrice * 1.035) <= 0.005)
            && (if 0.0 < cfg.stopLoss < base
                then Abs(Notional(p.stop, base) - Notional(p.entryPrice, cfg.stopLoss)) <= 0.005 * base
                else Abs(p.stop - p.entryPrice * 0.980) <= 0.005)
  {
    Multipliers(cfg);
    hide HalfEven2, EntryPrice, TargetMultiplier, StopMultiplier, Notional;
    var e, base := EntryPrice(c), BaseReference(cfg);
    InProportion(e, cfg.target, base);
    InProportion(e, cfg.stopLoss, base);
    NotionalIs(e, 1.035);
    NotionalIs(e, 0.980);
  }

  lemma Multipliers(cfg: Config)
    ensures var base := BaseReference(cfg);
            && 0.0 < base
            && TargetMultiplier(cfg) == (if base < cfg.target then cfg.target / base else 1.035)
            && StopMultiplier(cfg) == (if 0.0 < cfg.stopLoss < base then cfg.stopLoss / base else 0.980)
  {
    RatioToOne(cfg.target, BaseReference(cfg));
    RatioToOne(cfg.stopLoss, BaseReference(cfg));
  }

  lemma RatioToOne(level: real, base: real)
    requires 0.0 < base
    ensures level / base > 1.0 <==> level > base
    ensures level / base >= 1.0 <==> level >= base
  {
    DivideBack(level, base);
    SignOfProduct(base, level / base - 1.0);
  }

  lemma InProportion(entry: real, level: real, base: real)
    requires 0.0 < base
    ensures var rounded := HalfEven2(Notional(entry, level / base));
            Abs(Notional(rounded, base) - Notional(entry, level)) <= 0.005 * base
  {
    ScalesBack(entry, level, base);
    hide HalfEven2, Notional;
    var exact := Notional(entry, level / base);
    var rounded := HalfEven2(exact);
    NotionalSplits(rounded, exact, base);
    AbsOfNotional(rounded - exact, base, 0.005, base);
    NotionalIs(0.005, base);
  }

  lemma ScalesBack(entry: real, level: real, base: real)
    requires 0.0 < base
    ensures Notional(Notional(entry, level / base), base) == Notional(entry, level)
  {
    var ratio := level / base;
    DivideBack(level, base);
    assert entry * ratio * base == entry * (base * ratio);
  }

  // ---- Exits ------------------------------------------------------------------------------------------------

  /** Re-deriving leaves a level alone that is on its side of the entry. */
  lemma RepairsOnlyWrongLevels(p: Position)
    ensures Repaired(p) == p.(target := if p.entryPrice < p.target then p.target else HalfEven2(p.entryPrice * 1.035),
                              stop := if p.stop < p.entryPrice then p.stop else HalfEven2(p.entryPrice * 0.980))
  {
    hide HalfEven2;
  }

  /** An open position is closed exactly by a candle that reaches one of its levels; the stop has precedence, and a gap
      through a level is executed at the open. Otherwise nothing but its mark changes. */
  lemma ClosesExactlyWhen(cfg: Config, s: Session, c: Candle)
    requires s.position.Some?
    ensures var p, t := Repaired(s.position.value), Next(cfg, s, c);
            && (t.position.None? <==> c.low <= p.stop || p.target <= c.high)
            && (c.low <= p.stop ==>
                  Logs(s, t, p, c, StopLoss, if c.open < p.stop then c.open else p.stop))
            && (p.stop < c.low && p.target <= c.high ==>
                  Logs(s, t, p, c, TakeProfit, if p.target < c.open then c.open else p.target))
            && (p.stop < c.low && c.high < p.target ==>
                  t.log == s.log && t.cash == s.cash
                  && t.position == Some(p.(currentPrice := c.close,
                                           unrealizedPnl := Notional(p.quantity, c.close - p.entryPrice))))
  {
    hide Repaired, EffectivePrice, Charges, Notional, Observe;
  }

  /** The trade that is logged, and what it brings in. */
  predicate Logs(s: Session, t: Session, p: Position, c: Candle, reason: Reason, raw: real) {
    && |t.log| == |s.log| + 1 && t.log[..|s.log|] == s.log
    && var trade := t.log[|s.log|];
       && trade.reason == reason && trade.exitPrice == EffectivePrice(raw, Sell, Some(Abs(c.change)))
       && trade.exitTime == c.timestamp && trade.entryTime == p.entryTime
       && trade.quantity == p.quantity && trade.entryPrice == p.entryPrice
       && AddsUp(trade)
       && t.cash == s.cash + Notional(p.quantity, p.entryPrice) + trade.netPnl
  }

  /** A trade's figures: the gain on the price, the delivery charges of both sides, and the difference. */
  predicate AddsUp(t: Trade) {
    && t.grossPnl == Notional(t.quantity, t.exitPrice - t.entryPrice)
    && t.totalCharges == Charges(Notional(t.quantity, t.entryPrice), Buy, Delivery)
                         + Charges(Notional(t.quantity, t.exitPrice), Sell, Delivery)
    && t.netPnl == t.grossPnl - t.totalCharges
  }

  // ---- Runs -------------------------------------------------------------------------------------------------

  /** Some candle of the run qualified and was bought at its effective close. */
  predicate EnteredOn(cfg: Config, candles: seq<Candle>, price: real, time: string) {
    exists c :: c in candles && Qualifies(cfg, c) && c.timestamp == time
                && EffectivePrice(c.close, Buy, Some(Abs(c.change))) == price
  }

  ghost predicate Justified(cfg: Config, candles: seq<Candle>, s: Session) {
    && (s.position.Some? ==> EnteredOn(cfg, candles, s.position.value.entryPrice, s.position.value.entryTime))
    && (forall t :: t in s.log ==> EnteredOn(cfg, candles, t.entryPrice, t.entryTime) && AddsUp(t))
  }

  lemma EnteredBefore(cfg: Config, candles: seq<Candle>, c: Candle, price: real, time: string)
    ensures EnteredOn(cfg, candles, price, time) ==> EnteredOn(cfg, candles + [c], price, time)
    ensures Qualifies(cfg, c) && c.timestamp == time && EffectivePrice(c.close, Buy, Some(Abs(c.change))) == price
            ==> EnteredOn(cfg, candles + [c], price, time)
  {
    hide Qualifies, EffectivePrice;
    assert c in candles + [c];
    assert forall x :: x in candles ==> x in candles + [c];
  }

  lemma CandleStaysJustified(cfg: Config, candles: seq<Candle>, s: Session, c: Candle)
    requires Justified(cfg, candles, s)
    ensures Justified(cfg, candles + [c], Next(cfg, s, c))
  {
    SignalExactlyWhenQualifies(cfg, c);
    hide EntrySignal, Qualifies, EffectivePrice, Charges, Notional, Observe, Affordable, EnteredOn, RawExit;
    var t := Next(cfg, s, c);
    forall x | x in s.log ensures EnteredOn(cfg, candles + [c], x.entryPrice, x.entryTime) {
      EnteredBefore(cfg, candles, c, x.entryPrice, x.entryTime);
    }
    match s.position
    case Some(p) =>
      EnteredBefore(cfg, candles, c, p.entryPrice, p.entryTime);
    case None =>
      if t.position.Some? {
        EnteredBefore(cfg, candles, c, t.position.value.entryPrice, t.position.value.entryTime);
      }
  }

  /** In every run, every logged trade and the open position were entered on a qualifying candle at its effective close,
      and every trade's figures add up. */
  lemma {:induction false} RunIsJustified(cfg: Config, capital: real, candles: seq<Candle>)
    ensures Justified(cfg, candles, Run(cfg, capital, candles))
  {
    hide Next, EnteredOn, AddsUp;
    if candles != [] {
      var last := |candles| - 1;
      RunIsJustified(cfg, capital, candles[..last]);
      CandleStaysJustified(cfg, candles[..last], Run(cfg, capital, candles[..last]), candles[last]);
      assert candles[..last] + [candles[last]] == candles;
    }
  }

  /** The shipped configuration buys a rise of 1.2 percent to 396 and does not buy the same candle falling by 3. */
  lemma ShippedConfigBuysRises(cfg: Config, s: Session)
    requires cfg == Config(390.78, 382.20, 403.65, 50, true, 0.2, true, 3.5)
    requires s.position.None? && 1000.0 <= s.cash
    ensures Next(cfg, s, Candle(395.0, 397.0, 394.0, 396.0, 1.2, "1")).position.Some?
    ensures Next(cfg, s, Candle(395.0, 397.0, 394.0, 396.0, -3.0, "1")).position.None?
  {
    hide Next, HalfUp2, SlippageAmount;
    SlippageBounds(396.0, Some(Abs(1.2)));
    var raw := 396.0 + SlippageAmount(396.0, Some(Abs(1.2)));
    RoundedBounds(raw, raw);
    OpensExactlyWhen(cfg, s, Candle(395.0, 397.0, 394.0, 396.0, 1.2, "1"));
    OpensExactlyWhen(cfg, s, Candle(395.0, 397.0, 394.0, 396.0, -3.0, "1"));
    HalfUp2Monotone(1.0, raw);
    assert Cents(1.0) by { WholeBy(1.0 * 100.0, 100); }
  }
}
