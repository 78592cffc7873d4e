/** The drawdown the frozen session reports. */
module FrozenDrawdown {
  import opened Decimals
  import opened Market
  import opened TransactionCosts
  import opened Drawdown
  import opened FrozenEngine

  /** The net asset values reported, the initial capital first. A candle that raises reports none. */
  function Navs(cfg: Config, capital: real, candles: seq<Candle>): (navs: seq<real>)
    ensures navs != []
  {
    if candles == [] then [capital]
    else
      var last := |candles| - 1;
      var before := Run(cfg, capital, candles[..last]);
      Navs(cfg, capital, candles[..last])
      + (if Processed(cfg, before, candles[last]).Ok? then [Next(cfg, before, candles[last]).nav] else [])
  }

  lemma NextObserves(cfg: Config, s: Session, c: Candle)
    ensures var t := Next(cfg, s, c);
            t.peak == if Processed(cfg, s, c).Ok? then Observe(s.peak, t.nav) else s.peak
  {
    hide Observe, RawExit, ClosedTrade, Repaired, EntrySignal, Affordable, NewPosition, EntryPrice, Notional;
  }

  lemma {:induction false} SessionPeakIsOnePass(cfg: Config, capital: real, candles: seq<Candle>)
    ensures Run(cfg, capital, candles).peak == OnePass(Navs(cfg, capital, candles))
  {
    hide AfterExit, AfterEntry, Observe;
    if candles != [] {
      var last := |candles| - 1;
      SessionPeakIsOnePass(cfg, capital, candles[..last]);
      var before := Run(cfg, capital, candles[..last]);
      var navs := Navs(cfg, capital, candles[..last]);
      var all := Navs(cfg, capital, candles);
      NextObserves(cfg, before, candles[last]);
      if Processed(cfg, before, candles[last]).Ok? {
        assert all[..|navs|] == navs;
      } else {
        assert all == navs;
      }
    }
  }

  /** While the net asset value is never negative, the session's drawdown is the largest loss in percent between any
      two of the values it has reported. */
  lemma DrawdownIsWorstPair(cfg: Config, capital: real, candles: seq<Candle>) returns (from: nat, to: nat)
    requires NonNegative(Navs(cfg, capital, candles))
    ensures var navs, worst := Navs(cfg, capital, candles), Run(cfg, capital, candles).peak.worst;
            && (forall i, j :: 0 <= i <= j < |navs| ==> Loss(navs[i], navs[j]) <= worst)
            && from <= to < |navs| && Loss(navs[from], navs[to]) == worst
  {
    SessionPeakIsOnePass(cfg, capital, candles);
    hide Navs, Run, OnePass;
    from, to := OnePassIsWorstPair(Navs(cfg, capital, candles));
  }

  // ---- Candles that keep the value from going negative ------------------------------------------------------

  /** No price of the candle is below the floor, and it closes within nine times the floor. */
  predicate Contained(floor: real, c: Candle) {
    floor <= c.open && floor <= c.low && floor <= c.close <= 9.0 * floor
  }

  /** Cash is there, and the entry was at no more than such a close with its slippage. */
  predicate Sheltered(floor: real, s: Session) {
    && 0.0 <= s.cash
    && (s.position.Some? ==>
          var p := s.position.value;
          0.0 <= p.quantity && 0.0 <= p.entryPrice <= 9.009 * floor + 0.01)
  }

  /** A sale at a tenth of the purchase still pays the charges of both. */
  lemma SalePaysCharges(quantity: real, entry: real, exit: real)
    requires 0.0 <= quantity && 0.0 <= entry <= 10.0 * exit
    ensures Charges(Notional(quantity, entry), Buy, Delivery) + Charges(Notional(quantity, exit), Sell, Delivery)
            <= Notional(quantity, exit)
  {
    hide Charges, HalfUp2, ExactCharges;
    var paid, sold := Notional(quantity, entry), Notional(quantity, exit);
    TenTimes(quantity, entry, exit);
    hide Notional;
    ChargesBelowValue(sold, Sell, Delivery, NSE);
    if paid < 4.99 {
      SmallTradesAreFree(paid, Buy, Delivery, NSE);
    } else {
      ChargesNearExact(paid, Buy, Delivery, NSE);
      ExactBelowQuarterPercent(HalfUp2(paid), Buy, Delivery, NSE);
      ChargesNearExact(sold, Sell, Delivery, NSE);
      ExactBelowQuarterPercent(HalfUp2(sold), Sell, Delivery, NSE);
    }
  }

  lemma TenTimes(quantity: real, entry: real, exit: real)
    requires 0.0 <= quantity && 0.0 <= entry <= 10.0 * exit
    ensures 0.0 <= Notional(quantity, entry) <= 10.0 * Notional(quantity, exit)
  {
    NotionalNonNegative(quantity, entry);
    NotionalNonNegative(quantity, 10.0 * exit - entry);
    assert Notional(quantity, 10.0 * exit - entry) == 10.0 * Notional(quantity, exit) - Notional(quantity, entry);
  }

  lemma ContainedExit(floor: real, p: Position, c: Candle)
    requires 0.12 <= floor && Contained(floor, c) && RawExit(p, c).Some?
    ensures 9.009 * floor + 0.01 <= 10.0 * ExitPrice(RawExit(p, c).value.1, c)
  {
    hide HalfUp2, SlippageAmount;
    SlippageBounds(RawExit(p, c).value.1, Some(Abs(c.change)));
  }

  lemma ContainedEntry(floor: real, c: Candle)
    requires 0.12 <= floor && Contained(floor, c)
    ensures 0.0 <= EntryPrice(c) <= 9.009 * floor + 0.01
  {
    hide HalfUp2, SlippageAmount;
    SlippageBounds(c.close, Some(Abs(c.change)));
    var raw := c.close + SlippageAmount(c.close, Some(Abs(c.change)));
    RoundedBounds(raw, raw);
  }

  lemma ContainedCandleShelters(floor: real, cfg: Config, s: Session, c: Candle)
    requires 0.12 <= floor && Contained(floor, c) && Sheltered(floor, s)
    ensures Sheltered(floor, Next(cfg, s, c))
    ensures Processed(cfg, s, c).Ok? ==> 0.0 <= Next(cfg, s, c).nav
  {
    match s.position
    case Some(p) => ContainedCandleEvaluates(floor, cfg, s, c);
    case None => ContainedCandleEnters(floor, cfg, s, c);
  }

  lemma ContainedCandleEvaluates(floor: real, cfg: Config, s: Session, c: Candle)
    requires 0.12 <= floor && Contained(floor, c) && Sheltered(floor, s) && s.position.Some?
    ensures Sheltered(floor, Next(cfg, s, c)) && 0.0 <= Next(cfg, s, c).nav
  {
    hide Observe, HalfEven2, Charges, ExitPrice, Notional, RawExit;
    var q := Repaired(s.position.value);
    match RawExit(q, c)
    case Some((reason, raw)) =>
      ContainedExit(floor, q, c);
      var exit := ExitPrice(raw, c);
      SalePaysCharges(q.quantity, q.entryPrice, exit);
      NotionalOfGain(q.quantity, exit, q.entryPrice);
    case None =>
      HeldPositionIsMarkedToMarket(cfg, s, c);
      NotionalNonNegative(q.quantity, c.close);
  }

  lemma ContainedCandleEnters(floor: real, cfg: Config, s: Session, c: Candle)
    requires 0.12 <= floor && Contained(floor, c) && Sheltered(floor, s) && s.position.None?
    ensures Sheltered(floor, Next(cfg, s, c))
    ensures Processed(cfg, s, c).Ok? ==> 0.0 <= Next(cfg, s, c).nav
  {
    ContainedEntry(floor, c);
    hide Observe, EntryPrice, EntrySignal, Affordable, NewPosition, Notional;
    if AfterEntry(cfg, s, c).Ok? {
      EntryNeverOverspends(cfg, s, c);
      EntryIsAtEntryPrice(cfg, s, c);
      NotionalNonNegative(1.0, EntryPrice(c));
      var t := AfterEntry(cfg, s, c).value;
      if t.position.Some? { NotionalNonNegative(t.position.value.quantity, EntryPrice(c)); }
    }
  }

  lemma EntryIsAtEntryPrice(cfg: Config, s: Session, c: Candle)
    requires s.position.None? && AfterEntry(cfg, s, c).Ok?
    ensures var t := AfterEntry(cfg, s, c).value;
            t.position.Some? ==> t.position.value.entryPrice == EntryPrice(c) && t.position.value.unrealizedPnl == 0.0
  {
    hide EntryPrice, EntrySignal, Affordable;
  }

  lemma {:induction false} ContainedRunShelters(floor: real, cfg: Config, capital: real, candles: seq<Candle>)
    requires 0.12 <= floor && 0.0 <= capital && forall c :: c in candles ==> Contained(floor, c)
    ensures Sheltered(floor, Run(cfg, capital, candles)) && NonNegative(Navs(cfg, capital, candles))
  {
    hide Contained, Sheltered, Next, Processed;
    if candles == [] {
      assert Sheltered(floor, Fresh(capital)) by { FreshIsSheltered(floor, capital); }
    } else {
      var last := |candles| - 1;
      ContainedRunShelters(floor, cfg, capital, candles[..last]);
      ContainedCandleShelters(floor, cfg, Run(cfg, capital, candles[..last]), candles[last]);
    }
  }

  lemma FreshIsSheltered(floor: real, capital: real)
    requires 0.0 <= capital
    ensures Sheltered(floor, Fresh(capital))
  {}

  /** For every configuration: while the candles keep to a range of one to nine, from 12 paise up, the drawdown
      reported is the largest loss between any two of the reported values. */
  lemma ContainedDrawdownIsWorstPair(floor: real, cfg: Config, capital: real, candles: seq<Candle>)
    returns (from: nat, to: nat)
    requires 0.12 <= floor && 0.0 <= capital && forall c :: c in candles ==> Contained(floor, c)
    ensures var navs, worst := Navs(cfg, capital, candles), Run(cfg, capital, candles).peak.worst;
            && (forall i, j :: 0 <= i <= j < |navs| ==> Loss(navs[i], navs[j]) <= worst)
            && from <= to < |navs| && Loss(navs[from], navs[to]) == worst
  {
    hide Run, Navs, Contained, Sheltered;
    ContainedRunShelters(floor, cfg, capital, candles);
    from, to := DrawdownIsWorstPair(cfg, capital, candles);
  }

  // ---- A session that understates it ------------------------------------------------------------------------

  const Falling := Config(1000.0, 980.0, 1035.0, 1, false, 0.0, false, 0.0)

  function Flat(price: real, timestamp: string): Candle { Candle(price, price, price, price, 0.0, timestamp) }

  const Bought := Position(1.0, 1000.5, 1000.0, 0.0, "1", 980.49, 1035.52)

  /** One share bought for all the cash at 1000.50, held at 990, then stopped out by a gap to one paisa: the charges of
      1.19 leave -1.18. The session reports the loss from 1000.50, although the loss from 990 is larger. */
  lemma FallingSessionUnderstates()
    ensures var candles := [Flat(1000.0, "1"), Flat(990.0, "2"), Flat(0.01, "3")];
            var navs := Navs(Falling, 1000.5, candles);
            && navs == [1000.5, 1000.5, 990.0, -1.18]
            && Run(Falling, 1000.5, candles).peak.worst < Loss(navs[2], navs[3])
  {
    hide Next, Processed, Run, Navs, Falling, Flat;
    var c1, c2, c3 := Flat(1000.0, "1"), Flat(990.0, "2"), Flat(0.01, "3");
    var candles := [c1, c2, c3];
    FallingEntry();
    var s1 := Next(Falling, Fresh(1000.5), c1);
    FallingHold(s1);
    var s2 := Next(Falling, s1, c2);
    FallingExit(s2);
    ThreeNavs(Falling, 1000.5, c1, c2, c3);
    SessionPeakIsOnePass(Falling, 1000.5, candles);
    FallingFigures();
  }

  lemma FallingFigures()
    ensures OnePass([1000.5, 1000.5, 990.0, -1.18]).worst < Loss(990.0, -1.18)
  {
    var navs := [1000.5, 1000.5, 990.0, -1.18];
    assert navs[..3] == [1000.5, 1000.5, 990.0];
    assert navs[..3][..2] == [1000.5, 1000.5] && navs[..3][..2][..1] == [1000.5];
    assert OnePass(navs[..3][..2]) == Observe(OnePass(navs[..3][..2][..1]), 1000.5);
    assert OnePass(navs[..3]) == Observe(OnePass(navs[..3][..2]), 990.0);
  }

  lemma ThreeNavs(cfg: Config, capital: real, c1: Candle, c2: Candle, c3: Candle)
    requires Processed(cfg, Fresh(capital), c1).Ok?
    requires Processed(cfg, Next(cfg, Fresh(capital), c1), c2).Ok?
    requires Processed(cfg, Next(cfg, Next(cfg, Fresh(capital), c1), c2), c3).Ok?
    ensures var s1 := Next(cfg, Fresh(capital), c1);
            var s2 := Next(cfg, s1, c2);
            Navs(cfg, capital, [c1, c2, c3]) == [capital, s1.nav, s2.nav, Next(cfg, s2, c3).nav]
  {
    hide Next, Processed, Fresh;
    OneCandle(cfg, capital, c1);
    TwoCandles(cfg, capital, c1, c2);
    assert [c1, c2, c3][..2] == [c1, c2] && [c1, c2][..1] == [c1] && [c1][..0] == [];
    assert Navs(cfg, capital, []) == [capital];
    assert Navs(cfg, capital, [c1]) == [capital, Next(cfg, Fresh(capital), c1).nav];
    assert Navs(cfg, capital, [c1, c2])
           == Navs(cfg, capital, [c1]) + [Next(cfg, Next(cfg, Fresh(capital), c1), c2).nav];
  }

  lemma Paise(x: real, n: int)
    requires x * 100.0 == n as real
    ensures Cents(x)
  {}

  lemma FallingEntry()
    ensures var c := Flat(1000.0, "1");
            var s := Next(Falling, Fresh(1000.5), c);
            && Processed(Falling, Fresh(1000.5), c).Ok?
            && s.nav == 1000.5 && s.cash == 0.0 && s.position == Some(Bought)
  {
    FallingPrices();
    hide EntryPrice, NewPosition, Next, Processed;
    EntersOneShare(Falling, 1000.0);
    assert Still(Falling, 1000.0) == Flat(1000.0, "1");
  }

  lemma FallingPrices()
    ensures EntryPrice(Flat(1000.0, "1")) == 1000.5
    ensures NewPosition(Falling, Flat(1000.0, "1"), 1.0) == Bought
  {
    hide HalfUp2, HalfEven2;
    Paise(0.5, 50);
    Paise(1000.5, 100050);
    Paise(980.49, 98049);
    Paise(1035.52, 103552);
    NearestCent(1000.0 * 0.0005, 0.5);
    NearestCent(1000.5, 1000.5);
    assert SlippageRate(Some(Abs(0.0))) == 0.0005;
    assert SlippageAmount(1000.0, Some(Abs(0.0))) == 0.5;
    NearestCent(Notional(1000.5, 0.98), 980.49);
    NearestCent(Notional(1000.5, 1.035), 1035.52);
  }

  lemma FallingHold(s: Session)
    requires s.cash == 0.0 && s.position == Some(Bought)
    ensures var c := Flat(990.0, "2");
            var t := Next(Falling, s, c);
            && Processed(Falling, s, c).Ok?
            && t.nav == 990.0 && t.cash == 0.0
            && t.position == Some(Bought.(currentPrice := 990.0, unrealizedPnl := -10.5))
  {
    hide Observe, HalfEven2;
  }

  lemma FallingExit(s: Session)
    requires s.cash == 0.0 && s.position == Some(Bought.(currentPrice := 990.0, unrealizedPnl := -10.5))
    ensures var c := Flat(0.01, "3");
            Processed(Falling, s, c).Ok? && Next(Falling, s, c).nav == -1.18
  {
    hide Observe, HalfEven2, Charges, SlippageAmount, HalfUp2;
    SlippageBounds(0.01, Some(Abs(0.0)));
    Paise(0.01, 1);
    NearestCent(0.01, 0.01);
    assert ExitPrice(0.01, Flat(0.01, "3")) == 0.01;
    SmallTradesAreFree(0.01, Sell, Delivery, NSE);
    ChargesOfTheShare();
    NotionalIs(1.0, 1000.5);
    NotionalIs(1.0, 0.01);
  }

  lemma ChargesOfTheShare()
    ensures Charges(1000.5, Buy, Delivery) == 1.19
  {
    hide HalfUp2, Cents;
    Paise(1000.5, 100050);
    Paise(0.0, 0);
    Paise(1.0, 100);
    Paise(0.03, 3);
    Paise(0.15, 15);
    Paise(0.01, 1);
    Paise(1.19, 119);
    NearestCent(1000.5, 1000.5);
    NearestCent(0.0, 0.0);
    NearestCent(1000.5 * 0.0010, 1.0);
    NearestCent(1000.5 * 0.0000297, 0.03);
    NearestCent(1000.5 * 0.000001, 0.0);
    NearestCent(1000.5 * 0.00015, 0.15);
    NearestCent(0.03 * 0.18, 0.01);
    NearestCent(1.19, 1.19);
    var c := TransactionCosts.TransactionCosts(1000.5, Buy, Delivery, NSE);
    assert c.brokerage == 0.0 && c.stt == 1.0 && c.exchangeCharges == 0.03;
    assert c.sebiCharges == 0.0 && c.stampDuty == 0.15 && c.gst == 0.01;
  }
}
