/** The levels the frozen session promises: a target strictly above and a stop strictly below every entry. */
module FrozenLevels {
  import opened Decimals
  import opened Market
  import opened TransactionCosts
  import opened Drawdown
  import opened FrozenEngine
  import opened FrozenExits

  predicate Strict(p: Position) { p.stop < p.entryPrice < p.target }

  /** The position a candle finds open is evaluated at its re-derived levels. */
  predicate EvaluatesStrictly(s: Session) {
    s.position.Some? ==> Strict(Repaired(s.position.value))
  }

  /** Two percent below and three and a half above survive rounding from 25 and from 15 paise on. */
  lemma RederivedLevels(entry: real)
    requires Cents(entry) && 0.01 <= entry
    ensures HalfEven2(entry * 0.980) < entry <==> 0.25 <= entry
    ensures entry < HalfEven2(entry * 1.035) <==> 0.15 <= entry
  {
    hide HalfEven2, Cents;
    if 0.25 < entry {
    } else if 0.245 < entry {
      SameCent(entry, 0.25);
      TieAtQuarter();
    } else {
      NearestCent(entry * 0.980, entry);
    }
    if 0.145 < entry {
      SameCentOrMore(entry);
    } else {
      NearestCent(entry * 1.035, entry);
    }
  }

  lemma TieAtQuarter()
    ensures Cents(0.25) && HalfEven2(0.25 * 0.980) == 0.24
  {
    assert RoundHalfEven(0.25 * 0.980 * 100.0) == 24;
  }

  lemma SameCentOrMore(entry: real)
    requires Cents(entry) && 0.145 < entry
    ensures 0.15 <= entry
  {
    if entry < 0.15 {
      assert Cents(0.15) by { WholeBy(0.15 * 100.0, 15); }
      SameCent(entry, 0.15);
    }
  }

  /** A position is evaluated strictly between its levels if and only if each level is on its side already or the
      entry price is high enough for re-deriving it. */
  lemma RepairedIsStrictExactlyWhen(p: Position)
    requires Cents(p.entryPrice) && 0.01 <= p.entryPrice
    ensures Strict(Repaired(p))
            <==> (p.stop < p.entryPrice || 0.25 <= p.entryPrice) && (p.entryPrice < p.target || 0.15 <= p.entryPrice)
  {
    hide HalfEven2, Cents;
    RederivedLevels(p.entryPrice);
  }

  /** What the configured levels, or failing them the re-derived ones, come to at an entry price. */
  predicate StrictAt(cfg: Config, entry: real) {
    && (HalfEven2(Notional(entry, StopMultiplier(cfg))) < entry || 0.25 <= entry)
    && (entry < HalfEven2(Notional(entry, TargetMultiplier(cfg))) || 0.15 <= entry)
  }

  /** The lowest price a position can be entered at. */
  function LowestEntry(cfg: Config): real { HalfUp2(Max(cfg.buyThreshold, 0.01)) }

  /** A level that survives rounding at one price survives it at every higher one. */
  lemma StrictAtGrows(cfg: Config, low: real, entry: real)
    requires Cents(low) && Cents(entry) && 0.01 <= low <= entry && StrictAt(cfg, low)
    ensures StrictAt(cfg, entry)
  {
    hide HalfEven2, Cents, StopMultiplier, TargetMultiplier;
    if low < entry {
      assert 1.0 < TargetMultiplier(cfg) by { MultiplierAboveOne(cfg); }
      assert StopMultiplier(cfg) < 1.0 by { MultiplierBelowOne(cfg); }
      if entry < 0.25 { StopGrows(low, entry, StopMultiplier(cfg)); }
      if entry < 0.15 { TargetGrows(low, entry, TargetMultiplier(cfg)); }
    }
  }

  lemma MultiplierBelowOne(cfg: Config)
    ensures StopMultiplier(cfg) < 1.0
  {}

  lemma StopGrows(low: real, entry: real, m: real)
    requires Cents(low) && 0.0 < low < entry && m < 1.0 && HalfEven2(Notional(low, m)) < low
    ensures HalfEven2(Notional(entry, m)) < entry
  {
    hide HalfEven2, Cents;
    WholePaisaApart(HalfEven2(Notional(low, m)), low);
    NotionalOfGain(low, 1.0, m);
    NotionalIs(low, 1.0);
    NotionalOfGain(entry, 1.0, m);
    NotionalIs(entry, 1.0);
    NotionalSplits(entry, low, 1.0 - m);
    SignOfProduct(entry - low, 1.0 - m);
    NotionalIs(entry - low, 1.0 - m);
  }

  lemma TargetGrows(low: real, entry: real, m: real)
    requires Cents(low) && 0.0 < low < entry && 1.0 < m && low < HalfEven2(Notional(low, m))
    ensures entry < HalfEven2(Notional(entry, m))
  {
    hide HalfEven2, Cents;
    WholePaisaApart(low, HalfEven2(Notional(low, m)));
    NotionalOfGain(low, m, 1.0);
    NotionalIs(low, 1.0);
    NotionalOfGain(entry, m, 1.0);
    NotionalIs(entry, 1.0);
    NotionalSplits(entry, low, m - 1.0);
    SignOfProduct(entry - low, m - 1.0);
    NotionalIs(entry - low, m - 1.0);
  }

  lemma WholePaisaApart(x: real, y: real)
    requires Cents(x) && Cents(y) && x < y
    ensures x + 0.01 <= y
  {
    if y < x + 0.01 { SameCent(x, y); }
  }

  // ---- Runs -------------------------------------------------------------------------------------------------

  /** No close that reaches the threshold rounds to a negative price, and the lowest entry has strict levels. */
  predicate StrictConfig(cfg: Config) {
    -0.005 < cfg.buyThreshold && StrictAt(cfg, LowestEntry(cfg))
  }

  lemma EntryIsStrict(cfg: Config, c: Candle, quantity: real)
    requires StrictConfig(cfg) && EntrySignal(cfg, c) && EntryPrice(c) != 0.0
    ensures var p := NewPosition(cfg, c, quantity);
            Cents(p.entryPrice) && 0.01 <= p.entryPrice && Strict(Repaired(p))
  {
    hide HalfEven2, HalfUp2, Cents, StopMultiplier, TargetMultiplier;
    EntryIsPositive(cfg, c);
    LowestEntryIsPositive(cfg);
    HalfUp2Monotone(Max(cfg.buyThreshold, 0.01), Max(c.close, 0.01));
    OneCent();
    StrictAtGrows(cfg, LowestEntry(cfg), EntryPrice(c));
    RepairedIsStrictExactlyWhen(NewPosition(cfg, c, quantity));
  }

  lemma LowestEntryIsPositive(cfg: Config)
    ensures Cents(LowestEntry(cfg)) && 0.01 <= LowestEntry(cfg)
  {
    hide HalfUp2;
    OneCent();
    HalfUp2Monotone(0.01, Max(cfg.buyThreshold, 0.01));
  }

  lemma CandleKeepsStrict(cfg: Config, s: Session, c: Candle)
    requires StrictConfig(cfg) && EvaluatesStrictly(s)
    ensures EvaluatesStrictly(Next(cfg, s, c))
  {
    hide HalfEven2, Cents, EntryPrice, Notional, ClosedTrade, EntrySignal, Observe, NewPosition, Affordable;
    hide StrictConfig;
    if s.position.None? && EntrySignal(cfg, c) && EntryPrice(c) != 0.0 {
      EntryIsStrict(cfg, c, Min(cfg.quantity as real, Affordable(s.cash, EntryPrice(c))));
    }
  }

  lemma {:induction false} RunIsStrict(cfg: Config, capital: real, candles: seq<Candle>)
    requires StrictConfig(cfg)
    ensures EvaluatesStrictly(Run(cfg, capital, candles))
  {
    hide Next, StrictConfig, EvaluatesStrictly;
    if candles == [] {
      assert EvaluatesStrictly(Fresh(capital)) by { FreshIsStrict(capital); }
    } else {
      RunIsStrict(cfg, capital, candles[..|candles| - 1]);
      CandleKeepsStrict(cfg, Run(cfg, capital, candles[..|candles| - 1]), candles[|candles| - 1]);
    }
  }

  lemma FreshIsStrict(capital: real)
    ensures EvaluatesStrictly(Fresh(capital))
  {}

  /** Whatever the capital and the candles, every open position is evaluated strictly between its levels if and only
      if the configuration never trades or its lowest possible entry has strict levels. */
  lemma StrictExactlyWhen(cfg: Config)
    ensures (forall capital, candles :: EvaluatesStrictly(Run(cfg, capital, candles)))
            <==> (Tradable(cfg) ==> StrictConfig(cfg))
  {
    hide Run, StrictConfig, Tradable, EvaluatesStrictly;
    if !Tradable(cfg) {
      forall capital, candles ensures EvaluatesStrictly(Run(cfg, capital, candles)) {
        NeverTrades(cfg, capital, candles);
        NothingOpenIsStrict(Run(cfg, capital, candles));
      }
    } else if StrictConfig(cfg) {
      forall capital, candles ensures EvaluatesStrictly(Run(cfg, capital, candles)) {
        RunIsStrict(cfg, capital, candles);
      }
    } else {
      var capital, candles := LooseConfigFails(cfg);
      assert !EvaluatesStrictly(Run(cfg, capital, candles));
    }
  }

  lemma NothingOpenIsStrict(s: Session)
    requires s.position == None
    ensures EvaluatesStrictly(s)
  {}

  /** One still candle at the lowest entry is enough. */
  lemma LooseConfigFails(cfg: Config) returns (capital: real, candles: seq<Candle>)
    requires Tradable(cfg) && !StrictConfig(cfg)
    ensures !EvaluatesStrictly(Run(cfg, capital, candles))
  {
    hide Next, Run, Tradable, EntryPrice, Repaired, HalfEven2, HalfUp2, Cents, StrictAt;
    var price := if cfg.buyThreshold <= -0.005 then cfg.buyThreshold else Max(cfg.buyThreshold, 0.01);
    var c := Still(cfg, price);
    capital, candles := EntryPrice(c), [c];
    if cfg.buyThreshold <= -0.005 {
      NegativeEntry(cfg, c);
    } else {
      LooseEntry(cfg, c);
    }
    EntersOneShare(cfg, price);
    OneCandle(cfg, capital, c);
  }

  lemma LooseEntry(cfg: Config, c: Candle)
    requires !StrictAt(cfg, LowestEntry(cfg)) && c == Still(cfg, Max(cfg.buyThreshold, 0.01))
    ensures 0.01 <= EntryPrice(c) && !Strict(Repaired(NewPosition(cfg, c, 1.0)))
  {
    hide HalfEven2, HalfUp2, Cents, SlippageAmount, StopMultiplier, TargetMultiplier;
    LowestEntryIsPositive(cfg);
    // Levels are strict from 25 paise on, so the price is far below five rupees and there is no slippage.
    SlippageBounds(c.close, Some(Abs(c.change)));
    assert EntryPrice(c) == LowestEntry(cfg);
    RepairedIsStrictExactlyWhen(NewPosition(cfg, c, 1.0));
  }

  /** In particular, with a threshold of 25 paise or more the promise holds for every run. */
  lemma QuarterRupeeIsStrict(cfg: Config, capital: real, candles: seq<Candle>)
    requires 0.25 <= cfg.buyThreshold
    ensures EvaluatesStrictly(Run(cfg, capital, candles))
  {
    hide HalfUp2, HalfEven2, Run, EvaluatesStrictly;
    RoundingKeepsSide(cfg.buyThreshold, 0.25) by { TieAtQuarter(); }
    RunIsStrict(cfg, capital, candles);
  }

  const TenPaise := Config(0.10, 0.098, 0.1035, 1, false, 0.0, false, 0.0)

  /** And at ten paise it does not: entered at 0.10 with a stop two percent below and a target three and a half above,
      the position is evaluated with both levels equal to its entry. */
  lemma TenPaiseAreLoose()
    ensures var s := Run(TenPaise, 0.10, [Still(TenPaise, 0.10)]);
            && s.position.Some?
            && var q := Repaired(s.position.value); q.stop == q.entryPrice == q.target == 0.10
  {
    hide EntryPrice, Next, NewPosition, Repaired, Still, TenPaise, Run;
    TenPaiseTradable();
    TenPaiseLevels();
    EntersOneShare(TenPaise, 0.10);
    OneCandle(TenPaise, 0.10, Still(TenPaise, 0.10));
  }

  lemma TenPaiseTradable()
    ensures Tradable(TenPaise) && TenPaise.buyThreshold == 0.10
  {}

  lemma TenPaiseLevels()
    ensures EntryPrice(Still(TenPaise, 0.10)) == 0.10
    ensures var q := Repaired(NewPosition(TenPaise, Still(TenPaise, 0.10), 1.0));
            q.stop == q.entryPrice == q.target == 0.10
  {
    hide HalfUp2, HalfEven2, SlippageAmount;
    assert Cents(0.10) by { WholeBy(0.10 * 100.0, 10); }
    SlippageBounds(0.10, Some(Abs(0.0)));
    NearestCent(0.10, 0.10);
    NearestCent(0.10 * 0.98, 0.10);
    NearestCent(0.10 * 1.035, 0.10);
    assert StopMultiplier(TenPaise) == 0.98 && TargetMultiplier(TenPaise) == 1.035;
    NotionalIs(0.10, 0.98);
    NotionalIs(0.10, 1.035);
  }
}
