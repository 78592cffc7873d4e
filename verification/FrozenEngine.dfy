/** The virtual session of a frozen strategy: one position at a time, candle by candle. */
module FrozenEngine {
  import opened Decimals
  import opened Market
  import opened TransactionCosts
  import opened Drawdown

  datatype Config = Config(buyThreshold: real, stopLoss: real, target: real, quantity: int, useTrendFilter: bool,
                           trendThreshold: real, useVolatilityFilter: bool, maxVolatility: real)

  datatype Candle = Candle(open: real, high: real, low: real, close: real, change: real, timestamp: string)

  datatype Position = Position(quantity: real, entryPrice: real, currentPrice: real, unrealizedPnl: real,
                               entryTime: string, stop: real, target: real)

  datatype Reason = StopLoss | TakeProfit

  datatype Trade = Trade(entryTime: string, entryPrice: real, exitTime: string, exitPrice: real, quantity: real,
                         grossPnl: real, totalCharges: real, netPnl: real, reason: Reason)

  datatype Session = Session(initialCapital: real, cash: real, nav: real, peak: Peak, realizedPnl: real,
                             chargesPaid: real, position: Option<Position>, log: seq<Trade>)

  function Fresh(capital: real): Session {
    Session(capital, capital, capital, Peak(capital, 0.0), 0.0, 0.0, None, [])
  }

  function OpenNotional(s: Session): real {
    match s.position
    case Some(p) => Notional(p.quantity, p.entryPrice)
    case None => 0.0
  }

  function Unrealized(s: Session): real {
    match s.position
    case Some(p) => p.unrealizedPnl
    case None => 0.0
  }

  // ---- Exit -------------------------------------------------------------------------------------------------

  /** Target above and stop below the entry, re-derived when they are not. */
  function Repaired(p: Position): Position {
    var q := if p.target <= p.entryPrice then p.(target := HalfEven2(p.entryPrice * 1.035)) else p;
    if q.stop >= q.entryPrice then q.(stop := HalfEven2(q.entryPrice * 0.980)) else q
  }

  /** The stop has precedence; a gap through a level is executed at the open. */
  function RawExit(p: Position, c: Candle): Option<(Reason, real)> {
    if c.low <= p.stop then Some((StopLoss, Min(p.stop, c.open)))
    else if c.high >= p.target then Some((TakeProfit, Max(p.target, c.open)))
    else None
  }

  function ExitPrice(raw: real, c: Candle): real { EffectivePrice(raw, Sell, Some(Abs(c.change))) }

  function ClosedTrade(p: Position, reason: Reason, raw: real, c: Candle): Trade {
    var exit := ExitPrice(raw, c);
    var charges := Charges(Notional(p.quantity, p.entryPrice), Buy, Delivery)
                   + Charges(Notional(p.quantity, exit), Sell, Delivery);
    var gross := Notional(p.quantity, exit - p.entryPrice);
    Trade(p.entryTime, p.entryPrice, c.timestamp, exit, p.quantity, gross, charges, gross - charges, reason)
  }

  function AfterExit(s: Session, p: Position, c: Candle): Session {
    var q := Repaired(p);
    match RawExit(q, c)
    case Some((reason, raw)) =>
      var t := ClosedTrade(q, reason, raw, c);
      s.(cash := s.cash + Notional(q.quantity, q.entryPrice) + t.netPnl, realizedPnl := s.realizedPnl + t.netPnl,
         chargesPaid := s.chargesPaid + t.totalCharges, position := None, log := s.log + [t])
    case None =>
      s.(position := Some(q.(currentPrice := c.close, unrealizedPnl := Notional(q.quantity, c.close - q.entryPrice))))
  }

  // ---- Entry ------------------------------------------------------------------------------------------------

  predicate EntrySignal(cfg: Config, c: Candle) {
    && (cfg.useTrendFilter ==> c.change >= cfg.trendThreshold)
    && (cfg.useVolatilityFilter ==>
          (if c.open > 0.0 then Abs((c.high - c.low) / c.open * 100.0) else 0.0) <= cfg.maxVolatility)
    && c.close >= cfg.buyThreshold
  }

  function EntryPrice(c: Candle): real { EffectivePrice(c.close, Buy, Some(Abs(c.change))) }

  function Affordable(cash: real, price: real): real
    requires price != 0.0
  {
    var shares := Truncated(cash / price);
    if shares < 0 then 0.0 else shares as real
  }

  function BaseReference(cfg: Config): real { if cfg.buyThreshold > 0.0 then cfg.buyThreshold else 390.0 }

  function TargetMultiplier(cfg: Config): real {
    var m := if cfg.target > 0.0 then cfg.target / BaseReference(cfg) else 1.035;
    if m <= 1.0 then 1.035 else m
  }

  function StopMultiplier(cfg: Config): real {
    var m := if cfg.stopLoss > 0.0 then cfg.stopLoss / BaseReference(cfg) else 0.980;
    if m >= 1.0 then 0.980 else m
  }

  function NewPosition(cfg: Config, c: Candle, quantity: real): Position {
    var entry := EntryPrice(c);
    Position(quantity, entry, c.close, 0.0, c.timestamp,
             HalfEven2(Notional(entry, StopMultiplier(cfg))), HalfEven2(Notional(entry, TargetMultiplier(cfg))))
  }

  /** Err when the affordable quantity would be a division by a zero price. */
  function AfterEntry(cfg: Config, s: Session, c: Candle): Result<Session, ()> {
    if !EntrySignal(cfg, c) then Ok(s)
    else if EntryPrice(c) == 0.0 then Err(())
    else
      var quantity := Min(cfg.quantity as real, Affordable(s.cash, EntryPrice(c)));
      if quantity < 1.0 then Ok(s)
      else Ok(s.(cash := s.cash - Notional(quantity, EntryPrice(c)), position := Some(NewPosition(cfg, c, quantity))))
  }

  // ---- One candle -------------------------------------------------------------------------------------------

  function Marked(s: Session): Session {
    var nav := s.cash + OpenNotional(s) + Unrealized(s);
    s.(nav := nav, peak := Observe(s.peak, nav))
  }

  /** A position open at the start is only looked at for its exit; otherwise the candle may open one. */
  function Processed(cfg: Config, s: Session, c: Candle): Result<Session, ()> {
    match s.position
    case Some(p) => Ok(Marked(AfterExit(s, p, c)))
    case None =>
      match AfterEntry(cfg, s, c)
      case Ok(t) => Ok(Marked(t))
      case Err(e) => Err(e)
  }

  /** A candle that raises leaves the session as it was. */
  function Next(cfg: Config, s: Session, c: Candle): Session {
    match Processed(cfg, s, c)
    case Ok(t) => t
    case Err(_) => s
  }

  function Run(cfg: Config, capital: real, candles: seq<Candle>): Session {
    if candles == [] then Fresh(capital)
    else Next(cfg, Run(cfg, capital, candles[..|candles| - 1]), candles[|candles| - 1])
  }

  // ---- Conservation -----------------------------------------------------------------------------------------

  function LoggedPnl(log: seq<Trade>): real {
    if log == [] then 0.0 else LoggedPnl(log[..|log| - 1]) + log[|log| - 1].netPnl
  }

  function LoggedCharges(log: seq<Trade>): real {
    if log == [] then 0.0 else LoggedCharges(log[..|log| - 1]) + log[|log| - 1].totalCharges
  }

  /** The books of a session close: nothing but logged trades has changed cash plus open notional, and the reported
      net asset value is what the positions say. */
  predicate Balanced(s: Session) {
    && s.cash + OpenNotional(s) == s.initialCapital + s.realizedPnl
    && s.realizedPnl == LoggedPnl(s.log)
    && s.chargesPaid == LoggedCharges(s.log)
    && s.nav == s.cash + OpenNotional(s) + Unrealized(s)
  }

  lemma LogExtends(log: seq<Trade>, t: Trade)
    ensures LoggedPnl(log + [t]) == LoggedPnl(log) + t.netPnl
    ensures LoggedCharges(log + [t]) == LoggedCharges(log) + t.totalCharges
  {
    assert (log + [t])[..|log|] == log;
  }

  lemma CandleKeepsBalance(cfg: Config, s: Session, c: Candle)
    requires Balanced(s)
    ensures Balanced(Next(cfg, s, c)) && Next(cfg, s, c).initialCapital == s.initialCapital
  {
    hide Notional, ClosedTrade, EntryPrice, EntrySignal, Affordable, NewPosition, HalfEven2, Observe;
    hide LoggedPnl, LoggedCharges;
    match s.position
    case Some(p) =>
      var q := Repaired(p);
      match RawExit(q, c) {
        case Some((reason, raw)) => LogExtends(s.log, ClosedTrade(q, reason, raw, c));
        case None =>
      }
    case None =>
      var affordable := if EntryPrice(c) == 0.0 then 0.0 else Affordable(s.cash, EntryPrice(c));
      NewPositionIs(cfg, c, Min(cfg.quantity as real, affordable));
  }

  lemma NewPositionIs(cfg: Config, c: Candle, quantity: real)
    ensures var p := NewPosition(cfg, c, quantity);
            p.quantity == quantity && p.entryPrice == EntryPrice(c) && p.unrealizedPnl == 0.0
  {}

  /** After every candle of every run the books close. */
  lemma {:induction false} RunIsBalanced(cfg: Config, capital: real, candles: seq<Candle>)
    ensures Balanced(Run(cfg, capital, candles)) && Run(cfg, capital, candles).initialCapital == capital
  {
    hide Next, Balanced;
    if candles == [] {
      FreshIsBalanced(capital);
    } else {
      RunIsBalanced(cfg, capital, candles[..|candles| - 1]);
      CandleKeepsBalance(cfg, Run(cfg, capital, candles[..|candles| - 1]), candles[|candles| - 1]);
    }
  }

  lemma FreshIsBalanced(capital: real)
    ensures Balanced(Fresh(capital))
  {}

  // ---- Cash and marks ---------------------------------------------------------------------------------------

  /** An entry spends what it buys at the effective price, never more than the cash there is and never on more
      shares than configured. */
  lemma EntryNeverOverspends(cfg: Config, s: Session, c: Candle)
    requires 0.0 <= s.cash && AfterEntry(cfg, s, c).Ok? && s.position.None?
    ensures var t := AfterEntry(cfg, s, c).value;
            && 0.0 <= t.cash
            && (t.position.Some? ==>
                  && 1.0 <= t.position.value.quantity <= cfg.quantity as real
                  && Whole(t.position.value.quantity)
                  && s.cash - t.cash == Notional(t.position.value.quantity, t.position.value.entryPrice))
            && (t.position.None? ==> t == s)
  {
    hide EntrySignal, EntryPrice, TargetMultiplier, StopMultiplier, HalfEven2;
    var price := EntryPrice(c);
    if EntrySignal(cfg, c) && price != 0.0 {
      AffordableFits(s.cash, price);
      var n := Affordable(s.cash, price);
      var quantity := Min(cfg.quantity as real, n);
      NewPositionIs(cfg, c, quantity);
      WholeInt(cfg.quantity);
      if 1.0 <= quantity {
        NotionalSplits(n, n - quantity, price);
        NotionalNonNegative(n - quantity, price);
      }
    }
  }

  lemma AffordableFits(cash: real, price: real)
    requires 0.0 <= cash && price != 0.0
    ensures Whole(Affordable(cash, price)) && 0.0 <= Affordable(cash, price)
    ensures 1.0 <= Affordable(cash, price) ==> 0.0 < price && Notional(Affordable(cash, price), price) <= cash
  {
    var n := Affordable(cash, price);
    var exact := cash / price;
    DivideBack(cash, price);
    if 1.0 <= n {
      assert n <= exact;
      assert price * exact == cash;
      if price < 0.0 { NotionalNonNegative(exact - 1.0, -price); assert false; }
      NotionalNonNegative(exact - n, price);
    }
  }

  /** A position carried through a candle is valued at its close. */
  lemma HeldPositionIsMarkedToMarket(cfg: Config, s: Session, c: Candle)
    requires s.position.Some? && Next(cfg, s, c).position.Some?
    ensures var t := Next(cfg, s, c);
            t.nav == t.cash + Notional(t.position.value.quantity, c.close)
  {
    hide Notional, Repaired, ClosedTrade, Observe;
    var q := Repaired(s.position.value);
    NotionalOfGain(q.quantity, c.close, q.entryPrice);
  }

  // ---- Entering one share -----------------------------------------------------------------------------------

  /** The configuration can enter a position at all. */
  predicate Tradable(cfg: Config) {
    1 <= cfg.quantity && (cfg.useVolatilityFilter ==> 0.0 <= cfg.maxVolatility)
  }

  /** A candle that stands still and has just enough trend. */
  function Still(cfg: Config, price: real): Candle {
    Candle(price, price, price, price, cfg.trendThreshold, "1")
  }

  /** With exactly the price of one share, a still candle at the threshold or above opens a position of one share. */
  lemma EntersOneShare(cfg: Config, price: real)
    requires Tradable(cfg) && cfg.buyThreshold <= price && EntryPrice(Still(cfg, price)) != 0.0
    ensures var c := Still(cfg, price);
            var s := Next(cfg, Fresh(EntryPrice(c)), c);
            && Processed(cfg, Fresh(EntryPrice(c)), c).Ok?
            && s.log == [] && s.position == Some(NewPosition(cfg, c, 1.0))
            && s.cash == 0.0 && s.nav == EntryPrice(c)
  {
    hide NewPosition, Observe, Notional, EntryPrice;
    var e := EntryPrice(Still(cfg, price));
    OneShareExactly(e);
    NotionalOfOne(e);
    NewPositionIs(cfg, Still(cfg, price), 1.0);
  }

  lemma OneShareExactly(price: real)
    requires price != 0.0
    ensures Affordable(price, price) == 1.0
  {
    DivideBack(price, price);
    NotionalInjective(price, price / price, 1.0);
  }

  lemma OneCandle(cfg: Config, capital: real, c: Candle)
    ensures Run(cfg, capital, [c]) == Next(cfg, Fresh(capital), c)
  {
    hide Next, Fresh;
    assert [c][..0] == [];
  }

  lemma TwoCandles(cfg: Config, capital: real, c1: Candle, c2: Candle)
    ensures Run(cfg, capital, [c1, c2]) == Next(cfg, Next(cfg, Fresh(capital), c1), c2)
  {
    hide Next, Fresh;
    assert [c1, c2][..1] == [c1];
    OneCandle(cfg, capital, c1);
  }

  /** A configuration that asks for no share or tolerates no volatility never trades. */
  lemma {:induction false} NeverTrades(cfg: Config, capital: real, candles: seq<Candle>)
    requires !Tradable(cfg)
    ensures var s := Run(cfg, capital, candles); s.log == [] && s.position == None
  {
    hide NewPosition, Observe, Notional, EntryPrice, Affordable;
    if candles != [] { NeverTrades(cfg, capital, candles[..|candles| - 1]); }
  }
}
