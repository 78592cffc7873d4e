/** The session as the service keeps it, updated in place. */
module FrozenSession {
  import opened Decimals
  import opened Market
  import opened TransactionCosts
  import opened Drawdown
  import opened FrozenEngine
  import opened FrozenExits

  class PaperSession {
    const cfg: Config
    var initialCapital: real
    var cash: real
    var nav: real
    var peakNav: real
    var maxDrawdown: real
    var realizedPnl: real
    var chargesPaid: real
    var position: Option<Position>
    var log: seq<Trade>

    ghost function Contents(): Session
      reads this
    {
      Session(initialCapital, cash, nav, Peak(peakNav, maxDrawdown), realizedPnl, chargesPaid, position, log)
    }

    constructor (cfg: Config, capital: real)
      ensures Contents() == Fresh(capital) && this.cfg == cfg
    {
      this.cfg := cfg;
      initialCapital, cash, nav, peakNav, maxDrawdown := capital, capital, capital, capital, 0.0;
      realizedPnl, chargesPaid, position, log := 0.0, 0.0, None, [];
    }

    method ProcessCandle(c: Candle) returns (ok: bool)
      modifies this
      ensures ok == Processed(cfg, old(Contents()), c).Ok?
      ensures Contents() == Next(cfg, old(Contents()), c)
    {
      hide Notional, Charges, ExitPrice, EntryPrice, HalfEven2, EntrySignal, Loss, Affordable, NewPosition;
      if position.Some? {
        EvaluateExit(c);
      } else {
        ok := TryEntry(c);
        if !ok {
          return;
        }
      }
      var notional, unrealized := 0.0, 0.0;
      if position.Some? {
        notional := Notional(position.value.quantity, position.value.entryPrice);
        unrealized := position.value.unrealizedPnl;
      }
      nav := cash + notional + unrealized;
      if nav > peakNav {
        peakNav := nav;
      }
      var loss := Loss(peakNav, nav);
      if loss > maxDrawdown {
        maxDrawdown := loss;
      }
      ok := true;
    }

    method EvaluateExit(c: Candle)
      requires position.Some?
      modifies this
      ensures Contents() == AfterExit(old(Contents()), old(position).value, c)
    {
      hide Notional, Charges, ExitPrice, HalfEven2;
      var p := position.value;
      if p.target <= p.entryPrice {
        p := p.(target := HalfEven2(p.entryPrice * 1.035));
      }
      if p.stop >= p.entryPrice {
        p := p.(stop := HalfEven2(p.entryPrice * 0.980));
      }
      var stopTouched, targetTouched := c.low <= p.stop, c.high >= p.target;
      if !stopTouched && !targetTouched {
        position := Some(p.(currentPrice := c.close, unrealizedPnl := Notional(p.quantity, c.close - p.entryPrice)));
        return;
      }
      var raw := if stopTouched then Min(p.stop, c.open) else Max(p.target, c.open);
      var reason := if stopTouched then StopLoss else TakeProfit;
      var exit := ExitPrice(raw, c);
      var invested := Notional(p.quantity, p.entryPrice);
      var buyCharges := Charges(invested, Buy, Delivery);
      var sellCharges := Charges(Notional(p.quantity, exit), Sell, Delivery);
      var gross := Notional(p.quantity, exit - p.entryPrice);
      var net := gross - (buyCharges + sellCharges);
      cash := cash + invested + net;
      realizedPnl := realizedPnl + net;
      chargesPaid := chargesPaid + (buyCharges + sellCharges);
      var trade := Trade(p.entryTime, p.entryPrice, c.timestamp, exit, p.quantity, gross, buyCharges + sellCharges, net,
                         reason);
      log := log + [trade];
      position := None;
    }

    method TryEntry(c: Candle) returns (ok: bool)
      requires position.None?
      modifies this
      ensures match AfterEntry(cfg, old(Contents()), c)
              case Ok(t) => ok && Contents() == t
              case Err(_) => !ok && Contents() == old(Contents())
    {
      hide Notional, EntryPrice, HalfEven2, EntrySignal, Affordable, TargetMultiplier, StopMultiplier;
      if !EntrySignal(cfg, c) {
        return true;
      }
      var entry := EntryPrice(c);
      if entry == 0.0 {
        return false;
      }
      var quantity := Min(cfg.quantity as real, Affordable(cash, entry));
      if quantity >= 1.0 {
        cash := cash - Notional(quantity, entry);
        var target := HalfEven2(Notional(entry, TargetMultiplier(cfg)));
        var stop := HalfEven2(Notional(entry, StopMultiplier(cfg)));
        position := Some(Position(quantity, entry, c.close, 0.0, c.timestamp, stop, target));
      }
      ok := true;
    }

    /** The scorecard's two integrity figures, for a session some run has produced. */
    method Integrity(ghost candles: seq<Candle>) returns (violations: nat, discrepancy: real)
      requires Contents() == Run(cfg, initialCapital, candles)
      ensures discrepancy == 0.0
      ensures WideTarget(cfg) ==> violations == 0
    {
      violations := 0;
      for i := 0 to |log|
        invariant violations <= i
        invariant violations == 0 <==> forall k :: 0 <= k < i ==> !Violation(log[k])
      {
        var t := log[i];
        if t.reason.TakeProfit? && t.exitPrice < t.entryPrice {
          violations := violations + 1;
        } else if t.reason.StopLoss? && t.exitPrice > t.entryPrice {
          violations := violations + 1;
        }
      }
      var notional, unrealized := 0.0, 0.0;
      if position.Some? {
        notional := Notional(position.value.quantity, position.value.entryPrice);
        unrealized := position.value.unrealizedPnl;
      }
      discrepancy := Abs(nav - (cash + notional + unrealized));
      hide Run;
      RunIsBalanced(cfg, initialCapital, candles);
      if WideTarget(cfg) { NoViolations(cfg, initialCapital, candles); }
    }
  }
}
