/** The pre-trade guard chain. */
module RiskGuards {
  import opened Decimals
  import opened Market
  import opened Text

  datatype Settings = Settings(killSwitch: bool, maxOrdersPerMinute: int,
                               maxOrderQuantity: real, maxOrderNotional: real,
                               maxPositionQuantity: real, maxExposureNotional: real, dailyLossLimit: real)

  datatype OrderRequest = OrderRequest(symbol: string, side: Side, quantity: real, isLimit: bool, price: Option<real>)

  datatype Holding = Holding(symbol: string, quantity: real)

  /** What is known about the account when an order is checked. */
  datatype Account = Account(settings: Settings, globalKillSwitch: bool, recentOrders: int,
                             positions: Option<seq<Holding>>, exposure: Option<real>, dailyPnl: Option<real>)

  /** The guards, in the order in which they are asked. */
  datatype Guard = KillSwitch | Frequency | OrderQuantity | OrderNotional | PositionLimit | Exposure | DailyLoss
  {
    function Rank(): nat {
      match this
      case KillSwitch => 0 case Frequency => 1 case OrderQuantity => 2 case OrderNotional => 3
      case PositionLimit => 4 case Exposure => 5 case DailyLoss => 6
    }
  }

  function NetHolding(positions: seq<Holding>, symbol: string): real {
    if positions == [] then 0.0
    else
      var last := positions[|positions| - 1];
      NetHolding(positions[..|positions| - 1], symbol)
      + (if last.symbol != "" && Upper(last.symbol) == Upper(symbol) then last.quantity else 0.0)
  }

  function PriceOrZero(r: OrderRequest): real {
    if r.price.Some? && r.price.value > 0.0 then r.price.value else 0.0
  }

  function OrderValue(r: OrderRequest): real { r.quantity * PriceOrZero(r) }

  predicate Breached(g: Guard, a: Account, r: OrderRequest) {
    match g
    case KillSwitch => a.globalKillSwitch || a.settings.killSwitch
    case Frequency => a.recentOrders >= a.settings.maxOrdersPerMinute
    case OrderQuantity => r.quantity > a.settings.maxOrderQuantity
    case OrderNotional => (r.isLimit || PriceOrZero(r) > 0.0) && OrderValue(r) > a.settings.maxOrderNotional
    case PositionLimit => a.positions.Some? &&
      Abs(NetHolding(a.positions.value, r.symbol) + (if r.side.Buy? then r.quantity else -r.quantity))
      > a.settings.maxPositionQuantity
    case Exposure => a.exposure.Some? && r.side.Buy? &&
      a.exposure.value + OrderValue(r) > a.settings.maxExposureNotional
    case DailyLoss => a.dailyPnl.Some? && a.dailyPnl.value < 0.0 && -a.dailyPnl.value >= a.settings.dailyLossLimit
  }

  method NetHeld(positions: seq<Holding>, symbol: string) returns (held: real)
    ensures held == NetHolding(positions, symbol)
  {
    held := 0.0;
    for i := 0 to |positions|
      invariant held == NetHolding(positions[..i], symbol)
    {
      assert positions[..i + 1][..i] == positions[..i];
      if positions[i].symbol != "" && Upper(positions[i].symbol) == Upper(symbol) {
        held := held + positions[i].quantity;
      }
    }
    assert positions[..|positions|] == positions;
  }

  /** Without a positive price an order is valued at nothing. */
  lemma UnpricedIsWorthless(r: OrderRequest)
    ensures PriceOrZero(r) >= 0.0
    ensures !(PriceOrZero(r) > 0.0) ==> OrderValue(r) == 0.0
  {}

  /** An order passes exactly when no guard is breached; otherwise the first breached guard refuses it. */
  method ValidateOrder(a: Account, r: OrderRequest) returns (refusal: Option<Guard>)
    ensures refusal.None? ==> forall g :: !Breached(g, a, r)
    ensures refusal.Some? ==> Breached(refusal.value, a, r)
                              && forall g: Guard :: g.Rank() < refusal.value.Rank() ==> !Breached(g, a, r)
  {
    hide NetHolding, PriceOrZero;
    if a.globalKillSwitch || a.settings.killSwitch {
      return Some(KillSwitch);
    }
    if a.recentOrders >= a.settings.maxOrdersPerMinute {
      return Some(Frequency);
    }
    if r.quantity > a.settings.maxOrderQuantity {
      return Some(OrderQuantity);
    }
    var price := PriceOrZero(r);
    UnpricedIsWorthless(r);
    hide OrderValue;
    if r.isLimit || price > 0.0 {
      var notional := OrderValue(r);
      if notional > a.settings.maxOrderNotional {
        return Some(OrderNotional);
      }
    }
    if a.positions.Some? {
      var held := NetHeld(a.positions.value, r.symbol);
      var projected := Abs(held + (if r.side.Buy? then r.quantity else -r.quantity));
      if projected > a.settings.maxPositionQuantity {
        return Some(PositionLimit);
      }
    }
    if a.exposure.Some? && r.side.Buy? {
      var projected := a.exposure.value;
      if price > 0.0 {
        projected := projected + OrderValue(r);
      }
      if projected > a.settings.maxExposureNotional {
        return Some(Exposure);
      }
    }
    if a.dailyPnl.Some? && a.dailyPnl.value < 0.0 {
      if Abs(a.dailyPnl.value) >= a.settings.dailyLossLimit {
        return Some(DailyLoss);
      }
    }
    refusal := None;
  }

  /** A further holding counts exactly when its symbol has a name and is the same one but for capitals. */
  lemma HoldingAfter(positions: seq<Holding>, name: string, symbol: string, quantity: real)
    ensures NetHolding(positions + [Holding(name, quantity)], symbol)
            == NetHolding(positions, symbol) + (if name != "" && Upper(name) == Upper(symbol) then quantity else 0.0)
  {
    hide Upper;
    assert (positions + [Holding(name, quantity)])[..|positions|] == positions;
  }

  /** No guard is breached exactly when neither switch is on, fewer orders than the limit were recent, the quantity is
      within its limit, a limit order or any priced one is within the notional limit, the holding of the symbol after
      the order is within the position limit either way, a purchase keeps the exposure within its limit, and the day's
      loss is below its limit. An order without a positive price weighs nothing. */
  lemma PassesExactlyWhen(a: Account, r: OrderRequest)
    requires r.symbol != ""
    ensures var price := if r.price.Some? && 0.0 < r.price.value then r.price.value else 0.0;
            var signed := if r.side == Buy then r.quantity else -r.quantity;
            (forall g: Guard :: !Breached(g, a, r)) <==>
              && !a.globalKillSwitch && !a.settings.killSwitch
              && a.recentOrders < a.settings.maxOrdersPerMinute
              && r.quantity <= a.settings.maxOrderQuantity
              && (r.isLimit || 0.0 < price ==> Notional(r.quantity, price) <= a.settings.maxOrderNotional)
              && (a.positions.Some? ==>
                    var after := NetHolding(a.positions.value + [Holding(r.symbol, signed)], r.symbol);
                    -a.settings.maxPositionQuantity <= after <= a.settings.maxPositionQuantity)
              && (a.exposure.Some? && r.side == Buy ==>
                    a.exposure.value + Notional(r.quantity, price) <= a.settings.maxExposureNotional)
              && (a.dailyPnl.Some? ==> 0.0 <= a.dailyPnl.value || -a.settings.dailyLossLimit < a.dailyPnl.value)
  {
    SevenGuards(a, r);
    GuardsWithoutPositions(a, r);
    PositionGuardIs(a, r);
    hide Breached, NetHolding, Notional;
  }

  lemma SevenGuards(a: Account, r: OrderRequest)
    ensures (forall g: Guard :: !Breached(g, a, r)) <==>
              && !Breached(KillSwitch, a, r) && !Breached(Frequency, a, r) && !Breached(OrderQuantity, a, r)
              && !Breached(OrderNotional, a, r) && !Breached(PositionLimit, a, r)
              && !Breached(Exposure, a, r) && !Breached(DailyLoss, a, r)
  {
    hide Breached;
    if g: Guard :| Breached(g, a, r) {
      match g {
        case KillSwitch => case Frequency => case OrderQuantity => case OrderNotional =>
        case PositionLimit => case Exposure => case DailyLoss =>
      }
    }
  }

  lemma GuardsWithoutPositions(a: Account, r: OrderRequest)
    ensures var price := if r.price.Some? && 0.0 < r.price.value then r.price.value else 0.0;
            && (Breached(KillSwitch, a, r) <==> a.globalKillSwitch || a.settings.killSwitch)
            && (Breached(Frequency, a, r) <==> a.settings.maxOrdersPerMinute <= a.recentOrders)
            && (Breached(OrderQuantity, a, r) <==> a.settings.maxOrderQuantity < r.quantity)
            && (Breached(OrderNotional, a, r) <==>
                  (r.isLimit || 0.0 < price) && a.settings.maxOrderNotional < Notional(r.quantity, price))
            && (Breached(Exposure, a, r) <==>
                  a.exposure.Some? && r.side == Buy
                  && a.settings.maxExposureNotional < a.exposure.value + Notional(r.quantity, price))
            && (Breached(DailyLoss, a, r) <==>
                  a.dailyPnl.Some? && a.dailyPnl.value < 0.0 && a.dailyPnl.value <= -a.settings.dailyLossLimit)
  {
    NotionalIs(r.quantity, PriceOrZero(r));
    hide NetHolding, Notional;
  }

  lemma PositionGuardIs(a: Account, r: OrderRequest)
    requires r.symbol != ""
    ensures var signed := if r.side == Buy then r.quantity else -r.quantity;
            Breached(PositionLimit, a, r) <==>
              a.positions.Some?
              && var after := NetHolding(a.positions.value + [Holding(r.symbol, signed)], r.symbol);
                 !(-a.settings.maxPositionQuantity <= after <= a.settings.maxPositionQuantity)
  {
    if a.positions.Some? {
      HoldingAfter(a.positions.value, r.symbol, r.symbol, if r.side == Buy then r.quantity else -r.quantity);
    }
    hide NetHolding;
  }
}
