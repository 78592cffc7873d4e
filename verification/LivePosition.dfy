/** The signed net position of the LIVE book: adds, reductions, closes and flips. */
module LivePosition {
  import opened Decimals
  import opened Market

  datatype Position = Position(quantity: real, averagePrice: real, realizedPnl: real)

  const Flat := Position(0.0, 0.0, 0.0)

  function SignedQuantity(f: Fill): real { if f.side.Buy? then f.quantity else -f.quantity }

  /** Paid out by a purchase, received (negative) from a sale. */
  function Outlay(f: Fill): real { Notional(SignedQuantity(f), f.price) }

  function WeightedPrice(heldQuantity: real, heldPrice: real, quantity: real, price: real): real
    requires heldQuantity + quantity != 0.0
  {
    (heldQuantity * heldPrice + quantity * price) / (heldQuantity + quantity)
  }

  function ApplyFill(p: Position, f: Fill): Position
    requires f.quantity > 0.0
  {
    var delta := SignedQuantity(f);
    var held, avg := p.quantity, p.averagePrice;
    var quantity := held + delta;
    if held == 0.0 then
      Position(quantity, f.price, p.realizedPnl)
    else if (held > 0.0) == (delta > 0.0) then
      Position(quantity, WeightedPrice(Abs(held), avg, f.quantity, f.price), p.realizedPnl)
    else
      var closing := Min(Abs(held), Abs(delta));
      var pnl := if held > 0.0 then Notional(closing, f.price - avg) else Notional(closing, avg - f.price);
      Position(quantity,
               if quantity == 0.0 then 0.0
               else if (held > 0.0) != (quantity > 0.0) then f.price
               else avg,
               p.realizedPnl + pnl)
  }

  function Run(p: Position, fills: seq<Fill>): Position
    requires forall f :: f in fills ==> f.quantity > 0.0
  {
    if fills == [] then p
    else
      var last := |fills| - 1;
      ApplyFill(Run(p, fills[..last]), fills[last])
  }

  /** Realised gain less the cost of what is held: what trading has brought in so far. */
  function NetProceeds(p: Position): real { p.realizedPnl - Notional(p.quantity, p.averagePrice) }

  function TotalOutlay(fills: seq<Fill>): real {
    if fills == [] then 0.0 else TotalOutlay(fills[..|fills| - 1]) + Outlay(fills[|fills| - 1])
  }

  function NetQuantity(fills: seq<Fill>): real {
    if fills == [] then 0.0 else NetQuantity(fills[..|fills| - 1]) + SignedQuantity(fills[|fills| - 1])
  }

  /** One fill moves the net proceeds by exactly its value, whichever branch applies it. */
  lemma FillConserves(p: Position, f: Fill)
    requires f.quantity > 0.0
    ensures ApplyFill(p, f).quantity == p.quantity + SignedQuantity(f)
    ensures NetProceeds(ApplyFill(p, f)) == NetProceeds(p) - Outlay(f)
  {
    var held, avg, q, x := p.quantity, p.averagePrice, f.quantity, f.price;
    if held != 0.0 && (held > 0.0) == f.side.Buy? {
      var w := WeightedPrice(Abs(held), avg, q, x);
      DivideBack(Abs(held) * avg + q * x, Abs(held) + q);
      assert (Abs(held) + q) * w == Abs(held) * avg + q * x;
    }
  }

  /** What bookkeeping may do with a fill: nothing is realised by opening or adding, a partial close leaves the
      average alone, what a flip leaves over is carried at the fill's price, and a flat position has no average. */
  predicate FairlyBooked(p: Position, f: Fill, r: Position) {
    var delta := SignedQuantity(f);
    && r.quantity == p.quantity + delta
    && NetProceeds(r) == NetProceeds(p) - Outlay(f)
    && (p.quantity == 0.0 || (p.quantity > 0.0) == (delta > 0.0) ==> r.realizedPnl == p.realizedPnl)
    && ((p.quantity > 0.0 > delta || p.quantity < 0.0 < delta) ==>
          && (r.quantity != 0.0 && (r.quantity > 0.0) == (p.quantity > 0.0) ==> r.averagePrice == p.averagePrice)
          && (r.quantity != 0.0 && (r.quantity > 0.0) != (p.quantity > 0.0) ==> r.averagePrice == f.price)
          && (r.quantity == 0.0 ==> r.averagePrice == 0.0))
  }

  /** These rules leave exactly one possible outcome, and it is the one the service computes. */
  lemma FillIsDetermined(p: Position, f: Fill, r: Position)
    requires f.quantity > 0.0
    requires p.quantity == 0.0 ==> p.averagePrice == 0.0
    ensures FairlyBooked(p, f, r) <==> r == ApplyFill(p, f)
  {
    hide Notional, WeightedPrice;
    FillConserves(p, f);
    var s := ApplyFill(p, f);
    if FairlyBooked(p, f, r) {
      assert FairlyBooked(p, f, s);
      if r.quantity != 0.0 && r.realizedPnl == s.realizedPnl {
        NotionalInjective(r.quantity, r.averagePrice, s.averagePrice);
      }
    }
  }

  /** The average is kept exactly while something is held, and is positive for positive prices. */
  predicate Consistent(p: Position) {
    && (p.quantity == 0.0 <==> p.averagePrice == 0.0)
    && 0.0 <= p.averagePrice
  }

  lemma FillKeepsConsistent(p: Position, f: Fill)
    requires Consistent(p) && f.quantity > 0.0 && f.price > 0.0
    ensures Consistent(ApplyFill(p, f))
  {
    var held := Abs(p.quantity);
    if held != 0.0 { WeightedBetween(held, p.averagePrice, f.quantity, f.price, 0.0, Max(p.averagePrice, f.price)); }
  }

  lemma WeightedBetween(q1: real, p1: real, q2: real, p2: real, low: real, high: real)
    requires q1 > 0.0 && q2 > 0.0 && low <= p1 <= high && low <= p2 <= high
    ensures low <= WeightedPrice(q1, p1, q2, p2) <= high
    ensures low < p1 && low < p2 ==> low < WeightedPrice(q1, p1, q2, p2)
  {
    var w := WeightedPrice(q1, p1, q2, p2);
    DivideBack(q1 * p1 + q2 * p2, q1 + q2);
    BalancedWeight(q1, p1, q2, p2, w);
  }

  lemma BalancedWeight(q1: real, p1: real, q2: real, p2: real, w: real)
    requires q1 > 0.0 && q2 > 0.0
    requires (q1 + q2) * w == q1 * p1 + q2 * p2
    ensures (p1 <= w <= p2 || p2 <= w <= p1) && (p1 != p2 ==> w != p1 && w != p2)
  {
    assert q1 * (p1 - w) == -(q2 * (p2 - w));
    SignOfProduct(q1, p1 - w);
    SignOfProduct(q2, p2 - w);
  }

  /** For every run of fills from a flat position: realised P&L is sells minus buys plus the cost of what is still
      held, the quantity is bought minus sold, and the average is 0 exactly when nothing is held. */
  lemma {:induction false} RunConserves(fills: seq<Fill>)
    requires forall f :: f in fills ==> f.quantity > 0.0
    ensures Run(Flat, fills).realizedPnl
            == -TotalOutlay(fills) + Notional(Run(Flat, fills).quantity, Run(Flat, fills).averagePrice)
    ensures Run(Flat, fills).quantity == NetQuantity(fills)
    ensures (forall f :: f in fills ==> f.price > 0.0) ==> Consistent(Run(Flat, fills))
  {
    hide Notional;
    if fills == [] {
      NotionalOfZero(0.0);
    } else {
      var last := |fills| - 1;
      RunConserves(fills[..last]);
      FillConserves(Run(Flat, fills[..last]), fills[last]);
      if forall f :: f in fills ==> f.price > 0.0 {
        FillKeepsConsistent(Run(Flat, fills[..last]), fills[last]);
      }
    }
  }

  /** While something is held, its average lies between the cheapest and the dearest fill of the run. */
  lemma {:induction false} AverageWithinFills(fills: seq<Fill>, low: real, high: real)
    requires forall f :: f in fills ==> f.quantity > 0.0 && low <= f.price <= high
    ensures Run(Flat, fills).quantity != 0.0 ==> low <= Run(Flat, fills).averagePrice <= high
  {
    if fills != [] {
      var last := |fills| - 1;
      var f := fills[last];
      AverageWithinFills(fills[..last], low, high);
      var p := Run(Flat, fills[..last]);
      if p.quantity != 0.0 {
        WeightedBetween(Abs(p.quantity), p.averagePrice, f.quantity, f.price, low, high);
      }
    }
  }

  class TradingPosition {
    var quantity: real
    var averagePrice: real
    var realizedPnl: real

    function Value(): Position
      reads this
    {
      Position(quantity, averagePrice, realizedPnl)
    }

    constructor ()
      ensures Value() == Flat
    {
      quantity, averagePrice, realizedPnl := 0.0, 0.0, 0.0;
    }

    method ApplyLivePosition(side: Side, fillQuantity: real, price: real)
      requires fillQuantity > 0.0
      modifies this
      ensures Value() == ApplyFill(old(Value()), Fill(side, fillQuantity, price))
      ensures quantity == old(quantity) + SignedQuantity(Fill(side, fillQuantity, price))
      ensures NetProceeds(Value()) == NetProceeds(old(Value())) - Outlay(Fill(side, fillQuantity, price))
    {
      hide Notional, WeightedPrice, NetProceeds, Outlay;
      FillConserves(Value(), Fill(side, fillQuantity, price));
      var signedDelta := if side.Buy? then fillQuantity else -fillQuantity;
      var oldQuantity, oldAverage := quantity, averagePrice;
      var newQuantity := oldQuantity + signedDelta;
      if oldQuantity == 0.0 {
        quantity := newQuantity;
        averagePrice := if newQuantity != 0.0 then price else 0.0;
      } else if oldQuantity > 0.0 && signedDelta > 0.0 {
        averagePrice := WeightedPrice(oldQuantity, oldAverage, fillQuantity, price);
        quantity := newQuantity;
      } else if oldQuantity < 0.0 && signedDelta < 0.0 {
        averagePrice := WeightedPrice(Abs(oldQuantity), oldAverage, fillQuantity, price);
        quantity := newQuantity;
      } else {
        var closing := Min(Abs(oldQuantity), Abs(signedDelta));
        var gain := if oldQuantity > 0.0 then price - oldAverage else oldAverage - price;
        var pnl := Notional(closing, gain);
        realizedPnl := realizedPnl + pnl;
        quantity := newQuantity;
        if newQuantity == 0.0 {
          averagePrice := 0.0;
        } else if (oldQuantity > 0.0 && newQuantity < 0.0) || (oldQuantity < 0.0 && newQuantity > 0.0) {
          averagePrice := price;
        }
      }
    }
  }
}
