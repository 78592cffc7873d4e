/** Laws of the PAPER portfolio that hold whatever the sizes and prices. */
module PaperLaws {
  import opened Decimals
  import opened Market
  import opened MapSums
  import opened Text
  import opened TransactionCosts
  import opened PaperAccounting

  // ---- Which fills are accepted -----------------------------------------------------------------------------

  /** What a fill costs or brings before charges, and its charges. */
  function Cost(f: PaperFill): real
    requires f.side.Some?
  {
    HalfEven4(Notional(f.quantity, if f.applySlippage then EffectivePrice(f.price, f.side.value, f.volatility)
                                   else f.price))
  }

  function CostCharges(f: PaperFill): real
    requires f.side.Some?
  {
    if f.applyCosts then TransactionCosts.TransactionCosts(Cost(f), f.side.value, f.product, NSE).totalCharges else 0.0
  }

  /** A fill is booked exactly when it is a PAPER fill of a new execution, of a positive quantity at a non-negative
      price on a known side, and cash covers the purchase with its charges or the holding covers the sale. */
  lemma AcceptedExactlyWhen(a: Account, f: PaperFill)
    requires LongOnly(a)
    ensures Recorded(a, f).Ok? <==>
              && f.paperMode && !(f.executionId != "" && f.executionId in a.processed)
              && 0.0 < f.quantity && 0.0 <= f.price && f.side.Some?
              && (f.side == Some(Buy) ==> Cost(f) + CostCharges(f) <= a.cash)
              && (f.side == Some(Sell) ==>
                    f.quantity <= if Upper(f.symbol) in a.positions then a.positions[Upper(f.symbol)].quantity else 0.0)
  {
    hide HalfEven4, Upper, EffectivePrice, Notional, TransactionCosts.TransactionCosts, TradePnl, Bought, Sold;
  }

  /** The refusals in the order in which they are given. */
  lemma RefusedWith(a: Account, f: PaperFill)
    requires LongOnly(a)
    ensures !f.paperMode ==> Recorded(a, f) == Err(InvalidMode)
    ensures f.paperMode && f.executionId != "" && f.executionId in a.processed
            ==> Recorded(a, f) == Err(DuplicateExecution)
    ensures f.paperMode && f.executionId !in a.processed && (f.quantity <= 0.0 || f.price < 0.0 || f.side.None?)
            ==> Recorded(a, f) == Err(InvalidFill)
    ensures Recorded(a, f).Err? && Recorded(a, f).error == InsufficientCash ==> f.side == Some(Buy)
    ensures Recorded(a, f).Err? && Recorded(a, f).error == InsufficientPosition ==> f.side == Some(Sell)
  {
    hide HalfEven4, Upper, EffectivePrice, Notional, Charges, TradePnl, Bought, Sold, OrderCost, FillCharges;
  }

  /** An accepted fill moves cash by its cost and charges, to the fourth decimal, and the holding by its quantity. */
  lemma FillMovesCashAndHolding(a: Account, f: PaperFill)
    requires LongOnly(a) && Recorded(a, f).Ok?
    ensures var b, symbol := Recorded(a, f).value, Upper(f.symbol);
            && symbol in b.positions && b.positions.Keys == a.positions.Keys + {symbol}
            && (forall s :: s in a.positions && s != symbol ==> b.positions[s] == a.positions[s])
            && var held := if symbol in a.positions then a.positions[symbol].quantity else 0.0;
               && (f.side == Some(Buy) ==>
                     && Abs(b.cash - (a.cash - Cost(f) - CostCharges(f))) <= 0.00005
                     && Abs(b.positions[symbol].quantity - (held + f.quantity)) <= 0.00005
                     && b.realizedPnl == a.realizedPnl)
               && (f.side == Some(Sell) ==>
                     && Abs(b.cash - (a.cash + Cost(f) - CostCharges(f))) <= 0.0001
                     && Abs(b.positions[symbol].quantity - (held - f.quantity)) <= 0.00005)
  {
    hide HalfEven4, Upper, EffectivePrice, Notional, TransactionCosts.TransactionCosts, TradePnl;
  }

  // ---- Realised profit and loss -----------------------------------------------------------------------------

  function RealizedOf(p: PaperPosition): real { p.realizedPnl }

  /** Every figure is on the four-decimal grid, and the portfolio's is the sum of its positions'. */
  ghost predicate PnlAgrees(a: Account) {
    && Pips(a.realizedPnl)
    && (forall s :: s in a.positions ==> Pips(a.positions[s].realizedPnl))
    && a.realizedPnl == Total(a.positions, RealizedOf)
  }

  lemma GainIsTradePnl(a: Account, f: PaperFill, p: PaperPosition)
    requires Solvent(a) && PnlAgrees(a) && Recorded(a, f).Ok? && p == PositionIn(a, Upper(f.symbol))
    requires Pips(0.0)
    ensures var b, symbol := After(a, f), Upper(f.symbol);
            var gain := if f.side == Some(Sell) then TradePnl(p, f) else 0.0;
            && symbol in b.positions && b.positions[symbol].realizedPnl == p.realizedPnl + gain
            && b.realizedPnl == a.realizedPnl + gain
            && b.positions == a.positions[symbol := b.positions[symbol]]
  {
    hide HalfEven4, Upper, FillPrice, OrderCost, FillCharges, Notional, Total, Pips, Solvent;
    PipsSum(p.realizedPnl, TradePnl(p, f));
    PipsSum(a.realizedPnl, TradePnl(p, f));
  }

  lemma TradePnlIsFine(p: PaperPosition, f: PaperFill)
    requires f.side == Some(Sell)
    ensures Pips(TradePnl(p, f))
  {
    hide Pips;
  }

  lemma FillKeepsPnl(a: Account, f: PaperFill)
    requires Solvent(a) && PnlAgrees(a)
    ensures PnlAgrees(After(a, f))
  {
    if Recorded(a, f).Ok? {
      var symbol := Upper(f.symbol);
      var p := PositionIn(a, symbol);
      ZeroIsOnGrid();
      GainIsTradePnl(a, f, p);
      var b := After(a, f);
      if f.side == Some(Sell) { TradePnlIsFine(p, f); }
      hide Recorded, After, Upper, Total, Pips, Solvent, TradePnl;
      var gain := if f.side == Some(Sell) then TradePnl(p, f) else 0.0;
      PipsSum(p.realizedPnl, gain);
      PipsSum(a.realizedPnl, gain);
      TotalAfterWrite(a.positions, RealizedOf, symbol, b.positions[symbol]);
    }
  }

  /** After any fills the portfolio's realised P&L is the sum of its positions', those sold out included. */
  lemma {:induction false} RunKeepsPnl(a: Account, fills: seq<PaperFill>)
    requires Solvent(a) && PnlAgrees(a)
    ensures PnlAgrees(Run(a, fills))
  {
    hide PnlAgrees, After;
    if fills != [] {
      RunKeepsPnl(a, fills[..|fills| - 1]);
      FillKeepsPnl(Run(a, fills[..|fills| - 1]), fills[|fills| - 1]);
    }
  }

  /** A sale realises, on its own position and on the portfolio, the gain on the average less its charges; a purchase
      realises nothing. */
  lemma SaleRealizesGain(a: Account, f: PaperFill)
    requires Solvent(a) && PnlAgrees(a) && Recorded(a, f).Ok?
    ensures var b, symbol := After(a, f), Upper(f.symbol);
            var p := if symbol in a.positions then a.positions[symbol] else NoPosition;
            var gain := b.positions[symbol].realizedPnl - p.realizedPnl;
            && symbol in b.positions && b.realizedPnl - a.realizedPnl == gain
            && (f.side == Some(Buy) ==> gain == 0.0)
            && (f.side == Some(Sell) ==>
                  var price := if f.applySlippage then EffectivePrice(f.price, Sell, f.volatility) else f.price;
                  Abs(gain - (Notional(f.quantity, price - p.averagePrice) - CostCharges(f))) <= 0.00005)
  {
    var p := PositionIn(a, Upper(f.symbol));
    ZeroIsOnGrid();
    GainIsTradePnl(a, f, p);
    if f.side == Some(Sell) { TradePnlIsGain(p, f); }
  }

  lemma TradePnlIsGain(p: PaperPosition, f: PaperFill)
    requires f.side == Some(Sell)
    ensures var price := if f.applySlippage then EffectivePrice(f.price, Sell, f.volatility) else f.price;
            Abs(TradePnl(p, f) - (Notional(f.quantity, price - p.averagePrice) - CostCharges(f))) <= 0.00005
  {
    hide HalfEven4, EffectivePrice, Notional, TransactionCosts.TransactionCosts;
  }

  // ---- Cost basis -------------------------------------------------------------------------------------------

  /** The cost basis is what the holding is carried at, up to rounding, plus the charges of the purchase that opened it
      until the next fill. */
  lemma CostBasisIsCarried(p: PaperPosition, f: PaperFill)
    requires WholeFill(f) && 0.0 < f.quantity && Whole(p.quantity) && Pips(p.averagePrice)
    ensures f.side == Some(Buy) && p.quantity == 0.0 ==>
              Bought(p, f).costBasis == Carried(Bought(p, f)) + CostCharges(f)
    ensures f.side == Some(Buy) && 0.0 < p.quantity ==>
              Abs(Bought(p, f).costBasis - Carried(Bought(p, f))) <= (p.quantity + f.quantity) * 0.00005 + 0.00005
    ensures f.side == Some(Sell) && f.quantity <= p.quantity ==> Sold(p, f).costBasis == Carried(Sold(p, f))
  {
    if f.side == Some(Buy) && p.quantity == 0.0 {
      OpeningBasis(p, f);
    } else if f.side == Some(Buy) && 0.0 < p.quantity {
      AdditionalBasis(p, f);
    } else if f.side == Some(Sell) && f.quantity <= p.quantity {
      SaleBasis(p, f);
    }
  }

  lemma OpeningBasis(p: PaperPosition, f: PaperFill)
    requires WholeFill(f) && 0.0 < f.quantity && f.side == Some(Buy) && p.quantity == 0.0
    ensures Bought(p, f).costBasis == Carried(Bought(p, f)) + CostCharges(f)
  {
    OpeningBuy(p, f);
    hide HalfEven4, EffectivePrice, Notional, TransactionCosts.TransactionCosts, WholeFill;
    NotionalOfZero(p.averagePrice);
  }

  lemma AdditionalBasis(p: PaperPosition, f: PaperFill)
    requires WholeFill(f) && 0.0 < f.quantity && f.side == Some(Buy) && Whole(p.quantity) && 0.0 < p.quantity
    ensures Abs(Bought(p, f).costBasis - Carried(Bought(p, f))) <= (p.quantity + f.quantity) * 0.00005 + 0.00005
  {
    AdditionalBuy(p, f);
    hide HalfEven4, FillPrice, OrderCost, FillCharges, Notional, WholeFill, Whole, Pips;
  }

  lemma SaleBasis(p: PaperPosition, f: PaperFill)
    requires WholeFill(f) && 0.0 < f.quantity <= p.quantity && f.side == Some(Sell)
    requires Whole(p.quantity) && Pips(p.averagePrice)
    ensures Sold(p, f).costBasis == Carried(Sold(p, f))
  {
    hide HalfEven4, FillPrice, OrderCost, FillCharges, Notional, Whole, Pips;
    var left := p.quantity - f.quantity;
    WholeSum(p.quantity, f.quantity);
    WholeArePips(left);
    NotionalOnGrid(left, p.averagePrice);
    NotionalOfZero(0.0);
  }

  // ---- One round trip ---------------------------------------------------------------------------------------

  function Trade(side: Side): PaperFill {
    PaperFill("sbin", Some(side), 10.0, 100.0, true, "", Delivery, false, None, true)
  }

  const Opened := Account(2000.0, 0.0, map[], {})

  const Holding10 := PaperPosition(10.0, 100.0, 1001.19, 0.0)

  /** Ten shares bought and sold at 100 with delivery charges: 1.19 for the purchase and 1.04 for the sale are gone, and
      the sale's are realised. */
  lemma RoundTripCosts()
    ensures Solvent(Opened)
    ensures var b := After(Opened, Trade(Buy));
            && b == Account(998.81, 0.0, map["SBIN" := Holding10], {})
            && Solvent(b)
            && After(b, Trade(Sell))
               == Account(1997.77, -1.04, map["SBIN" := PaperPosition(0.0, 0.0, 0.0, -1.04)], {})
  {
    FirstLeg();
    SecondLeg();
  }

  lemma SbinIsUpper()
    ensures Upper("sbin") == "SBIN"
  {}

  lemma LegAmounts(side: Side)
    ensures var f := Trade(side);
            && OrderCost(f) == 1000.0 && FillCharges(f) == (if side.Buy? then 1.19 else 1.04)
            && FillPrice(f) == 100.0
            && (side.Buy? ==> Bought(NoPosition, f) == Holding10)
            && (side.Sell? ==>
                  TradePnl(Holding10, f) == -1.04 && Sold(Holding10, f) == PaperPosition(0.0, 0.0, 0.0, -1.04))
  {
    DeliveryCharges();
    Grid();
    hide Charges, HalfEven4, Pips;
    NotionalIs(10.0, 100.0);
    NotionalIs(10.0, 0.0);
    hide Notional;
  }

  lemma FirstLeg()
    ensures Solvent(Opened) && After(Opened, Trade(Buy)) == Account(998.81, 0.0, map["SBIN" := Holding10], {})
  {
    LegAmounts(Buy);
    SbinIsUpper();
    Grid();
    hide Upper, HalfEven4, Pips, OrderCost, FillCharges, Bought, Sold, TradePnl;
  }

  lemma SecondLeg()
    ensures var b := Account(998.81, 0.0, map["SBIN" := Holding10], {});
            && Solvent(b)
            && After(b, Trade(Sell))
               == Account(1997.77, -1.04, map["SBIN" := PaperPosition(0.0, 0.0, 0.0, -1.04)], {})
  {
    LegAmounts(Sell);
    SbinIsUpper();
    Grid();
    hide Upper, HalfEven4, Pips, OrderCost, FillCharges, Bought, Sold, TradePnl;
  }

  lemma Grid()
    ensures HalfEven4(1000.0) == 1000.0 && HalfEven4(998.81) == 998.81 && HalfEven4(998.96) == 998.96
    ensures HalfEven4(1997.77) == 1997.77 && HalfEven4(-1.04) == -1.04
    ensures HalfEven4(10.0) == 10.0 && HalfEven4(100.0) == 100.0 && HalfEven4(0.0) == 0.0
  {
    WholeBy(1000.0 * 10000.0, 10000000);
    WholeBy(998.81 * 10000.0, 9988100);
    WholeBy(10.0 * 10000.0, 100000);
    WholeBy(100.0 * 10000.0, 1000000);
    WholeBy(998.96 * 10000.0, 9989600);
    WholeBy(1997.77 * 10000.0, 19977700);
    WholeBy(-1.04 * 10000.0, -10400);
    WholeBy(0.0 * 10000.0, 0);
    hide HalfEven4;
  }

  lemma DeliveryCharges()
    ensures Charges(1000.0, Buy, Delivery) == 1.19 && Charges(1000.0, Sell, Delivery) == 1.04
  {
    WholeBy(1000.0 * 100.0, 100000);
    WholeBy(0.0 * 100.0, 0);
    WholeBy(1.0 * 100.0, 100);
    WholeBy(0.03 * 100.0, 3);
    WholeBy(0.15 * 100.0, 15);
    WholeBy(0.01 * 100.0, 1);
    WholeBy(1.19 * 100.0, 119);
    WholeBy(1.04 * 100.0, 104);
    hide HalfUp2;
    NearestCent(1000.0, 1000.0);
    NearestCent(0.0, 0.0);
    NearestCent(1.0, 1.0);
    NearestCent(0.0297, 0.03);
    NearestCent(0.001, 0.0);
    NearestCent(0.15, 0.15);
    NearestCent(0.03 * 0.18, 0.01);
    NearestCent(1.19, 1.19);
    NearestCent(1.04, 1.04);
    var b := TransactionCosts.TransactionCosts(1000.0, Buy, Delivery, NSE);
    assert b.brokerage == 0.0 && b.stt == 1.0 && b.exchangeCharges == 0.03;
    assert b.sebiCharges == 0.0 && b.stampDuty == 0.15 && b.gst == 0.01;
    var s := TransactionCosts.TransactionCosts(1000.0, Sell, Delivery, NSE);
    assert s.brokerage == 0.0 && s.stt == 1.0 && s.exchangeCharges == 0.03;
    assert s.sebiCharges == 0.0 && s.stampDuty == 0.0 && s.gst == 0.01;
  }
}
