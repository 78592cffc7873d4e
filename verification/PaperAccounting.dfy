/** The PAPER portfolio: cash, weighted averages and realised P&L under the rounding the service applies. */
module PaperAccounting {
  import opened Decimals
  import opened Market
  import opened MapSums
  import opened Text
  import opened TransactionCosts

  datatype PaperPosition = PaperPosition(quantity: real, averagePrice: real, costBasis: real, realizedPnl: real)

  datatype Account = Account(cash: real, realizedPnl: real, positions: map<string, PaperPosition>,
                             processed: set<string>)

  /** `side` is None when the request names neither BUY nor SELL; `executionId` is empty when there is none. */
  datatype PaperFill = PaperFill(symbol: string, side: Option<Side>, quantity: real, price: real, paperMode: bool,
                                 executionId: string, product: Product, applySlippage: bool,
                                 volatility: Option<real>, applyCosts: bool)

  datatype Error = InvalidMode | DuplicateExecution | InvalidFill | InsufficientCash | InsufficientPosition

  const NoPosition := PaperPosition(0.0, 0.0, 0.0, 0.0)

  function PositionIn(a: Account, symbol: string): PaperPosition {
    if symbol in a.positions then a.positions[symbol] else NoPosition
  }

  function Refusal(a: Account, f: PaperFill): Option<Error> {
    if !f.paperMode then Some(InvalidMode)
    else if f.executionId != "" && f.executionId in a.processed then Some(DuplicateExecution)
    else if f.quantity <= 0.0 || f.price < 0.0 || f.side.None? then Some(InvalidFill)
    else None
  }

  function FillPrice(f: PaperFill): real
    requires f.side.Some?
  {
    if f.applySlippage then EffectivePrice(f.price, f.side.value, f.volatility) else f.price
  }

  function OrderCost(f: PaperFill): real
    requires f.side.Some?
  {
    HalfEven4(Notional(f.quantity, FillPrice(f)))
  }

  function FillCharges(f: PaperFill): real
    requires f.side.Some?
  {
    if f.applyCosts then Charges(OrderCost(f), f.side.value, f.product) else 0.0
  }

  function Bought(p: PaperPosition, f: PaperFill): PaperPosition
    requires f.side.Some? && 0.0 <= p.quantity && 0.0 < f.quantity
  {
    var required := OrderCost(f) + FillCharges(f);
    if p.quantity == 0.0 then
      PaperPosition(HalfEven4(f.quantity), HalfEven4(FillPrice(f)), required, p.realizedPnl)
    else
      var totalCost := Notional(p.quantity, p.averagePrice) + required;
      var quantity := p.quantity + f.quantity;
      PaperPosition(HalfEven4(quantity), HalfEven4(totalCost / quantity), HalfEven4(totalCost), p.realizedPnl)
  }

  function TradePnl(p: PaperPosition, f: PaperFill): real
    requires f.side.Some?
  {
    HalfEven4(Notional(f.quantity, FillPrice(f) - p.averagePrice) - FillCharges(f))
  }

  function Sold(p: PaperPosition, f: PaperFill): PaperPosition
    requires f.side.Some?
  {
    var realized := HalfEven4(p.realizedPnl + TradePnl(p, f));
    var quantity := p.quantity - f.quantity;
    if quantity > 0.0 then
      PaperPosition(HalfEven4(quantity), p.averagePrice, HalfEven4(Notional(quantity, p.averagePrice)), realized)
    else
      PaperPosition(0.0, 0.0, 0.0, realized)
  }

  ghost predicate LongOnly(a: Account) {
    forall symbol :: symbol in a.positions ==> 0.0 <= a.positions[symbol].quantity
  }

  /** The account after a fill, or why the fill was refused. */
  function Recorded(a: Account, f: PaperFill): Result<Account, Error>
    requires LongOnly(a)
  {
    if Refusal(a, f).Some? then Err(Refusal(a, f).value)
    else
      var symbol := Upper(f.symbol);
      var p := PositionIn(a, symbol);
      var processed := if f.executionId != "" then a.processed + {f.executionId} else a.processed;
      if f.side.value.Buy? then
        var required := OrderCost(f) + FillCharges(f);
        if a.cash < required then Err(InsufficientCash)
        else Ok(Account(HalfEven4(a.cash - required), a.realizedPnl, a.positions[symbol := Bought(p, f)], processed))
      else if f.quantity > p.quantity then Err(InsufficientPosition)
      else
        var proceeds := HalfEven4(OrderCost(f) - FillCharges(f));
        Ok(Account(HalfEven4(a.cash + proceeds), HalfEven4(a.realizedPnl + TradePnl(p, f)),
                   a.positions[symbol := Sold(p, f)], processed))
  }

  // ---- Nothing goes negative --------------------------------------------------------------------------------

  ghost predicate Solvent(a: Account) {
    && 0.0 <= a.cash
    && forall symbol :: symbol in a.positions ==>
         0.0 <= a.positions[symbol].quantity && 0.0 <= a.positions[symbol].averagePrice
  }

  lemma HalfEven4KeepsSign(x: real)
    requires 0.0 <= x
    ensures 0.0 <= HalfEven4(x)
  {}

  lemma CostsAreCovered(f: PaperFill)
    requires f.side.Some? && 0.0 < f.quantity && 0.0 <= f.price
    ensures 0.0 <= FillPrice(f) && 0.0 <= FillCharges(f) <= OrderCost(f)
  {
    hide HalfEven4, Charges, SlippageAmount, HalfUp2;
    if f.applySlippage {
      SlippageBounds(f.price, f.volatility);
      RoundedBounds(f.price + SlippageAmount(f.price, f.volatility), f.price + SlippageAmount(f.price, f.volatility));
    }
    NotionalNonNegative(f.quantity, FillPrice(f));
    HalfEven4KeepsSign(Notional(f.quantity, FillPrice(f)));
    ChargesBelowValue(OrderCost(f), f.side.value, f.product, NSE);
  }

  lemma PositionsStaySolvent(p: PaperPosition, f: PaperFill)
    requires 0.0 <= p.quantity && 0.0 <= p.averagePrice
    requires f.side.Some? && 0.0 < f.quantity && 0.0 <= f.price
    ensures 0.0 <= Bought(p, f).quantity && 0.0 <= Bought(p, f).averagePrice
    ensures f.quantity <= p.quantity ==> 0.0 <= Sold(p, f).quantity && 0.0 <= Sold(p, f).averagePrice
  {
    hide HalfEven4, FillPrice, FillCharges, OrderCost, Notional;
    CostsAreCovered(f);
    HalfEven4KeepsSign(f.quantity);
    HalfEven4KeepsSign(FillPrice(f));
    var quantity := p.quantity + f.quantity;
    HalfEven4KeepsSign(quantity);
    NotionalNonNegative(p.quantity, p.averagePrice);
    var total := Notional(p.quantity, p.averagePrice) + (OrderCost(f) + FillCharges(f));
    DivideNonNegative(total, quantity);
    HalfEven4KeepsSign(total / quantity);
    if f.quantity < p.quantity { HalfEven4KeepsSign(p.quantity - f.quantity); }
  }

  lemma DivideNonNegative(x: real, q: real)
    requires 0.0 <= x && 0.0 < q
    ensures 0.0 <= x / q
  {}

  /** No fill, of any size and price, takes cash or a holding below zero. */
  lemma FillKeepsSolvent(a: Account, f: PaperFill)
    requires Solvent(a) && Recorded(a, f).Ok?
    ensures Solvent(Recorded(a, f).value)
  {
    hide HalfEven4, FillPrice, FillCharges, OrderCost, TradePnl, Bought, Sold, Upper;
    CostsAreCovered(f);
    PositionsStaySolvent(PositionIn(a, Upper(f.symbol)), f);
    if f.side.value.Buy? {
      HalfEven4KeepsSign(a.cash - (OrderCost(f) + FillCharges(f)));
    } else {
      HalfEven4KeepsSign(OrderCost(f) - FillCharges(f));
      HalfEven4KeepsSign(a.cash + HalfEven4(OrderCost(f) - FillCharges(f)));
    }
  }

  /** The account after a sequence of requests; a refused one changes nothing. */
  ghost function Run(a: Account, fills: seq<PaperFill>): (r: Account)
    requires Solvent(a)
    ensures Solvent(r)
  {
    if fills == [] then a
    else
      var before := Run(a, fills[..|fills| - 1]);
      After(before, fills[|fills| - 1])
  }

  ghost function After(a: Account, f: PaperFill): (r: Account)
    requires Solvent(a)
    ensures Solvent(r)
  {
    match Recorded(a, f)
    case Ok(b) => FillKeepsSolvent(a, f); b
    case Err(_) => a
  }

  // ---- Conservation -----------------------------------------------------------------------------------------

  function Carried(p: PaperPosition): real { Notional(p.quantity, p.averagePrice) }

  ghost function HoldingsAtCost(a: Account): real { Total(a.positions, Carried) }

  /** Cash and holdings at cost, less what has been realised. */
  ghost function Book(a: Account): real { a.cash + HoldingsAtCost(a) - a.realizedPnl }

  ghost predicate Tidy(a: Account) {
    && Pips(a.cash) && Pips(a.realizedPnl)
    && forall symbol :: symbol in a.positions ==>
         Whole(a.positions[symbol].quantity) && Pips(a.positions[symbol].averagePrice)
  }

  /** Whole shares at a price in paise; slippage makes any price one. */
  predicate WholeFill(f: PaperFill) {
    Whole(f.quantity) && (f.applySlippage || Cents(f.price))
  }

  /** Charges that leave the book: those of a purchase that opens a position. */
  function OpeningCharges(a: Account, f: PaperFill): real {
    if f.side == Some(Buy) && PositionIn(a, Upper(f.symbol)).quantity == 0.0 then FillCharges(f) else 0.0
  }

  /** The quantity whose average is newly rounded: what is held after an additional purchase. */
  function Reaveraged(a: Account, f: PaperFill): real {
    var held := PositionIn(a, Upper(f.symbol)).quantity;
    if f.side == Some(Buy) && held != 0.0 then held + f.quantity else 0.0
  }

  lemma ExactCost(f: PaperFill)
    requires WholeFill(f) && f.side.Some?
    ensures Pips(FillPrice(f)) && OrderCost(f) == Notional(f.quantity, FillPrice(f))
    ensures Pips(OrderCost(f)) && Pips(FillCharges(f))
  {
    hide HalfEven4, EffectivePrice, Charges, Notional, Whole, Pips, Cents;
    CentsArePips(FillPrice(f));
    NotionalOnGrid(f.quantity, FillPrice(f));
    OneCent();
    CentsArePips(FillCharges(f));
  }

  /** Opening a position moves its cost, less the charges, from cash into the book exactly. */
  lemma OpeningBuy(p: PaperPosition, f: PaperFill)
    requires WholeFill(f) && f.side == Some(Buy) && p.quantity == 0.0 && 0.0 < f.quantity
    ensures var q := Bought(p, f);
            && Whole(q.quantity) && Pips(q.averagePrice)
            && Notional(q.quantity, q.averagePrice) == Notional(p.quantity, p.averagePrice) + OrderCost(f)
  {
    hide FillPrice, FillCharges, OrderCost, Notional, Whole, Pips;
    ExactCost(f);
    WholeArePips(f.quantity);
    NotionalOfZero(p.averagePrice);
  }

  /** An additional purchase is carried at cost, charges included, up to the rounding of the new average. */
  lemma AdditionalBuy(p: PaperPosition, f: PaperFill)
    requires WholeFill(f) && f.side == Some(Buy) && Whole(p.quantity) && 0.0 < p.quantity && 0.0 < f.quantity
    ensures var q := Bought(p, f);
            && Whole(q.quantity) && Pips(q.averagePrice)
            && Abs(Notional(q.quantity, q.averagePrice)
                   - Notional(p.quantity, p.averagePrice) - OrderCost(f) - FillCharges(f))
               <= (p.quantity + f.quantity) * 0.00005
  {
    hide HalfEven4, FillPrice, FillCharges, OrderCost, Whole, Pips;
    WholeSum(p.quantity, f.quantity);
    var quantity := p.quantity + f.quantity;
    WholeArePips(quantity);
    var total := Notional(p.quantity, p.averagePrice) + (OrderCost(f) + FillCharges(f));
    DivideBack(total, quantity);
    RoundedAverage(quantity, total / quantity, HalfEven4(total / quantity));
  }

  /** A sale takes out of cash, book and realised P&L amounts that cancel exactly. */
  lemma AnySell(p: PaperPosition, f: PaperFill)
    requires WholeFill(f) && f.side == Some(Sell) && Whole(p.quantity) && Pips(p.averagePrice)
    requires 0.0 < f.quantity <= p.quantity
    ensures var q := Sold(p, f);
            && Whole(q.quantity) && Pips(q.averagePrice) && Pips(TradePnl(p, f))
            && OrderCost(f) - FillCharges(f) + Notional(q.quantity, q.averagePrice) - TradePnl(p, f)
               == Notional(p.quantity, p.averagePrice)
  {
    hide HalfEven4, FillPrice, FillCharges, OrderCost, Notional, Whole, Pips;
    ExactCost(f);
    var gain := FillPrice(f) - p.averagePrice;
    PipsSum(FillPrice(f), p.averagePrice);
    NotionalOnGrid(f.quantity, gain);
    PipsSum(Notional(f.quantity, gain), FillCharges(f));
    NotionalOfGain(f.quantity, FillPrice(f), p.averagePrice);
    NotionalSplits(p.quantity, f.quantity, p.averagePrice);
    NotionalOfZero(0.0);
    NotionalOfZero(p.averagePrice);
    WholeSum(p.quantity, f.quantity);
    WholeArePips(p.quantity - f.quantity);
    ZeroIsOnGrid();
  }

  lemma FillConserves(a: Account, f: PaperFill)
    requires Solvent(a) && Tidy(a) && WholeFill(f) && Recorded(a, f).Ok?
    ensures Tidy(After(a, f))
    ensures Abs(Book(After(a, f)) - Book(a) + OpeningCharges(a, f)) <= Reaveraged(a, f) * 0.00005
  {
    hide HalfEven4, FillPrice, FillCharges, OrderCost, TradePnl, Bought, Sold, Upper, Notional, Total, Whole, Pips;
    var symbol := Upper(f.symbol);
    var p := PositionIn(a, symbol);
    var cost, charges := OrderCost(f), FillCharges(f);
    ExactCost(f);
    NotionalOfZero(0.0);
    ZeroIsOnGrid();
    PipsSum(cost, charges);
    if f.side.value.Buy? {
      TotalAfterWrite(a.positions, Carried, symbol, Bought(p, f));
      PipsSum(a.cash, cost + charges);
      if p.quantity == 0.0 { OpeningBuy(p, f); } else { AdditionalBuy(p, f); }
    } else {
      TotalAfterWrite(a.positions, Carried, symbol, Sold(p, f));
      AnySell(p, f);
      PipsSum(a.cash, cost - charges);
      PipsSum(a.realizedPnl, TradePnl(p, f));
    }
  }

  ghost function RunOpeningCharges(a: Account, fills: seq<PaperFill>): real
    requires Solvent(a)
  {
    if fills == [] then 0.0
    else
      var last := |fills| - 1;
      var before := Run(a, fills[..last]);
      RunOpeningCharges(a, fills[..last])
      + (if Recorded(before, fills[last]).Ok? then OpeningCharges(before, fills[last]) else 0.0)
  }

  ghost function RunReaveraged(a: Account, fills: seq<PaperFill>): real
    requires Solvent(a)
  {
    if fills == [] then 0.0
    else
      var last := |fills| - 1;
      var before := Run(a, fills[..last]);
      RunReaveraged(a, fills[..last])
      + (if Recorded(before, fills[last]).Ok? then Reaveraged(before, fills[last]) else 0.0)
  }

  /** For every run of whole-share fills at prices in paise: cash plus holdings at average price less realised P&L
      stays at its start less the charges of opening purchases, up to 0.00005 per share held after each additional
      purchase. Sales and opening purchases contribute no error. */
  lemma {:induction false} RunConserves(a: Account, fills: seq<PaperFill>)
    requires Solvent(a) && Tidy(a)
    requires forall f :: f in fills ==> WholeFill(f)
    ensures Tidy(Run(a, fills))
    ensures Abs(Book(Run(a, fills)) - (Book(a) - RunOpeningCharges(a, fills))) <= RunReaveraged(a, fills) * 0.00005
  {
    hide Recorded, Book, OpeningCharges, Reaveraged, Tidy, WholeFill;
    if fills != [] {
      var last := |fills| - 1;
      RunConserves(a, fills[..last]);
      var before := Run(a, fills[..last]);
      if Recorded(before, fills[last]).Ok? {
        FillConserves(before, fills[last]);
      }
    }
  }

  // ---- Replays ----------------------------------------------------------------------------------------------

  ghost function Acceptances(a: Account, fills: seq<PaperFill>, executionId: string): nat
    requires Solvent(a)
  {
    if fills == [] then 0
    else
      var last := |fills| - 1;
      var before := Run(a, fills[..last]);
      Acceptances(a, fills[..last], executionId)
      + (if fills[last].executionId == executionId && Recorded(before, fills[last]).Ok? then 1 else 0)
  }

  /** In every run, a named execution is booked at most once. */
  lemma {:induction false} BookedOnce(a: Account, fills: seq<PaperFill>, executionId: string)
    requires Solvent(a) && executionId != ""
    ensures Acceptances(a, fills, executionId) <= 1
    ensures executionId in Run(a, fills).processed
            <==> executionId in a.processed || Acceptances(a, fills, executionId) == 1
    ensures executionId in a.processed ==> Acceptances(a, fills, executionId) == 0
  {
    hide Solvent, FillPrice, FillCharges, OrderCost, TradePnl, Bought, Sold, Upper;
    if fills != [] { BookedOnce(a, fills[..|fills| - 1], executionId); }
  }

  // ---- The service ------------------------------------------------------------------------------------------

  class PaperPortfolio {
    var cash: real
    var realizedPnl: real
    var positions: map<string, PaperPosition>
    var processed: set<string>

    ghost function Contents(): Account
      reads this
    {
      Account(cash, realizedPnl, positions, processed)
    }

    constructor (initialBalance: real)
      ensures Contents() == Account(initialBalance, 0.0, map[], {})
    {
      cash, realizedPnl, positions, processed := initialBalance, 0.0, map[], {};
    }

    /** A first purchase sets the average; a further one spreads the whole cost, charges included. */
    method AddTo(p: PaperPosition, f: PaperFill, price: real, required: real) returns (position: PaperPosition)
      requires f.side.Some? && 0.0 <= p.quantity && 0.0 < f.quantity
      requires price == FillPrice(f) && required == OrderCost(f) + FillCharges(f)
      ensures position == Bought(p, f)
    {
      hide FillPrice, OrderCost, FillCharges, HalfEven4;
      if p.quantity == 0.0 {
        position := p.(quantity := HalfEven4(f.quantity), averagePrice := HalfEven4(price), costBasis := required);
      } else {
        var totalCost := Notional(p.quantity, p.averagePrice) + required;
        var newQuantity := p.quantity + f.quantity;
        var newAverage := totalCost / newQuantity;
        position := p.(quantity := HalfEven4(newQuantity), averagePrice := HalfEven4(newAverage),
                       costBasis := HalfEven4(totalCost));
      }
    }

    method TakeFrom(p: PaperPosition, f: PaperFill, pnl: real) returns (position: PaperPosition)
      requires f.side.Some? && pnl == TradePnl(p, f)
      ensures position == Sold(p, f)
    {
      hide TradePnl, HalfEven4;
      position := p.(realizedPnl := HalfEven4(p.realizedPnl + pnl));
      var newQuantity := p.quantity - f.quantity;
      if newQuantity > 0.0 {
        position := position.(quantity := HalfEven4(newQuantity),
                              costBasis := HalfEven4(Notional(newQuantity, p.averagePrice)));
      } else {
        position := position.(quantity := 0.0, averagePrice := 0.0, costBasis := 0.0);
      }
    }

    method RecordFill(f: PaperFill) returns (result: Result<PaperPosition, Error>)
      requires Solvent(Contents())
      modifies this
      ensures Contents() == After(old(Contents()), f)
      ensures match Recorded(old(Contents()), f)
              case Ok(b) => result == Ok(PositionIn(b, Upper(f.symbol)))
              case Err(e) => result == Err(e)
    {
      hide FillPrice, HalfEven4, Upper, Bought, Sold, Charges, Notional;
      if !f.paperMode {
        return Err(InvalidMode);
      }
      if f.executionId != "" && f.executionId in processed {
        return Err(DuplicateExecution);
      }
      if f.quantity <= 0.0 || f.price < 0.0 || f.side.None? {
        return Err(InvalidFill);
      }
      var symbol := Upper(f.symbol);
      var position := NoPosition;
      if symbol in positions {
        position := positions[symbol];
      }
      var price := FillPrice(f);
      var cost := HalfEven4(Notional(f.quantity, price));
      var charges := 0.0;
      if f.applyCosts {
        charges := Charges(cost, f.side.value, f.product);
      }
      if f.side.value.Buy? {
        var required := cost + charges;
        if cash < required {
          return Err(InsufficientCash);
        }
        cash := HalfEven4(cash - required);
        position := AddTo(position, f, price, required);
      } else {
        if f.quantity > position.quantity {
          return Err(InsufficientPosition);
        }
        var proceeds := HalfEven4(cost - charges);
        cash := HalfEven4(cash + proceeds);
        var pnl := HalfEven4(Notional(f.quantity, price - position.averagePrice) - charges);
        realizedPnl := HalfEven4(realizedPnl + pnl);
        position := TakeFrom(position, f, pnl);
      }
      positions := positions[symbol := position];
      if f.executionId != "" {
        processed := processed + {f.executionId};
      }
      result := Ok(position);
    }

    /** The positions, and what the risk checks take as their exposure: the holdings at cost. */
    method GetExposure() returns (rows: seq<Holding>, exposure: real)
      requires Solvent(Contents())
      ensures forall h :: h in rows <==> Lists(Contents(), h)
      ensures |rows| == |positions|
      ensures exposure == HoldingsAtCost(Contents())
    {
      hide Notional;
      var table := positions;
      ghost var row := (k: string) => if k in table then Carried(table[k]) else 0.0;
      rows, exposure := [], 0.0;
      var pending := table.Keys;
      while pending != {}
        invariant pending <= table.Keys && |rows| + |pending| == |table.Keys|
        invariant forall h :: h in rows <==> Lists(Contents(), h) && h.symbol !in pending
        invariant exposure + Sum(pending, row) == Sum(table.Keys, row)
        decreases |pending|
      {
        var symbol :| symbol in pending;
        var p := table[symbol];
        NotionalNonNegative(p.quantity, p.averagePrice);
        SumSplit(pending, row, symbol);
        rows := rows + [Holding(symbol, p.quantity, p.averagePrice)];
        exposure := exposure + Abs(Notional(p.quantity, p.averagePrice));
        pending := pending - {symbol};
      }
      assert |table.Keys| == |positions|;
      MapSums.TotalIsSum(table, Carried, row);
    }
  }

  datatype Holding = Holding(symbol: string, quantity: real, averagePrice: real)

  predicate Lists(a: Account, h: Holding) {
    h.symbol in a.positions
    && a.positions[h.symbol].quantity == h.quantity && a.positions[h.symbol].averagePrice == h.averagePrice
  }

  ghost function AllAtCost(portfolios: seq<PaperPortfolio>): real
    reads set p | p in portfolios
  {
    if portfolios == [] then 0.0
    else AllAtCost(portfolios[..|portfolios| - 1]) + HoldingsAtCost(portfolios[|portfolios| - 1].Contents())
  }

  /** The risk snapshot of a user: the positions of all the user's portfolios, and their holdings at cost together. */
  method GetRiskSnapshot(portfolios: seq<PaperPortfolio>) returns (snapshot: seq<Holding>, exposure: real)
    requires forall p :: p in portfolios ==> Solvent(p.Contents())
    ensures forall h :: h in snapshot <==> exists p :: p in portfolios && Lists(p.Contents(), h)
    ensures exposure == AllAtCost(portfolios)
  {
    hide Solvent, HoldingsAtCost;
    snapshot, exposure := [], 0.0;
    for i := 0 to |portfolios|
      invariant forall h :: h in snapshot <==> exists p :: p in portfolios[..i] && Lists(p.Contents(), h)
      invariant exposure == AllAtCost(portfolios[..i])
    {
      var rows, value := portfolios[i].GetExposure();
      assert portfolios[..i + 1][..i] == portfolios[..i];
      assert forall p :: p in portfolios[..i + 1] <==> p in portfolios[..i] || p == portfolios[i];
      snapshot, exposure := snapshot + rows, exposure + value;
    }
    assert portfolios[..|portfolios|] == portfolios;
  }
}
