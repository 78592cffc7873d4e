/** What every bucket keeps through every bar. */
module BacktestLedger {
  import opened Decimals
  import opened Market
  import opened TransactionCosts
  import opened Drawdown
  import opened Backtest

  // ---- What is kept -----------------------------------------------------------------------------------------

  /** Every purchase signal is accounted for once, and no position or completed trade goes uncounted. */
  predicate Counted(b: Bucket) {
    && b.signalsGenerated == b.tradesExecuted + b.blockedCapital + b.blockedRisk
    && |b.trades| + (if b.quantity != 0.0 then 1 else 0) <= b.tradesExecuted
    && 0.0 <= b.quantity
  }

  /** Every executed signal is a completed trade or the open position. */
  predicate Audited(b: Bucket) {
    && b.signalsGenerated == b.tradesExecuted + b.blockedCapital + b.blockedRisk
    && b.tradesExecuted == |b.trades| + (if b.quantity != 0.0 then 1 else 0)
  }

  /** What rounding moves when a holding is booked: the price of every share, and the quantity unless it is fine. */
  function Rounding(fine: bool, quantity: real, price: real): real {
    quantity * 0.00005 + (if fine then 0.0 else (Abs(price) + 0.00005) * 0.00005)
  }

  /** What rounding to four decimals may have moved in the completed trades: the holding, the cash twice and the
      realised P&L once. */
  function TradeDrift(fine: bool, trades: seq<Trade>): real {
    if trades == [] then 0.0
    else
      var t := trades[|trades| - 1];
      TradeDrift(fine, trades[..|trades| - 1]) + (Rounding(fine, t.quantity, t.entryPrice) + 0.00015)
  }

  function Drift(fine: bool, b: Bucket): real {
    TradeDrift(fine, b.trades) + (if b.quantity != 0.0 then 0.00005 else 0.0)
  }

  function BookedCost(b: Bucket): real {
    if b.quantity == 0.0 then 0.0 else Notional(b.quantity, b.averagePrice) + b.entryCharges
  }

  /** Cash and cost basis are the initial capital and the realised P&L up to what rounding has moved. */
  predicate Balanced(fine: bool, b: Bucket) {
    && Abs(b.cash + b.costBasis - b.initialCapital - b.realizedPnl) <= Drift(fine, b)
    && (if b.quantity == 0.0 then b.costBasis == 0.0
        else Abs(b.costBasis - BookedCost(b)) <= Rounding(fine, b.quantity, b.averagePrice))
  }

  predicate OnGrids(b: Bucket) {
    && Pips(b.cash) && Pips(b.initialCapital) && Pips(b.realizedPnl)
    && Whole(b.quantity) && Cents(b.averagePrice) && Cents(b.entryCharges)
  }

  /** Cash and cost basis are the initial capital and the realised P&L to the last decimal. */
  predicate Funded(b: Bucket) {
    b.cash + b.costBasis == b.initialCapital + b.realizedPnl && b.costBasis == BookedCost(b)
  }

  /** Quantities are asked for in at most four decimals. */
  ghost predicate FineSignals(strategy: Strategy) {
    forall id, history :: strategy(id, history).Some? && strategy(id, history).value.quantity.Some?
                          ==> Pips(strategy(id, history).value.quantity.value)
  }

  /** Quantities are asked for in whole shares. */
  ghost predicate WholeSignals(strategy: Strategy) {
    forall id, history :: strategy(id, history).Some? && strategy(id, history).value.quantity.Some?
                          ==> Whole(strategy(id, history).value.quantity.value)
  }

  /** Whole shares at prices that slippage has brought to the paisa: the ledger arithmetic does not round. */
  ghost predicate Unrounded(cfg: Config, strategy: Strategy) { cfg.applySlippage && WholeSignals(strategy) }

  ghost predicate Kept(cfg: Config, strategy: Strategy, b: Bucket) {
    && Counted(b)
    && (cfg.applySlippage ==> Min(0.0, b.initialCapital) <= b.cash && (b.quantity != 0.0 ==> 0.0 <= b.cash))
    && (Audited(b) ==> Balanced(FineSignals(strategy), b))
    && (FineSignals(strategy) ==> Audited(b) && Pips(b.quantity))
    && (Unrounded(cfg, strategy) && Pips(b.initialCapital) ==> OnGrids(b) && Funded(b))
  }

  // ---- Exit -------------------------------------------------------------------------------------------------

  lemma ChargesOnGrid(cfg: Config, value: real, side: Side)
    ensures Cents(FillCharges(cfg, value, side))
    ensures 0.0 <= value ==> 0.0 <= FillCharges(cfg, value, side) <= value
  {
    hide Charges;
    OneCent();
    if 0.0 <= value { ChargesBelowValue(value, side, cfg.product, NSE); }
  }

  lemma TradeDriftExtends(fine: bool, trades: seq<Trade>, t: Trade)
    ensures TradeDrift(fine, trades + [t])
            == TradeDrift(fine, trades) + (Rounding(fine, t.quantity, t.entryPrice) + 0.00015)
  {
    assert (trades + [t])[..|trades|] == trades;
  }

  lemma ExitStaysBalanced(fine: bool, cfg: Config, b: Bucket, bar: Bar)
    requires Balanced(fine, b) && 0.0 < b.quantity
    ensures Balanced(fine, Exited(cfg, b, bar))
  {
    hide Notional, Touched, HalfEven4, FillCharges, FillPrice, TradeDrift, Rounding;
    if Touched(cfg, b, bar).Some? {
      var (reason, level) := Touched(cfg, b, bar).value;
      var t := Closing(cfg, b, bar, reason, level);
      NotionalOfGain(b.quantity, t.exitPrice, b.averagePrice);
      TradeDriftExtends(fine, b.trades, t);
    }
  }

  lemma ExitPaysIn(cfg: Config, b: Bucket, bar: Bar, reason: Reason, level: real)
    requires cfg.applySlippage && 0.0 <= b.quantity
    ensures var t := Closing(cfg, b, bar, reason, level); 0.0 <= Notional(b.quantity, t.exitPrice) - t.exitCharges
  {
    hide Notional, FillCharges, Cents;
    var t := Closing(cfg, b, bar, reason, level);
    NotionalNonNegative(b.quantity, t.exitPrice);
    ChargesOnGrid(cfg, Notional(b.quantity, t.exitPrice), Sell);
  }

  lemma ExitAmounts(cfg: Config, b: Bucket, bar: Bar, reason: Reason, level: real)
    requires cfg.applySlippage && OnGrids(b) && Funded(b) && 0.0 < b.quantity
    ensures var t := Closing(cfg, b, bar, reason, level);
            var proceeds := Notional(b.quantity, t.exitPrice) - t.exitCharges;
            && Pips(t.netPnl) && Pips(proceeds)
            && proceeds == t.netPnl + b.costBasis
  {
    hide Notional, FillCharges, Whole, Cents, Pips, EffectivePrice;
    var t := Closing(cfg, b, bar, reason, level);
    ChargesOnGrid(cfg, Notional(b.quantity, t.exitPrice), Sell);
    CentsArePips(t.exitPrice);
    CentsArePips(t.exitCharges);
    CentsArePips(b.averagePrice);
    CentsArePips(b.entryCharges);
    NotionalOnGrid(b.quantity, t.exitPrice);
    NotionalOnGrid(b.quantity, b.averagePrice);
    NotionalOfGain(b.quantity, t.exitPrice, b.averagePrice);
    PipsSum(Notional(b.quantity, t.exitPrice), t.exitCharges);
    PipsSum(Notional(b.quantity, b.averagePrice), b.entryCharges);
    PipsSum(Notional(b.quantity, t.exitPrice) - t.exitCharges, Notional(b.quantity, b.averagePrice) + b.entryCharges);
  }

  lemma ExitStaysFunded(cfg: Config, b: Bucket, bar: Bar)
    requires cfg.applySlippage && OnGrids(b) && Funded(b) && 0.0 < b.quantity
    ensures OnGrids(Exited(cfg, b, bar)) && Funded(Exited(cfg, b, bar))
  {
    hide Notional, Closing, Touched, HalfEven4, Whole, Cents, Pips;
    if Touched(cfg, b, bar).Some? {
      var (reason, level) := Touched(cfg, b, bar).value;
      var t := Closing(cfg, b, bar, reason, level);
      ExitAmounts(cfg, b, bar, reason, level);
      PipsSum(b.cash, Notional(b.quantity, t.exitPrice) - t.exitCharges);
      PipsSum(b.realizedPnl, t.netPnl);
      ZeroIsOnGrid();
      OneCent();
    }
  }

  /** A touched level leaves the bucket's counters and books as they should be, whatever the configuration. */
  lemma ExitKeeps(cfg: Config, strategy: Strategy, b: Bucket, bar: Bar)
    requires Kept(cfg, strategy, b)
    ensures Kept(cfg, strategy, Exited(cfg, b, bar)) && Exited(cfg, b, bar).initialCapital == b.initialCapital
    ensures Exited(cfg, b, bar).quantity <= b.quantity
  {
    hide Notional, Closing, Touched, HalfEven4, Whole, Cents, Pips, WholeSignals, FineSignals;
    hide Balanced, OnGrids, Funded;
    if b.quantity > 0.0 && Touched(cfg, b, bar).Some? {
      var (reason, level) := Touched(cfg, b, bar).value;
      var t := Closing(cfg, b, bar, reason, level);
      ZeroIsOnGrid();
      if cfg.applySlippage {
        ExitPaysIn(cfg, b, bar, reason, level);
        RoundingKeepsSign(b.cash + (Notional(b.quantity, t.exitPrice) - t.exitCharges));
      }
      if Audited(b) { ExitStaysBalanced(FineSignals(strategy), cfg, b, bar); }
      if Unrounded(cfg, strategy) && Pips(b.initialCapital) { ExitStaysFunded(cfg, b, bar); }
    }
  }

  // ---- Entry ------------------------------------------------------------------------------------------------

  lemma QuantityIsFine(cfg: Config, b: Bucket, price: real, s: Signal)
    ensures (s.quantity.Some? ==> Whole(s.quantity.value)) ==> Whole(OrderQuantity(cfg, b, price, s))
    ensures (s.quantity.Some? ==> Pips(s.quantity.value)) ==> Pips(OrderQuantity(cfg, b, price, s))
  {
    hide AffordableQuantity, Whole, Pips;
    WholeInt(10);
    WholeArePips(10.0);
    AffordableIsWhole(b.cash, price);
    WholeArePips(AffordableQuantity(b.cash, price));
  }

  lemma AffordableIsWhole(cash: real, price: real)
    ensures Whole(AffordableQuantity(cash, price))
  {
    hide Truncated, Whole;
    ZeroIsOnGrid();
    var perShare := price * 1.002;
    if perShare > 0.0 { WholeInt(Truncated(cash / perShare)); }
  }

  /** A fill that goes through for a quantity so small that it is rounded away. */
  predicate Dust(cfg: Config, combined: real, b: Bucket, bar: Bar, s: Signal) {
    var price := FillPrice(cfg, bar.close, Buy, bar);
    var quantity := OrderQuantity(cfg, b, price, s);
    var cost := Notional(quantity, price);
    && 0.0 < quantity <= 0.00005
    && cost + FillCharges(cfg, cost, Buy) <= b.cash
    && (cfg.maxPositionQuantity.Some? ==> combined + quantity <= cfg.maxPositionQuantity.value)
  }

  /** Whatever is asked for, a signal is counted once; the trade counter goes on agreeing with the books if and only if
      the fill is no dust. */
  lemma EntryIsAuditedExactlyWhen(cfg: Config, combined: real, b: Bucket, bar: Bar, s: Signal)
    requires Counted(b) && b.quantity == 0.0
    ensures var c := Entered(cfg, combined, b, bar, s).0;
            Counted(c) && (Audited(c) <==> Audited(b) && !Dust(cfg, combined, b, bar, s))
  {
    hide Notional, OrderQuantity, FillPrice, FillCharges, HalfEven4, StopFor, TargetFor;
    var quantity := OrderQuantity(cfg, b, FillPrice(cfg, bar.close, Buy, bar), s);
    if quantity > 0.0 {
      RoundedAway(quantity);
      RoundingKeepsSign(quantity);
    }
  }

  /** An exit leaves the counters in the state they were in. */
  lemma ExitIsAuditedExactlyWhen(cfg: Config, b: Bucket, bar: Bar)
    requires Counted(b)
    ensures Counted(Exited(cfg, b, bar)) && (Audited(Exited(cfg, b, bar)) <==> Audited(b))
  {
    hide Touched, Closing, HalfEven4, Notional;
  }

  /** The bucket's signal at this bar is filled as dust. */
  predicate DustBar(cfg: Config, strategy: Strategy, combined: real, b: Bucket, bar: Bar) {
    var signal := strategy(b.id, b.history);
    signal.Some? && b.quantity == 0.0 && signal.value.side.Buy? && Dust(cfg, combined, b, bar, signal.value)
  }

  lemma BarIsAuditedExactlyWhen(cfg: Config, strategy: Strategy, combined: real, b: Bucket, bar: Bar)
    requires Counted(b)
    ensures var c := BarDone(cfg, strategy, combined, b, bar).0;
            Counted(c) && (Audited(c) <==> Audited(b) && !DustBar(cfg, strategy, combined, b, bar))
  {
    hide Entered, Dust, Observe, Equity;
    var signal := strategy(b.id, b.history);
    if signal.Some? && b.quantity == 0.0 && signal.value.side.Buy? {
      EntryIsAuditedExactlyWhen(cfg, combined, b, bar, signal.value);
    }
  }

  lemma RoundedAway(x: real)
    requires 0.0 < x
    ensures HalfEven4(x) == 0.0 <==> x <= 0.00005
  {}

  lemma EntryStaysBalanced(fine: bool, cfg: Config, combined: real, b: Bucket, bar: Bar, s: Signal)
    requires Counted(b) && Audited(b) && Balanced(fine, b) && b.quantity == 0.0
    requires fine ==> Pips(OrderQuantity(cfg, b, FillPrice(cfg, bar.close, Buy, bar), s))
    requires Audited(Entered(cfg, combined, b, bar, s).0)
    ensures Balanced(fine, Entered(cfg, combined, b, bar, s).0)
  {
    hide Notional, OrderQuantity, FillPrice, FillCharges, HalfEven4, StopFor, TargetFor, Pips, TradeDrift, Rounding;
    var price := FillPrice(cfg, bar.close, Buy, bar);
    var quantity := OrderQuantity(cfg, b, price, s);
    if quantity > 0.0 { RoundedHolding(fine, quantity, price); }
  }

  /** What rounding moves when quantity and price are booked. */
  lemma RoundedHolding(fine: bool, quantity: real, price: real)
    requires 0.0 < quantity && (fine ==> Pips(quantity))
    ensures Abs(Notional(quantity, price) - Notional(HalfEven4(quantity), HalfEven4(price)))
            <= Rounding(fine, HalfEven4(quantity), HalfEven4(price))
  {
    RoundingKeepsSign(quantity);
    hide HalfEven4, Pips;
    var q, p := HalfEven4(quantity), HalfEven4(price);
    HoldingMoves(q, p, quantity, price);
    hide Notional;
    NotionalIs(q, 0.00005);
    NotionalIs(0.00005, Abs(p) + 0.00005);
  }

  lemma HoldingMoves(q: real, p: real, quantity: real, price: real)
    requires 0.0 <= q && Abs(quantity - q) <= 0.00005 && Abs(price - p) <= 0.00005
    ensures Abs(Notional(quantity, price) - Notional(q, p))
            <= Notional(q, 0.00005) + (if quantity == q then 0.0 else Notional(0.00005, Abs(p) + 0.00005))
  {
    hide Notional;
    var dq, dp := quantity - q, price - p;
    NotionalSplits(q, dq, price);
    NotionalOfGain(q, price, p);
    AbsOfNotional(q, dp, q, 0.00005);
    AbsOfNotional(dq, price, 0.00005, Abs(p) + 0.00005);
    if dq == 0.0 { NotionalOfZero(price); }
  }

  lemma EntryStaysFunded(cfg: Config, combined: real, b: Bucket, bar: Bar, s: Signal)
    requires cfg.applySlippage && OnGrids(b) && Funded(b) && b.quantity == 0.0
    requires Whole(OrderQuantity(cfg, b, FillPrice(cfg, bar.close, Buy, bar), s))
    ensures OnGrids(Entered(cfg, combined, b, bar, s).0) && Funded(Entered(cfg, combined, b, bar, s).0)
  {
    hide Notional, OrderQuantity, FillCharges, EffectivePrice, HalfEven4, StopFor, TargetFor, Whole, Cents, Pips;
    var price := FillPrice(cfg, bar.close, Buy, bar);
    var quantity := OrderQuantity(cfg, b, price, s);
    var cost := Notional(quantity, price);
    WholeArePips(quantity);
    CentsArePips(price);
    NotionalOnGrid(quantity, price);
    ChargesOnGrid(cfg, cost, Buy);
    CentsArePips(FillCharges(cfg, cost, Buy));
    PipsSum(cost, FillCharges(cfg, cost, Buy));
    PipsSum(b.cash, cost + FillCharges(cfg, cost, Buy));
  }

  /** What may be held of a symbol: the configured maximum, up to the rounding of a quantity that is not fine. */
  ghost predicate WithinLimit(cfg: Config, strategy: Strategy, held: real) {
    cfg.maxPositionQuantity.Some? ==>
      held <= Max(0.0, cfg.maxPositionQuantity.value) + (if FineSignals(strategy) then 0.0 else 0.00005)
  }

  /** A fill takes its cost basis out of cash, never more than there is; a blocked signal takes nothing. */
  lemma EntryKeeps(cfg: Config, strategy: Strategy, combined: real, b: Bucket, bar: Bar, s: Signal)
    requires Kept(cfg, strategy, b) && b.quantity == 0.0
    requires FineSignals(strategy) ==> (s.quantity.Some? ==> Pips(s.quantity.value))
    requires WholeSignals(strategy) ==> (s.quantity.Some? ==> Whole(s.quantity.value))
    ensures var c := Entered(cfg, combined, b, bar, s).0;
            && Kept(cfg, strategy, c) && c.initialCapital == b.initialCapital
            && (c.quantity != 0.0 ==> WithinLimit(cfg, strategy, combined + c.quantity))
  {
    hide Notional, OrderQuantity, FillPrice, FillCharges, HalfEven4, StopFor, TargetFor, Whole, Cents, Pips;
    hide WholeSignals, FineSignals, Balanced, OnGrids, Funded;
    var price := FillPrice(cfg, bar.close, Buy, bar);
    var quantity := OrderQuantity(cfg, b, price, s);
    var cost := Notional(quantity, price);
    QuantityIsFine(cfg, b, price, s);
    if quantity > 0.0 {
      RoundedQuantity(quantity);
      if b.cash >= cost + FillCharges(cfg, cost, Buy) {
        RoundingKeepsSign(b.cash - (cost + FillCharges(cfg, cost, Buy)));
      }
    }
    EntryIsAuditedExactlyWhen(cfg, combined, b, bar, s);
    if Audited(Entered(cfg, combined, b, bar, s).0) {
      EntryStaysBalanced(FineSignals(strategy), cfg, combined, b, bar, s);
    }
    if Unrounded(cfg, strategy) && Pips(b.initialCapital) { EntryStaysFunded(cfg, combined, b, bar, s); }
  }

  lemma RoundingKeepsSign(x: real)
    requires 0.0 <= x
    ensures 0.0 <= HalfEven4(x)
  {}

  lemma RoundedQuantity(x: real)
    requires 0.0 < x
    ensures 0.0 <= HalfEven4(x) <= x + 0.00005 && Pips(HalfEven4(x))
    ensures Pips(x) ==> HalfEven4(x) == x
  {
    hide Pips;
    RoundingKeepsSign(x);
  }

  // ---- One bar ----------------------------------------------------------------------------------------------

  lemma SameLedger(cfg: Config, strategy: Strategy, b: Bucket, history: seq<Bar>, p: Peak)
    requires Kept(cfg, strategy, b)
    ensures Kept(cfg, strategy, b.(history := history)) && Kept(cfg, strategy, b.(peak := p))
  {
    hide Notional, Whole, Cents, Pips, Unrounded, FineSignals, TradeDrift;
  }

  /** One bar keeps a bucket's counters and books, for every configuration, price and strategy. */
  lemma BarKeeps(cfg: Config, strategy: Strategy, combined: real, b: Bucket, bar: Bar)
    requires Kept(cfg, strategy, b)
    ensures var c := BarDone(cfg, strategy, combined, b, bar).0;
            && Kept(cfg, strategy, c) && c.initialCapital == b.initialCapital && c.symbol == b.symbol
            && (c.quantity == b.quantity || (b.quantity == 0.0 && WithinLimit(cfg, strategy, combined + c.quantity)))
  {
    hide Kept, Entered, Observe, Equity, WithinLimit, Pips, Whole;
    var signal := strategy(b.id, b.history);
    if signal.Some? && b.quantity == 0.0 && signal.value.side.Buy? {
      EntryKeeps(cfg, strategy, combined, b, bar, signal.value);
      EntryKeepsSymbol(cfg, combined, b, bar, signal.value);
    }
    var c := if signal.Some? && b.quantity == 0.0 && signal.value.side.Buy?
             then Entered(cfg, combined, b, bar, signal.value).0 else b;
    SameLedger(cfg, strategy, c, c.history, Observe(c.peak, Equity(c, bar)));
  }

  lemma EntryKeepsSymbol(cfg: Config, combined: real, b: Bucket, bar: Bar, s: Signal)
    ensures Entered(cfg, combined, b, bar, s).0.symbol == b.symbol
  {
    hide OrderQuantity, FillCharges, FillPrice, HalfEven4, StopFor, TargetFor;
  }

  // ---- Exit levels ------------------------------------------------------------------------------------------

  /** An entry at a non-negative price is protected from both sides, whatever levels the signal names. */
  lemma EntrySetsLevels(cfg: Config, combined: real, b: Bucket, bar: Bar, s: Signal)
    requires b.quantity == 0.0 && 0.0 <= FillPrice(cfg, bar.close, Buy, bar)
    ensures var c := Entered(cfg, combined, b, bar, s).0;
            c.quantity != 0.0 ==>
              && c.stop.Some? && c.target.Some? && Cents(c.stop.value) && Cents(c.target.value)
              && c.stop.value <= HalfEven2(FillPrice(cfg, bar.close, Buy, bar)) <= c.target.value
  {
    hide Notional, OrderQuantity, FillPrice, FillCharges, HalfEven4, HalfEven2, Cents;
    var price := FillPrice(cfg, bar.close, Buy, bar);
    HalfEven2Monotone(price * 0.98, price);
    HalfEven2Monotone(price, price * 1.04);
    if s.stopLoss.Some? && s.stopLoss.value < price { HalfEven2Monotone(s.stopLoss.value, price); }
    if s.target.Some? && s.target.value > price { HalfEven2Monotone(price, s.target.value); }
  }

  /** When a bar touches both levels, the stop-first rule never reports a better exit than the target-first rule. */
  lemma StopFirstIsPessimistic(cfg: Config, b: Bucket, bar: Bar)
    requires 0.0 < b.quantity && b.stop.Some? && b.target.Some?
    requires Cents(b.stop.value) && Cents(b.target.value) && 0.0 <= b.stop.value <= b.target.value
    requires bar.low <= b.stop.value && b.target.value <= bar.high
    ensures var cautious := Exited(cfg.(stopFirst := true), b, bar);
            var hopeful := Exited(cfg.(stopFirst := false), b, bar);
            && |cautious.trades| == |b.trades| + 1 == |hopeful.trades|
            && cautious.trades[|b.trades|].exitPrice <= hopeful.trades[|b.trades|].exitPrice
  {
    hide Notional, HalfEven4, Cents, EffectivePrice, FillCharges;
    SlippageKeepsOrder(b.stop.value, b.target.value, Sell, Some(Abs(bar.change)));
  }
}
