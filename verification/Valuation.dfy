/** Marking LIVE positions to market: one full pass over all quotes, or one quote at a time. */
module Valuation {
  import opened Decimals
  import opened Market
  import opened LivePosition

  /** A position row. Only rows with a quantity other than 0 are listed; symbols are stored in upper case. */
  datatype Row = Row(symbol: string, quantity: real, averagePrice: real, realizedPnl: real,
                     lastPrice: Option<real>, marketValue: real, unrealizedPnl: real)

  datatype Report = Report(marketValue: real, realizedPnl: real, unrealizedPnl: real, totalPnl: real,
                           positionCount: nat)

  type Quotes = map<string, real>

  function Priced(r: Row, price: real): Row {
    r.(lastPrice := Some(price), marketValue := HalfEven4(Notional(r.quantity, price)),
       unrealizedPnl := HalfEven4(Notional(r.quantity, price - r.averagePrice)))
  }

  /** The row once its symbol's quote, if there is one, has been applied. */
  function Marked(r: Row, quotes: Quotes): Row {
    if r.symbol in quotes then Priced(r, quotes[r.symbol]) else r
  }

  function MarkedAll(rows: seq<Row>, quotes: Quotes): (marked: seq<Row>)
    ensures |marked| == |rows|
    ensures forall i :: 0 <= i < |rows| ==> marked[i] == Marked(rows[i], quotes)
  {
    seq(|rows|, i requires 0 <= i < |rows| => Marked(rows[i], quotes))
  }

  /** Running totals over the rows a report counts. */
  datatype Totals = Totals(market: real, realized: real, unrealized: real, count: nat)

  function Quoted(quotes: Quotes): Row -> bool { (r: Row) => r.symbol in quotes }

  predicate AnyRow(r: Row) { true }

  predicate HeldRow(r: Row) { r.quantity != 0.0 }

  function Summed(rows: seq<Row>, counted: Row -> bool): Totals {
    if rows == [] then Totals(0.0, 0.0, 0.0, 0)
    else
      var r, t := rows[|rows| - 1], Summed(rows[..|rows| - 1], counted);
      if counted(r) then
        Totals(t.market + r.marketValue, t.realized + r.realizedPnl, t.unrealized + r.unrealizedPnl, t.count + 1)
      else t
  }

  lemma NothingSummed(counted: Row -> bool)
    ensures Summed([], counted) == Totals(0.0, 0.0, 0.0, 0)
  {}

  lemma SummedExtends(rows: seq<Row>, r: Row, counted: Row -> bool)
    ensures var t, u := Summed(rows, counted), Summed(rows + [r], counted);
            u == if counted(r) then Totals(t.market + r.marketValue, t.realized + r.realizedPnl,
                                           t.unrealized + r.unrealizedPnl, t.count + 1)
                 else t
  {
    assert (rows + [r])[..|rows|] == rows;
  }

  function Reported(t: Totals, positionCount: nat): Report {
    Report(HalfEven4(t.market), HalfEven4(t.realized), HalfEven4(t.unrealized), HalfEven4(t.realized + t.unrealized),
           positionCount)
  }

  predicate AllHeld(rows: seq<Row>) { forall i :: 0 <= i < |rows| ==> rows[i].quantity != 0.0 }

  predicate Covers(quotes: Quotes, rows: seq<Row>) { forall i :: 0 <= i < |rows| ==> rows[i].symbol in quotes }

  /** The full pass leaves rows without a quote out of its sums. */
  function FullReport(rows: seq<Row>, quotes: Quotes): Report {
    Reported(Summed(MarkedAll(rows, quotes), Quoted(quotes)), |rows|)
  }

  /** The report after one quote sums every row as it is stored. */
  function QuoteReport(rows: seq<Row>): Report {
    var t := Summed(rows, AnyRow);
    Reported(t, Summed(rows, HeldRow).count)
  }

  /** The stored rows after a series of quotes, one at a time. */
  function AfterQuotes(rows: seq<Row>, quotes: Quotes, symbols: seq<string>): seq<Row>
    requires forall s :: s in symbols ==> s in quotes
  {
    if symbols == [] then rows
    else
      var last := symbols[|symbols| - 1];
      MarkedAll(AfterQuotes(rows, quotes, symbols[..|symbols| - 1]), map[last := quotes[last]])
  }

  /** Applying quotes one by one marks exactly the rows whose symbol has come up, each at its own quote. */
  lemma {:induction false} QuotesAccumulate(rows: seq<Row>, quotes: Quotes, symbols: seq<string>)
    requires forall s :: s in symbols ==> s in quotes
    ensures |AfterQuotes(rows, quotes, symbols)| == |rows|
    ensures forall i :: 0 <= i < |rows| ==>
              AfterQuotes(rows, quotes, symbols)[i]
              == if rows[i].symbol in symbols then Marked(rows[i], quotes) else rows[i]
  {
    hide HalfEven4, Notional;
    if symbols != [] {
      var last := |symbols| - 1;
      QuotesAccumulate(rows, quotes, symbols[..last]);
      assert symbols == symbols[..last] + [symbols[last]];
    }
  }

  lemma {:induction false} SummedAgrees(rows: seq<Row>, counted: Row -> bool, other: Row -> bool)
    requires forall i :: 0 <= i < |rows| ==> counted(rows[i]) && other(rows[i])
    ensures Summed(rows, counted) == Summed(rows, other) && Summed(rows, counted).count == |rows|
  {
    if rows != [] { SummedAgrees(rows[..|rows| - 1], counted, other); }
  }

  /** With every held symbol quoted, one quote per symbol in any order, repeats allowed, stores the same rows as the
      full pass and ends with the same report. */
  lemma IncrementalEqualsFullPass(rows: seq<Row>, quotes: Quotes, symbols: seq<string>)
    requires AllHeld(rows) && Covers(quotes, rows)
    requires forall s :: s in symbols ==> s in quotes
    requires forall i :: 0 <= i < |rows| ==> rows[i].symbol in symbols
    ensures AfterQuotes(rows, quotes, symbols) == MarkedAll(rows, quotes)
    ensures QuoteReport(AfterQuotes(rows, quotes, symbols)) == FullReport(rows, quotes)
  {
    hide HalfEven4, Notional, AfterQuotes, Summed;
    QuotesAccumulate(rows, quotes, symbols);
    var marked := MarkedAll(rows, quotes);
    assert AfterQuotes(rows, quotes, symbols) == marked;
    SummedAgrees(marked, Quoted(quotes), AnyRow);
    SummedAgrees(marked, HeldRow, AnyRow);
  }

  // ---- What the total means ---------------------------------------------------------------------------------

  /** The LIVE position once its whole quantity has been traded away at a price. */
  function ClosedOut(r: Row, price: real): Position
    requires r.quantity != 0.0
  {
    ApplyFill(Position(r.quantity, r.averagePrice, r.realizedPnl),
              Fill(if r.quantity > 0.0 then Sell else Buy, Abs(r.quantity), price))
  }

  lemma ClosingRealizes(r: Row, price: real)
    requires r.quantity != 0.0
    ensures ClosedOut(r, price)
            == Position(0.0, 0.0, r.realizedPnl + Notional(r.quantity, price - r.averagePrice))
  {
    NotionalOfNegative(r.quantity, price - r.averagePrice);
  }

  /** What would be realised in all if every position were closed at its quote. */
  function LiquidationPnl(rows: seq<Row>, quotes: Quotes): real
    requires AllHeld(rows) && Covers(quotes, rows)
  {
    if rows == [] then 0.0
    else
      var last := rows[|rows| - 1];
      LiquidationPnl(rows[..|rows| - 1], quotes) + ClosedOut(last, quotes[last.symbol]).realizedPnl
  }

  lemma {:induction false} SumsAreLiquidation(rows: seq<Row>, quotes: Quotes)
    requires AllHeld(rows) && Covers(quotes, rows)
    ensures var t := Summed(MarkedAll(rows, quotes), Quoted(quotes));
            Abs(t.realized + t.unrealized - LiquidationPnl(rows, quotes)) <= |rows| as real * 0.00005
  {
    hide HalfEven4, Notional, ClosedOut;
    if rows != [] {
      var last := |rows| - 1;
      SumsAreLiquidation(rows[..last], quotes);
      assert MarkedAll(rows, quotes)[..last] == MarkedAll(rows[..last], quotes);
      ClosingRealizes(rows[last], quotes[rows[last].symbol]);
    }
  }

  /** The reported total P&L is what closing every position at its quote would have realised in all, up to one
      rounding per position and one of the report. */
  lemma TotalIsLiquidation(rows: seq<Row>, quotes: Quotes)
    requires AllHeld(rows) && Covers(quotes, rows)
    ensures Abs(FullReport(rows, quotes).totalPnl - LiquidationPnl(rows, quotes)) <= (|rows| + 1) as real * 0.00005
  {
    hide HalfEven4, Summed, LiquidationPnl;
    SumsAreLiquidation(rows, quotes);
  }

  /** The holdings at their quotes. */
  function AtQuotes(rows: seq<Row>, quotes: Quotes): real
    requires Covers(quotes, rows)
  {
    if rows == [] then 0.0
    else
      var last := rows[|rows| - 1];
      AtQuotes(rows[..|rows| - 1], quotes) + Notional(last.quantity, quotes[last.symbol])
  }

  function Realized(rows: seq<Row>): real {
    if rows == [] then 0.0 else Realized(rows[..|rows| - 1]) + rows[|rows| - 1].realizedPnl
  }

  lemma {:induction false} SumsAreAtQuotes(rows: seq<Row>, quotes: Quotes)
    requires Covers(quotes, rows)
    ensures var t := Summed(MarkedAll(rows, quotes), Quoted(quotes));
            Abs(t.market - AtQuotes(rows, quotes)) <= |rows| as real * 0.00005 && t.realized == Realized(rows)
  {
    hide HalfEven4, Notional;
    if rows != [] {
      var last := |rows| - 1;
      SumsAreAtQuotes(rows[..last], quotes);
      assert MarkedAll(rows, quotes)[..last] == MarkedAll(rows[..last], quotes);
    }
  }

  /** The reported market value is the holdings at their quotes and the reported realised P&L the rows', up to one
      rounding per position and one of the report; the unrealised P&L is the rest of the total. */
  lemma MarketValueIsAtQuotes(rows: seq<Row>, quotes: Quotes)
    requires Covers(quotes, rows)
    ensures var report := FullReport(rows, quotes);
            && Abs(report.marketValue - AtQuotes(rows, quotes)) <= (|rows| + 1) as real * 0.00005
            && Abs(report.realizedPnl - Realized(rows)) <= 0.00005
            && Abs(report.totalPnl - report.realizedPnl - report.unrealizedPnl) <= 0.00015
            && report.positionCount == |rows|
  {
    hide HalfEven4, Summed, AtQuotes;
    SumsAreAtQuotes(rows, quotes);
  }

  class LiveBook {
    var rows: seq<Row>

    constructor (rows: seq<Row>)
      ensures this.rows == rows
    {
      this.rows := rows;
    }

    /** None when a quote is not a positive price; then nothing is stored. */
    method ValueLive(quotes: Quotes) returns (report: Option<Report>)
      modifies this
      ensures (exists i :: 0 <= i < |old(rows)| && old(rows)[i].symbol in quotes && quotes[old(rows)[i].symbol] <= 0.0)
              <==> report.None?
      ensures report.None? ==> rows == old(rows)
      ensures report.Some? ==> rows == MarkedAll(old(rows), quotes) && report.value == FullReport(old(rows), quotes)
    {
      hide HalfEven4, Notional, Summed;
      var marked: seq<Row> := [];
      var market, realized, unrealized := 0.0, 0.0, 0.0;
      NothingSummed(Quoted(quotes));
      for i := 0 to |rows|
        invariant rows == old(rows) && |marked| == i
        invariant forall k :: 0 <= k < i ==> marked[k] == Marked(rows[k], quotes)
        invariant forall k :: 0 <= k < i && rows[k].symbol in quotes ==> quotes[rows[k].symbol] > 0.0
        invariant var t := Summed(marked, Quoted(quotes));
                  market == t.market && realized == t.realized && unrealized == t.unrealized
      {
        var r := rows[i];
        if r.symbol in quotes {
          var price := quotes[r.symbol];
          if price <= 0.0 {
            return None;
          }
          r := Priced(r, price);
          market, realized := market + r.marketValue, realized + r.realizedPnl;
          unrealized := unrealized + r.unrealizedPnl;
        }
        SummedExtends(marked, r, Quoted(quotes));
        marked := marked + [r];
      }
      assert marked == MarkedAll(rows, quotes);
      report := Some(Report(HalfEven4(market), HalfEven4(realized), HalfEven4(unrealized),
                            HalfEven4(realized + unrealized), |rows|));
      rows := marked;
    }

    method RevalueFromQuote(symbol: string, price: real) returns (report: Option<Report>)
      modifies this
      ensures report.Some? <==> 0.0 < price
      ensures report.None? ==> rows == old(rows)
      ensures report.Some? ==> rows == MarkedAll(old(rows), map[symbol := price]) && report.value == QuoteReport(rows)
    {
      hide HalfEven4, Notional, Priced, Summed;
      if price <= 0.0 {
        return None;
      }
      var quotes := map[symbol := price];
      var marked: seq<Row> := [];
      var market, realized, unrealized, count := 0.0, 0.0, 0.0, 0;
      NothingSummed(AnyRow);
      NothingSummed(HeldRow);
      for i := 0 to |rows|
        invariant rows == old(rows) && |marked| == i
        invariant forall k :: 0 <= k < i ==> marked[k] == Marked(rows[k], quotes)
        invariant var t := Summed(marked, AnyRow);
                  market == t.market && realized == t.realized && unrealized == t.unrealized
        invariant count == Summed(marked, HeldRow).count
      {
        var r := rows[i];
        if r.symbol == symbol {
          r := Priced(r, price);
        }
        market, realized := market + r.marketValue, realized + r.realizedPnl;
        unrealized := unrealized + r.unrealizedPnl;
        if r.quantity != 0.0 {
          count := count + 1;
        }
        SummedExtends(marked, r, AnyRow);
        SummedExtends(marked, r, HeldRow);
        marked := marked + [r];
      }
      assert marked == MarkedAll(rows, quotes);
      report := Some(Report(HalfEven4(market), HalfEven4(realized), HalfEven4(unrealized),
                            HalfEven4(realized + unrealized), count));
      rows := marked;
    }
  }
}
