/** Marking a PAPER portfolio to market: the full pass with its fallback prices and option guard, and the quote-by-quote
    pass with its outlier guard. */
module PaperValuation {
  import opened Decimals
  import opened Market

  /** A position row; symbols are stored in upper case. Flat rows stay listed. */
  datatype Row = Row(symbol: string, quantity: real, averagePrice: real, lastPrice: Option<real>,
                     marketValue: real, unrealizedPnl: real)

  datatype Report = Report(cash: real, marketValue: real, realizedPnl: real, unrealizedPnl: real, totalPnl: real,
                           equity: real, positionCount: nat)

  type Quotes = map<string, real>

  /** What the exchange feed answers for a symbol the broker does not quote. */
  type Exchange = string -> Option<real>

  function Priced(r: Row, price: real): Row {
    r.(lastPrice := Some(price), marketValue := HalfEven4(Notional(r.quantity, price)),
       unrealizedPnl := HalfEven4(Notional(r.quantity, price - r.averagePrice)))
  }

  /** The price in the books: the last one, else the average, else the default. */
  function BookPrice(r: Row, default: real): real {
    if r.lastPrice.Some? && r.lastPrice.value != 0.0 then r.lastPrice.value
    else if r.averagePrice != 0.0 then r.averagePrice
    else default
  }

  predicate Contains(s: string, word: string) {
    word <= s || (s != "" && Contains(s[1..], word))
  }

  predicate IsOption(r: Row) {
    || Contains(r.symbol, "-OPT")
    || (r.averagePrice < 1000.0
        && (Contains(r.symbol, "NIFTY") || Contains(r.symbol, "BANKNIFTY") || Contains(r.symbol, "SENSEX")))
  }

  /** An option above 2000 is taken for its index: the books know better. */
  function Distrusted(r: Row, price: real): real {
    if IsOption(r) && price > 2000.0 then
      if BookPrice(r, 20.0) > 2000.0 then r.averagePrice else BookPrice(r, 20.0)
    else price
  }

  function FullPrice(r: Row, quotes: Quotes, exchange: Exchange): real {
    Distrusted(r, if r.symbol in quotes then quotes[r.symbol]
                  else if exchange(r.symbol).Some? then exchange(r.symbol).value
                  else BookPrice(r, 0.0))
  }

  function FullyMarked(r: Row, quotes: Quotes, exchange: Exchange): Row {
    if r.quantity <= 0.0 then r.(lastPrice := None, marketValue := 0.0, unrealizedPnl := 0.0)
    else Priced(r, FullPrice(r, quotes, exchange))
  }

  /** A single quote more than 35 percent off the average is discarded. */
  predicate Outlier(r: Row, price: real) {
    r.averagePrice > 0.0 && Abs(price - r.averagePrice) / r.averagePrice > 0.35
  }

  function QuoteMarked(r: Row, symbol: string, price: real): Row {
    if r.quantity <= 0.0 then r.(marketValue := 0.0, unrealizedPnl := 0.0)
    else if r.symbol == symbol && !Outlier(r, price) then Priced(r, price)
    else r
  }

  function MarkAll(rows: seq<Row>, mark: Row -> Row): (marked: seq<Row>)
    ensures |marked| == |rows|
    ensures forall i :: 0 <= i < |rows| ==> marked[i] == mark(rows[i])
  {
    seq(|rows|, i requires 0 <= i < |rows| => mark(rows[i]))
  }

  function ByFullPass(quotes: Quotes, exchange: Exchange): Row -> Row { (r: Row) => FullyMarked(r, quotes, exchange) }

  function ByQuote(symbol: string, price: real): Row -> Row { (r: Row) => QuoteMarked(r, symbol, price) }

  datatype Totals = Totals(market: real, unrealized: real, count: nat)

  /** Both passes sum the held rows as they have left them. */
  function Summed(rows: seq<Row>): Totals {
    if rows == [] then Totals(0.0, 0.0, 0)
    else
      var r, t := rows[|rows| - 1], Summed(rows[..|rows| - 1]);
      if r.quantity > 0.0 then Totals(t.market + r.marketValue, t.unrealized + r.unrealizedPnl, t.count + 1) else t
  }

  function Reported(rows: seq<Row>, cash: real, realized: real): Report {
    var t := Summed(rows);
    Report(cash, HalfEven4(t.market), HalfEven4(realized), HalfEven4(t.unrealized),
           HalfEven4(realized + t.unrealized), HalfEven4(cash + t.market), t.count)
  }

  /** The stored rows after a series of quotes, one at a time. */
  function AfterQuotes(rows: seq<Row>, quotes: Quotes, symbols: seq<string>): seq<Row>
    requires forall s :: s in symbols ==> s in quotes
  {
    if symbols == [] then rows
    else
      var last := symbols[|symbols| - 1];
      MarkAll(AfterQuotes(rows, quotes, symbols[..|symbols| - 1]), ByQuote(last, quotes[last]))
  }

  /** What a series of quotes leaves of a row. */
  function Accumulated(r: Row, quotes: Quotes, symbols: seq<string>): Row
    requires forall s :: s in symbols ==> s in quotes
  {
    if symbols == [] then r
    else if r.quantity <= 0.0 then r.(marketValue := 0.0, unrealizedPnl := 0.0)
    else if r.symbol in symbols && !Outlier(r, quotes[r.symbol]) then Priced(r, quotes[r.symbol])
    else r
  }

  lemma {:induction false} QuotesAccumulate(rows: seq<Row>, quotes: Quotes, symbols: seq<string>)
    requires forall s :: s in symbols ==> s in quotes
    ensures |AfterQuotes(rows, quotes, symbols)| == |rows|
    ensures forall i :: 0 <= i < |rows| ==>
              AfterQuotes(rows, quotes, symbols)[i] == Accumulated(rows[i], quotes, symbols)
  {
    hide HalfEven4, Notional, Outlier, MarkAll;
    if symbols != [] {
      var last := |symbols| - 1;
      QuotesAccumulate(rows, quotes, symbols[..last]);
      assert symbols == symbols[..last] + [symbols[last]];
      forall i | 0 <= i < |rows|
        ensures QuoteMarked(Accumulated(rows[i], quotes, symbols[..last]), symbols[last], quotes[symbols[last]])
                == Accumulated(rows[i], quotes, symbols)
      {
        OneMoreQuote(rows[i], quotes, symbols[..last], symbols[last]);
      }
    }
  }

  lemma OneMoreQuote(r: Row, quotes: Quotes, symbols: seq<string>, s: string)
    requires s in quotes && forall x :: x in symbols ==> x in quotes
    ensures QuoteMarked(Accumulated(r, quotes, symbols), s, quotes[s]) == Accumulated(r, quotes, symbols + [s])
  {
    hide HalfEven4, Notional;
    assert r.symbol in symbols + [s] <==> r.symbol in symbols || r.symbol == s;
  }

  /** A row on which the two passes cannot be told apart: a flat row without a last price; a held row whose quote
      neither guard touches; or one whose quote is discarded and that stands at the full pass's price already. */
  predicate Agrees(r: Row, quotes: Quotes, exchange: Exchange) {
    if r.quantity <= 0.0 then r.lastPrice.None?
    else if r.symbol !in quotes then false
    else if Outlier(r, quotes[r.symbol]) then r == Priced(r, FullPrice(r, quotes, exchange))
    else Distrusted(r, quotes[r.symbol]) == quotes[r.symbol]
  }

  lemma RowAgreesExactlyWhen(r: Row, quotes: Quotes, exchange: Exchange, symbols: seq<string>)
    requires symbols != [] && forall s :: s in symbols ==> s in quotes
    requires r.quantity > 0.0 ==> r.symbol in symbols
    ensures Accumulated(r, quotes, symbols) == FullyMarked(r, quotes, exchange) <==> Agrees(r, quotes, exchange)
  {
    hide HalfEven4, Notional, Outlier, IsOption;
  }

  /** With every held symbol quoted, one quote a symbol in any order, repeats allowed, stores the rows of the full pass
      if and only if every row agrees; and then the reports are the same. */
  lemma IncrementalEqualsFullPassExactlyWhen(rows: seq<Row>, quotes: Quotes, exchange: Exchange, symbols: seq<string>,
                                             cash: real, realized: real)
    requires symbols != [] && forall s :: s in symbols ==> s in quotes
    requires forall i :: 0 <= i < |rows| && rows[i].quantity > 0.0 ==> rows[i].symbol in symbols
    ensures var marked := MarkAll(rows, ByFullPass(quotes, exchange));
            && (AfterQuotes(rows, quotes, symbols) == marked
                <==> forall i :: 0 <= i < |rows| ==> Agrees(rows[i], quotes, exchange))
            && (AfterQuotes(rows, quotes, symbols) == marked
                ==> Reported(AfterQuotes(rows, quotes, symbols), cash, realized) == Reported(marked, cash, realized))
  {
    hide Reported, AfterQuotes, Accumulated, FullyMarked, Agrees, MarkAll;
    QuotesAccumulate(rows, quotes, symbols);
    var all, marked := AfterQuotes(rows, quotes, symbols), MarkAll(rows, ByFullPass(quotes, exchange));
    forall i | 0 <= i < |rows| ensures all[i] == marked[i] <==> Agrees(rows[i], quotes, exchange) {
      RowAgreesExactlyWhen(rows[i], quotes, exchange, symbols);
    }
  }

  /** A quote of 140 for a share bought at 100: the full pass values it at 140, the single quote is discarded. */
  lemma OutlierSplitsThePasses()
    ensures var r := Row("SBIN", 1.0, 100.0, None, 0.0, 0.0);
            var quotes := map["SBIN" := 140.0];
            forall exchange :: FullyMarked(r, quotes, exchange).lastPrice == Some(140.0)
                               && QuoteMarked(r, "SBIN", 140.0) == r
  {
    hide HalfEven4, Notional, IsOption;
    var r := Row("SBIN", 1.0, 100.0, None, 0.0, 0.0);
    var quotes := map["SBIN" := 140.0];
    assert Abs(140.0 - 100.0) / 100.0 == 0.4;
    assert Outlier(r, 140.0);
    forall exchange ensures FullyMarked(r, quotes, exchange).lastPrice == Some(140.0) {
      assert FullPrice(r, quotes, exchange) == 140.0;
    }
  }

  // ---- What is believed, and what the report says -----------------------------------------------------------

  /** A quote is discarded exactly when it is more than 35 percent off the average, either way. */
  lemma OutlierExactlyWhen(r: Row, price: real)
    ensures Outlier(r, price)
            <==> 0.0 < r.averagePrice && (price < r.averagePrice * 0.65 || r.averagePrice * 1.35 < price)
  {
    if 0.0 < r.averagePrice {
      var off := Abs(price - r.averagePrice);
      var x := off / r.averagePrice;
      DivideBack(off, r.averagePrice);
      SignOfProduct(r.averagePrice, x - 0.35);
      assert r.averagePrice * (x - 0.35) == r.averagePrice * x - r.averagePrice * 0.35;
      assert x > 0.35 <==> off > r.averagePrice * 0.35;
    }
  }

  /** A held row is valued at its quote, failing that at the exchange's price, failing that at the last price in the
      books or else the average; but a price above 2000 for an option gives way to the books, 20 if they are empty, and
      to the average if those are above 2000 too. */
  lemma ValuedAt(r: Row, quotes: Quotes, exchange: Exchange)
    requires 0.0 < r.quantity
    ensures var marked := FullyMarked(r, quotes, exchange);
            var booked := if r.lastPrice.Some? && r.lastPrice.value != 0.0 then r.lastPrice.value else r.averagePrice;
            var offered := if r.symbol in quotes then quotes[r.symbol]
                           else if exchange(r.symbol).Some? then exchange(r.symbol).value else booked;
            && marked.lastPrice.Some?
            && var price := marked.lastPrice.value;
               && (offered <= 2000.0 || !IsOption(r) ==> price == offered)
               && (2000.0 < offered && IsOption(r) && booked != 0.0 ==>
                     price == if booked <= 2000.0 then booked else r.averagePrice)
               && (2000.0 < offered && IsOption(r) && booked == 0.0 ==> price == 20.0)
               && Abs(marked.marketValue - Notional(r.quantity, price)) <= 0.00005
               && Abs(marked.unrealizedPnl - Notional(r.quantity, price - r.averagePrice)) <= 0.00005
  {
    hide HalfEven4, Notional, IsOption;
  }

  /** An index option is told by its name and an average below 1000; a share is not taken for one. */
  lemma OptionsAreTold()
    ensures forall r: Row :: r.symbol == "NIFTY" && r.averagePrice == 120.0 ==> IsOption(r)
    ensures forall r: Row :: r.symbol == "NIFTY" && r.averagePrice == 1000.0 ==> !IsOption(r)
    ensures forall r: Row :: r.symbol == "TCS-OPT" ==> IsOption(r)
    ensures forall r: Row :: r.symbol == "TCS" ==> !IsOption(r)
  {
    NiftyIsNoOpt();
    TcsIsNoIndex();
    assert Contains("NIFTY", "NIFTY");
    assert Contains("-OPT", "-OPT") && "S-OPT"[1..] == "-OPT" && "CS-OPT"[1..] == "S-OPT" && "TCS-OPT"[1..] == "CS-OPT";
    assert Contains("S-OPT", "-OPT") && Contains("CS-OPT", "-OPT") && Contains("TCS-OPT", "-OPT");
    hide Contains;
  }

  lemma NiftyIsNoOpt()
    ensures !Contains("NIFTY", "-OPT")
  {
    assert "NIFTY"[1..] == "IFTY" && "IFTY"[1..] == "FTY";
    TooShort("FTY", "-OPT");
    assert "IFTY"[0] != "-OPT"[0] && "NIFTY"[0] != "-OPT"[0];
    assert !("-OPT" <= "IFTY") && !("-OPT" <= "NIFTY");
    assert !Contains("IFTY", "-OPT");
  }

  lemma TcsIsNoIndex()
    ensures !Contains("TCS", "-OPT") && !Contains("TCS", "NIFTY")
    ensures !Contains("TCS", "BANKNIFTY") && !Contains("TCS", "SENSEX")
  {
    TooShort("TCS", "-OPT");
    TooShort("TCS", "NIFTY");
    TooShort("TCS", "BANKNIFTY");
    TooShort("TCS", "SENSEX");
  }

  lemma TooShort(s: string, word: string)
    requires |s| < |word|
    ensures !Contains(s, word)
  {
    if s != "" { TooShort(s[1..], word); }
  }

  /** The report adds what it says: equity is cash and market value, the total realised and unrealised P&L, up to
      rounding, over the held rows. */
  lemma ReportAddsUp(rows: seq<Row>, cash: real, realized: real)
    ensures var report := Reported(rows, cash, realized);
            && report.cash == cash
            && Abs(report.equity - cash - report.marketValue) <= 0.0001
            && Abs(report.realizedPnl - realized) <= 0.00005
            && Abs(report.totalPnl - report.realizedPnl - report.unrealizedPnl) <= 0.00015
            && Abs(report.marketValue - HeldValue(rows)) <= 0.00005
  {
    hide HalfEven4;
    SumIsHeldValue(rows);
  }

  /** The stored market values of the held rows. */
  function HeldValue(rows: seq<Row>): real {
    if rows == [] then 0.0
    else
      HeldValue(rows[..|rows| - 1]) + (if 0.0 < rows[|rows| - 1].quantity then rows[|rows| - 1].marketValue else 0.0)
  }

  lemma {:induction false} SumIsHeldValue(rows: seq<Row>)
    ensures Summed(rows).market == HeldValue(rows)
  {
    if rows != [] { SumIsHeldValue(rows[..|rows| - 1]); }
  }

  // ---- The service ------------------------------------------------------------------------------------------

  class PaperBook {
    var rows: seq<Row>
    const cash: real
    const realized: real

    constructor (rows: seq<Row>, cash: real, realized: real)
      ensures this.rows == rows && this.cash == cash && this.realized == realized
    {
      this.rows, this.cash, this.realized := rows, cash, realized;
    }

    /** None when the broker quotes a held symbol at no positive price; then nothing is stored. */
    method ValuePaper(quotes: Quotes, exchange: Exchange) returns (report: Option<Report>)
      modifies this
      ensures report.None? <==> exists i :: 0 <= i < |old(rows)| && old(rows)[i].quantity > 0.0
                                            && old(rows)[i].symbol in quotes && quotes[old(rows)[i].symbol] <= 0.0
      ensures report.None? ==> rows == old(rows)
      ensures report.Some? ==> rows == MarkAll(old(rows), ByFullPass(quotes, exchange))
                               && report.value == Reported(rows, cash, realized)
    {
      hide HalfEven4, Notional, IsOption, Summed;
      var marked: seq<Row> := [];
      var market, unrealized, count := 0.0, 0.0, 0;
      NothingSummed();
      for i := 0 to |rows|
        invariant rows == old(rows) && |marked| == i
        invariant forall k :: 0 <= k < i ==> marked[k] == FullyMarked(rows[k], quotes, exchange)
        invariant forall k :: 0 <= k < i && rows[k].quantity > 0.0 && rows[k].symbol in quotes ==>
                    quotes[rows[k].symbol] > 0.0
        invariant Summed(marked) == Totals(market, unrealized, count)
      {
        var r := rows[i];
        if r.quantity <= 0.0 {
          r := r.(unrealizedPnl := 0.0, marketValue := 0.0, lastPrice := None);
        } else {
          var price := BookPrice(r, 0.0);
          if r.symbol in quotes {
            price := quotes[r.symbol];
            if price <= 0.0 {
              return None;
            }
          } else if exchange(r.symbol).Some? {
            price := exchange(r.symbol).value;
          }
          if IsOption(r) && price > 2000.0 {
            price := BookPrice(r, 20.0);
            if price > 2000.0 {
              price := r.averagePrice;
            }
          }
          r := Priced(r, price);
          market, unrealized, count := market + r.marketValue, unrealized + r.unrealizedPnl, count + 1;
        }
        SummedExtends(marked, r);
        marked := marked + [r];
      }
      rows := marked;
      report := Some(Report(cash, HalfEven4(market), HalfEven4(realized), HalfEven4(unrealized),
                            HalfEven4(realized + unrealized), HalfEven4(cash + market), count));
    }

    method RevalueFromQuote(symbol: string, price: real) returns (report: Option<Report>)
      modifies this
      ensures report.Some? <==> 0.0 < price
      ensures report.None? ==> rows == old(rows)
      ensures report.Some? ==> rows == MarkAll(old(rows), ByQuote(symbol, price))
                               && report.value == Reported(rows, cash, realized)
    {
      hide HalfEven4, Notional, Summed;
      if price <= 0.0 {
        return None;
      }
      var marked: seq<Row> := [];
      var market, unrealized, count := 0.0, 0.0, 0;
      NothingSummed();
      for i := 0 to |rows|
        invariant rows == old(rows) && |marked| == i
        invariant forall k :: 0 <= k < i ==> marked[k] == QuoteMarked(rows[k], symbol, price)
        invariant Summed(marked) == Totals(market, unrealized, count)
      {
        var r := rows[i];
        if r.quantity <= 0.0 {
          r := r.(marketValue := 0.0, unrealizedPnl := 0.0);
        } else {
          if r.symbol == symbol {
            var discarded := false;
            if r.averagePrice > 0.0 {
              discarded := Abs(price - r.averagePrice) / r.averagePrice > 0.35;
            }
            if !discarded {
              r := Priced(r, price);
            }
          }
          market, unrealized, count := market + r.marketValue, unrealized + r.unrealizedPnl, count + 1;
        }
        SummedExtends(marked, r);
        marked := marked + [r];
      }
      rows := marked;
      report := Some(Report(cash, HalfEven4(market), HalfEven4(realized), HalfEven4(unrealized),
                            HalfEven4(realized + unrealized), HalfEven4(cash + market), count));
    }
  }

  lemma NothingSummed()
    ensures Summed([]) == Totals(0.0, 0.0, 0)
  {}

  lemma SummedExtends(rows: seq<Row>, r: Row)
    ensures var t := Summed(rows);
            Summed(rows + [r])
            == if r.quantity > 0.0 then Totals(t.market + r.marketValue, t.unrealized + r.unrealizedPnl, t.count + 1)
               else t
  {
    assert (rows + [r])[..|rows|] == rows;
  }
}
