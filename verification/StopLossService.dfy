/** The stop-loss monitor over a PAPER portfolio. */
module StopLossService {
  import opened Decimals
  import opened Market
  import opened Text
  import opened TransactionCosts
  import opened PaperAccounting
  import opened TrailingStop

  /** The stop-loss columns of a position row. */
  datatype Guard = Guard(open: bool, stop: Option<real>)

  const Closed := Guard(false, None)

  /** The order that sells everything held; its id is fresh, so it is never a duplicate. */
  function SellAll(symbol: string, quantity: real, price: real): PaperFill {
    PaperFill(symbol, Some(Sell), quantity, price, true, "", Delivery, false, None, false)
  }

  function Armed(g: Guard, p: PaperPosition): bool {
    g.open && p.quantity > 0.0 && g.stop.Some?
  }

  /** The stop once the price has been allowed to raise it. */
  function StopAt(g: Guard, p: PaperPosition, price: real): real
    requires Armed(g, p)
  {
    if p.averagePrice > 0.0 then Raised(p.averagePrice, g.stop.value, price) else g.stop.value
  }

  /** The quote reaches the stop it may just have raised. */
  predicate Crosses(price: real, g: Guard, p: PaperPosition) {
    Armed(g, p) && price <= StopAt(g, p, price)
  }

  /** A protective exit under way, known by the position and its open quantity. */
  datatype Trigger = Trigger(symbol: string, quantity: real)

  /** The exit is due, and not under way already. */
  predicate Fires(price: real, g: Guard, p: PaperPosition, busy: bool) {
    Crosses(price, g, p) && !busy
  }

  /** What a quote leaves of one position. */
  predicate Guarded(price: real, busy: bool, g: Guard, p: PaperPosition, after: Guard, held: PaperPosition) {
    if !Armed(g, p) then after == g && held == p
    else if !Fires(price, g, p, busy) then after == Guard(true, Some(StopAt(g, p, price))) && held == p
    else after == Closed && held.quantity == 0.0
  }

  /** So an open position that was quoted is above its stop, unless its exit is under way, and its stop has not
      fallen. */
  lemma GuardedIsSafe(price: real, busy: bool, g: Guard, p: PaperPosition, after: Guard, held: PaperPosition)
    requires Guarded(price, busy, g, p, after, held) && Armed(g, p)
    ensures Armed(after, held) ==> g.stop.value <= after.stop.value && (after.stop.value < price || busy)
    ensures !Armed(after, held) ==> held.quantity == 0.0
  {
    hide Candidate;
  }

  /** The stop columns of a position that is watched over these ticks and never in flight. */
  function GuardAfter(g: Guard, p: PaperPosition, ticks: seq<real>): Guard {
    if ticks == [] then g
    else
      var before, price := GuardAfter(g, p, ticks[..|ticks| - 1]), ticks[|ticks| - 1];
      if !Armed(before, p) then before
      else if Fires(price, before, p, false) then Closed
      else Guard(true, Some(StopAt(before, p, price)))
  }

  /** Tick by tick the monitor does what the ratchet says: the stop is the ratchet's, and the position is closed from
      the first tick at or below it on. */
  lemma {:induction false} MonitorFollowsRatchet(g: Guard, p: PaperPosition, ticks: seq<real>)
    requires Armed(g, p) && 0.0 < p.averagePrice
    ensures GuardAfter(g, p, ticks) == match Watched(p.averagePrice, g.stop.value, ticks)
                                       case Holding(stop) => Guard(true, Some(stop))
                                       case Fired(tick, stop) => Closed
  {
    hide Raised;
    if ticks != [] { MonitorFollowsRatchet(g, p, ticks[..|ticks| - 1]); }
  }

  /** A position without an average keeps its stop. */
  lemma NoAverageNoRatchet(g: Guard, p: PaperPosition, price: real)
    requires Armed(g, p) && p.averagePrice <= 0.0
    ensures StopAt(g, p, price) == g.stop.value
  {}

  /** Selling everything of a held position goes through, at the quote and free of charges, and leaves it flat; no other
      symbol is touched. */
  lemma SellAllFlattens(a: Account, symbol: string, price: real)
    requires Solvent(a) && Upper(symbol) == symbol && symbol in a.positions
    requires 0.0 < a.positions[symbol].quantity && 0.0 <= price
    ensures var f := SellAll(symbol, a.positions[symbol].quantity, price);
            && Recorded(a, f).Ok?
            && After(a, f).positions[symbol].quantity == 0.0
            && Abs(After(a, f).cash - (a.cash + Notional(a.positions[symbol].quantity, price))) <= 0.0002
            && Abs(After(a, f).realizedPnl - a.realizedPnl
                   - Notional(a.positions[symbol].quantity, price - a.positions[symbol].averagePrice)) <= 0.0001
            && After(a, f).positions.Keys == a.positions.Keys
            && forall s :: s in a.positions && s != symbol ==> After(a, f).positions[s] == a.positions[s]
  {
    hide Upper, HalfEven4, Notional;
  }

  class Monitor {
    const portfolio: PaperPortfolio
    var guards: map<string, Guard>
    var inFlight: set<Trigger>

    ghost predicate Valid()
      reads this, portfolio
    {
      && Solvent(portfolio.Contents())
      && guards.Keys == portfolio.positions.Keys
      && forall s :: s in guards ==> Upper(s) == s
    }

    constructor (portfolio: PaperPortfolio, guards: map<string, Guard>)
      requires Solvent(portfolio.Contents()) && guards.Keys == portfolio.positions.Keys
      requires forall s :: s in guards ==> Upper(s) == s
      ensures Valid() && this.portfolio == portfolio && this.guards == guards && inFlight == {}
    {
      this.portfolio, this.guards, inFlight := portfolio, guards, {};
    }

    method UpdateTrailingStop(symbol: string, price: real)
      requires Valid() && symbol in guards && Armed(guards[symbol], portfolio.positions[symbol])
      modifies this`guards
      ensures guards == old(guards)[
                          symbol := Guard(true, Some(StopAt(old(guards)[symbol], portfolio.positions[symbol], price)))]
    {
      var average, current := portfolio.positions[symbol].averagePrice, guards[symbol].stop.value;
      if average <= 0.0 {
        assert guards[symbol := guards[symbol]] == guards;
        return;
      }
      var candidate := Candidate(average, price);
      if candidate.Some? && candidate.value > current {
        guards := guards[symbol := guards[symbol].(stop := candidate)];
      } else {
        assert guards[symbol := guards[symbol]] == guards;
      }
    }

    /** One quote for one position. The stop is raised first; at or below it everything held is sold and the
        position closed, unless that is under way already. */
    method EvaluatePosition(symbol: string, price: real) returns (fired: bool)
      requires Valid() && symbol in guards && 0.0 <= price
      modifies this`guards, this`inFlight, portfolio
      ensures Valid() && guards.Keys == old(guards.Keys) && inFlight == old(inFlight)
      ensures forall s :: s in guards && s != symbol ==>
                guards[s] == old(guards)[s] && portfolio.positions[s] == old(portfolio.positions)[s]
      ensures var g, p := old(guards)[symbol], old(portfolio.positions)[symbol];
              var busy := Trigger(symbol, p.quantity) in old(inFlight);
              && fired == Fires(price, g, p, busy)
              && (busy ==> !fired)
              && Guarded(price, busy, g, p, guards[symbol], portfolio.positions[symbol])
              && portfolio.Contents() == if !fired then old(portfolio.Contents())
                                         else After(old(portfolio.Contents()), SellAll(symbol, p.quantity, price))
    {
      hide Upper, StopAt, Recorded, After, Solvent;
      if !Armed(guards[symbol], portfolio.positions[symbol]) {
        return false;
      }
      UpdateTrailingStop(symbol, price);
      if price > guards[symbol].stop.value {
        return false;
      }
      var trigger := Trigger(symbol, portfolio.positions[symbol].quantity);
      if trigger in inFlight {
        return false;
      }
      inFlight := inFlight + {trigger};
      SolventParts(portfolio.Contents());
      SellAllFlattens(portfolio.Contents(), symbol, price);
      var quantity := portfolio.positions[symbol].quantity;
      var sale := portfolio.RecordFill(SellAll(symbol, quantity, price));
      if portfolio.positions[symbol].quantity <= 0.0 {
        guards := guards[symbol := guards[symbol].(open := false, stop := None)];
      }
      inFlight := inFlight - {trigger};
      fired := true;
      AfterIsSolvent(old(portfolio.Contents()), SellAll(symbol, quantity, price));
    }

    /** A scan over every position with a stop. */
    method ScanAndEnforce(quotes: map<string, real>) returns (results: seq<string>)
      requires Valid() && forall s :: s in quotes ==> 0.0 <= quotes[s]
      modifies this`guards, this`inFlight, portfolio
      ensures Valid() && inFlight == old(inFlight)
      ensures Scanned(quotes, inFlight, old(guards), old(portfolio.positions), guards, portfolio.positions, {}, results)
    {
      hide Upper, Fires, Crosses, Guarded, Scanned, Solvent, After;
      results := [];
      var pending := guards.Keys;
      NothingScanned(quotes, inFlight, guards, portfolio.positions);
      while pending != {}
        invariant pending <= guards.Keys && Valid() && inFlight == old(inFlight)
        invariant Scanned(quotes, inFlight, old(guards), old(portfolio.positions), guards, portfolio.positions, pending,
                          results)
        decreases |pending|
      {
        var s :| s in pending;
        ghost var g, p := guards, portfolio.positions;
        var fired := false;
        if s in quotes {
          fired := EvaluatePosition(s, quotes[s]);
        }
        ScansOneMore(quotes, inFlight, old(guards), old(portfolio.positions), g, p, pending, results,
                     s, guards, portfolio.positions, fired);
        if fired {
          results := results + [s];
        }
        pending := pending - {s};
      }
    }
  }

  type Guards = map<string, Guard>
  type Positions = map<string, PaperPosition>

  /** Every quoted position that is no longer pending has had its stop moved and, if due, been sold and reported; all
      others are as they were. */
  ghost predicate Scanned(quotes: map<string, real>, inFlight: set<Trigger>, g0: Guards, p0: Positions,
                          g1: Guards, p1: Positions, pending: set<string>, results: seq<string>)
  {
    && g0.Keys == p0.Keys && g1.Keys == g0.Keys && p1.Keys == g0.Keys
    && (forall s :: s in g0 ==>
          if s in quotes && s !in pending
          then Guarded(quotes[s], Trigger(s, p0[s].quantity) in inFlight, g0[s], p0[s], g1[s], p1[s])
          else g1[s] == g0[s] && p1[s] == p0[s])
    && (forall s :: s in results <==> s in g0 && s !in pending && s in quotes
                                      && Fires(quotes[s], g0[s], p0[s], Trigger(s, p0[s].quantity) in inFlight))
  }

  lemma NothingScanned(quotes: map<string, real>, inFlight: set<Trigger>, g: Guards, p: Positions)
    requires g.Keys == p.Keys
    ensures Scanned(quotes, inFlight, g, p, g, p, g.Keys, [])
  {
    hide Guarded, Fires;
  }

  lemma ScansOneMore(quotes: map<string, real>, inFlight: set<Trigger>, g0: Guards, p0: Positions,
                     g1: Guards, p1: Positions, pending: set<string>, results: seq<string>,
                     s: string, g2: Guards, p2: Positions, fired: bool)
    requires Scanned(quotes, inFlight, g0, p0, g1, p1, pending, results) && s in pending && s in g1
    requires g2.Keys == g1.Keys && p2.Keys == g1.Keys
    requires forall k :: k in g1 && k != s ==> g2[k] == g1[k] && p2[k] == p1[k]
    requires var busy := Trigger(s, p1[s].quantity) in inFlight;
             if s in quotes then fired == Fires(quotes[s], g1[s], p1[s], busy)
                                 && Guarded(quotes[s], busy, g1[s], p1[s], g2[s], p2[s])
             else !fired && g2[s] == g1[s] && p2[s] == p1[s]
    ensures Scanned(quotes, inFlight, g0, p0, g2, p2, pending - {s}, if fired then results + [s] else results)
  {
    hide Guarded, Fires;
    var after := if fired then results + [s] else results;
    assert forall k :: k in after <==> k in results || (fired && k == s);
    assert forall k :: k in pending - {s} <==> k in pending && k != s;
  }

  lemma SolventParts(a: Account)
    requires Solvent(a)
    ensures LongOnly(a)
  {}

  lemma AfterIsSolvent(a: Account, f: PaperFill)
    requires Solvent(a)
    ensures Solvent(After(a, f))
  {}
}
