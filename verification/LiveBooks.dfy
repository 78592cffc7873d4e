/** The books of the LIVE ledger over whole runs: positions against executions, and against the order rows. */
module LiveBooks {
  import opened Decimals
  import opened Market
  import opened MapSums
  import opened Text
  import opened OrderStatus
  import opened LivePosition
  import opened LiveLedger
  import opened Polling

  // ---- Positions are their executions -----------------------------------------------------------------------

  /** The fills of a symbol's executions, in order. */
  function FillsOn(executions: seq<Execution>, symbol: string): seq<Fill> {
    if executions == [] then []
    else
      var last := executions[|executions| - 1];
      FillsOn(executions[..|executions| - 1], symbol) + (if Upper(last.symbol) == symbol then [last.fill] else [])
  }

  predicate PositiveFills(l: Ledger) {
    forall i :: 0 <= i < |l.executions| ==> l.executions[i].fill.quantity > 0.0
  }

  lemma {:induction false} FillsArePositive(executions: seq<Execution>, symbol: string)
    requires forall i :: 0 <= i < |executions| ==> executions[i].fill.quantity > 0.0
    ensures forall f :: f in FillsOn(executions, symbol) ==> f.quantity > 0.0
  {
    hide Upper;
    if executions != [] { FillsArePositive(executions[..|executions| - 1], symbol); }
  }

  /** Each symbol's position is the position arithmetic run over its executions. */
  ghost predicate Folded(l: Ledger, symbol: string)
    requires PositiveFills(l)
  {
    FillsArePositive(l.executions, symbol);
    PositionOf(l.positions, symbol) == LivePosition.Run(Flat, FillsOn(l.executions, symbol))
  }

  /** An event changes executions and positions together, or neither. */
  lemma StepIsAtomic(l: Ledger, e: Event)
    ensures var m := Step(l, e);
            || (m.executions == l.executions && m.positions == l.positions)
            || (exists x: Execution :: x.fill.quantity > 0.0 && m.executions == l.executions + [x]
                 && m.positions == l.positions[Upper(x.symbol)
                                               := ApplyFill(PositionOf(l.positions, Upper(x.symbol)), x.fill)])
  {
    hide IncrementalPrice, ApplyFill, Upper, NormalizeStatus;
    var m := Step(l, e);
    if m.executions != l.executions {
      var x := m.executions[|l.executions|];
      assert m.executions == l.executions + [x];
    }
  }

  lemma FoldsOneMore(l: Ledger, m: Ledger, x: Execution, symbol: string)
    requires PositiveFills(l) && Folded(l, symbol) && x.fill.quantity > 0.0
    requires m.executions == l.executions + [x]
    requires m.positions == l.positions[Upper(x.symbol)
                                        := ApplyFill(PositionOf(l.positions, Upper(x.symbol)), x.fill)]
    ensures PositiveFills(m) && Folded(m, symbol)
  {
    hide ApplyFill, Upper, LivePosition.Run;
    assert m.executions[..|l.executions|] == l.executions;
    FillsArePositive(l.executions, symbol);
    FillsArePositive(m.executions, symbol);
    var fills := FillsOn(l.executions, symbol);
    if Upper(x.symbol) == symbol {
      assert FillsOn(m.executions, symbol) == fills + [x.fill];
      hide FillsOn;
      OneMoreFill(fills, x.fill);
    } else {
      assert FillsOn(m.executions, symbol) == fills;
    }
  }

  lemma StepStaysFolded(l: Ledger, e: Event, symbol: string)
    requires PositiveFills(l) && Folded(l, symbol)
    ensures PositiveFills(Step(l, e)) && Folded(Step(l, e), symbol)
  {
    hide Step, ApplyFill, Upper, LivePosition.Run, FillsOn;
    StepIsAtomic(l, e);
    var m := Step(l, e);
    if m.executions != l.executions {
      var x: Execution :| x.fill.quantity > 0.0 && m.executions == l.executions + [x]
                          && m.positions == l.positions[Upper(x.symbol)
                                                        := ApplyFill(PositionOf(l.positions, Upper(x.symbol)), x.fill)];
      hide Folded, PositiveFills;
      FoldsOneMore(l, m, x, symbol);
    }
  }

  lemma OneMoreFill(fills: seq<Fill>, f: Fill)
    requires f.quantity > 0.0 && forall x :: x in fills ==> x.quantity > 0.0
    ensures LivePosition.Run(Flat, fills + [f]) == ApplyFill(LivePosition.Run(Flat, fills), f)
  {
    hide ApplyFill;
    assert (fills + [f])[..|fills|] == fills;
  }

  /** For every run at all, with crashes, lost and falling fills and restatements: each symbol's position is what its
      executions, in order, make of a flat one. */
  lemma {:induction false} PositionsAreTheirExecutions(events: seq<Event>, symbol: string)
    ensures PositiveFills(Polling.Run(Empty, events)) && Folded(Polling.Run(Empty, events), symbol)
  {
    hide Step, PositiveFills, Folded;
    if events == [] {
      NothingIsFolded(symbol);
    } else {
      var last := |events| - 1;
      PositionsAreTheirExecutions(events[..last], symbol);
      StepStaysFolded(Polling.Run(Empty, events[..last]), events[last], symbol);
    }
  }

  lemma NothingIsFolded(symbol: string)
    ensures PositiveFills(Empty) && Folded(Empty, symbol)
  {}

  /** So realised P&L is what the executions brought in and cost, plus the cost of what is still held, and the quantity
      is what they bought less what they sold. */
  lemma LedgerConserves(events: seq<Event>, symbol: string)
    ensures var l := Polling.Run(Empty, events);
            var p, fills := PositionOf(l.positions, symbol), FillsOn(l.executions, symbol);
            && p.realizedPnl == -TotalOutlay(fills) + Notional(p.quantity, p.averagePrice)
            && p.quantity == NetQuantity(fills)
  {
    hide Polling.Run, LivePosition.Run, Notional, FillsOn;
    PositionsAreTheirExecutions(events, symbol);
    var l := Polling.Run(Empty, events);
    FillsArePositive(l.executions, symbol);
    RunConserves(FillsOn(l.executions, symbol));
  }

  // ---- Positions against the order rows, at all times -------------------------------------------------------

  ghost predicate BooksAlwaysMatch(events: seq<Event>) {
    forall n :: 0 <= n <= |events| ==> AllBooksMatch(Polling.Run(Empty, events[..n]))
  }

  lemma BooksAlwaysMatchSplits(events: seq<Event>)
    requires events != []
    ensures BooksAlwaysMatch(events)
            <==> BooksAlwaysMatch(events[..|events| - 1]) && AllBooksMatch(Polling.Run(Empty, events))
  {
    hide Polling.Run, AllBooksMatch;
    var before := events[..|events| - 1];
    assert events[..|events|] == events;
    forall n | 0 <= n <= |before| ensures before[..n] == events[..n] {}
    if BooksAlwaysMatch(events) {
      forall n | 0 <= n <= |before| ensures AllBooksMatch(Polling.Run(Empty, before[..n])) {
        assert AllBooksMatch(Polling.Run(Empty, events[..n]));
      }
    } else if BooksAlwaysMatch(before) && AllBooksMatch(Polling.Run(Empty, events)) {
      forall n | 0 <= n <= |events| ensures AllBooksMatch(Polling.Run(Empty, events[..n])) {
        if n < |events| { assert AllBooksMatch(Polling.Run(Empty, before[..n])); }
      }
    }
  }

  /** In a serial run that loses nothing the books match the order rows after every event, for all symbols, if and only
      if no event restates an average. */
  lemma {:induction false} BooksAlwaysMatchExactlyWhen(events: seq<Event>)
    requires Serial(Empty, events) && Lossless(Empty, events)
    ensures BooksAlwaysMatch(events) <==> Steady(Empty, events)
  {
    hide Step, AllBooksMatch, BooksAlwaysMatch, Follows, Lossy, Restates, Recent, Priced;
    if events == [] {
      NoBooksMatch(events);
    } else {
      var last := |events| - 1;
      BooksAlwaysMatchExactlyWhen(events[..last]);
      BooksAlwaysMatchSplits(events);
      if BooksAlwaysMatch(events[..last]) {
        LastBooksMatch(events[..last]);
        BooksFollowOrders(events[..last], "");
        BooksMatchUnlessRestated(Polling.Run(Empty, events[..last]), events[last]);
      }
    }
  }

  lemma LastBooksMatch(events: seq<Event>)
    requires BooksAlwaysMatch(events)
    ensures AllBooksMatch(Polling.Run(Empty, events))
  {
    assert events[..|events|] == events;
  }

  lemma NoBooksMatch(events: seq<Event>)
    requires events == []
    ensures BooksAlwaysMatch(events)
  {
    hide HeldBy, SpentOn, NetProceeds;
    forall symbol ensures BooksMatch(Empty, symbol) { EmptyBooks(symbol); }
    assert events[..0] == [];
  }

  // ---- Whole polls ------------------------------------------------------------------------------------------

  function AsEvents(orders: seq<Snapshot>): (events: seq<Event>)
    ensures |events| == |orders|
    ensures forall i :: 0 <= i < |orders| ==> events[i] == Poll(orders[i])
  {
    seq(|orders|, i requires 0 <= i < |orders| => Poll(orders[i]))
  }

  /** An order raises exactly when it has a new fill and no average, of its own or stored. */
  lemma RaisesExactlyWhen(l: Ledger, s: Snapshot)
    ensures Recorded(l, s).accepted
            <==> s.filled <= FilledBefore(l.orders, s.orderId) || s.average.Some?
                 || AverageBefore(l.orders, s.orderId).Some?
  {
    hide IncrementalPrice, ApplyFill, Upper, NormalizeStatus;
  }

  /** A poll takes the ledger through its orders one event each: all of them, or all up to the one that raises. */
  lemma {:induction false} PollIsRun(events: seq<Event>, orders: seq<Snapshot>) returns (n: nat)
    ensures n <= |orders|
    ensures Polled(Polling.Run(Empty, events), orders).ledger == Polling.Run(Empty, events + AsEvents(orders[..n]))
    ensures Polled(Polling.Run(Empty, events), orders).accepted ==> n == |orders|
    ensures !Polled(Polling.Run(Empty, events), orders).accepted ==>
              0 < n && !Recorded(Polling.Run(Empty, events + AsEvents(orders[..n - 1])), orders[n - 1]).accepted
  {
    hide Recorded;
    var l := Polling.Run(Empty, events);
    if orders == [] {
      n := 0;
      assert events + AsEvents(orders[..0]) == events;
    } else {
      var last := |orders| - 1;
      n := PollIsRun(events, orders[..last]);
      if Polled(l, orders[..last]).accepted {
        var before := events + AsEvents(orders[..last]);
        assert orders[..last][..last] == orders[..last] && orders[..last + 1] == orders;
        assert events + AsEvents(orders) == before + [Poll(orders[last])];
        assert (before + [Poll(orders[last])])[..|before|] == before;
        n := |orders|;
      } else {
        assert orders[..last][..n] == orders[..n] && orders[..last][..n - 1] == orders[..n - 1];
      }
    }
  }

  /** After an accepted poll, in a serial run that loses and restates nothing, every symbol's position is what the order
      rows say: the signed sum of their fills, at minus the sum of fill times average. */
  lemma PollKeepsBooks(events: seq<Event>, orders: seq<Snapshot>, symbol: string)
    requires Polled(Polling.Run(Empty, events), orders).accepted
    requires var all := events + AsEvents(orders); Serial(Empty, all) && Lossless(Empty, all) && Steady(Empty, all)
    ensures var l := Polled(Polling.Run(Empty, events), orders).ledger;
            && PositionOf(l.positions, symbol).quantity == HeldBy(l, symbol)
            && NetProceeds(PositionOf(l.positions, symbol)) == -SpentOn(l, symbol)
  {
    hide Polled, Polling.Run, Serial, Lossless, Steady, HeldBy, SpentOn, NetProceeds, Restated;
    var n := PollIsRun(events, orders);
    assert orders[..|orders|] == orders;
    BooksFollowOrders(events + AsEvents(orders), symbol);
    SteadyRestatesNothing(events + AsEvents(orders), symbol);
  }

  /** No execution is booked twice: in every run, order and cumulative fill tell executions apart. */
  ghost predicate ToldApart(executions: seq<Execution>) {
    forall i, j :: 0 <= i < j < |executions| ==>
      executions[i].orderId != executions[j].orderId || executions[i].cumulative != executions[j].cumulative
  }

  lemma StepKeepsToldApart(l: Ledger, e: Event)
    requires ToldApart(l.executions)
    ensures ToldApart(Step(l, e).executions)
  {
    hide IncrementalPrice, ApplyFill, Upper, NormalizeStatus;
  }

  lemma {:induction false} ExecutionsAreToldApart(events: seq<Event>)
    ensures ToldApart(Polling.Run(Empty, events).executions)
  {
    hide Step, ToldApart;
    if events == [] {
      assert ToldApart([]) by { NoExecutions(); }
    } else {
      ExecutionsAreToldApart(events[..|events| - 1]);
      StepKeepsToldApart(Polling.Run(Empty, events[..|events| - 1]), events[|events| - 1]);
    }
  }

  lemma NoExecutions()
    ensures ToldApart([])
  {}

  // ---- Inputs -----------------------------------------------------------------------------------------------

  /** Five shares are reported and the process dies before their execution: the report repeated, nothing is executed. */
  lemma LostFillStaysLost()
    ensures var l := Polling.Run(Empty, [CrashAfterUpsert(Reported(5.0)), Poll(Reported(5.0))]);
            FilledBefore(l.orders, "1") == 5.0 && ExecutedQuantity(l.executions, "1") == 0.0
  {
    hide NormalizeStatus, ApplyFill, Upper;
    var events := [CrashAfterUpsert(Reported(5.0)), Poll(Reported(5.0))];
    assert events[..1] == [CrashAfterUpsert(Reported(5.0))] && events[..1][..0] == [];
    assert Polling.Run(Empty, events[..1]) == Upserted(Empty, Reported(5.0));
  }

  /** Five shares at 1.00 are executed, and then reported at an average of 2.00: the order row says 10.00 was spent, the
      position 5.00. */
  lemma RestatedAverageSplitsTheBooks()
    ensures var restated := Reported(5.0).(average := Some(2.0));
            var l := Polling.Run(Empty, [Poll(Reported(5.0)), Poll(restated)]);
            NetProceeds(PositionOf(l.positions, "A")) == -5.0 && SpentOn(l, "A") == 10.0
  {
    hide NormalizeStatus;
    var restated := Reported(5.0).(average := Some(2.0));
    var events := [Poll(Reported(5.0)), Poll(restated)];
    assert events[..1] == [Poll(Reported(5.0))] && events[..1][..0] == [];
    var l1 := Polling.Run(Empty, events[..1]);
    assert Polling.Run(Empty, events[..1][..0]) == Empty;
    assert l1 == Step(Polling.Run(Empty, events[..1][..0]), events[..1][0]);
    assert l1 == Recorded(Empty, Reported(5.0)).ledger;
    assert Upper("A") == "A";
    hide Upper;
    FirstPosition();
    var l := Polling.Run(Empty, events);
    assert l == Recorded(l1, restated).ledger && l == Upserted(l1, restated);
    OneRowSpent(l);
  }

  /** Five shares at 100 and then ten at an average of 110: the second execution is five at 120. */
  lemma SecondFillIsIncremental()
    ensures var first := Snapshot("1", "A", Buy, 10.0, 5.0, Some(100.0), "OPEN");
            var second := first.(filled := 10.0, average := Some(110.0));
            var l := Polled(Polled(Empty, [first]).ledger, [second]).ledger;
            && |l.executions| == 2 && l.executions[1].fill == Fill(Buy, 5.0, 120.0)
            && PositionOf(l.positions, "A") == Position(10.0, 110.0, 0.0)
  {
    assert Upper("A") == "A";
    hide Upper, NormalizeStatus;
    var first := Snapshot("1", "A", Buy, 10.0, 5.0, Some(100.0), "OPEN");
    var second := first.(filled := 10.0, average := Some(110.0));
    assert [first][..0] == [] && [second][..0] == [];
    var l1 := Polled(Empty, [first]).ledger;
    assert Polled(Empty, [first][..0]) == Outcome(Empty, true);
    assert l1 == Recorded(Empty, first).ledger;
    assert Polled(l1, [second][..0]) == Outcome(l1, true);
    assert l1.positions == map["A" := Position(5.0, 100.0, 0.0)];
    assert Polled(l1, [second]).ledger == Recorded(l1, second).ledger;
    assert IncrementalPrice(5.0, 100.0, 10.0, 110.0) == 120.0;
    assert WeightedPrice(5.0, 100.0, 5.0, 120.0) == 110.0;
  }

  lemma FirstPosition()
    ensures var l := Recorded(Empty, Reported(5.0)).ledger;
            && l.positions == map["A" := Position(5.0, 1.0, 0.0)]
            && l.orders.Keys == {"1"} && l.orders["1"].filled == 5.0 && l.orders["1"].average == Some(1.0)
            && l.orders["1"].side == Buy
  {
    assert Upper("A") == "A";
    hide Upper, NormalizeStatus;
  }

  lemma OneRowSpent(l: Ledger)
    requires l.orders.Keys == {"1"} && l.orders["1"].symbol == "A" && l.orders["1"].side == Buy
    requires l.orders["1"].filled == 5.0 && l.orders["1"].average == Some(2.0)
    ensures SpentOn(l, "A") == 10.0
  {
    assert Upper("A") == "A";
    var row := (k: string) => if k in l.orders then Spent(l.orders[k], "A") else 0.0;
    SumSplit(l.orders.Keys, row, "1");
    assert l.orders.Keys - {"1"} == {};
    MapSums.TotalIsSum(l.orders, (r: OrderRow) => Spent(r, "A"), row);
  }
}
