/** Runs of the LIVE order ledger: snapshots arrive one after the other, and the process may die between the
    commit of an order row and the commit of its execution. */
module Polling {
  import opened Decimals
  import opened Market
  import opened MapSums
  import opened OrderStatus
  import opened Text
  import opened LivePosition
  import opened LiveLedger

  datatype Event = Poll(snapshot: Snapshot) | CrashAfterUpsert(snapshot: Snapshot)

  function Step(l: Ledger, e: Event): Ledger {
    match e
    case Poll(s) => Recorded(l, s).ledger
    case CrashAfterUpsert(s) => Upserted(l, s)
  }

  function Run(l: Ledger, events: seq<Event>): Ledger {
    if events == [] then l else Step(Run(l, events[..|events| - 1]), events[|events| - 1])
  }

  /** Cumulative fills never fall, and an order keeps its side and symbol. */
  predicate Follows(l: Ledger, s: Snapshot) {
    && 0.0 <= s.filled
    && (s.orderId in l.orders ==>
          var row := l.orders[s.orderId];
          row.filled <= s.filled && row.side == s.side && Upper(row.symbol) == Upper(s.symbol))
  }

  predicate Serial(l: Ledger, events: seq<Event>) {
    events != [] ==>
      var last := |events| - 1;
      Serial(l, events[..last]) && Follows(Run(l, events[..last]), events[last].snapshot)
  }

  // ---- Executions against the stored fill -------------------------------------------------------------------

  function ExecutedQuantity(executions: seq<Execution>, id: string): real {
    if executions == [] then 0.0
    else
      var last := executions[|executions| - 1];
      ExecutedQuantity(executions[..|executions| - 1], id) + (if last.orderId == id then last.fill.quantity else 0.0)
  }

  /** The part of a fill this event fails to turn into an execution. */
  function LostBy(l: Ledger, e: Event, id: string): real {
    var s := e.snapshot;
    var delta := s.filled - FilledBefore(l.orders, id);
    if s.orderId == id && delta > 0.0 && (e.CrashAfterUpsert? || Refreshed(l.orders, s).average.None?)
    then delta else 0.0
  }

  function Lost(l: Ledger, events: seq<Event>, id: string): real {
    if events == [] then 0.0
    else
      var last := |events| - 1;
      Lost(l, events[..last], id) + LostBy(Run(l, events[..last]), events[last], id)
  }

  /** Executions are of known orders, positive, and for fills no later than the stored one. */
  ghost predicate Recent(l: Ledger) {
    forall i :: 0 <= i < |l.executions| ==>
      var e := l.executions[i];
      e.orderId in l.orders && e.cumulative <= l.orders[e.orderId].filled && 0.0 < e.fill.quantity
  }

  function NewExecution(l: Ledger, s: Snapshot): Execution
    requires FilledBefore(l.orders, s.orderId) < s.filled && Refreshed(l.orders, s).average.Some?
  {
    var before := FilledBefore(l.orders, s.orderId);
    var price := IncrementalPrice(before, ValueOr0(AverageBefore(l.orders, s.orderId)), s.filled,
                                  Refreshed(l.orders, s).average.value);
    Execution(s.orderId, s.filled, s.symbol, Fill(s.side, s.filled - before, price))
  }

  /** With rising fills the duplicate check never finds anything: a priced new fill is always executed. */
  lemma NewFillIsExecuted(l: Ledger, s: Snapshot)
    requires Recent(l) && Follows(l, s)
    ensures s.filled <= FilledBefore(l.orders, s.orderId) ==> Recorded(l, s) == Outcome(Upserted(l, s), true)
    ensures s.filled > FilledBefore(l.orders, s.orderId) && Refreshed(l.orders, s).average.None?
            ==> Recorded(l, s) == Outcome(Upserted(l, s), false)
    ensures s.filled > FilledBefore(l.orders, s.orderId) && Refreshed(l.orders, s).average.Some?
            ==> var e := NewExecution(l, s);
                var symbol := Upper(s.symbol);
                Recorded(l, s) == Outcome(
                  Upserted(l, s).(executions := l.executions + [e],
                                  positions := l.positions[
                                    symbol := ApplyFill(PositionOf(l.positions, symbol), e.fill)]),
                  true)
  {
    hide IncrementalPrice, ApplyFill, Upper, NormalizeStatus;
    if Executed(l.executions, s.orderId, s.filled) {
      var e :| e in l.executions && e.orderId == s.orderId && e.cumulative == s.filled;
      assert s.filled <= FilledBefore(l.orders, s.orderId);
    }
  }

  lemma ExecutedAfter(executions: seq<Execution>, e: Execution, id: string)
    ensures ExecutedQuantity(executions + [e], id)
            == ExecutedQuantity(executions, id) + (if e.orderId == id then e.fill.quantity else 0.0)
  {
    assert (executions + [e])[..|executions|] == executions;
  }

  /** What one step adds to an order's executions is what its row gained, less what the step lost. */
  lemma StepAccounts(l: Ledger, e: Event, id: string)
    requires Recent(l) && Follows(l, e.snapshot)
    ensures var m := Step(l, e);
            && Recent(m)
            && ExecutedQuantity(m.executions, id) - FilledBefore(m.orders, id)
               == ExecutedQuantity(l.executions, id) - FilledBefore(l.orders, id) - LostBy(l, e, id)
  {
    hide Recorded, IncrementalPrice, ApplyFill, Upper, NormalizeStatus, ExecutedQuantity;
    var s := e.snapshot;
    NewFillIsExecuted(l, s);
    if e.Poll? && s.filled > FilledBefore(l.orders, s.orderId) && Refreshed(l.orders, s).average.Some? {
      ExecutedAfter(l.executions, NewExecution(l, s), id);
    }
  }

  /** For every serial run from an empty ledger, crashes and unpriced fills included: the executions of an order
      add up to its stored fill less exactly what was lost. So they never exceed it. */
  lemma {:induction false} ExecutionsAccountForFills(events: seq<Event>, id: string)
    requires Serial(Empty, events)
    ensures Recent(Run(Empty, events))
    ensures var l := Run(Empty, events);
            && ExecutedQuantity(l.executions, id) == FilledBefore(l.orders, id) - Lost(Empty, events, id)
            && ExecutedQuantity(l.executions, id) <= FilledBefore(l.orders, id)
            && 0.0 <= Lost(Empty, events, id)
  {
    if events != [] {
      var last := |events| - 1;
      ExecutionsAccountForFills(events[..last], id);
      StepAccounts(Run(Empty, events[..last]), events[last], id);
    }
  }

  /** An event after which the row knows a fill no execution will ever show. */
  predicate Lossy(l: Ledger, e: Event) {
    && e.snapshot.filled > FilledBefore(l.orders, e.snapshot.orderId)
    && (e.CrashAfterUpsert? || Refreshed(l.orders, e.snapshot).average.None?)
  }

  predicate Lossless(l: Ledger, events: seq<Event>) {
    events != [] ==>
      var last := |events| - 1;
      Lossless(l, events[..last]) && !Lossy(Run(l, events[..last]), events[last])
  }

  lemma {:induction false} LostOnlyWhenLossy(events: seq<Event>, id: string)
    requires Serial(Empty, events)
    ensures 0.0 <= Lost(Empty, events, id)
    ensures Lossless(Empty, events) ==> Lost(Empty, events, id) == 0.0
  {
    if events != [] { LostOnlyWhenLossy(events[..|events| - 1], id); }
  }

  lemma {:induction false} LossyRunHasVictim(events: seq<Event>) returns (id: string)
    requires Serial(Empty, events) && !Lossless(Empty, events)
    ensures Lost(Empty, events, id) > 0.0
  {
    var last := |events| - 1;
    if Lossless(Empty, events[..last]) {
      id := events[last].snapshot.orderId;
      LostOnlyWhenLossy(events[..last], id);
    } else {
      id := LossyRunHasVictim(events[..last]);
    }
  }

  ghost predicate Complete(l: Ledger) {
    forall id :: ExecutedQuantity(l.executions, id) == FilledBefore(l.orders, id)
  }

  /** The executions of every order add up to exactly its stored fill if and only if no event was lossy:
      a fill lost once is never made up for. */
  lemma ExecutionsCompleteExactlyWhenLossless(events: seq<Event>)
    requires Serial(Empty, events)
    ensures Complete(Run(Empty, events)) <==> Lossless(Empty, events)
  {
    hide Run, Lossless, Lost, Serial, ExecutedQuantity;
    if Lossless(Empty, events) {
      forall id
        ensures ExecutedQuantity(Run(Empty, events).executions, id) == FilledBefore(Run(Empty, events).orders, id)
      {
        ExecutionsAccountForFills(events, id);
        LostOnlyWhenLossy(events, id);
      }
    } else {
      var id := LossyRunHasVictim(events);
      ExecutionsAccountForFills(events, id);
    }
  }

  // ---- Falling fills ----------------------------------------------------------------------------------------

  /** The cumulative fill has not fallen. */
  predicate Rises(l: Ledger, s: Snapshot) { FilledBefore(l.orders, s.orderId) <= s.filled }

  predicate Rising(l: Ledger, events: seq<Event>) {
    events != [] ==>
      var last := |events| - 1;
      Rising(l, events[..last]) && Rises(Run(l, events[..last]), events[last].snapshot)
  }

  /** A fill that does not rise adds no execution, one that does adds one of its growth unless it is lost. */
  lemma ExecutedByStep(l: Ledger, e: Event)
    requires Recent(l)
    ensures var s, m := e.snapshot, Step(l, e);
            && m.orders == l.orders[s.orderId := Refreshed(l.orders, s)]
            && m.executions == (if s.filled <= FilledBefore(l.orders, s.orderId) || Lossy(l, e) then l.executions
                                else l.executions + [NewExecution(l, s)])
            && (Rises(l, s) ==> Recent(m))
  {
    hide IncrementalPrice, ApplyFill, Upper, NormalizeStatus;
  }

  /** One event keeps the executions of every order equal to its stored fill if and only if the fill has not fallen
      and is not lost. */
  lemma StepStaysCompleteExactlyWhen(l: Ledger, e: Event)
    requires Recent(l) && Complete(l)
    ensures Complete(Step(l, e)) <==> Rises(l, e.snapshot) && !Lossy(l, e)
  {
    hide Step, Refreshed, NewExecution, Lossy, ExecutedQuantity;
    var s, m := e.snapshot, Step(l, e);
    ExecutedByStep(l, e);
    NewExecutionIsGrowth(l, e);
    forall id
      ensures ExecutedQuantity(m.executions, id) - FilledBefore(m.orders, id)
              == if id != s.orderId || (Rises(l, s) && !Lossy(l, e)) then 0.0
                 else FilledBefore(l.orders, id) - s.filled
    {
      assert ExecutedQuantity(l.executions, id) == FilledBefore(l.orders, id);
      if m.executions != l.executions { ExecutedAfter(l.executions, NewExecution(l, s), id); }
    }
    assert Lossy(l, e) ==> FilledBefore(l.orders, s.orderId) < s.filled;
  }

  lemma NewExecutionIsGrowth(l: Ledger, e: Event)
    ensures Refreshed(l.orders, e.snapshot).filled == e.snapshot.filled
    ensures Lossy(l, e) ==> FilledBefore(l.orders, e.snapshot.orderId) < e.snapshot.filled
    ensures FilledBefore(l.orders, e.snapshot.orderId) < e.snapshot.filled && !Lossy(l, e)
            ==> Refreshed(l.orders, e.snapshot).average.Some? &&
                var x := NewExecution(l, e.snapshot);
                x.orderId == e.snapshot.orderId
                && x.fill.quantity == e.snapshot.filled - FilledBefore(l.orders, e.snapshot.orderId)
  {
    hide NormalizeStatus, IncrementalPrice;
  }

  ghost predicate AlwaysComplete(events: seq<Event>) {
    forall n :: 0 <= n <= |events| ==> Complete(Run(Empty, events[..n]))
  }

  lemma AlwaysCompleteSplits(events: seq<Event>)
    requires events != []
    ensures AlwaysComplete(events) <==> AlwaysComplete(events[..|events| - 1]) && Complete(Run(Empty, events))
  {
    hide Run, Complete;
    var before := events[..|events| - 1];
    assert events[..|events|] == events;
    forall n | 0 <= n <= |before| ensures before[..n] == events[..n] {}
    if AlwaysComplete(events) {
      forall n | 0 <= n <= |before| ensures Complete(Run(Empty, before[..n])) {
        assert Complete(Run(Empty, events[..n]));
      }
    } else if AlwaysComplete(before) && Complete(Run(Empty, events)) {
      forall n | 0 <= n <= |events| ensures Complete(Run(Empty, events[..n])) {
        if n < |events| { assert Complete(Run(Empty, before[..n])); }
      }
    }
  }

  /** The executions match the stored fills after every event of a run if and only if no event's fill falls and none
      is lost. The ends alone do not tell: 5, 3, 5 is out of step in between only. */
  lemma {:induction false} AlwaysCompleteExactlyWhen(events: seq<Event>)
    ensures AlwaysComplete(events) <==> Rising(Empty, events) && Lossless(Empty, events)
    ensures AlwaysComplete(events) ==> Recent(Run(Empty, events)) && Complete(Run(Empty, events))
  {
    hide Step, Complete, Rises, Lossy, Recent, AlwaysComplete;
    NothingIsComplete();
    if events == [] {
      OnlyTheStart(events);
    } else {
      var last := |events| - 1;
      AlwaysCompleteExactlyWhen(events[..last]);
      AlwaysCompleteSplits(events);
      if AlwaysComplete(events[..last]) {
        StepStaysCompleteExactlyWhen(Run(Empty, events[..last]), events[last]);
        ExecutedByStep(Run(Empty, events[..last]), events[last]);
      }
    }
  }

  lemma OnlyTheStart(events: seq<Event>)
    requires events == []
    ensures AlwaysComplete(events)
  {
    NothingIsComplete();
    assert events[..0] == events;
  }

  lemma NothingIsComplete()
    ensures Complete(Empty) && Recent(Empty)
  {}

  function Reported(filled: real): Snapshot { Snapshot("1", "A", Buy, 10.0, filled, Some(1.0), "OPEN") }

  lemma FirstReport()
    ensures var l := Recorded(Empty, Reported(5.0)).ledger;
            FilledBefore(l.orders, "1") == 5.0 && |l.executions| == 1
            && var e := l.executions[0]; e.orderId == "1" && e.cumulative == 5.0 && e.fill.quantity == 5.0
  {
    hide NormalizeStatus, ApplyFill, Upper;
  }

  lemma FallingReport(l: Ledger, filled: real)
    requires FilledBefore(l.orders, "1") > filled
    ensures var m := Recorded(l, Reported(filled)).ledger;
            FilledBefore(m.orders, "1") == filled && m.executions == l.executions
  {
    hide NormalizeStatus, ApplyFill, Upper;
  }

  lemma LastReport(l: Ledger)
    requires FilledBefore(l.orders, "1") == 3.0 && |l.executions| == 1 && l.executions[0].cumulative == 5.0
    ensures var m := Recorded(l, Reported(4.0)).ledger;
            FilledBefore(m.orders, "1") == 4.0 && |m.executions| == 2 && m.executions[0] == l.executions[0]
            && m.executions[1].orderId == "1" && m.executions[1].fill.quantity == 1.0
  {
    hide NormalizeStatus, ApplyFill, Upper;
  }

  lemma TwoExecutions(executions: seq<Execution>)
    requires |executions| == 2 && executions[0].orderId == "1" && executions[1].orderId == "1"
    ensures ExecutedQuantity(executions, "1") == executions[0].fill.quantity + executions[1].fill.quantity
  {
    assert executions[..1][..0] == [];
    assert ExecutedQuantity(executions[..1], "1") == executions[0].fill.quantity;
  }

  lemma ThreeEvents(l: Ledger, a: Event, b: Event, c: Event)
    ensures Run(l, [a, b, c]) == Step(Step(Step(l, a), b), c)
  {
    hide Step;
    assert [a, b, c][..2] == [a, b] && [a, b][..1] == [a] && [a][..0] == [];
    assert Run(l, [a, b]) == Step(Run(l, [a]), b);
  }

  /** So the bound fails for 5, then 3, then 4 shares reported: 6 shares are executed. */
  lemma FallingFillsOverExecute()
    ensures var l := Run(Empty, [Poll(Reported(5.0)), Poll(Reported(3.0)), Poll(Reported(4.0))]);
            FilledBefore(l.orders, "1") == 4.0 && ExecutedQuantity(l.executions, "1") == 6.0
  {
    ThreeEvents(Empty, Poll(Reported(5.0)), Poll(Reported(3.0)), Poll(Reported(4.0)));
    var l1 := Recorded(Empty, Reported(5.0)).ledger;
    var l2 := Recorded(l1, Reported(3.0)).ledger;
    var l3 := Recorded(l2, Reported(4.0)).ledger;
    FirstReport();
    FallingReport(l1, 3.0);
    LastReport(l2);
    hide Recorded;
    TwoExecutions(l3.executions);
  }

  // ---- Positions against the order rows ---------------------------------------------------------------------

  /** What an order has added to a symbol's net quantity. */
  function Held(row: OrderRow, symbol: string): real {
    if Upper(row.symbol) == symbol then row.side.Sign() * row.filled else 0.0
  }

  /** What an order has cost: filled quantity times average price, negative for a sale. */
  function Spent(row: OrderRow, symbol: string): real {
    if Upper(row.symbol) == symbol then row.side.Sign() * Notional(row.filled, ValueOr0(row.average)) else 0.0
  }

  ghost function HeldBy(l: Ledger, symbol: string): real {
    Total(l.orders, (row: OrderRow) => Held(row, symbol))
  }

  ghost function SpentOn(l: Ledger, symbol: string): real {
    Total(l.orders, (row: OrderRow) => Spent(row, symbol))
  }

  ghost predicate BooksMatch(l: Ledger, symbol: string) {
    && PositionOf(l.positions, symbol).quantity == HeldBy(l, symbol)
    && NetProceeds(PositionOf(l.positions, symbol)) == -SpentOn(l, symbol)
  }

  ghost predicate AllBooksMatch(l: Ledger) {
    forall symbol :: BooksMatch(l, symbol)
  }

  predicate Priced(l: Ledger) {
    forall id :: id in l.orders ==>
      0.0 <= l.orders[id].filled && (0.0 < l.orders[id].filled ==> l.orders[id].average.Some?)
  }

  /** The broker changes the average of an order without a new fill. */
  predicate Restates(l: Ledger, s: Snapshot) {
    && s.orderId in l.orders
    && s.filled == l.orders[s.orderId].filled > 0.0
    && OrElse(s.average, l.orders[s.orderId].average) != l.orders[s.orderId].average
  }

  /** Incremental prices telescope: the newest part is worth the growth of filled quantity times average. */
  lemma IncrementTelescopes(oldQuantity: real, oldAverage: real, newQuantity: real, newAverage: real)
    requires oldQuantity < newQuantity
    ensures oldQuantity <= 0.0 ==> IncrementalPrice(oldQuantity, oldAverage, newQuantity, newAverage) == newAverage
    ensures 0.0 <= oldQuantity ==>
              Notional(newQuantity - oldQuantity, IncrementalPrice(oldQuantity, oldAverage, newQuantity, newAverage))
              == Notional(newQuantity, newAverage) - Notional(oldQuantity, oldAverage)
  {
    DivideBack(newAverage * newQuantity - oldAverage * oldQuantity, newQuantity - oldQuantity);
  }

  /** Writing an order row moves the sums over the orders by that row's own change. */
  lemma RowGrowth(l: Ledger, s: Snapshot, symbol: string)
    ensures HeldBy(Upserted(l, s), symbol)
            == HeldBy(l, symbol) - At(l.orders, (r: OrderRow) => Held(r, symbol), s.orderId)
               + Held(Refreshed(l.orders, s), symbol)
    ensures SpentOn(Upserted(l, s), symbol)
            == SpentOn(l, symbol) - At(l.orders, (r: OrderRow) => Spent(r, symbol), s.orderId)
               + Spent(Refreshed(l.orders, s), symbol)
  {
    hide Held, Spent, Refreshed, Total;
    TotalAfterWrite(l.orders, (r: OrderRow) => Held(r, symbol), s.orderId, Refreshed(l.orders, s));
    TotalAfterWrite(l.orders, (r: OrderRow) => Spent(r, symbol), s.orderId, Refreshed(l.orders, s));
  }

  /** How far a restated average moves an order's recorded value away from what was executed. */
  function RestatedBy(l: Ledger, s: Snapshot, symbol: string): real {
    if Restates(l, s) && Upper(s.symbol) == symbol then
      Spent(Refreshed(l.orders, s), symbol) - Spent(l.orders[s.orderId], symbol)
    else 0.0
  }

  /** An executed fill is worth the growth of its order row. */
  lemma FillWorth(l: Ledger, s: Snapshot, symbol: string)
    requires Follows(l, s) && Priced(l)
    requires FilledBefore(l.orders, s.orderId) < s.filled && Refreshed(l.orders, s).average.Some?
    requires Upper(s.symbol) == symbol
    ensures var fill := NewExecution(l, s).fill;
            && SignedQuantity(fill) == Held(Refreshed(l.orders, s), symbol)
                                       - At(l.orders, (r: OrderRow) => Held(r, symbol), s.orderId)
            && Outlay(fill) == Spent(Refreshed(l.orders, s), symbol)
                               - At(l.orders, (r: OrderRow) => Spent(r, symbol), s.orderId)
  {
    hide Upper, NormalizeStatus, Notional, IncrementalPrice;
    var before := FilledBefore(l.orders, s.orderId);
    var average := ValueOr0(AverageBefore(l.orders, s.orderId));
    var fill := NewExecution(l, s).fill;
    IncrementTelescopes(before, average, s.filled, Refreshed(l.orders, s).average.value);
    NotionalOfNegative(fill.quantity, fill.price);
    NotionalOfZero(average);
    if s.side.Buy? {
      assert Outlay(fill) == Notional(fill.quantity, fill.price);
    } else {
      assert Outlay(fill) == -Notional(fill.quantity, fill.price);
    }
  }

  /** A snapshot without a new fill adds nothing to the books, unless it restates an average. */
  lemma UnfilledWorth(l: Ledger, s: Snapshot, symbol: string)
    requires Follows(l, s) && Priced(l)
    requires s.filled <= FilledBefore(l.orders, s.orderId)
    ensures Held(Refreshed(l.orders, s), symbol) == At(l.orders, (r: OrderRow) => Held(r, symbol), s.orderId)
    ensures Spent(Refreshed(l.orders, s), symbol)
            == At(l.orders, (r: OrderRow) => Spent(r, symbol), s.orderId) + RestatedBy(l, s, symbol)
  {
    hide Upper, NormalizeStatus, Notional;
    NotionalOfZero(ValueOr0(Refreshed(l.orders, s).average));
    if s.orderId in l.orders {
      NotionalOfZero(ValueOr0(l.orders[s.orderId].average));
    }
  }

  /** One event that loses nothing keeps the books as far from the order rows as they were, plus what it restates. */
  lemma StepKeepsBooks(l: Ledger, e: Event, symbol: string)
    requires Recent(l) && Follows(l, e.snapshot) && Priced(l) && !Lossy(l, e)
    ensures var m := Step(l, e);
            && Priced(m)
            && PositionOf(m.positions, symbol).quantity - HeldBy(m, symbol)
               == PositionOf(l.positions, symbol).quantity - HeldBy(l, symbol)
            && NetProceeds(PositionOf(m.positions, symbol)) + SpentOn(m, symbol)
               == NetProceeds(PositionOf(l.positions, symbol)) + SpentOn(l, symbol)
                  + RestatedBy(l, e.snapshot, symbol)
  {
    hide Recorded, Upper, NormalizeStatus, ApplyFill, IncrementalPrice, NetProceeds;
    hide Held, Spent, HeldBy, SpentOn, NewExecution;
    var s := e.snapshot;
    NewFillIsExecuted(l, s);
    RowGrowth(l, s, symbol);
    var m := Step(l, e);
    if s.filled <= FilledBefore(l.orders, s.orderId) {
      UnfilledWorth(l, s, symbol);
      assert m == Upserted(l, s);
    } else {
      var x := NewExecution(l, s);
      SameOrders(m, Upserted(l, s), symbol);
      FillIsPositive(l, s);
      if Upper(s.symbol) == symbol {
        FillWorth(l, s, symbol);
        FillConserves(PositionOf(l.positions, symbol), x.fill);
      } else {
        OtherSymbol(l, s, symbol);
      }
    }
  }

  lemma SameOrders(l: Ledger, m: Ledger, symbol: string)
    requires l.orders == m.orders
    ensures HeldBy(l, symbol) == HeldBy(m, symbol) && SpentOn(l, symbol) == SpentOn(m, symbol)
  {}

  lemma FillIsPositive(l: Ledger, s: Snapshot)
    requires FilledBefore(l.orders, s.orderId) < s.filled && Refreshed(l.orders, s).average.Some?
    ensures NewExecution(l, s).fill.quantity > 0.0
  {}

  lemma OtherSymbol(l: Ledger, s: Snapshot, symbol: string)
    requires Follows(l, s) && Upper(s.symbol) != symbol
    ensures Held(Refreshed(l.orders, s), symbol) == 0.0 && Spent(Refreshed(l.orders, s), symbol) == 0.0
    ensures At(l.orders, (r: OrderRow) => Held(r, symbol), s.orderId) == 0.0
    ensures At(l.orders, (r: OrderRow) => Spent(r, symbol), s.orderId) == 0.0
    ensures RestatedBy(l, s, symbol) == 0.0
  {
    hide Upper;
  }

  function Restated(l: Ledger, events: seq<Event>, symbol: string): real {
    if events == [] then 0.0
    else
      var last := |events| - 1;
      Restated(l, events[..last], symbol) + RestatedBy(Run(l, events[..last]), events[last].snapshot, symbol)
  }

  lemma EmptyBooks(symbol: string)
    ensures HeldBy(Empty, symbol) == 0.0 && SpentOn(Empty, symbol) == 0.0
    ensures PositionOf(Empty.positions, symbol) == Flat && NetProceeds(Flat) == 0.0
  {
    TotalEmpty(Empty.orders, (r: OrderRow) => Held(r, symbol));
    TotalEmpty(Empty.orders, (r: OrderRow) => Spent(r, symbol));
    NotionalOfZero(0.0);
  }

  /** For every serial lossless run, however the polls fall and the orders interleave: a symbol's net quantity is
      the signed sum of its orders' fills, and realised P&L less the cost of the holding is minus the sum of
      filled quantity times average, corrected by exactly what was restated. */
  lemma {:induction false} BooksFollowOrders(events: seq<Event>, symbol: string)
    requires Serial(Empty, events) && Lossless(Empty, events)
    ensures var l := Run(Empty, events);
            && Priced(l) && Recent(l)
            && PositionOf(l.positions, symbol).quantity == HeldBy(l, symbol)
            && NetProceeds(PositionOf(l.positions, symbol)) == -SpentOn(l, symbol) + Restated(Empty, events, symbol)
  {
    hide Step, HeldBy, SpentOn, NetProceeds, Lossy, Follows, RestatedBy;
    if events == [] {
      EmptyBooks(symbol);
    } else {
      var last := |events| - 1;
      BooksFollowOrders(events[..last], symbol);
      StepKeepsBooks(Run(Empty, events[..last]), events[last], symbol);
      StepAccounts(Run(Empty, events[..last]), events[last], "");
    }
  }

  /** A restated average is worth something. */
  lemma RestatementShows(l: Ledger, s: Snapshot)
    requires Priced(l) && Restates(l, s) && Follows(l, s)
    ensures RestatedBy(l, s, Upper(s.symbol)) != 0.0
  {
    hide Upper, NormalizeStatus, Notional;
    NotionalInjective(s.filled, ValueOr0(Refreshed(l.orders, s).average), ValueOr0(l.orders[s.orderId].average));
  }

  /** From matching books, an event that loses nothing keeps them matching if and only if it does not restate the
      average of an order whose fill has not changed. */
  lemma BooksMatchUnlessRestated(l: Ledger, e: Event)
    requires Recent(l) && Priced(l) && Follows(l, e.snapshot) && !Lossy(l, e)
    requires AllBooksMatch(l)
    ensures AllBooksMatch(Step(l, e)) <==> !Restates(l, e.snapshot)
  {
    hide Recent, Priced, Follows, Lossy, Step, HeldBy, SpentOn, NetProceeds, Restates, Upper, PositionOf;
    if Restates(l, e.snapshot) {
      var symbol := Upper(e.snapshot.symbol);
      RestatementShows(l, e.snapshot);
      StepKeepsBooks(l, e, symbol);
      assert BooksMatch(l, symbol);
      assert !BooksMatch(Step(l, e), symbol);
    } else {
      forall symbol ensures BooksMatch(Step(l, e), symbol) {
        StepKeepsBooks(l, e, symbol);
        assert BooksMatch(l, symbol);
      }
    }
  }

  /** No event restates an average. */
  predicate Steady(l: Ledger, events: seq<Event>) {
    events != [] ==>
      var last := |events| - 1;
      Steady(l, events[..last]) && !Restates(Run(l, events[..last]), events[last].snapshot)
  }

  lemma {:induction false} SteadyRestatesNothing(events: seq<Event>, symbol: string)
    requires Steady(Empty, events)
    ensures Restated(Empty, events, symbol) == 0.0
  {
    if events != [] { SteadyRestatesNothing(events[..|events| - 1], symbol); }
  }

  /** Both ledgers know the same orders, filled alike at the same averages. */
  predicate SameFills(l: Ledger, m: Ledger) {
    && l.orders.Keys == m.orders.Keys
    && forall id :: id in l.orders ==>
         var r, q := l.orders[id], m.orders[id];
         r.side == q.side && r.filled == q.filled && r.average == q.average && Upper(r.symbol) == Upper(q.symbol)
  }

  /** Polling-schedule independence: two runs that end with the same fills end with the same net quantity and the
      same realised P&L less cost of the holding, for every choice of polling points and order of orders. */
  lemma ScheduleIndependence(run1: seq<Event>, run2: seq<Event>, symbol: string)
    requires Serial(Empty, run1) && Lossless(Empty, run1) && Steady(Empty, run1)
    requires Serial(Empty, run2) && Lossless(Empty, run2) && Steady(Empty, run2)
    requires SameFills(Run(Empty, run1), Run(Empty, run2))
    ensures var p := PositionOf(Run(Empty, run1).positions, symbol);
            var q := PositionOf(Run(Empty, run2).positions, symbol);
            p.quantity == q.quantity && NetProceeds(p) == NetProceeds(q)
  {
    hide Run, Serial, Lossless, Steady, Restated, NetProceeds, Recent, Priced, PositionOf;
    BooksFollowOrders(run1, symbol);
    BooksFollowOrders(run2, symbol);
    SteadyRestatesNothing(run1, symbol);
    SteadyRestatesNothing(run2, symbol);
    SumsAgree(Run(Empty, run1), Run(Empty, run2), symbol);
  }

  lemma SumsAgree(l: Ledger, m: Ledger, symbol: string)
    requires SameFills(l, m)
    ensures HeldBy(l, symbol) == HeldBy(m, symbol) && SpentOn(l, symbol) == SpentOn(m, symbol)
  {
    hide Total, Upper;
    TotalAgrees(l.orders, (r: OrderRow) => Held(r, symbol), m.orders, (r: OrderRow) => Held(r, symbol));
    TotalAgrees(l.orders, (r: OrderRow) => Spent(r, symbol), m.orders, (r: OrderRow) => Spent(r, symbol));
  }
}
