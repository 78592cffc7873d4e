/** The order ledger of one LIVE account: broker snapshots are upserted, and what they newly report as filled
    becomes an execution and a position change. */
module LiveLedger {
  import opened Decimals
  import opened Market
  import opened LivePosition
  import opened OrderStatus
  import opened Text

  /** What the broker says about one order. */
  datatype Snapshot = Snapshot(orderId: string, symbol: string, side: Side, quantity: real,
                               filled: real, average: Option<real>, status: string)

  datatype OrderRow = OrderRow(symbol: string, side: Side, quantity: real,
                               filled: real, average: Option<real>, status: string)

  /** An immutable execution. Its external id is the order id and the cumulative fill that completed it. */
  datatype Execution = Execution(orderId: string, cumulative: real, symbol: string, fill: Fill)

  datatype Ledger = Ledger(orders: map<string, OrderRow>, executions: seq<Execution>, positions: map<string, Position>)

  const Empty := Ledger(map[], [], map[])

  /** `accepted` is false when a fill came without a price: the order row is committed, the execution is not. */
  datatype Outcome = Outcome(ledger: Ledger, accepted: bool)

  function OrElse(x: Option<real>, fallback: Option<real>): Option<real> {
    if x.Some? then x else fallback
  }

  function ValueOr0(x: Option<real>): real { if x.Some? then x.value else 0.0 }

  function FilledBefore(orders: map<string, OrderRow>, id: string): real {
    if id in orders then orders[id].filled else 0.0
  }

  function AverageBefore(orders: map<string, OrderRow>, id: string): Option<real> {
    if id in orders then orders[id].average else None
  }

  function Refreshed(orders: map<string, OrderRow>, s: Snapshot): OrderRow {
    OrderRow(s.symbol, s.side, s.quantity, s.filled, OrElse(s.average, AverageBefore(orders, s.orderId)),
             NormalizeStatus(s.status, s.quantity, s.filled))
  }

  /** The order row alone: what is left when the process dies before the execution commit. */
  function Upserted(l: Ledger, s: Snapshot): Ledger {
    l.(orders := l.orders[s.orderId := Refreshed(l.orders, s)])
  }

  function PositionOf(positions: map<string, Position>, symbol: string): Position {
    if symbol in positions then positions[symbol] else Flat
  }

  /** The price of the newest part of a fill, from two cumulative averages. */
  function IncrementalPrice(oldQuantity: real, oldAverage: real, newQuantity: real, newAverage: real): real
    requires newQuantity != oldQuantity
  {
    if oldQuantity <= 0.0 then newAverage
    else (newAverage * newQuantity - oldAverage * oldQuantity) / (newQuantity - oldQuantity)
  }

  predicate Executed(executions: seq<Execution>, id: string, cumulative: real) {
    exists e :: e in executions && e.orderId == id && e.cumulative == cumulative
  }

  /** Turn whatever the row reports beyond the previous fill into an execution. */
  function Reconciled(l: Ledger, id: string, row: OrderRow, oldFilled: real, oldAverage: Option<real>): Outcome {
    if row.filled <= oldFilled then Outcome(l, true)
    else if row.average.None? then Outcome(l, false)
    else if Executed(l.executions, id, row.filled) then Outcome(l, true)
    else
      var price := IncrementalPrice(oldFilled, ValueOr0(oldAverage), row.filled, row.average.value);
      var fill := Fill(row.side, row.filled - oldFilled, price);
      var symbol := Upper(row.symbol);
      Outcome(l.(executions := l.executions + [Execution(id, row.filled, row.symbol, fill)],
                 positions := l.positions[symbol := ApplyFill(PositionOf(l.positions, symbol), fill)]),
              true)
  }

  /** One order of a poll: read the previous fill, upsert the row, then reconcile. */
  function Recorded(l: Ledger, s: Snapshot): Outcome {
    Reconciled(Upserted(l, s), s.orderId, Refreshed(l.orders, s),
               FilledBefore(l.orders, s.orderId), AverageBefore(l.orders, s.orderId))
  }

  /** A whole poll. An order that raises ends it; the orders before it stay recorded. */
  function Polled(l: Ledger, orders: seq<Snapshot>): Outcome {
    if orders == [] then Outcome(l, true)
    else
      var last := |orders| - 1;
      var before := Polled(l, orders[..last]);
      if before.accepted then Recorded(before.ledger, orders[last]) else before
  }

  /** Recording a snapshot a second time changes nothing, even when the first attempt raised half-way. */
  lemma ReplayIsIdle(l: Ledger, s: Snapshot)
    ensures Recorded(Recorded(l, s).ledger, s).ledger == Recorded(l, s).ledger
    ensures Recorded(Upserted(l, s), s) == Outcome(Upserted(l, s), true)
  {
    var once := Recorded(l, s).ledger;
    assert once.orders == Upserted(l, s).orders;
    assert Refreshed(once.orders, s) == once.orders[s.orderId];
    assert once.orders[s.orderId := Refreshed(once.orders, s)] == once.orders;
  }

  class OrderLedger {
    var orders: map<string, OrderRow>
    var executions: seq<Execution>
    var positions: map<string, Position>

    ghost function Contents(): Ledger
      reads this
    {
      Ledger(orders, executions, positions)
    }

    constructor ()
      ensures Contents() == Empty
    {
      orders, executions, positions := map[], [], map[];
    }

    method UpsertFromBroker(s: Snapshot) returns (row: OrderRow)
      modifies this
      ensures Contents() == Upserted(old(Contents()), s)
      ensures s.orderId in orders && row == orders[s.orderId]
      ensures row.symbol == s.symbol && row.side == s.side && row.quantity == s.quantity && row.filled == s.filled
      ensures row.average == if s.average.Some? then s.average
                             else if s.orderId in old(orders) then old(orders)[s.orderId].average else None
      ensures row.status == NormalizeStatus(s.status, s.quantity, s.filled)
    {
      row := OrderRow(s.symbol, s.side, s.quantity, 0.0, None, Upper(s.status));
      if s.orderId in orders {
        row := orders[s.orderId];
      }
      row := row.(symbol := s.symbol, side := s.side, quantity := s.quantity, filled := s.filled);
      if s.average.Some? {
        row := row.(average := s.average);
      }
      row := row.(status := NormalizeStatus(s.status, s.quantity, s.filled));
      orders := orders[s.orderId := row];
    }

    method ReconcileBrokerOrder(id: string, row: OrderRow, oldFilled: real, oldAverage: Option<real>)
      returns (accepted: bool)
      modifies this
      ensures Outcome(Contents(), accepted) == Reconciled(old(Contents()), id, row, oldFilled, oldAverage)
    {
      var delta := row.filled - oldFilled;
      if delta <= 0.0 {
        return true;
      }
      if row.average.None? {
        return false;
      }
      var price := IncrementalPrice(oldFilled, ValueOr0(oldAverage), row.filled, row.average.value);
      var known := FindExecution(id, row.filled);
      if known {
        return true;
      }
      executions := executions + [Execution(id, row.filled, row.symbol, Fill(row.side, delta, price))];
      var symbol := Upper(row.symbol);
      var position := new TradingPosition();
      if symbol in positions {
        position.quantity := positions[symbol].quantity;
        position.averagePrice := positions[symbol].averagePrice;
        position.realizedPnl := positions[symbol].realizedPnl;
      }
      position.ApplyLivePosition(row.side, delta, price);
      positions := positions[symbol := position.Value()];
      accepted := true;
    }

    method FindExecution(id: string, cumulative: real) returns (found: bool)
      ensures found <==> Executed(executions, id, cumulative)
    {
      for i := 0 to |executions|
        invariant forall k :: 0 <= k < i ==> !(executions[k].orderId == id && executions[k].cumulative == cumulative)
      {
        if executions[i].orderId == id && executions[i].cumulative == cumulative {
          return true;
        }
      }
      found := false;
    }

    method ReconcileOrders(snapshot: seq<Snapshot>) returns (accepted: bool)
      modifies this
      ensures Outcome(Contents(), accepted) == Polled(old(Contents()), snapshot)
    {
      accepted := true;
      for i := 0 to |snapshot|
        invariant accepted && Outcome(Contents(), true) == Polled(old(Contents()), snapshot[..i])
      {
        var s := snapshot[i];
        assert snapshot[..i + 1][..i] == snapshot[..i];
        var oldFilled := if s.orderId in orders then orders[s.orderId].filled else 0.0;
        var oldAverage := if s.orderId in orders then orders[s.orderId].average else None;
        var row := UpsertFromBroker(s);
        accepted := ReconcileBrokerOrder(s.orderId, row, oldFilled, oldAverage);
        if !accepted {
          RestOfPollSkipped(old(Contents()), snapshot, i + 1);
          return false;
        }
      }
      assert snapshot[..|snapshot|] == snapshot;
    }
  }

  /** After an order that raises, the rest of the poll is not looked at. */
  lemma {:induction false} RestOfPollSkipped(l: Ledger, orders: seq<Snapshot>, n: nat)
    requires n <= |orders| && !Polled(l, orders[..n]).accepted
    ensures Polled(l, orders) == Polled(l, orders[..n])
    decreases |orders|
  {
    if n == |orders| {
      assert orders[..n] == orders;
    } else {
      var last := |orders| - 1;
      assert orders[..last][..n] == orders[..n];
      RestOfPollSkipped(l, orders[..last], n);
    }
  }
}
