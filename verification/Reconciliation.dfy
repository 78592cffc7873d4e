/** The admin report that compares the order ledger with a broker snapshot. */
module Reconciliation {
  import opened Decimals
  import opened OrderStatus
  import opened LiveLedger

  datatype Detail =
    | ExternalOnly(orderId: string)
    | InternalOnly(orderId: string)
    | FieldMismatch(orderId: string)

  /** The report's line for one order, if it gets one. */
  function Line(orders: map<string, OrderRow>, external: map<string, Snapshot>, id: string): Option<Detail>
    requires id in orders || id in external
  {
    if id !in orders then Some(ExternalOnly(id))
    else if id !in external then Some(InternalOnly(id))
    else if NormalStatus(orders[id].status) != NormalStatus(external[id].status)
            || orders[id].filled != external[id].filled then Some(FieldMismatch(id))
    else None
  }

  /** The snapshot indexed by order id; a later entry replaces an earlier one. */
  function ById(snapshot: seq<Snapshot>): map<string, Snapshot> {
    if snapshot == [] then map[]
    else
      var last := snapshot[|snapshot| - 1];
      ById(snapshot[..|snapshot| - 1])[last.orderId := last]
  }

  /** The lines are those of all known orders but the pending ones, one line an order. */
  ghost predicate Reports(details: seq<Detail>, orders: map<string, OrderRow>, external: map<string, Snapshot>,
                          pending: set<string>)
  {
    && (forall i, j :: 0 <= i < j < |details| ==> details[i].orderId != details[j].orderId)
    && (forall d :: d in details <==> (d.orderId in orders || d.orderId in external) && d.orderId !in pending
                                      && Line(orders, external, d.orderId) == Some(d))
  }

  lemma NothingReported(orders: map<string, OrderRow>, external: map<string, Snapshot>)
    ensures Reports([], orders, external, orders.Keys + external.Keys)
  {}

  lemma ReportsOneMore(details: seq<Detail>, orders: map<string, OrderRow>, external: map<string, Snapshot>,
                       pending: set<string>, id: string, line: Option<Detail>)
    requires Reports(details, orders, external, pending)
    requires id in pending && (id in orders || id in external) && line == Line(orders, external, id)
    ensures Reports(if line.Some? then details + [line.value] else details, orders, external, pending - {id})
  {
    hide NormalStatus;
    if line.Some? {
      assert forall d :: d in details + [line.value] <==> d in details || d == line.value;
    }
  }

  method IndexById(snapshot: seq<Snapshot>) returns (external: map<string, Snapshot>)
    ensures external == ById(snapshot)
  {
    external := map[];
    for i := 0 to |snapshot|
      invariant external == ById(snapshot[..i])
    {
      assert snapshot[..i + 1][..i] == snapshot[..i];
      external := external[snapshot[i].orderId := snapshot[i]];
    }
    assert snapshot[..|snapshot|] == snapshot;
  }

  /** One order known to either side. */
  method CompareOrder(orders: map<string, OrderRow>, external: map<string, Snapshot>, id: string)
    returns (line: Option<Detail>)
    requires id in orders || id in external
    ensures line == Line(orders, external, id)
  {
    hide NormalStatus;
    if id !in orders {
      return Some(ExternalOnly(id));
    }
    if id !in external {
      return Some(InternalOnly(id));
    }
    var left, right := orders[id], external[id];
    if NormalStatus(left.status) != NormalStatus(right.status) || left.filled != right.filled {
      return Some(FieldMismatch(id));
    }
    line := None;
  }

  /** Every order known to either side is looked at once. The order of the lines is left open. */
  method CompareOrders(orders: map<string, OrderRow>, snapshot: seq<Snapshot>) returns (details: seq<Detail>)
    ensures Reports(details, orders, ById(snapshot), {})
  {
    hide Reports, ById, Line;
    var external := IndexById(snapshot);
    var pending := orders.Keys + external.Keys;
    details := [];
    NothingReported(orders, external);
    while pending != {}
      invariant forall id :: id in pending ==> id in orders || id in external
      invariant Reports(details, orders, external, pending)
      decreases |pending|
    {
      var id :| id in pending;
      var line := CompareOrder(orders, external, id);
      ReportsOneMore(details, orders, external, pending, id, line);
      if line.Some? {
        details := details + [line.value];
      }
      pending := pending - {id};
    }
  }

  /** An accepted poll leaves every order of the snapshot in the ledger, with the fill and the normalised status of
      its last entry; orders the snapshot lacks are as they were. */
  lemma {:induction false} PollIngests(l: Ledger, snapshot: seq<Snapshot>, id: string)
    requires Polled(l, snapshot).accepted
    ensures var orders, external := Polled(l, snapshot).ledger.orders, ById(snapshot);
            if id in external then
              && id in orders
              && orders[id].symbol == external[id].symbol && orders[id].side == external[id].side
              && orders[id].quantity == external[id].quantity && orders[id].filled == external[id].filled
              && (external[id].average.Some? ==> orders[id].average == external[id].average)
              && orders[id].status == NormalizeStatus(external[id].status, external[id].quantity, external[id].filled)
            else (id in orders <==> id in l.orders) && (id in orders ==> orders[id] == l.orders[id])
  {
    hide Reconciled, NormalizeStatus;
    if snapshot != [] {
      var last := |snapshot| - 1;
      PollIngests(l, snapshot[..last], id);
      RecordedOrders(Polled(l, snapshot[..last]).ledger, snapshot[last]);
    }
  }

  lemma RecordedOrders(l: Ledger, s: Snapshot)
    ensures Recorded(l, s).ledger.orders == l.orders[s.orderId := Refreshed(l.orders, s)]
  {
    hide Refreshed, IncrementalPrice;
  }

  /** Comparing the ledger with the snapshot it has just ingested, for any snapshot: nothing is missing from the
      ledger, orders the snapshot lacks are listed, and an order in both is listed exactly when its last entry has a
      word that the ledger and the report read differently. */
  lemma ReportAfterPoll(l: Ledger, snapshot: seq<Snapshot>, id: string)
    requires Polled(l, snapshot).accepted
    requires id in Polled(l, snapshot).ledger.orders || id in ById(snapshot)
    ensures var external := ById(snapshot);
            Line(Polled(l, snapshot).ledger.orders, external, id) ==
              if id !in external then Some(InternalOnly(id))
              else if ReadAlike(external[id].status, external[id].quantity, external[id].filled) then None
              else Some(FieldMismatch(id))
  {
    hide NormalStatus, NormalizeStatus, ReadAlike, Polled, ById;
    PollIngests(l, snapshot, id);
    if id in ById(snapshot) {
      var s := ById(snapshot)[id];
      NormalisersAgree(s.status, s.quantity, s.filled);
    }
  }

  /** An order is left out of the report exactly when both sides know it with the same fill and the same status word. */
  lemma UnreportedExactlyWhen(details: seq<Detail>, orders: map<string, OrderRow>, external: map<string, Snapshot>,
                              id: string)
    requires Reports(details, orders, external, {}) && (id in orders || id in external)
    ensures (forall d :: d in details ==> d.orderId != id) <==>
              id in orders && id in external && orders[id].filled == external[id].filled
              && NormalStatus(orders[id].status) == NormalStatus(external[id].status)
  {
    hide NormalStatus;
    if Line(orders, external, id).Some? { assert Line(orders, external, id).value in details; }
  }
}
