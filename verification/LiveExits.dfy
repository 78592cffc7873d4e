/** Protective exits of a LIVE position: keyed market orders whose key names the position, its open quantity and the
    price that fired the stop. */
module LiveExits {
  import opened MapSums
  import opened Text
  import opened Placement
  import opened IdempotencyService
  import opened Replays

  /** The position is known by its account, its id and its open quantity, as spelled in the key. */
  datatype Exit = Exit(user: string, broker: string, position: string, quantity: string, payload: Fields)

  function ExitKey(x: Exit, price: string): string {
    "AUTO-SL-" + x.position + "-" + x.quantity + "-" + price
  }

  function ExitRequest(x: Exit, price: string): Request {
    Request(x.user, x.broker, ExitKey(x, price), x.payload)
  }

  /** A price is spelled without padding. */
  predicate Spelled(price: string) { price != "" && Unpadded(price) }

  lemma ExitKeyIsItself(x: Exit, price: string)
    requires Spelled(price)
    ensures Strip(ExitKey(x, price)) == ExitKey(x, price) && Keyed(ExitRequest(x, price))
  {
    hide Strip;
    var key := ExitKey(x, price);
    assert key[0] == 'A' && key[|key| - 1] == price[|price| - 1];
    assert Unpadded(key);
    StripUnpadded(key);
  }

  lemma StripUnpadded(s: string)
    requires Unpadded(s)
    ensures Strip(s) == s
  {}

  /** For the same open quantity two exits share a key exactly when the same price fired them. */
  lemma SameKeyExactlyWhenSamePrice(x: Exit, price: string, other: string)
    requires Spelled(price) && Spelled(other)
    ensures KeyOf(ExitRequest(x, price)) == KeyOf(ExitRequest(x, other)) <==> price == other
  {
    hide Strip;
    ExitKeyIsItself(x, price);
    ExitKeyIsItself(x, other);
    var prefix := "AUTO-SL-" + x.position + "-" + x.quantity + "-";
    assert ExitKey(x, price) == prefix + price && ExitKey(x, other) == prefix + other;
    assert (prefix + price)[|prefix|..] == price && (prefix + other)[|prefix|..] == other;
  }

  /** The stop fires at one price after the other while the open quantity stays what it was. */
  function Scans(x: Exit, order: Order, prices: seq<string>): seq<Move> {
    if prices == [] then []
    else
      var last := |prices| - 1;
      var r := ExitRequest(x, prices[last]);
      Played(Scans(x, order, prices[..last]) + [Arrive(last, r)], last, r, Smooth(Accepted(order)))
  }

  ghost predicate Accounted(s: System, x: Exit, prices: seq<string>, exits: nat) {
    && (forall id :: id in s.threads ==> id < |prices|)
    && (forall key :: key in s.rows <==> exists p :: p in prices && KeyOf(ExitRequest(x, p)) == key)
    && |s.calls| == exits
  }

  /** One more firing places a full exit if and only if no earlier one was at the same price. */
  lemma NextFiring(x: Exit, order: Order, prices: seq<string>, price: string, exits: nat)
    requires Spelled(price) && forall p :: p in prices ==> Spelled(p)
    requires Accounted(Run(Start, Scans(x, order, prices)), x, prices, exits)
    ensures Accounted(Run(Start, Scans(x, order, prices + [price])), x, prices + [price],
                      if price in prices then exits else exits + 1)
  {
    hide Run, Played, Accounted, Spelled, KeyOf, ExitRequest;
    var s := Run(Start, Scans(x, order, prices));
    assert (prices + [price])[..|prices|] == prices;
    KeyIsTaken(s, x, prices, price, exits);
    NewcomerIsFree(s, x, prices, exits);
    ExitKeyIsItself(x, price);
    Fires(Scans(x, order, prices), |prices|, ExitRequest(x, price), order);
    AccountsOneMore(s, Run(Start, Scans(x, order, prices + [price])), x, prices, price, exits);
  }

  lemma NewcomerIsFree(s: System, x: Exit, prices: seq<string>, exits: nat)
    requires Accounted(s, x, prices, exits)
    ensures |prices| !in s.threads
  {}

  lemma KeyIsTaken(s: System, x: Exit, prices: seq<string>, price: string, exits: nat)
    requires Spelled(price) && forall p :: p in prices ==> Spelled(p)
    requires Accounted(s, x, prices, exits)
    ensures KeyOf(ExitRequest(x, price)) in s.rows <==> price in prices
  {
    hide KeyOf, ExitRequest, Spelled;
    forall p | p in prices ensures KeyOf(ExitRequest(x, p)) == KeyOf(ExitRequest(x, price)) <==> p == price {
      SameKeyExactlyWhenSamePrice(x, p, price);
    }
  }

  lemma Fires(history: seq<Move>, id: nat, r: Request, order: Order)
    requires id !in Run(Start, history).threads && Keyed(r)
    ensures var s := Run(Start, history);
            var t := Run(Start, Played(history + [Arrive(id, r)], id, r, Smooth(Accepted(order))));
            && t.threads.Keys == s.threads.Keys + {id}
            && t.rows.Keys == s.rows.Keys + {KeyOf(r)}
            && t.calls == if KeyOf(r) in s.rows then s.calls else s.calls + [Call(r, Accepted(order))]
  {
    hide Run, Played;
    RunExtends(Start, history, Arrive(id, r));
    SmoothlyPlayed(history + [Arrive(id, r)], id, r, Accepted(order));
  }

  lemma AccountsOneMore(s: System, t: System, x: Exit, prices: seq<string>, price: string, exits: nat)
    requires Accounted(s, x, prices, exits)
    requires t.threads.Keys == s.threads.Keys + {|prices|}
    requires t.rows.Keys == s.rows.Keys + {KeyOf(ExitRequest(x, price))}
    requires |t.calls| == if price in prices then |s.calls| else |s.calls| + 1
    ensures Accounted(t, x, prices + [price], if price in prices then exits else exits + 1)
  {
    hide KeyOf, ExitRequest;
    RowsAfterFiring(s.rows.Keys, x, prices, price);
    assert forall key :: key in t.rows <==> key in s.rows.Keys + {KeyOf(ExitRequest(x, price))};
  }

  lemma RowsAfterFiring(keys: set<RowKey>, x: Exit, prices: seq<string>, price: string)
    requires forall key :: key in keys <==> exists p :: p in prices && KeyOf(ExitRequest(x, p)) == key
    ensures forall key :: key in keys + {KeyOf(ExitRequest(x, price))}
                          <==> exists p :: p in prices + [price] && KeyOf(ExitRequest(x, p)) == key
  {
    hide KeyOf, ExitRequest;
    var all := prices + [price];
    assert forall p :: p in all <==> p in prices || p == price;
    forall key
      ensures key in keys + {KeyOf(ExitRequest(x, price))} <==> exists p :: p in all && KeyOf(ExitRequest(x, p)) == key
    {
      if key in keys {
        var p :| p in prices && KeyOf(ExitRequest(x, p)) == key;
        assert p in all;
      } else if key == KeyOf(ExitRequest(x, price)) {
        assert price in all;
      }
    }
  }

  function Distinct(prices: seq<string>): set<string> { set p | p in prices }

  lemma DistinctExtends(prices: seq<string>, price: string)
    ensures |Distinct(prices + [price])| == if price in prices then |Distinct(prices)| else |Distinct(prices)| + 1
  {
    assert Distinct(prices + [price]) == Distinct(prices) + {price};
  }

  /** However often the stop fires before a fill is polled, as many full exits are placed as there were different
      prices: a repeated firing is suppressed exactly when its price has fired before. */
  lemma {:induction false} OneExitPerPrice(x: Exit, order: Order, prices: seq<string>)
    requires forall p :: p in prices ==> Spelled(p)
    ensures Accounted(Run(Start, Scans(x, order, prices)), x, prices, |Distinct(prices)|)
  {
    hide Run, Accounted, Spelled, Distinct, Scans;
    if prices == [] {
      NoFirings(x, order, prices);
    } else {
      var last := |prices| - 1;
      OneExitPerPrice(x, order, prices[..last]);
      NextFiring(x, order, prices[..last], prices[last], |Distinct(prices[..last])|);
      DistinctExtends(prices[..last], prices[last]);
      assert prices == prices[..last] + [prices[last]];
    }
  }

  lemma NoFirings(x: Exit, order: Order, prices: seq<string>)
    requires prices == []
    ensures Accounted(Run(Start, Scans(x, order, prices)), x, prices, |Distinct(prices)|)
  {}

  // ---- Any run ----------------------------------------------------------------------------------------------

  /** The executions of this position's exits at any of these prices. */
  function ExitCalls(calls: seq<Call>, x: Exit, prices: seq<string>): nat {
    if calls == [] then 0
    else
      var last := calls[|calls| - 1];
      ExitCalls(calls[..|calls| - 1], x, prices)
      + (if exists p :: p in prices && KeyOf(ExitRequest(x, p)) == KeyOf(last.request) then 1 else 0)
  }

  /** Prices whose exit is among these executions. */
  function Fired(calls: seq<Call>, x: Exit, prices: seq<string>): set<string> {
    set p | p in prices && exists c :: c in calls && KeyOf(c.request) == KeyOf(ExitRequest(x, p))
  }

  lemma {:induction false} CallsWithinFired(calls: seq<Call>, x: Exit, prices: seq<string>)
    requires forall i, j :: 0 <= i < j < |calls| ==> KeyOf(calls[i].request) != KeyOf(calls[j].request)
    ensures ExitCalls(calls, x, prices) <= |Fired(calls, x, prices)|
  {
    hide KeyOf, ExitRequest;
    if calls != [] {
      var front, last := calls[..|calls| - 1], calls[|calls| - 1];
      CallsWithinFired(front, x, prices);
      assert calls == front + [last];
      if p: string :| p in prices && KeyOf(ExitRequest(x, p)) == KeyOf(last.request) {
        NotFiredBefore(front, last, x, prices, p);
        SubsetSmaller(Fired(front, x, prices) + {p}, Fired(calls, x, prices));
      } else {
        SubsetSmaller(Fired(front, x, prices), Fired(calls, x, prices));
      }
    }
  }

  lemma NotFiredBefore(front: seq<Call>, last: Call, x: Exit, prices: seq<string>, p: string)
    requires forall c :: c in front ==> KeyOf(c.request) != KeyOf(last.request)
    requires p in prices && KeyOf(ExitRequest(x, p)) == KeyOf(last.request)
    ensures p !in Fired(front, x, prices) && Fired(front, x, prices) + {p} <= Fired(front + [last], x, prices)
  {
    hide KeyOf, ExitRequest;
    assert last in front + [last];
  }

  /** In every run, with other requests, failing commits and crashes: for one open quantity no more exits are placed
      than there were different prices. */
  lemma AtMostOneExitPerPrice(moves: seq<Move>, x: Exit, prices: seq<string>)
    ensures ExitCalls(Run(Start, moves).calls, x, prices) <= |Distinct(prices)|
  {
    hide Run, RowsSound, ThreadsSound, SingleOwner;
    ReachableInv(moves);
    var calls := Run(Start, moves).calls;
    assert CalledOnce(Run(Start, moves));
    CallsWithinFired(calls, x, prices);
    SubsetSmaller(Fired(calls, x, prices), Distinct(prices));
  }
}
