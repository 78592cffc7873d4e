/** Keyed order placement: the idempotency protocol as interleaved database steps, and the service that runs it. */
module Placement {
  import opened Decimals
  import opened Text

  // ---- Requests and rows ------------------------------------------------------------------------------------

  /** A placed order. Only the first five fields are stored for replay. */
  datatype Order = Order(orderId: string, symbol: string, side: string, quantity: real, status: string,
                         filled: real, average: Option<real>)

  datatype Payload =
    | OrderJson(orderId: string, symbol: string, side: string, quantity: real, status: string)
    | ErrorJson(error: string)

  function Serialize(o: Order): Payload { OrderJson(o.orderId, o.symbol, o.side, o.quantity, o.status) }

  function Deserialize(p: Payload): Order
    requires p.OrderJson?
  {
    Order(p.orderId, p.symbol, p.side, p.quantity, p.status, 0.0, None)
  }

  type Fields = map<string, Option<string>>

  const SENSITIVE_KEYS := {"api_key", "api_secret", "access_token", "password", "token", "jwt"}

  /** What the request hash is computed from; the hash itself is taken to be injective. */
  function Fingerprint(payload: Fields): Fields {
    map k | k in payload && Lower(k) !in SENSITIVE_KEYS :: payload[k]
  }

  method ComputeFingerprint(payload: Fields) returns (sanitized: Fields)
    ensures sanitized == Fingerprint(payload)
  {
    sanitized := map[];
    var pending := payload.Keys;
    while pending != {}
      invariant pending <= payload.Keys
      invariant sanitized == map k | k in payload && k !in pending && Lower(k) !in SENSITIVE_KEYS :: payload[k]
      decreases |pending|
    {
      var k :| k in pending;
      pending := pending - {k};
      if Lower(k) in SENSITIVE_KEYS {
        continue;
      }
      sanitized := sanitized[k := payload[k]];
    }
  }

  datatype Request = Request(user: string, broker: string, key: string, payload: Fields)

  datatype RowKey = RowKey(user: string, broker: string, key: string)

  function KeyOf(r: Request): RowKey { RowKey(r.user, r.broker, Strip(r.key)) }

  predicate Keyed(r: Request) { Strip(r.key) != "" }

  datatype Status = Pending | Completed | Failed | Unknown

  datatype Record = Record(fingerprint: Fields, status: Status, orderId: Option<string>, payload: Option<Payload>)

  // ---- The environment --------------------------------------------------------------------------------------

  datatype BrokerResult = Accepted(order: Order) | NetworkError(message: string) | OtherError(message: string)

  /** A commit may succeed, fail, or succeed with the following refresh failing. */
  datatype Commit = Commits | Fails | RefreshFails

  datatype Error = Mismatch | InFlight | UnknownOutcome(message: string) | Replayed(message: string)
                 | Database | Broker(message: string)

  datatype Outcome = Returned(order: Order) | Raised(error: Error) | Died

  // ---- One request, step by step ----------------------------------------------------------------------------

  datatype Stage =
    | Arrived
    | Inserting
    | Rereading
    | Deciding(seen: Record)
    | Executing
    | Settling(result: BrokerResult)
    | Recovering(error: string)
    | Done(outcome: Outcome)

  datatype Thread = Thread(request: Request, stage: Stage)

  /** An execution of a keyed order against the broker. */
  datatype Call = Call(request: Request, result: BrokerResult)

  datatype System = System(rows: map<RowKey, Record>, threads: map<nat, Thread>, calls: seq<Call>)

  datatype Choice = Proceed | Db(commit: Commit) | Ask(result: BrokerResult) | Die

  datatype Move = Arrive(id: nat, request: Request) | Act(id: nat, choice: Choice)

  const Start := System(map[], map[], [])

  /** What a request does with a row it did not create. The last branch falls through to the execution. */
  function Decision(r: Request, seen: Record): Stage {
    if seen.fingerprint != Fingerprint(r.payload) then Done(Raised(Mismatch))
    else if seen.status.Pending? then Done(Raised(InFlight))
    else if seen.status.Completed? && seen.payload.Some? then
      if seen.payload.value.OrderJson? then Done(Returned(Deserialize(seen.payload.value))) else Done(Raised(Database))
    else if seen.status.Unknown? then Done(Raised(UnknownOutcome("")))
    else if seen.status.Failed? && seen.payload.Some? then
      Done(Raised(Replayed(if seen.payload.value.ErrorJson? then seen.payload.value.error else "")))
    else Executing
  }

  function Settled(row: Record, result: BrokerResult): Record {
    match result
    case Accepted(o) => row.(status := Completed, orderId := if o.orderId == "" then None else Some(o.orderId),
                             payload := Some(Serialize(o)))
    case NetworkError(m) => row.(status := Unknown, payload := Some(ErrorJson(m)))
    case OtherError(m) => row.(status := Failed, payload := Some(ErrorJson(m)))
  }

  function RaisedBy(result: BrokerResult): Stage
    requires !result.Accepted?
  {
    if result.NetworkError? then Done(Raised(UnknownOutcome(result.message)))
    else Done(Raised(Broker(result.message)))
  }

  const FAILED_COMMIT := "Could not update idempotency record status."

  function Advanced(sys: System, id: nat, stage: Stage): System
    requires id in sys.threads
  {
    sys.(threads := sys.threads[id := sys.threads[id].(stage := stage)])
  }

  function Acted(sys: System, id: nat, choice: Choice): System
    requires id in sys.threads
  {
    var r, stage := sys.threads[id].request, sys.threads[id].stage;
    var key := KeyOf(r);
    match (stage, choice)
    case (Done(_), _) => sys
    case (_, Die) => Advanced(sys, id, Done(Died))
    case (Arrived, Proceed) =>
      if !Keyed(r) then sys
      else if key in sys.rows then Advanced(sys, id, Deciding(sys.rows[key])) else Advanced(sys, id, Inserting)
    case (Arrived, Ask(result)) =>
      if Keyed(r) then sys
      else Advanced(sys, id, Done(if result.Accepted? then Returned(result.order) else Raised(Broker(result.message))))
    case (Inserting, Db(commit)) =>
      if commit.Fails? then Advanced(sys, id, Done(Raised(Database)))
      else if key in sys.rows then Advanced(sys, id, Rereading)
      else
        var stored := sys.(rows := sys.rows[key := Record(Fingerprint(r.payload), Pending, None, None)]);
        Advanced(stored, id, if commit.Commits? then Executing else Done(Raised(Database)))
    case (Rereading, Proceed) =>
      Advanced(sys, id, if key in sys.rows then Deciding(sys.rows[key]) else Done(Raised(Database)))
    case (Deciding(seen), Proceed) => Advanced(sys, id, Decision(r, seen))
    case (Executing, Ask(result)) =>
      Advanced(sys.(calls := sys.calls + [Call(r, result)]), id, Settling(result))
    case (Settling(result), Db(commit)) =>
      var unsure := if result.Accepted? then Recovering(FAILED_COMMIT) else Done(Raised(Database));
      if commit.Fails? || key !in sys.rows then Advanced(sys, id, unsure)
      else
        var stored := sys.(rows := sys.rows[key := Settled(sys.rows[key], result)]);
        Advanced(stored, id, if !commit.Commits? then unsure
                             else if result.Accepted? then Done(Returned(result.order)) else RaisedBy(result))
    case (Recovering(error), Db(commit)) =>
      if commit.Fails? || key !in sys.rows then Advanced(sys, id, Done(Raised(Database)))
      else
        var stored := sys.(rows := sys.rows[key := Settled(sys.rows[key], OtherError(error))]);
        Advanced(stored, id, Done(Raised(Database)))
    case _ => sys
  }

  function Step(sys: System, m: Move): System {
    match m
    case Arrive(id, r) => if id in sys.threads then sys else sys.(threads := sys.threads[id := Thread(r, Arrived)])
    case Act(id, choice) => if id in sys.threads then Acted(sys, id, choice) else sys
  }

  function Run(sys: System, moves: seq<Move>): System {
    if moves == [] then sys else Step(Run(sys, moves[..|moves| - 1]), moves[|moves| - 1])
  }

  // ---- The invariant ----------------------------------------------------------------------------------------

  /** The order the broker accepted for this key, as stored. */
  ghost predicate WasAccepted(calls: seq<Call>, key: RowKey, fingerprint: Fields, p: Payload) {
    exists c :: c in calls && KeyOf(c.request) == key && Fingerprint(c.request.payload) == fingerprint
                && c.result.Accepted? && Serialize(c.result.order) == p
  }

  ghost predicate WasCalled(calls: seq<Call>, key: RowKey) {
    exists c :: c in calls && KeyOf(c.request) == key
  }

  ghost predicate WasPlaced(calls: seq<Call>, key: RowKey) {
    exists c :: c in calls && KeyOf(c.request) == key && c.result.Accepted?
  }

  /** A finished row carries a payload of the right kind, so no later request falls through to the execution. */
  ghost predicate RowSound(calls: seq<Call>, key: RowKey, row: Record) {
    match row.status
    case Pending => row.payload.None?
    case Completed => row.payload.Some? && row.payload.value.OrderJson?
                      && WasAccepted(calls, key, row.fingerprint, row.payload.value)
    case Failed => row.payload.Some? && row.payload.value.ErrorJson?
    case Unknown => row.payload.Some? && row.payload.value.ErrorJson?
  }

  predicate Owns(t: Thread) { t.stage.Executing? || t.stage.Settling? || t.stage.Recovering? }

  ghost predicate ThreadSound(sys: System, t: Thread) {
    var key, mark := KeyOf(t.request), Fingerprint(t.request.payload);
    (!Keyed(t.request) ==> t.stage.Arrived? || t.stage.Done?) &&
    match t.stage
    case Deciding(seen) => key in sys.rows && RowSound(sys.calls, key, seen)
    case Executing => key in sys.rows && sys.rows[key] == Record(mark, Pending, None, None)
                      && !WasCalled(sys.calls, key)
    case Settling(result) => key in sys.rows && sys.rows[key] == Record(mark, Pending, None, None)
                             && Call(t.request, result) in sys.calls
    case Recovering(error) => error == FAILED_COMMIT && WasPlaced(sys.calls, key)
                              && key in sys.rows && (sys.rows[key].status.Pending? || sys.rows[key].status.Completed?)
    case Done(Returned(o)) => Keyed(t.request) ==> WasAccepted(sys.calls, key, mark, Serialize(o))
    case _ => true
  }

  ghost predicate RowsSound(sys: System) {
    forall key :: key in sys.rows ==> RowSound(sys.calls, key, sys.rows[key])
  }

  ghost predicate ThreadsSound(sys: System) {
    forall id :: id in sys.threads ==> ThreadSound(sys, sys.threads[id])
  }

  ghost predicate SingleOwner(sys: System) {
    forall i, j :: (i in sys.threads && j in sys.threads && Owns(sys.threads[i]) && Owns(sys.threads[j])
                    && KeyOf(sys.threads[i].request) == KeyOf(sys.threads[j].request)) ==> i == j
  }

  ghost predicate CalledOnce(sys: System) {
    && (forall i, j :: 0 <= i < j < |sys.calls| ==> KeyOf(sys.calls[i].request) != KeyOf(sys.calls[j].request))
    && (forall c :: c in sys.calls ==> KeyOf(c.request) in sys.rows)
  }

  ghost predicate Inv(sys: System) {
    RowsSound(sys) && ThreadsSound(sys) && SingleOwner(sys) && CalledOnce(sys)
  }

  lemma CallsOnlyGrow(calls: seq<Call>, c: Call, key: RowKey, row: Record, mark: Fields, p: Payload)
    ensures WasAccepted(calls, key, mark, p) ==> WasAccepted(calls + [c], key, mark, p)
    ensures WasCalled(calls + [c], key) <==> WasCalled(calls, key) || KeyOf(c.request) == key
    ensures WasPlaced(calls, key) ==> WasPlaced(calls + [c], key)
    ensures RowSound(calls, key, row) ==> RowSound(calls + [c], key, row)
  {
    assert forall x :: x in calls + [c] <==> x in calls || x == c;
  }

  /** What one move can touch: one thread, the row of its key, and at most one more call. */
  ghost predicate TouchesOnlyItsOwn(sys: System, t: System, id: nat) {
    && id in t.threads
    && t.threads.Keys == sys.threads.Keys + {id}
    && (forall j :: j in sys.threads && j != id ==> t.threads[j] == sys.threads[j])
    && (id in sys.threads ==> t.threads[id].request == sys.threads[id].request)
    && var key := KeyOf(t.threads[id].request);
       && sys.rows.Keys <= t.rows.Keys <= sys.rows.Keys + {key}
       && (forall k :: k in sys.rows && k != key ==> t.rows[k] == sys.rows[k])
       && (t.rows != sys.rows ==> key !in sys.rows || (id in sys.threads && Owns(sys.threads[id])))
       && (Owns(t.threads[id]) ==> id in sys.threads && (key !in sys.rows || Owns(sys.threads[id])))
       && (t.calls != sys.calls ==>
             && id in sys.threads && sys.threads[id].stage.Executing?
             && exists result :: t.calls == sys.calls + [Call(sys.threads[id].request, result)])
  }

  /** A row that another request left behind never sends a request on to the execution. */
  lemma NoFallThrough(r: Request, calls: seq<Call>, seen: Record)
    requires RowSound(calls, KeyOf(r), seen)
    ensures Decision(r, seen).Done?
    ensures Decision(r, seen).outcome.Returned?
            <==> seen.status.Completed? && seen.fingerprint == Fingerprint(r.payload)
    ensures Decision(r, seen).outcome.Returned? ==>
              WasAccepted(calls, KeyOf(r), Fingerprint(r.payload), Serialize(Decision(r, seen).outcome.order))
  {}

  lemma OwnerTouchesOnlyItsOwn(sys: System, id: nat, choice: Choice)
    requires id in sys.threads && Owns(sys.threads[id])
    ensures TouchesOnlyItsOwn(sys, Acted(sys, id, choice), id)
  {
    hide Fingerprint, Strip, Decision, Settled;
  }

  lemma OtherTouchesOnlyItsOwn(sys: System, id: nat, choice: Choice)
    requires id in sys.threads && !Owns(sys.threads[id])
    requires sys.threads[id].stage.Deciding? ==> Decision(sys.threads[id].request, sys.threads[id].stage.seen).Done?
    ensures TouchesOnlyItsOwn(sys, Acted(sys, id, choice), id)
  {
    hide Fingerprint, Strip, Decision, KeyOf, Keyed, Settled;
  }

  lemma MoveTouchesOnlyItsOwn(sys: System, m: Move)
    requires Inv(sys) && (m.Act? ==> m.id in sys.threads)
    ensures TouchesOnlyItsOwn(sys, Step(sys, m), m.id)
  {
    hide Fingerprint, Strip, Decision, Acted;
    if m.Act? {
      var th := sys.threads[m.id];
      assert ThreadSound(sys, th);
      if Owns(th) {
        OwnerTouchesOnlyItsOwn(sys, m.id, m.choice);
      } else {
        if th.stage.Deciding? { NoFallThrough(th.request, sys.calls, th.stage.seen); }
        hide TouchesOnlyItsOwn;
        OtherTouchesOnlyItsOwn(sys, m.id, m.choice);
      }
    }
  }

  lemma RowsOnlyGrow(sys: System, m: Move)
    requires Inv(sys)
    ensures sys.rows.Keys <= Step(sys, m).rows.Keys
  {
    hide Inv, Acted;
    if m.Arrive? || m.id in sys.threads { MoveTouchesOnlyItsOwn(sys, m); }
  }

  lemma RowsStaySound(sys: System, m: Move)
    requires Inv(sys)
    ensures RowsSound(Step(sys, m))
  {
    hide Acted, ThreadsSound, SingleOwner, CalledOnce, RowSound;
    if m.Act? && m.id in sys.threads {
      assert ThreadSound(sys, sys.threads[m.id]) by { ThreadIsSound(sys, m.id); }
      hide ThreadSound;
      RowsStaySoundInAct(sys, m.id, m.choice);
    }
  }

  lemma ThreadIsSound(sys: System, id: nat)
    requires Inv(sys) && id in sys.threads
    ensures ThreadSound(sys, sys.threads[id])
  {
    hide ThreadSound, RowsSound, SingleOwner, CalledOnce;
  }

  lemma RowsStaySoundInAct(sys: System, id: nat, choice: Choice)
    requires RowsSound(sys) && id in sys.threads && ThreadSound(sys, sys.threads[id])
    ensures RowsSound(Acted(sys, id, choice))
  {
    hide Fingerprint, Strip, Decision, KeyOf;
    var t := Acted(sys, id, choice);
    forall key | key in t.rows ensures RowSound(t.calls, key, t.rows[key]) {
      if t.calls != sys.calls {
        CallsOnlyGrow(sys.calls, t.calls[|sys.calls|], key, sys.rows[key], map[], ErrorJson(""));
      }
    }
  }

  lemma CallsStayUnique(sys: System, t: System, id: nat)
    requires Inv(sys) && TouchesOnlyItsOwn(sys, t, id)
    ensures CalledOnce(t)
  {
    hide Fingerprint, Strip, KeyOf, RowsSound, SingleOwner;
    if t.calls != sys.calls {
      assert ThreadSound(sys, sys.threads[id]);
      hide ThreadsSound;
    }
  }

  lemma OwnerStaysSingle(sys: System, t: System, id: nat)
    requires Inv(sys) && TouchesOnlyItsOwn(sys, t, id)
    ensures SingleOwner(t)
  {
    hide Fingerprint, Strip;
  }

  lemma OwnerStaysSound(sys: System, id: nat, choice: Choice)
    requires Inv(sys) && id in sys.threads && Owns(sys.threads[id])
    ensures var t := Acted(sys, id, choice); id in t.threads && ThreadSound(t, t.threads[id])
  {
    hide Fingerprint, Strip, Decision, RowsSound, CalledOnce, SingleOwner, KeyOf;
    var t := Acted(sys, id, choice);
    var th := sys.threads[id];
    assert ThreadSound(sys, th);
    if th.stage.Executing? && t.calls != sys.calls { assert t.calls[|sys.calls|] in t.calls; }
  }

  lemma NewcomerStaysSound(sys: System, id: nat, choice: Choice)
    requires Inv(sys) && id in sys.threads && !Owns(sys.threads[id])
    ensures var t := Acted(sys, id, choice); id in t.threads && ThreadSound(t, t.threads[id])
  {
    hide Fingerprint, Strip, Decision, SingleOwner, KeyOf;
    var th := sys.threads[id];
    assert ThreadSound(sys, th);
    if th.stage.Deciding? { NoFallThrough(th.request, sys.calls, th.stage.seen); }
  }

  lemma ActorStaysSound(sys: System, m: Move)
    requires Inv(sys) && m.Act? && m.id in sys.threads
    ensures m.id in Step(sys, m).threads && ThreadSound(Step(sys, m), Step(sys, m).threads[m.id])
  {
    hide Acted, ThreadSound, Inv;
    if Owns(sys.threads[m.id]) {
      OwnerStaysSound(sys, m.id, m.choice);
    } else {
      NewcomerStaysSound(sys, m.id, m.choice);
    }
  }

  lemma BystanderStaysSound(sys: System, t: System, id: nat, j: nat)
    requires Inv(sys) && TouchesOnlyItsOwn(sys, t, id) && j in sys.threads && j != id
    ensures ThreadSound(t, t.threads[j])
  {
    hide Fingerprint, Strip;
    var th := sys.threads[j];
    assert ThreadSound(sys, th);
    if t.calls != sys.calls {
      var result :| t.calls == sys.calls + [Call(sys.threads[id].request, result)];
      var c := Call(sys.threads[id].request, result);
      var returned := th.stage.Done? && th.stage.outcome.Returned?;
      var p := if returned then Serialize(th.stage.outcome.order) else ErrorJson("");
      var row := if th.stage.Deciding? then th.stage.seen else Record(map[], Pending, None, None);
      CallsOnlyGrow(sys.calls, c, KeyOf(th.request), row, Fingerprint(th.request.payload), p);
    }
  }

  /** Every step of every request, with any database or broker outcome and any crash, keeps the invariant. */
  lemma StepKeepsInv(sys: System, m: Move)
    requires Inv(sys)
    ensures Inv(Step(sys, m))
  {
    hide Acted, ThreadSound, RowsSound, CalledOnce, SingleOwner;
    var t := Step(sys, m);
    if m.Act? && m.id !in sys.threads {
    } else {
      MoveTouchesOnlyItsOwn(sys, m);
      RowsStaySound(sys, m);
      CallsStayUnique(sys, t, m.id);
      OwnerStaysSingle(sys, t, m.id);
      forall j | j in t.threads ensures ThreadSound(t, t.threads[j]) {
        if j != m.id {
          BystanderStaysSound(sys, t, m.id, j);
        } else if m.Act? {
          ActorStaysSound(sys, m);
        } else {
          ArrivalIsSound(sys, m.id, m.request);
        }
      }
    }
  }

  lemma ArrivalIsSound(sys: System, id: nat, r: Request)
    requires Inv(sys)
    ensures var t := Step(sys, Arrive(id, r)); ThreadSound(t, t.threads[id])
  {}

  lemma {:induction false} ReachableInv(moves: seq<Move>)
    ensures Inv(Run(Start, moves))
  {
    hide Step, Inv;
    if moves == [] {
      StartIsSound();
    } else {
      ReachableInv(moves[..|moves| - 1]);
      StepKeepsInv(Run(Start, moves[..|moves| - 1]), moves[|moves| - 1]);
    }
  }

  lemma StartIsSound()
    ensures Inv(Start)
  {}

  function CallCount(calls: seq<Call>, key: RowKey): nat {
    if calls == [] then 0
    else CallCount(calls[..|calls| - 1], key) + (if KeyOf(calls[|calls| - 1].request) == key then 1 else 0)
  }

  lemma {:induction false} DistinctCountOnce(calls: seq<Call>, key: RowKey)
    requires forall i, j :: 0 <= i < j < |calls| ==> KeyOf(calls[i].request) != KeyOf(calls[j].request)
    ensures CallCount(calls, key) == if WasCalled(calls, key) then 1 else 0
  {
    hide KeyOf;
    if calls != [] {
      var last := |calls| - 1;
      DistinctCountOnce(calls[..last], key);
      assert calls == calls[..last] + [calls[last]];
      if WasCalled(calls[..last], key) {
        var c :| c in calls[..last] && KeyOf(c.request) == key;
        assert c in calls;
      }
    }
  }

  /** Under every interleaving, with crashes anywhere: per user, broker and non-blank key the order is executed at
      most once, and whoever gets a value gets the five stored fields of that one accepted order. */
  lemma AtMostOnce(moves: seq<Move>, key: RowKey)
    ensures CallCount(Run(Start, moves).calls, key) <= 1
  {
    hide Run, ThreadsSound, RowsSound, SingleOwner;
    ReachableInv(moves);
    DistinctCountOnce(Run(Start, moves).calls, key);
  }

  predicate GotValue(sys: System, id: nat) {
    id in sys.threads && Keyed(sys.threads[id].request)
    && sys.threads[id].stage.Done? && sys.threads[id].stage.outcome.Returned?
  }

  /** The five stored fields agree. */
  predicate SameOrder(o: Order, p: Order) {
    && o.orderId == p.orderId && o.symbol == p.symbol && o.side == p.side
    && o.quantity == p.quantity && o.status == p.status
  }

  /** Whoever gets a value gets the fields of the one order the broker accepted for its key and payload. */
  lemma ReturnedIsTheAcceptedOrder(moves: seq<Move>, id: nat) returns (c: Call)
    requires GotValue(Run(Start, moves), id)
    ensures var sys := Run(Start, moves);
            var t := sys.threads[id];
            && CallCount(sys.calls, KeyOf(t.request)) == 1
            && c in sys.calls && KeyOf(c.request) == KeyOf(t.request) && c.result.Accepted?
            && Fingerprint(c.request.payload) == Fingerprint(t.request.payload)
            && SameOrder(t.stage.outcome.order, c.result.order)
  {
    hide Run, RowsSound, SingleOwner, Fingerprint;
    ReachableInv(moves);
    var sys := Run(Start, moves);
    var t := sys.threads[id];
    assert ThreadSound(sys, t);
    DistinctCountOnce(sys.calls, KeyOf(t.request));
    c :| c in sys.calls && KeyOf(c.request) == KeyOf(t.request)
         && Fingerprint(c.request.payload) == Fingerprint(t.request.payload)
         && c.result.Accepted? && Serialize(c.result.order) == Serialize(t.stage.outcome.order);
  }

  /** Two requests with the same key that both get a value asked for the same order and get the same order id, symbol,
      side, quantity and status. */
  lemma ReplaysAgree(moves: seq<Move>, i: nat, j: nat)
    requires GotValue(Run(Start, moves), i) && GotValue(Run(Start, moves), j)
    requires KeyOf(Run(Start, moves).threads[i].request) == KeyOf(Run(Start, moves).threads[j].request)
    ensures var t, u := Run(Start, moves).threads[i], Run(Start, moves).threads[j];
            var o, p := t.stage.outcome.order, u.stage.outcome.order;
            && o.orderId == p.orderId && o.symbol == p.symbol && o.side == p.side
            && o.quantity == p.quantity && o.status == p.status
            && Fingerprint(t.request.payload) == Fingerprint(u.request.payload)
  {
    hide Run, RowsSound, ThreadsSound, SingleOwner, Fingerprint, KeyOf, CallCount;
    ReachableInv(moves);
    var c := ReturnedIsTheAcceptedOrder(moves, i);
    var d := ReturnedIsTheAcceptedOrder(moves, j);
    var calls := Run(Start, moves).calls;
    assert forall c, d :: c in calls && d in calls && KeyOf(c.request) == KeyOf(d.request) ==> c == d;
  }

  // ---- Payloads ---------------------------------------------------------------------------------------------

  /** Two payloads have one fingerprint exactly when they agree on everything but the six sensitive fields, however
      those are capitalised. */
  lemma FingerprintsAgreeExactlyWhen(p: Fields, q: Fields)
    ensures Fingerprint(p) == Fingerprint(q) <==>
              forall k :: Lower(k) != "api_key" && Lower(k) != "api_secret" && Lower(k) != "access_token"
                          && Lower(k) != "password" && Lower(k) != "token" && Lower(k) != "jwt" ==>
                            (k in p <==> k in q) && (k in p && k in q ==> p[k] == q[k])
  {
    hide Lower;
    forall k ensures Public(k) <==> Lower(k) !in SENSITIVE_KEYS {}
    if Fingerprint(p) == Fingerprint(q) {
      forall k | Public(k) ensures (k in p <==> k in q) && (k in p && k in q ==> p[k] == q[k]) {
        assert k in Fingerprint(p) <==> k in p;
        assert k in Fingerprint(q) <==> k in q;
      }
    }
    if forall k :: Public(k) ==> (k in p <==> k in q) && (k in p && k in q ==> p[k] == q[k]) {
      forall k ensures k in Fingerprint(p) <==> k in Fingerprint(q) {}
      assert Fingerprint(p) == Fingerprint(q);
    }
  }

  predicate Public(k: string) {
    Lower(k) != "api_key" && Lower(k) != "api_secret" && Lower(k) != "access_token"
    && Lower(k) != "password" && Lower(k) != "token" && Lower(k) != "jwt"
  }

  /** A request with another payload than its key's first is turned away, whatever has become of that one. */
  lemma OtherPayloadMismatches(r: Request, seen: Record)
    ensures Decision(r, seen) == Done(Raised(Mismatch)) <==> seen.fingerprint != Fingerprint(r.payload)
  {
    hide Fingerprint;
  }

  /** A request whose key is all white space goes to the broker each time; it gets the whole order or the error, and no
      row. */
  lemma UnkeyedGoesThrough(sys: System, id: nat, result: BrokerResult)
    requires id in sys.threads && sys.threads[id].stage == Arrived
    requires var key := sys.threads[id].request.key; forall i :: 0 <= i < |key| ==> Blank(key[i])
    ensures var t := Acted(sys, id, Ask(result));
            && t.rows == sys.rows && t.calls == sys.calls
            && t.threads[id].stage == Done(if result.Accepted? then Returned(result.order)
                                           else Raised(Broker(result.message)))
  {
    StripsToNothing(sys.threads[id].request.key);
    hide Strip;
  }
}
