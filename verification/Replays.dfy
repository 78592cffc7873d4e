/** What a key answers once its order is placed, in every run: whoever dies, and whatever write fails. */
module Replays {
  import opened Decimals
  import opened Text
  import opened Placement
  import opened IdempotencyService

  // ---- Runs -------------------------------------------------------------------------------------------------

  lemma {:induction false} RunConcat(sys: System, a: seq<Move>, b: seq<Move>)
    ensures Run(sys, a + b) == Run(Run(sys, a), b)
  {
    hide Step;
    if b == [] {
      assert a + b == a;
    } else {
      var last := |b| - 1;
      assert (a + b)[..|a + b| - 1] == a + b[..last];
      RunConcat(sys, a, b[..last]);
    }
  }

  lemma {:induction false} OthersLeaveThread(sys: System, moves: seq<Move>, id: nat)
    requires id in sys.threads && ByOthers(moves, id)
    ensures id in Run(sys, moves).threads && Run(sys, moves).threads[id] == sys.threads[id]
  {
    hide Step;
    if moves != [] {
      var last := |moves| - 1;
      OthersLeaveThread(sys, moves[..last], id);
      OthersStep(Run(sys, moves[..last]), moves[last], id);
    }
  }

  lemma CallsPersistStep(sys: System, m: Move)
    ensures sys.calls <= Step(sys, m).calls
  {
    hide Fingerprint, Strip, Settled, Decision;
  }

  lemma {:induction false} CallsPersist(sys: System, moves: seq<Move>)
    ensures sys.calls <= Run(sys, moves).calls
  {
    hide Step;
    if moves != [] {
      var last := |moves| - 1;
      CallsPersist(sys, moves[..last]);
      CallsPersistStep(Run(sys, moves[..last]), moves[last]);
    }
  }

  // ---- The writes of a key's row ----------------------------------------------------------------------------

  /** The move stores what its request knows of the outcome, confirmed or not. */
  predicate Writes(sys: System, m: Move, key: RowKey) {
    && m.Act? && m.id in sys.threads && KeyOf(sys.threads[m.id].request) == key
    && (sys.threads[m.id].stage.Settling? || sys.threads[m.id].stage.Recovering?)
    && m.choice.Db? && !m.choice.commit.Fails?
  }

  /** The last write of an executed order's row, if there was one. */
  datatype Written = Unwritten | SettledWrite | RecoveryWrite

  function WrittenBy(sys: System, m: Move, key: RowKey, before: Written): Written {
    if !Writes(sys, m, key) then before
    else if sys.threads[m.id].stage.Recovering? then RecoveryWrite
    else SettledWrite
  }

  function LastWrite(moves: seq<Move>, key: RowKey): Written {
    if moves == [] then Unwritten
    else
      var last := |moves| - 1;
      WrittenBy(Run(Start, moves[..last]), moves[last], key, LastWrite(moves[..last], key))
  }

  /** What a row holds after its last write: COMPLETED with the order's five fields, UNKNOWN after a network error,
      FAILED after any other error and after a recovery. */
  predicate RowFits(row: Record, written: Written, c: Call) {
    && row.fingerprint == Fingerprint(c.request.payload)
    && match written
       case Unwritten => row.status.Pending?
       case SettledWrite =>
         (match c.result
          case Accepted(o) => row.status.Completed? && row.payload == Some(Serialize(o))
                              && row.orderId == if o.orderId == "" then None else Some(o.orderId)
          case NetworkError(m) => row.status.Unknown? && row.payload == Some(ErrorJson(m))
          case OtherError(m) => row.status.Failed? && row.payload == Some(ErrorJson(m)))
       case RecoveryWrite => c.result.Accepted? && row.status.Failed? && row.payload == Some(ErrorJson(FAILED_COMMIT))
  }

  /** The row of an executed order is what the last write made it. */
  ghost predicate Traced(sys: System, key: RowKey, written: Written) {
    && (!WasCalled(sys.calls, key) ==> written == Unwritten)
    && (forall c :: c in sys.calls && KeyOf(c.request) == key ==>
          key in sys.rows && RowFits(sys.rows[key], written, c))
  }

  lemma OnlyWritesChangeRows(sys: System, m: Move, key: RowKey)
    requires key in sys.rows && !Writes(sys, m, key)
    ensures key in Step(sys, m).rows && Step(sys, m).rows[key] == sys.rows[key]
  {
    hide Fingerprint, Strip, Settled, Decision, KeyOf;
  }

  lemma OneCallPerKey(sys: System, c: Call, d: Call)
    requires Inv(sys) && c in sys.calls && d in sys.calls && KeyOf(c.request) == KeyOf(d.request)
    ensures c == d
  {
    hide RowsSound, ThreadsSound, SingleOwner, KeyOf;
  }

  lemma WriteStaysTraced(sys: System, m: Move, key: RowKey, written: Written)
    requires Inv(sys) && Traced(sys, key, written) && Writes(sys, m, key)
    ensures Traced(Step(sys, m), key, WrittenBy(sys, m, key, written))
  {
    hide Inv, Fingerprint, Strip, Decision, KeyOf;
    var th := sys.threads[m.id];
    ThreadIsSound(sys, m.id);
    if th.stage.Settling? {
      forall c | c in sys.calls && KeyOf(c.request) == key ensures c == Call(th.request, th.stage.result) {
        OneCallPerKey(sys, c, Call(th.request, th.stage.result));
      }
    } else {
      var d :| d in sys.calls && KeyOf(d.request) == key && d.result.Accepted?;
      forall c | c in sys.calls && KeyOf(c.request) == key ensures c == d { OneCallPerKey(sys, c, d); }
    }
  }

  lemma OtherStaysTraced(sys: System, m: Move, key: RowKey, written: Written)
    requires Inv(sys) && Traced(sys, key, written) && !Writes(sys, m, key)
    ensures Traced(Step(sys, m), key, written)
  {
    hide Step, Inv, KeyOf, RowFits;
    if key in sys.rows { OnlyWritesChangeRows(sys, m, key); }
    var t := Step(sys, m);
    CallsPersistStep(sys, m);
    if t.calls != sys.calls { ExecutionStaysTraced(sys, m, key, written); }
  }

  /** At most the one call that is just made is new, of a pending row. */
  lemma ExecutionStaysTraced(sys: System, m: Move, key: RowKey, written: Written)
    requires Inv(sys) && Traced(sys, key, written) && Step(sys, m).calls != sys.calls
    ensures Traced(Step(sys, m), key, written)
  {
    hide Inv, Fingerprint, Strip, Decision, KeyOf;
    var th := sys.threads[m.id];
    ThreadIsSound(sys, m.id);
    assert Step(sys, m).calls == sys.calls + [Call(th.request, m.choice.result)];
    assert forall c :: c in Step(sys, m).calls <==> c in sys.calls || c == Call(th.request, m.choice.result);
  }

  lemma {:induction false} RunIsTraced(moves: seq<Move>, key: RowKey)
    ensures Traced(Run(Start, moves), key, LastWrite(moves, key))
  {
    hide Step, Inv, Writes, Traced;
    if moves == [] {
      StartIsTraced(key);
    } else {
      var last := |moves| - 1;
      RunIsTraced(moves[..last], key);
      ReachableInv(moves[..last]);
      var sys := Run(Start, moves[..last]);
      if Writes(sys, moves[last], key) {
        WriteStaysTraced(sys, moves[last], key, LastWrite(moves[..last], key));
      } else {
        OtherStaysTraced(sys, moves[last], key, LastWrite(moves[..last], key));
      }
    }
  }

  lemma StartIsTraced(key: RowKey)
    ensures Traced(Start, key, Unwritten)
  {}

  // ---- The replay -------------------------------------------------------------------------------------------

  /** A request looks its key up and decides, whatever the others do meanwhile. */
  function Replay(history: seq<Move>, j: nat, between: seq<Move>): seq<Move> {
    history + [Act(j, Proceed)] + between + [Act(j, Proceed)]
  }

  /** The request j has just arrived, with the key of r. */
  ghost predicate Repeats(history: seq<Move>, j: nat, q: Request, r: Request, between: seq<Move>) {
    j in Run(Start, history).threads && Run(Start, history).threads[j] == Thread(q, Arrived)
    && Keyed(q) && KeyOf(q) == KeyOf(r) && ByOthers(between, j)
  }

  /** A request decides on the row it has found, whatever has become of the row's owner. */
  lemma ReplayDecides(history: seq<Move>, j: nat, q: Request, r: Request, between: seq<Move>)
    requires Repeats(history, j, q, r, between) && KeyOf(r) in Run(Start, history).rows
    ensures var s := Run(Start, Replay(history, j, between));
            j in s.threads && s.threads[j].stage == Decision(q, Run(Start, history).rows[KeyOf(r)])
  {
    hide Fingerprint, Strip, Decision, KeyOf;
    RunExtends(Start, history, Act(j, Proceed));
    var h := history + [Act(j, Proceed)];
    assert Run(Start, h).threads[j] == Thread(q, Deciding(Run(Start, history).rows[KeyOf(r)]));
    RunConcat(Start, h, between);
    OthersLeaveThread(Run(Start, h), between, j);
    RunExtends(Start, h + between, Act(j, Proceed));
  }

  /** What a replay of this executed order answers. */
  function Answer(c: Call, written: Written): Error {
    match written
    case Unwritten => InFlight
    case RecoveryWrite => Replayed(FAILED_COMMIT)
    case SettledWrite => if c.result.NetworkError? then UnknownOutcome("")
                         else if c.result.OtherError? then Replayed(c.result.message) else Database
  }

  /** In every run, from the moment a keyed order has been executed: a request with its key and payload gets a value if
      and only if the broker's acceptance has been stored and no recovery write after it, however the first request has
      gone on or ended; and then it gets the accepted order's id, symbol, side, quantity and status. Without any write
      it meets a conflict, after a network error an unknown outcome, after another error or a recovery write a replayed
      failure. The order has been executed once in each case. */
  lemma ReplayReturnsExactlyWhenStored(history: seq<Move>, c: Call, j: nat, q: Request, between: seq<Move>)
    requires c in Run(Start, history).calls
    requires Repeats(history, j, q, c.request, between) && Fingerprint(q.payload) == Fingerprint(c.request.payload)
    ensures var s := Run(Start, Replay(history, j, between));
            var written := LastWrite(history, KeyOf(c.request));
            && j in s.threads && s.threads[j].stage.Done?
            && CallCount(s.calls, KeyOf(c.request)) == 1
            && var outcome := s.threads[j].stage.outcome;
               && (outcome.Returned? <==> c.result.Accepted? && written == SettledWrite)
               && (outcome.Returned? ==>
                     var o, p := outcome.order, c.result.order;
                     && o.orderId == p.orderId && o.symbol == p.symbol && o.side == p.side
                     && o.quantity == p.quantity && o.status == p.status
                     && o.filled == 0.0 && o.average == None)
               && (!outcome.Returned? ==> outcome == Raised(Answer(c, written)))
  {
    hide Run, Fingerprint, Strip, Repeats, KeyOf, LastWrite;
    RunIsTraced(history, KeyOf(c.request));
    ReplayDecides(history, j, q, c.request, between);
    hide Traced;
    PlacedOnce(history, Replay(history, j, between), c) by {
      var rest := [Act(j, Proceed)] + between + [Act(j, Proceed)];
      assert Replay(history, j, between) == history + rest;
      RunConcat(Start, history, rest);
      CallsPersist(Run(Start, history), rest);
    }
  }

  /** A request with the key of an executed order and another payload is turned away, in every run. */
  lemma OtherPayloadIsTurnedAway(history: seq<Move>, c: Call, j: nat, q: Request, between: seq<Move>)
    requires c in Run(Start, history).calls
    requires Repeats(history, j, q, c.request, between) && Fingerprint(q.payload) != Fingerprint(c.request.payload)
    ensures var s := Run(Start, Replay(history, j, between));
            j in s.threads && s.threads[j].stage == Done(Raised(Mismatch))
  {
    hide Run, Fingerprint, Strip, Repeats, KeyOf, LastWrite;
    RunIsTraced(history, KeyOf(c.request));
    ReplayDecides(history, j, q, c.request, between);
    OtherPayloadMismatches(q, Run(Start, history).rows[KeyOf(c.request)]);
  }

  lemma PlacedOnce(history: seq<Move>, after: seq<Move>, c: Call)
    requires c in Run(Start, history).calls && Run(Start, history).calls <= Run(Start, after).calls
    ensures CallCount(Run(Start, after).calls, KeyOf(c.request)) == 1
  {
    hide Run, RowsSound, ThreadsSound, SingleOwner;
    var sys := Run(Start, after);
    ReachableInv(after);
    assert CalledOnce(sys);
    DistinctCountOnce(sys.calls, KeyOf(c.request));
  }

  // ---- When the answer is final -----------------------------------------------------------------------------

  /** The key's row is there and nobody is left to change it. */
  ghost predicate Final(sys: System, key: RowKey, row: Record) {
    && key in sys.rows && sys.rows[key] == row
    && forall j :: j in sys.threads && Owns(sys.threads[j]) ==> KeyOf(sys.threads[j].request) != key
  }

  lemma StepTouchesOnlyItsOwn(sys: System, m: Move)
    requires Inv(sys) && (m.Act? ==> m.id in sys.threads)
    ensures TouchesOnlyItsOwn(sys, Step(sys, m), m.id)
  {
    hide Step, Inv, TouchesOnlyItsOwn;
    MoveTouchesOnlyItsOwn(sys, m);
  }

  lemma FinalStays(sys: System, m: Move, key: RowKey, row: Record)
    requires Inv(sys) && Final(sys, key, row)
    ensures Final(Step(sys, m), key, row) && !Writes(sys, m, key)
  {
    hide Fingerprint, Strip, Acted, RowsSound, ThreadsSound, CalledOnce;
    if m.Arrive? || m.id in sys.threads { StepTouchesOnlyItsOwn(sys, m); }
  }

  /** When the owner has finished or died, no later step of anyone changes the row, and its last write stays last. */
  lemma {:induction false} FinalForever(history: seq<Move>, later: seq<Move>, key: RowKey, row: Record)
    requires Final(Run(Start, history), key, row)
    ensures Final(Run(Start, history + later), key, row) && LastWrite(history + later, key) == LastWrite(history, key)
  {
    hide Step, Inv, Final, Writes;
    if later == [] {
      assert history + later == history;
    } else {
      var last := |later| - 1;
      var h := history + later[..last];
      FinalForever(history, later[..last], key, row);
      assert history + later == h + [later[last]] && (h + [later[last]])[..|h|] == h;
      ReachableInv(h);
      FinalStays(Run(Start, h), later[last], key, row);
    }
  }

  /** Any step that ends the owner makes its row final as it then is: a write, a failed write, or its death. */
  lemma EndOfOwnerIsFinal(sys: System, id: nat, choice: Choice)
    requires Inv(sys) && id in sys.threads && Owns(sys.threads[id])
    requires Acted(sys, id, choice).threads[id].stage.Done?
    ensures var t, key := Acted(sys, id, choice), KeyOf(sys.threads[id].request);
            key in t.rows && Final(t, key, t.rows[key])
  {
    hide Fingerprint, Strip, Settled, Decision, RowsSound, CalledOnce;
    assert ThreadSound(sys, sys.threads[id]);
    hide ThreadsSound;
  }

  // ---- A free key -------------------------------------------------------------------------------------------

  /** A broker that answers and a database that commits, with nobody else about. */
  function Smooth(answer: BrokerResult): Script {
    Script(Commits, answer, Commits, Commits, [], [], [], [], [], [])
  }

  /** A request alone executes exactly when its key is free. */
  lemma SmoothlyPlayed(history: seq<Move>, id: nat, r: Request, answer: BrokerResult)
    requires id in Run(Start, history).threads && Run(Start, history).threads[id] == Thread(r, Arrived) && Keyed(r)
    ensures var s := Run(Start, history);
            var t := Run(Start, Played(history, id, r, Smooth(answer)));
            && t.threads.Keys == s.threads.Keys
            && t.rows.Keys == s.rows.Keys + {KeyOf(r)}
            && t.calls == if KeyOf(r) in s.rows then s.calls else s.calls + [Call(r, answer)]
  {
    if Taken(history, r) { TakenKeyIsLeft(history, id, r, answer); } else { FreeKeyIsExecuted(history, id, r, answer); }
  }

  lemma TakenKeyIsLeft(history: seq<Move>, id: nat, r: Request, answer: BrokerResult)
    requires id in Run(Start, history).threads && Run(Start, history).threads[id] == Thread(r, Arrived) && Keyed(r)
    requires Taken(history, r)
    ensures var s := Run(Start, history);
            var t := Run(Start, Played(history, id, r, Smooth(answer)));
            t.threads.Keys == s.threads.Keys && t.rows == s.rows && t.calls == s.calls
  {
    hide Run, Fingerprint, Strip, Decision;
    RunExtends(Start, history, Act(id, Proceed));
    var h1 := history + [Act(id, Proceed)];
    assert h1 + [] == h1;
    RunExtends(Start, h1, Act(id, Proceed));
  }

  /** The first request of a key is executed once and gets the whole order the broker has accepted, or its error; a
      network error reads as an unknown outcome. */
  lemma FreeKeyIsExecuted(history: seq<Move>, id: nat, r: Request, answer: BrokerResult)
    requires id in Run(Start, history).threads && Run(Start, history).threads[id] == Thread(r, Arrived) && Keyed(r)
    requires !Taken(history, r)
    ensures var s := Run(Start, history);
            var t := Run(Start, Played(history, id, r, Smooth(answer)));
            && t.threads.Keys == s.threads.Keys && t.rows.Keys == s.rows.Keys + {KeyOf(r)}
            && t.calls == s.calls + [Call(r, answer)]
            && t.threads[id].stage == Done(match answer
                                           case Accepted(o) => Returned(o)
                                           case NetworkError(m) => Raised(UnknownOutcome(m))
                                           case OtherError(m) => Raised(Broker(m)))
  {
    FourSteps(Run(Start, history), id, r, answer);
    hide Run, Acted, KeyOf, Keyed;
    RunExtends(Start, history, Act(id, Proceed));
    var h1 := history + [Act(id, Proceed)];
    assert h1 + [] == h1;
    RunExtends(Start, h1, Act(id, Db(Commits)));
    var h2 := h1 + [Act(id, Db(Commits))];
    assert h2 + [] == h2;
    RunExtends(Start, h2, Act(id, Ask(answer)));
    var h3 := h2 + [Act(id, Ask(answer))];
    assert h3 + [] == h3;
    RunExtends(Start, h3, Act(id, Db(Commits)));
    assert Played(history, id, r, Smooth(answer)) == h3 + [Act(id, Db(Commits))];
  }

  lemma FourSteps(sys: System, id: nat, r: Request, answer: BrokerResult)
    requires id in sys.threads && sys.threads[id] == Thread(r, Arrived) && Keyed(r) && KeyOf(r) !in sys.rows
    ensures var s1 := Acted(sys, id, Proceed);
            && id in s1.threads && s1.rows == sys.rows
            && var s2 := Acted(s1, id, Db(Commits));
            && id in s2.threads
            && var s3 := Acted(s2, id, Ask(answer));
            && id in s3.threads
            && var t := Acted(s3, id, Db(Commits));
            && t.threads.Keys == sys.threads.Keys && t.rows.Keys == sys.rows.Keys + {KeyOf(r)}
            && t.calls == sys.calls + [Call(r, answer)]
            && t.threads[id].stage == Done(match answer
                                           case Accepted(o) => Returned(o)
                                           case NetworkError(m) => Raised(UnknownOutcome(m))
                                           case OtherError(m) => Raised(Broker(m)))
  {
    hide Fingerprint, Strip, Decision, Settled, KeyOf, Keyed;
    var s1 := Acted(sys, id, Proceed);
    assert s1 == sys.(threads := sys.threads[id := Thread(r, Inserting)]);
    var s2 := Acted(s1, id, Db(Commits));
    assert s2.threads == sys.threads[id := Thread(r, Executing)] && s2.rows.Keys == sys.rows.Keys + {KeyOf(r)};
    var s3 := Acted(s2, id, Ask(answer));
    assert s3.threads == sys.threads[id := Thread(r, Settling(answer))] && s3.rows == s2.rows;
  }

  // ---- One order, three ends --------------------------------------------------------------------------------

  const Once := Request("user", "broker", "key", map[])
  const Placed := Order("1", "SBIN", "BUY", 1.0, "OPEN", 0.0, None)
  const OnceKey := RowKey("user", "broker", "key")
  const OnceCall := Call(Once, Accepted(Placed))

  /** The broker has just accepted the order. */
  const Answered := [Arrive(0, Once), Act(0, Proceed), Act(0, Db(Commits)), Act(0, Ask(Accepted(Placed)))]

  function Stopped(rows: map<RowKey, Record>, stage: Stage): System {
    System(rows, map[0 := Thread(Once, stage)], [OnceCall])
  }

  const Waiting := map[OnceKey := Record(map[], Pending, None, None)]

  lemma AnsweredState()
    ensures Run(Start, Answered) == Stopped(Waiting, Settling(Accepted(Placed)))
    ensures LastWrite(Answered, OnceKey) == Unwritten
    ensures KeyOf(Once) == OnceKey && Keyed(Once) && Fingerprint(map[]) == map[]
  {
    assert Strip("key") == "key";
    hide Strip;
    var m1, m2, m3, m4 := Answered[0], Answered[1], Answered[2], Answered[3];
    assert Answered[..3] == [m1, m2, m3] && [m1, m2, m3][..2] == [m1, m2] && [m1, m2][..1] == [m1] && [m1][..0] == [];
    assert Run(Start, [m1]) == Step(Start, m1);
    assert Run(Start, [m1, m2]) == Step(Run(Start, [m1]), m2);
    assert Run(Start, [m1, m2, m3]) == Step(Run(Start, [m1, m2]), m3);
    assert Run(Start, Answered) == Step(Run(Start, [m1, m2, m3]), m4);
    assert LastWrite([m1], OnceKey) == Unwritten && LastWrite([m1, m2], OnceKey) == Unwritten;
    assert LastWrite([m1, m2, m3], OnceKey) == Unwritten;
  }

  /** A second request with the key and payload, after these steps. */
  lemma AskAgain(history: seq<Move>, rows: map<RowKey, Record>, outcome: Outcome)
    requires Run(Start, history) == Stopped(rows, Done(outcome))
    ensures var h := history + [Arrive(1, Once)];
            && LastWrite(h, OnceKey) == LastWrite(history, OnceKey)
            && OnceCall in Run(Start, h).calls && Repeats(h, 1, Once, Once, [])
  {
    hide Run, Fingerprint, Strip, KeyOf;
    AnsweredState();
    RunExtends(Start, history, Arrive(1, Once));
    var h := history + [Arrive(1, Once)];
    assert h[..|history|] == history;
  }

  lemma Follows(history: seq<Move>, m: Move)
    ensures Run(Start, history + [m]) == Step(Run(Start, history), m)
    ensures LastWrite(history + [m], OnceKey)
            == WrittenBy(Run(Start, history), m, OnceKey, LastWrite(history, OnceKey))
  {
    hide Step, Writes;
    assert (history + [m])[..|history|] == history;
  }

  function Lost(): seq<Move> { Answered + [Act(0, Die)] }

  function Unread(): seq<Move> { Answered + [Act(0, Db(RefreshFails))] + [Act(0, Db(Commits))] }

  function Cut(): seq<Move> { Answered + [Act(0, Db(RefreshFails))] + [Act(0, Die)] }

  function Again(history: seq<Move>): System { Run(Start, Replay(history + [Arrive(1, Once)], 1, [])) }

  /** The process dies between the broker's answer and the COMPLETED write: the order is placed, and its key is in
      conflict for ever. */
  lemma LostOrderStaysInConflict(later: seq<Move>)
    ensures CallCount(Again(Lost()).calls, OnceKey) == 1
    ensures 1 in Again(Lost()).threads && Again(Lost()).threads[1].stage == Done(Raised(InFlight))
    ensures var s := Run(Start, Lost() + later);
            OnceKey in s.rows && s.rows[OnceKey].status.Pending?
  {
    hide Run, Fingerprint, Strip, KeyOf, LastWrite, Final, Decision, Repeats;
    AnsweredState();
    Follows(Answered, Act(0, Die));
    AskAgain(Lost(), Waiting, Died);
    ReplayReturnsExactlyWhenStored(Lost() + [Arrive(1, Once)], OnceCall, 1, Once, []);
    ReachableInv(Answered);
    EndOfOwnerIsFinal(Run(Start, Answered), 0, Die);
    FinalForever(Lost(), later, OnceKey, Record(map[], Pending, None, None));
    FinalRowIsThere(Run(Start, Lost() + later), OnceKey, Record(map[], Pending, None, None));
  }

  lemma FinalRowIsThere(sys: System, key: RowKey, row: Record)
    requires Final(sys, key, row)
    ensures key in sys.rows && sys.rows[key] == row
  {}

  lemma UnreadSteps()
    ensures var s := Run(Start, Answered + [Act(0, Db(RefreshFails))]);
            s.threads == map[0 := Thread(Once, Recovering(FAILED_COMMIT))] && s.calls == [OnceCall] && OnceKey in s.rows
    ensures LastWrite(Answered + [Act(0, Db(RefreshFails))], OnceKey) == SettledWrite
  {
    hide Run, Fingerprint, Strip, LastWrite, Decision;
    AnsweredState();
    Follows(Answered, Act(0, Db(RefreshFails)));
  }

  /** The COMPLETED write is stored but cannot be read back, and the recovery goes through: the order is placed, and its
      replay reports a failure. */
  lemma UnreadOrderIsReportedFailed()
    ensures CallCount(Again(Unread()).calls, OnceKey) == 1
    ensures 1 in Again(Unread()).threads
            && Again(Unread()).threads[1].stage == Done(Raised(Replayed(FAILED_COMMIT)))
  {
    hide Run, Fingerprint, Strip, KeyOf, LastWrite, Decision, Repeats, Settled;
    AnsweredState();
    UnreadSteps();
    Follows(Answered + [Act(0, Db(RefreshFails))], Act(0, Db(Commits)));
    AskAgain(Unread(), Run(Start, Unread()).rows, Raised(Database));
    ReplayReturnsExactlyWhenStored(Unread() + [Arrive(1, Once)], OnceCall, 1, Once, []);
  }

  /** The same, but the process dies before the recovery: the replay returns the order, although no write was ever
      confirmed. */
  lemma CutOrderIsReturned()
    ensures CallCount(Again(Cut()).calls, OnceKey) == 1
    ensures 1 in Again(Cut()).threads
            && Again(Cut()).threads[1].stage == Done(Returned(Placed))
  {
    hide Run, Fingerprint, Strip, KeyOf, LastWrite, Decision, Repeats, Settled;
    AnsweredState();
    UnreadSteps();
    Follows(Answered + [Act(0, Db(RefreshFails))], Act(0, Die));
    AskAgain(Cut(), Run(Start, Cut()).rows, Died);
    ReplayReturnsExactlyWhenStored(Cut() + [Arrive(1, Once)], OnceCall, 1, Once, []);
  }
}
