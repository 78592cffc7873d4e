/** The service that runs the placement protocol, with other requests let in between any two of its database steps. */
module IdempotencyService {
  import opened Decimals
  import opened Text
  import opened Placement

  /** What the database and the broker will answer, and what other requests do in the gaps. */
  datatype Script = Script(insert: Commit, answer: BrokerResult, settle: Commit, recover: Commit,
                           beforeInsert: seq<Move>, beforeReread: seq<Move>, beforeDecision: seq<Move>,
                           beforeExecute: seq<Move>, beforeSettle: seq<Move>, beforeRecover: seq<Move>)

  predicate ByOthers(moves: seq<Move>, id: nat) {
    forall m :: m in moves ==> m.id != id
  }

  predicate Fair(s: Script, id: nat) {
    && ByOthers(s.beforeInsert, id) && ByOthers(s.beforeReread, id) && ByOthers(s.beforeDecision, id)
    && ByOthers(s.beforeExecute, id) && ByOthers(s.beforeSettle, id) && ByOthers(s.beforeRecover, id)
  }

  lemma RunExtends(sys: System, moves: seq<Move>, m: Move)
    ensures Run(sys, moves + [m]) == Step(Run(sys, moves), m)
  {
    assert (moves + [m])[..|moves|] == moves;
  }

  predicate Taken(history: seq<Move>, r: Request) { KeyOf(r) in Run(Start, history).rows }

  /** The key was free when looked up, and the insert has just been tried. */
  function Tried(history: seq<Move>, id: nat, script: Script): seq<Move> {
    history + [Act(id, Proceed)] + script.beforeInsert + [Act(id, Db(script.insert))]
  }

  /** Another request's row turned up at the insert, and was read. */
  function Collided(history: seq<Move>, id: nat, r: Request, script: Script): bool {
    !script.insert.Fails? && Taken(history + [Act(id, Proceed)] + script.beforeInsert, r)
  }

  /** All steps up to the point where the request owns a row, has read another's, or has given up. */
  function Opened(history: seq<Move>, id: nat, r: Request, script: Script): seq<Move> {
    if Taken(history, r) then history + [Act(id, Proceed)]
    else if Collided(history, id, r, script) then
      Tried(history, id, script) + script.beforeReread + [Act(id, Proceed)]
    else Tried(history, id, script)
  }

  /** All steps of one request, in order, with what the others do in between. */
  function Played(history: seq<Move>, id: nat, r: Request, script: Script): seq<Move> {
    if !Keyed(r) then history + [Act(id, Ask(script.answer))]
    else
      var start := Opened(history, id, r, script);
      if Taken(history, r) || Collided(history, id, r, script) then
        start + script.beforeDecision + [Act(id, Proceed)]
      else if !script.insert.Commits? then start
      else
        var settled := start + script.beforeExecute + [Act(id, Ask(script.answer))]
                       + script.beforeSettle + [Act(id, Db(script.settle))];
        if script.answer.Accepted? && !script.settle.Commits? then
          settled + script.beforeRecover + [Act(id, Db(script.recover))]
        else settled
  }

  class Service {
    /** The shared tables, and for every request where it stands. */
    var system: System
    /** Every step taken so far, by anyone. */
    ghost var history: seq<Move>

    ghost predicate Valid()
      reads this
    {
      system == Run(Start, history) && Inv(system)
    }

    ghost predicate At(id: nat, r: Request, stage: Stage)
      reads this
    {
      id in system.threads && system.threads[id] == Thread(r, stage)
    }

    constructor ()
      ensures Valid() && history == []
    {
      system, history := Start, [];
      StartIsSound();
    }

    /** Other requests take their steps. */
    method Others(moves: seq<Move>, id: nat, ghost r: Request, ghost stage: Stage)
      requires Valid() && At(id, r, stage) && ByOthers(moves, id)
      modifies this
      ensures Valid() && At(id, r, stage) && history == old(history) + moves
      ensures old(system.rows.Keys) <= system.rows.Keys
    {
      hide Step, Inv, Run;
      for i := 0 to |moves|
        invariant Valid() && At(id, r, stage) && history == old(history) + moves[..i]
        invariant old(system.rows.Keys) <= system.rows.Keys
      {
        StepKeepsInv(system, moves[i]);
        RunExtends(Start, history, moves[i]);
        OthersStep(system, moves[i], id);
        RowsOnlyGrow(system, moves[i]);
        system := Step(system, moves[i]);
        history := history + [moves[i]];
      }
      assert moves[..|moves|] == moves;
    }

    /** Record that this request's own step has just been taken. */
    ghost method Took(before: System, id: nat, choice: Choice)
      requires before == Run(Start, history) && Inv(before)
      requires id in before.threads && system == Acted(before, id, choice)
      modifies this`history
      ensures Valid() && history == old(history) + [Act(id, choice)]
    {
      hide Acted, Inv;
      StepKeepsInv(before, Act(id, choice));
      RunExtends(Start, history, Act(id, choice));
      history := history + [Act(id, choice)];
    }

    /** Some row and `created`, or none after a database error. */
    method GetOrCreatePending(id: nat, r: Request, script: Script)
      returns (existing: Option<Record>, created: bool)
      requires Valid() && At(id, r, Arrived) && Keyed(r) && Fair(script, id)
      modifies this
      ensures Valid()
      ensures At(id, r, if created then Executing else if existing.Some? then Deciding(existing.value)
                        else Done(Raised(Database)))
      ensures created <==> !Taken(old(history), r) && !Collided(old(history), id, r, script) && script.insert.Commits?
      ensures existing.Some? <==> Taken(old(history), r) || Collided(old(history), id, r, script)
      ensures history == Opened(old(history), id, r, script)
    {
      hide Fingerprint, Strip, Run, Inv;
      var key := KeyOf(r);
      ghost var s0 := system;
      created, existing := false, None;
      if key in system.rows {
        existing := Some(system.rows[key]);
        system := Advanced(system, id, Deciding(system.rows[key]));
        Took(s0, id, Proceed);
        return;
      }
      system := Advanced(system, id, Inserting);
      Took(s0, id, Proceed);
      Others(script.beforeInsert, id, r, Inserting);
      ghost var s1 := system;
      if script.insert.Fails? {
        system := Advanced(system, id, Done(Raised(Database)));
        Took(s1, id, Db(script.insert));
        return;
      }
      if key !in system.rows {
        var mark := ComputeFingerprint(r.payload);
        system := system.(rows := system.rows[key := Record(mark, Pending, None, None)]);
        created := script.insert.Commits?;
        system := Advanced(system, id, if created then Executing else Done(Raised(Database)));
        Took(s1, id, Db(script.insert));
        return;
      }
      // The unique constraint refused the row: another request has inserted it in between.
      system := Advanced(system, id, Rereading);
      Took(s1, id, Db(script.insert));
      Others(script.beforeReread, id, r, Rereading);
      ghost var s2 := system;
      if key in system.rows {
        existing := Some(system.rows[key]);
      }
      system := Advanced(system, id, if existing.Some? then Deciding(existing.value) else Done(Raised(Database)));
      Took(s2, id, Proceed);
    }

    /** Write the final state of a row; false when that could not be confirmed. */
    method Mark(id: nat, r: Request, result: BrokerResult, commit: Commit) returns (ok: bool)
      requires id in system.threads
      modifies this`system
      ensures ok <==> commit.Commits? && KeyOf(r) in old(system).rows
      ensures system == if commit.Fails? || KeyOf(r) !in old(system).rows then old(system)
                        else old(system).(rows := old(system).rows[
                                            KeyOf(r) := Settled(old(system).rows[KeyOf(r)], result)])
    {
      var key := KeyOf(r);
      if commit.Fails? || key !in system.rows {
        return false;
      }
      var row := system.rows[key];
      match result {
        case Accepted(o) =>
          row := row.(status := Completed, orderId := if o.orderId == "" then None else Some(o.orderId),
                      payload := Some(Serialize(o)));
        case NetworkError(m) =>
          row := row.(status := Unknown, payload := Some(ErrorJson(m)));
        case OtherError(m) =>
          row := row.(status := Failed, payload := Some(ErrorJson(m)));
      }
      system := system.(rows := system.rows[key := row]);
      ok := commit.Commits?;
    }

    /** One request from its arrival to its outcome. It takes exactly these steps of the protocol, which settle
        what it returns and stores, so everything proved of the protocol's runs holds of it. */
    method ExecuteIdempotentOrder(id: nat, r: Request, script: Script) returns (outcome: Outcome)
      requires Valid() && At(id, r, Arrived) && Fair(script, id)
      modifies this
      ensures Valid() && At(id, r, Done(outcome))
      ensures history == Played(old(history), id, r, script)
    {
      hide Fingerprint, Strip, Run, Inv;
      if !Keyed(r) {
        ghost var start := system;
        outcome := if script.answer.Accepted? then Returned(script.answer.order)
                   else Raised(Broker(script.answer.message));
        system := Advanced(system, id, Done(outcome));
        Took(start, id, Ask(script.answer));
        return;
      }
      var existing, created := GetOrCreatePending(id, r, script);
      if existing.Some? {
        var row := existing.value;
        Others(script.beforeDecision, id, r, Deciding(row));
        outcome := Decide(id, r, row);
        return;
      }
      if !created {
        return Raised(Database);
      }
      Others(script.beforeExecute, id, r, Executing);
      ghost var s0 := system;
      var result := script.answer;
      system := system.(calls := system.calls + [Call(r, result)]);
      system := Advanced(system, id, Settling(result));
      Took(s0, id, Ask(result));
      Others(script.beforeSettle, id, r, Settling(result));
      outcome := Conclude(id, r, result, script);
    }

    /** The broker has answered: store that, and raise or return it. */
    method Conclude(id: nat, r: Request, result: BrokerResult, script: Script) returns (outcome: Outcome)
      requires Valid() && At(id, r, Settling(result)) && Keyed(r) && Fair(script, id)
      modifies this
      ensures Valid() && At(id, r, Done(outcome))
      ensures history == old(history) + [Act(id, Db(script.settle))]
                         + (if result.Accepted? && !script.settle.Commits?
                            then script.beforeRecover + [Act(id, Db(script.recover))] else [])
    {
      hide Fingerprint, Strip, Run, Inv;
      ghost var s1 := system;
      assert KeyOf(r) in system.rows by { OwnRowIsThere(system, id); }
      var ok := Mark(id, r, result, script.settle);
      if !ok && !result.Accepted? {
        system := Advanced(system, id, Done(Raised(Database)));
        Took(s1, id, Db(script.settle));
        return Raised(Database);
      }
      match result {
        case Accepted(order) =>
          if ok {
            system := Advanced(system, id, Done(Returned(order)));
            Took(s1, id, Db(script.settle));
            return Returned(order);
          }
          // The broker has the order, but the service could not say so: it records a failure.
          system := Advanced(system, id, Recovering(FAILED_COMMIT));
          Took(s1, id, Db(script.settle));
          Others(script.beforeRecover, id, r, Recovering(FAILED_COMMIT));
          ghost var s2 := system;
          ok := Mark(id, r, OtherError(FAILED_COMMIT), script.recover);
          system := Advanced(system, id, Done(Raised(Database)));
          Took(s2, id, Db(script.recover));
          return Raised(Database);
        case NetworkError(m) =>
          system := Advanced(system, id, Done(Raised(UnknownOutcome(m))));
          Took(s1, id, Db(script.settle));
          return Raised(UnknownOutcome(m));
        case OtherError(m) =>
          system := Advanced(system, id, Done(Raised(Broker(m))));
          Took(s1, id, Db(script.settle));
          return Raised(Broker(m));
      }
    }

    /** What a request does with another request's row; the row is never one that falls through. */
    method Decide(id: nat, r: Request, row: Record) returns (outcome: Outcome)
      requires Valid() && At(id, r, Deciding(row))
      modifies this
      ensures Valid() && At(id, r, Done(outcome))
      ensures Decision(r, row) == Done(outcome) && history == old(history) + [Act(id, Proceed)]
    {
      hide Strip, Run;
      assert ThreadSound(system, system.threads[id]);
      NoFallThrough(r, system.calls, row);
      hide RowsSound, ThreadsSound, SingleOwner, CalledOnce;
      ghost var s0 := system;
      var mark := ComputeFingerprint(r.payload);
      if row.fingerprint != mark {
        outcome := Raised(Mismatch);
      } else if row.status.Pending? {
        outcome := Raised(InFlight);
      } else if row.status.Completed? && row.payload.Some? {
        outcome := Returned(Deserialize(row.payload.value));
      } else if row.status.Unknown? {
        outcome := Raised(UnknownOutcome(""));
      } else if row.status.Failed? && row.payload.Some? {
        outcome := Raised(Replayed(row.payload.value.error));
      } else {
        assert false;
      }
      system := Advanced(system, id, Done(outcome));
      Took(s0, id, Proceed);
    }
  }

  lemma OwnRowIsThere(sys: System, id: nat)
    requires Inv(sys) && id in sys.threads && sys.threads[id].stage.Settling?
    ensures KeyOf(sys.threads[id].request) in sys.rows
  {
    hide Fingerprint, Strip, RowsSound, SingleOwner, CalledOnce;
    assert ThreadSound(sys, sys.threads[id]);
  }

  lemma OthersStep(sys: System, m: Move, id: nat)
    requires m.id != id && id in sys.threads
    ensures id in Step(sys, m).threads && Step(sys, m).threads[id] == sys.threads[id]
  {
    hide Fingerprint, Strip, Decision, Settled;
  }
}
