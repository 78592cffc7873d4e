/** What the frequency guard means when many keyed orders run at once: time and the guard added to the placement
    protocol. */
module FrequencyGuard {
  import opened MapSums
  import opened Text
  import opened Placement

  const WINDOW := 60

  /** The placement tables, when each row was created, and when each key's order passed the guard. */
  datatype Traffic = Traffic(now: int, sys: System, created: map<RowKey, int>, passed: map<RowKey, int>)

  /** `age` is how much older than the commit the time stamp of a new row is. */
  datatype Event = Tick(seconds: nat) | Take(move: Move, age: nat) | AskGuard(id: nat)

  const Quiet := Traffic(0, Start, map[], map[])

  function Stamped(created: map<RowKey, int>, rows: set<RowKey>, time: int): map<RowKey, int> {
    map key | key in rows :: if key in created then created[key] else time
  }

  /** The rows of an account that the guard counts. */
  function RecentRows(t: Traffic, user: string, broker: string): set<RowKey> {
    set key | key in t.created && key.user == user && key.broker == broker && t.created[key] >= t.now - WINDOW
  }

  type Limits = (string, string) -> int

  /** The guard is asked while a request executes. Nothing is said here of rows: that the request's own row is among
      those counted is a consequence of the protocol. */
  function Next(t: Traffic, limits: Limits, e: Event): Traffic {
    match e
    case Tick(seconds) => t.(now := t.now + seconds)
    case Take(m, age) =>
      var sys := Step(t.sys, m);
      t.(sys := sys, created := Stamped(t.created, sys.rows.Keys, t.now - age))
    case AskGuard(id) =>
      if id !in t.sys.threads || !t.sys.threads[id].stage.Executing? then t
      else
        var key := KeyOf(t.sys.threads[id].request);
        if key in t.passed || |RecentRows(t, key.user, key.broker)| >= limits(key.user, key.broker) then t
        else t.(passed := t.passed[key := t.now])
  }

  function Flow(limits: Limits, events: seq<Event>): Traffic {
    if events == [] then Quiet else Next(Flow(limits, events[..|events| - 1]), limits, events[|events| - 1])
  }

  /** The orders of an account that were created and let through within the minute that starts at `from`. */
  function PassedWithin(t: Traffic, user: string, broker: string, from: int): set<RowKey> {
    set key | key in t.passed && key in t.created && key.user == user && key.broker == broker
              && from <= t.created[key] && t.passed[key] <= from + WINDOW
  }

  ghost predicate Orderly(t: Traffic) {
    && Inv(t.sys)
    && t.created.Keys == t.sys.rows.Keys
    && (forall key :: key in t.created ==> t.created[key] <= t.now)
    && (forall key :: key in t.passed ==> key in t.created && t.passed[key] <= t.now)
  }

  ghost predicate Bounded(t: Traffic, limits: Limits, user: string, broker: string, from: int) {
    var passed := PassedWithin(t, user, broker, from);
    passed == {} || |passed| < limits(user, broker)
  }

  /** A request that executes has its row in the table, so the guard counts it. */
  lemma ExecutingHasRow(sys: System, id: nat)
    requires Inv(sys) && id in sys.threads && sys.threads[id].stage.Executing?
    ensures KeyOf(sys.threads[id].request) in sys.rows
  {
    hide Inv, Fingerprint, Strip;
    ThreadIsSound(sys, id);
  }

  lemma TakeKeepsRate(t: Traffic, limits: Limits, m: Move, age: nat, user: string, broker: string, from: int)
    requires Orderly(t) && Bounded(t, limits, user, broker, from)
    ensures Orderly(Next(t, limits, Take(m, age))) && Bounded(Next(t, limits, Take(m, age)), limits, user, broker, from)
  {
    hide Inv, Step;
    StepKeepsInv(t.sys, m);
    RowsOnlyGrow(t.sys, m);
    var u := Next(t, limits, Take(m, age));
    assert PassedWithin(u, user, broker, from) == PassedWithin(t, user, broker, from);
  }

  lemma GuardKeepsRate(t: Traffic, limits: Limits, id: nat, user: string, broker: string, from: int)
    requires Orderly(t) && Bounded(t, limits, user, broker, from)
    ensures Orderly(Next(t, limits, AskGuard(id))) && Bounded(Next(t, limits, AskGuard(id)), limits, user, broker, from)
  {
    hide Inv, KeyOf;
    var u := Next(t, limits, AskGuard(id));
    var before, after := PassedWithin(t, user, broker, from), PassedWithin(u, user, broker, from);
    if u.passed != t.passed {
      var key := KeyOf(t.sys.threads[id].request);
      ExecutingHasRow(t.sys, id);
      if t.now <= from + WINDOW && key.user == user && key.broker == broker {
        assert after <= RecentRows(t, user, broker);
        SubsetSmaller(after, RecentRows(t, user, broker));
      } else {
        assert after == before;
      }
    }
  }

  /** An executing order that asks for the first time passes exactly when the rows its account has created in the last
      sixty seconds, its own included, are fewer than the limit. */
  lemma PassesExactlyWhenRoom(t: Traffic, limits: Limits, id: nat)
    requires Orderly(t) && id in t.sys.threads && t.sys.threads[id].stage.Executing?
    requires KeyOf(t.sys.threads[id].request) !in t.passed
    ensures var key := KeyOf(t.sys.threads[id].request);
            var recent := set k | k in t.sys.rows && k.user == key.user && k.broker == key.broker
                                  && t.now <= t.created[k] + 60;
            && key in t.sys.rows
            && (key in Next(t, limits, AskGuard(id)).passed <==> |recent| < limits(key.user, key.broker))
  {
    hide Inv, KeyOf;
    ExecutingHasRow(t.sys, id);
    var key := KeyOf(t.sys.threads[id].request);
    assert RecentRows(t, key.user, key.broker)
           == set k | k in t.sys.rows && k.user == key.user && k.broker == key.broker && t.now <= t.created[k] + 60;
  }

  lemma NextKeepsRate(t: Traffic, limits: Limits, e: Event, user: string, broker: string, from: int)
    requires Orderly(t) && Bounded(t, limits, user, broker, from)
    ensures Orderly(Next(t, limits, e)) && Bounded(Next(t, limits, e), limits, user, broker, from)
  {
    match e
    case Tick(seconds) =>
      hide Inv;
      assert PassedWithin(Next(t, limits, e), user, broker, from) == PassedWithin(t, user, broker, from);
    case Take(m, age) => TakeKeepsRate(t, limits, m, age, user, broker, from);
    case AskGuard(id) => GuardKeepsRate(t, limits, id, user, broker, from);
  }

  /** Whatever the interleaving, the crashes and the failing commits, no minute sees as many keyed orders of an account
      created and let through as its limit: each order's own row is committed before it asks, so at most one less
      than the limit pass. */
  lemma {:induction false} MinuteRate(limits: Limits, events: seq<Event>, user: string, broker: string, from: int)
    ensures Orderly(Flow(limits, events)) && Bounded(Flow(limits, events), limits, user, broker, from)
  {
    hide Next, Orderly, Bounded;
    if events == [] {
      QuietIsOrderly(limits, user, broker, from);
    } else {
      var last := |events| - 1;
      MinuteRate(limits, events[..last], user, broker, from);
      NextKeepsRate(Flow(limits, events[..last]), limits, events[last], user, broker, from);
    }
  }

  lemma QuietIsOrderly(limits: Limits, user: string, broker: string, from: int)
    ensures Orderly(Quiet) && Bounded(Quiet, limits, user, broker, from)
  {
    hide Inv;
    StartIsSound();
  }
}
