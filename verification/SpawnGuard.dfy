// The duplicate-spawn guard of spawnWithDir (internal/session/manager.go): the reservation set
// and the session table under one lock, and every interleaving of spawns, transcript lines,
// exits and re-attached sessions around them.
module SpawnGuard {
  import opened SessionMachine
  import StreamJson

  datatype Key = Key(workspace: string, issue: int, mode: string)

  datatype Entry = Entry(key: Key, rec: Record)

  // The states in which the table blocks another spawn of the same key.
  predicate Live(s: State) {
    s in {Running, WaitingForInput, PausedForQuestion, State.Blocked}
  }

  predicate LiveEntry(sessions: map<string, Entry>, id: string, key: Key) {
    id in sessions && sessions[id].key == key && Live(sessions[id].rec.state)
  }

  // What the guard decides under the lock; demo issues (number <= 0) skip it.
  predicate Admits(inFlight: set<Key>, sessions: map<string, Entry>, key: Key) {
    key.issue > 0 ==> key !in inFlight && forall id :: id in sessions ==> !LiveEntry(sessions, id, key)
  }

  class Manager {
    var sessions: map<string, Entry>
    var inFlight: set<Key>

    constructor ()
      ensures sessions == map[] && inFlight == {}
    {
      sessions, inFlight := map[], {};
    }

    method Reserve(key: Key) returns (ok: bool)
      modifies this`inFlight
      ensures ok <==> Admits(old(inFlight), sessions, key)
      ensures inFlight == old(inFlight) + (if ok && key.issue > 0 then {key} else {})
    {
      if key.issue <= 0 {
        return true;
      }
      if key in inFlight {
        return false;
      }
      var rest := sessions.Keys;
      while rest != {}
        invariant rest <= sessions.Keys
        invariant forall id :: id in sessions && id !in rest ==> !LiveEntry(sessions, id, key)
        decreases rest
      {
        var id :| id in rest;
        if sessions[id].key == key && Live(sessions[id].rec.state) {
          return false;
        }
        rest := rest - {id};
      }
      inFlight := inFlight + {key};
      return true;
    }

    method Register(id: string, key: Key)
      modifies this`sessions
      ensures sessions == old(sessions)[id := Entry(key, FRESH)]
    {
      sessions := sessions[id := Entry(key, FRESH)];
    }

    method Unreserve(key: Key)
      modifies this`inFlight
      ensures inFlight == old(inFlight) - (if key.issue > 0 then {key} else {})
    {
      if key.issue > 0 {
        inFlight := inFlight - {key};
      }
    }

    method Remove(id: string)
      modifies this`sessions
      ensures sessions == old(sessions) - {id}
    {
      sessions := sessions - {id};
    }
  }

  // A spawn call run without interference, from the guard to its deferred release.
  datatype SpawnResult = Duplicate | SetupFailed | Spawned

  method SpawnWithDir(m: Manager, key: Key, id: string, setupOk: bool) returns (r: SpawnResult)
    requires id !in m.sessions
    modifies m
    ensures r.Duplicate? <==> !Admits(old(m.inFlight), old(m.sessions), key)
    ensures r.Spawned? <==> !r.Duplicate? && setupOk
    ensures m.inFlight == old(m.inFlight)
    ensures m.sessions == if r.Spawned? then old(m.sessions)[id := Entry(key, FRESH)] else old(m.sessions)
  {
    var ok := m.Reserve(key);
    if !ok {
      return Duplicate;
    }
    if !setupOk {
      m.Unreserve(key);
      return SetupFailed;
    }
    m.Register(id, key);
    m.Unreserve(key);
    return Spawned;
  }

  // ---- the interleavings ----

  // One spawn call past its guard: setting up, worker running, or session registered.
  datatype Spawn = Reserved(key: Key) | Started(key: Key) | Registered(key: Key)

  datatype Conductor = Conductor(spawns: map<nat, Spawn>, inFlight: set<Key>, sessions: map<string, Entry>)

  const IDLE := Conductor(map[], {}, map[])

  datatype Step =
    | Call(t: nat, key: Key) // the guard, admitted or refused
    | FailEarly(t: nat) // an error return before the worker starts
    | Start(t: nat) // the worker process or harness goroutine runs
    | Enter(t: nat, id: string) // registration in the session table
    | Return(t: nat) // the deferred release of the reservation
    | ReadLine(id: string, line: string, quota: QuotaReader)
    | Finish(id: string, exit: Exit, autoKilled: bool)
    | Drop(id: string)
    | Reattach(id: string, key: Key, rec: Record)

  predicate Enabled(c: Conductor, s: Step) {
    match s
    case Call(t, _) => t !in c.spawns
    case FailEarly(t) => t in c.spawns && c.spawns[t].Reserved?
    case Start(t) => t in c.spawns && c.spawns[t].Reserved?
    case Enter(t, id) => t in c.spawns && c.spawns[t].Started? && id !in c.sessions
    case Return(t) => t in c.spawns && c.spawns[t].Registered?
    case ReadLine(id, _, _) => id in c.sessions
    case Finish(id, _, _) => id in c.sessions
    case Drop(id) => id in c.sessions
    case Reattach(id, _, _) => id !in c.sessions
  }

  function Guarded(key: Key): set<Key> {
    if key.issue > 0 then {key} else {}
  }

  function Apply(c: Conductor, s: Step): Conductor
    requires Enabled(c, s)
  {
    match s
    case Call(t, key) =>
      if Admits(c.inFlight, c.sessions, key)
      then c.(spawns := c.spawns[t := Reserved(key)], inFlight := c.inFlight + Guarded(key)) else c
    case FailEarly(t) => c.(spawns := c.spawns - {t}, inFlight := c.inFlight - Guarded(c.spawns[t].key))
    case Start(t) => c.(spawns := c.spawns[t := Started(c.spawns[t].key)])
    case Enter(t, id) =>
      c.(spawns := c.spawns[t := Registered(c.spawns[t].key)],
         sessions := c.sessions[id := Entry(c.spawns[t].key, FRESH)])
    case Return(t) => c.(spawns := c.spawns - {t}, inFlight := c.inFlight - Guarded(c.spawns[t].key))
    case ReadLine(id, line, quota) =>
      c.(sessions := c.sessions[id := c.sessions[id].(rec := Match(c.sessions[id].rec, line, quota))])
    case Finish(id, exit, autoKilled) =>
      c.(sessions := c.sessions[id := c.sessions[id].(rec := Finalize(c.sessions[id].rec, exit, autoKilled))])
    case Drop(id) => c.(sessions := c.sessions - {id})
    case Reattach(id, key, rec) => c.(sessions := c.sessions[id := Entry(key, rec)])
  }

  // ---- reservations ----

  ghost predicate KeysReserved(c: Conductor) {
    forall t :: t in c.spawns && c.spawns[t].key.issue > 0 ==> c.spawns[t].key in c.inFlight
  }

  ghost predicate ReservedBySpawns(c: Conductor) {
    forall k :: k in c.inFlight ==> k.issue > 0 && exists t :: t in c.spawns && c.spawns[t].key == k
  }

  ghost predicate OneSpawnPerKey(c: Conductor) {
    forall t, u :: t in c.spawns && u in c.spawns && t != u && c.spawns[t].key.issue > 0 ==>
      c.spawns[t].key != c.spawns[u].key
  }

  // The reservation set is exactly the guarded keys of the spawns past the guard, one spawn per key.
  ghost predicate ReservationsHeld(c: Conductor) {
    KeysReserved(c) && ReservedBySpawns(c) && OneSpawnPerKey(c)
  }

  lemma CallKeepsReservations(c: Conductor, t: nat, key: Key)
    requires ReservationsHeld(c) && t !in c.spawns
    ensures ReservationsHeld(Apply(c, Call(t, key)))
  {
    if Admits(c.inFlight, c.sessions, key) {
      NewReservation(c, t, key);
    }
  }

  lemma NewReservation(c: Conductor, t: nat, key: Key)
    requires ReservationsHeld(c) && t !in c.spawns && (key.issue > 0 ==> key !in c.inFlight)
    ensures ReservationsHeld(c.(spawns := c.spawns[t := Reserved(key)], inFlight := c.inFlight + Guarded(key)))
  {
    var d := c.(spawns := c.spawns[t := Reserved(key)], inFlight := c.inFlight + Guarded(key));
    assert KeysReserved(d);
    assert OneSpawnPerKey(d) by {
      NewSpawnHasOwnKey(c, d, t, key);
    }
    NewSpawnReserves(c, d, t, key);
  }

  lemma NewSpawnHasOwnKey(c: Conductor, d: Conductor, t: nat, key: Key)
    requires KeysReserved(c) && OneSpawnPerKey(c) && t !in c.spawns && (key.issue > 0 ==> key !in c.inFlight)
    requires d.spawns == c.spawns[t := Reserved(key)]
    ensures OneSpawnPerKey(d)
  {
    forall u | u in c.spawns && c.spawns[u].key.issue > 0 ensures c.spawns[u].key != key {
      assert c.spawns[u].key in c.inFlight;
    }
  }

  lemma NewSpawnReserves(c: Conductor, d: Conductor, t: nat, key: Key)
    requires ReservedBySpawns(c) && t !in c.spawns
    requires d.spawns == c.spawns[t := Reserved(key)] && d.inFlight == c.inFlight + Guarded(key)
    ensures ReservedBySpawns(d)
  {
    assert d.spawns[t].key == key;
    forall k | k in d.inFlight ensures k.issue > 0 && exists u :: u in d.spawns && d.spawns[u].key == k {
      if k in c.inFlight {
        var u :| u in c.spawns && c.spawns[u].key == k;
        assert u in d.spawns && d.spawns[u].key == k;
      }
    }
  }

  lemma ReleaseKeepsReservations(c: Conductor, t: nat)
    requires ReservationsHeld(c) && t in c.spawns
    ensures ReservationsHeld(c.(spawns := c.spawns - {t}, inFlight := c.inFlight - Guarded(c.spawns[t].key)))
  {
    var key := c.spawns[t].key;
    var d := c.(spawns := c.spawns - {t}, inFlight := c.inFlight - Guarded(key));
    forall k | k in d.inFlight ensures exists u :: u in d.spawns && d.spawns[u].key == k {
      var u :| u in c.spawns && c.spawns[u].key == k;
      assert u != t && u in d.spawns;
    }
  }

  lemma SameKeysKeepReservations(c: Conductor, d: Conductor)
    requires ReservationsHeld(c) && c.inFlight == d.inFlight && c.spawns.Keys == d.spawns.Keys
    requires forall t :: t in c.spawns ==> d.spawns[t].key == c.spawns[t].key
    ensures ReservationsHeld(d)
  {
    forall k | k in d.inFlight ensures exists u :: u in d.spawns && d.spawns[u].key == k {
      var u :| u in c.spawns && c.spawns[u].key == k;
      assert d.spawns[u].key == k;
    }
  }

  lemma ReservationsKept(c: Conductor, s: Step)
    requires ReservationsHeld(c) && Enabled(c, s)
    ensures ReservationsHeld(Apply(c, s))
  {
    hide ReservationsHeld, Admits, Guarded, Match, Finalize;
    match s
    case Call(t, key) => CallKeepsReservations(c, t, key);
    case FailEarly(t) => ReleaseKeepsReservations(c, t);
    case Return(t) => ReleaseKeepsReservations(c, t);
    case _ => OtherStepsKeepReservations(c, s);
  }

  lemma OtherStepsKeepReservations(c: Conductor, s: Step)
    requires ReservationsHeld(c) && Enabled(c, s) && !s.Call? && !s.FailEarly? && !s.Return?
    ensures ReservationsHeld(Apply(c, s))
  {
    hide Match, Finalize, ReservationsHeld, Guarded, Admits;
    SameKeysKeepReservations(c, Apply(c, s));
  }

  // ---- workers ----

  // A worker of key k: a spawn that is not registered yet, or a live session.
  datatype Worker = BySpawn(t: nat) | BySession(id: string)

  ghost predicate Works(c: Conductor, w: Worker, k: Key) {
    match w
    case BySpawn(t) => t in c.spawns && !c.spawns[t].Registered? && c.spawns[t].key == k
    case BySession(id) => LiveEntry(c.sessions, id, k)
  }

  ghost predicate AtMostOneWorker(c: Conductor) {
    forall k: Key, v, w :: k.issue > 0 && Works(c, v, k) && Works(c, w, k) ==> v == w
  }

  ghost predicate TakenByOther(c: Conductor, k: Key, w: Worker) {
    exists v :: v != w && Works(c, v, k)
  }

  // The two ways a second worker can appear: a line brings a finished session back to life, or a
  // re-attached row is live, while another worker of that key exists.
  ghost predicate Clashes(c: Conductor, s: Step) {
    match s
    case ReadLine(id, line, quota) =>
      && id in c.sessions && c.sessions[id].key.issue > 0
      && !Live(c.sessions[id].rec.state) && Live(Match(c.sessions[id].rec, line, quota).state)
      && TakenByOther(c, c.sessions[id].key, BySession(id))
    case Reattach(id, key, rec) => key.issue > 0 && Live(rec.state) && TakenByOther(c, key, BySession(id))
    case _ => false
  }

  // After a step that changes one session, every worker is an old one or that session.
  lemma WorkersAfter(c: Conductor, s: Step, w: Worker, k: Key)
    requires Enabled(c, s) && Works(Apply(c, s), w, k)
    ensures Works(c, w, k)
            || (s.Call? && w == BySpawn(s.t) && k == s.key && Admits(c.inFlight, c.sessions, k))
            || (s.Enter? && w == BySession(s.id) && Works(c, BySpawn(s.t), k))
            || (s.ReadLine? && w == BySession(s.id) && c.sessions[s.id].key == k
                && Live(Match(c.sessions[s.id].rec, s.line, s.quota).state))
            || (s.Reattach? && w == BySession(s.id) && s.key == k && Live(s.rec.state))
  {
    hide Match, Admits;
  }

  lemma AdmittedKeyFree(c: Conductor, k: Key, w: Worker)
    requires ReservationsHeld(c) && k.issue > 0 && Admits(c.inFlight, c.sessions, k)
    ensures !Works(c, w, k)
  {
  }

  // A step keeps at most one worker per key exactly when it is not one of the two clashes.
  lemma StepKeepsOneWorkerIff(c: Conductor, s: Step)
    requires ReservationsHeld(c) && AtMostOneWorker(c) && Enabled(c, s)
    ensures AtMostOneWorker(Apply(c, s)) <==> !Clashes(c, s)
  {
    if Clashes(c, s) {
      ClashMakesTwo(c, s);
    } else {
      forall k: Key, v, w | k.issue > 0 && Works(Apply(c, s), v, k) && Works(Apply(c, s), w, k) ensures v == w {
        if v != w {
          TwoMeansClash(c, s, k, v, w);
        }
      }
    }
  }

  lemma ClashMakesTwo(c: Conductor, s: Step)
    requires Enabled(c, s) && Clashes(c, s)
    ensures !AtMostOneWorker(Apply(c, s))
  {
    hide Match;
    var d := Apply(c, s);
    var k := if s.ReadLine? then c.sessions[s.id].key else s.key;
    var v :| v != BySession(s.id) && Works(c, v, k);
    assert Works(d, v, k) && Works(d, BySession(s.id), k);
  }

  lemma TwoMeansClash(c: Conductor, s: Step, k: Key, v: Worker, w: Worker)
    requires ReservationsHeld(c) && AtMostOneWorker(c) && Enabled(c, s)
    requires k.issue > 0 && v != w && Works(Apply(c, s), v, k) && Works(Apply(c, s), w, k)
    ensures Clashes(c, s)
  {
    hide Match, Admits;
    WorkersAfter(c, s, v, k);
    WorkersAfter(c, s, w, k);
    match s
    case Call(t, key) =>
      if Admits(c.inFlight, c.sessions, k) {
        AdmittedKeyFree(c, k, v);
        AdmittedKeyFree(c, k, w);
      }
    case ReadLine(id, line, quota) =>
      assert !(Works(c, v, k) && Works(c, w, k));
      var other := if v == BySession(id) then w else v;
      assert other != BySession(id) && Works(c, other, k);
      assert !Works(c, BySession(id), k) && TakenByOther(c, k, BySession(id));
    case Reattach(id, key, rec) =>
      var other := if v == BySession(id) then w else v;
      assert other != BySession(id) && Works(c, other, k);
    case _ =>
  }

  // ---- whole runs ----

  ghost predicate Runs(c: Conductor, steps: seq<Step>)
    decreases |steps|
  {
    steps == [] || (Enabled(c, steps[0]) && Runs(Apply(c, steps[0]), steps[1..]))
  }

  ghost function After(c: Conductor, steps: seq<Step>): Conductor
    requires Runs(c, steps)
    decreases |steps|
  {
    if steps == [] then c else After(Apply(c, steps[0]), steps[1..])
  }

  // Lines never bring a finished session back to life, and re-attached rows find their key free.
  ghost predicate Orderly(c: Conductor, steps: seq<Step>)
    requires Runs(c, steps)
    decreases |steps|
  {
    steps == [] || (!Clashes(c, steps[0]) && Orderly(Apply(c, steps[0]), steps[1..]))
  }

  lemma {:induction false} RunKeepsReservations(c: Conductor, steps: seq<Step>)
    requires ReservationsHeld(c) && Runs(c, steps)
    ensures ReservationsHeld(After(c, steps))
    decreases |steps|
  {
    hide Apply, Enabled, ReservationsHeld;
    if steps != [] {
      ReservationsKept(c, steps[0]);
      RunKeepsReservations(Apply(c, steps[0]), steps[1..]);
    }
  }

  lemma {:induction false} RunKeepsOneWorker(c: Conductor, steps: seq<Step>)
    requires ReservationsHeld(c) && AtMostOneWorker(c) && Runs(c, steps) && Orderly(c, steps)
    ensures AtMostOneWorker(After(c, steps))
    decreases |steps|
  {
    hide Apply, Enabled, ReservationsHeld, AtMostOneWorker, Clashes;
    if steps != [] {
      ReservationsKept(c, steps[0]);
      StepKeepsOneWorkerIff(c, steps[0]);
      RunKeepsOneWorker(Apply(c, steps[0]), steps[1..]);
    }
  }

  lemma IdleIsGood()
    ensures ReservationsHeld(IDLE) && AtMostOneWorker(IDLE)
  {
  }

  // Over every interleaving from an idle conductor, no two spawns hold a reservation for one key.
  lemma OneReservationPerKey(steps: seq<Step>)
    requires Runs(IDLE, steps)
    ensures ReservationsHeld(After(IDLE, steps))
  {
    hide ReservationsHeld, Runs, After;
    IdleIsGood();
    RunKeepsReservations(IDLE, steps);
  }

  // Over every orderly interleaving from an idle conductor, a key has at most one worker.
  lemma OneWorkerPerKey(steps: seq<Step>)
    requires Runs(IDLE, steps) && Orderly(IDLE, steps)
    ensures AtMostOneWorker(After(IDLE, steps))
  {
    hide ReservationsHeld, AtMostOneWorker, Runs, After, Orderly;
    IdleIsGood();
    RunKeepsOneWorker(IDLE, steps);
  }

  // ---- restarts ----

  // No line takes a session out of completed, failed or needs_pr.
  ghost predicate NoRevival(c: Conductor, steps: seq<Step>)
    requires Runs(c, steps)
    decreases |steps|
  {
    steps == [] ||
    ((steps[0].ReadLine? && Live(Match(c.sessions[steps[0].id].rec, steps[0].line, steps[0].quota).state) ==>
        Live(c.sessions[steps[0].id].rec.state))
     && NoRevival(Apply(c, steps[0]), steps[1..]))
  }

  // A re-attached row that counts as a worker.
  predicate LiveRow(s: Step) {
    s.Reattach? && s.key.issue > 0 && Live(s.rec.state)
  }

  // The rows re-attached in a run have distinct keys.
  ghost predicate DistinctRows(steps: seq<Step>) {
    forall i, j :: 0 <= i < j < |steps| && LiveRow(steps[i]) && LiveRow(steps[j]) ==> steps[i].key != steps[j].key
  }

  // No spawn is called before the last of them.
  ghost predicate RowsFirst(steps: seq<Step>) {
    forall i, j :: 0 <= i < j < |steps| && LiveRow(steps[j]) ==> !steps[i].Call?
  }

  // Every worker is a session, of a key in seen.
  ghost predicate OnlyRows(c: Conductor, seen: set<Key>) {
    forall k: Key, w :: k.issue > 0 && Works(c, w, k) ==> w.BySession? && k in seen
  }

  lemma StepKeepsOnlyRows(c: Conductor, s: Step, seen: set<Key>)
    requires OnlyRows(c, seen) && Enabled(c, s) && !s.Call?
    requires s.ReadLine? && Live(Match(c.sessions[s.id].rec, s.line, s.quota).state) ==> Live(c.sessions[s.id].rec.state)
    ensures OnlyRows(Apply(c, s), SeenAfter(s, seen))
  {
    hide Match, Admits;
    var d := Apply(c, s);
    forall k: Key, w | k.issue > 0 && Works(d, w, k)
      ensures w.BySession? && (k in seen || (LiveRow(s) && k == s.key))
    {
      hide Apply;
      WorkersAfter(c, s, w, k);
    }
  }

  ghost predicate HasRow(steps: seq<Step>) {
    exists i :: 0 <= i < |steps| && LiveRow(steps[i])
  }

  ghost predicate RowsAvoid(steps: seq<Step>, seen: set<Key>) {
    forall i :: 0 <= i < |steps| && LiveRow(steps[i]) ==> steps[i].key !in seen
  }

  function SeenAfter(s: Step, seen: set<Key>): set<Key> {
    if LiveRow(s) then seen + {s.key} else seen
  }

  lemma RowsTail(steps: seq<Step>, seen: set<Key>)
    requires steps != [] && DistinctRows(steps) && RowsFirst(steps)
    ensures DistinctRows(steps[1..]) && RowsFirst(steps[1..])
    ensures LiveRow(steps[0]) ==> HasRow(steps)
    ensures HasRow(steps[1..]) ==> HasRow(steps) && !steps[0].Call?
    ensures RowsAvoid(steps, seen) ==> RowsAvoid(steps[1..], SeenAfter(steps[0], seen))
    ensures LiveRow(steps[0]) && RowsAvoid(steps, seen) ==> steps[0].key !in seen
  {
    hide LiveRow;
    var rest := steps[1..];
    assert forall i :: 0 <= i < |rest| ==> rest[i] == steps[i + 1];
    if HasRow(rest) {
      var i :| 0 <= i < |rest| && LiveRow(rest[i]);
      assert LiveRow(steps[i + 1]);
    }
  }

  // A run is orderly when no line revives a finished session and the rows that a restart
  // re-attaches come before every spawn call and have distinct keys, whatever lines, exits and
  // removals come between them.
  lemma {:induction false} RestartIsOrderly(c: Conductor, steps: seq<Step>, seen: set<Key>)
    requires Runs(c, steps) && NoRevival(c, steps) && DistinctRows(steps) && RowsFirst(steps)
    requires HasRow(steps) ==> OnlyRows(c, seen) && RowsAvoid(steps, seen)
    ensures Orderly(c, steps)
    decreases |steps|
  {
    hide Match, Apply, Enabled, OnlyRows, HasRow, RowsAvoid, DistinctRows, RowsFirst, LiveRow, Clashes;
    if steps != [] {
      RowsTail(steps, seen);
      FirstIsNoClash(c, steps[0], seen, HasRow(steps));
      if HasRow(steps[1..]) {
        StepKeepsOnlyRows(c, steps[0], seen);
      }
      RestartIsOrderly(Apply(c, steps[0]), steps[1..], SeenAfter(steps[0], seen));
    }
  }

  lemma FirstIsNoClash(c: Conductor, s: Step, seen: set<Key>, rows: bool)
    requires Enabled(c, s) && (LiveRow(s) ==> rows) && (rows ==> OnlyRows(c, seen))
    requires s.ReadLine? && Live(Match(c.sessions[s.id].rec, s.line, s.quota).state) ==> Live(c.sessions[s.id].rec.state)
    requires LiveRow(s) ==> s.key !in seen
    ensures !Clashes(c, s)
  {
    hide Match;
  }

  lemma NoRowsYet(steps: seq<Step>)
    ensures OnlyRows(IDLE, {}) && RowsAvoid(steps, {})
  {
  }

  // So from an idle conductor such a run never has two workers for one key.
  lemma RestartKeepsOneWorker(steps: seq<Step>)
    requires Runs(IDLE, steps) && NoRevival(IDLE, steps) && DistinctRows(steps) && RowsFirst(steps)
    ensures AtMostOneWorker(After(IDLE, steps))
  {
    hide Runs, NoRevival, DistinctRows, RowsFirst, Orderly, After, AtMostOneWorker;
    NoRowsYet(steps);
    RestartIsOrderly(IDLE, steps, {});
    OneWorkerPerKey(steps);
  }

  // The rows of a restart, re-attached one after the other.
  ghost predicate AllRows(steps: seq<Step>) {
    forall i :: 0 <= i < |steps| ==> steps[i].Reattach?
  }

  lemma {:induction false} WorkersAfterRows(c: Conductor, steps: seq<Step>, w: Worker, k: Key)
    requires Runs(c, steps) && AllRows(steps)
    ensures Works(After(c, steps), w, k) <==>
            Works(c, w, k) || exists i :: 0 <= i < |steps| && RowFor(steps[i], w, k)
    decreases |steps|
  {
    if steps != [] {
      var s, rest := steps[0], steps[1..];
      assert forall i :: 0 <= i < |rest| ==> rest[i] == steps[i + 1];
      var d := Apply(c, s);
      WorkersAfterRows(d, rest, w, k);
      assert Works(d, w, k) <==> Works(c, w, k) || RowFor(s, w, k);
      hide Works, RowFor;
      if i :| 0 <= i < |steps| && RowFor(steps[i], w, k) {
        assert i > 0 ==> steps[i] == rest[i - 1];
      }
    }
  }

  lemma {:induction false} RowsHaveOwnIds(c: Conductor, steps: seq<Step>, i: nat)
    requires Runs(c, steps) && AllRows(steps) && i < |steps|
    ensures steps[i].id !in c.sessions && forall j :: 0 <= j < i ==> steps[j].id != steps[i].id
    decreases |steps|
  {
    if i > 0 {
      var rest := steps[1..];
      assert forall j :: 0 <= j < |rest| ==> rest[j] == steps[j + 1];
      RowsHaveOwnIds(Apply(c, steps[0]), rest, i - 1);
      assert steps[0].id in Apply(c, steps[0]).sessions;
      forall j | 0 <= j < i ensures steps[j].id != steps[i].id {
        assert j > 0 ==> steps[j] == rest[j - 1];
      }
    }
  }

  // No spawn or session works on the key of a row.
  ghost predicate RowsFree(c: Conductor, steps: seq<Step>) {
    forall i, w :: 0 <= i < |steps| && LiveRow(steps[i]) ==> !Works(c, w, steps[i].key)
  }

  ghost predicate RowFor(s: Step, w: Worker, k: Key) {
    s.Reattach? && w == BySession(s.id) && s.key == k && Live(s.rec.state)
  }

  lemma TwoMeansTaken(c: Conductor, steps: seq<Step>, v: Worker, w: Worker, k: Key)
    requires AtMostOneWorker(c) && k.issue > 0 && v != w
    requires Works(c, v, k) || exists i :: 0 <= i < |steps| && RowFor(steps[i], v, k)
    requires Works(c, w, k) || exists i :: 0 <= i < |steps| && RowFor(steps[i], w, k)
    ensures !(DistinctRows(steps) && RowsFree(c, steps))
  {
    hide Works;
    if Works(c, v, k) {
      var j :| 0 <= j < |steps| && RowFor(steps[j], w, k);
      assert LiveRow(steps[j]) && Works(c, v, steps[j].key);
    } else {
      var i :| 0 <= i < |steps| && RowFor(steps[i], v, k);
      assert LiveRow(steps[i]);
      if Works(c, w, k) {
        assert Works(c, w, steps[i].key);
      } else {
        var j :| 0 <= j < |steps| && RowFor(steps[j], w, k);
        assert LiveRow(steps[j]);
        assert i < j || j < i;
      }
    }
  }

  // The startup drain runs beside the re-attachment. Re-attaching the rows leaves one worker per
  // key if and only if the rows have distinct keys and no spawn has taken the key of one of them.
  lemma ReattachIff(c: Conductor, steps: seq<Step>)
    requires AtMostOneWorker(c) && Runs(c, steps) && AllRows(steps)
    ensures AtMostOneWorker(After(c, steps)) <==>
            DistinctRows(steps) && RowsFree(c, steps)
  {
    hide Runs, After, AllRows, Works;
    var d := After(c, steps);
    forall w, k ensures RowWorks(c, d, steps, w, k) {
      WorkersAfterRows(c, steps, w, k);
    }
    if AtMostOneWorker(d) {
      forall i, w | 0 <= i < |steps| && LiveRow(steps[i]) ensures !Works(c, w, steps[i].key) {
        assert RowWorks(c, d, steps, BySession(steps[i].id), steps[i].key);
        assert RowWorks(c, d, steps, w, steps[i].key);
        RowsHaveOwnIds(c, steps, i);
        NotYet(c, steps[i].id, steps[i].key);
      }
      forall i, j | 0 <= i < j < |steps| && LiveRow(steps[i]) && LiveRow(steps[j]) ensures steps[i].key != steps[j].key {
        assert RowWorks(c, d, steps, BySession(steps[i].id), steps[i].key);
        assert RowWorks(c, d, steps, BySession(steps[j].id), steps[j].key);
        RowsHaveOwnIds(c, steps, j);
      }
    } else {
      var k: Key, v, w :| k.issue > 0 && Works(d, v, k) && Works(d, w, k) && v != w;
      assert RowWorks(c, d, steps, v, k) && RowWorks(c, d, steps, w, k);
      TwoMeansTaken(c, steps, v, w, k);
    }
  }

  ghost predicate RowWorks(c: Conductor, d: Conductor, steps: seq<Step>, w: Worker, k: Key)
  {
    Works(d, w, k) <==> Works(c, w, k) || exists i :: 0 <= i < |steps| && RowFor(steps[i], w, k)
  }

  lemma NotYet(c: Conductor, id: string, k: Key)
    requires id !in c.sessions
    ensures !Works(c, BySession(id), k)
  {
  }

  // The lines that revive a finished session: a question, a new pending question, or BLOCKED.
  lemma RevivingLines(r: Record, line: string, quota: QuotaReader)
    requires !Live(r.state)
    ensures Live(Match(r, line, quota).state) <==>
            || SentinelAtLineStart(line, QUESTION)
            || SentinelAtLineStart(line, BLOCKED)
            || (SentinelAtLineStart(line, QUESTION_PENDING) && r.pendingQuestionId == ""
                && StreamJson.Trim(SessionMachine.After(line, QUESTION_PENDING)) != "")
  {
    StartsApart(Stripped(line));
  }

  // ---- what the guard lets through ----

  // A spawn of this very workspace, issue and mode is under way.
  ghost predicate SpawnOf(c: Conductor, key: Key) {
    exists t :: t in c.spawns && c.spawns[t].key == key
  }

  // A session of it runs, waits, is paused or is blocked.
  ghost predicate SessionOf(c: Conductor, key: Key) {
    exists id :: id in c.sessions && SessionAt(c, id, key)
  }

  predicate SessionAt(c: Conductor, id: string, key: Key)
    requires id in c.sessions
  {
    var e := c.sessions[id];
    && e.key == key
    && (e.rec.state.Running? || e.rec.state.WaitingForInput? || e.rec.state.PausedForQuestion? || e.rec.state.Blocked?)
  }

  lemma AdmitsIff(c: Conductor, key: Key)
    requires ReservationsHeld(c)
    ensures Admits(c.inFlight, c.sessions, key) <==> key.issue <= 0 || (!SpawnOf(c, key) && !SessionOf(c, key))
  {
    if key.issue > 0 {
      assert key in c.inFlight <==> SpawnOf(c, key) by {
        if t :| t in c.spawns && c.spawns[t].key == key {
          assert c.spawns[t].key in c.inFlight;
        }
      }
      assert forall id :: id in c.sessions ==> (LiveEntry(c.sessions, id, key) <==> SessionAt(c, id, key));
    }
  }

  // In every state the conductor can reach, a spawn is refused, and changes nothing, if and only if its
  // issue is a real one and its workspace, issue and mode together are being spawned or have a session
  // that runs, waits, is paused or is blocked. Otherwise it holds the reservation.
  lemma GuardRefusesIff(steps: seq<Step>, t: nat, key: Key)
    requires Runs(IDLE, steps) && Enabled(After(IDLE, steps), Call(t, key))
    ensures var c := After(IDLE, steps);
            var d := Apply(c, Call(t, key));
            var refused := key.issue > 0 && (SpawnOf(c, key) || SessionOf(c, key));
            && (refused ==> d == c)
            && (!refused ==> d == Conductor(c.spawns[t := Reserved(key)],
                                            if key.issue > 0 then c.inFlight + {key} else c.inFlight, c.sessions))
  {
    hide Runs, After, ReservationsHeld, SpawnOf, SessionOf, Admits;
    OneReservationPerKey(steps);
    AdmitsIff(After(IDLE, steps), key);
  }

  // A key comes free when its spawn has failed or returned, unless a session of it still counts.
  lemma EndedSpawnFrees(c: Conductor, s: Step, key: Key)
    requires ReservationsHeld(c) && Enabled(c, s) && (s.FailEarly? || s.Return?) && c.spawns[s.t].key == key && key.issue > 0
    ensures !SpawnOf(Apply(c, s), key) && Apply(c, s).sessions == c.sessions
  {
    forall u | u in Apply(c, s).spawns ensures Apply(c, s).spawns[u].key != key {
      assert u in c.spawns && u != s.t;
    }
  }

  // A worker's session stops counting at its exit, unless it is paused, and at the latest when it
  // leaves the table.
  lemma FinishedSessionFreesIff(c: Conductor, id: string, key: Key, exit: Exit, autoKilled: bool)
    requires AtMostOneWorker(c) && key.issue > 0 && id in c.sessions && SessionAt(c, id, key)
    ensures SessionOf(Apply(c, Finish(id, exit, autoKilled)), key) <==> c.sessions[id].rec.state.PausedForQuestion?
    ensures !SessionOf(Apply(c, Drop(id)), key)
  {
    forall other | other in c.sessions && SessionAt(c, other, key) ensures other == id {
      assert Works(c, BySession(other), key) && Works(c, BySession(id), key);
    }
    var d, e := Apply(c, Finish(id, exit, autoKilled)), Apply(c, Drop(id));
    assert forall other :: other in c.sessions && other != id ==> d.sessions[other] == c.sessions[other];
    assert SessionAt(d, id, key) <==> c.sessions[id].rec.state.PausedForQuestion?;
  }

  // ---- the guard is not enough on its own ----

  const ISSUE := Key("ws", 7, "execute")

  const SAYS_DONE := "@asst Work complete."
  const SAYS_BLOCKED := "@asst BLOCKED: tests failed"

  // A first worker says it is complete, a second one is spawned, and then the first says BLOCKED.
  const DOUBLE_SPAWN: seq<Step> :=
    [Call(0, ISSUE), Start(0), Enter(0, "a"), Return(0), ReadLine("a", SAYS_DONE, NoQuota),
     Call(1, ISSUE), Start(1), ReadLine("a", SAYS_BLOCKED, NoQuota)]

  lemma RunsOn(c: Conductor, steps: seq<Step>, i: nat)
    requires i < |steps| && Enabled(c, steps[i]) && Runs(Apply(c, steps[i]), steps[i + 1..])
    ensures Runs(c, steps[i..]) && After(c, steps[i..]) == After(Apply(c, steps[i]), steps[i + 1..])
  {
    assert steps[i..][1..] == steps[i + 1..];
  }

  // A drained row spawns a worker for a key whose worker of the last run is then re-attached.
  lemma StartupDrainClashes(rec: Record)
    requires Live(rec.state)
    ensures var steps := [Call(0, ISSUE), Start(0), Reattach("a", ISSUE, rec)];
            Runs(IDLE, steps) && NoRevival(IDLE, steps) && DistinctRows(steps) && !AtMostOneWorker(After(IDLE, steps))
  {
    var steps := [Call(0, ISSUE), Start(0), Reattach("a", ISSUE, rec)];
    var c1 := Apply(IDLE, steps[0]);
    var c2 := Apply(c1, steps[1]);
    var c3 := Apply(c2, steps[2]);
    assert steps[1..][1..] == steps[2..] && steps[2..][1..] == [];
    assert Runs(c3, []) && Runs(c2, steps[2..]) && Runs(c1, steps[1..]);
    assert NoRevival(c2, steps[2..]) && NoRevival(c1, steps[1..]);
    assert After(IDLE, steps) == After(c1, steps[1..]) == After(c2, steps[2..]) == c3;
    assert Works(c3, BySpawn(0), ISSUE) && Works(c3, BySession("a"), ISSUE);
  }

  // The first worker runs and has been registered.
  const ONE_WORKER := Conductor(map[], {}, map["a" := Entry(ISSUE, FRESH)])

  lemma FirstWorkerRuns()
    requires Runs(ONE_WORKER, DOUBLE_SPAWN[4..])
    ensures Runs(IDLE, DOUBLE_SPAWN) && After(IDLE, DOUBLE_SPAWN) == After(ONE_WORKER, DOUBLE_SPAWN[4..])
  {
    hide Match, Runs, After, AtMostOneWorker;
    var steps := DOUBLE_SPAWN;
    var c1 := Apply(IDLE, steps[0]);
    assert c1 == Conductor(map[0 := Reserved(ISSUE)], {ISSUE}, map[]);
    var c2 := Apply(c1, steps[1]);
    var c3 := Apply(c2, steps[2]);
    assert Apply(c3, steps[3]) == ONE_WORKER;
    RunsOn(c3, steps, 3);
    RunsOn(c2, steps, 2);
    RunsOn(c1, steps, 1);
    RunsOn(IDLE, steps, 0);
    assert steps[0..] == steps;
  }

  // With the guard in place two workers for one key are still reachable.
  lemma TwoWorkersReachable()
    ensures Runs(IDLE, DOUBLE_SPAWN) && !AtMostOneWorker(After(IDLE, DOUBLE_SPAWN))
  {
    hide Match, Runs, After, AtMostOneWorker;
    CompletedCanRevive(NoQuota);
    var done := Match(FRESH, SAYS_DONE, NoQuota);
    var steps := DOUBLE_SPAWN;
    var c5 := Apply(ONE_WORKER, steps[4]);
    assert c5 == Conductor(map[], {}, map["a" := Entry(ISSUE, done)]);
    var c6 := Apply(c5, steps[5]);
    assert c6.spawns == map[1 := Reserved(ISSUE)];
    var c7 := Apply(c6, steps[6]);
    var c8 := Apply(c7, steps[7]);
    LastStates(c8);
    RunsOn(c7, steps, 7);
    RunsOn(c6, steps, 6);
    RunsOn(c5, steps, 5);
    RunsOn(ONE_WORKER, steps, 4);
    FirstWorkerRuns();
  }

  lemma LastStates(c: Conductor)
    requires 1 in c.spawns && c.spawns[1] == Started(ISSUE)
    requires LiveEntry(c.sessions, "a", ISSUE)
    ensures Runs(c, DOUBLE_SPAWN[8..]) && After(c, DOUBLE_SPAWN[8..]) == c && !AtMostOneWorker(c)
  {
    assert Works(c, BySpawn(1), ISSUE) && Works(c, BySession("a"), ISSUE);
  }
}
