// Routing and validation of workspace pipelines (internal/pipeline/driver.go), and what
// validation does and does not promise about whole runs.
module Pipeline {
  import opened Options
  import opened StepGraph

  datatype Workflow = Workflow(steps: seq<Step>)

  // The source's Outcome is a string; only "success" and "fail" are named.
  const OUTCOME_SUCCESS := "success"
  const OUTCOME_FAIL := "fail"

  datatype BlockReason =
    | StepNotFound(id: string)
    | NoFailRoute(name: string)
    | TargetNotFound(id: string)
    | LoopCapReached(name: string, cap: int)

  datatype NextAction = SpawnStep(id: string) | Done | Blocked(reason: BlockReason)

  // ---- routing ----

  function FindStep(steps: seq<Step>, id: string): (r: Option<Step>)
    ensures r.Some? ==> r.value in steps && r.value.id == id
    ensures r.None? ==> forall s :: s in steps ==> s.id != id
  {
    if steps == [] then None
    else if steps[0].id == id then Some(steps[0])
    else FindStep(steps[1..], id)
  }

  function Count(loops: map<string, int>, id: string): int {
    if id in loops then loops[id] else 0
  }

  function Next(p: Option<Workflow>, current: string, outcome: string, loops: map<string, int>): NextAction {
    if p.None? then Done
    else
      var found := FindStep(p.value.steps, current);
      if found.None? then Blocked(StepNotFound(current))
      else
        var step := found.value;
        var targetId := if outcome == OUTCOME_SUCCESS then step.onSuccess else step.onFail;
        if targetId == "" then
          if outcome == OUTCOME_FAIL then Blocked(NoFailRoute(step.name)) else Done
        else
          var target := FindStep(p.value.steps, targetId);
          if target.None? then Blocked(TargetNotFound(targetId))
          else if target.value.maxLoops > 0 && Count(loops, targetId) >= target.value.maxLoops
          then Blocked(LoopCapReached(target.value.name, target.value.maxLoops))
          else SpawnStep(targetId)
  }

  // ---- validation ----

  datatype ValidationError =
    | MissingId
    | DuplicateId(id: string)
    | UnknownOnSuccess(id: string, ref: string)
    | UnknownOnFail(id: string, ref: string)
    | UncappedCycle(members: set<string>)

  function Ids(steps: seq<Step>): (ids: seq<string>)
    ensures |ids| == |steps| && forall i :: 0 <= i < |steps| ==> ids[i] == steps[i].id
  {
    seq(|steps|, i requires 0 <= i < |steps| => steps[i].id)
  }

  // The first step of each id; byID itself once the ids are known to be unique.
  function Index(steps: seq<Step>): Graph {
    map id | id in Ids(steps) :: Lookup(steps, id)
  }

  function Lookup(steps: seq<Step>, id: string): (s: Step)
    requires id in Ids(steps)
    ensures FindStep(steps, id) == Some(s)
  {
    FindIffId(steps, id);
    FindStep(steps, id).value
  }

  lemma FindIffId(steps: seq<Step>, id: string)
    ensures FindStep(steps, id).Some? <==> id in Ids(steps)
  {
    if id in Ids(steps) {
      var i :| 0 <= i < |steps| && Ids(steps)[i] == id;
      assert steps[i] in steps;
    }
    if FindStep(steps, id).Some? {
      var i :| 0 <= i < |steps| && steps[i] == FindStep(steps, id).value;
      assert Ids(steps)[i] == id;
    }
  }

  ghost predicate IdsOk(steps: seq<Step>) {
    "" !in Ids(steps) && Distinct(Ids(steps))
  }

  predicate RefsOk(g: Graph) {
    forall id :: id in g ==> StepRefsOk(g[id], g)
  }

  // Every component that contains a cycle has at least one capped member.
  ghost predicate ComponentsCapped(g: Graph) {
    forall s :: s in g && ReachesPlus(g, s, s) ==> HasCap(g, s)
  }

  ghost predicate HasCap(g: Graph, s: string) {
    exists m :: m in g && SameComponent(g, s, m) && g[m].maxLoops > 0
  }

  ghost predicate Accepts(steps: seq<Step>) {
    IdsOk(steps) && RefsOk(Index(steps)) && ComponentsCapped(Index(steps))
  }

  // `members` is the component of s, s lies on a cycle, and no member is capped.
  ghost predicate UncappedComponent(g: Graph, s: string, members: set<string>) {
    && s in g && ReachesPlus(g, s, s)
    && (forall id :: id in members <==> SameComponent(g, s, id))
    && (forall id :: id in members && id in g ==> g[id].maxLoops <= 0)
  }

  // What an error value says about the pipeline it was returned for.
  ghost predicate Explains(e: ValidationError, steps: seq<Step>) {
    match e
    case MissingId => "" in Ids(steps)
    case DuplicateId(id) => exists i, j :: 0 <= i < j < |steps| && steps[i].id == id && steps[j].id == id
    case UnknownOnSuccess(id, ref) =>
      IdsOk(steps) && id in Index(steps) && Index(steps)[id].onSuccess == ref && ref != "" && ref !in Index(steps)
    case UnknownOnFail(id, ref) =>
      IdsOk(steps) && id in Index(steps) && Index(steps)[id].onFail == ref && ref != "" && ref !in Index(steps)
    case UncappedCycle(members) =>
      IdsOk(steps) && RefsOk(Index(steps)) && exists s :: UncappedComponent(Index(steps), s, members)
  }

  method ValidateCycles(g: Graph, ids: seq<string>) returns (err: Option<ValidationError>)
    requires forall id :: id in g <==> id in ids
    ensures err.None? <==> ComponentsCapped(g)
    ensures err.Some? ==> err.value.UncappedCycle? && exists s :: UncappedComponent(g, s, err.value.members)
  {
    for i := 0 to |ids|
      invariant forall k :: 0 <= k < i && ReachesPlus(g, ids[k], ids[k]) ==> HasCap(g, ids[k])
    {
      var id := ids[i];
      var cyclic := CanReachItself(g, id);
      if !cyclic {
        continue;
      }
      var members := CycleMembers(g, id);
      var hasCap := exists m :: m in members && m in g && g[m].maxLoops > 0;
      if !hasCap {
        assert UncappedComponent(g, id, members);
        assert id in g && !HasCap(g, id);
        return Some(UncappedCycle(members));
      }
    }
    return None;
  }

  // The loop that fills byID.
  method BuildIndex(steps: seq<Step>) returns (byId: Graph, err: Option<ValidationError>)
    ensures err.None? <==> IdsOk(steps)
    ensures err.None? ==> byId == Index(steps)
    ensures err.Some? ==> (err.value.MissingId? || err.value.DuplicateId?) && Explains(err.value, steps)
  {
    byId := map[];
    for i := 0 to |steps|
      invariant IdsOk(steps[..i])
      invariant byId == Index(steps[..i])
    {
      var s := steps[i];
      assert Ids(steps)[i] == s.id;
      assert steps[..i + 1] == steps[..i] + [s];
      if s.id == "" {
        return byId, Some(MissingId);
      }
      if s.id in byId {
        ghost var k :| 0 <= k < i && Ids(steps[..i])[k] == s.id;
        assert steps[k].id == s.id && Ids(steps)[k] == Ids(steps)[i];
        return byId, Some(DuplicateId(s.id));
      }
      byId := byId[s.id := s];
      IndexGrows(steps[..i], s);
    }
    assert steps[..|steps|] == steps;
    return byId, None;
  }

  predicate StepRefsOk(s: Step, g: Graph) {
    (s.onSuccess == "" || s.onSuccess in g) && (s.onFail == "" || s.onFail in g)
  }

  // The loop over on_success / on_fail references.
  method CheckRefs(steps: seq<Step>, byId: Graph) returns (err: Option<ValidationError>)
    requires IdsOk(steps) && byId == Index(steps)
    ensures err.None? <==> RefsOk(byId)
    ensures err.Some? ==> (err.value.UnknownOnSuccess? || err.value.UnknownOnFail?) && Explains(err.value, steps)
  {
    for i := 0 to |steps|
      invariant forall k :: 0 <= k < i ==> StepRefsOk(byId[Ids(steps)[k]], byId)
    {
      var s := steps[i];
      assert Ids(steps)[i] == s.id;
      UniqueIdIsIndexed(steps, i);
      if s.onSuccess != "" && s.onSuccess !in byId {
        return Some(UnknownOnSuccess(s.id, s.onSuccess));
      }
      if s.onFail != "" && s.onFail !in byId {
        return Some(UnknownOnFail(s.id, s.onFail));
      }
    }
    return None;
  }

  method Validate(p: Option<Workflow>) returns (err: Option<ValidationError>)
    ensures err.None? <==> p.None? || Accepts(p.value.steps)
    ensures err.Some? ==> p.Some? && Explains(err.value, p.value.steps)
  {
    if p.None? {
      return None;
    }
    var byId, idErr := BuildIndex(p.value.steps);
    if idErr.Some? {
      return idErr;
    }
    var refErr := CheckRefs(p.value.steps, byId);
    if refErr.Some? {
      return refErr;
    }
    err := ValidateCycles(byId, Ids(p.value.steps));
  }

  lemma {:induction false} FindInExtended(steps: seq<Step>, s: Step, id: string)
    ensures FindStep(steps + [s], id) ==
            if FindStep(steps, id).Some? then FindStep(steps, id) else if s.id == id then Some(s) else None
  {
    if steps == [] {
      assert (steps + [s])[1..] == [];
    } else {
      assert (steps + [s])[1..] == steps[1..] + [s];
      FindInExtended(steps[1..], s, id);
    }
  }

  lemma IndexGrows(steps: seq<Step>, s: Step)
    requires IdsOk(steps) && s.id != "" && s.id !in Ids(steps)
    ensures IdsOk(steps + [s]) && Index(steps + [s]) == Index(steps)[s.id := s]
  {
    assert Ids(steps + [s]) == Ids(steps) + [s.id];
    forall id | id in Index(steps + [s]) ensures Index(steps + [s])[id] == Index(steps)[s.id := s][id] {
      FindInExtended(steps, s, id);
      FindIffId(steps, id);
    }
  }

  lemma UniqueIdIsIndexed(steps: seq<Step>, i: nat)
    requires IdsOk(steps) && i < |steps|
    ensures steps[i].id in Index(steps) && Index(steps)[steps[i].id] == steps[i]
  {
    assert Ids(steps)[i] == steps[i].id;
    var s := Lookup(steps, steps[i].id);
    var k :| 0 <= k < |steps| && steps[k] == s;
    assert Ids(steps)[k] == s.id;
  }

  // ---- runs ----

  // A run plays a list of outcomes. `spawned` lists the steps the router asked for, in order;
  // `end` is the action that stopped the run, if it stopped.
  datatype Trace = Trace(spawned: seq<string>, end: Option<NextAction>)

  function Bump(loops: map<string, int>, id: string): map<string, int> {
    loops[id := Count(loops, id) + 1]
  }

  function Run(p: Workflow, current: string, loops: map<string, int>, outcomes: seq<string>): Trace
    decreases |outcomes|
  {
    if outcomes == [] then Trace([], None)
    else
      var a := Next(Some(p), current, outcomes[0], loops);
      if a.SpawnStep? then
        var rest := Run(p, a.id, Bump(loops, a.id), outcomes[1..]);
        Trace([a.id] + rest.spawned, rest.end)
      else Trace([], Some(a))
  }

  // The sub-graph of the steps that carry no cap.
  function Uncapped(g: Graph): Graph {
    map id | id in g && g[id].maxLoops <= 0 :: g[id]
  }

  // No cycle runs through uncapped steps alone; a caller can decide it with
  // CanReachItself on Uncapped(g).
  ghost predicate CyclesCapped(g: Graph) {
    forall id :: id in Uncapped(g) ==> !ReachesPlus(Uncapped(g), id, id)
  }

  function Remaining(g: Graph, id: string, loops: map<string, int>): nat {
    if id in g && Count(loops, id) < g[id].maxLoops then
      if g[id].maxLoops > 0 then g[id].maxLoops - Count(loops, id) else 0
    else 0
  }

  // Spawns of capped steps the caps still allow.
  function Budget(g: Graph, ids: seq<string>, loops: map<string, int>): nat {
    if ids == [] then 0 else Remaining(g, ids[0], loops) + Budget(g, ids[1..], loops)
  }

  // The most spawns any run can see: each capped spawn, and at most one visit to each
  // uncapped step before, between and after them.
  function SpawnBound(g: Graph, ids: seq<string>, loops: map<string, int>): nat {
    var u := |Uncapped(g).Keys|;
    Budget(g, ids, loops) * (u + 1) + u
  }

  lemma {:induction false} BudgetUnrelated(g: Graph, ids: seq<string>, loops: map<string, int>, id: string)
    requires id !in ids || (id in g && g[id].maxLoops <= 0)
    ensures Budget(g, ids, Bump(loops, id)) == Budget(g, ids, loops)
  {
    if ids != [] {
      BudgetUnrelated(g, ids[1..], loops, id);
    }
  }

  lemma {:induction false} BudgetSpent(g: Graph, ids: seq<string>, loops: map<string, int>, id: string)
    requires Distinct(ids) && id in ids && Remaining(g, id, loops) > 0
    ensures Budget(g, ids, Bump(loops, id)) == Budget(g, ids, loops) - 1
  {
    if ids[0] == id {
      BudgetUnrelated(g, ids[1..], loops, id);
    } else {
      BudgetSpent(g, ids[1..], loops, id);
    }
  }

  lemma AcyclicWalkDistinct(g: Graph, w: seq<string>)
    requires CyclesCapped(g) && IsWalk(Uncapped(g), w)
    ensures Distinct(w)
  {
    forall i, j | 0 <= i < j < |w| ensures w[i] != w[j] {
      SubWalk(Uncapped(g), w, i, j);
      assert Edge(Uncapped(g), w[i], w[i + 1]);
      assert |w[i..j + 1]| >= 2;
    }
  }

  // A spawn follows an edge of the graph to an existing step with room under its cap.
  lemma SpawnFollowsEdge(p: Workflow, current: string, outcome: string, loops: map<string, int>)
    requires Next(Some(p), current, outcome, loops).SpawnStep?
    ensures var t := Next(Some(p), current, outcome, loops).id;
            var g := Index(p.steps);
            t in g && Edge(g, current, t) && (g[t].maxLoops > 0 ==> Remaining(g, t, loops) > 0)
  {
    var t := Next(Some(p), current, outcome, loops).id;
    FindIffId(p.steps, current);
    FindIffId(p.steps, t);
  }

  // Invariant form: `path` is the uncapped walk the run is on (empty right after a capped step).
  ghost predicate OnPath(g: Graph, current: string, path: seq<string>) {
    if path == [] then current in g && current !in Uncapped(g)
    else IsWalk(Uncapped(g), path) && path[|path| - 1] == current && forall id :: id in path ==> id in Uncapped(g)
  }

  lemma PathGrows(g: Graph, current: string, path: seq<string>, t: string)
    requires OnPath(g, current, path) && Edge(g, current, t) && t in Uncapped(g)
    ensures OnPath(g, t, path + [t])
  {
    if path != [] {
      assert Edge(Uncapped(g), current, t);
      assert IsWalk(Uncapped(g), path + [t]);
    }
  }

  lemma PathFits(g: Graph, current: string, path: seq<string>)
    requires CyclesCapped(g) && OnPath(g, current, path)
    ensures |path| <= |Uncapped(g).Keys|
  {
    if path != [] {
      AcyclicWalkDistinct(g, path);
      DistinctFits(path, Uncapped(g).Keys);
    }
  }

  lemma OneLess(left: int, b: int)
    ensures (left - 1) * b == left * b - b
  {
  }

  lemma UncappedSpawnKeepsBound(g: Graph, ids: seq<string>, loops: map<string, int>, t: string)
    requires t in Uncapped(g)
    ensures SpawnBound(g, ids, Bump(loops, t)) == SpawnBound(g, ids, loops)
  {
    hide Budget, Bump;
    BudgetUnrelated(g, ids, loops, t);
  }

  lemma CappedSpawnDropsBound(g: Graph, ids: seq<string>, loops: map<string, int>, t: string)
    requires Distinct(ids) && t in ids && Remaining(g, t, loops) > 0
    ensures SpawnBound(g, ids, Bump(loops, t)) == SpawnBound(g, ids, loops) - |Uncapped(g).Keys| - 1
  {
    hide Budget, Bump, Remaining, Uncapped;
    BudgetSpent(g, ids, loops, t);
    OneLess(Budget(g, ids, loops), |Uncapped(g).Keys| + 1);
  }

  // Each spawn uses up the bound by at least one.
  lemma BoundDrops(g: Graph, ids: seq<string>, current: string, loops: map<string, int>, path: seq<string>, t: string)
    returns (path': seq<string>)
    requires CyclesCapped(g) && OnPath(g, current, path) && Edge(g, current, t)
    requires Distinct(ids) && t in ids && t in g && (g[t].maxLoops > 0 ==> Remaining(g, t, loops) > 0)
    ensures OnPath(g, t, path')
    ensures SpawnBound(g, ids, Bump(loops, t)) - |path'| < SpawnBound(g, ids, loops) - |path|
  {
    hide SpawnBound, Budget, Bump, Remaining, CyclesCapped;
    if t in Uncapped(g) {
      path' := path + [t];
      PathGrows(g, current, path, t);
      UncappedSpawnKeepsBound(g, ids, loops, t);
    } else {
      path' := [];
      PathFits(g, current, path);
      CappedSpawnDropsBound(g, ids, loops, t);
    }
  }

  lemma PathWithinBound(g: Graph, ids: seq<string>, current: string, loops: map<string, int>, path: seq<string>)
    requires CyclesCapped(g) && OnPath(g, current, path)
    ensures |path| <= SpawnBound(g, ids, loops)
  {
    PathFits(g, current, path);
    MultiplyMonotone(0, Budget(g, ids, loops), |Uncapped(g).Keys| + 1);
  }

  lemma {:induction false} RunWithin(p: Workflow, current: string, loops: map<string, int>, outcomes: seq<string>,
                                     path: seq<string>)
    requires IdsOk(p.steps) && CyclesCapped(Index(p.steps)) && OnPath(Index(p.steps), current, path)
    ensures |Run(p, current, loops, outcomes).spawned| + |path| <= SpawnBound(Index(p.steps), Ids(p.steps), loops)
    decreases |outcomes|
  {
    var g := Index(p.steps);
    PathWithinBound(g, Ids(p.steps), current, loops, path);
    if outcomes != [] {
      var a := Next(Some(p), current, outcomes[0], loops);
      if a.SpawnStep? {
        SpawnFollowsEdge(p, current, outcomes[0], loops);
        var path' := BoundDrops(g, Ids(p.steps), current, loops, path, a.id);
        RunWithin(p, a.id, Bump(loops, a.id), outcomes[1..], path');
      }
    }
  }

  // A run that has not ended has spawned once per outcome.
  lemma {:induction false} UnendedRunSpawns(p: Workflow, current: string, loops: map<string, int>, outcomes: seq<string>)
    ensures var r := Run(p, current, loops, outcomes);
            (r.end.None? ==> |r.spawned| == |outcomes|) && (r.end.Some? ==> !r.end.value.SpawnStep?)
    decreases |outcomes|
  {
    if outcomes != [] {
      var a := Next(Some(p), current, outcomes[0], loops);
      if a.SpawnStep? {
        UnendedRunSpawns(p, a.id, Bump(loops, a.id), outcomes[1..]);
      }
    }
  }

  // An action that ends a run on the pipeline's own terms, not on a missing step.
  predicate ProperEnd(a: NextAction) {
    a.Done? || (a.Blocked? && (a.reason.NoFailRoute? || a.reason.LoopCapReached?))
  }

  lemma NextFindsSteps(p: Workflow, current: string, outcome: string, loops: map<string, int>)
    requires RefsOk(Index(p.steps)) && current in Index(p.steps)
    ensures var a := Next(Some(p), current, outcome, loops); a.SpawnStep? || ProperEnd(a)
  {
    FindIffId(p.steps, current);
    var s := Index(p.steps)[current];
    FindIffId(p.steps, s.onSuccess);
    FindIffId(p.steps, s.onFail);
  }

  lemma {:induction false} NeverNotFound(p: Workflow, current: string, loops: map<string, int>, outcomes: seq<string>)
    requires RefsOk(Index(p.steps)) && current in Index(p.steps)
    ensures var end := Run(p, current, loops, outcomes).end; end.Some? ==> ProperEnd(end.value)
    decreases |outcomes|
  {
    if outcomes != [] {
      NextFindsSteps(p, current, outcomes[0], loops);
      var a := Next(Some(p), current, outcomes[0], loops);
      if a.SpawnStep? {
        SpawnFollowsEdge(p, current, outcomes[0], loops);
        NeverNotFound(p, a.id, Bump(loops, a.id), outcomes[1..]);
      }
    }
  }

  // A capped step is spawned no more often than its cap still allows, on any pipeline.
  lemma {:induction false} CapRespected(p: Workflow, current: string, loops: map<string, int>, outcomes: seq<string>,
                                        id: string)
    requires id in Index(p.steps) && Index(p.steps)[id].maxLoops > 0
    ensures multiset(Run(p, current, loops, outcomes).spawned)[id] <= Remaining(Index(p.steps), id, loops)
    decreases |outcomes|
  {
    if outcomes != [] {
      var a := Next(Some(p), current, outcomes[0], loops);
      if a.SpawnStep? {
        SpawnFollowsEdge(p, current, outcomes[0], loops);
        CapRespected(p, a.id, Bump(loops, a.id), outcomes[1..], id);
      }
    }
  }

  // Any outcome list longer than the bound sees the run end in Done or in an honest Blocked.
  lemma CappedCyclesTerminate(p: Workflow, start: string, loops: map<string, int>, outcomes: seq<string>)
    requires IdsOk(p.steps) && RefsOk(Index(p.steps)) && CyclesCapped(Index(p.steps)) && start in Index(p.steps)
    ensures var r := Run(p, start, loops, outcomes);
            && |r.spawned| <= SpawnBound(Index(p.steps), Ids(p.steps), loops)
            && (|outcomes| > SpawnBound(Index(p.steps), Ids(p.steps), loops) ==> r.end.Some? && ProperEnd(r.end.value))
  {
    hide Run, SpawnBound, RefsOk, CyclesCapped, IdsOk, ProperEnd;
    var path := if start in Uncapped(Index(p.steps)) then [start] else [];
    RunWithin(p, start, loops, outcomes, path);
    UnendedRunSpawns(p, start, loops, outcomes);
    NeverNotFound(p, start, loops, outcomes);
  }

  // ---- runs that never end ----

  // The outcome that takes the edge a -> b.
  function OutcomeFor(g: Graph, a: string, b: string): string
    requires a in g
  {
    if g[a].onSuccess == b then OUTCOME_SUCCESS else OUTCOME_FAIL
  }

  lemma UncappedEdgeSpawns(p: Workflow, a: string, b: string, loops: map<string, int>)
    requires Edge(Index(p.steps), a, b) && b in Uncapped(Index(p.steps))
    ensures Next(Some(p), a, OutcomeFor(Index(p.steps), a, b), loops) == SpawnStep(b)
  {
    FindIffId(p.steps, a);
    FindIffId(p.steps, b);
    assert Neighbors(Index(p.steps)[a]) == Neighbors(Lookup(p.steps, a));
  }

  // A node that reaches a cycle has a successor that still reaches it.
  lemma CycleGoesOn(g: Graph, a: string, s: string) returns (b: string)
    requires ReachesPlus(g, s, s) && Reaches(g, a, s)
    ensures Edge(g, a, b) && Reaches(g, b, s) && b in g
  {
    var w: seq<string>;
    if a == s {
      w :| WalkFrom(g, s, s, w) && |w| >= 2;
    } else {
      w :| WalkFrom(g, a, s, w);
    }
    b := w[1];
    assert Edge(g, w[0], w[1]);
    SubWalk(g, w, 1, |w| - 1);
    var c :| WalkFrom(g, s, s, c) && |c| >= 2;
    assert Edge(g, c[0], c[1]);
    if b != s {
      assert |w| > 2;
      assert Edge(g, w[1], w[2]);
    }
  }

  lemma SpinOnce(p: Workflow, a: string, s: string, loops: map<string, int>) returns (o: string, b: string)
    requires ReachesPlus(Uncapped(Index(p.steps)), s, s) && Reaches(Uncapped(Index(p.steps)), a, s)
    ensures Next(Some(p), a, o, loops) == SpawnStep(b) && Reaches(Uncapped(Index(p.steps)), b, s)
  {
    var g := Index(p.steps);
    b := CycleGoesOn(Uncapped(g), a, s);
    assert Edge(g, a, b);
    UncappedEdgeSpawns(p, a, b, loops);
    o := OutcomeFor(g, a, b);
  }

  // On an uncapped cycle some list of n outcomes makes the router spawn n times, for every n
  // and whatever the loop counters say.
  lemma {:induction false} CycleSpins(p: Workflow, a: string, s: string, loops: map<string, int>, n: nat)
    returns (outcomes: seq<string>)
    requires ReachesPlus(Uncapped(Index(p.steps)), s, s) && Reaches(Uncapped(Index(p.steps)), a, s)
    ensures |outcomes| == n && |Run(p, a, loops, outcomes).spawned| == n
    decreases n
  {
    outcomes := [];
    if n > 0 {
      var o, b := SpinOnce(p, a, s, loops);
      var rest := CycleSpins(p, b, s, Bump(loops, b), n - 1);
      outcomes := [o] + rest;
      assert outcomes[1..] == rest;
    }
  }

  ghost predicate BoundedBy(p: Workflow, bound: nat) {
    forall s, outcomes :: s in Index(p.steps) ==> |Run(p, s, map[s := 1], outcomes).spawned| <= bound
  }

  // One bound holds for every run of the pipeline; its first step counts as one spawn.
  ghost predicate RunsBounded(p: Workflow) {
    exists bound: nat :: BoundedBy(p, bound)
  }

  lemma {:induction false} BudgetWithinCaps(g: Graph, ids: seq<string>, loops: map<string, int>)
    requires forall id :: id in loops ==> loops[id] >= 0
    ensures Budget(g, ids, loops) <= Budget(g, ids, map[])
  {
    if ids != [] {
      BudgetWithinCaps(g, ids[1..], loops);
    }
  }

  lemma MultiplyMonotone(a: nat, b: nat, c: nat)
    requires a <= b
    ensures a * c <= b * c
  {
  }

  lemma BoundWithinCaps(g: Graph, ids: seq<string>, loops: map<string, int>)
    requires forall id :: id in loops ==> loops[id] >= 0
    ensures SpawnBound(g, ids, loops) <= SpawnBound(g, ids, map[])
  {
    BudgetWithinCaps(g, ids, loops);
    MultiplyMonotone(Budget(g, ids, loops), Budget(g, ids, map[]), |Uncapped(g).Keys| + 1);
  }

  lemma CappedRunsBounded(p: Workflow)
    requires IdsOk(p.steps) && RefsOk(Index(p.steps)) && CyclesCapped(Index(p.steps))
    ensures BoundedBy(p, SpawnBound(Index(p.steps), Ids(p.steps), map[]))
  {
    var g, ids := Index(p.steps), Ids(p.steps);
    forall s, outcomes | s in g ensures |Run(p, s, map[s := 1], outcomes).spawned| <= SpawnBound(g, ids, map[]) {
      var loops := map[s := 1];
      CappedCyclesTerminate(p, s, loops, outcomes);
      BoundWithinCaps(g, ids, loops);
    }
  }

  lemma UncappedCycleUnbounded(p: Workflow, s: string)
    requires s in Index(p.steps) && ReachesPlus(Uncapped(Index(p.steps)), s, s)
    ensures !RunsBounded(p)
  {
    ReachesSelf(Uncapped(Index(p.steps)), s);
    forall bound: nat ensures !BoundedBy(p, bound) {
      var outcomes := CycleSpins(p, s, s, map[s := 1], bound + 1);
      assert |Run(p, s, map[s := 1], outcomes).spawned| > bound;
    }
  }

  // Runs are bounded exactly when every cycle holds a capped step.
  lemma RunsBoundedIff(p: Workflow)
    requires IdsOk(p.steps) && RefsOk(Index(p.steps))
    ensures RunsBounded(p) <==> CyclesCapped(Index(p.steps))
  {
    if CyclesCapped(Index(p.steps)) {
      CappedRunsBounded(p);
    } else {
      var s :| s in Uncapped(Index(p.steps)) && ReachesPlus(Uncapped(Index(p.steps)), s, s);
      UncappedCycleUnbounded(p, s);
    }
  }

  // ---- the validator against the runs ----

  // An uncapped component that holds a cycle holds a cycle of uncapped steps.
  lemma UncappedComponentSpins(g: Graph, s: string)
    requires s in g && ReachesPlus(g, s, s) && !HasCap(g, s)
    ensures ReachesPlus(Uncapped(g), s, s)
  {
    var w :| WalkFrom(g, s, s, w) && |w| >= 2;
    forall i | 0 <= i < |w| - 1 ensures Edge(Uncapped(g), w[i], w[i + 1]) {
      assert Edge(g, w[i], w[i + 1]);
      SubWalk(g, w, 0, i);
      SubWalk(g, w, i, |w| - 1);
      assert SameComponent(g, s, w[i]);
    }
    assert WalkFrom(Uncapped(g), s, s, w);
  }

  // A pipeline rejected for its cycles really can spawn forever.
  lemma CycleRejectionIsGenuine(p: Workflow)
    requires !ComponentsCapped(Index(p.steps))
    ensures !RunsBounded(p)
  {
    var g := Index(p.steps);
    var s :| s in g && ReachesPlus(g, s, s) && !HasCap(g, s);
    UncappedComponentSpins(g, s);
    UncappedCycleUnbounded(p, s);
  }

  // Every pipeline whose runs are bounded passes validation; EndlessYetAccepted shows the
  // converse fails.
  lemma BoundedRunsAreAccepted(p: Workflow)
    requires IdsOk(p.steps) && RefsOk(Index(p.steps)) && RunsBounded(p)
    ensures Accepts(p.steps)
  {
    if !ComponentsCapped(Index(p.steps)) {
      CycleRejectionIsGenuine(p);
    }
  }

  // The rule the source's comments state: each cyclic walk meets a capped step.
  ghost predicate EveryCycleMeetsCap(g: Graph) {
    forall w :: IsWalk(g, w) && |w| >= 2 && w[0] == w[|w| - 1] ==> MeetsCap(g, w)
  }

  ghost predicate MeetsCap(g: Graph, w: seq<string>) {
    exists i :: 0 <= i < |w| && w[i] in g && g[w[i]].maxLoops > 0
  }

  lemma CyclesCappedIff(g: Graph)
    ensures CyclesCapped(g) <==> EveryCycleMeetsCap(g)
  {
    if !EveryCycleMeetsCap(g) {
      var w :| IsWalk(g, w) && |w| >= 2 && w[0] == w[|w| - 1] && !MeetsCap(g, w);
      forall i | 0 <= i < |w| - 1 ensures Edge(Uncapped(g), w[i], w[i + 1]) {
        assert Edge(g, w[i], w[i + 1]);
      }
      assert WalkFrom(Uncapped(g), w[0], w[0], w) && Edge(Uncapped(g), w[0], w[1]);
    }
    if !CyclesCapped(g) {
      var id :| id in Uncapped(g) && ReachesPlus(Uncapped(g), id, id);
      var w :| WalkFrom(Uncapped(g), id, id, w) && |w| >= 2;
      forall i | 0 <= i < |w| - 1 ensures Edge(g, w[i], w[i + 1]) && w[i] in Uncapped(g) {
        assert Edge(Uncapped(g), w[i], w[i + 1]);
      }
      assert IsWalk(g, w) && !MeetsCap(g, w);
    }
  }

  // One capped member anywhere in the component is enough for the validator:
  // A and B call each other forever, C carries the cap.
  const LOOPHOLE := Workflow([
    Step("A", "A", "B", "", 0),
    Step("B", "B", "A", "C", 0),
    Step("C", "C", "A", "", 1)])

  lemma EndlessYetAccepted()
    ensures Accepts(LOOPHOLE.steps) && !RunsBounded(LOOPHOLE)
  {
    LoopholeIndex();
    var g := Index(LOOPHOLE.steps);
    LoopholeComponent(g);
    LoopholeCycle(Uncapped(g));
    UncappedCycleUnbounded(LOOPHOLE, "A");
  }

  ghost predicate IsLoophole(g: Graph) {
    g.Keys == {"A", "B", "C"} && g["A"] == LOOPHOLE.steps[0] && g["B"] == LOOPHOLE.steps[1] && g["C"] == LOOPHOLE.steps[2]
  }

  lemma LoopholeIndex()
    ensures IdsOk(LOOPHOLE.steps) && IsLoophole(Index(LOOPHOLE.steps)) && RefsOk(Index(LOOPHOLE.steps))
  {
    var steps := LOOPHOLE.steps;
    assert Ids(steps) == ["A", "B", "C"];
    assert "A" != "B" && "B" != "C" && "A" != "C" by {
      assert "A"[0] != "B"[0] && "B"[0] != "C"[0] && "A"[0] != "C"[0];
    }
    UniqueIdIsIndexed(steps, 0);
    UniqueIdIsIndexed(steps, 1);
    UniqueIdIsIndexed(steps, 2);
  }

  lemma LoopholeCycle(u: Graph)
    requires u.Keys == {"A", "B"} && u["A"] == LOOPHOLE.steps[0] && u["B"] == LOOPHOLE.steps[1]
    ensures ReachesPlus(u, "A", "A")
  {
    assert Neighbors(u["A"])[0] == "B" && Neighbors(u["B"])[0] == "A";
    assert Edge(u, "A", "B") && Edge(u, "B", "A");
    assert WalkFrom(u, "A", "A", ["A", "B", "A"]);
  }

  lemma LoopholeComponent(g: Graph)
    requires IsLoophole(g)
    ensures ComponentsCapped(g)
  {
    assert Neighbors(g["A"])[0] == "B" && Neighbors(g["B"])[1] == "C" && Neighbors(g["C"])[0] == "A";
    assert Edge(g, "A", "B") && Edge(g, "B", "C") && Edge(g, "C", "A");
    assert WalkFrom(g, "A", "C", ["A", "B", "C"]) && WalkFrom(g, "C", "A", ["C", "A"]);
    assert WalkFrom(g, "B", "C", ["B", "C"]) && WalkFrom(g, "C", "B", ["C", "A", "B"]);
    ReachesSelf(g, "C");
    assert SameComponent(g, "A", "C") && SameComponent(g, "B", "C") && SameComponent(g, "C", "C");
  }
}
