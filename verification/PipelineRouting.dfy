// What the router answers for a step and its outcome, and why a run ends (internal/pipeline/driver.go).
module PipelineRouting {
  import opened Options
  import opened StepGraph
  import opened Pipeline

  // The first step of an id.
  ghost predicate StepOf(p: Workflow, id: string, s: Step) {
    exists i :: 0 <= i < |p.steps| && p.steps[i] == s && s.id == id && forall j :: 0 <= j < i ==> p.steps[j].id != id
  }

  ghost predicate NoStep(p: Workflow, id: string) {
    forall i :: 0 <= i < |p.steps| ==> p.steps[i].id != id
  }

  lemma {:induction false} FindIs(steps: seq<Step>, id: string)
    ensures FindStep(steps, id).Some? ==> StepOf(Workflow(steps), id, FindStep(steps, id).value)
    ensures FindStep(steps, id).None? ==> NoStep(Workflow(steps), id)
  {
    if steps != [] {
      if steps[0].id == id {
        assert StepOf(Workflow(steps), id, steps[0]);
      } else {
        FindIs(steps[1..], id);
        assert forall i :: 0 < i < |steps| ==> steps[i] == steps[1..][i - 1];
        if FindStep(steps[1..], id).Some? {
          var s := FindStep(steps[1..], id).value;
          var i :| 0 <= i < |steps[1..]| && steps[1..][i] == s && s.id == id && forall j :: 0 <= j < i ==> steps[1..][j].id != id;
          assert steps[i + 1] == s;
        }
      }
    }
  }

  lemma OneStep(p: Workflow, id: string, s: Step)
    requires StepOf(p, id, s)
    ensures FindStep(p.steps, id) == Some(s) && !NoStep(p, id)
  {
    FindIs(p.steps, id);
  }

  // Where a step goes on: by its success route on "success", by its fail route on anything else.
  function Route(s: Step, outcome: string): string {
    if outcome == "success" then s.onSuccess else s.onFail
  }

  function Spawned(loops: map<string, int>, id: string): int {
    if id in loops then loops[id] else 0
  }

  // Without a pipeline the run is done. Otherwise: a step that is not there, or a route to one, blocks; a
  // blank route ends the run, done unless the outcome was "fail"; a capped target blocks exactly when it
  // has been spawned as often as its cap allows, and else the target is spawned.
  lemma NextIs(p: Workflow, current: string, outcome: string, loops: map<string, int>)
    ensures Next(None, current, outcome, loops) == Done
    ensures NoStep(p, current) ==> Next(Some(p), current, outcome, loops) == Blocked(StepNotFound(current))
    ensures forall s :: StepOf(p, current, s) ==> Routed(p, s, outcome, loops, Next(Some(p), current, outcome, loops))
  {
    FindIs(p.steps, current);
    forall s | StepOf(p, current, s) ensures Routed(p, s, outcome, loops, Next(Some(p), current, outcome, loops)) {
      OneStep(p, current, s);
      FindIs(p.steps, Route(s, outcome));
      forall t | StepOf(p, Route(s, outcome), t) ensures FindStep(p.steps, Route(s, outcome)) == Some(t) {
        OneStep(p, Route(s, outcome), t);
      }
    }
  }

  ghost predicate Routed(p: Workflow, s: Step, outcome: string, loops: map<string, int>, a: NextAction) {
    var target := Route(s, outcome);
    && (target == "" ==> a == if outcome == "fail" then Blocked(NoFailRoute(s.name)) else Done)
    && (target != "" && NoStep(p, target) ==> a == Blocked(TargetNotFound(target)))
    && forall t :: target != "" && StepOf(p, target, t) ==>
         a == if t.maxLoops > 0 && Spawned(loops, target) >= t.maxLoops
              then Blocked(LoopCapReached(t.name, t.maxLoops)) else SpawnStep(target)
  }

  // ---- why a run ends ----

  // The step a run stands at after n spawns.
  function StandsAt(start: string, spawned: seq<string>): string {
    if spawned == [] then start else spawned[|spawned| - 1]
  }

  function Times(spawned: seq<string>, id: string): int {
    multiset(spawned)[id]
  }

  // The counters after the spawns.
  ghost predicate Counted(before: map<string, int>, spawned: seq<string>, after: map<string, int>) {
    forall id :: Spawned(after, id) == Spawned(before, id) + Times(spawned, id)
  }

  lemma {:induction false} NextCounts(p: Workflow, current: string, outcome: string, a: map<string, int>, b: map<string, int>)
    requires forall id :: Spawned(a, id) == Spawned(b, id)
    ensures Next(Some(p), current, outcome, a) == Next(Some(p), current, outcome, b)
  {
    var found := FindStep(p.steps, current);
    if found.Some? {
      var target := Route(found.value, outcome);
      assert Count(a, target) == Spawned(a, target) && Count(b, target) == Spawned(b, target);
    }
  }

  // A run spawns, one after the other, what the router answers for the steps it stands at, and ends with
  // the first answer that is no spawn: the counters are those it was started with and one more for each
  // spawn of a step.
  lemma {:induction false} RunIs(p: Workflow, start: string, loops: map<string, int>, outcomes: seq<string>, k: nat, now: map<string, int>)
    requires var r := Run(p, start, loops, outcomes);
             k <= |r.spawned| && k < |outcomes| && Counted(loops, r.spawned[..k], now)
    ensures var r := Run(p, start, loops, outcomes);
            var a := Next(Some(p), StandsAt(start, r.spawned[..k]), outcomes[k], now);
            && (k < |r.spawned| ==> a == SpawnStep(r.spawned[k]))
            && (k == |r.spawned| ==> r.end == Some(a) && !a.SpawnStep?)
    decreases k
  {
    hide Next;
    var r := Run(p, start, loops, outcomes);
    if k == 0 {
      assert r.spawned[..0] == [];
      SameCounts(loops, now);
      NextCounts(p, start, outcomes[0], loops, now);
    } else {
      var id := Next(Some(p), start, outcomes[0], loops).id;
      var rest := Run(p, id, Bump(loops, id), outcomes[1..]);
      assert r.spawned == [id] + rest.spawned;
      assert r.spawned[..k] == [id] + rest.spawned[..k - 1];
      assert StandsAt(start, r.spawned[..k]) == StandsAt(id, rest.spawned[..k - 1]);
      CountsAfterFirst(loops, id, rest.spawned[..k - 1], now);
      RunIs(p, id, Bump(loops, id), outcomes[1..], k - 1, now);
    }
  }

  lemma SameCounts(a: map<string, int>, b: map<string, int>)
    requires Counted(a, [], b)
    ensures forall id :: Spawned(a, id) == Spawned(b, id)
  {
    forall id ensures Spawned(a, id) == Spawned(b, id) {
      assert Times([], id) == 0;
    }
  }

  lemma CountsAfterFirst(loops: map<string, int>, first: string, rest: seq<string>, now: map<string, int>)
    requires Counted(loops, [first] + rest, now)
    ensures Counted(Bump(loops, first), rest, now)
  {
    forall id ensures Spawned(now, id) == Spawned(Bump(loops, first), id) + Times(rest, id) {
      assert Times([first] + rest, id) == (if id == first then 1 else 0) + Times(rest, id);
    }
  }

  // ---- what validation accepts ----

  ghost predicate Declared(steps: seq<Step>, id: string) {
    exists i :: 0 <= i < |steps| && steps[i].id == id
  }

  // Each step of the route leads to the next by its success or its fail route.
  ghost predicate Leads(steps: seq<Step>, route: seq<nat>) {
    && route != [] && (forall k :: 0 <= k < |route| ==> route[k] < |steps|)
    && forall k :: 0 <= k < |route| - 1 ==> LeadsTo(steps, route[k], route[k + 1])
  }

  ghost predicate LeadsTo(steps: seq<Step>, i: nat, j: nat)
    requires i < |steps| && j < |steps|
  {
    steps[j].id != "" && (steps[i].onSuccess == steps[j].id || steps[i].onFail == steps[j].id)
  }

  ghost predicate LeadsFrom(steps: seq<Step>, i: nat, j: nat, route: seq<nat>) {
    Leads(steps, route) && route[0] == i && route[|route| - 1] == j
  }

  // A capped step that lies on a common cycle with step i, or is step i.
  ghost predicate CappedBeside(steps: seq<Step>, i: nat, j: nat) {
    && j < |steps| && steps[j].maxLoops > 0
    && (exists there :: LeadsFrom(steps, i, j, there)) && (exists back :: LeadsFrom(steps, j, i, back))
  }

  ghost predicate WellFormed(steps: seq<Step>) {
    && (forall i :: 0 <= i < |steps| ==> steps[i].id != "")
    && (forall i, j :: 0 <= i < j < |steps| ==> steps[i].id != steps[j].id)
    && forall i :: 0 <= i < |steps| ==> RoutesDeclared(steps, steps[i])
  }

  ghost predicate RoutesDeclared(steps: seq<Step>, s: Step) {
    (s.onSuccess == "" || Declared(steps, s.onSuccess)) && (s.onFail == "" || Declared(steps, s.onFail))
  }

  ghost predicate CyclesBesideCap(steps: seq<Step>) {
    forall i: nat, round :: LeadsFrom(steps, i, i, round) && |round| >= 2 ==> exists j :: CappedBeside(steps, i, j)
  }

  lemma IdsOkIff(steps: seq<Step>)
    ensures IdsOk(steps) <==>
            (forall i :: 0 <= i < |steps| ==> steps[i].id != "")
            && (forall i, j :: 0 <= i < j < |steps| ==> steps[i].id != steps[j].id)
  {
    assert forall i :: 0 <= i < |steps| ==> Ids(steps)[i] == steps[i].id;
  }

  lemma DeclaredIff(steps: seq<Step>, id: string)
    ensures id in Index(steps) <==> Declared(steps, id)
  {
    assert forall i :: 0 <= i < |steps| ==> Ids(steps)[i] == steps[i].id;
  }

  lemma RefsOkIff(steps: seq<Step>)
    requires IdsOk(steps)
    ensures RefsOk(Index(steps)) <==> forall i :: 0 <= i < |steps| ==> RoutesDeclared(steps, steps[i])
  {
    var g := Index(steps);
    forall s: Step ensures StepRefsOk(s, g) <==> RoutesDeclared(steps, s) {
      DeclaredIff(steps, s.onSuccess);
      DeclaredIff(steps, s.onFail);
    }
    forall i | 0 <= i < |steps| ensures steps[i].id in g && g[steps[i].id] == steps[i] {
      UniqueIdIsIndexed(steps, i);
    }
    forall id | id in g ensures exists i :: 0 <= i < |steps| && g[id] == steps[i] {
      DeclaredIff(steps, id);
      var i :| 0 <= i < |steps| && steps[i].id == id;
      UniqueIdIsIndexed(steps, i);
    }
  }

  // Walks over the index and routes over the list are the same.
  function IdAt(steps: seq<Step>, i: nat): string {
    if i < |steps| then steps[i].id else ""
  }

  function IdsOn(steps: seq<Step>, route: seq<nat>): (w: seq<string>)
    ensures |w| == |route| && forall k :: 0 <= k < |w| ==> w[k] == IdAt(steps, route[k])
  {
    seq(|route|, k requires 0 <= k < |route| => IdAt(steps, route[k]))
  }

  lemma EdgeIff(steps: seq<Step>, i: nat, j: nat)
    requires IdsOk(steps) && i < |steps| && j < |steps|
    ensures Edge(Index(steps), steps[i].id, steps[j].id) <==> LeadsTo(steps, i, j)
  {
    UniqueIdIsIndexed(steps, i);
    IdsOkIff(steps);
    var s, id := steps[i], steps[j].id;
    assert id in Neighbors(s) <==> id != "" && (s.onSuccess == id || s.onFail == id) by {
      if s.onSuccess == id && id != "" {
        assert Neighbors(s)[0] == id;
      } else if s.onFail == id && id != "" {
        assert Neighbors(s)[|Neighbors(s)| - 1] == id;
      }
    }
  }

  lemma RouteWalks(steps: seq<Step>, i: nat, j: nat, route: seq<nat>)
    requires IdsOk(steps) && LeadsFrom(steps, i, j, route)
    ensures i < |steps| && j < |steps| && WalkFrom(Index(steps), steps[i].id, steps[j].id, IdsOn(steps, route))
  {
    hide Index, LeadsTo;
    var w := IdsOn(steps, route);
    forall k | 0 <= k < |w| - 1 ensures Edge(Index(steps), w[k], w[k + 1]) {
      assert LeadsTo(steps, route[k], route[k + 1]);
      EdgeIff(steps, route[k], route[k + 1]);
    }
  }

  lemma LeadsCons(steps: seq<Step>, i: nat, rest: seq<nat>)
    requires Leads(steps, rest) && i < |steps| && LeadsTo(steps, i, rest[0])
    ensures Leads(steps, [i] + rest) && IdsOn(steps, [i] + rest) == [steps[i].id] + IdsOn(steps, rest)
  {
    hide LeadsTo;
    var route := [i] + rest;
    forall k | 0 <= k < |route| - 1 ensures LeadsTo(steps, route[k], route[k + 1]) {
      if k > 0 {
        assert route[k] == rest[k - 1] && route[k + 1] == rest[k];
        assert LeadsTo(steps, rest[k - 1], rest[k - 1 + 1]);
      }
    }
  }

  lemma LeadsAlone(steps: seq<Step>, i: nat)
    requires i < |steps|
    ensures Leads(steps, [i]) && IdsOn(steps, [i]) == [steps[i].id]
  {
  }

  lemma WalkTail(g: Graph, w: seq<string>)
    requires IsWalk(g, w) && |w| > 1
    ensures IsWalk(g, w[1..]) && Edge(g, w[0], w[1])
  {
    var rest := w[1..];
    forall k | 0 <= k < |rest| - 1 ensures Edge(g, rest[k], rest[k + 1]) {
      assert Edge(g, w[k + 1], w[k + 1 + 1]);
    }
  }

  lemma {:induction false} WalkRoutes(steps: seq<Step>, i: nat, w: seq<string>) returns (route: seq<nat>)
    requires IdsOk(steps) && RefsOk(Index(steps)) && i < |steps| && IsWalk(Index(steps), w) && w[0] == steps[i].id
    ensures Leads(steps, route) && route[0] == i && |route| == |w| && IdsOn(steps, route) == w
    decreases |w|
  {
    hide Index, LeadsTo, Leads, IdsOk, RefsOk, Edge, IdsOn;
    if |w| == 1 {
      route := [i];
      LeadsAlone(steps, i);
      assert w == [w[0]];
    } else {
      assert |w| > 1 by {
        WalkLength(Index(steps), w);
      }
      var j := NextPlace(steps, i, w[1], w);
      WalkTail(Index(steps), w);
      var rest := WalkRoutes(steps, j, w[1..]);
      EdgeIff(steps, i, j);
      LeadsCons(steps, i, rest);
      route := [i] + rest;
      assert w == [w[0]] + w[1..];
    }
  }

  lemma NextPlace(steps: seq<Step>, i: nat, id: string, w: seq<string>) returns (j: nat)
    requires IdsOk(steps) && RefsOk(Index(steps)) && i < |steps| && IsWalk(Index(steps), w) && |w| > 1
    requires w[0] == steps[i].id && id == w[1]
    ensures j < |steps| && steps[j].id == id
  {
    assert Edge(Index(steps), w[0], w[1]);
    UniqueIdIsIndexed(steps, i);
    assert StepRefsOk(steps[i], Index(steps));
    DeclaredIff(steps, id);
    var k :| 0 <= k < |steps| && steps[k].id == id;
    j := k;
  }

  lemma LeadsIff(steps: seq<Step>, i: nat, j: nat)
    requires IdsOk(steps) && RefsOk(Index(steps)) && i < |steps| && j < |steps|
    ensures Reaches(Index(steps), steps[i].id, steps[j].id) <==> exists route :: LeadsFrom(steps, i, j, route)
    ensures ReachesPlus(Index(steps), steps[i].id, steps[j].id) <==> exists route :: LeadsFrom(steps, i, j, route) && |route| >= 2
  {
    hide Index, IsWalk, Leads;
    IdsOkIff(steps);
    forall route | LeadsFrom(steps, i, j, route)
      ensures exists w :: WalkFrom(Index(steps), steps[i].id, steps[j].id, w) && |w| == |route|
    {
      RouteWalks(steps, i, j, route);
      assert |IdsOn(steps, route)| == |route|;
    }
    forall w | WalkFrom(Index(steps), steps[i].id, steps[j].id, w)
      ensures exists route :: LeadsFrom(steps, i, j, route) && |route| == |w|
    {
      assert w != [] by {
        WalkLength(Index(steps), w);
      }
      var route := WalkRoutes(steps, i, w);
      LastPlace(steps, route, w, j);
      assert LeadsFrom(steps, i, j, route);
    }
  }

  lemma WalkLength(g: Graph, w: seq<string>)
    requires IsWalk(g, w)
    ensures |w| >= 1
  {
  }

  lemma LastPlace(steps: seq<Step>, route: seq<nat>, w: seq<string>, j: nat)
    requires IdsOk(steps) && Leads(steps, route) && IdsOn(steps, route) == w && j < |steps| && w != [] && w[|w| - 1] == steps[j].id
    ensures route[|route| - 1] == j
  {
    IdsOkIff(steps);
    var k := route[|route| - 1];
    assert steps[k].id == steps[j].id;
    assert !(k < j) && !(j < k);
  }

  lemma HasCapIff(steps: seq<Step>, i: nat)
    requires IdsOk(steps) && RefsOk(Index(steps)) && i < |steps|
    ensures HasCap(Index(steps), steps[i].id) <==> exists j :: CappedBeside(steps, i, j)
  {
    hide Index, LeadsFrom, Reaches, RefsOk, IdsOk;
    var g := Index(steps);
    if HasCap(g, steps[i].id) {
      var m :| m in g && SameComponent(g, steps[i].id, m) && g[m].maxLoops > 0;
      NamedStep(steps, m);
      var j: nat :| j < |steps| && steps[j].id == m && g[m] == steps[j];
      LeadsIff(steps, i, j);
      LeadsIff(steps, j, i);
      assert CappedBeside(steps, i, j);
    }
    if j: nat :| CappedBeside(steps, i, j) {
      UniqueIdIsIndexed(steps, j);
      LeadsIff(steps, i, j);
      LeadsIff(steps, j, i);
      assert SameComponent(g, steps[i].id, steps[j].id);
    }
  }

  lemma CappedIff(steps: seq<Step>)
    requires IdsOk(steps) && RefsOk(Index(steps))
    ensures ComponentsCapped(Index(steps)) <==> CyclesBesideCap(steps)
  {
    hide Index, LeadsFrom, Reaches, ReachesPlus, RefsOk, IdsOk, HasCap, CappedBeside;
    var g := Index(steps);
    if CyclesBesideCap(steps) {
      forall s | s in g && ReachesPlus(g, s, s) ensures HasCap(g, s) {
        NamedStep(steps, s);
        var i: nat :| i < |steps| && steps[i].id == s && g[s] == steps[i];
        LeadsIff(steps, i, i);
        HasCapIff(steps, i);
      }
    }
    if ComponentsCapped(g) {
      forall i: nat, round | LeadsFrom(steps, i, i, round) && |round| >= 2 ensures exists j :: CappedBeside(steps, i, j) {
        RoundWithin(steps, i, round);
        LeadsIff(steps, i, i);
        UniqueIdIsIndexed(steps, i);
        HasCapIff(steps, i);
      }
    }
  }

  lemma RoundWithin(steps: seq<Step>, i: nat, round: seq<nat>)
    requires LeadsFrom(steps, i, i, round)
    ensures i < |steps|
  {
  }

  // Validation accepts exactly the pipelines whose ids are there and differ, whose routes lead to
  // declared steps, and in which every step that can come back to itself has a capped step beside it, on
  // a cycle with it.
  lemma AcceptsIff(steps: seq<Step>)
    ensures Accepts(steps) <==> WellFormed(steps) && CyclesBesideCap(steps)
  {
    hide Index, RefsOk, ComponentsCapped, CyclesBesideCap, RoutesDeclared, IdsOk;
    IdsOkIff(steps);
    if IdsOk(steps) {
      RefsOkIff(steps);
      if RefsOk(Index(steps)) {
        CappedIff(steps);
      }
    }
  }

  // What a rejection names: a step without id, an id met twice, a success or fail route of a declared
  // step to one that is not, or steps that lie on a cycle with each other and are all uncapped.
  lemma RejectionMeans(e: ValidationError, steps: seq<Step>)
    requires Explains(e, steps)
    ensures match e
            case MissingId => exists i :: 0 <= i < |steps| && steps[i].id == ""
            case DuplicateId(id) => exists i, j :: 0 <= i < j < |steps| && steps[i].id == id && steps[j].id == id
            case UnknownOnSuccess(id, ref) =>
              exists i :: 0 <= i < |steps| && steps[i].id == id && steps[i].onSuccess == ref && ref != "" && !Declared(steps, ref)
            case UnknownOnFail(id, ref) =>
              exists i :: 0 <= i < |steps| && steps[i].id == id && steps[i].onFail == ref && ref != "" && !Declared(steps, ref)
            case UncappedCycle(members) => !CyclesBesideCap(steps) && exists i: nat :: UncappedRound(steps, i, members)
  {
    match e
    case MissingId =>
      var i :| 0 <= i < |Ids(steps)| && Ids(steps)[i] == "";
      assert steps[i].id == "";
    case DuplicateId(id) =>
    case UnknownOnSuccess(id, ref) => NamedStep(steps, id); DeclaredIff(steps, ref);
    case UnknownOnFail(id, ref) => NamedStep(steps, id); DeclaredIff(steps, ref);
    case UncappedCycle(members) => UncappedMeans(steps, members);
  }

  lemma NamedStep(steps: seq<Step>, id: string)
    requires IdsOk(steps) && id in Index(steps)
    ensures exists i :: 0 <= i < |steps| && steps[i].id == id && Index(steps)[id] == steps[i]
  {
    DeclaredIff(steps, id);
    var i :| 0 <= i < |steps| && steps[i].id == id;
    UniqueIdIsIndexed(steps, i);
  }

  // Step i can come back to itself; the members are the steps on a cycle with it, itself included, and
  // none of them is capped.
  ghost predicate UncappedRound(steps: seq<Step>, i: nat, members: set<string>) {
    && i < |steps| && (exists round :: LeadsFrom(steps, i, i, round) && |round| >= 2)
    && forall j: nat :: j < |steps| ==>
         (steps[j].id in members <==> (exists there :: LeadsFrom(steps, i, j, there)) && (exists back :: LeadsFrom(steps, j, i, back)))
         && (steps[j].id in members ==> steps[j].maxLoops <= 0)
  }

  lemma UncappedMeans(steps: seq<Step>, members: set<string>)
    requires Explains(UncappedCycle(members), steps)
    ensures !CyclesBesideCap(steps) && exists i: nat :: UncappedRound(steps, i, members)
  {
    hide Index, Reaches, ReachesPlus, RefsOk, CyclesBesideCap, IdsOk, LeadsFrom;
    var g := Index(steps);
    var s :| UncappedComponent(g, s, members);
    NamedStep(steps, s);
    var i: nat :| i < |steps| && steps[i].id == s && g[s] == steps[i];
    LeadsIff(steps, i, i);
    forall j: nat | j < |steps|
      ensures (steps[j].id in members <==>
               (exists there :: LeadsFrom(steps, i, j, there)) && (exists back :: LeadsFrom(steps, j, i, back)))
              && (steps[j].id in members ==> steps[j].maxLoops <= 0)
    {
      LeadsIff(steps, i, j);
      LeadsIff(steps, j, i);
      UniqueIdIsIndexed(steps, j);
    }
    assert UncappedRound(steps, i, members);
    assert !HasCap(g, s);
    CappedIff(steps);
  }
}
