// The step graph of a pipeline (internal/pipeline/driver.go): walks, reachability and
// the two breadth-first searches the validator runs over it.
module StepGraph {
  datatype Step = Step(id: string, name: string, onSuccess: string, onFail: string, maxLoops: int)

  // The source's byID index.
  type Graph = map<string, Step>

  function Neighbors(s: Step): seq<string> {
    (if s.onSuccess != "" then [s.onSuccess] else []) + (if s.onFail != "" then [s.onFail] else [])
  }

  ghost predicate Edge(g: Graph, a: string, b: string) {
    a in g && b in Neighbors(g[a])
  }

  ghost predicate IsWalk(g: Graph, w: seq<string>) {
    |w| >= 1 && forall i :: 0 <= i < |w| - 1 ==> Edge(g, w[i], w[i + 1])
  }

  ghost predicate WalkFrom(g: Graph, a: string, b: string, w: seq<string>) {
    IsWalk(g, w) && w[0] == a && w[|w| - 1] == b
  }

  // b can be reached from a in zero or more edges.
  ghost predicate Reaches(g: Graph, a: string, b: string) {
    exists w :: WalkFrom(g, a, b, w)
  }

  // b can be reached from a in one or more edges.
  ghost predicate ReachesPlus(g: Graph, a: string, b: string) {
    exists w :: WalkFrom(g, a, b, w) && |w| >= 2
  }

  ghost predicate SameComponent(g: Graph, a: string, b: string) {
    Reaches(g, a, b) && Reaches(g, b, a)
  }

  ghost predicate Closed(g: Graph, s: set<string>) {
    forall a, b :: a in s && Edge(g, a, b) ==> b in s
  }

  // ---- facts about walks ----

  lemma ReachesSelf(g: Graph, a: string)
    ensures Reaches(g, a, a)
  {
    assert WalkFrom(g, a, a, [a]);
  }

  lemma ReachesThenEdge(g: Graph, a: string, b: string, c: string)
    requires Reaches(g, a, b) && Edge(g, b, c)
    ensures Reaches(g, a, c) && ReachesPlus(g, a, c)
  {
    var w :| WalkFrom(g, a, b, w);
    assert WalkFrom(g, a, c, w + [c]);
  }

  lemma SubWalk(g: Graph, w: seq<string>, i: nat, j: nat)
    requires IsWalk(g, w) && i <= j < |w|
    ensures WalkFrom(g, w[i], w[j], w[i..j + 1])
    ensures Reaches(g, w[i], w[j])
  {
    assert WalkFrom(g, w[i], w[j], w[i..j + 1]);
  }

  // A closed set that holds the start of a walk holds its end.
  lemma {:induction false} ClosedKeepsWalk(g: Graph, s: set<string>, w: seq<string>)
    requires IsWalk(g, w) && Closed(g, s) && w[0] in s
    ensures w[|w| - 1] in s
    decreases |w|
  {
    if |w| > 1 {
      assert Edge(g, w[0], w[1]);
      ClosedKeepsWalk(g, s, w[1..]);
    }
  }

  lemma ClosedKeepsReachable(g: Graph, s: set<string>, a: string)
    requires Closed(g, s) && a in s
    ensures forall b :: Reaches(g, a, b) ==> b in s
  {
    forall b | Reaches(g, a, b) ensures b in s {
      var w :| WalkFrom(g, a, b, w);
      ClosedKeepsWalk(g, s, w);
    }
  }

  // ---- the searches ----

  // Every node a search from `start` can put on its queue.
  ghost function Universe(g: Graph, start: string): set<string> {
    {start} + g.Keys + (set k | k in g :: g[k].onSuccess) + (set k | k in g :: g[k].onFail)
  }

  lemma NeighborsInUniverse(g: Graph, start: string, a: string)
    requires a in g
    ensures forall b :: b in Neighbors(g[a]) ==> b in Universe(g, start)
  {
  }

  // bfsVisit: the nodes reachable from start, start included.
  method BfsVisit(g: Graph, start: string) returns (visited: set<string>)
    ensures forall id :: id in visited <==> Reaches(g, start, id)
  {
    visited := {};
    var queue := [start];
    ReachesSelf(g, start);
    while |queue| > 0
      invariant visited <= Universe(g, start)
      invariant forall id :: id in queue ==> id in Universe(g, start)
      invariant forall id :: id in visited || id in queue ==> Reaches(g, start, id)
      invariant forall a, b :: a in visited && Edge(g, a, b) ==> b in visited || b in queue
      invariant start in visited || start in queue
      decreases Universe(g, start) - visited, |queue|
    {
      var cur := queue[0];
      ghost var before := queue;
      queue := queue[1..];
      assert forall id :: id in before <==> id == cur || id in queue;
      if cur in visited {
        continue;
      }
      visited := visited + {cur};
      if cur in g {
        NeighborsInUniverse(g, start, cur);
        forall b | b in Neighbors(g[cur]) ensures Reaches(g, start, b) {
          ReachesThenEdge(g, start, cur, b);
        }
        queue := queue + Neighbors(g[cur]);
      }
    }
    assert Closed(g, visited);
    ClosedKeepsReachable(g, visited, start);
  }

  // canReachItself: start lies on a cycle.
  method CanReachItself(g: Graph, start: string) returns (cyclic: bool)
    ensures cyclic <==> ReachesPlus(g, start, start)
  {
    if start !in g {
      assert forall w :: WalkFrom(g, start, start, w) && |w| >= 2 ==> Edge(g, w[0], w[1]);
      return false;
    }
    var visited: set<string> := {};
    var queue := Neighbors(g[start]);
    NeighborsInUniverse(g, start, start);
    ReachesSelf(g, start);
    forall b | b in queue ensures ReachesPlus(g, start, b) {
      ReachesThenEdge(g, start, start, b);
    }
    while |queue| > 0
      invariant visited <= Universe(g, start)
      invariant forall id :: id in queue ==> id in Universe(g, start)
      invariant forall id :: id in visited || id in queue ==> ReachesPlus(g, start, id)
      invariant forall a, b :: a in visited && Edge(g, a, b) ==> b in visited || b in queue
      invariant forall b :: b in Neighbors(g[start]) ==> b in visited || b in queue
      invariant start !in visited
      decreases Universe(g, start) - visited, |queue|
    {
      var cur := queue[0];
      ghost var before := queue;
      queue := queue[1..];
      assert forall id :: id in before <==> id == cur || id in queue;
      if cur == start {
        return true;
      }
      if cur in visited {
        continue;
      }
      visited := visited + {cur};
      if cur in g {
        NeighborsInUniverse(g, start, cur);
        forall b | b in Neighbors(g[cur]) ensures ReachesPlus(g, start, b) {
          ReachesThenEdge(g, start, cur, b);
        }
        queue := queue + Neighbors(g[cur]);
      }
    }
    if ReachesPlus(g, start, start) {
      var w :| WalkFrom(g, start, start, w) && |w| >= 2;
      assert Edge(g, w[0], w[1]);
      ClosedKeepsWalk(g, visited, w[1..]);
      assert false;
    }
    return false;
  }

  // cycleMembers: despite its name it collects the whole strongly connected component.
  method CycleMembers(g: Graph, start: string) returns (members: set<string>)
    ensures forall id :: id in members <==> SameComponent(g, start, id)
  {
    var reachable := BfsVisit(g, start);
    members := {};
    var todo := reachable;
    while todo != {}
      invariant todo <= reachable
      invariant forall id :: id in members <==> id in reachable - todo && Reaches(g, id, start)
      decreases todo
    {
      var id :| id in todo;
      var visited := BfsVisit(g, id);
      if start in visited {
        members := members + {id};
      }
      todo := todo - {id};
    }
  }
}
