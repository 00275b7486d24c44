// Ranking issues (internal/orchestrator/orchestrator.go): the in-place priority sort, merging the
// ranking model's order with the cache, and writing the order back as priorities.
module Ranking {
  import opened Options

  datatype Dep = Dep(workspace: string, number: int) // workspace "" means the issue's own

  datatype Issue = Issue(
    workspace: string,
    number: int,
    state: string,
    column: string,
    priority: real,
    deps: seq<Dep>,
    crossDeps: seq<Dep>,
    externalPending: bool, // an external dependency exists and is not resolved
    rationale: string)

  datatype Card = Card(workspace: string, number: int)

  function CardOf(iss: Issue): Card {
    Card(iss.workspace, iss.number)
  }

  // ---- sortByOrchestratorPriority ----

  // Higher priority first, then lower number.
  predicate Before(a: Issue, b: Issue) {
    a.priority > b.priority || (a.priority == b.priority && a.number < b.number)
  }

  ghost predicate Sorted(s: seq<Issue>) {
    forall i, j :: 0 <= i < j < |s| ==> !Before(s[j], s[i])
  }

  // Where the swaps take x when it starts behind s.
  function Insert(s: seq<Issue>, x: Issue): (r: seq<Issue>)
    ensures |r| == |s| + 1
  {
    if s == [] || !Before(x, s[|s| - 1]) then s + [x]
    else Insert(s[..|s| - 1], x) + [s[|s| - 1]]
  }

  function InsertionSorted(s: seq<Issue>): (r: seq<Issue>)
    ensures |r| == |s|
  {
    if s == [] then [] else Insert(InsertionSorted(s[..|s| - 1]), s[|s| - 1])
  }

  // s with x moved to position j.
  function Shifted(s: seq<Issue>, x: Issue, j: nat): (r: seq<Issue>)
    requires j <= |s|
    ensures |r| == |s| + 1 && r[j] == x && (j > 0 ==> r[j - 1] == s[j - 1])
  {
    s[..j] + [x] + s[j..]
  }

  lemma SwapShifts(s: seq<Issue>, x: Issue, j: nat)
    requires 0 < j <= |s|
    ensures Shifted(s, x, j)[j - 1 := x][j := s[j - 1]] == Shifted(s, x, j - 1)
  {
  }

  lemma InsertPasses(s: seq<Issue>, x: Issue, j: nat)
    requires 0 < j <= |s| && Before(x, s[j - 1])
    ensures Insert(s[..j], x) + s[j..] == Insert(s[..j - 1], x) + s[j - 1..]
  {
    assert s[..j][..j - 1] == s[..j - 1];
    assert [s[j - 1]] + s[j..] == s[j - 1..];
  }

  // The inner loop: swap a[i] back over every element it comes before.
  method SwapBack(a: array<Issue>, i: nat)
    requires i < a.Length
    modifies a
    ensures a[..i + 1] == Insert(old(a[..i]), old(a[i]))
    ensures a[i + 1..] == old(a[i + 1..])
  {
    hide Before, Insert, Shifted;
    ghost var s, x := a[..i], a[i];
    var j := i;
    ShiftedEnds(s, x);
    assert a[..i + 1] == s + [x];
    while j > 0
      invariant 0 <= j <= i
      invariant a[..i + 1] == Shifted(s, x, j)
      invariant a[i + 1..] == old(a[i + 1..])
      invariant Insert(s, x) == Insert(s[..j], x) + s[j..]
    {
      ghost var cur := a[..i + 1];
      assert a[j] == cur[j] == x && a[j - 1] == cur[j - 1] == s[j - 1];
      if Before(a[j], a[j - 1]) {
        InsertPasses(s, x, j);
        SwapShifts(s, x, j);
        a[j - 1], a[j] := a[j], a[j - 1];
        assert a[..i + 1] == cur[j - 1 := x][j := s[j - 1]];
        j := j - 1;
      } else {
        break;
      }
    }
    InsertStops(s, x, j);
  }

  lemma ShiftedEnds(s: seq<Issue>, x: Issue)
    ensures Shifted(s, x, |s|) == s + [x]
    ensures Insert(s, x) == Insert(s[..|s|], x) + s[|s|..]
  {
    assert s[..|s|] == s && s[|s|..] == [];
  }

  lemma InsertStops(s: seq<Issue>, x: Issue, j: nat)
    requires j <= |s| && (j > 0 ==> !Before(x, s[j - 1]))
    ensures Insert(s[..j], x) + s[j..] == Shifted(s, x, j)
  {
  }

  method SortByOrchestratorPriority(a: array<Issue>)
    modifies a
    ensures a[..] == InsertionSorted(old(a[..]))
  {
    ghost var was := a[..];
    for i := 0 to a.Length
      invariant a[..i] == InsertionSorted(was[..i])
      invariant a[i..] == was[i..]
    {
      assert a[i] == was[i..][0];
      assert was[i + 1..] == was[i..][1..] && a[i + 1..] == a[i..][1..];
      SwapBack(a, i);
      assert was[..i + 1][..i] == was[..i];
    }
    assert a[..a.Length] == a[..] && was[..a.Length] == was;
  }

  lemma {:induction false} InsertPermutes(s: seq<Issue>, x: Issue)
    ensures multiset(Insert(s, x)) == multiset(s) + multiset{x}
  {
    if s != [] && Before(x, s[|s| - 1]) {
      InsertPermutes(s[..|s| - 1], x);
      assert s == s[..|s| - 1] + [s[|s| - 1]];
    }
  }

  lemma {:induction false} SortPermutes(s: seq<Issue>)
    ensures multiset(InsertionSorted(s)) == multiset(s)
  {
    hide Insert;
    if s != [] {
      var init, last := s[..|s| - 1], s[|s| - 1];
      SortPermutes(init);
      InsertPermutes(InsertionSorted(init), last);
      assert s == init + [last];
    }
  }

  lemma InPermutation(a: seq<Issue>, b: seq<Issue>, x: Issue)
    requires multiset(a) == multiset(b)
    ensures x in a <==> x in b
  {
    assert x in a <==> x in multiset(a);
    assert x in b <==> x in multiset(b);
  }

  lemma {:induction false} InsertSorts(s: seq<Issue>, x: Issue)
    requires Sorted(s)
    ensures Sorted(Insert(s, x))
  {
    if s != [] && Before(x, s[|s| - 1]) {
      var init, last := s[..|s| - 1], s[|s| - 1];
      InsertSorts(init, x);
      InsertPermutes(init, x);
      var r := Insert(init, x);
      forall i | 0 <= i < |r| ensures !Before(last, r[i]) {
        assert r[i] in multiset(r);
        assert r[i] == x || r[i] in init;
      }
    }
  }

  lemma {:induction false} SortSorts(s: seq<Issue>)
    ensures Sorted(InsertionSorted(s))
  {
    if s != [] {
      SortSorts(s[..|s| - 1]);
      InsertSorts(InsertionSorted(s[..|s| - 1]), s[|s| - 1]);
    }
  }

  // The members of s with one priority and number, in the order they stand in s.
  function Ties(s: seq<Issue>, priority: real, number: int): seq<Issue> {
    if s == [] then []
    else
      var last := s[|s| - 1];
      Ties(s[..|s| - 1], priority, number) + (if last.priority == priority && last.number == number then [last] else [])
  }

  lemma {:induction false} InsertStable(s: seq<Issue>, x: Issue, priority: real, number: int)
    ensures Ties(Insert(s, x), priority, number) == Ties(s + [x], priority, number)
  {
    if s != [] && Before(x, s[|s| - 1]) {
      var init, last := s[..|s| - 1], s[|s| - 1];
      InsertStable(init, x, priority, number);
      assert (Insert(init, x) + [last])[..|s|] == Insert(init, x);
      assert (s + [x])[..|s|] == s && (init + [x])[..|s| - 1] == init;
    }
  }

  // Issues that tie keep their order.
  lemma {:induction false} SortStable(s: seq<Issue>, priority: real, number: int)
    ensures Ties(InsertionSorted(s), priority, number) == Ties(s, priority, number)
  {
    if s != [] {
      var init, last := s[..|s| - 1], s[|s| - 1];
      SortStable(init, priority, number);
      InsertStable(InsertionSorted(init), last, priority, number);
      assert (InsertionSorted(init) + [last])[..|s| - 1] == InsertionSorted(init);
    }
  }

  // ---- mergeResults ----

  // First occurrences only.
  function Dedup(s: seq<int>): seq<int> {
    if s == [] then []
    else
      var init := Dedup(s[..|s| - 1]);
      if s[|s| - 1] in s[..|s| - 1] then init else init + [s[|s| - 1]]
  }

  function Numbers(s: seq<Issue>): (ns: seq<int>)
    ensures |ns| == |s| && forall i :: 0 <= i < |s| ==> ns[i] == s[i].number
  {
    seq(|s|, i requires 0 <= i < |s| => s[i].number)
  }

  function MergedOrdering(cached: seq<int>, llm: Option<seq<int>>, candidates: seq<int>): seq<int> {
    var merged := if llm.Some? then Dedup(llm.value + cached + candidates) else cached;
    if merged == [] then candidates else merged
  }

  lemma DedupSnoc(s: seq<int>, n: int)
    ensures Dedup(s + [n]) == if n in s then Dedup(s) else Dedup(s) + [n]
  {
    assert (s + [n])[..|s|] == s;
  }

  // One of the three loops: append what has not been seen.
  method AppendUnseen(ordering: seq<int>, seen: set<int>, more: seq<int>, ghost done: seq<int>)
    returns (ordering': seq<int>, seen': set<int>)
    requires ordering == Dedup(done) && forall n :: n in seen <==> n in done
    ensures ordering' == Dedup(done + more) && forall n :: n in seen' <==> n in done + more
  {
    hide Dedup;
    ordering', seen' := ordering, seen;
    ghost var all := done;
    for i := 0 to |more|
      invariant all == done + more[..i]
      invariant ordering' == Dedup(all)
      invariant forall n :: n in seen' <==> n in all
    {
      DedupSnoc(all, more[i]);
      ghost var all' := all + [more[i]];
      assert all' == done + more[..i + 1];
      if more[i] !in seen' {
        seen' := seen' + {more[i]};
        ordering' := ordering' + [more[i]];
      }
      all := all';
    }
    assert more[..|more|] == more;
  }

  method MergeResults(cached: seq<int>, llm: Option<seq<int>>, candidates: seq<Issue>) returns (ordering: seq<int>)
    ensures ordering == MergedOrdering(cached, llm, Numbers(candidates))
  {
    ordering := cached;
    if llm.Some? {
      var seen;
      ordering, seen := AppendUnseen([], {}, llm.value, []);
      assert [] + llm.value == llm.value;
      ordering, seen := AppendUnseen(ordering, seen, cached, llm.value);
      ordering, seen := AppendUnseen(ordering, seen, Numbers(candidates), llm.value + cached);
    }
    if |ordering| == 0 {
      ordering := Numbers(candidates);
    }
  }

  lemma {:induction false} DedupElements(s: seq<int>)
    ensures Distinct(Dedup(s)) && forall n :: n in Dedup(s) <==> n in s
  {
    if s != [] {
      DedupElements(s[..|s| - 1]);
      assert s == s[..|s| - 1] + [s[|s| - 1]];
    }
  }

  lemma {:induction false} DedupPrefix(a: seq<int>, b: seq<int>)
    ensures Dedup(a) <= Dedup(a + b)
    decreases |b|
  {
    if b == [] {
      assert a + b == a;
    } else {
      DedupPrefix(a, b[..|b| - 1]);
      assert (a + b)[..|a + b| - 1] == a + b[..|b| - 1];
    }
  }

  // With a model ranking the merged order is free of repetitions, starts with the deduplicated
  // model order, and holds exactly the model's, the cache's and the candidates' numbers: numbers
  // outside the candidate set are not dropped.
  lemma MergeWithModel(cached: seq<int>, llm: seq<int>, candidates: seq<int>)
    ensures var o := MergedOrdering(cached, Some(llm), candidates);
            && Distinct(o) && Dedup(llm) <= o
            && (forall n :: n in o <==> n in llm || n in cached || n in candidates)
  {
    hide Dedup;
    var all := llm + cached + candidates;
    DedupElements(all);
    DedupPrefix(llm, cached + candidates);
    assert llm + (cached + candidates) == all;
    if candidates != [] {
      assert all[|llm + cached|] == candidates[0];
      assert candidates[0] in all;
    }
  }

  // A number the model made up stays in, although it is no candidate.
  lemma MergeKeepsForeign(foreign: int, candidate: int)
    requires foreign != candidate
    ensures foreign in MergedOrdering([], Some([foreign]), [candidate])
  {
    hide MergedOrdering;
    MergeWithModel([], [foreign], [candidate]);
    var llm := [foreign];
    assert llm[0] in llm;
  }

  // The order covers all candidates exactly when a model ranked them, the cache was empty, or the
  // cache covers them.
  lemma MergeCoversIff(cached: seq<int>, llm: Option<seq<int>>, candidates: seq<int>)
    ensures (forall n :: n in candidates ==> n in MergedOrdering(cached, llm, candidates)) <==>
            llm.Some? || cached == [] || forall n :: n in candidates ==> n in cached
  {
    if llm.Some? {
      MergeWithModel(cached, llm.value, candidates);
    }
  }

  // ---- applyResult ----

  datatype Edge = Edge(dependsOn: seq<int>, rationale: string)

  // 1.0 for the top of n, descending.
  function Rank(n: nat, i: nat): real
    requires i < n
  {
    (n - i) as real / n as real
  }

  function PriorityMap(ordering: seq<int>): map<int, real> {
    PriorityPrefix(ordering, |ordering|)
  }

  // The loop over the ordering; a later occurrence of a number overwrites an earlier one.
  function PriorityPrefix(ordering: seq<int>, k: nat): (m: map<int, real>)
    requires k <= |ordering|
    ensures forall n :: n in m <==> n in ordering[..k]
  {
    if k == 0 then map[]
    else
      assert ordering[..k] == ordering[..k - 1] + [ordering[k - 1]];
      PriorityPrefix(ordering, k - 1)[ordering[k - 1] := Rank(|ordering|, k - 1)]
  }

  function CrossOnly(deps: seq<Dep>): seq<Dep> {
    if deps == [] then []
    else
      var last := deps[|deps| - 1];
      CrossOnly(deps[..|deps| - 1]) + (if last.workspace != "" then [last] else [])
  }

  function SameWorkspace(numbers: seq<int>): (ds: seq<Dep>)
    ensures |ds| == |numbers| && forall i :: 0 <= i < |ds| ==> ds[i] == Dep("", numbers[i])
  {
    seq(|numbers|, i requires 0 <= i < |numbers| => Dep("", numbers[i]))
  }

  function Updated(iss: Issue, priority: map<int, real>, edges: map<int, Edge>): Issue {
    iss.(priority := if iss.number in priority then priority[iss.number] else iss.priority,
         deps := CrossOnly(iss.deps) + (if iss.number in edges then SameWorkspace(edges[iss.number].dependsOn) else []),
         rationale := if iss.number in edges then edges[iss.number].rationale else "")
  }

  function Applied(candidates: seq<Issue>, ordering: seq<int>, edges: map<int, Edge>): (r: seq<Issue>)
    ensures |r| == |candidates|
    ensures forall i :: 0 <= i < |r| ==> r[i] == Updated(candidates[i], PriorityMap(ordering), edges)
  {
    seq(|candidates|, i requires 0 <= i < |candidates| => Updated(candidates[i], PriorityMap(ordering), edges))
  }

  // What a goal's cache holds for one card: the hash of the issue text it was ranked with, and the
  // outcome.
  datatype Entry = Entry(isPrimitive: bool, dependsOn: seq<int>, rationale: string)

  datatype CacheRow = CacheRow(hash: string, entry: Entry)

  function EntryFor(iss: Issue, edges: map<int, Edge>, primitives: set<int>): Entry {
    if iss.number in edges
    then Entry(iss.number in primitives, edges[iss.number].dependsOn, edges[iss.number].rationale)
    else Entry(iss.number in primitives, [], "")
  }

  function CachePuts(cache: map<Card, CacheRow>, s: seq<Issue>, hash: Card -> string,
                     edges: map<int, Edge>, primitives: set<int>): map<Card, CacheRow> {
    if s == [] then cache
    else
      var last := s[|s| - 1];
      CachePuts(cache, s[..|s| - 1], hash, edges, primitives)
        [CardOf(last) := CacheRow(hash(CardOf(last)), EntryFor(last, edges, primitives))]
  }

  method KeepCross(deps: seq<Dep>) returns (cross: seq<Dep>)
    ensures cross == CrossOnly(deps)
  {
    cross := [];
    for k := 0 to |deps|
      invariant cross == CrossOnly(deps[..k])
    {
      assert deps[..k + 1][..k] == deps[..k];
      if deps[k].workspace != "" {
        cross := cross + [deps[k]];
      }
    }
    assert deps[..|deps|] == deps;
  }

  lemma AppliedPrefix(candidates: seq<Issue>, ordering: seq<int>, edges: map<int, Edge>, i: nat)
    requires i < |candidates|
    ensures Applied(candidates, ordering, edges)[..i + 1]
            == Applied(candidates, ordering, edges)[..i] + [Updated(candidates[i], PriorityMap(ordering), edges)]
  {
    hide Updated, PriorityMap;
  }

  lemma CachePutsPrefix(cache: map<Card, CacheRow>, s: seq<Issue>, hash: Card -> string,
                        edges: map<int, Edge>, primitives: set<int>, i: nat)
    requires i < |s|
    ensures CachePuts(cache, s[..i + 1], hash, edges, primitives)
            == CachePuts(cache, s[..i], hash, edges, primitives)
                 [CardOf(s[i]) := CacheRow(hash(CardOf(s[i])), EntryFor(s[i], edges, primitives))]
  {
    hide EntryFor;
    assert s[..i + 1][..i] == s[..i];
  }

  // The body of the loop over the candidates.
  method UpdateIssue(iss: Issue, priority: map<int, real>, edges: map<int, Edge>, primitives: set<int>)
    returns (updated: Issue, entry: Entry)
    ensures updated == Updated(iss, priority, edges) && entry == EntryFor(iss, edges, primitives)
  {
    updated := iss;
    if iss.number in priority {
      updated := updated.(priority := priority[iss.number]);
    }
    var cross := KeepCross(iss.deps);
    var forCache: seq<int> := [];
    if iss.number in edges {
      updated := updated.(deps := cross + SameWorkspace(edges[iss.number].dependsOn),
                          rationale := edges[iss.number].rationale);
      forCache := edges[iss.number].dependsOn;
    } else {
      assert cross + [] == cross;
      updated := updated.(deps := cross, rationale := "");
    }
    entry := Entry(iss.number in primitives, forCache, updated.rationale);
  }

  // Saves the updated candidates in order and caches each; a failing save stops it.
  method ApplyResult(candidates: seq<Issue>, ordering: seq<int>, edges: map<int, Edge>, primitives: set<int>,
                     cache: map<Card, CacheRow>, hash: Card -> string, saveOk: nat -> bool)
    returns (saved: seq<Issue>, cache': map<Card, CacheRow>, ok: bool)
    ensures saved <= Applied(candidates, ordering, edges)
    ensures cache' == CachePuts(cache, candidates[..|saved|], hash, edges, primitives)
    ensures ok <==> forall i :: 0 <= i < |candidates| ==> saveOk(i)
    ensures ok ==> saved == Applied(candidates, ordering, edges)
    ensures !ok ==> |saved| < |candidates| && !saveOk(|saved|)
    ensures forall i :: 0 <= i < |saved| ==> saveOk(i)
  {
    hide Updated, Rank, EntryFor, CachePuts;
    var priority: map<int, real> := map[];
    for i := 0 to |ordering|
      invariant priority == PriorityPrefix(ordering, i)
    {
      priority := priority[ordering[i] := Rank(|ordering|, i)];
    }
    saved, cache' := [], cache;
    ghost var applied := Applied(candidates, ordering, edges);
    NoPuts(cache, candidates, hash, edges, primitives);
    for i := 0 to |candidates|
      invariant |saved| == i && saved == applied[..i]
      invariant cache' == CachePuts(cache, candidates[..i], hash, edges, primitives)
      invariant forall k :: 0 <= k < i ==> saveOk(k)
    {
      if !saveOk(i) {
        return saved, cache', false;
      }
      var updated, entry := UpdateIssue(candidates[i], priority, edges, primitives);
      AppliedPrefix(candidates, ordering, edges, i);
      CachePutsPrefix(cache, candidates, hash, edges, primitives, i);
      saved := saved + [updated];
      cache' := cache'[CardOf(candidates[i]) := CacheRow(hash(CardOf(candidates[i])), entry)];
    }
    ok := true;
  }

  lemma NoPuts(cache: map<Card, CacheRow>, s: seq<Issue>, hash: Card -> string, edges: map<int, Edge>, primitives: set<int>)
    ensures CachePuts(cache, s[..0], hash, edges, primitives) == cache
  {
  }

  lemma {:induction false} CrossOnlyAppend(a: seq<Dep>, b: seq<Dep>)
    ensures CrossOnly(a + b) == CrossOnly(a) + CrossOnly(b)
    decreases |b|
  {
    if b == [] {
      assert a + b == a;
    } else {
      assert (a + b)[..|a + b| - 1] == a + b[..|b| - 1];
      CrossOnlyAppend(a, b[..|b| - 1]);
    }
  }

  lemma {:induction false} CrossOnlyIdempotent(deps: seq<Dep>)
    ensures CrossOnly(CrossOnly(deps)) == CrossOnly(deps)
  {
    if deps != [] {
      var last := deps[|deps| - 1];
      CrossOnlyIdempotent(deps[..|deps| - 1]);
      var kept := CrossOnly(deps[..|deps| - 1]);
      assert (kept + [last])[..|kept|] == kept;
      assert kept + [] == kept;
    }
  }

  lemma {:induction false} NoCrossInSame(numbers: seq<int>)
    ensures CrossOnly(SameWorkspace(numbers)) == []
  {
    if numbers != [] {
      NoCrossInSame(numbers[..|numbers| - 1]);
      assert SameWorkspace(numbers)[..|numbers| - 1] == SameWorkspace(numbers[..|numbers| - 1]);
    }
  }

  // User-set cross-workspace dependencies survive, and applying a result twice changes nothing more.
  lemma ApplyKeepsCrossDeps(iss: Issue, priority: map<int, real>, edges: map<int, Edge>)
    ensures var once := Updated(iss, priority, edges);
            CrossOnly(once.deps) == CrossOnly(iss.deps) && Updated(once, priority, edges) == once
  {
    var same := if iss.number in edges then SameWorkspace(edges[iss.number].dependsOn) else [];
    CrossOnlyAppend(CrossOnly(iss.deps), same);
    CrossOnlyIdempotent(iss.deps);
    if iss.number in edges {
      NoCrossInSame(edges[iss.number].dependsOn);
    }
  }

  // ---- the ranking comes back out of the sort ----

  function Kept(ordering: seq<int>, numbers: seq<int>): seq<int> {
    if ordering == [] then []
    else
      var last := ordering[|ordering| - 1];
      Kept(ordering[..|ordering| - 1], numbers) + (if last in numbers then [last] else [])
  }

  function Pos(ordering: seq<int>, n: int): (p: nat)
    requires n in ordering
    ensures p < |ordering| && ordering[p] == n
  {
    if ordering[0] == n then 0 else 1 + Pos(ordering[1..], n)
  }

  // Numbers of a list, in strictly increasing position.
  ghost predicate InOrderOf(s: seq<int>, ordering: seq<int>) {
    && (forall i :: 0 <= i < |s| ==> s[i] in ordering)
    && forall i, j :: 0 <= i < j < |s| ==> Pos(ordering, s[i]) < Pos(ordering, s[j])
  }

  lemma {:induction false} PosInLonger(init: seq<int>, last: int, n: int)
    requires n in init
    ensures Pos(init + [last], n) == Pos(init, n)
  {
    if init[0] != n {
      assert (init + [last])[1..] == init[1..] + [last];
      PosInLonger(init[1..], last, n);
    }
  }

  lemma {:induction false} KeptInOrder(ordering: seq<int>, numbers: seq<int>)
    requires Distinct(ordering)
    ensures InOrderOf(Kept(ordering, numbers), ordering)
    ensures forall n :: n in Kept(ordering, numbers) <==> n in ordering && n in numbers
  {
    if ordering != [] {
      var init, last := ordering[..|ordering| - 1], ordering[|ordering| - 1];
      KeptInOrder(init, numbers);
      var k := Kept(init, numbers);
      var s := Kept(ordering, numbers);
      assert ordering == init + [last];
      assert last !in init;
      forall i | 0 <= i < |k| ensures s[i] == k[i] && Pos(ordering, s[i]) == Pos(init, k[i]) {
        PosInLonger(init, last, k[i]);
      }
    }
  }

  // Two lists in the order of a third, with the same elements, are the same list.
  lemma {:induction false} SameOrderSameList(a: seq<int>, b: seq<int>, ordering: seq<int>)
    requires InOrderOf(a, ordering) && InOrderOf(b, ordering)
    requires forall n :: n in a <==> n in b
    ensures a == b
    decreases |a|
  {
    EmptyTogether(b, a);
    if a != [] {
      assert a[0] in a;
      LeastFirst(a, b, ordering);
      HeadOnce(a, ordering);
      HeadOnce(b, ordering);
      forall n ensures n in a[1..] <==> n in b[1..] {
        assert n in a[1..] <==> n in a && n != a[0];
        assert n in b[1..] <==> n in b && n != b[0];
      }
      SameOrderSameList(a[1..], b[1..], ordering);
    }
  }

  lemma HeadOnce(a: seq<int>, ordering: seq<int>)
    requires InOrderOf(a, ordering) && a != []
    ensures a[0] !in a[1..]
  {
    assert forall k :: 0 < k < |a| ==> Pos(ordering, a[0]) < Pos(ordering, a[k]);
  }

  lemma EmptyTogether(a: seq<int>, b: seq<int>)
    requires forall n :: n in a ==> n in b
    ensures a != [] ==> b != []
  {
    if a != [] {
      var n := a[0];
      assert n in a;
      assert n in b;
    }
  }

  lemma HeadIsLeast(a: seq<int>, ordering: seq<int>, n: int)
    requires InOrderOf(a, ordering) && n in a
    ensures Pos(ordering, a[0]) <= Pos(ordering, n)
  {
    var i :| 0 <= i < |a| && a[i] == n;
  }

  lemma LeastFirst(a: seq<int>, b: seq<int>, ordering: seq<int>)
    requires InOrderOf(a, ordering) && InOrderOf(b, ordering) && a != [] && b != []
    requires a[0] in b && b[0] in a
    ensures a[0] == b[0]
  {
    HeadIsLeast(a, ordering, b[0]);
    HeadIsLeast(b, ordering, a[0]);
  }

  lemma {:induction false} PriorityAt(ordering: seq<int>, k: nat, p: nat)
    requires Distinct(ordering) && p < k <= |ordering|
    ensures ordering[p] in PriorityPrefix(ordering, k)
    ensures PriorityPrefix(ordering, k)[ordering[p]] == Rank(|ordering|, p)
  {
    hide Rank, Distinct;
    assert ordering[p] == ordering[..k][p];
    if p < k - 1 {
      assert ordering[p] != ordering[k - 1] by {
        DistinctAt(ordering, p, k - 1);
      }
      PriorityAt(ordering, k - 1, p);
    }
  }

  lemma DistinctAt(s: seq<int>, i: nat, j: nat)
    requires Distinct(s) && i < j < |s|
    ensures s[i] != s[j]
  {
  }

  lemma EarlierIsHigher(n: nat, p: nat, q: nat)
    requires p < n && q < n
    ensures Rank(n, p) > Rank(n, q) ==> p < q
    ensures Rank(n, p) == Rank(n, q) ==> p == q
  {
    var a, b, r := (n - p) as real, (n - q) as real, n as real;
    assert (a / r) * r == a && (b / r) * r == b;
  }

  // Sorting the applied candidates gives back the ordering, restricted to the candidates,
  // exactly when the ordering covers them.
  lemma RankingRoundTripIff(candidates: seq<Issue>, ordering: seq<int>, edges: map<int, Edge>)
    requires Distinct(Numbers(candidates)) && Distinct(ordering)
    ensures Numbers(InsertionSorted(Applied(candidates, ordering, edges))) == Kept(ordering, Numbers(candidates))
            <==> forall n :: n in Numbers(candidates) ==> n in ordering
  {
    var applied := Applied(candidates, ordering, edges);
    var sorted := InsertionSorted(applied);
    var kept := Kept(ordering, Numbers(candidates));
    KeptInOrder(ordering, Numbers(candidates));
    assert Numbers(applied) == Numbers(candidates);
    SortPermutes(applied);
    NumbersOfPermutation(sorted, applied);
    if forall n :: n in Numbers(candidates) ==> n in ordering {
      SortedFollowsOrdering(candidates, ordering, edges);
      SameOrderSameList(Numbers(sorted), kept, ordering);
    }
  }

  lemma NumbersOfPermutation(a: seq<Issue>, b: seq<Issue>)
    requires multiset(a) == multiset(b)
    ensures forall n :: n in Numbers(a) <==> n in Numbers(b)
  {
    forall n ensures n in Numbers(a) ==> n in Numbers(b) {
      if n in Numbers(a) {
        var i :| 0 <= i < |a| && Numbers(a)[i] == n;
        InPermutation(a, b, a[i]);
        var j :| 0 <= j < |b| && b[j] == a[i];
        assert Numbers(b)[j] == n;
      }
    }
    forall n ensures n in Numbers(b) ==> n in Numbers(a) {
      if n in Numbers(b) {
        var i :| 0 <= i < |b| && Numbers(b)[i] == n;
        InPermutation(a, b, b[i]);
        var j :| 0 <= j < |a| && a[j] == b[i];
        assert Numbers(a)[j] == n;
      }
    }
  }

  // Of two sorted applied issues the one in front has the earlier position.
  lemma SortedPair(x: Issue, y: Issue, ordering: seq<int>)
    requires x.number in ordering && y.number in ordering && x.number != y.number && !Before(y, x)
    requires x.priority == Rank(|ordering|, Pos(ordering, x.number))
    requires y.priority == Rank(|ordering|, Pos(ordering, y.number))
    ensures Pos(ordering, x.number) < Pos(ordering, y.number)
  {
    hide Rank;
    var p, q := Pos(ordering, x.number), Pos(ordering, y.number);
    EarlierIsHigher(|ordering|, p, q);
    EarlierIsHigher(|ordering|, q, p);
  }

  lemma SortedFollowsOrdering(candidates: seq<Issue>, ordering: seq<int>, edges: map<int, Edge>)
    requires Distinct(Numbers(candidates)) && Distinct(ordering)
    requires forall n :: n in Numbers(candidates) ==> n in ordering
    ensures InOrderOf(Numbers(InsertionSorted(Applied(candidates, ordering, edges))), ordering)
  {
    hide InsertionSorted, Before, Rank;
    var applied := Applied(candidates, ordering, edges);
    var sorted := InsertionSorted(applied);
    var ns := Numbers(sorted);
    SortPermutes(applied);
    SortSorts(applied);
    NumbersOfPermutation(sorted, applied);
    assert Numbers(applied) == Numbers(candidates);
    SortedDistinct(sorted, applied);
    forall i | 0 <= i < |sorted| ensures sorted[i].number in ordering
        && sorted[i].priority == Rank(|ordering|, Pos(ordering, sorted[i].number)) {
      assert ns[i] in ns;
      RankOf(candidates, ordering, edges, sorted[i], Pos(ordering, sorted[i].number));
    }
    forall i, j | 0 <= i < j < |sorted| ensures Pos(ordering, ns[i]) < Pos(ordering, ns[j]) {
      assert ns[i] != ns[j];
      SortedPair(sorted[i], sorted[j], ordering);
    }
  }

  lemma SortedDistinct(a: seq<Issue>, b: seq<Issue>)
    requires multiset(a) == multiset(b) && Distinct(Numbers(b))
    ensures Distinct(Numbers(a))
  {
    forall i, j | 0 <= i < j < |a| ensures Numbers(a)[i] != Numbers(a)[j] {
      InPermutation(a, b, a[i]);
      InPermutation(a, b, a[j]);
      if a[i].number == a[j].number {
        var p :| 0 <= p < |b| && b[p] == a[i];
        var q :| 0 <= q < |b| && b[q] == a[j];
        assert Numbers(b)[p] == Numbers(b)[q];
        assert p == q && a[i] == a[j];
        TwiceMeansTwo(a, i, j);
        OnceMeansOne(b, a[i]);
      }
    }
  }

  lemma TwiceMeansTwo(a: seq<Issue>, i: nat, j: nat)
    requires i < j < |a| && a[i] == a[j]
    ensures multiset(a)[a[i]] >= 2
  {
    assert a == a[..j] + a[j..];
    assert a[..j][i] == a[i] && a[j..][0] == a[j];
    assert a[i] in multiset(a[..j]) && a[i] in multiset(a[j..]);
  }

  lemma {:induction false} OnceMeansOne(b: seq<Issue>, x: Issue)
    requires Distinct(Numbers(b))
    ensures multiset(b)[x] <= 1
  {
    if b != [] {
      var init, last := b[..|b| - 1], b[|b| - 1];
      assert b == init + [last];
      assert Numbers(init) == Numbers(b)[..|b| - 1];
      OnceMeansOne(init, x);
      assert Numbers(b)[|b| - 1] == last.number;
      if x in init {
        var k :| 0 <= k < |init| && init[k] == x;
        assert Numbers(b)[k] == x.number;
      }
    }
  }

  lemma RankOf(candidates: seq<Issue>, ordering: seq<int>, edges: map<int, Edge>, x: Issue, p: nat)
    requires Distinct(ordering) && p < |ordering| && x.number == ordering[p]
    requires multiset(InsertionSorted(Applied(candidates, ordering, edges))) == multiset(Applied(candidates, ordering, edges))
    requires x in InsertionSorted(Applied(candidates, ordering, edges))
    ensures x.priority == Rank(|ordering|, p)
  {
    var applied := Applied(candidates, ordering, edges);
    InPermutation(InsertionSorted(applied), applied, x);
    var k :| 0 <= k < |applied| && applied[k] == x;
    PriorityAt(ordering, |ordering|, p);
    assert candidates[k].number == x.number;
    assert ordering[p] in ordering[..|ordering|];
  }
}
