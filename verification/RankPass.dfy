// One rank pass (internal/orchestrator/orchestrator.go): split the candidates by the cache, ask the
// model about the rest, merge, write back and cache; and what a second pass then does.
module RankPass {
  import opened Options
  import opened Ranking

  datatype Outcome = Outcome(ordering: seq<int>, edges: map<int, Edge>, primitives: set<int>)

  // A row counts when it was ranked with the issue's present text.
  predicate Hit(iss: Issue, cache: map<Card, CacheRow>, hash: Card -> string) {
    CardOf(iss) in cache && cache[CardOf(iss)].hash == hash(CardOf(iss))
  }

  function Hits(s: seq<Issue>, cache: map<Card, CacheRow>, hash: Card -> string): seq<int> {
    if s == [] then []
    else
      var last := s[|s| - 1];
      Hits(s[..|s| - 1], cache, hash) + (if Hit(last, cache, hash) then [last.number] else [])
  }

  function Misses(s: seq<Issue>, cache: map<Card, CacheRow>, hash: Card -> string): seq<Issue> {
    if s == [] then []
    else
      var last := s[|s| - 1];
      Misses(s[..|s| - 1], cache, hash) + (if Hit(last, cache, hash) then [] else [last])
  }

  function HitPrimitives(s: seq<Issue>, cache: map<Card, CacheRow>, hash: Card -> string): set<int> {
    if s == [] then {}
    else
      var last := s[|s| - 1];
      HitPrimitives(s[..|s| - 1], cache, hash) +
      (if Hit(last, cache, hash) && cache[CardOf(last)].entry.isPrimitive then {last.number} else {})
  }

  // An entry without dependencies leaves no edge, and so drops its rationale.
  function HitEdges(s: seq<Issue>, cache: map<Card, CacheRow>, hash: Card -> string): map<int, Edge> {
    if s == [] then map[]
    else
      var last := s[|s| - 1];
      var m := HitEdges(s[..|s| - 1], cache, hash);
      if Hit(last, cache, hash) && cache[CardOf(last)].entry.dependsOn != []
      then m[last.number := Edge(cache[CardOf(last)].entry.dependsOn, cache[CardOf(last)].entry.rationale)]
      else m
  }

  function FromCache(s: seq<Issue>, cache: map<Card, CacheRow>, hash: Card -> string): Outcome {
    Outcome(Hits(s, cache, hash), HitEdges(s, cache, hash), HitPrimitives(s, cache, hash))
  }

  method PartitionByCache(candidates: seq<Issue>, cache: map<Card, CacheRow>, hash: Card -> string)
    returns (cached: Outcome, uncached: seq<Issue>)
    ensures cached == FromCache(candidates, cache, hash)
    ensures uncached == Misses(candidates, cache, hash)
  {
    var ordering: seq<int>, edges: map<int, Edge>, primitives: set<int> := [], map[], {};
    uncached := [];
    for i := 0 to |candidates|
      invariant ordering == Hits(candidates[..i], cache, hash)
      invariant edges == HitEdges(candidates[..i], cache, hash)
      invariant primitives == HitPrimitives(candidates[..i], cache, hash)
      invariant uncached == Misses(candidates[..i], cache, hash)
    {
      assert candidates[..i + 1][..i] == candidates[..i];
      var iss := candidates[i];
      if !(CardOf(iss) in cache && cache[CardOf(iss)].hash == hash(CardOf(iss))) {
        uncached := uncached + [iss];
        continue;
      }
      var entry := cache[CardOf(iss)].entry;
      ordering := ordering + [iss.number];
      if entry.isPrimitive {
        primitives := primitives + {iss.number};
      }
      if |entry.dependsOn| > 0 {
        edges := edges[iss.number := Edge(entry.dependsOn, entry.rationale)];
      }
    }
    assert candidates[..|candidates|] == candidates;
    cached := Outcome(ordering, edges, primitives);
  }

  function Merged(cached: Outcome, llm: Option<Outcome>, candidates: seq<int>): Outcome {
    if llm.None? then cached.(ordering := MergedOrdering(cached.ordering, None, candidates))
    else
      Outcome(MergedOrdering(cached.ordering, Some(llm.value.ordering), candidates),
              cached.edges + llm.value.edges,
              cached.primitives + llm.value.primitives)
  }

  // The board after one pass whose outcome was r, and the cache it leaves.
  function FirstPass(candidates: seq<Issue>, r: Outcome): seq<Issue> {
    Applied(candidates, r.ordering, r.edges)
  }

  function CacheAfter(candidates: seq<Issue>, cache: map<Card, CacheRow>, hash: Card -> string, r: Outcome)
    : map<Card, CacheRow> {
    CachePuts(cache, candidates, hash, r.edges, r.primitives)
  }

  // ---- a whole pass ----

  datatype Model = NotConfigured | Fails | Ranks(outcome: Outcome)

  datatype End = NoCandidates | ModelFailed | SaveFailed | Ranked

  // The outcome a pass applies; None when the model fails.
  function PassOutcome(candidates: seq<Issue>, cache: map<Card, CacheRow>, hash: Card -> string, model: Model): Option<Outcome> {
    var cached := FromCache(candidates, cache, hash);
    if Misses(candidates, cache, hash) == [] || model.NotConfigured? then Some(Merged(cached, None, Numbers(candidates)))
    else if model.Fails? then None
    else Some(Merged(cached, Some(model.outcome), Numbers(candidates)))
  }

  method RunRank(candidates: seq<Issue>, cache: map<Card, CacheRow>, hash: Card -> string, model: Model, saveOk: nat -> bool)
    returns (end: End, saved: seq<Issue>, cache': map<Card, CacheRow>)
    ensures end.NoCandidates? <==> candidates == []
    ensures end.ModelFailed? <==> candidates != [] && PassOutcome(candidates, cache, hash, model).None?
    ensures end.NoCandidates? || end.ModelFailed? ==> saved == [] && cache' == cache
    ensures var r := PassOutcome(candidates, cache, hash, model);
            end.Ranked? || end.SaveFailed? ==>
              && r.Some?
              && saved <= FirstPass(candidates, r.value)
              && cache' == CacheAfter(candidates[..|saved|], cache, hash, r.value)
    ensures end.Ranked? ==> |saved| == |candidates|
    ensures end.SaveFailed? ==> |saved| < |candidates| && !saveOk(|saved|)
    ensures forall i :: 0 <= i < |saved| ==> saveOk(i)
  {
    hide Applied, MergedOrdering, CachePuts, Hits, HitEdges, HitPrimitives, Misses;
    saved, cache' := [], cache;
    if |candidates| == 0 {
      return NoCandidates, saved, cache';
    }
    var cached, uncached := PartitionByCache(candidates, cache, hash);
    var merged: Outcome;
    if |uncached| > 0 && !model.NotConfigured? {
      if model.Fails? {
        return ModelFailed, saved, cache';
      }
      var ordering := MergeResults(cached.ordering, Some(model.outcome.ordering), candidates);
      merged := Outcome(ordering, cached.edges + model.outcome.edges, cached.primitives + model.outcome.primitives);
    } else {
      var ordering := MergeResults(cached.ordering, None, candidates);
      merged := cached.(ordering := ordering);
    }
    var ok;
    saved, cache', ok := ApplyResult(candidates, merged.ordering, merged.edges, merged.primitives, cache, hash, saveOk);
    end := if ok then Ranked else SaveFailed;
  }

  // ---- coverage ----

  lemma LastIsNew(s: seq<Issue>)
    requires Distinct(Numbers(s)) && s != []
    ensures var init, last := s[..|s| - 1], s[|s| - 1];
            && s == init + [last]
            && Distinct(Numbers(init)) && Numbers(s) == Numbers(init) + [last.number]
            && last.number !in Numbers(init)
            && forall iss :: iss in init ==> iss.number != last.number
  {
    var init, last := s[..|s| - 1], s[|s| - 1];
    assert Numbers(init) == Numbers(s)[..|s| - 1];
    forall iss | iss in init ensures iss.number != last.number {
      var i :| 0 <= i < |init| && init[i] == iss;
      assert Numbers(s)[i] != Numbers(s)[|s| - 1];
    }
  }

  lemma NoHits(cache: map<Card, CacheRow>, hash: Card -> string)
    ensures Hits([], cache, hash) == [] && Misses([], cache, hash) == []
  {
  }

  lemma HitsOfLonger(init: seq<Issue>, last: Issue, cache: map<Card, CacheRow>, hash: Card -> string)
    ensures var s := init + [last];
            && Hits(s, cache, hash) == Hits(init, cache, hash) + (if Hit(last, cache, hash) then [last.number] else [])
            && Misses(s, cache, hash) == Misses(init, cache, hash) + (if Hit(last, cache, hash) then [] else [last])
  {
    hide Hit;
    assert (init + [last])[..|init|] == init;
  }

  lemma {:induction false} HitsAndMisses(s: seq<Issue>, cache: map<Card, CacheRow>, hash: Card -> string)
    requires Distinct(Numbers(s))
    ensures forall iss :: iss in s ==> (iss.number in Hits(s, cache, hash) <==> Hit(iss, cache, hash))
    ensures Misses(s, cache, hash) == [] <==> forall iss :: iss in s ==> Hit(iss, cache, hash)
    ensures Hits(s, cache, hash) == [] <==> forall iss :: iss in s ==> !Hit(iss, cache, hash)
    ensures forall n :: n in Hits(s, cache, hash) ==> n in Numbers(s)
  {
    hide Hit, Distinct, Hits, Misses;
    if s == [] {
      NoHits(cache, hash);
    } else {
      var init, last := s[..|s| - 1], s[|s| - 1];
      LastIsNew(s);
      HitsAndMisses(init, cache, hash);
      assert forall iss :: iss in s <==> iss in init || iss == last;
      HitsOfLonger(init, last, cache, hash);
    }
  }

  // A pass ranks every candidate exactly when the model answered for the misses, or there are no
  // misses, or there are only misses.
  lemma PassCoversIff(candidates: seq<Issue>, cache: map<Card, CacheRow>, hash: Card -> string, model: Model)
    requires Distinct(Numbers(candidates)) && PassOutcome(candidates, cache, hash, model).Some?
    ensures (forall n :: n in Numbers(candidates) ==> n in PassOutcome(candidates, cache, hash, model).value.ordering)
            <==> || model.Ranks?
                 || (forall iss :: iss in candidates ==> Hit(iss, cache, hash))
                 || (forall iss :: iss in candidates ==> !Hit(iss, cache, hash))
  {
    hide Hit, Hits, Misses, HitEdges, HitPrimitives, MergedOrdering;
    var hits := Hits(candidates, cache, hash);
    HitsAndMisses(candidates, cache, hash);
    NumbersOf(candidates);
    if model.Ranks? {
      MergeCoversIff(hits, Some(model.outcome.ordering), Numbers(candidates));
    }
    MergeCoversIff(hits, None, Numbers(candidates));
  }

  lemma NumbersOf(s: seq<Issue>)
    ensures forall n :: n in Numbers(s) <==> exists iss :: iss in s && iss.number == n
  {
    forall n ensures n in Numbers(s) <==> exists iss :: iss in s && iss.number == n {
      if n in Numbers(s) {
        var i :| 0 <= i < |s| && Numbers(s)[i] == n;
        assert s[i] in s;
      }
      if iss :| iss in s && iss.number == n {
        var i :| 0 <= i < |s| && s[i] == iss;
        assert Numbers(s)[i] == n;
      }
    }
  }

  // ---- a second pass ----

  predicate CachedAs(iss: Issue, cache: map<Card, CacheRow>, hash: Card -> string,
                     edges: map<int, Edge>, primitives: set<int>) {
    CardOf(iss) in cache && cache[CardOf(iss)] == CacheRow(hash(CardOf(iss)), EntryFor(iss, edges, primitives))
  }

  lemma {:induction false} PutsAreHits(cache: map<Card, CacheRow>, s: seq<Issue>, hash: Card -> string,
                                       edges: map<int, Edge>, primitives: set<int>)
    requires Distinct(Numbers(s))
    ensures forall iss :: iss in s ==> CachedAs(iss, CachePuts(cache, s, hash, edges, primitives), hash, edges, primitives)
  {
    hide EntryFor;
    if s != [] {
      var init, last := s[..|s| - 1], s[|s| - 1];
      LastIsNew(s);
      PutsAreHits(cache, init, hash, edges, primitives);
    }
  }

  lemma {:induction false} AllHits(s: seq<Issue>, cache: map<Card, CacheRow>, hash: Card -> string)
    requires forall iss :: iss in s ==> Hit(iss, cache, hash)
    ensures Hits(s, cache, hash) == Numbers(s) && Misses(s, cache, hash) == []
  {
    hide Hit;
    if s != [] {
      var init, last := s[..|s| - 1], s[|s| - 1];
      assert s == init + [last];
      AllHits(init, cache, hash);
      assert Numbers(s) == Numbers(init) + [last.number];
    }
  }

  lemma {:induction false} EdgesComeBack(s: seq<Issue>, cache: map<Card, CacheRow>, hash: Card -> string,
                                         edges: map<int, Edge>, primitives: set<int>)
    requires Distinct(Numbers(s))
    requires forall iss :: iss in s ==> CachedAs(iss, cache, hash, edges, primitives)
    ensures forall n :: n in HitEdges(s, cache, hash) <==> n in Numbers(s) && n in edges && edges[n].dependsOn != []
    ensures forall n :: n in HitEdges(s, cache, hash) ==> HitEdges(s, cache, hash)[n] == edges[n]
  {
    hide Distinct;
    if s != [] {
      var init, last := s[..|s| - 1], s[|s| - 1];
      LastIsNew(s);
      EdgesComeBack(init, cache, hash, edges, primitives);
      assert last in s && CachedAs(last, cache, hash, edges, primitives);
    }
  }

  predicate SameEntry(x: Issue, y: Issue, r: Outcome) {
    CardOf(x) == CardOf(y) && EntryFor(x, r.edges, r.primitives) == EntryFor(y, r.edges, r.primitives)
  }

  lemma {:induction false} PrimitivesComeBack(s: seq<Issue>, cache: map<Card, CacheRow>, hash: Card -> string,
                                              edges: map<int, Edge>, primitives: set<int>)
    requires Distinct(Numbers(s))
    requires forall iss :: iss in s ==> CachedAs(iss, cache, hash, edges, primitives)
    ensures forall n :: n in HitPrimitives(s, cache, hash) <==> n in Numbers(s) && n in primitives
  {
    hide Distinct;
    if s != [] {
      var init, last := s[..|s| - 1], s[|s| - 1];
      LastIsNew(s);
      PrimitivesComeBack(init, cache, hash, edges, primitives);
      assert last in s && CachedAs(last, cache, hash, edges, primitives);
    }
  }

  lemma SameCards(candidates: seq<Issue>, r: Outcome)
    ensures Numbers(FirstPass(candidates, r)) == Numbers(candidates)
    ensures forall iss :: iss in FirstPass(candidates, r) ==> exists was :: was in candidates && SameEntry(was, iss, r)
  {
    var s := FirstPass(candidates, r);
    forall iss | iss in s ensures exists was :: was in candidates && SameEntry(was, iss, r) {
      var i :| 0 <= i < |s| && s[i] == iss;
      assert candidates[i] in candidates && SameEntry(candidates[i], iss, r);
    }
  }

  lemma SecondPassRows(candidates: seq<Issue>, cache: map<Card, CacheRow>, hash: Card -> string, r: Outcome)
    requires Distinct(Numbers(candidates))
    ensures forall iss :: iss in FirstPass(candidates, r) ==>
              CachedAs(iss, CacheAfter(candidates, cache, hash, r), hash, r.edges, r.primitives)
  {
    hide CachePuts, EntryFor, Applied;
    PutsAreHits(cache, candidates, hash, r.edges, r.primitives);
    SameCards(candidates, r);
  }

  // A second pass over issues whose text has not changed asks no model, whatever one is configured,
  // and ranks the candidates in the order they are listed.
  lemma SecondPassListsOrder(candidates: seq<Issue>, cache: map<Card, CacheRow>, hash: Card -> string, r: Outcome, model: Model)
    requires Distinct(Numbers(candidates))
    ensures var r2 := PassOutcome(FirstPass(candidates, r), CacheAfter(candidates, cache, hash, r), hash, model);
            && r2.Some? && r2.value.ordering == Numbers(candidates)
            && (forall n :: n in r2.value.edges <==> n in Numbers(candidates) && n in r.edges && r.edges[n].dependsOn != [])
            && (forall n :: n in r2.value.edges ==> r2.value.edges[n] == r.edges[n])
            && (forall n :: n in r2.value.primitives <==> n in Numbers(candidates) && n in r.primitives)
  {
    hide CachePuts, EntryFor, Applied, Hits, HitEdges, Misses, HitPrimitives;
    var s, c := FirstPass(candidates, r), CacheAfter(candidates, cache, hash, r);
    SecondPassRows(candidates, cache, hash, r);
    SameCards(candidates, r);
    AllHits(s, c, hash);
    EdgesComeBack(s, c, hash, r.edges, r.primitives);
    PrimitivesComeBack(s, c, hash, r.edges, r.primitives);
  }

  // Applying a second outcome that has the issue's edge if and only if it had dependencies.
  lemma SecondUpdate(iss: Issue, r: Outcome, r2: Outcome)
    requires iss.number in r2.edges <==> iss.number in r.edges && r.edges[iss.number].dependsOn != []
    requires iss.number in r2.edges ==> r2.edges[iss.number] == r.edges[iss.number]
    ensures var once := Updated(iss, PriorityMap(r.ordering), r.edges);
            var twice := Updated(once, PriorityMap(r2.ordering), r2.edges);
            twice.deps == once.deps && (twice.rationale == once.rationale <==> !LosesRationale(iss, r))
  {
    hide PriorityMap;
    ApplyKeepsCrossDeps(iss, PriorityMap(r.ordering), r.edges);
    var same := if iss.number in r.edges then SameWorkspace(r.edges[iss.number].dependsOn) else [];
    assert CrossOnly(iss.deps) + [] == CrossOnly(iss.deps);
    if iss.number in r.edges && r.edges[iss.number].dependsOn == [] {
      assert same == [];
    }
  }

  // The edge of the issue gives a rationale and no dependencies.
  predicate LosesRationale(iss: Issue, r: Outcome) {
    iss.number in r.edges && r.edges[iss.number].dependsOn == [] && r.edges[iss.number].rationale != ""
  }

  // Over the whole board, a second pass keeps every card's dependencies, and a card's rationale
  // exactly unless its edge had no dependencies.
  lemma SecondPassKeepsDeps(candidates: seq<Issue>, cache: map<Card, CacheRow>, hash: Card -> string, r: Outcome, model: Model)
    requires Distinct(Numbers(candidates))
    ensures var first := FirstPass(candidates, r);
            var r2 := PassOutcome(first, CacheAfter(candidates, cache, hash, r), hash, model);
            && r2.Some?
            && forall i :: 0 <= i < |candidates| ==>
                 var again := FirstPass(first, r2.value)[i];
                 && again.deps == first[i].deps
                 && (again.rationale == first[i].rationale <==> !LosesRationale(candidates[i], r))
  {
    hide CachePuts, PassOutcome, Updated, CrossOnly;
    var first := FirstPass(candidates, r);
    SecondPassListsOrder(candidates, cache, hash, r, model);
    var r2 := PassOutcome(first, CacheAfter(candidates, cache, hash, r), hash, model).value;
    forall i | 0 <= i < |candidates|
      ensures var again := FirstPass(first, r2)[i];
              && again.deps == first[i].deps
              && (again.rationale == first[i].rationale <==> !LosesRationale(candidates[i], r))
    {
      assert Numbers(candidates)[i] == candidates[i].number;
      assert candidates[i].number in Numbers(candidates);
      SecondUpdate(candidates[i], r, r2);
    }
  }

  lemma {:induction false} KeptOfItself(ordering: seq<int>, numbers: seq<int>)
    requires forall n :: n in ordering ==> n in numbers
    ensures Kept(ordering, numbers) == ordering
  {
    if ordering != [] {
      var init, last := ordering[..|ordering| - 1], ordering[|ordering| - 1];
      assert ordering == init + [last];
      assert last in ordering;
      KeptOfItself(init, numbers);
    }
  }

  // So the order the cards sort into after the second pass is the listing order, and it is the
  // order of the first pass exactly when that ranked the candidates as they are listed.
  lemma RankingForgottenIff(candidates: seq<Issue>, cache: map<Card, CacheRow>, hash: Card -> string, r: Outcome, model: Model)
    requires Distinct(Numbers(candidates)) && Distinct(r.ordering)
    requires forall n :: n in Numbers(candidates) ==> n in r.ordering
    ensures var first := FirstPass(candidates, r);
            var r2 := PassOutcome(first, CacheAfter(candidates, cache, hash, r), hash, model);
            && r2.Some?
            && Numbers(InsertionSorted(FirstPass(first, r2.value))) == Numbers(candidates)
            && (Numbers(InsertionSorted(FirstPass(first, r2.value))) == Numbers(InsertionSorted(first))
                <==> Kept(r.ordering, Numbers(candidates)) == Numbers(candidates))
  {
    hide CachePuts, EntryFor, InsertionSorted, PassOutcome, Kept, Applied;
    var first := FirstPass(candidates, r);
    SecondPassListsOrder(candidates, cache, hash, r, model);
    SameCards(candidates, r);
    var r2 := PassOutcome(first, CacheAfter(candidates, cache, hash, r), hash, model).value;
    RankingRoundTripIff(candidates, r.ordering, r.edges);
    RankingRoundTripIff(first, r2.ordering, r2.edges);
    KeptOfItself(r2.ordering, Numbers(candidates));
  }
}
