// What a rank pass writes on the cards and in the cache, told from the candidates, the cache and the
// model's answer (internal/orchestrator/orchestrator.go).
module RankWrites {
  import opened Options
  import opened Ranking
  import opened RankPass

  // ---- the sort ----

  // Sorted means: a card in front has the higher priority, or the same one and no greater number.
  lemma SortedMeans(s: seq<Issue>)
    ensures var r := InsertionSorted(s);
            forall i, j :: 0 <= i < j < |r| ==>
              r[i].priority > r[j].priority || (r[i].priority == r[j].priority && r[i].number <= r[j].number)
  {
    hide InsertionSorted;
    SortSorts(s);
  }

  // ---- the merged order ----

  // The model's order comes first, then the cached one, then the candidates', each number where it is
  // met first; without a model it is the cached order, or the candidates' when that is empty.
  lemma MergedInOrder(cached: seq<int>, llm: Option<seq<int>>, candidates: seq<int>)
    ensures var o := MergedOrdering(cached, llm, candidates);
            if llm.None? then o == if cached == [] then candidates else cached
            else
              && Distinct(o) && (forall n :: n in o <==> n in llm.value || n in cached || n in candidates)
              && forall i, j :: 0 <= i < j < |o| ==> MetBefore(llm.value + cached + candidates, o[i], o[j])
  {
    if llm.Some? {
      var all := llm.value + cached + candidates;
      MergeWithModel(cached, llm.value, candidates);
      DedupInOrder(all);
      DedupEmptyIff(all);
    }
  }

  ghost predicate MetBefore(all: seq<int>, a: int, b: int) {
    exists i :: 0 <= i < |all| && all[i] == a && forall j :: 0 <= j <= i ==> all[j] != b
  }

  lemma DedupEmptyIff(s: seq<int>)
    ensures Dedup(s) == [] <==> s == []
  {
    DedupElements(s);
    if s != [] {
      var n := s[|s| - 1];
      assert n in s;
      assert n in Dedup(s);
    }
  }

  ghost predicate InMetOrder(all: seq<int>, o: seq<int>) {
    forall i, j :: 0 <= i < j < |o| ==> MetBefore(all, o[i], o[j])
  }

  lemma {:induction false} DedupInOrder(all: seq<int>)
    ensures InMetOrder(all, Dedup(all))
  {
    hide Dedup, InMetOrder;
    if all != [] {
      var init, last := all[..|all| - 1], all[|all| - 1];
      DedupInOrder(init);
      DedupElements(init);
      DedupSnoc(init, last);
      assert all == init + [last];
      OrderMore(init, last, Dedup(init));
    } else {
      DedupEmptyIff(all);
      assert InMetOrder([], []) by {
        NothingMet();
      }
    }
  }

  lemma NothingMet()
    ensures InMetOrder([], [])
  {
  }

  lemma OrderMore(init: seq<int>, last: int, o: seq<int>)
    requires InMetOrder(init, o) && forall n :: n in o <==> n in init
    ensures InMetOrder(init + [last], o) && (last !in init ==> InMetOrder(init + [last], o + [last]))
  {
    hide MetBefore;
    var all := init + [last];
    forall i, j | 0 <= i < j < |o| ensures MetBefore(all, o[i], o[j]) {
      MetBeforeStays(init, last, o[i], o[j]);
    }
    if last !in init {
      forall i | 0 <= i < |o| ensures MetBefore(all, o[i], last) {
        MetBeforeLast(init, last, o[i]);
      }
    }
  }

  lemma MetBeforeLast(init: seq<int>, last: int, a: int)
    requires a in init && last !in init
    ensures MetBefore(init + [last], a, last)
  {
    var all := init + [last];
    var k :| 0 <= k < |init| && init[k] == a;
    assert all[k] == a && forall m :: 0 <= m <= k ==> all[m] == init[m];
  }

  lemma MetBeforeStays(init: seq<int>, last: int, a: int, b: int)
    requires MetBefore(init, a, b)
    ensures MetBefore(init + [last], a, b)
  {
    var all := init + [last];
    var i :| 0 <= i < |init| && init[i] == a && forall j :: 0 <= j <= i ==> init[j] != b;
    assert all[i] == a && forall j :: 0 <= j <= i ==> all[j] == init[j];
  }

  // ---- what is written on a card ----

  // The priority of place p of n: 1.0 at the top, down in equal steps to 1/n.
  function Step(n: nat, p: nat): real
    requires p < n
  {
    1.0 - p as real / n as real
  }

  lemma RankIsStep(n: nat, p: nat)
    requires p < n
    ensures Rank(n, p) == Step(n, p)
  {
    var x, m, k := n as real, (n - p) as real, p as real;
    assert m == x - k;
    assert (x - k) / x == x / x - k / x;
  }

  // The dependencies on other workspaces, in order, then the model's, in the card's own.
  ghost predicate DepsWritten(was: seq<Dep>, edge: Option<Edge>, now: seq<Dep>) {
    var own := if edge.None? then 0 else |edge.value.dependsOn|;
    && own <= |now|
    && (forall i :: 0 <= i < own ==> now[|now| - own + i] == Dep("", edge.value.dependsOn[i]))
    && Foreign(was, now[..|now| - own])
  }

  ghost predicate Foreign(was: seq<Dep>, kept: seq<Dep>) {
    if was == [] then kept == []
    else
      var last := was[|was| - 1];
      if last.workspace == "" then Foreign(was[..|was| - 1], kept)
      else kept != [] && kept[|kept| - 1] == last && Foreign(was[..|was| - 1], kept[..|kept| - 1])
  }

  lemma {:induction false} CrossOnlyIs(deps: seq<Dep>)
    ensures Foreign(deps, CrossOnly(deps))
  {
    if deps != [] {
      CrossOnlyIs(deps[..|deps| - 1]);
      var kept := CrossOnly(deps[..|deps| - 1]);
      assert (kept + [deps[|deps| - 1]])[..|kept|] == kept && kept + [] == kept;
    }
  }

  // Writing a ranking back gives a ranked card the priority of its place and leaves others theirs,
  // replaces its own dependencies by the model's and keeps those on other workspaces, sets or clears
  // the rationale, and changes nothing else.
  lemma AppliedIs(candidates: seq<Issue>, ordering: seq<int>, edges: map<int, Edge>, k: nat)
    requires Distinct(ordering) && k < |candidates|
    ensures var was, now := candidates[k], Applied(candidates, ordering, edges)[k];
            var edge := if was.number in edges then Some(edges[was.number]) else None;
            && (forall p :: 0 <= p < |ordering| && ordering[p] == was.number ==> now.priority == Step(|ordering|, p))
            && (was.number !in ordering ==> now.priority == was.priority)
            && DepsWritten(was.deps, edge, now.deps)
            && now.rationale == (if edge.None? then "" else edge.value.rationale)
            && now == was.(priority := now.priority, deps := now.deps, rationale := now.rationale)
  {
    hide Rank, Step, CrossOnly, Foreign;
    var was, now := candidates[k], Applied(candidates, ordering, edges)[k];
    forall p | 0 <= p < |ordering| && ordering[p] == was.number ensures now.priority == Step(|ordering|, p) {
      PriorityAt(ordering, |ordering|, p);
      RankIsStep(|ordering|, p);
    }
    assert ordering[..|ordering|] == ordering;
    CrossOnlyIs(was.deps);
    var cross := CrossOnly(was.deps);
    assert now.deps[..|cross|] == cross;
  }

  // ---- what is read from the cache ----

  // The card was ranked with its present text.
  predicate Ranked(iss: Issue, cache: map<Card, CacheRow>, hash: Card -> string) {
    var card := Card(iss.workspace, iss.number);
    card in cache && cache[card].hash == hash(card)
  }

  function Cached(iss: Issue, cache: map<Card, CacheRow>): Entry
    requires Card(iss.workspace, iss.number) in cache
  {
    cache[Card(iss.workspace, iss.number)].entry
  }

  ghost predicate EdgeCached(iss: Issue, cache: map<Card, CacheRow>, hash: Card -> string, edges: map<int, Edge>) {
    && (iss.number in edges <==> Ranked(iss, cache, hash) && Cached(iss, cache).dependsOn != [])
    && (iss.number in edges ==> edges[iss.number] == Edge(Cached(iss, cache).dependsOn, Cached(iss, cache).rationale))
  }

  lemma {:induction false} HitEdgesAre(s: seq<Issue>, cache: map<Card, CacheRow>, hash: Card -> string)
    requires Distinct(Numbers(s))
    ensures forall n :: n in HitEdges(s, cache, hash) ==> n in Numbers(s)
    ensures forall iss :: iss in s ==> EdgeCached(iss, cache, hash, HitEdges(s, cache, hash))
  {
    hide Distinct, HitEdges, EdgeCached;
    if s == [] {
      HitEdgesMore(s, cache, hash);
    } else {
      var init, last := s[..|s| - 1], s[|s| - 1];
      LastIsNew(s);
      HitEdgesAre(init, cache, hash);
      HitEdgesMore(s, cache, hash);
      assert forall iss :: iss in s <==> iss in init || iss == last;
      forall iss | iss in s ensures EdgeCached(iss, cache, hash, HitEdges(s, cache, hash)) {
        EdgeMore(init, last, iss, cache, hash, HitEdges(init, cache, hash), HitEdges(s, cache, hash));
      }
    }
  }

  lemma HitEdgesMore(s: seq<Issue>, cache: map<Card, CacheRow>, hash: Card -> string)
    ensures s == [] ==> HitEdges(s, cache, hash) == map[]
    ensures s != [] ==>
              var last, was := s[|s| - 1], HitEdges(s[..|s| - 1], cache, hash);
              HitEdges(s, cache, hash) ==
              if Ranked(last, cache, hash) && Cached(last, cache).dependsOn != []
              then was[last.number := Edge(Cached(last, cache).dependsOn, Cached(last, cache).rationale)] else was
  {
  }

  lemma EdgeMore(init: seq<Issue>, last: Issue, iss: Issue, cache: map<Card, CacheRow>, hash: Card -> string,
                 was: map<int, Edge>, now: map<int, Edge>)
    requires iss == last || (iss in init && iss.number != last.number && EdgeCached(iss, cache, hash, was))
    requires last.number !in was
    requires now == if Ranked(last, cache, hash) && Cached(last, cache).dependsOn != []
                    then was[last.number := Edge(Cached(last, cache).dependsOn, Cached(last, cache).rationale)] else was
    ensures EdgeCached(iss, cache, hash, now)
  {
  }

  lemma {:induction false} HitPrimitivesAre(s: seq<Issue>, cache: map<Card, CacheRow>, hash: Card -> string)
    requires Distinct(Numbers(s))
    ensures forall n :: n in HitPrimitives(s, cache, hash) ==> n in Numbers(s)
    ensures forall iss :: iss in s ==>
              (iss.number in HitPrimitives(s, cache, hash) <==> Ranked(iss, cache, hash) && Cached(iss, cache).isPrimitive)
  {
    hide Distinct;
    if s != [] {
      var init, last := s[..|s| - 1], s[|s| - 1];
      LastIsNew(s);
      HitPrimitivesAre(init, cache, hash);
      assert forall iss :: iss in s <==> iss in init || iss == last;
    }
  }

  // The model is asked when one is configured and some card is not ranked with its present text.
  ghost predicate ModelAsked(candidates: seq<Issue>, cache: map<Card, CacheRow>, hash: Card -> string, model: Model) {
    !model.NotConfigured? && exists iss :: iss in candidates && !Ranked(iss, cache, hash)
  }

  // A pass has no outcome exactly when the model is asked and fails. Otherwise a candidate's edge is the
  // model's, if it was asked and gave one, and else the cached one, if that has dependencies; a
  // candidate is a primitive when the model or the cache says so; other numbers are the model's alone.
  lemma PassOutcomeIs(candidates: seq<Issue>, cache: map<Card, CacheRow>, hash: Card -> string, model: Model)
    requires Distinct(Numbers(candidates))
    ensures var asked := ModelAsked(candidates, cache, hash, model);
            var r := PassOutcome(candidates, cache, hash, model);
            && (r.None? <==> asked && model.Fails?)
            && (r.Some? ==>
                  && (asked ==> model.Ranks?)
                  && (forall n :: n in r.value.edges ==> n in Numbers(candidates) || (asked && n in model.outcome.edges))
                  && (forall n :: asked && n in model.outcome.edges ==> n in r.value.edges && r.value.edges[n] == model.outcome.edges[n])
                  && (forall n :: n in r.value.primitives ==> n in Numbers(candidates) || (asked && n in model.outcome.primitives))
                  && forall iss :: iss in candidates ==> CardOutcome(iss, cache, hash, if asked then Some(model.outcome) else None, r.value))
  {
    hide Hits, HitEdges, HitPrimitives, Misses, MergedOrdering, CardOutcome;
    HitsAndMisses(candidates, cache, hash);
    HitEdgesAre(candidates, cache, hash);
    HitPrimitivesAre(candidates, cache, hash);
    var asked := ModelAsked(candidates, cache, hash, model);
    var r := PassOutcome(candidates, cache, hash, model);
    assert Misses(candidates, cache, hash) == [] <==> forall iss :: iss in candidates ==> Ranked(iss, cache, hash);
    if r.Some? {
      forall iss | iss in candidates
        ensures CardOutcome(iss, cache, hash, if asked then Some(model.outcome) else None, r.value)
      {
        assert EdgeCached(iss, cache, hash, HitEdges(candidates, cache, hash));
        CardOutcomeIs(iss, cache, hash, if asked then Some(model.outcome) else None, r.value, FromCache(candidates, cache, hash));
      }
    }
  }

  ghost predicate CardOutcome(iss: Issue, cache: map<Card, CacheRow>, hash: Card -> string, answer: Option<Outcome>, r: Outcome) {
    var fromModel := answer.Some? && iss.number in answer.value.edges;
    var fromCache := Ranked(iss, cache, hash) && Cached(iss, cache).dependsOn != [];
    && (iss.number in r.edges <==> fromModel || fromCache)
    && (!fromModel && fromCache ==> r.edges[iss.number] == Edge(Cached(iss, cache).dependsOn, Cached(iss, cache).rationale))
    && (iss.number in r.primitives <==>
        (answer.Some? && iss.number in answer.value.primitives) || (Ranked(iss, cache, hash) && Cached(iss, cache).isPrimitive))
  }

  lemma CardOutcomeIs(iss: Issue, cache: map<Card, CacheRow>, hash: Card -> string, answer: Option<Outcome>, r: Outcome, cached: Outcome)
    requires r.edges == if answer.Some? then cached.edges + answer.value.edges else cached.edges
    requires r.primitives == if answer.Some? then cached.primitives + answer.value.primitives else cached.primitives
    requires EdgeCached(iss, cache, hash, cached.edges)
    requires iss.number in cached.primitives <==> Ranked(iss, cache, hash) && Cached(iss, cache).isPrimitive
    ensures CardOutcome(iss, cache, hash, answer, r)
  {
  }

  // ---- what is written to the cache ----

  // After a pass a candidate is ranked with a text if and only if it is the text it was ranked with
  // then; other cards' rows stay.
  lemma RankedAfterIff(candidates: seq<Issue>, cache: map<Card, CacheRow>, hash: Card -> string, r: Outcome, later: Card -> string)
    requires Distinct(Numbers(candidates))
    ensures var after := CacheAfter(candidates, cache, hash, r);
            && (forall iss :: iss in candidates ==> (Ranked(iss, after, later) <==> later(CardOf(iss)) == hash(CardOf(iss))))
            && (forall iss :: iss in candidates ==>
                  CardOf(iss) in after
                  && after[CardOf(iss)].entry ==
                     if iss.number in r.edges
                     then Entry(iss.number in r.primitives, r.edges[iss.number].dependsOn, r.edges[iss.number].rationale)
                     else Entry(iss.number in r.primitives, [], ""))
            && (forall card :: (forall iss :: iss in candidates ==> CardOf(iss) != card) ==>
                  (card in after <==> card in cache) && (card in cache ==> after[card] == cache[card]))
  {
    hide CachePuts;
    PutsAreHits(cache, candidates, hash, r.edges, r.primitives);
    PutsElsewhere(cache, candidates, hash, r.edges, r.primitives);
    var after := CacheAfter(candidates, cache, hash, r);
    assert forall iss :: iss in candidates ==> CachedAs(iss, after, hash, r.edges, r.primitives);
  }

  lemma {:induction false} PutsElsewhere(cache: map<Card, CacheRow>, s: seq<Issue>, hash: Card -> string,
                                         edges: map<int, Edge>, primitives: set<int>)
    ensures forall card :: (forall iss :: iss in s ==> CardOf(iss) != card) ==>
              var after := CachePuts(cache, s, hash, edges, primitives);
              (card in after <==> card in cache) && (card in cache ==> after[card] == cache[card])
  {
    hide EntryFor, CardOf;
    if s != [] {
      var init, last := s[..|s| - 1], s[|s| - 1];
      PutsElsewhere(cache, init, hash, edges, primitives);
      assert forall iss :: iss in s <==> iss in init || iss == last;
    }
  }
}
