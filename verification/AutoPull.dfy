// Pulling TODO cards into PLAN while slots are free (internal/orchestrator/orchestrator.go), and
// queueing a card that finds no slot (internal/orchestrator/drain_pending_pools.go).
// The pool registry, the store's writes and the spawn callbacks answer through a World value.
module AutoPull {
  import opened Options
  import opened Ranking

  function Cards(s: seq<Issue>): (r: seq<Card>)
    ensures |r| == |s| && forall i :: 0 <= i < |s| ==> r[i] == CardOf(s[i])
  {
    seq(|s|, i requires 0 <= i < |s| => CardOf(s[i]))
  }

  // ---- candidates ----

  predicate IsOpen(iss: Issue) {
    iss.state == "" || iss.state == "open"
  }

  function Where(s: seq<Issue>, p: Issue -> bool): seq<Issue> {
    if s == [] then []
    else Where(s[..|s| - 1], p) + (if p(s[|s| - 1]) then [s[|s| - 1]] else [])
  }

  method Select(s: seq<Issue>, p: Issue -> bool) returns (out: seq<Issue>)
    ensures out == Where(s, p)
  {
    out := [];
    for i := 0 to |s|
      invariant out == Where(s[..i], p)
    {
      assert s[..i + 1][..i] == s[..i];
      if p(s[i]) {
        out := out + [s[i]];
      }
    }
    assert s[..|s|] == s;
  }

  // The candidates of one pull, best first.
  function Queue(all: seq<Issue>, wanted: Issue -> bool): seq<Issue> {
    InsertionSorted(Where(Where(all, IsOpen), wanted))
  }

  // ---- eligibility ----

  // Keyed by number only, whatever workspace the open issue is in.
  function OpenNumbers(all: seq<Issue>): set<int> {
    set iss | iss in all && IsOpen(iss) :: iss.number
  }

  method OpenSet(all: seq<Issue>) returns (open: set<int>)
    ensures open == OpenNumbers(all)
  {
    open := {};
    for i := 0 to |all|
      invariant open == OpenNumbers(all[..i])
    {
      assert all[..i + 1] == all[..i] + [all[i]];
      if IsOpen(all[i]) {
        open := open + {all[i].number};
      }
    }
    assert all[..|all|] == all;
  }

  predicate OwnDepsBlock(deps: seq<Dep>, open: set<int>) {
    exists d :: d in deps && d.workspace == "" && d.number in open
  }

  // A dependency the store cannot load is missing from lookup.
  predicate AllResolved(deps: seq<Dep>, lookup: map<Dep, bool>) {
    forall d :: d in deps ==> d in lookup && lookup[d]
  }

  predicate Eligible(c: Issue, open: set<int>, lookup: map<Dep, bool>) {
    && c.column == "todo"
    && !OwnDepsBlock(c.deps, open)
    && AllResolved(c.crossDeps, lookup)
    && !c.externalPending
  }

  // None is the load error, which stops the scan.
  method AllCrossDepsResolved(deps: seq<Dep>, lookup: map<Dep, bool>) returns (r: Option<bool>)
    ensures r == Some(true) <==> AllResolved(deps, lookup)
    ensures r == None ==> exists d :: d in deps && d !in lookup
    ensures r == Some(false) ==> exists d :: d in deps && d in lookup && !lookup[d]
  {
    for i := 0 to |deps|
      invariant AllResolved(deps[..i], lookup)
    {
      assert deps[..i + 1] == deps[..i] + [deps[i]];
      assert deps[i] in deps;
      if deps[i] !in lookup {
        return None;
      }
      if !lookup[deps[i]] {
        return Some(false);
      }
    }
    assert deps[..|deps|] == deps;
    return Some(true);
  }

  // The first eligible candidate.
  function Pick(s: seq<Issue>, open: set<int>, lookup: map<Dep, bool>): (r: Option<nat>)
    ensures r.Some? ==> r.value < |s| && Eligible(s[r.value], open, lookup)
    ensures r.Some? ==> forall i :: 0 <= i < r.value ==> !Eligible(s[i], open, lookup)
    ensures r.None? ==> forall i :: 0 <= i < |s| ==> !Eligible(s[i], open, lookup)
  {
    if s == [] then None
    else if Eligible(s[0], open, lookup) then Some(0)
    else
      var rest := Pick(s[1..], open, lookup);
      assert forall i :: 0 < i < |s| ==> s[i] == s[1..][i - 1];
      if rest.Some? then Some(rest.value + 1) else None
  }

  method PickNextUnblocked(candidates: seq<Issue>, all: seq<Issue>, lookup: map<Dep, bool>)
    returns (next: Option<nat>)
    ensures next == Pick(candidates, OpenNumbers(all), lookup)
  {
    hide Pick;
    var open := OpenSet(all);
    for i := 0 to |candidates|
      invariant forall k :: 0 <= k < i ==> !Eligible(candidates[k], open, lookup)
    {
      var c := candidates[i];
      if c.column != "todo" {
        continue;
      }
      var blocked := false;
      for k := 0 to |c.deps|
        invariant !blocked
        invariant forall j :: 0 <= j < k ==> !(c.deps[j].workspace == "" && c.deps[j].number in open)
      {
        if c.deps[k].workspace == "" && c.deps[k].number in open {
          blocked := true;
          assert c.deps[k] in c.deps;
          break;
        }
      }
      if blocked {
        continue;
      }
      if |c.crossDeps| > 0 {
        var resolved := AllCrossDepsResolved(c.crossDeps, lookup);
        if resolved != Some(true) {
          continue;
        }
      }
      if c.externalPending {
        continue;
      }
      return Some(i);
    }
    return None;
  }

  // ---- what the number-only key costs ----

  // A dependency without a workspace means the issue's own.
  predicate TrulyBlocked(c: Issue, all: seq<Issue>) {
    exists d, iss :: d in c.deps && iss in all && d.workspace == "" && IsOpen(iss)
      && iss.number == d.number && iss.workspace == c.workspace
  }

  // The pick never overlooks an open dependency.
  lemma PickIsSound(c: Issue, all: seq<Issue>)
    requires TrulyBlocked(c, all)
    ensures OwnDepsBlock(c.deps, OpenNumbers(all))
  {
  }

  predicate OpenIn(workspace: string, number: int, all: seq<Issue>) {
    exists iss :: iss in all && IsOpen(iss) && iss.number == number && iss.workspace == workspace
  }

  // It is right about every issue of a workspace exactly when no number is open only elsewhere,
  // which holds when the goal is scoped to one workspace.
  lemma PickIsCompleteIff(workspace: string, all: seq<Issue>, like: Issue)
    ensures (forall c: Issue :: c.workspace == workspace ==>
               (OwnDepsBlock(c.deps, OpenNumbers(all)) <==> TrulyBlocked(c, all)))
            <==> forall n :: n in OpenNumbers(all) ==> OpenIn(workspace, n, all)
  {
    if n :| n in OpenNumbers(all) && !OpenIn(workspace, n, all) {
      var c := like.(workspace := workspace, deps := [Dep("", n)]);
      assert c.deps[0] in c.deps;
      assert OwnDepsBlock(c.deps, OpenNumbers(all));
      assert !TrulyBlocked(c, all);
    }
  }

  // ---- recomputeBlocked ----

  // Only "open" counts here, where the pick also counts the empty state.
  function StrictlyOpen(all: seq<Issue>): set<int> {
    set iss | iss in all && iss.state == "open" :: iss.number
  }

  function Pruned(deps: seq<Dep>, open: set<int>): seq<Dep> {
    if deps == [] then []
    else
      var d := deps[|deps| - 1];
      Pruned(deps[..|deps| - 1], open) + (if d.workspace != "" || d.number in open then [d] else [])
  }

  function PruneSaves(all: seq<Issue>, open: set<int>): seq<Issue> {
    if all == [] then []
    else
      var iss := all[|all| - 1];
      PruneSaves(all[..|all| - 1], open) +
      (if |Pruned(iss.deps, open)| != |iss.deps| then [iss.(deps := Pruned(iss.deps, open))] else [])
  }

  method RecomputeBlocked(all: seq<Issue>) returns (saved: seq<Issue>)
    ensures saved == PruneSaves(all, StrictlyOpen(all))
  {
    var open: set<int> := {};
    for i := 0 to |all|
      invariant open == StrictlyOpen(all[..i])
    {
      assert all[..i + 1] == all[..i] + [all[i]];
      if all[i].state == "open" {
        open := open + {all[i].number};
      }
    }
    assert all[..|all|] == all;
    saved := [];
    for i := 0 to |all|
      invariant saved == PruneSaves(all[..i], open)
    {
      var deps := all[i].deps;
      assert all[..i + 1][..i] == all[..i];
      var stillOpen: seq<Dep> := [];
      for k := 0 to |deps|
        invariant stillOpen == Pruned(deps[..k], open)
      {
        assert deps[..k + 1][..k] == deps[..k];
        if deps[k].workspace != "" || deps[k].number in open {
          stillOpen := stillOpen + [deps[k]];
        }
      }
      assert deps[..|deps|] == deps;
      if |stillOpen| != |deps| {
        saved := saved + [all[i].(deps := stillOpen)];
      }
    }
  }

  lemma {:induction false} PrunedElements(deps: seq<Dep>, open: set<int>)
    ensures forall d :: d in Pruned(deps, open) <==> d in deps && (d.workspace != "" || d.number in open)
  {
    hide Pruned;
    PrunedStep(deps, open);
    if deps != [] {
      var init, last := deps[..|deps| - 1], deps[|deps| - 1];
      PrunedElements(init, open);
      assert deps == init + [last];
      assert forall d :: d in deps <==> d in init || d == last;
    }
  }

  // Comparing lengths, as the code does, finds every list that loses a dependency.
  lemma {:induction false} PrunedLength(deps: seq<Dep>, open: set<int>)
    ensures |Pruned(deps, open)| <= |deps| && (|Pruned(deps, open)| == |deps| <==> Pruned(deps, open) == deps)
  {
    hide Pruned;
    PrunedStep(deps, open);
    if deps != [] {
      PrunedLength(deps[..|deps| - 1], open);
      assert deps == deps[..|deps| - 1] + [deps[|deps| - 1]];
    }
  }

  lemma PrunedStep(deps: seq<Dep>, open: set<int>)
    ensures deps == [] ==> Pruned(deps, open) == []
    ensures deps != [] ==>
              var last := deps[|deps| - 1];
              Pruned(deps, open) == Pruned(deps[..|deps| - 1], open)
                                    + (if last.workspace != "" || last.number in open then [last] else [])
  {
  }

  // Pruning by one list of issues leaves the pick's verdict over another as it was, for every
  // dependency list, exactly when every number the pick counts as open is "open" in the first.
  lemma PruneKeepsVerdictIff(everything: seq<Issue>, scope: seq<Issue>)
    ensures (forall deps: seq<Dep> ::
               OwnDepsBlock(Pruned(deps, StrictlyOpen(everything)), OpenNumbers(scope))
               <==> OwnDepsBlock(deps, OpenNumbers(scope)))
            <==> OpenNumbers(scope) <= StrictlyOpen(everything)
  {
    hide Pruned;
    var strict := StrictlyOpen(everything);
    forall deps: seq<Dep>
      ensures forall d :: d in Pruned(deps, strict) <==> d in deps && (d.workspace != "" || d.number in strict)
    {
      PrunedElements(deps, strict);
    }
    if n :| n in OpenNumbers(scope) && n !in strict {
      var deps := [Dep("", n)];
      assert deps[0] in deps;
      assert OwnDepsBlock(deps, OpenNumbers(scope));
      assert !OwnDepsBlock(Pruned(deps, strict), OpenNumbers(scope));
    }
  }

  // ---- the candidate list shrinks ----

  function Remove(s: seq<Issue>, card: Card): seq<Issue> {
    if s == [] then []
    else if CardOf(s[0]) == card then s[1..]
    else [s[0]] + Remove(s[1..], card)
  }

  lemma RemoveAt(s: seq<Issue>, card: Card, i: nat)
    requires i < |s|
    ensures CardOf(s[i]) == card ==> Remove(s[i..], card) == s[i + 1..]
    ensures CardOf(s[i]) != card ==> s[..i] + Remove(s[i..], card) == s[..i + 1] + Remove(s[i + 1..], card)
  {
    hide CardOf;
    assert s[i..][1..] == s[i + 1..];
    assert s[..i + 1] == s[..i] + [s[i]];
  }

  method RemoveFirst(s: seq<Issue>, card: Card) returns (r: seq<Issue>)
    ensures r == Remove(s, card)
  {
    hide Remove, CardOf;
    RemoveEnds(s, card);
    for i := 0 to |s|
      invariant Remove(s, card) == s[..i] + Remove(s[i..], card)
    {
      RemoveAt(s, card, i);
      if CardOf(s[i]) == card {
        return s[..i] + s[i + 1..];
      }
    }
    return s;
  }

  lemma RemoveEnds(s: seq<Issue>, card: Card)
    ensures s[..0] + Remove(s[0..], card) == Remove(s, card)
    ensures s[..|s|] + Remove(s[|s|..], card) == s
  {
    assert s[0..] == s && s[|s|..] == [];
  }

  lemma {:induction false} RemoveShrinks(s: seq<Issue>, card: Card)
    ensures (exists i :: 0 <= i < |s| && CardOf(s[i]) == card) ==> |Remove(s, card)| == |s| - 1
  {
    if s != [] && CardOf(s[0]) != card {
      RemoveShrinks(s[1..], card);
      assert forall i :: 0 < i < |s| ==> s[i] == s[1..][i - 1];
    }
  }

  // What is left after k rounds; the cross-workspace answers may differ from round to round.
  function Remaining(s: seq<Issue>, open: set<int>, lookup: nat -> map<Dep, bool>, k: nat): seq<Issue> {
    if k == 0 then s
    else
      var r := Remaining(s, open, lookup, k - 1);
      var p := Pick(r, open, lookup(k - 1));
      if p.None? then r else Remove(r, CardOf(r[p.value]))
  }

  function Picked(s: seq<Issue>, open: set<int>, lookup: nat -> map<Dep, bool>, k: nat): Option<Issue> {
    var r := Remaining(s, open, lookup, k);
    var p := Pick(r, open, lookup(k));
    if p.None? then None else Some(r[p.value])
  }

  function Picks(s: seq<Issue>, open: set<int>, lookup: nat -> map<Dep, bool>, n: nat): seq<Issue> {
    if n == 0 then []
    else
      var p := Picked(s, open, lookup, n - 1);
      Picks(s, open, lookup, n - 1) + (if p.None? then [] else [p.value])
  }

  ghost predicate DistinctCards(s: seq<Issue>) {
    Distinct(Cards(s))
  }

  lemma TailDistinct(s: seq<Issue>)
    requires DistinctCards(s) && s != []
    ensures DistinctCards(s[1..]) && forall x :: x in s[1..] ==> CardOf(x) != CardOf(s[0])
  {
    assert Cards(s)[1..] == Cards(s[1..]);
    forall x | x in s[1..] ensures CardOf(x) != CardOf(s[0]) {
      var i :| 0 <= i < |s[1..]| && s[1..][i] == x;
      assert Cards(s)[i + 1] != Cards(s)[0];
    }
  }

  lemma ConsDistinct(x: Issue, t: seq<Issue>)
    requires DistinctCards(t) && forall y :: y in t ==> CardOf(y) != CardOf(x)
    ensures DistinctCards([x] + t)
  {
    assert Cards([x] + t) == [CardOf(x)] + Cards(t);
    forall j | 0 <= j < |t| ensures Cards(t)[j] != CardOf(x) {
      assert t[j] in t;
    }
  }

  lemma {:induction false} RemoveElements(s: seq<Issue>, card: Card)
    requires DistinctCards(s)
    ensures DistinctCards(Remove(s, card))
    ensures forall x :: x in Remove(s, card) <==> x in s && CardOf(x) != card
  {
    hide DistinctCards;
    if s != [] {
      TailDistinct(s);
      assert forall x :: x in s <==> x == s[0] || x in s[1..];
      if CardOf(s[0]) != card {
        RemoveElements(s[1..], card);
        ConsDistinct(s[0], Remove(s[1..], card));
      }
    }
  }

  lemma {:induction false} RemainingElements(s: seq<Issue>, open: set<int>, lookup: nat -> map<Dep, bool>, k: nat)
    requires DistinctCards(s)
    ensures DistinctCards(Remaining(s, open, lookup, k))
    ensures forall x :: x in Remaining(s, open, lookup, k) ==> x in s
  {
    hide Pick, Remove;
    if k > 0 {
      RemainingElements(s, open, lookup, k - 1);
      var r := Remaining(s, open, lookup, k - 1);
      var p := Pick(r, open, lookup(k - 1));
      if p.Some? {
        RemoveElements(r, CardOf(r[p.value]));
      }
    }
  }

  lemma {:induction false} PickedIsGone(s: seq<Issue>, open: set<int>, lookup: nat -> map<Dep, bool>, i: nat, j: nat)
    requires DistinctCards(s) && i < j && Picked(s, open, lookup, i).Some?
    ensures forall x :: x in Remaining(s, open, lookup, j) ==> CardOf(x) != CardOf(Picked(s, open, lookup, i).value)
    decreases j
  {
    hide Pick, Remove;
    RemainingElements(s, open, lookup, j - 1);
    var r := Remaining(s, open, lookup, j - 1);
    var p := Pick(r, open, lookup(j - 1));
    if p.Some? {
      RemoveElements(r, CardOf(r[p.value]));
    }
    if i < j - 1 {
      PickedIsGone(s, open, lookup, i, j - 1);
    }
  }

  // No card is picked twice in one pull, even when cross-workspace answers change in between.
  lemma NeverTwice(s: seq<Issue>, open: set<int>, lookup: nat -> map<Dep, bool>, i: nat, j: nat)
    requires DistinctCards(s) && i < j
    requires Picked(s, open, lookup, i).Some? && Picked(s, open, lookup, j).Some?
    ensures CardOf(Picked(s, open, lookup, i).value) != CardOf(Picked(s, open, lookup, j).value)
  {
    hide Pick;
    PickedIsGone(s, open, lookup, i, j);
    var r := Remaining(s, open, lookup, j);
    var p := Pick(r, open, lookup(j));
    assert r[p.value] in r;
  }

  // The eligible members of s, in order.
  function Eligibles(s: seq<Issue>, open: set<int>, lookup: map<Dep, bool>): seq<Issue> {
    if s == [] then []
    else (if Eligible(s[0], open, lookup) then [s[0]] else []) + Eligibles(s[1..], open, lookup)
  }

  lemma SkipEligibles(s: seq<Issue>, open: set<int>, lookup: map<Dep, bool>)
    requires s != [] && !Eligible(s[0], open, lookup)
    ensures Eligibles(s, open, lookup) == Eligibles(s[1..], open, lookup)
  {
    hide Eligible;
    assert [] + Eligibles(s[1..], open, lookup) == Eligibles(s[1..], open, lookup);
  }

  lemma SkipPick(s: seq<Issue>, open: set<int>, lookup: map<Dep, bool>)
    requires s != [] && !Eligible(s[0], open, lookup)
    ensures var p := Pick(s[1..], open, lookup); Pick(s, open, lookup) == if p.None? then None else Some(p.value + 1)
  {
    hide Eligible;
  }

  lemma RemoveBehind(x: Issue, t: seq<Issue>, card: Card, open: set<int>, lookup: map<Dep, bool>)
    requires CardOf(x) != card && !Eligible(x, open, lookup)
    ensures Eligibles(Remove([x] + t, card), open, lookup) == Eligibles(Remove(t, card), open, lookup)
  {
    hide Eligible, CardOf;
    assert ([x] + t)[1..] == t;
    var rest := Remove(t, card);
    assert ([x] + rest)[1..] == rest;
  }

  lemma TakeFirst(s: seq<Issue>, open: set<int>, lookup: map<Dep, bool>)
    requires s != [] && Eligible(s[0], open, lookup)
    ensures Pick(s, open, lookup) == Some(0)
    ensures Eligibles(s, open, lookup) == [s[0]] + Eligibles(s[1..], open, lookup) && Remove(s, CardOf(s[0])) == s[1..]
  {
    hide Eligible;
  }

  lemma NoneToPick(open: set<int>, lookup: map<Dep, bool>)
    ensures Pick([], open, lookup) == None && Eligibles([], open, lookup) == []
  {
  }

  lemma {:induction false} PickTakesFirst(s: seq<Issue>, open: set<int>, lookup: map<Dep, bool>)
    requires DistinctCards(s)
    ensures var p := Pick(s, open, lookup);
            Eligibles(s, open, lookup) ==
            if p.None? then [] else [s[p.value]] + Eligibles(Remove(s, CardOf(s[p.value])), open, lookup)
  {
    hide Eligible, Eligibles, Pick, Remove, CardOf, DistinctCards;
    if s == [] {
      NoneToPick(open, lookup);
    } else if Eligible(s[0], open, lookup) {
      TakeFirst(s, open, lookup);
    } else {
      TailDistinct(s);
      PickTakesFirst(s[1..], open, lookup);
      SkipEligibles(s, open, lookup);
      SkipPick(s, open, lookup);
      var p := Pick(s[1..], open, lookup);
      if p.Some? {
        var x := s[1..][p.value];
        assert s == [s[0]] + s[1..] && s[p.value + 1] == x && x in s[1..];
        RemoveBehind(s[0], s[1..], CardOf(x), open, lookup);
      }
    }
  }

  // One round takes the first eligible card off what is left.
  lemma RoundTakesFirst(s: seq<Issue>, open: set<int>, lookup: nat -> map<Dep, bool>, k: nat)
    requires DistinctCards(s) && lookup(k) == lookup(0)
    ensures var e := Eligibles(Remaining(s, open, lookup, k), open, lookup(0));
            && Picked(s, open, lookup, k) == (if e == [] then None else Some(e[0]))
            && (e != [] ==> Eligibles(Remaining(s, open, lookup, k + 1), open, lookup(0)) == e[1..])
            && (e == [] ==> Remaining(s, open, lookup, k + 1) == Remaining(s, open, lookup, k))
  {
    hide Pick, Remove, Eligibles, DistinctCards;
    RemainingElements(s, open, lookup, k);
    PickTakesFirst(Remaining(s, open, lookup, k), open, lookup(k));
  }

  // When the cross-workspace answers stay the same for n rounds, these take the first n eligible cards.
  lemma {:induction false} PullsInOrder(s: seq<Issue>, open: set<int>, lookup: nat -> map<Dep, bool>, n: nat)
    requires DistinctCards(s) && forall k: nat :: k < n ==> lookup(k) == lookup(0)
    ensures var e := Eligibles(s, open, lookup(0));
            && Picks(s, open, lookup, n) == (if n <= |e| then e[..n] else e)
            && Eligibles(Remaining(s, open, lookup, n), open, lookup(0)) == (if n <= |e| then e[n..] else [])
  {
    hide Remaining, Eligibles, DistinctCards, Picked, Picks;
    var e := Eligibles(s, open, lookup(0));
    if n == 0 {
      RemainingAtStart(s, open, lookup);
      assert e[..0] == [] && e[0..] == e;
    } else {
      PullsInOrder(s, open, lookup, n - 1);
      assert lookup(n - 1) == lookup(0);
      RoundTakesFirst(s, open, lookup, n - 1);
      OneMorePicked(s, open, lookup, n - 1);
      OneMoreTaken(e, n - 1);
    }
  }

  lemma OneMorePicked(s: seq<Issue>, open: set<int>, lookup: nat -> map<Dep, bool>, n: nat)
    ensures var p := Picked(s, open, lookup, n);
            Picks(s, open, lookup, n + 1) == if p.None? then Picks(s, open, lookup, n) else Picks(s, open, lookup, n) + [p.value]
  {
    hide Picked;
    assert Picks(s, open, lookup, n) + [] == Picks(s, open, lookup, n);
  }

  lemma OneMoreTaken(e: seq<Issue>, n: nat)
    ensures n < |e| ==> e[..n + 1] == e[..n] + [e[n]] && e[n..] != [] && e[n..][0] == e[n] && e[n..][1..] == e[n + 1..]
    ensures n == |e| ==> e[..n] == e && e[n..] == []
  {
  }

  lemma RemainingAtStart(s: seq<Issue>, open: set<int>, lookup: nat -> map<Dep, bool>)
    ensures Remaining(s, open, lookup, 0) == s && Picks(s, open, lookup, 0) == []
  {
  }

  lemma {:induction false} EligiblesElements(s: seq<Issue>, open: set<int>, lookup: map<Dep, bool>)
    ensures forall x :: x in Eligibles(s, open, lookup) <==> x in s && Eligible(x, open, lookup)
  {
    hide Eligible;
    if s != [] {
      EligiblesElements(s[1..], open, lookup);
      assert forall x :: x in s <==> x == s[0] || x in s[1..];
    }
  }

  lemma {:induction false} EligiblesSorted(s: seq<Issue>, open: set<int>, lookup: map<Dep, bool>)
    requires Sorted(s)
    ensures Sorted(Eligibles(s, open, lookup))
  {
    hide Eligible, Before;
    if s != [] {
      EligiblesSorted(s[1..], open, lookup);
      EligiblesElements(s[1..], open, lookup);
      var rest := Eligibles(s[1..], open, lookup);
      forall i | 0 <= i < |rest| ensures !Before(rest[i], s[0]) {
        assert rest[i] in rest && rest[i] in s[1..];
        var k :| 0 <= k < |s[1..]| && s[1..][k] == rest[i];
        assert s[k + 1] == rest[i];
      }
    }
  }

  lemma {:induction false} WhereElements(s: seq<Issue>, p: Issue -> bool)
    ensures forall x :: x in Where(s, p) <==> x in s && p(x)
  {
    if s != [] {
      WhereElements(s[..|s| - 1], p);
      assert s == s[..|s| - 1] + [s[|s| - 1]];
    }
  }

  // The cards n rounds take are the n best, by priority and then number, of the open, wanted,
  // eligible issues.
  lemma PullIsGreedy(all: seq<Issue>, wanted: Issue -> bool, lookup: nat -> map<Dep, bool>, n: nat)
    requires DistinctCards(Queue(all, wanted)) && forall k: nat :: k < n ==> lookup(k) == lookup(0)
    ensures var open := OpenNumbers(all);
            var e := Eligibles(Queue(all, wanted), open, lookup(0));
            && Sorted(e)
            && (forall x :: x in e <==> x in all && IsOpen(x) && wanted(x) && Eligible(x, open, lookup(0)))
            && Picks(Queue(all, wanted), open, lookup, n) == if n <= |e| then e[..n] else e
  {
    hide Eligible, InsertionSorted, Eligibles, Picks, Sorted;
    var kept := Where(Where(all, IsOpen), wanted);
    SortSorts(kept);
    SortPermutes(kept);
    EligiblesSorted(Queue(all, wanted), OpenNumbers(all), lookup(0));
    EligiblesElements(Queue(all, wanted), OpenNumbers(all), lookup(0));
    WhereElements(all, IsOpen);
    WhereElements(Where(all, IsOpen), wanted);
    forall x ensures x in Queue(all, wanted) <==> x in kept {
      InPermutation(Queue(all, wanted), kept, x);
    }
    PullsInOrder(Queue(all, wanted), OpenNumbers(all), lookup, n);
  }

  // ---- the queue of waiting cards ----

  // At most one row for a card, role and action.
  datatype Row = Row(card: Card, role: string, action: string)

  function Enqueued(rows: seq<Row>, row: Row): seq<Row> {
    if row in rows then rows else rows + [row]
  }

  function Without(rows: seq<Row>, card: Card): seq<Row> {
    if rows == [] then []
    else Without(rows[..|rows| - 1], card) + (if rows[|rows| - 1].card == card then [] else [rows[|rows| - 1]])
  }

  function Dequeued(rows: seq<Row>, row: Row): seq<Row> {
    if rows == [] then []
    else Dequeued(rows[..|rows| - 1], row) + (if rows[|rows| - 1] == row then [] else [rows[|rows| - 1]])
  }

  datatype Board = Board(
    acquired: nat,
    released: nat,
    moved: seq<Card>,   // into PLAN
    spawned: seq<Card>,
    rows: seq<Row>,
    waiting: set<Card>) // cards flagged as waiting for a pool

  function Cleared(b: Board, card: Card): Board {
    b.(rows := Without(b.rows, card), waiting := b.waiting - {card})
  }

  function Waits(b: Board, card: Card): Board {
    b.(rows := Enqueued(b.rows, Row(card, "plan", "spawn:plan")), waiting := b.waiting + {card})
  }

  // A pull that goes through.
  function Pulled(b: Board, card: Card): Board {
    var c := Cleared(b, card);
    c.(acquired := c.acquired + 1, moved := c.moved + [card], spawned := c.spawned + [card])
  }

  function AllPulled(b: Board, cards: seq<Card>): Board {
    if cards == [] then b else Pulled(AllPulled(b, cards[..|cards| - 1]), cards[|cards| - 1])
  }

  datatype Exit = NoSlotAtStart | SlotsUsed | NothingEligible | Raced | MoveFailed | SpawnFailed

  // How the k-th round of a pull is answered.
  datatype World = World(
    freeAtStart: int,
    free: nat -> int,
    lookup: nat -> map<Dep, bool>,
    acquire: nat -> bool,
    moveOk: nat -> bool,
    spawnOk: nat -> bool)

  // The board a pull leaves that stopped with next picked.
  function Stopped(b: Board, next: Option<Issue>, exit: Exit): Board {
    if next.None? || exit.SlotsUsed? then b else StoppedOn(b, CardOf(next.value), exit)
  }

  function StoppedOn(b: Board, card: Card, exit: Exit): Board {
    match exit
    case NoSlotAtStart => Waits(b, card)
    case Raced => Waits(b, card)
    case MoveFailed => Cleared(b, card).(acquired := b.acquired + 1, released := b.released + 1)
    case SpawnFailed =>
      // The card stays in PLAN.
      Cleared(b, card).(acquired := b.acquired + 1, released := b.released + 1, moved := b.moved + [card])
    case _ => b
  }

  ghost predicate Passes(w: World, next: int -> Option<Issue>, k: nat) {
    w.free(k) > 0 && next(k).Some? && w.acquire(k) && w.moveOk(k) && w.spawnOk(k)
  }

  // Round n is where a pull stops, and why.
  ghost predicate StopsAt(w: World, next: int -> Option<Issue>, n: nat, exit: Exit) {
    if w.freeAtStart <= 0 then n == 0 && exit == NoSlotAtStart
    else
      && (forall k: nat :: k < n ==> Passes(w, next, k))
      && !Passes(w, next, n)
      && exit == if w.free(n) <= 0 then SlotsUsed
                 else if next(n).None? then NothingEligible
                 else if !w.acquire(n) then Raced
                 else if !w.moveOk(n) then MoveFailed else SpawnFailed
  }

  lemma StopAtStart(w: World, next: int -> Option<Issue>)
    requires w.freeAtStart <= 0
    ensures StopsAt(w, next, 0, NoSlotAtStart)
  {
  }

  lemma StopHere(w: World, next: int -> Option<Issue>, n: nat, exit: Exit)
    requires w.freeAtStart > 0 && forall k: nat :: k < n ==> Passes(w, next, k)
    requires exit == if w.free(n) <= 0 then SlotsUsed
                     else if next(n).None? then NothingEligible
                     else if !w.acquire(n) then Raced
                     else if !w.moveOk(n) then MoveFailed else SpawnFailed
    requires exit == SpawnFailed ==> !w.spawnOk(n)
    ensures StopsAt(w, next, n, exit)
  {
  }

  lemma RoundPasses(w: World, next: int -> Option<Issue>, k: nat)
    requires w.free(k) > 0 && next(k).Some? && w.acquire(k) && w.moveOk(k) && w.spawnOk(k)
    ensures Passes(w, next, k)
  {
  }

  // There is at most one such round.
  lemma StopIsUnique(w: World, next: int -> Option<Issue>, n: nat, exit: Exit, n': nat, exit': Exit)
    requires StopsAt(w, next, n, exit) && StopsAt(w, next, n', exit')
    ensures n == n' && exit == exit'
  {
    hide Passes;
  }

  // The pick of each round over one queue.
  ghost function Rounds(q: seq<Issue>, open: set<int>, lookup: nat -> map<Dep, bool>): (next: int -> Option<Issue>) {
    k => if k < 0 then None else Picked(q, open, lookup, k)
  }

  // A pull from one board to another: it stops in round n for that reason.
  ghost predicate Ends(all: seq<Issue>, wanted: Issue -> bool, w: World, start: Board, n: nat, exit: Exit, end: Board) {
    var q, open := Queue(all, wanted), OpenNumbers(all);
    && StopsAt(w, Rounds(q, open, w.lookup), n, exit)
    && end == Stopped(AllPulled(start, Cards(Picks(q, open, w.lookup, n))), Picked(q, open, w.lookup, n), exit)
  }

  class Orchestrator {
    var acquired: nat
    var released: nat
    var moved: seq<Card>
    var spawned: seq<Card>
    var rows: seq<Row>
    var waiting: set<Card>

    function View(): Board
      reads this
    {
      Board(acquired, released, moved, spawned, rows, waiting)
    }

    constructor ()
      ensures View() == Board(0, 0, [], [], [], {})
    {
      acquired, released, moved, spawned, rows, waiting := 0, 0, [], [], [], {};
    }

    method DeletePendingForIssue(card: Card)
      modifies `rows
      ensures rows == Without(old(rows), card)
    {
      var kept: seq<Row> := [];
      for i := 0 to |rows|
        invariant rows == old(rows)
        invariant kept == Without(rows[..i], card)
      {
        assert rows[..i + 1][..i] == rows[..i];
        if rows[i].card != card {
          kept := kept + [rows[i]];
        }
      }
      assert rows[..|rows|] == rows;
      rows := kept;
    }

    method ClearWaitingForPool(card: Card)
      modifies `rows, `waiting
      ensures View() == Cleared(old(View()), card)
    {
      DeletePendingForIssue(card);
      waiting := waiting - {card};
    }

    method EnqueuePending(card: Card, role: string, action: string)
      modifies `rows, `waiting
      ensures rows == Enqueued(old(rows), Row(card, role, action)) && waiting == old(waiting) + {card}
    {
      if Row(card, role, action) !in rows {
        rows := rows + [Row(card, role, action)];
      }
      waiting := waiting + {card};
    }

    method WaitForSlot(card: Card)
      modifies `rows, `waiting
      ensures View() == StoppedOn(old(View()), card, NoSlotAtStart)
    {
      EnqueuePending(card, "plan", "spawn:plan");
    }

    // The body of one round, once a card is picked.
    method PullRound(card: Card, acquireOk: bool, moveOk: bool, spawnOk: bool) returns (pulled: bool)
      modifies this
      ensures pulled <==> acquireOk && moveOk && spawnOk
      ensures View() == if pulled then Pulled(old(View()), card)
                        else StoppedOn(old(View()), card,
                                       if !acquireOk then Raced else if !moveOk then MoveFailed else SpawnFailed)
    {
      if !acquireOk {
        EnqueuePending(card, "plan", "spawn:plan");
        return false;
      }
      acquired := acquired + 1;
      ClearWaitingForPool(card);
      if !moveOk {
        released := released + 1;
        return false;
      }
      moved := moved + [card];
      if !spawnOk {
        released := released + 1;
        return false;
      }
      spawned := spawned + [card];
      return true;
    }

    method AutoPull(all: seq<Issue>, wanted: Issue -> bool, w: World) returns (ghost n: nat, ghost exit: Exit)
      modifies this
      ensures Ends(all, wanted, w, old(View()), n, exit, View())
    {
      hide StopsAt, Queue, OpenNumbers, Pick, Remove, Remaining, Picks, Cards, AllPulled, Pulled, StoppedOn, Passes;
      var candidates := Candidates(all, wanted);
      ghost var q, start, open := candidates, View(), OpenNumbers(all);
      n := 0;
      NoPicks(q, open, w.lookup, start);
      if w.freeAtStart <= 0 {
        var next := PickNextUnblocked(candidates, all, w.lookup(0));
        if next.Some? {
          WaitForSlot(CardOf(candidates[next.value]));
        }
        exit := NoSlotAtStart;
        StopAtStart(w, Rounds(q, open, w.lookup));
        return;
      }
      var k := 0;
      while w.free(k) > 0
        invariant k == n
        invariant candidates == Remaining(q, open, w.lookup, k)
        invariant View() == AllPulled(start, Cards(Picks(q, open, w.lookup, k)))
        invariant forall j: nat :: j < k ==> Passes(w, Rounds(q, open, w.lookup), j)
        decreases |candidates|
      {
        var next := PickNextUnblocked(candidates, all, w.lookup(k));
        if next.None? {
          exit := NothingEligible;
          StopHere(w, Rounds(q, open, w.lookup), k, exit);
          return;
        }
        var card := CardOf(candidates[next.value]);
        var pulled := PullRound(card, w.acquire(k), w.moveOk(k), w.spawnOk(k));
        if !pulled {
          exit := if !w.acquire(k) then Raced else if !w.moveOk(k) then MoveFailed else SpawnFailed;
          StopHere(w, Rounds(q, open, w.lookup), k, exit);
          return;
        }
        RemoveShrinks(candidates, card);
        RoundPasses(w, Rounds(q, open, w.lookup), k);
        OneMorePick(q, open, w.lookup, k, start);
        candidates := RemoveFirst(candidates, card);
        k, n := k + 1, n + 1;
      }
      exit := SlotsUsed;
      StopHere(w, Rounds(q, open, w.lookup), k, exit);
    }
  }

  method Candidates(all: seq<Issue>, wanted: Issue -> bool) returns (candidates: seq<Issue>)
    ensures candidates == Queue(all, wanted)
  {
    var open := Select(all, IsOpen);
    var kept := Select(open, wanted);
    var a := new Issue[|kept|](i requires 0 <= i < |kept| => kept[i]);
    assert a[..] == kept;
    SortByOrchestratorPriority(a);
    candidates := a[..];
  }

  lemma NoPicks(q: seq<Issue>, open: set<int>, lookup: nat -> map<Dep, bool>, b: Board)
    ensures Remaining(q, open, lookup, 0) == q && AllPulled(b, Cards(Picks(q, open, lookup, 0))) == b
  {
  }

  lemma OneMorePick(q: seq<Issue>, open: set<int>, lookup: nat -> map<Dep, bool>, k: nat, b: Board)
    requires Picked(q, open, lookup, k).Some?
    ensures AllPulled(b, Cards(Picks(q, open, lookup, k + 1)))
            == Pulled(AllPulled(b, Cards(Picks(q, open, lookup, k))), CardOf(Picked(q, open, lookup, k).value))
    ensures Remaining(q, open, lookup, k + 1)
            == Remove(Remaining(q, open, lookup, k), CardOf(Picked(q, open, lookup, k).value))
  {
    hide Pulled, Pick, Remove;
    var cards := Cards(Picks(q, open, lookup, k + 1));
    assert cards[..|cards| - 1] == Cards(Picks(q, open, lookup, k));
  }

  // Every slot a pull acquires is either handed to a spawned card or released, however it ends.
  lemma {:induction false} PullLedger(b: Board, cards: seq<Card>, next: Option<Issue>, exit: Exit)
    ensures var after := Stopped(AllPulled(b, cards), next, exit);
            && after.spawned == b.spawned + cards
            && after.acquired - after.released == b.acquired - b.released + |cards|
  {
    AllPulledLedger(b, cards);
  }

  lemma {:induction false} AllPulledLedger(b: Board, cards: seq<Card>)
    ensures var after := AllPulled(b, cards);
            && after.spawned == b.spawned + cards
            && after.acquired == b.acquired + |cards| && after.released == b.released
  {
    if cards != [] {
      AllPulledLedger(b, cards[..|cards| - 1]);
      assert cards == cards[..|cards| - 1] + [cards[|cards| - 1]];
    }
  }
}
