// What a pull does to the board, told from the issues, the goal and the answers it gets
// (internal/orchestrator/orchestrator.go, internal/orchestrator/drain_pending_pools.go).
module PullOutcome {
  import opened Options
  import opened Ranking
  import opened AutoPull

  // ---- the cards it takes ----

  predicate Open(x: Issue) {
    x.state == "" || x.state == "open"
  }

  // The issue is open, wanted and in TODO, no open issue has the number of a dependency of its own
  // workspace, all others are known to be resolved, and nothing external is pending.
  predicate Pullable(x: Issue, all: seq<Issue>, wanted: Issue -> bool, lookup: map<Dep, bool>) {
    && x in all && Open(x) && wanted(x) && x.column == "todo"
    && (forall d, y :: d in x.deps && d.workspace == "" && y in all && Open(y) ==> y.number != d.number)
    && (forall d :: d in x.crossDeps ==> d in lookup && lookup[d])
    && !x.externalPending
  }

  predicate NotAfter(x: Issue, y: Issue) {
    x.priority > y.priority || (x.priority == y.priority && x.number <= y.number)
  }

  // x is the best pullable issue whose card is not gone, or there is none.
  ghost predicate BestLeft(all: seq<Issue>, wanted: Issue -> bool, lookup: map<Dep, bool>, gone: set<Card>, x: Option<Issue>) {
    match x
    case None => forall y :: Pullable(y, all, wanted, lookup) ==> CardOf(y) in gone
    case Some(x) =>
      && Pullable(x, all, wanted, lookup) && CardOf(x) !in gone
      && forall y :: Pullable(y, all, wanted, lookup) && CardOf(y) !in gone ==> NotAfter(x, y)
  }

  function CardSet(s: seq<Issue>): set<Card> {
    set x | x in s :: CardOf(x)
  }

  lemma PullableIff(x: Issue, all: seq<Issue>, wanted: Issue -> bool, lookup: map<Dep, bool>)
    ensures Pullable(x, all, wanted, lookup) <==> x in Queue(all, wanted) && Eligible(x, OpenNumbers(all), lookup)
  {
    hide InsertionSorted;
    var kept := Where(Where(all, IsOpen), wanted);
    SortPermutes(kept);
    InPermutation(Queue(all, wanted), kept, x);
    WhereElements(all, IsOpen);
    WhereElements(Where(all, IsOpen), wanted);
    assert OwnDepsBlock(x.deps, OpenNumbers(all)) <==>
           exists d, y :: d in x.deps && d.workspace == "" && y in all && Open(y) && y.number == d.number;
  }

  lemma {:induction false} RemoveSorted(s: seq<Issue>, card: Card)
    requires Sorted(s)
    ensures Sorted(Remove(s, card))
    ensures forall x :: x in Remove(s, card) ==> x in s
  {
    hide Before;
    if s != [] && CardOf(s[0]) != card {
      RemoveSorted(s[1..], card);
      var r := Remove(s[1..], card);
      forall j | 0 <= j < |r| ensures !Before(r[j], s[0]) {
        assert r[j] in r;
        var k :| 0 <= k < |s[1..]| && s[1..][k] == r[j];
        assert s[k + 1] == r[j];
      }
    }
  }

  // What is left after some rounds.
  ghost predicate LeftOf(s: seq<Issue>, gone: set<Card>, r: seq<Issue>) {
    DistinctCards(r) && Sorted(r) && forall x :: x in r <==> x in s && CardOf(x) !in gone
  }

  lemma LeftAtStart(s: seq<Issue>)
    requires DistinctCards(s) && Sorted(s)
    ensures LeftOf(s, CardSet([]), s)
  {
    hide DistinctCards, Sorted, CardOf;
    assert CardSet([]) == {};
  }

  lemma LeftMore(s: seq<Issue>, picks: seq<Issue>, r: seq<Issue>, x: Issue)
    requires LeftOf(s, CardSet(picks), r)
    ensures LeftOf(s, CardSet(picks + [x]), Remove(r, CardOf(x)))
  {
    hide DistinctCards, Sorted, CardOf, Remove;
    RemoveElements(r, CardOf(x));
    RemoveSorted(r, CardOf(x));
    assert CardSet(picks + [x]) == CardSet(picks) + {CardOf(x)};
  }

  lemma {:induction false} RemainingIs(s: seq<Issue>, open: set<int>, lookup: nat -> map<Dep, bool>, k: nat)
    requires DistinctCards(s) && Sorted(s)
    ensures LeftOf(s, CardSet(Picks(s, open, lookup, k)), Remaining(s, open, lookup, k))
  {
    hide Pick, Remove, LeftOf, CardSet, Picks;
    if k == 0 {
      RemainingAtStart(s, open, lookup);
      LeftAtStart(s);
    } else {
      RemainingIs(s, open, lookup, k - 1);
      OneMorePicked(s, open, lookup, k - 1);
      var r := Remaining(s, open, lookup, k - 1);
      var p := Pick(r, open, lookup(k - 1));
      if p.Some? {
        LeftMore(s, Picks(s, open, lookup, k - 1), r, r[p.value]);
      }
    }
  }

  lemma FirstIsBest(r: seq<Issue>, open: set<int>, lookup: map<Dep, bool>)
    requires Sorted(r)
    ensures var p := Pick(r, open, lookup);
            && (p.None? ==> forall y :: y in r ==> !Eligible(y, open, lookup))
            && (p.Some? ==> Eligible(r[p.value], open, lookup) && r[p.value] in r
                            && forall y :: y in r && Eligible(y, open, lookup) ==> NotAfter(r[p.value], y))
  {
    hide Eligible;
    var p := Pick(r, open, lookup);
    if p.Some? {
      forall y | y in r && Eligible(y, open, lookup) ensures NotAfter(r[p.value], y) {
        var k :| 0 <= k < |r| && r[k] == y;
        assert p.value <= k;
        assert p.value < k ==> !Before(r[k], r[p.value]);
      }
    }
  }

  // The card of each round is the best one left.
  lemma RoundTakesBest(all: seq<Issue>, wanted: Issue -> bool, lookup: nat -> map<Dep, bool>, k: nat)
    requires DistinctCards(Queue(all, wanted))
    ensures var q, open := Queue(all, wanted), OpenNumbers(all);
            BestLeft(all, wanted, lookup(k), CardSet(Picks(q, open, lookup, k)), Picked(q, open, lookup, k))
  {
    hide Queue, OpenNumbers, Picks, Remaining, Pick, Sorted, DistinctCards, Eligible, CardOf, Pullable, NotAfter;
    var q, open := Queue(all, wanted), OpenNumbers(all);
    assert Sorted(q) by {
      QueueSorted(all, wanted);
    }
    RemainingIs(q, open, lookup, k);
    FirstIsBest(Remaining(q, open, lookup, k), open, lookup(k));
    forall y ensures Pullable(y, all, wanted, lookup(k)) <==> y in q && Eligible(y, open, lookup(k)) {
      PullableIff(y, all, wanted, lookup(k));
    }
  }

  lemma QueueSorted(all: seq<Issue>, wanted: Issue -> bool)
    ensures Sorted(Queue(all, wanted))
  {
    hide InsertionSorted, Sorted;
    SortSorts(Where(Where(all, IsOpen), wanted));
  }

  // ---- no issue twice ----

  lemma {:induction false} WhereDistinct(s: seq<Issue>, p: Issue -> bool)
    requires DistinctCards(s)
    ensures DistinctCards(Where(s, p))
  {
    hide DistinctCards, CardOf;
    if s == [] {
      assert Where(s, p) == s;
    } else {
      var init, last := s[..|s| - 1], s[|s| - 1];
      InitDistinct(s);
      WhereDistinct(init, p);
      WhereElements(init, p);
      if p(last) {
        SnocDistinct(Where(init, p), last);
      } else {
        assert Where(s, p) == Where(init, p);
      }
    }
  }

  lemma InitDistinct(s: seq<Issue>)
    requires DistinctCards(s) && s != []
    ensures DistinctCards(s[..|s| - 1]) && forall x :: x in s[..|s| - 1] ==> CardOf(x) != CardOf(s[|s| - 1])
  {
    var init := s[..|s| - 1];
    assert Cards(s)[..|s| - 1] == Cards(init);
    forall x | x in init ensures CardOf(x) != CardOf(s[|s| - 1]) {
      var i :| 0 <= i < |init| && init[i] == x;
      assert Cards(s)[i] != Cards(s)[|s| - 1];
    }
  }

  lemma SnocDistinct(s: seq<Issue>, x: Issue)
    requires DistinctCards(s) && forall y :: y in s ==> CardOf(y) != CardOf(x)
    ensures DistinctCards(s + [x])
  {
    assert Cards(s + [x]) == Cards(s) + [CardOf(x)];
    forall j | 0 <= j < |s| ensures Cards(s)[j] != CardOf(x) {
      assert s[j] in s;
    }
  }

  lemma {:induction false} InsertDistinct(s: seq<Issue>, x: Issue)
    requires DistinctCards(s) && forall y :: y in s ==> CardOf(y) != CardOf(x)
    ensures DistinctCards(Insert(s, x))
  {
    hide DistinctCards, CardOf, Before;
    if s == [] || !Before(x, s[|s| - 1]) {
      SnocDistinct(s, x);
    } else {
      var init, last := s[..|s| - 1], s[|s| - 1];
      InitDistinct(s);
      assert s == init + [last];
      InsertDistinct(init, x);
      InsertPermutes(init, x);
      forall y | y in Insert(init, x) ensures CardOf(y) != CardOf(last) {
        assert y in multiset(Insert(init, x));
        assert y in init || y == x;
      }
      SnocDistinct(Insert(init, x), last);
    }
  }

  lemma {:induction false} SortDistinct(s: seq<Issue>)
    requires DistinctCards(s)
    ensures DistinctCards(InsertionSorted(s))
  {
    hide DistinctCards, CardOf, Insert;
    if s == [] {
      assert InsertionSorted(s) == s;
    } else {
      var init, last := s[..|s| - 1], s[|s| - 1];
      InitDistinct(s);
      SortDistinct(init);
      SortPermutes(init);
      forall y | y in InsertionSorted(init) ensures CardOf(y) != CardOf(last) {
        InPermutation(InsertionSorted(init), init, y);
      }
      InsertDistinct(InsertionSorted(init), last);
    }
  }

  lemma QueueDistinct(all: seq<Issue>, wanted: Issue -> bool)
    requires DistinctCards(all)
    ensures DistinctCards(Queue(all, wanted))
  {
    hide DistinctCards, InsertionSorted;
    WhereDistinct(all, IsOpen);
    WhereDistinct(Where(all, IsOpen), wanted);
    SortDistinct(Where(Where(all, IsOpen), wanted));
  }

  // ---- the board ----

  function RowsExcept(rows: seq<Row>, lost: set<Card>): seq<Row> {
    if rows == [] then []
    else
      var last := rows[|rows| - 1];
      RowsExcept(rows[..|rows| - 1], lost) + (if last.card in lost then [] else [last])
  }

  function Handed(cards: seq<Card>): set<Card> {
    set c | c in cards
  }

  lemma {:induction false} RowsWithout(rows: seq<Row>, lost: set<Card>, card: Card)
    ensures Without(RowsExcept(rows, lost), card) == RowsExcept(rows, lost + {card})
  {
    if rows != [] {
      var init, last := rows[..|rows| - 1], rows[|rows| - 1];
      RowsWithout(init, lost, card);
      var kept := RowsExcept(init, lost);
      assert (kept + [last])[..|kept|] == kept && kept + [] == kept;
    }
  }

  lemma {:induction false} NoRowsLost(rows: seq<Row>)
    ensures RowsExcept(rows, {}) == rows
  {
    if rows != [] {
      NoRowsLost(rows[..|rows| - 1]);
    }
  }

  lemma {:induction false} AllPulledIs(b: Board, cards: seq<Card>)
    ensures AllPulled(b, cards) ==
            Board(b.acquired + |cards|, b.released, b.moved + cards, b.spawned + cards,
                  RowsExcept(b.rows, Handed(cards)), b.waiting - Handed(cards))
  {
    hide Without, RowsExcept;
    if cards == [] {
      NoRowsLost(b.rows);
      assert Handed(cards) == {} && b.moved + cards == b.moved && b.spawned + cards == b.spawned;
    } else {
      var init, last := cards[..|cards| - 1], cards[|cards| - 1];
      assert cards == init + [last];
      AllPulledIs(b, init);
      RowsWithout(b.rows, Handed(init), last);
      assert Handed(cards) == Handed(init) + {last};
      assert b.moved + cards == b.moved + init + [last] && b.spawned + cards == b.spawned + init + [last];
    }
  }

  // What a pull makes of a board that takes these cards and stops at the next one: with the next card
  // queued for want of a slot, or with a slot got for it in vain.
  function Outcome(start: Board, cards: seq<Card>, next: Option<Card>, queued: bool, inVain: bool, moved: bool): Board
    requires queued || inVain ==> next.Some?
  {
    var lost := Handed(cards) + (if inVain then {next.value} else {});
    var kept := RowsExcept(start.rows, lost);
    var more := if inVain && moved then [next.value] else [];
    Board(start.acquired + |cards| + (if inVain then 1 else 0),
          start.released + (if inVain then 1 else 0),
          start.moved + cards + more,
          start.spawned + cards,
          if queued && Row(next.value, "plan", "spawn:plan") !in kept
          then kept + [Row(next.value, "plan", "spawn:plan")] else kept,
          start.waiting - lost + (if queued then {next.value} else {}))
  }

  predicate Queued(w: World, n: nat) {
    w.freeAtStart <= 0 || (w.free(n) > 0 && !w.acquire(n))
  }

  predicate InVain(w: World, n: nat) {
    w.freeAtStart > 0 && w.free(n) > 0 && w.acquire(n)
  }

  lemma StoppedIs(b: Board, cards: seq<Card>, next: Option<Issue>, w: World, rounds: int -> Option<Issue>, n: nat, exit: Exit)
    requires StopsAt(w, rounds, n, exit) && rounds(n) == next
    ensures var c := if next.None? then None else Some(CardOf(next.value));
            Stopped(AllPulled(b, cards), next, exit)
            == Outcome(b, cards, c, next.Some? && Queued(w, n), next.Some? && InVain(w, n), w.moveOk(n))
  {
    hide AllPulled, Without, RowsExcept;
    AllPulledIs(b, cards);
    if next.Some? {
      RowsWithout(b.rows, Handed(cards), CardOf(next.value));
    }
    assert Handed(cards) + {} == Handed(cards) && b.waiting - Handed(cards) + {} == b.waiting - Handed(cards);
    assert b.moved + cards + [] == b.moved + cards;
  }

  // The rounds: all of them up to n go through, and round n does not.
  ghost predicate RoundsTold(w: World, n: nat, next: Option<Issue>) {
    if w.freeAtStart <= 0 then n == 0
    else
      && (forall k: nat :: k < n ==> w.free(k) > 0 && w.acquire(k) && w.moveOk(k) && w.spawnOk(k))
      && !(w.free(n) > 0 && next.Some? && w.acquire(n) && w.moveOk(n) && w.spawnOk(n))
  }

  lemma RoundsAre(w: World, rounds: int -> Option<Issue>, n: nat, exit: Exit, next: Option<Issue>)
    requires StopsAt(w, rounds, n, exit) && rounds(n) == next
    ensures RoundsTold(w, n, next)
  {
    if w.freeAtStart > 0 {
      forall k: nat | k < n ensures w.free(k) > 0 && w.acquire(k) && w.moveOk(k) && w.spawnOk(k) {
        assert Passes(w, rounds, k);
      }
    }
  }

  lemma {:induction false} PicksAre(q: seq<Issue>, open: set<int>, lookup: nat -> map<Dep, bool>, n: nat)
    requires forall k: nat :: k < n ==> Picked(q, open, lookup, k).Some?
    ensures |Picks(q, open, lookup, n)| == n
    ensures forall k: nat :: k < n ==> Picks(q, open, lookup, n)[k] == Picked(q, open, lookup, k).value
                                       && Picks(q, open, lookup, n)[..k] == Picks(q, open, lookup, k)
  {
    hide Picked, Picks;
    RemainingAtStart(q, open, lookup);
    if n > 0 {
      PicksAre(q, open, lookup, n - 1);
      OneMorePicked(q, open, lookup, n - 1);
      var p, more := Picks(q, open, lookup, n - 1), Picks(q, open, lookup, n);
      forall k: nat | k < n
        ensures more[k] == Picked(q, open, lookup, k).value && more[..k] == Picks(q, open, lookup, k)
      {
        assert p[..|p|] == p && more[..k] == p[..k];
      }
    }
  }

  // However a pull is answered, it takes the best pullable issue left in each of its rounds, by priority
  // and then number, up to the first round that does not go through; it moves and spawns those cards
  // and takes them off the queue. The next best card, if there is one, is queued and flagged exactly
  // when it finds no slot, at the start or raced; when its slot is got in vain it leaves the queue and
  // the slot is given back. All other rows and flags stay as they are, in order.
  lemma PullIsTold(all: seq<Issue>, wanted: Issue -> bool, w: World, start: Board, n: nat, exit: Exit, end: Board)
    returns (taken: seq<Issue>, next: Option<Issue>)
    requires DistinctCards(all) && Ends(all, wanted, w, start, n, exit, end)
    ensures |taken| == n && RoundsTold(w, n, next)
    ensures forall k: nat :: k < n ==> BestLeft(all, wanted, w.lookup(k), CardSet(taken[..k]), Some(taken[k]))
    ensures BestLeft(all, wanted, w.lookup(n), CardSet(taken), next)
    ensures var c := if next.None? then None else Some(CardOf(next.value));
            end == Outcome(start, Cards(taken), c, next.Some? && Queued(w, n), next.Some? && InVain(w, n), w.moveOk(n))
  {
    hide Queue, OpenNumbers, Picks, Picked, Stopped, AllPulled, Outcome, BestLeft, DistinctCards, CardSet, Queued, InVain;
    var q, open := Queue(all, wanted), OpenNumbers(all);
    QueueDistinct(all, wanted);
    taken, next := Picks(q, open, w.lookup, n), Picked(q, open, w.lookup, n);
    forall k: nat | k < n ensures Picked(q, open, w.lookup, k).Some? {
      assert Passes(w, Rounds(q, open, w.lookup), k);
    }
    PicksAre(q, open, w.lookup, n);
    forall k: nat | k < n ensures BestLeft(all, wanted, w.lookup(k), CardSet(taken[..k]), Some(taken[k])) {
      RoundTakesBest(all, wanted, w.lookup, k);
    }
    RoundTakesBest(all, wanted, w.lookup, n);
    StoppedIs(start, Cards(taken), next, w, Rounds(q, open, w.lookup), n, exit);
    RoundsAre(w, Rounds(q, open, w.lookup), n, exit, next);
  }

  // ---- when an issue closes ----

  // Another workspace's dependency, or one with an issue in state "open".
  ghost predicate StillOpen(d: Dep, all: seq<Issue>) {
    d.workspace != "" || exists x :: x in all && x.state == "open" && x.number == d.number
  }

  // The dependencies still open, in order.
  ghost predicate StillOpenOf(was: seq<Dep>, now: seq<Dep>, all: seq<Issue>) {
    if was == [] then now == []
    else if StillOpen(was[|was| - 1], all)
    then now != [] && now[|now| - 1] == was[|was| - 1] && StillOpenOf(was[..|was| - 1], now[..|now| - 1], all)
    else StillOpenOf(was[..|was| - 1], now, all)
  }

  ghost predicate LosesDep(x: Issue, all: seq<Issue>) {
    exists d :: d in x.deps && !StillOpen(d, all)
  }

  // The issues that lose a dependency, in order, each with those that are still open.
  ghost predicate SavedOf(some: seq<Issue>, saved: seq<Issue>, all: seq<Issue>) {
    if some == [] then saved == []
    else
      var x := some[|some| - 1];
      if LosesDep(x, all)
      then
        && saved != [] && SavedOf(some[..|some| - 1], saved[..|saved| - 1], all)
        && var y := saved[|saved| - 1]; y == x.(deps := y.deps) && StillOpenOf(x.deps, y.deps, all)
      else SavedOf(some[..|some| - 1], saved, all)
  }

  lemma OpenIff(d: Dep, all: seq<Issue>)
    ensures StillOpen(d, all) <==> d.workspace != "" || d.number in StrictlyOpen(all)
  {
  }

  lemma {:induction false} PrunedIs(deps: seq<Dep>, all: seq<Issue>)
    ensures StillOpenOf(deps, Pruned(deps, StrictlyOpen(all)), all)
  {
    hide StillOpen, StrictlyOpen;
    if deps != [] {
      var init, last := deps[..|deps| - 1], deps[|deps| - 1];
      PrunedIs(init, all);
      OpenIff(last, all);
      var kept := Pruned(init, StrictlyOpen(all));
      assert (kept + [last])[..|kept|] == kept && kept + [] == kept;
    }
  }

  lemma LosesIff(x: Issue, all: seq<Issue>)
    ensures |Pruned(x.deps, StrictlyOpen(all))| != |x.deps| <==> LosesDep(x, all)
  {
    hide StillOpen, StrictlyOpen, Pruned;
    var open := StrictlyOpen(all);
    PrunedLength(x.deps, open);
    PrunedElements(x.deps, open);
    forall d ensures StillOpen(d, all) <==> d.workspace != "" || d.number in open {
      OpenIff(d, all);
    }
    if !LosesDep(x, all) {
      AllPruned(x.deps, open);
    }
  }

  lemma {:induction false} AllPruned(deps: seq<Dep>, open: set<int>)
    requires forall d :: d in deps ==> d.workspace != "" || d.number in open
    ensures Pruned(deps, open) == deps
  {
    if deps != [] {
      AllPruned(deps[..|deps| - 1], open);
      assert deps == deps[..|deps| - 1] + [deps[|deps| - 1]];
    }
  }

  // When an issue closes, exactly the issues with a dependency that is no longer open are saved, in
  // order, each with the dependencies that still are.
  lemma RecomputeIsTold(all: seq<Issue>)
    ensures SavedOf(all, PruneSaves(all, StrictlyOpen(all)), all)
  {
    SavesAre(all, all);
  }

  lemma {:induction false} SavesAre(some: seq<Issue>, all: seq<Issue>)
    ensures SavedOf(some, PruneSaves(some, StrictlyOpen(all)), all)
  {
    hide LosesDep, StillOpenOf, StrictlyOpen, Pruned;
    if some != [] {
      var init, x := some[..|some| - 1], some[|some| - 1];
      SavesAre(init, all);
      LosesIff(x, all);
      PrunedIs(x.deps, all);
      var saved := PruneSaves(init, StrictlyOpen(all));
      var y := x.(deps := Pruned(x.deps, StrictlyOpen(all)));
      assert (saved + [y])[..|saved|] == saved && saved + [] == saved;
    }
  }
}
