// Check failures and merge conflicts of pull requests: the poller announces edges
// (internal/github/poll.go), the assembler folds them back into a level per card
// (internal/issueview/assembler.go). Events are delivered in order.
module PrSignals {
  import opened Options
  import opened Ranking

  datatype PrKey = PrKey(workspace: string, pr: int)

  datatype CheckEntry = CheckEntry(sha: string, failed: bool)

  datatype ConflictEntry = ConflictEntry(state: string, files: seq<string>)

  datatype Event =
    | ChecksFailed(card: Card, sha: string, jobs: seq<string>)
    | ChecksRecovered(card: Card, sha: string)
    | ConflictsDetected(card: Card, files: seq<string>)
    | ConflictsResolved(card: Card)
    | PrMerged(card: Card)
    | PrClosedUnmerged(card: Card)

  datatype CheckFail = CheckFail(sha: string, jobs: seq<string>, attempts: nat)

  function Lookup<K, V>(m: map<K, V>, k: K): Option<V> {
    if k in m then Some(m[k]) else None
  }

  // ---- the poller ----

  // Failing is announced unless it was the last thing known about this very head; recovering only
  // then.
  function CheckEdge(prev: Option<CheckEntry>, card: Card, sha: string, failed: bool, jobs: seq<string>): Option<Event> {
    var wasFailingHere := prev == Some(CheckEntry(sha, true));
    if failed && !wasFailingHere then Some(ChecksFailed(card, sha, jobs))
    else if !failed && wasFailingHere then Some(ChecksRecovered(card, sha))
    else None
  }

  // The entry after a look at the merge state, and what is announced.
  function ConflictStep(prev: Option<ConflictEntry>, card: Card, state: string, files: seq<string>)
    : (Option<ConflictEntry>, Option<Event>) {
    var wasDirty := prev.Some? && prev.value.state == "dirty";
    if state == "dirty" then
      (Some(ConflictEntry(state, files)),
       if wasDirty && prev.value.files == files then None else Some(ConflictsDetected(card, files)))
    else if state == "unknown" then (prev, None)
    else
      (Some(ConflictEntry(state, [])), if state != "" && wasDirty then Some(ConflictsResolved(card)) else None)
  }

  method SameStringSet(a: seq<string>, b: seq<string>) returns (same: bool)
    ensures same <==> a == b
  {
    if |a| != |b| {
      return false;
    }
    for i := 0 to |a|
      invariant a[..i] == b[..i]
    {
      if a[i] != b[i] {
        return false;
      }
    }
    return true;
  }

  class Poller {
    var checkStateCache: map<PrKey, CheckEntry>
    var conflictStateCache: map<PrKey, ConflictEntry>

    constructor ()
      ensures checkStateCache == map[] && conflictStateCache == map[]
    {
      checkStateCache, conflictStateCache := map[], map[];
    }

    // agg is None when the check runs cannot be fetched.
    method ProbeCheckRuns(card: Card, pr: int, sha: string, agg: Option<(bool, seq<string>)>) returns (event: Option<Event>)
      modifies `checkStateCache
      ensures agg.None? ==> event == None && checkStateCache == old(checkStateCache)
      ensures agg.Some? ==>
        var key := PrKey(card.workspace, pr);
        && event == CheckEdge(Lookup(old(checkStateCache), key), card, sha, agg.value.0, agg.value.1)
        && checkStateCache == old(checkStateCache)[key := CheckEntry(sha, agg.value.0)]
    {
      if agg.None? {
        return None;
      }
      var (anyFailed, jobs) := agg.value;
      var key := PrKey(card.workspace, pr);
      var hasPrev := key in checkStateCache;
      var isNewSHA := !hasPrev || checkStateCache[key].sha != sha;
      var wasFailing := hasPrev && checkStateCache[key].failed;
      checkStateCache := checkStateCache[key := CheckEntry(sha, anyFailed)];
      if anyFailed && (isNewSHA || !wasFailing) {
        return Some(ChecksFailed(card, sha, jobs));
      } else if !anyFailed && wasFailing && !isNewSHA {
        return Some(ChecksRecovered(card, sha));
      }
      return None;
    }

    method ProbeConflicts(card: Card, pr: int, state: string, files: seq<string>) returns (event: Option<Event>)
      modifies `conflictStateCache
      ensures var key := PrKey(card.workspace, pr);
              var step := ConflictStep(Lookup(old(conflictStateCache), key), card, state, files);
              && event == step.1
              && conflictStateCache == (if step.0.None? then old(conflictStateCache)
                                        else old(conflictStateCache)[key := step.0.value])
    {
      var key := PrKey(card.workspace, pr);
      var prevState, prevFiles := "", [];
      if key in conflictStateCache {
        prevState, prevFiles := conflictStateCache[key].state, conflictStateCache[key].files;
      }
      if state == "dirty" {
        var same := SameStringSet(prevFiles, files);
        if prevState != "dirty" || !same {
          event := Some(ConflictsDetected(card, files));
        } else {
          event := None;
        }
        conflictStateCache := conflictStateCache[key := ConflictEntry(state, files)];
      } else if state != "" && state != "unknown" && prevState == "dirty" {
        event := Some(ConflictsResolved(card));
        conflictStateCache := conflictStateCache[key := ConflictEntry(state, [])];
      } else {
        event := None;
        if state == "unknown" {
          assert key in conflictStateCache ==> conflictStateCache == conflictStateCache[key := conflictStateCache[key]];
          return;
        }
        conflictStateCache := conflictStateCache[key := ConflictEntry(state, [])];
      }
    }

    // The pull request is gone: announce and forget.
    method Settle(card: Card, pr: int, merged: bool) returns (event: Event)
      modifies this
      ensures event == if merged then PrMerged(card) else PrClosedUnmerged(card)
      ensures checkStateCache == old(checkStateCache) - {PrKey(card.workspace, pr)}
      ensures conflictStateCache == old(conflictStateCache) - {PrKey(card.workspace, pr)}
    {
      event := if merged then PrMerged(card) else PrClosedUnmerged(card);
      checkStateCache := checkStateCache - {PrKey(card.workspace, pr)};
      conflictStateCache := conflictStateCache - {PrKey(card.workspace, pr)};
    }
  }

  // ---- the assembler ----

  predicate Keyed(card: Card) {
    card.workspace != "" && card.number != 0
  }

  function ChecksAfter(m: map<Card, CheckFail>, e: Event): map<Card, CheckFail> {
    if !Keyed(e.card) then m
    else match e
      case ChecksFailed(card, sha, jobs) =>
        // A repeated failure of the same head keeps its repair attempts.
        m[card := CheckFail(sha, jobs, if card in m && m[card].sha == sha then m[card].attempts else 0)]
      case ConflictsDetected(_, _) => m
      case ConflictsResolved(_) => m
      case _ => m - {e.card}
  }

  function ConflictsAfter(m: map<Card, seq<string>>, e: Event): map<Card, seq<string>> {
    if !Keyed(e.card) then m
    else match e
      case ConflictsDetected(card, files) => m[card := files]
      case ChecksFailed(_, _, _) => m
      case _ => m - {e.card}
  }

  class Assembler {
    var checkFails: map<Card, CheckFail>
    var conflictFails: map<Card, seq<string>>

    constructor ()
      ensures checkFails == map[] && conflictFails == map[]
    {
      checkFails, conflictFails := map[], map[];
    }

    method HandleEvent(e: Event)
      modifies this
      ensures checkFails == ChecksAfter(old(checkFails), e)
      ensures conflictFails == ConflictsAfter(old(conflictFails), e)
    {
      if e.card.workspace == "" || e.card.number == 0 {
        return;
      }
      match e {
        case ChecksFailed(card, sha, jobs) =>
          if card !in checkFails || checkFails[card].sha != sha {
            checkFails := checkFails[card := CheckFail(sha, jobs, 0)];
          } else {
            checkFails := checkFails[card := checkFails[card].(jobs := jobs)];
          }
        case ConflictsDetected(card, files) =>
          conflictFails := conflictFails[card := files];
        case ConflictsResolved(card) =>
          conflictFails := conflictFails - {card};
        case _ =>
          checkFails := checkFails - {e.card};
          conflictFails := conflictFails - {e.card};
      }
    }

    method ClearConflictsInfo(card: Card) returns (had: bool)
      modifies `conflictFails
      ensures had <==> card in old(conflictFails)
      ensures conflictFails == old(conflictFails) - {card}
    {
      had := card in conflictFails;
      if had {
        conflictFails := conflictFails - {card};
      }
    }
  }

  // ---- both together ----

  // Each tracked card has one pull request.
  datatype Step =
    | Checks(card: Card, sha: string, failed: bool, jobs: seq<string>)
    | ChecksUnknown(card: Card) // the fetch failed
    | Conflicts(card: Card, state: string, files: seq<string>)
    | Settle(card: Card, merged: bool)
    | Clear(card: Card)         // an execute session completed: the optimistic clear

  datatype System = System(
    checkCache: map<PrKey, CheckEntry>,
    conflictCache: map<PrKey, ConflictEntry>,
    checkFails: map<Card, CheckFail>,
    conflictFails: map<Card, seq<string>>)

  type Prs = map<Card, int>

  function KeyOf(prs: Prs, card: Card): PrKey
    requires card in prs
  {
    PrKey(card.workspace, prs[card])
  }

  function Deliver(s: System, e: Option<Event>): System {
    if e.None? then s
    else s.(checkFails := ChecksAfter(s.checkFails, e.value), conflictFails := ConflictsAfter(s.conflictFails, e.value))
  }

  function Next(prs: Prs, s: System, step: Step): System
    requires step.card in prs
  {
    var key := KeyOf(prs, step.card);
    match step
    case Checks(card, sha, failed, jobs) =>
      Deliver(s.(checkCache := s.checkCache[key := CheckEntry(sha, failed)]),
              CheckEdge(Lookup(s.checkCache, key), card, sha, failed, jobs))
    case ChecksUnknown(_) => s
    case Conflicts(card, state, files) =>
      var r := ConflictStep(Lookup(s.conflictCache, key), card, state, files);
      Deliver(if r.0.None? then s else s.(conflictCache := s.conflictCache[key := r.0.value]), r.1)
    case Settle(card, merged) =>
      Deliver(s.(checkCache := s.checkCache - {key}, conflictCache := s.conflictCache - {key}),
              Some(if merged then PrMerged(card) else PrClosedUnmerged(card)))
    case Clear(card) => s.(conflictFails := s.conflictFails - {card})
  }

  // The two objects take such a step.
  method Perform(p: Poller, a: Assembler, pr: int, step: Step)
    modifies p, a
    ensures System(p.checkStateCache, p.conflictStateCache, a.checkFails, a.conflictFails)
            == Next(map[step.card := pr],
                    old(System(p.checkStateCache, p.conflictStateCache, a.checkFails, a.conflictFails)), step)
  {
    var event: Option<Event> := None;
    match step {
      case Checks(card, sha, failed, jobs) => event := p.ProbeCheckRuns(card, pr, sha, Some((failed, jobs)));
      case ChecksUnknown(card) => event := p.ProbeCheckRuns(card, pr, "", None);
      case Conflicts(card, state, files) => event := p.ProbeConflicts(card, pr, state, files);
      case Settle(card, merged) =>
        var e := p.Settle(card, pr, merged);
        event := Some(e);
      case Clear(card) =>
        var _ := a.ClearConflictsInfo(card);
    }
    if event.Some? {
      a.HandleEvent(event.value);
    }
  }

  function After(prs: Prs, steps: seq<Step>): System
    requires forall step :: step in steps ==> step.card in prs
  {
    if steps == [] then System(map[], map[], map[], map[])
    else Next(prs, After(prs, steps[..|steps| - 1]), steps[|steps| - 1])
  }

  // No two cards share a pull request.
  ghost predicate OwnPrs(prs: Prs) {
    && (forall c :: c in prs ==> Keyed(c))
    && forall c, d :: c in prs && d in prs && c != d ==> KeyOf(prs, c) != KeyOf(prs, d)
  }

  // ---- no check failure is lost ----

  predicate FailureShown(prs: Prs, s: System, card: Card)
    requires card in prs
  {
    var cached := Lookup(s.checkCache, KeyOf(prs, card));
    cached.Some? && cached.value.failed ==> card in s.checkFails && s.checkFails[card].sha == cached.value.sha
  }

  lemma DeliveredElsewhere(s: System, e: Option<Event>, card: Card)
    requires e.Some? ==> e.value.card != card
    ensures var t := Deliver(s, e);
            && t.checkCache == s.checkCache && t.conflictCache == s.conflictCache
            && Lookup(t.checkFails, card) == Lookup(s.checkFails, card)
            && Lookup(t.conflictFails, card) == Lookup(s.conflictFails, card)
  {
  }

  lemma AnnouncedForCard(prev: Option<CheckEntry>, prev': Option<ConflictEntry>, step: Step)
    ensures step.Checks? ==>
              var e := CheckEdge(prev, step.card, step.sha, step.failed, step.jobs);
              e.Some? ==> e.value.card == step.card
    ensures step.Conflicts? ==>
              var e := ConflictStep(prev', step.card, step.state, step.files).1;
              e.Some? ==> e.value.card == step.card
  {
  }

  lemma OthersStay(prs: Prs, s: System, step: Step, card: Card)
    requires OwnPrs(prs) && step.card in prs && card in prs && step.card != card
    ensures var t := Next(prs, s, step);
            && Lookup(t.checkCache, KeyOf(prs, card)) == Lookup(s.checkCache, KeyOf(prs, card))
            && Lookup(t.conflictCache, KeyOf(prs, card)) == Lookup(s.conflictCache, KeyOf(prs, card))
            && Lookup(t.checkFails, card) == Lookup(s.checkFails, card)
            && Lookup(t.conflictFails, card) == Lookup(s.conflictFails, card)
  {
    hide CheckEdge, ConflictStep, Deliver;
    var key := KeyOf(prs, step.card);
    AnnouncedForCard(Lookup(s.checkCache, key), Lookup(s.conflictCache, key), step);
    forall s': System, e: Option<Event> | e.Some? ==> e.value.card == step.card
      ensures var t := Deliver(s', e);
              && t.checkCache == s'.checkCache && t.conflictCache == s'.conflictCache
              && Lookup(t.checkFails, card) == Lookup(s'.checkFails, card)
              && Lookup(t.conflictFails, card) == Lookup(s'.conflictFails, card)
    {
      DeliveredElsewhere(s', e, card);
    }
  }

  lemma StepShowsFailure(prs: Prs, s: System, step: Step, card: Card)
    requires OwnPrs(prs) && step.card in prs && card in prs && FailureShown(prs, s, card)
    ensures FailureShown(prs, Next(prs, s, step), card)
  {
    if step.card != card {
      OthersStay(prs, s, step, card);
    }
  }

  // Over every sequence of probes, pushes, merges, closes and clears: when the poller last saw a
  // card's checks fail, the assembler holds that failure, for that head.
  lemma {:induction false} NoFailureLost(prs: Prs, steps: seq<Step>, card: Card)
    requires OwnPrs(prs) && card in prs && forall step :: step in steps ==> step.card in prs
    ensures FailureShown(prs, After(prs, steps), card)
  {
    hide FailureShown, Next;
    if steps == [] {
      NothingCached(prs, card);
    } else {
      assert steps[|steps| - 1] in steps;
      NoFailureLost(prs, steps[..|steps| - 1], card);
      StepShowsFailure(prs, After(prs, steps[..|steps| - 1]), steps[|steps| - 1], card);
    }
  }

  lemma NothingCached(prs: Prs, card: Card)
    requires card in prs
    ensures FailureShown(prs, System(map[], map[], map[], map[]), card)
  {
  }

  // Two cards with one pull request share a cache entry, and the second never hears of a failure
  // the first was told. So for keyed cards nothing is lost, whatever happens, exactly when no two
  // share a pull request.
  lemma NoFailureLostIff(prs: Prs)
    requires forall c :: c in prs ==> Keyed(c)
    ensures OwnPrs(prs) <==>
            forall card, steps: seq<Step> :: card in prs && (forall step :: step in steps ==> step.card in prs)
              ==> FailureShown(prs, After(prs, steps), card)
  {
    hide FailureShown;
    if OwnPrs(prs) {
      forall card, steps: seq<Step> | card in prs && forall step :: step in steps ==> step.card in prs
        ensures FailureShown(prs, After(prs, steps), card)
      {
        NoFailureLost(prs, steps, card);
      }
    } else {
      var c, d :| c in prs && d in prs && c != d && KeyOf(prs, c) == KeyOf(prs, d);
      var steps := [Checks(c, "h", true, [])];
      SharedPrLosesFailure(prs, c, d);
      assert forall step :: step in steps ==> step.card in prs;
      assert !FailureShown(prs, After(prs, steps), d);
    }
  }

  lemma SharedPrLosesFailure(prs: Prs, c: Card, d: Card)
    requires c in prs && d in prs && c != d && KeyOf(prs, c) == KeyOf(prs, d)
    ensures !FailureShown(prs, After(prs, [Checks(c, "h", true, [])]), d)
  {
    var steps := [Checks(c, "h", true, [])];
    assert steps[..0] == [];
    var empty := System(map[], map[], map[], map[]);
    assert After(prs, steps) == Next(prs, empty, steps[0]);
  }

  // ---- when the entry is exact ----

  // The entry stands exactly while the last look at the checks found a failure.
  predicate ChecksInSync(prs: Prs, s: System, card: Card)
    requires card in prs
  {
    var cached := Lookup(s.checkCache, KeyOf(prs, card));
    card in s.checkFails <==> cached.Some? && cached.value.failed
  }

  // One step loses that exactly when a failing head is replaced by a passing one: no recovery is
  // announced for a new head.
  lemma ChecksInSyncIff(prs: Prs, s: System, step: Step, card: Card)
    requires OwnPrs(prs) && step.card in prs && card in prs && ChecksInSync(prs, s, card)
    ensures ChecksInSync(prs, Next(prs, s, step), card) <==>
            !(step.Checks? && step.card == card && !step.failed
              && KeyOf(prs, card) in s.checkCache && s.checkCache[KeyOf(prs, card)].failed
              && s.checkCache[KeyOf(prs, card)].sha != step.sha)
  {
    if step.card != card {
      OthersStay(prs, s, step, card);
    }
  }

  ghost predicate OneHead(steps: seq<Step>, card: Card, sha: string) {
    forall step :: step in steps && step.Checks? && step.card == card ==> step.sha == sha
  }

  // While the head stays the same, the entry is exact.
  lemma {:induction false} OneHeadInSync(prs: Prs, steps: seq<Step>, card: Card, sha: string)
    requires OwnPrs(prs) && card in prs && forall step :: step in steps ==> step.card in prs
    requires OneHead(steps, card, sha)
    ensures ChecksInSync(prs, After(prs, steps), card)
    ensures var key := KeyOf(prs, card);
            key in After(prs, steps).checkCache ==> After(prs, steps).checkCache[key].sha == sha
  {
    hide ChecksInSync, Next;
    if steps == [] {
      NothingInSync(prs, card);
    } else {
      var init, last := steps[..|steps| - 1], steps[|steps| - 1];
      assert last in steps;
      OneHeadInSync(prs, init, card, sha);
      ChecksInSyncIff(prs, After(prs, init), last, card);
      HeadAfter(prs, After(prs, init), last, card, sha);
    }
  }

  lemma NothingInSync(prs: Prs, card: Card)
    requires card in prs
    ensures ChecksInSync(prs, System(map[], map[], map[], map[]), card)
  {
  }

  lemma HeadAfter(prs: Prs, s: System, step: Step, card: Card, sha: string)
    requires OwnPrs(prs) && step.card in prs && card in prs
    requires step.Checks? && step.card == card ==> step.sha == sha
    requires KeyOf(prs, card) in s.checkCache ==> s.checkCache[KeyOf(prs, card)].sha == sha
    ensures var t := Next(prs, s, step);
            KeyOf(prs, card) in t.checkCache ==> t.checkCache[KeyOf(prs, card)].sha == sha
  {
    if step.card != card {
      OthersStay(prs, s, step, card);
    }
  }

  // A stale entry outlives every further passing look.
  lemma {:induction false} StaleEntryStays(prs: Prs, s: System, steps: seq<Step>, card: Card)
    requires OwnPrs(prs) && card in prs && forall step :: step in steps ==> step.card in prs
    requires card in s.checkFails && KeyOf(prs, card) in s.checkCache && !s.checkCache[KeyOf(prs, card)].failed
    requires forall step :: step in steps && step.card == card ==>
               !step.Settle? && (step.Checks? ==> !step.failed)
    ensures var t := Onwards(prs, s, steps);
            && Lookup(t.checkFails, card) == Lookup(s.checkFails, card)
            && KeyOf(prs, card) in t.checkCache && !t.checkCache[KeyOf(prs, card)].failed
  {
    hide Next;
    if steps != [] {
      var init, last := steps[..|steps| - 1], steps[|steps| - 1];
      assert last in steps;
      StaleEntryStays(prs, s, init, card);
      StaleStep(prs, Onwards(prs, s, init), last, card);
    }
  }

  function Onwards(prs: Prs, s: System, steps: seq<Step>): System
    requires forall step :: step in steps ==> step.card in prs
  {
    if steps == [] then s else Next(prs, Onwards(prs, s, steps[..|steps| - 1]), steps[|steps| - 1])
  }

  lemma StaleStep(prs: Prs, s: System, step: Step, card: Card)
    requires OwnPrs(prs) && card in prs && step.card in prs
    requires card in s.checkFails && KeyOf(prs, card) in s.checkCache && !s.checkCache[KeyOf(prs, card)].failed
    requires step.card == card ==> !step.Settle? && (step.Checks? ==> !step.failed)
    ensures var t := Next(prs, s, step);
            && Lookup(t.checkFails, card) == Lookup(s.checkFails, card)
            && KeyOf(prs, card) in t.checkCache && !t.checkCache[KeyOf(prs, card)].failed
  {
    if step.card != card {
      OthersStay(prs, s, step, card);
    }
  }

  // What a run announces about a card's checks and its pull request's end, in order.
  function Announcement(prs: Prs, s: System, step: Step, card: Card): Option<Event>
    requires step.card in prs
  {
    if step.card != card then None
    else if step.Checks? then
      CheckEdge(Lookup(s.checkCache, KeyOf(prs, card)), card, step.sha, step.failed, step.jobs)
    else if step.Settle? then Some(if step.merged then PrMerged(card) else PrClosedUnmerged(card))
    else None
  }

  function Announcements(prs: Prs, steps: seq<Step>, card: Card): seq<Event>
    requires forall step :: step in steps ==> step.card in prs
  {
    if steps == [] then []
    else
      var init := steps[..|steps| - 1];
      var e := Announcement(prs, After(prs, init), steps[|steps| - 1], card);
      Announcements(prs, init, card) + (if e.Some? then [e.value] else [])
  }

  // Failed and Recovered take turns: a recovery comes right after a failure, and a failure never
  // right after another; the end of a pull request may come between.
  predicate Alternate(es: seq<Event>) {
    es == [] || (Alternate(es[..|es| - 1]) && TakesTurn(es[..|es| - 1], es[|es| - 1]))
  }

  predicate TakesTurn(es: seq<Event>, e: Event) {
    var afterFailure := es != [] && es[|es| - 1].ChecksFailed?;
    (e.ChecksRecovered? ==> afterFailure) && (e.ChecksFailed? ==> !afterFailure)
  }

  lemma {:induction false} EdgesAlternate(prs: Prs, steps: seq<Step>, card: Card, sha: string)
    requires OwnPrs(prs) && card in prs && forall step :: step in steps ==> step.card in prs
    requires OneHead(steps, card, sha)
    ensures var es, cached := Announcements(prs, steps, card), Lookup(After(prs, steps).checkCache, KeyOf(prs, card));
            && Alternate(es)
            && (es != [] && es[|es| - 1].ChecksFailed? <==> cached == Some(CheckEntry(sha, true)))
  {
    hide Next, Alternate;
    if steps == [] {
      NothingAnnounced();
    } else {
      var init, last := steps[..|steps| - 1], steps[|steps| - 1];
      assert last in steps;
      EdgesAlternate(prs, init, card, sha);
      var es, e := Announcements(prs, init, card), Announcement(prs, After(prs, init), last, card);
      CacheFollows(prs, After(prs, init), last, card);
      if e.Some? {
        OneMoreAnnouncement(es, e.value);
      } else {
        assert es + [] == es;
      }
    }
  }

  lemma NothingAnnounced()
    ensures Alternate([])
  {
  }

  lemma OneMoreAnnouncement(es: seq<Event>, e: Event)
    requires Alternate(es) && TakesTurn(es, e)
    ensures Alternate(es + [e])
  {
    assert (es + [e])[..|es|] == es;
  }

  lemma CacheFollows(prs: Prs, s: System, step: Step, card: Card)
    requires OwnPrs(prs) && card in prs && step.card in prs
    ensures Lookup(Next(prs, s, step).checkCache, KeyOf(prs, card)) ==
            if step.card == card && step.Checks? then Some(CheckEntry(step.sha, step.failed))
            else if step.card == card && step.Settle? then None
            else Lookup(s.checkCache, KeyOf(prs, card))
  {
    if step.card != card {
      OthersStay(prs, s, step, card);
    }
  }

  // ---- conflicts: the level comes back ----

  datatype Look = Look(state: string, files: seq<string>)

  function CacheAfterLooks(card: Card, looks: seq<Look>): Option<ConflictEntry> {
    if looks == [] then None
    else
      var last := looks[|looks| - 1];
      ConflictStep(CacheAfterLooks(card, looks[..|looks| - 1]), card, last.state, last.files).0
  }

  function Announced(card: Card, looks: seq<Look>): seq<Event> {
    if looks == [] then []
    else
      var init, last := looks[..|looks| - 1], looks[|looks| - 1];
      var e := ConflictStep(CacheAfterLooks(card, init), card, last.state, last.files).1;
      Announced(card, init) + (if e.Some? then [e.value] else [])
  }

  function Level(events: seq<Event>): Option<seq<string>> {
    if events == [] then None
    else
      match events[|events| - 1]
      case ConflictsDetected(_, files) => Some(files)
      case ConflictsResolved(_) => None
      case _ => Level(events[..|events| - 1])
  }

  function DirtyFiles(cached: Option<ConflictEntry>): Option<seq<string>> {
    if cached.Some? && cached.value.state == "dirty" then Some(cached.value.files) else None
  }

  function Settled(looks: seq<Look>): seq<Look> {
    if looks == [] then []
    else
      var last := looks[|looks| - 1];
      Settled(looks[..|looks| - 1]) + (if last.state == "unknown" then [] else [last])
  }

  // Looks that find GitHub still computing change neither the cache nor what is announced.
  lemma {:induction false} UnknownChangesNothing(card: Card, looks: seq<Look>)
    ensures CacheAfterLooks(card, Settled(looks)) == CacheAfterLooks(card, looks)
    ensures Announced(card, Settled(looks)) == Announced(card, looks)
  {
    if looks != [] {
      var init, last := looks[..|looks| - 1], looks[|looks| - 1];
      UnknownChangesNothing(card, init);
      assert Announced(card, init) + [] == Announced(card, init) && Settled(init) + [] == Settled(init);
      if last.state != "unknown" {
        assert (Settled(init) + [last])[..|Settled(init)|] == Settled(init);
      }
    }
  }

  // Unknowns aside, an empty state came right after dirty at place i, and dirty has not come back.
  predicate LostAt(settled: seq<Look>, i: nat)
    requires i + 1 < |settled|
  {
    && settled[i].state == "dirty" && settled[i + 1].state == ""
    && forall j :: i < j < |settled| ==> settled[j].state != "dirty"
  }

  predicate ResolutionLost(settled: seq<Look>) {
    exists i :: 0 <= i && i + 1 < |settled| && LostAt(settled, i)
  }

  lemma LostStep(init: seq<Look>, last: Look)
    ensures ResolutionLost(init + [last]) <==>
            last.state != "dirty" && (ResolutionLost(init)
              || (init != [] && init[|init| - 1].state == "dirty" && last.state == ""))
  {
    var all := init + [last];
    if ResolutionLost(all) {
      var i :| 0 <= i && i + 1 < |all| && LostAt(all, i);
      assert all[|init|].state != "dirty";
      if i + 1 < |init| {
        assert forall j :: i < j < |init| ==> init[j] == all[j];
        assert LostAt(init, i);
      }
    }
    if last.state != "dirty" {
      if ResolutionLost(init) {
        var i :| 0 <= i && i + 1 < |init| && LostAt(init, i);
        assert LostAt(all, i);
      }
      if init != [] && init[|init| - 1].state == "dirty" && last.state == "" {
        assert LostAt(all, |init| - 1);
      }
    }
  }

  lemma {:induction false} SettledCache(card: Card, looks: seq<Look>)
    requires forall look :: look in looks ==> look.state != "unknown"
    ensures CacheAfterLooks(card, looks) ==
            if looks == [] then None
            else var last := looks[|looks| - 1];
                 Some(ConflictEntry(last.state, if last.state == "dirty" then last.files else []))
  {
    if looks != [] {
      assert looks[|looks| - 1] in looks;
    }
  }

  lemma {:induction false} LevelLostIff(card: Card, looks: seq<Look>)
    requires forall look :: look in looks ==> look.state != "unknown"
    ensures var level, dirty := Level(Announced(card, looks)), DirtyFiles(CacheAfterLooks(card, looks));
            && (level == dirty <==> !ResolutionLost(looks))
            && (dirty.Some? ==> level == dirty)
            && (level.None? ==> dirty.None?)
  {
    hide ResolutionLost;
    if looks == [] {
      assert !ResolutionLost(looks) by {
        NothingLost();
      }
    } else {
      var init, last := looks[..|looks| - 1], looks[|looks| - 1];
      assert last in looks && looks == init + [last];
      LevelLostIff(card, init);
      LostStep(init, last);
      SettledCache(card, init);
      SettledCache(card, looks);
      LevelStep(card, init, last);
    }
  }

  lemma NothingLost()
    ensures !ResolutionLost([])
  {
  }

  lemma LevelStep(card: Card, init: seq<Look>, last: Look)
    requires last.state != "unknown"
    ensures var prev := CacheAfterLooks(card, init);
            Level(Announced(card, init + [last])) ==
            if last.state == "dirty" then
              if DirtyFiles(prev) == Some(last.files) then Level(Announced(card, init)) else Some(last.files)
            else if last.state != "" && DirtyFiles(prev).Some? then None
            else Level(Announced(card, init))
  {
    var looks := init + [last];
    assert looks[..|looks| - 1] == init;
    var before := Announced(card, init);
    assert forall e :: (before + [e])[..|before|] == before;
    assert before + [] == before;
  }

  // Folding Detected and Resolved gives the files of the poller's dirty entry, and nothing when it
  // is not dirty, for exactly those sequences of looks in which no resolution was lost to an empty
  // state.
  lemma LevelReconstructedIff(card: Card, looks: seq<Look>)
    ensures Level(Announced(card, looks)) == DirtyFiles(CacheAfterLooks(card, looks))
            <==> !ResolutionLost(Settled(looks))
  {
    UnknownChangesNothing(card, looks);
    SettledKnown(looks);
    LevelLostIff(card, Settled(looks));
  }

  lemma {:induction false} SettledKnown(looks: seq<Look>)
    ensures forall look :: look in Settled(looks) ==> look.state != "unknown"
  {
    if looks != [] {
      SettledKnown(looks[..|looks| - 1]);
    }
  }

  // ---- conflicts: poller and assembler ----

  predicate ConflictsInSync(prs: Prs, s: System, card: Card)
    requires card in prs
  {
    Lookup(s.conflictFails, card) == DirtyFiles(Lookup(s.conflictCache, KeyOf(prs, card)))
  }

  // An empty state while dirty, a checks recovery while dirty, an optimistic clear while dirty.
  predicate Separates(prs: Prs, s: System, step: Step, card: Card)
    requires card in prs
  {
    var key := KeyOf(prs, card);
    && step.card == card && DirtyFiles(Lookup(s.conflictCache, key)).Some?
    && (|| (step.Conflicts? && step.state == "")
        || (step.Checks? && !step.failed && Lookup(s.checkCache, key) == Some(CheckEntry(step.sha, true)))
        || step.Clear?)
  }

  // One step keeps the assembler's entry equal to the poller's exactly when it is none of the three.
  lemma ConflictsInSyncIff(prs: Prs, s: System, step: Step, card: Card)
    requires OwnPrs(prs) && step.card in prs && card in prs && ConflictsInSync(prs, s, card)
    ensures ConflictsInSync(prs, Next(prs, s, step), card) <==> !Separates(prs, s, step, card)
  {
    if step.card != card {
      OthersStay(prs, s, step, card);
    }
  }

  // In sync after every step.
  ghost predicate InSyncThroughout(prs: Prs, steps: seq<Step>, card: Card)
    requires card in prs && forall step :: step in steps ==> step.card in prs
  {
    && ConflictsInSync(prs, After(prs, steps), card)
    && (steps == [] || InSyncThroughout(prs, steps[..|steps| - 1], card))
  }

  ghost predicate NeverSeparates(prs: Prs, steps: seq<Step>, card: Card)
    requires card in prs && forall step :: step in steps ==> step.card in prs
  {
    steps == []
    || (!Separates(prs, After(prs, steps[..|steps| - 1]), steps[|steps| - 1], card)
        && NeverSeparates(prs, steps[..|steps| - 1], card))
  }

  // Over a run, poller and assembler agree on a card's conflict all the way exactly when none of the
  // three steps is taken while dirty.
  lemma {:induction false} ConflictsInSyncThroughoutIff(prs: Prs, steps: seq<Step>, card: Card)
    requires OwnPrs(prs) && card in prs && forall step :: step in steps ==> step.card in prs
    ensures InSyncThroughout(prs, steps, card) <==> NeverSeparates(prs, steps, card)
  {
    hide Next, ConflictsInSync, Separates;
    if steps == [] {
      NoConflictsYet(prs, card);
    } else {
      var init, last := steps[..|steps| - 1], steps[|steps| - 1];
      assert last in steps;
      ConflictsInSyncThroughoutIff(prs, init, card);
      if ConflictsInSync(prs, After(prs, init), card) {
        ConflictsInSyncIff(prs, After(prs, init), last, card);
      }
      SyncAtEnd(prs, init, card);
    }
  }

  lemma SyncAtEnd(prs: Prs, steps: seq<Step>, card: Card)
    requires card in prs && forall step :: step in steps ==> step.card in prs
    ensures InSyncThroughout(prs, steps, card) ==> ConflictsInSync(prs, After(prs, steps), card)
  {
  }

  lemma NoConflictsYet(prs: Prs, card: Card)
    requires card in prs
    ensures ConflictsInSync(prs, System(map[], map[], map[], map[]), card)
  {
  }

  // ---- after a wrong optimistic clear ----

  // From a cleared entry whose conflict the poller still holds, a step shows a conflict again exactly
  // when it finds the request dirty with other files.
  lemma ClearedConflictReturnsIff(prs: Prs, s: System, step: Step, card: Card, files: seq<string>)
    requires OwnPrs(prs) && card in prs && step.card in prs
    requires Lookup(s.conflictCache, KeyOf(prs, card)) == Some(ConflictEntry("dirty", files)) && card !in s.conflictFails
    ensures card in Next(prs, s, step).conflictFails <==> IsDirty(step, card) && step.files != files
  {
    if step.card != card {
      OthersStay(prs, s, step, card);
    }
  }

  predicate IsDirty(step: Step, card: Card) {
    step.Conflicts? && step.card == card && step.state == "dirty"
  }

  // The poller forgets the conflict: another known state, or the end of the request.
  predicate Forgets(step: Step, card: Card) {
    step.card == card && (step.Settle? || (step.Conflicts? && step.state != "dirty" && step.state != "unknown"))
  }

  ghost predicate NeverShown(prs: Prs, s: System, steps: seq<Step>, card: Card)
    requires forall step :: step in steps ==> step.card in prs
  {
    && card !in Onwards(prs, s, steps).conflictFails
    && (steps == [] || NeverShown(prs, s, steps[..|steps| - 1], card))
  }

  // Every look that finds a conflict finds the cleared one, and the poller has not forgotten it.
  ghost predicate SameConflict(steps: seq<Step>, card: Card, files: seq<string>) {
    forall i :: 0 <= i < |steps| && IsDirty(steps[i], card) ==>
      steps[i].files == files && forall j :: 0 <= j < i ==> !Forgets(steps[j], card)
  }

  ghost predicate Forgotten(steps: seq<Step>, card: Card) {
    exists j :: 0 <= j < |steps| && Forgets(steps[j], card)
  }

  lemma SameConflictStep(init: seq<Step>, last: Step, card: Card, files: seq<string>)
    ensures SameConflict(init + [last], card, files) <==>
            SameConflict(init, card, files) && (IsDirty(last, card) ==> last.files == files && !Forgotten(init, card))
    ensures Forgotten(init + [last], card) <==> Forgotten(init, card) || Forgets(last, card)
  {
    hide IsDirty, Forgets;
    var all := init + [last];
    assert all[|init|] == last && forall i :: 0 <= i < |init| ==> all[i] == init[i];
  }

  // What the poller's entry is while the conflict is not shown.
  predicate HiddenEntry(cached: Option<ConflictEntry>, forgotten: bool, files: seq<string>) {
    if forgotten then DirtyFiles(cached).None? else cached == Some(ConflictEntry("dirty", files))
  }

  lemma HiddenStep(prs: Prs, s: System, step: Step, card: Card, files: seq<string>, forgotten: bool)
    requires OwnPrs(prs) && card in prs && step.card in prs
    requires HiddenEntry(Lookup(s.conflictCache, KeyOf(prs, card)), forgotten, files) && card !in s.conflictFails
    ensures var t := Next(prs, s, step);
            && (card in t.conflictFails <==> IsDirty(step, card) && (step.files != files || forgotten))
            && (card !in t.conflictFails ==>
                  HiddenEntry(Lookup(t.conflictCache, KeyOf(prs, card)), forgotten || Forgets(step, card), files))
  {
    if step.card != card {
      OthersStay(prs, s, step, card);
    }
  }

  // Over a run, the cleared conflict stays out of sight exactly while every look finds the same files
  // dirty, or finds no conflict: it returns at the first look that is dirty with other files, or
  // dirty again after a look that was not.
  lemma {:induction false} ClearedConflictStaysHiddenIff(prs: Prs, s: System, steps: seq<Step>, card: Card, files: seq<string>)
    requires OwnPrs(prs) && card in prs && forall step :: step in steps ==> step.card in prs
    requires Lookup(s.conflictCache, KeyOf(prs, card)) == Some(ConflictEntry("dirty", files)) && card !in s.conflictFails
    ensures NeverShown(prs, s, steps, card) <==> SameConflict(steps, card, files)
    ensures NeverShown(prs, s, steps, card) ==>
              HiddenEntry(Lookup(Onwards(prs, s, steps).conflictCache, KeyOf(prs, card)), Forgotten(steps, card), files)
  {
    hide Next, SameConflict, Forgotten, HiddenEntry, IsDirty, Forgets;
    if steps == [] {
      NothingSeen(card, files);
      assert HiddenEntry(Some(ConflictEntry("dirty", files)), false, files) by {
        StillHeld(files);
      }
    } else {
      var init, last := steps[..|steps| - 1], steps[|steps| - 1];
      assert last in steps && steps == init + [last];
      ClearedConflictStaysHiddenIff(prs, s, init, card, files);
      SameConflictStep(init, last, card, files);
      if NeverShown(prs, s, init, card) {
        HiddenStep(prs, Onwards(prs, s, init), last, card, files, Forgotten(init, card));
      }
    }
  }

  lemma NothingSeen(card: Card, files: seq<string>)
    ensures SameConflict([], card, files) && !Forgotten([], card)
  {
  }

  lemma StillHeld(files: seq<string>)
    ensures HiddenEntry(Some(ConflictEntry("dirty", files)), false, files)
  {
  }
}
