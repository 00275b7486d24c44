// The answer watcher (internal/store/answers_watch.go): delivering answer files to paused sessions,
// and noticing questions whose file is gone. What a tick reads from disk and clock is a parameter.
module AnswerWatch {
  import opened Options
  import SessionMachine
  import StreamJson

  datatype Paused = Paused(session: string, workspace: string, issue: int, question: string)

  datatype Workspace = Workspace(id: string, enabled: bool, path: string)

  datatype File = File(name: string, isDir: bool)

  // What one tick sees. answers is undefined for a directory that cannot be read.
  datatype Sight = Sight(
    paused: seq<Paused>,
    indexed: seq<Workspace>, // the first listing of the workspaces
    scanned: seq<Workspace>, // the second
    answers: map<string, seq<File>>,
    questions: set<(string, string)>, // path and id of the question files on disk
    now: int)

  // A look at the question file of a paused session.
  datatype Probe = Probe(session: string, question: string, at: int, missing: bool)

  datatype Orphan = Orphan(who: Paused, at: int, probed: nat)

  datatype State = State(
    fired: set<(string, string)>,
    firstMissing: map<string, int>,
    orphanFired: set<string>,
    answered: seq<Paused>,
    orphaned: seq<Orphan>,
    probes: seq<Probe>)

  // ---- file names ----

  predicate EndsWith(s: string, suffix: string) {
    |suffix| <= |s| && s[|s| - |suffix|..] == suffix
  }

  predicate HasAt(s: string, part: string, i: nat) {
    i + |part| <= |s| && s[i..i + |part|] == part
  }

  predicate Contains(s: string, part: string) {
    exists i :: 0 <= i <= |s| && HasAt(s, part, i)
  }

  // The question a file answers; plan-mode answers are named after a revision.
  function AnsweredBy(f: File): Option<string> {
    if f.isDir || !EndsWith(f.name, ".json") then None
    else
      var id := f.name[..|f.name| - 5];
      if Contains(id, "-rev") then None else Some(id)
  }

  // ---- delivery ----

  // The last session paused on a question.
  function Waiting(paused: seq<Paused>, workspace: string, question: string): Option<Paused> {
    if paused == [] then None
    else
      var last := paused[|paused| - 1];
      if last.workspace == workspace && last.question == question then Some(last)
      else Waiting(paused[..|paused| - 1], workspace, question)
  }

  function Index(paused: seq<Paused>): (m: map<(string, string), Paused>)
    ensures forall w, q :: (w, q) in m <==> Waiting(paused, w, q).Some?
    ensures forall w, q :: (w, q) in m ==> m[(w, q)] == Waiting(paused, w, q).value
  {
    if paused == [] then map[]
    else
      var last := paused[|paused| - 1];
      Index(paused[..|paused| - 1])[(last.workspace, last.question) := last]
  }

  // The sessions the files of one workspace answer, in order.
  function FileMatches(ws: Workspace, files: seq<File>, paused: seq<Paused>): seq<Paused> {
    if files == [] then []
    else
      var id := AnsweredBy(files[|files| - 1]);
      var p := if id.None? then None else Waiting(paused, ws.id, id.value);
      FileMatches(ws, files[..|files| - 1], paused) + (if p.Some? then [p.value] else [])
  }

  function Matches(sight: Sight, n: nat): seq<Paused>
    requires n <= |sight.scanned|
  {
    if n == 0 then []
    else
      var ws := sight.scanned[n - 1];
      Matches(sight, n - 1) +
      (if ws.enabled && ws.path != "" && ws.path in sight.answers
       then FileMatches(ws, sight.answers[ws.path], sight.paused) else [])
  }

  function PairOf(p: Paused): (string, string) {
    (p.session, p.question)
  }

  function Deliver(s: State, p: Paused): State {
    if PairOf(p) in s.fired then s
    else s.(fired := s.fired + {PairOf(p)}, answered := s.answered + [p])
  }

  function DeliverAll(s: State, ps: seq<Paused>): State {
    if ps == [] then s else Deliver(DeliverAll(s, ps[..|ps| - 1]), ps[|ps| - 1])
  }

  // ---- orphans ----

  function PathOf(indexed: seq<Workspace>, workspace: string): string {
    if indexed == [] then ""
    else if indexed[|indexed| - 1].id == workspace then indexed[|indexed| - 1].path
    else PathOf(indexed[..|indexed| - 1], workspace)
  }

  predicate Probed(sight: Sight, p: Paused) {
    p.question != "" && PathOf(sight.indexed, p.workspace) != ""
  }

  predicate Missing(sight: Sight, p: Paused) {
    (PathOf(sight.indexed, p.workspace), p.question) !in sight.questions
  }

  function Watch(s: State, sight: Sight, p: Paused, grace: int): State {
    if !Probed(sight, p) then s
    else
      var t := s.(probes := s.probes + [Probe(p.session, p.question, sight.now, Missing(sight, p))]);
      if !Missing(sight, p) then t.(firstMissing := s.firstMissing - {p.session})
      else if p.session in s.orphanFired then t
      else if p.session !in s.firstMissing then t.(firstMissing := s.firstMissing[p.session := sight.now])
      else if sight.now - s.firstMissing[p.session] < grace then t
      else t.(orphanFired := s.orphanFired + {p.session},
              orphaned := s.orphaned + [Orphan(p, sight.now, |t.probes|)])
  }

  function WatchAll(s: State, sight: Sight, ps: seq<Paused>, grace: int): State {
    if ps == [] then s else Watch(WatchAll(s, sight, ps[..|ps| - 1], grace), sight, ps[|ps| - 1], grace)
  }

  function Ticked(s: State, sight: Sight, grace: int): State {
    if sight.paused == [] then s
    else
      var t := DeliverAll(s, Matches(sight, |sight.scanned|));
      if grace <= 0 then t else WatchAll(t, sight, sight.paused, grace)
  }

  // ---- the watcher ----

  // Without an orphan callback the grace period is 0.
  class AnswerWatcher {
    const grace: int
    var fired: set<(string, string)>
    var firstMissing: map<string, int>
    var orphanFired: set<string>
    var answered: seq<Paused>
    var orphaned: seq<Orphan>
    var probes: seq<Probe> // the looks taken at question files

    function View(): State
      reads this
    {
      State(fired, firstMissing, orphanFired, answered, orphaned, probes)
    }

    constructor (grace: int)
      ensures this.grace == grace && View() == State({}, map[], {}, [], [], [])
    {
      this.grace := grace;
      fired, firstMissing, orphanFired, answered, orphaned, probes := {}, map[], {}, [], [], [];
    }

    method IndexPaused(paused: seq<Paused>) returns (idx: map<(string, string), Paused>)
      ensures idx == Index(paused)
    {
      idx := map[];
      for i := 0 to |paused|
        invariant idx == Index(paused[..i])
      {
        assert paused[..i + 1][..i] == paused[..i];
        idx := idx[(paused[i].workspace, paused[i].question) := paused[i]];
      }
      assert paused[..|paused|] == paused;
    }

    method IndexPaths(indexed: seq<Workspace>) returns (paths: map<string, string>)
      ensures forall w :: PathOf(indexed, w) == if w in paths then paths[w] else ""
    {
      paths := map[];
      for i := 0 to |indexed|
        invariant forall w :: PathOf(indexed[..i], w) == if w in paths then paths[w] else ""
      {
        assert indexed[..i + 1][..i] == indexed[..i];
        paths := paths[indexed[i].id := indexed[i].path];
      }
      assert indexed[..|indexed|] == indexed;
    }

    // One match: fire once.
    method Fire(p: Paused)
      modifies this
      ensures View() == Deliver(old(View()), p)
    {
      if (p.session, p.question) in fired {
        return;
      }
      fired := fired + {(p.session, p.question)};
      answered := answered + [p];
    }

    method ScanFiles(ws: Workspace, files: seq<File>, idx: map<(string, string), Paused>, ghost paused: seq<Paused>)
      requires idx == Index(paused)
      modifies this
      ensures View() == DeliverAll(old(View()), FileMatches(ws, files, paused))
    {
      hide Deliver, Index, Waiting, AnsweredBy;
      ghost var was := View();
      for j := 0 to |files|
        invariant View() == DeliverAll(was, FileMatches(ws, files[..j], paused))
      {
        ghost var before := FileMatches(ws, files[..j], paused);
        assert files[..j + 1][..j] == files[..j];
        var id := AnsweredBy(files[j]);
        IndexHas(paused, ws.id, if id.Some? then id.value else "");
        if id.None? || (ws.id, id.value) !in idx {
          assert before + [] == before;
          continue;
        }
        var p := idx[(ws.id, id.value)];
        assert (before + [p])[..|before|] == before;
        Fire(p);
      }
      assert files[..|files|] == files;
    }

    // The body of the orphan loop.
    method ProbeQuestion(p: Paused, path: string, present: bool, now: int, ghost sight: Sight)
      requires path == PathOf(sight.indexed, p.workspace) && present == !Missing(sight, p) && now == sight.now
      modifies this
      ensures View() == Watch(old(View()), sight, p, grace)
    {
      if p.question == "" {
        return;
      }
      if path == "" {
        return;
      }
      probes := probes + [Probe(p.session, p.question, now, !present)];
      if present {
        firstMissing := firstMissing - {p.session};
        return;
      }
      if p.session in orphanFired {
        return;
      }
      if p.session !in firstMissing {
        firstMissing := firstMissing[p.session := now];
        return;
      }
      if now - firstMissing[p.session] < grace {
        return;
      }
      orphanFired := orphanFired + {p.session};
      orphaned := orphaned + [Orphan(p, now, |probes|)];
    }

    method ScanAnswers(sight: Sight, idx: map<(string, string), Paused>)
      requires idx == Index(sight.paused)
      modifies this
      ensures View() == DeliverAll(old(View()), Matches(sight, |sight.scanned|))
    {
      hide Index, FileMatches, Deliver;
      ghost var was := View();
      for i := 0 to |sight.scanned|
        invariant View() == DeliverAll(was, Matches(sight, i))
      {
        var ws := sight.scanned[i];
        if !ws.enabled || ws.path == "" || ws.path !in sight.answers {
          assert Matches(sight, i) + [] == Matches(sight, i);
          continue;
        }
        ScanFiles(ws, sight.answers[ws.path], idx, sight.paused);
        DeliverAllAppend(was, Matches(sight, i), FileMatches(ws, sight.answers[ws.path], sight.paused));
      }
    }

    method ProbeQuestions(sight: Sight, paths: map<string, string>)
      requires forall w :: PathOf(sight.indexed, w) == if w in paths then paths[w] else ""
      modifies this
      ensures View() == WatchAll(old(View()), sight, sight.paused, grace)
    {
      hide Watch, PathOf;
      ghost var was := View();
      for i := 0 to |sight.paused|
        invariant View() == WatchAll(was, sight, sight.paused[..i], grace)
      {
        var p := sight.paused[i];
        assert sight.paused[..i + 1][..i] == sight.paused[..i];
        var path := if p.workspace in paths then paths[p.workspace] else "";
        ProbeQuestion(p, path, (path, p.question) in sight.questions, sight.now, sight);
      }
      assert sight.paused[..|sight.paused|] == sight.paused;
    }

    method Tick(sight: Sight)
      modifies this
      ensures View() == Ticked(old(View()), sight, grace)
    {
      hide Index, Matches, DeliverAll, WatchAll, PathOf;
      if |sight.paused| == 0 {
        return;
      }
      var idx := IndexPaused(sight.paused);
      var paths := IndexPaths(sight.indexed);
      ScanAnswers(sight, idx);
      if grace <= 0 {
        return;
      }
      ProbeQuestions(sight, paths);
    }
  }

  lemma IndexHas(paused: seq<Paused>, w: string, q: string)
    ensures (w, q) in Index(paused) <==> Waiting(paused, w, q).Some?
    ensures (w, q) in Index(paused) ==> Index(paused)[(w, q)] == Waiting(paused, w, q).value
  {
  }

  lemma {:induction false} DeliverAllAppend(s: State, a: seq<Paused>, b: seq<Paused>)
    ensures DeliverAll(DeliverAll(s, a), b) == DeliverAll(s, a + b)
    decreases |b|
  {
    if b == [] {
      assert a + b == a;
    } else {
      DeliverAllAppend(s, a, b[..|b| - 1]);
      assert (a + b)[..|a + b| - 1] == a + b[..|b| - 1];
    }
  }

  // ---- each answer once ----

  function Pairs(ps: seq<Paused>): (r: seq<(string, string)>)
    ensures |r| == |ps| && forall i :: 0 <= i < |ps| ==> r[i] == PairOf(ps[i])
  {
    seq(|ps|, i requires 0 <= i < |ps| => PairOf(ps[i]))
  }

  ghost predicate AnswersOnce(s: State) {
    Distinct(Pairs(s.answered)) && forall x :: x in s.fired <==> x in Pairs(s.answered)
  }

  lemma {:induction false} DeliverAllOnce(s: State, ps: seq<Paused>)
    requires AnswersOnce(s)
    ensures var t := DeliverAll(s, ps);
            && AnswersOnce(t)
            && s.answered <= t.answered
            && (forall p :: p in ps ==> PairOf(p) in t.fired)
            && (forall i :: |s.answered| <= i < |t.answered| ==> t.answered[i] in ps)
            && t == s.(fired := t.fired, answered := t.answered)
  {
    if ps != [] {
      var init, last := ps[..|ps| - 1], ps[|ps| - 1];
      assert ps == init + [last];
      DeliverAllOnce(s, init);
      DeliverOnce(DeliverAll(s, init), last);
    }
  }

  lemma DeliverOnce(s: State, p: Paused)
    requires AnswersOnce(s)
    ensures AnswersOnce(Deliver(s, p)) && PairOf(p) in Deliver(s, p).fired
  {
    var t := Deliver(s, p);
    if t != s {
      assert Pairs(t.answered) == Pairs(s.answered) + [PairOf(p)];
    }
  }

  // ---- the grace period ----

  // The session's question file was missing at every look from place i up to n.
  predicate MissingSince(probes: seq<Probe>, session: string, i: nat, n: nat)
    requires i < n <= |probes|
  {
    && probes[i].session == session
    && forall j :: i <= j < n && probes[j].session == session ==> probes[j].missing
  }

  // first is when a look found it missing that every later look confirmed.
  ghost predicate ExplainsTimer(probes: seq<Probe>, session: string, first: int) {
    exists i :: 0 <= i < |probes| && probes[i].at == first && MissingSince(probes, session, i, |probes|)
  }

  ghost predicate ExplainsOrphan(probes: seq<Probe>, o: Orphan, grace: int) {
    exists i :: 0 <= i < o.probed <= |probes| && probes[i].at + grace <= o.at
      && MissingSince(probes, o.who.session, i, o.probed)
      && probes[o.probed - 1] == Probe(o.who.session, o.who.question, o.at, true)
  }

  ghost predicate TimersExplained(s: State) {
    forall session :: session in s.firstMissing ==> ExplainsTimer(s.probes, session, s.firstMissing[session])
  }

  ghost predicate OrphansExplained(s: State, grace: int) {
    forall k :: 0 <= k < |s.orphaned| ==> ExplainsOrphan(s.probes, s.orphaned[k], grace)
  }

  function Sessions(os: seq<Orphan>): (r: seq<string>)
    ensures |r| == |os| && forall i :: 0 <= i < |os| ==> r[i] == os[i].who.session
  {
    seq(|os|, i requires 0 <= i < |os| => os[i].who.session)
  }

  ghost predicate OrphansOnce(s: State) {
    Distinct(Sessions(s.orphaned)) && forall x :: x in s.orphanFired <==> x in Sessions(s.orphaned)
  }

  lemma OneMoreProbe(probes: seq<Probe>, pr: Probe, session: string, first: int)
    requires ExplainsTimer(probes, session, first)
    requires pr.session == session ==> pr.missing
    ensures ExplainsTimer(probes + [pr], session, first)
  {
    var i :| 0 <= i < |probes| && probes[i].at == first && MissingSince(probes, session, i, |probes|);
    assert MissingSince(probes + [pr], session, i, |probes| + 1);
  }

  lemma OrphanStays(probes: seq<Probe>, pr: Probe, o: Orphan, grace: int)
    requires ExplainsOrphan(probes, o, grace)
    ensures ExplainsOrphan(probes + [pr], o, grace)
  {
    var i :| 0 <= i < o.probed <= |probes| && probes[i].at + grace <= o.at
      && MissingSince(probes, o.who.session, i, o.probed)
      && probes[o.probed - 1] == Probe(o.who.session, o.who.question, o.at, true);
    assert MissingSince(probes + [pr], o.who.session, i, o.probed);
  }

  lemma WatchKeepsTimers(s: State, sight: Sight, p: Paused, grace: int)
    requires TimersExplained(s)
    ensures TimersExplained(Watch(s, sight, p, grace))
  {
    hide ExplainsTimer;
    var t := Watch(s, sight, p, grace);
    if t != s {
      var pr := Probe(p.session, p.question, sight.now, Missing(sight, p));
      forall session | session in t.firstMissing
        ensures ExplainsTimer(t.probes, session, t.firstMissing[session])
      {
        if session in s.firstMissing {
          OneMoreProbe(s.probes, pr, session, s.firstMissing[session]);
        } else {
          NewTimer(s.probes, pr);
        }
      }
    }
  }

  lemma NewTimer(probes: seq<Probe>, pr: Probe)
    requires pr.missing
    ensures ExplainsTimer(probes + [pr], pr.session, pr.at)
  {
    assert MissingSince(probes + [pr], pr.session, |probes|, |probes| + 1);
  }

  lemma TimerExplainsOrphan(probes: seq<Probe>, p: Paused, first: int, now: int, grace: int)
    requires ExplainsTimer(probes, p.session, first) && now - first >= grace
    requires probes != [] && probes[|probes| - 1] == Probe(p.session, p.question, now, true)
    ensures ExplainsOrphan(probes, Orphan(p, now, |probes|), grace)
  {
  }

  lemma WatchKeepsOrphans(s: State, sight: Sight, p: Paused, grace: int)
    requires TimersExplained(s) && OrphansExplained(s, grace) && OrphansOnce(s)
    ensures OrphansExplained(Watch(s, sight, p, grace), grace) && OrphansOnce(Watch(s, sight, p, grace))
  {
    hide ExplainsTimer, ExplainsOrphan, Missing, Probed;
    var t := Watch(s, sight, p, grace);
    if t != s {
      var pr := Probe(p.session, p.question, sight.now, Missing(sight, p));
      forall k | 0 <= k < |s.orphaned| ensures ExplainsOrphan(t.probes, s.orphaned[k], grace) {
        OrphanStays(s.probes, pr, s.orphaned[k], grace);
      }
      if t.orphaned != s.orphaned {
        OneMoreProbe(s.probes, pr, p.session, s.firstMissing[p.session]);
        TimerExplainsOrphan(t.probes, p, s.firstMissing[p.session], sight.now, grace);
        assert Sessions(t.orphaned) == Sessions(s.orphaned) + [p.session];
      }
    }
  }

  ghost predicate Good(s: State, grace: int) {
    AnswersOnce(s) && TimersExplained(s) && OrphansExplained(s, grace) && OrphansOnce(s)
  }

  lemma {:induction false} WatchAllGood(s: State, sight: Sight, ps: seq<Paused>, grace: int)
    requires Good(s, grace)
    ensures Good(WatchAll(s, sight, ps, grace), grace)
    ensures WatchAll(s, sight, ps, grace).answered == s.answered && WatchAll(s, sight, ps, grace).fired == s.fired
  {
    hide AnswersOnce, TimersExplained, OrphansExplained, OrphansOnce;
    if ps != [] {
      WatchAllGood(s, sight, ps[..|ps| - 1], grace);
      var t := WatchAll(s, sight, ps[..|ps| - 1], grace);
      WatchKeepsTimers(t, sight, ps[|ps| - 1], grace);
      WatchKeepsOrphans(t, sight, ps[|ps| - 1], grace);
      AnswersUntouched(t, sight, ps[|ps| - 1], grace);
    }
  }

  lemma AnswersUntouched(s: State, sight: Sight, p: Paused, grace: int)
    requires AnswersOnce(s)
    ensures AnswersOnce(Watch(s, sight, p, grace))
    ensures Watch(s, sight, p, grace).answered == s.answered && Watch(s, sight, p, grace).fired == s.fired
  {
  }

  function Run(sights: seq<Sight>, grace: int): State {
    if sights == [] then State({}, map[], {}, [], [], [])
    else Ticked(Run(sights[..|sights| - 1], grace), sights[|sights| - 1], grace)
  }

  // Over every sequence of ticks, whatever they see and whenever they run: each answer goes to a
  // session at most once per question; each session is reported as orphaned at most once, and only
  // when its question file was missing at every look since one at least the grace period earlier.
  lemma {:induction false} RunIsGood(sights: seq<Sight>, grace: int)
    ensures Good(Run(sights, grace), grace)
  {
    hide DeliverAll, WatchAll, Matches, Good;
    if sights == [] {
      EmptyGood(grace);
    } else {
      RunIsGood(sights[..|sights| - 1], grace);
      TickKeepsGood(Run(sights[..|sights| - 1], grace), sights[|sights| - 1], grace);
    }
  }

  lemma EmptyGood(grace: int)
    ensures Good(State({}, map[], {}, [], [], []), grace)
  {
  }

  lemma TickKeepsGood(s: State, sight: Sight, grace: int)
    requires Good(s, grace)
    ensures Good(Ticked(s, sight, grace), grace)
  {
    hide DeliverAll, WatchAll, Matches;
    var ps := Matches(sight, |sight.scanned|);
    DeliverAllOnce(s, ps);
    var t := DeliverAll(s, ps);
    assert Good(t, grace);
    if grace > 0 {
      WatchAllGood(t, sight, sight.paused, grace);
    }
  }

  // ---- delivery is complete ----

  lemma {:induction false} FileMatchesHas(ws: Workspace, files: seq<File>, paused: seq<Paused>, k: nat)
    requires k < |files| && AnsweredBy(files[k]).Some?
    requires Waiting(paused, ws.id, AnsweredBy(files[k]).value).Some?
    ensures Waiting(paused, ws.id, AnsweredBy(files[k]).value).value in FileMatches(ws, files, paused)
  {
    hide AnsweredBy, Waiting;
    if k < |files| - 1 {
      FileMatchesHas(ws, files[..|files| - 1], paused, k);
    }
  }

  lemma {:induction false} MatchesHas(sight: Sight, n: nat, i: nat, k: nat)
    requires i < n <= |sight.scanned|
    requires var ws := sight.scanned[i];
             && ws.enabled && ws.path != "" && ws.path in sight.answers
             && k < |sight.answers[ws.path]|
             && AnsweredBy(sight.answers[ws.path][k]).Some?
             && Waiting(sight.paused, ws.id, AnsweredBy(sight.answers[ws.path][k]).value).Some?
    ensures var ws := sight.scanned[i];
            Waiting(sight.paused, ws.id, AnsweredBy(sight.answers[ws.path][k]).value).value in Matches(sight, n)
  {
    hide AnsweredBy, Waiting, FileMatches;
    if i < n - 1 {
      MatchesHas(sight, n - 1, i, k);
    } else {
      FileMatchesHas(sight.scanned[i], sight.answers[sight.scanned[i].path], sight.paused, k);
    }
  }

  // A tick answers, for every answer file it reads, the last session paused on that question, if it
  // has not been answered before. An earlier session paused on the same question is passed over.
  lemma TickAnswers(s: State, sight: Sight, grace: int, i: nat, k: nat)
    requires Good(s, grace) && i < |sight.scanned|
    requires var ws := sight.scanned[i];
             && ws.enabled && ws.path != "" && ws.path in sight.answers
             && k < |sight.answers[ws.path]|
             && AnsweredBy(sight.answers[ws.path][k]).Some?
             && Waiting(sight.paused, ws.id, AnsweredBy(sight.answers[ws.path][k]).value).Some?
    ensures var ws := sight.scanned[i];
            PairOf(Waiting(sight.paused, ws.id, AnsweredBy(sight.answers[ws.path][k]).value).value)
              in Ticked(s, sight, grace).fired
  {
    hide AnsweredBy, FileMatches, Matches, WatchAll, DeliverAll;
    var ps := Matches(sight, |sight.scanned|);
    MatchesHas(sight, |sight.scanned|, i, k);
    DeliverAllOnce(s, ps);
    if grace > 0 {
      WatchAllGood(DeliverAll(s, ps), sight, sight.paused, grace);
    }
  }

  // ---- the grace period of a question ----

  // What the watcher sees of a paused session is the question id its lines have left so far, or none
  // once an answer has cleared it; the answer resumes under a new session id.
  ghost predicate SeenFrom(p: Paused, lines: seq<StreamJson.Line>, quota: SessionMachine.QuotaReader) {
    p.question == "" || exists k :: 0 <= k <= |lines| && p.question == QuestionAfter(lines[..k], quota)
  }

  function QuestionAfter(lines: seq<StreamJson.Line>, quota: SessionMachine.QuotaReader): string {
    SessionMachine.MatchAll(SessionMachine.FRESH, lines, quota).pendingQuestionId
  }

  ghost predicate SightsFrom(sights: seq<Sight>, lines: string -> seq<StreamJson.Line>, quota: SessionMachine.QuotaReader) {
    forall i, p :: 0 <= i < |sights| && p in sights[i].paused ==> SeenFrom(p, lines(p.session), quota)
  }

  // Each session is only ever seen paused on one question: asks(session).
  ghost predicate OneQuestionEach(sights: seq<Sight>, asks: string -> string) {
    forall i, p :: 0 <= i < |sights| && p in sights[i].paused ==> p.question == "" || p.question == asks(p.session)
  }

  lemma SessionAsksOnce(p: Paused, lines: seq<StreamJson.Line>, quota: SessionMachine.QuotaReader)
    requires SeenFrom(p, lines, quota) && p.question != ""
    ensures p.question == QuestionAfter(lines, quota)
  {
    hide SessionMachine.MatchAll;
    var k :| 0 <= k <= |lines| && p.question == QuestionAfter(lines[..k], quota);
    assert lines == lines[..k] + lines[k..];
    SessionMachine.MatchAllAppend(SessionMachine.FRESH, lines[..k], lines[k..], quota);
    SessionMachine.QuestionWrittenOnce(SessionMachine.MatchAll(SessionMachine.FRESH, lines[..k], quota), lines[k..], quota);
  }

  ghost predicate ProbesAsk(probes: seq<Probe>, asks: string -> string) {
    forall i :: 0 <= i < |probes| ==> probes[i].question == asks(probes[i].session)
  }

  // The question reported was missing, by name, at every look at it since one at least the grace
  // period earlier.
  ghost predicate OwnGrace(probes: seq<Probe>, o: Orphan, grace: int) {
    exists i :: 0 <= i < o.probed <= |probes| && probes[i].at + grace <= o.at && LooksMissing(probes, o, i)
  }

  predicate LooksMissing(probes: seq<Probe>, o: Orphan, i: nat)
    requires i < o.probed <= |probes|
  {
    && probes[i].session == o.who.session && probes[i].question == o.who.question
    && forall j :: i <= j < o.probed && probes[j].session == o.who.session && probes[j].question == o.who.question
         ==> probes[j].missing
  }

  lemma {:induction false} WatchAllAsks(s: State, sight: Sight, ps: seq<Paused>, grace: int, asks: string -> string)
    requires ProbesAsk(s.probes, asks) && forall p :: p in ps ==> p.question == "" || p.question == asks(p.session)
    ensures ProbesAsk(WatchAll(s, sight, ps, grace).probes, asks)
  {
    hide Missing;
    if ps != [] {
      assert ps[|ps| - 1] in ps;
      WatchAllAsks(s, sight, ps[..|ps| - 1], grace, asks);
    }
  }

  lemma {:induction false} RunAsks(sights: seq<Sight>, grace: int, asks: string -> string)
    requires OneQuestionEach(sights, asks)
    ensures ProbesAsk(Run(sights, grace).probes, asks)
  {
    hide WatchAll, DeliverAll, Matches, Good;
    if sights != [] {
      var init, last := sights[..|sights| - 1], sights[|sights| - 1];
      RunAsks(init, grace, asks);
      RunIsGood(init, grace);
      GoodAnswers(Run(init, grace), grace);
      DeliverAllOnce(Run(init, grace), Matches(last, |last.scanned|));
      WatchAllAsks(DeliverAll(Run(init, grace), Matches(last, |last.scanned|)), last, last.paused, grace, asks);
    }
  }

  lemma GoodAnswers(s: State, grace: int)
    requires Good(s, grace)
    ensures AnswersOnce(s)
  {
  }

  // Over every sequence of ticks that see what the sessions' lines wrote, a question is reported
  // only when its own file was missing at every look since one at least the grace period earlier.
  lemma ReportsKeepGrace(sights: seq<Sight>, grace: int, lines: string -> seq<StreamJson.Line>, quota: SessionMachine.QuotaReader)
    requires SightsFrom(sights, lines, quota)
    ensures var s := Run(sights, grace); forall k :: 0 <= k < |s.orphaned| ==> OwnGrace(s.probes, s.orphaned[k], grace)
  {
    hide Run, QuestionAfter, SeenFrom;
    var s := Run(sights, grace);
    var asks := (session: string) => QuestionAfter(lines(session), quota);
    forall i, p | 0 <= i < |sights| && p in sights[i].paused ensures p.question == "" || p.question == asks(p.session) {
      if p.question != "" {
        SessionAsksOnce(p, lines(p.session), quota);
      }
    }
    RunIsGood(sights, grace);
    RunAsks(sights, grace, asks);
    forall k | 0 <= k < |s.orphaned| ensures OwnGrace(s.probes, s.orphaned[k], grace) {
      assert ExplainsOrphan(s.probes, s.orphaned[k], grace);
      OwnQuestion(s.probes, s.orphaned[k], grace, asks);
    }
  }

  lemma OwnQuestion(probes: seq<Probe>, o: Orphan, grace: int, asks: string -> string)
    requires ProbesAsk(probes, asks) && ExplainsOrphan(probes, o, grace)
    ensures OwnGrace(probes, o, grace)
  {
    var i :| 0 <= i < o.probed <= |probes| && probes[i].at + grace <= o.at
      && MissingSince(probes, o.who.session, i, o.probed)
      && probes[o.probed - 1] == Probe(o.who.session, o.who.question, o.at, true);
    assert probes[o.probed - 1].question == asks(o.who.session) == probes[i].question;
    assert LooksMissing(probes, o, i);
  }
}
