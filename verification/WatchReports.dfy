// Which questions the answer watcher reports as orphaned and which sessions it answers, told from what
// its ticks see (internal/store/answers_watch.go).
module WatchReports {
  import opened Options
  import opened AnswerWatch

  // ---- the looks ----

  // The place of the last workspace listed under an id.
  ghost predicate ListedLast(indexed: seq<Workspace>, k: int, id: string) {
    0 <= k < |indexed| && indexed[k].id == id && forall j :: k < j < |indexed| ==> indexed[j].id != id
  }

  lemma {:induction false} PathIsListedLast(indexed: seq<Workspace>, id: string)
    ensures (exists k :: ListedLast(indexed, k, id) && PathOf(indexed, id) == indexed[k].path)
            || (PathOf(indexed, id) == "" && forall k :: 0 <= k < |indexed| ==> indexed[k].id != id)
  {
    if indexed != [] {
      var init := indexed[..|indexed| - 1];
      assert forall k :: 0 <= k < |init| ==> init[k] == indexed[k];
      if indexed[|init|].id == id {
        assert ListedLast(indexed, |init|, id);
      } else {
        PathIsListedLast(init, id);
        if k :| ListedLast(init, k, id) && PathOf(init, id) == init[k].path {
          assert ListedLast(indexed, k, id);
        }
      }
    }
  }

  // A look at the question file of every paused session that names a question in a workspace with a path.
  function LooksAt(sight: Sight, ps: seq<Paused>): seq<Probe> {
    if ps == [] then []
    else
      var p := ps[|ps| - 1];
      var path := PathOf(sight.indexed, p.workspace);
      LooksAt(sight, ps[..|ps| - 1]) +
      (if p.question == "" || path == "" then []
       else [Probe(p.session, p.question, sight.now, (path, p.question) !in sight.questions)])
  }

  function Looks(sights: seq<Sight>): seq<Probe> {
    if sights == [] then []
    else Looks(sights[..|sights| - 1]) + LooksAt(sights[|sights| - 1], sights[|sights| - 1].paused)
  }

  lemma {:induction false} WatchAllLooks(s: State, sight: Sight, ps: seq<Paused>, grace: int)
    ensures WatchAll(s, sight, ps, grace).probes == s.probes + LooksAt(sight, ps)
  {
    hide PathOf;
    if ps != [] {
      WatchAllLooks(s, sight, ps[..|ps| - 1], grace);
    }
  }

  lemma TickParts(s: State, sight: Sight, grace: int)
    requires AnswersOnce(s)
    ensures var d := Delivered(s, sight);
            && AnswersOnce(d) && d == s.(fired := d.fired, answered := d.answered)
            && Ticked(s, sight, grace) == if grace <= 0 then d else WatchAll(d, sight, sight.paused, grace)
  {
    hide Matches, DeliverAll, WatchAll;
    DeliverAllOnce(s, Matches(sight, |sight.scanned|));
    if sight.paused == [] {
      NobodyWatched(Delivered(s, sight), sight, grace);
    }
  }

  // A tick's first half.
  function Delivered(s: State, sight: Sight): State {
    if sight.paused == [] then s else DeliverAll(s, Matches(sight, |sight.scanned|))
  }

  lemma NobodyWatched(s: State, sight: Sight, grace: int)
    ensures WatchAll(s, sight, [], grace) == s
  {
  }

  lemma GoodParts(s: State, grace: int)
    requires Good(s, grace)
    ensures AnswersOnce(s) && OrphansOnce(s)
  {
  }

  // The looks a watcher takes, when it watches for orphans at all.
  lemma {:induction false} LooksAreTaken(sights: seq<Sight>, grace: int)
    ensures Run(sights, grace).probes == if grace <= 0 then [] else Looks(sights)
  {
    hide Ticked, WatchAll, LooksAt, Good, Delivered;
    if sights != [] {
      var init, last := sights[..|sights| - 1], sights[|sights| - 1];
      LooksAreTaken(init, grace);
      RunIsGood(init, grace);
      GoodParts(Run(init, grace), grace);
      TickParts(Run(init, grace), last, grace);
      WatchAllLooks(Delivered(Run(init, grace), last), last, last.paused, grace);
    }
  }

  // ---- an orphan is reported ----

  // The unbroken stretch of looks at the session that found its file missing, up to place n and
  // including it, starts at place i.
  ghost predicate StretchFrom(probes: seq<Probe>, session: string, i: int, n: int) {
    && 0 <= i < n <= |probes| && MissingSince(probes, session, i, n)
    && forall j :: 0 <= j < i && probes[j].session == session ==> !MissingSince(probes, session, j, n)
  }

  // The look at place n finds the file missing, a grace period or more after the stretch began.
  ghost predicate Overdue(probes: seq<Probe>, session: string, n: int, grace: int) {
    && 0 <= n < |probes| && probes[n].session == session && probes[n].missing
    && exists i :: StretchFrom(probes, session, i, n + 1) && probes[i].at + grace <= probes[n].at
  }

  ghost predicate FirstOverdue(probes: seq<Probe>, session: string, n: int, grace: int) {
    Overdue(probes, session, n, grace) && forall m :: m < n ==> !Overdue(probes, session, m, grace)
  }

  // The timers and the reports agree with the looks.
  ghost predicate TimersTold(s: State) {
    forall x :: x !in s.orphanFired ==> TimerTold(s, x)
  }

  ghost predicate TimerTold(s: State, x: string) {
    && (x in s.firstMissing <==> exists i :: StretchFrom(s.probes, x, i, |s.probes|))
    && forall i :: StretchFrom(s.probes, x, i, |s.probes|) && x in s.firstMissing ==> s.firstMissing[x] == s.probes[i].at
  }

  ghost predicate ReportsTold(s: State, grace: int) {
    && (forall x :: x in s.orphanFired <==> exists n :: Overdue(s.probes, x, n, grace))
    && forall k :: 0 <= k < |s.orphaned| ==> ReportTold(s.probes, s.orphaned[k], grace)
  }

  ghost predicate ReportTold(probes: seq<Probe>, o: Orphan, grace: int) {
    && FirstOverdue(probes, o.who.session, o.probed - 1, grace)
    && probes[o.probed - 1] == Probe(o.who.session, o.who.question, o.at, true)
  }

  // A look more leaves the earlier ones as they were.
  lemma StretchStays(probes: seq<Probe>, pr: Probe, x: string, i: int, n: int)
    requires n <= |probes|
    ensures StretchFrom(probes + [pr], x, i, n) <==> StretchFrom(probes, x, i, n)
  {
    var more := probes + [pr];
    assert forall j :: 0 <= j < |probes| ==> more[j] == probes[j];
    assert forall j :: 0 <= j < n ==> (MissingSince(more, x, j, n) <==> MissingSince(probes, x, j, n));
  }

  lemma OverdueStays(probes: seq<Probe>, pr: Probe, x: string, n: int, grace: int)
    requires n < |probes|
    ensures Overdue(probes + [pr], x, n, grace) <==> Overdue(probes, x, n, grace)
  {
    hide StretchFrom;
    var more := probes + [pr];
    assert forall j :: 0 <= j < |probes| ==> more[j] == probes[j];
    if 0 <= n {
      var end := n + 1;
      forall i ensures StretchFrom(more, x, i, end) <==> StretchFrom(probes, x, i, end) {
        StretchStays(probes, pr, x, i, end);
      }
      forall i | StretchFrom(probes, x, i, end) ensures 0 <= i < |probes| {
        StretchWithin(probes, x, i, end);
      }
    }
  }

  lemma StretchWithin(probes: seq<Probe>, x: string, i: int, n: int)
    requires StretchFrom(probes, x, i, n)
    ensures 0 <= i < n <= |probes| && probes[i].session == x
  {
  }

  lemma MissingMore(probes: seq<Probe>, pr: Probe, x: string, j: nat)
    requires j < |probes|
    ensures MissingSince(probes + [pr], x, j, |probes| + 1) <==>
            MissingSince(probes, x, j, |probes|) && (pr.session == x ==> pr.missing)
  {
    var more := probes + [pr];
    assert more[|probes|] == pr && forall i :: 0 <= i < |probes| ==> more[i] == probes[i];
  }

  // One look more, at a session: its stretch goes on, begins or is broken; others stay as they are.
  lemma StretchMore(probes: seq<Probe>, pr: Probe, x: string, i: int)
    ensures StretchFrom(probes + [pr], x, i, |probes| + 1) <==>
            if pr.session != x then StretchFrom(probes, x, i, |probes|)
            else pr.missing && (StretchFrom(probes, x, i, |probes|)
                                || (i == |probes| && forall j :: !StretchFrom(probes, x, j, |probes|)))
  {
    var more := probes + [pr];
    assert forall j :: 0 <= j < |probes| ==> more[j] == probes[j];
    forall j | 0 <= j < |probes|
      ensures MissingSince(more, x, j, |probes| + 1) <==> MissingSince(probes, x, j, |probes|) && (pr.session == x ==> pr.missing)
    {
      MissingMore(probes, pr, x, j);
    }
    assert MissingSince(more, x, |probes|, |probes| + 1) <==> pr.session == x && pr.missing;
    if pr.session == x && pr.missing && i == |probes| {
      if j :| 0 <= j < |probes| && probes[j].session == x && MissingSince(probes, x, j, |probes|) {
        var k := EarliestMissing(probes, x, j);
      }
    }
  }

  lemma {:induction false} EarliestMissing(probes: seq<Probe>, x: string, j: nat) returns (k: nat)
    requires j < |probes| && MissingSince(probes, x, j, |probes|)
    ensures StretchFrom(probes, x, k, |probes|)
  {
    if i :| 0 <= i < j && probes[i].session == x && MissingSince(probes, x, i, |probes|) {
      k := EarliestMissing(probes, x, i);
    } else {
      k := j;
    }
  }

  lemma OneStretch(probes: seq<Probe>, x: string, i: int, j: int, n: int)
    requires StretchFrom(probes, x, i, n) && StretchFrom(probes, x, j, n)
    ensures i == j
  {
  }

  // Whether the new look is overdue shows in the timer.
  lemma OverdueShows(s: State, pr: Probe, grace: int)
    requires grace > 0 && TimerTold(s, pr.session)
    ensures Overdue(s.probes + [pr], pr.session, |s.probes|, grace) <==>
            pr.missing && pr.session in s.firstMissing && pr.at - s.firstMissing[pr.session] >= grace
  {
    hide StretchFrom;
    var x, more, n := pr.session, s.probes + [pr], |s.probes|;
    assert more[n] == pr && forall j :: 0 <= j < n ==> more[j] == s.probes[j];
    var end := n + 1;
    forall i ensures StretchFrom(more, x, i, end) <==>
                     pr.missing && (StretchFrom(s.probes, x, i, n) || (i == n && forall j :: !StretchFrom(s.probes, x, j, n)))
    {
      StretchMore(s.probes, pr, x, i);
    }
    forall i | StretchFrom(s.probes, x, i, n) ensures 0 <= i < n {
      StretchWithin(s.probes, x, i, n);
    }
    if pr.missing && x in s.firstMissing {
      var i :| StretchFrom(s.probes, x, i, n);
      assert StretchFrom(more, x, i, end) && more[i].at == s.firstMissing[x];
    }
  }

  ghost predicate Told(s: State, grace: int) {
    TimersTold(s) && ReportsTold(s, grace)
  }

  lemma TimerMore(s: State, t: State, pr: Probe, x: string)
    requires TimerTold(s, x) && t.probes == s.probes + [pr]
    requires x in t.firstMissing <==> if pr.session == x then pr.missing else x in s.firstMissing
    requires x in t.firstMissing ==> t.firstMissing[x] == if x in s.firstMissing then s.firstMissing[x] else pr.at
    ensures TimerTold(t, x)
  {
    hide StretchFrom;
    var n, end := |s.probes|, |s.probes| + 1;
    assert |t.probes| == end && t.probes[n] == pr && forall j :: 0 <= j < n ==> t.probes[j] == s.probes[j];
    forall i ensures StretchFrom(t.probes, x, i, end) <==>
                     if pr.session != x then StretchFrom(s.probes, x, i, n)
                     else pr.missing && (StretchFrom(s.probes, x, i, n) || (i == n && forall j :: !StretchFrom(s.probes, x, j, n)))
    {
      StretchMore(s.probes, pr, x, i);
    }
    forall i | StretchFrom(s.probes, x, i, n) ensures 0 <= i < n {
      StretchWithin(s.probes, x, i, n);
    }
    if x in t.firstMissing {
      if x in s.firstMissing {
        var i :| StretchFrom(s.probes, x, i, n);
        assert StretchFrom(t.probes, x, i, end);
      } else {
        assert StretchFrom(t.probes, x, n, end);
      }
    }
  }

  lemma WatchKeepsTimersTold(s: State, sight: Sight, p: Paused, grace: int)
    requires grace > 0 && TimersTold(s)
    ensures TimersTold(Watch(s, sight, p, grace))
  {
    hide TimerTold, Missing, Probed;
    var t := Watch(s, sight, p, grace);
    if t != s {
      var pr := Probe(p.session, p.question, sight.now, Missing(sight, p));
      forall x | x !in t.orphanFired ensures TimerTold(t, x) {
        TimerMore(s, t, pr, x);
      }
    }
  }

  lemma WatchKeepsReportsTold(s: State, sight: Sight, p: Paused, grace: int)
    requires grace > 0 && Told(s, grace) && OrphansOnce(s)
    ensures ReportsTold(Watch(s, sight, p, grace), grace)
  {
    hide Overdue, Missing, Probed, TimerTold;
    var t := Watch(s, sight, p, grace);
    if t != s {
      var pr, n := Probe(p.session, p.question, sight.now, Missing(sight, p)), |s.probes|;
      forall x, m ensures Overdue(t.probes, x, m, grace) <==>
                          Overdue(s.probes, x, m, grace) || (m == n && Overdue(t.probes, x, n, grace))
      {
        OverdueOneMore(s.probes, pr, x, m, grace);
      }
      forall x ensures Overdue(t.probes, x, n, grace) ==> x == p.session {
        OverdueLooks(t.probes, x, n, grace);
      }
      if p.session !in s.orphanFired {
        assert TimerTold(s, p.session);
        OverdueShows(s, pr, grace);
      }
      forall k | 0 <= k < |t.orphaned| ensures ReportTold(t.probes, t.orphaned[k], grace) {
        if k < |s.orphaned| {
          assert ReportTold(s.probes, s.orphaned[k], grace);
          OverdueWithin(s.probes, s.orphaned[k].who.session, s.orphaned[k].probed - 1, grace);
        } else {
          forall m ensures !Overdue(s.probes, p.session, m, grace) {
          }
        }
      }
    }
  }

  lemma OverdueOneMore(probes: seq<Probe>, pr: Probe, x: string, m: int, grace: int)
    ensures Overdue(probes + [pr], x, m, grace) <==>
            Overdue(probes, x, m, grace) || (m == |probes| && Overdue(probes + [pr], x, |probes|, grace))
  {
    if m < |probes| {
      OverdueStays(probes, pr, x, m, grace);
    }
  }

  lemma OverdueLooks(probes: seq<Probe>, x: string, n: int, grace: int)
    ensures Overdue(probes, x, n, grace) ==> 0 <= n < |probes| && probes[n].session == x
  {
  }

  lemma OverdueWithin(probes: seq<Probe>, x: string, n: int, grace: int)
    requires Overdue(probes, x, n, grace)
    ensures 0 <= n < |probes|
  {
  }

  lemma {:induction false} WatchAllTold(s: State, sight: Sight, ps: seq<Paused>, grace: int)
    requires grace > 0 && Told(s, grace) && Good(s, grace)
    ensures Told(WatchAll(s, sight, ps, grace), grace)
  {
    hide TimersTold, ReportsTold, Watch, Good;
    if ps != [] {
      WatchAllTold(s, sight, ps[..|ps| - 1], grace);
      WatchAllGood(s, sight, ps[..|ps| - 1], grace);
      var t := WatchAll(s, sight, ps[..|ps| - 1], grace);
      GoodParts(t, grace);
      WatchKeepsTimersTold(t, sight, ps[|ps| - 1], grace);
      WatchKeepsReportsTold(t, sight, ps[|ps| - 1], grace);
    }
  }

  lemma {:induction false} RunIsTold(sights: seq<Sight>, grace: int)
    requires grace > 0
    ensures Told(Run(sights, grace), grace)
  {
    hide Ticked, WatchAll, Told, Good, Delivered;
    if sights == [] {
      NothingToTell(grace);
    } else {
      var init, last := sights[..|sights| - 1], sights[|sights| - 1];
      RunIsTold(init, grace);
      RunIsGood(init, grace);
      GoodParts(Run(init, grace), grace);
      TickParts(Run(init, grace), last, grace);
      var d := Delivered(Run(init, grace), last);
      DeliveryTellsNothing(Run(init, grace), d, grace);
      WatchAllTold(d, last, last.paused, grace);
    }
  }

  lemma NothingToTell(grace: int)
    ensures Told(State({}, map[], {}, [], [], []), grace)
  {
  }

  lemma DeliveryTellsNothing(s: State, d: State, grace: int)
    requires Told(s, grace) && Good(s, grace) && AnswersOnce(d) && d == s.(fired := d.fired, answered := d.answered)
    ensures Told(d, grace) && Good(d, grace)
  {
    hide StretchFrom, Overdue, ExplainsTimer, ExplainsOrphan, AnswersOnce, ReportTold;
    assert forall x :: TimerTold(s, x) ==> TimerTold(d, x);
  }

  // Over every sequence of ticks: a session is reported if and only if some look at it found its
  // question file missing a grace period or more after the first look of the unbroken missing stretch
  // ending there; the report is made at the first such look, and names its question.
  lemma OrphanReportedIff(sights: seq<Sight>, grace: int)
    ensures var s := Run(sights, grace);
            && (forall x :: x in Sessions(s.orphaned) <==> grace > 0 && exists n :: Overdue(s.probes, x, n, grace))
            && forall k :: 0 <= k < |s.orphaned| ==>
                 var o := s.orphaned[k];
                 && FirstOverdue(s.probes, o.who.session, o.probed - 1, grace)
                 && s.probes[o.probed - 1] == Probe(o.who.session, o.who.question, o.at, true)
  {
    hide Run, Overdue, Good, Looks;
    var s := Run(sights, grace);
    RunIsGood(sights, grace);
    GoodParts(s, grace);
    if grace > 0 {
      RunIsTold(sights, grace);
      assert forall k :: 0 <= k < |s.orphaned| ==> ReportTold(s.probes, s.orphaned[k], grace);
    } else {
      LooksAreTaken(sights, grace);
      NoReports(s, grace);
    }
  }

  lemma NoReports(s: State, grace: int)
    requires Good(s, grace) && s.probes == []
    ensures s.orphaned == []
  {
    assert s.orphaned != [] ==> ExplainsOrphan(s.probes, s.orphaned[0], grace);
  }

  // ---- an answer is delivered ----

  predicate Within(s: string, part: string) {
    exists i :: 0 <= i <= |s| && PartAt(s, part, i)
  }

  predicate PartAt(s: string, part: string, i: nat) {
    i + |part| <= |s| && s[i..i + |part|] == part
  }

  // The file that answers a question: "<id>.json", not a directory, no plan revision.
  predicate Answers(f: File, question: string) {
    !f.isDir && f.name == question + ".json" && !Within(question, "-rev")
  }

  lemma AnsweredByIff(f: File, question: string)
    ensures AnsweredBy(f) == Some(question) <==> Answers(f, question)
  {
    hide Contains, HasAt;
    assert Contains(question, "-rev") <==> Within(question, "-rev") by {
      SameWithin(question, "-rev");
    }
    if f.name == question + ".json" {
      assert f.name[..|f.name| - 5] == question && f.name[|f.name| - 5..] == ".json";
    }
    if EndsWith(f.name, ".json") {
      assert f.name == f.name[..|f.name| - 5] + ".json";
    }
  }

  lemma SameWithin(s: string, part: string)
    ensures Contains(s, part) <==> Within(s, part)
  {
    assert forall i: nat :: HasAt(s, part, i) <==> PartAt(s, part, i);
  }

  // p is the session listed last as paused on the question.
  ghost predicate PausedLast(paused: seq<Paused>, workspace: string, question: string, p: Paused) {
    exists k :: 0 <= k < |paused| && paused[k] == p && p.workspace == workspace && p.question == question
                && forall j :: k < j < |paused| ==> !(paused[j].workspace == workspace && paused[j].question == question)
  }

  lemma {:induction false} WaitingIff(paused: seq<Paused>, workspace: string, question: string, p: Paused)
    ensures Waiting(paused, workspace, question) == Some(p) <==> PausedLast(paused, workspace, question, p)
  {
    if paused != [] {
      var init, last := paused[..|paused| - 1], paused[|paused| - 1];
      WaitingIff(init, workspace, question, p);
      assert forall k :: 0 <= k < |init| ==> init[k] == paused[k];
      if PausedLast(init, workspace, question, p) && !(last.workspace == workspace && last.question == question) {
        var k :| 0 <= k < |init| && init[k] == p && p.workspace == workspace && p.question == question
                 && forall j :: k < j < |init| ==> !(init[j].workspace == workspace && init[j].question == question);
        assert paused[k] == p;
      }
      if PausedLast(paused, workspace, question, p) {
        var k :| 0 <= k < |paused| && paused[k] == p && p.workspace == workspace && p.question == question
                 && forall j :: k < j < |paused| ==> !(paused[j].workspace == workspace && paused[j].question == question);
        assert k == |init| || init[k] == p;
      }
      if last.workspace == workspace && last.question == question && last == p {
        assert paused[|init|] == p;
      }
    }
  }

  // A tick finds an answer for p: a file in an enabled workspace it can read, and p the session listed
  // last as paused on that question there.
  ghost predicate Finds(sight: Sight, p: Paused) {
    exists i :: 0 <= i < |sight.scanned| && FindsIn(sight, i, p)
  }

  ghost predicate FindsIn(sight: Sight, i: int, p: Paused)
    requires 0 <= i < |sight.scanned|
  {
    var ws := sight.scanned[i];
    && ws.enabled && ws.path != "" && ws.path in sight.answers
    && FoundAmong(ws, sight.answers[ws.path], sight.paused, p)
  }

  ghost predicate FoundAmong(ws: Workspace, files: seq<File>, paused: seq<Paused>, p: Paused) {
    exists k :: 0 <= k < |files| && FileFinds(ws, files[k], paused, p)
  }

  ghost predicate FileFinds(ws: Workspace, f: File, paused: seq<Paused>, p: Paused) {
    Answers(f, p.question) && PausedLast(paused, ws.id, p.question, p)
  }

  lemma FileMatchIs(ws: Workspace, f: File, paused: seq<Paused>, p: Paused)
    ensures FileFinds(ws, f, paused, p) <==> AnsweredBy(f).Some? && Waiting(paused, ws.id, AnsweredBy(f).value) == Some(p)
  {
    hide AnsweredBy, Waiting, Answers, PausedLast;
    AnsweredByIff(f, p.question);
    WaitingIff(paused, ws.id, p.question, p);
    if AnsweredBy(f).Some? {
      WaitingIff(paused, ws.id, AnsweredBy(f).value, p);
      WaitsOn(paused, ws.id, AnsweredBy(f).value, p);
    }
  }

  lemma WaitsOn(paused: seq<Paused>, workspace: string, question: string, p: Paused)
    ensures PausedLast(paused, workspace, question, p) ==> p.question == question
  {
  }

  lemma {:induction false} FileMatchesAre(ws: Workspace, files: seq<File>, paused: seq<Paused>, p: Paused)
    ensures p in FileMatches(ws, files, paused) <==> FoundAmong(ws, files, paused, p)
  {
    hide AnsweredBy, Waiting, FileFinds;
    if files != [] {
      var init, last := files[..|files| - 1], files[|files| - 1];
      FileMatchesAre(ws, init, paused, p);
      FileMatchIs(ws, last, paused, p);
      assert forall k :: 0 <= k < |init| ==> init[k] == files[k];
    }
  }

  lemma {:induction false} MatchesAre(sight: Sight, n: nat, p: Paused)
    requires n <= |sight.scanned|
    ensures p in Matches(sight, n) <==> exists i :: 0 <= i < n && FindsIn(sight, i, p)
  {
    hide FileMatches, FoundAmong;
    if n > 0 {
      MatchesAre(sight, n - 1, p);
      var ws := sight.scanned[n - 1];
      if ws.path in sight.answers {
        FileMatchesAre(ws, sight.answers[ws.path], sight.paused, p);
      }
      assert (exists i :: 0 <= i < n && FindsIn(sight, i, p)) <==>
             (exists i :: 0 <= i < n - 1 && FindsIn(sight, i, p)) || FindsIn(sight, n - 1, p);
    }
  }

  lemma DeliveredWhat(s: State, sight: Sight)
    requires AnswersOnce(s)
    ensures var d := Delivered(s, sight);
            && AnswersOnce(d)
            && (forall x :: x in Pairs(d.answered) <==> x in Pairs(s.answered) || exists p :: Finds(sight, p) && PairOf(p) == x)
            && forall i :: |s.answered| <= i < |d.answered| ==> Finds(sight, d.answered[i])
  {
    hide Matches, DeliverAll, FindsIn;
    var ps, d := Matches(sight, |sight.scanned|), Delivered(s, sight);
    forall p ensures p in ps <==> Finds(sight, p) {
      MatchesAre(sight, |sight.scanned|, p);
    }
    if sight.paused == [] {
      forall p ensures !Finds(sight, p) {
        NobodyFound(sight, p);
      }
    } else {
      DeliverAllOnce(s, ps);
      DeliveredPairs(s, d, ps);
    }
  }

  lemma NobodyFound(sight: Sight, p: Paused)
    requires sight.paused == []
    ensures !Finds(sight, p)
  {
  }

  lemma DeliveredPairs(s: State, d: State, ps: seq<Paused>)
    requires AnswersOnce(s) && AnswersOnce(d) && s.answered <= d.answered
    requires forall p :: p in ps ==> PairOf(p) in d.fired
    requires forall i :: |s.answered| <= i < |d.answered| ==> d.answered[i] in ps
    ensures forall x :: x in Pairs(d.answered) <==> x in Pairs(s.answered) || exists p :: p in ps && PairOf(p) == x
  {
    forall x ensures x in Pairs(d.answered) <==> x in Pairs(s.answered) || exists p :: p in ps && PairOf(p) == x {
      if x in Pairs(d.answered) {
        var i :| 0 <= i < |d.answered| && Pairs(d.answered)[i] == x;
        if i < |s.answered| {
          assert Pairs(s.answered)[i] == x;
        }
      }
      if x in Pairs(s.answered) {
        var i :| 0 <= i < |s.answered| && Pairs(s.answered)[i] == x;
        assert Pairs(d.answered)[i] == x;
      }
    }
  }

  ghost predicate FoundSometime(sights: seq<Sight>, x: (string, string)) {
    exists i, p :: 0 <= i < |sights| && Finds(sights[i], p) && PairOf(p) == x
  }

  // Over every sequence of ticks, a session is answered on a question if and only if some tick finds an
  // answer file for that question while the session is the last one listed as paused on it.
  lemma {:induction false} AnsweredIff(sights: seq<Sight>, grace: int)
    ensures forall x :: x in Pairs(Run(sights, grace).answered) <==> FoundSometime(sights, x)
  {
    hide Ticked, WatchAll, Good, Delivered, Finds, AnswersOnce;
    if sights != [] {
      var init, last := sights[..|sights| - 1], sights[|sights| - 1];
      AnsweredIff(init, grace);
      RunIsGood(init, grace);
      GoodParts(Run(init, grace), grace);
      TickParts(Run(init, grace), last, grace);
      DeliveredWhat(Run(init, grace), last);
      var d := Delivered(Run(init, grace), last);
      if grace > 0 {
        DeliveredGood(Run(init, grace), d, grace);
        WatchAllGood(d, last, last.paused, grace);
      }
      forall x ensures FoundSometime(sights, x) <==> FoundSometime(init, x) || exists p :: Finds(last, p) && PairOf(p) == x {
        FoundMore(init, last, x);
        assert sights == init + [last];
      }
    }
  }

  lemma DeliveredGood(s: State, d: State, grace: int)
    requires Good(s, grace) && AnswersOnce(d) && d == s.(fired := d.fired, answered := d.answered)
    ensures Good(d, grace)
  {
    hide ExplainsTimer, ExplainsOrphan, AnswersOnce;
  }

  lemma FoundMore(init: seq<Sight>, last: Sight, x: (string, string))
    ensures FoundSometime(init + [last], x) <==> FoundSometime(init, x) || exists p :: Finds(last, p) && PairOf(p) == x
  {
    hide Finds;
    var all := init + [last];
    assert all[|init|] == last && forall i :: 0 <= i < |init| ==> all[i] == init[i];
  }
}
