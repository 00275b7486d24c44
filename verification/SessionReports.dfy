// What the lines of a session amount to, told from the lines alone: the calls they make, in order,
// and the record they leave (matchPatterns and its handlers, internal/session/manager.go).
module SessionReports {
  import opened Options
  import opened TextLines
  import opened StreamJson
  import opened SessionMachine

  // ---- one line ----

  // The rest of the line after a sentinel it starts with.
  function Payload(line: string, pat: string): string {
    if SentinelAtLineStart(line, pat) then Trim(Stripped(line)[|pat|..]) else ""
  }

  predicate Upto500(s: string, cut: string) {
    |cut| <= 500 && cut <= s && (|s| <= 500 ==> cut == s) && (|s| > 500 ==> |cut| == 500)
  }

  // The line calls for e by what it says.
  predicate Says(line: string, e: Effect) {
    match e
    case PlanReady(path) =>
      SentinelAtLineStart(line, PLAN_WRITTEN) && path == Trim(PLAN_DIR + Stripped(line)[|PLAN_WRITTEN|..])
    case PrOpened(url) => SentinelAtLineStart(line, PR_OPENED) && url == Payload(line, PR_OPENED) && url != ""
    case FanoutReady(path) => SentinelAtLineStart(line, FANOUT_WRITTEN) && path == Payload(line, FANOUT_WRITTEN) && path != ""
    case NeedsPrRaised(reason) => SentinelAtLineStart(line, NEEDS_PR) && Upto500(Payload(line, NEEDS_PR), reason)
    case WorkerBlocked => SentinelAtLineStart(line, BLOCKED)
    case StateChanged(_, _) => false
  }

  // A tagged line says what its text says.
  lemma TagIsStripped(role: Role, text: string)
    ensures Stripped(Render(Tagged(role, text))) == text
    ensures forall other :: Prefix(other) == Prefix(role) ==> other == role
    ensures Prefix(Assistant) == "@asst " && Prefix(System) == "@sys  " && Prefix(Tool) == "@tool " && Prefix(Role.Result) == "@res  "
    ensures Prefix(Role.Error) == "@err  " && Prefix(Live) == "@live " && Prefix(Role.Done) == "@done "
  {
    assert |Prefix(role)| == 6 && Prefix(role)[0] == '@' && Prefix(role)[5] == ' ';
    assert Render(Tagged(role, text))[6..] == text;
    forall other: Role | Prefix(other) == Prefix(role) ensures other == role {
      assert Prefix(other)[1..3] == Prefix(role)[1..3];
    }
  }

  // At most one call, and it is the one the line says.
  ghost predicate ReportOf(line: string, report: seq<Effect>) {
    |report| <= 1 && forall e :: e in report <==> Says(line, e)
  }

  // Where PLAN_DIR stands in a line that starts with PLAN_WRITTEN.
  function DirPlace(line: string): int {
    |line| - |Stripped(line)| + 16
  }

  lemma DirStands(line: string, i: nat)
    requires SentinelAtLineStart(line, PLAN_WRITTEN) && i <= DirPlace(line)
    ensures i <= |line| && (HasPrefix(line[i..], PLAN_DIR) <==> i == DirPlace(line))
    ensures i < DirPlace(line) ==> line[i..] != ""
  {
    var s, k := Stripped(line), DirPlace(line) - 16;
    assert PLAN_WRITTEN[16..] == PLAN_DIR;
    DirIsPlain();
    if i == k + 16 {
      RestOf(s, PLAN_WRITTEN, 16);
      assert line[i..] == s[16..];
    } else if i >= k {
      assert line[i..][0] == s[..|PLAN_WRITTEN|][i - k];
      NoDotBefore(i - k);
    } else {
      assert line[i..][5 - i] != PLAN_DIR[5 - i];
    }
  }

  lemma {:induction false} PlanDirFrom(line: string, i: nat)
    requires SentinelAtLineStart(line, PLAN_WRITTEN) && i <= DirPlace(line) && i <= |line|
    ensures IndexOf(line[i..], PLAN_DIR) == DirPlace(line) - i
    decreases DirPlace(line) - i
  {
    hide HasPrefix, SentinelAtLineStart, DirPlace;
    DirStands(line, i);
    if i < DirPlace(line) {
      PlanDirFrom(line, i + 1);
      assert line[i..][1..] == line[i + 1..];
    }
  }

  lemma DirIsPlain()
    ensures PLAN_DIR[0] == '.' && forall k :: 0 <= k < 6 ==> PLAN_DIR[k] != ' '
  {
  }

  lemma NoDotBefore(k: nat)
    requires k < 16
    ensures PLAN_WRITTEN[k] != '.'
  {
    assert PLAN_WRITTEN[..16] == "Plan written to ";
    assert PLAN_WRITTEN[..16][k] != '.';
  }

  lemma RestOf(s: string, pat: string, k: nat)
    requires HasPrefix(s, pat) && k <= |pat|
    ensures s[k..] == pat[k..] + s[|pat|..]
  {
    assert s == s[..|pat|] + s[|pat|..];
  }

  lemma PlanPath(line: string)
    requires SentinelAtLineStart(line, PLAN_WRITTEN)
    ensures line[IndexOf(line, PLAN_DIR)..] == PLAN_DIR + Stripped(line)[|PLAN_WRITTEN|..]
  {
    hide IndexOf;
    PlanDirFrom(line, 0);
    assert line[0..] == line && PLAN_WRITTEN[16..] == PLAN_DIR;
    var s := Stripped(line);
    hide HasPrefix;
    RestOf(s, PLAN_WRITTEN, 16);
    assert line[IndexOf(line, PLAN_DIR)..] == s[16..];
  }

  lemma CutIs(s: string)
    ensures forall cut :: Upto500(s, cut) <==> cut == Cut(s)
  {
    forall cut | Upto500(s, cut) ensures cut == Cut(s) {
      assert cut == s[..|cut|] && s[..|s|] == s;
    }
  }

  // What one line makes the manager do: the call it asks for, then the change of state.
  lemma LineSpeaks(r: Record, line: string, quota: QuotaReader) returns (report: seq<Effect>)
    ensures ReportOf(line, report)
    ensures var after := Match(r, line, quota).state;
            Signals(r, line, quota) == report + (if after != r.state then [StateChanged(r.state, after)] else [])
  {
    hide Trim, IndexOf, After, Match, Cut, Upto500;
    StartsApart(Stripped(line));
    report := [];
    if SentinelAtLineStart(line, PLAN_WRITTEN) {
      PlanPath(line);
      report := [PlanReady(Trim(PLAN_DIR + Stripped(line)[|PLAN_WRITTEN|..]))];
    } else if SentinelAtLineStart(line, PR_OPENED) {
      PayloadFollowsSentinel(line, PR_OPENED);
      report := if Payload(line, PR_OPENED) != "" then [PrOpened(Payload(line, PR_OPENED))] else [];
    } else if SentinelAtLineStart(line, FANOUT_WRITTEN) {
      PayloadFollowsSentinel(line, FANOUT_WRITTEN);
      report := if Payload(line, FANOUT_WRITTEN) != "" then [FanoutReady(Payload(line, FANOUT_WRITTEN))] else [];
    } else if SentinelAtLineStart(line, NEEDS_PR) {
      PayloadFollowsSentinel(line, NEEDS_PR);
      CutIs(Payload(line, NEEDS_PR));
      report := [NeedsPrRaised(Cut(Payload(line, NEEDS_PR)))];
    } else if SentinelAtLineStart(line, BLOCKED) {
      report := [WorkerBlocked];
    }
  }

  // ---- the calls of a whole session ----

  // The effects are what the lines call for, line by line, each call before the change of state.
  ghost predicate Voiced(r: Record, lines: seq<Line>, quota: QuotaReader, effects: seq<Effect>)
    decreases |lines|
  {
    if lines == [] then effects == []
    else
      var init := lines[..|lines| - 1];
      exists before, report ::
        && Voiced(r, init, quota, before) && ReportOf(Render(lines[|lines| - 1]), report)
        && effects == before + report + Change(MatchAll(r, init, quota).state, MatchAll(r, lines, quota).state)
  }

  function Change(from: State, to: State): seq<Effect> {
    if from == to then [] else [StateChanged(from, to)]
  }

  // The calls among the effects.
  function Reports(effects: seq<Effect>): seq<Effect> {
    if effects == [] then []
    else
      var last := effects[|effects| - 1];
      Reports(effects[..|effects| - 1]) + (if last.StateChanged? then [] else [last])
  }

  // In order, exactly one call for each line that asks for one.
  ghost predicate OnePerLine(lines: seq<Line>, reports: seq<Effect>)
    decreases |lines|
  {
    if lines == [] then reports == []
    else
      exists before, report ::
        && OnePerLine(lines[..|lines| - 1], before) && ReportOf(Render(lines[|lines| - 1]), report)
        && reports == before + report
  }

  lemma {:induction false} ReportsAppend(a: seq<Effect>, b: seq<Effect>)
    ensures Reports(a + b) == Reports(a) + Reports(b)
    decreases |b|
  {
    if b == [] {
      assert a + b == a && Reports(a) + [] == Reports(a);
    } else {
      ReportsAppend(a, b[..|b| - 1]);
      assert (a + b)[..|a + b| - 1] == a + b[..|b| - 1];
    }
  }

  lemma ReportsOfLine(line: string, report: seq<Effect>, from: State, to: State)
    requires ReportOf(line, report)
    ensures Reports(report + Change(from, to)) == report && Reports(Change(from, to)) == []
  {
    hide Says;
    ReportsAppend(report, Change(from, to));
    var change := Change(from, to);
    assert change != [] ==> change[..0] == [];
    if report != [] {
      assert report[0] in report && report[..0] == [];
      NoChangeSaid(line, report[0]);
    }
  }

  lemma NoChangeSaid(line: string, e: Effect)
    requires Says(line, e)
    ensures !e.StateChanged?
  {
  }

  lemma VoicedMore(r: Record, init: seq<Line>, last: Line, quota: QuotaReader, before: seq<Effect>, report: seq<Effect>)
    requires Voiced(r, init, quota, before) && ReportOf(Render(last), report)
    ensures var was, now := MatchAll(r, init, quota).state, MatchAll(r, init + [last], quota).state;
            Voiced(r, init + [last], quota, before + report + Change(was, now))
  {
    hide MatchAll, ReportOf, Render, Change;
    var lines := init + [last];
    assert lines[..|lines| - 1] == init && lines[|lines| - 1] == last;
  }

  lemma OnePerLineMore(init: seq<Line>, last: Line, before: seq<Effect>, report: seq<Effect>)
    requires OnePerLine(init, before) && ReportOf(Render(last), report)
    ensures OnePerLine(init + [last], before + report)
  {
    hide ReportOf, Render;
    var lines := init + [last];
    assert lines[..|lines| - 1] == init && lines[|lines| - 1] == last;
  }

  lemma NothingSaid(r: Record, quota: QuotaReader)
    ensures Voiced(r, [], quota, []) && OnePerLine([], []) && Reports([]) == [] && SignalsAll(r, [], quota) == []
  {
  }

  // Everything a session's lines make the manager publish or call back is, in order, each line's own
  // call and then its change of state; the calls are exactly one per line that asks for one.
  lemma {:induction false} SignalsAreTold(r: Record, lines: seq<Line>, quota: QuotaReader)
    ensures Voiced(r, lines, quota, SignalsAll(r, lines, quota))
    ensures OnePerLine(lines, Reports(SignalsAll(r, lines, quota)))
    decreases |lines|
  {
    hide Match, MatchAll, Signals, SignalsAll, ReportOf, Voiced, OnePerLine, Reports, Render;
    if lines == [] {
      NothingSaid(r, quota);
    } else {
      var init, last := lines[..|lines| - 1], lines[|lines| - 1];
      assert lines == init + [last];
      SignalsAreTold(r, init, quota);
      LineAppends(r, init, last, quota);
      var was, to := MatchAll(r, init, quota), MatchAll(r, lines, quota).state;
      var report := LineSpeaks(was, Render(last), quota);
      var before, change := SignalsAll(r, init, quota), Change(was.state, to);
      assert before + (report + change) == before + report + change;
      VoicedMore(r, init, last, quota, before, report);
      ReportsAppend(before, report + change);
      ReportsOfLine(Render(last), report, was.state, to);
      OnePerLineMore(init, last, Reports(before), report);
    }
  }

  // One list of calls fits the lines.
  lemma {:induction false} CallsAreDetermined(lines: seq<Line>, a: seq<Effect>, b: seq<Effect>)
    requires OnePerLine(lines, a) && OnePerLine(lines, b)
    ensures a == b
    decreases |lines|
  {
    if lines != [] {
      var init, line := lines[..|lines| - 1], Render(lines[|lines| - 1]);
      var before, report :| OnePerLine(init, before) && ReportOf(line, report) && a == before + report;
      var before', report' :| OnePerLine(init, before') && ReportOf(line, report') && b == before' + report';
      CallsAreDetermined(init, before, before');
      OneReport(line, report, report');
    }
  }

  lemma OneReport(line: string, a: seq<Effect>, b: seq<Effect>)
    requires ReportOf(line, a) && ReportOf(line, b)
    ensures a == b
  {
    hide Says;
    if a != [] {
      assert a[0] in a && a[0] in b;
    }
    if b != [] {
      assert b[0] in b && b[0] in a;
    }
  }

  // The lines whose calls are made: a panic due in a line comes before or after its call.
  function ToldLines(lines: seq<Line>, panic: Option<PanicPoint>): seq<Line> {
    match panic
    case Some(InFeed(k)) => if k < |lines| then lines[..k] else lines
    case Some(InLine(k, raised)) => if k < |lines| then lines[..if raised > 0 then k + 1 else k] else lines
    case _ => lines
  }

  // So over a whole goroutine, however it ends: the calls made are exactly one per line that asks for
  // one, up to the panic.
  lemma CallsAreTold(r: Record, lines: seq<Line>, u: Setup, exit: Exit, panic: Option<PanicPoint>)
    ensures OnePerLine(ToldLines(lines, panic), Reports(EndEffects(r, lines, u, exit, panic)))
  {
    hide MatchAll, SignalsAll, OnePerLine, Reached, Heard, Finalize, KilledIn;
    var strike := StrikeOf(panic);
    var heard := Heard(r, lines, u.quota, strike);
    var read := MatchAll(r, Reached(lines, strike), u.quota);
    var last := ExitEffects(read, Ended(r, lines, u, exit, panic), lines, panic);
    ReportsAppend(heard, last);
    assert last != [] ==> last[..0] == [];
    assert Reports(last) == [] && Reports(heard) + [] == Reports(heard);
    HeardIsTold(r, lines, u.quota, panic);
  }

  lemma HeardIsTold(r: Record, lines: seq<Line>, quota: QuotaReader, panic: Option<PanicPoint>)
    ensures OnePerLine(ToldLines(lines, panic), Reports(Heard(r, lines, quota, StrikeOf(panic))))
  {
    hide MatchAll, SignalsAll, OnePerLine, Signals, Render, Heard, HeardOfLine, Reports, Take;
    var strike := StrikeOf(panic);
    if !Hits(strike, |lines|) {
      AllReached(r, lines, quota, strike);
      SignalsAreTold(r, lines, quota);
    } else {
      var k := strike.value.line;
      SignalsAreTold(r, lines[..k], quota);
      if strike.value.raised.None? {
        StruckBefore(r, lines, quota, strike);
      } else {
        StruckIn(r, lines, quota, strike);
        var was, raised := MatchAll(r, lines[..k], quota), strike.value.raised.value;
        PartlyTold(was, Render(lines[k]), quota, SignalsAll(r, lines[..k], quota), lines[..k], lines[k], raised);
        assert lines[..k + 1] == lines[..k] + [lines[k]];
      }
    }
  }

  lemma PartlyTold(r: Record, line: string, quota: QuotaReader, told: seq<Effect>, before: seq<Line>, last: Line, raised: nat)
    requires OnePerLine(before, Reports(told)) && line == Render(last)
    ensures OnePerLine(if raised > 0 then before + [last] else before, Reports(told + Take(Signals(r, line, quota), raised)))
  {
    hide Match, Signals, ReportOf, Render;
    var report := LineSpeaks(r, line, quota);
    var to := Match(r, line, quota).state;
    var all, change := Signals(r, line, quota), Change(r.state, to);
    ReportsOfLine(line, report, r.state, to);
    assert (before + [last])[..|before|] == before;
    var some := Take(all, raised);
    ReportsAppend(told, some);
    if raised == 0 {
      assert some == [] && Reports(told) + [] == Reports(told);
    } else {
      TakeReports(line, report, change, raised);
    }
  }

  lemma TakeReports(line: string, report: seq<Effect>, change: seq<Effect>, raised: nat)
    requires ReportOf(line, report) && |change| <= 1 && (change != [] ==> change[0].StateChanged?) && raised > 0
    ensures Reports(Take(report + change, raised)) == report
  {
    hide Says, Reports;
    ReportsOf(change);
    ReportsOf(report);
    if report == [] {
      assert report + change == change;
      assert change[..|change|] == change;
    } else {
      assert report[0] in report;
      NoChangeSaid(line, report[0]);
      ReportsAppend(report, change);
      var all := report + change;
      assert all[..1] == report && all[..|all|] == all && report + [] == report;
      assert Take(all, raised) == if raised == 1 then report else all;
    }
  }

  lemma ReportsOf(effects: seq<Effect>)
    requires |effects| <= 1
    ensures Reports(effects) == if effects == [] || effects[0].StateChanged? then [] else effects
  {
    assert effects != [] ==> effects[..0] == [];
  }

  // ---- the record a session's lines leave ----

  // A question is asked at place k, and none before.
  ghost predicate FirstAsk(lines: seq<Line>, k: int) {
    0 <= k < |lines| && Asks(Render(lines[k])) && forall j :: 0 <= j < k ==> !Asks(Render(lines[j]))
  }

  predicate Asks(line: string) {
    SentinelAtLineStart(line, QUESTION_PENDING) && Payload(line, QUESTION_PENDING) != ""
  }

  // What the line at place k makes the state.
  ghost predicate TellsState(lines: seq<Line>, k: int, s: State) {
    && 0 <= k < |lines|
    && match s
       case PausedForQuestion => FirstAsk(lines, k)
       case WaitingForInput => SentinelAtLineStart(Render(lines[k]), QUESTION)
       case Completed => SentinelAtLineStart(Render(lines[k]), COMPLETE)
       case NeedsPR => SentinelAtLineStart(Render(lines[k]), NEEDS_PR)
       case Blocked => SentinelAtLineStart(Render(lines[k]), BLOCKED)
       case _ => false
  }

  ghost predicate SilentFrom(lines: seq<Line>, k: int) {
    forall j, s :: k <= j ==> !TellsState(lines, j, s)
  }

  // The state is the one told last.
  ghost predicate StateTold(lines: seq<Line>, state: State) {
    if SilentFrom(lines, 0) then state == Running
    else exists k :: TellsState(lines, k, state) && SilentFrom(lines, k + 1)
  }

  // A BLOCKED reason: the payload, or for a quota error the payload with its reset time.
  ghost predicate BlockedBy(line: string, quota: QuotaReader, c: Cause) {
    && SentinelAtLineStart(line, BLOCKED)
    && exists cut ::
         && Upto500(Payload(line, BLOCKED), cut)
         && match quota(cut)
            case None => c == Cause("blocked", cut)
            case Some(resetAt) =>
              c == Cause("subscription_quota",
                         if resetAt == "" || Mentions(cut, "resets at") then cut else cut + "; resets at " + resetAt)
  }

  predicate Mentions(s: string, part: string) {
    exists i :: 0 <= i <= |s| && StandsAt(s, part, i)
  }

  predicate StandsAt(s: string, part: string, i: nat) {
    i + |part| <= |s| && s[i..i + |part|] == part
  }

  // The last line for which `says` holds.
  ghost predicate LastOf(lines: seq<Line>, k: int, says: string -> bool) {
    0 <= k < |lines| && says(Render(lines[k])) && forall j :: k < j < |lines| ==> !says(Render(lines[j]))
  }

  ghost predicate NoneOf(lines: seq<Line>, says: string -> bool) {
    forall j :: 0 <= j < |lines| ==> !says(Render(lines[j]))
  }

  predicate Prompts(line: string) {
    SentinelAtLineStart(line, QUESTION)
  }

  predicate Blocks(line: string) {
    SentinelAtLineStart(line, BLOCKED)
  }

  predicate GivesReason(line: string) {
    SentinelAtLineStart(line, BLOCKED) || SentinelAtLineStart(line, NEEDS_PR)
  }

  // Where the reason shown comes from.
  ghost predicate ReasonOf(line: string, quota: QuotaReader, reason: string) {
    if Blocks(line) then exists c :: BlockedBy(line, quota, c) && c.reason == reason
    else SentinelAtLineStart(line, NEEDS_PR) && Upto500(Payload(line, NEEDS_PR), reason)
  }

  ghost predicate RecordTold(lines: seq<Line>, quota: QuotaReader, t: Record) {
    && StateTold(lines, t.state)
    && QuestionTold(lines, t.pendingQuestionId)
    && PromptTold(lines, t.lastPrompt)
    && ReasonTold(lines, quota, t.blockedReason)
    && CauseTold(lines, quota, t.cause)
  }

  ghost predicate QuestionTold(lines: seq<Line>, id: string) {
    if NoneOf(lines, Asks) then id == ""
    else exists k :: FirstAsk(lines, k) && id == Payload(Render(lines[k]), QUESTION_PENDING)
  }

  ghost predicate PromptTold(lines: seq<Line>, prompt: string) {
    if NoneOf(lines, Prompts) then prompt == ""
    else exists k :: LastOf(lines, k, Prompts) && prompt == Render(lines[k])
  }

  ghost predicate ReasonTold(lines: seq<Line>, quota: QuotaReader, reason: string) {
    if NoneOf(lines, GivesReason) then reason == ""
    else exists k :: LastOf(lines, k, GivesReason) && ReasonOf(Render(lines[k]), quota, reason)
  }

  ghost predicate CauseTold(lines: seq<Line>, quota: QuotaReader, cause: Option<Cause>) {
    if NoneOf(lines, Blocks) then cause == None
    else exists k :: LastOf(lines, k, Blocks) && cause.Some? && BlockedBy(Render(lines[k]), quota, cause.value)
  }

  // ---- one more line ----

  lemma LastOfMore(init: seq<Line>, last: Line, says: string -> bool)
    ensures var all := init + [last];
            && (says(Render(last)) ==> LastOf(all, |init|, says) && !NoneOf(all, says))
            && (!says(Render(last)) ==> (NoneOf(all, says) <==> NoneOf(init, says)))
            && (!says(Render(last)) ==> forall k :: LastOf(init, k, says) ==> LastOf(all, k, says) && all[k] == init[k])
  {
    hide Render;
    var all := init + [last];
    assert all[|init|] == last && forall k :: 0 <= k < |init| ==> all[k] == init[k];
  }

  lemma FirstAskMore(init: seq<Line>, last: Line)
    ensures var all := init + [last];
            && (forall k :: k < |init| ==> (FirstAsk(all, k) <==> FirstAsk(init, k)))
            && (FirstAsk(all, |init|) <==> Asks(Render(last)) && NoneOf(init, Asks))
            && (NoneOf(all, Asks) <==> NoneOf(init, Asks) && !Asks(Render(last)))
  {
    hide Render, Asks;
    var all := init + [last];
    assert all[|init|] == last && forall k :: 0 <= k < |init| ==> all[k] == init[k];
  }

  lemma TellsMore(init: seq<Line>, last: Line, k: int, s: State)
    ensures var all := init + [last];
            && (k < |init| ==> (TellsState(all, k, s) <==> TellsState(init, k, s)))
            && (k > |init| ==> !TellsState(all, k, s))
  {
    hide Render, SentinelAtLineStart, FirstAsk;
    FirstAskMore(init, last);
    var all := init + [last];
    assert 0 <= k < |init| ==> all[k] == init[k];
  }

  lemma StateMore(init: seq<Line>, last: Line, was: State, s: State)
    requires StateTold(init, was)
    requires TellsState(init + [last], |init|, s) || (s == was && forall s' :: !TellsState(init + [last], |init|, s'))
    ensures StateTold(init + [last], s)
  {
    hide TellsState;
    var all := init + [last];
    forall k, s' ensures (k < |init| ==> (TellsState(all, k, s') <==> TellsState(init, k, s'))) && (k > |init| ==> !TellsState(all, k, s'))
    {
      TellsMore(init, last, k, s');
    }
    if TellsState(all, |init|, s) {
      assert SilentFrom(all, |init| + 1);
    } else if SilentFrom(init, 0) {
      NothingBehind(init);
      assert SilentFrom(all, 0);
    } else {
      var k :| TellsState(init, k, was) && SilentFrom(init, k + 1);
      TellsWithin(init, k, was);
      assert SilentFrom(all, k + 1);
      assert TellsState(all, k, was);
    }
  }

  lemma TellsWithin(lines: seq<Line>, k: int, s: State)
    requires TellsState(lines, k, s)
    ensures 0 <= k < |lines|
  {
  }

  lemma NothingBehind(lines: seq<Line>)
    requires SilentFrom(lines, 0)
    ensures forall k, s :: !TellsState(lines, k, s)
  {
  }

  // What one line does to the record.
  ghost predicate LineTold(r: Record, line: string, quota: QuotaReader, t: Record) {
    && t.state == (if Asks(line) && r.pendingQuestionId == "" then PausedForQuestion
                   else if Prompts(line) then WaitingForInput
                   else if SentinelAtLineStart(line, COMPLETE) then Completed
                   else if SentinelAtLineStart(line, NEEDS_PR) then NeedsPR
                   else if Blocks(line) then State.Blocked else r.state)
    && t.pendingQuestionId == (if Asks(line) && r.pendingQuestionId == "" then Payload(line, QUESTION_PENDING)
                               else r.pendingQuestionId)
    && t.lastPrompt == (if Prompts(line) then line else r.lastPrompt)
    && (if GivesReason(line) then ReasonOf(line, quota, t.blockedReason) else t.blockedReason == r.blockedReason)
    && (if Blocks(line) then t.cause.Some? && BlockedBy(line, quota, t.cause.value) else t.cause == r.cause)
  }

  // IndexOf finds the first place, and Contains whether there is one.
  lemma {:induction false} IndexIsFirst(s: string, pat: string)
    ensures Contains(s, pat) <==> Mentions(s, pat)
    ensures Contains(s, pat) ==> StandsAt(s, pat, IndexOf(s, pat))
    ensures forall i :: 0 <= i < IndexOf(s, pat) ==> !StandsAt(s, pat, i)
  {
    assert s[0..] == s;
    if HasPrefix(s, pat) {
      assert StandsAt(s, pat, 0);
    } else {
      assert !StandsAt(s, pat, 0) by {
        assert |pat| <= |s| ==> s[0..|pat|] == s[..|pat|];
      }
      if s == "" {
        assert forall i: nat :: StandsAt(s, pat, i) ==> i == 0;
      } else {
        IndexIsFirst(s[1..], pat);
        StandsInRest(s, pat);
        assert s[1..][IndexOf(s[1..], pat)..] == s[IndexOf(s, pat)..];
      }
    }
  }

  lemma StandsInRest(s: string, pat: string)
    requires s != ""
    ensures forall i: nat :: 0 < i ==> (StandsAt(s, pat, i) <==> StandsAt(s[1..], pat, i - 1))
    ensures forall i: nat :: StandsAt(s[1..], pat, i) ==> StandsAt(s, pat, i + 1)
  {
    var rest := s[1..];
    forall i: nat | 0 < i ensures StandsAt(s, pat, i) <==> StandsAt(rest, pat, i - 1) {
      if i + |pat| <= |s| {
        var a, b := s[i..i + |pat|], rest[i - 1..i - 1 + |pat|];
        assert forall k :: 0 <= k < |pat| ==> a[k] == b[k];
        assert a == b;
      }
    }
    forall i: nat | StandsAt(rest, pat, i) ensures StandsAt(s, pat, i + 1) {
      assert s[i + 1..i + 1 + |pat|] == rest[i..i + |pat|];
    }
  }

  lemma BlockedCauseIs(line: string, quota: QuotaReader)
    requires SentinelAtLineStart(line, BLOCKED)
    ensures BlockedBy(line, quota, BlockedCause(line, quota))
  {
    hide Trim, Upto500, Mentions, Contains;
    PayloadFollowsSentinel(line, BLOCKED);
    var cut := Cut(Payload(line, BLOCKED));
    CutIs(Payload(line, BLOCKED));
    IndexIsFirst(cut, "resets at");
  }

  lemma LineTells(r: Record, line: string, quota: QuotaReader)
    ensures LineTold(r, line, quota, Match(r, line, quota))
  {
    hide Trim, Upto500, After, BlockedCause, BlockedBy;
    StartsApart(Stripped(line));
    if SentinelAtLineStart(line, QUESTION_PENDING) {
      PayloadFollowsSentinel(line, QUESTION_PENDING);
    }
    if SentinelAtLineStart(line, NEEDS_PR) {
      PayloadFollowsSentinel(line, NEEDS_PR);
      CutIs(Payload(line, NEEDS_PR));
    }
    if SentinelAtLineStart(line, BLOCKED) {
      BlockedCauseIs(line, quota);
    }
  }

  // After a session's lines: the state is the one told last, by a question, a completion, NEEDS_PR,
  // BLOCKED or the first pending question; the question is the first asked; prompt, reason and cause
  // are those of the last line that gives one.
  lemma {:induction false} RecordIsTold(lines: seq<Line>, quota: QuotaReader)
    ensures RecordTold(lines, quota, MatchAll(FRESH, lines, quota))
    ensures MatchAll(FRESH, lines, quota).pendingQuestionId == "" <==> NoneOf(lines, Asks)
  {
    hide Match, MatchAll, RecordTold, LineTold, Asks;
    if lines == [] {
      MatchNone(FRESH, Setup(quota, false, _ => false));
      NothingTold(quota);
    } else {
      var init, last := lines[..|lines| - 1], lines[|lines| - 1];
      assert lines == init + [last];
      RecordIsTold(init, quota);
      LineAppends(FRESH, init, last, quota);
      LineTells(MatchAll(FRESH, init, quota), Render(last), quota);
      RecordMore(init, last, quota, MatchAll(FRESH, init, quota), MatchAll(FRESH, lines, quota));
    }
  }

  lemma NothingTold(quota: QuotaReader)
    ensures RecordTold([], quota, FRESH)
  {
  }

  lemma RecordMore(init: seq<Line>, last: Line, quota: QuotaReader, was: Record, t: Record)
    requires RecordTold(init, quota, was) && LineTold(was, Render(last), quota, t)
    requires was.pendingQuestionId == "" <==> NoneOf(init, Asks)
    ensures RecordTold(init + [last], quota, t)
    ensures t.pendingQuestionId == "" <==> NoneOf(init + [last], Asks)
  {
    hide StateTold, QuestionTold, PromptTold, ReasonTold, CauseTold;
    StateOfMore(init, last, quota, was, t);
    QuestionOfMore(init, last, quota, was, t);
    LatestOfMore(init, last, quota, was, t);
  }

  lemma StateOfMore(init: seq<Line>, last: Line, quota: QuotaReader, was: Record, t: Record)
    requires StateTold(init, was.state) && LineTold(was, Render(last), quota, t)
    requires was.pendingQuestionId == "" <==> NoneOf(init, Asks)
    ensures StateTold(init + [last], t.state)
  {
    hide StateTold, BlockedBy, ReasonOf, NoneOf, Payload, FirstAsk;
    StartsApart(Stripped(Render(last)));
    FirstAskMore(init, last);
    assert (init + [last])[|init|] == last;
    StateMore(init, last, was.state, t.state);
  }

  lemma QuestionOfMore(init: seq<Line>, last: Line, quota: QuotaReader, was: Record, t: Record)
    requires QuestionTold(init, was.pendingQuestionId) && LineTold(was, Render(last), quota, t)
    requires was.pendingQuestionId == "" <==> NoneOf(init, Asks)
    ensures QuestionTold(init + [last], t.pendingQuestionId)
    ensures t.pendingQuestionId == "" <==> NoneOf(init + [last], Asks)
  {
    hide BlockedBy, ReasonOf, NoneOf, FirstAsk, Trim, Render, SentinelAtLineStart;
    FirstAskMore(init, last);
    var all := init + [last];
    assert all[|init|] == last;
    if NoneOf(init, Asks) {
      if Asks(Render(last)) {
        assert FirstAsk(all, |init|);
      }
    } else {
      forall k | FirstAsk(init, k) ensures 0 <= k < |init| {
        AskWithin(init, k);
      }
      var k :| FirstAsk(init, k) && was.pendingQuestionId == Payload(Render(init[k]), QUESTION_PENDING);
      assert FirstAsk(all, k) && all[k] == init[k];
    }
  }

  lemma AskWithin(lines: seq<Line>, k: int)
    requires FirstAsk(lines, k)
    ensures 0 <= k < |lines|
  {
  }

  lemma LatestOfMore(init: seq<Line>, last: Line, quota: QuotaReader, was: Record, t: Record)
    requires PromptTold(init, was.lastPrompt) && ReasonTold(init, quota, was.blockedReason) && CauseTold(init, quota, was.cause)
    requires LineTold(was, Render(last), quota, t)
    ensures PromptTold(init + [last], t.lastPrompt) && ReasonTold(init + [last], quota, t.blockedReason)
    ensures CauseTold(init + [last], quota, t.cause)
  {
    hide BlockedBy, ReasonOf, NoneOf, LastOf, Payload, Prompts, Blocks, GivesReason, Render, Asks, SentinelAtLineStart;
    LastOfMore(init, last, Prompts);
    LastOfMore(init, last, GivesReason);
    LastOfMore(init, last, Blocks);
    var all := init + [last];
    assert all[|init|] == last;
  }

  // ---- the failure a session ends with ----

  // Without a panic a failed session names its last BLOCKED line, or else how the worker exited.
  lemma FailureIsTold(lines: seq<Line>, u: Setup, exit: Exit)
    ensures var r := Ended(FRESH, lines, u, exit, None);
            r.state.Failed? ==>
              && r.cause.Some?
              && if !NoneOf(lines, Blocks) then CauseTold(lines, u.quota, r.cause)
                 else if exit.Clean? then r.cause == Some(Cause("exit_code", "worker exited with non-zero status"))
                 else r.cause == Some(Cause(if exit.signal == "" then "exit_code" else "signal", exit.text))
  {
    hide MatchAll, KilledIn, CauseTold, NoneOf, StateTold, QuestionTold, PromptTold, ReasonTold;
    RecordIsTold(lines, u.quota);
    CauseIsThere(lines, u.quota, MatchAll(FRESH, lines, u.quota).cause);
  }

  lemma CauseIsThere(lines: seq<Line>, quota: QuotaReader, cause: Option<Cause>)
    requires CauseTold(lines, quota, cause)
    ensures cause.Some? <==> !NoneOf(lines, Blocks)
  {
    if !NoneOf(lines, Blocks) {
      var k :| LastOf(lines, k, Blocks) && cause.Some? && BlockedBy(Render(lines[k]), quota, cause.value);
    }
  }

  // A worker found dead after a restart: completed, blocked, failed and paused sessions stay as they are,
  // any other fails and says so.
  lemma DeadIsTold(r: Record)
    ensures var t := ClassifyDead(r);
            if r.state.Running? || r.state.WaitingForInput? || r.state.NeedsPR?
            then t == Record(Failed, r.pendingQuestionId, r.lastPrompt, "worker exited without sentinel - see transcript", r.cause)
            else t == r
  {
  }

  // ---- the line that stops a session ----

  // "/pull/" and a digit.
  predicate PullAt(url: string, i: nat) {
    StandsAt(url, "/pull/", i) && i + 6 < |url| && '0' <= url[i + 6] <= '9'
  }

  // The digits from place i are those up to place j.
  predicate DigitsTo(url: string, i: nat, j: nat) {
    && i <= j <= |url|
    && (forall k :: i <= k < j ==> '0' <= url[k] <= '9')
    && (j < |url| ==> !('0' <= url[j] <= '9'))
  }

  ghost predicate FirstPull(url: string, i: nat, digits: string) {
    && PullAt(url, i) && (forall j: nat :: j < i ==> !PullAt(url, j))
    && DigitsTo(url, i + 6, i + 6 + |digits|) && digits == url[i + 6..i + 6 + |digits|]
  }

  lemma {:induction false} DigitRunIs(s: string)
    ensures |DigitRun(s)| <= |s| && DigitRun(s) == s[..|DigitRun(s)|] && DigitsTo(s, 0, |DigitRun(s)|)
  {
    if s != "" && IsDigit(s[0]) {
      var rest := s[1..];
      DigitRunIs(rest);
      var n := |DigitRun(rest)|;
      assert s[..n + 1] == [s[0]] + rest[..n];
      forall k | 0 <= k < n + 1 ensures '0' <= s[k] <= '9' {
        assert k > 0 ==> s[k] == rest[k - 1];
      }
      assert n + 1 < |s| ==> s[n + 1] == rest[n];
    }
  }

  lemma DigitsShift(url: string, i: nat, j: nat)
    requires i <= |url|
    ensures DigitsTo(url[i..], 0, j) <==> DigitsTo(url, i, i + j)
  {
    var s := url[i..];
    assert forall k :: 0 <= k < |s| ==> s[k] == url[i + k];
    if DigitsTo(s, 0, j) {
      forall k | i <= k < i + j ensures '0' <= url[k] <= '9' {
        assert s[k - i] == url[k];
      }
    }
  }

  lemma PullStartsIff(url: string)
    ensures PullAt(url, 0) <==> HasPrefix(url, "/pull/") && DigitRun(url[6..]) != ""
    ensures PullAt(url, 0) ==> FirstPull(url, 0, DigitRun(url[6..]))
  {
    assert |url| >= 6 ==> url[0..6] == url[..6];
    if HasPrefix(url, "/pull/") {
      DigitRunIs(url[6..]);
      var n := |DigitRun(url[6..])|;
      DigitsShift(url, 6, n);
      assert url[6..6 + n] == url[6..][..n];
      if PullAt(url, 0) {
        assert url[6..][0] == url[6];
      }
    }
  }

  lemma PullLater(url: string, i: nat, digits: string)
    requires url != "" && !PullAt(url, 0) && FirstPull(url[1..], i, digits)
    ensures FirstPull(url, i + 1, digits)
  {
    hide StandsAt;
    var rest := url[1..];
    PullInRest(url);
    var n := |digits|;
    DigitsShift(rest, i + 6, n);
    DigitsShift(url, i + 7, n);
    assert url[i + 7..] == rest[i + 6..];
    var a, b := url[i + 7..i + 7 + n], rest[i + 6..i + 6 + n];
    assert forall k :: 0 <= k < n ==> a[k] == b[k];
    assert a == b;
  }

  lemma {:induction false} PullDigitsIs(url: string)
    ensures PullDigits(url) == "" <==> forall i: nat :: !PullAt(url, i)
    ensures PullDigits(url) != "" ==> exists i: nat :: FirstPull(url, i, PullDigits(url))
  {
    hide DigitRun, PullAt, FirstPull;
    PullStartsIff(url);
    if url == "" {
      NoPullIn(url);
    } else {
      PullInRest(url);
      if PullAt(url, 0) {
        assert PullDigits(url) == DigitRun(url[6..]);
      } else {
        PullDigitsIs(url[1..]);
        if PullDigits(url[1..]) != "" {
          var i: nat :| FirstPull(url[1..], i, PullDigits(url[1..]));
          PullLater(url, i, PullDigits(url[1..]));
          PullStands(url, i + 1, PullDigits(url));
        }
        assert forall i: nat :: PullAt(url, i) ==> i > 0;
      }
    }
  }

  lemma NoPullIn(url: string)
    requires url == ""
    ensures forall i: nat :: !PullAt(url, i)
  {
  }

  lemma PullInRest(url: string)
    requires url != ""
    ensures forall i: nat :: i > 0 ==> (PullAt(url, i) <==> PullAt(url[1..], i - 1))
    ensures forall i: nat :: PullAt(url[1..], i) ==> PullAt(url, i + 1)
  {
    StandsInRest(url, "/pull/");
  }

  // Decimal notation.
  function TenTo(n: nat): int {
    if n == 0 then 1 else 10 * TenTo(n - 1)
  }

  lemma {:induction false} NumberIsDecimal(a: string, b: string)
    ensures NumberOf(a + b) == NumberOf(a) * TenTo(|b|) + NumberOf(b)
    ensures |b| == 1 ==> NumberOf(b) == b[0] as int - '0' as int
    decreases |b|
  {
    if b == "" {
      assert a + b == a;
    } else {
      var init := b[..|b| - 1];
      assert (a + b)[..|a + b| - 1] == a + init;
      NumberIsDecimal(a, init);
      assert |b| == 1 ==> init == "";
      Tenfold(NumberOf(a), TenTo(|init|), NumberOf(init));
    }
  }

  lemma Tenfold(a: int, t: int, i: int)
    ensures 10 * (a * t + i) == a * (10 * t) + 10 * i
  {
  }

  // A line stops a session if and only if it reports a pull request whose URL has a number of 63 bits
  // at its first numbered "/pull/" and is recorded, in an execute session that runs or waits.
  ghost predicate StoppedBy(r: Record, lines: seq<Line>, k: int, u: Setup) {
    && 0 <= k < |lines|
    && u.execute && MatchAll(r, lines[..k], u.quota).state in {Running, WaitingForInput}
    && var url := Payload(Render(lines[k]), PR_OPENED);
       && SentinelAtLineStart(Render(lines[k]), PR_OPENED) && u.marks(url)
       && exists i: nat, digits :: FirstPull(url, i, digits) && NumberOf(digits) < 0x8000_0000_0000_0000
  }

  lemma FirstPullUnique(url: string, i: nat, a: string, j: nat, b: string)
    requires FirstPull(url, i, a) && FirstPull(url, j, b)
    ensures i == j && a == b
  {
  }

  lemma PullNumberIff(url: string)
    ensures HasPullNumber(url) <==> exists i: nat, digits :: FirstPull(url, i, digits) && NumberOf(digits) < 0x8000_0000_0000_0000
  {
    hide FirstPull, NumberOf, PullDigits, PullAt;
    PullDigitsIs(url);
    if i: nat, digits :| FirstPull(url, i, digits) && NumberOf(digits) < 0x8000_0000_0000_0000 {
      assert PullAt(url, i) by {
        PullStands(url, i, digits);
      }
      var i': nat :| FirstPull(url, i', PullDigits(url));
      FirstPullUnique(url, i, digits, i', PullDigits(url));
    }
  }

  lemma PullStands(url: string, i: nat, digits: string)
    requires FirstPull(url, i, digits)
    ensures PullAt(url, i)
  {
  }

  lemma KillsIff(r: Record, lines: seq<Line>, line: Line, u: Setup)
    ensures Kills(MatchAll(r, lines, u.quota), Render(line), u) <==> StoppedBy(r, lines + [line], |lines|, u)
  {
    hide HasPullNumber, FirstPull, NumberOf, MatchAll, Trim, After, Render;
    var all := lines + [line];
    assert all[|lines|] == line && all[..|lines|] == lines;
    if SentinelAtLineStart(Render(line), PR_OPENED) {
      PayloadFollowsSentinel(Render(line), PR_OPENED);
      PullNumberIff(Payload(Render(line), PR_OPENED));
    }
  }

  // So a session's lines stop it if and only if one of them does.
  lemma {:induction false} StoppedIff(r: Record, lines: seq<Line>, u: Setup)
    ensures KilledIn(r, lines, u) <==> exists k :: StoppedBy(r, lines, k, u)
    decreases |lines|
  {
    hide Kills, KilledIn, MatchAll, StoppedBy;
    if lines == [] {
      MatchNone(r, u);
      NobodyStops(r, u);
    } else {
      var init, last := lines[..|lines| - 1], lines[|lines| - 1];
      assert lines == init + [last];
      StoppedIff(r, init, u);
      KilledByLast(r, init, last, u);
      KillsIff(r, init, last, u);
      forall k ensures StoppedBy(r, lines, k, u) <==> StoppedBy(r, init, k, u) || (k == |init| && StoppedBy(r, lines, k, u)) {
        StoppedWithin(r, init, last, k, u);
      }
    }
  }

  lemma NobodyStops(r: Record, u: Setup)
    ensures forall k :: !StoppedBy(r, [], k, u)
  {
  }

  lemma StoppedWithin(r: Record, init: seq<Line>, last: Line, k: int, u: Setup)
    ensures StoppedBy(r, init + [last], k, u) <==>
            StoppedBy(r, init, k, u) || (k == |init| && StoppedBy(r, init + [last], k, u))
  {
    hide FirstPull, NumberOf, MatchAll, Payload, Render;
    if 0 <= k < |init| {
      assert (init + [last])[..k] == init[..k] && (init + [last])[k] == init[k];
    }
  }

  // ---- how much is read ----

  // The read loop finds its context cancelled before the raw line at place i.
  ghost predicate EndsBefore(r: Record, pending: string, raws: seq<RawLine>, u: Setup, t: Reading, i: nat)
    requires i <= |raws|
  {
    t.cancelSeen == Some(i) || (i > 0 && KilledIn(r, FeedAll(pending, raws[..i]).lines, u))
  }

  // It reads up to the first such place, if it gets there before it finds the worker gone, and
  // everything otherwise.
  lemma {:induction false} ReadsUntilCancelled(r: Record, pending: string, raws: seq<RawLine>, u: Setup, t: Reading)
    ensures var n := RawsRead(r, pending, raws, u, t);
            && (forall i :: 0 <= i < n && i <= t.exitSeen ==> !EndsBefore(r, pending, raws, u, t, i))
            && (n < |raws| ==> n <= t.exitSeen && EndsBefore(r, pending, raws, u, t, n))
    decreases |raws|
  {
    hide FeedRaw, FeedAll, KilledIn, MatchAll, RawsRead;
    if raws == [] || t.cancelSeen == Some(0) {
      NothingMoreRead(r, pending, raws, u, t);
    } else {
      RawsReadStep(r, pending, raws, u, t);
      if t.exitSeen > 0 {
        var f := FeedRaw(pending, raws[0]);
        var mid := MatchAll(r, f.lines, u.quota);
        forall i: nat | 0 < i <= |raws|
          ensures KilledIn(r, FeedAll(pending, raws[..i]).lines, u) <==>
                  KilledIn(r, f.lines, u) || (i > 1 && KilledIn(mid, FeedAll(f.pending, raws[1..][..i - 1]).lines, u))
        {
          KilledAfterFirst(r, pending, raws, u, i);
        }
        if !KilledIn(r, f.lines, u) {
          ReadsUntilCancelled(mid, f.pending, raws[1..], u, Later(t));
          var n := RawsRead(mid, f.pending, raws[1..], u, Later(t));
          forall i: nat | 0 < i <= |raws|
            ensures EndsBefore(r, pending, raws, u, t, i) <==> EndsBefore(mid, f.pending, raws[1..], u, Later(t), i - 1)
          {
          }
        }
      }
    }
  }

  lemma KilledAfterFirst(r: Record, pending: string, raws: seq<RawLine>, u: Setup, i: nat)
    requires 0 < i <= |raws|
    ensures var f := FeedRaw(pending, raws[0]);
            KilledIn(r, FeedAll(pending, raws[..i]).lines, u) <==>
            KilledIn(r, f.lines, u)
            || (i > 1 && KilledIn(MatchAll(r, f.lines, u.quota), FeedAll(f.pending, raws[1..][..i - 1]).lines, u))
  {
    hide FeedRaw, FeedAll, KilledIn, MatchAll;
    var f := FeedRaw(pending, raws[0]);
    LinesOfFirst(pending, raws, i);
    KilledInAppend(r, f.lines, FeedAll(f.pending, raws[1..][..i - 1]).lines, u);
    if i == 1 {
      assert raws[1..][..0] == [];
      NothingFed(f.pending);
      MatchNone(MatchAll(r, f.lines, u.quota), u);
    }
  }

  lemma NothingFed(pending: string)
    ensures FeedAll(pending, []).lines == []
  {
  }
}
