// The sentinel-driven session state machine: matchPatterns, mapTerminalState, releaseSlot and
// tailAndParse (internal/session/manager.go), and the dead-worker classification that replaces
// them after a restart (internal/session/reattach.go).
module SessionMachine {
  import opened Options
  import opened TextLines
  import opened StreamJson
  import opened Harness

  datatype State = Running | WaitingForInput | Blocked | Completed | Failed | PausedForQuestion | NeedsPR

  datatype Cause = Cause(kind: string, reason: string)

  datatype Record = Record(
    state: State,
    pendingQuestionId: string,
    lastPrompt: string,
    blockedReason: string,
    cause: Option<Cause>)

  const FRESH := Record(Running, "", "", "", None)

  const QUESTION := "Question: "
  const PLAN_WRITTEN := "Plan written to .prismconductor/plans/"
  const COMPLETE := "Work complete."
  const BLOCKED := "BLOCKED:"
  const PR_OPENED := "PR_OPENED: "
  const QUESTION_PENDING := "QUESTION_PENDING: "
  const NEEDS_PR := "NEEDS_PR:"
  const FANOUT_WRITTEN := "FANOUT_WRITTEN: "
  const PLAN_DIR := ".prismconductor/plans/"

  // ---- string search ----

  predicate HasPrefix(s: string, pat: string) {
    |pat| <= |s| && s[..|pat|] == pat
  }

  // The line without its six-character role prefix.
  function Stripped(line: string): string {
    if |line| >= 6 && line[0] == '@' && line[5] == ' ' then line[6..] else line
  }

  predicate SentinelAtLineStart(line: string, pat: string) {
    HasPrefix(Stripped(line), pat)
  }

  // strings.Index, with |s| standing for "not found".
  function IndexOf(s: string, pat: string): (i: nat)
    ensures i <= |s|
  {
    if HasPrefix(s, pat) || s == "" then 0 else 1 + IndexOf(s[1..], pat)
  }

  function Contains(s: string, pat: string): bool {
    HasPrefix(s[IndexOf(s, pat)..], pat)
  }

  function After(line: string, pat: string): string {
    var i := IndexOf(line, pat);
    if i + |pat| <= |line| then line[i + |pat|..] else ""
  }

  // The sentinels after which the source looks for a payload.
  predicate PayloadSentinel(pat: string) {
    pat in {QUESTION_PENDING, PR_OPENED, FANOUT_WRITTEN, NEEDS_PR, BLOCKED}
  }

  lemma {:induction false} IndexAtSix(line: string, pat: string)
    requires |line| >= 6 && line[0] == '@' && line[5] == ' ' && HasPrefix(line[6..], pat)
    requires |pat| >= 6 && pat[0] != '@' && forall k :: 0 <= k < 6 ==> pat[k] != ' '
    ensures IndexOf(line, pat) == 6
  {
    IndexAtSixFrom(line, pat, 0);
    assert line[0..] == line;
  }

  lemma {:induction false} IndexAtSixFrom(line: string, pat: string, i: nat)
    requires |line| >= 6 && line[0] == '@' && line[5] == ' ' && HasPrefix(line[6..], pat)
    requires |pat| >= 6 && pat[0] != '@' && forall k :: 0 <= k < 6 ==> pat[k] != ' '
    requires i <= 6
    ensures IndexOf(line[i..], pat) == 6 - i
    decreases 6 - i
  {
    if i < 6 {
      var s := line[i..];
      assert s[5 - i] != pat[5 - i];
      IndexAtSixFrom(line, pat, i + 1);
      assert s[1..] == line[i + 1..];
    }
  }

  // The text the source picks up is the rest of the line after the sentinel.
  lemma PayloadFollowsSentinel(line: string, pat: string)
    requires PayloadSentinel(pat) && SentinelAtLineStart(line, pat)
    ensures After(line, pat) == Stripped(line)[|pat|..]
  {
    if Stripped(line) != line {
      IndexAtSix(line, pat);
    }
  }

  // ---- matchPatterns ----

  datatype Effect =
    | PlanReady(path: string)
    | PrOpened(url: string)
    | FanoutReady(path: string)
    | NeedsPrRaised(reason: string)
    | WorkerBlocked
    | StateChanged(from: State, to: State)

  // A codex pool's reading of a BLOCKED reason: None when it is no quota error, otherwise the
  // reset time ("" when it gives none). Other pools never read quota errors.
  type QuotaReader = string -> Option<string>

  function NoQuota(reason: string): Option<string> {
    None
  }

  function Cut(reason: string): string {
    if |reason| > 500 then reason[..500] else reason
  }

  function BlockedCause(line: string, quota: QuotaReader): Cause {
    var reason := Cut(Trim(After(line, BLOCKED)));
    match quota(reason)
    case None => Cause("blocked", reason)
    case Some(resetAt) =>
      Cause("subscription_quota",
            if resetAt != "" && !Contains(reason, "resets at") then reason + "; resets at " + resetAt else reason)
  }

  function Match(r: Record, line: string, quota: QuotaReader): Record {
    if SentinelAtLineStart(line, QUESTION_PENDING) then
      var qid := Trim(After(line, QUESTION_PENDING));
      if qid == "" || r.pendingQuestionId != "" then r
      else r.(state := PausedForQuestion, pendingQuestionId := qid)
    else if SentinelAtLineStart(line, QUESTION) then r.(state := WaitingForInput, lastPrompt := line)
    else if SentinelAtLineStart(line, PLAN_WRITTEN) then r
    else if SentinelAtLineStart(line, PR_OPENED) then r
    else if SentinelAtLineStart(line, FANOUT_WRITTEN) then r
    else if SentinelAtLineStart(line, COMPLETE) then r.(state := Completed)
    else if SentinelAtLineStart(line, NEEDS_PR) then
      r.(state := NeedsPR, blockedReason := Cut(Trim(After(line, NEEDS_PR))))
    else if SentinelAtLineStart(line, BLOCKED) then
      r.(state := Blocked, blockedReason := BlockedCause(line, quota).reason, cause := Some(BlockedCause(line, quota)))
    else r
  }

  // What one line makes the manager publish or call back.
  function Signals(r: Record, line: string, quota: QuotaReader): seq<Effect> {
    (if SentinelAtLineStart(line, QUESTION_PENDING) || SentinelAtLineStart(line, QUESTION) then []
     else if SentinelAtLineStart(line, PLAN_WRITTEN) then [PlanReady(Trim(line[IndexOf(line, PLAN_DIR)..]))]
     else if SentinelAtLineStart(line, PR_OPENED) then
       (if Trim(After(line, PR_OPENED)) != "" then [PrOpened(Trim(After(line, PR_OPENED)))] else [])
     else if SentinelAtLineStart(line, FANOUT_WRITTEN) then
       (if Trim(After(line, FANOUT_WRITTEN)) != "" then [FanoutReady(Trim(After(line, FANOUT_WRITTEN)))] else [])
     else if SentinelAtLineStart(line, COMPLETE) then []
     else if SentinelAtLineStart(line, NEEDS_PR) then [NeedsPrRaised(Cut(Trim(After(line, NEEDS_PR))))]
     else if SentinelAtLineStart(line, BLOCKED) then [WorkerBlocked]
     else [])
    + (if Match(r, line, quota).state != r.state then [StateChanged(r.state, Match(r, line, quota).state)] else [])
  }

  function MatchAll(r: Record, lines: seq<Line>, quota: QuotaReader): Record
    decreases |lines|
  {
    if lines == [] then r else MatchAll(Match(r, Render(lines[0]), quota), lines[1..], quota)
  }

  lemma {:induction false} MatchAllAppend(r: Record, a: seq<Line>, b: seq<Line>, quota: QuotaReader)
    ensures MatchAll(r, a + b, quota) == MatchAll(MatchAll(r, a, quota), b, quota)
    decreases |a|
  {
    hide Match;
    if a == [] {
      assert a + b == b;
    } else {
      assert (a + b)[1..] == a[1..] + b;
      MatchAllAppend(Match(r, Render(a[0]), quota), a[1..], b, quota);
    }
  }

  // Everything the lines make the manager publish or call back, in order.
  function SignalsAll(r: Record, lines: seq<Line>, quota: QuotaReader): seq<Effect>
    decreases |lines|
  {
    if lines == [] then []
    else Signals(r, Render(lines[0]), quota) + SignalsAll(Match(r, Render(lines[0]), quota), lines[1..], quota)
  }

  lemma {:induction false} SignalsAllAppend(r: Record, a: seq<Line>, b: seq<Line>, quota: QuotaReader)
    ensures SignalsAll(r, a + b, quota) == SignalsAll(r, a, quota) + SignalsAll(MatchAll(r, a, quota), b, quota)
    decreases |a|
  {
    hide Match, Signals;
    if a == [] {
      assert a + b == b;
    } else {
      assert (a + b)[1..] == a[1..] + b;
      SignalsAllAppend(Match(r, Render(a[0]), quota), a[1..], b, quota);
    }
  }

  // One more line.
  lemma LineAppends(r: Record, lines: seq<Line>, line: Line, quota: QuotaReader)
    ensures var was := MatchAll(r, lines, quota);
            && MatchAll(r, lines + [line], quota) == Match(was, Render(line), quota)
            && SignalsAll(r, lines + [line], quota) == SignalsAll(r, lines, quota) + Signals(was, Render(line), quota)
  {
    hide Match, Signals;
    var one := [line];
    assert one[1..] == [];
    MatchAllAppend(r, lines, one, quota);
    SignalsAllAppend(r, lines, one, quota);
    assert Signals(MatchAll(r, lines, quota), Render(line), quota) + []
        == Signals(MatchAll(r, lines, quota), Render(line), quota);
  }

  // The state the announcements leave, from a state before them.
  function AnnouncedState(from: State, effects: seq<Effect>): State {
    if effects == [] then from
    else
      var last := effects[|effects| - 1];
      if last.StateChanged? then last.to else AnnouncedState(from, effects[..|effects| - 1])
  }

  lemma {:induction false} AnnouncedAppend(from: State, a: seq<Effect>, b: seq<Effect>)
    ensures AnnouncedState(from, a + b) == AnnouncedState(AnnouncedState(from, a), b)
    decreases |b|
  {
    if b == [] {
      assert a + b == a;
    } else {
      assert (a + b)[..|a + b| - 1] == a + b[..|b| - 1];
      AnnouncedAppend(from, a, b[..|b| - 1]);
    }
  }

  // A listener that keeps the last announced state has the session's state after every line.
  lemma {:induction false} AnnouncementsKeepUp(r: Record, lines: seq<Line>, quota: QuotaReader)
    ensures AnnouncedState(r.state, SignalsAll(r, lines, quota)) == MatchAll(r, lines, quota).state
    decreases |lines|
  {
    hide Match, Signals;
    if lines != [] {
      var t := Match(r, Render(lines[0]), quota);
      LineAnnounced(r, Render(lines[0]), quota);
      AnnouncementsKeepUp(t, lines[1..], quota);
      AnnouncedAppend(r.state, Signals(r, Render(lines[0]), quota), SignalsAll(t, lines[1..], quota));
    }
  }

  lemma LineAnnounced(r: Record, line: string, quota: QuotaReader)
    ensures AnnouncedState(r.state, Signals(r, line, quota)) == Match(r, line, quota).state
  {
    hide Match, SentinelAtLineStart;
  }

  // ---- the pull request that ends a session ----

  predicate IsDigit(c: char) {
    '0' <= c <= '9'
  }

  function DigitRun(s: string): string {
    if s != "" && IsDigit(s[0]) then [s[0]] + DigitRun(s[1..]) else ""
  }

  // The digits of the first "/pull/" that is followed by any.
  function PullDigits(url: string): string {
    if url == "" then ""
    else if HasPrefix(url, "/pull/") && DigitRun(url[6..]) != "" then DigitRun(url[6..])
    else PullDigits(url[1..])
  }

  function NumberOf(digits: string): int {
    if digits == "" then 0
    else 10 * NumberOf(digits[..|digits| - 1]) + (digits[|digits| - 1] as int - '0' as int)
  }

  // The number fits an int of 64 bits.
  predicate HasPullNumber(url: string) {
    PullDigits(url) != "" && NumberOf(PullDigits(url)) < 0x8000_0000_0000_0000
  }

  // What a session was started with: how its BLOCKED reasons are read, whether it is an execute
  // session, and for which URLs its workspace is known and the store records the pull request.
  datatype Setup = Setup(quota: QuotaReader, execute: bool, marks: string -> bool)

  function PrUrl(line: string): string {
    Trim(After(line, PR_OPENED))
  }

  // The line reports a pull request, and its handler stops the session.
  predicate Kills(r: Record, line: string, u: Setup) {
    && SentinelAtLineStart(line, PR_OPENED) && HasPullNumber(PrUrl(line)) && u.marks(PrUrl(line))
    && u.execute && (r.state.Running? || r.state.WaitingForInput?)
  }

  // Some line does, met in the state the lines before it left.
  predicate KilledIn(r: Record, lines: seq<Line>, u: Setup)
    decreases |lines|
  {
    lines != []
    && (Kills(r, Render(lines[0]), u) || KilledIn(Match(r, Render(lines[0]), u.quota), lines[1..], u))
  }

  lemma {:induction false} KilledInAppend(r: Record, a: seq<Line>, b: seq<Line>, u: Setup)
    ensures KilledIn(r, a + b, u) <==> KilledIn(r, a, u) || KilledIn(MatchAll(r, a, u.quota), b, u)
    decreases |a|
  {
    hide Match, Kills;
    if a == [] {
      assert a + b == b;
    } else {
      assert (a + b)[1..] == a[1..] + b;
      KilledInAppend(Match(r, Render(a[0]), u.quota), a[1..], b, u);
    }
  }

  lemma KilledByLast(r: Record, lines: seq<Line>, line: Line, u: Setup)
    ensures KilledIn(r, lines + [line], u) <==> KilledIn(r, lines, u) || Kills(MatchAll(r, lines, u.quota), Render(line), u)
  {
    hide Match, Kills, MatchAll;
    KilledInAppend(r, lines, [line], u);
    assert [line][1..] == [];
  }

  // ---- how much of the transcript is read ----

  // How the tail loop meets the file: after how many raw lines it finds the worker gone, and before
  // which one it finds the context cancelled by somebody else.
  datatype Reading = Reading(exitSeen: nat, cancelSeen: Option<nat>)

  function Later(t: Reading): Reading {
    Reading(if t.exitSeen > 0 then t.exitSeen - 1 else 0,
            if t.cancelSeen.Some? && t.cancelSeen.value > 0 then Some(t.cancelSeen.value - 1) else t.cancelSeen)
  }

  // A cancelled context ends the loop before the next raw line, a session that was just stopped
  // included; once the worker is seen gone, the rest is read whatever it says.
  function RawsRead(r: Record, pending: string, raws: seq<RawLine>, u: Setup, t: Reading): (n: nat)
    ensures n <= |raws|
    decreases |raws|
  {
    if raws == [] || t.cancelSeen == Some(0) then 0
    else if t.exitSeen == 0 then |raws|
    else
      var f := FeedRaw(pending, raws[0]);
      if KilledIn(r, f.lines, u) then 1
      else 1 + RawsRead(MatchAll(r, f.lines, u.quota), f.pending, raws[1..], u, Later(t))
  }

  function LinesRead(r: Record, pending: string, raws: seq<RawLine>, u: Setup, t: Reading): seq<Line> {
    FeedAll(pending, raws[..RawsRead(r, pending, raws, u, t)]).lines
  }

  lemma LinesOfFirst(pending: string, raws: seq<RawLine>, n: nat)
    requires 0 < n <= |raws|
    ensures var f := FeedRaw(pending, raws[0]);
            FeedAll(pending, raws[..n]).lines == f.lines + FeedAll(f.pending, raws[1..][..n - 1]).lines
  {
    hide FeedRaw;
    assert raws[..n][1..] == raws[1..][..n - 1];
  }

  // Unless somebody else cancels, the session is stopped by a line it reads exactly when some line
  // of the whole transcript stops it, and otherwise everything is read.
  lemma {:induction false} ReadUntilKilled(r: Record, pending: string, raws: seq<RawLine>, u: Setup, t: Reading)
    requires t.cancelSeen.None?
    ensures KilledIn(r, LinesRead(r, pending, raws, u, t), u) <==> KilledIn(r, FeedAll(pending, raws).lines, u)
    ensures !KilledIn(r, FeedAll(pending, raws).lines, u) ==> RawsRead(r, pending, raws, u, t) == |raws|
    decreases |raws|
  {
    hide FeedRaw, KilledIn, MatchAll, FeedAll;
    var n := RawsRead(r, pending, raws, u, t);
    assert raws[..|raws|] == raws;
    if raws != [] && t.exitSeen > 0 {
      var f := FeedRaw(pending, raws[0]);
      LinesOfFirst(pending, raws, |raws|);
      LinesOfFirst(pending, raws, n);
      assert raws[1..][..|raws| - 1] == raws[1..];
      KilledInAppend(r, f.lines, FeedAll(f.pending, raws[1..]).lines, u);
      KilledInAppend(r, f.lines, FeedAll(f.pending, raws[1..][..n - 1]).lines, u);
      if !KilledIn(r, f.lines, u) {
        ReadUntilKilled(MatchAll(r, f.lines, u.quota), f.pending, raws[1..], u, Later(t));
      }
    }
  }

  // ---- process exit ----

  datatype Exit = Clean | Error(text: string, exitCode: Option<int>, signal: string)

  function MapTerminalState(prev: State, failed: bool): State {
    if prev.PausedForQuestion? then PausedForQuestion
    else if prev.NeedsPR? then NeedsPR
    else if failed then Failed
    else match prev
      case Running => Completed
      case Blocked => Failed
      case WaitingForInput => Failed
      case _ => prev
  }

  function ExitCause(exit: Exit): Cause {
    match exit
    case Clean => Cause("exit_code", "worker exited with non-zero status")
    case Error(text, _, signal) => Cause(if signal != "" then "signal" else "exit_code", text)
  }

  function Finalize(r: Record, exit: Exit, autoKilled: bool): Record {
    var s := MapTerminalState(r.state, exit.Error?);
    var s' := if autoKilled && s.Failed? then Completed else s;
    r.(state := s', cause := if s'.Failed? && r.cause.None? then Some(ExitCause(exit)) else r.cause)
  }

  // The recover arm of the deferred cleanup.
  function Crash(r: Record): Record {
    if r.state.Running? || r.state.WaitingForInput? then r.(state := Failed) else r
  }

  // Where the body may panic: before the k-th display line is handled, in its handling when its
  // record is changed and the first of its signals are raised, or between its later stages.
  datatype PanicPoint =
    | InFeed(k: nat)
    | InLine(k: nat, raised: nat)
    | BeforeFinalize
    | AfterFinalize
    | AfterAnnounce
    | AfterRelease

  // A panic due at some display line.
  datatype Strike = Strike(line: nat, raised: Option<nat>)

  function StrikeOf(panic: Option<PanicPoint>): Option<Strike> {
    match panic
    case Some(InFeed(k)) => Some(Strike(k, None))
    case Some(InLine(k, raised)) => Some(Strike(k, Some(raised)))
    case _ => None
  }

  predicate Hits(strike: Option<Strike>, n: nat) {
    strike.Some? && strike.value.line < n
  }

  function Sooner(strike: Option<Strike>, n: nat): Option<Strike>
    requires !Hits(strike, n)
  {
    if strike.Some? then Some(Strike(strike.value.line - n, strike.value.raised)) else None
  }

  // The lines whose record changes are applied by then.
  function Reached(lines: seq<Line>, strike: Option<Strike>): seq<Line> {
    if !Hits(strike, |lines|) then lines
    else if strike.value.raised.None? then lines[..strike.value.line]
    else lines[..strike.value.line + 1]
  }

  function Take(effects: seq<Effect>, n: nat): seq<Effect> {
    if n <= |effects| then effects[..n] else effects
  }

  // The signals raised by then.
  function Heard(r: Record, lines: seq<Line>, quota: QuotaReader, strike: Option<Strike>): seq<Effect> {
    if !Hits(strike, |lines|) then SignalsAll(r, lines, quota)
    else
      var k := strike.value.line;
      SignalsAll(r, lines[..k], quota) + HeardOfLine(MatchAll(r, lines[..k], quota), lines[k], quota, strike.value.raised)
  }

  function HeardOfLine(r: Record, line: Line, quota: QuotaReader, raised: Option<nat>): seq<Effect> {
    if raised.None? then [] else Take(Signals(r, Render(line), quota), raised.value)
  }

  lemma SliceWithin(fed: seq<Line>, more: seq<Line>, all: seq<Line>, j: nat)
    requires fed + more <= all && j < |more|
    ensures all[..|fed| + j] == fed + more[..j] && all[..|fed| + j + 1] == fed + more[..j + 1] && all[|fed| + j] == more[j]
  {
    assert all[|fed| + j] == (fed + more)[|fed| + j];
    assert all[..|fed| + |more|] == fed + more;
  }

  lemma StrikeWithin(r: Record, fed: seq<Line>, more: seq<Line>, all: seq<Line>, quota: QuotaReader, strike: Option<Strike>)
    requires fed + more <= all && !Hits(strike, |fed|) && Hits(Sooner(strike, |fed|), |more|)
    ensures Hits(strike, |all|)
    ensures MatchAll(r, Reached(all, strike), quota)
            == MatchAll(MatchAll(r, fed, quota), Reached(more, Sooner(strike, |fed|)), quota)
    ensures Heard(r, all, quota, strike)
            == SignalsAll(r, fed, quota) + Heard(MatchAll(r, fed, quota), more, quota, Sooner(strike, |fed|))
  {
    hide MatchAll, SignalsAll, Heard, Reached;
    ReachedWithin(fed, more, all, strike);
    MatchAllAppend(r, fed, Reached(more, Sooner(strike, |fed|)), quota);
    HeardWithin(r, fed, more, all, quota, strike);
  }

  lemma ReachedWithin(fed: seq<Line>, more: seq<Line>, all: seq<Line>, strike: Option<Strike>)
    requires fed + more <= all && !Hits(strike, |fed|) && Hits(Sooner(strike, |fed|), |more|)
    ensures Hits(strike, |all|) && Reached(all, strike) == fed + Reached(more, Sooner(strike, |fed|))
  {
    SliceWithin(fed, more, all, strike.value.line - |fed|);
  }

  lemma HeardJoins(r: Record, fed: seq<Line>, head: seq<Line>, line: Line, quota: QuotaReader, raised: Option<nat>)
    ensures var mid := MatchAll(r, fed, quota);
            SignalsAll(r, fed + head, quota) + HeardOfLine(MatchAll(r, fed + head, quota), line, quota, raised)
            == SignalsAll(r, fed, quota)
               + (SignalsAll(mid, head, quota) + HeardOfLine(MatchAll(mid, head, quota), line, quota, raised))
  {
    hide MatchAll, SignalsAll, HeardOfLine;
    MatchAllAppend(r, fed, head, quota);
    SignalsAllAppend(r, fed, head, quota);
  }

  lemma HeardWithin(r: Record, fed: seq<Line>, more: seq<Line>, all: seq<Line>, quota: QuotaReader, strike: Option<Strike>)
    requires fed + more <= all && !Hits(strike, |fed|) && Hits(Sooner(strike, |fed|), |more|) && Hits(strike, |all|)
    ensures Heard(r, all, quota, strike)
            == SignalsAll(r, fed, quota) + Heard(MatchAll(r, fed, quota), more, quota, Sooner(strike, |fed|))
  {
    hide MatchAll, SignalsAll, HeardOfLine, Heard;
    var j := strike.value.line - |fed|;
    SliceWithin(fed, more, all, j);
    HeardAt(r, all, quota, strike);
    HeardAt(MatchAll(r, fed, quota), more, quota, Sooner(strike, |fed|));
    HeardJoins(r, fed, more[..j], more[j], quota, strike.value.raised);
  }

  lemma EffectsAssociate(a: seq<Effect>, b: seq<Effect>, c: seq<Effect>)
    ensures (a + b) + c == a + (b + c)
  {
  }

  lemma HeardAt(r: Record, lines: seq<Line>, quota: QuotaReader, strike: Option<Strike>)
    requires Hits(strike, |lines|)
    ensures var k := strike.value.line;
            Heard(r, lines, quota, strike) ==
            SignalsAll(r, lines[..k], quota) + HeardOfLine(MatchAll(r, lines[..k], quota), lines[k], quota, strike.value.raised)
  {
    hide MatchAll, SignalsAll, HeardOfLine;
  }

  // The body gets past the worker's exit before any panic.
  predicate ReachesExit(lines: seq<Line>, panic: Option<PanicPoint>) {
    !Hits(StrikeOf(panic), |lines|) && panic != Some(BeforeFinalize)
  }

  // The exit changes the state, and the body gets as far as announcing it.
  function ExitEffects(read: Record, final: Record, lines: seq<Line>, panic: Option<PanicPoint>): seq<Effect> {
    if ReachesExit(lines, panic) && panic != Some(AfterFinalize) && final.state != read.state
    then [StateChanged(read.state, final.state)] else []
  }

  // The record when the goroutine ends, from the lines it reads when nothing panics.
  function Ended(r: Record, lines: seq<Line>, u: Setup, exit: Exit, panic: Option<PanicPoint>): Record {
    var read := MatchAll(r, Reached(lines, StrikeOf(panic)), u.quota);
    if ReachesExit(lines, panic) then Finalize(read, exit, KilledIn(r, lines, u)) else Crash(read)
  }

  function EndEffects(r: Record, lines: seq<Line>, u: Setup, exit: Exit, panic: Option<PanicPoint>): seq<Effect> {
    var read := MatchAll(r, Reached(lines, StrikeOf(panic)), u.quota);
    Heard(r, lines, u.quota, StrikeOf(panic)) + ExitEffects(read, Ended(r, lines, u, exit, panic), lines, panic)
  }

  class RuntimeSession {
    var rec: Record
    const parser: StreamParser
    const setup: Setup
    var effects: seq<Effect>
    var autoKilled: bool
    var slotReleased: bool
    var slotFreed: nat // WorkerSlotFreed events published
    var registered: bool

    constructor (setup: Setup)
      ensures rec == FRESH && this.setup == setup && effects == [] && fresh(parser) && parser.pending == ""
      ensures !autoKilled && !slotReleased && slotFreed == 0 && registered
    {
      rec, effects, autoKilled, slotReleased, slotFreed, registered := FRESH, [], false, false, 0, true;
      this.setup := setup;
      parser := new StreamParser();
    }

    // KillAfterPROpened, for this session: mark it and cancel its context.
    method KillAfterPROpened()
      modifies this`autoKilled
      ensures autoKilled == (old(autoKilled) || (setup.execute && (rec.state.Running? || rec.state.WaitingForInput?)))
    {
      if !setup.execute {
        return;
      }
      if !rec.state.Running? && !rec.state.WaitingForInput? {
        return;
      }
      autoKilled := true;
    }

    method HandlePROpened(url: string)
      modifies this`autoKilled
      ensures autoKilled == (old(autoKilled) || (HasPullNumber(url) && setup.marks(url) && setup.execute
                                                 && (rec.state.Running? || rec.state.WaitingForInput?)))
    {
      if !HasPullNumber(url) {
        return;
      }
      if !setup.marks(url) {
        return;
      }
      KillAfterPROpened();
    }

    method MatchPatterns(line: string)
      modifies this`rec, this`effects, this`autoKilled
      ensures rec == Match(old(rec), line, setup.quota)
      ensures effects == old(effects) + Signals(old(rec), line, setup.quota)
      ensures autoKilled == (old(autoKilled) || Kills(old(rec), line, setup))
    {
      hide HasPullNumber;
      StartsApart(Stripped(line));
      NoNumberInNothing();
      var prev := rec.state;
      if SentinelAtLineStart(line, QUESTION_PENDING) {
        var qid := Trim(After(line, QUESTION_PENDING));
        if qid != "" && rec.pendingQuestionId == "" {
          rec := rec.(state := PausedForQuestion, pendingQuestionId := qid);
        }
      } else if SentinelAtLineStart(line, QUESTION) {
        rec := rec.(state := WaitingForInput, lastPrompt := line);
      } else if SentinelAtLineStart(line, PLAN_WRITTEN) {
        effects := effects + [PlanReady(Trim(line[IndexOf(line, PLAN_DIR)..]))];
      } else if SentinelAtLineStart(line, PR_OPENED) {
        var url := Trim(After(line, PR_OPENED));
        if url != "" {
          effects := effects + [PrOpened(url)];
          HandlePROpened(url);
        }
      } else if SentinelAtLineStart(line, FANOUT_WRITTEN) {
        var path := Trim(After(line, FANOUT_WRITTEN));
        if path != "" {
          effects := effects + [FanoutReady(path)];
        }
      } else if SentinelAtLineStart(line, COMPLETE) {
        rec := rec.(state := Completed);
      } else if SentinelAtLineStart(line, NEEDS_PR) {
        var reason := Cut(Trim(After(line, NEEDS_PR)));
        rec := rec.(state := NeedsPR, blockedReason := reason);
        effects := effects + [NeedsPrRaised(reason)];
      } else if SentinelAtLineStart(line, BLOCKED) {
        var cause := BlockedCause(line, setup.quota);
        rec := rec.(state := Blocked, blockedReason := cause.reason, cause := Some(cause));
        effects := effects + [WorkerBlocked];
      }
      if rec.state != prev {
        effects := effects + [StateChanged(prev, rec.state)];
      }
    }

    method ReleaseSlot()
      modifies this`slotReleased, this`slotFreed
      ensures slotReleased && slotFreed == old(slotFreed) + (if old(slotReleased) then 0 else 1)
    {
      var released := slotReleased;
      slotReleased := true;
      if !released {
        slotFreed := slotFreed + 1;
      }
    }

    // One raw transcript line. A panic due in one of its display lines ends it there: the calls after
    // the signals already raised are not made.
    method FeedLine(raw: RawLine, strike: Option<Strike>) returns (left: Option<Strike>, panicked: bool)
      modifies this`rec, this`effects, this`autoKilled, parser
      ensures var lines := FeedRaw(old(parser.pending), raw).lines;
              && parser.pending == FeedRaw(old(parser.pending), raw).pending
              && (panicked <==> Hits(strike, |lines|))
              && rec == MatchAll(old(rec), Reached(lines, strike), setup.quota)
              && effects == old(effects) + Heard(old(rec), lines, setup.quota, strike)
              && (!panicked ==> left == Sooner(strike, |lines|)
                                && autoKilled == (old(autoKilled) || KilledIn(old(rec), lines, setup)))
    {
      hide Match, MatchAll, Signals, SignalsAll, FeedRaw, KilledIn, Kills, Heard, HeardOfLine, Take, Reached;
      var lines := parser.Feed(raw);
      MatchNone(rec, setup);
      assert lines[..0] == [];
      for i := 0 to |lines|
        invariant !Hits(strike, i)
        invariant parser.pending == FeedRaw(old(parser.pending), raw).pending
        invariant rec == MatchAll(old(rec), lines[..i], setup.quota)
        invariant effects == old(effects) + SignalsAll(old(rec), lines[..i], setup.quota)
        invariant autoKilled == (old(autoKilled) || KilledIn(old(rec), lines[..i], setup))
      {
        if strike == Some(Strike(i, None)) {
          StruckBefore(old(rec), lines, setup.quota, strike);
          return None, true;
        }
        LineAppends(old(rec), lines[..i], lines[i], setup.quota);
        KilledByLast(old(rec), lines[..i], lines[i], setup);
        assert lines[..i + 1] == lines[..i] + [lines[i]];
        var before := effects;
        MatchPatterns(Render(lines[i]));
        if strike.Some? && strike.value.line == i {
          StruckIn(old(rec), lines, setup.quota, strike);
          assert effects[|before|..] == Signals(MatchAll(old(rec), lines[..i], setup.quota), Render(lines[i]), setup.quota);
          effects := before + Take(effects[|before|..], strike.value.raised.value);
          EffectsAssociate(old(effects), SignalsAll(old(rec), lines[..i], setup.quota), effects[|before|..]);
          return None, true;
        }
      }
      assert lines[..|lines|] == lines;
      AllReached(old(rec), lines, setup.quota, strike);
      return Sooner(strike, |lines|), false;
    }

    // Every raw line there is, up to the panic if one is due.
    method FeedLines(raws: seq<RawLine>, strike: Option<Strike>) returns (panicked: bool)
      modifies this`rec, this`effects, this`autoKilled, parser
      ensures var lines := FeedAll(old(parser.pending), raws).lines;
              && (panicked <==> Hits(strike, |lines|))
              && rec == MatchAll(old(rec), Reached(lines, strike), setup.quota)
              && effects == old(effects) + Heard(old(rec), lines, setup.quota, strike)
              && (!panicked ==> autoKilled == (old(autoKilled) || KilledIn(old(rec), lines, setup)))
    {
      hide Match, MatchAll, Signals, SignalsAll, FeedRaw, FeedAll, KilledIn, Reached, Heard;
      FeedNone(parser.pending);
      MatchNone(rec, setup);
      var due := strike;
      ghost var fed: seq<Line> := [];
      assert raws[..|raws|] == raws && raws[..0] == [];
      for i := 0 to |raws|
        invariant FeedAll(old(parser.pending), raws[..i]) == Fed(parser.pending, fed)
        invariant rec == MatchAll(old(rec), fed, setup.quota)
        invariant effects == old(effects) + SignalsAll(old(rec), fed, setup.quota)
        invariant autoKilled == (old(autoKilled) || KilledIn(old(rec), fed, setup))
        invariant !Hits(strike, |fed|) && due == Sooner(strike, |fed|)
      {
        ghost var lines := FeedRaw(parser.pending, raws[i]).lines;
        FedSoFar(old(parser.pending), raws, i);
        due, panicked := FeedLine(raws[i], due);
        if panicked {
          StrikeWithin(old(rec), fed, lines, FeedAll(old(parser.pending), raws).lines, setup.quota, strike);
          return true;
        }
        AllReached(MatchAll(old(rec), fed, setup.quota), lines, setup.quota, Sooner(strike, |fed|));
        MatchAllAppend(old(rec), fed, lines, setup.quota);
        SignalsAllAppend(old(rec), fed, lines, setup.quota);
        KilledInAppend(old(rec), fed, lines, setup);
        fed := fed + lines;
      }
      AllReached(old(rec), fed, setup.quota, strike);
      return false;
    }

    // The read loop: raw lines while the context is live, and all the rest once the worker is gone.
    method ReadLines(raws: seq<RawLine>, tail: Reading, strike: Option<Strike>) returns (panicked: bool)
      requires !autoKilled
      modifies this`rec, this`effects, this`autoKilled, parser
      ensures var lines := LinesRead(old(rec), old(parser.pending), raws, setup, tail);
              && (panicked <==> Hits(strike, |lines|))
              && rec == MatchAll(old(rec), Reached(lines, strike), setup.quota)
              && effects == old(effects) + Heard(old(rec), lines, setup.quota, strike)
              && (!panicked ==> autoKilled == KilledIn(old(rec), lines, setup))
    {
      hide Match, MatchAll, Signals, SignalsAll, FeedRaw, FeedAll, KilledIn, Reached, Heard, RawsRead;
      FeedNone(parser.pending);
      MatchNone(rec, setup);
      var due, seen := strike, tail;
      ghost var fed: seq<Line> := [];
      ghost var r0, p0 := rec, parser.pending;
      ghost var n := RawsRead(r0, p0, raws, setup, tail);
      assert raws[..0] == [] && raws[0..] == raws;
      var i := 0;
      while i < |raws| && !(autoKilled || seen.cancelSeen == Some(0))
        invariant i <= |raws|
        invariant FeedAll(p0, raws[..i]) == Fed(parser.pending, fed)
        invariant rec == MatchAll(r0, fed, setup.quota)
        invariant effects == old(effects) + SignalsAll(r0, fed, setup.quota)
        invariant autoKilled == KilledIn(r0, fed, setup)
        invariant !Hits(strike, |fed|) && due == Sooner(strike, |fed|)
        invariant n == i + (if autoKilled then 0 else RawsRead(rec, parser.pending, raws[i..], setup, seen))
      {
        RawsReadStep(rec, parser.pending, raws[i..], setup, seen);
        if seen.exitSeen == 0 {
          ghost var rest := FeedAll(parser.pending, raws[i..]).lines;
          FeedAllAppend(p0, raws[..i], raws[i..]);
          assert raws[..i] + raws[i..] == raws && raws[..n] == raws;
          panicked := FeedLines(raws[i..], due);
          RestReached(r0, fed, rest, setup, strike);
          return;
        }
        ghost var lines := FeedRaw(parser.pending, raws[i]).lines;
        FedUpTo(p0, raws, i, n);
        due, panicked := FeedLine(raws[i], due);
        if panicked {
          StrikeWithin(r0, fed, lines, FeedAll(p0, raws[..n]).lines, setup.quota, strike);
          return true;
        }
        AllReached(MatchAll(r0, fed, setup.quota), lines, setup.quota, Sooner(strike, |fed|));
        MatchAllAppend(r0, fed, lines, setup.quota);
        SignalsAllAppend(r0, fed, lines, setup.quota);
        KilledInAppend(r0, fed, lines, setup);
        assert raws[i..][1..] == raws[i + 1..];
        fed := fed + lines;
        seen := Later(seen);
        i := i + 1;
      }
      if !autoKilled {
        NothingMoreRead(rec, parser.pending, raws[i..], setup, seen);
      }
      AllReached(r0, fed, setup.quota, strike);
      return false;
    }

    // The whole goroutine, over the raw lines the transcript yields and the worker's exit.
    // Publishes exactly one slot-freed event and unregisters, wherever it panics.
    method TailAndParse(raws: seq<RawLine>, tail: Reading, exit: Exit, panic: Option<PanicPoint>)
      requires !autoKilled
      modifies this, parser
      ensures slotReleased && slotFreed == old(slotFreed) + (if old(slotReleased) then 0 else 1)
      ensures !registered
      ensures var lines := LinesRead(old(rec), old(parser.pending), raws, setup, tail);
              && rec == Ended(old(rec), lines, setup, exit, panic)
              && effects == old(effects) + EndEffects(old(rec), lines, setup, exit, panic)
    {
      hide Match, MatchAll, Signals, SignalsAll, FeedRaw, LinesRead, Finalize, Crash, KilledIn, Heard;
      var panicked := ReadLines(raws, tail, StrikeOf(panic));
      if panicked || panic == Some(BeforeFinalize) {
        rec := Crash(rec);
        ReleaseSlot();
        registered := false;
        assert effects + [] == effects;
        return;
      }
      var prev := rec.state;
      TerminalStatesSurviveCrash(rec, exit, autoKilled);
      rec := Finalize(rec, exit, autoKilled);
      if panic == Some(AfterFinalize) {
        rec := Crash(rec);
        assert effects + [] == effects;
      } else {
        if rec.state != prev {
          effects := effects + [StateChanged(prev, rec.state)];
        } else {
          assert effects + [] == effects;
        }
        if panic == Some(AfterAnnounce) {
          rec := Crash(rec);
        } else {
          ReleaseSlot();
        }
      }
      registered := false;
      ReleaseSlot();
    }
  }

  lemma StruckBefore(r: Record, lines: seq<Line>, quota: QuotaReader, strike: Option<Strike>)
    requires Hits(strike, |lines|) && strike.value.raised.None?
    ensures var k := strike.value.line;
            Reached(lines, strike) == lines[..k] && Heard(r, lines, quota, strike) == SignalsAll(r, lines[..k], quota)
  {
    hide SignalsAll, MatchAll;
    var k := strike.value.line;
    assert SignalsAll(r, lines[..k], quota) + [] == SignalsAll(r, lines[..k], quota);
  }

  lemma StruckIn(r: Record, lines: seq<Line>, quota: QuotaReader, strike: Option<Strike>)
    requires Hits(strike, |lines|) && strike.value.raised.Some?
    ensures var k := strike.value.line;
            && Reached(lines, strike) == lines[..k + 1]
            && Heard(r, lines, quota, strike) ==
               SignalsAll(r, lines[..k], quota)
               + Take(Signals(MatchAll(r, lines[..k], quota), Render(lines[k]), quota), strike.value.raised.value)
  {
    hide SignalsAll, MatchAll, Signals, Take;
  }

  lemma NoNumberInNothing()
    ensures !HasPullNumber("")
  {
  }

  lemma RawsReadStep(r: Record, pending: string, raws: seq<RawLine>, u: Setup, t: Reading)
    requires raws != [] && t.cancelSeen != Some(0)
    ensures var f := FeedRaw(pending, raws[0]);
            RawsRead(r, pending, raws, u, t) ==
            if t.exitSeen == 0 then |raws|
            else if KilledIn(r, f.lines, u) then 1
            else 1 + RawsRead(MatchAll(r, f.lines, u.quota), f.pending, raws[1..], u, Later(t))
  {
  }

  lemma NothingMoreRead(r: Record, pending: string, raws: seq<RawLine>, u: Setup, t: Reading)
    requires raws == [] || t.cancelSeen == Some(0)
    ensures RawsRead(r, pending, raws, u, t) == 0
  {
  }

  // The rest of the lines, fed after those before them.
  lemma RestReached(r: Record, fed: seq<Line>, rest: seq<Line>, u: Setup, strike: Option<Strike>)
    requires !Hits(strike, |fed|)
    ensures var all, mid, due := fed + rest, MatchAll(r, fed, u.quota), Sooner(strike, |fed|);
            && (Hits(strike, |all|) <==> Hits(due, |rest|))
            && MatchAll(r, Reached(all, strike), u.quota) == MatchAll(mid, Reached(rest, due), u.quota)
            && Heard(r, all, u.quota, strike) == SignalsAll(r, fed, u.quota) + Heard(mid, rest, u.quota, due)
            && (KilledIn(r, all, u) <==> KilledIn(r, fed, u) || KilledIn(mid, rest, u))
  {
    hide MatchAll, SignalsAll, KilledIn, Heard, Reached;
    KilledInAppend(r, fed, rest, u);
    if Hits(strike, |fed + rest|) {
      StrikeWithin(r, fed, rest, fed + rest, u.quota, strike);
    } else {
      AllReached(r, fed + rest, u.quota, strike);
      AllReached(MatchAll(r, fed, u.quota), rest, u.quota, Sooner(strike, |fed|));
      MatchAllAppend(r, fed, rest, u.quota);
      SignalsAllAppend(r, fed, rest, u.quota);
    }
  }

  // No panic is due within the lines.
  lemma AllReached(r: Record, lines: seq<Line>, quota: QuotaReader, strike: Option<Strike>)
    requires !Hits(strike, |lines|)
    ensures Reached(lines, strike) == lines && Heard(r, lines, quota, strike) == SignalsAll(r, lines, quota)
  {
  }

  // The line a panic strikes in left a new state unannounced.
  predicate CutOff(r: Record, lines: seq<Line>, quota: QuotaReader, strike: Option<Strike>) {
    && Hits(strike, |lines|) && strike.value.raised.Some?
    && var k := strike.value.line;
       var before := MatchAll(r, lines[..k], quota);
       var after := Match(before, Render(lines[k]), quota);
       && after.state != before.state
       && StateChanged(before.state, after.state) !in Take(Signals(before, Render(lines[k]), quota), strike.value.raised.value)
  }

  // When the goroutine has ended, a listener that keeps the last announced state has the session's
  // state, except when a panic strikes between a change of state and its announcement, in a line or
  // at the exit, or before the exit while the session is running or waiting: the recovery fails it
  // silently.
  lemma AnnouncedAtEndIff(lines: seq<Line>, u: Setup, exit: Exit, panic: Option<PanicPoint>)
    ensures var read := MatchAll(FRESH, Reached(lines, StrikeOf(panic)), u.quota);
            var final := Ended(FRESH, lines, u, exit, panic);
            AnnouncedState(FRESH.state, EndEffects(FRESH, lines, u, exit, panic)) == final.state
            <==> if ReachesExit(lines, panic) then panic != Some(AfterFinalize) || final.state == read.state
                 else !CutOff(FRESH, lines, u.quota, StrikeOf(panic)) && !(read.state.Running? || read.state.WaitingForInput?)
  {
    hide MatchAll, SignalsAll, Finalize, KilledIn, Reached, CutOff, Heard;
    var strike := StrikeOf(panic);
    var heard := Heard(FRESH, lines, u.quota, strike);
    var read := MatchAll(FRESH, Reached(lines, strike), u.quota);
    AnnouncedAppend(FRESH.state, heard, ExitEffects(read, Ended(FRESH, lines, u, exit, panic), lines, panic));
    HeardKeepsUp(lines, u.quota, strike);
    NotCutOff(lines, u.quota, strike);
    ReachableKept(FRESH, Reached(lines, strike), u.quota);
  }

  lemma NotCutOff(lines: seq<Line>, quota: QuotaReader, strike: Option<Strike>)
    ensures !Hits(strike, |lines|) ==> !CutOff(FRESH, lines, quota, strike)
  {
  }

  // What is announced by the end of the reading.
  lemma HeardKeepsUp(lines: seq<Line>, quota: QuotaReader, strike: Option<Strike>)
    ensures var read := MatchAll(FRESH, Reached(lines, strike), quota);
            var state := AnnouncedState(FRESH.state, Heard(FRESH, lines, quota, strike));
            && (state == read.state <==> !CutOff(FRESH, lines, quota, strike))
            && !state.Failed?
  {
    hide MatchAll, SignalsAll, Signals, Match;
    if !Hits(strike, |lines|) {
      AnnouncementsKeepUp(FRESH, lines, quota);
      ReachableKept(FRESH, lines, quota);
    } else {
      var k := strike.value.line;
      var before := MatchAll(FRESH, lines[..k], quota);
      AnnouncementsKeepUp(FRESH, lines[..k], quota);
      ReachableKept(FRESH, lines[..k], quota);
      if strike.value.raised.None? {
        assert SignalsAll(FRESH, lines[..k], quota) + [] == SignalsAll(FRESH, lines[..k], quota);
      } else {
        LineAppends(FRESH, lines[..k], lines[k], quota);
        assert lines[..k + 1] == lines[..k] + [lines[k]];
        var some := Take(Signals(before, Render(lines[k]), quota), strike.value.raised.value);
        AnnouncedAppend(FRESH.state, SignalsAll(FRESH, lines[..k], quota), some);
        SomeSignals(before, Render(lines[k]), quota, strike.value.raised.value);
      }
    }
  }

  lemma SomeSignals(r: Record, line: string, quota: QuotaReader, raised: nat)
    requires !r.state.Failed?
    ensures var after := Match(r, line, quota);
            var some := Take(Signals(r, line, quota), raised);
            var state := AnnouncedState(r.state, some);
            && (state == after.state <==> after.state == r.state || StateChanged(r.state, after.state) in some)
            && !state.Failed?
  {
    hide SentinelAtLineStart, Trim, After, BlockedCause;
    var all := Signals(r, line, quota);
    assert |all| <= 2;
    assert raised <= |all| ==> all[..raised] == if raised == 0 then [] else if raised == 1 then [all[0]] else [all[0], all[1]];
  }

  lemma MatchNone(r: Record, u: Setup)
    ensures MatchAll(r, [], u.quota) == r && SignalsAll(r, [], u.quota) == [] && !KilledIn(r, [], u)
  {
  }

  lemma FedSoFar(pending: string, raws: seq<RawLine>, i: nat)
    requires i < |raws|
    ensures var x := FeedAll(pending, raws[..i]);
            var y := FeedRaw(x.pending, raws[i]);
            && FeedAll(pending, raws[..i + 1]) == Fed(y.pending, x.lines + y.lines)
            && x.lines + y.lines <= FeedAll(pending, raws).lines
  {
    hide FeedRaw;
    var x := FeedAll(pending, raws[..i]);
    var upTo, after := raws[..i + 1], raws[i + 1..];
    assert raws == upTo + after;
    assert upTo == raws[..i] + [raws[i]];
    FeedAllAppend(pending, raws[..i], [raws[i]]);
    FeedOne(x.pending, raws[i]);
    FeedAllAppend(pending, upTo, after);
  }

  lemma FedUpTo(pending: string, raws: seq<RawLine>, i: nat, n: nat)
    requires i < n <= |raws|
    ensures var x := FeedAll(pending, raws[..i]);
            var y := FeedRaw(x.pending, raws[i]);
            && FeedAll(pending, raws[..i + 1]) == Fed(y.pending, x.lines + y.lines)
            && x.lines + y.lines <= FeedAll(pending, raws[..n]).lines
  {
    hide FeedRaw, FeedAll;
    FedSoFar(pending, raws[..n], i);
    assert raws[..n][..i] == raws[..i] && raws[..n][..i + 1] == raws[..i + 1];
  }

  lemma TerminalStatesSurviveCrash(r: Record, exit: Exit, autoKilled: bool)
    ensures Crash(Finalize(r, exit, autoKilled)) == Finalize(r, exit, autoKilled)
  {
  }

  // ---- what every run of lines keeps ----

  ghost predicate Reachable(r: Record) {
    && (r.state.PausedForQuestion? ==> r.pendingQuestionId != "")
    && (r.state.Blocked? ==> r.cause.Some?)
    && !r.state.Failed?
  }

  lemma {:induction false} ReachableKept(r: Record, lines: seq<Line>, quota: QuotaReader)
    requires Reachable(r)
    ensures Reachable(MatchAll(r, lines, quota))
    decreases |lines|
  {
    if lines != [] {
      ReachableKept(Match(r, Render(lines[0]), quota), lines[1..], quota);
    }
  }

  // Normal completion ends in one of four states; failed always names a cause and paused a question.
  lemma CompletionStates(lines: seq<Line>, quota: QuotaReader, exit: Exit, autoKilled: bool)
    ensures var r := Finalize(MatchAll(FRESH, lines, quota), exit, autoKilled);
            && r.state in {Completed, Failed, PausedForQuestion, NeedsPR}
            && (r.state.Failed? ==> r.cause.Some?)
            && (r.state.PausedForQuestion? ==> r.pendingQuestionId != "")
  {
    hide Match;
    ReachableKept(FRESH, lines, quota);
  }

  // Which of the four, from the state the lines left behind and the exit.
  lemma CompletionExactly(r: Record, exit: Exit, autoKilled: bool)
    requires Reachable(r)
    ensures var s := Finalize(r, exit, autoKilled).state;
            && (s.PausedForQuestion? <==> r.state.PausedForQuestion?)
            && (s.NeedsPR? <==> r.state.NeedsPR?)
            && (s.Failed? <==> !autoKilled && !r.state.PausedForQuestion? && !r.state.NeedsPR?
                               && (exit.Error? || r.state.Blocked? || r.state.WaitingForInput?))
  {
  }

  // A question id, once set, never changes: it is written at most once.
  lemma {:induction false} QuestionWrittenOnce(r: Record, lines: seq<Line>, quota: QuotaReader)
    requires r.pendingQuestionId != ""
    ensures MatchAll(r, lines, quota).pendingQuestionId == r.pendingQuestionId
    decreases |lines|
  {
    if lines != [] {
      QuestionWrittenOnce(Match(r, Render(lines[0]), quota), lines[1..], quota);
    }
  }

  // The id of the first QUESTION_PENDING line that carries one.
  function FirstQuestion(lines: seq<Line>): string {
    if lines == [] then ""
    else
      var line := Render(lines[0]);
      if SentinelAtLineStart(line, QUESTION_PENDING) && Trim(After(line, QUESTION_PENDING)) != ""
      then Trim(After(line, QUESTION_PENDING)) else FirstQuestion(lines[1..])
  }

  lemma QuestionStep(r: Record, line: string, quota: QuotaReader)
    requires r.pendingQuestionId == ""
    ensures Match(r, line, quota).pendingQuestionId ==
            if SentinelAtLineStart(line, QUESTION_PENDING) then Trim(After(line, QUESTION_PENDING)) else ""
  {
    hide SentinelAtLineStart, Trim, After, BlockedCause;
  }

  lemma {:induction false} FirstQuestionWins(r: Record, lines: seq<Line>, quota: QuotaReader)
    requires r.pendingQuestionId == ""
    ensures MatchAll(r, lines, quota).pendingQuestionId == FirstQuestion(lines)
    decreases |lines|
  {
    hide Match, SentinelAtLineStart, Trim, After;
    if lines != [] {
      var line := Render(lines[0]);
      var next := Match(r, line, quota);
      QuestionStep(r, line, quota);
      if next.pendingQuestionId != "" {
        QuestionWrittenOnce(next, lines[1..], quota);
      } else {
        FirstQuestionWins(next, lines[1..], quota);
      }
    }
  }

  // ---- a crash, and a worker found dead after a restart ----

  // A panic can leave a session failed without a cause; normal completion cannot.
  lemma CrashLeavesNoCause()
    ensures Crash(FRESH).state.Failed? && Crash(FRESH).cause.None?
  {
  }

  function ClassifyDead(r: Record): Record {
    if r.state in {Completed, Blocked, Failed, PausedForQuestion} then r
    else r.(state := Failed, blockedReason := "worker exited without sentinel - see transcript")
  }

  // The classification after a restart agrees with the live path for paused sessions; for completed
  // ones on a clean exit or when stopped; and, when not stopped, for running ones on a failing exit
  // and for waiting and failed ones.
  lemma ClassifyAgreesIff(r: Record, exit: Exit, autoKilled: bool)
    ensures ClassifyDead(r).state == Finalize(r, exit, autoKilled).state
            <==> || r.state.PausedForQuestion?
                 || (r.state.Completed? && (exit.Clean? || autoKilled))
                 || (r.state.Running? && exit.Error? && !autoKilled)
                 || ((r.state.WaitingForInput? || r.state.Failed?) && !autoKilled)
  {
  }

  lemma DeadWorkerLosesNeedsPr(r: Record, line: string, quota: QuotaReader, exit: Exit)
    requires r.state.Running? && SentinelAtLineStart(line, NEEDS_PR)
    ensures Finalize(Match(r, line, quota), exit, false).state == NeedsPR
    ensures ClassifyDead(Match(r, line, quota)).state == Failed
  {
    StartsApart(Stripped(line));
  }

  // ---- lines read again after a restart ----

  // The state a line sets whatever it was before.
  function Sets(line: string): Option<State> {
    if SentinelAtLineStart(line, QUESTION) then Some(WaitingForInput)
    else if SentinelAtLineStart(line, COMPLETE) then Some(Completed)
    else if SentinelAtLineStart(line, NEEDS_PR) then Some(NeedsPR)
    else if SentinelAtLineStart(line, BLOCKED) then Some(State.Blocked)
    else None
  }

  function LastSet(lines: seq<Line>): Option<State> {
    if lines == [] then None
    else
      var last := Sets(Render(lines[|lines| - 1]));
      if last.Some? then last else LastSet(lines[..|lines| - 1])
  }

  lemma LineSets(r: Record, line: string, quota: QuotaReader)
    ensures var t := Match(r, line, quota);
            && (Sets(line).Some? ==> t.state == Sets(line).value && t.pendingQuestionId == r.pendingQuestionId)
            && (Sets(line).None? ==> t.state == r.state || NewQuestion(r, t))
            && (r.pendingQuestionId != "" ==> t.pendingQuestionId != "")
  {
    hide Trim, After, BlockedCause;
    StartsApart(Stripped(line));
  }

  // t is paused by a question that r did not have.
  predicate NewQuestion(r: Record, t: Record) {
    t.state.PausedForQuestion? && r.pendingQuestionId == "" && t.pendingQuestionId != ""
  }

  // After the lines the state is the last one set, or paused by a question that was new in them.
  lemma {:induction false} StateAfter(r: Record, lines: seq<Line>, quota: QuotaReader)
    ensures var t := MatchAll(r, lines, quota);
            var settled := if LastSet(lines).Some? then LastSet(lines).value else r.state;
            && (t.state == settled || NewQuestion(r, t))
            && (LastSet(lines).Some? ==> LastSet(lines).value != PausedForQuestion)
            && (r.pendingQuestionId != "" ==> t.pendingQuestionId != "")
    decreases |lines|
  {
    hide MatchAll, Match, Sets;
    if lines == [] {
      MatchNone(r, Setup(quota, false, _ => false));
    } else {
      var init, last := lines[..|lines| - 1], lines[|lines| - 1];
      StateAfter(r, init, quota);
      assert lines == init + [last];
      LineAppends(r, init, last, quota);
      LineSets(MatchAll(r, init, quota), Render(last), quota);
      NeverSetsPaused(Render(last));
    }
  }

  lemma NeverSetsPaused(line: string)
    ensures Sets(line) != Some(PausedForQuestion)
  {
  }

  // A restart hands the parser again the lines after the persisted offset. Reading them a second time
  // leaves the state as it was exactly unless they left it paused and also set a state: then the
  // question, asked already, does not pause it again.
  lemma ReplayKeepsStateIff(r: Record, lines: seq<Line>, quota: QuotaReader)
    requires Reachable(r)
    ensures var once := MatchAll(r, lines, quota);
            MatchAll(once, lines, quota).state == once.state <==> !(once.state.PausedForQuestion? && LastSet(lines).Some?)
  {
    hide MatchAll, LastSet;
    var once := MatchAll(r, lines, quota);
    ReachableKept(r, lines, quota);
    StateAfter(r, lines, quota);
    StateAfter(once, lines, quota);
    if once.pendingQuestionId == "" {
      NoQuestionAgain(r, lines, quota);
    }
  }

  lemma NoQuestionAgain(r: Record, lines: seq<Line>, quota: QuotaReader)
    requires r.pendingQuestionId == "" && MatchAll(r, lines, quota).pendingQuestionId == ""
    ensures MatchAll(MatchAll(r, lines, quota), lines, quota).pendingQuestionId == ""
  {
    hide MatchAll, FirstQuestion;
    FirstQuestionWins(r, lines, quota);
    FirstQuestionWins(MatchAll(r, lines, quota), lines, quota);
  }

  // At most one sentinel can start a line.
  lemma StartsApart(s: string)
    ensures HasPrefix(s, BLOCKED) ==> s[0] == 'B'
    ensures HasPrefix(s, NEEDS_PR) ==> s[0] == 'N'
    ensures HasPrefix(s, COMPLETE) ==> s[0] == 'W'
    ensures HasPrefix(s, FANOUT_WRITTEN) ==> s[0] == 'F'
    ensures HasPrefix(s, PR_OPENED) ==> s[0] == 'P' && s[1] == 'R'
    ensures HasPrefix(s, PLAN_WRITTEN) ==> s[0] == 'P' && s[1] == 'l'
    ensures HasPrefix(s, QUESTION) ==> s[0] == 'Q' && s[1] == 'u'
    ensures HasPrefix(s, QUESTION_PENDING) ==> s[0] == 'Q' && s[1] == 'U'
  {
    assert PLAN_WRITTEN[0] == 'P' && PLAN_WRITTEN[1] == 'l';
    if HasPrefix(s, PLAN_WRITTEN) {
      assert s[..|PLAN_WRITTEN|][0] == s[0] && s[..|PLAN_WRITTEN|][1] == s[1];
    }
  }

  // A session that said "Work complete." can be brought back to life by a later line.
  lemma CompletedCanRevive(quota: QuotaReader)
    ensures var done := Match(FRESH, "@asst Work complete.", quota);
            done.state == Completed && Match(done, "@asst BLOCKED: tests failed", quota).state == Blocked
  {
    hide Match;
    CompleteLine(FRESH, quota);
    BlockedLine(Match(FRESH, "@asst Work complete.", quota), quota);
  }

  lemma CompleteLine(r: Record, quota: QuotaReader)
    ensures Match(r, "@asst Work complete.", quota).state == Completed
  {
    hide BlockedCause, Trim, After;
    var line := "@asst Work complete.";
    assert Stripped(line) == "Work complete.";
    StartsApart(Stripped(line));
  }

  lemma BlockedLine(r: Record, quota: QuotaReader)
    ensures Match(r, "@asst BLOCKED: tests failed", quota).state == Blocked
  {
    hide Match;
    var line := "@asst BLOCKED: tests failed";
    assert Stripped(line) == "BLOCKED: tests failed";
    BlockedStarts(r, line, quota);
  }

  lemma BlockedStarts(r: Record, line: string, quota: QuotaReader)
    requires SentinelAtLineStart(line, BLOCKED)
    ensures Match(r, line, quota).state == Blocked
  {
    hide BlockedCause, Trim, After;
    StartsApart(Stripped(line));
  }

  // ---- a run the harness stopped at a cap ----

  lemma BlockedLineBlocks(r: Record, text: string, quota: QuotaReader)
    requires HasPrefix(text, BLOCKED)
    ensures var line := Render(Tagged(Assistant, text));
            Match(r, line, quota).state == Blocked && Match(r, line, quota).cause == Some(BlockedCause(line, quota))
  {
    var line := Render(Tagged(Assistant, text));
    assert Stripped(line) == text;
    StartsApart(text);
  }

  lemma DoneLineIsIgnored(r: Record, quota: QuotaReader)
    ensures Match(r, Render(Tagged(Role.Done, "completed")), quota) == r
  {
    var line := Render(Tagged(Role.Done, "completed"));
    assert Stripped(line) == "completed";
    StartsApart("completed");
  }

  lemma OneLineOf(text: string)
    requires text != "" && NoBreak(text)
    ensures AsstLines(NonEmptyLines(text)) == [Tagged(Assistant, text)]
  {
    SplitWhole(text);
    var one: seq<string> := [text];
    assert one[1..] == [];
    assert NonEmpty(one) == one;
  }

  lemma OneLineText(text: string)
    requires text != "" && NoBreak(text)
    ensures FeedAll("", AssistantEvents(text, []) + [DONE]).lines == [Tagged(Assistant, text), Tagged(Role.Done, "completed")]
  {
    hide FeedAll, AssistantEvents;
    MessageRoundTrip(text, []);
    OneLineOf(text);
    FeedAllAppend("", AssistantEvents(text, []), [DONE]);
    FeedOne("", DONE);
  }

  lemma ClosingLines(before: seq<RawLine>, text: string)
    requires FeedAll("", before).pending == "" && text != "" && NoBreak(text)
    ensures FeedAll("", before + AssistantEvents(text, []) + [DONE]).lines ==
            FeedAll("", before).lines + [Tagged(Assistant, text), Tagged(Role.Done, "completed")]
  {
    hide FeedAll, AssistantEvents;
    var closing := AssistantEvents(text, []) + [DONE];
    assert before + AssistantEvents(text, []) + [DONE] == before + closing;
    FeedAllAppend("", before, closing);
    OneLineText(text);
  }

  // A closing "@asst BLOCKED:" line and the "@done" line after it.
  lemma ClosingMatch(r: Record, text: string)
    requires HasPrefix(text, BLOCKED)
    ensures var end := MatchAll(r, [Tagged(Assistant, text), Tagged(Role.Done, "completed")], NoQuota);
            end.state == Blocked && end.cause == Some(Cause("blocked", Cut(Trim(text[|BLOCKED|..]))))
  {
    hide MatchAll, Match;
    var line := Render(Tagged(Assistant, text));
    MatchTwo(r, Tagged(Assistant, text), Tagged(Role.Done, "completed"));
    BlockedLineBlocks(r, text, NoQuota);
    DoneLineIsIgnored(Match(r, line, NoQuota), NoQuota);
    assert Stripped(line) == text;
    PayloadFollowsSentinel(line, BLOCKED);
  }

  // The record a whole goroutine leaves.
  function SessionRecord(raws: seq<RawLine>, u: Setup, t: Reading, exit: Exit): Record {
    Ended(FRESH, LinesRead(FRESH, "", raws, u, t), u, exit, None)
  }

  function HarnessSetup(execute: bool, marks: string -> bool): Setup {
    Setup(NoQuota, execute, marks)
  }

  // Where a stopped session ends, from the state its lines left.
  function StoppedState(read: State): State {
    if read.PausedForQuestion? || read.NeedsPR? then read else Completed
  }

  // A session that a pull-request line stopped never ends failed; with a failing exit, no other
  // session ends completed.
  lemma StoppedEnds(lines: seq<Line>, u: Setup, exit: Exit)
    ensures var read, r := MatchAll(FRESH, lines, u.quota), Ended(FRESH, lines, u, exit, None);
            && (KilledIn(FRESH, lines, u) ==> r.state == StoppedState(read.state) && r.cause == read.cause)
            && (!KilledIn(FRESH, lines, u) && exit.Error? ==> r.state in {Failed, PausedForQuestion, NeedsPR})
            && r.state in {Completed, Failed, PausedForQuestion, NeedsPR}
  {
    hide Match, KilledIn;
    ReachableKept(FRESH, lines, u.quota);
  }

  lemma BlockedClosing(raws: seq<RawLine>, text: string)
    requires EndsWith(raws, text) && HasPrefix(text, BLOCKED) && NoBreak(text)
    ensures var r := MatchAll(FRESH, FeedAll("", raws).lines, NoQuota);
            r.state == Blocked && r.cause == Some(Cause("blocked", Cut(Trim(text[|BLOCKED|..]))))
  {
    hide AssistantEvents, MatchAll, FeedAll, NoBreak, HasPrefix, Trim;
    var before :| raws == before + AssistantEvents(text, []) + [DONE] && FeedAll("", before).pending == "";
    assert text != "" by { BlockedNotEmpty(text); }
    ClosingLines(before, text);
    var last := [Tagged(Assistant, text), Tagged(Role.Done, "completed")];
    MatchAllAppend(FRESH, FeedAll("", before).lines, last, NoQuota);
    ClosingMatch(MatchAll(FRESH, FeedAll("", before).lines, NoQuota), text);
  }

  // A closing one-line BLOCKED message and a clean exit make the session failed, with the message as
  // its cause, exactly when no earlier line reports a pull request that stops it, provided nobody else
  // cancels it. A stopped session ends completed, paused or needs_pr.
  lemma ClosingBlockedFailsIff(raws: seq<RawLine>, text: string, execute: bool, marks: string -> bool, t: Reading)
    requires EndsWith(raws, text) && HasPrefix(text, BLOCKED) && NoBreak(text) && t.cancelSeen.None?
    ensures var u := HarnessSetup(execute, marks);
            var r := SessionRecord(raws, u, t, Clean);
            var stopped := KilledIn(FRESH, FeedAll("", raws).lines, u);
            && (r.state == Failed <==> !stopped)
            && (!stopped ==> r.cause == Some(Cause("blocked", Cut(Trim(text[|BLOCKED|..])))))
            && (stopped ==> r.state == StoppedState(MatchAll(FRESH, LinesRead(FRESH, "", raws, u, t), NoQuota).state))
  {
    hide MatchAll, FeedAll, KilledIn, RawsRead, EndsWith, NoBreak, HasPrefix, Trim;
    var u := HarnessSetup(execute, marks);
    ReadUntilKilled(FRESH, "", raws, u, t);
    StoppedEnds(LinesRead(FRESH, "", raws, u, t), u, Clean);
    BlockedClosing(raws, text);
    assert raws[..|raws|] == raws;
  }

  lemma BlockedNotEmpty(text: string)
    requires HasPrefix(text, BLOCKED)
    ensures |text| >= |BLOCKED|
  {
  }

  lemma MatchTwo(r: Record, a: Line, b: Line)
    ensures MatchAll(r, [a, b], NoQuota) == Match(Match(r, Render(a), NoQuota), Render(b), NoQuota)
  {
    hide Match;
    var one: seq<Line> := [b];
    var two := [a, b];
    assert two[1..] == one && one[1..] == [];
    assert MatchAll(r, two, NoQuota) == MatchAll(Match(r, Render(a), NoQuota), one, NoQuota);
  }

  lemma CapTextBlocks(fixed: string, detail: string)
    ensures HasPrefix(BLOCKED + fixed + detail, BLOCKED)
    ensures NoBreak(fixed) && NoBreak(detail) ==> NoBreak(BLOCKED + fixed + detail)
  {
    assert NoBreak(BLOCKED);
  }

  lemma TurnCapTextBlocks(c: Config)
    ensures HasPrefix(TurnCapText(c), BLOCKED) && (NoBreak(c.turnCapDetail) ==> NoBreak(TurnCapText(c)))
  {
    hide HasPrefix;
    assert NoBreak(" harness turn cap reached (");
    hide NoBreak;
    CapTextBlocks(" harness turn cap reached (", c.turnCapDetail);
  }

  lemma TokenCapTextBlocks(c: Config)
    ensures HasPrefix(TokenCapText(c), BLOCKED) && (NoBreak(c.tokenCapDetail) ==> NoBreak(TokenCapText(c)))
  {
    hide HasPrefix;
    assert NoBreak(" harness input-token cap reached (");
    hide NoBreak;
    CapTextBlocks(" harness input-token cap reached (", c.tokenCapDetail);
  }

  // How Execute's outcome reaches the tailer: a cancelled context is an error, any other stop a clean exit.
  function HarnessExit(stop: Stop): Exit {
    if stop.Cancelled? then Exit.Error("context canceled", None, "") else Clean
  }

  // Everything a run prints.
  function RunOutput(c: Config, w: World, quote: string -> string, n: nat, stop: Stop): seq<RawLine> {
    Events(w, quote, Asked(w, n, stop)) + ClosingEvents(Closing(c, w, n, stop), stop)
  }

  function HarnessRecord(c: Config, w: World, quote: string -> string, n: nat, stop: Stop, u: Setup, t: Reading): Record {
    SessionRecord(RunOutput(c, w, quote, n, stop), u, t, HarnessExit(stop))
  }

  // A harness session from the first prompt to its final record.
  method HarnessSession(c: Config, w: World, quote: string -> string, execute: bool, marks: string -> bool, tail: Reading)
    returns (s: RuntimeSession, stop: Stop, n: nat)
    ensures fresh(s) && s.slotFreed == 1 && !s.registered
    ensures StopsIn(c, w, n, stop)
    ensures s.rec == HarnessRecord(c, w, quote, n, stop, HarnessSetup(execute, marks), tail)
  {
    hide Match, LinesRead, Events, ClosingEvents, Ended, EndEffects;
    var out, chats, spoken, used;
    out, stop, chats, spoken, used, n := Execute(c, w, quote);
    s := new RuntimeSession(HarnessSetup(execute, marks));
    s.TailAndParse(out, tail, HarnessExit(stop), None);
  }

  // A run stopped by the turn or token cap, and cancelled by nobody else, ends failed with cause
  // "blocked" exactly when no line of it reports a pull request that stops the session; otherwise it
  // ends completed, paused or needs_pr.
  lemma CapStopBlocksIff(c: Config, w: World, quote: string -> string, n: nat, stop: Stop,
                         execute: bool, marks: string -> bool, t: Reading)
    requires StopsIn(c, w, n, stop) && t.cancelSeen.None?
    requires (stop.TurnCap? && NoBreak(c.turnCapDetail)) || (stop.TokenCap? && NoBreak(c.tokenCapDetail))
    ensures var u, out := HarnessSetup(execute, marks), RunOutput(c, w, quote, n, stop);
            var r := HarnessRecord(c, w, quote, n, stop, u, t);
            var stopped := KilledIn(FRESH, FeedAll("", out).lines, u);
            && (BlockedFailure(r) <==> !stopped)
            && (stopped ==> r.state == StoppedState(MatchAll(FRESH, LinesRead(FRESH, "", out, u, t), NoQuota).state))
  {
    hide EndsWith, MatchAll, Match, FeedAll, Reported, GoodChats, Finalize, AssistantEvents, NoBreak, HasPrefix,
         TurnCapText, TokenCapText, Events, ClosingEvents, StopsIn, KilledIn, LinesRead, Ended;
    var m, closing := Asked(w, n, stop), Closing(c, w, n, stop);
    var out := RunOutput(c, w, quote, n, stop);
    OutcomeIsReported(c, w, quote, n, stop, out, ChatsOf(c, w, m),
                      Said(w, m) + (if closing.Some? then [closing.value] else []), Used(w, m));
    TurnCapTextBlocks(c);
    TokenCapTextBlocks(c);
    ClosingBlockedFailsIff(out, if stop.TurnCap? then TurnCapText(c) else TokenCapText(c), execute, marks, t);
  }

  // A cancelled run ends completed exactly when a line it reads stops the session and the lines leave
  // neither a question nor needs_pr; when nobody else cancels it, exactly when a line of the whole
  // run does. Otherwise it ends failed, paused or needs_pr.
  lemma CancelledEndsIff(c: Config, w: World, quote: string -> string, n: nat,
                         execute: bool, marks: string -> bool, t: Reading)
    ensures var u, out := HarnessSetup(execute, marks), RunOutput(c, w, quote, n, Cancelled);
            var r := HarnessRecord(c, w, quote, n, Cancelled, u, t);
            var lines := LinesRead(FRESH, "", out, u, t);
            && (r.state.Completed? <==> KilledIn(FRESH, lines, u) && StoppedState(MatchAll(FRESH, lines, NoQuota).state) == Completed)
            && r.state in {Completed, Failed, PausedForQuestion, NeedsPR}
            && (t.cancelSeen.None? ==> (KilledIn(FRESH, lines, u) <==> KilledIn(FRESH, FeedAll("", out).lines, u)))
  {
    hide MatchAll, FeedAll, KilledIn, RawsRead, Events, Ended;
    var u, out := HarnessSetup(execute, marks), RunOutput(c, w, quote, n, Cancelled);
    StoppedEnds(LinesRead(FRESH, "", out, u, t), u, HarnessExit(Cancelled));
    if t.cancelSeen.None? {
      ReadUntilKilled(FRESH, "", out, u, t);
    }
  }

  // ---- a run that opens a pull request ----

  const PR_REPLY := "PR_OPENED: /pull/1"

  lemma ReplyKills(u: Setup)
    requires u.execute && u.marks("/pull/1")
    ensures Kills(FRESH, Render(Tagged(Assistant, PR_REPLY)), u)
    ensures Match(FRESH, Render(Tagged(Assistant, PR_REPLY)), u.quota) == FRESH
  {
    hide HasPullNumber, Trim, After;
    var line := Render(Tagged(Assistant, PR_REPLY));
    assert Stripped(line) == PR_REPLY;
    PayloadFollowsSentinel(line, PR_OPENED);
    assert PR_REPLY[|PR_OPENED|..] == "/pull/1";
    PullOne();
    PrLineKeepsRecord(FRESH, line, u.quota);
  }

  lemma PrLineKeepsRecord(r: Record, line: string, quota: QuotaReader)
    requires SentinelAtLineStart(line, PR_OPENED)
    ensures Match(r, line, quota) == r
  {
    hide BlockedCause, Trim, After;
    StartsApart(Stripped(line));
  }

  lemma PullOne()
    ensures Trim("/pull/1") == "/pull/1" && HasPullNumber("/pull/1")
  {
    var url := "/pull/1";
    assert url[..6] == "/pull/" && url[6..] == "1";
    assert DigitRun("1") == "1" by {
      assert "1"[1..] == "" && DigitRun("") == "";
    }
    assert "1"[..0] == "" && NumberOf("1") == 1;
  }

  lemma InitIsIgnored(u: Setup)
    ensures var lines := FeedRaw("", INIT).lines;
            FeedRaw("", INIT).pending == "" && MatchAll(FRESH, lines, u.quota) == FRESH && !KilledIn(FRESH, lines, u)
  {
    hide SentinelAtLineStart, Trim, After, BlockedCause;
    var lines := FeedRaw("", INIT).lines;
    var line := Render(lines[0]);
    assert lines[1..] == [];
    StartsApart(Stripped(line));
    assert Stripped(line)[0] == 's';
    OtherStart(line);
  }

  // A line that starts with none of the sentinels' letters.
  lemma OtherStart(line: string)
    requires Stripped(line) != "" && Stripped(line)[0] !in {'B', 'N', 'W', 'F', 'P', 'Q'}
    ensures forall pat :: pat in {BLOCKED, NEEDS_PR, COMPLETE, FANOUT_WRITTEN, PR_OPENED, PLAN_WRITTEN, QUESTION, QUESTION_PENDING}
              ==> !SentinelAtLineStart(line, pat)
  {
    StartsApart(Stripped(line));
  }

  // The first reply reports a pull request: whatever the run does afterwards, running into a cap
  // included, the tailer stops there and the session ends completed without a cause.
  lemma PrOpenedRunCompletes(c: Config, w: World, quote: string -> string, n: nat, stop: Stop,
                             marks: string -> bool, t: Reading)
    requires StopsIn(c, w, n, stop) && marks("/pull/1")
    requires w.reply(0).Response? && w.reply(0).content == PR_REPLY && Asked(w, n, stop) > 0
    requires t.exitSeen >= 2 && (t.cancelSeen.Some? ==> t.cancelSeen.value >= 2)
    ensures HarnessRecord(c, w, quote, n, stop, HarnessSetup(true, marks), t) == FRESH.(state := Completed)
  {
    hide Events, ClosingEvents, FeedRaw, FeedAll, MatchAll, KilledIn, Kills, Match, RawsRead, AssistantEvents, StopsIn,
         HasPullNumber, Finalize, Reached;
    var u, out := HarnessSetup(true, marks), RunOutput(c, w, quote, n, stop);
    var told := Delta(WithNewline(PR_REPLY));
    StartOfRun(w, quote, Asked(w, n, stop));
    assert out[0] == INIT && out[1] == told;
    FirstTwoRead(out, told, u, t);
    var lines := LinesRead(FRESH, "", out, u, t);
    AllReached(FRESH, lines, NoQuota, None);
    CompletesWhenStopped(HarnessExit(stop));
  }

  lemma CompletesWhenStopped(exit: Exit)
    ensures Finalize(FRESH, exit, true) == FRESH.(state := Completed)
  {
  }

  // A run whose first reply is PR_REPLY starts with the init event and the reply's text.
  lemma {:induction false} StartOfRun(w: World, quote: string -> string, m: nat)
    requires m > 0 && w.reply(0).Response? && w.reply(0).content == PR_REPLY
    ensures |Events(w, quote, m)| >= 2 && Events(w, quote, m)[0] == INIT && Events(w, quote, m)[1] == Delta(WithNewline(PR_REPLY))
  {
    hide ToolsRun, CallEvents, ToolEvents, WithNewline;
    if m == 1 {
      assert Events(w, quote, 0) == [INIT];
      assert TurnEvents(w, quote, 0)[0] == Delta(WithNewline(PR_REPLY));
    } else {
      hide TurnEvents;
      StartOfRun(w, quote, m - 1);
    }
  }

  lemma LineSpoken(text: string)
    requires text != "" && NoBreak(text)
    ensures FeedRaw("", Delta(WithNewline(text))) == Fed("", [Tagged(Assistant, text)])
  {
    hide NoBreak, ClosedLines, AsstLines, NonEmptyLines;
    NewlineClosesText(text);
    OneLineOf(text);
    var body := WithNewline(text);
    assert "" + body == body;
    assert AsstLines(ClosedLines(body)) + [] == AsstLines(ClosedLines(body));
  }

  lemma ReplyLine()
    ensures FeedRaw("", Delta(WithNewline(PR_REPLY))) == Fed("", [Tagged(Assistant, PR_REPLY)])
  {
    hide FeedRaw, WithNewline;
    assert NoBreak(PR_REPLY);
    LineSpoken(PR_REPLY);
  }

  lemma FirstTwoRead(raws: seq<RawLine>, told: RawLine, u: Setup, t: Reading)
    requires |raws| >= 2 && raws[0] == INIT && raws[1] == told && told == Delta(WithNewline(PR_REPLY))
    requires t.exitSeen >= 2 && (t.cancelSeen.Some? ==> t.cancelSeen.value >= 2)
    requires u.execute && u.marks("/pull/1")
    ensures var lines := LinesRead(FRESH, "", raws, u, t); KilledIn(FRESH, lines, u) && MatchAll(FRESH, lines, u.quota) == FRESH
  {
    hide FeedRaw, MatchAll, KilledIn, RawsRead, FeedAll, WithNewline;
    InitIsIgnored(u);
    ReplyStops(u);
    var first := FeedRaw("", INIT).lines;
    var second := FeedRaw("", told).lines;
    RawsReadStep(FRESH, "", raws, u, t);
    RawsReadStep(FRESH, "", raws[1..], u, Later(t));
    assert RawsRead(FRESH, "", raws, u, t) == 2;
    LinesOfFirst("", raws, 2);
    assert raws[1..][..1] == [told];
    FeedOne("", told);
    KilledInAppend(FRESH, first, second, u);
    MatchAllAppend(FRESH, first, second, u.quota);
  }

  lemma ReplyStops(u: Setup)
    requires u.execute && u.marks("/pull/1")
    ensures var lines := FeedRaw("", Delta(WithNewline(PR_REPLY))).lines;
            KilledIn(FRESH, lines, u) && MatchAll(FRESH, lines, u.quota) == FRESH
  {
    hide FeedRaw, MatchAll, KilledIn, Kills, Match, WithNewline, HasPullNumber;
    ReplyLine();
    ReplyKills(u);
    var said := Tagged(Assistant, PR_REPLY);
    MatchNone(FRESH, u);
    KilledByLast(FRESH, [], said, u);
    LineAppends(FRESH, [], said, u.quota);
    assert [] + [said] == [said];
  }

  ghost predicate BlockedFailure(r: Record) {
    r.state == Failed && r.cause.Some? && r.cause.value.kind == "blocked"
  }
}
