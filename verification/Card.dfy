// From stored sessions and the assembler's caches to one card state
// (internal/issueview/assembler.go, internal/cardstate/cardstate.go).
module Card {
  import opened Options
  import PrSignals
  import Ranking
  import SessionMachine

  datatype Mode = PlanMode | ExecuteMode

  datatype Session = Session(
    id: string,
    mode: Mode,
    state: SessionMachine.State,
    startedAt: int,
    acknowledgedAt: Option<int>,
    blockedReason: string,
    cause: Option<SessionMachine.Cause>)

  datatype Plan = Plan(ready: bool, approved: bool)

  datatype Issue = Issue(
    column: string,
    pr: Option<int>,
    waitingForPool: bool,
    needsPr: bool,
    waitingForDep: bool)

  // ---- selectSessions ----

  predicate IsLive(s: Session) {
    s.state.Running? || s.state.WaitingForInput?
  }

  predicate IsPaused(s: Session) {
    s.state.PausedForQuestion?
  }

  predicate Unacknowledged(s: Session) {
    s.acknowledgedAt.None? || s.acknowledgedAt.value == 0
  }

  predicate IsFailure(s: Session) {
    (s.state.Failed? || s.state.Blocked?) && (s.blockedReason != "" || s.cause.Some?) && Unacknowledged(s)
  }

  predicate IsCompleted(s: Session) {
    s.state.Completed?
  }

  predicate IsEnded(s: Session) {
    s.state.Completed? || s.state.Failed? || s.state.Blocked?
  }

  function First(s: seq<Session>, p: Session -> bool): Option<Session> {
    if s == [] then None
    else
      var r := First(s[..|s| - 1], p);
      if r.Some? then r else if p(s[|s| - 1]) then Some(s[|s| - 1]) else None
  }

  // The one started last; of several, the one listed first.
  function Latest(s: seq<Session>, p: Session -> bool): Option<Session> {
    if s == [] then None
    else Later(Latest(s[..|s| - 1], p), s[|s| - 1], p(s[|s| - 1]))
  }

  function Later(r: Option<Session>, m: Session, counts: bool): Option<Session> {
    if counts && (r.None? || m.startedAt > r.value.startedAt) then Some(m) else r
  }

  datatype Selection = Selection(
    active: Option<Session>,
    paused: Option<Session>,
    lastFail: Option<Session>,
    lastSession: Option<Session>)

  function After(a: Option<Session>, b: Option<Session>): bool {
    a.Some? && b.Some? && a.value.startedAt > b.value.startedAt
  }

  function Select(column: string, sessions: seq<Session>): Selection {
    var failure := Latest(sessions, IsFailure);
    Selection(
      if column == "done" then None else First(sessions, IsLive),
      Latest(sessions, IsPaused),
      if column == "review" || column == "done" || After(Latest(sessions, IsCompleted), failure) then None else failure,
      Latest(sessions, IsEnded))
  }

  method SelectSessions(column: string, sessions: seq<Session>) returns (r: Selection)
    ensures r == Select(column, sessions)
  {
    var active: Option<Session>, paused: Option<Session> := None, None;
    var lastFail: Option<Session>, lastSession: Option<Session>, completed: Option<Session> := None, None, None;
    for i := 0 to |sessions|
      invariant active == First(sessions[..i], IsLive)
      invariant paused == Latest(sessions[..i], IsPaused)
      invariant lastFail == Latest(sessions[..i], IsFailure)
      invariant completed == Latest(sessions[..i], IsCompleted)
      invariant lastSession == Latest(sessions[..i], IsEnded)
    {
      var m := sessions[i];
      assert sessions[..i + 1][..i] == sessions[..i];
      if m.state.PausedForQuestion? {
        if paused.None? || m.startedAt > paused.value.startedAt {
          paused := Some(m);
        }
        continue;
      }
      if m.state.Running? || m.state.WaitingForInput? {
        if active.None? {
          active := Some(m);
        }
        continue;
      }
      var hasSignal := m.blockedReason != "" || m.cause.Some?;
      if (m.state.Failed? || m.state.Blocked?) && hasSignal && Unacknowledged(m) {
        if lastFail.None? || m.startedAt > lastFail.value.startedAt {
          lastFail := Some(m);
        }
      }
      if m.state.Blocked? {
        if lastSession.None? || m.startedAt > lastSession.value.startedAt {
          lastSession := Some(m);
        }
        continue;
      }
      if m.state.Completed? {
        if completed.None? || m.startedAt > completed.value.startedAt {
          completed := Some(m);
        }
      }
      if m.state.Completed? || m.state.Failed? {
        if lastSession.None? || m.startedAt > lastSession.value.startedAt {
          lastSession := Some(m);
        }
      }
    }
    assert sessions[..|sessions|] == sessions;
    if lastFail.Some? && (column == "review" || column == "done") {
      lastFail := None;
    }
    if lastFail.Some? && completed.Some? && completed.value.startedAt > lastFail.value.startedAt {
      lastFail := None;
    }
    if active.Some? && column == "done" {
      active := None;
    }
    r := Selection(active, paused, lastFail, lastSession);
  }

  ghost predicate FirstAt(s: seq<Session>, p: Session -> bool, k: nat)
    requires k < |s|
  {
    p(s[k]) && forall j :: 0 <= j < k ==> !p(s[j])
  }

  // What First and Latest mean, without the order of the walk.
  lemma {:induction false} FirstMeans(s: seq<Session>, p: Session -> bool)
    ensures First(s, p).None? <==> forall k :: 0 <= k < |s| ==> !p(s[k])
    ensures First(s, p).Some? ==> exists k :: 0 <= k < |s| && s[k] == First(s, p).value && FirstAt(s, p, k)
  {
    if s != [] {
      var init := s[..|s| - 1];
      FirstMeans(init, p);
      assert forall k :: 0 <= k < |s| - 1 ==> init[k] == s[k];
      if First(init, p).Some? {
        var k :| 0 <= k < |init| && init[k] == First(init, p).value && FirstAt(init, p, k);
        assert FirstAt(s, p, k);
      } else if p(s[|s| - 1]) {
        assert FirstAt(s, p, |s| - 1);
      }
    }
  }

  ghost predicate LatestAt(s: seq<Session>, p: Session -> bool, k: nat)
    requires k < |s|
  {
    && p(s[k])
    && (forall j :: 0 <= j < |s| && p(s[j]) ==> s[j].startedAt <= s[k].startedAt)
    && (forall j :: 0 <= j < k && p(s[j]) ==> s[j].startedAt < s[k].startedAt)
  }

  lemma {:induction false} LatestMeans(s: seq<Session>, p: Session -> bool)
    ensures Latest(s, p).None? <==> forall k :: 0 <= k < |s| ==> !p(s[k])
    ensures Latest(s, p).Some? ==> exists k :: 0 <= k < |s| && s[k] == Latest(s, p).value && LatestAt(s, p, k)
  {
    if s != [] {
      var init, last := s[..|s| - 1], s[|s| - 1];
      LatestMeans(init, p);
      assert forall k :: 0 <= k < |s| - 1 ==> init[k] == s[k];
      if Latest(init, p).Some? {
        var k :| 0 <= k < |init| && init[k] == Latest(init, p).value && LatestAt(init, p, k);
        if p(last) && last.startedAt > init[k].startedAt {
          assert LatestAt(s, p, |s| - 1);
        } else {
          assert LatestAt(s, p, k);
        }
      } else if p(last) {
        assert LatestAt(s, p, |s| - 1);
      }
    }
  }

  lemma LatestIn(s: seq<Session>, p: Session -> bool)
    ensures Latest(s, p).Some? ==> Latest(s, p).value in s && p(Latest(s, p).value)
    ensures Latest(s, p).Some? ==> forall x :: x in s && p(x) ==> x.startedAt <= Latest(s, p).value.startedAt
    ensures Latest(s, p).None? ==> forall x :: x in s ==> !p(x)
  {
    LatestMeans(s, p);
    if Latest(s, p).Some? {
      var k :| 0 <= k < |s| && s[k] == Latest(s, p).value && LatestAt(s, p, k);
    }
  }

  // The walk matters only for ties: any order of sessions with distinct start times selects the same.
  lemma LatestIgnoresOrder(s: seq<Session>, t: seq<Session>, p: Session -> bool)
    requires forall x :: x in s <==> x in t
    requires forall x, y :: x in s && y in s && x.startedAt == y.startedAt ==> x == y
    ensures Latest(s, p) == Latest(t, p)
  {
    LatestIn(s, p);
    LatestIn(t, p);
  }

  // ---- derivePlanFailed ----

  predicate IsPlanCompleted(s: Session) {
    s.mode.PlanMode? && s.state.Completed?
  }

  predicate IsPlanFailure(s: Session) {
    s.mode.PlanMode? && s.state.Failed? && s.blockedReason == "" && Unacknowledged(s)
  }

  function PlanFailure(column: string, sessions: seq<Session>, active: Option<Session>): Option<Session> {
    var failure := Latest(sessions, IsPlanFailure);
    if column == "review" || column == "done" then None
    else if active.Some? && active.value.mode.PlanMode? then None
    else if After(Latest(sessions, IsPlanCompleted), failure) then None
    else failure
  }

  method DerivePlanFailed(column: string, sessions: seq<Session>, active: Option<Session>) returns (r: Option<Session>)
    ensures r == PlanFailure(column, sessions, active)
  {
    if column == "review" || column == "done" {
      return None;
    }
    if active.Some? && active.value.mode.PlanMode? {
      return None;
    }
    var candidate: Option<Session>, completed: Option<Session> := None, None;
    for i := 0 to |sessions|
      invariant candidate == Latest(sessions[..i], IsPlanFailure)
      invariant completed == Latest(sessions[..i], IsPlanCompleted)
    {
      var s := sessions[i];
      assert sessions[..i + 1][..i] == sessions[..i];
      if !s.mode.PlanMode? {
        continue;
      }
      if s.state.Completed? {
        if completed.None? || s.startedAt > completed.value.startedAt {
          completed := Some(s);
        }
      }
      if !s.state.Failed? || s.blockedReason != "" {
        continue;
      }
      if !Unacknowledged(s) {
        continue;
      }
      if candidate.None? || s.startedAt > candidate.value.startedAt {
        candidate := Some(s);
      }
    }
    assert sessions[..|sessions|] == sessions;
    if candidate.None? {
      return None;
    }
    if completed.Some? && completed.value.startedAt > candidate.value.startedAt {
      return None;
    }
    return candidate;
  }

  // ---- derivedColumn ----

  predicate AwaitsApproval(plan: Option<Plan>) {
    plan.Some? && plan.value.ready && !plan.value.approved
  }

  function DerivedColumn(iss: Issue, plan: Option<Plan>, active: Option<Session>, lastFail: Option<Session>): string {
    if iss.pr.Some? then (if iss.column == "" then "review" else iss.column)
    else if active.Some? then (if active.value.mode.PlanMode? then "plan" else "in_progress")
    else if lastFail.Some? && lastFail.value.mode.ExecuteMode? && Unacknowledged(lastFail.value) then "blocked"
    else if AwaitsApproval(plan) then "plan"
    else if iss.column == "" then "todo"
    else iss.column
  }

  // ---- DeriveCardState ----

  datatype CardState =
    | Todo | PlanReady | Planning | NeedsAnswer | InProgress | Blocked | WaitingForPool | NeedsPR
    | OrphanQuestion | MergeConflict | TestsFailing | PlanFailed | Review | Done | RetryScheduled | WaitingForDep

  datatype Params = Params(
    column: string,
    pr: Option<int>,
    waitingForPool: bool,
    active: Option<Session>,
    paused: Option<Session>,
    lastFail: Option<Session>,
    plan: Option<Plan>,
    needsPr: bool,
    testsFailing: bool,
    conflicts: bool,
    orphanQuestion: bool,
    planFailed: Option<Session>,
    pendingRetry: bool,
    waitingForDep: bool)

  // The state, and the session it is about.
  function DeriveCardState(p: Params): (CardState, Option<Session>) {
    if p.column == "done" then (Done, None)
    else if p.paused.Some? then (if p.orphanQuestion then OrphanQuestion else PlanReady, p.paused)
    else if p.active.Some? then
      (if p.active.value.state.Blocked? then Blocked
       else if p.active.value.state.WaitingForInput? then NeedsAnswer
       else if p.active.value.mode.PlanMode? then Planning else InProgress, p.active)
    else if p.waitingForPool then (WaitingForPool, None)
    else if p.needsPr && p.pr.None? then (NeedsPR, None)
    else if p.conflicts && p.pr.Some? then (MergeConflict, None)
    else if p.testsFailing && p.pr.Some? then (TestsFailing, None)
    else if p.lastFail.Some? then (if p.pendingRetry then RetryScheduled else Blocked, p.lastFail)
    else if p.planFailed.Some? then (PlanFailed, p.planFailed)
    else if AwaitsApproval(p.plan) && p.column != "review" && p.column != "done" then (PlanReady, None)
    else if p.waitingForDep && p.column == "review" then (WaitingForDep, None)
    else if p.column == "review" && p.pr.Some? then (Review, None)
    else (Todo, None)
  }

  // The assembler's in-memory signals about one issue.
  datatype Signals = Signals(testsFailing: bool, conflicts: bool, questionMissing: bool, pendingRetry: bool)

  function Assembled(iss: Issue, plan: Option<Plan>, sessions: seq<Session>, sig: Signals): Params {
    var sel := Select(iss.column, sessions);
    Params(DerivedColumn(iss, plan, sel.active, sel.lastFail), iss.pr, iss.waitingForPool,
           sel.active, sel.paused, sel.lastFail, plan, iss.needsPr,
           sig.testsFailing, sig.conflicts, sel.paused.Some? && sig.questionMissing,
           PlanFailure(iss.column, sessions, sel.active), sig.pendingRetry, iss.waitingForDep)
  }

  function StateOf(iss: Issue, plan: Option<Plan>, sessions: seq<Session>, sig: Signals): CardState {
    DeriveCardState(Assembled(iss, plan, sessions, sig)).0
  }

  method Assemble(iss: Issue, plan: Option<Plan>, sessions: seq<Session>, sig: Signals)
    returns (state: CardState, about: Option<Session>)
    ensures (state, about) == DeriveCardState(Assembled(iss, plan, sessions, sig))
  {
    hide Select, PlanFailure, DeriveCardState;
    var sel := SelectSessions(iss.column, sessions);
    var planFailed := DerivePlanFailed(iss.column, sessions, sel.active);
    var column := DerivedColumn(iss, plan, sel.active, sel.lastFail);
    var r := DeriveCardState(Params(column, iss.pr, iss.waitingForPool, sel.active, sel.paused, sel.lastFail, plan,
                                    iss.needsPr, sig.testsFailing, sig.conflicts,
                                    sel.paused.Some? && sig.questionMissing, planFailed,
                                    sig.pendingRetry, iss.waitingForDep));
    state, about := r.0, r.1;
  }

  // ---- the ladder ----

  // The precedence, rung by rung: the documented one, with the rungs for a pending retry and for an
  // open dependency that the code adds.
  datatype Rung =
    | DoneColumn | PausedOrphan | PausedQuestion | ActiveWaiting | ActivePlan | ActiveExecute | PoolQueue | PrNeeded
    | ConflictingPr | FailingPr | FailureWithRetry | Failure | SilentPlanFailure | PlanToApprove | OpenDep | InReview | Resting

  function Place(r: Rung): nat {
    match r
    case DoneColumn => 1
    case PausedOrphan => 2
    case PausedQuestion => 3
    case ActiveWaiting => 5
    case ActivePlan => 6
    case ActiveExecute => 7
    case PoolQueue => 8
    case PrNeeded => 9
    case ConflictingPr => 10
    case FailingPr => 11
    case FailureWithRetry => 12
    case Failure => 13
    case SilentPlanFailure => 14
    case PlanToApprove => 15
    case OpenDep => 16
    case InReview => 17
    case Resting => 18
  }

  // What each rung shows, and when it applies on its own.
  function Shows(r: Rung): CardState {
    match r
    case DoneColumn => Done
    case PausedOrphan => OrphanQuestion
    case PausedQuestion => PlanReady
    case ActiveWaiting => NeedsAnswer
    case ActivePlan => Planning
    case ActiveExecute => InProgress
    case PoolQueue => WaitingForPool
    case PrNeeded => NeedsPR
    case ConflictingPr => MergeConflict
    case FailingPr => TestsFailing
    case FailureWithRetry => RetryScheduled
    case Failure => Blocked
    case SilentPlanFailure => PlanFailed
    case PlanToApprove => PlanReady
    case OpenDep => WaitingForDep
    case InReview => Review
    case Resting => Todo
  }

  predicate Applies(p: Params, r: Rung) {
    match r
    case DoneColumn => p.column == "done"
    case PausedOrphan => p.paused.Some? && p.orphanQuestion
    case PausedQuestion => p.paused.Some?
    case ActiveWaiting => p.active.Some? && p.active.value.state.WaitingForInput?
    case ActivePlan => p.active.Some? && p.active.value.mode.PlanMode?
    case ActiveExecute => p.active.Some?
    case PoolQueue => p.waitingForPool
    case PrNeeded => p.needsPr && p.pr.None?
    case ConflictingPr => p.conflicts && p.pr.Some?
    case FailingPr => p.testsFailing && p.pr.Some?
    case FailureWithRetry => p.lastFail.Some? && p.pendingRetry
    case Failure => p.lastFail.Some?
    case SilentPlanFailure => p.planFailed.Some?
    case PlanToApprove => AwaitsApproval(p.plan) && p.column != "review"
    case OpenDep => p.waitingForDep && p.column == "review"
    case InReview => p.column == "review" && p.pr.Some?
    case Resting => true
  }

  // The first rung that applies to p.
  function RungOf(p: Params): Rung {
    if p.column == "done" then DoneColumn
    else if p.paused.Some? then (if p.orphanQuestion then PausedOrphan else PausedQuestion)
    else if p.active.Some? then
      (if Applies(p, ActiveWaiting) then ActiveWaiting else if Applies(p, ActivePlan) then ActivePlan else ActiveExecute)
    else if p.waitingForPool then PoolQueue
    else if Applies(p, PrNeeded) then PrNeeded
    else if Applies(p, ConflictingPr) then ConflictingPr
    else if Applies(p, FailingPr) then FailingPr
    else if p.lastFail.Some? then (if p.pendingRetry then FailureWithRetry else Failure)
    else if p.planFailed.Some? then SilentPlanFailure
    else if Applies(p, PlanToApprove) then PlanToApprove
    else if Applies(p, OpenDep) then OpenDep
    else if Applies(p, InReview) then InReview else Resting
  }

  lemma RungIsFirst(p: Params, other: Rung)
    requires Applies(p, other)
    ensures Applies(p, RungOf(p)) && Place(RungOf(p)) <= Place(other)
  {
  }

  lemma RungIsShown(p: Params)
    requires p.active.Some? ==> IsLive(p.active.value)
    ensures DeriveCardState(p).0 == Shows(RungOf(p))
  {
  }

  // The state shown is that of the first rung that applies, for every card the assembler puts
  // together: the documented fourth rung, an active session that is blocked, does not occur.
  lemma FirstRung(iss: Issue, plan: Option<Plan>, sessions: seq<Session>, sig: Signals) returns (r: Rung)
    ensures var p := Assembled(iss, plan, sessions, sig);
            && Applies(p, r) && StateOf(iss, plan, sessions, sig) == Shows(r)
            && forall other :: Applies(p, other) ==> Place(r) <= Place(other)
  {
    hide First, Latest, PlanFailure, DerivedColumn, RungOf, Applies, Place, Shows, DeriveCardState;
    FirstMeans(sessions, IsLive);
    var p := Assembled(iss, plan, sessions, sig);
    r := RungOf(p);
    RungIsShown(p);
    forall other | Applies(p, other) ensures Place(r) <= Place(other) {
      RungIsFirst(p, other);
    }
    RestingApplies(p);
    RungIsFirst(p, Resting);
  }

  lemma RestingApplies(p: Params)
    ensures Applies(p, Resting)
  {
  }

  // ---- what the ladder can show ----

  // A blocked card is about a failed or blocked session that has not been acknowledged: the arm for
  // an active blocked session is never taken.
  lemma BlockedMeansFailure(iss: Issue, plan: Option<Plan>, sessions: seq<Session>, sig: Signals)
    ensures var p := Assembled(iss, plan, sessions, sig);
            && (p.active.Some? ==> IsLive(p.active.value) && p.active.value in sessions)
            && (DeriveCardState(p).0 == Blocked ==>
                  p.active.None? && p.lastFail.Some? && DeriveCardState(p).1 == p.lastFail
                  && IsFailure(p.lastFail.value) && p.lastFail.value in sessions)
  {
    hide DerivedColumn, PlanFailure;
    FirstMeans(sessions, IsLive);
    LatestMeans(sessions, IsFailure);
  }

  // A card shows done exactly when it is in DONE and has a pull request or no plan awaiting approval;
  // neither sessions nor signals count.
  lemma DoneIff(iss: Issue, plan: Option<Plan>, sessions: seq<Session>, sig: Signals)
    ensures StateOf(iss, plan, sessions, sig) == Done <==>
            iss.column == "done" && (iss.pr.Some? || !AwaitsApproval(plan))
  {
    hide First, Latest, PlanFailure;
  }

  // Otherwise a card in DONE shows its paused question, or its waiting flags, or the plan.
  lemma DoneWithPendingPlan(iss: Issue, plan: Option<Plan>, sessions: seq<Session>, sig: Signals)
    requires iss.column == "done" && StateOf(iss, plan, sessions, sig) != Done
    ensures StateOf(iss, plan, sessions, sig) in {OrphanQuestion, PlanReady, WaitingForPool, NeedsPR}
    ensures StateOf(iss, plan, sessions, sig) == PlanReady <==>
            if exists s :: s in sessions && IsPaused(s) then !sig.questionMissing else !iss.waitingForPool && !iss.needsPr
  {
    hide First, Latest;
    LatestMeans(sessions, IsPaused);
    if s :| s in sessions && IsPaused(s) {
      var k :| 0 <= k < |sessions| && sessions[k] == s;
    }
  }

  // A failed plan shows as such only when it left no cause, as a crash of the session does, or when
  // an execute session completed after it; with a cause it otherwise shows as blocked.
  lemma PlanFailedNeeds(iss: Issue, plan: Option<Plan>, sessions: seq<Session>, sig: Signals)
    requires StateOf(iss, plan, sessions, sig) == PlanFailed
    ensures exists failed :: failed in sessions && IsPlanFailure(failed)
              && (failed.cause.None? || ExecutedSince(sessions, failed))
  {
    hide First, Latest, DerivedColumn;
    LatestIn(sessions, IsPlanFailure);
    LatestIn(sessions, IsFailure);
    LatestIn(sessions, IsCompleted);
    LatestIn(sessions, IsPlanCompleted);
    var failed := Latest(sessions, IsPlanFailure).value;
    if failed.cause.Some? {
      assert IsFailure(failed);
      var done := Latest(sessions, IsCompleted).value;
      assert done.mode.PlanMode? ==> IsPlanCompleted(done);
      assert ExecutedSince(sessions, failed);
    }
  }

  // Without a pull request the derived column agrees with the state shown: the acknowledgement that
  // the column checks again has already been checked.
  lemma ColumnMatchesState(iss: Issue, plan: Option<Plan>, sessions: seq<Session>, sig: Signals)
    requires iss.pr.None?
    ensures var p := Assembled(iss, plan, sessions, sig);
            var state := StateOf(iss, plan, sessions, sig);
            && (state == Planning ==> p.column == "plan")
            && (state == InProgress ==> p.column == "in_progress")
            && (state == PlanReady && p.paused.None? ==> p.column == "plan")
            && (state in {Blocked, RetryScheduled} && p.lastFail.Some? && p.lastFail.value.mode.ExecuteMode? ==> p.column == "blocked")
            && (state == Done ==> p.column == iss.column)
  {
    hide First, Latest, PlanFailure;
    BlockedMeansFailure(iss, plan, sessions, sig);
    LatestIn(sessions, IsFailure);
  }

  ghost predicate ExecutedSince(sessions: seq<Session>, failed: Session) {
    exists done :: done in sessions && IsCompleted(done) && done.mode.ExecuteMode? && done.startedAt > failed.startedAt
  }

  ghost predicate NoneCompletedSince(sessions: seq<Session>, failed: Session) {
    forall s :: s in sessions && IsCompleted(s) ==> s.startedAt <= failed.startedAt
  }

  // A retry countdown shows only over a failure: a pending retry alone shows nothing.
  lemma RetryNeedsFailure(iss: Issue, plan: Option<Plan>, sessions: seq<Session>, sig: Signals)
    requires iss.column != "done" && iss.pr.None? && !iss.waitingForPool && !iss.needsPr
    requires forall s :: s in sessions ==> !IsLive(s) && !IsPaused(s)
    ensures StateOf(iss, plan, sessions, sig) == RetryScheduled <==>
            && sig.pendingRetry && iss.column != "review"
            && exists failed :: failed in sessions && IsFailure(failed) && NoneCompletedSince(sessions, failed)
  {
    hide First, Latest, PlanFailure;
    FirstMeans(sessions, IsLive);
    LatestIn(sessions, IsPaused);
    LatestIn(sessions, IsFailure);
    LatestIn(sessions, IsCompleted);
    assert forall k :: 0 <= k < |sessions| ==> sessions[k] in sessions;
  }

  // ---- from the pull request to the card ----

  // The signals the assembler reads for one card.
  function SignalsOf(s: PrSignals.System, card: Ranking.Card, questionMissing: bool, pendingRetry: bool): Signals {
    Signals(card in s.checkFails, card in s.conflictFails, questionMissing, pendingRetry)
  }

  // End to end: after any sequence of looks, merges, closes and clears, if the last look at a pull
  // request found its checks failing, a card that is not done and has no session at work, none
  // paused and no place in the pool queue says so, unless it shows a conflict of that request.
  lemma FailingChecksReachTheCard(prs: PrSignals.Prs, steps: seq<PrSignals.Step>, card: Ranking.Card,
                                  iss: Issue, plan: Option<Plan>, sessions: seq<Session>,
                                  questionMissing: bool, pendingRetry: bool)
    requires PrSignals.OwnPrs(prs) && card in prs && forall step :: step in steps ==> step.card in prs
    requires var cached := PrSignals.Lookup(PrSignals.After(prs, steps).checkCache, PrSignals.KeyOf(prs, card));
             cached.Some? && cached.value.failed
    requires iss.pr == Some(prs[card]) && iss.column != "done" && !iss.waitingForPool
    requires forall s :: s in sessions ==> !IsLive(s) && !IsPaused(s)
    ensures var s := PrSignals.After(prs, steps);
            StateOf(iss, plan, sessions, SignalsOf(s, card, questionMissing, pendingRetry))
            == if card in s.conflictFails then MergeConflict else TestsFailing
  {
    hide First, Latest, PlanFailure, PrSignals.After;
    PrSignals.NoFailureLost(prs, steps, card);
    FirstMeans(sessions, IsLive);
    LatestIn(sessions, IsPaused);
    assert forall k :: 0 <= k < |sessions| ==> sessions[k] in sessions;
  }
}
