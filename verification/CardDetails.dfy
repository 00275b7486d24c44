// Which sessions a card is about, told from the list of its sessions
// (internal/issueview/assembler.go, internal/cardstate/cardstate.go).
module CardDetails {
  import opened Options
  import opened Card

  predicate Works(s: Session) {
    s.state.Running? || s.state.WaitingForInput?
  }

  predicate Pauses(s: Session) {
    s.state.PausedForQuestion?
  }

  // Failed or blocked with a reason, and not acknowledged.
  predicate Fails(s: Session) {
    && (s.state.Failed? || s.state.Blocked?)
    && (s.blockedReason != "" || s.cause != None)
    && (s.acknowledgedAt == None || s.acknowledgedAt == Some(0))
  }

  predicate Completes(s: Session) {
    s.state.Completed?
  }

  predicate Ends(s: Session) {
    s.state.Completed? || s.state.Failed? || s.state.Blocked?
  }

  // A failed plan without a reason, not acknowledged.
  predicate PlanFailsSilently(s: Session) {
    && s.mode.PlanMode? && s.state.Failed? && s.blockedReason == ""
    && (s.acknowledgedAt == None || s.acknowledgedAt == Some(0))
  }

  predicate PlanCompletes(s: Session) {
    s.mode.PlanMode? && s.state.Completed?
  }

  // The one listed first, if any counts.
  ghost predicate IsFirst(sessions: seq<Session>, counts: Session -> bool, r: Option<Session>) {
    if r.None? then forall s :: s in sessions ==> !counts(s)
    else exists k :: 0 <= k < |sessions| && sessions[k] == r.value && counts(sessions[k])
                     && forall j :: 0 <= j < k ==> !counts(sessions[j])
  }

  // The one started last, and of several the one listed first, if any counts.
  ghost predicate IsLatest(sessions: seq<Session>, counts: Session -> bool, r: Option<Session>) {
    if r.None? then forall s :: s in sessions ==> !counts(s)
    else exists k :: 0 <= k < |sessions| && sessions[k] == r.value && counts(sessions[k])
                     && (forall s :: s in sessions && counts(s) ==> s.startedAt <= sessions[k].startedAt)
                     && forall j :: 0 <= j < k && counts(sessions[j]) ==> sessions[j].startedAt < sessions[k].startedAt
  }

  lemma FirstIs(sessions: seq<Session>, p: Session -> bool, counts: Session -> bool)
    requires forall s :: p(s) <==> counts(s)
    ensures IsFirst(sessions, counts, First(sessions, p))
  {
    hide First;
    FirstMeans(sessions, p);
    if First(sessions, p).Some? {
      var k :| 0 <= k < |sessions| && sessions[k] == First(sessions, p).value && FirstAt(sessions, p, k);
      assert counts(sessions[k]);
    }
  }

  lemma LatestIs(sessions: seq<Session>, p: Session -> bool, counts: Session -> bool)
    requires forall s :: p(s) <==> counts(s)
    ensures IsLatest(sessions, counts, Latest(sessions, p))
  {
    hide Latest;
    LatestMeans(sessions, p);
    LatestIn(sessions, p);
    if Latest(sessions, p).Some? {
      var k :| 0 <= k < |sessions| && sessions[k] == Latest(sessions, p).value && LatestAt(sessions, p, k);
      assert counts(sessions[k]);
    }
  }

  // Some counted session started after t.
  ghost predicate SomeAfter(sessions: seq<Session>, counts: Session -> bool, t: int) {
    exists s :: s in sessions && counts(s) && s.startedAt > t
  }

  lemma AfterIff(sessions: seq<Session>, p: Session -> bool, counts: Session -> bool, failure: Option<Session>)
    requires forall s :: p(s) <==> counts(s)
    ensures After(Latest(sessions, p), failure) <==> failure.Some? && SomeAfter(sessions, counts, failure.value.startedAt)
  {
    hide Latest;
    LatestIn(sessions, p);
  }

  // What a card keeps of its sessions: at work, the first listed, unless the card is done; paused, ended
  // and failed, the last started. A failure no longer counts in review or done, or once a session
  // completed that was started after it.
  lemma SelectionIs(column: string, sessions: seq<Session>) returns (failure: Option<Session>)
    ensures var r := Select(column, sessions);
            && (if column == "done" then r.active == None else IsFirst(sessions, Works, r.active))
            && IsLatest(sessions, Pauses, r.paused)
            && IsLatest(sessions, Fails, failure)
            && (r.lastFail == if column == "review" || column == "done" || failure.None?
                                 || SomeAfter(sessions, Completes, failure.value.startedAt) then None else failure)
            && IsLatest(sessions, Ends, r.lastSession)
  {
    hide First, Latest, IsFirst, IsLatest, SomeAfter, After;
    failure := Latest(sessions, IsFailure);
    FirstIs(sessions, IsLive, Works);
    LatestIs(sessions, IsPaused, Pauses);
    LatestIs(sessions, IsFailure, Fails);
    LatestIs(sessions, IsEnded, Ends);
    AfterIff(sessions, IsCompleted, Completes, failure);
  }

  // The silent plan failure that shows: the last started, unless the card is in review or done, a plan
  // is at work, or a plan completed that was started after it.
  lemma PlanFailureIs(column: string, sessions: seq<Session>, active: Option<Session>) returns (failure: Option<Session>)
    ensures IsLatest(sessions, PlanFailsSilently, failure)
    ensures PlanFailure(column, sessions, active) ==
            if column == "review" || column == "done" || failure.None? || (active.Some? && active.value.mode.PlanMode?)
               || SomeAfter(sessions, PlanCompletes, failure.value.startedAt)
            then None else failure
  {
    hide Latest, IsLatest, SomeAfter, After;
    failure := Latest(sessions, IsPlanFailure);
    LatestIs(sessions, IsPlanFailure, PlanFailsSilently);
    AfterIff(sessions, IsPlanCompleted, PlanCompletes, failure);
  }

  // With a pull request the column is the stored one, or review when none is stored; without one a
  // session at work, an unacknowledged failure of an execute session and a plan to approve come first.
  lemma ColumnIs(iss: Issue, plan: Option<Plan>, active: Option<Session>, lastFail: Option<Session>)
    ensures var toApprove := plan.Some? && plan.value.ready && !plan.value.approved;
            var failed := lastFail.Some? && lastFail.value.mode.ExecuteMode?
                          && (lastFail.value.acknowledgedAt == None || lastFail.value.acknowledgedAt == Some(0));
            var column := DerivedColumn(iss, plan, active, lastFail);
            && (iss.pr.Some? ==> column == if iss.column == "" then "review" else iss.column)
            && (iss.pr.None? ==>
                  && (active.Some? ==> column == if active.value.mode.PlanMode? then "plan" else "in_progress")
                  && (active.None? && failed ==> column == "blocked")
                  && (active.None? && !failed && toApprove ==> column == "plan")
                  && (active.None? && !failed && !toApprove ==> column == if iss.column == "" then "todo" else iss.column))
  {
  }

  // The session a card is about: the paused, working or failed one its state names, the silent plan
  // failure, or none.
  lemma AboutIs(iss: Issue, plan: Option<Plan>, sessions: seq<Session>, sig: Signals)
    ensures var p := Assembled(iss, plan, sessions, sig);
            var (state, about) := DeriveCardState(p);
            match state
            case OrphanQuestion => about == p.paused && about.Some?
            case NeedsAnswer => about == p.active && about.Some? && p.paused.None?
            case Planning => about == p.active && about.Some? && p.paused.None?
            case InProgress => about == p.active && about.Some? && p.paused.None?
            case Blocked => about == p.lastFail && about.Some?
            case RetryScheduled => about == p.lastFail && about.Some?
            case PlanFailed => about == p.planFailed && about.Some?
            case PlanReady => about == p.paused
            case _ => about == None
  {
    hide First, Latest, PlanFailure, DerivedColumn;
    BlockedMeansFailure(iss, plan, sessions, sig);
  }
}
