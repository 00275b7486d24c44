// The retry scheduler (internal/retry/scheduler.go) and the assembler's copy of its queue
// (internal/issueview/assembler.go). Clock readings and jitter are parameters.
module Retry {
  import opened Options
  import opened Ranking
  import opened Backoff

  const GLOBAL_MAX_ATTEMPTS: int := 10
  const GLOBAL_MAX_WINDOW: int := 3_600_000_000_000

  datatype Policy = Policy(maxAttempts: int, base: int, max: int, jitterPct: int)

  const DEFAULT_POLICY: Policy := Policy(3, 10_000_000_000, 300_000_000_000, 25)

  function EffectivePolicy(ws: Option<Policy>): Policy {
    if ws.Some? then ws.value else DEFAULT_POLICY
  }

  datatype Failure = Failure(
    card: Card,
    session: string,
    retryAttempt: nat,        // of the failed session
    retryable: bool,
    retryAfter: Option<int>)

  // now is read once for the reset time and again for the due time.
  datatype Readings = Clock(now: int, later: int, rand: real)

  type Clock = c: Readings | c.now <= c.later witness Clock(0, 0, 0.0)

  // retryAfter is the reset time its cause names.
  datatype Pending = Pending(card: Card, attempt: int, maxAttempts: int, notBefore: int, prior: string, retryAfter: Option<int>)

  datatype Event =
    | Scheduled(p: Pending, at: int)
    | Fired(p: Pending)
    | Cancelled(p: Pending)
    | Exhausted(card: Card, attempts: int)

  function AboutCard(e: Event): Card {
    if e.Exhausted? then e.card else e.p.card
  }

  datatype State = State(pending: map<Card, Pending>, log: seq<Event>)

  // ---- Schedule ----

  function Delay(policy: Policy, attempt: int, retryAfter: Option<int>, clock: Clock): int {
    var d := Jittered(Capped(attempt, policy.base, policy.max), policy.jitterPct, clock.rand);
    if retryAfter.Some? && retryAfter.value - clock.now > d then retryAfter.value - clock.now else d
  }

  datatype Verdict = Refused | GaveUp | Accepted(p: Pending)

  function Decide(pending: map<Card, Pending>, policy: Policy, f: Failure, clock: Clock): Verdict {
    var cap := if policy.maxAttempts > GLOBAL_MAX_ATTEMPTS then GLOBAL_MAX_ATTEMPTS else policy.maxAttempts;
    var attempt := f.retryAttempt + 1;
    var delay := Delay(policy, attempt, f.retryAfter, clock);
    if !f.retryable || policy.maxAttempts == 0 then Refused
    else if attempt > cap || delay > GLOBAL_MAX_WINDOW then GaveUp
    else if f.card in pending then Refused
    else Accepted(Pending(f.card, attempt, cap, clock.later + delay, f.session, f.retryAfter))
  }

  datatype Op =
    | Schedule(policy: Policy, failure: Failure, clock: Clock)
    | Cancel(card: Card)
    | FireNow(card: Card)
    | Tick(now: int, order: seq<Card>) // the order the queue happens to be walked in

  ghost predicate DueOrder(pending: map<Card, Pending>, now: int, order: seq<Card>) {
    && Distinct(order)
    && forall c :: c in order <==> c in pending && pending[c].notBefore <= now
  }

  function Fires(pending: map<Card, Pending>, order: seq<Card>): seq<Event>
    requires forall c :: c in order ==> c in pending
  {
    if order == [] then []
    else Fires(pending, order[..|order| - 1]) + [Fired(pending[order[|order| - 1]])]
  }

  function AsSet(order: seq<Card>): set<Card> {
    set c | c in order
  }

  ghost predicate Enabled(s: State, op: Op) {
    op.Tick? ==> DueOrder(s.pending, op.now, op.order)
  }

  function Step(s: State, op: Op): State
    requires Enabled(s, op)
  {
    match op
    case Schedule(policy, f, clock) => (
      match Decide(s.pending, policy, f, clock)
      case Refused => s
      case GaveUp => s.(log := s.log + [Exhausted(f.card, f.retryAttempt)])
      case Accepted(p) => State(s.pending[f.card := p], s.log + [Scheduled(p, clock.later)])
    )
    case Cancel(c) => if c in s.pending then State(s.pending - {c}, s.log + [Cancelled(s.pending[c])]) else s
    case FireNow(c) => if c in s.pending then State(s.pending - {c}, s.log + [Fired(s.pending[c])]) else s
    case Tick(now, order) => State(s.pending - AsSet(order), s.log + Fires(s.pending, order))
  }

  class Scheduler {
    var pending: map<Card, Pending>
    var log: seq<Event> // what the bus has been told

    function View(): State
      reads this
    {
      State(pending, log)
    }

    constructor ()
      ensures View() == State(map[], [])
    {
      pending, log := map[], [];
    }

    method Schedule(ws: Option<Policy>, f: Failure, clock: Clock) returns (queued: bool)
      modifies this
      ensures View() == Step(old(View()), Op.Schedule(EffectivePolicy(ws), f, clock))
      ensures queued <==> Decide(old(pending), EffectivePolicy(ws), f, clock).Accepted?
    {
      hide Jittered, Capped;
      if !f.retryable {
        return false;
      }
      var policy := EffectivePolicy(ws);
      if policy.maxAttempts == 0 {
        return false;
      }
      var nextAttempt := f.retryAttempt + 1;
      var maxAllowed := policy.maxAttempts;
      if maxAllowed > GLOBAL_MAX_ATTEMPTS {
        maxAllowed := GLOBAL_MAX_ATTEMPTS;
      }
      if nextAttempt > maxAllowed {
        log := log + [Exhausted(f.card, f.retryAttempt)];
        return false;
      }
      var delay := BackoffWithJitter(nextAttempt, policy.base, policy.max, policy.jitterPct, clock.rand);
      if f.retryAfter.Some? {
        var untilReset := f.retryAfter.value - clock.now;
        if untilReset > delay {
          delay := untilReset;
        }
      }
      if delay > GLOBAL_MAX_WINDOW {
        log := log + [Exhausted(f.card, f.retryAttempt)];
        return false;
      }
      var notBefore := clock.later + delay;
      if f.card in pending {
        return false;
      }
      var p := Pending(f.card, nextAttempt, maxAllowed, notBefore, f.session, f.retryAfter);
      pending := pending[f.card := p];
      log := log + [Scheduled(p, clock.later)];
      return true;
    }

    method Cancel(card: Card) returns (existed: bool)
      modifies this
      ensures View() == Step(old(View()), Op.Cancel(card))
      ensures existed <==> card in old(pending)
    {
      existed := card in pending;
      if existed {
        log := log + [Cancelled(pending[card])];
        pending := pending - {card};
      }
    }

    method FireNow(card: Card) returns (fired: bool)
      modifies this
      ensures View() == Step(old(View()), Op.FireNow(card))
      ensures fired <==> card in old(pending)
    {
      if card !in pending {
        return false;
      }
      var p := pending[card];
      pending := pending - {card};
      Dispatch(p);
      return true;
    }

    method Dispatch(p: Pending)
      modifies `log
      ensures log == old(log) + [Fired(p)]
    {
      log := log + [Fired(p)];
    }

    method Tick(now: int) returns (ghost order: seq<Card>)
      modifies this
      ensures DueOrder(old(pending), now, order)
      ensures View() == Step(old(View()), Op.Tick(now, order))
    {
      var taken, fires := CollectDue(now);
      order := taken;
      assert order[..|order|] == order;
      for k := 0 to |fires|
        invariant pending == old(pending) - AsSet(order)
        invariant log == old(log) + Fires(old(pending), order[..k])
      {
        assert order[..k + 1][..k] == order[..k];
        Dispatch(fires[k]);
      }
    }

    // The part of a tick under the lock: take every due entry off the queue.
    method CollectDue(now: int) returns (order: seq<Card>, fires: seq<Pending>)
      modifies `pending
      ensures DueOrder(old(pending), now, order)
      ensures pending == old(pending) - AsSet(order)
      ensures |fires| == |order| && forall k :: 0 <= k < |order| ==> fires[k] == old(pending)[order[k]]
    {
      hide AsSet, Distinct, IsRest;
      order, fires := [], [];
      NoneYet();
      ghost var was := pending;
      var keys := pending.Keys;
      while keys != {}
        invariant keys <= was.Keys
        invariant Distinct(order)
        invariant forall c :: c in order <==> c in was && c !in keys && was[c].notBefore <= now
        invariant IsRest(pending, was, order)
        invariant |fires| == |order| && forall k :: 0 <= k < |order| ==> fires[k] == was[order[k]]
        decreases |keys|
      {
        var key :| key in keys;
        keys := keys - {key};
        RestHas(pending, was, order, key);
        if now >= pending[key].notBefore {
          fires := fires + [pending[key]];
          RestWithout(pending, was, order, key);
          DistinctAdd(order, key);
          pending := pending - {key};
          order := order + [key];
        }
      }
      RestIs(pending, was, order);
    }
  }

  // m is what is left of was without the cards in order.
  ghost predicate IsRest(m: map<Card, Pending>, was: map<Card, Pending>, order: seq<Card>) {
    forall c :: (c in m <==> c in was && c !in order) && (c in m ==> m[c] == was[c])
  }

  lemma RestHas(m: map<Card, Pending>, was: map<Card, Pending>, order: seq<Card>, c: Card)
    requires IsRest(m, was, order) && c in was && c !in order
    ensures c in m && m[c] == was[c]
  {
  }

  lemma RestWithout(m: map<Card, Pending>, was: map<Card, Pending>, order: seq<Card>, c: Card)
    requires IsRest(m, was, order)
    ensures IsRest(m - {c}, was, order + [c])
  {
  }

  lemma RestIs(m: map<Card, Pending>, was: map<Card, Pending>, order: seq<Card>)
    requires IsRest(m, was, order)
    ensures m == was - AsSet(order)
  {
  }

  lemma NoneYet()
    ensures Distinct<Card>([])
    ensures forall m :: IsRest(m, m, [])
  {
  }

  lemma DistinctAdd(order: seq<Card>, c: Card)
    requires Distinct(order) && c !in order
    ensures Distinct(order + [c])
  {
  }

  lemma AsSetAdd(order: seq<Card>, c: Card)
    ensures AsSet(order + [c]) == AsSet(order) + {c}
  {
  }

  // ---- what an accepted retry may look like ----

  predicate WithinCaps(p: Pending) {
    1 <= p.attempt <= p.maxAttempts <= GLOBAL_MAX_ATTEMPTS
  }

  // An accepted retry stays within the attempt caps, is due inside the window, and not before the
  // provider's reset.
  lemma AcceptedIsBounded(pending: map<Card, Pending>, policy: Policy, f: Failure, clock: Clock)
    requires Decide(pending, policy, f, clock).Accepted?
    ensures var p := Decide(pending, policy, f, clock).p;
            && WithinCaps(p) && p.maxAttempts <= policy.maxAttempts
            && p.notBefore <= clock.later + GLOBAL_MAX_WINDOW
            && (f.retryAfter.Some? ==> p.notBefore >= f.retryAfter.value)
  {
    hide Jittered, Capped;
  }

  // With the default policy a retry is accepted for the first three attempts of an issue that has
  // none pending, unless the provider's reset is more than the window away.
  lemma DefaultAcceptsIff(pending: map<Card, Pending>, f: Failure, clock: Clock)
    requires f.retryable && f.card !in pending && -1.0 <= clock.rand < 1.0
    ensures Decide(pending, DEFAULT_POLICY, f, clock).Accepted? <==>
            f.retryAttempt < 3 && (f.retryAfter.Some? ==> f.retryAfter.value - clock.now <= GLOBAL_MAX_WINDOW)
  {
    hide Jittered, Capped;
    var d := Capped(f.retryAttempt + 1, DEFAULT_POLICY.base, DEFAULT_POLICY.max);
    DefaultDelay(f.retryAttempt + 1);
    JitterBounds(d, 25, clock.rand);
  }

  lemma DefaultDelay(attempt: int)
    ensures 0 <= Capped(attempt, DEFAULT_POLICY.base, DEFAULT_POLICY.max) <= DEFAULT_POLICY.max
  {
    hide Pow2, Wrap;
  }

  // ---- conservation ----

  function ScheduledOf(log: seq<Event>, c: Card): seq<Pending> {
    if log == [] then []
    else
      var e := log[|log| - 1];
      ScheduledOf(log[..|log| - 1], c) + (if e.Scheduled? && e.p.card == c then [e.p] else [])
  }

  function EndedOf(log: seq<Event>, c: Card): seq<Pending> {
    if log == [] then []
    else
      var e := log[|log| - 1];
      EndedOf(log[..|log| - 1], c) + (if (e.Fired? || e.Cancelled?) && e.p.card == c then [e.p] else [])
  }

  function InQueue(pending: map<Card, Pending>, c: Card): seq<Pending> {
    if c in pending then [pending[c]] else []
  }

  // For every issue, the retries accepted are, in order, those fired or cancelled and then the one
  // still pending.
  ghost predicate Conserved(s: State) {
    forall c :: ScheduledOf(s.log, c) == EndedOf(s.log, c) + InQueue(s.pending, c)
  }

  ghost predicate Sound(s: State) {
    && Conserved(s)
    && forall c :: c in s.pending ==> s.pending[c].card == c && WithinCaps(s.pending[c])
  }

  // Accepted at some time, a retry is due within the window from it and not before its reset.
  predicate OnTime(e: Event) {
    e.Scheduled? ==>
      e.p.notBefore <= e.at + GLOBAL_MAX_WINDOW && (e.p.retryAfter.Some? ==> e.p.notBefore >= e.p.retryAfter.value)
  }

  // Every acceptance was on time, and every pending retry was accepted.
  ghost predicate Timely(s: State) {
    && (forall i :: 0 <= i < |s.log| ==> OnTime(s.log[i]))
    && forall c :: c in s.pending ==> exists i :: 0 <= i < |s.log| && s.log[i].Scheduled? && s.log[i].p == s.pending[c]
  }

  lemma {:induction false} FiresNotScheduled(pending: map<Card, Pending>, order: seq<Card>)
    requires forall c :: c in order ==> c in pending
    ensures forall i :: 0 <= i < |Fires(pending, order)| ==> Fires(pending, order)[i].Fired?
  {
    if order != [] {
      FiresNotScheduled(pending, order[..|order| - 1]);
    }
  }

  lemma StepKeepsTimely(s: State, op: Op)
    requires Timely(s) && Enabled(s, op)
    ensures Timely(Step(s, op))
  {
    hide Delay, Fires;
    var t := Step(s, op);
    if op.Tick? {
      FiresNotScheduled(s.pending, op.order);
    }
    if op.Schedule? && Decide(s.pending, op.policy, op.failure, op.clock).Accepted? {
      AcceptedIsBounded(s.pending, op.policy, op.failure, op.clock);
      assert t.log[|s.log|].Scheduled?;
    }
    forall c | c in t.pending ensures exists i :: 0 <= i < |t.log| && t.log[i].Scheduled? && t.log[i].p == t.pending[c] {
      if c in s.pending && t.pending[c] == s.pending[c] {
        var i :| 0 <= i < |s.log| && s.log[i].Scheduled? && s.log[i].p == s.pending[c];
        assert t.log[i] == s.log[i];
      }
    }
  }

  lemma OneEvent(log: seq<Event>, e: Event, c: Card)
    ensures ScheduledOf(log + [e], c) == ScheduledOf(log, c) + (if e.Scheduled? && e.p.card == c then [e.p] else [])
    ensures EndedOf(log + [e], c) == EndedOf(log, c) + (if (e.Fired? || e.Cancelled?) && e.p.card == c then [e.p] else [])
  {
    assert (log + [e])[..|log|] == log;
  }

  lemma FiresOf(pending: map<Card, Pending>, order: seq<Card>)
    requires forall k :: k in order ==> k in pending
    ensures order == [] ==> Fires(pending, order) == []
    ensures order != [] ==>
              Fires(pending, order) == Fires(pending, order[..|order| - 1]) + [Fired(pending[order[|order| - 1]])]
  {
  }

  lemma DistinctSplit(order: seq<Card>)
    requires Distinct(order) && order != []
    ensures Distinct(order[..|order| - 1]) && order[|order| - 1] !in order[..|order| - 1]
  {
  }

  lemma {:induction false} FiresEnd(log: seq<Event>, pending: map<Card, Pending>, order: seq<Card>, c: Card)
    requires Distinct(order) && forall k :: k in order ==> k in pending && pending[k].card == k
    ensures ScheduledOf(log + Fires(pending, order), c) == ScheduledOf(log, c)
    ensures EndedOf(log + Fires(pending, order), c) == EndedOf(log, c) + (if c in order then [pending[c]] else [])
  {
    hide ScheduledOf, EndedOf, Fires, Distinct;
    if order == [] {
      FiresOf(pending, order);
      assert log + Fires(pending, order) == log;
    } else {
      var init, last := order[..|order| - 1], order[|order| - 1];
      DistinctSplit(order);
      assert order == init + [last] && last in order;
      FiresOf(pending, order);
      FiresEnd(log, pending, init, c);
      var before := log + Fires(pending, init);
      OneEvent(before, Fired(pending[last]), c);
      assert before + [Fired(pending[last])] == log + Fires(pending, order);
      assert c in order <==> c in init || c == last;
    }
  }

  lemma StepKeepsSound(s: State, op: Op)
    requires Sound(s) && Enabled(s, op)
    ensures Sound(Step(s, op))
  {
    hide ScheduledOf, EndedOf, Delay, Fires;
    var t := Step(s, op);
    forall c ensures ScheduledOf(t.log, c) == EndedOf(t.log, c) + InQueue(t.pending, c) {
      if op.Tick? {
        FiresEnd(s.log, s.pending, op.order, c);
      } else if t != s {
        OneEvent(s.log, t.log[|s.log|], c);
        assert t.log == s.log + [t.log[|s.log|]];
      }
    }
  }

  // A run: every operation enabled in turn.
  ghost predicate IsRun(states: seq<State>, ops: seq<Op>) {
    && |states| == |ops| + 1
    && states[0] == State(map[], [])
    && forall i :: 0 <= i < |ops| ==> Enabled(states[i], ops[i]) && states[i + 1] == Step(states[i], ops[i])
  }

  // Over every run, at most one retry is pending for an issue, each accepted one ends in exactly one
  // of fired, cancelled and still pending, and every pending one is within the caps, due inside the window from its
  // acceptance, and not before the provider's reset.
  lemma {:induction false} RunKeepsSound(states: seq<State>, ops: seq<Op>, i: nat)
    requires IsRun(states, ops) && i < |states|
    ensures Sound(states[i]) && Timely(states[i])
  {
    hide Sound, Timely, Step, Enabled;
    if i == 0 {
      EmptySound();
    } else {
      RunKeepsSound(states, ops, i - 1);
      assert states[i - 1 + 1] == Step(states[i - 1], ops[i - 1]);
      StepKeepsSound(states[i - 1], ops[i - 1]);
      StepKeepsTimely(states[i - 1], ops[i - 1]);
    }
  }

  lemma EmptySound()
    ensures Sound(State(map[], [])) && Timely(State(map[], []))
  {
  }

  // A tick leaves nothing due and touches nothing else.
  lemma TickLeavesNoneDue(s: State, now: int, order: seq<Card>)
    requires DueOrder(s.pending, now, order)
    ensures var t := Step(s, Tick(now, order));
            && (forall c :: c in t.pending <==> c in s.pending && s.pending[c].notBefore > now)
            && (forall c :: c in t.pending ==> t.pending[c] == s.pending[c])
            && |t.log| == |s.log| + |order|
  {
    FiresLength(s.pending, order);
  }

  lemma {:induction false} FiresLength(pending: map<Card, Pending>, order: seq<Card>)
    requires forall c :: c in order ==> c in pending
    ensures |Fires(pending, order)| == |order|
  {
    if order != [] {
      FiresLength(pending, order[..|order| - 1]);
    }
  }

  // ---- the assembler's copy ----

  function ShownAfter(m: map<Card, Pending>, e: Event): map<Card, Pending> {
    if e.Scheduled? then m[e.p.card := e.p] else m - {AboutCard(e)}
  }

  function Shown(log: seq<Event>): map<Card, Pending> {
    if log == [] then map[] else ShownAfter(Shown(log[..|log| - 1]), log[|log| - 1])
  }

  lemma ShownOneMore(log: seq<Event>, e: Event)
    ensures Shown(log + [e]) == ShownAfter(Shown(log), e)
  {
    assert (log + [e])[..|log|] == log;
  }

  lemma {:induction false} ShownFires(log: seq<Event>, pending: map<Card, Pending>, order: seq<Card>)
    requires forall k :: k in order ==> k in pending && pending[k].card == k
    ensures Shown(log + Fires(pending, order)) == Shown(log) - AsSet(order)
  {
    hide Shown;
    if order == [] {
      assert log + Fires(pending, order) == log;
    } else {
      var init, last := order[..|order| - 1], order[|order| - 1];
      assert order == init + [last] && last in order;
      ShownFires(log, pending, init);
      var before := log + Fires(pending, init);
      ShownOneMore(before, Fired(pending[last]));
      assert before + [Fired(pending[last])] == log + Fires(pending, order);
      AsSetAdd(init, last);
    }
  }

  // The cards show exactly the pending retries; a step breaks that exactly when the scheduler gives
  // up on a failure of an issue whose earlier retry is still pending.
  lemma ShownInSyncIff(s: State, op: Op)
    requires Sound(s) && Enabled(s, op) && Shown(s.log) == s.pending
    ensures Shown(Step(s, op).log) == Step(s, op).pending <==>
            !(op.Schedule? && Decide(s.pending, op.policy, op.failure, op.clock).GaveUp? && op.failure.card in s.pending)
  {
    hide Shown, Delay, Conserved, Fires;
    var t := Step(s, op);
    if op.Tick? {
      ShownFires(s.log, s.pending, op.order);
    } else if t != s {
      var e := t.log[|s.log|];
      assert t.log == s.log + [e];
      ShownOneMore(s.log, e);
    }
  }

  // A base delay as long as the window: jitter decides whether a failure is accepted or given up.
  const SLOW_POLICY: Policy := Policy(3, GLOBAL_MAX_WINDOW, GLOBAL_MAX_WINDOW, 25)

  lemma SlowDelays()
    ensures Jittered(Capped(1, GLOBAL_MAX_WINDOW, GLOBAL_MAX_WINDOW), 25, -0.5) == 3_150_000_000_000
    ensures Jittered(Capped(1, GLOBAL_MAX_WINDOW, GLOBAL_MAX_WINDOW), 25, 0.5) == 4_050_000_000_000
  {
    assert Pow2(0) == 1 && Capped(1, GLOBAL_MAX_WINDOW, GLOBAL_MAX_WINDOW) == GLOBAL_MAX_WINDOW;
    assert Spread(GLOBAL_MAX_WINDOW, 25) == 900_000_000_000.0;
    assert Moved(GLOBAL_MAX_WINDOW, 25, -0.5) == 3_150_000_000_000.0;
    assert Moved(GLOBAL_MAX_WINDOW, 25, 0.5) == 4_050_000_000_000.0;
  }

  // It can happen: an issue's retry is pending when another session of it fails, and the second
  // failure draws a delay beyond the window.
  lemma HiddenRetryReachable(c: Card, now: int, later: int)
    ensures var first := Schedule(SLOW_POLICY, Failure(c, "a", 0, true, None), Clock(now, now, -0.5));
            var second := Schedule(SLOW_POLICY, Failure(c, "b", 0, true, None), Clock(later, later, 0.5));
            var s1 := Step(State(map[], []), first);
            var s2 := Step(s1, second);
            c in s2.pending && c !in Shown(s2.log)
  {
    hide Jittered, Capped;
    SlowDelays();
    var s1 := Step(State(map[], []), Schedule(SLOW_POLICY, Failure(c, "a", 0, true, None), Clock(now, now, -0.5)));
    ShownOneMore(s1.log, Exhausted(c, 0));
  }

  // ---- a chain of retries ----

  // A session fails and its retry fires when it is due.
  ghost function ChainRound(s: State, c: Card, clock: Clock): State {
    var t := Step(s, Schedule(DEFAULT_POLICY, Failure(c, "s", 0, true, None), clock));
    if c in t.pending && DueOrder(t.pending, t.pending[c].notBefore, [c])
    then Step(t, Tick(t.pending[c].notBefore, [c])) else t
  }

  // Over and over: the session a retry starts counts from zero again, because the attempt number is
  // not handed on.
  ghost function ChainState(c: Card, clocks: nat -> Clock, n: nat): State {
    if n == 0 then State(map[], []) else ChainRound(ChainState(c, clocks, n - 1), c, clocks(n - 1))
  }

  lemma RoundIsAccepted(s: State, c: Card, clock: Clock)
    requires s.pending == map[] && -1.0 <= clock.rand < 1.0
    ensures var p := Decide(map[], DEFAULT_POLICY, Failure(c, "s", 0, true, None), clock);
            && p.Accepted? && p.p.card == c && p.p.attempt == 1
            && ChainRound(s, c, clock) == State(map[], s.log + [Scheduled(p.p, clock.later)] + [Fired(p.p)])
  {
    hide Delay;
    var f := Failure(c, "s", 0, true, None);
    DefaultAcceptsIff(map[], f, clock);
    var p := Decide(map[], DEFAULT_POLICY, f, clock).p;
    var t := State(map[c := p], s.log + [Scheduled(p, clock.later)]);
    assert t == Step(s, Schedule(DEFAULT_POLICY, f, clock));
    var one := [c];
    assert one[0] == c && one[..0] == [];
    assert DueOrder(t.pending, p.notBefore, one);
    assert Fires(t.pending, one) == [Fired(p)];
  }

  // The attempt cap never stops such a chain: every retry of it is accepted, as attempt 1.
  lemma {:induction false} ChainNeverEnds(c: Card, clocks: nat -> Clock, n: nat)
    requires forall k :: -1.0 <= clocks(k).rand < 1.0
    ensures var s := ChainState(c, clocks, n);
            && s.pending == map[]
            && |ScheduledOf(s.log, c)| == n
            && forall p :: p in ScheduledOf(s.log, c) ==> p.attempt == 1
  {
    hide Decide, ScheduledOf, ChainRound;
    if n == 0 {
      NoneScheduled(c);
    } else {
      ChainNeverEnds(c, clocks, n - 1);
      var was := ChainState(c, clocks, n - 1);
      RoundIsAccepted(was, c, clocks(n - 1));
      var p := Decide(map[], DEFAULT_POLICY, Failure(c, "s", 0, true, None), clocks(n - 1)).p;
      var e := Scheduled(p, clocks(n - 1).later);
      OneEvent(was.log, e, c);
      OneEvent(was.log + [e], Fired(p), c);
    }
  }

  lemma NoneScheduled(c: Card)
    ensures ScheduledOf([], c) == []
  {
  }
}
