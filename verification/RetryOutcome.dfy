// When a failed session is retried and what the retry queue announces, told from the policy, the failure
// and the clock (internal/retry/scheduler.go).
module RetryOutcome {
  import opened Options
  import opened Ranking
  import opened Backoff
  import opened Retry

  // ---- the delay ----

  // Below 2^34 nanoseconds the delay starts at the base and doubles with each attempt up to the 31st,
  // under the maximum.
  lemma DelayDoubles(n: nat, base: int, max: int)
    requires n >= 1 && 0 < base < 0x4_0000_0000 && 0 < max < 0x8000_0000_0000_0000
    ensures Capped(1, base, max) == (if base <= max then base else max)
    ensures n <= 30 ==> var twice := 2 * Capped(n, base, max); Capped(n + 1, base, max) == if twice <= max then twice else max
    ensures n > 30 ==> Capped(n + 1, base, max) == Capped(n, base, max)
  {
    hide Pow2, Wrap, Capped;
    ShortBasesAreSafe(1, base, max);
    ShortBasesAreSafe(n, base, max);
    ShortBasesAreSafe(n + 1, base, max);
    Powers(n);
    var p, q := Pow2(Shift(n)), Pow2(Shift(n + 1));
    assert base * (2 * p) == 2 * (base * p);
  }

  lemma Powers(n: nat)
    requires n >= 1
    ensures Pow2(Shift(1)) == 1
    ensures n <= 30 ==> Pow2(Shift(n + 1)) == 2 * Pow2(Shift(n))
    ensures n > 30 ==> Shift(n + 1) == Shift(n)
  {
  }

  // Jitter adds the drawn share of its percentage, cut to whole nanoseconds.
  lemma JitterIs(d: int, jitterPct: int, rand: real, x: real)
    requires x == d as real + rand * (d as real * jitterPct as real / 100.0)
    ensures var r := Jittered(d, jitterPct, rand);
            && (jitterPct <= 0 ==> r == d)
            && (jitterPct > 0 && x < 0.0 ==> r == 0)
            && (jitterPct > 0 && x >= 0.0 ==> x - 1.0 < r as real <= x)
  {
    assert Moved(d, jitterPct, rand) == x;
    hide Moved, Truncate;
    Truncated(x);
  }

  // ---- the decision ----

  // The longer of the jittered back-off and the wait for the provider's reset.
  predicate Waits(maxBackoff: int, base: int, jitterPct: int, f: Failure, clock: Clock, wait: int) {
    var backoff := Jittered(Capped(f.retryAttempt + 1, base, maxBackoff), jitterPct, clock.rand);
    && wait >= backoff
    && (f.retryAfter.Some? ==> wait >= f.retryAfter.value - clock.now)
    && (wait == backoff || (f.retryAfter.Some? && wait == f.retryAfter.value - clock.now))
  }

  // A workspace's own policy decides, and the default one when it has none: three attempts, ten seconds
  // doubling up to five minutes, a quarter of jitter. No policy goes past ten attempts or an hour's wait.
  // A failure that cannot be retried, or a policy of no attempts, is refused without a word; too many
  // attempts or too long a wait gives up; a retry already pending refuses a second one.
  lemma DecisionIsTold(pending: map<Card, Pending>, ws: Option<Policy>, f: Failure, clock: Clock) returns (wait: int)
    ensures var own := ws.Some?;
            && Waits(if own then ws.value.max else 300_000_000_000, if own then ws.value.base else 10_000_000_000,
                     if own then ws.value.jitterPct else 25, f, clock, wait)
    ensures var allowed := if ws.Some? then ws.value.maxAttempts else 3;
            var most := if allowed > 10 then 10 else allowed;
            var over := f.retryAttempt + 1 > most || wait > 3_600_000_000_000;
            var d := Decide(pending, EffectivePolicy(ws), f, clock);
            && (d.GaveUp? <==> f.retryable && allowed != 0 && over)
            && (d.Accepted? <==> f.retryable && allowed != 0 && !over && f.card !in pending)
            && (d.Accepted? ==>
                  d.p == Pending(f.card, f.retryAttempt + 1, most, clock.later + wait, f.session, f.retryAfter))
  {
    hide Jittered, Capped;
    wait := Delay(EffectivePolicy(ws), f.retryAttempt + 1, f.retryAfter, clock);
  }

  // ---- what is announced ----

  // Why an event is announced in a step, and what the step does to the queue.
  ghost predicate Explained(s: State, op: Op, t: State, e: Event) {
    match e
    case Scheduled(p, at) =>
      && op.Schedule? && op.failure.card == p.card && at == op.clock.later
      && p.card !in s.pending && p.card in t.pending && t.pending[p.card] == p
    case Fired(p) =>
      && p.card in s.pending && s.pending[p.card] == p && p.card !in t.pending
      && ((op.FireNow? && op.card == p.card) || (op.Tick? && p.notBefore <= op.now))
    case Cancelled(p) =>
      && p.card in s.pending && s.pending[p.card] == p && p.card !in t.pending
      && op.Cancel? && op.card == p.card
    case Exhausted(card, attempts) =>
      && op.Schedule? && op.failure.card == card && attempts == op.failure.retryAttempt
      && t.pending == s.pending && Decide(s.pending, op.policy, op.failure, op.clock).GaveUp?
  }

  lemma {:induction false} FiresAre(pending: map<Card, Pending>, order: seq<Card>)
    requires forall c :: c in order ==> c in pending
    ensures |Fires(pending, order)| == |order|
    ensures forall i :: 0 <= i < |order| ==> Fires(pending, order)[i] == Fired(pending[order[i]])
  {
    if order != [] {
      FiresAre(pending, order[..|order| - 1]);
    }
  }

  // Whatever step is taken, it only adds to the log, and every event it adds has its reason: retries are
  // announced when accepted, fired when asked for or due, cancelled when asked for, exhausted when given
  // up; each one fired or cancelled was pending and no longer is.
  lemma StepIsExplained(s: State, op: Op)
    requires Sound(s) && Enabled(s, op)
    ensures var t := Step(s, op);
            && s.log <= t.log
            && forall i :: |s.log| <= i < |t.log| ==> Explained(s, op, t, t.log[i])
  {
    hide Delay, Fires, Conserved;
    var t := Step(s, op);
    if op.Tick? {
      FiresAre(s.pending, op.order);
      forall i | |s.log| <= i < |t.log| ensures Explained(s, op, t, t.log[i]) {
        var c := op.order[i - |s.log|];
        assert c in op.order;
        assert t.log[i] == Fired(s.pending[c]);
      }
    }
  }

  // So over a whole run every event of the log was announced in some step, for its reason.
  ghost predicate AnnouncedIn(states: seq<State>, ops: seq<Op>, e: Event, i: nat) {
    i < |ops| && i + 1 < |states| && Explained(states[i], ops[i], states[i + 1], e)
  }

  ghost predicate Announced(states: seq<State>, ops: seq<Op>, e: Event) {
    exists k: nat :: AnnouncedIn(states, ops, e, k)
  }

  lemma {:induction false} RunIsExplained(states: seq<State>, ops: seq<Op>, i: nat)
    requires IsRun(states, ops) && i < |states|
    ensures forall j :: 0 <= j < |states[i].log| ==> Announced(states, ops, states[i].log[j])
  {
    hide Step, Enabled, Sound, Explained;
    if i == 0 {
      assert states[0].log == [];
    } else {
      RunIsExplained(states, ops, i - 1);
      RunKeepsSound(states, ops, i - 1);
      assert states[i - 1 + 1] == Step(states[i - 1], ops[i - 1]);
      StepIsExplained(states[i - 1], ops[i - 1]);
      forall j | 0 <= j < |states[i].log| ensures Announced(states, ops, states[i].log[j]) {
        if j < |states[i - 1].log| {
          assert states[i].log[j] == states[i - 1].log[j];
        } else {
          assert AnnouncedIn(states, ops, states[i].log[j], i - 1);
        }
      }
    }
  }
}
