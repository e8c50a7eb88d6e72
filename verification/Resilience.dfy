// llms/middleware/retry.go and ratelimit.go: the retry loop over the breaker
// over a limiter reservation, for one caller at a time.
module Resilience {
  import opened Messages
  import opened Errors
  import opened Satint
  import C = CircuitBreaker
  import M = MemoryLimiter

  // ---------- Retry configuration and backoff ----------

  datatype RetryConfig = RetryConfig(maxAttempts: int, initialDelay: int, maxDelay: int, backoffFactor: real,
      jitter: real) {
    function Normalized(): (c: RetryConfig)
      ensures c.OK() && (OK() <==> c == this)
    {
      RetryConfig(
        if maxAttempts < 1 then 5 else maxAttempts,
        if initialDelay <= 0 then 1_000_000_000 else initialDelay,
        if maxDelay <= 0 then 30_000_000_000 else maxDelay,
        if backoffFactor < 1.0 then 2.0 else backoffFactor,
        if jitter < 0.0 then 0.0 else if jitter > 1.0 then 1.0 else jitter)
    }

    predicate OK() {
      maxAttempts >= 1 && initialDelay > 0 && maxDelay > 0 && backoffFactor >= 1.0 && 0.0 <= jitter <= 1.0
    }
  }

  function Least(a: int, b: int): int {
    if a < b then a else b
  }

  // spin is the random draw, in [-1, 1].
  function Jittered(d: int, jitter: real, spin: real): int {
    if jitter <= 0.0 then d
    else
      var x := (d as real * (1.0 + spin * jitter)).Floor;
      if x < 0 then 0 else x
  }

  function Wait(cfg: RetryConfig, delay: int, hint: int, spin: real): int {
    Jittered(Least(if hint > delay then hint else delay, cfg.maxDelay), cfg.jitter, spin)
  }

  function NextDelay(cfg: RetryConfig, delay: int): int {
    Least((delay as real * cfg.backoffFactor).Floor, cfg.maxDelay)
  }

  lemma Scales(d: real, a: real, b: real)
    requires d >= 0.0 && a <= b
    ensures d * a <= d * b
  {
  }

  lemma ScaleBounds(b: real, lo: real, mid: real, hi: real)
    requires b >= 0.0 && lo <= mid <= hi
    ensures b * lo <= b * mid <= b * hi
  {
    Scales(b, lo, mid);
    Scales(b, mid, hi);
  }

  lemma SpinBounds(jitter: real, spin: real)
    requires 0.0 <= jitter && -1.0 <= spin <= 1.0
    ensures 1.0 - jitter <= 1.0 + spin * jitter <= 1.0 + jitter
  {
    ScaleBounds(jitter, -1.0, spin, 1.0);
    assert jitter * spin == spin * jitter;
  }

  lemma FloorWithin(x: real, lo: real, hi: real)
    requires lo <= x <= hi && 0.0 <= hi
    ensures lo - 1.0 < x.Floor as real <= hi && (lo >= 0.0 ==> x.Floor >= 0)
  {
  }

  lemma JitteredBounds(d: int, jitter: real, spin: real)
    requires d > 0 && 0.0 <= jitter <= 1.0 && -1.0 <= spin <= 1.0
    ensures d as real * (1.0 - jitter) - 1.0 < Jittered(d, jitter, spin) as real <= d as real * (1.0 + jitter)
    ensures Jittered(d, jitter, spin) >= 0
  {
    var b := d as real;
    SpinBounds(jitter, spin);
    ScaleBounds(b, 1.0 - jitter, 1.0 + spin * jitter, 1.0 + jitter);
    ScaleBounds(b, 1.0 - jitter, 1.0, 1.0 + jitter);
    Scales(b, 0.0, 1.0 - jitter);
    FloorWithin(b * (1.0 + spin * jitter), b * (1.0 - jitter), b * (1.0 + jitter));
  }

  // Within the jitter of the larger of the delay and the hint, capped at
  // MaxDelay, and never negative.
  predicate Within(cfg: RetryConfig, delay: int, hint: int, w: int) {
    var base := Least(if hint > delay then hint else delay, cfg.maxDelay);
    base as real * (1.0 - cfg.jitter) - 1.0 < w as real <= base as real * (1.0 + cfg.jitter) && w >= 0
  }

  lemma WaitBounds(cfg: RetryConfig, delay: int, hint: int, spin: real)
    requires cfg.OK() && delay > 0 && -1.0 <= spin <= 1.0
    ensures Within(cfg, delay, hint, Wait(cfg, delay, hint, spin))
  {
    JitteredBounds(Least(if hint > delay then hint else delay, cfg.maxDelay), cfg.jitter, spin);
  }

  // The delay never shrinks below what it was, short of the cap, and stays positive.
  lemma DelayGrows(cfg: RetryConfig, delay: int)
    requires cfg.OK() && delay > 0
    ensures 0 < NextDelay(cfg, delay) <= cfg.maxDelay && NextDelay(cfg, delay) >= Least(delay, cfg.maxDelay)
  {
    Scales(delay as real, 1.0, cfg.backoffFactor);
  }

  // ---------- One attempt: breaker over reservation over provider ----------

  // The reported usage, with the two cache counts a limiter does not charge.
  datatype Usage = Usage(counts: M.Counts, cacheRead: int64, cacheWrite: int64)

  predicate UsageReported(u: Usage) {
    || u.counts.input != 0 || u.counts.output != 0 || u.counts.total != 0 || u.counts.reasoning != 0
    || u.counts.billable != 0 || u.counts.embedding != 0 || u.cacheRead != 0 || u.cacheWrite != 0
  }

  datatype Reply = Replied(usage: Usage) | Failed(err: Fault)

  // What one attempt meets: the clock when the breaker is asked and when the
  // limiter starts, its polls, the provider's reply, the clock at Commit and at the
  // breaker's record, the jitter drawn, and whether the context ends during
  // the backoff after it.
  datatype Attempt = Attempt(
    now: int, start: int, polls: seq<M.Poll>, deadline: bool, reply: Reply, commitAt: int, recordAt: int,
        spin: real, interrupted: bool)

  // polled counts the limiter's polls. Rejected is the breaker's.
  datatype Outcome =
    | Rejected(err: Fault)
    | NotAdmitted(polled: nat, err: Fault)
    | Called(polled: nat, reply: Reply)

  function ErrorOf(o: Outcome): Option<Fault> {
    match o
    case Rejected(err) => Some(err)
    case NotAdmitted(_, err) => Some(err)
    case Called(_, reply) => if reply.Failed? then Some(reply.err) else None
  }

  // What a reservation that called the provider leaves of the limiter.
  function Settled(cfg: M.Config, s: M.State, units: M.UsageUnits, a: Attempt): M.State {
    var taken := M.Take(cfg, s, units.Tokens() as int, units.Slots() as int);
    var committed :=
      if a.reply.Replied? && UsageReported(a.reply.usage) && cfg.tokenLimiting then
        M.Reconcile(cfg, M.Refill(cfg, taken, a.commitAt),
            M.EffectiveTokens(a.reply.usage.counts) as int - units.Tokens() as int)
      else taken;
    M.Free(committed, units.Slots() as int)
  }

  // The fixed surroundings of the loop, and the state of breaker and limiter.
  datatype Env = Env(breaker: C.CircuitConfig, limiter: M.Config, units: M.UsageUnits, maxWait: int)

  datatype State = State(b: C.State, l: M.State)

  // How the limiter's wait for an attempt ends.
  ghost function Waits(env: Env, l: M.State, a: Attempt): M.Ending {
    M.EndOf(env.limiter, l, M.AskFor(env.units, env.maxWait, a.start), a.polls)
  }

  // The error of a wait that did not end in a reservation: permanent when the
  // request can never fit, with the context's error when that ended it.
  function Refusal(kind: M.EndKind, hint: int, deadline: bool): Fault {
    LimitError(kind.Never?, hint,
      if kind.Stopped? || kind.Pending? then Some(if deadline then DeadlineExceeded else Canceled) else None)
  }

  // The breaker rejects exactly what it does not admit; of the rest, the
  // provider is called exactly when the limiter's wait ends with room for the
  // request, and the call fails with the wait's own end otherwise.
  ghost predicate OutcomeOK(env: Env, s: State, a: Attempt, o: Outcome) {
    match o
    case Rejected(err) => !C.Admits(env.breaker, s.b, a.now) && err == CircuitOpen(C.Remaining(env.breaker, s.b, a.now))
    case NotAdmitted(_, _) => C.Admits(env.breaker, s.b, a.now) && ReservedOK(env, s.l, a, o)
    case Called(_, _) => C.Admits(env.breaker, s.b, a.now) && ReservedOK(env, s.l, a, o)
  }

  ghost predicate ReservedOK(env: Env, l: M.State, a: Attempt, o: Outcome) {
    var end := Waits(env, l, a);
    !o.Rejected? && o == if end.kind.Granted? then Called(end.attempts, a.reply)
      else NotAdmitted(end.attempts, Refusal(end.kind, end.hint, a.deadline))
  }

  predicate AdmitsUnits(env: Env, l: M.State) {
    M.Admits(env.limiter, l, env.units.Tokens() as int, env.units.Slots() as int)
  }

  ghost function Next(env: Env, s: State, a: Attempt, o: Outcome): State {
    State(NextBreaker(env.breaker, s.b, a, o), NextLimiter(env, s.l, a, o))
  }

  function NextBreaker(cfg: C.CircuitConfig, b: C.State, a: Attempt, o: Outcome): C.State {
    if o.Rejected? then b else C.Recorded(cfg, C.Admitted(b), C.Classify(ErrorOf(o)), a.recordAt)
  }

  ghost function NextLimiter(env: Env, l: M.State, a: Attempt, o: Outcome): M.State {
    if o.Rejected? || o.polled > |a.polls| then l
    else
      var polled := M.Polled(env.limiter, l, a.polls, o.polled);
      if o.Called? then Settled(env.limiter, polled, env.units, a) else polled
  }

  // Reserve, call, commit usage that was reported, and always release.
  method Reserved(limiter: M.InMemoryLimiter, units: M.UsageUnits, maxWait: int, a: Attempt, ghost cfg: C.CircuitConfig)
    returns (o: Outcome)
    requires limiter.Valid()
    modifies limiter
    ensures limiter.Valid()
    ensures ReservedOK(Env(cfg, limiter.Cfg(), units, maxWait), old(limiter.View()), a, o)
    ensures limiter.View() == NextLimiter(Env(cfg, limiter.Cfg(), units, maxWait), old(limiter.View()), a, o)
  {
    var res, hint, attempts := M.Reserve(limiter, units, maxWait, a.start, a.polls);
    var cause := if a.deadline then DeadlineExceeded else Canceled;
    match res
    case Admitted(reservation) =>
      if a.reply.Replied? && UsageReported(a.reply.usage) {
        reservation.Commit(a.reply.usage.counts, a.commitAt);
      }
      reservation.Release();
      o := Called(attempts, a.reply);
    case NeverAdmissible => o := NotAdmitted(attempts, LimitError(true, hint, None));
    case WaitExceeded => o := NotAdmitted(attempts, LimitError(false, hint, None));
    case ContextDone => o := NotAdmitted(attempts, LimitError(false, hint, Some(cause)));
    case StillWaiting => o := NotAdmitted(attempts, LimitError(false, hint, Some(cause)));
  }

  // The breaker around it.
  method Guarded(breaker: C.Breaker, limiter: M.InMemoryLimiter, units: M.UsageUnits, maxWait: int, a: Attempt)
    returns (o: Outcome)
    requires limiter.Valid()
    modifies breaker, limiter
    ensures limiter.Valid()
    ensures OutcomeOK(Env(breaker.cfg, limiter.Cfg(), units, maxWait),
        State(old(breaker.View()), old(limiter.View())), a, o)
    ensures State(breaker.View(), limiter.View()) ==
            Next(Env(breaker.cfg, limiter.Cfg(), units, maxWait),
                State(old(breaker.View()), old(limiter.View())), a, o)
  {
    var err := breaker.Allow(a.now);
    if err.Some? {
      return Rejected(err.value);
    }
    o := Reserved(limiter, units, maxWait, a, breaker.cfg);
    breaker.Record(ErrorOf(o), a.recordAt);
  }

  // The j-th poll finds room for the request, and no poll before it ended the
  // wait for a reason of its own.
  ghost predicate FitsAt(env: Env, l: M.State, a: Attempt, j: nat) {
    && 0 < j <= |a.polls| && !a.polls[j - 1].done && AdmitsUnits(env, M.Polled(env.limiter, l, a.polls, j))
    && forall i :: 0 <= i < j - 1 ==> !GivesUp(env, a, a.polls[i])
  }

  predicate GivesUp(env: Env, a: Attempt, poll: M.Poll) {
    poll.done || poll.canceled || M.OverWait(M.AskFor(env.units, env.maxWait, a.start), poll)
  }

  // A call the breaker admits reaches the provider exactly when the request
  // fits at a poll that the wait lasts to, and fails with the limiter's error
  // otherwise.
  lemma ReachedExactlyWhen(env: Env, s: State, a: Attempt, o: Outcome)
    requires OutcomeOK(env, s, a, o) && C.Admits(env.breaker, s.b, a.now)
    ensures o.Called? <==>
        !M.Impossible(env.limiter, env.units.Tokens() as int, env.units.Slots() as int)
        && exists j: nat :: FitsAt(env, s.l, a, j)
    ensures !o.Called? ==> o.NotAdmitted? && o.err.LimitError?
  {
    var ask := M.AskFor(env.units, env.maxWait, a.start);
    if o.Called? {
      forall i | 0 <= i < o.polled - 1 ensures !GivesUp(env, a, a.polls[i]) {
        assert !M.Ends(env.limiter, s.l, ask, a.polls, i);
      }
      assert FitsAt(env, s.l, a, o.polled);
    } else if j: nat :| FitsAt(env, s.l, a, j) {
      assert M.Ends(env.limiter, s.l, ask, a.polls, j - 1);
    }
  }

  // ---------- The retry loop ----------

  predicate GoesOn(o: Outcome) {
    ErrorOf(o).Some? && Retryable(ErrorOf(o).value)
  }

  // The breaker and the limiter after the first n attempts.
  ghost function At(env: Env, s: State, script: seq<Attempt>, trace: seq<Outcome>, n: nat): State
    requires n <= |trace| <= |script|
  {
    if n == 0 then s else Next(env, At(env, s, script, trace, n - 1), script[n - 1], trace[n - 1])
  }

  // Every attempt of the trace is what the breaker and the limiter, as the
  // attempts before left them, made of the script.
  ghost predicate TraceOK(env: Env, s: State, script: seq<Attempt>, trace: seq<Outcome>) {
    && |trace| <= |script|
    && (forall i :: 0 <= i < |trace| ==> AttemptOK(env, s, script, trace, i))
    && (forall i :: 0 <= i < |trace| - 1 ==> GoesOn(trace[i]) && !script[i].interrupted)
  }

  ghost predicate AttemptOK(env: Env, s: State, script: seq<Attempt>, trace: seq<Outcome>, i: nat)
    requires i < |trace| <= |script|
  {
    OutcomeOK(env, At(env, s, script, trace, i), script[i], trace[i])
  }

  lemma {:induction false} PrefixOfTrace(
      env: Env, s: State, script: seq<Attempt>, trace: seq<Outcome>, o: Outcome, n: nat)
    requires n <= |trace| < |script|
    ensures At(env, s, script, trace + [o], n) == At(env, s, script, trace, n)
  {
    if n > 0 {
      PrefixOfTrace(env, s, script, trace, o, n - 1);
    }
  }

  lemma TraceExtends(env: Env, s: State, script: seq<Attempt>, trace: seq<Outcome>, o: Outcome)
    requires TraceOK(env, s, script, trace) && |trace| < |script|
    requires |trace| > 0 ==> GoesOn(trace[|trace| - 1]) && !script[|trace| - 1].interrupted
    requires OutcomeOK(env, At(env, s, script, trace, |trace|), script[|trace|], o)
    ensures TraceOK(env, s, script, trace + [o])
    ensures At(env, s, script, trace + [o], |trace| + 1) ==
        Next(env, At(env, s, script, trace, |trace|), script[|trace|], o)
  {
    PrefixOfTrace(env, s, script, trace, o, |trace|);
    forall i | 0 <= i <= |trace| ensures AttemptOK(env, s, script, trace + [o], i) {
      PrefixOfTrace(env, s, script, trace, o, i);
      assert i < |trace| ==> AttemptOK(env, s, script, trace, i);
    }
  }

  // The computed delay before the (k+2)-nd attempt, and the backoff the loop
  // takes there.
  function DelayAt(cfg: RetryConfig, k: nat): int {
    if k == 0 then cfg.initialDelay else NextDelay(cfg, DelayAt(cfg, k - 1))
  }

  function HintOf(o: Outcome): int {
    if ErrorOf(o).Some? then RetryAfter(ErrorOf(o).value) else 0
  }

  function WaitAfter(cfg: RetryConfig, script: seq<Attempt>, trace: seq<Outcome>, k: nat): int
    requires k < |trace| <= |script|
  {
    Wait(cfg, DelayAt(cfg, k), HintOf(trace[k]), script[k].spin)
  }

  // Each backoff taken is the one computed for its attempt.
  ghost predicate Waited(cfg: RetryConfig, script: seq<Attempt>, trace: seq<Outcome>, waits: seq<int>) {
    |waits| <= |trace| <= |script| && forall k :: 0 <= k < |waits| ==> waits[k] == WaitAfter(cfg, script, trace, k)
  }

  lemma WaitsStand(cfg: RetryConfig, script: seq<Attempt>, trace: seq<Outcome>, waits: seq<int>, o: Outcome)
    requires Waited(cfg, script, trace, waits) && |trace| < |script|
    ensures Waited(cfg, script, trace + [o], waits)
  {
    forall k | 0 <= k < |waits| ensures waits[k] == WaitAfter(cfg, script, trace + [o], k) {
      assert (trace + [o])[k] == trace[k];
    }
  }

  lemma {:induction false} DelaysPositive(cfg: RetryConfig, k: nat)
    requires cfg.OK()
    ensures 0 < DelayAt(cfg, k) && (k > 0 ==> DelayAt(cfg, k) <= cfg.maxDelay)
    ensures k > 0 ==> DelayAt(cfg, k) >= Least(DelayAt(cfg, k - 1), cfg.maxDelay)
  {
    if k > 0 {
      DelaysPositive(cfg, k - 1);
      DelayGrows(cfg, DelayAt(cfg, k - 1));
    }
  }

  // So every backoff of the loop is within the jitter of the larger of its
  // delay and the error's hint, capped at MaxDelay, and never negative.
  lemma BackoffBounds(cfg: RetryConfig, script: seq<Attempt>, trace: seq<Outcome>, k: nat)
    requires cfg.OK() && k < |trace| <= |script| && -1.0 <= script[k].spin <= 1.0
    ensures Within(cfg, DelayAt(cfg, k), HintOf(trace[k]), WaitAfter(cfg, script, trace, k))
  {
    DelaysPositive(cfg, k);
    WaitBounds(cfg, DelayAt(cfg, k), HintOf(trace[k]), script[k].spin);
  }

  // The loop between two attempts, with the state it has reached: every
  // attempt so far was retried after the backoff computed for it.
  ghost predicate Underway(env: Env, s: State, cfg: RetryConfig, script: seq<Attempt>, trace: seq<Outcome>,
      waits: seq<int>, now: State)
  {
    && TraceOK(env, s, script, trace) && Waited(cfg, script, trace, waits) && |waits| == |trace|
    && now == At(env, s, script, trace, |trace|)
    && (|trace| > 0 ==> GoesOn(trace[|trace| - 1]) && !script[|trace| - 1].interrupted)
  }

  lemma AttemptMade(env: Env, s: State, cfg: RetryConfig, script: seq<Attempt>, trace: seq<Outcome>,
      waits: seq<int>, now: State, o: Outcome)
    requires Underway(env, s, cfg, script, trace, waits, now) && |trace| < |script|
    requires OutcomeOK(env, now, script[|trace|], o)
    ensures
      var after := Next(env, now, script[|trace|], o);
      && TraceOK(env, s, script, trace + [o]) && Waited(cfg, script, trace + [o], waits)
      && after == At(env, s, script, trace + [o], |trace| + 1)
      && var w := Wait(cfg, DelayAt(cfg, |trace|), HintOf(o), script[|trace|].spin);
      && Waited(cfg, script, trace + [o], waits + [w])
      && (GoesOn(o) && !script[|trace|].interrupted ==>
            Underway(env, s, cfg, script, trace + [o], waits + [w], after))
  {
    TraceExtends(env, s, script, trace, o);
    WaitsStand(cfg, script, trace, waits, o);
  }

  datatype Final = Returned(last: Outcome) | Interrupted

  // At most MaxAttempts attempts, going on exactly after retryable errors.
  method Retry(
      breaker: C.Breaker, limiter: M.InMemoryLimiter, cfg: RetryConfig, units: M.UsageUnits, maxWait: int,
      script: seq<Attempt>)
    returns (res: Final, ghost trace: seq<Outcome>, waits: seq<int>)
    requires limiter.Valid() && cfg.OK() && |script| >= cfg.maxAttempts
    modifies breaker, limiter
    ensures limiter.Valid() && 1 <= |trace| <= cfg.maxAttempts
    ensures var env := Env(breaker.cfg, limiter.Cfg(), units, maxWait);
            var s := State(old(breaker.View()), old(limiter.View()));
            && TraceOK(env, s, script, trace)
            && State(breaker.View(), limiter.View()) == At(env, s, script, trace, |trace|)
    ensures res.Returned? ==> res.last == trace[|trace| - 1] && (GoesOn(res.last) ==> |trace| == cfg.maxAttempts)
    ensures res.Interrupted? ==>
              |trace| < cfg.maxAttempts && GoesOn(trace[|trace| - 1]) && script[|trace| - 1].interrupted
    ensures |waits| == |trace| - (if res.Interrupted? then 0 else 1)
    ensures Waited(cfg, script, trace, waits)
  {
    ghost var env, s := Env(breaker.cfg, limiter.Cfg(), units, maxWait), State(breaker.View(), limiter.View());
    trace, waits := [], [];
    var delay := cfg.initialDelay;
    var attempt := 1;
    while true
      invariant limiter.Valid() && 1 <= attempt <= cfg.maxAttempts && |trace| == attempt - 1
      invariant Underway(env, s, cfg, script, trace, waits, State(breaker.View(), limiter.View()))
      invariant delay == DelayAt(cfg, attempt - 1)
      decreases cfg.maxAttempts - attempt
    {
      var a := script[attempt - 1];
      ghost var now := State(breaker.View(), limiter.View());
      var o := Guarded(breaker, limiter, units, maxWait, a);
      AttemptMade(env, s, cfg, script, trace, waits, now, o);
      trace := trace + [o];
      var err := ErrorOf(o);
      if err.None? || !Retryable(err.value) {
        return Returned(o), trace, waits;
      }
      if attempt == cfg.maxAttempts {
        return Returned(o), trace, waits;
      }
      waits := waits + [Wait(cfg, delay, RetryAfter(err.value), a.spin)];
      if a.interrupted {
        return Interrupted, trace, waits;
      }
      delay := NextDelay(cfg, delay);
      attempt := attempt + 1;
    }
  }

  // ---------- Theorems over the whole loop ----------

  lemma {:induction false} PolledKeeps(cfg: M.Config, s: M.State, polls: seq<M.Poll>, n: nat)
    requires n <= |polls|
    ensures M.Polled(cfg, s, polls, n).active == s.active
    ensures (forall i :: 0 <= i < n ==> polls[i].now <= s.lastRefill) ==> M.Polled(cfg, s, polls, n) == s
  {
    if n > 0 {
      PolledKeeps(cfg, s, polls, n - 1);
    }
  }

  lemma ReservationReleased(env: Env, l: M.State, a: Attempt, o: Outcome)
    requires M.ConfigOK(env.limiter) && !o.Rejected? && o.polled <= |a.polls|
    requires 0 <= l.active && (env.limiter.slotLimiting || l.active + env.units.Slots() as int <= MAX_INT)
    requires o.Called? ==> AdmitsUnits(env, M.Polled(env.limiter, l, a.polls, o.polled))
    ensures NextLimiter(env, l, a, o).active == l.active
  {
    PolledKeeps(env.limiter, l, a.polls, o.polled);
  }

  // Every reservation that was granted is released: the slots in use are what
  // they were.
  lemma {:induction false} SlotsRestored(env: Env, s: State, script: seq<Attempt>, trace: seq<Outcome>, n: nat)
    requires M.ConfigOK(env.limiter) && TraceOK(env, s, script, trace) && n <= |trace|
    requires 0 <= s.l.active && (env.limiter.slotLimiting || s.l.active + env.units.Slots() as int <= MAX_INT)
    ensures At(env, s, script, trace, n).l.active == s.l.active
  {
    if n > 0 {
      SlotsRestored(env, s, script, trace, n - 1);
      assert AttemptOK(env, s, script, trace, n - 1);
      if !trace[n - 1].Rejected? {
        ReservationReleased(env, At(env, s, script, trace, n - 1).l, script[n - 1], trace[n - 1]);
      }
    }
  }

  // The clock never passes the limiter's last refill during the attempt.
  predicate Frozen(a: Attempt, at: int) {
    a.commitAt <= at && forall i :: 0 <= i < |a.polls| ==> a.polls[i].now <= at
  }

  // What an attempt costs: its estimate, or the usage its success reported.
  function Cost(units: M.UsageUnits, a: Attempt, o: Outcome): int {
    if !o.Called? then 0
    else if a.reply.Replied? && UsageReported(a.reply.usage) then M.EffectiveTokens(a.reply.usage.counts) as int
    else units.Tokens() as int
  }

  function CostOf(units: M.UsageUnits, script: seq<Attempt>, trace: seq<Outcome>, n: nat): int
    requires n <= |trace| <= |script|
  {
    if n == 0 then 0 else CostOf(units, script, trace, n - 1) + Cost(units, script[n - 1], trace[n - 1])
  }

  lemma FrozenCost(env: Env, l: M.State, a: Attempt, o: Outcome)
    requires M.ConfigOK(env.limiter) && env.limiter.tokenLimiting && l.available <= env.limiter.capacity
    requires Frozen(a, l.lastRefill)
    requires !o.Rejected? && o.polled <= |a.polls|
    requires o.Called? ==> AdmitsUnits(env, M.Polled(env.limiter, l, a.polls, o.polled))
    ensures
      var after := NextLimiter(env, l, a, o);
      && after.available == l.available - Cost(env.units, a, o)
      && after.available <= env.limiter.capacity && after.lastRefill == l.lastRefill
  {
    PolledKeeps(env.limiter, l, a.polls, o.polled);
  }

  // With the clock frozen, the whole loop charges exactly the estimates of its
  // failed calls plus the reported usage (or the estimate) of the one that
  // succeeded: a retry never charges twice for one call and never keeps more.
  lemma {:induction false} FrozenCharge(env: Env, s: State, script: seq<Attempt>, trace: seq<Outcome>, n: nat)
    requires M.ConfigOK(env.limiter) && env.limiter.tokenLimiting && s.l.available <= env.limiter.capacity
    requires TraceOK(env, s, script, trace) && n <= |trace|
    requires forall i :: 0 <= i < n ==> Frozen(script[i], s.l.lastRefill)
    ensures
      var after := At(env, s, script, trace, n).l;
      && after.available == s.l.available - CostOf(env.units, script, trace, n)
      && after.available <= env.limiter.capacity && after.lastRefill == s.l.lastRefill
  {
    if n > 0 {
      FrozenCharge(env, s, script, trace, n - 1);
      assert AttemptOK(env, s, script, trace, n - 1);
      if !trace[n - 1].Rejected? {
        FrozenCost(env, At(env, s, script, trace, n - 1).l, script[n - 1], trace[n - 1]);
      }
    }
  }

  // Whether an attempt failed at the provider in a way the breaker counts.
  predicate Outage(o: Outcome) {
    o.Called? && C.Classify(ErrorOf(o)).Failure?
  }

  function Outages(trace: seq<Outcome>, n: nat): (k: nat)
    requires n <= |trace|
    ensures k <= n
  {
    if n == 0 then 0 else Outages(trace, n - 1) + if Outage(trace[n - 1]) then 1 else 0
  }

  // No backoff outlasts OpenTimeout.
  predicate Brisk(cfg: C.CircuitConfig, script: seq<Attempt>) {
    forall i :: 0 < i < |script| ==> Soon(cfg, script[i - 1], script[i])
  }

  predicate Soon(cfg: C.CircuitConfig, a: Attempt, b: Attempt) {
    b.now - a.recordAt < cfg.openTimeout
  }

  // The breaker after an attempt at last, with `left` failures to go before.
  predicate Counting(cfg: C.CircuitConfig, b: C.State, left: int, last: Option<Attempt>) {
    && (b.circuit.Closed? ==> b.failures == cfg.failureThreshold - left && left > 0)
    && (b.circuit.Open? ==> left == 0 && last.Some? && b.openedAt == last.value.recordAt)
    && !b.circuit.HalfOpen?
  }

  lemma CountingStep(env: Env, s: State, left: int, last: Option<Attempt>, a: Attempt, o: Outcome)
    requires Counting(env.breaker, s.b, left, last) && OutcomeOK(env, s, a, o)
    requires (last.Some? ==> Soon(env.breaker, last.value, a))
    ensures left >= if Outage(o) then 1 else 0
    ensures GoesOn(o) ==> Counting(env.breaker, Next(env, s, a, o).b, left - (if Outage(o) then 1 else 0), Some(a))
  {
  }

  lemma {:induction false} CountingAt(env: Env, s: State, script: seq<Attempt>, trace: seq<Outcome>, n: nat)
    requires TraceOK(env, s, script, trace) && n < |trace| && Brisk(env.breaker, script)
    requires s.b.circuit.Closed? && s.b.failures < env.breaker.failureThreshold
    ensures Counting(env.breaker, At(env, s, script, trace, n).b,
        env.breaker.failureThreshold - s.b.failures - Outages(trace, n),
              if n == 0 then None else Some(script[n - 1]))
  {
    if n > 0 {
      CountingAt(env, s, script, trace, n - 1);
      assert AttemptOK(env, s, script, trace, n - 1) && GoesOn(trace[n - 1]);
      assert n > 1 ==> Soon(env.breaker, script[n - 2], script[n - 1]);
      CountingStep(env, At(env, s, script, trace, n - 1),
          env.breaker.failureThreshold - s.b.failures - Outages(trace, n - 1),
        if n == 1 then None else Some(script[n - 2]), script[n - 1], trace[n - 1]);
    }
  }

  // The attempts that failed at the provider, retryably or not.
  function ProviderFailures(trace: seq<Outcome>, n: nat): (k: nat)
    requires n <= |trace|
    ensures k <= n
  {
    if n == 0 then 0 else ProviderFailures(trace, n - 1) + if FailedAtProvider(trace[n - 1]) then 1 else 0
  }

  predicate FailedAtProvider(o: Outcome) {
    o.Called? && o.reply.Failed?
  }

  // The provider's own errors carry no limiter's rejection.
  predicate ProviderOnly(trace: seq<Outcome>) {
    forall i :: 0 <= i < |trace| && FailedAtProvider(trace[i]) ==> AsLimit(trace[i].reply.err).None?
  }

  // Short of the last attempt every failure at the provider was retried, so
  // the breaker counted it.
  lemma {:induction false} RetriedAreOutages(env: Env, s: State, script: seq<Attempt>, trace: seq<Outcome>, n: nat)
    requires TraceOK(env, s, script, trace) && n < |trace| && ProviderOnly(trace)
    ensures ProviderFailures(trace, n) == Outages(trace, n)
  {
    if n > 0 {
      RetriedAreOutages(env, s, script, trace, n - 1);
      assert GoesOn(trace[n - 1]);
    }
  }

  // A dying provider is spared: from a Closed breaker with f failures, the
  // whole loop fails at the provider at most FailureThreshold - f times,
  // whatever the failures, however many attempts it may make.
  lemma OutageBound(env: Env, s: State, script: seq<Attempt>, trace: seq<Outcome>)
    requires TraceOK(env, s, script, trace) && Brisk(env.breaker, script) && ProviderOnly(trace)
    requires s.b.circuit.Closed? && s.b.failures < env.breaker.failureThreshold
    ensures ProviderFailures(trace, |trace|) <= env.breaker.failureThreshold - s.b.failures
  {
    if |trace| > 0 {
      var n := |trace| - 1;
      CountingAt(env, s, script, trace, n);
      RetriedAreOutages(env, s, script, trace, n);
      assert AttemptOK(env, s, script, trace, n);
      assert n > 0 ==> Soon(env.breaker, script[n - 1], script[n]);
      LastIsSpared(env, At(env, s, script, trace, n), env.breaker.failureThreshold - s.b.failures - Outages(trace, n),
        if n == 0 then None else Some(script[n - 1]), script[n], trace[n]);
    }
  }

  // An attempt that reaches the provider found a failure still to go.
  lemma LastIsSpared(env: Env, s: State, left: int, last: Option<Attempt>, a: Attempt, o: Outcome)
    requires Counting(env.breaker, s.b, left, last) && OutcomeOK(env, s, a, o)
    requires (last.Some? ==> Soon(env.breaker, last.value, a))
    ensures left >= if o.Called? then 1 else 0
  {
  }

  // The failures the breaker counts are bounded alike, whatever the errors.
  lemma CountedOutageBound(env: Env, s: State, script: seq<Attempt>, trace: seq<Outcome>)
    requires TraceOK(env, s, script, trace) && Brisk(env.breaker, script)
    requires s.b.circuit.Closed? && s.b.failures < env.breaker.failureThreshold
    ensures Outages(trace, |trace|) <= env.breaker.failureThreshold - s.b.failures
  {
    if |trace| > 0 {
      var n := |trace| - 1;
      CountingAt(env, s, script, trace, n);
      assert AttemptOK(env, s, script, trace, n);
      assert n > 0 ==> Soon(env.breaker, script[n - 1], script[n]);
      CountingStep(env, At(env, s, script, trace, n), env.breaker.failureThreshold - s.b.failures - Outages(trace, n),
        if n == 0 then None else Some(script[n - 1]), script[n], trace[n]);
    }
  }
}
