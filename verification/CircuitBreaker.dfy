// llms/middleware/circuit.go: the three-state breaker and its concurrent
// callers.
module CircuitBreaker {
  import opened Messages
  import opened Errors

  datatype CircuitConfig = CircuitConfig(failureThreshold: int, successThreshold: int, openTimeout: int) {
    function Normalized(): (c: CircuitConfig)
      ensures c.OK() && (OK() <==> c == this)
    {
      CircuitConfig(
        if failureThreshold < 1 then 5 else failureThreshold,
        if successThreshold < 1 then 3 else successThreshold,
        if openTimeout <= 0 then 30_000_000_000 else openTimeout)
    }

    predicate OK() { failureThreshold >= 1 && successThreshold >= 1 && openTimeout > 0 }
  }

  datatype Circuit = Closed | Open | HalfOpen

  datatype State = State(circuit: Circuit, failures: int, successes: int, probing: bool, openedAt: int)

  datatype Result = Success | Failure | Neutral

  // Only retryable failures count, and never a limiter's rejection.
  function Classify(err: Option<Fault>): Result {
    match err
    case None => Success
    case Some(f) => if Retryable(f) && AsLimit(f).None? then Failure else Neutral
  }

  // What counts, and what does not: a failure is a provider error of a
  // retryable kind with no limiter rejection anywhere in its chain.
  lemma {:induction false} CountsExactlyWhen(f: Fault)
    ensures Classify(Some(f)) == Failure <==>
            AsLimit(f).None? && AsProvider(f).Some? && RetryableKind(AsProvider(f).value.kind)
    ensures f.LimitError? || f.CircuitOpen? || f.Canceled? ==> Classify(Some(f)) == Neutral
  {
  }

  // ---------- The transitions ----------

  predicate Admits(cfg: CircuitConfig, s: State, now: int) {
    match s.circuit
    case Closed => true
    case Open => cfg.openTimeout - (now - s.openedAt) <= 0
    case HalfOpen => !s.probing
  }

  // What a rejection reports: the rest of OpenTimeout, or nothing for a probe in flight.
  function Remaining(cfg: CircuitConfig, s: State, now: int): int {
    if s.circuit.Open? then cfg.openTimeout - (now - s.openedAt) else 0
  }

  function Admitted(s: State): State {
    match s.circuit
    case Closed => s
    case Open => s.(circuit := HalfOpen, successes := 0, probing := true)
    case HalfOpen => s.(probing := true)
  }

  function Tripped(now: int): State {
    State(Open, 0, 0, false, now)
  }

  function Recorded(cfg: CircuitConfig, s: State, r: Result, now: int): State {
    if r.Neutral? then (if s.circuit.HalfOpen? then s.(probing := false) else s)
    else match s.circuit
      case Closed =>
        if r.Success? then s.(failures := 0)
        else if s.failures + 1 >= cfg.failureThreshold then Tripped(now)
        else s.(failures := s.failures + 1)
      case HalfOpen =>
        if r.Failure? then Tripped(now)
        else if s.successes + 1 >= cfg.successThreshold then State(Closed, 0, 0, false, s.openedAt)
        else s.(successes := s.successes + 1, probing := false)
      case Open =>
        if r.Failure? then Tripped(now) else s
  }

  class Breaker {
    const cfg: CircuitConfig
    var circuit: Circuit
    var failures: int
    var successes: int
    var probing: bool
    var openedAt: int

    function View(): State
      reads this
    {
      State(circuit, failures, successes, probing, openedAt)
    }

    constructor (cfg: CircuitConfig)
      ensures this.cfg == cfg.Normalized() && View() == State(Closed, 0, 0, false, 0)
    {
      this.cfg := cfg.Normalized();
      circuit, failures, successes, probing, openedAt := Closed, 0, 0, false, 0;
    }

    method Allow(now: int) returns (err: Option<Fault>)
      modifies this
      ensures err.None? <==> Admits(cfg, old(View()), now)
      ensures View() == if err.None? then Admitted(old(View())) else old(View())
      ensures err.Some? ==> err.value == CircuitOpen(Remaining(cfg, View(), now))
    {
      match circuit {
        case Closed =>
          return None;
        case Open =>
          var remaining := cfg.openTimeout - (now - openedAt);
          if remaining > 0 {
            return Some(CircuitOpen(remaining));
          }
          circuit := HalfOpen;
          successes := 0;
          probing := true;
          return None;
        case HalfOpen =>
          if probing {
            return Some(CircuitOpen(0));
          }
          probing := true;
          return None;
      }
    }

    method Record(err: Option<Fault>, now: int)
      modifies this
      ensures View() == Recorded(cfg, old(View()), Classify(err), now)
    {
      var success := err.None?;
      var failure := err.Some? && Retryable(err.value) && AsLimit(err.value).None?;
      if !success && !failure {
        if circuit.HalfOpen? {
          probing := false;
        }
        return;
      }
      match circuit {
        case Closed =>
          if failure {
            failures := failures + 1;
            if failures >= cfg.failureThreshold {
              Trip(now);
            }
            return;
          }
          failures := 0;
        case HalfOpen =>
          if failure {
            Trip(now);
            return;
          }
          successes := successes + 1;
          if successes >= cfg.successThreshold {
            circuit := Closed;
            failures := 0;
            successes := 0;
          }
          probing := false;
        case Open =>
          if failure {
            Trip(now);
          }
      }
    }

    method Trip(now: int)
      modifies this
      ensures View() == Tripped(now)
    {
      circuit := Open;
      openedAt := now;
      failures := 0;
      successes := 0;
      probing := false;
    }
  }

  // ---------- Concurrent callers ----------

  datatype Event = Call(now: int) | Finish(id: nat, result: Result, now: int)

  // inFlight holds the admitted calls that have not recorded; prober is the
  // one that last set probing. log is what was recorded since the circuit
  // last changed, and clean says that no call was in flight then.
  datatype System = System(s: State, inFlight: set<nat>, next: nat, prober: nat, log: seq<Result>, clean: bool)

  const START := System(State(Closed, 0, 0, false, 0), {}, 0, 0, [], true)

  function Apply(cfg: CircuitConfig, y: System, e: Event): System {
    match e
    case Call(now) =>
      if !Admits(cfg, y.s, now) then y
      else
        var s := Admitted(y.s);
        System(
          s, y.inFlight + {y.next}, y.next + 1,
          if s.circuit.Closed? then y.prober else y.next,
          if s.circuit == y.s.circuit then y.log else [],
          if s.circuit == y.s.circuit then y.clean else y.inFlight == {})
    case Finish(id, result, now) =>
      if id !in y.inFlight then y
      else
        var s, inFlight := Recorded(cfg, y.s, result, now), y.inFlight - {id};
        if s.circuit == y.s.circuit then y.(s := s, inFlight := inFlight, log := y.log + [result])
        else System(s, inFlight, y.next, y.prober, [], inFlight == {})
  }

  function After(cfg: CircuitConfig, y: System, events: seq<Event>): System {
    if events == [] then y else Apply(cfg, After(cfg, y, events[..|events| - 1]), events[|events| - 1])
  }

  // ---------- Outcome histories ----------

  function Counting(log: seq<Result>): (c: seq<Result>)
    ensures |c| <= |log| && Neutral !in c
  {
    if log == [] then []
    else
      var front, last := Counting(log[..|log| - 1]), log[|log| - 1];
      if last.Neutral? then front else front + [last]
  }

  // The failures since the last success, neutral results aside.
  function Streak(log: seq<Result>): (n: nat)
    ensures n <= |log|
  {
    if log == [] then 0
    else match log[|log| - 1]
      case Success => 0
      case Failure => Streak(log[..|log| - 1]) + 1
      case Neutral => Streak(log[..|log| - 1])
  }

  predicate LastAllFailed(log: seq<Result>, n: nat) {
    var c := Counting(log);
    |c| >= n && forall i :: |c| - n <= i < |c| ==> c[i].Failure?
  }

  function Successes(log: seq<Result>): (n: nat)
    ensures n <= |log|
  {
    if log == [] then 0
    else Successes(log[..|log| - 1]) + if log[|log| - 1].Success? then 1 else 0
  }

  lemma {:induction false} StreakIs(log: seq<Result>, n: nat)
    ensures Streak(log) >= n <==> LastAllFailed(log, n)
  {
    if log != [] {
      var front, last := log[..|log| - 1], log[|log| - 1];
      var c, d := Counting(log), Counting(front);
      match last
      case Neutral =>
        StreakIs(front, n);
      case Success =>
        assert c[|c| - 1] == Success;
      case Failure =>
        if n > 0 {
          StreakIs(front, n - 1);
          assert c == d + [Failure];
          if LastAllFailed(front, n - 1) {
            forall i | |c| - n <= i < |c| ensures c[i].Failure? {}
          }
          if LastAllFailed(log, n) {
            forall i | |d| - (n - 1) <= i < |d| ensures d[i].Failure? {
              assert c[i] == d[i];
            }
          }
        }
    }
  }

  // ---------- Invariants of every run ----------

  ghost predicate CountersOK(cfg: CircuitConfig, y: System) {
    match y.s.circuit
    case Closed => y.s.failures == Streak(y.log) < cfg.failureThreshold && y.s.successes == 0
    case HalfOpen => y.s.failures == 0 && y.s.successes == Successes(y.log) < cfg.successThreshold && Failure !in y.log
    case Open => y.s.failures == 0 && y.s.successes == 0
  }

  ghost predicate ProbeOK(y: System) {
    && (forall id :: id in y.inFlight ==> id < y.next)
    && (y.s.probing ==> y.s.circuit.HalfOpen? && y.prober in y.inFlight)
    && (y.s.circuit.HalfOpen? && y.clean ==> y.inFlight == if y.s.probing then {y.prober} else {})
  }

  ghost predicate SystemOK(cfg: CircuitConfig, y: System) {
    CountersOK(cfg, y) && ProbeOK(y)
  }

  lemma CountersKept(cfg: CircuitConfig, y: System, e: Event)
    requires cfg.OK() && CountersOK(cfg, y)
    ensures CountersOK(cfg, Apply(cfg, y, e))
  {
    if e.Finish? {
      assert (y.log + [e.result])[..|y.log|] == y.log;
    }
  }

  lemma ProbeKept(cfg: CircuitConfig, y: System, e: Event)
    requires ProbeOK(y)
    ensures ProbeOK(Apply(cfg, y, e))
  {
  }

  lemma {:induction false} RunsOK(cfg: CircuitConfig, events: seq<Event>)
    requires cfg.OK()
    ensures SystemOK(cfg, After(cfg, START, events))
  {
    if events != [] {
      var front := events[..|events| - 1];
      RunsOK(cfg, front);
      CountersKept(cfg, After(cfg, START, front), events[|events| - 1]);
      ProbeKept(cfg, After(cfg, START, front), events[|events| - 1]);
    }
  }

  // In every run: a call finishing while Closed opens the circuit exactly when
  // the last FailureThreshold counting results of that phase, its own last,
  // are all failures.
  lemma OpensExactlyWhen(cfg: CircuitConfig, events: seq<Event>, e: Event)
    requires cfg.OK()
    requires var y := After(cfg, START, events); e.Finish? && e.id in y.inFlight && y.s.circuit.Closed?
    ensures
      var y := After(cfg, START, events);
      Apply(cfg, y, e).s.circuit ==
          (if e.result.Failure? && LastAllFailed(y.log + [e.result], cfg.failureThreshold) then Open else Closed)
  {
    var y := After(cfg, START, events);
    RunsOK(cfg, events);
    assert (y.log + [e.result])[..|y.log|] == y.log;
    StreakIs(y.log + [e.result], cfg.failureThreshold);
  }

  // A call finishing while HalfOpen reopens it exactly on a failure, and
  // closes it exactly when its success is the SuccessThreshold-th since the
  // phase began.
  lemma ClosesExactlyWhen(cfg: CircuitConfig, events: seq<Event>, e: Event)
    requires cfg.OK()
    requires var y := After(cfg, START, events); e.Finish? && e.id in y.inFlight && y.s.circuit.HalfOpen?
    ensures
      var y := After(cfg, START, events);
      Apply(cfg, y, e).s.circuit ==
        (if e.result.Failure? then Open
         else if e.result.Success? && Successes(y.log + [e.result]) == cfg.successThreshold then Closed
         else HalfOpen)
  {
    var y := After(cfg, START, events);
    RunsOK(cfg, events);
    assert (y.log + [e.result])[..|y.log|] == y.log;
  }

  // The single-flight gate is never left shut: probing means HalfOpen with
  // the call that shut it still in flight, so once nothing is in flight and an
  // Open circuit's timeout has passed, the next call is admitted.
  lemma {:induction false} NeverWedged(cfg: CircuitConfig, events: seq<Event>, now: int)
    requires cfg.OK()
    ensures
      var y := After(cfg, START, events);
      && (y.s.probing ==> y.s.circuit.HalfOpen? && y.prober in y.inFlight)
      && (y.inFlight == {} && (y.s.circuit.Open? ==> now - y.s.openedAt >= cfg.openTimeout) ==> Admits(cfg, y.s, now))
  {
    RunsOK(cfg, events);
  }

  // A HalfOpen phase entered with nothing in flight has at most one call in
  // flight throughout.
  lemma {:induction false} OneProbe(cfg: CircuitConfig, events: seq<Event>)
    requires cfg.OK()
    ensures
      var y := After(cfg, START, events);
      y.s.circuit.HalfOpen? && y.clean ==> |y.inFlight| <= 1
  {
    RunsOK(cfg, events);
  }

  // ---------- Calls that finish after the circuit opened ----------

  // Every call starts only when none is in flight.
  ghost predicate Sequential(cfg: CircuitConfig, y: System, events: seq<Event>) {
    forall i :: 0 <= i < |events| && events[i].Call? ==> After(cfg, y, events[..i]).inFlight == {}
  }

  ghost predicate QuietWhenOpen(y: System) {
    && |y.inFlight| <= 1 && (y.s.circuit.Open? ==> y.inFlight == {})
    && (forall id :: id in y.inFlight ==> id < y.next)
  }

  lemma QuietKept(cfg: CircuitConfig, y: System, e: Event)
    requires QuietWhenOpen(y) && (e.Call? ==> y.inFlight == {})
    ensures QuietWhenOpen(Apply(cfg, y, e))
  {
    if e.Finish? && e.id in y.inFlight {
      assert y.inFlight - {e.id} == {} by {
        assert |y.inFlight - {e.id}| == 0;
      }
    }
  }

  // Sequential callers never record into an open circuit.
  lemma {:induction false} SequentialNeverRecordsOpen(cfg: CircuitConfig, events: seq<Event>)
    requires Sequential(cfg, START, events)
    ensures After(cfg, START, events).s.circuit.Open? ==> After(cfg, START, events).inFlight == {}
    ensures QuietWhenOpen(After(cfg, START, events))
  {
    if events != [] {
      var front := events[..|events| - 1];
      forall i | 0 <= i < |front| && front[i].Call? ensures After(cfg, START, front[..i]).inFlight == {} {
        assert events[..i] == front[..i];
      }
      SequentialNeverRecordsOpen(cfg, front);
      QuietKept(cfg, After(cfg, START, front), events[|events| - 1]);
    }
  }

  // A step that opens the circuit leaves calls that can still record into it
  // exactly when the call that opened it was not the only one in flight.
  lemma OpeningLeavesCalls(cfg: CircuitConfig, y: System, e: Event)
    requires !y.s.circuit.Open? && Apply(cfg, y, e).s.circuit.Open?
    ensures e.Finish? && e.id in y.inFlight
    ensures Apply(cfg, y, e).inFlight != {} <==> y.inFlight != {e.id}
    ensures Apply(cfg, y, e).clean <==> Apply(cfg, y, e).inFlight == {}
  {
    if Apply(cfg, y, e).inFlight == {} {
      assert y.inFlight == (y.inFlight - {e.id}) + {e.id};
    }
  }

  // While it is Open no call is added, so in every run a call records into an
  // Open circuit only in a phase that was opened with others in flight.
  lemma {:induction false} OpenRecordsOnlyWhen(cfg: CircuitConfig, events: seq<Event>)
    ensures
      var y := After(cfg, START, events);
      y.s.circuit.Open? && y.clean ==> y.inFlight == {}
  {
    if events != [] {
      OpenRecordsOnlyWhen(cfg, events[..|events| - 1]);
    }
  }

  // Such a run, for any thresholds: one call more than the threshold is
  // admitted while Closed, and all of them fail.
  function Calls(n: nat, t: int): seq<Event> {
    if n == 0 then [] else Calls(n - 1, t) + [Call(t)]
  }

  function Failures(n: nat, t: int): seq<Event> {
    if n == 0 then [] else Failures(n - 1, t) + [Finish(n - 1, Failure, t)]
  }

  lemma AfterSnoc(cfg: CircuitConfig, y: System, events: seq<Event>, e: Event)
    ensures After(cfg, y, events + [e]) == Apply(cfg, After(cfg, y, events), e)
  {
    assert (events + [e])[..|events|] == events;
  }

  ghost predicate Admitting(y: System, n: nat) {
    y.s == START.s && y.next == n && forall id: nat :: id in y.inFlight <==> id < n
  }

  lemma OneMoreAdmitted(cfg: CircuitConfig, y: System, n: nat, t: int)
    requires Admitting(y, n)
    ensures Admitting(Apply(cfg, y, Call(t)), n + 1)
  {
  }

  lemma {:induction false} AllAdmitted(cfg: CircuitConfig, n: nat, t: int)
    ensures Admitting(After(cfg, START, Calls(n, t)), n)
  {
    if n > 0 {
      AllAdmitted(cfg, n - 1, t);
      AfterSnoc(cfg, START, Calls(n - 1, t), Call(t));
      OneMoreAdmitted(cfg, After(cfg, START, Calls(n - 1, t)), n - 1, t);
    }
  }

  ghost predicate Failed(cfg: CircuitConfig, y: System, n: nat, k: nat, t: int) {
    && y.s == (if k < cfg.failureThreshold then State(Closed, k, 0, false, START.s.openedAt)
      else State(Open, 0, 0, false, t))
    && forall id: nat :: id in y.inFlight <==> k <= id < n
  }

  lemma OneMoreFails(cfg: CircuitConfig, y: System, n: nat, k: nat, t: int)
    requires 0 < k <= cfg.failureThreshold && k <= n && Failed(cfg, y, n, k - 1, t)
    ensures Failed(cfg, Apply(cfg, y, Finish(k - 1, Failure, t)), n, k, t)
  {
    assert k - 1 in y.inFlight;
  }

  lemma {:induction false} AllFail(cfg: CircuitConfig, n: nat, k: nat, t: int)
    requires cfg.OK() && k <= cfg.failureThreshold && k <= n
    ensures Failed(cfg, After(cfg, START, Calls(n, t) + Failures(k, t)), n, k, t)
  {
    if k == 0 {
      AllAdmitted(cfg, n, t);
      assert Calls(n, t) + [] == Calls(n, t);
    } else {
      var front, last := Calls(n, t) + Failures(k - 1, t), Finish(k - 1, Failure, t);
      AllFail(cfg, n, k - 1, t);
      AfterSnoc(cfg, START, front, last);
      assert Calls(n, t) + Failures(k, t) == front + [last];
      OneMoreFails(cfg, After(cfg, START, front), n, k, t);
    }
  }

  // The last of those calls records into the Open circuit and starts the
  // timeout again.
  lemma ConcurrentRecordsOpen(cfg: CircuitConfig, t0: int, t1: int)
    requires cfg.OK()
    ensures
      var n: nat := cfg.failureThreshold;
      var y := After(cfg, START, Calls(n + 1, t0) + Failures(n, t0));
      && y.s == State(Open, 0, 0, false, t0) && y.inFlight == {n}
      && Apply(cfg, y, Finish(n, Failure, t1)).s == State(Open, 0, 0, false, t1)
  {
    AllFail(cfg, cfg.failureThreshold + 1, cfg.failureThreshold, t0);
  }
}
