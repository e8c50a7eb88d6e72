// bucket/memory: the process-local bucket, one token balance and one count of
// live leases per key.
module MemoryBucket {
  import opened Messages
  import opened Limits
  import BucketCore

  // ---------- One key ----------

  datatype Key = Key(limits: Limits, balance: real, lastRefill: int, live: int)

  function Fresh(limits: Limits, now: int): Key {
    Key(limits, limits.Capacity() as real, now, 0)
  }

  function Settled(k: Key, now: int): Key {
    k.(balance := BucketCore.Settle(k.limits, k.balance, k.lastRefill, now), lastRefill := now)
  }

  predicate Admits(k: Key, tokens: int, now: int) {
    !BucketCore.Impossible(k.limits, tokens) && BucketCore.Fits(k.limits, Settled(k, now).balance, tokens, k.live)
  }

  // An attempt settles the refill unless the request can never fit.
  function Attempted(k: Key, tokens: int, now: int): Key {
    if BucketCore.Impossible(k.limits, tokens) then k
    else
      var s := Settled(k, now);
      if Admits(k, tokens, now) then
        s.(balance := if k.limits.TokenLimited() then s.balance - tokens as real else s.balance, live := s.live + 1)
      else s
  }

  function Reconciled(k: Key, charged: int, actual: int, now: int): Key {
    var s := Settled(k, now);
    s.(balance := BucketCore.Adjusted(k.limits, s.balance, charged, actual))
  }

  function Released(k: Key): Key {
    k.(live := if k.live - 1 > 0 then k.live - 1 else 0)
  }

  class KeyState {
    const limits: Limits
    var balance: real
    var lastRefill: int
    var live: int

    function View(): Key
      reads this
    {
      Key(limits, balance, lastRefill, live)
    }

    constructor (limits: Limits, now: int)
      ensures View() == Fresh(limits, now)
    {
      this.limits := limits;
      balance, lastRefill, live := limits.Capacity() as real, now, 0;
    }

    method SettleLocked(now: int)
      modifies this`balance, this`lastRefill
      ensures View() == Settled(old(View()), now)
    {
      balance := BucketCore.Settle(limits, balance, lastRefill, now);
      lastRefill := now;
    }
  }

  datatype Result = Admitted(lease: Lease) | Impossible | Wait(retryAfter: int) | UnknownKey | ContextDone

  class Limiter {
    const limits: map<string, Limits>
    const fallback: Option<Limits>
    var state: map<string, KeyState>

    // Every key has a state of its own.
    ghost predicate Valid()
      reads this
    {
      forall a, b :: a in state && b in state && a != b ==> state[a] != state[b]
    }

    function LimitsOf(key: string): Option<Limits> {
      if key in limits then Some(limits[key]) else fallback
    }

    constructor (limits: map<string, Limits>, fallback: Option<Limits>)
      ensures Valid() && this.limits == limits && this.fallback == fallback && state == map[]
    {
      this.limits, this.fallback, state := limits, fallback, map[];
    }

    method StateLocked(key: string, now: int) returns (s: Option<KeyState>)
      requires Valid()
      modifies this`state
      ensures Valid()
      ensures key in old(state) ==> s == Some(old(state)[key]) && state == old(state)
      ensures key !in old(state) && LimitsOf(key).None? ==> s.None? && state == old(state)
      ensures key !in old(state) && LimitsOf(key).Some? ==>
                s.Some? && fresh(s.value) && s.value.View() == Fresh(LimitsOf(key).value, now)
                    && state == old(state)[key := s.value]
    {
      if key in state {
        return Some(state[key]);
      }
      var l := LimitsOf(key);
      if l.None? {
        return None;
      }
      var k := new KeyState(l.value, now);
      state := state[key := k];
      return Some(k);
    }

    // What the limiter knows of a key before an attempt.
    ghost function Known(key: string, now: int): Option<Key>
      reads this, state.Values
    {
      if key in state then Some(state[key].View())
      else if LimitsOf(key).Some? then Some(Fresh(LimitsOf(key).value, now))
      else None
    }

    // One attempt, under the mutex; first is the clock when a new key's state
    // is created, now when it is settled. A context that is done charges
    // nothing, and no other key is touched.
    method TryAcquire(key: string, requested: int, first: int, now: int, done: bool) returns (res: Result)
      requires Valid()
      modifies this`state, state.Values
      ensures Valid()
      ensures res.ContextDone? <==> done
      ensures done ==> state == old(state)
      ensures forall other :: other in old(state) && other != key ==>
                other in state && state[other] == old(state)[other] && state[other].View() == old(state[other].View())
      ensures !done ==> (res.UnknownKey? <==> old(Known(key, first)).None?)
      ensures !done && old(Known(key, first)).Some? ==>
                var k, tokens := old(Known(key, first)).value, if requested < 0 then 0 else requested;
                && key in state && state[key].View() == Attempted(k, tokens, now)
                && (res.Impossible? <==> BucketCore.Impossible(k.limits, tokens))
                && (res.Admitted? <==> Admits(k, tokens, now))
                && (res.Admitted? ==>
                      && fresh(res.lease) && res.lease.state == state[key] && res.lease.tokens == tokens
                      && !res.lease.adjusted && !res.lease.released)
                && (res.Wait? ==> res.retryAfter == BucketCore.RetryAfter(k.limits, Settled(k, now).balance, tokens))
    {
      if done {
        return ContextDone;
      }
      var tokens: nat := if requested < 0 then 0 else requested;
      var found := StateLocked(key, first);
      if found.None? {
        return UnknownKey;
      }
      var s := found.value;
      if BucketCore.Impossible(s.limits, tokens) {
        return Impossible;
      }
      s.SettleLocked(now);
      if !BucketCore.Fits(s.limits, s.balance, tokens, s.live) {
        return Wait(BucketCore.RetryAfter(s.limits, s.balance, tokens));
      }
      if s.limits.TokenLimited() {
        s.balance := s.balance - tokens as real;
      }
      s.live := s.live + 1;
      var lease := new Lease(s, tokens);
      return Admitted(lease);
    }
  }

  class Lease {
    const state: KeyState
    const tokens: nat
    var adjusted: bool
    var released: bool

    constructor (state: KeyState, tokens: nat)
      ensures this.state == state && this.tokens == tokens && !adjusted && !released
    {
      this.state, this.tokens := state, tokens;
      adjusted, released := false, false;
    }

    method Adjust(actualTokens: int, now: int)
      modifies this`adjusted, state`balance, state`lastRefill
      ensures adjusted
      ensures state.View() ==
              if old(adjusted) then old(state.View())
              else Reconciled(old(state.View()), tokens, if actualTokens < 0 then 0 else actualTokens, now)
    {
      if adjusted {
        return;
      }
      adjusted := true;
      state.SettleLocked(now);
      var actual := if actualTokens < 0 then 0 else actualTokens;
      state.balance := BucketCore.Adjusted(state.limits, state.balance, tokens, actual);
    }

    method Release()
      modifies this`released, state`live
      ensures released
      ensures state.View() == if old(released) then old(state.View()) else Released(old(state.View()))
    {
      if released {
        return;
      }
      released := true;
      state.live := if state.live - 1 > 0 then state.live - 1 else 0;
    }
  }

  // ---------- Whole runs of one key ----------

  datatype Held = Held(tokens: nat, adjusted: bool, released: bool)

  datatype Event = Attempt(tokens: nat, now: int) | AdjustTo(id: nat, actual: nat, now: int) | ReleaseOf(id: nat)

  // net is the net charge, credited what the settles added up to, before the cap.
  datatype Run = Run(k: Key, held: seq<Held>, net: int, credited: real)

  function Apply(r: Run, e: Event): Run {
    match e
    case Attempt(tokens, now) =>
      if BucketCore.Impossible(r.k.limits, tokens) then r
      else
        var credited := r.credited + BucketCore.Accrued(r.k.limits, r.k.lastRefill, now);
        if Admits(r.k, tokens, now) then
          Run(Attempted(r.k, tokens, now), r.held + [Held(tokens, false, false)], r.net + tokens, credited)
        else r.(k := Attempted(r.k, tokens, now), credited := credited)
    case AdjustTo(id, actual, now) =>
      if id >= |r.held| || r.held[id].adjusted then r
      else
        Run(Reconciled(r.k, r.held[id].tokens, actual, now), r.held[id := r.held[id].(adjusted := true)],
            r.net + actual - r.held[id].tokens, r.credited + BucketCore.Accrued(r.k.limits, r.k.lastRefill, now))
    case ReleaseOf(id) =>
      if id >= |r.held| || r.held[id].released then r
      else r.(k := Released(r.k), held := r.held[id := r.held[id].(released := true)])
  }

  function After(r: Run, events: seq<Event>): Run {
    if events == [] then r else Apply(After(r, events[..|events| - 1]), events[|events| - 1])
  }

  function Start(limits: Limits, now: int): Run {
    Run(Fresh(limits, now), [], 0, 0.0)
  }

  function Unreleased(held: seq<Held>): nat {
    if held == [] then 0 else Unreleased(held[..|held| - 1]) + if held[|held| - 1].released then 0 else 1
  }

  lemma {:induction false} UnreleasedUpdate(held: seq<Held>, id: nat, h: Held)
    requires id < |held|
    ensures Unreleased(held[id := h]) ==
            Unreleased(held) - (if held[id].released then 0 else 1) + if h.released then 0 else 1
    ensures !held[id].released ==> Unreleased(held) >= 1
  {
    var front := held[..|held| - 1];
    if id == |held| - 1 {
      assert held[id := h][..|held| - 1] == front;
    } else {
      UnreleasedUpdate(front, id, h);
      assert held[id := h][..|held| - 1] == front[id := h];
    }
  }

  ghost predicate LiveOK(r: Run) {
    r.k.live == Unreleased(r.held) && (r.k.limits.SlotLimited() ==> r.k.live <= r.k.limits.maxConcurrency)
  }

  ghost predicate TokensOK(r: Run) {
    r.k.limits.TokenLimited() ==>
      && r.k.balance <= r.k.limits.Capacity() as real
      && r.k.balance + r.net as real <= r.k.limits.Capacity() as real + r.credited
  }

  lemma LiveKept(r: Run, e: Event)
    requires LiveOK(r)
    ensures LiveOK(Apply(r, e))
  {
    match e
    case Attempt(tokens, now) =>
      assert (r.held + [Held(tokens, false, false)])[..|r.held|] == r.held;
    case AdjustTo(id, _, _) =>
      if id < |r.held| {
        UnreleasedUpdate(r.held, id, r.held[id].(adjusted := true));
      }
    case ReleaseOf(id) =>
      if id < |r.held| {
        UnreleasedUpdate(r.held, id, r.held[id].(released := true));
      }
  }

  lemma TokensKept(r: Run, e: Event)
    requires TokensOK(r)
    ensures TokensOK(Apply(r, e))
  {
  }

  // In every run the live count is that of the unreleased leases, within the
  // limit, so that Release's floor at 0 never bites; the balance is within the
  // capacity; and at each admission the net charge is at most the capacity
  // plus what was credited.
  lemma {:induction false} RunsOK(limits: Limits, start: int, events: seq<Event>)
    ensures LiveOK(After(Start(limits, start), events)) && TokensOK(After(Start(limits, start), events))
    ensures After(Start(limits, start), events).k.limits == limits
  {
    if events != [] {
      var front := events[..|events| - 1];
      RunsOK(limits, start, front);
      LiveKept(After(Start(limits, start), front), events[|events| - 1]);
      TokensKept(After(Start(limits, start), front), events[|events| - 1]);
    }
  }

  function Time(e: Event, last: int): int {
    match e
    case Attempt(_, now) => now
    case AdjustTo(_, _, now) => now
    case ReleaseOf(_) => last
  }

  // The clock never turns back.
  ghost predicate Monotone(limits: Limits, start: int, events: seq<Event>) {
    events == [] ||
    var front, last := events[..|events| - 1], events[|events| - 1];
    var before := After(Start(limits, start), front).k.lastRefill;
    Monotone(limits, start, front) && Time(last, before) >= before
  }

  // Under a monotone clock the credit is exactly what accrued since the start.
  lemma {:induction false} MonotoneCredit(limits: Limits, start: int, events: seq<Event>)
    requires Monotone(limits, start, events)
    ensures
      var r := After(Start(limits, start), events);
      r.k.limits == limits && r.k.lastRefill >= start && r.credited == BucketCore.Accrued(limits, start, r.k.lastRefill)
  {
    if events != [] {
      var front, last := events[..|events| - 1], events[|events| - 1];
      MonotoneCredit(limits, start, front);
      var before := After(Start(limits, start), front).k.lastRefill;
      BucketCore.AccruedAdds(limits, start, before, Time(last, before));
    }
  }

  // So then an admission finds the net charge within capacity plus rate times
  // elapsed.
  lemma AdmissionChargeBound(limits: Limits, start: int, events: seq<Event>, tokens: nat, now: int)
    requires limits.TokenLimited() && Monotone(limits, start, events + [Attempt(tokens, now)])
    requires Admits(After(Start(limits, start), events).k, tokens, now)
    ensures
      var after := After(Start(limits, start), events + [Attempt(tokens, now)]);
      after.net as real <= limits.Capacity() as real + BucketCore.Accrued(limits, start, now)
  {
    var all := events + [Attempt(tokens, now)];
    assert all[..|all| - 1] == events;
    RunsOK(limits, start, events);
    RunsOK(limits, start, all);
    MonotoneCredit(limits, start, all);
    assert After(Start(limits, start), all).k.balance >= 0.0;
  }

  // When the clock steps back and forth the same time is credited again: an
  // empty bucket is refilled a second time for the minute it already counted.
  const MINUTE := 60_000_000_000
  const PER_SECOND := Limits(60, 0, 1.0)

  lemma PerSecond()
    ensures PER_SECOND.Capacity() == 60 && PER_SECOND.RefillPerSecond() == 1.0
    ensures BucketCore.Accrued(PER_SECOND, 0, MINUTE) == 60.0
  {
  }

  lemma SpendsMinute(r: Run)
    requires r.k.limits == PER_SECOND && r.k.balance == 0.0 && r.k.lastRefill == 0
    ensures Admits(r.k, 60, MINUTE)
    ensures
      var after := Apply(r, Attempt(60, MINUTE));
      after.k.limits == PER_SECOND && after.k.balance == 0.0 && after.k.lastRefill == MINUTE && after.net == r.net + 60
  {
    PerSecond();
  }

  lemma StepsBack(r: Run)
    requires r.k.limits == PER_SECOND && r.k.balance == 0.0
    ensures
      var after := Apply(r, Attempt(1, 0));
      r.k.lastRefill >= 0 ==>
        after.k.limits == PER_SECOND && after.k.balance == 0.0 && after.k.lastRefill == 0 && after.net == r.net
  {
    PerSecond();
  }

  lemma SpendsAll()
    ensures
      var after := Apply(Start(PER_SECOND, 0), Attempt(60, 0));
      after.k.limits == PER_SECOND && after.k.balance == 0.0 && after.k.lastRefill == 0 && after.net == 60
  {
    PerSecond();
  }

  lemma AfterThree(r: Run, a: Event, b: Event, c: Event)
    ensures After(r, [a, b, c]) == Apply(Apply(Apply(r, a), b), c)
  {
    assert [a, b, c][..2] == [a, b] && [a, b][..1] == [a] && [a][..0] == [];
    assert After(r, [a]) == Apply(r, a);
    assert After(r, [a, b]) == Apply(Apply(r, a), b);
  }

  lemma ClockBackCreditsTwice()
    ensures
      var r := After(Start(PER_SECOND, 0), [Attempt(60, 0), Attempt(60, MINUTE), Attempt(1, 0)]);
      && Admits(r.k, 60, MINUTE)
      && Apply(r, Attempt(60, MINUTE)).net as real > 
            PER_SECOND.Capacity() as real + BucketCore.Accrued(PER_SECOND, 0, MINUTE)
  {
    var r0 := Start(PER_SECOND, 0);
    AfterThree(r0, Attempt(60, 0), Attempt(60, MINUTE), Attempt(1, 0));
    SpendsAll();
    var r1 := Apply(r0, Attempt(60, 0));
    SpendsMinute(r1);
    var r2 := Apply(r1, Attempt(60, MINUTE));
    StepsBack(r2);
    SpendsMinute(Apply(r2, Attempt(1, 0)));
    PerSecond();
  }
}
