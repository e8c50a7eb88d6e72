// llms/ratelimit/memory.go: the in-process token bucket and concurrency
// semaphore. Token counts are 64-bit integers, the refill carry a real.
module MemoryLimiter {
  import opened Messages
  import opened Satint
  import L = Limits
  import BucketCore

  // ---------- Specification over unbounded values ----------

  datatype Config = Config(capacity: int, maxConcurrency: int, rate: real, tokenLimiting: bool, slotLimiting: bool)

  datatype State = State(available: int, carry: real, lastRefill: int, active: int)

  predicate ConfigOK(cfg: Config) {
    && 0 <= cfg.capacity <= MAX_INT && 0 <= cfg.maxConcurrency <= MAX_INT
    && (cfg.tokenLimiting ==> cfg.capacity >= 1 && cfg.rate > 0.0)
    && (cfg.slotLimiting ==> cfg.maxConcurrency >= 1)
  }

  predicate StateOK(cfg: Config, s: State) {
    && MIN_INT <= s.available <= cfg.capacity
    && 0.0 <= s.carry < 1.0
    && 0 <= s.active <= MAX_INT
    && (cfg.slotLimiting ==> s.active <= cfg.maxConcurrency)
  }

  // How many tokens a carry loses on its way into the balance: one for each
  // whole 2^63 in it, since a full chunk adds 2^63 - 1 tokens for 2^63 of carry.
  function Lost(carry: real): int {
    (carry / L.TWO63).Floor
  }

  // The balance a carry fills up to, and what is left of the carry.
  function Consume(capacity: int, s: State): State {
    if s.carry < 1.0 then s
    else if s.available + s.carry.Floor - Lost(s.carry) >= capacity then s.(available := capacity, carry := 0.0)
    else s.(available := s.available + s.carry.Floor - Lost(s.carry), carry := s.carry - s.carry.Floor as real)
  }

  function Refill(cfg: Config, s: State, now: int): State {
    if !cfg.tokenLimiting || now <= s.lastRefill then s
    else Consume(cfg.capacity, Accrue(cfg, s, now))
  }

  function Accrue(cfg: Config, s: State, now: int): State {
    Credited(s, now, Credit(cfg, s, now))
  }

  // What accrued since the last refill.
  function Credit(cfg: Config, s: State, now: int): real {
    Seconds(now - s.lastRefill) * cfg.rate
  }

  function Credited(s: State, now: int, credit: real): State {
    s.(carry := s.carry + credit, lastRefill := now)
  }

  function Seconds(nanos: int): real {
    nanos as real / BucketCore.NANOS
  }

  predicate Admits(cfg: Config, s: State, tokens: int, slots: int) {
    && (cfg.tokenLimiting ==> s.available >= tokens)
    && (cfg.slotLimiting ==> slots <= cfg.maxConcurrency - s.active)
  }

  function Take(cfg: Config, s: State, tokens: int, slots: int): State {
    s.(available := if cfg.tokenLimiting then s.available - tokens else s.available, active := Clamp(s.active + slots))
  }

  function Reconcile(cfg: Config, s: State, delta: int): State {
    var balance := Clamp(s.available - delta);
    s.(available := if balance < cfg.capacity then balance else cfg.capacity)
  }

  function Free(s: State, slots: int): State {
    s.(active := if s.active - slots > 0 then s.active - slots else 0)
  }

  // ---------- Units and usage ----------

  datatype UsageUnits = UsageUnits(inputTokens: int64, outputTokensMax: int64, totalTokensMax: int64, requests: int64) {
    function Tokens(): (t: int64)
      ensures t >= 0
      ensures totalTokensMax > 0 ==> t == totalTokensMax
      ensures totalTokensMax <= 0 && inputTokens >= 0 && outputTokensMax >= 0 ==>
                t >= inputTokens && t >= outputTokensMax
    {
      var t := if totalTokensMax <= 0 then Add(inputTokens, outputTokensMax) else totalTokensMax;
      Max(t, 0)
    }

    function Slots(): (s: int64)
      ensures s >= 1 && (requests >= 1 ==> s == requests)
    {
      Max(requests, 1)
    }
  }

  // 64-bit usage counts of one response.
  datatype Counts = Counts(
    input: int64, output: int64, total: int64, reasoning: int64, billable: int64, embedding: int64)

  // The tokens charged for actual usage: never negative, and never less than
  // any count the provider reported.
  function EffectiveTokens(u: Counts): (t: int64)
    ensures t >= 0 && t >= u.input && t >= u.embedding && t >= u.total && t >= u.billable
    ensures u.billable <= 0 ==> t >= u.output && t >= u.reasoning
    ensures u.input <= 0 && u.output <= 0 && u.total <= 0 && u.reasoning <= 0 && u.billable <= 0 && u.embedding <= 0 ==>
              t == 0
    ensures u.billable > 0 && u.total <= 0 ==>
              t as int == Clamp(Max(Max(u.input, u.embedding), 0) as int + u.billable as int)
  {
    var input := Max(Max(u.input, u.embedding), 0);
    var output := if u.billable <= 0 then Add(Max(u.output, 0), Max(u.reasoning, 0)) else u.billable;
    Max(Add(input, output), u.total)
  }

  // ---------- The limiter ----------

  class InMemoryLimiter {
    const maxCapacity: int64
    const maxConcurrency: int64
    const refillPerSec: real
    const tokenLimiting: bool
    const slotLimiting: bool
    var lastRefill: int
    var tokenCarry: real
    var availableTok: int64
    var activeReqs: int64
    var tokenWaitHits: nat
    var slotWaitHits: nat

    ghost function Cfg(): Config {
      Config(maxCapacity as int, maxConcurrency as int, refillPerSec, tokenLimiting, slotLimiting)
    }

    ghost function View(): State
      reads this
    {
      State(availableTok as int, tokenCarry, lastRefill, activeReqs as int)
    }

    ghost predicate Valid()
      reads this
    {
      ConfigOK(Cfg()) && StateOK(Cfg(), View())
    }

    constructor (limits: L.Limits, now: int)
      requires limits.Validate() && limits.maxConcurrency <= MAX_INT
      ensures Valid()
      ensures Cfg() == Config(limits.Capacity(), limits.maxConcurrency, limits.RefillPerSecond(),
          limits.TokenLimited(), limits.SlotLimited())
      ensures View() == State(limits.Capacity(), 0.0, now, 0)
    {
      maxCapacity := limits.Capacity() as int64;
      maxConcurrency := limits.maxConcurrency as int64;
      refillPerSec := limits.RefillPerSecond();
      tokenLimiting := limits.TokenLimited();
      slotLimiting := limits.SlotLimited();
      lastRefill := now;
      tokenCarry := 0.0;
      availableTok := limits.Capacity() as int64;
      activeReqs := 0;
      tokenWaitHits, slotWaitHits := 0, 0;
    }

    // Adds the tokens accrued since the last refill. No addition overflows,
    // the loop runs at most three times, and the result is the closed form.
    method RefillLocked(now: int) returns (ghost chunks: nat)
      requires Valid()
      modifies this`lastRefill, this`tokenCarry, this`availableTok
      ensures Valid() && View() == Refill(Cfg(), old(View()), now)
      ensures chunks <= 3
    {
      if !tokenLimiting {
        return 0;
      }
      if now <= lastRefill {
        return 0;
      }
      CarryGrows(now - lastRefill, refillPerSec);
      ghost var accrued := Accrue(Cfg(), View(), now);
      tokenCarry := tokenCarry + Seconds(now - lastRefill) * refillPerSec;
      lastRefill := now;
      assert View() == accrued;
      chunks := ConsumeCarry();
    }

    // The refill loop: the carry is consumed in chunks that convert to 64 bits.
    method ConsumeCarry() returns (ghost chunks: nat)
      requires ConfigOK(Cfg()) && maxCapacity >= 1 && availableTok <= maxCapacity && tokenCarry >= 0.0
      modifies this`tokenCarry, this`availableTok
      ensures View() == Consume(maxCapacity as int, old(View()))
      ensures availableTok <= maxCapacity && 0.0 <= tokenCarry < 1.0
      ensures chunks <= 3
    {
      chunks := 0;
      while tokenCarry >= 1.0
        invariant chunks <= 3
        invariant Chunked(maxCapacity as int, old(View()), View(), chunks)
        decreases 3 - chunks
      {
        ChunkStep(maxCapacity as int, old(View()), View(), chunks);
        var whole: int64 := MAX;
        var wholeCarry := L.TWO63;
        if tokenCarry < L.TWO63 {
          whole := tokenCarry.Floor as int64;
          wholeCarry := tokenCarry.Floor as real;
        }
        chunks := chunks + 1;
        if availableTok >= maxCapacity - MAX && whole >= maxCapacity - availableTok {
          availableTok := maxCapacity;
          tokenCarry := 0.0;
          return;
        }
        tokenCarry := tokenCarry - wholeCarry;
        availableTok := availableTok + whole;
      }
    }

    // Deducts tokens and slots when both are available.
    method TryAcquireLocked(tokens: int64, slots: int64) returns (ok: bool, retryAfter: int)
      requires Valid() && tokens >= 0 && slots >= 1
      modifies this`availableTok, this`activeReqs, this`tokenWaitHits, this`slotWaitHits
      ensures Valid()
      ensures ok == Admits(Cfg(), old(View()), tokens as int, slots as int)
      ensures View() == if ok then Take(Cfg(), old(View()), tokens as int, slots as int) else old(View())
      ensures retryAfter == if ok then 0 else Hint(Cfg(), old(View()), tokens as int)
    {
      var hasTokens := !tokenLimiting || availableTok >= tokens;
      var hasSlot := !slotLimiting || slots <= maxConcurrency - activeReqs;
      if hasTokens && hasSlot {
        if tokenLimiting {
          availableTok := availableTok - tokens;
        }
        activeReqs := Add(activeReqs, slots);
        return true, 0;
      }
      if !hasTokens {
        tokenWaitHits := tokenWaitHits + 1;
      }
      if !hasSlot {
        slotWaitHits := slotWaitHits + 1;
      }
      return false, if hasTokens then 0 else RetryAfter(tokens as int - availableTok as int, refillPerSec);
    }
  }

  // Reserve's polls: whether the context was done before the attempt, the
  // clock at the attempt and after it, and whether the context ended the
  // sleep.
  datatype Poll = Poll(done: bool, now: int, after: int, canceled: bool)

  datatype ReserveResult =
    | Admitted(reservation: Reservation) | NeverAdmissible | ContextDone | WaitExceeded | StillWaiting

  // Over the first n polls, nothing but refills.
  ghost function Polled(cfg: Config, s: State, polls: seq<Poll>, n: nat): State
    requires n <= |polls|
  {
    if n == 0 then s else Refill(cfg, Polled(cfg, s, polls, n - 1), polls[n - 1].now)
  }

  predicate Impossible(cfg: Config, tokens: int, slots: int) {
    (cfg.tokenLimiting && tokens > cfg.capacity) || (cfg.slotLimiting && slots > cfg.maxConcurrency)
  }

  // What Reserve is asked for, and the clock as it starts.
  datatype Ask = Ask(tokens: int, slots: int, maxWait: int, start: int)

  // Whether a poll ends the wait, as the polls before it left the limiter.
  ghost predicate Ends(cfg: Config, s: State, ask: Ask, polls: seq<Poll>, i: nat)
    requires i < |polls|
  {
    || polls[i].done || polls[i].canceled || OverWait(ask, polls[i])
    || Admits(cfg, Polled(cfg, s, polls, i + 1), ask.tokens, ask.slots)
  }

  predicate OverWait(ask: Ask, poll: Poll) {
    ask.maxWait > 0 && poll.after - ask.start >= ask.maxWait
  }

  // The first poll from n on that ends the wait.
  ghost function FirstEnd(cfg: Config, s: State, ask: Ask, polls: seq<Poll>, n: nat): (i: nat)
    requires n <= |polls|
    ensures n <= i <= |polls| && (i < |polls| ==> Ends(cfg, s, ask, polls, i))
    ensures forall j: nat :: n <= j < i ==> !Ends(cfg, s, ask, polls, j)
    ensures forall j: nat :: n < j <= i ==> !Admits(cfg, Polled(cfg, s, polls, j), ask.tokens, ask.slots)
    decreases |polls| - n
  {
    if n == |polls| || Ends(cfg, s, ask, polls, n) then n else FirstEnd(cfg, s, ask, polls, n + 1)
  }

  datatype EndKind = Granted | Never | Stopped | Exceeded | Pending

  datatype Ending = Ending(kind: EndKind, attempts: nat, hint: int)

  // Why the wait ended there: a context done before the attempt comes first,
  // then an attempt that fits, then MaxWait, then a context that ends the
  // sleep. The hint is that of the last attempt refused.
  ghost function EndAt(cfg: Config, s: State, ask: Ask, polls: seq<Poll>, i: nat): Ending
    requires i <= |polls|
  {
    if i == |polls| then Ending(Pending, i, if i == 0 then 0 else Hint(cfg, Polled(cfg, s, polls, i), ask.tokens))
    else if polls[i].done then Ending(Stopped, i, 0)
    else
      var polled := Polled(cfg, s, polls, i + 1);
      if Admits(cfg, polled, ask.tokens, ask.slots) then Ending(Granted, i + 1, 0)
      else Ending(if OverWait(ask, polls[i]) then Exceeded else Stopped, i + 1, Hint(cfg, polled, ask.tokens))
  }

  // A request that fits at a poll is admitted there, whatever else holds, and
  // a wait that ends otherwise met no poll at which it fits.
  ghost function EndOf(cfg: Config, s: State, ask: Ask, polls: seq<Poll>): (e: Ending)
    ensures e.attempts <= |polls|
    ensures e.kind.Never? <==> Impossible(cfg, ask.tokens, ask.slots)
    ensures e.kind.Granted? ==>
              e.attempts > 0 && Admits(cfg, Polled(cfg, s, polls, e.attempts), ask.tokens, ask.slots)
    ensures forall j: nat :: 0 < j <= e.attempts - (if e.kind.Granted? then 1 else 0) ==>
              !Admits(cfg, Polled(cfg, s, polls, j), ask.tokens, ask.slots)
  {
    if Impossible(cfg, ask.tokens, ask.slots) then Ending(Never, 0, 0)
    else
      var i := FirstEnd(cfg, s, ask, polls, 0);
      EndAt(cfg, s, ask, polls, i)
  }

  function KindOf(res: ReserveResult): EndKind {
    match res
    case Admitted(_) => Granted
    case NeverAdmissible => Never
    case ContextDone => Stopped
    case WaitExceeded => Exceeded
    case StillWaiting => Pending
  }

  function AskFor(units: UsageUnits, maxWait: int, start: int): Ask {
    Ask(units.Tokens() as int, units.Slots() as int, maxWait, start)
  }

  // Blocks until capacity is available, MaxWait is exceeded or the context is
  // done. Capacity is consumed once, by the attempt that admits, and only then.
  method Reserve(limiter: InMemoryLimiter, units: UsageUnits, maxWait: int, start: int, polls: seq<Poll>)
    returns (res: ReserveResult, hint: int, attempts: nat)
    requires limiter.Valid()
    modifies limiter
    ensures limiter.Valid()
    ensures Ending(KindOf(res), attempts, hint) ==
            EndOf(limiter.Cfg(), old(limiter.View()), AskFor(units, maxWait, start), polls)
    ensures !res.Admitted? ==> limiter.View() == Polled(limiter.Cfg(), old(limiter.View()), polls, attempts)
    ensures res.Admitted? ==>
              && limiter.View() == Take(limiter.Cfg(), Polled(limiter.Cfg(), old(limiter.View()), polls, attempts),
                  units.Tokens() as int, units.Slots() as int)
              && fresh(res.reservation) && res.reservation.limiter == limiter
              && res.reservation.tokens == units.Tokens() && res.reservation.slots == units.Slots()
              && !res.reservation.committed && !res.reservation.released
  {
    var tokens, slots := units.Tokens(), units.Slots();
    ghost var cfg, s, ask := limiter.Cfg(), limiter.View(), AskFor(units, maxWait, start);
    attempts, hint := 0, 0;
    if (limiter.tokenLimiting && tokens > limiter.maxCapacity)
        || (limiter.slotLimiting && slots > limiter.maxConcurrency) {
      return NeverAdmissible, hint, attempts;
    }
    for i := 0 to |polls|
      invariant limiter.Valid() && attempts == i
      invariant limiter.View() == Polled(cfg, s, polls, i)
      invariant FirstEnd(cfg, s, ask, polls, 0) == FirstEnd(cfg, s, ask, polls, i)
      invariant hint == if i == 0 then 0 else Hint(cfg, Polled(cfg, s, polls, i), ask.tokens)
    {
      if polls[i].done {
        return ContextDone, 0, attempts;
      }
      attempts := i + 1;
      ghost var chunks := limiter.RefillLocked(polls[i].now);
      var ok, retryAfter := limiter.TryAcquireLocked(tokens, slots);
      if ok {
        var r := new Reservation(limiter, tokens, slots);
        return Admitted(r), 0, attempts;
      }
      if maxWait > 0 {
        if maxWait - (polls[i].after - start) <= 0 {
          return WaitExceeded, retryAfter, attempts;
        }
      }
      if polls[i].canceled {
        return ContextDone, retryAfter, attempts;
      }
      hint := retryAfter;
    }
    return StillWaiting, hint, attempts;
  }

  class Reservation {
    const limiter: InMemoryLimiter
    const tokens: int64
    const slots: int64
    var committed: bool
    var released: bool

    constructor (limiter: InMemoryLimiter, tokens: int64, slots: int64)
      ensures this.limiter == limiter && this.tokens == tokens && this.slots == slots && !committed && !released
    {
      this.limiter := limiter;
      this.tokens := tokens;
      this.slots := slots;
      committed, released := false, false;
    }

    // Reconciles the estimate with actual usage, once: the balance may go
    // below zero, and a refund is capped at capacity.
    method Commit(usage: Counts, now: int)
      requires limiter.Valid() && tokens >= 0
      modifies this`committed, limiter`lastRefill, limiter`tokenCarry, limiter`availableTok
      ensures limiter.Valid() && committed
      ensures limiter.View() ==
              if old(committed) || !limiter.tokenLimiting then old(limiter.View())
              else Reconcile(limiter.Cfg(), Refill(limiter.Cfg(), old(limiter.View()), now),
                  EffectiveTokens(usage) as int - tokens as int)
    {
      if committed {
        return;
      }
      committed := true;
      if !limiter.tokenLimiting {
        return;
      }
      ghost var chunks := limiter.RefillLocked(now);
      var delta := EffectiveTokens(usage) - tokens;
      limiter.availableTok := Min(Sub(limiter.availableTok, delta), limiter.maxCapacity);
    }

    // Frees the slots, once.
    method Release()
      requires limiter.Valid() && slots >= 1
      modifies this`released, limiter`activeReqs
      ensures limiter.Valid() && released
      ensures limiter.View() == if old(released) then old(limiter.View()) else Free(old(limiter.View()), slots as int)
    {
      if released {
        return;
      }
      released := true;
      limiter.activeReqs := limiter.activeReqs - slots;
      limiter.activeReqs := Max(limiter.activeReqs, 0);
    }
  }

  function RetryAfter(deficit: int, rate: real): (d: int)
    ensures d >= 0
  {
    if rate <= 0.0 || deficit <= 0 then 0
    else
      var ns := deficit as real / rate * BucketCore.NANOS;
      if ns >= L.TWO63 then MAX_INT else if ns < 0.0 then 0 else ns.Floor
  }

  // The hint of an attempt that did not admit: 0 when only slots are missing.
  function Hint(cfg: Config, s: State, tokens: int): int {
    if !cfg.tokenLimiting || s.available >= tokens then 0 else RetryAfter(tokens - s.available, cfg.rate)
  }

  // Waiting any longer than an unsaturated hint is enough for the tokens: the
  // carry, which the hint leaves out, only makes it sooner. It falls short
  // exactly when tokens lost on their way from a carry of 2^63 or more are
  // needed, and then by at most two.
  lemma HintSuffices(cfg: Config, s: State, tokens: int, d: nat)
    requires ConfigOK(cfg) && StateOK(cfg, s) && cfg.tokenLimiting && s.available < tokens <= cfg.capacity
    requires Hint(cfg, s, tokens) < MAX_INT && d > Hint(cfg, s, tokens)
    ensures
      var carry, after := s.carry + Seconds(d) * cfg.rate, Refill(cfg, s, s.lastRefill + d);
      && after.available >= tokens - 2
      && (after.available >= tokens <==> s.available + carry.Floor - Lost(carry) >= tokens)
      && (carry < L.TWO63 ==> after.available >= tokens)
  {
    var now := s.lastRefill + d;
    TimeCovers(tokens - s.available, cfg.rate, d);
    assert Credit(cfg, s, now) == Seconds(d) * cfg.rate;
    Reaches(cfg.capacity, Accrue(cfg, s, now), tokens);
  }

  lemma TimeCovers(deficit: int, rate: real, d: nat)
    requires deficit > 0 && rate > 0.0 && RetryAfter(deficit, rate) < MAX_INT && d > RetryAfter(deficit, rate)
    ensures Seconds(d) * rate >= deficit as real
  {
    var w := deficit as real / rate;
    assert w * rate == deficit as real;
    BucketCore.Monotone(0.0, w, rate);
    assert w > 0.0;
    EnoughTime(w, d);
    BucketCore.Monotone(Seconds(d), w, rate);
  }

  lemma EnoughTime(w: real, d: nat)
    requires w > 0.0 && d > (w * BucketCore.NANOS).Floor
    ensures Seconds(d) >= w
  {
  }

  lemma Reaches(capacity: int, s: State, tokens: int)
    requires 0 <= capacity <= MAX_INT && MIN_INT <= s.available < tokens <= capacity
    requires s.carry >= (tokens - s.available) as real
    ensures
      var after := Consume(capacity, s);
      && after.available >= tokens - 2
      && (after.available >= tokens <==> s.available + s.carry.Floor - Lost(s.carry) >= tokens)
      && (s.carry < L.TWO63 ==> after.available >= tokens)
  {
    assert s.carry.Floor >= tokens - s.available;
    RefillIsIdealExactlyWhen(capacity, s);
    if s.carry < L.TWO63 {
      SplitCarry(s.carry, 0, s.carry);
    }
  }

  lemma CarryGrows(nanos: int, rate: real)
    ensures nanos > 0 && rate > 0.0 ==> Seconds(nanos) * rate > 0.0
  {
    BucketCore.SignOfProduct(Seconds(nanos), rate);
  }

  // After n full chunks of the refill loop that did not fill the bucket, or
  // after a last partial one.
  ghost predicate Chunked(capacity: int, s0: State, s: State, n: nat) {
    && s.lastRefill == s0.lastRefill && s.active == s0.active
    && MIN_INT <= s.available <= capacity && 0.0 <= s.carry
    && (n == 0 ==> s == s0)
    && (s.carry >= 1.0 ==>
          && s.available == s0.available + n * MAX_INT
          && s.carry == s0.carry - n as real * L.TWO63
          && (n > 0 ==> s.available < capacity))
    && (s.carry < 1.0 && n > 0 ==> s == Consume(capacity, s0))
  }

  const HALF: int := 0x8000_0000_0000_0000

  // A carry of n full chunks and a rest.
  lemma SplitCarry(carry: real, n: nat, rest: real)
    requires carry == rest + n as real * L.TWO63 && 0.0 <= rest < L.TWO63
    ensures Lost(carry) == n && carry.Floor == rest.Floor + n * HALF
  {
    var q := carry / L.TWO63;
    assert q == rest / L.TWO63 + n as real;
  }

  lemma MoreChunks(carry: real, n: nat)
    requires carry >= n as real * L.TWO63
    ensures carry.Floor - Lost(carry) >= n * MAX_INT
  {
    var k := Lost(carry);
    assert carry >= k as real * L.TWO63;
    assert carry.Floor >= k * HALF;
    assert k >= n;
  }

  // The chunk to add next, and that adding it or filling the bucket stays on
  // course for the closed form.
  lemma ChunkStep(capacity: int, s0: State, s: State, n: nat)
    requires Chunked(capacity, s0, s, n) && s.carry >= 1.0 && 0 <= capacity <= MAX_INT && MIN_INT <= s0.available
    ensures n <= 2
    ensures
      var full := s.carry >= L.TWO63;
      var whole := if full then MAX_INT else s.carry.Floor;
      && 1 <= whole <= MAX_INT
      && (s.available + whole >= capacity ==> Consume(capacity, s0) == s.(available := capacity, carry := 0.0))
      && (s.available + whole < capacity ==>
            Chunked(capacity, s0,
              s.(available := s.available + whole,
                 carry := s.carry - if full then L.TWO63 else s.carry.Floor as real), n + 1))
  {
    if s.carry < L.TWO63 {
      SplitCarry(s0.carry, n, s.carry);
    } else {
      MoreChunks(s0.carry, n + 1);
      var rest := s.carry - L.TWO63;
      if rest < 1.0 {
        SplitCarry(s0.carry, n + 1, rest);
      }
    }
  }

  // The refill against unbounded arithmetic: it is the ideal
  // min(capacity, balance + floor(carry)) exactly when no full chunk is lost
  // short of the capacity, and never more than two tokens below it.
  lemma RefillIsIdealExactlyWhen(capacity: int, s: State)
    requires 0 <= capacity <= MAX_INT && MIN_INT <= s.available <= capacity && s.carry >= 1.0
    ensures
      var sum := s.available + s.carry.Floor;
      var ideal := if sum < capacity then sum else capacity;
      var got := Consume(capacity, s);
      && (got.available == ideal <==> s.carry < L.TWO63 || sum - Lost(s.carry) >= capacity)
      && ideal - 2 <= got.available <= ideal
      && 0.0 <= got.carry < 1.0
  {
    if s.carry < L.TWO63 {
      SplitCarry(s.carry, 0, s.carry);
    } else {
      MoreChunks(s.carry, 1);
      if Lost(s.carry) >= 3 {
        MoreChunks(s.carry, 3);
      }
    }
  }

  // ---------- Whole runs ----------

  datatype Held = Held(tokens: int, slots: int, committed: bool, released: bool)

  // charged is the net charge so far: estimates, corrected by each commit.
  // cut is the debt cut off at the 64-bit end; dropped is the credit that went
  // nowhere: what the capacity cut off of refills and refunds, and the tokens
  // a carry loses in full chunks.
  datatype Run = Run(s: State, held: seq<Held>, charged: int, cut: int, dropped: real)

  function ConsumeDrops(capacity: int, s: State): real {
    if s.carry < 1.0 then 0.0
    else if s.available + s.carry.Floor - Lost(s.carry) >= capacity then
      s.available as real + s.carry - capacity as real
    else Lost(s.carry) as real
  }

  function DebtCut(s: State, delta: int): int {
    if s.available - delta < MIN_INT then MIN_INT - (s.available - delta) else 0
  }

  function RefundDrops(cfg: Config, s: State, delta: int): int {
    if s.available - delta > cfg.capacity then s.available - delta - cfg.capacity else 0
  }

  // A refill, with what it drops.
  function Refilled(cfg: Config, r: Run, now: int): Run {
    if !cfg.tokenLimiting || now <= r.s.lastRefill then r
    else CreditedRun(cfg, r, now, Credit(cfg, r.s, now))
  }

  function CreditedRun(cfg: Config, r: Run, now: int, credit: real): Run {
    var s := Credited(r.s, now, credit);
    r.(s := Consume(cfg.capacity, s), dropped := r.dropped + ConsumeDrops(cfg.capacity, s))
  }

  function Reconciled(cfg: Config, r: Run, delta: int): Run {
    r.(s := Reconcile(cfg, r.s, delta), charged := r.charged + delta, cut := r.cut + DebtCut(r.s, delta),
       dropped := r.dropped + RefundDrops(cfg, r.s, delta) as real)
  }

  datatype Event =
    | Attempt(tokens: int, slots: int, now: int)
    | CommitUsage(id: nat, actual: int, at: int)
    | ReleaseSlots(id: nat)

  predicate EventOK(e: Event) {
    match e
    case Attempt(tokens, slots, _) => 0 <= tokens <= MAX_INT && 1 <= slots <= MAX_INT
    case CommitUsage(_, actual, _) => 0 <= actual <= MAX_INT
    case ReleaseSlots(_) => true
  }

  predicate Admitting(cfg: Config, r: Run, e: Event) {
    && e.Attempt?
    && !Impossible(cfg, e.tokens, e.slots)
    && Admits(cfg, Refill(cfg, r.s, e.now), e.tokens, e.slots)
  }

  function Apply(cfg: Config, r: Run, e: Event): Run {
    match e
    case Attempt(tokens, slots, now) =>
      if Impossible(cfg, tokens, slots) then r
      else
        var f := Refilled(cfg, r, now);
        if Admits(cfg, f.s, tokens, slots) then
          f.(s := Take(cfg, f.s, tokens, slots), held := r.held + [Held(tokens, slots, false, false)],
             charged := r.charged + tokens)
        else f
    case CommitUsage(id, actual, at) =>
      if id >= |r.held| || r.held[id].committed then r
      else
        var held := r.held[id := r.held[id].(committed := true)];
        if !cfg.tokenLimiting then r.(held := held)
        else Reconciled(cfg, Refilled(cfg, r, at), actual - r.held[id].tokens).(held := held)
    case ReleaseSlots(id) =>
      if id >= |r.held| || r.held[id].released then r
      else r.(s := Free(r.s, r.held[id].slots), held := r.held[id := r.held[id].(released := true)])
  }

  function ApplyAll(cfg: Config, r: Run, events: seq<Event>): Run {
    if events == [] then r else Apply(cfg, ApplyAll(cfg, r, events[..|events| - 1]), events[|events| - 1])
  }

  function Start(cfg: Config, now: int): Run {
    Run(State(cfg.capacity, 0.0, now, 0), [], 0, 0, 0.0)
  }

  // The slots of the reservations not yet released.
  function Outstanding(held: seq<Held>): int {
    if held == [] then 0
    else Outstanding(held[..|held| - 1]) + if held[|held| - 1].released then 0 else held[|held| - 1].slots
  }

  // Conservation: what was charged, what is left and what was dropped are the
  // capacity and all that accrued, plus the debt that was cut off.
  ghost predicate Accounted(cfg: Config, r: Run, start: int) {
    r.s.lastRefill >= start && (cfg.tokenLimiting ==> Balanced(r, Allowed(cfg, r, start)))
  }

  predicate Balanced(r: Run, allowed: real) {
    && r.charged as real + r.s.available as real + r.s.carry + r.dropped == allowed + r.cut as real
    && r.cut >= 0 && r.dropped >= 0.0
  }

  // The capacity and all that accrued since the start.
  function Allowed(cfg: Config, r: Run, start: int): real {
    cfg.capacity as real + Seconds(r.s.lastRefill - start) * cfg.rate
  }

  ghost predicate RunOK(cfg: Config, r: Run, start: int) {
    && StateOK(cfg, r.s)
    && (forall i :: 0 <= i < |r.held| ==> r.held[i].slots >= 1 && 0 <= r.held[i].tokens <= MAX_INT)
    && (cfg.slotLimiting ==> r.s.active == Outstanding(r.held))
    && Accounted(cfg, r, start)
  }

  lemma {:induction false} OutstandingUpdate(held: seq<Held>, id: nat, h: Held)
    requires id < |held|
    ensures Outstanding(held[id := h]) ==
            Outstanding(held) - (if held[id].released then 0 else held[id].slots) + if h.released then 0 else h.slots
  {
    var front := held[..|held| - 1];
    if id == |held| - 1 {
      assert held[id := h][..|held| - 1] == front;
    } else {
      OutstandingUpdate(front, id, h);
      assert held[id := h][..|held| - 1] == front[id := h];
    }
  }

  lemma {:induction false} OutstandingAtLeast(held: seq<Held>, id: nat)
    requires id < |held| && !held[id].released && forall i :: 0 <= i < |held| ==> held[i].slots >= 1
    ensures Outstanding(held) >= held[id].slots
  {
    var front := held[..|held| - 1];
    OutstandingNonNegative(front);
    if id < |held| - 1 {
      OutstandingAtLeast(front, id);
    }
  }

  lemma {:induction false} OutstandingNonNegative(held: seq<Held>)
    requires forall i :: 0 <= i < |held| ==> held[i].slots >= 1
    ensures Outstanding(held) >= 0
  {
    if held != [] {
      OutstandingNonNegative(held[..|held| - 1]);
    }
  }

  lemma ConsumeKeeps(cfg: Config, s: State)
    requires ConfigOK(cfg) && MIN_INT <= s.available <= cfg.capacity && s.carry >= 0.0
    ensures
      var after, drops := Consume(cfg.capacity, s), ConsumeDrops(cfg.capacity, s);
      && s.available <= after.available <= cfg.capacity && 0.0 <= after.carry < 1.0
      && drops >= 0.0 && after.available as real + after.carry + drops == s.available as real + s.carry
      && after.lastRefill == s.lastRefill && after.active == s.active
  {
    if s.carry >= 1.0 {
      RefillIsIdealExactlyWhen(cfg.capacity, s);
      MoreChunks(s.carry, 0);
      assert Lost(s.carry) >= 0;
    }
  }

  // What accrues from the start adds up over two intervals.
  lemma SecondsAdd(start: int, last: int, now: int, rate: real)
    ensures Seconds(now - start) * rate == Seconds(last - start) * rate + Seconds(now - last) * rate
  {
    var x, y := Seconds(last - start), Seconds(now - last);
    assert Seconds(now - start) == x + y;
    BucketCore.Distributes(x, y, rate);
  }

  lemma CreditBalances(cfg: Config, r: Run, allowed: real, now: int, credit: real)
    requires ConfigOK(cfg) && StateOK(cfg, r.s) && Balanced(r, allowed) && credit >= 0.0
    ensures
      var after := CreditedRun(cfg, r, now, credit);
      && StateOK(cfg, after.s) && after.s.active == r.s.active && after.s.lastRefill == now
      && Balanced(after, allowed + credit)
  {
    ConsumeKeeps(cfg, Credited(r.s, now, credit));
  }

  lemma RefilledIsRefill(cfg: Config, r: Run, now: int)
    ensures Refilled(cfg, r, now).s == Refill(cfg, r.s, now)
  {}

  lemma AllowedGrows(cfg: Config, r: Run, after: Run, start: int)
    ensures Allowed(cfg, after, start) == Allowed(cfg, r, start) + Credit(cfg, r.s, after.s.lastRefill)
  {
    SecondsAdd(start, r.s.lastRefill, after.s.lastRefill, cfg.rate);
  }

  // A refill credits the rate over the time it covers, or drops it.
  lemma RefillKeeps(cfg: Config, r: Run, start: int, now: int)
    requires ConfigOK(cfg) && StateOK(cfg, r.s) && Accounted(cfg, r, start)
    ensures
      var after := Refilled(cfg, r, now);
      && StateOK(cfg, after.s) && after.s.active == r.s.active && Accounted(cfg, after, start)
      && after.s == Refill(cfg, r.s, now)
  {
    RefilledIsRefill(cfg, r, now);
    if cfg.tokenLimiting && now > r.s.lastRefill {
      CarryGrows(now - r.s.lastRefill, cfg.rate);
      CreditBalances(cfg, r, Allowed(cfg, r, start), now, Credit(cfg, r.s, now));
      AllowedGrows(cfg, r, Refilled(cfg, r, now), start);
    }
  }

  // Moving tokens between the balance and the charge keeps the account.
  lemma MoveAccounted(cfg: Config, r: Run, after: Run, start: int, cut: int, drops: int)
    requires Accounted(cfg, r, start) && cut >= 0 && drops >= 0
    requires after.s.lastRefill == r.s.lastRefill && after.s.carry == r.s.carry
    requires after.cut == r.cut + cut && after.dropped == r.dropped + drops as real
    requires cfg.tokenLimiting ==>
               after.charged + after.s.available + drops == r.charged + r.s.available + cut
    ensures Accounted(cfg, after, start)
  {
    if cfg.tokenLimiting {
      assert (after.charged + after.s.available + drops) as real == (r.charged + r.s.available + cut) as real;
    }
  }

  lemma AttemptKeeps(cfg: Config, r: Run, e: Event, start: int)
    requires ConfigOK(cfg) && RunOK(cfg, r, start) && EventOK(e) && e.Attempt?
    ensures RunOK(cfg, Apply(cfg, r, e), start)
  {
    RefillKeeps(cfg, r, start, e.now);
    var refilled, after := Refilled(cfg, r, e.now), Apply(cfg, r, e);
    if Admitting(cfg, r, e) {
      assert after.held[..|r.held|] == r.held;
      MoveAccounted(cfg, refilled, after, start, 0, 0);
    }
  }

  lemma CommitKeeps(cfg: Config, r: Run, e: Event, start: int)
    requires ConfigOK(cfg) && RunOK(cfg, r, start) && EventOK(e) && e.CommitUsage?
    ensures RunOK(cfg, Apply(cfg, r, e), start)
  {
    if e.id < |r.held| && !r.held[e.id].committed {
      RefillKeeps(cfg, r, start, e.at);
      OutstandingUpdate(r.held, e.id, r.held[e.id].(committed := true));
      var refilled, after, delta := Refilled(cfg, r, e.at), Apply(cfg, r, e), e.actual - r.held[e.id].tokens;
      if cfg.tokenLimiting {
        MoveAccounted(cfg, refilled, after, start, DebtCut(refilled.s, delta), RefundDrops(cfg, refilled.s, delta));
      } else {
        MoveAccounted(cfg, r, after, start, 0, 0);
      }
    }
  }

  lemma ReleaseKeeps(cfg: Config, r: Run, e: Event, start: int)
    requires ConfigOK(cfg) && RunOK(cfg, r, start) && e.ReleaseSlots?
    ensures RunOK(cfg, Apply(cfg, r, e), start)
  {
    if e.id < |r.held| && !r.held[e.id].released {
      OutstandingUpdate(r.held, e.id, r.held[e.id].(released := true));
      OutstandingAtLeast(r.held, e.id);
      MoveAccounted(cfg, r, Apply(cfg, r, e), start, 0, 0);
    }
  }

  lemma ApplyKeeps(cfg: Config, r: Run, e: Event, start: int)
    requires ConfigOK(cfg) && RunOK(cfg, r, start) && EventOK(e)
    ensures RunOK(cfg, Apply(cfg, r, e), start)
  {
    match e
    case Attempt(_, _, _) => AttemptKeeps(cfg, r, e, start);
    case CommitUsage(_, _, _) => CommitKeeps(cfg, r, e, start);
    case ReleaseSlots(_) => ReleaseKeeps(cfg, r, e, start);
  }

  lemma {:induction false} RunsKeep(cfg: Config, start: int, events: seq<Event>)
    requires ConfigOK(cfg) && forall e :: e in events ==> EventOK(e)
    ensures RunOK(cfg, ApplyAll(cfg, Start(cfg, start), events), start)
  {
    if events == [] {
      assert Seconds(0) * cfg.rate == 0.0;
    } else {
      var front := events[..|events| - 1];
      RunsKeep(cfg, start, front);
      ApplyKeeps(cfg, ApplyAll(cfg, Start(cfg, start), front), events[|events| - 1], start);
    }
  }

  lemma AdmittedWithoutDebt(cfg: Config, r: Run, e: Event, start: int)
    requires ConfigOK(cfg) && RunOK(cfg, r, start) && EventOK(e) && cfg.tokenLimiting && Admitting(cfg, r, e)
    ensures Apply(cfg, r, e).s.available >= 0 && Apply(cfg, r, e).cut == r.cut
  {
    RefilledIsRefill(cfg, r, e.now);
  }

  // Without debt, the total charged exceeds what is allowed exactly when more
  // debt was cut off than credit dropped and balance left: never while no debt
  // has been cut off, and never by more than was.
  predicate BoundedBy(r: Run, allowed: real) {
    && (r.charged as real <= allowed <==> r.cut as real <= r.dropped + r.s.available as real + r.s.carry)
    && (r.cut == 0 ==> r.charged as real <= allowed)
    && r.charged as real <= allowed + r.cut as real
  }

  lemma WithoutDebt(r: Run, allowed: real)
    requires Balanced(r, allowed) && r.s.available >= 0 && r.s.carry >= 0.0
    ensures BoundedBy(r, allowed)
  {}

  // So it is right after any admission, in any run.
  lemma ChargeBound(cfg: Config, start: int, events: seq<Event>, r: Run, e: Event)
    requires ConfigOK(cfg) && cfg.tokenLimiting && EventOK(e) && forall e :: e in events ==> EventOK(e)
    requires r == ApplyAll(cfg, Start(cfg, start), events) && Admitting(cfg, r, e)
    ensures
      var after := Apply(cfg, r, e);
      BoundedBy(after, Allowed(cfg, after, start)) && after.cut == r.cut
  {
    RunsKeep(cfg, start, events);
    AttemptKeeps(cfg, r, e, start);
    AdmittedWithoutDebt(cfg, r, e, start);
    WithoutDebt(Apply(cfg, r, e), Allowed(cfg, Apply(cfg, r, e), start));
  }

  // With slots limited, the active count is the sum of the unreleased
  // reservations and within the limit, so Release's clamp never bites.
  lemma SlotsExact(cfg: Config, start: int, events: seq<Event>)
    requires ConfigOK(cfg) && cfg.slotLimiting && forall e :: e in events ==> EventOK(e)
    ensures
      var r := ApplyAll(cfg, Start(cfg, start), events);
      && r.s.active == Outstanding(r.held) && 0 <= r.s.active <= cfg.maxConcurrency
      && forall id :: 0 <= id < |r.held| && !r.held[id].released ==> r.s.active - r.held[id].slots >= 0
  {
    RunsKeep(cfg, start, events);
    var r := ApplyAll(cfg, Start(cfg, start), events);
    forall id | 0 <= id < |r.held| && !r.held[id].released ensures r.s.active - r.held[id].slots >= 0 {
      OutstandingAtLeast(r.held, id);
    }
  }

  // Once a debt is cut off the bound fails: two reservations of nothing each
  // commit the largest usage, and 65 seconds later a third is admitted
  // although the two together used more than capacity and refill allow.
  const ESCAPE_CONFIG := Config(60 * 0x200_0000_0000_0000, 0, 144115188075855872.0, true, false)
  const ESCAPE := [Attempt(0, 1, 0), Attempt(0, 1, 0), CommitUsage(0, MAX_INT, 0), CommitUsage(1, MAX_INT, 0)]
  const LATE := 65_000_000_000

  lemma ApplyFour(cfg: Config, r: Run, events: seq<Event>)
    requires |events| == 4
    ensures ApplyAll(cfg, r, events) ==
        Apply(cfg, Apply(cfg, Apply(cfg, Apply(cfg, r, events[0]), events[1]), events[2]), events[3])
  {
    var three, two, one := events[..3], events[..2], events[..1];
    assert three[..2] == two && two[..1] == one && one[..0] == [];
    assert ApplyAll(cfg, r, one) == Apply(cfg, r, events[0]);
    assert ApplyAll(cfg, r, two) == Apply(cfg, ApplyAll(cfg, r, one), events[1]);
    assert ApplyAll(cfg, r, three) == Apply(cfg, ApplyAll(cfg, r, two), events[2]);
  }

  lemma GrantAtOnce(cfg: Config, r: Run, e: Event)
    requires e.Attempt? && e.now <= r.s.lastRefill && Admits(cfg, r.s, e.tokens, e.slots)
    requires !Impossible(cfg, e.tokens, e.slots)
    ensures Apply(cfg, r, e) == r.(s := Take(cfg, r.s, e.tokens, e.slots),
        held := r.held + [Held(e.tokens, e.slots, false, false)], charged := r.charged + e.tokens)
  {
  }

  lemma CommitAtOnce(cfg: Config, r: Run, e: Event)
    requires e.CommitUsage? && e.at <= r.s.lastRefill && cfg.tokenLimiting
    requires e.id < |r.held| && !r.held[e.id].committed
    ensures Apply(cfg, r, e) == Reconciled(cfg, r, e.actual - r.held[e.id].tokens).(
        held := r.held[e.id := r.held[e.id].(committed := true)])
  {
  }

  lemma EscapeState()
    ensures
      var r := ApplyAll(ESCAPE_CONFIG, Start(ESCAPE_CONFIG, 0), ESCAPE);
      r.s == State(MIN_INT, 0.0, 0, 2) && r.charged == 2 * MAX_INT && r.cut > 0
  {
    var start := Start(ESCAPE_CONFIG, 0);
    ApplyFour(ESCAPE_CONFIG, start, ESCAPE);
    GrantAtOnce(ESCAPE_CONFIG, start, ESCAPE[0]);
    var one := Apply(ESCAPE_CONFIG, start, ESCAPE[0]);
    GrantAtOnce(ESCAPE_CONFIG, one, ESCAPE[1]);
    var two := Apply(ESCAPE_CONFIG, one, ESCAPE[1]);
    CommitAtOnce(ESCAPE_CONFIG, two, ESCAPE[2]);
    var three := Apply(ESCAPE_CONFIG, two, ESCAPE[2]);
    CommitAtOnce(ESCAPE_CONFIG, three, ESCAPE[3]);
  }

  lemma EscapeRefill()
    ensures Refill(ESCAPE_CONFIG, State(MIN_INT, 0.0, 0, 2), LATE).available == 144115188075855871
  {
    var accrued := Accrue(ESCAPE_CONFIG, State(MIN_INT, 0.0, 0, 2), LATE);
    assert Seconds(LATE) == 65.0;
    assert accrued.carry == 9367487224930631680.0;
    SplitCarry(accrued.carry, 1, 144115188075855872.0);
  }

  lemma SaturatedDebtEscapes()
    ensures ConfigOK(ESCAPE_CONFIG) && forall e :: e in ESCAPE ==> EventOK(e)
    ensures
      var r := ApplyAll(ESCAPE_CONFIG, Start(ESCAPE_CONFIG, 0), ESCAPE);
      && Admitting(ESCAPE_CONFIG, r, Attempt(0, 1, LATE))
      && Apply(ESCAPE_CONFIG, r, Attempt(0, 1, LATE)).charged as real >
         ESCAPE_CONFIG.capacity as real + Seconds(LATE) * ESCAPE_CONFIG.rate
  {
    EscapeState();
    EscapeRefill();
  }
}
