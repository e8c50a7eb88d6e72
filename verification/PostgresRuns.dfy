// Whole runs of the shared bucket: any interleaving of statements by any
// number of processes, crashes included.
module PostgresRuns {
  import opened Collections
  import opened Messages
  import opened Limits
  import opened PostgresBucket
  import BucketCore

  lemma {:induction false} AfterConcat(cfg: Config, s: State, a: seq<Step>, b: seq<Step>)
    ensures After(cfg, s, a + b) == After(cfg, After(cfg, s, a), b)
    decreases |b|
  {
    if b == [] {
      assert a + b == a;
    } else {
      assert (a + b)[..|a + b| - 1] == a + b[..|b| - 1];
      AfterConcat(cfg, s, a, b[..|b| - 1]);
    }
  }

  // The state at j is the state at i after the steps between.
  lemma AtConcat(cfg: Config, s: State, steps: seq<Step>, i: nat, j: nat)
    requires i <= j <= |steps|
    ensures At(cfg, s, steps, j) == After(cfg, At(cfg, s, steps, i), steps[i..j])
  {
    assert steps[..j] == steps[..i] + steps[i..j];
    AfterConcat(cfg, s, steps[..i], steps[i..j]);
  }

  // ---------- Slots ----------

  lemma CountWithout(rows: map<nat, Row>, reaped: set<nat>)
    ensures (rows - reaped).Keys == rows.Keys - reaped
  {
  }

  // An admission never leaves more rows than the limit in force when it
  // commits, whatever happened between its statements.
  lemma AdmissionFits(cfg: Config, s: State, heard: bool)
    requires Inv(cfg, s) && Enabled(s, Commit(heard)) && InPhase(s, Inserted) && s.bucket.limits.SlotLimited()
    ensures |Next(cfg, s, Commit(heard)).rows| <= s.bucket.limits.maxConcurrency
    ensures Next(cfg, s, Commit(heard)).bucket.limits == s.bucket.limits
  {
    CountWithOne(s.rows, s.tx.value.reaped, s.tx.value.leaseID, s.tx.value.lease);
    InsertedFits(cfg, s);
  }

  lemma CountWithOne(rows: map<nat, Row>, reaped: set<nat>, id: nat, row: Row)
    ensures |(rows - reaped)[id := row]| <= |rows.Keys - reaped| + 1
  {
    CountWithout(rows, reaped);
    assert (rows - reaped)[id := row].Keys == (rows.Keys - reaped) + {id};
  }

  // A lease is inserted only where one more fits.
  lemma InsertedFits(cfg: Config, s: State)
    requires Inv(cfg, s) && InPhase(s, Inserted)
    ensures s.bucket.limits.SlotLimited() ==> |s.rows.Keys - s.tx.value.reaped| < s.bucket.limits.maxConcurrency
    ensures s.tx.value.bucket.limits == s.bucket.limits
  {
  }

  predicate LimitsWithin(m: nat, work: Work) {
    work.Ensuring? ==> 1 <= work.limits.maxConcurrency <= m
  }

  ghost predicate SlotsWithin(m: nat, s: State) {
    && |s.rows| <= m && 1 <= s.bucket.limits.maxConcurrency <= m
    && (s.tx.Some? ==> LimitsWithin(m, s.tx.value.work))
  }

  lemma FewerRows(a: map<nat, Row>, b: map<nat, Row>)
    requires a.Keys <= b.Keys
    ensures |a| <= |b|
  {
    Smaller(a.Keys, b.Keys);
  }

  lemma LimitsKept(cfg: Config, m: nat, s: State, step: Step)
    requires Inv(cfg, s) && SlotsWithin(m, s) && (step.Lock? ==> LimitsWithin(m, step.work))
    ensures
      var after := Next(cfg, s, step);
      && 1 <= after.bucket.limits.maxConcurrency <= m && (after.tx.Some? ==> LimitsWithin(m, after.tx.value.work))
  {
  }

  // Only an admission adds a row.
  lemma RowsAdded(cfg: Config, s: State, step: Step)
    requires Inv(cfg, s) && !(step.Commit? && InPhase(s, Inserted) && Enabled(s, step))
    ensures |Next(cfg, s, step).rows| <= |s.rows|
  {
    FewerRows(Next(cfg, s, step).rows, s.rows);
  }

  lemma SlotsKept(cfg: Config, m: nat, s: State, step: Step)
    requires Inv(cfg, s) && SlotsWithin(m, s) && (step.Lock? ==> LimitsWithin(m, step.work))
    ensures SlotsWithin(m, Next(cfg, s, step))
  {
    LimitsKept(cfg, m, s, step);
    if step.Commit? && InPhase(s, Inserted) && Enabled(s, step) {
      AdmissionFits(cfg, s, step.heard);
    } else {
      RowsAdded(cfg, s, step);
    }
  }

  // While every limits in force is between 1 and m, there are never more than
  // m lease rows.
  lemma {:induction false} SlotsBounded(cfg: Config, m: nat, s: State, steps: seq<Step>)
    requires cfg.Validate() && Inv(cfg, s) && SlotsWithin(m, s)
    requires forall i :: 0 <= i < |steps| && steps[i].Lock? ==> LimitsWithin(m, steps[i].work)
    ensures SlotsWithin(m, After(cfg, s, steps))
  {
    if steps != [] {
      var front := steps[..|steps| - 1];
      SlotsBounded(cfg, m, s, front);
      RunKeeps(cfg, s, front);
      SlotsKept(cfg, m, After(cfg, s, front), steps[|steps| - 1]);
    }
  }

  // ---------- A lease that is gone stays gone ----------

  lemma {:induction false} GoneForever(cfg: Config, s: State, steps: seq<Step>, id: nat)
    requires cfg.Validate() && Inv(cfg, s) && Gone(s, id)
    ensures Gone(After(cfg, s, steps), id)
  {
    if steps != [] {
      var front := steps[..|steps| - 1];
      GoneForever(cfg, s, front, id);
      RunKeeps(cfg, s, front);
      GoneStays(cfg, After(cfg, s, front), steps[|steps| - 1], id);
    }
  }

  lemma DeadHolderIsGone(cfg: Config, s: State, id: nat)
    requires Inv(cfg, s) && id in s.holders && !LiveRow(s, id)
    ensures Gone(s, id)
  {
  }

  // An expired lease never becomes live again, renewed or not.
  lemma NoResurrection(cfg: Config, s: State, steps: seq<Step>, i: nat, j: nat, id: nat)
    requires cfg.Validate() && Inv(cfg, s) && i <= j <= |steps|
    requires id in At(cfg, s, steps, i).rows && !LiveRow(At(cfg, s, steps, i), id)
    ensures !LiveRow(At(cfg, s, steps, j), id)
  {
    RunKeeps(cfg, s, steps[..i]);
    AtConcat(cfg, s, steps, i, j);
    GoneForever(cfg, At(cfg, s, steps, i), steps[i..j], id);
  }

  ghost predicate NotReleasedOK(s: State, id: nat) {
    id in s.holders && s.holders[id].outcome != ReleasedOK
  }

  lemma GoneIsNotReleasedOK(cfg: Config, s: State, step: Step, id: nat)
    requires Inv(cfg, s) && Gone(s, id) && NotReleasedOK(s, id)
    ensures NotReleasedOK(Next(cfg, s, step), id)
  {
  }

  lemma {:induction false} GoneNeverReleasedOK(cfg: Config, s: State, steps: seq<Step>, id: nat)
    requires cfg.Validate() && Inv(cfg, s) && Gone(s, id) && NotReleasedOK(s, id)
    ensures NotReleasedOK(After(cfg, s, steps), id)
  {
    if steps != [] {
      var front := steps[..|steps| - 1];
      GoneNeverReleasedOK(cfg, s, front, id);
      GoneForever(cfg, s, front, id);
      RunKeeps(cfg, s, front);
      GoneIsNotReleasedOK(cfg, After(cfg, s, front), steps[|steps| - 1], id);
    }
  }

  predicate HoldingAt(s: State, id: nat) {
    id in s.holders && s.holders[id].outcome == Holding
  }

  predicate ReleasedOKAt(s: State, id: nat) {
    id in s.holders && s.holders[id].outcome == ReleasedOK
  }

  // A holder whose Release returns no error had a live row at every instant
  // it held the lease.
  lemma HeldThroughout(cfg: Config, s: State, steps: seq<Step>, k: nat, id: nat)
    requires cfg.Validate() && Inv(cfg, s) && k <= |steps|
    requires HoldingAt(At(cfg, s, steps, k), id) && ReleasedOKAt(After(cfg, s, steps), id)
    ensures LiveRow(At(cfg, s, steps, k), id)
  {
    var mid := At(cfg, s, steps, k);
    RunKeeps(cfg, s, steps[..k]);
    assert steps[..|steps|] == steps;
    AtConcat(cfg, s, steps, k, |steps|);
    if !LiveRow(mid, id) {
      DeadHolderIsGone(cfg, mid, id);
      GoneNeverReleasedOK(cfg, mid, steps[k..|steps|], id);
    }
  }

  // So at most m such holders ever overlap.
  lemma OverlapBounded(cfg: Config, m: nat, s: State, steps: seq<Step>, k: nat, holders: set<nat>)
    requires cfg.Validate() && Inv(cfg, s) && SlotsWithin(m, s) && k <= |steps|
    requires forall i :: 0 <= i < |steps| && steps[i].Lock? ==> LimitsWithin(m, steps[i].work)
    requires forall id :: id in holders ==>
              HoldingAt(At(cfg, s, steps, k), id) && ReleasedOKAt(After(cfg, s, steps), id)
    ensures |holders| <= m
  {
    var mid := At(cfg, s, steps, k);
    forall id | id in holders ensures id in mid.rows.Keys {
      HeldThroughout(cfg, s, steps, k, id);
    }
    SlotsBounded(cfg, m, s, steps[..k]);
    Smaller(holders, mid.rows.Keys);
  }

  // A lease reported lost by a renewal is not live then or ever after, and
  // its Release does not report success.
  lemma LostIsFinal(cfg: Config, s: State, steps: seq<Step>, i: nat, j: nat, id: nat)
    requires cfg.Validate() && Inv(cfg, s) && i <= j <= |steps|
    requires HoldingAt(At(cfg, s, steps, i), id) && At(cfg, s, steps, i).holders[id].loss == NoLiveRow
    ensures !LiveRow(At(cfg, s, steps, j), id) && !ReleasedOKAt(At(cfg, s, steps, j), id)
  {
    var mid := At(cfg, s, steps, i);
    RunKeeps(cfg, s, steps[..i]);
    AtConcat(cfg, s, steps, i, j);
    GoneForever(cfg, mid, steps[i..j], id);
    GoneNeverReleasedOK(cfg, mid, steps[i..j], id);
  }

  // ---------- Slots of holders that crash or never release ----------

  // No row of id, committed or pending, expires after end.
  ghost predicate EndsBy(s: State, id: nat, end: int) {
    && id < s.nextID
    && (id in s.rows ==> s.rows[id].expires <= end)
    && (InPhase(s, Inserted) && s.tx.value.leaseID == id ==> s.tx.value.lease.expires <= end)
  }

  // An attempt past its reap, with a clock sampled after start and not before end.
  predicate CountsAfter(s: State, start: int, end: int) {
    && s.tx.Some? && s.tx.value.work.Acquiring? && s.tx.value.phase in {Reaped, Counted, Updated, Inserted}
    && s.tx.value.now >= end && s.tx.value.now > start
  }

  ghost predicate ReapedBy(s: State, id: nat, start: int, end: int) {
    CountsAfter(s, start, end) && id in s.rows ==> id in s.tx.value.reaped
  }

  lemma EndsByKept(cfg: Config, s: State, step: Step, id: nat, end: int)
    requires Inv(cfg, s) && EndsBy(s, id, end) && !(step.Renew? && step.id == id)
    ensures EndsBy(Next(cfg, s, step), id, end)
  {
  }

  lemma ReapedByForeign(cfg: Config, s: State, step: Step, id: nat, start: int, end: int)
    requires Foreign(step) && ReapedBy(s, id, start, end)
    ensures ReapedBy(Next(cfg, s, step), id, start, end)
  {
    ForeignKeepsTx(cfg, s, step);
  }

  lemma ReapedByStatement(cfg: Config, s: State, step: Step, id: nat, start: int, end: int)
    requires !Foreign(step) && EndsBy(s, id, end) && ReapedBy(s, id, start, end)
    ensures ReapedBy(Next(cfg, s, step), id, start, end)
  {
  }

  lemma ReapedByKept(cfg: Config, s: State, step: Step, id: nat, start: int, end: int)
    requires Inv(cfg, s) && EndsBy(s, id, end) && ReapedBy(s, id, start, end)
    ensures ReapedBy(Next(cfg, s, step), id, start, end)
  {
    if Foreign(step) {
      ReapedByForeign(cfg, s, step, id, start, end);
    } else {
      ReapedByStatement(cfg, s, step, id, start, end);
    }
  }

  lemma {:induction false} EndsByRun(cfg: Config, s: State, steps: seq<Step>, id: nat, start: int, end: int)
    requires cfg.Validate() && Inv(cfg, s) && EndsBy(s, id, end) && ReapedBy(s, id, start, end)
    requires forall i :: 0 <= i < |steps| ==> !(steps[i].Renew? && steps[i].id == id)
    ensures EndsBy(After(cfg, s, steps), id, end) && ReapedBy(After(cfg, s, steps), id, start, end)
  {
    if steps != [] {
      var front := steps[..|steps| - 1];
      EndsByRun(cfg, s, front, id, start, end);
      RunKeeps(cfg, s, front);
      EndsByKept(cfg, After(cfg, s, front), steps[|steps| - 1], id, end);
      ReapedByKept(cfg, After(cfg, s, front), steps[|steps| - 1], id, start, end);
    }
  }

  // A holder that stops renewing, for example by crashing, frees its slot
  // within one TTL: its row is then not live, and every attempt that samples
  // the clock from then on counts without it.
  lemma CrashedSlotFrees(cfg: Config, s: State, steps: seq<Step>, id: nat)
    requires cfg.Validate() && Inv(cfg, s) && id < s.nextID
    requires forall i :: 0 <= i < |steps| ==> !(steps[i].Renew? && steps[i].id == id)
    ensures
      var after := After(cfg, s, steps);
      && (after.clock >= s.clock + cfg.TTL() ==> !LiveRow(after, id))
      && (CountsAfter(after, s.clock, s.clock + cfg.TTL()) ==> id !in after.rows.Keys - after.tx.value.reaped)
  {
    EndsByRun(cfg, s, steps, id, s.clock, s.clock + cfg.TTL());
  }

  ghost predicate OnceAcquired(s: State, id: nat, acquired: int) {
    && id < s.nextID && (id in s.rows ==> s.rows[id].acquired == acquired)
    && !(InPhase(s, Inserted) && s.tx.value.leaseID == id)
  }

  lemma OnceAcquiredKept(cfg: Config, s: State, step: Step, id: nat, acquired: int)
    requires OnceAcquired(s, id, acquired)
    ensures OnceAcquired(Next(cfg, s, step), id, acquired)
  {
    if id in Next(cfg, s, step).rows {
      RowComesFrom(cfg, s, step, id);
    }
  }

  lemma {:induction false} OnceAcquiredRun(cfg: Config, s: State, steps: seq<Step>, id: nat, acquired: int)
    requires cfg.Validate() && Inv(cfg, s) && OnceAcquired(s, id, acquired)
    ensures OnceAcquired(After(cfg, s, steps), id, acquired)
  {
    if steps != [] {
      var front := steps[..|steps| - 1];
      OnceAcquiredRun(cfg, s, front, id, acquired);
      RunKeeps(cfg, s, front);
      OnceAcquiredKept(cfg, After(cfg, s, front), steps[|steps| - 1], id, acquired);
    }
  }

  // However often it is renewed, no lease outlives MaxLeaseDuration.
  lemma CapEnds(cfg: Config, s: State, steps: seq<Step>, id: nat)
    requires cfg.Validate() && Inv(cfg, s) && id in s.rows
    ensures After(cfg, s, steps).clock >= s.rows[id].acquired + cfg.Cap() ==> !LiveRow(After(cfg, s, steps), id)
  {
    RunKeeps(cfg, s, steps);
    OnceAcquiredRun(cfg, s, steps, id, s.rows[id].acquired);
  }

  // A step that deletes the row of a lease on its holder's behalf.
  predicate Deletes(step: Step, id: nat) {
    (step.Release? && step.id == id) || (step.ReleaseError? && step.id == id)
  }

  ghost predicate Lasts(s: State, id: nat, expires: int) {
    s.clock < expires ==> id in s.rows && s.rows[id].expires >= expires
  }

  lemma LiveRowLasts(cfg: Config, s: State, step: Step, id: nat)
    requires Inv(cfg, s) && LiveRow(s, id) && !Deletes(step, id)
    ensures id in Next(cfg, s, step).rows && Next(cfg, s, step).rows[id].expires >= s.rows[id].expires
  {
  }

  lemma ClockAdvances(cfg: Config, s: State, step: Step)
    ensures Next(cfg, s, step).clock >= s.clock
  {
  }

  lemma LastsKept(cfg: Config, s: State, step: Step, id: nat, expires: int)
    requires Inv(cfg, s) && Lasts(s, id, expires) && !Deletes(step, id)
    ensures Lasts(Next(cfg, s, step), id, expires)
  {
    ClockAdvances(cfg, s, step);
    if s.clock < expires {
      LiveRowLasts(cfg, s, step, id);
    }
  }

  // Nothing but its own Release takes a lease away before it expires, and no
  // renewal moves its expiry back: the slot cannot be given to someone else
  // earlier than the holder was promised.
  lemma {:induction false} LiveUntilExpiry(cfg: Config, s: State, steps: seq<Step>, id: nat)
    requires cfg.Validate() && Inv(cfg, s) && id in s.rows
    requires forall i :: 0 <= i < |steps| ==> !Deletes(steps[i], id)
    ensures Lasts(After(cfg, s, steps), id, s.rows[id].expires)
  {
    if steps != [] {
      var front := steps[..|steps| - 1];
      LiveUntilExpiry(cfg, s, front, id);
      RunKeeps(cfg, s, front);
      LastsKept(cfg, After(cfg, s, front), steps[|steps| - 1], id, s.rows[id].expires);
    }
  }

  // ---------- Tokens ----------

  // At every point of every run of a bucket, the balance is within the
  // capacity of the limits in force, 0 when tokens are not limited, and no
  // refill is computed from before the last change of limits.
  lemma BalanceAlwaysOK(cfg: Config, limits: Limits, clock: int, steps: seq<Step>)
    requires cfg.Validate() && limits.Validate()
    ensures
      var s := After(cfg, Created(limits, clock), steps);
      && (s.bucket.limits.TokenLimited() ==> s.bucket.balance <= s.bucket.limits.Capacity() as real)
      && (!s.bucket.limits.TokenLimited() ==> s.bucket.balance == 0.0)
      && s.ledger.epoch <= s.bucket.lastRefill <= s.clock
  {
    CreatedOK(cfg, limits, clock);
    RunKeeps(cfg, Created(limits, clock), steps);
  }

  lemma AdmittedBalance(cfg: Config, s: State, heard: bool)
    requires Inv(cfg, s) && Enabled(s, Commit(heard)) && InPhase(s, Inserted)
    ensures s.bucket.limits.TokenLimited() ==> Next(cfg, s, Commit(heard)).bucket.balance >= 0.0
  {
  }

  // At each admission the net charge since the limits last changed is at most
  // the capacity plus what accrued since: nothing is spent twice across
  // processes, adjustments and failed transactions.
  lemma AdmissionChargeBound(cfg: Config, limits: Limits, clock: int, steps: seq<Step>, heard: bool)
    requires cfg.Validate() && limits.Validate()
    requires
      var s := After(cfg, Created(limits, clock), steps);
      Enabled(s, Commit(heard)) && InPhase(s, Inserted) && s.bucket.limits.TokenLimited()
    ensures
      var s := After(cfg, Created(limits, clock), steps + [Commit(heard)]);
      && s.bucket.limits.TokenLimited() && s.ledger.epoch <= s.bucket.lastRefill <= s.clock
      && s.ledger.net as real <= s.bucket.limits.Capacity() as real
           + BucketCore.Accrued(s.bucket.limits, s.ledger.epoch, s.bucket.lastRefill)
  {
    var s := After(cfg, Created(limits, clock), steps);
    CreatedOK(cfg, limits, clock);
    RunKeeps(cfg, Created(limits, clock), steps);
    BalanceKept(cfg, s, Commit(heard));
    AdmittedBalance(cfg, s, heard);
    assert (steps + [Commit(heard)])[..|steps|] == steps;
  }

  // A change of limits, given the balance settled under the old ones (which
  // is 0 when those limit no tokens): debt survives a change between two
  // token limits, and a change gives tokens exactly when it turns token
  // limiting on, or turns it off while in debt.
  lemma LimitChange(before: Limits, next: Limits, settled: real)
    requires before.Validate() && next.Validate() && (!before.TokenLimited() ==> settled == 0.0)
    ensures
      var balance := NewBalance(before, next, settled);
      && (before.TokenLimited() && next.TokenLimited() && settled <= next.Capacity() as real ==> balance == settled)
      && (balance > settled <==> before.TokenLimited() != next.TokenLimited() && (next.TokenLimited() || settled < 0.0))
      && (next.TokenLimited() ==> balance <= next.Capacity() as real)
  {
  }

  // Ensure settles the time before the change under the old limits and starts
  // the new ones at its own clock reading.
  lemma EnsureSwitches(cfg: Config, s: State, heard: bool)
    requires Inv(cfg, s) && Enabled(s, Commit(heard)) && s.tx.value.work.Ensuring?
    ensures
      var after, t := Next(cfg, s, Commit(heard)), s.tx.value;
      && after.bucket.limits == t.work.limits && after.rows == s.rows && after.holders == s.holders
      && after.bucket.lastRefill == t.now == after.ledger.epoch && after.ledger.net == 0
      && after.bucket.balance == NewBalance(s.bucket.limits, t.work.limits,
           BucketCore.Settle(s.bucket.limits, s.bucket.balance, s.bucket.lastRefill, t.now))
  {
    assert s.rows - {} == s.rows;
  }
}
