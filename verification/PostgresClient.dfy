// bucket/postgres: one process's side of the protocol, statement by statement,
// with other processes' statements between its own. Everything it does is a
// run of the transition system, so what holds of every run holds of it.
module PostgresClient {
  import opened Collections
  import opened Messages
  import opened Limits
  import opened PostgresBucket
  import Runs = PostgresRuns
  import BucketCore

  // The database as one bucket's users see it. A method is one SQL statement.
  class Database {
    const cfg: Config
    var s: State

    ghost predicate Valid()
      reads this
    {
      cfg.Validate() && Inv(cfg, s)
    }

    constructor (cfg: Config, limits: Limits, clock: int)
      requires cfg.WithDefaults().Validate() && limits.Validate()
      ensures Valid() && this.cfg == cfg.WithDefaults() && s == Created(limits, clock)
    {
      this.cfg := cfg.WithDefaults();
      s := Created(limits, clock);
      new;
      CreatedOK(this.cfg, limits, clock);
    }

    // What other processes do meanwhile.
    method Others(steps: seq<Step>)
      requires Valid()
      modifies this`s
      ensures Valid() && s == After(cfg, old(s), steps)
    {
      for i := 0 to |steps|
        invariant Valid() && s == After(cfg, old(s), steps[..i])
      {
        assert steps[..i + 1][..i] == steps[..i];
        InvKept(cfg, s, steps[i]);
        s := Next(cfg, s, steps[i]);
      }
      assert steps[..|steps|] == steps;
    }

    method SelectForUpdate(work: Work) returns (row: Bucket)
      requires Valid() && Enabled(s, Lock(work))
      modifies this`s
      ensures Valid() && s == Next(cfg, old(s), Lock(work)) && row == s.bucket
    {
      InvKept(cfg, s, Lock(work));
      s := Locking(s, work);
      row := s.bucket;
      assert s == Next(cfg, old(s), Lock(work));
    }

    method ClockTimestamp() returns (now: int)
      requires Valid() && Enabled(s, Sample)
      modifies this`s
      ensures Valid() && s == Next(cfg, old(s), Sample) && now == s.tx.value.now
    {
      InvKept(cfg, s, Sample);
      now := s.clock;
      s := s.(tx := Some(s.tx.value.(phase := Sampled, now := now)));
      assert s == Next(cfg, old(s), Sample);
    }

    method DeleteExpired(now: int)
      requires Valid() && Enabled(s, Reap) && now == s.tx.value.now
      modifies this`s
      ensures Valid() && s == Next(cfg, old(s), Reap)
    {
      InvKept(cfg, s, Reap);
      var expired := set id | id in s.rows && s.rows[id].expires <= now;
      s := s.(tx := Some(s.tx.value.(phase := Reaped, reaped := expired)));
      assert s == Next(cfg, old(s), Reap);
    }

    method CountLeases() returns (live: int)
      requires Valid() && Enabled(s, Count)
      modifies this`s
      ensures Valid() && s == Next(cfg, old(s), Count) && live == s.tx.value.live
    {
      InvKept(cfg, s, Count);
      live := |s.rows.Keys - s.tx.value.reaped|;
      s := s.(tx := Some(s.tx.value.(phase := Counted, live := live)));
      assert s == Next(cfg, old(s), Count);
    }

    // The caller must have computed the row that its step of the protocol writes.
    method UpdateBucket(row: Bucket, fits: bool)
      requires Valid() && Enabled(s, Update)
      requires row == Written(s.bucket, s.holders, s.tx.value) && fits == FitsNow(s.bucket, s.tx.value)
      modifies this`s
      ensures Valid() && s == Next(cfg, old(s), Update)
    {
      InvKept(cfg, s, Update);
      s := s.(tx := Some(s.tx.value.(phase := Updated, bucket := row, fits := fits)));
      assert s == Next(cfg, old(s), Update);
    }

    method InsertLease() returns (id: nat)
      requires Valid() && Enabled(s, Step.Insert)
      modifies this`s
      ensures Valid() && s == Next(cfg, old(s), Step.Insert) && id == s.tx.value.leaseID
    {
      InvKept(cfg, s, Step.Insert);
      id := s.nextID;
      s := Inserting(cfg, s, s.tx.value);
      assert s == Next(cfg, old(s), Step.Insert);
    }

    method End(commit: bool, heard: bool)
      requires Valid() && Enabled(s, Rollback) && (commit ==> Enabled(s, Commit(heard)))
      modifies this`s
      ensures Valid() && s == Next(cfg, old(s), if commit then Commit(heard) else Rollback)
    {
      InvKept(cfg, s, if commit then Commit(heard) else Rollback);
      s := if commit then Committing(s, s.tx.value, heard) else s.(tx := None);
      assert s == Next(cfg, old(s), if commit then Commit(heard) else Rollback);
    }

    // Extends a live row; the number of rows affected. When the statement's
    // outcome is not heard it may have run all the same.
    method ExtendLease(id: nat, heard: bool) returns (affected: nat)
      requires Valid() && id in s.holders
      modifies this`s
      ensures Valid() && s == Next(cfg, old(s), Renew(id, heard))
      ensures affected == if LiveRow(old(s), id) then 1 else 0
    {
      InvKept(cfg, s, Renew(id, heard));
      affected := if id in s.rows && s.rows[id].expires > s.clock then 1 else 0;
      s := Renewing(cfg, s, id, heard);
      assert s == Next(cfg, old(s), Renew(id, heard));
    }

    // A change of a lease's own fields, with no statement.
    method Note(step: Step)
      requires Valid() && (step.AdjustDropped? || step.HardCap?)
      modifies this`s
      ensures Valid() && s == Next(cfg, old(s), step)
    {
      InvKept(cfg, s, step);
      s := Next(cfg, s, step);
    }

    // Deletes a lease row; whether it was live.
    method DeleteLease(id: nat) returns (live: bool)
      requires Valid() && Enabled(s, Release(id))
      modifies this`s
      ensures Valid() && s == Next(cfg, old(s), Release(id)) && live == LiveRow(old(s), id)
      ensures id !in s.rows && id in s.holders && s.holders[id].outcome == if live then ReleasedOK else LeaseLost
      ensures !live ==> s.holders[id].loss != NotLost
    {
      InvKept(cfg, s, Release(id));
      live := id in s.rows && s.rows[id].expires > s.clock;
      s := Releasing(s, id);
      assert s == Next(cfg, old(s), Release(id));
    }

    // A DELETE whose outcome is an error; it may have run.
    method DeleteFails(id: nat, deleted: bool)
      requires Valid() && Enabled(s, ReleaseError(id, deleted))
      modifies this`s
      ensures Valid() && s == Next(cfg, old(s), ReleaseError(id, deleted))
      ensures id in s.holders && s.holders[id].outcome == ReleaseFailed
    {
      InvKept(cfg, s, ReleaseError(id, deleted));
      s := Next(cfg, s, ReleaseError(id, deleted));
    }
  }

  // ---------- Between a transaction's statements ----------

  // What happens before a statement, and whether the statement fails.
  datatype Gap = Gap(others: seq<Step>, fails: bool)

  predicate ForeignSteps(steps: seq<Step>) {
    forall step :: step in steps ==> Foreign(step)
  }

  // Nothing of a transaction is committed, its leases' estimates stand, and
  // no row is added or brought back to life.
  ghost predicate Unchanged(before: State, s: State) {
    && s.bucket == before.bucket && s.ledger == before.ledger && s.holders.Keys == before.holders.Keys
    && s.clock >= before.clock && s.rows.Keys <= before.rows.Keys
    && (forall id :: id in before.holders ==> SameLease(before.holders[id], s.holders[id]))
    && NoneRevived(before, s)
  }

  ghost predicate NoneRevived(before: State, s: State) {
    forall id :: id in s.rows && id in before.rows && !LiveRow(before, id) ==> s.rows[id] == before.rows[id]
  }

  // The leases that hold a slot.
  function LiveIDs(s: State): set<nat> {
    set id | id in s.rows && s.rows[id].expires > s.clock
  }

  // A lease's charge never changes, and an adjusted one stays adjusted.
  predicate SameLease(before: Holder, h: Holder) {
    h.tokens == before.tokens && h.charged == before.charged && (before.adjusted ==> h.adjusted)
  }

  // Adjust marks its lease before it gets the lock, for good.
  predicate Marked(s: State, work: Work) {
    work.Adjusting? ==> work.id in s.holders && s.holders[work.id].adjusted
  }

  // The lock taken at before is held, and the transaction is at this phase.
  ghost predicate Progress(before: State, s: State, work: Work, phase: Phase) {
    Unchanged(before, s) && Marked(s, work) && s.tx.Some? && s.tx.value.work == work && s.tx.value.phase == phase
  }

  lemma UnchangedAcross(a: State, b: State, c: State)
    requires Unchanged(a, b) && Unchanged(b, c)
    ensures Unchanged(a, c)
  {
    forall id | id in a.holders ensures SameLease(a.holders[id], c.holders[id]) {
      assert SameLease(a.holders[id], b.holders[id]) && SameLease(b.holders[id], c.holders[id]);
    }
  }

  lemma ForeignStep(cfg: Config, s: State, step: Step)
    requires Foreign(step)
    ensures Unchanged(s, Next(cfg, s, step)) && Next(cfg, s, step).tx == s.tx
  {
  }

  lemma {:induction false} ForeignRun(cfg: Config, s: State, steps: seq<Step>)
    requires ForeignSteps(steps)
    ensures Unchanged(s, After(cfg, s, steps)) && After(cfg, s, steps).tx == s.tx
  {
    if steps != [] {
      var front, last := steps[..|steps| - 1], steps[|steps| - 1];
      ForeignRun(cfg, s, front);
      assert last in steps;
      ForeignStep(cfg, After(cfg, s, front), last);
      UnchangedAcross(s, After(cfg, s, front), After(cfg, s, steps));
    }
  }

  lemma Then(cfg: Config, s: State, steps: seq<Step>, more: seq<Step>)
    ensures After(cfg, s, steps + more) == After(cfg, After(cfg, s, steps), more)
    ensures |more| == 1 ==> After(cfg, s, steps + more) == Next(cfg, After(cfg, s, steps), more[0])
  {
    Runs.AfterConcat(cfg, s, steps, more);
  }

  lemma One(cfg: Config, s: State, step: Step)
    ensures After(cfg, s, [step]) == Next(cfg, s, step)
  {
  }

  // Others run in the gap while this transaction holds the lock; a failing
  // statement then ends it.
  method Between(
      db: Database, gap: Gap, ghost before: State, ghost work: Work, ghost phase: Phase, ghost s0: State,
      ghost sofar: seq<Step>)
    returns (failed: bool, ghost steps: seq<Step>)
    requires db.Valid() && db.s == After(db.cfg, s0, sofar) && ForeignSteps(gap.others)
    requires Progress(before, db.s, work, phase)
    modifies db`s
    ensures db.Valid() && db.s == After(db.cfg, s0, steps) && failed == gap.fails
    ensures if failed then Unchanged(before, db.s) && Marked(db.s, work)
            else Progress(before, db.s, work, phase) && db.s.tx == old(db.s.tx) && db.s.rows.Keys <= old(db.s).rows.Keys
  {
    db.Others(gap.others);
    ForeignRun(db.cfg, old(db.s), gap.others);
    steps := sofar + gap.others;
    Then(db.cfg, s0, sofar, gap.others);
    failed := gap.fails;
    if failed {
      db.End(false, false);
      Then(db.cfg, s0, steps, [Rollback]);
      steps := steps + [Rollback];
    }
  }

  // Lock the bucket row, then sample the clock. Waiting for the lock may see
  // any steps at all, and times out when it is still held.
  method Begin(db: Database, work: Work, wait: seq<Step>, sample: Gap)
    returns (ok: bool, row: Bucket, now: int, ghost before: State, ghost steps: seq<Step>)
    requires db.Valid() && ForeignSteps(sample.others)
    requires MayLock(After(db.cfg, db.s, wait), work)
    modifies db`s
    ensures db.Valid() && db.s == After(db.cfg, old(db.s), steps)
    ensures before == After(db.cfg, old(db.s), wait)
    ensures if ok then Progress(before, db.s, work, Sampled) && row == before.bucket && now == db.s.tx.value.now
                  && before.clock <= now && before.bucket.lastRefill <= now
            else Unchanged(before, db.s)
    ensures ok <==> before.tx.None? && !sample.fails
    ensures before.tx.None? ==> Marked(db.s, work)
    ensures before.tx.Some? ==> db.s == before
  {
    ghost var s0, cfg := db.s, db.cfg;
    db.Others(wait);
    before, steps, row, now := db.s, wait, db.s.bucket, 0;
    if db.s.tx.Some? {
      return false, row, now, before, steps;
    }
    row := db.SelectForUpdate(work);
    Then(cfg, s0, steps, [Lock(work)]);
    steps := steps + [Lock(work)];
    var failed;
    failed, steps := Between(db, sample, before, work, Locked, s0, steps);
    if failed {
      return false, row, now, before, steps;
    }
    now := db.ClockTimestamp();
    Then(cfg, s0, steps, [Sample]);
    steps := steps + [Sample];
    ok := true;
  }

  // COMMIT. Its error may hide that it took effect.
  method Finish(
      db: Database, gap: Gap, heard: bool, ghost before: State, ghost work: Work, ghost phase: Phase,
      ghost s0: State, ghost sofar: seq<Step>)
    returns (ghost mid: State, ghost steps: seq<Step>)
    requires db.Valid() && db.s == After(db.cfg, s0, sofar) && ForeignSteps(gap.others)
    requires Progress(before, db.s, work, phase) && Done(db.s.bucket, db.s.tx.value)
    modifies db`s
    ensures db.Valid() && db.s == After(db.cfg, s0, steps)
    ensures Inv(db.cfg, mid) && Progress(before, mid, work, phase) && mid.tx == old(db.s.tx)
    ensures if gap.fails then Unchanged(before, db.s) && Marked(db.s, work)
            else db.s == Committing(mid, mid.tx.value, heard)
  {
    db.Others(gap.others);
    ForeignRun(db.cfg, old(db.s), gap.others);
    Then(db.cfg, s0, sofar, gap.others);
    mid := db.s;
    ghost var last := if gap.fails then Rollback else Commit(heard);
    db.End(!gap.fails, heard);
    Then(db.cfg, s0, sofar + gap.others, [last]);
    steps := sofar + gap.others + [last];
  }

  // ---------- Acquire ----------

  datatype Attempt =
    | Admitted(id: nat, charged: bool)
    | Impossible
    | Wait(retryAfter: int)
    | Failed      // an error, and nothing was committed
    | CommitLost  // an error from COMMIT, although it took effect

  datatype AcquireScript = AcquireScript(
    wait: seq<Step>, sample: Gap, reap: Gap, count: Gap, update: Gap, insert: Gap, commit: Gap, heard: bool)

  predicate NothingFails(script: AcquireScript) {
    !script.sample.fails && !script.reap.fails && !script.count.fails && !script.update.fails
        && !script.insert.fails && !script.commit.fails
  }

  predicate ScriptOK(script: AcquireScript) {
    && ForeignSteps(script.sample.others) && ForeignSteps(script.reap.others) && ForeignSteps(script.count.others)
    && ForeignSteps(script.update.others) && ForeignSteps(script.insert.others) && ForeignSteps(script.commit.others)
  }

  // The lease is new, and held when its holder heard of it.
  ghost predicate HeldAs(before: State, s: State, id: nat, h: Holder, heard: bool) {
    && id !in before.holders && s.holders.Keys == before.holders.Keys + (if heard then {id} else {})
    && (heard ==> s.holders[id] == h)
  }

  // The balance settled to the clock reading, less the tokens charged.
  ghost predicate ChargedAt(before: State, s: State, tokens: nat) {
    && s.ledger == before.ledger.(net := before.ledger.net + tokens)
    && before.clock <= s.bucket.lastRefill <= s.clock
    && s.bucket.balance == SettledAt(before.bucket, s.bucket.lastRefill) - tokens as real
  }

  // What an attempt that would report res did, given the state in which it got
  // the lock. When its commit is not heard the row has no holder.
  ghost predicate AttemptSays(before: State, s: State, tokens: nat, res: Attempt, heard: bool) {
    match res
    case Admitted(id, charged) =>
      && id in s.rows && HeldAs(before, s, id, Holder(tokens, charged, false, NotLost, Holding), heard)
      && charged == before.bucket.limits.TokenLimited()
      && ChargedAt(before, s, if charged then tokens else 0) && (charged ==> s.bucket.balance >= 0.0)
      && (before.bucket.limits.SlotLimited() ==> |s.rows| <= before.bucket.limits.maxConcurrency)
    case Impossible =>
      Unchanged(before, s) && BucketCore.Impossible(before.bucket.limits, tokens)
    case Wait(retryAfter) =>
      && s.holders.Keys == before.holders.Keys && ChargedAt(before, s, 0)
      && retryAfter == BucketCore.RetryAfter(before.bucket.limits, s.bucket.balance, tokens)
      && (BucketCore.TokensFit(before.bucket.limits, s.bucket.balance, tokens) ==>
            before.bucket.limits.SlotLimited() && |LiveIDs(before)| >= before.bucket.limits.maxConcurrency)
    case Failed => Unchanged(before, s)
    case CommitLost => false
  }

  function SettledAt(b: Bucket, now: int): real {
    BucketCore.Settle(b.limits, b.balance, b.lastRefill, now)
  }

  // What an attempt that got this far reports.
  function Report(before: State, t: Tx, tokens: nat): Attempt {
    if t.phase == Inserted then Admitted(t.leaseID, before.bucket.limits.TokenLimited())
    else if t.phase == Updated then Wait(BucketCore.RetryAfter(before.bucket.limits, t.bucket.balance, tokens))
    else Impossible
  }

  // A transaction ready to commit, whose count was of leases live at before.
  ghost predicate Ready(cfg: Config, before: State, mid: State, tokens: nat) {
    && Inv(cfg, mid) && mid.tx.Some? && Done(mid.bucket, mid.tx.value)
    && Progress(before, mid, Acquiring(tokens), mid.tx.value.phase) && before.clock <= mid.tx.value.now
    && (mid.tx.value.phase == Updated ==> mid.tx.value.live <= |LiveIDs(before)|)
  }

  lemma CommittedLease(cfg: Config, before: State, mid: State, tokens: nat, heard: bool)
    requires Ready(cfg, before, mid, tokens) && mid.tx.value.phase == Inserted
    ensures
      var s, id := Committing(mid, mid.tx.value, heard), mid.tx.value.leaseID;
      && id in s.rows
      && HeldAs(before, s, id, Holder(tokens, before.bucket.limits.TokenLimited(), false, NotLost, Holding), heard)
  {
  }

  lemma CommittedCharge(cfg: Config, before: State, mid: State, tokens: nat, heard: bool)
    requires Ready(cfg, before, mid, tokens) && mid.tx.value.phase == Inserted
    ensures ChargedAt(before, Committing(mid, mid.tx.value, heard),
              if before.bucket.limits.TokenLimited() then tokens else 0)
  {
  }

  lemma CommittedAdmission(cfg: Config, before: State, mid: State, tokens: nat, heard: bool)
    requires Ready(cfg, before, mid, tokens) && mid.tx.value.phase == Inserted
    ensures AttemptSays(before, Committing(mid, mid.tx.value, heard), tokens,
              Admitted(mid.tx.value.leaseID, before.bucket.limits.TokenLimited()), heard)
  {
    assert Committing(mid, mid.tx.value, heard) == Next(cfg, mid, Commit(heard));
    CommittedLease(cfg, before, mid, tokens, heard);
    CommittedCharge(cfg, before, mid, tokens, heard);
    Runs.AdmittedBalance(cfg, mid, heard);
    if mid.bucket.limits.SlotLimited() {
      Runs.AdmissionFits(cfg, mid, heard);
    }
  }

  lemma CommittedRefusal(cfg: Config, before: State, mid: State, tokens: nat, heard: bool)
    requires Ready(cfg, before, mid, tokens) && mid.tx.value.phase == Updated
    ensures AttemptSays(before, Committing(mid, mid.tx.value, heard), tokens,
              Wait(BucketCore.RetryAfter(before.bucket.limits, mid.tx.value.bucket.balance, tokens)), heard)
  {
  }

  lemma CommittedOutcome(cfg: Config, before: State, mid: State, tokens: nat, heard: bool)
    requires Ready(cfg, before, mid, tokens)
    ensures AttemptSays(before, Committing(mid, mid.tx.value, heard), tokens, Report(before, mid.tx.value, tokens),
              heard)
  {
    if mid.tx.value.phase == Inserted {
      CommittedAdmission(cfg, before, mid, tokens, heard);
    } else if mid.tx.value.phase == Updated {
      CommittedRefusal(cfg, before, mid, tokens, heard);
    }
  }

  // Every row that was dead when the transaction got the lock is deleted by it.
  ghost predicate DeadReaped(before: State, s: State) {
    s.tx.Some? && forall id :: id in s.rows && !LiveRow(before, id) ==> id in s.tx.value.reaped
  }

  lemma ReapCovers(cfg: Config, before: State, s: State, tokens: nat)
    requires Progress(before, s, Acquiring(tokens), Sampled) && Enabled(s, Reap) && before.clock <= s.tx.value.now
    ensures DeadReaped(before, Next(cfg, s, Reap))
  {
  }

  lemma CountCovers(before: State, s: State)
    requires DeadReaped(before, s) && s.rows.Keys <= before.rows.Keys
    ensures |s.rows.Keys - s.tx.value.reaped| <= |LiveIDs(before)|
  {
    Smaller(s.rows.Keys - s.tx.value.reaped, LiveIDs(before));
  }

  // Delete the expired leases.
  method ReapExpired(
      db: Database, tokens: nat, now: int, reap: Gap, ghost before: State, ghost s0: State, ghost sofar: seq<Step>)
    returns (ok: bool, ghost steps: seq<Step>)
    requires db.Valid() && db.s == After(db.cfg, s0, sofar) && ForeignSteps(reap.others)
    requires Progress(before, db.s, Acquiring(tokens), Sampled) && !NeverFits(db.s.bucket, db.s.tx.value)
    requires before.clock <= now == db.s.tx.value.now
    modifies db`s
    ensures db.Valid() && db.s == After(db.cfg, s0, steps)
    ensures if ok then Progress(before, db.s, Acquiring(tokens), Reaped) && now == db.s.tx.value.now
        && DeadReaped(before, db.s)
            else Unchanged(before, db.s)
    ensures ok <==> !reap.fails
  {
    var failed;
    failed, steps := Between(db, reap, before, Acquiring(tokens), Sampled, s0, sofar);
    if failed {
      return false, steps;
    }
    ReapCovers(db.cfg, before, db.s, tokens);
    db.DeleteExpired(now);
    Then(db.cfg, s0, steps, [Reap]);
    steps := steps + [Reap];
    ok := true;
  }

  // Reap expired leases and count the live ones.
  method CountLive(
      db: Database, tokens: nat, now: int, reap: Gap, count: Gap, ghost before: State, ghost s0: State,
      ghost sofar: seq<Step>)
    returns (ok: bool, live: int, ghost steps: seq<Step>)
    requires db.Valid() && db.s == After(db.cfg, s0, sofar) && ForeignSteps(reap.others) && ForeignSteps(count.others)
    requires Progress(before, db.s, Acquiring(tokens), Sampled) && !NeverFits(db.s.bucket, db.s.tx.value)
    requires before.clock <= now == db.s.tx.value.now
    modifies db`s
    ensures db.Valid() && db.s == After(db.cfg, s0, steps)
    ensures if ok then Progress(before, db.s, Acquiring(tokens), Counted) && now == db.s.tx.value.now
        && live == db.s.tx.value.live <= |LiveIDs(before)|
            else Unchanged(before, db.s)
    ensures ok <==> !reap.fails && !count.fails
  {
    live := 0;
    ok, steps := ReapExpired(db, tokens, now, reap, before, s0, sofar);
    if !ok {
      return;
    }
    var failed;
    failed, steps := Between(db, count, before, Acquiring(tokens), Reaped, s0, steps);
    if failed {
      return false, live, steps;
    }
    CountCovers(before, db.s);
    live := db.CountLeases();
    Then(db.cfg, s0, steps, [Count]);
    steps := steps + [Count];
  }

  // Write the settled and charged balance.
  method ChargeBalance(
      db: Database, row: Bucket, tokens: nat, now: int, live: int, update: Gap, ghost before: State, ghost s0: State,
      ghost sofar: seq<Step>)
    returns (ok: bool, fits: bool, balance: real, ghost steps: seq<Step>)
    requires db.Valid() && db.s == After(db.cfg, s0, sofar) && ForeignSteps(update.others)
    requires Progress(before, db.s, Acquiring(tokens), Counted) && now == db.s.tx.value.now
    requires live == db.s.tx.value.live
    requires row == before.bucket
    modifies db`s
    ensures db.Valid() && db.s == After(db.cfg, s0, steps)
    ensures if ok then
              && Progress(before, db.s, Acquiring(tokens), Updated) && now == db.s.tx.value.now
              && fits == db.s.tx.value.fits && balance == db.s.tx.value.bucket.balance && live == db.s.tx.value.live
            else Unchanged(before, db.s)
    ensures ok <==> !update.fails
  {
    balance := BucketCore.Settle(row.limits, row.balance, row.lastRefill, now);
    fits := BucketCore.Fits(row.limits, balance, tokens, live);
    if fits && row.limits.TokenLimited() {
      balance := balance - tokens as real;
    }
    var failed;
    failed, steps := Between(db, update, before, Acquiring(tokens), Counted, s0, sofar);
    if failed {
      return false, fits, balance, steps;
    }
    db.UpdateBucket(Bucket(row.limits, balance, now), fits);
    Then(db.cfg, s0, steps, [Update]);
    steps := steps + [Update];
    ok := true;
  }

  // Insert the lease of an attempt that fits.
  method Insert(db: Database, tokens: nat, insert: Gap, ghost before: State, ghost s0: State, ghost sofar: seq<Step>)
    returns (ok: bool, id: nat, ghost steps: seq<Step>)
    requires db.Valid() && db.s == After(db.cfg, s0, sofar) && ForeignSteps(insert.others)
    requires Progress(before, db.s, Acquiring(tokens), Updated) && db.s.tx.value.fits
    modifies db`s
    ensures db.Valid() && db.s == After(db.cfg, s0, steps)
    ensures if ok then Progress(before, db.s, Acquiring(tokens), Inserted) && id == db.s.tx.value.leaseID
        && db.s.tx.value.now == old(db.s.tx.value.now)
            else Unchanged(before, db.s)
    ensures ok <==> !insert.fails
  {
    var failed;
    failed, steps := Between(db, insert, before, Acquiring(tokens), Updated, s0, sofar);
    if failed {
      return false, 0, steps;
    }
    id := db.InsertLease();
    Then(db.cfg, s0, steps, [Step.Insert]);
    steps := steps + [Step.Insert];
    ok := true;
  }

  // The attempt's statements up to COMMIT; res is what it reports if the
  // commit is heard.
  method Statements(
      db: Database, row: Bucket, tokens: nat, now: int, script: AcquireScript, ghost before: State, ghost s0: State,
      ghost sofar: seq<Step>)
    returns (ok: bool, res: Attempt, ghost phase: Phase, ghost steps: seq<Step>)
    requires db.Valid() && db.s == After(db.cfg, s0, sofar) && ScriptOK(script)
    requires Progress(before, db.s, Acquiring(tokens), Sampled) && row == before.bucket
    requires before.clock <= now == db.s.tx.value.now
    modifies db`s
    ensures db.Valid() && db.s == After(db.cfg, s0, steps)
    ensures !ok ==>
              Unchanged(before, db.s)
                  && (script.reap.fails || script.count.fails || script.update.fails || script.insert.fails)
    ensures ok ==>
              Progress(before, db.s, Acquiring(tokens), phase) && now == db.s.tx.value.now
                  && Done(db.s.bucket, db.s.tx.value)
    ensures ok ==> res == Report(before, db.s.tx.value, tokens)
    ensures ok && phase == Updated ==> db.s.tx.value.live <= |LiveIDs(before)|
  {
    phase, steps, res := Sampled, sofar, Impossible;
    if BucketCore.Impossible(row.limits, tokens) {
      return true, res, phase, steps;
    }
    var live, fits, balance; var id := 0;
    ok, live, steps := CountLive(db, tokens, now, script.reap, script.count, before, s0, steps);
    if !ok {
      return;
    }
    ok, fits, balance, steps := ChargeBalance(db, row, tokens, now, live, script.update, before, s0, steps);
    if !ok {
      return;
    }
    if !fits {
      return true, Wait(BucketCore.RetryAfter(row.limits, balance, tokens)), Updated, steps;
    }
    ok, id, steps := Insert(db, tokens, script.insert, before, s0, steps);
    phase, res := Inserted, Admitted(id, row.limits.TokenLimited());
  }

  // One admission attempt. Other processes act between any two of its
  // statements, and any statement may fail. report is what it reports when its
  // commit is heard, and is what it did either way.
  method TryAcquire(db: Database, tokens: nat, script: AcquireScript)
    returns (res: Attempt, ghost report: Attempt, ghost steps: seq<Step>)
    requires db.Valid() && ScriptOK(script)
    modifies db`s
    ensures db.Valid() && db.s == After(db.cfg, old(db.s), steps)
    ensures AttemptSays(After(db.cfg, old(db.s), script.wait), db.s, tokens, report, script.heard)
    ensures res == if report.Failed? || script.heard then report else CommitLost
    ensures script.commit.fails ==> res.Failed?
    ensures NothingFails(script) ==> (res.Failed? <==> After(db.cfg, old(db.s), script.wait).tx.Some?)
  {
    ghost var s0 := db.s;
    var ok, row, now; ghost var before, mid, phase;
    report := Failed;
    ok, row, now, before, steps := Begin(db, Acquiring(tokens), script.wait, script.sample);
    if !ok {
      return Failed, report, steps;
    }
    ok, res, phase, steps := Statements(db, row, tokens, now, script, before, s0, steps);
    if !ok {
      return Failed, report, steps;
    }
    mid, steps := Finish(db, script.commit, script.heard, before, Acquiring(tokens), phase, s0, steps);
    if script.commit.fails {
      return Failed, report, steps;
    }
    CommittedOutcome(db.cfg, before, mid, tokens, script.heard);
    report := res;
    if !script.heard {
      res := CommitLost;
    }
  }

  // ---------- Adjust and Ensure ----------

  datatype Status = Ok | Err  // Err: an error; COMMIT may have taken effect all the same

  datatype WriteScript = WriteScript(wait: seq<Step>, sample: Gap, update: Gap, commit: Gap, heard: bool)

  predicate WriteScriptOK(script: WriteScript) {
    ForeignSteps(script.sample.others) && ForeignSteps(script.update.others) && ForeignSteps(script.commit.others)
  }

  // The row as it stands after a transaction that rewrites it at now.
  ghost predicate Rewritten(before: State, s: State, row: Bucket) {
    && s.bucket == row && before.clock <= row.lastRefill <= s.clock
    && s.holders.Keys == before.holders.Keys
  }

  // Whether the transaction commits: it got the lock and no statement failed,
  // COMMIT included. Its caller may still not hear so.
  predicate Commits(before: State, script: WriteScript) {
    before.tx.None? && !script.sample.fails && !script.update.fails && !script.commit.fails
  }

  // What a committed rewrite leaves.
  ghost predicate RewriteSays(before: State, s: State, work: Work, row: Bucket) {
    && Rewritten(before, s, row)
    && (work.Ensuring? ==> s.ledger == Ledger(row.lastRefill, 0))
    && (work.Adjusting? ==>
          s.ledger == before.ledger.(net := before.ledger.net + work.actual - Estimate(before.holders, work.id)))
  }

  lemma CommittedRewrite(cfg: Config, before: State, mid: State, work: Work, row: Bucket, heard: bool)
    requires Inv(cfg, mid) && !work.Acquiring? && Progress(before, mid, work, Updated) && mid.tx.value.bucket == row
    requires before.clock <= row.lastRefill == mid.tx.value.now && (work.Adjusting? ==> work.id in before.holders)
    ensures
      var s := Committing(mid, mid.tx.value, heard);
      RewriteSays(before, s, work, row) && Marked(s, work)
  {
    if work.Adjusting? {
      assert SameLease(before.holders[work.id], mid.holders[work.id]);
    }
  }

  lemma SameWritten(before: State, s: State, work: Work)
    requires Progress(before, s, work, Sampled) && (work.Adjusting? ==> work.id in before.holders)
    ensures Written(before.bucket, before.holders, s.tx.value) == Written(s.bucket, s.holders, s.tx.value)
  {
    if work.Adjusting? {
      assert SameLease(before.holders[work.id], s.holders[work.id]);
    }
  }

  // UPDATE the row and commit.
  method Rewrite(
      db: Database, row: Bucket, work: Work, script: WriteScript, ghost before: State, ghost s0: State,
      ghost sofar: seq<Step>)
    returns (ok: Status, ghost steps: seq<Step>)
    requires db.Valid() && db.s == After(db.cfg, s0, sofar) && WriteScriptOK(script) && !work.Acquiring?
    requires Progress(before, db.s, work, Sampled) && MayUpdate(db.s.bucket, db.s.tx.value)
    requires before.clock <= db.s.tx.value.now
    requires row == Written(before.bucket, before.holders, db.s.tx.value) && row.lastRefill == db.s.tx.value.now
    requires work.Adjusting? ==> work.id in before.holders
    modifies db`s
    ensures db.Valid() && db.s == After(db.cfg, s0, steps) && Marked(db.s, work)
    ensures ok.Ok? <==> !script.update.fails && !script.commit.fails && script.heard
    ensures if script.update.fails || script.commit.fails then Unchanged(before, db.s)
            else RewriteSays(before, db.s, work, row)
  {
    var failed; ghost var mid;
    failed, steps := Between(db, script.update, before, work, Sampled, s0, sofar);
    if failed {
      return Err, steps;
    }
    SameWritten(before, db.s, work);
    db.UpdateBucket(row, false);
    Then(db.cfg, s0, steps, [Update]);
    steps := steps + [Update];
    mid, steps := Finish(db, script.commit, script.heard, before, work, Updated, s0, steps);
    if !script.commit.fails {
      CommittedRewrite(db.cfg, before, mid, work, row, script.heard);
    }
    ok := if script.commit.fails || !script.heard then Err else Ok;
  }

  // Ensure on a missing bucket: its INSERT writes one with a full balance, there
  // exactly when the transaction commits, heard or not, whatever overwrite is.
  method Create(cfg: Config, limits: Limits, clock: int, insertFails: bool, commitFails: bool, heard: bool)
    returns (ok: Status, db: Option<Database>)
    requires cfg.WithDefaults().Validate()
    ensures db.Some? <==> limits.Validate() && !insertFails && !commitFails
    ensures db.Some? ==>
              fresh(db.value) && db.value.Valid() && db.value.cfg == cfg.WithDefaults()
                  && db.value.s.bucket == Bucket(limits, limits.Capacity() as real, clock)
                  && db.value.s.rows == map[] && db.value.s.holders == map[] && db.value.s.tx.None?
    ensures ok.Ok? <==> db.Some? && heard
  {
    if !limits.Validate() || insertFails || commitFails {
      return Err, None;
    }
    var created := new Database(cfg, limits, clock);
    return if heard then Ok else Err, Some(created);
  }

  // Ensure on an existing bucket. Its INSERT finds the bucket there and so
  // writes nothing. The limits change exactly when they are to be overwritten
  // and the transaction commits, heard or not; nothing changes otherwise.
  method Ensure(db: Database, limits: Limits, overwrite: bool, insert: Gap, script: WriteScript)
    returns (ok: Status, ghost steps: seq<Step>)
    requires db.Valid() && WriteScriptOK(script)
    modifies db`s
    ensures db.Valid() && db.s == After(db.cfg, old(db.s), steps)
    ensures !limits.Validate() ==> db.s == old(db.s) && ok.Err?
    ensures limits.Validate() && insert.fails ==> db.s == After(db.cfg, old(db.s), insert.others) && ok.Err?
    ensures limits.Validate() && !insert.fails ==>
              var before := After(db.cfg, After(db.cfg, old(db.s), insert.others), script.wait);
              EnsureSays(before, db.s, limits, overwrite, script, ok)
  {
    if !limits.Validate() {
      return Err, [];
    }
    db.Others(insert.others);
    if insert.fails {
      return Err, insert.others;
    }
    ghost var s0, s1 := db.s, old(db.s);
    if !overwrite {
      db.Others(script.wait);
      Then(db.cfg, s1, insert.others, script.wait);
      return if script.commit.fails || !script.heard then Err else Ok, insert.others + script.wait;
    }
    var begun, row, now; ghost var before;
    begun, row, now, before, steps := Begin(db, Ensuring(limits), script.wait, script.sample);
    if begun {
      var balance := NewBalance(row.limits, limits, SettledAt(row, now));
      ok, steps := Rewrite(db, Bucket(limits, balance, now), Ensuring(limits), script, before, s0, steps);
    } else {
      ok := Err;
    }
    Then(db.cfg, s1, insert.others, steps);
    steps := insert.others + steps;
  }

  // What an Ensure that got past its INSERT leaves, given the state in which
  // it got the lock, or in which it commits without one.
  ghost predicate EnsureSays(
      before: State, s: State, limits: Limits, overwrite: bool, script: WriteScript, ok: Status)
  {
    if !overwrite then s == before && (ok.Ok? <==> !script.commit.fails && script.heard)
    else
      && (ok.Ok? <==> Commits(before, script) && script.heard)
      && (if Commits(before, script) then
            var now := s.bucket.lastRefill;
            && s.ledger == Ledger(now, 0) && Rewritten(before, s,
                 Bucket(limits, NewBalance(before.bucket.limits, limits, SettledAt(before.bucket, now)), now))
          else Unchanged(before, s))
  }

  // ---------- A lease ----------

  // A step that adjusts the lease.
  predicate Adjusts(step: Step, id: nat) {
    (step.Lock? && step.work.Adjusting? && step.work.id == id) || (step.AdjustDropped? && step.id == id)
  }

  ghost predicate SameUnadjusted(a: State, b: State, id: nat) {
    && id in a.holders && id in b.holders && b.holders[id].adjusted == a.holders[id].adjusted
    && b.holders[id].tokens == a.holders[id].tokens && b.holders[id].charged == a.holders[id].charged
  }

  lemma StepLeavesUnadjusted(cfg: Config, s: State, step: Step, id: nat)
    requires Inv(cfg, s) && id in s.holders && !Adjusts(step, id)
    ensures SameUnadjusted(s, Next(cfg, s, step), id)
  {
  }

  lemma {:induction false} StaysUnadjusted(cfg: Config, s: State, steps: seq<Step>, id: nat)
    requires cfg.Validate() && Inv(cfg, s) && id in s.holders && forall i :: 0 <= i < |steps| ==> !Adjusts(steps[i], id)
    ensures SameUnadjusted(s, After(cfg, s, steps), id)
  {
    if steps != [] {
      var front := steps[..|steps| - 1];
      StaysUnadjusted(cfg, s, front, id);
      RunKeeps(cfg, s, front);
      StepLeavesUnadjusted(cfg, After(cfg, s, front), steps[|steps| - 1], id);
    }
  }

  ghost predicate SameOutcome(a: State, b: State, id: nat) {
    id in a.holders && id in b.holders && b.holders[id].outcome == a.holders[id].outcome
  }

  lemma StepLeavesOutcome(cfg: Config, s: State, step: Step, id: nat)
    requires Inv(cfg, s) && id in s.holders && !Runs.Deletes(step, id)
    ensures SameOutcome(s, Next(cfg, s, step), id)
  {
  }

  lemma {:induction false} StaysHeld(cfg: Config, s: State, steps: seq<Step>, id: nat)
    requires cfg.Validate() && Inv(cfg, s) && id in s.holders && forall i :: 0 <= i < |steps| ==>
              !Runs.Deletes(steps[i], id)
    ensures SameOutcome(s, After(cfg, s, steps), id)
  {
    if steps != [] {
      var front := steps[..|steps| - 1];
      StaysHeld(cfg, s, front, id);
      RunKeeps(cfg, s, front);
      StepLeavesOutcome(cfg, After(cfg, s, front), steps[|steps| - 1], id);
    }
  }

  // What a reconciliation leaves: the balance settled to its clock reading,
  // then corrected; nothing changes in a bucket that limits no tokens now.
  ghost predicate AdjustSays(before: State, s: State, charged: nat, actual: nat) {
    var limits, now := before.bucket.limits, s.bucket.lastRefill;
    if limits.TokenLimited() then
      && Rewritten(before, s,
            Bucket(limits, BucketCore.Adjusted(limits, SettledAt(before.bucket, now), charged, actual), now))
      && s.ledger.net == before.ledger.net + actual - charged
    else s.bucket == before.bucket && s.ledger == before.ledger
  }

  // Whether a reconciliation is not committed, and so charges nothing.
  predicate AdjustFails(before: State, script: WriteScript) {
    before.tx.Some? || script.sample.fails || script.commit.fails
        || (before.bucket.limits.TokenLimited() && script.update.fails)
  }

  predicate SameBucket(before: State, s: State) {
    s.bucket == before.bucket && s.ledger == before.ledger
  }

  // What ends one wait of the renewal loop.
  datatype Wake = Canceled | CapReached | Ticked(error: bool, reached: bool)

  datatype Cycle = Cycle(others: seq<Step>, wake: Wake)

  // Whether a cycle ends the loop: canceled, at the cap, or with a renewal
  // that heard of no live row.
  predicate Stops(cfg: Config, s: State, id: nat, cycle: Cycle) {
    cycle.wake.Ticked? ==> !cycle.wake.error && !LiveRow(After(cfg, s, cycle.others), id)
  }

  // What a cycle that does not end the loop leaves: the renewal, unless its
  // statement never reached the database.
  function Passed(cfg: Config, s: State, id: nat, cycle: Cycle): State {
    var ready := After(cfg, s, cycle.others);
    if !cycle.wake.Ticked? || (cycle.wake.error && !cycle.wake.reached) then ready
    else Next(cfg, ready, Renew(id, !cycle.wake.error))
  }

  // None of the first n cycles ends the loop.
  ghost predicate AllPass(cfg: Config, s: State, id: nat, cycles: seq<Cycle>, n: nat)
    requires n <= |cycles|
  {
    forall j: nat :: j < n ==> !Stops(cfg, PassedAll(cfg, s, id, cycles, j), id, cycles[j])
  }

  function PassedAll(cfg: Config, s: State, id: nat, cycles: seq<Cycle>, n: nat): State
    requires n <= |cycles|
  {
    if n == 0 then s else Passed(cfg, PassedAll(cfg, s, id, cycles, n - 1), id, cycles[n - 1])
  }

  // The loop after n cycles, none of which ended it.
  ghost predicate Renewed(cfg: Config, s0: State, id: nat, cycles: seq<Cycle>, n: nat, s: State)
    requires n <= |cycles|
  {
    AllPass(cfg, s0, id, cycles, n) && s == PassedAll(cfg, s0, id, cycles, n)
  }

  lemma OneMore(cfg: Config, s0: State, id: nat, cycles: seq<Cycle>, n: nat, s: State)
    requires n < |cycles| && Renewed(cfg, s0, id, cycles, n, s) && !Stops(cfg, s, id, cycles[n])
    ensures Renewed(cfg, s0, id, cycles, n + 1, Passed(cfg, s, id, cycles[n]))
  {
  }

  datatype ReleaseError = ErrLeaseLost | ErrDatabase

  // How a DELETE fares: it runs, or fails before or after taking effect.
  datatype Fate = Runs | Fails(deleted: bool)

  // What a DELETE leaves and reports: no error exactly when it found the row
  // live, and a lease reported lost is gone.
  ghost predicate ReleaseSays(before: State, s: State, id: nat, fate: Fate, err: Option<ReleaseError>) {
    && (err == Some(ErrDatabase) <==> fate.Fails? || Blocked(before, id))
    && (err != Some(ErrDatabase) ==> (err.None? <==> LiveRow(before, id)) && id !in s.rows)
    && (err == Some(ErrLeaseLost) ==> id in s.holders && s.holders[id].loss != NotLost && Gone(s, id))
  }

  // The fields a lease shares with its renewal loop live in the holder.
  class Lease {
    const db: Database
    const id: nat

    constructor (db: Database, id: nat)
      requires id in db.s.holders
      ensures this.db == db && this.id == id
    {
      this.db, this.id := db, id;
    }

    ghost predicate Valid()
      reads this, db
    {
      db.Valid() && id in db.s.holders
    }

    function Self(): Holder
      requires id in db.s.holders
      reads this, db
    {
      db.s.holders[id]
    }

    // One renewal; lost when no live row matched.
    method RenewOnce(error: bool, reached: bool) returns (lost: bool, err: bool, ghost steps: seq<Step>)
      requires Valid()
      modifies db`s
      ensures Valid() && db.s == After(db.cfg, old(db.s), steps) && err == error
      ensures lost <==> !error && !LiveRow(old(db.s), id)
      ensures !error && !lost ==>
                LiveRow(old(db.s), id) && id in db.s.rows
                && db.s.rows[id].expires == Least(db.s.clock + db.cfg.TTL(), db.s.rows[id].acquired + db.cfg.Cap())
      ensures lost && Self().outcome == Holding ==> Self().loss != NotLost
      ensures Self().outcome == old(Self()).outcome
      ensures db.s == if error && !reached then old(db.s) else Next(db.cfg, old(db.s), Renew(id, !error))
    {
      if error && !reached {
        return false, true, [];
      }
      steps := [Renew(id, !error)];
      One(db.cfg, db.s, Renew(id, !error));
      var affected := db.ExtendLease(id, !error);
      lost, err := !error && affected == 0, error;
    }

    // One turn of the renewal loop: wait, then act on what ended the wait.
    method RenewTurn(cycle: Cycle) returns (stop: bool, ghost steps: seq<Step>)
      requires Valid() && Self().outcome == Holding
      requires forall i :: 0 <= i < |cycle.others| ==> !Runs.Deletes(cycle.others[i], id)
      modifies db`s
      ensures Valid() && db.s == After(db.cfg, old(db.s), steps) && Self().outcome == Holding
      ensures stop <==> Stops(db.cfg, old(db.s), id, cycle)
      ensures !stop ==> db.s == Passed(db.cfg, old(db.s), id, cycle)
      ensures stop && !cycle.wake.Canceled? ==> Self().loss != NotLost
    {
      ghost var s0 := db.s;
      StaysHeld(db.cfg, s0, cycle.others, id);
      db.Others(cycle.others);
      steps := cycle.others;
      match cycle.wake
      case Canceled =>
        stop := true;
      case CapReached =>
        stop := true;
        if db.s.holders[id].loss == NotLost {
          Then(db.cfg, s0, steps, [HardCap(id)]);
          steps := steps + [HardCap(id)];
          db.Note(HardCap(id));
        }
      case Ticked(error, reached) =>
        ghost var more; var err;
        stop, err, more := RenewOnce(error, reached);
        Then(db.cfg, s0, steps, more);
        steps := steps + more;
    }

    // The renewal loop: until canceled, found lost, or at MaxLeaseDuration. It
    // stops at the first cycle that ends it; turns counts the cycles up to it.
    method RenewLoop(cycles: seq<Cycle>) returns (stopped: bool, turns: nat, ghost steps: seq<Step>)
      requires Valid() && Self().outcome == Holding
      requires forall i :: 0 <= i < |cycles| ==>
                 forall k :: 0 <= k < |cycles[i].others| ==> !Runs.Deletes(cycles[i].others[k], id)
      modifies db`s
      ensures Valid() && db.s == After(db.cfg, old(db.s), steps) && Self().outcome == Holding
      ensures turns <= |cycles| && (stopped ==> turns > 0) && (!stopped ==> turns == |cycles|)
      ensures !stopped ==> Renewed(db.cfg, old(db.s), id, cycles, turns, db.s)
      ensures stopped ==>
                var last := PassedAll(db.cfg, old(db.s), id, cycles, turns - 1);
                Renewed(db.cfg, old(db.s), id, cycles, turns - 1, last) && Stops(db.cfg, last, id, cycles[turns - 1])
      ensures stopped && !cycles[turns - 1].wake.Canceled? ==> Self().loss != NotLost
    {
      ghost var s0 := db.s;
      steps, turns := [], 0;
      for i := 0 to |cycles|
        invariant Valid() && db.s == After(db.cfg, s0, steps) && Self().outcome == Holding && turns == i
        invariant Renewed(db.cfg, s0, id, cycles, i, db.s)
      {
        ghost var more, s := [], db.s;
        turns := i + 1;
        stopped, more := RenewTurn(cycles[i]);
        Then(db.cfg, s0, steps, more);
        steps := steps + more;
        if stopped {
          return;
        }
        OneMore(db.cfg, s0, id, cycles, i, s);
      }
      stopped := false;
    }

    // Reconciles the charge, once and only when there was one.
    method Adjust(actualTokens: int, script: WriteScript) returns (ok: Status, ghost steps: seq<Step>)
      requires Valid() && WriteScriptOK(script) && forall i :: 0 <= i < |script.wait| ==> !Adjusts(script.wait[i], id)
      modifies db`s
      ensures Valid() && db.s == After(db.cfg, old(db.s), steps) && Self().adjusted
      ensures old(Self()).adjusted ==> ok.Ok? && db.s == old(db.s)
      ensures !old(Self()).charged ==> ok.Ok? && db.s.bucket == old(db.s).bucket && db.s.ledger == old(db.s).ledger
      ensures !old(Self()).adjusted && old(Self()).charged ==>
                var before := After(db.cfg, old(db.s), script.wait);
                && (ok.Ok? <==> !AdjustFails(before, script) && script.heard)
                && (if AdjustFails(before, script) then SameBucket(before, db.s)
                    else AdjustSays(before, db.s, old(Self()).tokens, if actualTokens < 0 then 0 else actualTokens))
    {
      if db.s.holders[id].adjusted {
        return Ok, [];
      }
      ghost var s0 := db.s;
      if !db.s.holders[id].charged {
        steps := [AdjustDropped(id)];
        One(db.cfg, s0, AdjustDropped(id));
        db.Note(AdjustDropped(id));
        return Ok, steps;
      }
      ok, steps := AdjustCharge(if actualTokens < 0 then 0 else actualTokens, script);
    }

    // The transaction that settles the refill and then charges or refunds the
    // difference.
    method AdjustCharge(actual: nat, script: WriteScript) returns (ok: Status, ghost steps: seq<Step>)
      requires Valid() && WriteScriptOK(script) && forall i :: 0 <= i < |script.wait| ==> !Adjusts(script.wait[i], id)
      requires Self().charged && !Self().adjusted
      modifies db`s
      ensures Valid() && db.s == After(db.cfg, old(db.s), steps) && Self().adjusted
      ensures ok.Ok? <==> !AdjustFails(After(db.cfg, old(db.s), script.wait), script) && script.heard
      ensures
        var before := After(db.cfg, old(db.s), script.wait);
        if AdjustFails(before, script) then SameBucket(before, db.s)
        else AdjustSays(before, db.s, old(Self()).tokens, actual)
    {
      ghost var s0 := db.s;
      var work := Adjusting(id, actual);
      StaysUnadjusted(db.cfg, s0, script.wait, id);
      var begun, row, now; ghost var before;
      begun, row, now, before, steps := Begin(db, work, script.wait, script.sample);
      if !begun {
        if !db.s.holders[id].adjusted {
          Then(db.cfg, s0, steps, [AdjustDropped(id)]);
          steps := steps + [AdjustDropped(id)];
          db.Note(AdjustDropped(id));
        }
        return Err, steps;
      }
      if !row.limits.TokenLimited() {
        ghost var mid;
        mid, steps := Finish(db, script.commit, script.heard, before, work, Sampled, s0, steps);
        return if script.commit.fails || !script.heard then Err else Ok, steps;
      }
      var balance := BucketCore.Adjusted(row.limits, SettledAt(row, now), db.s.holders[id].tokens, actual);
      ok, steps := Rewrite(db, Bucket(row.limits, balance, now), work, script, before, s0, steps);
    }

    // Stops renewal and deletes the row, once; a repeated call returns the
    // first one's error.
    method Release(wait: seq<Step>, fate: Fate) returns (err: Option<ReleaseError>, ghost steps: seq<Step>)
      requires Valid() && forall i :: 0 <= i < |wait| ==> !Runs.Deletes(wait[i], id)
      modifies db`s
      ensures Valid() && db.s == After(db.cfg, old(db.s), steps) && Self().outcome != Holding
      ensures err == ErrorOf(Self().outcome)
      ensures old(Self()).outcome != Holding ==> db.s == old(db.s)
      ensures old(Self()).outcome == Holding ==>
                ReleaseSays(After(db.cfg, old(db.s), wait), db.s, id, fate, err)
    {
      if db.s.holders[id].outcome != Holding {
        return ErrorOf(db.s.holders[id].outcome), [];
      }
      ghost var s0 := db.s;
      StaysHeld(db.cfg, s0, wait, id);
      db.Others(wait);
      steps := wait;
      ghost var more;
      err, more := Delete(fate);
      Then(db.cfg, s0, steps, more);
      steps := steps + more;
    }

    // The DELETE. One that waits for a reaping transaction past its timeout fails.
    method Delete(fate: Fate) returns (err: Option<ReleaseError>, ghost steps: seq<Step>)
      requires Valid() && Self().outcome == Holding
      modifies db`s
      ensures Valid() && db.s == After(db.cfg, old(db.s), steps)
      ensures Self().outcome ==
          match err { case None => ReleasedOK case Some(e) => if e.ErrLeaseLost? then LeaseLost else ReleaseFailed }
      ensures ReleaseSays(old(db.s), db.s, id, fate, err)
    {
      var blocked := db.s.tx.Some? && id in db.s.tx.value.reaped;
      if fate.Fails? || blocked {
        var deleted := fate.Fails? && fate.deleted && !blocked;
        steps := [Step.ReleaseError(id, deleted)];
        One(db.cfg, db.s, Step.ReleaseError(id, deleted));
        db.DeleteFails(id, deleted);
        return Some(ErrDatabase), steps;
      }
      steps := [Step.Release(id)];
      One(db.cfg, db.s, Step.Release(id));
      ghost var before := db.s;
      var live := db.DeleteLease(id);
      if !live {
        DeadHolderGone(db.cfg, before, id);
      }
      err := if live then None else Some(ErrLeaseLost);
    }
  }

  lemma DeadHolderGone(cfg: Config, s: State, id: nat)
    requires Inv(cfg, s) && id in s.holders && !LiveRow(s, id)
    ensures Gone(Next(cfg, s, Step.Release(id)), id)
  {
    Runs.DeadHolderIsGone(cfg, s, id);
    GoneStays(cfg, s, Step.Release(id), id);
  }

  function ErrorOf(outcome: Outcome): Option<ReleaseError> {
    match outcome
    case Holding => None
    case ReleasedOK => None
    case LeaseLost => Some(ErrLeaseLost)
    case ReleaseFailed => Some(ErrDatabase)
  }
}
