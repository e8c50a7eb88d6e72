// bucket/postgres: the shared bucket as a transition system. The state is one
// bucket row, its lease rows, the database clock, the transaction that holds
// the row lock, and the leases held by processes. Each SQL statement is one
// atomic step; steps of any number of processes interleave freely.
module PostgresBucket {
  import opened Collections
  import opened Messages
  import opened Limits
  import BucketCore

  // ---------- Configuration ----------

  // Durations in nanoseconds, as NewLimiter leaves them.
  datatype Config = Config(leaseTTL: int, maxLease: int) {
    function WithDefaults(): Config {
      Config(if leaseTTL <= 0 then 30_000_000_000 else leaseTTL, if maxLease <= 0 then 900_000_000_000 else maxLease)
    }

    predicate Validate() {
      maxLease > leaseTTL && leaseTTL >= 3
    }

    // SQL intervals are whole microseconds.
    function TTL(): int { leaseTTL / 1000 * 1000 }

    function Cap(): int { maxLease / 1000 * 1000 }
  }

  // ---------- State ----------

  datatype Bucket = Bucket(limits: Limits, balance: real, lastRefill: int)

  datatype Row = Row(acquired: int, expires: int)

  // What a transaction is for: one admission attempt, one lease's Adjust, or
  // an Ensure that overwrites the limits.
  datatype Work = Acquiring(tokens: nat) | Adjusting(id: nat, actual: nat) | Ensuring(limits: Limits)

  datatype Phase = Locked | Sampled | Reaped | Counted | Updated | Inserted

  // The open transaction: how far it is, the clock it sampled, and what it
  // has written but not committed.
  datatype Tx = Tx(work: Work, phase: Phase, now: int, reaped: set<nat>, live: int, fits: bool, bucket: Bucket,
      leaseID: nat, lease: Row)

  datatype Outcome = Holding | ReleasedOK | LeaseLost | ReleaseFailed

  // Why a lease's Lost channel is closed.
  datatype Loss = NotLost | NoLiveRow | HardCapped

  // A lease in its holder's process.
  datatype Holder = Holder(tokens: nat, charged: bool, adjusted: bool, loss: Loss, outcome: Outcome)

  // The net charge since the limits last changed, at epoch. No table holds
  // it; it is what the balance is checked against.
  datatype Ledger = Ledger(epoch: int, net: int)

  datatype State = State(
    clock: int, bucket: Bucket, rows: map<nat, Row>, tx: Option<Tx>, holders: map<nat, Holder>, nextID: nat,
        ledger: Ledger)

  // A bucket that Ensure has just created.
  function Created(limits: Limits, clock: int): State {
    State(clock, Bucket(limits, limits.Capacity() as real, clock), map[], None, map[], 0, Ledger(clock, 0))
  }

  predicate LiveRow(s: State, id: nat) {
    id in s.rows && s.rows[id].expires > s.clock
  }

  // ---------- Steps ----------

  datatype Step =
    | Tick(d: nat)
    | Lock(work: Work)
    | Sample
    | Reap
    | Count
    | Update
    | Insert
    | Commit(heard: bool)
    | Rollback
    | Renew(id: nat, heard: bool)
    | HardCap(id: nat)
    | Release(id: nat)
    | ReleaseError(id: nat, deleted: bool)
    | AdjustDropped(id: nat)

  function NewBalance(before: Limits, next: Limits, settled: real): real {
    if !next.TokenLimited() then 0.0
    else if !before.TokenLimited() then next.Capacity() as real
    else BucketCore.Min(settled, next.Capacity() as real)
  }

  // The bucket row as the transaction's UPDATE writes it.
  function Written(b: Bucket, holders: map<nat, Holder>, t: Tx): Bucket {
    var settled := BucketCore.Settle(b.limits, b.balance, b.lastRefill, t.now);
    match t.work
    case Acquiring(tokens) =>
      var fits := BucketCore.Fits(b.limits, settled, tokens, t.live);
      Bucket(b.limits, if fits && b.limits.TokenLimited() then settled - tokens as real else settled, t.now)
    case Adjusting(id, actual) =>
      Bucket(b.limits, BucketCore.Adjusted(b.limits, settled, Estimate(holders, id), actual), t.now)
    case Ensuring(limits) =>
      Bucket(limits, NewBalance(b.limits, limits, settled), t.now)
  }

  function Estimate(holders: map<nat, Holder>, id: nat): nat {
    if id in holders then holders[id].tokens else 0
  }

  function FitsNow(b: Bucket, t: Tx): bool {
    t.work.Acquiring? && BucketCore.Fits(b.limits, BucketCore.Settle(b.limits, b.balance, b.lastRefill, t.now),
        t.work.tokens, t.live)
  }

  predicate NeverFits(b: Bucket, t: Tx) {
    t.work.Acquiring? && BucketCore.Impossible(b.limits, t.work.tokens)
  }

  // The transaction's function has returned without error.
  predicate Done(b: Bucket, t: Tx) {
    match t.work
    case Acquiring(_) => (t.phase == Sampled && NeverFits(b, t)) || (t.phase == Updated && !t.fits)
        || t.phase == Inserted
    case Adjusting(_, _) => t.phase == Updated || (t.phase == Sampled && !b.limits.TokenLimited())
    case Ensuring(_) => t.phase == Updated
  }

  predicate MayUpdate(b: Bucket, t: Tx) {
    match t.work
    case Acquiring(_) => t.phase == Counted
    case Adjusting(_, _) => t.phase == Sampled && b.limits.TokenLimited()
    case Ensuring(_) => t.phase == Sampled
  }

  predicate MayLock(s: State, work: Work) {
    match work
    case Acquiring(_) => true
    case Adjusting(id, _) => id in s.holders && s.holders[id].charged && !s.holders[id].adjusted
    case Ensuring(limits) => limits.Validate()
  }

  predicate InPhase(s: State, phase: Phase) {
    s.tx.Some? && s.tx.value.phase == phase
  }

  // The row is deleted by a transaction that has not ended: a statement on it
  // waits.
  predicate Blocked(s: State, id: nat) {
    s.tx.Some? && id in s.tx.value.reaped
  }

  // Whether a step can happen; one that cannot is waiting or out of order.
  predicate Enabled(s: State, step: Step) {
    match step
    case Tick(_) => true
    case Lock(work) => s.tx.None? && MayLock(s, work)
    case Sample => InPhase(s, Locked)
    case Reap => InPhase(s, Sampled) && s.tx.value.work.Acquiring? && !NeverFits(s.bucket, s.tx.value)
    case Count => InPhase(s, Reaped)
    case Update => s.tx.Some? && MayUpdate(s.bucket, s.tx.value)
    case Insert => InPhase(s, Updated) && s.tx.value.work.Acquiring? && s.tx.value.fits
    case Commit(_) => s.tx.Some? && Done(s.bucket, s.tx.value)
    case Rollback => s.tx.Some?
    case Renew(id, _) => id in s.holders
    case HardCap(id) => id in s.holders && s.holders[id].outcome == Holding && s.holders[id].loss == NotLost
    case Release(id) => id in s.holders && s.holders[id].outcome == Holding && !Blocked(s, id)
    case ReleaseError(id, deleted) =>
      id in s.holders && s.holders[id].outcome == Holding && (deleted ==> !Blocked(s, id))
    case AdjustDropped(id) => id in s.holders && !s.holders[id].adjusted
  }

  function Locking(s: State, work: Work): State {
    var tx := Tx(work, Locked, s.clock, {}, 0, false, s.bucket, 0, Row(0, 0));
    if work.Adjusting? && work.id in s.holders then
      s.(tx := Some(tx), holders := s.holders[work.id := s.holders[work.id].(adjusted := true)])
    else s.(tx := Some(tx))
  }

  function Inserting(cfg: Config, s: State, t: Tx): State {
    s.(tx := Some(t.(phase := Inserted, leaseID := s.nextID, lease := Row(s.clock, s.clock + cfg.TTL()))),
        nextID := s.nextID + 1)
  }

  function Charge(s: State, t: Tx): int {
    match t.work
    case Acquiring(tokens) => if t.phase == Inserted && s.bucket.limits.TokenLimited() then tokens else 0
    case Adjusting(id, actual) => if t.phase == Updated then actual - Estimate(s.holders, id) else 0
    case Ensuring(_) => 0
  }

  // heard is false when the transaction committed but its caller did not
  // learn so, or crashed: the row then has no holder.
  function Committing(s: State, t: Tx, heard: bool): State {
    var rows := s.rows - t.reaped;
    State(
      s.clock,
      t.bucket,
      if t.phase == Inserted then rows[t.leaseID := t.lease] else rows,
      None,
      if t.phase == Inserted && heard && t.work.Acquiring?
      then s.holders[t.leaseID := Holder(t.work.tokens, s.bucket.limits.TokenLimited(), false, NotLost, Holding)]
      else s.holders,
      s.nextID,
      if t.work.Ensuring? then Ledger(t.now, 0) else s.ledger.(net := s.ledger.net + Charge(s, t)))
  }

  function Least(a: int, b: int): int {
    if a < b then a else b
  }

  // One renewal: it extends a live row and reports the lease lost when there
  // is none. It may reach the database although its holder hears an error.
  function Renewing(cfg: Config, s: State, id: nat, heard: bool): State {
    if LiveRow(s, id) then
      s.(rows := s.rows[id := s.rows[id].(expires := Least(s.clock + cfg.TTL(), s.rows[id].acquired + cfg.Cap()))])
    else if heard && id in s.holders && s.holders[id].outcome == Holding && s.holders[id].loss == NotLost then
      s.(holders := s.holders[id := s.holders[id].(loss := NoLiveRow)])
    else s
  }

  function Releasing(s: State, id: nat): State
    requires id in s.holders
  {
    var h := s.holders[id];
    var released :=
      if LiveRow(s, id) then h.(outcome := ReleasedOK)
      else h.(outcome := LeaseLost, loss := if h.loss == NotLost then NoLiveRow else h.loss);
    s.(rows := s.rows - {id}, holders := s.holders[id := released])
  }

  function Next(cfg: Config, s: State, step: Step): State {
    if !Enabled(s, step) then s
    else match step
      case Tick(d) => s.(clock := s.clock + d)
      case Lock(work) => Locking(s, work)
      case Sample => s.(tx := Some(s.tx.value.(phase := Sampled, now := s.clock)))
      case Reap => s.(tx := Some(s.tx.value.(phase := Reaped, reaped := set id | id in s.rows
          && s.rows[id].expires <= s.tx.value.now)))
      case Count => s.(tx := Some(s.tx.value.(phase := Counted, live := |s.rows.Keys - s.tx.value.reaped|)))
      case Update =>
        var t := s.tx.value;
        s.(tx := Some(t.(phase := Updated, bucket := Written(s.bucket, s.holders, t), fits := FitsNow(s.bucket, t))))
      case Insert => Inserting(cfg, s, s.tx.value)
      case Commit(heard) => Committing(s, s.tx.value, heard)
      case Rollback => s.(tx := None)
      case Renew(id, heard) => Renewing(cfg, s, id, heard)
      case HardCap(id) => s.(holders := s.holders[id := s.holders[id].(loss := HardCapped)])
      case Release(id) => Releasing(s, id)
      case ReleaseError(id, deleted) =>
        s.(rows := if deleted then s.rows - {id} else s.rows,
           holders := s.holders[id := s.holders[id].(outcome := ReleaseFailed)])
      case AdjustDropped(id) => s.(holders := s.holders[id := s.holders[id].(adjusted := true)])
  }

  // The state after a run of steps, in any order and by any process.
  function After(cfg: Config, s: State, steps: seq<Step>): State {
    if steps == [] then s else Next(cfg, After(cfg, s, steps[..|steps| - 1]), steps[|steps| - 1])
  }

  function At(cfg: Config, s: State, steps: seq<Step>, k: nat): State
    requires k <= |steps|
  {
    After(cfg, s, steps[..k])
  }

  // ---------- Invariants ----------

  ghost predicate RowsOK(cfg: Config, s: State) {
    forall id :: id in s.rows ==> RowOK(cfg, s.clock, s.nextID, id, s.rows[id])
  }

  predicate RowOK(cfg: Config, clock: int, nextID: nat, id: nat, r: Row) {
    id < nextID && r.acquired <= clock && r.expires <= clock + cfg.TTL() && r.expires <= r.acquired + cfg.Cap()
  }

  ghost predicate HoldersOK(s: State) {
    forall id :: id in s.holders ==> id < s.nextID && (s.holders[id].loss == NoLiveRow ==> Gone(s, id))
  }

  // An issued lease that has no live row and is not about to get one.
  ghost predicate Gone(s: State, id: nat) {
    id < s.nextID && !LiveRow(s, id) && !(InPhase(s, Inserted) && s.tx.value.leaseID == id)
  }

  ghost predicate BalanceOK(b: Bucket, ledger: Ledger) {
    && b.limits.Validate()
    && ledger.epoch <= b.lastRefill
    && (if b.limits.TokenLimited()
        then b.balance <= b.limits.Capacity() as real && Accounted(b, ledger)
        else b.balance == 0.0)
  }

  // The balance and what was charged never exceed what the capacity and the
  // rate gave since the epoch.
  ghost predicate Accounted(b: Bucket, ledger: Ledger) {
    b.balance + ledger.net as real <= b.limits.Capacity() as real + BucketCore.Accrued(b.limits, ledger.epoch,
        b.lastRefill)
  }

  ghost predicate TxOK(cfg: Config, s: State, t: Tx) {
    && (t.work.Ensuring? ==> t.work.limits.Validate())
    && s.bucket.lastRefill <= s.clock
    && (t.phase != Locked ==> s.bucket.lastRefill <= t.now <= s.clock)
    && (t.phase in {Reaped, Counted, Inserted} ==> t.work.Acquiring?)
    && WritesOK(s, t)
    && ReapOK(s, t)
    && (t.phase == Inserted ==> InsertOK(cfg, s, t))
  }

  ghost predicate WritesOK(s: State, t: Tx) {
    if t.phase in {Updated, Inserted}
    then t.bucket == Written(s.bucket, s.holders, t) && t.fits == FitsNow(s.bucket, t) && !NeverFits(s.bucket, t)
      && (t.work.Adjusting? ==> s.bucket.limits.TokenLimited())
    else t.bucket == s.bucket
  }

  ghost predicate ReapOK(s: State, t: Tx) {
    && (t.phase in {Locked, Sampled} || !t.work.Acquiring? ==> t.reaped == {})
    && (t.phase in {Reaped, Counted, Updated, Inserted} && t.work.Acquiring? ==>
          !NeverFits(s.bucket, t) && forall id :: id in t.reaped ==> id in s.rows && s.rows[id].expires <= t.now)
    && (t.phase in {Counted, Updated, Inserted} && t.work.Acquiring? ==> |s.rows.Keys - t.reaped| <= t.live)
  }

  ghost predicate InsertOK(cfg: Config, s: State, t: Tx) {
    && t.fits && t.leaseID !in s.rows && t.leaseID !in s.holders
    && t.now <= t.lease.acquired && RowOK(cfg, s.clock, s.nextID, t.leaseID, t.lease)
  }

  ghost predicate Inv(cfg: Config, s: State) {
    && RowsOK(cfg, s)
    && HoldersOK(s)
    && BalanceOK(s.bucket, s.ledger)
    && s.bucket.lastRefill <= s.clock
    && (s.tx.Some? ==> TxOK(cfg, s, s.tx.value))
  }

  lemma CreatedOK(cfg: Config, limits: Limits, clock: int)
    requires limits.Validate()
    ensures Inv(cfg, Created(limits, clock))
  {
  }

  // ---------- Every step keeps the invariant ----------

  // Where a row after a step comes from: it was there before, was extended,
  // or is the one a committing transaction inserted.
  lemma RowComesFrom(cfg: Config, s: State, step: Step, id: nat)
    requires id in Next(cfg, s, step).rows
    ensures
      var after := Next(cfg, s, step);
      && s.clock <= after.clock && s.nextID <= after.nextID
      && (|| (id in s.rows && after.rows[id] == s.rows[id])
          || (step.Commit? && Enabled(s, step) && InPhase(s, Inserted) && id == s.tx.value.leaseID
                && after.rows[id] == s.tx.value.lease)
          || (LiveRow(s, id) && after.clock == s.clock
              && after.rows[id] == Row(s.rows[id].acquired,
                    Least(s.clock + cfg.TTL(), s.rows[id].acquired + cfg.Cap()))))
  {
  }

  lemma RowsKept(cfg: Config, s: State, step: Step)
    requires cfg.Validate() && Inv(cfg, s)
    ensures RowsOK(cfg, Next(cfg, s, step))
  {
    var after := Next(cfg, s, step);
    forall id | id in after.rows ensures RowOK(cfg, after.clock, after.nextID, id, after.rows[id]) {
      RowComesFrom(cfg, s, step, id);
      assert id in s.rows ==> RowOK(cfg, s.clock, s.nextID, id, s.rows[id]);
      assert InPhase(s, Inserted) ==> RowOK(cfg, s.clock, s.nextID, s.tx.value.leaseID, s.tx.value.lease);
    }
  }

  lemma GoneStays(cfg: Config, s: State, step: Step, id: nat)
    requires Gone(s, id)
    ensures Gone(Next(cfg, s, step), id)
  {
    if id in Next(cfg, s, step).rows {
      RowComesFrom(cfg, s, step, id);
    }
  }

  // The ids of holders are issued, and a step adds at most the one inserted.
  lemma HoldersIssued(cfg: Config, s: State, step: Step)
    requires Inv(cfg, s)
    ensures forall id :: id in Next(cfg, s, step).holders ==> id < Next(cfg, s, step).nextID
  {
  }

  // A loss is only noted when the lease is gone.
  lemma LossNoted(cfg: Config, s: State, step: Step, id: nat)
    requires Inv(cfg, s) && id in Next(cfg, s, step).holders && Next(cfg, s, step).holders[id].loss == NoLiveRow
    ensures Gone(Next(cfg, s, step), id)
  {
    if id in s.holders && s.holders[id].loss == NoLiveRow {
      GoneStays(cfg, s, step, id);
    }
  }

  lemma HoldersKept(cfg: Config, s: State, step: Step)
    requires Inv(cfg, s)
    ensures HoldersOK(Next(cfg, s, step))
  {
    HoldersIssued(cfg, s, step);
    forall id | id in Next(cfg, s, step).holders && Next(cfg, s, step).holders[id].loss == NoLiveRow
      ensures Gone(Next(cfg, s, step), id)
    {
      LossNoted(cfg, s, step, id);
    }
  }

  // Settling up to now credits exactly what accrued, or less at the capacity.
  lemma SettledAccounted(b: Bucket, ledger: Ledger, now: int)
    requires BalanceOK(b, ledger) && b.lastRefill <= now
    ensures BalanceOK(Bucket(b.limits, BucketCore.Settle(b.limits, b.balance, b.lastRefill, now), now), ledger)
  {
    if b.limits.TokenLimited() {
      BucketCore.AccruedAdds(b.limits, ledger.epoch, b.lastRefill, now);
    }
  }

  // Charging, or refunding up to the capacity, moves tokens between the
  // balance and the ledger.
  lemma ChargedAccounted(b: Bucket, ledger: Ledger, delta: int, balance: real)
    requires BalanceOK(b, ledger) && b.limits.TokenLimited()
    requires balance <= b.balance - delta as real && balance <= b.limits.Capacity() as real
    ensures BalanceOK(b.(balance := balance), ledger.(net := ledger.net + delta))
  {
    assert (ledger.net + delta) as real == ledger.net as real + delta as real;
  }

  lemma WrittenAccounted(cfg: Config, s: State, t: Tx)
    requires Inv(cfg, s) && s.tx == Some(t) && t.phase in {Updated, Inserted} && Done(s.bucket, t) && !t.work.Ensuring?
    ensures BalanceOK(t.bucket, s.ledger.(net := s.ledger.net + Charge(s, t)))
  {
    var b := s.bucket;
    var settled := b.(balance := BucketCore.Settle(b.limits, b.balance, b.lastRefill, t.now), lastRefill := t.now);
    SettledAccounted(b, s.ledger, t.now);
    if b.limits.TokenLimited() {
      ChargedAccounted(settled, s.ledger, Charge(s, t), t.bucket.balance);
    }
  }

  lemma BalanceKept(cfg: Config, s: State, step: Step)
    requires Inv(cfg, s)
    ensures BalanceOK(Next(cfg, s, step).bucket, Next(cfg, s, step).ledger)
    ensures Next(cfg, s, step).bucket.lastRefill <= Next(cfg, s, step).clock
  {
    if step.Commit? && Enabled(s, step) {
      var t := s.tx.value;
      if t.phase in {Updated, Inserted} && !t.work.Ensuring? {
        WrittenAccounted(cfg, s, t);
      }
    }
  }

  // A step of another process: it leaves the open transaction alone.
  predicate Foreign(step: Step) {
    step.Tick? || step.Renew? || step.HardCap? || step.Release? || step.ReleaseError? || step.AdjustDropped?
  }

  lemma ForeignKeepsTx(cfg: Config, s: State, step: Step)
    requires Foreign(step)
    ensures
      var after := Next(cfg, s, step);
      && after.tx == s.tx && after.bucket == s.bucket && after.ledger == s.ledger
      && after.nextID == s.nextID && after.clock >= s.clock
      && after.rows.Keys <= s.rows.Keys && after.holders.Keys == s.holders.Keys
      && forall id :: id in s.holders ==> Estimate(after.holders, id) == Estimate(s.holders, id)
  {
  }

  // A row that the open transaction deletes stays as it is: it has expired,
  // so no renewal extends it, and statements that would delete it wait.
  lemma ForeignLeavesReaped(cfg: Config, s: State, step: Step, id: nat, now: int)
    requires Foreign(step) && Blocked(s, id) && now <= s.clock && id in s.rows && s.rows[id].expires <= now
    ensures var after := Next(cfg, s, step); id in after.rows && after.rows[id].expires <= now
  {
  }

  lemma ForeignKeepsReap(cfg: Config, s: State, step: Step)
    requires Foreign(step) && s.tx.Some? && ReapOK(s, s.tx.value)
    requires s.tx.value.phase != Locked ==> s.tx.value.now <= s.clock
    ensures ReapOK(Next(cfg, s, step), s.tx.value)
  {
    var after, t := Next(cfg, s, step), s.tx.value;
    ForeignKeepsTx(cfg, s, step);
    Smaller(after.rows.Keys - t.reaped, s.rows.Keys - t.reaped);
    if t.phase in {Reaped, Counted, Updated, Inserted} && t.work.Acquiring? {
      forall id | id in t.reaped ensures id in after.rows && after.rows[id].expires <= t.now {
        ForeignLeavesReaped(cfg, s, step, id, t.now);
      }
    }
  }

  lemma ForeignKeepsWrites(cfg: Config, s: State, step: Step)
    requires Inv(cfg, s) && Foreign(step) && s.tx.Some?
    ensures WritesOK(Next(cfg, s, step), s.tx.value)
  {
    ForeignKeepsTx(cfg, s, step);
    var after, t := Next(cfg, s, step), s.tx.value;
    assert t.work.Adjusting? ==> Estimate(after.holders, t.work.id) == Estimate(s.holders, t.work.id);
    assert Written(after.bucket, after.holders, t) == Written(s.bucket, s.holders, t);
  }

  lemma ForeignKeepsTxOK(cfg: Config, s: State, step: Step)
    requires Inv(cfg, s) && Foreign(step) && s.tx.Some?
    ensures TxOK(cfg, Next(cfg, s, step), s.tx.value)
  {
    ForeignKeepsTx(cfg, s, step);
    ForeignKeepsReap(cfg, s, step);
    ForeignKeepsWrites(cfg, s, step);
  }

  // The statements of the open transaction itself, in their order.
  lemma LockKeepsTxOK(cfg: Config, s: State, step: Step)
    requires Inv(cfg, s) && (step.Lock? || step.Sample?) && Enabled(s, step)
    ensures TxOK(cfg, Next(cfg, s, step), Next(cfg, s, step).tx.value)
  {
  }

  lemma ReapKeepsTxOK(cfg: Config, s: State, step: Step)
    requires Inv(cfg, s) && (step.Reap? || step.Count?) && Enabled(s, step)
    ensures TxOK(cfg, Next(cfg, s, step), Next(cfg, s, step).tx.value)
  {
  }

  lemma UpdateKeepsTxOK(cfg: Config, s: State)
    requires Inv(cfg, s) && Enabled(s, Update)
    ensures TxOK(cfg, Next(cfg, s, Update), Next(cfg, s, Update).tx.value)
  {
    var before, after := s.tx.value, Next(cfg, s, Update);
    assert Written(after.bucket, after.holders, after.tx.value) == Written(s.bucket, s.holders, before);
    assert ReapOK(after, after.tx.value);
  }

  lemma InsertKeepsTxOK(cfg: Config, s: State)
    requires cfg.Validate() && Inv(cfg, s) && Enabled(s, Insert)
    ensures TxOK(cfg, Next(cfg, s, Insert), Next(cfg, s, Insert).tx.value)
  {
    var before, after := s.tx.value, Next(cfg, s, Insert);
    assert Written(after.bucket, after.holders, after.tx.value) == Written(s.bucket, s.holders, before);
    assert ReapOK(after, after.tx.value);
    assert InsertOK(cfg, after, after.tx.value);
  }

  lemma TxKept(cfg: Config, s: State, step: Step)
    requires cfg.Validate() && Inv(cfg, s) && Next(cfg, s, step).tx.Some?
    ensures TxOK(cfg, Next(cfg, s, step), Next(cfg, s, step).tx.value)
  {
    if Foreign(step) {
      ForeignKeepsTx(cfg, s, step);
      ForeignKeepsTxOK(cfg, s, step);
    } else if Enabled(s, step) {
      match step
      case Lock(_) => LockKeepsTxOK(cfg, s, step);
      case Sample => LockKeepsTxOK(cfg, s, step);
      case Reap => ReapKeepsTxOK(cfg, s, step);
      case Count => ReapKeepsTxOK(cfg, s, step);
      case Update => UpdateKeepsTxOK(cfg, s);
      case Insert => InsertKeepsTxOK(cfg, s);
    }
  }

  lemma InvKept(cfg: Config, s: State, step: Step)
    requires cfg.Validate() && Inv(cfg, s)
    ensures Inv(cfg, Next(cfg, s, step))
  {
    RowsKept(cfg, s, step);
    HoldersKept(cfg, s, step);
    BalanceKept(cfg, s, step);
    if Next(cfg, s, step).tx.Some? {
      TxKept(cfg, s, step);
    }
  }

  lemma {:induction false} RunKeeps(cfg: Config, s: State, steps: seq<Step>)
    requires cfg.Validate() && Inv(cfg, s)
    ensures Inv(cfg, After(cfg, s, steps))
  {
    if steps != [] {
      RunKeeps(cfg, s, steps[..|steps| - 1]);
      InvKept(cfg, After(cfg, s, steps[..|steps| - 1]), steps[|steps| - 1]);
    }
  }
}
