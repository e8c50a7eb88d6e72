// The two bucket backends share bucket/internal/core so that they account and
// admit identically. Here the shared bucket, used by one caller at a time and
// while no lease expires, simulates the process-local one over whole runs.
module Backends {
  import opened Messages
  import opened Limits
  import BucketCore
  import M = MemoryBucket
  import P = PostgresBucket
  import Runs = PostgresRuns

  // The statements that carry out one event at its time. A statement that its
  // transaction does not get to is not enabled and does nothing.
  function StepsOf(e: M.Event, clock: int): seq<P.Step> {
    match e
    case Attempt(tokens, now) =>
      [P.Tick(Ahead(clock, now)), P.Lock(P.Acquiring(tokens)), P.Sample, P.Reap] +
      [P.Count, P.Update, P.Insert, P.Commit(true)]
    case AdjustTo(id, actual, now) =>
      [P.Tick(Ahead(clock, now)), P.Lock(P.Adjusting(id, actual)), P.Sample] +
      [P.Update, P.Commit(true), P.AdjustDropped(id)]
    case ReleaseOf(id) => [P.Release(id)]
  }

  function Ahead(clock: int, now: int): nat {
    if now > clock then now - clock else 0
  }

  // The i-th lease admitted by either backend has id i.
  ghost predicate Matches(r: M.Run, s: P.State) {
    s.tx.None? && BucketMatches(r.k, s.bucket) && r.k.live == |s.rows| && LeasesMatch(r.k.limits, r.held, s)
  }

  predicate BucketMatches(k: M.Key, b: P.Bucket) {
    b.limits == k.limits && b.balance == k.balance && (k.limits.TokenLimited() ==> b.lastRefill == k.lastRefill)
  }

  ghost predicate LeasesMatch(limits: Limits, held: seq<M.Held>, s: P.State) {
    && s.nextID == |held|
    && (forall id: nat :: id in s.holders <==> id < |held|)
    && (forall id: nat :: id in s.rows <==> id < |held| && !held[id].released)
    && (forall id: nat :: id < |held| ==> HolderMatches(limits, held[id], s.holders[id]))
  }

  predicate HolderMatches(limits: Limits, m: M.Held, h: P.Holder) {
    && h.tokens == m.tokens && h.charged == limits.TokenLimited() && h.adjusted == m.adjusted
    && (h.outcome == P.Holding <==> !m.released)
  }

  ghost predicate NoneExpires(s: P.State, now: int) {
    forall id :: id in s.rows ==> s.rows[id].expires > now
  }

  lemma AfterFour(cfg: P.Config, s: P.State, a: P.Step, b: P.Step, c: P.Step, d: P.Step)
    ensures P.After(cfg, s, [a, b, c, d]) == P.Next(cfg, P.Next(cfg, P.Next(cfg, P.Next(cfg, s, a), b), c), d)
  {
    AfterThree(cfg, s, a, b, c);
    assert [a, b, c, d][..3] == [a, b, c];
  }

  lemma AfterThree(cfg: P.Config, s: P.State, a: P.Step, b: P.Step, c: P.Step)
    ensures P.After(cfg, s, [a, b, c]) == P.Next(cfg, P.Next(cfg, P.Next(cfg, s, a), b), c)
  {
    assert [a, b, c][..2] == [a, b] && [a, b][..1] == [a] && [a][..0] == [];
    assert P.After(cfg, s, [a]) == P.Next(cfg, s, a);
    assert P.After(cfg, s, [a, b]) == P.Next(cfg, P.Next(cfg, s, a), b);
  }

  // ---------- One attempt ----------

  // The transaction as the reap leaves it, nothing having expired.
  ghost predicate Reaping(s: P.State, mid: P.State, tokens: nat, now: int) {
    && mid.tx.Some? && mid == s.(clock := now, tx := mid.tx)
    && mid.tx.value.work == P.Acquiring(tokens) && mid.tx.value.now == now && mid.tx.value.reaped == {}
    && mid.tx.value.bucket == s.bucket
    && mid.tx.value.phase == (if BucketCore.Impossible(s.bucket.limits, tokens) then P.Sampled else P.Reaped)
  }

  // The transaction after lock, clock sample and reap, nothing having expired.
  lemma LockedAndReaped(cfg: P.Config, s: P.State, tokens: nat, now: int)
    requires s.tx.None? && now >= s.clock && NoneExpires(s, now)
    ensures
      Reaping(s, P.After(cfg, s, [P.Tick(Ahead(s.clock, now)), P.Lock(P.Acquiring(tokens)), P.Sample, P.Reap]),
          tokens, now)
  {
    AfterFour(cfg, s, P.Tick(Ahead(s.clock, now)), P.Lock(P.Acquiring(tokens)), P.Sample, P.Reap);
  }

  // A request that can never fit commits right after the sample.
  lemma ImpossibleEnds(cfg: P.Config, s: P.State)
    requires P.InPhase(s, P.Sampled) && P.NeverFits(s.bucket, s.tx.value)
    requires s.tx.value.reaped == {} && s.tx.value.bucket == s.bucket
    ensures P.After(cfg, s, [P.Count, P.Update, P.Insert, P.Commit(true)]) == s.(tx := None)
  {
    AfterFour(cfg, s, P.Count, P.Update, P.Insert, P.Commit(true));
    assert s.rows - {} == s.rows;
  }

  // Otherwise the rest counts, charges, inserts when it fits, and commits.
  lemma PossibleEnds(cfg: P.Config, s: P.State, k: M.Key, tokens: nat, now: int)
    requires P.InPhase(s, P.Reaped) && s.tx.value.work == P.Acquiring(tokens) && s.tx.value.now == now
    requires s.tx.value.reaped == {}
    requires k.limits == s.bucket.limits && k.balance == s.bucket.balance && k.live == |s.rows|
    requires k.limits.TokenLimited() ==> k.lastRefill == s.bucket.lastRefill
    requires !BucketCore.Impossible(k.limits, tokens)
    ensures
      var after := P.After(cfg, s, [P.Count, P.Update, P.Insert, P.Commit(true)]);
      && after.tx.None? && after.clock == s.clock
      && after.bucket == P.Bucket(k.limits, M.Attempted(k, tokens, now).balance, now)
      && (if M.Admits(k, tokens, now) then
            && after.nextID == s.nextID + 1
            && after.rows == s.rows[s.nextID := P.Row(s.clock, s.clock + cfg.TTL())]
            && after.holders == s.holders[s.nextID :=
                  P.Holder(tokens, k.limits.TokenLimited(), false, P.NotLost, P.Holding)]
          else after.nextID == s.nextID && after.rows == s.rows && after.holders == s.holders)
  {
    var steps := [P.Count, P.Update, P.Insert, P.Commit(true)];
    AfterFour(cfg, s, P.Count, P.Update, P.Insert, P.Commit(true));
    assert s.rows.Keys - {} == s.rows.Keys && |s.rows.Keys| == |s.rows|;
    assert s.rows - {} == s.rows;
  }

  lemma ImpossibleAttempt(cfg: P.Config, r: M.Run, s: P.State, mid: P.State, e: M.Event)
    requires Matches(r, s) && e.Attempt? && Reaping(s, mid, e.tokens, e.now)
    requires BucketCore.Impossible(r.k.limits, e.tokens)
    ensures
      var after := P.After(cfg, mid, [P.Count, P.Update, P.Insert, P.Commit(true)]);
      Matches(M.Apply(r, e), after) && after.clock == e.now
  {
    ImpossibleEnds(cfg, mid);
    assert mid.(tx := None) == s.(clock := e.now);
    assert M.Apply(r, e) == r;
  }

  lemma PossibleAttempt(cfg: P.Config, r: M.Run, s: P.State, mid: P.State, after: P.State, e: M.Event)
    requires Matches(r, s) && e.Attempt? && Reaping(s, mid, e.tokens, e.now)
    requires !BucketCore.Impossible(r.k.limits, e.tokens)
    requires after == P.After(cfg, mid, [P.Count, P.Update, P.Insert, P.Commit(true)])
    ensures Matches(M.Apply(r, e), after) && after.clock == e.now
  {
    PossibleEnds(cfg, mid, r.k, e.tokens, e.now);
    Extends(r, s, after, e);
  }

  lemma AttemptSimulates(cfg: P.Config, r: M.Run, s: P.State, e: M.Event)
    requires Matches(r, s) && e.Attempt? && e.now >= s.clock && NoneExpires(s, e.now)
    ensures Matches(M.Apply(r, e), P.After(cfg, s, StepsOf(e, s.clock)))
    ensures P.After(cfg, s, StepsOf(e, s.clock)).clock == e.now
  {
    var front := [P.Tick(Ahead(s.clock, e.now)), P.Lock(P.Acquiring(e.tokens)), P.Sample, P.Reap];
    var mid, after := P.After(cfg, s, front), P.After(cfg, s, StepsOf(e, s.clock));
    Runs.AfterConcat(cfg, s, front, [P.Count, P.Update, P.Insert, P.Commit(true)]);
    LockedAndReaped(cfg, s, e.tokens, e.now);
    if BucketCore.Impossible(r.k.limits, e.tokens) {
      ImpossibleAttempt(cfg, r, s, mid, e);
    } else {
      PossibleAttempt(cfg, r, s, mid, after, e);
    }
  }

  lemma LeaseAdded(limits: Limits, held: seq<M.Held>, s: P.State, after: P.State, tokens: nat)
    requires LeasesMatch(limits, held, s)
    requires after.nextID == s.nextID + 1 && after.rows.Keys == s.rows.Keys + {s.nextID}
    requires after.holders ==
        s.holders[s.nextID := P.Holder(tokens, limits.TokenLimited(), false, P.NotLost, P.Holding)]
    ensures LeasesMatch(limits, held + [M.Held(tokens, false, false)], after)
  {
    var n, more := |held|, held + [M.Held(tokens, false, false)];
    assert more[n] == M.Held(tokens, false, false) && forall id: nat :: id < n ==> more[id] == held[id];
    forall id: nat ensures id in after.rows <==> id < n + 1 && !more[id].released {
      assert id in after.rows <==> id in s.rows || id == n;
    }
    forall id: nat | id < n + 1 ensures id in after.holders && HolderMatches(limits, more[id], after.holders[id]) {
      assert id < n ==> HolderMatches(limits, held[id], s.holders[id]);
    }
  }

  lemma RowAdded(limits: Limits, held: seq<M.Held>, s: P.State, after: P.State)
    requires LeasesMatch(limits, held, s) && after.rows.Keys == s.rows.Keys + {s.nextID}
    ensures |after.rows| == |s.rows| + 1
  {
    assert s.nextID !in s.rows.Keys;
    assert |after.rows| == |after.rows.Keys|;
  }

  lemma Extends(r: M.Run, s: P.State, after: P.State, e: M.Event)
    requires Matches(r, s) && e.Attempt? && !BucketCore.Impossible(r.k.limits, e.tokens)
    requires after.tx.None? && after.bucket == P.Bucket(r.k.limits, M.Attempted(r.k, e.tokens, e.now).balance, e.now)
    requires
      if M.Admits(r.k, e.tokens, e.now) then
        && after.nextID == s.nextID + 1 && after.rows.Keys == s.rows.Keys + {s.nextID}
        && after.holders == s.holders[s.nextID :=
              P.Holder(e.tokens, r.k.limits.TokenLimited(), false, P.NotLost, P.Holding)]
      else after.nextID == s.nextID && after.rows == s.rows && after.holders == s.holders
    ensures Matches(M.Apply(r, e), after)
  {
    if M.Admits(r.k, e.tokens, e.now) {
      LeaseAdded(r.k.limits, r.held, s, after, e.tokens);
      RowAdded(r.k.limits, r.held, s, after);
    }
  }

  // ---------- Adjust and Release ----------

  // A lease that is not charged, or adjusted before, opens no transaction.
  lemma UnchargedAdjust(cfg: P.Config, s: P.State, id: nat, actual: nat, now: int)
    requires s.tx.None? && now >= s.clock && id in s.holders && (!s.holders[id].charged || s.holders[id].adjusted)
    ensures P.After(cfg, s, StepsOf(M.AdjustTo(id, actual, now), s.clock)) ==
            s.(clock := now, holders := s.holders[id := s.holders[id].(adjusted := true)])
  {
    var front := [P.Tick(Ahead(s.clock, now)), P.Lock(P.Adjusting(id, actual)), P.Sample];
    var back := [P.Update, P.Commit(true), P.AdjustDropped(id)];
    Runs.AfterConcat(cfg, s, front, back);
    AfterThree(cfg, s, front[0], front[1], front[2]);
    AfterThree(cfg, s.(clock := now), back[0], back[1], back[2]);
    assert s.holders[id].adjusted ==> s.holders[id := s.holders[id].(adjusted := true)] == s.holders;
  }

  lemma UnknownAdjust(cfg: P.Config, s: P.State, id: nat, actual: nat, now: int)
    requires s.tx.None? && now >= s.clock && id !in s.holders
    ensures P.After(cfg, s, StepsOf(M.AdjustTo(id, actual, now), s.clock)) == s.(clock := now)
  {
    var front := [P.Tick(Ahead(s.clock, now)), P.Lock(P.Adjusting(id, actual)), P.Sample];
    var back := [P.Update, P.Commit(true), P.AdjustDropped(id)];
    Runs.AfterConcat(cfg, s, front, back);
    AfterThree(cfg, s, front[0], front[1], front[2]);
    AfterThree(cfg, s.(clock := now), back[0], back[1], back[2]);
  }

  lemma AdjustLocked(cfg: P.Config, s: P.State, id: nat, actual: nat, now: int)
    requires s.tx.None? && now >= s.clock && id in s.holders && s.holders[id].charged && !s.holders[id].adjusted
    ensures
      var mid := P.After(cfg, s, [P.Tick(Ahead(s.clock, now)), P.Lock(P.Adjusting(id, actual)), P.Sample]);
      && mid == s.(clock := now, tx := mid.tx, holders := s.holders[id := s.holders[id].(adjusted := true)])
      && mid.tx.Some? && mid.tx.value.work == P.Adjusting(id, actual) && mid.tx.value.phase == P.Sampled
      && mid.tx.value.now == now && mid.tx.value.reaped == {}
  {
    AfterThree(cfg, s, P.Tick(Ahead(s.clock, now)), P.Lock(P.Adjusting(id, actual)), P.Sample);
  }

  lemma AdjustCommitted(cfg: P.Config, s: P.State, id: nat, actual: nat)
    requires P.InPhase(s, P.Sampled) && s.tx.value.work == P.Adjusting(id, actual) && s.tx.value.reaped == {}
    requires s.bucket.limits.TokenLimited() && id in s.holders && s.holders[id].adjusted
    ensures
      var b, now := s.bucket, s.tx.value.now;
      var settled := BucketCore.Settle(b.limits, b.balance, b.lastRefill, now);
      var after := P.After(cfg, s, [P.Update, P.Commit(true), P.AdjustDropped(id)]);
      after == s.(tx := None, ledger := after.ledger,
                  bucket := P.Bucket(b.limits, BucketCore.Adjusted(b.limits, settled, s.holders[id].tokens, actual),
                      now))
  {
    AfterThree(cfg, s, P.Update, P.Commit(true), P.AdjustDropped(id));
    assert s.rows - {} == s.rows;
  }

  lemma ChargedAdjust(cfg: P.Config, s: P.State, id: nat, actual: nat, now: int)
    requires s.tx.None? && now >= s.clock && id in s.holders && s.holders[id].charged && !s.holders[id].adjusted
    requires s.bucket.limits.TokenLimited()
    ensures
      var b := s.bucket;
      var settled := BucketCore.Settle(b.limits, b.balance, b.lastRefill, now);
      var after := P.After(cfg, s, StepsOf(M.AdjustTo(id, actual, now), s.clock));
      after == s.(clock := now, ledger := after.ledger, holders := s.holders[id := s.holders[id].(adjusted := true)],
                  bucket := P.Bucket(b.limits, BucketCore.Adjusted(b.limits, settled, s.holders[id].tokens, actual),
                      now))
  {
    var front := [P.Tick(Ahead(s.clock, now)), P.Lock(P.Adjusting(id, actual)), P.Sample];
    var back := [P.Update, P.Commit(true), P.AdjustDropped(id)];
    Runs.AfterConcat(cfg, s, front, back);
    AdjustLocked(cfg, s, id, actual, now);
    AdjustCommitted(cfg, P.After(cfg, s, front), id, actual);
  }

  lemma LeaseAdjusted(limits: Limits, held: seq<M.Held>, s: P.State, after: P.State, id: nat)
    requires LeasesMatch(limits, held, s) && id < |held|
    requires after.nextID == s.nextID && after.rows == s.rows
    requires after.holders == s.holders[id := s.holders[id].(adjusted := true)]
    ensures LeasesMatch(limits, held[id := held[id].(adjusted := true)], after)
  {
  }

  lemma AdjustSimulates(cfg: P.Config, r: M.Run, s: P.State, e: M.Event)
    requires Matches(r, s) && e.AdjustTo? && e.now >= s.clock
    ensures Matches(M.Apply(r, e), P.After(cfg, s, StepsOf(e, s.clock)))
    ensures P.After(cfg, s, StepsOf(e, s.clock)).clock == e.now
  {
    if e.id >= |r.held| {
      UnknownAdjust(cfg, s, e.id, e.actual, e.now);
    } else {
      assert HolderMatches(r.k.limits, r.held[e.id], s.holders[e.id]);
      var after := P.After(cfg, s, StepsOf(e, s.clock));
      if s.holders[e.id].charged && !s.holders[e.id].adjusted {
        ChargedAdjust(cfg, s, e.id, e.actual, e.now);
      } else {
        UnchargedAdjust(cfg, s, e.id, e.actual, e.now);
      }
      LeaseAdjusted(r.k.limits, r.held, s, after, e.id);
      assert r.held[e.id].adjusted ==> r.held[e.id := r.held[e.id].(adjusted := true)] == r.held;
    }
  }

  lemma LeaseReleased(limits: Limits, held: seq<M.Held>, s: P.State, after: P.State, id: nat)
    requires LeasesMatch(limits, held, s) && id < |held| && id in s.rows && after.nextID == s.nextID
    requires after.rows == s.rows - {id} && after.holders.Keys == s.holders.Keys
    requires forall x :: x in s.holders && x != id ==> after.holders[x] == s.holders[x]
    requires HolderMatches(limits, held[id].(released := true), after.holders[id])
    ensures LeasesMatch(limits, held[id := held[id].(released := true)], after)
    ensures |after.rows| == |s.rows| - 1
  {
    assert after.rows.Keys == s.rows.Keys - {id};
    assert |after.rows| == |after.rows.Keys| && |s.rows| == |s.rows.Keys|;
  }

  lemma ReleaseSimulates(cfg: P.Config, r: M.Run, s: P.State, e: M.Event)
    requires Matches(r, s) && e.ReleaseOf?
    ensures Matches(M.Apply(r, e), P.After(cfg, s, StepsOf(e, s.clock)))
    ensures P.After(cfg, s, StepsOf(e, s.clock)).clock == s.clock
  {
    var after := P.Next(cfg, s, P.Release(e.id));
    assert [P.Release(e.id)][..0] == [];
    assert P.After(cfg, s, [P.Release(e.id)]) == after;
    if e.id < |r.held| && !r.held[e.id].released {
      assert HolderMatches(r.k.limits, r.held[e.id], s.holders[e.id]);
      LeaseReleased(r.k.limits, r.held, s, after, e.id);
    } else {
      assert e.id in s.holders ==> HolderMatches(r.k.limits, r.held[e.id], s.holders[e.id]);
    }
  }

  // ---------- Whole runs ----------

  function StateAfter(cfg: P.Config, s: P.State, events: seq<M.Event>): P.State {
    if events == [] then s
    else
      var before := StateAfter(cfg, s, events[..|events| - 1]);
      P.After(cfg, before, StepsOf(events[|events| - 1], before.clock))
  }

  // The clock never turns back and no lease has expired when an attempt comes.
  ghost predicate Calm(cfg: P.Config, s: P.State, events: seq<M.Event>) {
    events == [] ||
    var front, last := events[..|events| - 1], events[|events| - 1];
    var before := StateAfter(cfg, s, front);
    && Calm(cfg, s, front)
    && M.Time(last, before.clock) >= before.clock
    && (last.Attempt? ==> NoneExpires(before, last.now))
  }

  // Over every such run the two backends admit the same attempts, hold the
  // same balance and the same number of slots.
  lemma {:induction false} BackendsAgree(cfg: P.Config, limits: Limits, start: int, events: seq<M.Event>)
    requires Calm(cfg, P.Created(limits, start), events)
    ensures Matches(M.After(M.Start(limits, start), events), StateAfter(cfg, P.Created(limits, start), events))
  {
    if events != [] {
      var front, e := events[..|events| - 1], events[|events| - 1];
      BackendsAgree(cfg, limits, start, front);
      var r, s := M.After(M.Start(limits, start), front), StateAfter(cfg, P.Created(limits, start), front);
      match e
      case Attempt(_, _) => AttemptSimulates(cfg, r, s, e);
      case AdjustTo(_, _, _) => AdjustSimulates(cfg, r, s, e);
      case ReleaseOf(_) => ReleaseSimulates(cfg, r, s, e);
    }
  }
}
