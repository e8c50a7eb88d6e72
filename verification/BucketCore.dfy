// bucket/internal/core/core.go: the token arithmetic every bucket backend
// shares. Times are nanoseconds.
module BucketCore {
  import opened Limits

  const NANOS: real := 1000000000.0

  function Min(a: real, b: real): real {
    if a < b then a else b
  }

  // Tokens accrued from last to now; none when the clock has not advanced.
  function Accrued(l: Limits, last: int, now: int): (r: real)
    ensures l.TokenLimited() ==> r >= 0.0
  {
    if now > last then
      SignOfProduct((now - last) as real / NANOS, l.RefillPerSecond());
      (now - last) as real / NANOS * l.RefillPerSecond()
    else 0.0
  }

  lemma SignOfProduct(a: real, b: real)
    ensures a > 0.0 && b > 0.0 ==> a * b > 0.0
  {
  }

  function Settle(l: Limits, balance: real, last: int, now: int): (r: real)
    ensures l.TokenLimited() ==> r <= l.Capacity() as real
  {
    if !l.TokenLimited() then balance
    else Min(balance + Accrued(l, last, now), l.Capacity() as real)
  }

  function Adjusted(l: Limits, balance: real, charged: int, actual: int): real {
    if !l.TokenLimited() then balance
    else Min(balance - (actual - charged) as real, l.Capacity() as real)
  }

  predicate Impossible(l: Limits, tokens: int) {
    l.TokenLimited() && tokens > l.Capacity()
  }

  predicate Fits(l: Limits, balance: real, tokens: int, live: int) {
    && (!l.TokenLimited() || balance >= tokens as real)
    && (!l.SlotLimited() || live < l.maxConcurrency)
  }

  predicate TokensFit(l: Limits, balance: real, tokens: int) {
    !l.TokenLimited() || balance >= tokens as real
  }

  const MAX_DURATION := 0x7FFF_FFFF_FFFF_FFFF

  // The exact wait, in nanoseconds, until balance has refilled to tokens.
  function Wait(l: Limits, balance: real, tokens: int): real
    requires l.TokenLimited()
  {
    (tokens as real - balance) / l.RefillPerSecond() * NANOS
  }

  // The hint: the wait in whole nanoseconds, rounded down and saturated.
  function RetryAfter(l: Limits, balance: real, tokens: int): int {
    if !l.TokenLimited() then 0
    else if tokens as real - balance <= 0.0 then 0
    else
      var ns := Wait(l, balance, tokens);
      if ns >= TWO63 then MAX_DURATION else ns.Floor
  }

  // ---------- Lazy refill does not depend on when it is polled ----------

  predicate Ordered(times: seq<int>) {
    forall i, j :: 0 <= i < j < |times| ==> times[i] <= times[j]
  }

  // Settling at each of the given times in turn.
  function SettleAll(l: Limits, balance: real, last: int, times: seq<int>): real
    decreases |times|
  {
    if times == [] then balance
    else SettleAll(l, Settle(l, balance, last, times[0]), times[0], times[1..])
  }

  lemma AccruedAdds(l: Limits, a: int, b: int, c: int)
    requires a <= b <= c
    ensures Accrued(l, a, b) + Accrued(l, b, c) == Accrued(l, a, c)
  {
    var r := l.RefillPerSecond();
    var x, y := (b - a) as real / NANOS, (c - b) as real / NANOS;
    assert (c - a) as real / NANOS == x + y;
    Distributes(x, y, r);
  }

  lemma Distributes(x: real, y: real, r: real)
    ensures (x + y) * r == x * r + y * r
  {
  }

  // Settling twice is settling once exactly when the clock never turned back,
  // or never advanced, or the bucket ended full anyway.
  lemma SettleTwice(l: Limits, balance: real, a: int, b: int, c: int)
    requires l.TokenLimited()
    ensures Settle(l, Settle(l, balance, a, b), b, c) >= Settle(l, balance, a, c)
    ensures Settle(l, Settle(l, balance, a, b), b, c) == Settle(l, balance, a, c) <==>
            a <= b <= c || c <= b <= a || balance + Accrued(l, a, c) >= l.Capacity() as real
  {
    if a <= b <= c {
      AccruedAdds(l, a, b, c);
    } else if a < b && c < b {
      // Ahead and back: the step back is credited.
      if a < c {
        AccruedAdds(l, a, c, b);
        assert Accrued(l, c, b) > 0.0 by { SignOfProduct((b - c) as real / NANOS, l.RefillPerSecond()); }
      } else {
        assert Accrued(l, a, b) > 0.0 by { SignOfProduct((b - a) as real / NANOS, l.RefillPerSecond()); }
      }
    } else if b < a && b < c {
      // Back and ahead: the way back up is credited twice.
      if a < c {
        AccruedAdds(l, b, a, c);
        assert Accrued(l, b, a) > 0.0 by { SignOfProduct((a - b) as real / NANOS, l.RefillPerSecond()); }
      } else {
        assert Accrued(l, b, c) > 0.0 by { SignOfProduct((c - b) as real / NANOS, l.RefillPerSecond()); }
      }
    }
  }

  // However often a bucket is polled under a monotone clock, it holds what one
  // refill over the whole interval gives.
  lemma {:induction false} PollIndependent(l: Limits, balance: real, last: int, times: seq<int>)
    requires Ordered([last] + times) && times != []
    ensures SettleAll(l, balance, last, times) == Settle(l, balance, last, times[|times| - 1])
    decreases |times|
  {
    var all := [last] + times;
    assert all[0] == last && all[1] == times[0];
    if |times| > 1 {
      var next := Settle(l, balance, last, times[0]);
      var rest := times[1..];
      forall i, j | 0 <= i < j < |[times[0]] + rest| ensures ([times[0]] + rest)[i] <= ([times[0]] + rest)[j] {
        assert ([times[0]] + rest)[i] == all[i + 1] && ([times[0]] + rest)[j] == all[j + 1];
      }
      PollIndependent(l, next, times[0], rest);
      assert rest[|rest| - 1] == times[|times| - 1] == all[|times|];
      if l.TokenLimited() {
        SettleTwice(l, balance, last, times[0], times[|times| - 1]);
      }
    }
  }

  // ---------- The hint is tight ----------

  lemma WaitIsWhen(l: Limits, balance: real, tokens: int, d: nat)
    requires l.TokenLimited()
    ensures d as real / NANOS * l.RefillPerSecond() >= tokens as real - balance <==>
        d as real >= Wait(l, balance, tokens)
  {
    var r := l.RefillPerSecond();
    var deficit := tokens as real - balance;
    var w := deficit / r;
    assert w * r == deficit;
    assert Wait(l, balance, tokens) == w * NANOS;
    var x := d as real / NANOS;
    assert x * NANOS == d as real;
    Monotone(x, w, r);
    Monotone(x, w, NANOS);
  }

  lemma Monotone(x: real, y: real, r: real)
    requires r > 0.0
    ensures x * r >= y * r <==> x >= y
  {
    assert x * r - y * r == (x - y) * r;
    if x >= y {
      assert (x - y) * r >= 0.0;
    } else {
      SignOfProduct(y - x, r);
      assert (y - x) * r == y * r - x * r;
    }
  }

  // With no other activity the tokens of a possible request fit, d after now,
  // exactly when d is at least the exact wait.
  lemma FitsExactlyWhen(l: Limits, balance: real, tokens: int, now: int, d: nat)
    requires l.TokenLimited() && !Impossible(l, tokens) && balance < tokens as real
    ensures TokensFit(l, Settle(l, balance, now, now + d), tokens) <==> d as real >= Wait(l, balance, tokens)
  {
    WaitIsWhen(l, balance, tokens, d);
    assert d > 0 ==> Accrued(l, now, now + d) == d as real / NANOS * l.RefillPerSecond();
  }

  // So they never fit before the hint, and unless the hint is saturated always
  // one nanosecond after it; at the hint itself only when the wait is a whole
  // number of nanoseconds.
  lemma RetryAfterIsTight(l: Limits, balance: real, tokens: int, now: int, d: nat)
    requires l.TokenLimited() && !Impossible(l, tokens) && balance < tokens as real
    ensures
      var hint, fit := RetryAfter(l, balance, tokens), TokensFit(l, Settle(l, balance, now, now + d), tokens);
      && hint >= 0
      && (d < hint ==> !fit)
      && (Wait(l, balance, tokens) < TWO63 && d > hint ==> fit)
      && (Wait(l, balance, tokens) < TWO63 && d == hint ==> (fit <==> hint as real == Wait(l, balance, tokens)))
  {
    FitsExactlyWhen(l, balance, tokens, now, d);
    var ns := Wait(l, balance, tokens);
    var w := (tokens as real - balance) / l.RefillPerSecond();
    assert w * l.RefillPerSecond() > 0.0;
    Monotone(w, 0.0, l.RefillPerSecond());
    Monotone(0.0, w, l.RefillPerSecond());
    assert ns > 0.0;
  }
}
