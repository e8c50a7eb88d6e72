// llms/providers/openai/convert.go: embedding vectors placed by the index the
// provider reports for each.
module Embeddings {
  import opened Collections
  import opened Messages

  type Values = seq<real>

  datatype Datum = Datum(index: int, values: Values)

  datatype Vector = Vector(id: string, values: Values)

  datatype Error = WrongCount | OutOfRange | DuplicateIndex | NotEveryInput

  datatype Placement = Placed(vectors: seq<Vector>) | Failed(error: Error)

  predicate InRange(data: seq<Datum>, k: nat, n: nat)
    requires k <= |data|
  {
    forall i :: 0 <= i < k ==> 0 <= data[i].index < n
  }

  predicate NoRepeat(data: seq<Datum>, k: nat)
    requires k <= |data|
  {
    forall i, j :: 0 <= i < j < k ==> data[i].index != data[j].index
  }

  // The reported indices are 0..n-1 in some order.
  predicate Permutes(data: seq<Datum>, n: nat) {
    |data| == n && InRange(data, n, n) && NoRepeat(data, n)
  }

  function Indices(data: seq<Datum>, k: nat): (s: set<int>)
    requires k <= |data|
  {
    set i | 0 <= i < k :: data[i].index
  }

  predicate Reported(data: seq<Datum>, k: nat, x: int)
    requires k <= |data|
  {
    exists j :: 0 <= j < k && data[j].index == x
  }

  // Output i carries input i's ID and the values reported for index i.
  predicate PlacedAt(ids: seq<string>, d: Datum, vectors: seq<Vector>) {
    |vectors| == |ids| && 0 <= d.index < |vectors| && vectors[d.index] == Vector(ids[d.index], d.values)
  }

  // The first datum whose index is out of range or was reported before.
  ghost predicate FirstFault(data: seq<Datum>, at: nat, n: nat, error: Error) {
    && at < |data| && InRange(data, at, n) && NoRepeat(data, at)
    && match error
      case OutOfRange => !(0 <= data[at].index < n)
      case DuplicateIndex => Reported(data, at, data[at].index)
      case _ => false
  }

  // Puts each vector at its own index, up to the first fault.
  method Place(ids: seq<string>, data: seq<Datum>, vectors: array<Vector>, filled: array<bool>)
    returns (err: Option<Error>, ghost at: nat)
    requires vectors.Length == filled.Length == |ids| && forall x :: 0 <= x < |ids| ==> !filled[x]
    modifies vectors, filled
    ensures err.None? <==> InRange(data, |data|, |ids|) && NoRepeat(data, |data|)
    ensures err.None? ==> forall x :: 0 <= x < |ids| ==> (filled[x] <==> Reported(data, |data|, x))
    ensures err.None? ==> forall i :: 0 <= i < |data| ==> PlacedAt(ids, data[i], vectors[..])
    ensures err.Some? ==> FirstFault(data, at, |ids|, err.value)
  {
    at := 0;
    for i := 0 to |data|
      invariant InRange(data, i, |ids|) && NoRepeat(data, i)
      invariant forall x :: 0 <= x < |ids| ==> (filled[x] <==> Reported(data, i, x))
      invariant forall j :: 0 <= j < i ==> vectors[data[j].index] == Vector(ids[data[j].index], data[j].values)
    {
      var e := data[i];
      if e.index < 0 || e.index >= |ids| {
        return Some(OutOfRange), i;
      }
      if filled[e.index] {
        return Some(DuplicateIndex), i;
      }
      vectors[e.index] := Vector(ids[e.index], e.values);
      filled[e.index] := true;
      assert forall x :: Reported(data, i + 1, x) <==> Reported(data, i, x) || x == e.index;
    }
    return None, at;
  }

  // It succeeds exactly when the indices are a permutation of the inputs', and
  // then whatever order they came in every vector is at its own index. The
  // last check, that every input has a vector, never fails.
  method ToResponse(ids: seq<string>, data: seq<Datum>) returns (res: Placement)
    ensures res.Placed? <==> Permutes(data, |ids|)
    ensures res.Placed? ==> |res.vectors| == |ids| && forall i :: 0 <= i < |data| ==>
              PlacedAt(ids, data[i], res.vectors)
    ensures res == Failed(WrongCount) <==> |data| != |ids|
    ensures res.Failed? && |data| == |ids| ==> exists at: nat :: FirstFault(data, at, |ids|, res.error)
  {
    if |data| != |ids| {
      return Failed(WrongCount);
    }
    var vectors := new Vector[|ids|](_ => Vector("", []));
    var filled := new bool[|ids|](_ => false);
    ghost var at; var err;
    err, at := Place(ids, data, vectors, filled);
    if err.Some? {
      return Failed(err.value);
    }
    Pigeonhole(data, |ids|);
    for i := 0 to |ids| {
      if !filled[i] {
        assert false;
        return Failed(NotEveryInput);
      }
    }
    return Placed(vectors[..]);
  }

  lemma {:induction false} DistinctCount(data: seq<Datum>, k: nat)
    requires k <= |data| && NoRepeat(data, |data|)
    ensures |Indices(data, k)| == k
  {
    if k > 0 {
      DistinctCount(data, k - 1);
      assert Indices(data, k) == Indices(data, k - 1) + {data[k - 1].index};
      assert data[k - 1].index !in Indices(data, k - 1);
    }
  }

  function Below(n: nat): (s: set<int>)
    ensures |s| == n
    ensures forall x :: x in s <==> 0 <= x < n
  {
    if n == 0 then {} else Below(n - 1) + {n - 1}
  }

  // n distinct indices below n are all of them.
  lemma Pigeonhole(data: seq<Datum>, n: nat)
    requires Permutes(data, n)
    ensures forall x :: 0 <= x < n ==> Reported(data, n, x)
  {
    DistinctCount(data, n);
    forall x | x in Indices(data, n) ensures x in Below(n) {}
    SameSize(Indices(data, n), Below(n));
    forall x | 0 <= x < n ensures Reported(data, n, x) {
      assert x in Indices(data, n);
    }
  }

  predicate Reordered(a: seq<Datum>, b: seq<Datum>) {
    multiset(a) == multiset(b)
  }

  // The order in which the provider answers does not matter: two answers with
  // the same data that both can be placed are placed alike.
  lemma OrderDoesNotMatter(ids: seq<string>, a: seq<Datum>, b: seq<Datum>, va: seq<Vector>, vb: seq<Vector>)
    requires Permutes(a, |ids|) && Permutes(b, |ids|) && Reordered(a, b)
    requires |va| == |vb| == |ids|
    requires forall i :: 0 <= i < |a| ==> PlacedAt(ids, a[i], va)
    requires forall i :: 0 <= i < |b| ==> PlacedAt(ids, b[i], vb)
    ensures va == vb
  {
    Pigeonhole(a, |ids|);
    forall x | 0 <= x < |ids| ensures va[x] == vb[x] {
      assert Reported(a, |ids|, x);
      var i :| 0 <= i < |a| && a[i].index == x;
      assert a[i] in multiset(a);
      assert a[i] in b;
      var j :| 0 <= j < |b| && b[j] == a[i];
      assert PlacedAt(ids, a[i], va) && PlacedAt(ids, b[j], vb);
    }
  }
}
