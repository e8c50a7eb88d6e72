// llms/providers/internal/extraparams/extraparams.go: raw request fields
// deep-merged into a provider's request body.
module ExtraParams {
  import opened Messages

  type Fields = map<string, Json>

  // A decoded JSON value. Numbers keep their text.
  datatype Json =
    | Null | Bool(b: bool) | Number(text: string) | Text(s: string)
    | Array(items: seq<Json>) | Object(fields: Fields)

  // When both sides of a key are objects they merge; otherwise src's replaces.
  function Merged(dst: Fields, src: Fields): (r: Fields)
    ensures r.Keys == dst.Keys + src.Keys
    decreases Object(src)
  {
    map k | k in dst.Keys + src.Keys ::
      if k !in src then dst[k]
      else if src[k].Object? && k in dst && dst[k].Object? then Object(Merged(dst[k].fields, src[k].fields))
      else src[k]
  }

  // The range over src visits its keys in no particular order.
  method Merge(dst: Fields, src: Fields) returns (r: Fields)
    ensures r == Merged(dst, src)
    decreases Object(src)
  {
    r := dst;
    var left := src.Keys;
    while left != {}
      invariant left <= src.Keys && r.Keys == dst.Keys + (src.Keys - left)
      invariant forall k :: k in r ==> r[k] == if k in src && k !in left then Merged(dst, src)[k] else dst[k]
      decreases left
    {
      var k :| k in left;
      var v := src[k];
      if v.Object? && k in r && r[k].Object? {
        var sub := Merge(r[k].fields, v.fields);
        r := r[k := Object(sub)];
      } else {
        r := r[k := v];
      }
      left := left - {k};
    }
  }

  // Whether src sets the path itself or replaces one of its ancestors with a
  // non-object.
  method Overrides(src: Fields, path: seq<string>) returns (r: bool)
    ensures r == Sets(src, path)
  {
    var m := src;
    for i := 0 to |path|
      invariant Sets(src, path) == Sets(m, path[i..])
    {
      assert path[i..][1..] == path[i + 1..];
      if path[i] !in m {
        return false;
      }
      if i == |path| - 1 {
        return true;
      }
      if !m[path[i]].Object? {
        return true;
      }
      m := m[path[i]].fields;
    }
    return false;
  }

  predicate Sets(src: Fields, path: seq<string>)
    decreases |path|
  {
    path != [] && path[0] in src && (|path| == 1 || !src[path[0]].Object? || Sets(src[path[0]].fields, path[1..]))
  }

  // The value at a path, or None when there is none.
  function Get(m: Fields, path: seq<string>): Option<Json>
    decreases |path|
  {
    if path == [] then Some(Object(m))
    else if path[0] !in m then None
    else if |path| == 1 then Some(m[path[0]])
    else if m[path[0]].Object? then Get(m[path[0]].fields, path[1..])
    else None
  }

  // The value at a path after a merge, in terms of the values before.
  lemma {:induction false} MergedAt(dst: Fields, src: Fields, path: seq<string>)
    requires path != []
    ensures
      var before, given, after := Get(dst, path), Get(src, path), Get(Merged(dst, src), path);
      && (!Sets(src, path) ==> after == before)
      && (Sets(src, path) && given.None? ==> after == None)
      && (Sets(src, path) && given.Some? ==>
            after == if given.value.Object? && before.Some? && before.value.Object?
                     then Some(Object(Merged(before.value.fields, given.value.fields))) else given)
    decreases |path|
  {
    var k, rest := path[0], path[1..];
    if |path| > 1 && k in src && src[k].Object? {
      var sub := src[k].fields;
      if k in dst && dst[k].Object? {
        MergedAt(dst[k].fields, sub, rest);
      } else {
        NotSetIsAbsent(sub, rest);
      }
    }
  }

  lemma {:induction false} NotSetIsAbsent(src: Fields, path: seq<string>)
    requires path != []
    ensures Get(src, path).Some? ==> Sets(src, path)
    decreases |path|
  {
    if |path| > 1 && path[0] in src && src[path[0]].Object? {
      NotSetIsAbsent(src[path[0]].fields, path[1..]);
    }
  }

  // Overrides is exact: a path is not overridden if and only if merging src
  // into any object whatever leaves the value at the path alone.
  lemma OverridesExactly(src: Fields, path: seq<string>)
    requires path != []
    ensures !Sets(src, path) <==> forall dst :: Get(Merged(dst, src), path) == Get(dst, path)
  {
    forall dst ensures !Sets(src, path) ==> Get(Merged(dst, src), path) == Get(dst, path) {
      MergedAt(dst, src, path);
    }
    if Sets(src, path) {
      var dst := if Get(src, path).Some? then map[] else Chain(path);
      MergedAt(dst, src, path);
      ChainGet(path);
      assert Get(Merged(dst, src), path) != Get(dst, path);
    }
  }

  // An object holding null at the path and nothing else.
  function Chain(path: seq<string>): Fields
    requires path != []
  {
    map[path[0] := if |path| == 1 then Null else Object(Chain(path[1..]))]
  }

  lemma {:induction false} ChainGet(path: seq<string>)
    requires path != []
    ensures Get(Chain(path), path) == Some(Null) && Get(map[], path) == None
  {
    if |path| > 1 {
      ChainGet(path[1..]);
    }
  }

  // The empty path is the whole object: Overrides calls it untouched, though
  // a merge may change it.
  lemma EmptyPath()
    ensures
      var src: Fields := map["a" := Null];
      !Sets(src, []) && Get(Merged(map[], src), []) != Get(map[], [])
  {
    var src: Fields := map["a" := Null];
    assert "a" in Merged(map[], src);
  }

  // Merging the same parameters again changes nothing.
  lemma {:induction false} MergeTwice(dst: Fields, src: Fields)
    ensures Merged(Merged(dst, src), src) == Merged(dst, src)
    decreases Object(src)
  {
    var once := Merged(dst, src);
    var twice := Merged(once, src);
    assert twice.Keys == once.Keys;
    forall k | k in once ensures twice[k] == once[k] {
      if k in src && src[k].Object? {
        var sub := src[k].fields;
        if k in dst && dst[k].Object? {
          MergeTwice(dst[k].fields, sub);
        } else {
          MergeSelf(sub);
        }
      }
    }
  }

  lemma {:induction false} MergeSelf(src: Fields)
    ensures Merged(src, src) == src
    decreases Object(src)
  {
    forall k | k in src ensures Merged(src, src)[k] == src[k] {
      if src[k].Object? {
        MergeSelf(src[k].fields);
      }
    }
  }
}
