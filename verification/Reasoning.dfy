// llms/reasoning.go: removing reasoning parts from a transcript, copying only
// what changes.
module ReasoningFilter {
  import opened Messages
  import opened Validation

  type Keep = Option<Reasoning> -> bool

  // ---------- Specification ----------

  predicate Stays(p: Part, keep: Keep) {
    !p.ReasoningPart? || keep(p.reasoning)
  }

  function FilterParts(parts: seq<Part>, keep: Keep): seq<Part> {
    if parts == [] then []
    else if Stays(parts[0], keep) then [parts[0]] + FilterParts(parts[1..], keep)
    else FilterParts(parts[1..], keep)
  }

  function FilterMessage(m: Message, keep: Keep): Message {
    Message(m.role, FilterParts(m.content, keep))
  }

  function Filter(msgs: seq<Message>, keep: Keep): (out: seq<Message>)
    ensures |out| == |msgs|
    ensures forall i :: 0 <= i < |msgs| ==> out[i] == FilterMessage(msgs[i], keep)
  {
    seq(|msgs|, i requires 0 <= i < |msgs| => FilterMessage(msgs[i], keep))
  }

  function DropAll(): Keep { r => false }

  function OfProvider(p: string): Keep { (r: Option<Reasoning>) => r.Some? && r.value.provider == p }

  function WithoutReasoning(msgs: seq<Message>): seq<Message> {
    Filter(msgs, DropAll())
  }

  function ReasoningFrom(p: string, msgs: seq<Message>): seq<Message> {
    Filter(msgs, OfProvider(p))
  }

  // ---------- Filtering never changes the validator's view ----------

  lemma {:induction false} FilterPartsConcat(a: seq<Part>, b: seq<Part>, keep: Keep)
    ensures FilterParts(a + b, keep) == FilterParts(a, keep) + FilterParts(b, keep)
  {
    if a == [] {
      assert a + b == b;
    } else {
      FilterPartsConcat(a[1..], b, keep);
      assert (a + b)[1..] == a[1..] + b;
    }
  }

  // The indices of the parts the filter lets through.
  function Surviving(parts: seq<Part>, keep: Keep): seq<nat> {
    if parts == [] then []
    else
      var front, n := Surviving(parts[..|parts| - 1], keep), |parts| - 1;
      if Stays(parts[n], keep) then front + [n] else front
  }

  // out is the subsequence of parts at increasing indices, exactly those of
  // the parts that stay.
  ghost predicate InOrder(out: seq<Part>, parts: seq<Part>, keep: Keep, at: seq<nat>) {
    && |out| == |at|
    && (forall i :: 0 <= i < |at| ==> at[i] < |parts| && out[i] == parts[at[i]])
    && (forall i, j :: 0 <= i < j < |at| ==> at[i] < at[j])
    && (forall k: nat :: k in at <==> k < |parts| && Stays(parts[k], keep))
  }

  lemma InOrderSnoc(out: seq<Part>, parts: seq<Part>, keep: Keep, at: seq<nat>, p: Part)
    requires InOrder(out, parts, keep, at)
    ensures Stays(p, keep) ==> InOrder(out + [p], parts + [p], keep, at + [|parts|])
    ensures !Stays(p, keep) ==> InOrder(out, parts + [p], keep, at)
  {
    var all, more := parts + [p], at + [|parts|];
    assert forall k: nat :: k in more <==> k in at || k == |parts|;
    assert forall k: nat :: k < |parts| ==> all[k] == parts[k];
    assert forall i :: 0 <= i < |at| ==> at[i] in at;
  }

  // A filter keeps what it lets through in its order.
  lemma {:induction false} FilterInOrder(parts: seq<Part>, keep: Keep)
    ensures InOrder(FilterParts(parts, keep), parts, keep, Surviving(parts, keep))
  {
    if parts != [] {
      var front, last := parts[..|parts| - 1], parts[|parts| - 1];
      FilterInOrder(front, keep);
      assert parts == front + [last] && [last][1..] == [];
      FilterPartsConcat(front, [last], keep);
      InOrderSnoc(FilterParts(front, keep), front, keep, Surviving(front, keep), last);
      assert FilterParts([last], keep) == if Stays(last, keep) then [last] else [];
      assert FilterParts(front, keep) + [] == FilterParts(front, keep);
    }
  }

  // What survives is exactly what the filter lets through, and calls and
  // results are untouched.
  lemma {:induction false} FilterPartsMeaning(parts: seq<Part>, keep: Keep)
    ensures forall p :: p in FilterParts(parts, keep) <==> p in parts && Stays(p, keep)
    ensures |FilterParts(parts, keep)| <= |parts|
    ensures CallIDs(FilterParts(parts, keep)) == CallIDs(parts)
    ensures ResultIDs(FilterParts(parts, keep)) == ResultIDs(parts)
    ensures (forall p :: p in parts ==> Stays(p, keep)) ==> FilterParts(parts, keep) == parts
    ensures (exists p :: p in parts && !Stays(p, keep)) ==> |FilterParts(parts, keep)| < |parts|
  {
    if parts == [] {
    } else {
      FilterPartsMeaning(parts[1..], keep);
      assert parts == [parts[0]] + parts[1..];
      if Stays(parts[0], keep) {
        var rest := FilterParts(parts[1..], keep);
        assert FilterParts(parts, keep)[1..] == rest;
      }
    }
  }

  lemma FilterStep(pending: set<string>, m: Message, keep: Keep)
    requires Step(pending, m).Some?
    ensures Step(pending, FilterMessage(m, keep)) == Step(pending, m)
  {
    var f := FilterMessage(m, keep);
    FilterPartsMeaning(m.content, keep);
    var i :| 0 <= i < |m.content| && !m.content[i].ReasoningPart?;
    assert m.content[i] in f.content;
    forall k | 0 <= k < |f.content| ensures PartLegal(f.role, f.content[k]) && f.content[k] in m.content {
      assert f.content[k] in f.content;
    }
  }

  lemma {:induction false} FilterScan(pending: set<string>, msgs: seq<Message>, keep: Keep)
    requires Scan(pending, msgs).Some?
    ensures Scan(pending, Filter(msgs, keep)) == Scan(pending, msgs)
    decreases |msgs|
  {
    if msgs != [] {
      FilterStep(pending, msgs[0], keep);
      FilterScan(Step(pending, msgs[0]).value, msgs[1..], keep);
      assert Filter(msgs, keep)[1..] == Filter(msgs[1..], keep);
    }
  }

  // Removing any choice of reasoning from a valid request leaves it valid.
  lemma FilterKeepsValid(msgs: seq<Message>, keep: Keep)
    requires Valid(msgs)
    ensures Valid(Filter(msgs, keep))
  {
    FilterScan({}, msgs, keep);
  }

  // No part the filter rejects survives, filtering again changes nothing, and
  // the two public filters compose to "no reasoning at all".
  lemma FilterIdempotent(msgs: seq<Message>, keep: Keep)
    ensures Filter(Filter(msgs, keep), keep) == Filter(msgs, keep)
    ensures forall i, p :: 0 <= i < |msgs| && p in Filter(msgs, keep)[i].content ==>
              Stays(p, keep) && p in msgs[i].content
  {
    forall i | 0 <= i < |msgs|
      ensures Filter(Filter(msgs, keep), keep)[i] == Filter(msgs, keep)[i]
      ensures forall p :: p in Filter(msgs, keep)[i].content ==> Stays(p, keep) && p in msgs[i].content
    {
      FilterPartsMeaning(msgs[i].content, keep);
      FilterPartsMeaning(FilterParts(msgs[i].content, keep), keep);
    }
  }

  // ---------- The loops ----------

  method DropCount(m: Message, keep: Keep) returns (n: nat)
    ensures n == |m.content| - |FilterParts(m.content, keep)|
    ensures n == 0 <==> FilterMessage(m, keep) == m
  {
    n := 0;
    for j := 0 to |m.content|
      invariant n == j - |FilterParts(m.content[..j], keep)|
    {
      assert m.content[..j + 1] == m.content[..j] + [m.content[j]];
      FilterPartsConcat(m.content[..j], [m.content[j]], keep);
      if !Stays(m.content[j], keep) {
        n := n + 1;
      }
    }
    assert m.content[..|m.content|] == m.content;
    FilterPartsMeaning(m.content, keep);
  }

  method FilterReasoning(msgs: seq<Message>, keep: Keep) returns (out: seq<Message>)
    ensures out == Filter(msgs, keep)
  {
    var first := -1;
    var i := 0;
    while i < |msgs| && first < 0
      invariant 0 <= i <= |msgs|
      invariant first < 0 ==> forall k :: 0 <= k < i ==> FilterMessage(msgs[k], keep) == msgs[k]
      invariant first >= 0 ==> first < |msgs| && forall k :: 0 <= k < first ==> FilterMessage(msgs[k], keep) == msgs[k]
    {
      var drop := DropCount(msgs[i], keep);
      if drop > 0 {
        first := i;
      }
      i := i + 1;
    }
    if first < 0 {
      return msgs;
    }
    out := msgs[..first];
    for i := first to |msgs|
      invariant |out| == i
      invariant forall k :: 0 <= k < i ==> out[k] == FilterMessage(msgs[k], keep)
    {
      var drop := DropCount(msgs[i], keep);
      if drop == 0 {
        out := out + [msgs[i]];
      } else {
        var content: seq<Part> := [];
        for j := 0 to |msgs[i].content|
          invariant content == FilterParts(msgs[i].content[..j], keep)
        {
          var c := msgs[i].content;
          assert c[..j + 1] == c[..j] + [c[j]];
          FilterPartsConcat(c[..j], [c[j]], keep);
          if Stays(c[j], keep) {
            content := content + [c[j]];
          }
        }
        assert msgs[i].content[..|msgs[i].content|] == msgs[i].content;
        out := out + [Message(msgs[i].role, content)];
      }
    }
  }
}
