// llms/middleware/validation.go: the structural transcript checker that pairs
// tool calls with tool results.
module Validation {
  import opened Collections
  import opened Messages

  // ---------- Specification: a scan with one set of unanswered call IDs ----------

  predicate HasNonReasoning(m: Message) {
    exists i :: 0 <= i < |m.content| && !m.content[i].ReasoningPart?
  }

  predicate PartLegal(role: Role, p: Part) {
    match p
    case Text(_, _) => true
    case CallPart(c) => c.Some? && c.value.id != "" && role.Assistant?
    case ReasoningPart(r) => r.Some? && r.value.provider != "" && role.Assistant?
    case ResultPart(r) => r.Some? && r.value.toolCallID != "" && role.Tool?
    case OtherPart(_) => false
  }

  predicate PartsLegal(m: Message) {
    forall i :: 0 <= i < |m.content| ==> PartLegal(m.role, m.content[i])
  }

  // Each result answers a call that is still unanswered.
  predicate Answers(pending: set<string>, ids: seq<string>) {
    Distinct(ids) && Elements(ids) <= pending
  }

  // The unanswered calls after m, or None when m is rejected.
  function Step(pending: set<string>, m: Message): Option<set<string>> {
    if !HasNonReasoning(m) || !PartsLegal(m) then None
    else match m.role
      case Assistant =>
        if pending == {} && Distinct(CallIDs(m.content)) then Some(Elements(CallIDs(m.content))) else None
      case Tool =>
        if (forall i :: 0 <= i < |m.content| ==> m.content[i].ResultPart?) && Answers(pending, ResultIDs(m.content))
        then Some(pending - Elements(ResultIDs(m.content))) else None
      case User => if pending == {} then Some({}) else None
      case OtherRole(_) => None
  }

  function Scan(pending: set<string>, msgs: seq<Message>): Option<set<string>>
    decreases |msgs|
  {
    if msgs == [] then Some(pending)
    else match Step(pending, msgs[0])
      case None => None
      case Some(p) => Scan(p, msgs[1..])
  }

  predicate Valid(msgs: seq<Message>) {
    msgs != [] && Scan({}, msgs) == Some({})
  }

  lemma {:induction false} ScanConcat(pending: set<string>, a: seq<Message>, b: seq<Message>)
    ensures Scan(pending, a + b) ==
            match Scan(pending, a) { case None => None case Some(p) => Scan(p, b) }
    decreases |a|
  {
    if a == [] {
      assert a + b == b;
    } else {
      assert (a + b)[0] == a[0] && (a + b)[1..] == a[1..] + b;
      match Step(pending, a[0])
      case None =>
      case Some(p) => ScanConcat(p, a[1..], b);
    }
  }

  lemma ScanSnoc(pending: set<string>, a: seq<Message>, m: Message)
    ensures Scan(pending, a + [m]) ==
            match Scan(pending, a) { case None => None case Some(p) => Step(p, m) }
  {
    ScanConcat(pending, a, [m]);
    match Scan(pending, a)
    case None =>
    case Some(p) =>
      assert [m][1..] == [];
  }

  // Scanning one message more; a rejected prefix rejects the whole.
  lemma ScanPrefix(msgs: seq<Message>, i: nat)
    requires i < |msgs|
    ensures Scan({}, msgs[..i + 1]) ==
            match Scan({}, msgs[..i]) { case None => None case Some(p) => Step(p, msgs[i]) }
    ensures Scan({}, msgs[..i + 1]).None? ==> Scan({}, msgs).None?
  {
    SplitAt(msgs, i);
    ScanSnoc({}, msgs[..i], msgs[i]);
    ScanConcat({}, msgs[..i + 1], msgs[i + 1..]);
  }

  // ---------- What acceptance means: every call answered exactly once, at once ----------

  function ToolRun(msgs: seq<Message>): (n: nat)
    ensures n <= |msgs|
    ensures forall i :: 0 <= i < n ==> msgs[i].role.Tool?
    ensures n < |msgs| ==> !msgs[n].role.Tool?
  {
    if msgs == [] || !msgs[0].role.Tool? then 0 else 1 + ToolRun(msgs[1..])
  }

  function AllResultIDs(msgs: seq<Message>): seq<string> {
    if msgs == [] then [] else ResultIDs(msgs[0].content) + AllResultIDs(msgs[1..])
  }

  predicate Legal(m: Message) {
    && HasNonReasoning(m)
    && PartsLegal(m)
    && (m.role.Tool? ==> forall i :: 0 <= i < |m.content| ==> m.content[i].ResultPart?)
  }

  predicate AllLegal(msgs: seq<Message>) {
    forall m :: m in msgs ==> Legal(m)
  }

  // No scanning state: user turns stand alone, and the calls of an assistant
  // turn are, as a set without repeats, the results of the tool messages that
  // follow it at once.
  predicate Paired(msgs: seq<Message>)
    decreases |msgs|
  {
    if msgs == [] then true
    else if !Legal(msgs[0]) then false
    else match msgs[0].role
      case User => Paired(msgs[1..])
      case Assistant =>
        var tail := msgs[1..];
        var n := ToolRun(tail);
        var calls, results := CallIDs(msgs[0].content), AllResultIDs(tail[..n]);
        && AllLegal(tail[..n])
        && Distinct(calls) && Distinct(results) && Elements(calls) == Elements(results)
        && Paired(tail[n..])
      case Tool => false
      case OtherRole(_) => false
  }

  lemma DistinctConcat<T>(a: seq<T>, b: seq<T>)
    ensures Distinct(a + b) <==> Distinct(a) && Distinct(b) && Elements(a) !! Elements(b)
    ensures Elements(a + b) == Elements(a) + Elements(b)
  {
    var c := a + b;
    forall x | x in a && x in b ensures !Distinct(c) {
      var i :| 0 <= i < |a| && a[i] == x;
      var j :| 0 <= j < |b| && b[j] == x;
      assert c[i] == c[|a| + j];
    }
    assert Distinct(c) ==> Elements(a) !! Elements(b);
    if Distinct(c) {
      assert forall i :: 0 <= i < |a| ==> c[i] == a[i];
      assert forall i, j :: 0 <= i < j < |b| ==> c[|a| + i] == b[i] && c[|a| + j] == b[j];
    } else {
      var i, j :| 0 <= i < j < |c| && c[i] == c[j];
      assert c[i] in a || c[i] in b;
      if i < |a| <= j {
        assert a[i] in Elements(a) && b[j - |a|] in Elements(b);
      }
    }
  }

  // A run of tool messages is accepted exactly when its results, taken
  // together, each answer a different pending call.
  lemma {:induction false} ToolRunScan(pending: set<string>, tools: seq<Message>)
    requires forall i :: 0 <= i < |tools| ==> tools[i].role.Tool?
    ensures Scan(pending, tools) ==
            if AllLegal(tools) && Answers(pending, AllResultIDs(tools))
            then Some(pending - Elements(AllResultIDs(tools))) else None
    decreases |tools|
  {
    if tools == [] {
      assert pending - Elements(AllResultIDs(tools)) == pending;
    } else {
      var a, b := ResultIDs(tools[0].content), AllResultIDs(tools[1..]);
      DistinctConcat(a, b);
      assert tools == [tools[0]] + tools[1..];
      assert AllLegal(tools) <==> Legal(tools[0]) && AllLegal(tools[1..]);
      if Step(pending, tools[0]).Some? {
        ToolRunScan(pending - Elements(a), tools[1..]);
        assert Elements(a) !! Elements(b) ==> (Elements(b) <= pending - Elements(a) <==> Elements(b) <= pending);
        assert pending - Elements(a) - Elements(b) == pending - Elements(a + b);
      }
    }
  }

  lemma {:induction false} ScanIsPaired(msgs: seq<Message>)
    ensures Scan({}, msgs) == Some({}) <==> Paired(msgs)
    decreases |msgs|
  {
    if msgs == [] || !Legal(msgs[0]) {
    } else {
      match msgs[0].role
      case User => ScanIsPaired(msgs[1..]);
      case Tool => SomeResult(msgs[0]);
      case OtherRole(_) =>
      case Assistant =>
        var calls := Elements(CallIDs(msgs[0].content));
        var tail := msgs[1..];
        var n := ToolRun(tail);
        var tools, rest := tail[..n], tail[n..];
        assert tail == tools + rest;
        ScanConcat(calls, tools, rest);
        ToolRunScan(calls, tools);
        ScanIsPaired(rest);
        var results := Elements(AllResultIDs(tools));
        assert calls <= (calls - results) + results;
        assert calls == results ==> calls - results == {};
        if Scan(calls, tools).Some? && Scan(calls, tools).value != {} {
          Stuck(Scan(calls, tools).value, rest);
        }
    }
  }

  // A legal tool message carries at least one result.
  lemma SomeResult(m: Message)
    requires Legal(m) && m.role.Tool?
    ensures ResultIDs(m.content) != []
    ensures Step({}, m) == None
  {
    var i :| 0 <= i < |m.content| && !m.content[i].ReasoningPart?;
    assert PartLegal(m.role, m.content[0]);
    assert ResultIDs(m.content)[0] in Elements(ResultIDs(m.content));
  }

  // With calls unanswered, only a tool message can come next.
  lemma Stuck(pending: set<string>, msgs: seq<Message>)
    requires pending != {} && (msgs != [] ==> !msgs[0].role.Tool?)
    ensures Scan(pending, msgs) != Some({})
  {
  }

  // The validator's verdict, read off the transcript.
  lemma ValidIsPaired(msgs: seq<Message>)
    ensures Valid(msgs) <==> msgs != [] && Paired(msgs)
  {
    ScanIsPaired(msgs);
  }

  // ---------- The checker ----------

  datatype Reason =
    | NoMessages
    | EmptyContent
    | BadPart(part: nat)
    | UserBeforeResults
    | UnknownRole
    | CallsUnanswered
    | DuplicateCall(id: string)
    | NotAResult
    | DuplicateResult(id: string)
    | OrphanedResult(id: string)
    | EndsUnanswered

  datatype ValidationError = ValidationError(message: nat, reason: Reason)

  // The first call whose ID an earlier call of its message has.
  ghost predicate RepeatsAt(parts: seq<Part>, i: nat, reason: Reason) {
    && i < |parts| && Distinct(CallIDs(parts[..i])) && reason.DuplicateCall? && reason.id in CallIDs(parts[..i])
    && parts[i].CallPart? && parts[i].call.Some? && parts[i].call.value.id == reason.id
  }

  // The first part of a tool turn that is no answer, and why: a result for a
  // call that was answered before it is a duplicate, any other an orphan.
  ghost predicate RejectedAt(pending: set<string>, resolved: set<string>, parts: seq<Part>, i: nat, reason: Reason) {
    && i < |parts| && Answers(pending, ResultIDs(parts[..i]))
    && var answered := Elements(ResultIDs(parts[..i]));
    match reason
    case NotAResult => !parts[i].ResultPart?
    case DuplicateResult(id) => IsResult(parts[i], id) && id !in pending - answered && id in resolved + answered
    case OrphanedResult(id) => IsResult(parts[i], id) && id !in pending - answered && id !in resolved + answered
    case _ => false
  }

  predicate IsResult(p: Part, id: string) {
    p.ResultPart? && p.result.Some? && p.result.value.toolCallID == id
  }

  class PairingState {
    var pending: set<string>
    var resolved: set<string>

    constructor ()
      ensures pending == {} && resolved == {}
    {
      pending, resolved := {}, {};
    }

    // A new assistant turn: everything before it must be answered, and its
    // calls become the unanswered ones.
    method AssistantTurn(m: Message) returns (err: Option<Reason>)
      requires m.role.Assistant? && HasNonReasoning(m) && PartsLegal(m)
      modifies this
      ensures err.None? <==> Step(old(pending), m).Some?
      ensures err.None? ==> Some(pending) == Step(old(pending), m) && resolved == {}
      ensures err.Some? ==> (err.value.CallsUnanswered? <==> old(pending) != {})
      ensures err.Some? && old(pending) == {} ==> exists i: nat :: RepeatsAt(m.content, i, err.value)
    {
      if pending != {} {
        return Some(CallsUnanswered);
      }
      resolved := {};
      for i := 0 to |m.content|
        invariant Distinct(CallIDs(m.content[..i]))
        invariant pending == Elements(CallIDs(m.content[..i]))
        invariant resolved == {}
      {
        TakeOneMore(m.content, i);
        var p := m.content[i];
        if p.CallPart? {
          assert PartLegal(m.role, p);
          var id := p.call.value.id;
          if id in pending {
            DistinctPrefix(m.content, i + 1);
            RepeatedAtEnd(CallIDs(m.content[..i]), id);
            assert CallIDs([p]) == [id];
            assert RepeatsAt(m.content, i, DuplicateCall(id));
            return Some(DuplicateCall(id));
          }
          pending := pending + {id};
        }
      }
      assert m.content[..|m.content|] == m.content;
      return None;
    }

    // A tool turn: each of its results answers one unanswered call.
    method ToolTurn(m: Message) returns (err: Option<Reason>)
      requires m.role.Tool? && HasNonReasoning(m) && PartsLegal(m)
      modifies this
      ensures err.None? <==> Step(old(pending), m).Some?
      ensures err.None? ==>
                Some(pending) == Step(old(pending), m) && resolved == old(resolved) + Elements(ResultIDs(m.content))
      ensures err.Some? ==> exists i: nat :: RejectedAt(old(pending), old(resolved), m.content, i, err.value)
    {
      for i := 0 to |m.content|
        invariant forall k :: 0 <= k < i ==> m.content[k].ResultPart?
        invariant Answers(old(pending), ResultIDs(m.content[..i]))
        invariant pending == old(pending) - Elements(ResultIDs(m.content[..i]))
        invariant resolved == old(resolved) + Elements(ResultIDs(m.content[..i]))
      {
        var p := m.content[i];
        if !p.ResultPart? {
          assert RejectedAt(old(pending), old(resolved), m.content, i, NotAResult);
          return Some(NotAResult);
        }
        assert PartLegal(m.role, p);
        var id := p.result.value.toolCallID;
        OneMoreAnswer(old(pending), m.content, i);
        if id !in pending {
          var reason := if id in resolved then DuplicateResult(id) else OrphanedResult(id);
          assert RejectedAt(old(pending), old(resolved), m.content, i, reason);
          return Some(reason);
        }
        pending := pending - {id};
        resolved := resolved + {id};
      }
      assert m.content[..|m.content|] == m.content;
      return None;
    }

    method StepMessage(m: Message) returns (err: Option<Reason>)
      requires HasNonReasoning(m) && PartsLegal(m)
      modifies this
      ensures err.None? <==> Step(old(pending), m).Some?
      ensures err.None? ==> Some(pending) == Step(old(pending), m)
    {
      match m.role {
        case Assistant => err := AssistantTurn(m);
        case Tool => err := ToolTurn(m);
        case User =>
          err := if pending != {} then Some(UserBeforeResults) else None;
        case OtherRole(_) => err := Some(UnknownRole);
      }
    }
  }

  // The IDs of one more part extend the IDs so far.
  lemma TakeOneMore(parts: seq<Part>, i: nat)
    requires i < |parts|
    ensures CallIDs(parts[..i + 1]) == CallIDs(parts[..i]) + CallIDs([parts[i]])
    ensures ResultIDs(parts[..i + 1]) == ResultIDs(parts[..i]) + ResultIDs([parts[i]])
  {
    assert parts[..i + 1] == parts[..i] + [parts[i]];
    CallIDsConcat(parts[..i], [parts[i]]);
    ResultIDsConcat(parts[..i], [parts[i]]);
  }

  lemma ElementsSnoc(ids: seq<string>, id: string)
    ensures Elements(ids + [id]) == Elements(ids) + {id}
    ensures Distinct(ids + [id]) <==> Distinct(ids) && id !in ids
  {
    var after := ids + [id];
    assert forall k :: 0 <= k < |ids| ==> after[k] == ids[k];
    assert after[|ids|] == id;
    RepeatedAtEnd(ids, id);
  }

  lemma ResultPrefix(parts: seq<Part>, i: nat)
    requires i < |parts| && parts[i].ResultPart? && parts[i].result.Some?
    ensures ResultIDs(parts[..i + 1]) == ResultIDs(parts[..i]) + [parts[i].result.value.toolCallID]
  {
    TakeOneMore(parts, i);
    assert ResultIDs([parts[i]]) == [parts[i].result.value.toolCallID];
  }

  // One more result: still an answer exactly when its call is unanswered.
  lemma OneMoreAnswer(pending: set<string>, parts: seq<Part>, i: nat)
    requires i < |parts| && parts[i].ResultPart? && parts[i].result.Some?
    requires Answers(pending, ResultIDs(parts[..i]))
    ensures
      var before, after, id := ResultIDs(parts[..i]), ResultIDs(parts[..i + 1]), parts[i].result.value.toolCallID;
      && Elements(after) == Elements(before) + {id}
      && (Answers(pending, after) <==> id in pending - Elements(before))
      && (id !in pending - Elements(before) ==> !Answers(pending, ResultIDs(parts)))
      && Elements(after) <= Elements(ResultIDs(parts))
  {
    ResultPrefix(parts, i);
    ElementsSnoc(ResultIDs(parts[..i]), parts[i].result.value.toolCallID);
    DistinctPrefix(parts, i + 1);
  }

  // A repeated or foreign ID in a prefix stays one in the whole message.
  lemma DistinctPrefix(parts: seq<Part>, i: nat)
    requires i <= |parts|
    ensures Distinct(CallIDs(parts)) ==> Distinct(CallIDs(parts[..i]))
    ensures Distinct(ResultIDs(parts)) ==> Distinct(ResultIDs(parts[..i]))
    ensures Elements(ResultIDs(parts[..i])) <= Elements(ResultIDs(parts))
  {
    assert parts == parts[..i] + parts[i..];
    CallIDsConcat(parts[..i], parts[i..]);
    ResultIDsConcat(parts[..i], parts[i..]);
    var a, b := CallIDs(parts[..i]), CallIDs(parts[i..]);
    assert forall k :: 0 <= k < |a| ==> (a + b)[k] == a[k];
    var c, d := ResultIDs(parts[..i]), ResultIDs(parts[i..]);
    assert forall k :: 0 <= k < |c| ==> (c + d)[k] == c[k];
  }

  lemma RepeatedAtEnd(ids: seq<string>, id: string)
    ensures id in ids ==> !Distinct(ids + [id])
  {
    if id in ids {
      var k :| 0 <= k < |ids| && ids[k] == id;
      assert (ids + [id])[k] == (ids + [id])[|ids|];
    }
  }

  method CheckNonReasoning(m: Message) returns (found: bool)
    ensures found <==> HasNonReasoning(m)
  {
    for i := 0 to |m.content|
      invariant forall k :: 0 <= k < i ==> m.content[k].ReasoningPart?
    {
      if !m.content[i].ReasoningPart? {
        return true;
      }
    }
    return false;
  }

  // The first illegal part, if any.
  method ValidateParts(m: Message) returns (err: Option<Reason>)
    ensures err.None? <==> PartsLegal(m)
    ensures err.Some? ==>
              err.value.BadPart? && err.value.part < |m.content| && !PartLegal(m.role, m.content[err.value.part])
    ensures err.Some? ==> forall k :: 0 <= k < err.value.part ==> PartLegal(m.role, m.content[k])
  {
    for i := 0 to |m.content|
      invariant forall k :: 0 <= k < i ==> PartLegal(m.role, m.content[k])
    {
      if !PartLegal(m.role, m.content[i]) {
        return Some(BadPart(i));
      }
    }
    return None;
  }

  // A transcript is accepted exactly when the scan ends with nothing
  // unanswered; an error names the first message the scan rejects.
  method ValidateMessages(msgs: seq<Message>) returns (err: Option<ValidationError>)
    ensures err.None? <==> Valid(msgs)
    ensures err.Some? && !err.value.reason.NoMessages? && !err.value.reason.EndsUnanswered? ==>
              err.value.message < |msgs| &&
              Scan({}, msgs[..err.value.message]).Some? && Scan({}, msgs[..err.value.message + 1]).None?
  {
    if msgs == [] {
      return Some(ValidationError(0, NoMessages));
    }
    var ps := new PairingState();
    for i := 0 to |msgs|
      invariant fresh(ps)
      invariant Scan({}, msgs[..i]) == Some(ps.pending)
    {
      var m := msgs[i];
      ScanPrefix(msgs, i);
      var some := CheckNonReasoning(m);
      if !some {
        return Some(ValidationError(i, EmptyContent));
      }
      var bad := ValidateParts(m);
      if bad.Some? {
        return Some(ValidationError(i, bad.value));
      }
      var stepErr := ps.StepMessage(m);
      if stepErr.Some? {
        return Some(ValidationError(i, stepErr.value));
      }
    }
    assert msgs[..|msgs|] == msgs;
    if ps.pending != {} {
      return Some(ValidationError(|msgs|, EndsUnanswered));
    }
    return None;
  }
}
