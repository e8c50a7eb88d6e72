// llms/providers/anthropic/convert.go: the translation of a transcript to
// Anthropic's user/assistant wire messages, and its cache markers.
module Anthropic {
  import opened Collections
  import opened Messages
  import opened Validation
  import opened ReasoningFilter

  const PROVIDER := "anthropic"
  const MAX_CACHE_BREAKPOINTS := 4

  // A thinking block as it is sent back.
  datatype Thought = Signed(thinking: string, signature: string) | Redacted(data: string)

  datatype Block =
    | TextBlock(text: string, cached: bool)
    | ToolUse(use: ToolCall)
    | ToolResultBlock(answer: ToolResult)
    | Thinking(block: Thought)

  datatype WireRole = FromUser | FromAssistant
  datatype Wire = Wire(role: WireRole, content: seq<Block>)

  // How the adapter reads a reasoning part's provider data back: the block to
  // send, or None when it is malformed.
  type Decode = string -> Option<Thought>

  // ---------- Parts to blocks ----------

  predicate Marked(p: Part) {
    p.Text? && p.cacheBreakpoint
  }

  function Marks(parts: seq<Part>): nat {
    if parts == [] then 0 else Marks(parts[..|parts| - 1]) + if Marked(parts[|parts| - 1]) then 1 else 0
  }

  predicate Convertible(p: Part, decode: Decode) {
    match p
    case Text(text, _) => text != ""
    case CallPart(c) => c.Some?
    case ResultPart(r) => r.Some?
    case ReasoningPart(r) => r.Some? && decode(r.value.data).Some?
    case OtherPart(_) => false
  }

  predicate AllConvertible(parts: seq<Part>, decode: Decode) {
    forall p :: p in parts ==> Convertible(p, decode)
  }

  function BlockOf(p: Part, honored: bool, decode: Decode): Block
    requires Convertible(p, decode)
  {
    match p
    case Text(text, breakpoint) => TextBlock(text, breakpoint && honored)
    case CallPart(c) => ToolUse(c.value)
    case ResultPart(r) => ToolResultBlock(r.value)
    case ReasoningPart(r) => Thinking(decode(r.value.data).value)
  }

  // One block per part, in order, when seen marked parts came before and the
  // first skip marked parts of the request are not honored.
  function Blocks(parts: seq<Part>, seen: nat, skip: nat, decode: Decode): (blocks: seq<Block>)
    requires AllConvertible(parts, decode)
    ensures |blocks| == |parts|
  {
    if parts == [] then []
    else
      var front := parts[..|parts| - 1];
      Blocks(front, seen, skip, decode) + [BlockOf(parts[|parts| - 1], seen + Marks(front) >= skip, decode)]
  }

  function Results(blocks: seq<Block>): seq<Block> {
    if blocks == [] then []
    else
      var front, last := Results(blocks[..|blocks| - 1]), blocks[|blocks| - 1];
      if last.ToolResultBlock? then front + [last] else front
  }

  function Others(blocks: seq<Block>): seq<Block> {
    if blocks == [] then []
    else
      var front, last := Others(blocks[..|blocks| - 1]), blocks[|blocks| - 1];
      if last.ToolResultBlock? then front else front + [last]
  }

  class CacheBudget {
    const skip: nat
    var seen: nat

    constructor (skip: nat)
      ensures this.skip == skip && seen == 0
    {
      this.skip := skip;
      seen := 0;
    }

    method Honor() returns (keep: bool)
      modifies this
      ensures keep == (old(seen) >= skip) && seen == old(seen) + 1
    {
      keep := seen >= skip;
      seen := seen + 1;
    }
  }

  lemma ConvertiblePrefix(parts: seq<Part>, i: nat, decode: Decode)
    requires i <= |parts|
    ensures AllConvertible(parts, decode) ==> AllConvertible(parts[..i], decode)
    ensures i < |parts| ==>
              (AllConvertible(parts[..i + 1], decode) <==>
                  AllConvertible(parts[..i], decode) && Convertible(parts[i], decode))
  {
    if i < |parts| {
      assert parts[..i + 1] == parts[..i] + [parts[i]];
    }
  }

  // The loop's state after one part more.
  lemma OneMoreBlock(parts: seq<Part>, i: nat, seen: nat, skip: nat, decode: Decode)
    requires i < |parts| && AllConvertible(parts[..i], decode) && AllConvertible(parts[..i + 1], decode)
    ensures Marks(parts[..i + 1]) == Marks(parts[..i]) + if Marked(parts[i]) then 1 else 0
    ensures
      var blocks, after := Blocks(parts[..i], seen, skip, decode), Blocks(parts[..i + 1], seen, skip, decode);
      var block := BlockOf(parts[i], seen + Marks(parts[..i]) >= skip, decode);
      && Results(after) == (if block.ToolResultBlock? then Results(blocks) + [block] else Results(blocks))
      && Others(after) == (if block.ToolResultBlock? then Others(blocks) else Others(blocks) + [block])
  {
    var front := parts[..i + 1];
    assert front[..|front| - 1] == parts[..i];
    var after := Blocks(front, seen, skip, decode);
    assert after[..|after| - 1] == Blocks(parts[..i], seen, skip, decode);
  }

  method BlocksForParts(parts: seq<Part>, cb: CacheBudget, decode: Decode)
    returns (res: Option<(seq<Block>, seq<Block>)>)
    modifies cb
    ensures res.Some? <==> AllConvertible(parts, decode)
    ensures res.Some? ==> cb.seen == old(cb.seen) + Marks(parts)
    ensures res.Some? ==>
              var blocks := Blocks(parts, old(cb.seen), cb.skip, decode);
              res.value == (Results(blocks), Others(blocks))
  {
    var toolResults: seq<Block>, others: seq<Block> := [], [];
    for i := 0 to |parts|
      invariant AllConvertible(parts[..i], decode)
      invariant cb.seen == old(cb.seen) + Marks(parts[..i])
      invariant toolResults == Results(Blocks(parts[..i], old(cb.seen), cb.skip, decode))
      invariant others == Others(Blocks(parts[..i], old(cb.seen), cb.skip, decode))
    {
      var p := parts[i];
      ConvertiblePrefix(parts, i, decode);
      ConvertiblePrefix(parts, i + 1, decode);
      if !Convertible(p, decode) {
        return None;
      }
      OneMoreBlock(parts, i, old(cb.seen), cb.skip, decode);
      match p {
        case Text(text, breakpoint) =>
          var keep := false;
          if breakpoint {
            keep := cb.Honor();
          }
          others := others + [TextBlock(text, keep)];
        case CallPart(c) => others := others + [ToolUse(c.value)];
        case ResultPart(r) => toolResults := toolResults + [ToolResultBlock(r.value)];
        case ReasoningPart(r) => others := others + [Thinking(decode(r.value.data).value)];
        case OtherPart(_) => assert false;
      }
    }
    assert parts[..|parts|] == parts;
    return Some((toolResults, others));
  }

  // ---------- Messages to wire messages ----------

  predicate HasReply(parts: seq<Part>) {
    exists p :: p in parts && (p.Text? || p.CallPart?)
  }

  predicate MessageConvertible(m: Message, decode: Decode) {
    && AllConvertible(m.content, decode)
    && !m.role.OtherRole?
    && (m.role.Assistant? ==> HasReply(m.content))
  }

  predicate AllMessagesConvertible(msgs: seq<Message>, decode: Decode) {
    forall m :: m in msgs ==> MessageConvertible(m, decode)
  }

  function AllParts(msgs: seq<Message>): seq<Part> {
    if msgs == [] then [] else AllParts(msgs[..|msgs| - 1]) + msgs[|msgs| - 1].content
  }

  // The wire messages so far and the user-side blocks not yet flushed.
  datatype Build = Build(out: seq<Wire>, buf: seq<Block>)

  function Flush(b: Build): Build {
    if b.buf == [] then b else Build(b.out + [Wire(FromUser, b.buf)], [])
  }

  function Add(b: Build, role: Role, blocks: seq<Block>): Build {
    if role.Assistant? then Build(Flush(b).out + [Wire(FromAssistant, Others(blocks))], [])
    else Build(b.out, b.buf + Results(blocks) + Others(blocks))
  }

  function Convert(msgs: seq<Message>, skip: nat, decode: Decode): Build
    requires AllMessagesConvertible(msgs, decode)
  {
    if msgs == [] then Build([], [])
    else
      var front, m := msgs[..|msgs| - 1], msgs[|msgs| - 1];
      assert MessageConvertible(m, decode);
      Add(Convert(front, skip, decode), m.role, Blocks(m.content, Marks(AllParts(front)), skip, decode))
  }

  // One message of the loop: convert its parts, flush the user side before an
  // assistant turn, and buffer user-side blocks, results first.
  method AddMessage(m: Message, b: Build, cb: CacheBudget, decode: Decode) returns (res: Option<Build>)
    modifies cb
    ensures res.Some? <==> MessageConvertible(m, decode)
    ensures res.Some? ==> cb.seen == old(cb.seen) + Marks(m.content)
    ensures res.Some? ==> res.value == Add(b, m.role, Blocks(m.content, old(cb.seen), cb.skip, decode))
  {
    var converted := BlocksForParts(m.content, cb, decode);
    if converted.None? {
      return None;
    }
    var (tr, other) := converted.value;
    match m.role {
      case Assistant =>
        var out := if |b.buf| > 0 then b.out + [Wire(FromUser, b.buf)] else b.out;
        if !HasReply(m.content) {
          return None;
        }
        return Some(Build(out + [Wire(FromAssistant, other)], []));
      case User =>
        return Some(Build(b.out, b.buf + tr + other));
      case Tool =>
        return Some(Build(b.out, b.buf + tr + other));
      case OtherRole(_) =>
        return None;
    }
  }

  lemma ConvertSnoc(msgs: seq<Message>, i: nat, skip: nat, decode: Decode)
    requires i < |msgs| && AllMessagesConvertible(msgs[..i], decode)
    ensures Marks(AllParts(msgs[..i + 1])) == Marks(AllParts(msgs[..i])) + Marks(msgs[i].content)
    ensures AllMessagesConvertible(msgs[..i + 1], decode) <==> MessageConvertible(msgs[i], decode)
    ensures MessageConvertible(msgs[i], decode) ==>
              Convert(msgs[..i + 1], skip, decode) ==
              Add(Convert(msgs[..i], skip, decode), msgs[i].role,
                  Blocks(msgs[i].content, Marks(AllParts(msgs[..i])), skip, decode))
  {
    assert msgs[..i + 1] == msgs[..i] + [msgs[i]] && msgs[..i + 1][..i] == msgs[..i];
    MarksConcat(AllParts(msgs[..i]), msgs[i].content);
  }

  method BuildMessages(req: seq<Message>, cb: CacheBudget, decode: Decode) returns (res: Option<seq<Wire>>)
    requires cb.seen == 0
    modifies cb
    ensures res == Wires(req, cb.skip, decode)
  {
    var b := Build([], []);
    var msgs := FilterReasoning(req, OfProvider(PROVIDER));
    for i := 0 to |msgs|
      invariant AllMessagesConvertible(msgs[..i], decode)
      invariant cb.seen == Marks(AllParts(msgs[..i]))
      invariant b == Convert(msgs[..i], cb.skip, decode)
    {
      assert msgs[i] in msgs;
      ConvertSnoc(msgs, i, cb.skip, decode);
      var next := AddMessage(msgs[i], b, cb, decode);
      if next.None? {
        return None;
      }
      b := next.value;
    }
    assert msgs[..|msgs|] == msgs;
    var out := if |b.buf| > 0 then b.out + [Wire(FromUser, b.buf)] else b.out;
    if |out| == 0 || out[0].role != FromUser {
      return None;
    }
    return Some(out);
  }

  // The wire messages of a request, or None when it is rejected.
  function Wires(req: seq<Message>, skip: nat, decode: Decode): Option<seq<Wire>> {
    var msgs := ReasoningFrom(PROVIDER, req);
    if !AllMessagesConvertible(msgs, decode) then None
    else
      var out := Flush(Convert(msgs, skip, decode)).out;
      if out == [] || out[0].role != FromUser then None else Some(out)
  }

  lemma {:induction false} MarksConcat(a: seq<Part>, b: seq<Part>)
    ensures Marks(a + b) == Marks(a) + Marks(b)
  {
    if b == [] {
      assert a + b == a;
    } else {
      var front := b[..|b| - 1];
      MarksConcat(a, front);
      assert (a + b)[..|a + b| - 1] == a + front;
    }
  }

  // ---------- What the translation preserves ----------

  function UseIDs(blocks: seq<Block>): seq<string> {
    if blocks == [] then []
    else
      var front, last := UseIDs(blocks[..|blocks| - 1]), blocks[|blocks| - 1];
      if last.ToolUse? then front + [last.use.id] else front
  }

  function AnswerIDs(blocks: seq<Block>): seq<string> {
    if blocks == [] then []
    else
      var front, last := AnswerIDs(blocks[..|blocks| - 1]), blocks[|blocks| - 1];
      if last.ToolResultBlock? then front + [last.answer.toolCallID] else front
  }

  function Flatten(out: seq<Wire>): seq<Block> {
    if out == [] then [] else Flatten(out[..|out| - 1]) + out[|out| - 1].content
  }

  predicate ResultsFirst(blocks: seq<Block>) {
    forall i, j :: 0 <= i < j < |blocks| && blocks[j].ToolResultBlock? ==> blocks[i].ToolResultBlock?
  }

  predicate AllResults(blocks: seq<Block>) {
    forall i :: 0 <= i < |blocks| ==> blocks[i].ToolResultBlock?
  }

  predicate NoResults(blocks: seq<Block>) {
    forall i :: 0 <= i < |blocks| ==> !blocks[i].ToolResultBlock?
  }

  // What may follow an assistant message: the user message answering exactly
  // its calls, or, when it has none, another assistant message.
  predicate Answered(a: Wire, next: Wire) {
    if next.role.FromUser? then
      && Distinct(UseIDs(a.content)) && Distinct(AnswerIDs(next.content))
      && Elements(UseIDs(a.content)) == Elements(AnswerIDs(next.content))
    else UseIDs(a.content) == []
  }

  predicate UserOK(w: Wire) {
    w.role.FromUser? ==> w.content != [] && ResultsFirst(w.content)
  }

  // No two user messages in a row, and every assistant message answered.
  predicate LinkOK(out: seq<Wire>, i: nat)
    requires 0 < i < |out|
  {
    if out[i - 1].role.FromUser? then out[i].role.FromAssistant? else Answered(out[i - 1], out[i])
  }

  predicate WireOK(out: seq<Wire>) {
    && (forall w :: w in out ==> UserOK(w))
    && (forall i :: 0 < i < |out| ==> LinkOK(out, i))
    && (out != [] && out[0].role.FromUser? ==> AnswerIDs(out[0].content) == [])
  }

  predicate EndsAnswered(out: seq<Wire>) {
    out != [] && out[|out| - 1].role.FromAssistant? ==> UseIDs(out[|out| - 1].content) == []
  }

  // Blocks of one kind need no sorting.
  lemma {:induction false} ResultsOnly(blocks: seq<Block>)
    requires AllResults(blocks)
    ensures Results(blocks) == blocks && Others(blocks) == [] && UseIDs(blocks) == []
  {
    if blocks != [] {
      var front, last := blocks[..|blocks| - 1], blocks[|blocks| - 1];
      ResultsOnly(front);
      assert front + [last] == blocks;
    }
  }

  lemma {:induction false} OthersOnly(blocks: seq<Block>)
    requires NoResults(blocks)
    ensures Results(blocks) == [] && Others(blocks) == blocks && AnswerIDs(blocks) == []
  {
    if blocks != [] {
      var front, last := blocks[..|blocks| - 1], blocks[|blocks| - 1];
      OthersOnly(front);
      assert front + [last] == blocks;
    }
  }

  lemma SortedBlocks(blocks: seq<Block>)
    ensures AllResults(blocks) ==> Results(blocks) == blocks && Others(blocks) == [] && UseIDs(blocks) == []
    ensures NoResults(blocks) ==> Results(blocks) == [] && Others(blocks) == blocks && AnswerIDs(blocks) == []
  {
    if AllResults(blocks) {
      ResultsOnly(blocks);
    }
    if NoResults(blocks) {
      OthersOnly(blocks);
    }
  }

  lemma {:induction false} IDsConcat(a: seq<Block>, b: seq<Block>)
    ensures UseIDs(a + b) == UseIDs(a) + UseIDs(b)
    ensures AnswerIDs(a + b) == AnswerIDs(a) + AnswerIDs(b)
  {
    if b == [] {
      assert a + b == a;
    } else {
      var front, last := b[..|b| - 1], b[|b| - 1];
      IDsConcat(a, front);
      assert (a + b)[..|a + b| - 1] == a + front;
      if last.ToolUse? {
        Associative(UseIDs(a), UseIDs(front), [last.use.id]);
      } else if last.ToolResultBlock? {
        Associative(AnswerIDs(a), AnswerIDs(front), [last.answer.toolCallID]);
      }
    }
  }

  lemma OneBlockIDs(p: Part, keep: bool, decode: Decode)
    requires Convertible(p, decode)
    ensures
      var block := BlockOf(p, keep, decode);
      && CallIDs([p]) == (if block.ToolUse? then [block.use.id] else [])
      && ResultIDs([p]) == (if block.ToolResultBlock? then [block.answer.toolCallID] else [])
      && block.ToolResultBlock? == p.ResultPart?
  {
    assert [p][1..] == [];
  }

  // Each block is its part's, and carries its IDs.
  lemma {:induction false} BlocksMatch(parts: seq<Part>, seen: nat, skip: nat, decode: Decode)
    requires AllConvertible(parts, decode)
    ensures UseIDs(Blocks(parts, seen, skip, decode)) == CallIDs(parts)
    ensures AnswerIDs(Blocks(parts, seen, skip, decode)) == ResultIDs(parts)
    ensures forall i :: 0 <= i < |parts| ==>
              Blocks(parts, seen, skip, decode)[i].ToolResultBlock? == parts[i].ResultPart?
  {
    if parts != [] {
      var front, last := parts[..|parts| - 1], parts[|parts| - 1];
      BlocksMatch(front, seen, skip, decode);
      assert parts == front + [last];
      CallIDsConcat(front, [last]);
      ResultIDsConcat(front, [last]);
      assert last in parts;
      OneBlockIDs(last, seen + Marks(front) >= skip, decode);
      var blocks := Blocks(parts, seen, skip, decode);
      assert blocks[..|blocks| - 1] == Blocks(front, seen, skip, decode);
    }
  }

  lemma {:induction false} BlocksConcat(a: seq<Part>, b: seq<Part>, seen: nat, mid: nat, skip: nat, decode: Decode)
    requires AllConvertible(a, decode) && AllConvertible(b, decode) && mid == seen + Marks(a)
    ensures AllConvertible(a + b, decode)
    ensures Blocks(a + b, seen, skip, decode) == Blocks(a, seen, skip, decode) + Blocks(b, mid, skip, decode)
  {
    if b == [] {
      assert a + b == a;
    } else {
      var front, last := b[..|b| - 1], b[|b| - 1];
      BlocksConcat(a, front, seen, mid, skip, decode);
      MarksConcat(a, front);
      assert (a + b)[..|a + b| - 1] == a + front;
    }
  }

  // A legal message is already sorted: a tool turn is all results, any other
  // turn has none.
  lemma MessageSorted(m: Message, seen: nat, skip: nat, decode: Decode)
    requires Legal(m) && AllConvertible(m.content, decode)
    ensures
      var blocks := Blocks(m.content, seen, skip, decode);
      && (m.role.Tool? ==> AllResults(blocks)) && (!m.role.Tool? ==> NoResults(blocks))
      && Results(blocks) + Others(blocks) == blocks
      && blocks != [] && UseIDs(blocks) == CallIDs(m.content) && AnswerIDs(blocks) == ResultIDs(m.content)
  {
    var blocks := Blocks(m.content, seen, skip, decode);
    BlocksMatch(m.content, seen, skip, decode);
    forall i | 0 <= i < |blocks| ensures blocks[i].ToolResultBlock? == m.role.Tool? {
      assert PartLegal(m.role, m.content[i]);
    }
    SortedBlocks(blocks);
    if m.role.Tool? {
      assert Results(blocks) + Others(blocks) == blocks;
    }
  }

  // The invariant of the translation: what is still unanswered on the wire is
  // what the validator has pending.
  ghost predicate Standing(b: Build, pending: set<string>) {
    && WireOK(b.out)
    && (b.out != [] ==> b.out[|b.out| - 1].role.FromAssistant? && Distinct(UseIDs(b.out[|b.out| - 1].content)))
    && ResultsFirst(b.buf) && (pending != {} ==> AllResults(b.buf))
    && Distinct(AnswerIDs(b.buf))
    && Elements(AnswerIDs(b.buf)) !! pending
    && (b.out == [] ==> pending == {} && AnswerIDs(b.buf) == [])
    && (b.out != [] ==> Elements(UseIDs(b.out[|b.out| - 1].content)) == pending + Elements(AnswerIDs(b.buf)))
  }

  lemma NoElements(ids: seq<string>)
    ensures Elements(ids) == {} <==> ids == []
  {
    if ids != [] {
      assert ids[0] in Elements(ids);
    }
  }

  lemma WireSnoc(out: seq<Wire>, w: Wire)
    requires WireOK(out) && UserOK(w)
    requires out == [] && w.role.FromUser? ==> AnswerIDs(w.content) == []
    requires out != [] && out[|out| - 1].role.FromAssistant? ==> Answered(out[|out| - 1], w)
    requires out != [] && out[|out| - 1].role.FromUser? ==> w.role.FromAssistant?
    ensures WireOK(out + [w])
  {
    var all := out + [w];
    forall i | 0 < i < |all| ensures LinkOK(all, i) {
      if i < |out| {
        assert LinkOK(out, i);
      }
    }
  }

  lemma FlattenSnoc(out: seq<Wire>, w: Wire)
    ensures Flatten(out + [w]) == Flatten(out) + w.content
  {
    assert (out + [w])[..|out|] == out;
  }

  lemma NothingToFlush(b: Build)
    requires Standing(b, {}) && b.buf == []
    ensures EndsAnswered(b.out)
  {
    if b.out != [] {
      NoElements(UseIDs(b.out[|b.out| - 1].content));
      assert Elements(AnswerIDs(b.buf)) == {};
    }
  }

  lemma FlushStands(b: Build)
    requires Standing(b, {})
    ensures WireOK(Flush(b).out) && EndsAnswered(Flush(b).out)
  {
    if b.buf == [] {
      NothingToFlush(b);
    } else {
      WireSnoc(b.out, Wire(FromUser, b.buf));
    }
  }

  lemma FlushFlat(b: Build)
    ensures Flatten(Flush(b).out) == Flatten(b.out) + b.buf && Flush(b).buf == []
  {
    if b.buf == [] {
      assert Flatten(b.out) + b.buf == Flatten(b.out);
    } else {
      FlattenSnoc(b.out, Wire(FromUser, b.buf));
    }
  }

  lemma UserStands(b: Build, blocks: seq<Block>)
    requires Standing(b, {}) && NoResults(blocks)
    ensures Standing(Build(b.out, b.buf + blocks), {})
  {
    SortedBlocks(blocks);
    IDsConcat(b.buf, blocks);
    assert AnswerIDs(b.buf) + [] == AnswerIDs(b.buf);
  }

  // Answering some of what is pending, with IDs used by none before.
  lemma AnswersMove(pending: set<string>, used: set<string>, before: seq<string>, more: seq<string>)
    requires Distinct(before) && Elements(before) !! pending && used == pending + Elements(before)
    requires Answers(pending, more)
    ensures
      var left := pending - Elements(more);
      && Distinct(before + more) && Elements(before + more) !! left && used == left + Elements(before + more)
  {
    DistinctConcat(before, more);
    assert pending == (pending - Elements(more)) + Elements(more);
  }

  lemma ToolStands(b: Build, pending: set<string>, blocks: seq<Block>)
    requires Standing(b, pending) && AllResults(blocks) && pending != {} && Answers(pending, AnswerIDs(blocks))
    ensures Standing(Build(b.out, b.buf + blocks), pending - Elements(AnswerIDs(blocks)))
  {
    IDsConcat(b.buf, blocks);
    AnswersMove(pending, Elements(UseIDs(b.out[|b.out| - 1].content)), AnswerIDs(b.buf), AnswerIDs(blocks));
  }

  lemma TurnStands(out: seq<Wire>, blocks: seq<Block>)
    requires WireOK(out) && EndsAnswered(out) && Distinct(UseIDs(blocks))
    ensures Standing(Build(out + [Wire(FromAssistant, blocks)], []), Elements(UseIDs(blocks)))
  {
    var w := Wire(FromAssistant, blocks);
    WireSnoc(out, w);
    assert (out + [w])[|out|] == w;
    assert Elements<string>([]) == {};
  }

  lemma AssistantStands(b: Build, blocks: seq<Block>)
    requires Standing(b, {}) && Distinct(UseIDs(blocks))
    ensures Standing(Build(Flush(b).out + [Wire(FromAssistant, blocks)], []), Elements(UseIDs(blocks)))
  {
    FlushStands(b);
    TurnStands(Flush(b).out, blocks);
  }

  // Translating a message appends its blocks to what is on the wire.
  lemma AddFlat(b: Build, before: seq<Block>, role: Role, blocks: seq<Block>)
    requires Flatten(b.out) + b.buf == before
    requires if role.Assistant? then Others(blocks) == blocks else Results(blocks) + Others(blocks) == blocks
    ensures
      var after := Add(b, role, blocks);
      Flatten(after.out) + after.buf == before + blocks
  {
    var after := Add(b, role, blocks);
    if role.Assistant? {
      FlushFlat(b);
      FlattenSnoc(Flush(b).out, Wire(FromAssistant, blocks));
      assert Flatten(after.out) + [] == Flatten(after.out);
    } else {
      assert b.buf + Results(blocks) + Others(blocks) == b.buf + (Results(blocks) + Others(blocks));
      assert Flatten(b.out) + (b.buf + blocks) == (Flatten(b.out) + b.buf) + blocks;
    }
  }

  // The validator's step, said of a message's blocks.
  lemma StepOfBlocks(pending: set<string>, m: Message, blocks: seq<Block>)
    requires Step(pending, m).Some?
    requires UseIDs(blocks) == CallIDs(m.content) && AnswerIDs(blocks) == ResultIDs(m.content)
    ensures m.role.Assistant? ==>
              pending == {} && Distinct(UseIDs(blocks)) && Step(pending, m).value == Elements(UseIDs(blocks))
    ensures m.role.User? ==> pending == {} && Step(pending, m).value == {}
    ensures m.role.Tool? ==>
              pending != {} && Answers(pending, AnswerIDs(blocks))
                  && Step(pending, m).value == pending - Elements(AnswerIDs(blocks))
    ensures Legal(m) && !m.role.OtherRole?
  {
    if m.role.Tool? {
      SomeResult(m);
      assert ResultIDs(m.content)[0] in Elements(ResultIDs(m.content));
    }
  }

  // One message translated: the wire stands where the validator does.
  lemma AddStands(b: Build, before: set<string>, after: set<string>, role: Role, blocks: seq<Block>)
    requires Standing(b, before)
    requires role.Assistant? ==>
              before == {} && Distinct(UseIDs(blocks)) && after == Elements(UseIDs(blocks)) && Others(blocks) == blocks
    requires role.User? ==> before == {} && after == {} && NoResults(blocks)
    requires role.Tool? ==>
              before != {} && Answers(before, AnswerIDs(blocks)) && after == before - Elements(AnswerIDs(blocks))
                  && AllResults(blocks)
    requires !role.Assistant? ==> Results(blocks) + Others(blocks) == blocks
    requires !role.OtherRole?
    ensures Standing(Add(b, role, blocks), after)
  {
    assert b.buf + Results(blocks) + Others(blocks) == b.buf + (Results(blocks) + Others(blocks));
    match role
    case Assistant => AssistantStands(b, blocks);
    case User => UserStands(b, blocks);
    case Tool => ToolStands(b, before, blocks);
  }

  lemma {:induction false} ConvertStands(msgs: seq<Message>, skip: nat, decode: Decode)
    requires Scan({}, msgs).Some? && AllMessagesConvertible(msgs, decode)
    ensures Standing(Convert(msgs, skip, decode), Scan({}, msgs).value)
  {
    if msgs == [] {
    } else {
      var front, m := msgs[..|msgs| - 1], msgs[|msgs| - 1];
      assert msgs == front + [m] && m in msgs && MessageConvertible(m, decode);
      ScanSnoc({}, front, m);
      ConvertStands(front, skip, decode);
      var pending, blocks := Scan({}, front).value, Blocks(m.content, Marks(AllParts(front)), skip, decode);
      BlocksMatch(m.content, Marks(AllParts(front)), skip, decode);
      StepOfBlocks(pending, m, blocks);
      MessageSorted(m, Marks(AllParts(front)), skip, decode);
      SortedBlocks(blocks);
      AddStands(Convert(front, skip, decode), pending, Step(pending, m).value, m.role, blocks);
    }
  }

  lemma FlatStep(front: seq<Message>, m: Message, b: Build, skip: nat, decode: Decode)
    requires AllConvertible(AllParts(front), decode) && AllConvertible(m.content, decode) && Legal(m)
    requires Flatten(b.out) + b.buf == Blocks(AllParts(front), 0, skip, decode)
    ensures
      var after := Add(b, m.role, Blocks(m.content, Marks(AllParts(front)), skip, decode));
      var parts := AllParts(front) + m.content;
      AllConvertible(parts, decode) && Flatten(after.out) + after.buf == Blocks(parts, 0, skip, decode)
  {
    var blocks := Blocks(m.content, Marks(AllParts(front)), skip, decode);
    MessageSorted(m, Marks(AllParts(front)), skip, decode);
    SortedBlocks(blocks);
    var before := Blocks(AllParts(front), 0, skip, decode);
    AddFlat(b, before, m.role, blocks);
    BlocksConcat(AllParts(front), m.content, 0, Marks(AllParts(front)), skip, decode);
  }

  // The wire, flattened, is one block per part of the conversation, in order.
  lemma {:induction false} ConvertFlat(msgs: seq<Message>, skip: nat, decode: Decode)
    requires AllMessagesConvertible(msgs, decode) && forall m :: m in msgs ==> Legal(m)
    ensures AllConvertible(AllParts(msgs), decode)
    ensures Flatten(Convert(msgs, skip, decode).out) + Convert(msgs, skip, decode).buf ==
        Blocks(AllParts(msgs), 0, skip, decode)
  {
    if msgs == [] {
    } else {
      var front, m := msgs[..|msgs| - 1], msgs[|msgs| - 1];
      assert msgs == front + [m] && m in msgs && MessageConvertible(m, decode);
      ConvertFlat(front, skip, decode);
      FlatStep(front, m, Convert(front, skip, decode), skip, decode);
    }
  }

  // For every transcript the validator accepts and the adapter converts: the
  // wire starts with a user message and alternates, results come first, each
  // assistant turn's calls are answered at once and exactly, and nothing is
  // lost or reordered.
  lemma TranslationOK(req: seq<Message>, skip: nat, decode: Decode)
    requires Valid(req) && Wires(req, skip, decode).Some?
    ensures
      var out := Wires(req, skip, decode).value;
      var parts := AllParts(ReasoningFrom(PROVIDER, req));
      && out != [] && out[0].role.FromUser? && WireOK(out) && EndsAnswered(out)
      && AllConvertible(parts, decode) && Flatten(out) == Blocks(parts, 0, skip, decode)
  {
    var msgs := ReasoningFrom(PROVIDER, req);
    FilterKeepsValid(req, OfProvider(PROVIDER));
    ScanAllLegal({}, msgs);
    ConvertStands(msgs, skip, decode);
    ConvertFlat(msgs, skip, decode);
    FlushStands(Convert(msgs, skip, decode));
    FlushFlat(Convert(msgs, skip, decode));
  }

  // ---------- Exactly when a valid transcript converts ----------

  lemma {:induction false} PartsOfMessages(msgs: seq<Message>, decode: Decode)
    ensures AllConvertible(AllParts(msgs), decode) <==> forall m :: m in msgs ==> AllConvertible(m.content, decode)
  {
    if msgs != [] {
      var front, last := msgs[..|msgs| - 1], msgs[|msgs| - 1];
      PartsOfMessages(front, decode);
      assert msgs == front + [last];
      var parts := AllParts(front);
      assert forall p :: p in parts + last.content <==> p in parts || p in last.content;
    }
  }

  lemma LegalHasReply(m: Message)
    requires Legal(m) && m.role.Assistant?
    ensures HasReply(m.content)
  {
    var i :| 0 <= i < |m.content| && !m.content[i].ReasoningPart?;
    assert PartLegal(m.role, m.content[i]);
    assert m.content[i] in m.content;
  }

  lemma {:induction false} ScanAllLegal(pending: set<string>, msgs: seq<Message>)
    requires Scan(pending, msgs).Some?
    ensures forall m :: m in msgs ==> Legal(m) && !m.role.OtherRole?
    decreases |msgs|
  {
    if msgs != [] {
      ScanAllLegal(Step(pending, msgs[0]).value, msgs[1..]);
      assert msgs == [msgs[0]] + msgs[1..];
    }
  }

  lemma {:induction false} FirstWire(msgs: seq<Message>, skip: nat, decode: Decode)
    requires msgs != [] && AllMessagesConvertible(msgs, decode) && msgs[0].content != [] && !msgs[0].role.Tool?
    requires forall m :: m in msgs ==> Legal(m)
    ensures
      var b := Convert(msgs, skip, decode);
      if msgs[0].role.Assistant? then b.out != [] && b.out[0].role.FromAssistant?
      else if b.out == [] then b.buf != [] else b.out[0].role.FromUser?
  {
    var front, m := msgs[..|msgs| - 1], msgs[|msgs| - 1];
    assert msgs == front + [m] && m in msgs;
    MessageSorted(m, Marks(AllParts(front)), skip, decode);
    if front != [] {
      assert front[0] == msgs[0];
      FirstWire(front, skip, decode);
    }
  }

  // A valid transcript converts exactly when it starts with a user message
  // and, after other providers' reasoning is dropped, every part converts.
  lemma ConvertsExactlyWhen(req: seq<Message>, skip: nat, decode: Decode)
    requires Valid(req)
    ensures Wires(req, skip, decode).Some? <==>
            req[0].role.User? && AllConvertible(AllParts(ReasoningFrom(PROVIDER, req)), decode)
  {
    var msgs := ReasoningFrom(PROVIDER, req);
    FilterKeepsValid(req, OfProvider(PROVIDER));
    ScanAllLegal({}, msgs);
    PartsOfMessages(msgs, decode);
    forall m | m in msgs ensures MessageConvertible(m, decode) <==> AllConvertible(m.content, decode) {
      if m.role.Assistant? {
        LegalHasReply(m);
      }
    }
    assert msgs[0].role == req[0].role && msgs[0] in msgs;
    if msgs[0].role.Tool? {
      SomeResult(msgs[0]);
    }
    if AllMessagesConvertible(msgs, decode) {
      FirstWire(msgs, skip, decode);
    }
  }

  // ---------- Cache markers ----------

  function CachedCount(blocks: seq<Block>): nat {
    if blocks == [] then 0
    else
      var front, last := CachedCount(blocks[..|blocks| - 1]), blocks[|blocks| - 1];
      if last.TextBlock? && last.cached then front + 1 else front
  }

  lemma {:induction false} CachedConcat(a: seq<Block>, b: seq<Block>)
    ensures CachedCount(a + b) == CachedCount(a) + CachedCount(b)
  {
    if b == [] {
      assert a + b == a;
    } else {
      var front := b[..|b| - 1];
      CachedConcat(a, front);
      assert (a + b)[..|a + b| - 1] == a + front;
    }
  }

  lemma CachedSnoc(blocks: seq<Block>, block: Block)
    ensures CachedCount(blocks + [block]) == CachedCount(blocks) + if block.TextBlock? && block.cached then 1 else 0
  {
    assert (blocks + [block])[..|blocks|] == blocks;
  }

  lemma {:induction false} SortingKeepsCached(blocks: seq<Block>)
    ensures CachedCount(Results(blocks)) == 0 && CachedCount(Others(blocks)) == CachedCount(blocks)
  {
    if blocks != [] {
      var front, last := blocks[..|blocks| - 1], blocks[|blocks| - 1];
      SortingKeepsCached(front);
      if last.ToolResultBlock? {
        CachedSnoc(Results(front), last);
      } else {
        CachedSnoc(Others(front), last);
      }
    }
  }

  // The honored markers of a run of parts, counted.
  lemma {:induction false} CachedBlocks(parts: seq<Part>, seen: nat, skip: nat, decode: Decode)
    requires AllConvertible(parts, decode)
    ensures CachedCount(Blocks(parts, seen, skip, decode)) ==
            if seen >= skip then Marks(parts) else if seen + Marks(parts) >= skip then seen + Marks(parts) - skip else 0
  {
    if parts != [] {
      CachedBlocks(parts[..|parts| - 1], seen, skip, decode);
    }
  }

  // Whatever the transcript, the markers emitted are those of all its parts.
  lemma {:induction false} ConvertCached(msgs: seq<Message>, skip: nat, decode: Decode)
    requires AllMessagesConvertible(msgs, decode)
    ensures
      var b := Convert(msgs, skip, decode);
      CachedCount(Flatten(b.out) + b.buf) == if Marks(AllParts(msgs)) >= skip then Marks(AllParts(msgs)) - skip else 0
  {
    if msgs == [] {
    } else {
      var front, m := msgs[..|msgs| - 1], msgs[|msgs| - 1];
      assert msgs == front + [m] && m in msgs && MessageConvertible(m, decode);
      ConvertCached(front, skip, decode);
      var before, seen := Convert(front, skip, decode), Marks(AllParts(front));
      var blocks := Blocks(m.content, seen, skip, decode);
      MarksConcat(AllParts(front), m.content);
      CachedBlocks(m.content, seen, skip, decode);
      SortingKeepsCached(blocks);
      AddCached(before, m.role, blocks);
    }
  }

  lemma FlushCached(b: Build)
    ensures Flatten(Flush(b).out) + Flush(b).buf == Flatten(b.out) + b.buf
  {
    if b.buf != [] {
      assert Flush(b).out[..|b.out|] == b.out;
    }
  }

  lemma AddCached(b: Build, role: Role, blocks: seq<Block>)
    ensures
      var after := Add(b, role, blocks);
      CachedCount(Flatten(after.out) + after.buf) == CachedCount(Flatten(b.out) + b.buf) + CachedCount(Others(blocks))
        + if role.Assistant? then 0 else CachedCount(Results(blocks))
  {
    var after := Add(b, role, blocks);
    if role.Assistant? {
      FlushCached(b);
      assert after.out[..|after.out| - 1] == Flush(b).out;
      var all := Flatten(b.out) + b.buf;
      assert Flatten(Flush(b).out) + Flush(b).buf == Flatten(Flush(b).out);
      assert Flatten(after.out) + after.buf == all + Others(blocks);
      CachedConcat(all, Others(blocks));
    } else {
      var all := Flatten(b.out) + b.buf;
      assert Flatten(after.out) + after.buf == all + (Results(blocks) + Others(blocks));
      CachedConcat(all, Results(blocks) + Others(blocks));
      CachedConcat(Results(blocks), Others(blocks));
    }
  }

  lemma {:induction false} MarksFiltered(parts: seq<Part>, keep: Keep)
    ensures Marks(FilterParts(parts, keep)) == Marks(parts)
  {
    if parts != [] {
      var front, last := parts[..|parts| - 1], parts[|parts| - 1];
      MarksFiltered(front, keep);
      assert parts == front + [last] && [last][1..] == [];
      FilterPartsConcat(front, [last], keep);
      MarksConcat(FilterParts(front, keep), FilterParts([last], keep));
    }
  }

  // Filtering reasoning leaves the marked parts alone.
  lemma {:induction false} MarksOfFiltered(msgs: seq<Message>, keep: Keep)
    ensures Marks(AllParts(Filter(msgs, keep))) == Marks(AllParts(msgs))
  {
    if msgs != [] {
      var front, last := msgs[..|msgs| - 1], msgs[|msgs| - 1];
      MarksOfFiltered(front, keep);
      assert Filter(msgs, keep)[..|msgs| - 1] == Filter(front, keep);
      MarksFiltered(last.content, keep);
      MarksConcat(AllParts(Filter(front, keep)), FilterParts(last.content, keep));
      MarksConcat(AllParts(front), last.content);
    }
  }

  method CountContentBreakpoints(msgs: seq<Message>) returns (n: nat)
    ensures n == Marks(AllParts(msgs))
  {
    n := 0;
    for i := 0 to |msgs|
      invariant n == Marks(AllParts(msgs[..i]))
    {
      for j := 0 to |msgs[i].content|
        invariant n == Marks(AllParts(msgs[..i])) + Marks(msgs[i].content[..j])
      {
        assert msgs[i].content[..j + 1][..j] == msgs[i].content[..j];
        if Marked(msgs[i].content[j]) {
          n := n + 1;
        }
      }
      assert msgs[i].content[..|msgs[i].content|] == msgs[i].content;
      assert msgs[..i + 1][..i] == msgs[..i];
      MarksConcat(AllParts(msgs[..i]), msgs[i].content);
    }
    assert msgs[..|msgs|] == msgs;
  }

  // The system text, or None when a part is not text.
  function SystemText(parts: seq<Part>): Option<string> {
    if parts == [] then Some("")
    else match SystemText(parts[..|parts| - 1])
      case None => None
      case Some(text) =>
        var p := parts[|parts| - 1];
        if !p.Text? then None else Some((if |text| > 0 then text + "\n\n" else text) + p.text)
  }

  predicate SystemHasBreakpoint(parts: seq<Part>) {
    exists p :: p in parts && p.Text? && p.cacheBreakpoint
  }

  function Budget(system: seq<Part>): nat {
    if SystemHasBreakpoint(system) then MAX_CACHE_BREAKPOINTS - 1 else MAX_CACHE_BREAKPOINTS
  }

  function Skip(system: seq<Part>, msgs: seq<Message>): nat {
    var n := Marks(AllParts(msgs));
    if n > Budget(system) then n - Budget(system) else 0
  }

  // The part of a request this model builds: whether the system block is
  // marked, and the messages.
  datatype Params = Params(systemMarked: bool, messages: seq<Wire>)

  // ---------- Which markers are honored, on the wire ----------

  // The text blocks of a block list and the text parts of a part list, in order.
  function Texts(blocks: seq<Block>): seq<Block> {
    if blocks == [] then []
    else
      var front, last := Texts(blocks[..|blocks| - 1]), blocks[|blocks| - 1];
      if last.TextBlock? then front + [last] else front
  }

  function TextParts(parts: seq<Part>): (r: seq<Part>)
    ensures forall p :: p in r ==> p.Text?
  {
    if parts == [] then []
    else
      var front, last := TextParts(parts[..|parts| - 1]), parts[|parts| - 1];
      if last.Text? then front + [last] else front
  }

  lemma {:induction false} TextsConcat(a: seq<Block>, b: seq<Block>)
    ensures Texts(a + b) == Texts(a) + Texts(b)
  {
    if b == [] {
      assert a + b == a;
    } else {
      var front, last := b[..|b| - 1], b[|b| - 1];
      TextsConcat(a, front);
      assert (a + b)[..|a + b| - 1] == a + front;
      if last.TextBlock? {
        Associative(Texts(a), Texts(front), [last]);
      }
    }
  }

  lemma {:induction false} TextPartsConcat(a: seq<Part>, b: seq<Part>)
    ensures TextParts(a + b) == TextParts(a) + TextParts(b)
  {
    if b == [] {
      assert a + b == a;
    } else {
      var front, last := b[..|b| - 1], b[|b| - 1];
      TextPartsConcat(a, front);
      assert (a + b)[..|a + b| - 1] == a + front;
      if last.Text? {
        Associative(TextParts(a), TextParts(front), [last]);
      }
    }
  }

  lemma TextsSnoc(blocks: seq<Block>, block: Block)
    ensures Texts(blocks + [block]) == if block.TextBlock? then Texts(blocks) + [block] else Texts(blocks)
  {
    assert (blocks + [block])[..|blocks|] == blocks;
  }

  // Sorting results to the front leaves the texts and their order alone.
  lemma {:induction false} SortingKeepsTexts(blocks: seq<Block>)
    ensures Texts(Results(blocks)) == [] && Texts(Others(blocks)) == Texts(blocks)
  {
    if blocks != [] {
      var front, last := blocks[..|blocks| - 1], blocks[|blocks| - 1];
      SortingKeepsTexts(front);
      if last.ToolResultBlock? {
        TextsSnoc(Results(front), last);
      } else {
        TextsSnoc(Others(front), last);
      }
    }
  }

  // The texts of the wire messages so far and of what is still buffered.
  function BuiltTexts(b: Build): seq<Block> {
    Texts(Flatten(b.out)) + Texts(b.buf)
  }

  lemma FlushTexts(b: Build)
    ensures BuiltTexts(Flush(b)) == BuiltTexts(b) && Flush(b).buf == []
  {
    FlushFlat(b);
    TextsConcat(Flatten(b.out), b.buf);
  }

  lemma AddTexts(b: Build, role: Role, blocks: seq<Block>)
    ensures BuiltTexts(Add(b, role, blocks)) == BuiltTexts(b) + Texts(blocks)
  {
    SortingKeepsTexts(blocks);
    if role.Assistant? {
      FlushTexts(b);
      FlattenSnoc(Flush(b).out, Wire(FromAssistant, Others(blocks)));
      TextsConcat(Flatten(Flush(b).out), Others(blocks));
    } else {
      TextsConcat(b.buf + Results(blocks), Others(blocks));
      TextsConcat(b.buf, Results(blocks));
      Associative(Texts(Flatten(b.out)), Texts(b.buf), Texts(blocks));
    }
  }

  // Whatever the transcript, valid or not, the texts built are those of its
  // parts, in order.
  lemma {:induction false} ConvertTexts(msgs: seq<Message>, skip: nat, decode: Decode)
    requires AllMessagesConvertible(msgs, decode)
    ensures AllConvertible(AllParts(msgs), decode)
    ensures BuiltTexts(Convert(msgs, skip, decode)) == Texts(Blocks(AllParts(msgs), 0, skip, decode))
  {
    if msgs != [] {
      var front, m := msgs[..|msgs| - 1], msgs[|msgs| - 1];
      assert m in msgs && MessageConvertible(m, decode);
      ConvertTexts(front, skip, decode);
      var seen := Marks(AllParts(front));
      var blocks := Blocks(m.content, seen, skip, decode);
      AddTexts(Convert(front, skip, decode), m.role, blocks);
      BlocksConcat(AllParts(front), m.content, 0, seen, skip, decode);
      TextsConcat(Blocks(AllParts(front), 0, skip, decode), blocks);
    }
  }

  // The block of the i-th text part: its text, cached when it is marked and
  // past the markers skipped.
  predicate HonorsFrom(texts: seq<Block>, parts: seq<Part>, seen: nat, skip: nat)
    requires forall p :: p in parts ==> p.Text?
  {
    && |texts| == |parts|
    && forall i :: 0 <= i < |parts| ==>
          texts[i] == TextBlock(parts[i].text, Marked(parts[i]) && seen + Marks(parts[..i]) >= skip)
  }

  lemma {:induction false} MarksOfTexts(parts: seq<Part>)
    ensures Marks(TextParts(parts)) == Marks(parts)
  {
    if parts != [] {
      var front, last := parts[..|parts| - 1], parts[|parts| - 1];
      MarksOfTexts(front);
      if last.Text? {
        assert TextParts(parts)[..|TextParts(parts)| - 1] == TextParts(front);
      }
    }
  }

  lemma HonorsOneMore(texts: seq<Block>, parts: seq<Part>, p: Part, seen: nat, skip: nat)
    requires (forall q :: q in parts ==> q.Text?) && p.Text? && HonorsFrom(texts, parts, seen, skip)
    ensures forall q :: q in parts + [p] ==> q.Text?
    ensures HonorsFrom(texts + [TextBlock(p.text, Marked(p) && seen + Marks(parts) >= skip)], parts + [p], seen, skip)
  {
    var all, more := parts + [p], texts + [TextBlock(p.text, Marked(p) && seen + Marks(parts) >= skip)];
    forall i | 0 <= i < |all| ensures more[i] ==
        TextBlock(all[i].text, Marked(all[i]) && seen + Marks(all[..i]) >= skip) {
      if i < |parts| {
        assert all[..i] == parts[..i] && all[i] == parts[i];
      } else {
        assert all[..i] == parts;
      }
    }
  }

  lemma {:induction false} BlocksHonor(parts: seq<Part>, seen: nat, skip: nat, decode: Decode)
    requires AllConvertible(parts, decode)
    ensures HonorsFrom(Texts(Blocks(parts, seen, skip, decode)), TextParts(parts), seen, skip)
  {
    if parts != [] {
      var front, last := parts[..|parts| - 1], parts[|parts| - 1];
      var blocks, block := Blocks(front, seen, skip, decode), BlockOf(last, seen + Marks(front) >= skip, decode);
      BlocksHonor(front, seen, skip, decode);
      TextsSnoc(blocks, block);
      MarksOfTexts(front);
      if last.Text? {
        HonorsOneMore(Texts(blocks), TextParts(front), last, seen, skip);
      }
    }
  }

  lemma {:induction false} TextsFiltered(parts: seq<Part>, keep: Keep)
    ensures TextParts(FilterParts(parts, keep)) == TextParts(parts)
  {
    if parts != [] {
      var front, last := parts[..|parts| - 1], parts[|parts| - 1];
      TextsFiltered(front, keep);
      assert parts == front + [last] && [last][1..] == [];
      FilterPartsConcat(front, [last], keep);
      TextPartsConcat(FilterParts(front, keep), FilterParts([last], keep));
      assert FilterParts([last], keep) == if Stays(last, keep) then [last] else [];
      TextPartsConcat([], [last]);
    }
  }

  // Filtering reasoning leaves the texts alone.
  lemma {:induction false} TextsOfFiltered(msgs: seq<Message>, keep: Keep)
    ensures TextParts(AllParts(Filter(msgs, keep))) == TextParts(AllParts(msgs))
  {
    if msgs != [] {
      var front, last := msgs[..|msgs| - 1], msgs[|msgs| - 1];
      TextsOfFiltered(front, keep);
      assert Filter(msgs, keep)[..|msgs| - 1] == Filter(front, keep);
      TextsFiltered(last.content, keep);
      TextPartsConcat(AllParts(Filter(front, keep)), FilterParts(last.content, keep));
      TextPartsConcat(AllParts(front), last.content);
    }
  }

  // The text blocks on the wire are the request's text parts in order, the
  // last budget marked ones cached.
  ghost predicate HonorsLast(texts: seq<Block>, parts: seq<Part>, budget: nat)
    requires forall p :: p in parts ==> p.Text?
  {
    && |texts| == |parts|
    && forall i :: 0 <= i < |parts| ==>
          texts[i] == TextBlock(parts[i].text, Marked(parts[i]) && Marks(parts[i..]) <= budget)
  }

  lemma HonorsAreLast(texts: seq<Block>, parts: seq<Part>, budget: nat)
    requires forall p :: p in parts ==> p.Text?
    requires HonorsFrom(texts, parts, 0, if Marks(parts) > budget then Marks(parts) - budget else 0)
    ensures HonorsLast(texts, parts, budget)
  {
    forall i | 0 <= i < |parts|
      ensures texts[i] == TextBlock(parts[i].text, Marked(parts[i]) && Marks(parts[i..]) <= budget)
    {
      MarksConcat(parts[..i], parts[i..]);
      assert parts[..i] + parts[i..] == parts;
    }
  }

  // For every request that converts, valid or not: across all messages and the
  // flushing and sorting between them, exactly the last min(n, budget) marked
  // text parts are honored on the wire.
  lemma HonoredAreLast(system: seq<Part>, req: seq<Message>, decode: Decode)
    requires Wires(req, Skip(system, req), decode).Some?
    ensures HonorsLast(Texts(Flatten(Wires(req, Skip(system, req), decode).value)), TextParts(AllParts(req)),
        Budget(system))
  {
    var msgs, skip := ReasoningFrom(PROVIDER, req), Skip(system, req);
    var b := Convert(msgs, skip, decode);
    ConvertTexts(msgs, skip, decode);
    FlushTexts(b);
    assert Texts(Flush(b).buf) == [];
    assert Texts(Flatten(Flush(b).out)) + [] == Texts(Flatten(Flush(b).out));
    BlocksHonor(AllParts(msgs), 0, skip, decode);
    TextsOfFiltered(req, OfProvider(PROVIDER));
    MarksOfTexts(AllParts(req));
    HonorsAreLast(Texts(Flatten(Flush(b).out)), TextParts(AllParts(req)), Budget(system));
  }

  // Never more markers than Anthropic accepts, whatever the request.
  method ToParams(system: seq<Part>, msgs: seq<Message>, decode: Decode) returns (res: Option<Params>)
    ensures res.Some? <==> SystemText(system).Some? && Wires(msgs, Skip(system, msgs), decode).Some?
    ensures res.Some? ==> res.value.messages == Wires(msgs, Skip(system, msgs), decode).value
    ensures res.Some? ==> (res.value.systemMarked <==> SystemHasBreakpoint(system) && SystemText(system).value != "")
    ensures res.Some? ==>
              CachedCount(Flatten(res.value.messages)) + (if res.value.systemMarked then 1 else 0)
                <= MAX_CACHE_BREAKPOINTS
    ensures res.Some? ==>
              var n := Marks(AllParts(msgs));
              CachedCount(Flatten(res.value.messages)) == if n <= Budget(system) then n else Budget(system)
    ensures res.Some? ==> HonorsLast(Texts(Flatten(res.value.messages)), TextParts(AllParts(msgs)), Budget(system))
  {
    var text := SystemText(system);
    if text.None? {
      return None;
    }
    var sysBP := SystemHasBreakpoint(system);
    var budget := MAX_CACHE_BREAKPOINTS;
    if sysBP {
      budget := budget - 1;
    }
    var n := CountContentBreakpoints(msgs);
    var skip := n - budget;
    if skip < 0 {
      skip := 0;
    }
    var cb := new CacheBudget(skip);
    var wires := BuildMessages(msgs, cb, decode);
    if wires.None? {
      return None;
    }
    assert skip == Skip(system, msgs);
    CachedWithinBudget(system, msgs, decode);
    HonoredAreLast(system, msgs, decode);
    return Some(Params(sysBP && text.value != "", wires.value));
  }

  // Exactly min(n, budget) content markers.
  lemma CachedWithinBudget(system: seq<Part>, msgs: seq<Message>, decode: Decode)
    requires Wires(msgs, Skip(system, msgs), decode).Some?
    ensures
      var n := Marks(AllParts(msgs));
      CachedCount(Flatten(Wires(msgs, Skip(system, msgs), decode).value)) ==
        if n <= Budget(system) then n else Budget(system)
  {
    WiresCached(msgs, Skip(system, msgs), decode);
  }

  lemma FlushedCached(b: Build)
    ensures CachedCount(Flatten(Flush(b).out)) == CachedCount(Flatten(b.out) + b.buf)
  {
    FlushCached(b);
    assert Flatten(Flush(b).out) + [] == Flatten(Flush(b).out);
  }

  lemma WiresCached(req: seq<Message>, skip: nat, decode: Decode)
    requires Wires(req, skip, decode).Some?
    ensures CachedCount(Flatten(Wires(req, skip, decode).value)) ==
            if Marks(AllParts(req)) >= skip then Marks(AllParts(req)) - skip else 0
  {
    var msgs := ReasoningFrom(PROVIDER, req);
    var b := Convert(msgs, skip, decode);
    ConvertCached(msgs, skip, decode);
    MarksOfFiltered(req, OfProvider(PROVIDER));
    FlushedCached(b);
  }
}
