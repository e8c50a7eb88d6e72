// llms/toolloop/run.go over llms/providers/anthropic/convert.go: a tool loop
// whose client is the Anthropic adapter. What of a reply goes back to the
// model, and which of the transcripts the loop sends the adapter converts.
module AnthropicRuns {
  import opened Messages
  import opened Validation
  import opened ReasoningFilter
  import Compact
  import A = Anthropic
  import T = ToolLoop

  // ---------- From the API's reply to a message ----------

  // The content blocks of an API response.
  datatype ReplyBlock =
    | Said(text: string)
    | Thought(thinking: string, signature: string)
    | RedactedThought(data: string)
    | Used(call: ToolCall)
    | OtherBlock(kind: string)

  // What a reasoning part's provider data holds: a thinking block's own fields.
  datatype ThinkingWire = ThinkingWire(kind: string, thinking: string, signature: string, data: string)

  const THINKING := "thinking"
  const REDACTED := "redacted_thinking"

  // Provider data as JSON text, and back.
  datatype Codec = Codec(marshal: ThinkingWire -> string, unmarshal: string -> Option<ThinkingWire>) {
    ghost predicate RoundTrips() {
      forall w :: unmarshal(marshal(w)) == Some(w)
    }

    // The block rebuilt from a part's provider data: one without a signature,
    // without data or of an unknown type is malformed.
    function Rebuild(data: string): Option<A.Thought> {
      match unmarshal(data)
      case None => None
      case Some(w) =>
        if w.kind == THINKING && w.signature != "" then Some(A.Signed(w.thinking, w.signature))
        else if w.kind == REDACTED && w.data != "" then Some(A.Redacted(w.data))
        else None
    }

    function Decode(): A.Decode {
      data => Rebuild(data)
    }

    function Capture(w: ThinkingWire): Part {
      ReasoningPart(Some(Reasoning(A.PROVIDER, marshal(w))))
    }
  }

  // The part a block becomes; blocks of other types become none.
  function PartOf(b: ReplyBlock, codec: Codec): Option<Part> {
    match b
    case Said(text) => Some(Text(text, false))
    case Thought(thinking, signature) => Some(codec.Capture(ThinkingWire(THINKING, thinking, signature, "")))
    case RedactedThought(data) => Some(codec.Capture(ThinkingWire(REDACTED, "", "", data)))
    case Used(call) => Some(CallPart(Some(call)))
    case OtherBlock(_) => None
  }

  function PartsOf(blocks: seq<ReplyBlock>, codec: Codec): seq<Part> {
    if blocks == [] then []
    else
      var front, last := PartsOf(blocks[..|blocks| - 1], codec), PartOf(blocks[|blocks| - 1], codec);
      if last.Some? then front + [last.value] else front
  }

  function UsedCalls(blocks: seq<ReplyBlock>): seq<ToolCall> {
    if blocks == [] then []
    else
      var front, last := UsedCalls(blocks[..|blocks| - 1]), blocks[|blocks| - 1];
      if last.Used? then front + [last.call] else front
  }

  lemma CallsSnoc(parts: seq<Part>, p: Part)
    ensures Calls(parts + [p]) == if p.CallPart? && p.call.Some? then Calls(parts) + [p.call.value] else Calls(parts)
  {
    if parts != [] {
      CallsSnoc(parts[1..], p);
      assert (parts + [p])[1..] == parts[1..] + [p];
    }
  }

  // The calls of the message are the tool uses of the reply, in order.
  lemma {:induction false} CallsOfReply(blocks: seq<ReplyBlock>, codec: Codec)
    ensures Calls(PartsOf(blocks, codec)) == UsedCalls(blocks)
  {
    if blocks != [] {
      var front, last := blocks[..|blocks| - 1], blocks[|blocks| - 1];
      CallsOfReply(front, codec);
      if PartOf(last, codec).Some? {
        CallsSnoc(PartsOf(front, codec), PartOf(last, codec).value);
      }
    }
  }

  // The reply as an assistant message, with its calls mirrored beside it.
  method ToResponse(blocks: seq<ReplyBlock>, usage: Usage, codec: Codec) returns (resp: T.ChatResponse)
    ensures resp == Response(blocks, usage, codec)
    ensures resp.toolCalls == Calls(resp.message.content)
  {
    var parts: seq<Part>, toolCalls: seq<ToolCall> := [], [];
    for i := 0 to |blocks|
      invariant parts == PartsOf(blocks[..i], codec)
      invariant toolCalls == UsedCalls(blocks[..i])
    {
      assert blocks[..i + 1][..i] == blocks[..i];
      match blocks[i] {
        case Said(text) => parts := parts + [Text(text, false)];
        case Thought(thinking, signature) =>
          parts := parts + [codec.Capture(ThinkingWire(THINKING, thinking, signature, ""))];
        case RedactedThought(data) => parts := parts + [codec.Capture(ThinkingWire(REDACTED, "", "", data))];
        case Used(call) =>
          toolCalls := toolCalls + [call];
          parts := parts + [CallPart(Some(call))];
        case OtherBlock(_) =>
      }
    }
    assert blocks[..|blocks|] == blocks;
    CallsOfReply(blocks, codec);
    resp := T.ChatResponse(Message(Assistant, parts), toolCalls, usage);
  }

  function Response(blocks: seq<ReplyBlock>, usage: Usage, codec: Codec): T.ChatResponse {
    T.ChatResponse(Message(Assistant, PartsOf(blocks, codec)), UsedCalls(blocks), usage)
  }

  // Such a response is one the loop can go on from exactly when its tool uses
  // have IDs, all different.
  lemma WellFormedExactlyWhen(blocks: seq<ReplyBlock>, usage: Usage, codec: Codec)
    ensures T.WellFormed(Response(blocks, usage, codec)) <==>
            Distinct(IDs(UsedCalls(blocks))) && forall b :: b in blocks && b.Used? ==> b.call.id != ""
  {
    var resp := Response(blocks, usage, codec);
    CallsOfReply(blocks, codec);
    CallIDsOfCalls(resp.message.content);
    LegalExactlyWhen(blocks, codec);
  }

  lemma {:induction false} LegalExactlyWhen(blocks: seq<ReplyBlock>, codec: Codec)
    ensures PartsLegal(Message(Assistant, PartsOf(blocks, codec))) <==>
            forall b :: b in blocks && b.Used? ==> b.call.id != ""
  {
    if blocks != [] {
      var front, last := blocks[..|blocks| - 1], blocks[|blocks| - 1];
      LegalExactlyWhen(front, codec);
      assert blocks == front + [last];
      var before, after := PartsOf(front, codec), PartsOf(blocks, codec);
      if PartOf(last, codec).Some? {
        assert after[..|before|] == before && after[|before|] == PartOf(last, codec).value;
        assert forall i :: 0 <= i < |before| ==> after[i] == before[i];
      }
    }
  }

  // ---------- What goes back to the model ----------

  // A block the API accepts again: no empty text, no thinking without a
  // signature or data.
  predicate Repeatable(b: ReplyBlock) {
    match b
    case Said(text) => text != ""
    case Thought(_, signature) => signature != ""
    case RedactedThought(data) => data != ""
    case _ => true
  }

  // The block sent for it in later requests.
  function Repeat(b: ReplyBlock): Option<A.Block> {
    match b
    case Said(text) => Some(A.TextBlock(text, false))
    case Thought(thinking, signature) => Some(A.Thinking(A.Signed(thinking, signature)))
    case RedactedThought(data) => Some(A.Thinking(A.Redacted(data)))
    case Used(call) => Some(A.ToolUse(call))
    case OtherBlock(_) => None
  }

  function RepeatAll(blocks: seq<ReplyBlock>): seq<A.Block> {
    if blocks == [] then []
    else
      var front, last := RepeatAll(blocks[..|blocks| - 1]), Repeat(blocks[|blocks| - 1]);
      if last.Some? then front + [last.value] else front
  }

  lemma PartRepeats(b: ReplyBlock, codec: Codec, honored: bool)
    requires codec.RoundTrips() && PartOf(b, codec).Some?
    ensures
      var p := PartOf(b, codec).value;
      && Stays(p, OfProvider(A.PROVIDER)) && !A.Marked(p)
      && (A.Convertible(p, codec.Decode()) <==> Repeatable(b))
      && (Repeatable(b) ==> Some(A.BlockOf(p, honored, codec.Decode())) == Repeat(b))
  {
  }

  // The assistant turn goes back as it came: its message survives the
  // reasoning filter whole, converts exactly when every block is repeatable,
  // and then is sent as the very blocks of the reply, in order, thinking
  // unchanged; blocks of other types are left out.
  lemma {:induction false} ReplyRoundTrip(blocks: seq<ReplyBlock>, codec: Codec, seen: nat, skip: nat)
    requires codec.RoundTrips()
    ensures
      var parts := PartsOf(blocks, codec);
      && FilterParts(parts, OfProvider(A.PROVIDER)) == parts
      && (A.AllConvertible(parts, codec.Decode()) <==> forall b :: b in blocks ==> Repeatable(b))
      && (A.AllConvertible(parts, codec.Decode()) ==>
            A.Blocks(parts, seen, skip, codec.Decode()) == RepeatAll(blocks))
  {
    if blocks != [] {
      var front, last := blocks[..|blocks| - 1], blocks[|blocks| - 1];
      ReplyRoundTrip(front, codec, seen, skip);
      assert blocks == front + [last];
      if PartOf(last, codec).Some? {
        var before, p := PartsOf(front, codec), PartOf(last, codec).value;
        PartRepeats(last, codec, seen + A.Marks(before) >= skip);
        FilterPartsConcat(before, [p], OfProvider(A.PROVIDER));
        assert [p][1..] == [] && FilterParts([p], OfProvider(A.PROVIDER)) == [p];
        assert (before + [p])[..|before|] == before;
        assert forall q :: q in before + [p] <==> q in before || q == p;
      }
    }
  }

  lemma {:induction false} RepeatsNoResults(blocks: seq<ReplyBlock>)
    ensures A.NoResults(RepeatAll(blocks))
  {
    if blocks != [] {
      RepeatsNoResults(blocks[..|blocks| - 1]);
    }
  }

  // So the translation sends the turn as one assistant message of just those
  // blocks, after whatever user-side blocks were waiting.
  lemma TurnSentBack(b: A.Build, blocks: seq<ReplyBlock>, codec: Codec, seen: nat, skip: nat)
    requires codec.RoundTrips() && forall b :: b in blocks ==> Repeatable(b)
    ensures A.AllConvertible(PartsOf(blocks, codec), codec.Decode())
    ensures A.Add(b, Assistant, A.Blocks(PartsOf(blocks, codec), seen, skip, codec.Decode())) ==
            A.Build(A.Flush(b).out + [A.Wire(A.FromAssistant, RepeatAll(blocks))], [])
  {
    ReplyRoundTrip(blocks, codec, seen, skip);
    RepeatsNoResults(blocks);
    A.OthersOnly(RepeatAll(blocks));
  }

  // ---------- Which transcripts convert ----------

  // Other providers' reasoning is dropped before the rest is converted.
  predicate PartConverts(p: Part, decode: A.Decode) {
    Stays(p, OfProvider(A.PROVIDER)) ==> A.Convertible(p, decode)
  }

  predicate PartsConvert(parts: seq<Part>, decode: A.Decode) {
    forall p :: p in parts ==> PartConverts(p, decode)
  }

  predicate Converts(msgs: seq<Message>, decode: A.Decode) {
    && msgs != [] && msgs[0].role.User?
    && forall i :: 0 <= i < |msgs| ==> PartsConvert(msgs[i].content, decode)
  }

  lemma FilteredConverts(parts: seq<Part>, decode: A.Decode)
    ensures A.AllConvertible(FilterParts(parts, OfProvider(A.PROVIDER)), decode) <==> PartsConvert(parts, decode)
  {
    FilterPartsMeaning(parts, OfProvider(A.PROVIDER));
  }

  // Of the valid transcripts these are exactly the ones the adapter accepts.
  lemma AcceptsExactlyWhen(req: seq<Message>, skip: nat, decode: A.Decode)
    requires Valid(req)
    ensures A.Wires(req, skip, decode).Some? <==> Converts(req, decode)
  {
    var msgs := ReasoningFrom(A.PROVIDER, req);
    A.ConvertsExactlyWhen(req, skip, decode);
    A.PartsOfMessages(msgs, decode);
    forall i | 0 <= i < |req|
      ensures A.AllConvertible(msgs[i].content, decode) <==> PartsConvert(req[i].content, decode)
    {
      FilteredConverts(req[i].content, decode);
    }
    assert forall i :: 0 <= i < |req| ==> msgs[i] in msgs;
  }

  // Appending a turn and its results keeps a transcript convertible exactly
  // when the turn's own parts convert; tool results always do.
  lemma AnsweredConverts(sent: seq<Message>, resp: T.ChatResponse, results: seq<ToolResult>, decode: A.Decode)
    requires sent != []
    ensures Converts(T.Answered(sent, resp, results), decode) <==>
            Converts(sent, decode) && PartsConvert(resp.message.content, decode)
  {
    var all := T.Answered(sent, resp, results);
    assert all[|sent|] == resp.message && all[|sent| + 1] == ToolResultMessage(results);
    assert forall i :: 0 <= i < |sent| ==> all[i] == sent[i];
    assert PartsConvert(ToolResultMessage(results).content, decode);
  }

  // ---------- Compaction ----------

  lemma SpanHead(msgs: seq<Message>, keep: int)
    requires msgs != [] && msgs[0].role.User?
    ensures Compact.SplitSpan(msgs, keep).head >= 1
  {
  }

  lemma KeptConverts(msgs: seq<Message>, keep: int, insert: seq<Message>, decode: A.Decode)
    requires Converts(msgs, decode) && forall m :: m in insert ==> PartsConvert(m.content, decode)
    ensures Converts(WithoutReasoning(Compact.SplitSpan(msgs, keep).Kept(msgs, insert)), decode)
  {
    var s := Compact.SplitSpan(msgs, keep);
    var kept := s.Kept(msgs, insert);
    SpanHead(msgs, keep);
    assert kept[0] == msgs[0];
    forall i | 0 <= i < |kept| ensures PartsConvert(WithoutReasoning(kept)[i].content, decode) {
      assert kept[i] in msgs || kept[i] in insert;
      FilterPartsMeaning(kept[i].content, DropAll());
    }
  }

  // The transcripts a custom hook hands back in a round convert.
  predicate HooksConvert(hook: T.Hook, round: T.Round, decode: A.Decode) {
    hook.Custom? ==> AnswerConverts(round.before, decode) && AnswerConverts(round.overflow, decode)
  }

  predicate AnswerConverts(answer: T.HookAnswer, decode: A.Decode) {
    answer.messages.Some? ==> Converts(answer.messages.value, decode)
  }

  // A built-in compactor keeps a transcript convertible.
  lemma HookConverts(hook: T.Hook, input: Compact.CompactInput, answer: T.HookAnswer, decode: A.Decode)
    requires Converts(input.messages, decode) && (hook.Custom? ==> AnswerConverts(answer, decode))
    ensures
      var said := T.HookSays(hook, input, answer).messages;
      said.Some? ==> Converts(said.value, decode)
  {
    match hook
    case KeepLastHook(turns, _) => KeptConverts(input.messages, turns, [], decode);
    case SummarizeHook(keepTurns, _) =>
      if answer.summary.Some? {
        KeptConverts(input.messages, keepTurns, [Compact.SummaryMessage(answer.summary.value)], decode);
      }
    case _ =>
  }

  // ---------- Whole runs ----------

  ghost predicate AllConvert(attempts: seq<seq<Message>>, decode: A.Decode) {
    forall k :: 0 <= k < |attempts| ==> Converts(attempts[k], decode)
  }

  lemma SendsFromConvert(hook: T.Hook, round: T.Round, first: seq<Message>, last: Usage, n: nat, spent: seq<Usage>,
      decode: A.Decode)
    requires Converts(first, decode) && HooksConvert(hook, round, decode)
    ensures AllConvert(T.SendsFrom(hook, round, first, last, n, spent).attempts, decode)
  {
    var input := Compact.CompactInput(Compact.Overflow, first, last);
    HookConverts(hook, input, round.overflow, decode);
    var msgs := T.Checked(T.HookSays(hook, input, round.overflow)).0;
    assert msgs.Some? ==> Converts(msgs.value, decode);
  }

  lemma SendsConvert(hook: T.Hook, round: T.Round, messages: seq<Message>, last: Usage, decode: A.Decode)
    requires Converts(messages, decode) && HooksConvert(hook, round, decode)
    ensures AllConvert(T.Sends(hook, round, messages, last).attempts, decode)
  {
    var input := Compact.CompactInput(Compact.BeforeTurn, messages, last);
    HookConverts(hook, input, round.before, decode);
    var before := T.HookSays(hook, input, round.before);
    var (msgs, cerr) := T.Checked(before);
    if cerr.None? {
      SendsFromConvert(hook, round, msgs.GetOr(messages), last, if msgs.Some? then 1 else 0, T.Spent(before), decode);
    }
  }

  // The replies of a round convert.
  predicate RepliesConvert(round: T.Round, decode: A.Decode) {
    && (round.first.Reply? ==> PartsConvert(round.first.resp.message.content, decode))
    && (round.second.Reply? ==> PartsConvert(round.second.resp.message.content, decode))
  }

  // An iteration the loop goes on after leaves what it sent, answered.
  lemma GoesOnAnswered(cfg: T.Config, round: T.Round, s: T.Standing)
    requires T.Iteration(cfg, round, s).out.None?
    ensures
      var t := T.Iteration(cfg, round, s);
      && t.sending.resp.Some? && t.sending.attempts != []
      && T.RunTools(cfg.tools, t.sending.resp.value.toolCalls, round.execs).Finished?
      && t.after.st.transcript == T.Answered(T.Reached(s.st.transcript, t.sending.attempts), t.sending.resp.value,
           T.RunTools(cfg.tools, t.sending.resp.value.toolCalls, round.execs).results)
  {
    T.SendsKeeps(cfg.hook, round, s.st.transcript, T.LastUsage(s.st));
  }

  lemma IterationConverts(cfg: T.Config, round: T.Round, s: T.Standing, decode: A.Decode)
    requires Converts(s.st.transcript, decode)
    requires HooksConvert(cfg.hook, round, decode) && RepliesConvert(round, decode)
    ensures
      var t := T.Iteration(cfg, round, s);
      && AllConvert(t.sending.attempts, decode)
      && (t.out.None? ==> Converts(t.after.st.transcript, decode))
  {
    var t := T.Iteration(cfg, round, s);
    SendsConvert(cfg.hook, round, s.st.transcript, T.LastUsage(s.st), decode);
    T.IterationSends(cfg, round, s);
    if t.out.None? {
      GoesOnAnswered(cfg, round, s);
      AnsweredConverts(T.Reached(s.st.transcript, t.sending.attempts), t.sending.resp.value,
        T.RunTools(cfg.tools, t.sending.resp.value.toolCalls, round.execs).results, decode);
    }
  }

  lemma {:induction false} RunConverts(cfg: T.Config, rounds: seq<T.Round>, turns: seq<T.Turn>, decode: A.Decode)
    requires T.IsRun(cfg, rounds, turns) && Converts(cfg.messages, decode)
    requires forall i :: 0 <= i < |rounds| ==>
               HooksConvert(cfg.hook, rounds[i], decode) && RepliesConvert(rounds[i], decode)
    ensures AllConvert(T.Sent(turns), decode)
    ensures T.Ended(turns).None? ==> Converts(T.StandingAfter(cfg, turns).st.transcript, decode)
  {
    if turns != [] {
      var n := |turns| - 1;
      T.RunPrefix(cfg, rounds, turns);
      RunConverts(cfg, rounds, turns[..n], decode);
      IterationConverts(cfg, rounds[n], T.StandingAfter(cfg, turns[..n]), decode);
    }
  }

  // The adapter's own reply to a round's call, every block repeatable.
  ghost predicate FromAdapter(attempt: T.Attempt, codec: Codec) {
    attempt.Reply? ==> exists blocks :: AdapterReply(attempt.resp, blocks, codec)
  }

  ghost predicate AdapterReply(resp: T.ChatResponse, blocks: seq<ReplyBlock>, codec: Codec) {
    resp == Response(blocks, resp.usage, codec) && forall b :: b in blocks ==> Repeatable(b)
  }

  lemma AdapterConverts(attempt: T.Attempt, codec: Codec)
    requires codec.RoundTrips() && FromAdapter(attempt, codec) && attempt.Reply?
    ensures PartsConvert(attempt.resp.message.content, codec.Decode())
  {
    var blocks :| AdapterReply(attempt.resp, blocks, codec);
    ReplyRoundTrip(blocks, codec, 0, 0);
  }

  // A loop over the Anthropic adapter never has a transcript of its own
  // rejected by it: from a valid request that converts, with the adapter's
  // replies, and compaction off, built in or handing back transcripts that
  // convert, the adapter accepts every transcript the loop sends.
  lemma RunAccepted(cfg: T.Config, rounds: seq<T.Round>, turns: seq<T.Turn>, codec: Codec, skip: nat)
    requires T.IsRun(cfg, rounds, turns) && Valid(cfg.messages) && T.WellFormedRounds(rounds)
    requires codec.RoundTrips() && Converts(cfg.messages, codec.Decode())
    requires forall i :: 0 <= i < |rounds| ==> HooksConvert(cfg.hook, rounds[i], codec.Decode())
    requires forall i :: 0 <= i < |rounds| ==>
               FromAdapter(rounds[i].first, codec) && FromAdapter(rounds[i].second, codec)
    ensures forall k :: 0 <= k < |T.Sent(turns)| ==> A.Wires(T.Sent(turns)[k], skip, codec.Decode()).Some?
  {
    forall i | 0 <= i < |rounds| ensures RepliesConvert(rounds[i], codec.Decode()) {
      if rounds[i].first.Reply? {
        AdapterConverts(rounds[i].first, codec);
      }
      if rounds[i].second.Reply? {
        AdapterConverts(rounds[i].second, codec);
      }
    }
    RunConverts(cfg, rounds, turns, codec.Decode());
    T.RunSendsValid(cfg, rounds, turns);
    forall k | 0 <= k < |T.Sent(turns)| ensures A.Wires(T.Sent(turns)[k], skip, codec.Decode()).Some? {
      AcceptsExactlyWhen(T.Sent(turns)[k], skip, codec.Decode());
    }
  }

  // ---------- Exactly when, without a hook ----------

  // The reply of each of the first n turns converts.
  ghost predicate RepliedConvert(turns: seq<T.Turn>, n: nat, decode: A.Decode)
    requires n <= |turns|
  {
    forall k :: 0 <= k < n ==>
      turns[k].sending.resp.Some? && PartsConvert(turns[k].sending.resp.value.message.content, decode)
  }

  lemma {:induction false} TranscriptConvertsExactlyWhen(
      cfg: T.Config, rounds: seq<T.Round>, turns: seq<T.Turn>, k: nat, decode: A.Decode)
    requires T.IsRun(cfg, rounds, turns) && cfg.hook.NoHook? && k < |turns| && cfg.messages != []
    ensures turns[k].before.st.transcript != []
    ensures Converts(turns[k].before.st.transcript, decode) <==>
            Converts(cfg.messages, decode) && RepliedConvert(turns, k, decode)
  {
    T.BeforeAt(cfg, rounds, turns, k);
    if k > 0 {
      var t := turns[k - 1];
      TranscriptConvertsExactlyWhen(cfg, rounds, turns, k - 1, decode);
      T.BeforeAt(cfg, rounds, turns, k - 1);
      T.SendsItsTranscript(cfg, rounds, turns, k - 1);
      assert T.StepAt(cfg, rounds, turns, k) && T.StepAt(cfg, rounds, turns, k - 1);
      GoesOnAnswered(cfg, rounds[k - 1], t.before);
      AnsweredConverts(t.before.st.transcript, t.sending.resp.value,
        T.RunTools(cfg.tools, t.sending.resp.value.toolCalls, rounds[k - 1].execs).results, decode);
    }
  }

  // Without a hook the adapter accepts the k-th transcript sent exactly when
  // the request and every reply before it convert: one reply that does not is
  // resent, and rejected, for the rest of the run.
  lemma SentAcceptedExactlyWhen(
      cfg: T.Config, rounds: seq<T.Round>, turns: seq<T.Turn>, k: nat, skip: nat, decode: A.Decode)
    requires T.IsRun(cfg, rounds, turns) && cfg.hook.NoHook? && k < |turns|
    requires Valid(cfg.messages) && T.WellFormedRounds(rounds)
    ensures |T.Sent(turns)| == |turns|
    ensures A.Wires(T.Sent(turns)[k], skip, decode).Some? <==>
            Converts(cfg.messages, decode) && RepliedConvert(turns, k, decode)
  {
    forall j | 0 <= j < |turns| ensures turns[j].sending.attempts == [turns[j].before.st.transcript] {
      T.SendsItsTranscript(cfg, rounds, turns, j);
    }
    T.SentAlone(turns);
    T.RunSendsValid(cfg, rounds, turns);
    TranscriptConvertsExactlyWhen(cfg, rounds, turns, k, decode);
    AcceptsExactlyWhen(T.Sent(turns)[k], skip, decode);
  }

  // A reply that is well formed, keeps the transcript valid, and is rejected
  // when it is sent back: empty text beside a tool use.
  function EmptyTextReply(): seq<ReplyBlock> {
    [Said(""), Used(ToolCall("id", "tool", "{}"))]
  }

  lemma EmptyTextIsWellFormed(codec: Codec)
    requires codec.RoundTrips()
    ensures
      var resp := Response(EmptyTextReply(), NO_USAGE, codec);
      && T.WellFormed(resp) && resp.toolCalls == [ToolCall("id", "tool", "{}")]
      && !PartsConvert(resp.message.content, codec.Decode())
  {
    var blocks, resp := EmptyTextReply(), Response(EmptyTextReply(), NO_USAGE, codec);
    assert blocks[..1] == [Said("")] && blocks[..1][..0] == [];
    assert UsedCalls(blocks[..1]) == [];
    WellFormedExactlyWhen(blocks, NO_USAGE, codec);
    ReplyRoundTrip(blocks, codec, 0, 0);
    FilteredConverts(resp.message.content, codec.Decode());
    assert !Repeatable(blocks[0]);
  }

  lemma EmptyTextRejected(codec: Codec, content: string, skip: nat)
    requires codec.RoundTrips()
    ensures
      var resp := Response(EmptyTextReply(), NO_USAGE, codec);
      var req := [UserText("question")];
      var next := T.Answered(req, resp, [ToolResult("id", content, false)]);
      && T.WellFormed(resp) && !T.IsEmpty(resp)
      && Valid(req) && A.Wires(req, skip, codec.Decode()).Some?
      && Valid(next) && A.Wires(next, skip, codec.Decode()).None?
  {
    var resp := Response(EmptyTextReply(), NO_USAGE, codec);
    var req, results := [UserText("question")], [ToolResult("id", content, false)];
    EmptyTextIsWellFormed(codec);
    QuestionIsValid(req);
    T.ReplyExtends(req, resp);
    T.ResultsAnswer(req + [resp.message], resp, results);
    AnsweredConverts(req, resp, results, codec.Decode());
    AcceptsExactlyWhen(req, skip, codec.Decode());
    AcceptsExactlyWhen(T.Answered(req, resp, results), skip, codec.Decode());
  }

  lemma QuestionIsValid(req: seq<Message>)
    requires req == [UserText("question")]
    ensures Valid(req) && Scan({}, req) == Some({})
  {
    assert !req[0].content[0].ReasoningPart?;
    ScanSnoc({}, [], req[0]);
    assert [] + [req[0]] == req;
  }
}
