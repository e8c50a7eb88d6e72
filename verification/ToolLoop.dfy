// llms/toolloop/run.go: the synchronous tool loop. What the provider, the
// executors, the compaction hook and the context do is a script of rounds, one
// per iteration of the loop, so every finite part of every run is a run of
// this model.
module ToolLoop {
  import opened Messages
  import opened Validation
  import Compact
  import ReasoningFilter

  // ---------- Errors and stops ----------

  datatype Ctx = Live | CtxCanceled | CtxDeadline

  // What errors.As and errors.Is can see in an error.
  datatype Error = Error(contextLength: bool, canceled: bool, deadline: bool, compaction: bool, config: bool)

  const PLAIN_ERROR := Error(false, false, false, false, false)

  datatype OutcomeKind =
    | FinalAnswer | EmptyResponse | TerminalTool | MaxIterations | LLMError
    | ContextExceeded | CompactionError | ToolError | Canceled | DeadlineReached

  // The loop's own context decides when it is done; otherwise a cancellation
  // error does, and anything else is the fallback.
  function ClassifyStop(ctx: Ctx, err: Error, fallback: OutcomeKind): (r: (OutcomeKind, Error))
    ensures ctx.CtxCanceled? ==> r.0 == Canceled && r.1.canceled
    ensures ctx.CtxDeadline? ==> r.0 == DeadlineReached && r.1.deadline
    ensures ctx.Live? ==> r == (if err.canceled then Canceled else fallback, err)
    ensures r.1.contextLength == err.contextLength && r.1.compaction == err.compaction
  {
    match ctx
    case CtxCanceled => (Canceled, err.(canceled := true))
    case CtxDeadline => (DeadlineReached, err.(deadline := true))
    case Live => if err.canceled then (Canceled, err) else (fallback, err)
  }

  function LLMErrorKind(err: Error): OutcomeKind {
    if err.contextLength then ContextExceeded else LLMError
  }

  // ---------- Usage ----------

  // A 64-bit signed sum.
  function Wrap(x: int): int {
    (x + 0x8000_0000_0000_0000) % 0x1_0000_0000_0000_0000 - 0x8000_0000_0000_0000
  }

  datatype UsageSum = UsageSum(total: Usage, contribs: nat)

  function AddUsage(sum: UsageSum, add: Usage): UsageSum {
    var t := sum.total;
    UsageSum(
      Usage(
        Wrap(t.inputTokens + add.inputTokens),
        Wrap(t.outputTokens + add.outputTokens),
        Wrap(t.totalTokens + add.totalTokens),
        Wrap(t.reasoningTokens + add.reasoningTokens),
        Wrap(t.billableOutputTokens + add.billableOutputTokens),
        Wrap(t.embeddingTokens + add.embeddingTokens),
        Wrap(t.cacheReadTokens + add.cacheReadTokens),
        Wrap(t.cacheWriteTokens + add.cacheWriteTokens),
        if sum.contribs == 0 then add.providerRequestID else ""),
      sum.contribs + 1)
  }

  datatype Field = Input | Output | Total | Thinking | Billable | Embedding | CacheRead | CacheWrite

  function Get(u: Usage, f: Field): int {
    match f
    case Input => u.inputTokens
    case Output => u.outputTokens
    case Total => u.totalTokens
    case Thinking => u.reasoningTokens
    case Billable => u.billableOutputTokens
    case Embedding => u.embeddingTokens
    case CacheRead => u.cacheReadTokens
    case CacheWrite => u.cacheWriteTokens
  }

  function SumOf(us: seq<Usage>, f: Field): int {
    if us == [] then 0 else SumOf(us[..|us| - 1], f) + Get(us[|us| - 1], f)
  }

  // total is the field-wise sum of us, with a request ID only for a single
  // contributor.
  ghost predicate TotalsTo(total: Usage, us: seq<Usage>) {
    && (forall f: Field :: Get(total, f) == Wrap(SumOf(us, f)))
    && total.providerRequestID == if |us| == 1 then us[0].providerRequestID else ""
  }

  lemma WrapAbsorbs(a: int, b: int)
    ensures Wrap(Wrap(a) + b) == Wrap(a + b)
  {
  }

  // Adding responses one at a time is summing them all.
  lemma AddUsageSums(sum: UsageSum, us: seq<Usage>, add: Usage)
    requires TotalsTo(sum.total, us) && sum.contribs == |us|
    ensures TotalsTo(AddUsage(sum, add).total, us + [add])
  {
    assert (us + [add])[..|us|] == us;
    forall f: Field ensures Get(AddUsage(sum, add).total, f) == Wrap(SumOf(us + [add], f)) {
      WrapAbsorbs(SumOf(us, f), Get(add, f));
      assert Get(sum.total, f) == Wrap(SumOf(us, f));
      assert Get(AddUsage(sum, add).total, f) == Wrap(Get(sum.total, f) + Get(add, f));
    }
  }

  function AddAll(sum: UsageSum, us: seq<Usage>): UsageSum {
    if us == [] then sum else AddUsage(AddAll(sum, us[..|us| - 1]), us[|us| - 1])
  }

  const START_USAGE := UsageSum(NO_USAGE, 0)

  // Adding them all from nothing is their sum.
  lemma {:induction false} AddAllSums(us: seq<Usage>)
    ensures TotalsTo(AddAll(START_USAGE, us).total, us) && AddAll(START_USAGE, us).contribs == |us|
  {
    if us != [] {
      var front, last := us[..|us| - 1], us[|us| - 1];
      AddAllSums(front);
      AddUsageSums(AddAll(START_USAGE, front), front, last);
      assert front + [last] == us;
    }
  }

  lemma AddOne(sum: UsageSum, u: Usage)
    ensures AddAll(sum, [u]) == AddUsage(sum, u)
  {
    assert [u][..0] == [];
  }

  lemma {:induction false} AddAllConcat(sum: UsageSum, a: seq<Usage>, b: seq<Usage>)
    ensures AddAll(AddAll(sum, a), b) == AddAll(sum, a + b)
  {
    if b == [] {
      assert a + b == a;
    } else {
      var front := b[..|b| - 1];
      AddAllConcat(sum, a, front);
      assert (a + b)[..|a + b| - 1] == a + front;
    }
  }

  // ---------- The environment of a run ----------

  datatype ChatResponse = ChatResponse(message: Message, toolCalls: seq<ToolCall>, usage: Usage)

  datatype Attempt = Reply(resp: ChatResponse) | Fail(err: Error)

  // A tool executor's answer, and the context when it returned.
  datatype ExecResult = ExecResult(content: string, isError: bool, stop: bool)
  datatype Exec = Exec(result: ExecResult, err: Option<Error>, ctx: Ctx)

  // A compaction hook's answer: a custom hook decides all of it, Summarize
  // only takes the summarizer's text, error and usage from it.
  datatype HookAnswer = HookAnswer(
    messages: Option<seq<Message>>, summary: Option<string>, usage: Usage, err: Option<Error>, ctx: Ctx)

  // One iteration: the before-turn hook, the call, the overflow hook, the
  // retry and the executors, each with the context's state afterwards.
  datatype Round = Round(
    before: HookAnswer,
    first: Attempt, firstCtx: Ctx,
    overflow: HookAnswer,
    second: Attempt, secondCtx: Ctx,
    execs: nat -> Exec)

  datatype Hook = NoHook | Custom | KeepLastHook(turns: nat, atTokens: nat) | SummarizeHook(keepTurns: nat, at: nat)

  datatype ToolChoiceType = Unset | Auto | NoTools | Required | Named | Unknown(kind: string)
  datatype ToolChoice = ToolChoice(kind: ToolChoiceType, name: string) {
    predicate IsZero() { kind.Unset? && name == "" }
    predicate RequiresTools() { kind.Required? || kind.Named? }
  }

  datatype ToolDef = ToolDef(name: string, executes: bool)

  datatype Config = Config(
    hasClient: bool, messages: seq<Message>, requestTools: nat, requestChoice: ToolChoice,
    choice: ToolChoice, tools: seq<ToolDef>, hook: Hook, maxIterations: int)

  // ---------- Configuration ----------

  function EffectiveChoice(cfg: Config): ToolChoice {
    var c := if cfg.choice.IsZero() then cfg.requestChoice else cfg.choice;
    if c.IsZero() then ToolChoice(Auto, "") else c
  }

  predicate ToolNamesOK(tools: seq<ToolDef>) {
    && (forall i :: 0 <= i < |tools| ==> tools[i].name != "" && tools[i].executes)
    && (forall i, j :: 0 <= i < j < |tools| ==> tools[i].name != tools[j].name)
  }

  predicate ConfigOK(cfg: Config) {
    var c := EffectiveChoice(cfg);
    && cfg.hasClient && cfg.messages != [] && cfg.requestTools == 0
    && ToolNamesOK(cfg.tools)
    && (cfg.choice.IsZero() || cfg.requestChoice.IsZero())
    && !c.kind.Unset? && !c.kind.Unknown?
    && (c.RequiresTools() ==> cfg.tools != [])
    && (c.kind.Named? ==> exists i :: 0 <= i < |cfg.tools| && cfg.tools[i].name == c.name)
  }

  method ValidateConfig(cfg: Config) returns (choice: Option<ToolChoice>)
    ensures choice == if ConfigOK(cfg) then Some(EffectiveChoice(cfg)) else None
  {
    if !cfg.hasClient || |cfg.messages| == 0 || cfg.requestTools > 0 {
      return None;
    }
    var seen: set<string> := {};
    for i := 0 to |cfg.tools|
      invariant ToolNamesOK(cfg.tools[..i])
      invariant seen == set k | 0 <= k < i :: cfg.tools[k].name
    {
      var t := cfg.tools[i];
      if t.name == "" || !t.executes || t.name in seen {
        return None;
      }
      seen := seen + {t.name};
    }
    assert cfg.tools[..|cfg.tools|] == cfg.tools;
    if !cfg.requestChoice.IsZero() && !cfg.choice.IsZero() {
      return None;
    }
    var effective := if cfg.choice.IsZero() then cfg.requestChoice else cfg.choice;
    if effective.IsZero() {
      effective := ToolChoice(Auto, "");
    }
    if effective.kind.Unset? || effective.kind.Unknown? {
      return None;
    }
    if effective.RequiresTools() && |cfg.tools| == 0 {
      return None;
    }
    if effective.kind.Named? && effective.name !in seen {
      return None;
    }
    return Some(effective);
  }

  // ---------- Responses ----------

  predicate IsEmpty(resp: ChatResponse) {
    && resp.toolCalls == []
    && forall p :: p in resp.message.content ==> p.ReasoningPart? || (p.Text? && p.text == "")
  }

  // What the adapters promise: an assistant message of legal parts, whose
  // calls the mirror repeats, with distinct IDs.
  predicate WellFormed(resp: ChatResponse) {
    && resp.message.role.Assistant?
    && PartsLegal(resp.message)
    && resp.toolCalls == Calls(resp.message.content)
    && Distinct(CallIDs(resp.message.content))
  }

  predicate WellFormedRounds(rounds: seq<Round>) {
    forall i :: 0 <= i < |rounds| ==>
      && (rounds[i].first.Reply? ==> WellFormed(rounds[i].first.resp))
      && (rounds[i].second.Reply? ==> WellFormed(rounds[i].second.resp))
  }

  // A non-empty response can be appended where nothing is pending; its calls
  // are what is pending then.
  lemma ReplyExtends(msgs: seq<Message>, resp: ChatResponse)
    requires Scan({}, msgs) == Some({}) && WellFormed(resp) && !IsEmpty(resp)
    ensures Scan({}, msgs + [resp.message]) == Some(Elements(IDs(resp.toolCalls)))
    ensures resp.toolCalls == [] ==> Valid(msgs + [resp.message])
  {
    var m := resp.message;
    CallIDsOfCalls(m.content);
    if resp.toolCalls != [] {
      SomeCall(m.content);
    } else {
      var p :| p in m.content && !p.ReasoningPart?;
    }
    assert HasNonReasoning(m);
    ScanSnoc({}, msgs, m);
    assert resp.toolCalls == [] ==> Elements(IDs(resp.toolCalls)) == {};
  }

  lemma {:induction false} SomeCall(parts: seq<Part>)
    requires Calls(parts) != []
    ensures exists i :: 0 <= i < |parts| && !parts[i].ReasoningPart?
  {
    if parts[0].CallPart? {
      assert !parts[0].ReasoningPart?;
    } else {
      SomeCall(parts[1..]);
      var i :| 0 <= i < |parts[1..]| && !parts[1..][i].ReasoningPart?;
      assert !parts[i + 1].ReasoningPart?;
    }
  }

  lemma {:induction false} CallsHaveIDs(parts: seq<Part>, role: Role)
    requires forall i :: 0 <= i < |parts| ==> PartLegal(role, parts[i])
    ensures forall i :: 0 <= i < |Calls(parts)| ==> Calls(parts)[i].id != ""
  {
    if parts != [] {
      CallsHaveIDs(parts[1..], role);
      assert PartLegal(role, parts[0]);
    }
  }

  // One result per call, in order, answers the whole turn.
  lemma ResultsAnswer(msgs: seq<Message>, resp: ChatResponse, results: seq<ToolResult>)
    requires Scan({}, msgs) == Some(Elements(IDs(resp.toolCalls))) && WellFormed(resp) && resp.toolCalls != []
    requires |results| == |resp.toolCalls| && forall i :: 0 <= i < |results| ==>
              results[i].toolCallID == resp.toolCalls[i].id
    ensures Valid(msgs + [ToolResultMessage(results)])
    ensures !EndsWithAssistant(msgs + [ToolResultMessage(results)])
  {
    var m := ToolResultMessage(results);
    var ids := IDs(resp.toolCalls);
    CallIDsOfCalls(resp.message.content);
    CallsHaveIDs(resp.message.content, resp.message.role);
    ResultIDsOfResults(results);
    assert ResultIDs(m.content) == ids;
    assert m.content[0].ResultPart?;
    assert PartsLegal(m);
    ScanSnoc({}, msgs, m);
    assert Elements(ids) - Elements(ids) == {};
  }

  // ---------- Executing one turn's calls ----------

  // A registered tool's answer, or the recovery result for an unknown one.
  function Dispatch(tools: seq<ToolDef>, call: ToolCall, exec: Exec): (ExecResult, Option<Error>) {
    if exists i :: 0 <= i < |tools| && tools[i].name == call.name then (exec.result, exec.err)
    else (ExecResult("tool \"" + call.name + "\" is not available", true, false), None)
  }

  predicate Aborts(r: (ExecResult, Option<Error>)) {
    r.1.Some? || (r.0.stop && r.0.isError)
  }

  function NotExecuted(id: string, last: ToolCall): ToolResult {
    ToolResult(id, "not executed: tool loop ended by \"" + last.name + "\"", true)
  }

  function ResultOf(call: ToolCall, r: ExecResult): ToolResult {
    ToolResult(call.id, r.content, r.isError)
  }

  function ResultFor(
      tools: seq<ToolDef>, calls: seq<ToolCall>, execs: nat -> Exec, executed: nat, k: nat): (r: ToolResult)
    requires 0 < executed <= |calls| && k < |calls|
    ensures r.toolCallID == calls[k].id
  {
    if k < executed then ResultOf(calls[k], Dispatch(tools, calls[k], execs(k)).0)
    else NotExecuted(calls[k].id, calls[executed - 1])
  }

  // The results of a turn whose first executed calls were executed.
  function TurnResults(
      tools: seq<ToolDef>, calls: seq<ToolCall>, execs: nat -> Exec, executed: nat): (results: seq<ToolResult>)
    requires executed <= |calls| && (calls != [] ==> executed > 0)
    ensures |results| == |calls|
    ensures forall k :: 0 <= k < |calls| ==> results[k].toolCallID == calls[k].id
  {
    seq(|calls|, k requires 0 <= k < |calls| => ResultFor(tools, calls, execs, executed, k))
  }

  datatype Terminal = Terminal(call: ToolCall, result: ExecResult)

  datatype TurnStop = TurnStop(kind: OutcomeKind, err: Error)

  // The number of calls handed to an executor: up to the first one that
  // aborts or stops.
  function Executed(tools: seq<ToolDef>, calls: seq<ToolCall>, execs: nat -> Exec, i: nat): (n: nat)
    requires i <= |calls|
    ensures i <= n <= |calls| && (i < |calls| ==> i < n)
    decreases |calls| - i
  {
    if i == |calls| then i else if Ends(tools, calls, execs, i) then i + 1 else Executed(tools, calls, execs, i + 1)
  }

  predicate Ends(tools: seq<ToolDef>, calls: seq<ToolCall>, execs: nat -> Exec, k: nat)
    requires k < |calls|
  {
    var d := Dispatch(tools, calls[k], execs(k));
    Aborts(d) || d.0.stop
  }

  // No call before the last executed one ended the turn, and that one did
  // unless it is the last of all.
  lemma {:induction false} ExecutedIs(tools: seq<ToolDef>, calls: seq<ToolCall>, execs: nat -> Exec, i: nat)
    requires i <= |calls|
    ensures
      var n := Executed(tools, calls, execs, i);
      && (forall k :: i <= k < n - 1 ==> !Ends(tools, calls, execs, k))
      && (i < n < |calls| ==> Ends(tools, calls, execs, n - 1))
    decreases |calls| - i
  {
    if i < |calls| && !Ends(tools, calls, execs, i) {
      ExecutedIs(tools, calls, execs, i + 1);
    }
  }

  // How a turn's tool execution ends: stopped, with no results, or with one
  // result per call and the call that ended the run, if any.
  datatype ToolsEnd = Stopped(stop: TurnStop) | Finished(results: seq<ToolResult>, terminal: Option<Terminal>)

  function AbortError(d: (ExecResult, Option<Error>)): Error {
    if d.1.Some? then d.1.value else PLAIN_ERROR
  }

  function RunTools(tools: seq<ToolDef>, calls: seq<ToolCall>, execs: nat -> Exec): ToolsEnd {
    var n := Executed(tools, calls, execs, 0);
    if n == 0 then Finished([], None)
    else
      var d := Dispatch(tools, calls[n - 1], execs(n - 1));
      if Aborts(d) then
        var (kind, err) := ClassifyStop(execs(n - 1).ctx, AbortError(d), ToolError);
        Stopped(TurnStop(kind, err))
      else Finished(TurnResults(tools, calls, execs, n), if d.0.stop then Some(Terminal(calls[n - 1], d.0)) else None)
  }

  // A stop inside tool execution is of one of three kinds, a terminal call
  // stopped without an error, and results match the calls.
  lemma RunToolsKinds(tools: seq<ToolDef>, calls: seq<ToolCall>, execs: nat -> Exec)
    ensures
      match RunTools(tools, calls, execs)
      case Stopped(stop) =>
        && calls != [] && stop.kind in {ToolError, Canceled, DeadlineReached}
        && (stop.kind == Canceled ==> stop.err.canceled) && (stop.kind == DeadlineReached ==> stop.err.deadline)
      case Finished(results, terminal) =>
        && |results| == |calls| && (forall k :: 0 <= k < |calls| ==> results[k].toolCallID == calls[k].id)
        && (terminal.Some? ==>
              terminal.value.call in calls && terminal.value.result.stop && !terminal.value.result.isError)
  {
  }

  // The first n results are those of the first n calls.
  ghost predicate Executes(
    tools: seq<ToolDef>, calls: seq<ToolCall>, execs: nat -> Exec, results: seq<ToolResult>, n: nat)
    requires n <= |calls|
  {
    n <= |results| && forall k :: 0 <= k < n ==> results[k] == ResultOf(calls[k], Dispatch(tools, calls[k], execs(k)).0)
  }

  // The results from n on are those of calls skipped for ender.
  ghost predicate Skips(calls: seq<ToolCall>, ender: ToolCall, results: seq<ToolResult>, n: nat) {
    && n <= |results| <= |calls|
    && forall k :: n <= k < |results| ==> results[k] == NotExecuted(calls[k].id, ender)
  }

  lemma OneMoreExecuted(tools: seq<ToolDef>, calls: seq<ToolCall>, execs: nat -> Exec, results: seq<ToolResult>)
    requires |results| < |calls| && Executes(tools, calls, execs, results, |results|)
    ensures
      var n := |results|;
      Executes(tools, calls, execs, results + [ResultOf(calls[n], Dispatch(tools, calls[n], execs(n)).0)], n + 1)
  {
  }

  lemma OneMoreSkipped(tools: seq<ToolDef>, calls: seq<ToolCall>, execs: nat -> Exec, ender: ToolCall,
      results: seq<ToolResult>, n: nat)
    requires n <= |calls| && Executes(tools, calls, execs, results, n)
    requires Skips(calls, ender, results, n) && |results| < |calls|
    ensures
      var after := results + [NotExecuted(calls[|results|].id, ender)];
      Executes(tools, calls, execs, after, n) && Skips(calls, ender, after, n)
  {
  }

  lemma ToolsFinish(tools: seq<ToolDef>, calls: seq<ToolCall>, execs: nat -> Exec, n: nat, results: seq<ToolResult>)
    requires 0 < n == Executed(tools, calls, execs, 0) <= |calls| == |results|
    requires !Aborts(Dispatch(tools, calls[n - 1], execs(n - 1)))
    requires Executes(tools, calls, execs, results, n)
    requires Skips(calls, calls[n - 1], results, n)
    ensures
      var d := Dispatch(tools, calls[n - 1], execs(n - 1)).0;
      RunTools(tools, calls, execs) == Finished(results, if d.stop then Some(Terminal(calls[n - 1], d)) else None)
  {
    assert results == TurnResults(tools, calls, execs, n);
  }

  lemma ToolsStop(tools: seq<ToolDef>, calls: seq<ToolCall>, execs: nat -> Exec, n: nat)
    requires 0 < n == Executed(tools, calls, execs, 0) <= |calls| && Aborts(Dispatch(tools, calls[n - 1], execs(n - 1)))
    ensures
      var (kind, err) := ClassifyStop(execs(n - 1).ctx, AbortError(Dispatch(tools, calls[n - 1], execs(n - 1))),
          ToolError);
      RunTools(tools, calls, execs) == Stopped(TurnStop(kind, err))
  {
  }

  method ExecuteCalls(tools: seq<ToolDef>, calls: seq<ToolCall>, execs: nat -> Exec)
    returns (results: seq<ToolResult>, terminal: Option<Terminal>, stop: Option<TurnStop>)
    ensures RunTools(tools, calls, execs) == if stop.Some? then Stopped(stop.value) else Finished(results, terminal)
  {
    results, terminal, stop := [], None, None;
    for i := 0 to |calls|
      invariant |results| == i && terminal.None? && stop.None?
      invariant Executed(tools, calls, execs, 0) == Executed(tools, calls, execs, i)
      invariant i > 0 ==> !Ends(tools, calls, execs, i - 1)
      invariant Executes(tools, calls, execs, results, i)
    {
      var call := calls[i];
      var (result, execErr) := Dispatch(tools, call, execs(i));
      if execErr.None? && result.stop && result.isError {
        execErr := Some(PLAIN_ERROR);
      }
      if execErr.Some? {
        var (kind, err) := ClassifyStop(execs(i).ctx, execErr.value, ToolError);
        ToolsStop(tools, calls, execs, i + 1);
        return [], None, Some(TurnStop(kind, err));
      }
      OneMoreExecuted(tools, calls, execs, results);
      results := results + [ResultOf(call, result)];
      if result.stop {
        for j := i + 1 to |calls|
          invariant |results| == j
          invariant Executes(tools, calls, execs, results, i + 1) && Skips(calls, call, results, i + 1)
        {
          OneMoreSkipped(tools, calls, execs, call, results, i + 1);
          results := results + [NotExecuted(calls[j].id, call)];
        }
        ToolsFinish(tools, calls, execs, i + 1, results);
        return results, Some(Terminal(call, result)), None;
      }
    }
    if calls != [] {
      ToolsFinish(tools, calls, execs, |calls|, results);
    }
  }

  // ---------- Compaction ----------

  // The transcripts a hook may hand back: valid, and not ending with an
  // assistant message.
  predicate Sendable(msgs: seq<Message>) {
    Valid(msgs) && !EndsWithAssistant(msgs)
  }

  // What a hook answers: an error, no change, or a new transcript; and the
  // usage it reports.
  datatype HookResult = HookResult(messages: Option<seq<Message>>, usage: Usage, err: Option<Error>)

  function HookSays(hook: Hook, input: Compact.CompactInput, answer: HookAnswer): HookResult {
    match hook
    case NoHook => HookResult(None, NO_USAGE, None)
    case Custom => HookResult(answer.messages, answer.usage, answer.err)
    case KeepLastHook(turns, atTokens) =>
      var s := Compact.SplitSpan(input.messages, turns);
      if Compact.Due(input, atTokens) && s.Drops()
      then HookResult(Some(ReasoningFilter.WithoutReasoning(s.Kept(input.messages, []))), NO_USAGE, None)
      else HookResult(None, NO_USAGE, None)
    case SummarizeHook(keepTurns, atTokens) =>
      if !(Compact.Due(input, atTokens) && Compact.SplitSpan(input.messages, keepTurns).Drops()) then
          HookResult(None, NO_USAGE, None)
      else if answer.err.Some? then HookResult(None, NO_USAGE, answer.err)
      else if answer.summary.GetOr("") == "" then HookResult(None, answer.usage, Some(PLAIN_ERROR))
      else HookResult(Some(Compact.Summarizing(input.messages, keepTurns, answer.summary.value)), answer.usage, None)
  }

  // What the loop makes of it: an error, a transcript it can go on with, or
  // neither.
  function Checked(r: HookResult): (res: (Option<seq<Message>>, Option<Error>))
    ensures res.0.Some? ==> Sendable(res.0.value) && res.1.None? && r.messages == res.0
    ensures res.1.Some? ==> res.1.value.compaction
    ensures res.1.Some? <==> r.err.Some? || (r.messages.Some? && !Sendable(r.messages.value))
  {
    if r.err.Some? then (None, Some(r.err.value.(compaction := true)))
    else if r.messages.Some? && !Sendable(r.messages.value) then (None, Some(PLAIN_ERROR.(compaction := true)))
    else (r.messages, None)
  }

  lemma KeepLastStaysSendable(turns: nat, msgs: seq<Message>)
    requires Sendable(msgs) && Compact.SplitSpan(msgs, turns).Drops()
    ensures Sendable(ReasoningFilter.WithoutReasoning(Compact.SplitSpan(msgs, turns).Kept(msgs, [])))
  {
    Compact.CompactionKeepsValid(msgs, turns, []);
    Compact.CompactionEnd(msgs, turns, []);
  }

  lemma SummarizeStaysSendable(keepTurns: nat, msgs: seq<Message>, summary: string)
    requires Sendable(msgs) && Compact.SplitSpan(msgs, keepTurns).Drops()
    ensures Sendable(Compact.Summarizing(msgs, keepTurns, summary))
  {
    var insert := [Compact.SummaryMessage(summary)];
    Compact.SummaryIsClear(summary);
    Compact.CompactionKeepsValid(msgs, keepTurns, insert);
    Compact.CompactionEnd(msgs, keepTurns, insert);
  }

  // A built-in compactor given a transcript that can be sent hands one back.
  lemma CompactorsStaySendable(hook: Hook, input: Compact.CompactInput, answer: HookAnswer)
    requires Sendable(input.messages) && !hook.Custom?
    ensures HookSays(hook, input, answer).messages.Some? ==> Sendable(HookSays(hook, input, answer).messages.value)
    ensures hook.KeepLastHook? ==> Checked(HookSays(hook, input, answer)).1.None?
  {
    if HookSays(hook, input, answer).messages.Some? {
      if hook.KeepLastHook? {
        KeepLastStaysSendable(hook.turns, input.messages);
      } else if hook.SummarizeHook? {
        SummarizeStaysSendable(hook.keepTurns, input.messages, answer.summary.value);
      }
    }
  }

  method CallHook(hook: Hook, input: Compact.CompactInput, answer: HookAnswer)
    returns (messages: Option<seq<Message>>, usage: Usage, err: Option<Error>)
    requires !hook.NoHook?
    ensures HookResult(messages, usage, err) == HookSays(hook, input, answer)
  {
    match hook
    case NoHook => assert false;
    case Custom => return answer.messages, answer.usage, answer.err;
    case KeepLastHook(turns, atTokens) =>
      messages := Compact.KeepLast(turns, atTokens, input);
      return messages, NO_USAGE, None;
    case SummarizeHook(keepTurns, atTokens) =>
      var text := if answer.err.Some? then None else Some(answer.summary.GetOr(""));
      var res := Compact.Summarize(keepTurns, atTokens, input, text);
      match res
      case NoChange => return None, NO_USAGE, None;
      case SummarizerFailed => return None, NO_USAGE, answer.err;
      case SummarizerEmpty => return None, answer.usage, Some(PLAIN_ERROR);
      case Summary(msgs) => return Some(msgs), answer.usage, None;
  }

  function Spent(r: HookResult): seq<Usage> {
    if r.usage == NO_USAGE then [] else [r.usage]
  }

  // What one turn's provider call does: the hook before it, and on an overflow
  // one compaction and one retry. attempts are the transcripts handed to the
  // client.
  datatype Sending = Sending(
    resp: Option<ChatResponse>, stop: Option<TurnStop>, attempts: seq<seq<Message>>, compactions: nat,
        reported: seq<Usage>)

  function StopWith(ctx: Ctx, err: Error, fallback: OutcomeKind): Option<TurnStop> {
    var (kind, e) := ClassifyStop(ctx, err, fallback);
    Some(TurnStop(kind, e))
  }

  function Overflowed(ctx: Ctx, attempt: Attempt): bool {
    attempt.Fail? && ClassifyStop(ctx, attempt.err, LLMErrorKind(attempt.err)).0 == ContextExceeded
  }

  function Failed(ctx: Ctx, attempt: Attempt): Option<TurnStop> {
    if attempt.Fail? then StopWith(ctx, attempt.err, LLMErrorKind(attempt.err)) else None
  }

  function RespOf(attempt: Attempt): Option<ChatResponse> {
    if attempt.Reply? then Some(attempt.resp) else None
  }

  function Sends(hook: Hook, round: Round, messages: seq<Message>, last: Usage): (r: Sending)
    ensures r.resp.Some? <==> r.stop.None?
  {
    var before := HookSays(hook, Compact.CompactInput(Compact.BeforeTurn, messages, last), round.before);
    var (msgs, cerr) := Checked(before);
    if cerr.Some? then Sending(None, StopWith(round.before.ctx, cerr.value, CompactionError), [], 0, Spent(before))
    else SendsFrom(hook, round, msgs.GetOr(messages), last, if msgs.Some? then 1 else 0, Spent(before))
  }

  // The hook after an overflow: a transcript to retry with, or how the run
  // stops. The loop's context may have ended while it ran, and stays
  // authoritative.
  function OverflowSays(hook: Hook, round: Round, sent: seq<Message>, last: Usage)
    : (r: (Option<seq<Message>>, Option<TurnStop>, seq<Usage>))
    requires round.first.Fail?
    ensures r.0.Some? <==> r.1.None?
  {
    var said := HookSays(hook, Compact.CompactInput(Compact.Overflow, sent, last), round.overflow);
    var (msgs, cerr) := Checked(said);
    if cerr.Some? then (None, StopWith(round.overflow.ctx, cerr.value, CompactionError), Spent(said))
    else if msgs.None? then (None, Failed(round.overflow.ctx, round.first), Spent(said))
    else (msgs, None, Spent(said))
  }

  function SendsFrom(
    hook: Hook, round: Round, first: seq<Message>, last: Usage, n: nat, spent: seq<Usage>): (r: Sending)
    ensures r.resp.Some? <==> r.stop.None?
  {
    if hook.NoHook? || !Overflowed(round.firstCtx, round.first) then
      Sending(RespOf(round.first), Failed(round.firstCtx, round.first), [first], n, spent)
    else
      var (msgs, stop, more) := OverflowSays(hook, round, first, last);
      if stop.Some? then Sending(None, stop, [first], n, spent + more)
      else Sending(RespOf(round.second), Failed(round.secondCtx, round.second), [first, msgs.value], n + 1,
          spent + more)
  }

  lemma StopsExplained(ctx: Ctx, err: Error)
    ensures StopExplained(StopWith(ctx, err, LLMErrorKind(err)).value)
    ensures err.compaction ==> StopExplained(StopWith(ctx, err, CompactionError).value)
  {
  }

  lemma SendsFromKeeps(hook: Hook, round: Round, first: seq<Message>, last: Usage, n: nat, spent: seq<Usage>)
    ensures
      var r := SendsFrom(hook, round, first, last, n, spent);
      && (r.resp.Some? <==> r.stop.None?)
      && 1 <= |r.attempts| <= (if hook.NoHook? then 1 else 2) && r.attempts[0] == first
      && (|r.attempts| == 2 ==> Sendable(r.attempts[1]) && Overflowed(round.firstCtx, round.first))
      && (hook.NoHook? ==> r.compactions == n && r.reported == spent)
      && (r.resp.Some? ==> round.first == Reply(r.resp.value) || round.second == Reply(r.resp.value))
  {
  }

  lemma SendsFromStops(hook: Hook, round: Round, first: seq<Message>, last: Usage, n: nat, spent: seq<Usage>)
    ensures
      var r := SendsFrom(hook, round, first, last, n, spent);
      r.stop.Some? ==> StopExplained(r.stop.value)
  {
    if round.first.Fail? {
      StopsExplained(round.firstCtx, round.first.err);
      StopsExplained(round.overflow.ctx, round.first.err);
      var (msgs, cerr) := Checked(HookSays(hook, Compact.CompactInput(Compact.Overflow, first, last), round.overflow));
      if cerr.Some? {
        StopsExplained(round.overflow.ctx, cerr.value);
      }
    }
    if round.second.Fail? {
      StopsExplained(round.secondCtx, round.second.err);
    }
  }

  // The retry comes only after an overflow and one adopted compaction, and
  // whatever is sent is the loop's transcript or one that can be sent.
  lemma SendsKeeps(hook: Hook, round: Round, messages: seq<Message>, last: Usage)
    ensures
      var r := Sends(hook, round, messages, last);
      && (r.resp.Some? <==> r.stop.None?)
      && (r.resp.Some? ==> r.attempts != [])
      && |r.attempts| <= (if hook.NoHook? then 1 else 2)
      && (hook.NoHook? ==> r.attempts == [messages] && r.compactions == 0 && r.reported == [])
      && (forall k :: 0 <= k < |r.attempts| ==> r.attempts[k] == messages || Sendable(r.attempts[k]))
      && (|r.attempts| == 2 ==> Overflowed(round.firstCtx, round.first))
      && (r.resp.Some? ==> round.first == Reply(r.resp.value) || round.second == Reply(r.resp.value))
  {
    var before := HookSays(hook, Compact.CompactInput(Compact.BeforeTurn, messages, last), round.before);
    var (msgs, cerr) := Checked(before);
    if cerr.None? {
      SendsFromKeeps(hook, round, msgs.GetOr(messages), last, if msgs.Some? then 1 else 0, Spent(before));
    }
  }

  // A call is retried exactly when there is a hook, the call before it
  // overflowed the context, and the hook then handed back a transcript to go
  // on with; the retry sends that one.
  lemma RetriesExactlyWhen(hook: Hook, round: Round, messages: seq<Message>, last: Usage)
    ensures
      var r := Sends(hook, round, messages, last);
      r.attempts != [] ==>
        var again := Checked(HookSays(hook, Compact.CompactInput(Compact.Overflow, r.attempts[0], last),
            round.overflow)).0;
        && (|r.attempts| == 2 <==> !hook.NoHook? && Overflowed(round.firstCtx, round.first) && again.Some?)
        && (|r.attempts| == 2 ==> r.attempts[1] == again.value)
  {
    var before := HookSays(hook, Compact.CompactInput(Compact.BeforeTurn, messages, last), round.before);
    var (msgs, cerr) := Checked(before);
    if cerr.None? {
      var first := msgs.GetOr(messages);
      assert SendsFrom(hook, round, first, last, if msgs.Some? then 1 else 0, Spent(before)).attempts[0] == first;
    }
  }

  lemma SendsStops(hook: Hook, round: Round, messages: seq<Message>, last: Usage)
    ensures
      var r := Sends(hook, round, messages, last);
      && (r.stop.Some? ==> StopExplained(r.stop.value))
      && (r.attempts == [] ==> r.stop.Some? && r.stop.value.kind in {CompactionError, Canceled, DeadlineReached})
  {
    var before := HookSays(hook, Compact.CompactInput(Compact.BeforeTurn, messages, last), round.before);
    var (msgs, cerr) := Checked(before);
    if cerr.Some? {
      StopsExplained(round.before.ctx, cerr.value);
    } else {
      SendsFromStops(hook, round, msgs.GetOr(messages), last, if msgs.Some? then 1 else 0, Spent(before));
      SendsFromKeeps(hook, round, msgs.GetOr(messages), last, if msgs.Some? then 1 else 0, Spent(before));
    }
  }

  lemma NeverCompactionError(ctx: Ctx, err: Error)
    ensures StopWith(ctx, err, LLMErrorKind(err)).value.kind != CompactionError
  {
  }

  lemma KeepLastSendsFrom(hook: Hook, round: Round, first: seq<Message>, last: Usage, n: nat, spent: seq<Usage>)
    requires hook.KeepLastHook? && Sendable(first)
    ensures
      var r := SendsFrom(hook, round, first, last, n, spent);
      r.stop.Some? ==> r.stop.value.kind != CompactionError
  {
    CompactorsStaySendable(hook, Compact.CompactInput(Compact.Overflow, first, last), round.overflow);
    if round.first.Fail? {
      NeverCompactionError(round.firstCtx, round.first.err);
      NeverCompactionError(round.overflow.ctx, round.first.err);
    }
    if round.second.Fail? {
      NeverCompactionError(round.secondCtx, round.second.err);
    }
  }

  // With KeepLast, no send stops on compaction.
  lemma KeepLastSends(hook: Hook, round: Round, messages: seq<Message>, last: Usage)
    requires hook.KeepLastHook? && Sendable(messages)
    ensures
      var r := Sends(hook, round, messages, last);
      r.stop.Some? ==> r.stop.value.kind != CompactionError
  {
    var input := Compact.CompactInput(Compact.BeforeTurn, messages, last);
    CompactorsStaySendable(hook, input, round.before);
    var before := HookSays(hook, input, round.before);
    var (msgs, cerr) := Checked(before);
    KeepLastSendsFrom(hook, round, msgs.GetOr(messages), last, if msgs.Some? then 1 else 0, Spent(before));
  }

  // The hook's totals over a run.
  datatype Totals = Totals(usage: UsageSum, count: nat) {
    function Plus(reported: seq<Usage>, adopted: nat): Totals {
      Totals(AddAll(usage, reported), count + adopted)
    }
  }

  lemma PlusPlus(t: Totals, a: seq<Usage>, m: nat, b: seq<Usage>, n: nat)
    ensures t.Plus(a, m).Plus(b, n) == t.Plus(a + b, m + n)
  {
    AddAllConcat(t.usage, a, b);
  }

  class Compaction {
    const hook: Hook
    var usage: UsageSum
    var count: nat

    function View(): Totals
      reads this
    {
      Totals(usage, count)
    }

    constructor (hook: Hook)
      ensures this.hook == hook && View() == Totals(START_USAGE, 0)
    {
      this.hook := hook;
      usage := START_USAGE;
      count := 0;
    }

    // One hook call: None with no error is "no change". Its usage counts even
    // when it fails.
    method Run(input: Compact.CompactInput, answer: HookAnswer) returns (msgs: Option<seq<Message>>, err: Option<Error>)
      requires !hook.NoHook?
      modifies this
      ensures (msgs, err) == Checked(HookSays(hook, input, answer))
      ensures View() == old(View()).Plus(Spent(HookSays(hook, input, answer)), if msgs.Some? then 1 else 0)
    {
      var res, resUsage, resErr := CallHook(hook, input, answer);
      if resUsage != NO_USAGE {
        AddOne(usage, resUsage);
        usage := AddUsage(usage, resUsage);
      }
      if resErr.Some? {
        return None, Some(resErr.value.(compaction := true));
      }
      if res.None? {
        return None, None;
      }
      var invalid := ValidateMessages(res.value);
      if invalid.Some? {
        return None, Some(PLAIN_ERROR.(compaction := true));
      }
      if res.value[|res.value| - 1].role.Assistant? {
        return None, Some(PLAIN_ERROR.(compaction := true));
      }
      count := count + 1;
      return res, None;
    }

    // The hook before the call.
    method BeforeCall(round: Round, messages: seq<Message>, last: Usage)
      returns (sent: seq<Message>, stop: Option<TurnStop>, ghost adopted: nat, ghost spent: seq<Usage>)
      modifies this
      ensures View() == old(View()).Plus(spent, adopted)
      ensures Sends(hook, round, messages, last) ==
              if stop.Some? then Sending(None, stop, [], adopted, spent)
                else SendsFrom(hook, round, sent, last, adopted, spent)
      ensures stop.Some? ==> sent == messages
    {
      sent, stop, adopted, spent := messages, None, 0, [];
      if !hook.NoHook? {
        var input := Compact.CompactInput(Compact.BeforeTurn, messages, last);
        var msgs, cerr := Run(input, round.before);
        spent := Spent(HookSays(hook, input, round.before));
        if cerr.Some? {
          var (kind, err) := ClassifyStop(round.before.ctx, cerr.value, CompactionError);
          stop := Some(TurnStop(kind, err));
        } else if msgs.Some? {
          sent := msgs.value;
          adopted := 1;
        }
      }
    }

    // The hook after an overflow. The loop's context may have ended while it
    // ran, and stays authoritative.
    method AfterOverflow(round: Round, sent: seq<Message>, last: Usage, callErr: Error)
      returns (msgs: Option<seq<Message>>, stop: Option<TurnStop>, ghost spent: seq<Usage>)
      requires !hook.NoHook? && round.first == Fail(callErr)
      modifies this
      ensures (msgs, stop, spent) == OverflowSays(hook, round, sent, last)
      ensures View() == old(View()).Plus(spent, if msgs.Some? then 1 else 0)
    {
      var input := Compact.CompactInput(Compact.Overflow, sent, last);
      var cerr;
      msgs, cerr := Run(input, round.overflow);
      spent := Spent(HookSays(hook, input, round.overflow));
      stop := None;
      if cerr.Some? {
        var (kind, err) := ClassifyStop(round.overflow.ctx, cerr.value, CompactionError);
        stop := Some(TurnStop(kind, err));
      } else if msgs.None? {
        var (kind, err) := ClassifyStop(round.overflow.ctx, callErr, LLMErrorKind(callErr));
        stop := Some(TurnStop(kind, err));
      }
    }

    // One turn's provider call. sent is the transcript last handed to the
    // client, or the one it was called with.
    method Send(round: Round, messages: seq<Message>, last: Usage)
      returns (resp: Option<ChatResponse>, sent: seq<Message>, stop: Option<TurnStop>,
          ghost attempts: seq<seq<Message>>)
      modifies this
      ensures
        var r := Sends(hook, round, messages, last);
        && resp == r.resp && stop == r.stop && attempts == r.attempts
        && View() == old(View()).Plus(r.reported, r.compactions)
      ensures sent == Reached(messages, attempts)
    {
      attempts, resp := [], None;
      ghost var before := View();
      ghost var adopted, spent;
      sent, stop, adopted, spent := BeforeCall(round, messages, last);
      if stop.Some? {
        return;
      }
      var retried := false;
      while true
        invariant View() == before.Plus(spent, adopted)
        invariant retried ==> !hook.NoHook? && |attempts| == 1
        invariant !retried ==> attempts == []
        invariant Sends(hook, round, messages, last) ==
                  if retried then Sending(RespOf(round.second), Failed(round.secondCtx, round.second),
                      attempts + [sent], adopted, spent)
                  else SendsFrom(hook, round, sent, last, adopted, spent)
        decreases if retried then 0 else 1
      {
        var attempt := if retried then round.second else round.first;
        var ctx := if retried then round.secondCtx else round.firstCtx;
        attempts := attempts + [sent];
        if attempt.Reply? {
          return Some(attempt.resp), sent, None, attempts;
        }
        var (kind, err) := ClassifyStop(ctx, attempt.err, LLMErrorKind(attempt.err));
        if kind != ContextExceeded || hook.NoHook? || retried {
          return None, sent, Some(TurnStop(kind, err)), attempts;
        }
        ghost var more;
        var msgs;
        msgs, stop, more := AfterOverflow(round, sent, last, attempt.err);
        PlusPlus(before, spent, adopted, more, if msgs.Some? then 1 else 0);
        spent := spent + more;
        if stop.Some? {
          return;
        }
        sent := msgs.value;
        adopted := adopted + 1;
        retried := true;
      }
    }
  }

  // The error returned matches the kind of stop.
  predicate StopExplained(s: TurnStop) {
    match s.kind
    case Canceled => s.err.canceled
    case DeadlineReached => s.err.deadline
    case ContextExceeded => s.err.contextLength
    case CompactionError => s.err.compaction
    case LLMError => !s.err.contextLength
    case _ => false
  }

  // ---------- The loop ----------

  datatype Outcome = Outcome(
    kind: OutcomeKind, response: Option<ChatResponse>, messages: seq<Message>, totalUsage: Usage,
    iterations: nat, err: Option<Error>, terminal: Option<Terminal>, compactionUsage: Usage, compactions: nat)

  const DEFAULT_MAX_ITERATIONS := 8

  function Limit(cfg: Config): int {
    if cfg.maxIterations == 0 then DEFAULT_MAX_ITERATIONS else cfg.maxIterations
  }

  // The transcript a send got to: the last one handed to the client, or the
  // one it was called with.
  function Reached(transcript: seq<Message>, attempts: seq<seq<Message>>): seq<Message> {
    if attempts == [] then transcript else attempts[|attempts| - 1]
  }

  function UsageOf(replies: seq<ChatResponse>): seq<Usage> {
    seq(|replies|, i requires 0 <= i < |replies| => replies[i].usage)
  }

  // How many of the responses call tools.
  function ToolReplies(replies: seq<ChatResponse>): nat {
    if replies == [] then 0
    else ToolReplies(replies[..|replies| - 1]) + if replies[|replies| - 1].toolCalls != [] then 1 else 0
  }

  // The loop's own variables between two iterations.
  datatype LoopState = LoopState(transcript: seq<Message>, usage: UsageSum, last: Option<ChatResponse>, iterIdx: nat)

  ghost predicate Tallies(st: LoopState, replies: seq<ChatResponse>) {
    && TotalsTo(st.usage.total, UsageOf(replies)) && st.usage.contribs == |replies|
    && st.iterIdx == ToolReplies(replies)
    && st.last == (if replies == [] then None else Some(replies[|replies| - 1]))
  }

  lemma OneMoreReply(st: LoopState, replies: seq<ChatResponse>, resp: ChatResponse, transcript: seq<Message>)
    requires Tallies(st, replies)
    ensures Tallies(
              LoopState(transcript, AddUsage(st.usage, resp.usage), Some(resp),
                  st.iterIdx + if resp.toolCalls != [] then 1 else 0),
              replies + [resp])
  {
    AddUsageSums(st.usage, UsageOf(replies), resp.usage);
    assert UsageOf(replies + [resp]) == UsageOf(replies) + [resp.usage];
    assert (replies + [resp])[..|replies|] == replies;
  }

  // The loop's variables and the hook's totals.
  datatype Standing = Standing(st: LoopState, comp: Totals)

  function Start(cfg: Config): Standing {
    Standing(LoopState(cfg.messages, START_USAGE, None, 0), Totals(START_USAGE, 0))
  }

  function LastUsage(st: LoopState): Usage {
    if st.last.Some? then st.last.value.usage else NO_USAGE
  }

  // An outcome reports the loop's variables as they are when it ends.
  function EndsAs(kind: OutcomeKind, s: Standing, err: Option<Error>, terminal: Option<Terminal>): Outcome {
    var st := s.st;
    Outcome(kind, st.last, st.transcript, st.usage.total, st.iterIdx, err, terminal, s.comp.usage.total, s.comp.count)
  }

  function Calling(resp: ChatResponse): nat {
    if resp.toolCalls != [] then 1 else 0
  }

  // The rest of an iteration once the client has answered s.st.transcript.
  function Replied(cfg: Config, s: Standing, resp: ChatResponse, execs: nat -> Exec): (Standing, Option<Outcome>) {
    var counted := LoopState(s.st.transcript, AddUsage(s.st.usage, resp.usage), Some(resp),
        s.st.iterIdx + Calling(resp));
    var empty := s.(st := counted);
    var said := s.(st := counted.(transcript := s.st.transcript + [resp.message]));
    if IsEmpty(resp) then (empty, Some(EndsAs(EmptyResponse, empty, None, None)))
    else if resp.toolCalls == [] then (said, Some(EndsAs(FinalAnswer, said, None, None)))
    else match RunTools(cfg.tools, resp.toolCalls, execs)
      case Stopped(stop) => (said, Some(EndsAs(stop.kind, said, Some(stop.err), None)))
      case Finished(results, terminal) =>
        var after := said.(st := said.st.(transcript := said.st.transcript + [ToolResultMessage(results)]));
        if terminal.Some? then (after, Some(EndsAs(TerminalTool, after, None, terminal)))
        else if Limit(cfg) > 0 && after.st.iterIdx >= Limit(cfg) then
            (after, Some(EndsAs(MaxIterations, after, None, None)))
        else (after, None)
  }

  // What one iteration did: where it started, its provider calls, where it
  // got to, and the outcome if the run ended.
  datatype Turn = Turn(before: Standing, sending: Sending, after: Standing, out: Option<Outcome>)

  // One iteration of the loop, from its send on.
  function Iteration(cfg: Config, round: Round, s: Standing): Turn {
    Concluded(cfg, round, s, Sends(cfg.hook, round, s.st.transcript, LastUsage(s.st)))
  }

  function Concluded(cfg: Config, round: Round, s: Standing, r: Sending): Turn {
    var sent := Standing(s.st.(transcript := Reached(s.st.transcript, r.attempts)),
        s.comp.Plus(r.reported, r.compactions));
    if r.stop.Some? then Turn(s, r, sent, Some(EndsAs(r.stop.value.kind, sent, Some(r.stop.value.err), None)))
    else if r.resp.Some? then
      var (after, out) := Replied(cfg, sent, r.resp.value, round.execs);
      Turn(s, r, after, out)
    else Turn(s, r, sent, None)
  }

  method AfterReply(cfg: Config, s: Standing, resp: ChatResponse, execs: nat -> Exec)
    returns (after: Standing, out: Option<Outcome>)
    ensures (after, out) == Replied(cfg, s, resp, execs)
  {
    var st := s.st;
    var calling := resp.toolCalls != [];
    st := LoopState(st.transcript, AddUsage(st.usage, resp.usage), Some(resp), st.iterIdx + if calling then 1 else 0);
    if IsEmpty(resp) {
      after := s.(st := st);
      return after, Some(EndsAs(EmptyResponse, after, None, None));
    }
    st := st.(transcript := st.transcript + [resp.message]);
    after := s.(st := st);
    if !calling {
      return after, Some(EndsAs(FinalAnswer, after, None, None));
    }
    var results, terminal, stop := ExecuteCalls(cfg.tools, resp.toolCalls, execs);
    if stop.Some? {
      return after, Some(EndsAs(stop.value.kind, after, Some(stop.value.err), None));
    }
    st := st.(transcript := st.transcript + [ToolResultMessage(results)]);
    after := s.(st := st);
    if terminal.Some? {
      return after, Some(EndsAs(TerminalTool, after, None, terminal));
    }
    if Limit(cfg) > 0 && st.iterIdx >= Limit(cfg) {
      return after, Some(EndsAs(MaxIterations, after, None, None));
    }
    out := None;
  }

  method Iterate(cfg: Config, cp: Compaction, round: Round, st: LoopState)
    returns (next: LoopState, out: Option<Outcome>, ghost turn: Turn)
    requires cp.hook == cfg.hook
    modifies cp
    ensures turn == Iteration(cfg, round, Standing(st, old(cp.View())))
    ensures turn.after == Standing(next, cp.View()) && turn.out == out
  {
    ghost var s := Standing(st, cp.View());
    var resp, sent, stop, attempts := cp.Send(round, st.transcript, LastUsage(st));
    ghost var r := Sends(cfg.hook, round, st.transcript, LastUsage(st));
    turn := Concluded(cfg, round, s, r);
    var now := Standing(st.(transcript := sent), cp.View());
    if stop.Some? {
      next := now.st;
      out := Some(EndsAs(stop.value.kind, now, Some(stop.value.err), None));
      return;
    }
    var after;
    after, out := AfterReply(cfg, now, resp.value, round.execs);
    RepliedKeepsTotals(cfg, now, resp.value, round.execs);
    next := after.st;
  }

  lemma RepliedKeepsTotals(cfg: Config, s: Standing, resp: ChatResponse, execs: nat -> Exec)
    ensures Replied(cfg, s, resp, execs).0.comp == s.comp
  {
  }

  // ---------- Runs ----------

  ghost function StandingAfter(cfg: Config, turns: seq<Turn>): Standing {
    if turns == [] then Start(cfg) else turns[|turns| - 1].after
  }

  ghost function Ended(turns: seq<Turn>): Option<Outcome> {
    if turns == [] then None else turns[|turns| - 1].out
  }

  function BeforeOf(cfg: Config, turns: seq<Turn>, k: nat): Standing
    requires k <= |turns|
  {
    if k == 0 then Start(cfg) else turns[k - 1].after
  }

  // A run: iterations that each go on from where the one before got to, the
  // last of which may have ended it.
  ghost predicate IsRun(cfg: Config, rounds: seq<Round>, turns: seq<Turn>) {
    |turns| <= |rounds| && forall k :: 0 <= k < |turns| ==> StepAt(cfg, rounds, turns, k)
  }

  ghost predicate StepAt(cfg: Config, rounds: seq<Round>, turns: seq<Turn>, k: nat)
    requires k < |turns| <= |rounds|
  {
    turns[k] == Iteration(cfg, rounds[k], BeforeOf(cfg, turns, k)) && (k > 0 ==> turns[k - 1].out.None?)
  }

  lemma RunSnoc(cfg: Config, rounds: seq<Round>, turns: seq<Turn>, turn: Turn)
    requires IsRun(cfg, rounds, turns) && Ended(turns).None? && |turns| < |rounds|
    requires turn == Iteration(cfg, rounds[|turns|], StandingAfter(cfg, turns))
    ensures IsRun(cfg, rounds, turns + [turn])
  {
    var all := turns + [turn];
    forall k | 0 <= k < |all| ensures StepAt(cfg, rounds, all, k) {
      if k < |turns| {
        SameStep(cfg, rounds, turns, all, k);
      }
    }
  }

  lemma SameStep(cfg: Config, rounds: seq<Round>, a: seq<Turn>, b: seq<Turn>, k: nat)
    requires |a| <= |rounds| && |b| <= |rounds| && k < |a| && k < |b|
    requires b[k] == a[k] && (k > 0 ==> b[k - 1] == a[k - 1])
    ensures StepAt(cfg, rounds, b, k) <==> StepAt(cfg, rounds, a, k)
  {
  }

  lemma RunPrefix(cfg: Config, rounds: seq<Round>, turns: seq<Turn>)
    requires IsRun(cfg, rounds, turns) && turns != []
    ensures
      var n := |turns| - 1;
      && |turns| <= |rounds| && IsRun(cfg, rounds, turns[..n]) && Ended(turns[..n]).None?
      && turns[n] == Iteration(cfg, rounds[n], StandingAfter(cfg, turns[..n]))
  {
    var n := |turns| - 1;
    forall k | 0 <= k < n ensures StepAt(cfg, rounds, turns[..n], k) {
      SameStep(cfg, rounds, turns, turns[..n], k);
    }
    assert StepAt(cfg, rounds, turns, n);
  }

  method RunLoop(cfg: Config, rounds: seq<Round>) returns (out: Option<Outcome>, ghost turns: seq<Turn>)
    ensures !ConfigOK(cfg) ==> out.Some? && out.value.kind == ToolError && out.value.messages == [] && turns == []
    ensures ConfigOK(cfg) ==> IsRun(cfg, rounds, turns) && out == Ended(turns) && (out.None? ==> |turns| == |rounds|)
  {
    turns := [];
    var choice := ValidateConfig(cfg);
    if choice.None? {
      out := Some(Outcome(ToolError, None, [], NO_USAGE, 0, Some(PLAIN_ERROR.(config := true)), None, NO_USAGE, 0));
      return;
    }
    var st := LoopState(cfg.messages, START_USAGE, None, 0);
    var cp := new Compaction(cfg.hook);
    for i := 0 to |rounds|
      invariant fresh(cp) && cp.hook == cfg.hook
      invariant |turns| == i && IsRun(cfg, rounds, turns) && Ended(turns).None?
      invariant Standing(st, cp.View()) == StandingAfter(cfg, turns)
    {
      ghost var turn;
      st, out, turn := Iterate(cfg, cp, rounds[i], st);
      RunSnoc(cfg, rounds, turns, turn);
      turns := turns + [turn];
      if out.Some? {
        return;
      }
    }
    out := None;
  }

  // ---------- What one iteration keeps ----------

  // The run stopped inside tool execution: the client answered with calls, and
  // the last one executed failed.
  predicate StoppedInTools(cfg: Config, round: Round, t: Turn) {
    t.sending.resp.Some? && !IsEmpty(t.sending.resp.value) && t.sending.resp.value.toolCalls != []
    && RunTools(cfg.tools, t.sending.resp.value.toolCalls, round.execs).Stopped?
  }

  // A valid transcript answered by a well-formed response goes on valid, or
  // the run ends with a valid one, or it stops inside tool execution with
  // exactly the response's calls unanswered.
  lemma RepliedStands(cfg: Config, s: Standing, resp: ChatResponse, execs: nat -> Exec)
    requires Valid(s.st.transcript) && WellFormed(resp)
    ensures
      var (after, out) := Replied(cfg, s, resp, execs);
      var inTools := !IsEmpty(resp) && resp.toolCalls != [] && RunTools(cfg.tools, resp.toolCalls, execs).Stopped?;
      && (out.None? ==> Sendable(after.st.transcript))
      && (!inTools ==> Valid(after.st.transcript))
      && (inTools ==> Scan({}, after.st.transcript) == Some(Elements(IDs(resp.toolCalls)))
                      && after.st.transcript == s.st.transcript + [resp.message])
  {
    if !IsEmpty(resp) {
      ReplyExtends(s.st.transcript, resp);
      if resp.toolCalls != [] {
        RunToolsKinds(cfg.tools, resp.toolCalls, execs);
        var tools := RunTools(cfg.tools, resp.toolCalls, execs);
        if tools.Finished? {
          ResultsAnswer(s.st.transcript + [resp.message], resp, tools.results);
        }
      }
    }
  }

  lemma RepliedMessages(cfg: Config, s: Standing, resp: ChatResponse, execs: nat -> Exec)
    ensures
      var (after, out) := Replied(cfg, s, resp, execs);
      out.Some? ==> out.value.messages == after.st.transcript && out.value.kind != CompactionError
  {
    RunToolsKinds(cfg.tools, resp.toolCalls, execs);
  }

  // What a send is bound to do for the iteration around it.
  ghost predicate SendKept(cfg: Config, round: Round, transcript: seq<Message>, r: Sending) {
    && (r.resp.Some? <==> r.stop.None?)
    && (r.resp.Some? ==> round.first == Reply(r.resp.value) || round.second == Reply(r.resp.value))
    && (forall k :: 0 <= k < |r.attempts| ==> r.attempts[k] == transcript || Sendable(r.attempts[k]))
    && |r.attempts| <= (if cfg.hook.NoHook? then 1 else 2)
    && (cfg.hook.NoHook? ==> r.attempts == [transcript])
  }

  lemma IterationSends(cfg: Config, round: Round, s: Standing)
    ensures SendKept(cfg, round, s.st.transcript, Iteration(cfg, round, s).sending)
    ensures Iteration(cfg, round, s).before == s
  {
    SendsKeeps(cfg.hook, round, s.st.transcript, LastUsage(s.st));
  }

  lemma ConcludedStands(cfg: Config, round: Round, s: Standing, r: Sending)
    requires SendKept(cfg, round, s.st.transcript, r) && Valid(s.st.transcript) && WellFormedRounds([round])
    ensures
      var t := Concluded(cfg, round, s, r);
      && (t.out.None? ==> Sendable(t.after.st.transcript))
      && (t.out.Some? ==> t.out.value.messages == t.after.st.transcript)
      && (if StoppedInTools(cfg, round, t)
          then Scan({}, t.after.st.transcript) == Some(Elements(IDs(r.resp.value.toolCalls)))
               && t.after.st.transcript == Reached(s.st.transcript, r.attempts) + [r.resp.value.message]
          else Valid(t.after.st.transcript))
  {
    var sent := Standing(s.st.(transcript := Reached(s.st.transcript, r.attempts)),
        s.comp.Plus(r.reported, r.compactions));
    assert Valid(sent.st.transcript);
    if r.resp.Some? {
      assert [round][0] == round;
      RepliedStands(cfg, sent, r.resp.value, round.execs);
      RepliedMessages(cfg, sent, r.resp.value, round.execs);
    }
  }

  lemma IterationStands(cfg: Config, round: Round, s: Standing)
    requires Valid(s.st.transcript) && WellFormedRounds([round])
    ensures
      var t := Iteration(cfg, round, s);
      && (t.out.None? ==> Sendable(t.after.st.transcript))
      && (t.out.Some? ==> t.out.value.messages == t.after.st.transcript)
      && (if StoppedInTools(cfg, round, t)
          then Scan({}, t.after.st.transcript) == Some(Elements(IDs(t.sending.resp.value.toolCalls)))
               && t.after.st.transcript == Reached(s.st.transcript, t.sending.attempts) + [t.sending.resp.value.message]
          else Valid(t.after.st.transcript))
  {
    IterationSends(cfg, round, s);
    ConcludedStands(cfg, round, s, Sends(cfg.hook, round, s.st.transcript, LastUsage(s.st)));
  }

  // How an iteration leaves the counters: as they were when the client gave no
  // answer, and otherwise with that answer counted.
  ghost predicate Counted(st: LoopState, reply: Option<ChatResponse>, next: LoopState) {
    match reply
    case None => next.usage == st.usage && next.last == st.last && next.iterIdx == st.iterIdx
    case Some(resp) =>
      && next.usage == AddUsage(st.usage, resp.usage) && next.last == reply
      && next.iterIdx == st.iterIdx + Calling(resp)
  }

  lemma RepliedCounts(cfg: Config, s: Standing, resp: ChatResponse, execs: nat -> Exec)
    ensures
      var (after, out) := Replied(cfg, s, resp, execs);
      && Counted(s.st, Some(resp), after.st) && after.comp == s.comp
      && (out.None? ==> resp.toolCalls != [] && (Limit(cfg) > 0 ==> after.st.iterIdx < Limit(cfg)))
      && (out.Some? ==> Reports(out.value, after))
  {
  }

  // An outcome reports where the run got to.
  predicate Reports(out: Outcome, s: Standing) {
    && out.messages == s.st.transcript && out.response == s.st.last
    && out.totalUsage == s.st.usage.total && out.iterations == s.st.iterIdx
    && out.compactionUsage == s.comp.usage.total && out.compactions == s.comp.count
  }

  lemma IterationCounts(cfg: Config, round: Round, s: Standing)
    ensures
      var t := Iteration(cfg, round, s);
      && Counted(s.st, t.sending.resp, t.after.st)
      && t.after.comp == s.comp.Plus(t.sending.reported, t.sending.compactions)
      && (t.out.None? ==>
            t.sending.resp.Some? && t.sending.resp.value.toolCalls != []
                && (Limit(cfg) > 0 ==> t.after.st.iterIdx < Limit(cfg)))
      && (t.out.Some? ==> Reports(t.out.value, t.after))
  {
    ConcludedCounts(cfg, round, s, Sends(cfg.hook, round, s.st.transcript, LastUsage(s.st)));
  }

  lemma ConcludedCounts(cfg: Config, round: Round, s: Standing, r: Sending)
    requires r.resp.Some? <==> r.stop.None?
    ensures
      var t := Concluded(cfg, round, s, r);
      && Counted(s.st, r.resp, t.after.st) && t.after.comp == s.comp.Plus(r.reported, r.compactions)
      && (t.out.None? ==>
            r.resp.Some? && r.resp.value.toolCalls != [] && (Limit(cfg) > 0 ==> t.after.st.iterIdx < Limit(cfg)))
      && (t.out.Some? ==> Reports(t.out.value, t.after))
  {
    if r.resp.Some? {
      var sent := Standing(s.st.(transcript := Reached(s.st.transcript, r.attempts)),
          s.comp.Plus(r.reported, r.compactions));
      RepliedCounts(cfg, sent, r.resp.value, round.execs);
    }
  }

  // Each kind of outcome says how the iteration ended; sent is the transcript
  // last handed to the client.
  ghost predicate KindExplained(cfg: Config, round: Round, t: Turn, out: Outcome) {
    var sent, resp := Reached(t.before.st.transcript, t.sending.attempts), t.sending.resp;
    match out.kind
    case FinalAnswer =>
      && out.err.None? && resp.Some? && resp.value.toolCalls == [] && !IsEmpty(resp.value)
      && out.messages == sent + [resp.value.message]
    case EmptyResponse => out.err.None? && resp.Some? && IsEmpty(resp.value) && out.messages == sent
    case TerminalTool => out.err.None? && resp.Some? && EndedByCall(cfg, round, sent, resp.value, out)
    case MaxIterations =>
      && out.err.None? && out.terminal.None? && resp.Some? && resp.value.toolCalls != []
      && Limit(cfg) > 0 && out.iterations >= Limit(cfg)
      && RunTools(cfg.tools, resp.value.toolCalls, round.execs).Finished?
      && out.messages == Answered(sent, resp.value, RunTools(cfg.tools, resp.value.toolCalls, round.execs).results)
    case _ =>
      && out.err.Some?
      && if StoppedInTools(cfg, round, t)
         then RunTools(cfg.tools, resp.value.toolCalls, round.execs) == Stopped(TurnStop(out.kind, out.err.value))
              && out.messages == sent + [resp.value.message]
         else t.sending.stop == Some(TurnStop(out.kind, out.err.value)) && out.messages == sent
  }

  function Answered(sent: seq<Message>, resp: ChatResponse, results: seq<ToolResult>): seq<Message> {
    sent + [resp.message] + [ToolResultMessage(results)]
  }

  // The turn ended by one of its calls, the last executed, that stopped the
  // loop without an error; every call has its result.
  predicate EndedByCall(cfg: Config, round: Round, sent: seq<Message>, resp: ChatResponse, out: Outcome) {
    var tools := RunTools(cfg.tools, resp.toolCalls, round.execs);
    && tools.Finished? && tools.terminal.Some? && out.terminal == tools.terminal
    && out.terminal.value.call in resp.toolCalls && out.terminal.value.result.stop && !out.terminal.value.result.isError
    && out.messages == Answered(sent, resp, tools.results)
  }

  lemma ConcludedExplained(cfg: Config, round: Round, s: Standing, r: Sending)
    requires (r.resp.Some? <==> r.stop.None?) && (r.stop.Some? ==> StopExplained(r.stop.value))
    requires Concluded(cfg, round, s, r).out.Some?
    ensures KindExplained(cfg, round, Concluded(cfg, round, s, r), Concluded(cfg, round, s, r).out.value)
  {
    if r.resp.Some? {
      RunToolsKinds(cfg.tools, r.resp.value.toolCalls, round.execs);
    }
  }

  // ---------- What holds of every run ----------

  // The transcripts handed to the client, its successful answers, and what the
  // hook reported and had adopted, in order.
  ghost function Sent(turns: seq<Turn>): seq<seq<Message>> {
    if turns == [] then [] else Sent(turns[..|turns| - 1]) + turns[|turns| - 1].sending.attempts
  }

  ghost function Replies(turns: seq<Turn>): seq<ChatResponse> {
    if turns == [] then [] else Replies(turns[..|turns| - 1]) + Answer(turns[|turns| - 1])
  }

  function Answer(t: Turn): seq<ChatResponse> {
    if t.sending.resp.Some? then [t.sending.resp.value] else []
  }

  ghost function Reported(turns: seq<Turn>): seq<Usage> {
    if turns == [] then [] else Reported(turns[..|turns| - 1]) + turns[|turns| - 1].sending.reported
  }

  ghost function Adopted(turns: seq<Turn>): nat {
    if turns == [] then 0 else Adopted(turns[..|turns| - 1]) + turns[|turns| - 1].sending.compactions
  }

  // From a valid request the loop's own transcript stays valid, and never ends
  // with an assistant message once the request did not.
  lemma {:induction false} TranscriptsStayValid(cfg: Config, rounds: seq<Round>, turns: seq<Turn>)
    requires IsRun(cfg, rounds, turns) && Ended(turns).None?
    requires Valid(cfg.messages) && WellFormedRounds(rounds)
    ensures Valid(StandingAfter(cfg, turns).st.transcript)
    ensures turns != [] || Sendable(cfg.messages) ==> Sendable(StandingAfter(cfg, turns).st.transcript)
  {
    if turns != [] {
      var n := |turns| - 1;
      RunPrefix(cfg, rounds, turns);
      TranscriptsStayValid(cfg, rounds, turns[..n]);
      assert WellFormedRounds([rounds[n]]);
      IterationStands(cfg, rounds[n], StandingAfter(cfg, turns[..n]));
    }
  }

  lemma SentValid(transcript: seq<Message>, attempts: seq<seq<Message>>)
    requires Valid(transcript)
    requires forall k :: 0 <= k < |attempts| ==> attempts[k] == transcript || Sendable(attempts[k])
    ensures forall k :: 0 <= k < |attempts| ==> Valid(attempts[k])
  {
  }

  // Whatever the environment does, a valid request is only ever continued by
  // valid transcripts.
  lemma {:induction false} RunSendsValid(cfg: Config, rounds: seq<Round>, turns: seq<Turn>)
    requires IsRun(cfg, rounds, turns)
    requires Valid(cfg.messages) && WellFormedRounds(rounds)
    ensures forall k :: 0 <= k < |Sent(turns)| ==> Valid(Sent(turns)[k])
  {
    if turns != [] {
      var n := |turns| - 1;
      RunPrefix(cfg, rounds, turns);
      var before := StandingAfter(cfg, turns[..n]);
      RunSendsValid(cfg, rounds, turns[..n]);
      TranscriptsStayValid(cfg, rounds, turns[..n]);
      IterationSends(cfg, rounds[n], before);
      SentValid(before.st.transcript, turns[n].sending.attempts);
    }
  }

  lemma PendingIsInvalid(msgs: seq<Message>, calls: seq<ToolCall>)
    requires calls != [] && Scan({}, msgs) == Some(Elements(IDs(calls)))
    ensures !Valid(msgs)
  {
    assert IDs(calls)[0] in Elements(IDs(calls));
  }

  // The outcome's transcript is valid exactly when the run did not stop inside
  // tool execution. It can have stopped there only if its kind is a tool
  // error, a cancellation or a deadline, and always has if it is a tool error;
  // then exactly the last turn's calls are unanswered.
  lemma RunEndsValid(cfg: Config, rounds: seq<Round>, turns: seq<Turn>)
    requires IsRun(cfg, rounds, turns) && Ended(turns).Some?
    requires Valid(cfg.messages) && WellFormedRounds(rounds)
    ensures
      var out, last := Ended(turns).value, turns[|turns| - 1];
      var inTools := StoppedInTools(cfg, rounds[|turns| - 1], last);
      && (Valid(out.messages) <==> !inTools)
      && (inTools ==> out.kind in {ToolError, Canceled, DeadlineReached})
      && (out.kind == ToolError ==> inTools)
      && (inTools ==>
            && out.response == last.sending.resp
            && Scan({}, out.messages) == Some(Elements(IDs(out.response.value.toolCalls)))
            && out.messages == Reached(last.before.st.transcript, last.sending.attempts) + [out.response.value.message])
  {
    var n := |turns| - 1;
    RunPrefix(cfg, rounds, turns);
    var before := StandingAfter(cfg, turns[..n]);
    TranscriptsStayValid(cfg, rounds, turns[..n]);
    assert WellFormedRounds([rounds[n]]);
    IterationStands(cfg, rounds[n], before);
    IterationCounts(cfg, rounds[n], before);
    IterationKinds(cfg, rounds[n], before);
    if StoppedInTools(cfg, rounds[n], turns[n]) {
      PendingIsInvalid(turns[n].after.st.transcript, turns[n].sending.resp.value.toolCalls);
    }
  }

  // So by kind alone: every other outcome's transcript can be sent on.
  lemma OtherKindsEndValid(cfg: Config, rounds: seq<Round>, turns: seq<Turn>)
    requires IsRun(cfg, rounds, turns) && Ended(turns).Some?
    requires Valid(cfg.messages) && WellFormedRounds(rounds)
    ensures Ended(turns).value.kind !in {ToolError, Canceled, DeadlineReached} ==> Valid(Ended(turns).value.messages)
  {
    RunEndsValid(cfg, rounds, turns);
  }

  // Which stops happened inside tool execution.
  lemma IterationKinds(cfg: Config, round: Round, s: Standing)
    ensures
      var t := Iteration(cfg, round, s);
      t.out.Some? ==>
        && (StoppedInTools(cfg, round, t) ==> t.out.value.kind in {ToolError, Canceled, DeadlineReached})
        && (t.out.value.kind == ToolError ==> StoppedInTools(cfg, round, t))
  {
    SendsStops(cfg.hook, round, s.st.transcript, LastUsage(s.st));
    ConcludedKinds(cfg, round, s, Sends(cfg.hook, round, s.st.transcript, LastUsage(s.st)));
  }

  lemma ConcludedKinds(cfg: Config, round: Round, s: Standing, r: Sending)
    requires (r.resp.Some? <==> r.stop.None?) && (r.stop.Some? ==> StopExplained(r.stop.value))
    ensures
      var t := Concluded(cfg, round, s, r);
      t.out.Some? ==>
        && (StoppedInTools(cfg, round, t) ==> t.out.value.kind in {ToolError, Canceled, DeadlineReached})
        && (t.out.value.kind == ToolError ==> StoppedInTools(cfg, round, t))
  {
    if r.resp.Some? {
      RunToolsKinds(cfg.tools, r.resp.value.toolCalls, round.execs);
    }
  }

  lemma KeepLastIteration(cfg: Config, round: Round, s: Standing)
    requires cfg.hook.KeepLastHook? && Sendable(s.st.transcript)
    ensures var t := Iteration(cfg, round, s); t.out.Some? ==> t.out.value.kind != CompactionError
  {
    var r := Sends(cfg.hook, round, s.st.transcript, LastUsage(s.st));
    KeepLastSends(cfg.hook, round, s.st.transcript, LastUsage(s.st));
    if r.resp.Some? {
      var sent := Standing(s.st.(transcript := Reached(s.st.transcript, r.attempts)),
          s.comp.Plus(r.reported, r.compactions));
      RepliedMessages(cfg, sent, r.resp.value, round.execs);
    }
  }

  // With KeepLast as the hook, and a request not ending with an assistant
  // message, compaction never fails.
  lemma KeepLastNeverFails(cfg: Config, rounds: seq<Round>, turns: seq<Turn>)
    requires IsRun(cfg, rounds, turns)
    requires cfg.hook.KeepLastHook? && Sendable(cfg.messages) && WellFormedRounds(rounds)
    ensures Ended(turns).Some? ==> Ended(turns).value.kind != CompactionError
  {
    if turns != [] {
      var n := |turns| - 1;
      RunPrefix(cfg, rounds, turns);
      TranscriptsStayValid(cfg, rounds, turns[..n]);
      KeepLastIteration(cfg, rounds[n], StandingAfter(cfg, turns[..n]));
    }
  }

  lemma {:induction false} RunCounts(cfg: Config, rounds: seq<Round>, turns: seq<Turn>)
    requires IsRun(cfg, rounds, turns) && Ended(turns).None?
    ensures StandingAfter(cfg, turns).st.iterIdx == |turns| && (turns != [] && Limit(cfg) > 0 ==> |turns| < Limit(cfg))
  {
    if turns != [] {
      var n := |turns| - 1;
      RunPrefix(cfg, rounds, turns);
      RunCounts(cfg, rounds, turns[..n]);
      IterationCounts(cfg, rounds[n], StandingAfter(cfg, turns[..n]));
    }
  }

  lemma TallyStep(before: LoopState, reply: Option<ChatResponse>, after: LoopState, replies: seq<ChatResponse>)
    requires Tallies(before, replies) && Counted(before, reply, after)
    ensures Tallies(after, replies + if reply.Some? then [reply.value] else [])
  {
    if reply.Some? {
      OneMoreReply(before, replies, reply.value, after.transcript);
    } else {
      assert replies + [] == replies;
    }
  }

  // The loop's counters are the fold of the answers so far, and the hook's
  // totals that of what it reported and had adopted.
  lemma {:induction false} RunTallies(cfg: Config, rounds: seq<Round>, turns: seq<Turn>)
    requires IsRun(cfg, rounds, turns)
    ensures Tallies(StandingAfter(cfg, turns).st, Replies(turns))
    ensures StandingAfter(cfg, turns).comp == Totals(START_USAGE, 0).Plus(Reported(turns), Adopted(turns))
  {
    if turns == [] {
      NothingTallied(cfg.messages);
    } else {
      var n := |turns| - 1;
      RunPrefix(cfg, rounds, turns);
      var before := StandingAfter(cfg, turns[..n]);
      RunTallies(cfg, rounds, turns[..n]);
      IterationCounts(cfg, rounds[n], before);
      TallyStep(before.st, turns[n].sending.resp, turns[n].after.st, Replies(turns[..n]));
      PlusPlus(Totals(START_USAGE, 0), Reported(turns[..n]), Adopted(turns[..n]), turns[n].sending.reported,
          turns[n].sending.compactions);
    }
  }

  lemma NothingTallied(messages: seq<Message>)
    ensures Tallies(LoopState(messages, START_USAGE, None, 0), [])
  {
    assert UsageOf([]) == [];
  }

  // The outcome accounts exactly: usage is the field-wise sum over all
  // successful responses, Iterations counts the tool-calling ones, and
  // CompactionUsage and Compactions add up what the hook reported, and how
  // many of its transcripts were adopted, over all iterations.
  lemma RunAccounts(cfg: Config, rounds: seq<Round>, turns: seq<Turn>)
    requires IsRun(cfg, rounds, turns) && Ended(turns).Some?
    ensures
      var out, replies := Ended(turns).value, Replies(turns);
      && TotalsTo(out.totalUsage, UsageOf(replies))
      && out.iterations == ToolReplies(replies)
      && out.response == (if replies == [] then None else Some(replies[|replies| - 1]))
      && TotalsTo(out.compactionUsage, Reported(turns))
      && out.compactions == Adopted(turns)
  {
    RunTallies(cfg, rounds, turns);
    RunPrefix(cfg, rounds, turns);
    AddAllSums(Reported(turns));
    IterationCounts(cfg, rounds[|turns| - 1], StandingAfter(cfg, turns[..|turns| - 1]));
  }

  // What a send reports and adopts: the non-zero usage of each hook call made,
  // and one for each transcript of the hook's that it handed to the client.
  lemma SendsAccount(hook: Hook, round: Round, messages: seq<Message>, last: Usage)
    ensures
      var r := Sends(hook, round, messages, last);
      var before := HookSays(hook, Compact.CompactInput(Compact.BeforeTurn, messages, last), round.before);
      && (r.attempts == [] ==> r.compactions == 0 && r.reported == Spent(before))
      && (r.attempts != [] ==>
            var overflow := HookSays(hook, Compact.CompactInput(Compact.Overflow, r.attempts[0], last), round.overflow);
            && r.compactions == (if before.messages.Some? then 1 else 0) + (if |r.attempts| == 2 then 1 else 0)
            && (before.messages.Some? ==> r.attempts[0] == before.messages.value)
            && r.reported == Spent(before) +
                 if !hook.NoHook? && Overflowed(round.firstCtx, round.first) then Spent(overflow) else [])
  {
    var before := HookSays(hook, Compact.CompactInput(Compact.BeforeTurn, messages, last), round.before);
    var (msgs, cerr) := Checked(before);
    if cerr.None? {
      SendsFromAccounts(hook, round, msgs.GetOr(messages), last, if msgs.Some? then 1 else 0, Spent(before));
    }
  }

  lemma SendsFromAccounts(hook: Hook, round: Round, first: seq<Message>, last: Usage, n: nat, spent: seq<Usage>)
    ensures
      var r := SendsFrom(hook, round, first, last, n, spent);
      var overflow := HookSays(hook, Compact.CompactInput(Compact.Overflow, first, last), round.overflow);
      && r.attempts != [] && r.attempts[0] == first
      && r.compactions == n + (if |r.attempts| == 2 then 1 else 0)
      && r.reported == spent + if !hook.NoHook? && Overflowed(round.firstCtx, round.first) then Spent(overflow) else []
  {
    assert spent + [] == spent;
  }

  // And its kind says how the run ended.
  lemma RunExplained(cfg: Config, rounds: seq<Round>, turns: seq<Turn>)
    requires IsRun(cfg, rounds, turns) && Ended(turns).Some?
    ensures
      var out, last := Ended(turns).value, turns[|turns| - 1];
      && KindExplained(cfg, rounds[|turns| - 1], last, out)
      && (last.sending.stop.Some? ==> StopExplained(last.sending.stop.value))
      && (out.kind == MaxIterations ==> out.iterations == Limit(cfg) == |turns|)
  {
    var n := |turns| - 1;
    RunPrefix(cfg, rounds, turns);
    var before := StandingAfter(cfg, turns[..n]);
    SendsStops(cfg.hook, rounds[n], before.st.transcript, LastUsage(before.st));
    ConcludedExplained(cfg, rounds[n], before, Sends(cfg.hook, rounds[n], before.st.transcript, LastUsage(before.st)));
    IterationCounts(cfg, rounds[n], before);
    RunCounts(cfg, rounds, turns[..n]);
  }

  // A limited run makes at most Limit iterations, so it has ended once that
  // many rounds are there, and each makes one provider attempt, or two with a
  // hook.
  lemma {:induction false} RunBounds(cfg: Config, rounds: seq<Round>, turns: seq<Turn>)
    requires IsRun(cfg, rounds, turns)
    ensures Limit(cfg) > 0 ==> |turns| <= Limit(cfg)
    ensures Limit(cfg) > 0 && |turns| == Limit(cfg) ==> Ended(turns).Some?
    ensures |Sent(turns)| <= (if cfg.hook.NoHook? then |turns| else 2 * |turns|)
    ensures |Replies(turns)| <= |turns|
  {
    if turns != [] {
      var n := |turns| - 1;
      RunPrefix(cfg, rounds, turns);
      RunBounds(cfg, rounds, turns[..n]);
      RunCounts(cfg, rounds, turns[..n]);
      if Ended(turns).None? {
        RunCounts(cfg, rounds, turns);
      }
      IterationSends(cfg, rounds[n], StandingAfter(cfg, turns[..n]));
    }
  }

  lemma {:induction false} SentAlone(turns: seq<Turn>)
    requires forall k :: 0 <= k < |turns| ==> turns[k].sending.attempts == [turns[k].before.st.transcript]
    ensures |Sent(turns)| == |turns|
    ensures forall k :: 0 <= k < |turns| ==> Sent(turns)[k] == turns[k].before.st.transcript
  {
    if turns != [] {
      SentAlone(turns[..|turns| - 1]);
    }
  }

  lemma BeforeAt(cfg: Config, rounds: seq<Round>, turns: seq<Turn>, k: nat)
    requires IsRun(cfg, rounds, turns) && k < |turns|
    ensures turns[k].before == BeforeOf(cfg, turns, k)
  {
    assert StepAt(cfg, rounds, turns, k);
    IterationSends(cfg, rounds[k], BeforeOf(cfg, turns, k));
  }

  lemma SendsItsTranscript(cfg: Config, rounds: seq<Round>, turns: seq<Turn>, k: nat)
    requires IsRun(cfg, rounds, turns) && cfg.hook.NoHook? && k < |turns|
    ensures turns[k].sending.attempts == [turns[k].before.st.transcript]
  {
    assert StepAt(cfg, rounds, turns, k);
    IterationSends(cfg, rounds[k], BeforeOf(cfg, turns, k));
  }

  lemma AppendsTwo(cfg: Config, round: Round, s: Standing)
    requires Iteration(cfg, round, s).out.None? && cfg.hook.NoHook?
    ensures
      var after := Iteration(cfg, round, s).after.st.transcript;
      s.st.transcript <= after && |after| == |s.st.transcript| + 2
  {
    var r := Sends(cfg.hook, round, s.st.transcript, LastUsage(s.st));
    IterationSends(cfg, round, s);
    var sent := Standing(s.st.(transcript := Reached(s.st.transcript, r.attempts)),
        s.comp.Plus(r.reported, r.compactions));
    RepliedAppends(cfg, sent, r.resp.value, round.execs);
  }

  lemma RepliedAppends(cfg: Config, s: Standing, resp: ChatResponse, execs: nat -> Exec)
    ensures
      var (after, out) := Replied(cfg, s, resp, execs);
      out.None? ==> s.st.transcript <= after.st.transcript && |after.st.transcript| == |s.st.transcript| + 2
  {
  }

  // Without a hook each attempt resends the transcript of the one before, with
  // one assistant and one tool message more.
  lemma RunGrows(cfg: Config, rounds: seq<Round>, turns: seq<Turn>)
    requires IsRun(cfg, rounds, turns) && cfg.hook.NoHook?
    ensures |Sent(turns)| == |turns|
    ensures turns != [] ==> Sent(turns)[0] == cfg.messages
    ensures forall k :: 0 < k < |turns| ==>
              Sent(turns)[k - 1] <= Sent(turns)[k] && |Sent(turns)[k]| == |Sent(turns)[k - 1]| + 2
  {
    forall k | 0 <= k < |turns| ensures turns[k].sending.attempts == [turns[k].before.st.transcript] {
      SendsItsTranscript(cfg, rounds, turns, k);
    }
    SentAlone(turns);
    if turns != [] {
      BeforeAt(cfg, rounds, turns, 0);
    }
    forall k | 0 < k < |turns| ensures Sent(turns)[k - 1] <= Sent(turns)[k]
        && |Sent(turns)[k]| == |Sent(turns)[k - 1]| + 2 {
      NextTranscript(cfg, rounds, turns, k);
    }
  }

  lemma GrowsAt(cfg: Config, rounds: seq<Round>, turns: seq<Turn>, k: nat)
    requires IsRun(cfg, rounds, turns) && cfg.hook.NoHook? && k < |turns| - 1
    ensures
      var before, after := BeforeOf(cfg, turns, k).st.transcript, turns[k].after.st.transcript;
      before <= after && |after| == |before| + 2
  {
    assert StepAt(cfg, rounds, turns, k + 1);
    assert StepAt(cfg, rounds, turns, k);
    AppendsTwo(cfg, rounds[k], BeforeOf(cfg, turns, k));
  }

  lemma NextTranscript(cfg: Config, rounds: seq<Round>, turns: seq<Turn>, k: nat)
    requires IsRun(cfg, rounds, turns) && cfg.hook.NoHook? && 0 < k < |turns|
    ensures turns[k - 1].before.st.transcript <= turns[k].before.st.transcript
    ensures |turns[k].before.st.transcript| == |turns[k - 1].before.st.transcript| + 2
  {
    BeforeAt(cfg, rounds, turns, k);
    BeforeAt(cfg, rounds, turns, k - 1);
    GrowsAt(cfg, rounds, turns, k - 1);
  }

  // ---------- Exactly when a KeepLast result can be sent ----------

  // A compacted transcript is one Run accepts unless the input ended with an
  // assistant message and turns are kept.
  lemma KeepLastUsable(msgs: seq<Message>, turns: nat)
    requires Valid(msgs) && Compact.SplitSpan(msgs, turns).Drops()
    ensures
      var res := ReasoningFilter.WithoutReasoning(Compact.SplitSpan(msgs, turns).Kept(msgs, []));
      Sendable(res) <==> !EndsWithAssistant(msgs) || turns == 0
  {
    Compact.CompactionKeepsValid(msgs, turns, []);
    Compact.CompactionEnd(msgs, turns, []);
  }

  // A chat history that ends with an answer is such a transcript.
  function AnsweredChat(): seq<Message> {
    [UserText("q1"), Message(Assistant, [Text("a1", false)])] + [UserText("q2"),
        Message(Assistant, [Text("a2", false)])]
  }

  lemma AnsweredIsClear(q: string, a: string)
    ensures Scan({}, [UserText(q), Message(Assistant, [Text(a, false)])]) == Some({})
  {
    var user, answer := UserText(q), Message(Assistant, [Text(a, false)]);
    assert !user.content[0].ReasoningPart? && !answer.content[0].ReasoningPart?;
    assert CallIDs(answer.content) == [] && Elements<string>([]) == {};
    assert Step({}, user) == Some({}) && Step({}, answer) == Some({});
    ScanSnoc({}, [], user);
    ScanSnoc({}, [user], answer);
    assert [] + [user] == [user] && [user] + [answer] == [user, answer];
  }

  lemma AnsweredChatDrops()
    ensures Compact.SplitSpan(AnsweredChat(), 1).Drops()
  {
    var chat := AnsweredChat();
    assert Compact.HeadLen(chat) == 1;
    Compact.CutTurns(chat, 1, 1);
    assert chat[1..] == [chat[1]] + ([chat[2]] + [chat[3]]);
    Compact.TurnsConcat([chat[1]], [chat[2]] + [chat[3]]);
    Compact.TurnsConcat([chat[2]], [chat[3]]);
  }

  lemma KeepLastUnusable()
    ensures
      var chat := AnsweredChat();
      && Valid(chat) && Compact.SplitSpan(chat, 1).Drops()
      && !Sendable(ReasoningFilter.WithoutReasoning(Compact.SplitSpan(chat, 1).Kept(chat, [])))
  {
    AnsweredIsClear("q1", "a1");
    AnsweredIsClear("q2", "a2");
    ScanConcat({}, AnsweredChat()[..2], AnsweredChat()[2..]);
    AnsweredChatDrops();
    KeepLastUsable(AnsweredChat(), 1);
  }
}
