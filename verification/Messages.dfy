// Conversation data of the llms package: roles, content parts, messages,
// tool calls and usage counts.
module Messages {
  import opened Collections

  datatype Option<+T> = None | Some(value: T) {
    function GetOr(default: T): T {
      if Some? then value else default
    }
  }

  // Role is an open string type in the source; OtherRole stands for every
  // value the validator does not know.
  datatype Role = User | Assistant | Tool | OtherRole(name: string)

  datatype ToolCall = ToolCall(id: string, name: string, parameters: string)

  datatype ToolResult = ToolResult(toolCallID: string, content: string, isError: bool)

  datatype Reasoning = Reasoning(provider: string, data: string)

  // One discriminated piece of a message. A payload is None where the source
  // holds a nil pointer. OtherPart stands for an unknown discriminant.
  datatype Part =
    | Text(text: string, cacheBreakpoint: bool)
    | CallPart(call: Option<ToolCall>)
    | ResultPart(result: Option<ToolResult>)
    | ReasoningPart(reasoning: Option<Reasoning>)
    | OtherPart(kind: string)

  datatype Message = Message(role: Role, content: seq<Part>)

  // Normalized token accounting of one provider response.
  datatype Usage = Usage(
    inputTokens: int, outputTokens: int, totalTokens: int, reasoningTokens: int,
    billableOutputTokens: int, embeddingTokens: int, cacheReadTokens: int, cacheWriteTokens: int,
    providerRequestID: string)

  const NO_USAGE := Usage(0, 0, 0, 0, 0, 0, 0, 0, "")

  function UserText(s: string): Message {
    Message(User, [Text(s, false)])
  }

  function ToolResultMessage(results: seq<ToolResult>): Message {
    Message(Tool, seq(|results|, i requires 0 <= i < |results| => ResultPart(Some(results[i]))))
  }

  function EndsWithAssistant(msgs: seq<Message>): bool {
    |msgs| > 0 && msgs[|msgs| - 1].role.Assistant?
  }

  // The tool calls, call IDs and result IDs carried by parts, in order. Parts
  // without a payload contribute nothing.
  function Calls(parts: seq<Part>): seq<ToolCall> {
    if parts == [] then []
    else if parts[0].CallPart? && parts[0].call.Some? then [parts[0].call.value] + Calls(parts[1..])
    else Calls(parts[1..])
  }

  function IDs(calls: seq<ToolCall>): seq<string> {
    seq(|calls|, i requires 0 <= i < |calls| => calls[i].id)
  }

  function CallIDs(parts: seq<Part>): seq<string> {
    if parts == [] then []
    else if parts[0].CallPart? && parts[0].call.Some? then [parts[0].call.value.id] + CallIDs(parts[1..])
    else CallIDs(parts[1..])
  }

  function ResultIDs(parts: seq<Part>): seq<string> {
    if parts == [] then []
    else if parts[0].ResultPart? && parts[0].result.Some? then
        [parts[0].result.value.toolCallID] + ResultIDs(parts[1..])
    else ResultIDs(parts[1..])
  }

  predicate Distinct<T(==)>(s: seq<T>) {
    forall i, j :: 0 <= i < j < |s| ==> s[i] != s[j]
  }

  function Elements<T>(s: seq<T>): set<T> {
    set x | x in s
  }

  lemma {:induction false} CallIDsConcat(a: seq<Part>, b: seq<Part>)
    ensures CallIDs(a + b) == CallIDs(a) + CallIDs(b)
  {
    if a == [] {
      assert a + b == b;
    } else {
      CallIDsConcat(a[1..], b);
      assert (a + b)[0] == a[0] && (a + b)[1..] == a[1..] + b;
      if a[0].CallPart? && a[0].call.Some? {
        Associative([a[0].call.value.id], CallIDs(a[1..]), CallIDs(b));
      }
    }
  }

  lemma {:induction false} ResultIDsConcat(a: seq<Part>, b: seq<Part>)
    ensures ResultIDs(a + b) == ResultIDs(a) + ResultIDs(b)
  {
    if a == [] {
      assert a + b == b;
    } else {
      ResultIDsConcat(a[1..], b);
      assert (a + b)[0] == a[0] && (a + b)[1..] == a[1..] + b;
      if a[0].ResultPart? && a[0].result.Some? {
        Associative([a[0].result.value.toolCallID], ResultIDs(a[1..]), ResultIDs(b));
      }
    }
  }

  lemma {:induction false} CallIDsOfCalls(parts: seq<Part>)
    ensures CallIDs(parts) == IDs(Calls(parts))
  {
    if parts != [] {
      CallIDsOfCalls(parts[1..]);
    }
  }

  lemma {:induction false} ResultIDsOfResults(results: seq<ToolResult>)
    ensures ResultIDs(ToolResultMessage(results).content) ==
        seq(|results|, i requires 0 <= i < |results| => results[i].toolCallID)
  {
    if results != [] {
      ResultIDsOfResults(results[1..]);
      assert ToolResultMessage(results).content[1..] == ToolResultMessage(results[1..]).content;
    }
  }
}
