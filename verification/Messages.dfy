/** The two message records of the gateway: the stored session message and the
    token-counting view of it. Timestamps and usage counters are not modelled. */
module Messages {
  import Text

  datatype Role = System | User | Assistant | Tool

  datatype ToolCall = ToolCall(id: string, name: string, arguments: string)

  datatype Message = Message(
    role: Role,
    content: string,
    toolCalls: seq<ToolCall>,
    toolCallID: string,
    name: string,
    summary: bool,
    internalOnly: bool,
    compacted: bool,
    tailStartID: int)

  /** What the estimator, the pruner and the summariser see of a message. */
  datatype RawMessage = RawMessage(
    role: Role,
    content: string,
    toolCallID: string,
    name: string,
    compacted: bool,
    summary: bool,
    tailStartID: int)

  const COMPACTION_USER_MESSAGE: string :=
    "What did we do so far? Respond in the same language as the conversation."
  const COMPACTION_AUTO_CONTINUE_TEXT: string :=
    "Continue if you have next steps, or stop and ask for clarification if you are unsure how to proceed."
    + " Respond in the same language as the conversation."
  const COMPACTION_OVERFLOW_CONTINUE_TEXT: string :=
    "The previous request exceeded the provider's size limit due to large context."
    + " Continue if you have next steps, or stop and ask for clarification if you are unsure how to proceed."
    + " Respond in the same language as the conversation."
  const INTERNAL_LABEL: string := "[REASONING SUMMARY]"
  const PRUNED_OUTPUT_PLACEHOLDER: string := "[Old tool result content cleared]"

  function Plain(role: Role, content: string): Message {
    Message(role, content, [], "", "", false, false, false, 0)
  }

  function SystemMessage(content: string): Message { Plain(System, content) }

  function UserMessage(content: string): Message { Plain(User, content) }

  function AssistantMessage(content: string): Message { Plain(Assistant, content) }

  function InternalMessage(content: string): Message {
    Plain(Assistant, content).(internalOnly := true)
  }

  function CallMessage(content: string, calls: seq<ToolCall>): Message {
    Plain(Assistant, content).(toolCalls := calls)
  }

  function ToolMessage(id: string, name: string, content: string): Message {
    Plain(Tool, content).(toolCallID := id, name := name)
  }

  function UserMessages(texts: seq<string>): (r: seq<Message>)
    ensures |r| == |texts| && forall i :: 0 <= i < |texts| ==> r[i] == UserMessage(texts[i])
  {
    seq(|texts|, i requires 0 <= i < |texts| => UserMessage(texts[i]))
  }

  function PromptMessage(): Message { UserMessage(COMPACTION_USER_MESSAGE) }

  function SummaryMessage(summary: string, tailStartID: int): Message {
    Plain(Assistant, summary).(summary := true, tailStartID := tailStartID)
  }

  predicate IsPrompt(m: Message) { m.role.User? && m.content == COMPACTION_USER_MESSAGE }

  /** A body that is agent context only and never shown to the user. */
  predicate IsInternalText(content: string) { INTERNAL_LABEL <= Text.Trim(content) }

  predicate IsMarker(m: Message) { m.role.Assistant? && m.summary }

  predicate IsPlaceholder(m: Message) {
    m.role.Tool? && m.compacted && m.content == PRUNED_OUTPUT_PLACEHOLDER
  }

  /** Contents with the call arguments appended, the text that is counted. */
  function JoinArguments(calls: seq<ToolCall>): string {
    if calls == [] then "" else calls[0].arguments + JoinArguments(calls[1..])
  }

  /** The conversion drops the call id and the tool name. */
  function RawOf(m: Message): RawMessage {
    RawMessage(m.role, m.content + JoinArguments(m.toolCalls), "", "", m.compacted, m.summary, m.tailStartID)
  }

  function Raw(h: seq<Message>): (r: seq<RawMessage>)
    ensures |r| == |h| && forall i :: 0 <= i < |h| ==> r[i] == RawOf(h[i])
  {
    seq(|h|, i requires 0 <= i < |h| => RawOf(h[i]))
  }

  /** What the conversion keeps of a message: all but the call id and the tool name, with the arguments appended. */
  lemma {:induction false} RawIs(h: seq<Message>, k: nat)
    requires k < |h|
    ensures |Raw(h)| == |h|
    ensures Raw(h)[k] == RawMessage(h[k].role, h[k].content + JoinArguments(h[k].toolCalls), "", "", h[k].compacted,
      h[k].summary, h[k].tailStartID)
  {
    hide JoinArguments;
  }

  /** The conversion loop that the estimator, the pruner and the compactor share. */
  method ConvertHistory(history: seq<Message>) returns (messages: seq<RawMessage>)
    ensures messages == Raw(history)
  {
    messages := [];
    for i := 0 to |history|
      invariant |messages| == i && forall k :: 0 <= k < i ==> messages[k] == RawOf(history[k])
    {
      var msg := history[i];
      var content := msg.content;
      for j := 0 to |msg.toolCalls|
        invariant content + JoinArguments(msg.toolCalls[j..]) == RawOf(msg).content
      {
        ArgumentsStep(content, msg.toolCalls[j..]);
        content := content + msg.toolCalls[j].arguments;
      }
      messages := messages + [RawMessage(msg.role, content, "", "", msg.compacted, msg.summary, msg.tailStartID)];
    }
  }

  /** The arguments of all calls, in order. */
  lemma {:induction false} ArgumentsAre(a: seq<ToolCall>, b: seq<ToolCall>, call: ToolCall)
    ensures JoinArguments([]) == "" && JoinArguments([call]) == call.arguments
    ensures JoinArguments(a + b) == JoinArguments(a) + JoinArguments(b)
  {
    assert [call][1..] == [];
    if a == [] {
      assert a + b == b;
    } else {
      assert (a + b)[1..] == a[1..] + b;
      ArgumentsAre(a[1..], b, call);
    }
  }

  lemma {:induction false} ArgumentsStep(content: string, calls: seq<ToolCall>)
    requires calls != []
    ensures content + JoinArguments(calls) == content + calls[0].arguments + JoinArguments(calls[1..])
  {
  }
}
