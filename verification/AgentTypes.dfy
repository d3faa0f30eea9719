/** Messages, events and failures shared by the agent loop and the agent that listens to it. */
module AgentTypes {
  import opened Wrappers
  import opened Outcomes

  /** A rejected promise. `abortLike` is what `isAbortError` tests: the abort message or the AbortError name. */
  datatype Failure = Failure(abortLike: bool, message: string)

  const ABORT_ERROR_MESSAGE := "Request was aborted"

  const ABORT_ERROR := Failure(true, ABORT_ERROR_MESSAGE)

  type Awaited<+T> = Outcome<T, Failure>

  datatype StopReason = Stop | Length | ToolUse | Error | Aborted

  datatype ToolCall = ToolCall(id: string, name: string, arguments: string)

  datatype AgentMessage =
    | UserMessage(text: string)
    | CustomMessage(text: string)
    | AssistantMessage(text: string, toolCalls: seq<ToolCall>, stopReason: StopReason, errorMessage: Option<string>)
    | ToolResultMessage(toolCallId: string, toolName: string, text: string, isError: bool)

  /** What a provider answers with: always an assistant message. */
  type AssistantReply = m: AgentMessage | m.AssistantMessage?
    witness AssistantMessage("", [], Stop, None)

  /** A tool's result; `terminate` is the early-termination hint, false when the hint is absent. */
  datatype ToolOutput = ToolOutput(text: string, terminate: bool)

  datatype AgentEvent =
    | AgentStart
    | AgentEnd(messages: seq<AgentMessage>)
    | TurnStart
    | TurnEnd(message: AgentMessage, toolResults: seq<AgentMessage>)
    | MessageStart(message: AgentMessage)
    | MessageUpdate(message: AgentMessage)
    | MessageEnd(message: AgentMessage)
    | ToolExecutionStart(toolCallId: string, toolName: string, arguments: string)
    | ToolExecutionUpdate(toolCallId: string, toolName: string, arguments: string, partial: ToolOutput)
    | ToolExecutionEnd(toolCallId: string, toolName: string, result: ToolOutput, isError: bool)

  datatype ToolExecutionMode = Sequential | Parallel

  datatype Tool = Tool(name: string, executionMode: Option<ToolExecutionMode>)

  /** The first tool registered under a name, as `Array.find` picks it. */
  function FindTool(tools: seq<Tool>, name: string): (tool: Option<Tool>)
    ensures tool.Some? ==> tool.value in tools && tool.value.name == name
    ensures tool.None? ==> forall t <- tools :: t.name != name
  {
    if tools == [] then None
    else if tools[0].name == name then Some(tools[0])
    else FindTool(tools[1..], name)
  }

  /** Concatenation of a list of batches. */
  function Flatten<T>(batches: seq<seq<T>>): seq<T> {
    if batches == [] then [] else batches[0] + Flatten(batches[1..])
  }

  lemma {:induction false} FlattenAppend<T>(a: seq<seq<T>>, b: seq<seq<T>>)
    ensures Flatten(a + b) == Flatten(a) + Flatten(b)
  {
    if a == [] {
      assert a + b == b;
    } else {
      assert (a + b)[1..] == a[1..] + b;
      FlattenAppend(a[1..], b);
    }
  }
}
