/** The provider-neutral shapes of service/src/types/runtime.types.ts. */
module RuntimeTypes {
  import opened Json
  import opened Sequences
  import opened Wrappers

  /** Counts are JSON numbers; nothing upstream promises that they are whole. */
  datatype TokenUsage = TokenUsage(promptTokens: real, completionTokens: real, totalTokens: real)

  datatype ToolCall = ToolCall(id: string, name: string, arguments: Json)

  datatype FinishReason = Stop | ToolCalls | Length | ContentFilter

  datatype StreamEvent =
    | Text(delta: string)
    | ToolCallEvent(toolCall: ToolCall)
    | Done(usage: Option<TokenUsage>, finishReason: Option<FinishReason>)
    | Error(code: string, message: string)

  datatype ProviderChatResponse =
    ProviderChatResponse(content: string, toolCalls: seq<ToolCall>, finishReason: Option<FinishReason>,
      usage: TokenUsage)

  const NO_USAGE := TokenUsage(0.0, 0.0, 0.0)

  /** What one provider stream produced, and whether it then threw. */
  datatype StreamRun = StreamRun(events: seq<StreamEvent>, failed: bool)

  function TextOf(e: StreamEvent): string {
    if e.Text? then e.delta else ""
  }

  function CallOf(e: StreamEvent): seq<ToolCall> {
    if e.ToolCallEvent? then [e.toolCall] else []
  }

  /** The whole text a consumer of the events has read. */
  function TextIn(events: seq<StreamEvent>): string {
    FlatMap(TextOf, events)
  }

  /** The tool calls a consumer of the events has received. */
  function CallsIn(events: seq<StreamEvent>): seq<ToolCall> {
    FlatMap(CallOf, events)
  }

  ghost predicate NoDone(events: seq<StreamEvent>) {
    forall e :: e in events ==> !e.Done?
  }

  /** Exactly one `done`, and it is the last event. */
  ghost predicate EndsInOneDone(events: seq<StreamEvent>) {
    events != [] && events[|events| - 1].Done? && NoDone(events[..|events| - 1])
  }

  /** What every provider stream owes the fallback loop. */
  ghost predicate WellShaped(run: StreamRun) {
    if run.failed then NoDone(run.events) else EndsInOneDone(run.events)
  }
}
