/** The values that flow through the agent: JSON, content blocks and messages. */
module Messages {
  import opened Wrappers

  datatype Json =
    | Null
    | Bool(b: bool)
    | Number(n: real)
    | Str(s: string)
    | Array(items: seq<Json>)
    | Object(fields: map<string, Json>)

  const EMPTY_OBJECT := Object(map[])

  datatype ContentBlock =
    | Text(text: string)
    | Thinking(thinking: string, signature: Option<string>)
    | ToolCall(id: string, name: string, arguments: Json, partialJson: Option<string>)
    | Image(source: string)
    | Extension(typeName: string, data: Json)

  datatype StopReason = Stop | Length | ToolUse | Aborted | Failed | Transfer

  datatype ErrorKind = Throttled | ContextWindowExceeded | Auth | Network | ContentFiltered | ModelRetired

  datatype Usage = Usage(input: nat, output: nat, cacheRead: nat, cacheWrite: nat, total: nat, extra: map<string, nat>)

  const NO_USAGE := Usage(0, 0, 0, 0, 0, map[])

  datatype Cost = Cost(input: real, output: real, cacheRead: real, cacheWrite: real, total: real, extra: map<string, real>)

  const NO_COST := Cost(0.0, 0.0, 0.0, 0.0, 0.0, map[])

  datatype AssistantMessage = AssistantMessage(
    content: seq<ContentBlock>,
    provider: string,
    modelId: string,
    usage: Usage,
    cost: Cost,
    stopReason: StopReason,
    errorMessage: Option<string>,
    errorKind: Option<ErrorKind>,
    timestamp: nat)

  datatype LlmMessage =
    | User(content: seq<ContentBlock>)
    | Assistant(message: AssistantMessage)
    | ToolResult(toolCallId: string, output: seq<ContentBlock>, isError: bool)

  /** Custom messages are opaque to the library; `tag` stands for their payload. */
  datatype AgentMessage = Llm(llm: LlmMessage) | Custom(tag: string)
}
