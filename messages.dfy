/**
 * The conversation's data: JSON values (tool arguments), tool-call requests,
 * and the four message kinds the tool loop puts into its history.
 */
module Messages {
  import opened Wrappers

  /** A JSON value, as carried by a tool call's `args` and by opaque tool results. */
  datatype Json =
    | JNull
    | JBool(b: bool)
    | JNumber(n: int)
    | JString(s: string)
    | JArray(items: seq<Json>)
    | JObject(members: seq<(string, Json)>)

  /** A model's request to run the tool `name` on `args`; `id` ties the answer back to it. */
  datatype ToolCall = ToolCall(name: string, args: Json, id: string)

  /**
   * A history entry. Every kind carries `content`; an assistant message may carry
   * tool calls (`None` when the model sent no `tool_calls` field), and a tool
   * message names the call it answers.
   */
  datatype Message =
    | SystemMessage(content: string)
    | HumanMessage(content: string)
    | AIMessage(content: string, toolCalls: Option<seq<ToolCall>>)
    | ToolMessage(content: string, toolCallId: string)

  /** What the chat model returns: always an assistant message. */
  type Reply = m: Message | m.AIMessage? witness AIMessage("", None)

  /** The loop continues after `m` exactly when `tool_calls` is present and non-empty. */
  predicate RequestsTools(m: Message) {
    m.AIMessage? && m.toolCalls.Some? && |m.toolCalls.value| > 0
  }

  /** The tool calls a message carries, empty when it carries none. */
  function CallsOf(m: Message): (calls: seq<ToolCall>)
    ensures |calls| > 0 <==> RequestsTools(m)
  {
    if m.AIMessage? && m.toolCalls.Some? then m.toolCalls.value else []
  }
}
