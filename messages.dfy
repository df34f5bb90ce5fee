/** The message and tool-call dicts exchanged with the chat model. */
module Messages {
  import opened Python

  /** `{"id": ..., "function": {"name": ..., "arguments": "<json text>"}}`.
      The argument text is kept as what `json.loads` makes of it: a JSON
      value, or JsonDecodeError for text that is not JSON. */
  datatype ToolCall = ToolCall(id: string, name: string, arguments: Outcome<Json>)

  /** A chat message, by role: the system prompt, a user turn, an assistant
      turn (its text, None when it only calls tools, and its tool calls), and
      the result of one tool call. */
  datatype Message =
    | System(content: string)
    | User(content: string)
    | Assistant(text: Option<string>, calls: seq<ToolCall>)
    | ToolResult(callId: string, content: string)

  /** The `"role"` key of the message dict. */
  function Role(m: Message): string
  {
    match m
    case System(_) => "system"
    case User(_) => "user"
    case Assistant(_, _) => "assistant"
    case ToolResult(_, _) => "tool"
  }
}
