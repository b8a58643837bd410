/** The provider-neutral conversation types of llm/llm.go. Strings are sequences
    of runes; `args` is the raw JSON text of a tool call. */
module Llm {

  datatype Role = System | User | Assistant | Tool

  function RoleName(r: Role): string {
    match r
    case System => "system"
    case User => "user"
    case Assistant => "assistant"
    case Tool => "tool"
  }

  datatype ToolCall = ToolCall(id: string, name: string, args: string)

  datatype Message = Message(
    role: Role,
    content: string,
    toolCalls: seq<ToolCall>,
    toolCallId: string)

  function UserMessage(content: string): Message { Message(User, content, [], "") }

  function ToolResult(callId: string, content: string): Message { Message(Tool, content, [], callId) }

  datatype Request = Request(messages: seq<Message>, maxTokens: nat, forceToolName: string)

  datatype Response = Response(
    content: string,
    toolCalls: seq<ToolCall>,
    inputTokens: nat,
    outputTokens: nat,
    provider: string,
    model: string)
}
