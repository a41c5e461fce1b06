/** The domain values of the model port (internal/llm/model.go). */
module Llm {
  import opened Base

  type Role = string

  const ROLE_SYSTEM: Role := "system"
  const ROLE_USER: Role := "user"
  const ROLE_ASSISTANT: Role := "assistant"
  const ROLE_TOOL: Role := "tool"

  /** A provider extension map, known by its JSON encoding; None when it cannot be encoded. */
  datatype Payload = NoPayload | Payload(encoded: Option<string>)

  datatype FunctionCall = FunctionCall(name: string, arguments: string)

  datatype ToolCall = ToolCall(index: Option<int>, id: string, kind: string, callee: FunctionCall, extra: Payload)

  datatype Message = Message(
    role: Role, content: string, name: string, toolCalls: seq<ToolCall>,
    toolCallID: string, toolName: string, reasoning: string, extra: Payload)

  datatype Usage = Usage(prompt: int, completion: int, total: int)

  datatype Response = Response(message: Message, usage: Usage, finishReason: string)

  function TextMessage(role: Role, content: string): Message {
    Message(role, content, "", [], "", "", "", NoPayload)
  }

  function ToolResult(content: string, call: ToolCall): Message {
    Message(ROLE_TOOL, content, "", [], call.id, call.callee.name, "", NoPayload)
  }

  const EMPTY_RESPONSE := Response(TextMessage("", ""), Usage(0, 0, 0), "")
}
