/**
 * The OpenAI-compatible chat-completion values exchanged with the LLM endpoint
 * (internal/llm/types.go). JSON field tags and the non-streaming response are not modelled.
 */
module LlmTypes {
  import opened Wrappers

  /** The function name and JSON argument text of a tool call. */
  datatype FunctionCall = FunctionCall(name: string, arguments: string)

  /** A tool invocation requested by the model; `callType` is the JSON `type` field. */
  datatype ToolCall = ToolCall(id: string, callType: string, func: FunctionCall)

  /** One conversation message; empty strings stand for the omitted JSON fields. */
  datatype Message = Message(
    role: string,
    content: string,
    toolCalls: seq<ToolCall>,
    toolCallId: string,
    name: string)

  /** A tool offered to the model: the function's name, description and JSON schema text. */
  datatype FunctionDef = FunctionDef(name: string, description: string, parameters: string)
  datatype ToolDef = ToolDef(defType: string, func: FunctionDef)

  /** A streamed tool-call fragment; `index` says which call it continues. */
  datatype ToolCallDelta = ToolCallDelta(index: int, id: string, callType: string, func: FunctionCall)

  datatype MessageDelta = MessageDelta(role: string, content: string, toolCalls: seq<ToolCallDelta>)

  datatype ChunkChoice = ChunkChoice(index: int, delta: MessageDelta, finishReason: Option<string>)

  /** One decoded `data:` record of the stream. */
  datatype ChatCompletionChunk = ChatCompletionChunk(id: string, choices: seq<ChunkChoice>)

  function UserMessage(content: string): Message {
    Message("user", content, [], "", "")
  }

  function SystemMessage(content: string): Message {
    Message("system", content, [], "", "")
  }

  function ToolMessage(callId: string, name: string, content: string): Message {
    Message("tool", content, [], callId, name)
  }
}
