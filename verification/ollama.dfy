/** The chat message of the Ollama client API, as the token counter and the sliding window see it. */
module Ollama {
  import opened Wrappers

  /** A requested tool call; `arguments` is its JSON text, `None` when it cannot be encoded. */
  datatype ToolCall = ToolCall(name: string, arguments: Option<string>)

  datatype Message = Message(role: string, content: string, toolCalls: seq<ToolCall>)
}
