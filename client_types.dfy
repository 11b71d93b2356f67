/** The application's chat format, as the client sends it in the request body. */
module ClientTypes {
  import opened Wrappers
  import opened Js

  /** The function a tool call invokes, with its arguments as serialised JSON. */
  datatype AppFunctionCall = AppFunctionCall(name: string, argumentsJson: string)

  /** A tool call issued by the assistant; its `type` is always "function" and is not kept. */
  datatype AppToolCall = AppToolCall(id: string, fn: AppFunctionCall)

  /**
   * One chat message. The role is kept as the string the client sent, so that a
   * value outside "USER", "ASSISTANT", "SYSTEM", "TOOL" can reach the route.
   */
  datatype AppChatMessage = AppChatMessage(
    role: string,
    content: Option<string>,
    toolCalls: Nullish<seq<AppToolCall>>,
    toolCallId: Nullish<string>,
    name: Nullish<string>)

  /** A tool the model may call; the input schema is an opaque JSON value. */
  datatype AppTool = AppTool(name: string, description: Nullish<string>, inputSchema: Json)

  const USER := "USER"
  const ASSISTANT := "ASSISTANT"
  const SYSTEM := "SYSTEM"
  const TOOL := "TOOL"

  /** The four roles the client format declares. */
  predicate KnownRole(role: string)
  {
    role == USER || role == ASSISTANT || role == SYSTEM || role == TOOL
  }
}
