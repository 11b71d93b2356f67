/** The gateway's message and tool shapes that the route produces. */
module Sdk {
  import opened Wrappers
  import opened Js

  /**
   * An element of an assistant's content list. The route puts the text in the
   * list as a bare string; `TextPart` stands for that string.
   */
  datatype AssistantPart =
    | TextPart(text: string)
    | ToolCallPart(toolCallId: string, toolName: string, args: Json)

  /** Assistant content: a bare string, or a list of parts. */
  datatype AssistantContent = Text(text: string) | Parts(parts: seq<AssistantPart>)
  {
    /** The content as a list of parts, a bare string being a one-part list. */
    function AsParts(): seq<AssistantPart>
    {
      match this
      case Text(s) => [TextPart(s)]
      case Parts(ps) => ps
    }
  }

  /**
   * The `result` of a tool-result part. On the wire these are `null`, the parsed
   * JSON value and the raw string; the model keeps the three origins apart.
   */
  datatype ToolResultValue = ResultNull | ResultParsed(value: Json) | ResultRaw(raw: string)

  datatype ToolResultPart = ToolResultPart(toolCallId: string, toolName: string, result: ToolResultValue)

  /** A gateway message; the constructor fixes the role. */
  datatype ModelMessage =
    | UserMessage(content: string)
    | AssistantMessage(assistant: AssistantContent)
    | SystemMessage(content: string)
    | ToolMessage(results: seq<ToolResultPart>)
  {
    /** The `role` field of the message on the wire. */
    function Role(): string
    {
      match this
      case UserMessage(_) => "user"
      case AssistantMessage(_) => "assistant"
      case SystemMessage(_) => "system"
      case ToolMessage(_) => "tool"
    }
  }

  /** A gateway tool descriptor; `parameters` wraps the input schema unchanged. */
  datatype Tool = Tool(description: Option<string>, parameters: Json)

  /** What the route hands to the gateway's streaming call. `model` is `None` for a JSON `null`. */
  datatype GatewayRequest = GatewayRequest(
    model: Option<string>,
    system: string,
    messages: seq<ModelMessage>,
    tools: map<string, Tool>)
}
