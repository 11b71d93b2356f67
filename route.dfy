/**
 * The completions route: the message normaliser, the tool adapter and the
 * handler's choice of response. Body parsing, `JSON.parse` and the gateway's
 * streaming call are parameters.
 */
module Route {
  import opened Wrappers
  import opened Js
  import opened ClientTypes
  import opened Sdk

  /** The model used when the request names none. */
  const DEFAULT_MODEL := "xai/grok-3-beta"

  const UNKNOWN_ROLE_PREFIX := "unknown messages role: "
  const MISSING_MESSAGES := "Missing \"messages\" in request body"
  const UNKNOWN_ERROR := "An unknown error occurred"

  /** `if (s)` on a `string | null`: both `null` and `""` are false. */
  predicate Truthy(s: Option<string>)
  {
    s.Some? && s.value != ""
  }

  /** `s ?? ""` on a `string | null`. */
  function OrEmpty(s: Option<string>): string
  {
    if s.Some? then s.value else ""
  }

  // ---------------------------------------------------------------------------
  // Message normaliser
  // ---------------------------------------------------------------------------

  /** One tool call as a tool-call part; malformed arguments throw a `SyntaxError`. */
  function MapToolCall(parse: Parser, tc: AppToolCall): Result<AssistantPart, Thrown>
  {
    match parse(tc.fn.argumentsJson)
    case Success(args) => Success(ToolCallPart(tc.id, tc.fn.name, args))
    case Failure(m) => Failure(ErrorObject(m))
  }

  function ToolCallMapper(parse: Parser): AppToolCall -> Result<AssistantPart, Thrown>
  {
    tc => MapToolCall(parse, tc)
  }

  /** The tool calls of a message; `null` or a missing list contributes none. */
  function ToolCalls(msg: AppChatMessage): seq<AppToolCall>
  {
    if msg.toolCalls.Defined? then msg.toolCalls.value else []
  }

  /** The assistant's parts in order: the text if it is non-empty, then one part per tool call. */
  function AssistantParts(parse: Parser, msg: AppChatMessage): Result<seq<AssistantPart>, Thrown>
  {
    var textParts := if Truthy(msg.content) then [TextPart(msg.content.value)] else [];
    if msg.toolCalls.Defined? then
      match MapAll(ToolCallMapper(parse), msg.toolCalls.value)
      case Failure(e) => Failure(e)
      case Success(calls) => Success(textParts + calls)
    else
      Success(textParts)
  }

  /**
   * A list holding just one text part is sent as that bare string; any other
   * list, the empty one included, is sent as it is.
   */
  function Collapse(parts: seq<AssistantPart>): (r: AssistantContent)
    ensures r.AsParts() == parts
    ensures r.Text? <==> |parts| == 1 && parts[0].TextPart?
  {
    if |parts| == 1 && parts[0].TextPart? then Text(parts[0].text) else Parts(parts)
  }

  /** The `result` of a tool message: parse errors are swallowed and the raw text kept. */
  function ToolResult(parse: Parser, content: Option<string>): ToolResultValue
  {
    if !Truthy(content) then ResultNull
    else
      match parse(content.value)
      case Success(j) => ResultParsed(j)
      case Failure(_) => ResultRaw(content.value)
  }

  /** The callback of `appMessages.map`: one chat message to one gateway message. */
  function MapMessage(parse: Parser, msg: AppChatMessage): Result<ModelMessage, Thrown>
  {
    if msg.role == USER then
      Success(UserMessage(OrEmpty(msg.content)))
    else if msg.role == ASSISTANT then
      match AssistantParts(parse, msg)
      case Failure(e) => Failure(e)
      case Success(parts) => Success(AssistantMessage(Collapse(parts)))
    else if msg.role == SYSTEM then
      Success(SystemMessage(OrEmpty(msg.content)))
    else if msg.role == TOOL then
      var part := ToolResultPart(msg.toolCallId.OrElse(""), msg.name.OrElse(""), ToolResult(parse, msg.content));
      Success(ToolMessage([part]))
    else
      Failure(ErrorObject(UNKNOWN_ROLE_PREFIX + msg.role))
  }

  function MessageMapper(parse: Parser): AppChatMessage -> Result<ModelMessage, Thrown>
  {
    msg => MapMessage(parse, msg)
  }

  /** `mapToModelMessages`: the whole transcript, or the first exception. */
  function MapToModelMessages(parse: Parser, msgs: seq<AppChatMessage>): Result<seq<ModelMessage>, Thrown>
  {
    MapAll(MessageMapper(parse), msgs)
  }

  /** Message `i` is the first whose mapping throws. */
  ghost predicate FirstFailingMessage(parse: Parser, msgs: seq<AppChatMessage>, i: int)
  {
    && 0 <= i < |msgs|
    && MapMessage(parse, msgs[i]).Failure?
    && forall j :: 0 <= j < i ==> MapMessage(parse, msgs[j]).Success?
  }

  /** Tool call `k` is the first whose arguments do not parse. */
  ghost predicate FirstBadArguments(parse: Parser, calls: seq<AppToolCall>, k: int)
  {
    && 0 <= k < |calls|
    && parse(calls[k].fn.argumentsJson).Failure?
    && forall j :: 0 <= j < k ==> parse(calls[j].fn.argumentsJson).Success?
  }

  /** Some tool call of the message has arguments that do not parse. */
  ghost predicate HasBadArguments(parse: Parser, msg: AppChatMessage)
  {
    exists k :: 0 <= k < |ToolCalls(msg)| && parse(ToolCalls(msg)[k].fn.argumentsJson).Failure?
  }

  /**
   * The transcript maps as a whole or not at all: it succeeds exactly when
   * every message does, and then output `i` is the mapping of input `i`.
   */
  lemma MapToModelMessagesPointwise(parse: Parser, msgs: seq<AppChatMessage>)
    ensures MapToModelMessages(parse, msgs).Success? <==>
      forall i :: 0 <= i < |msgs| ==> MapMessage(parse, msgs[i]).Success?
    ensures MapToModelMessages(parse, msgs).Success? ==>
      && |MapToModelMessages(parse, msgs).value| == |msgs|
      && forall i :: 0 <= i < |msgs| ==>
           MapMessage(parse, msgs[i]) == Success(MapToModelMessages(parse, msgs).value[i])
  {
    MapAllSucceedsIff(MessageMapper(parse), msgs);
  }

  /** A failing transcript throws what its first failing message throws. */
  lemma MapToModelMessagesFirstError(parse: Parser, msgs: seq<AppChatMessage>)
    ensures forall i :: FirstFailingMessage(parse, msgs, i) ==>
      MapToModelMessages(parse, msgs) == Failure(MapMessage(parse, msgs[i]).error)
    ensures MapToModelMessages(parse, msgs).Failure? ==> exists i :: FirstFailingMessage(parse, msgs, i)
  {
    var f := MessageMapper(parse);
    MapAllFailsAtFirst(f, msgs);
    forall i | FirstFailingMessage(parse, msgs, i)
      ensures MapToModelMessages(parse, msgs) == Failure(MapMessage(parse, msgs[i]).error)
    {
      assert FirstFailureAt(f, msgs, i, MapMessage(parse, msgs[i]).error);
    }
    if MapToModelMessages(parse, msgs).Failure? {
      var i :| FirstFailureAt(f, msgs, i, MapAll(f, msgs).error);
      assert FirstFailingMessage(parse, msgs, i);
    }
  }

  /**
   * A message fails exactly when its role is unknown, or when it is an
   * assistant message with a tool call whose arguments do not parse; the
   * first error is what escapes.
   */
  lemma MapMessageFailsIff(parse: Parser, msg: AppChatMessage)
    ensures MapMessage(parse, msg).Failure? <==>
      !KnownRole(msg.role) || (msg.role == ASSISTANT && HasBadArguments(parse, msg))
    ensures !KnownRole(msg.role) ==>
      MapMessage(parse, msg) == Failure(ErrorObject(UNKNOWN_ROLE_PREFIX + msg.role))
    ensures msg.role == ASSISTANT ==> forall k :: FirstBadArguments(parse, ToolCalls(msg), k) ==>
      MapMessage(parse, msg) == Failure(ErrorObject(parse(ToolCalls(msg)[k].fn.argumentsJson).error))
  {
    if msg.role == ASSISTANT && msg.toolCalls.Defined? {
      var f, calls := ToolCallMapper(parse), msg.toolCalls.value;
      MapAllSucceedsIff(f, calls);
      MapAllFailsAtFirst(f, calls);
      assert ToolCalls(msg) == calls;
      forall k | 0 <= k < |calls|
        ensures f(calls[k]).Failure? <==> parse(calls[k].fn.argumentsJson).Failure?
      {
        assert f(calls[k]) == MapToolCall(parse, calls[k]);
      }
      forall k | FirstBadArguments(parse, calls, k)
        ensures MapMessage(parse, msg) == Failure(ErrorObject(parse(calls[k].fn.argumentsJson).error))
      {
        assert FirstFailureAt(f, calls, k, ErrorObject(parse(calls[k].fn.argumentsJson).error));
      }
    }
  }

  /** User and system messages never fail and keep their text; `null` becomes "". */
  lemma UserAndSystemPassThrough(parse: Parser, msg: AppChatMessage)
    requires msg.role == USER || msg.role == SYSTEM
    ensures MapMessage(parse, msg).Success?
    ensures var m := MapMessage(parse, msg).value;
      && (m.UserMessage? || m.SystemMessage?)
      && m.Role() == (if msg.role == USER then "user" else "system")
      && (msg.content.Some? ==> m.content == msg.content.value)
      && (msg.content.None? ==> m.content == "")
  {
  }

  /**
   * The parts of a successfully mapped assistant message: a text part first
   * exactly when the content is non-empty, then one tool-call part per tool
   * call, in order, carrying its id, function name and parsed arguments.
   */
  lemma AssistantPartsInOrder(parse: Parser, msg: AppChatMessage)
    requires msg.role == ASSISTANT && MapMessage(parse, msg).Success?
    ensures MapMessage(parse, msg).value.AssistantMessage?
    ensures var ps := MapMessage(parse, msg).value.assistant.AsParts();
      var calls := ToolCalls(msg);
      var offset := if Truthy(msg.content) then 1 else 0;
      && |ps| == offset + |calls|
      && (Truthy(msg.content) <==> |ps| > 0 && ps[0].TextPart?)
      && (Truthy(msg.content) ==> ps[0] == TextPart(msg.content.value))
      && forall k :: 0 <= k < |calls| ==>
           && parse(calls[k].fn.argumentsJson).Success?
           && ps[offset + k] == ToolCallPart(calls[k].id, calls[k].fn.name, parse(calls[k].fn.argumentsJson).value)
  {
  }

  /**
   * An assistant message is sent as a bare string exactly when it has
   * non-empty text and no tool calls; with neither it is the empty list.
   */
  lemma AssistantCollapse(parse: Parser, msg: AppChatMessage)
    requires msg.role == ASSISTANT && MapMessage(parse, msg).Success?
    ensures MapMessage(parse, msg).value.AssistantMessage?
    ensures var c := MapMessage(parse, msg).value.assistant;
      && (c.Text? <==> Truthy(msg.content) && |ToolCalls(msg)| == 0)
      && (c.Text? ==> c.text == msg.content.value)
      && (!Truthy(msg.content) && |ToolCalls(msg)| == 0 ==> c == Parts([]))
  {
  }

  /**
   * A tool message never fails and becomes exactly one tool-result part; a
   * missing id or name becomes "", and the result is `null` for empty
   * content, the parsed value when the content parses, and the raw text
   * otherwise.
   */
  lemma ToolMessageShape(parse: Parser, msg: AppChatMessage)
    requires msg.role == TOOL
    ensures MapMessage(parse, msg).Success?
    ensures var m := MapMessage(parse, msg).value;
      && m.ToolMessage? && m.Role() == "tool" && |m.results| == 1
      && (msg.toolCallId.Defined? ==> m.results[0].toolCallId == msg.toolCallId.value)
      && (!msg.toolCallId.Defined? ==> m.results[0].toolCallId == "")
      && (msg.name.Defined? ==> m.results[0].toolName == msg.name.value)
      && (!msg.name.Defined? ==> m.results[0].toolName == "")
      && (!Truthy(msg.content) ==> m.results[0].result == ResultNull)
      && (Truthy(msg.content) && parse(msg.content.value).Success? ==>
            m.results[0].result == ResultParsed(parse(msg.content.value).value))
      && (Truthy(msg.content) && parse(msg.content.value).Failure? ==>
            m.results[0].result == ResultRaw(msg.content.value))
  {
  }

  // ---------------------------------------------------------------------------
  // Tool adapter
  // ---------------------------------------------------------------------------

  /** One tool as a gateway descriptor: a `null` description becomes absent. */
  function ToSdkTool(t: AppTool): (r: Tool)
    ensures r.parameters == t.inputSchema
    ensures r.description.None? <==> !t.description.Defined?
    ensures t.description.Defined? ==> r.description == Some(t.description.value)
  {
    Tool(if t.description.Defined? then Some(t.description.value) else None, t.inputSchema)
  }

  /** The `reduce` over the tools: each tool overwrites its name's entry. */
  function FoldTools(acc: map<string, Tool>, tools: seq<AppTool>): map<string, Tool>
    decreases |tools|
  {
    if tools == [] then acc
    else FoldTools(acc[tools[0].name := ToSdkTool(tools[0])], tools[1..])
  }

  /** `mapToSdkTools`. */
  function MapToSdkTools(tools: seq<AppTool>): map<string, Tool>
  {
    if |tools| == 0 then map[] else FoldTools(map[], tools)
  }

  ghost function Names(tools: seq<AppTool>): set<string>
  {
    set t | t in tools :: t.name
  }

  /** No later tool has the same name as tool `i`. */
  ghost predicate LastWithName(tools: seq<AppTool>, i: int)
  {
    && 0 <= i < |tools|
    && forall j :: i < j < |tools| ==> tools[j].name != tools[i].name
  }

  lemma {:induction false} FoldToolsLastWins(acc: map<string, Tool>, tools: seq<AppTool>)
    ensures FoldTools(acc, tools).Keys == acc.Keys + Names(tools)
    ensures forall k :: k in acc && k !in Names(tools) ==> FoldTools(acc, tools)[k] == acc[k]
    ensures forall i :: LastWithName(tools, i) ==> FoldTools(acc, tools)[tools[i].name] == ToSdkTool(tools[i])
    decreases |tools|
  {
    if tools != [] {
      var acc', rest := acc[tools[0].name := ToSdkTool(tools[0])], tools[1..];
      FoldToolsLastWins(acc', rest);
      assert tools == [tools[0]] + rest;
      assert Names(tools) == {tools[0].name} + Names(rest);
      forall i | LastWithName(tools, i)
        ensures FoldTools(acc, tools)[tools[i].name] == ToSdkTool(tools[i])
      {
        if i == 0 {
          assert tools[0].name !in Names(rest) by {
            forall t | t in rest ensures t.name != tools[0].name {
              var j :| 0 <= j < |rest| && rest[j] == t;
              assert tools[j + 1] == t;
            }
          }
        } else {
          assert rest[i - 1] == tools[i];
          assert LastWithName(rest, i - 1) by {
            forall j | i - 1 < j < |rest| ensures rest[j].name != rest[i - 1].name {
              assert rest[j] == tools[j + 1];
            }
          }
        }
      }
    }
  }

  /** Every name in the list has a last tool carrying it. */
  lemma {:induction false} LastWithNameExists(tools: seq<AppTool>, k: string)
    requires k in Names(tools)
    ensures exists i :: LastWithName(tools, i) && tools[i].name == k
    decreases |tools|
  {
    var n := |tools|;
    if tools[n - 1].name == k {
      assert LastWithName(tools, n - 1);
    } else {
      var init := tools[..n - 1];
      assert k in Names(init) by {
        var t :| t in tools && t.name == k;
        var j :| 0 <= j < n && tools[j] == t;
        assert init[j] == t;
      }
      LastWithNameExists(init, k);
      var i :| LastWithName(init, i) && init[i].name == k;
      assert LastWithName(tools, i) by {
        forall j | i < j < n ensures tools[j].name != tools[i].name {
          if j < n - 1 { assert tools[j] == init[j]; }
        }
      }
    }
  }

  /**
   * The adapted tools are keyed by exactly the tool names (none for an empty
   * list), and each name maps to the descriptor of the last tool carrying it.
   */
  lemma MapToSdkToolsLastWins(tools: seq<AppTool>)
    ensures |tools| == 0 ==> MapToSdkTools(tools) == map[]
    ensures MapToSdkTools(tools).Keys == Names(tools)
    ensures forall i :: LastWithName(tools, i) ==> MapToSdkTools(tools)[tools[i].name] == ToSdkTool(tools[i])
    ensures forall k :: k in MapToSdkTools(tools) ==> exists i :: LastWithName(tools, i) && tools[i].name == k
  {
    if |tools| > 0 {
      FoldToolsLastWins(map[], tools);
    }
    forall k | k in MapToSdkTools(tools)
      ensures exists i :: LastWithName(tools, i) && tools[i].name == k
    {
      LastWithNameExists(tools, k);
    }
  }

  // ---------------------------------------------------------------------------
  // Request handler
  // ---------------------------------------------------------------------------

  /** The request body after `req.json()` and destructuring. */
  datatype RequestBody = RequestBody(
    messages: Nullish<seq<AppChatMessage>>,
    tools: Nullish<seq<AppTool>>,
    modelId: Nullish<string>)

  /** The handler's response: the gateway's stream, a 400 text, or a 500 JSON error. */
  datatype Response<S> = Streamed(stream: S) | BadRequest(text: string) | ServerError(error: string)
  {
    /** The HTTP status; a stream keeps the default status of a successful response. */
    function Status(): int
    {
      match this
      case Streamed(_) => 200
      case BadRequest(_) => 400
      case ServerError(_) => 500
    }
  }

  /** The response, and the request handed to the gateway if the handler got that far. */
  datatype Handled<S> = Handled(response: Response<S>, dispatched: Option<GatewayRequest>)

  /** `error instanceof Error ? error.message : "An unknown error occurred"`. */
  function ErrorMessage(e: Thrown): string
  {
    match e
    case ErrorObject(m) => m
    case NonErrorValue => UNKNOWN_ERROR
  }

  /**
   * `modelId = DEFAULT_MODEL` in a destructuring: the default replaces only
   * `undefined`, so an explicit `null` reaches the gateway as `null`.
   */
  function ResolveModelId(modelId: Nullish<string>): (r: Option<string>)
    ensures modelId.Undefined? ==> r == Some(DEFAULT_MODEL)
    ensures modelId.Null? ==> r == None
    ensures modelId.Defined? ==> r == Some(modelId.value)
  {
    match modelId
    case Undefined => Some(DEFAULT_MODEL)
    case Null => None
    case Defined(id) => Some(id)
  }

  /**
   * `POST`: `body` is what `req.json()` produced or threw, `dispatch` is the
   * gateway's streaming call (success or what it throws).
   */
  function Post<S>(body: Result<RequestBody, Thrown>, parse: Parser, systemPrompt: string,
                   dispatch: GatewayRequest -> Result<S, Thrown>): Handled<S>
  {
    match body
    case Failure(e) => Handled(ServerError(ErrorMessage(e)), None)
    case Success(b) =>
      if !b.messages.Defined? then
        Handled(BadRequest(MISSING_MESSAGES), None)
      else
        match MapToModelMessages(parse, b.messages.value)
        case Failure(e) => Handled(ServerError(ErrorMessage(e)), None)
        case Success(modelMessages) =>
          var request := GatewayRequest(ResolveModelId(b.modelId), systemPrompt, modelMessages,
                                        MapToSdkTools(b.tools.OrElse([])));
          match dispatch(request)
          case Failure(e) => Handled(ServerError(ErrorMessage(e)), Some(request))
          case Success(stream) => Handled(Streamed(stream), Some(request))
  }

  /** A body without `messages` gets a 400 before anything is translated or sent. */
  lemma PostRejectsMissingMessages<S>(body: Result<RequestBody, Thrown>, parse: Parser, systemPrompt: string,
                                      dispatch: GatewayRequest -> Result<S, Thrown>)
    ensures var h := Post(body, parse, systemPrompt, dispatch);
      && (h.response.Status() == 400 <==> body.Success? && !body.value.messages.Defined?)
      && (h.response.Status() == 400 ==> h.response == BadRequest(MISSING_MESSAGES) && h.dispatched == None)
  {
  }

  /**
   * The gateway is called exactly when the body was read, has `messages`, and
   * every message translates; it then gets the translated transcript, the
   * adapted tools (none when `tools` is missing), the system prompt and the
   * resolved model, and the response is its stream or a 500 with its error.
   */
  lemma PostDispatches<S>(body: Result<RequestBody, Thrown>, parse: Parser, systemPrompt: string,
                          dispatch: GatewayRequest -> Result<S, Thrown>)
    ensures var h := Post(body, parse, systemPrompt, dispatch);
      h.dispatched.Some? <==>
        && body.Success? && body.value.messages.Defined?
        && forall i :: 0 <= i < |body.value.messages.value| ==> MapMessage(parse, body.value.messages.value[i]).Success?
    ensures var h := Post(body, parse, systemPrompt, dispatch);
      h.dispatched.Some? ==>
        var b, request := body.value, h.dispatched.value;
        var msgs := b.messages.value;
        && request.system == systemPrompt
        && request.model == ResolveModelId(b.modelId)
        && (b.modelId.Undefined? ==> request.model == Some(DEFAULT_MODEL))
        && request.tools == MapToSdkTools(b.tools.OrElse([]))
        && (!b.tools.Defined? ==> request.tools == map[])
        && |request.messages| == |msgs|
        && (forall i :: 0 <= i < |msgs| ==> MapMessage(parse, msgs[i]) == Success(request.messages[i]))
        && h.response == (match dispatch(request)
                          case Success(stream) => Streamed(stream)
                          case Failure(e) => ServerError(ErrorMessage(e)))
  {
    if body.Success? && body.value.messages.Defined? {
      MapToModelMessagesPointwise(parse, body.value.messages.value);
    }
  }

  /**
   * When a message fails to translate, the response is a 500 carrying the
   * first failing message's error, and the gateway is not called.
   */
  lemma PostReportsFirstTranslationError<S>(body: Result<RequestBody, Thrown>, parse: Parser, systemPrompt: string,
                                            dispatch: GatewayRequest -> Result<S, Thrown>, i: int)
    requires body.Success? && body.value.messages.Defined?
    requires FirstFailingMessage(parse, body.value.messages.value, i)
    ensures var h := Post(body, parse, systemPrompt, dispatch);
      && h.response == ServerError(ErrorMessage(MapMessage(parse, body.value.messages.value[i]).error))
      && h.response.Status() == 500
      && h.dispatched == None
  {
    MapToModelMessagesFirstError(parse, body.value.messages.value);
  }

  /**
   * A message with an unknown role anywhere in the transcript gives a 500,
   * and the gateway is not called.
   */
  lemma PostRejectsUnknownRole<S>(body: Result<RequestBody, Thrown>, parse: Parser, systemPrompt: string,
                                  dispatch: GatewayRequest -> Result<S, Thrown>, i: int)
    requires body.Success? && body.value.messages.Defined?
    requires 0 <= i < |body.value.messages.value| && !KnownRole(body.value.messages.value[i].role)
    ensures var h := Post(body, parse, systemPrompt, dispatch);
      h.response.Status() == 500 && h.dispatched == None
  {
  }

  /**
   * A 500 comes from exactly three places: the body could not be read, a
   * message failed to translate, or the gateway call threw; its text is the
   * thrown error's message, or the fixed fallback for a non-`Error`.
   */
  lemma PostServerErrorIff<S>(body: Result<RequestBody, Thrown>, parse: Parser, systemPrompt: string,
                              dispatch: GatewayRequest -> Result<S, Thrown>)
    ensures var h := Post(body, parse, systemPrompt, dispatch);
      h.response.Status() == 500 <==>
        || body.Failure?
        || (body.value.messages.Defined? &&
            exists i :: 0 <= i < |body.value.messages.value| && MapMessage(parse, body.value.messages.value[i]).Failure?)
        || (h.dispatched.Some? && dispatch(h.dispatched.value).Failure?)
    ensures body.Failure? ==>
      Post(body, parse, systemPrompt, dispatch).response == ServerError(ErrorMessage(body.error))
  {
    if body.Success? && body.value.messages.Defined? {
      MapToModelMessagesPointwise(parse, body.value.messages.value);
    }
  }
}
