# Completions route: message and tool translation, and the handler's response

This project models the one endpoint of an AI-gateway front end, `POST` on the
completions route (`src/app/api/completions/route.ts`). The endpoint takes a chat
transcript in the application's format (roles `USER`, `ASSISTANT`, `SYSTEM`,
`TOOL`, nullable text, optional tool calls) and a list of tool definitions. It
translates both into the gateway's shapes, hands them to the gateway's
streaming call, and returns either the stream, a 400 for a body without
`messages`, or a 500 carrying the thrown error's message.

Everything is modelled as functions on values, because the route itself works
that way: an `Array.map` with a `switch` on the role, a `reduce` into a record,
and straight-line branching around the gateway call.

- `wrappers.dfy` — `Option` and `Result`.
- `js.dfy` (module `Js`) — the JavaScript notions the route relies on:
  - `Nullish` for fields typed `T | null` that may also be left out, with `??`;
  - JSON values, and `Parser`, the type of `JSON.parse`;
  - thrown values (an `Error` with its message, or anything else);
  - `MapAll`, which is `Array.prototype.map` with a callback that may throw.
    The first exception escapes. Its lemmas say the map succeeds exactly when
    every element does, and that it fails with the first failing element's error.
- `client_types.dfy` (module `ClientTypes`) — the request's chat format, from
  `src/lib/client.types.ts`. The role is a string, so an unknown role can reach
  the route.
- `sdk.dfy` (module `Sdk`) — the gateway's message, part and tool shapes, and
  the request handed to the gateway.
- `route.dfy` (module `Route`) — `mapToModelMessages`, `mapToSdkTools` and
  `POST`, with the lemmas about them.

Three foreign calls become parameters:
- `JSON.parse` is a `Parser` that returns the parsed value or the `SyntaxError` message;
- `req.json()` with its destructuring is a `Result<RequestBody, Thrown>`;
- the gateway call (`streamText`, `gateway(modelId)` and `toUIMessageStreamResponse`
  together) is a function from the gateway request to a stream or a thrown value.

`Post` returns the response together with the request it handed to the
gateway, if it got that far. This is how "the gateway is not called" is stated.

Details of the code the model keeps:
- The `modelId = DEFAULT_MODEL` default is a destructuring default. It replaces
  only `undefined`, so an explicit `"modelId": null` reaches the gateway as
  `null` (`ResolveModelId` gives `None`).
- For a `TOOL` message, `result` is `null` when the content is `null` or `""`,
  the parsed value when it parses, and the raw text when it does not.
- Only a gateway failure that is thrown synchronously is caught and becomes a
  500. See "Left out".

## Model

The source functions are modelled as follows. `Route.MapMessage` is the `map`
callback (src/app/api/completions/route.ts:16-72) and `Route.MapToModelMessages`
is `mapToModelMessages` (15-74). `Route.ToolResult` is the `result` computation
of a tool message (53-58). `Route.FoldTools` and `Route.MapToSdkTools` are the
`reduce` and `mapToSdkTools` (76-88). `Route.Post` is `POST` (90-128). The rows
below name the members whose contracts state properties of these functions.

| member | source | states |
|---|---|---|
| `Js.MapAll` | src/app/api/completions/route.ts:16-73 | a successful map has one output per input, and output i is the callback's value on input i |
| `Js.MapAllSucceedsIff` | src/app/api/completions/route.ts:16-73 | the map succeeds exactly when the callback succeeds on every element |
| `Js.MapAllFailsAtFirst` | src/app/api/completions/route.ts:16-73 | a failing map throws what the callback threw on the first failing element, and every first failure determines the result |
| `Route.MapToModelMessagesPointwise` | src/app/api/completions/route.ts:15-74 | the transcript translates as a whole or not at all; on success the output has the input's length and output i is the translation of message i, so order is kept |
| `Route.MapToModelMessagesFirstError` | src/app/api/completions/route.ts:15-74 | a failing transcript fails with the error of its first failing message, and such a message exists |
| `Route.MapMessageFailsIff` | src/app/api/completions/route.ts:17-71 | a message fails exactly when its role is unknown (error "unknown messages role: " + role) or it is an assistant message with tool-call arguments that do not parse (error = the first parse error) |
| `Route.UserAndSystemPassThrough` | src/app/api/completions/route.ts:18-51 | USER and SYSTEM never fail, get role "user" / "system", copy the content unchanged (so "" stays ""), and null content becomes "" |
| `Route.AssistantPartsInOrder` | src/app/api/completions/route.ts:24-36 | assistant parts are a text part first exactly when the content is non-null and non-empty, then one tool-call part per tool call in input order with its id, function name and parsed arguments; null or absent tool calls add nothing |
| `Route.Collapse` | src/app/api/completions/route.ts:41-44 | a bare string comes out exactly when the list is one text part, and expanding the result gives back the list |
| `Route.AssistantCollapse` | src/app/api/completions/route.ts:38-45 | assistant content is a bare string exactly when there is non-empty text and no tool call; with neither it is the empty list |
| `Route.ToolMessageShape` | src/app/api/completions/route.ts:52-69 | a TOOL message never fails and yields exactly one tool-result part; a missing id or name becomes ""; the result is null for null or "" content, the parsed value when it parses, and the raw text otherwise |
| `Route.ToSdkTool` | src/app/api/completions/route.ts:82-85 | the schema is passed through; the description is absent exactly when it was null or missing, and is kept otherwise (even "") |
| `Route.FoldToolsLastWins` | src/app/api/completions/route.ts:81-87 | the fold's keys are the accumulator's plus the tool names, untouched keys keep their values, and each name holds the descriptor of its last tool |
| `Route.MapToSdkToolsLastWins` | src/app/api/completions/route.ts:76-88 | an empty list gives the empty map; the keys are exactly the tool names; each key maps to the descriptor of the last tool with that name, and every key has such a last tool |
| `Route.ResolveModelId` | src/app/api/completions/route.ts:92-100 | an omitted model id becomes DEFAULT_MODEL, an explicit null stays null, and a given id is kept |
| `Route.PostRejectsMissingMessages` | src/app/api/completions/route.ts:102-106 | the status is 400 exactly when the body was read and has no `messages`, and then nothing is sent to the gateway |
| `Route.PostDispatches` | src/app/api/completions/route.ts:108-118 | the gateway is called exactly when the body was read, has `messages` and every message translates; it gets the translated transcript, the adapted tools (empty when `tools` is missing), the system prompt and the resolved model; the response is its stream or a 500 with its error |
| `Route.PostReportsFirstTranslationError` | src/app/api/completions/route.ts:108-126 | a failing translation gives a 500 with the first failing message's error, and the gateway is not called |
| `Route.PostRejectsUnknownRole` | src/app/api/completions/route.ts:70-126 | a message with an unknown role anywhere gives a 500 and the gateway is not called |
| `Route.PostServerErrorIff` | src/app/api/completions/route.ts:90-127 | the status is 500 exactly when the body could not be read, a message failed to translate, or the gateway call threw; an unreadable body reports its error's message, or "An unknown error occurred" for a non-Error |

## Left out

- The gateway call: `streamText`, `gateway(modelId)` and `toUIMessageStreamResponse` are external SDK code and network streaming. They become one function parameter that succeeds with an opaque stream or throws. Errors raised while the stream runs, after the handler has returned, are not modelled.
- `req.json()` and destructuring the body: these are foreign calls, so the handler receives their outcome. The model assumes the body's fields have the declared types. A JSON `null` body, which throws on destructuring, is modelled only as a body that could not be read. A non-array `messages` is not modelled.
- `JSON.parse` internals: it is a `Parser` parameter.
- `jsonSchema(tool.inputSchema)`: a library wrapper. The schema passes through as an opaque JSON value.
- `console.error`, `Response` and header construction, `JSON.stringify` of the 500 body, and `maxDuration`: these are runtime and I/O concerns. A streamed response's status belongs to the gateway client and is shown as 200.
- `src/lib/constants.ts` is not part of this model beyond `DEFAULT_MODEL`. The system prompt's text is a parameter of `Post`.
- The literal `type` tags of the parts ("tool-call", "tool-result") and the `type: "function"` of an incoming tool call: they are constant and are implied by the datatype constructors.
- `Route.ToolMessageShape`: on the wire a parsed `null` or string result looks the same as the `null` and raw-text fallbacks. The model keeps the three origins apart.
- `Route.MapToSdkToolsLastWins`: assigning to a plain object ignores the key `__proto__` as an own property. A tool with that name is not modelled; the model treats every name as an ordinary key.
- Tool order: the adapted tools are a `map`, which has no key order. The JavaScript record keeps a duplicate name at the position where it was first added, but with the last value, and the gateway client passes the tools on in that order. The model does not capture this order.
