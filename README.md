# mcp-quran: envelopes, tool catalog and event-stream session routing

A Dafny model of the behavioural core of the `mcp-quran` server, a Model Context Protocol
server that exposes eleven read-only Quran query tools. The rest of the server forwards
arguments to the remote query service and is not modelled. The model covers:

- **Response envelopes** (`Helper`, from `src/helper/index.ts`). `formatMcpResponse` wraps a
  value into a single `"text"` content item: a string goes in verbatim, anything else is
  printed by `JSON.stringify(data, null, 2)`. `formatMcpError` writes `"Error: "` followed by
  `error.message` for an `Error` instance and `String(error)` otherwise. `JSON.stringify` is a
  parameter `stringify: JsValue -> Option<string>`. `None` stands for the `undefined` it
  returns for a value with no JSON text, so the item's text can be absent. The ghost predicate
  `BehavesLikeJsonStringify` pins down the two facts about it that the lemmas need:
  `undefined` has no JSON text, and a string is written as its JSON literal. Both
  formatters are functions, so they are stateless by construction.
- **JavaScript values** (`JsValues`). The values the formatters see. `String(v)` is modelled
  for them, including `Array.prototype.join` and `Error.prototype.toString`. Numbers are the
  integral ones of magnitude at most 2^53 (`JsInteger`), which JavaScript holds exactly and
  prints as their exact decimal; that decimal form is modelled with its inverse. So is the string literal
  `JSON.stringify` writes.
- **Tool catalog and registration** (`Tools`, from `allTools` in `src/index.ts` and the
  records in `src/tools`). The catalog holds the eleven tool records with their names,
  descriptions and top-level input fields. It also covers how the two chapter tools build
  their envelope. `allTools.forEach(registerTool)` is a loop over a `ToolServer` class whose
  registry refuses a name it already holds.
- **Start-up configuration** (`Config`, from `src/index.ts:65-71`). The transport is chosen
  from the environment: event-stream mode iff `USE_SSE` is exactly `"true"` or `NODE_ENV` is
  exactly `"production"`. In that mode the port text defaults to `"8080"` and the host to
  `"0.0.0.0"` when the variable is unset or empty.
- **Event-stream router and session registry** (`SseRouter`, from `src/index.ts:60-118`).
  - The pure function `Decide` gives the routing decision.
  - `Register` and `Deliveries` give its effect.
  - The class `SessionRegistry` holds the `activeTransports` map and a log of the messages
    handed to transports. Its methods `Open`, `Close` and `Route` are proved against those
    functions.
  - `ReadBody` is the `body += chunk` loop.
  - `Run` replays a sequence of requests and close/error events. The lemmas over runs show
    that a closed session never receives another message.

Behaviour of the code that the model follows as written:

- A `POST /mcp` looks its session up before reading and parsing the body. So an unknown
  session with a malformed body gets 404 "Session not found", never 400
  (`SseRouter.UnknownSessionWithBadBodyIs404`).
- A `POST /mcp` whose `sessionId` is missing or empty falls through to the final 404
  "Not Found".
- A repeated `sessionId` parameter is an array. It is truthy but never a key of the map, so
  it gets "Session not found".
- `formatMcpError` takes `message` only from `Error` instances. A plain object with a
  `message` field is reported as `"Error: [object Object]"`.
- `all_chapters` and `chapter_by_id` bypass `formatMcpResponse` and always stringify their
  result. A string result therefore comes back as its JSON literal, quotes included
  (`Tools.ChapterEnvelopeDiffersOnlyOnStrings`).
- `formatMcpError` is called only in `main().catch` (`src/index.ts:135-136`), and its result
  is discarded. A failing tool handler is not turned into an `"Error: "` envelope by this
  code: the error propagates to the protocol library.
- The `options` object of `verse_by_key` is declared without `.optional()`. Arguments
  `{key: "1:1"}` alone therefore fail the schema, although the tool's TypeScript argument type
  marks `options` optional (`Tools.VerseByKeyNeedsOptions`).

## Model

| member | source | states |
|---|---|---|
| `Helper.FormatMcpResponse` | src/helper/index.ts:6-15 | one item tagged "text"; a string's text is the string itself; any other value's text is exactly its `JSON.stringify` output |
| `Helper.FormatMcpError` | src/helper/index.ts:22-32 | one item tagged "text" whose text is present and starts with "Error: ", followed by `error.message` for an Error and `String(error)` otherwise |
| `Helper.ResponseTextAbsentIff` | src/helper/index.ts:11 | the text is absent iff the value is not a string and `JSON.stringify` gives `undefined` for it |
| `Helper.UndefinedResponseHasNoText` | src/helper/index.ts:11 | `formatMcpResponse(undefined)` has an item without text |
| `Helper.StringResponseIsNotReserialised` | src/helper/index.ts:11 | a string result is passed through and differs from its JSON serialisation |
| `Helper.ErrorTextRoundTrip` | src/helper/index.ts:23-28 | removing the "Error: " prefix from the text gives back exactly the error's message |
| `Helper.ErrorEnvelopeDeterminesMessage` | src/helper/index.ts:23-28 | two errors give equal envelopes iff their messages are equal |
| `Helper.PlainObjectMessageIsIgnored` | src/helper/index.ts:23 | a non-Error object with a `message` field is reported as "Error: [object Object]" |
| `Helper.ThrownPrimitivesAreStringified` | src/helper/index.ts:23-28 | a thrown string appears verbatim, a thrown integer of magnitude at most 2^53 as its exact decimal, `undefined` as "undefined" |
| `Helper.ThrownIntegersAreDistinguished` | src/helper/index.ts:23-28 | two thrown integers of magnitude at most 2^53 give equal error envelopes iff they are equal |
| `JsValues.IntToDecimalRoundTrip` | src/helper/index.ts:23 | the plain decimal form, which `String(n)` gives for integers of magnitude at most 2^53, reads back as that integer |
| `JsValues.QuoteChangesEveryString` | src/helper/index.ts:11 | the JSON literal of a string is at least two characters longer than the string, so never equal to it |
| `Config.EnvOr` | src/index.ts:70-71 | JavaScript "or" fallback: the variable when set and non-empty, the fallback otherwise |
| `Config.SelectTransport` | src/index.ts:65-71 | event-stream mode iff USE_SSE == "true" or NODE_ENV == "production"; port text and host are the variables when non-empty, else "8080" and "0.0.0.0" |
| `Config.ProductionOverridesUseSse` | src/index.ts:65-66 | NODE_ENV == "production" selects event-stream mode whatever USE_SSE holds |
| `Config.OnlyLiteralTrueEnablesSse` | src/index.ts:66 | outside production, any USE_SSE value other than "true" keeps the standard-stream transport |
| `Config.EmptyEnvironmentUsesStdio` | src/index.ts:65-68 | with no variables set the server uses the standard streams |
| `Config.DefaultsInEventStreamMode` | src/index.ts:70-71 | USE_SSE=true alone listens on port text "8080" at "0.0.0.0" |
| `Tools.AllToolNamesDistinct` | src/index.ts:42-54 | `allTools` has eleven tools, their names pairwise distinct and exactly the eleven names declared in the tool files |
| `Tools.MissingRequiredFieldRejected` | src/tools/verses.ts:19-30 | arguments lacking a required field fail the tool's schema |
| `Tools.UndeclaredFieldsIgnored` | src/tools/verses.ts:19-30 | adding a field the schema does not declare never changes whether arguments are accepted |
| `Tools.VerseByKeyNeedsOptions` | src/tools/verses.ts:19-30 | verse_by_key refuses `{key: "1:1"}` alone and accepts it with an options object |
| `Tools.OutOfRangeJuzPassesThrough` | src/tools/verses.ts:83 | `{juz: 31}` passes verses_by_juz's schema: the 1-30 range is documentation only |
| `Tools.ChapterToolEnvelope` | src/tools/chapters.ts:19 | the chapter tools' envelope has one item tagged "text" whose text is the serialiser's output for the result, strings included |
| `Tools.ChapterEnvelopeDiffersOnlyOnStrings` | src/tools/chapters.ts:17-35 | the chapter tools' envelope equals formatMcpResponse's on non-strings; on a string it carries the JSON literal, not the string |
| `Tools.TableFindsEveryTool` | src/index.ts:56-57 | registering distinct names in order yields a table with one entry per tool, each tool under its own name |
| `Tools.ToolServer.constructor` | src/index.ts:21-29 | a new server has no tools registered |
| `Tools.ToolServer.RegisterTool` | src/index.ts:32-39 | a new name is added with its record; an already registered name is refused and the registry left as it was |
| `Tools.ToolServer.RegisterAll` | src/index.ts:56-57 | registering a catalog on a fresh server succeeds iff its names are distinct, and then the registry is the catalog's table |
| `Tools.RegisterCatalog` | src/index.ts:42-57 | registering `allTools` serves exactly eleven tools, each under its own name |
| `SseRouter.ReadBody` | src/index.ts:103-106 | the accumulated body is the concatenation of the chunks in arrival order |
| `SseRouter.ConcatAppend` | src/index.ts:103-106 | concatenating chunks respects splitting: Concat(a + b) == Concat(a) + Concat(b) |
| `SseRouter.ChunkingIsInvisible` | src/index.ts:103-109 | a body split into chunks is routed exactly as the same body in one chunk |
| `SseRouter.OpenRegistersSession` | src/index.ts:79-82 | GET /mcp opens a stream under the fresh id; the registry gains that id and keeps every other entry |
| `SseRouter.UnknownSessionIgnoresBody` | src/index.ts:95-101 | a POST naming no registered session gets 404 "Session not found" for every body and parser; nothing delivered, registry unchanged |
| `SseRouter.UnknownSessionWithBadBodyIs404` | src/index.ts:97-109 | lookup precedes parsing: an unknown session with a malformed body gets 404, not 400 |
| `SseRouter.RepeatedSessionIdNotFound` | src/index.ts:77-100 | a repeated sessionId parameter always gets "Session not found" |
| `SseRouter.ForwardedIff` | src/index.ts:95-113 | a message is forwarded iff it is a POST to /mcp naming a registered session whose body parses; it then goes to that session only, with the parsed body, and the registry is unchanged |
| `SseRouter.RegisteredBadBodyIs400` | src/index.ts:107-113 | for a registered session the answer is 400 "Invalid JSON" iff the body does not parse |
| `SseRouter.EverythingElseNotFound` | src/index.ts:79-117 | the answer is 404 "Not Found" iff the request is neither GET /mcp nor a POST /mcp with a non-empty sessionId; nothing changes then |
| `SseRouter.OnlyOpenChangesRegistry` | src/index.ts:79-117 | no request other than GET /mcp changes the registry |
| `SseRouter.ClosedSessionRejectsMessages` | src/index.ts:85-100 | after close or error a POST for that id gets 404; removal is idempotent and leaves other sessions as they were |
| `SseRouter.RegisteredIffLive` | src/index.ts:79-92 | after any run of requests and close/error events, an id is registered iff its last lifecycle event opened it |
| `SseRouter.RunKeepsWellKeyed` | src/index.ts:81-82 | every run keeps each session stored under its own id |
| `SseRouter.NotLiveAfterClose` | src/index.ts:85-92 | an id closed and not reopened later is not live at the end of a run |
| `SseRouter.NoDeliveryAfterClose` | src/index.ts:85-100 | once a session is closed and not reopened, every later POST naming it gets 404 "Session not found" |
| `SseRouter.SessionRegistry.constructor` | src/index.ts:60 | the registry starts empty, with nothing delivered |
| `SseRouter.SessionRegistry.Open` | src/index.ts:81-82 | the new transport is stored under its id; the other entries and deliveries stay |
| `SseRouter.SessionRegistry.Close` | src/index.ts:85-92 | close and error remove exactly that id (a no-op if it is gone); deliveries stay |
| `SseRouter.SessionRegistry.Route` | src/index.ts:74-118 | the outcome is the routing decision on the old registry; the registry changes only by an opened stream; the delivery log grows only by the forwarded message |

## Left out

- Tool handler bodies: each calls the remote `@quranjs/api` service once. That service cannot be seen here, so no handler is modelled beyond the chapter tools' envelope.
- Input validation: only the top-level fields of each schema are modelled (presence and primitive kind). Validation inside the nested `options` objects is the `zod` library's behaviour and is not modelled.
- `McpServer` is modelled only as a tool registry keyed by name that refuses a duplicate name, as `server.tool` throws; its other internals are not modelled, nor are `server.connect`, `SSEServerTransport` and its `handlePostMessage`, or `StdioServerTransport`. A forwarded message is recorded as a delivery to the session's transport. An exception thrown inside `handlePostMessage` would also be answered with 400 "Invalid JSON" by the code; the model does not capture that.
- `JSON.stringify` and `JSON.parse` are parameters, not definitions. The round-trip law between them is therefore not stated.
- `parseInt` is not modelled: `Config.Transport` carries the port as the text handed to it.
- HTTP server creation, `listen`, URL parsing, console logging and `process.exit` are left out. The request's pathname and query parameter are inputs.
- Body chunks are modelled as already-decoded strings. The code decodes each chunk with `chunk.toString()`, so a multi-byte UTF-8 character split across two chunks would be decoded wrongly. That is not captured.
- Asynchronous interleaving is not modelled. A session closed between the lookup and the end of its body is one example. Each request is handled as one atomic step.
- Session ids are supplied to `Open` from outside, as the transport generates them. `SessionRegistry.Open`, like `Map.set`, replaces an entry that already has the id. Freshness is not assumed.
- The registry stores each transport as a value (its id and endpoint). The transport's own stream state and object identity are not modelled.
- `String(v)` is modelled only for the values in `JsValue`. Functions, symbols, BigInt values, non-integral numbers, integral numbers of magnitude above 2^53 (printed with the shortest digits that read back as the same double, so `2**64` prints "18446744073709552000", and from 1e21 on in exponent form, such as "1e+21"), objects with their own `toString` and cyclic arrays are not covered.
- JavaScript strings are sequences of UTF-16 code units, while `Str(s: string)` holds Unicode scalar values, so lone surrogates cannot be represented; `Quote` and `EscapeChar` accordingly leave out the `\udXXX` escape `JSON.stringify` writes for them, and `BehavesLikeJsonStringify` holds of the real serialiser only because of this.
- Helper.FormatMcpResponse: `JSON.stringify` throws a TypeError on BigInt values and on cyclic structures, so `formatMcpResponse` is not total in the code. The throw is not modelled, because `JsValue` has no BigInt or cyclic values; the one-item envelope is promised only for `JsValue` inputs.
- `main().catch` is not modelled: it calls `formatMcpError` and discards the result, then exits.
- The standard-stream transport is not modelled beyond being selected.
