# A verified model of the request-handling core of a Koa fork

This project models, in Dafny, the request-handling core of a TypeScript fork
of the Koa web framework:

- **route registration** on a shared routing trie (`Router`, its generated
  `get`/`post`/`put`/`patch`/`delete` registrars, `subRoute`, `createRouter`);
- **global middleware dispatch**: the recursive onion `dispatch(i)` that ends
  in `route`, then `respond` on success or `ctx.onerror` on any rejection;
- **the routing decision** (`route`);
- **response finalisation** (`respond`): its first-match-wins decision table;
- **error handling**: `Context.onerror`, which maps an error to a response,
  and the logging decision of `Application.onerror`;
- **the lazily cached cookie jar** of the context;
- **the helpers** `isJSON` and `strEnum`;
- **the body-parsing middleware**: option set-up, parser precedence by content
  type, and the rules for assigning `body`/`rawBody` and handling errors.

Modules:

| file | module | models |
|---|---|---|
| `wrappers.dfy` | `Wrappers` | `Option`, `Result`, `Outcome` |
| `utils.dfy` | `Utils` | JavaScript values, truthiness, `isJSON`, `strEnum`, `String(n)`, loose `==` against a number |
| `http.dfy` | `Http` | error objects, the response header list, the status table, the platform's serialiser and byte length |
| `routing.dfy` | `Routing` | the trie (as a table from joined path to node), `Router`, registrars, path joining |
| `context.dfy` | `RequestContext` | the response state of a context, `ctx.onerror`, the cookie jar, the error event emitter |
| `application.dfy` | `Koa` | dispatch, `route`, `respond`, `handleRequest`, `use`, `createRouter`, `Application.onerror`, option defaults |
| `body_parser.dfy` | `BodyParsing` | `BodyParser` set-up, `formatOptions`, `extendType`, `checkEnable`, `parseBody` precedence, the middleware |

Code that changes state is modelled on classes: `Trie`, `Router`,
`Context`, `CookieJar`, `Emitter`, `Application`, `Options`, `TypeList` and `IncomingRequest`. Their
methods are proved against pure functions that describe the new state:

- `Dispatch` is the middleware pipeline as a recursive trace function.
- `RouteRun` is the routing decision.
- `RespondEffect` is `respond`.
- `HandleError` is `ctx.onerror`.
- `ErrorLog` is the application logger.
- `Configured` is the body-parser set-up.
- `Handle` is one run of the body parser.

The lemmas state the source's promises about those functions.

Where the code and the tests or upstream Koa's documentation disagree, the model follows the code:

- `Router.use` is commented out, so there is no router-scoped middleware.
- `route` never binds `ctx.params`.
- The route handler is called without being awaited, so it is modelled as a
  synchronous call whose only effect is an optional synchronous throw.

## Model

| member | source | states |
|---|---|---|
| `Utils.IsJSON` | src/util/utils.ts:1-7 | false for every falsy value, for strings, for values with a callable `pipe` and for Buffers; true for every other truthy value (both directions) |
| `Utils.StreamIsNotJSON` | src/util/utils.ts:4 | a stream has a callable `pipe`, so it is never JSON |
| `Utils.StrEnum` | src/util/utils.ts:9-17 | the keys are exactly the distinct elements except `__proto__` (which a plain-object assignment cannot create), each mapped to itself |
| `Utils.StrEnumDeterminedBySet` | src/util/utils.ts:9-17 | two lists with the same elements give the same enumeration: order and repeats do not matter |
| `Utils.StrEnumIgnoresRepeats` | src/util/utils.ts:10-15 | appending a repeat of an element does not change the result |
| `Utils.NatStringRoundTrip` | src/application.ts:175 | `String(code)` of a natural number is all digits and reads back as the number |
| `Utils.DecimalStringRoundTrip` | src/application.ts:175 | `String(code)` of a non-negative integer is all digits and reads back as the integer |
| `Utils.DecimalLooselyEquals` | src/application.ts:246 | the decimal string of `n` is loosely equal to `n`, so a string status `"404"` also counts as 404 |
| `Http.Lookup` | src/context.ts:84-85 | a header is absent exactly when its name is not among the header names |
| `Http.LookupWithout` | src/application.ts:160-161 | after removing a set of names, each removed name is absent and every other name reads back as before |
| `Http.LookupSetHeader` | src/application.ts:180-181 | setting a header makes it read back with the new value and leaves every other header's value alone |
| `Http.SetHeaderAppends` | src/context.ts:91 | setting a name that is not present appends it at the end |
| `Http.WithoutTwice` | src/context.ts:85 | removing names one at a time equals removing them all at once |
| `Http.WithoutNothing` | src/context.ts:85 | removing no names leaves the list unchanged |
| `Http.WithoutAllNames` | src/context.ts:84-85 | removing every name present empties the list |
| `Http.SetAllFresh` | src/context.ts:91 | applying headers with distinct names to an empty list gives exactly those headers, in order |
| `Routing.RegistrarNames` | src/application.ts:21 | the registrars are exactly `get`, `post`, `put`, `patch`, `delete` |
| `Routing.SlotNames` | src/application.ts:69-72 | each registrar fills the slot named by its upper-cased method |
| `Routing.Upper` | src/application.ts:69 | on the five ASCII method names, `toUpperCase` keeps the length and maps each lower-case letter to upper case, leaving other characters alone |
| `Routing.StripSlash` | src/application.ts:48-50 | at most one leading `/` is removed; the string shrinks exactly when it starts with `/` |
| `Routing.SplitJoin` | src/application.ts:51 | joining slash-free segments with `/` loses nothing: splitting the result gives the segments back |
| `Routing.JoinSnoc` | src/application.ts:66 | joining a prefix plus one more segment appends `/` and the segment to the joined prefix |
| `Routing.Defined` | src/application.ts:53 | `define(path)` adds the node for `path` when absent and keeps every existing node |
| `Routing.BindStores` | src/application.ts:67-72 | a free slot is filled with the handler; every other node, slot and router marker is kept |
| `Routing.BindConflict` | src/application.ts:69-71 | binding an occupied slot fails with `already defined` and changes nothing |
| `Routing.RebindFails` | src/application.ts:69-72 | after a successful binding, binding the same method on the same path again fails and the first handler stays in the slot |
| `Routing.Trie.Define` | src/application.ts:53 | returns the node for the path (the existing one when present) and leaves all others unchanged |
| `Routing.Router.constructor` | src/application.ts:38-42 | a router keeps the shared trie and its own copy of the prefix segments |
| `Routing.Router.SubRoute` | src/application.ts:47-57 | the new router's prefix is the parent's plus the stripped prefix, the parent is unchanged, and the node for that path is defined and marked with the new router |
| `Routing.Router.Register` | src/application.ts:60-75 | the handler is bound at the router's prefix joined with the stripped path, in the upper-cased method slot; an occupied slot throws `already defined` and leaves only the node defined |
| `Routing.SubRouterPath` | src/application.ts:47-57 | a route registered on a sub-router lands on the parent prefix, the stripped sub-prefix, then the stripped path |
| `Routing.CreateRouterExample` | src/application.ts:199-205 | `createRouter('/route1')` followed by `get('/abc', …)` binds the trie path `route1/abc` |
| `RequestContext.HandleError` | src/context.ts:58-61 | the handler ignores an error exactly when it is `null` or `undefined` |
| `RequestContext.ResolveStatus` | src/context.ts:96-100 | the resolved status is 500 or a code with a phrase in the table; `ENOENT` resolves to 404; any other resolved code is the error's own numeric status |
| `RequestContext.Emitter.Emit` | src/context.ts:71 | an emitted error is appended to the errors the application has received |
| `RequestContext.RemoveAllHeaders` | src/context.ts:84-88 | removing each header name in turn leaves no header |
| `RequestContext.SetHeaders` | src/context.ts:91 | `ctx.set(err.headers)` applies the error's headers in order |
| `RequestContext.Context.constructor` | src/context.ts:23-27 | a new context has status 200, no body, no headers, is writable and has no cookie jar |
| `RequestContext.Context.Cookies` | src/context.ts:29-37 | the jar is created on first access with the application's keys and the request's `secure` flag; later accesses return the same jar |
| `RequestContext.Context.SetCookies` | src/context.ts:39-41 | the setter replaces the cached jar |
| `RequestContext.Context.OnError` | src/context.ts:47-108 | the new response, the emitted errors and the error as left are exactly those of `HandleError`; the cookie jar is untouched |
| `RequestContext.NonErrorWrapped` | src/context.ts:63 | a thrown non-Error is replaced by an `Error` whose message is `non-error thrown: ` and its JSON form |
| `RequestContext.AlreadySentOnlyEmits` | src/context.ts:65-78 | once the headers are sent or the response is unwritable, the error is emitted marked `headerSent` and the response is untouched |
| `RequestContext.EmittedBeforeStatusRewrite` | src/context.ts:63-71 | the error, thrown or wrapping a non-Error, is emitted with its original status and message, before the status is rewritten |
| `RequestContext.StatusResolution` | src/context.ts:96-103 | `ENOENT` gives 404; a status that is not a number or not in the status table gives 500; a valid status is kept; the result is always in the table |
| `RequestContext.ErrorResponse` | src/context.ts:63-107 | for any thrown value other than `null` or `undefined`, after wrapping a non-Error, and with the response still open: status is the resolved code; body is the message when exposed, else the code's reason phrase; length is that text's byte length; content type is text; the error's own headers are applied; no other headers remain; the response is ended |
| `RequestContext.NonErrorResponse` | src/context.ts:63-107 | a thrown non-Error other than `null` or `undefined` is answered with 500 and the table's phrase for 500, and the emitted error has no status and is not exposed |
| `Koa.Dispatch` | src/application.ts:134-140 | middleware `i` records its `before` first and, when nothing was rejected, its `after` last; a middleware that does not call `next` keeps the route from running and its own throw is the only possible rejection |
| `Koa.Onion` | src/application.ts:134-140 | when every middleware calls `next` and none throws, the trace is before₀…beforeₙ₋₁, the route, afterₙ₋₁…after₀; a route rejection skips every `after` and becomes the pipeline's rejection |
| `Koa.Entered` | src/application.ts:134-140 | middleware `k` runs exactly when middleware `0..k-1` each called `next` |
| `Koa.RouteEvents` | src/application.ts:136-138 | the route's events appear exactly when every middleware called `next`, and the pipeline adds no other events |
| `Koa.RouteRunsIffAllCallNext` | src/application.ts:136-138 | `route` runs if and only if every middleware called `next` |
| `Koa.FailurePropagates` | src/application.ts:134-140 | a rejection of `dispatch(k)` reached through middleware `i..k-1` is the rejection of `dispatch(i)`, and those middleware add only their `before` events |
| `Koa.EventsFrom` | src/application.ts:134-140 | every middleware event `dispatch(k)` records belongs to middleware `k` or a later one |
| `Koa.FirstFailureWins` | src/application.ts:134-140 | the throw of a reached middleware is the pipeline's rejection; no enclosing middleware's `after` runs, and a throw before `next` skips its own `after` too |
| `Koa.ThreeLayerExample` | src/application.ts:134-140 | three middleware pushing 1, 2, 3 before and 4, 5, 6 after `next` record exactly 1 … 6 |
| `Koa.RouteRun` | src/application.ts:90-104 | the route is entered, at most one handler runs, and a rejection arises only from a handler that ran |
| `Koa.RouteNotFound` | src/application.ts:96-99 | with no match, or no handler for the request method, no handler runs and nothing is thrown |
| `Koa.RouteInvokesOnce` | src/application.ts:101-103 | otherwise exactly the matched node's handler for the method runs, once, and its throw is the route's rejection |
| `Koa.RouteSeesLaterBinding` | src/application.ts:90-104 | a route bound after the application started serving is found by the next request that matches it |
| `Koa.RespondEffect` | src/application.ts:149-197 | `respond` adds at most one write to the response output and keeps the earlier ones; it never changes the status; when it writes nothing the state is untouched; it rejects only with the serialiser's error |
| `Koa.StatusBodyText` | src/application.ts:174-178 | the text is never empty; over HTTP/1.x with a non-empty `ctx.message` it is that message; otherwise a non-negative status is sent as a digit string that reads back as the status |
| `Koa.RespondSkips` | src/application.ts:150-152 | `respond === false` or an unwritable context leaves everything untouched |
| `Koa.RespondEmptyStatus` | src/application.ts:158-163 | a status in {204, 205, 304} sets the body to null, which removes the `content-type`, `content-length` and `transfer-encoding` headers and keeps every other header, and ends with no payload, even for HEAD |
| `Koa.RespondHead` | src/application.ts:165-170 | HEAD with unsent headers and a JSON body rejects with the serialiser's error when serialising throws; otherwise it ends with no payload, the length is the JSON byte size exactly when the headers are unsent and the body is JSON, and the headers are otherwise unchanged |
| `Koa.RespondEmptyBody` | src/application.ts:172-184 | a null or undefined body sends `String(code)` on HTTP/2, else `ctx.message` (the status phrase when no message was set) or `String(code)` when that is empty; type `text` and the length are set only while the headers are unsent |
| `Koa.RespondStatusPhrase` | src/application.ts:172-184 | over HTTP/1.x with no explicit message, an empty body sends the status table's phrase, so an unmatched request answers `Not Found` |
| `Koa.RespondVerbatim` | src/application.ts:186-188 | a Buffer or string body is sent as it is, with the headers untouched |
| `Koa.RespondStream` | src/application.ts:189 | a stream body is piped into the response, which stays writable with its headers untouched; responding again pipes it a second time |
| `Koa.RespondJson` | src/application.ts:191-196 | any other non-stream body is sent as its JSON text, with the length set only while the headers are unsent; a serialisation error is the rejection |
| `Koa.RespondOnce` | src/application.ts:149-197 | every write of `respond` ends the response except the pipe of a stream body, which leaves it writable; once the response has ended, or `respond` is bypassed, responding again writes nothing |
| `Koa.Respond` | src/application.ts:149-197 | the method reaches exactly the state `RespondEffect` describes; on a rejection nothing has changed |
| `Koa.Settle` | src/application.ts:145-147 | without a rejection the response is exactly `respond`'s and nothing is emitted; a rejection from the pipeline or from `respond`, other than `null`/`undefined`, emits exactly its wrapped error (marked `headerSent` once the response is out) and, while the response is open, ends it with the resolved status and the error text; a `null`/`undefined` rejection changes nothing; at most one write is added |
| `Koa.NullishRejectionLeavesResponseOpen` | src/application.ts:142-147 | a pipeline rejected with `null` or `undefined` reaches `ctx.onerror`, which ignores it: no response goes out and nothing is emitted |
| `Koa.IndentRoundTrip` | src/application.ts:251 | the logged text starts with two spaces, and removing the two spaces after each line terminator gives back the message |
| `Koa.ErrorLog` | src/application.ts:238-253 | the logger throws exactly for a non-Error, with a TypeError; a silent application or an exposed error logs nothing; anything logged is three lines, the first and last empty |
| `Koa.ErrorLogDecision` | src/application.ts:244-252 | nothing is logged exactly when the status is loosely 404, the error is exposed, or the app is silent; otherwise three lines are logged: empty, the indented stack (or `toString`), empty |
| `Koa.EnoentLoggedThough404` | src/application.ts:246 | an `ENOENT` error without a status is logged even though its response is a 404, because it is emitted before its status is rewritten |
| `Koa.Application.constructor` | src/application.ts:116-131 | `proxy` defaults to false; `subdomainOffset` defaults to 2 when absent or 0; `env` falls back to `NODE_ENV`, then to `development`; `keys` are kept when given; the root router has an empty prefix over a fresh trie |
| `Koa.Application.Use` | src/application.ts:207-211 | a function is appended at the end and the application is returned; anything else fails with the TypeError `middleware must be a function!` and leaves the list unchanged |
| `Koa.Application.CreateRouter` | src/application.ts:199-205 | the new router's prefix is the root prefix plus the prefix with up to two leading `/` removed (one here, one in `subRoute`) |
| `Koa.Application.HandleRequest` | src/application.ts:132-148 | the status is set to 404, then the trace is the dispatch of the middleware ending in `route`; the final response and emitted errors are those of `respond` on success, or of `ctx.onerror` on any rejection, including one from `respond` |
| `Koa.Application.OnError` | src/application.ts:238-253 | a non-Error fails with a TypeError and writes nothing; otherwise exactly the lines of `ErrorLog` are written |
| `BodyParsing.CheckEnable` | src/middlewares/body-parser.ts:109-111 | for a list, the result is membership; it fails exactly when the value is neither a list nor a string |
| `BodyParsing.FormatOptions` | src/middlewares/body-parser.ts:88-96 | every option key is copied with its value, and `limit` is `opts[type + 'Limit']` (undefined when absent) |
| `BodyParsing.ExtendType` | src/middlewares/body-parser.ts:98-107 | the list is extended in place by the extension types in order: nothing for a falsy value, one entry for a string, each entry of a list |
| `BodyParsing.TypesWith` | src/middlewares/body-parser.ts:34-56 | each type list is its defaults followed by the configured extensions |
| `BodyParsing.BodyParser` | src/middlewares/body-parser.ts:18-56 | returns the configuration `Configured` describes; on success the caller's options have `detectJSON` and `onerror` cleared and `returnRawBody` forced true; on a failed check they are untouched |
| `BodyParsing.Configured` | src/middlewares/body-parser.ts:18-56 | set-up fails exactly when `enableTypes` has no `includes`; each type list starts with its defaults; for a list of enabled types, each parser is enabled exactly when its name is listed |
| `BodyParsing.ConfiguredOptions` | src/middlewares/body-parser.ts:20-32 | every parser receives `returnRawBody` true, no callbacks, and its own `<type>Limit` as `limit`; the middleware keeps the `detectJSON` and `onerror` given before they were cleared |
| `BodyParsing.DefaultEnabled` | src/middlewares/body-parser.ts:23-26 | without `enableTypes`, JSON and form are enabled and text is not |
| `BodyParsing.ConfiguredTypes` | src/middlewares/body-parser.ts:34-56 | the JSON types start with the four defaults and include every configured extension |
| `BodyParsing.SkipsParsedOrDisabled` | src/middlewares/body-parser.ts:58-59 | a request with a body already set, or with parsing disabled, passes through unchanged to `next` |
| `BodyParsing.JsonTakesPrecedence` | src/middlewares/body-parser.ts:75-77 | when JSON is enabled and the type is a JSON type, JSON is chosen whatever else matches |
| `BodyParsing.DetectForcesJson` | src/middlewares/body-parser.ts:75 | a `detectJSON` callback that returns true selects JSON whatever the content type |
| `BodyParsing.FormChosen` | src/middlewares/body-parser.ts:78-80 | when JSON does not apply, an enabled form parser whose types match is chosen |
| `BodyParsing.TextChosen` | src/middlewares/body-parser.ts:81-83 | when neither JSON nor form applies, an enabled text parser whose types match is chosen |
| `BodyParsing.DefaultsNeverParseText` | src/middlewares/body-parser.ts:81-83 | with the default enabled types, the text parser is never chosen |
| `BodyParsing.ExtendedJsonTypeParsed` | src/middlewares/body-parser.ts:52-56 | a type added through `extendTypes.json` is parsed as JSON |
| `BodyParsing.ChooseParser` | src/middlewares/body-parser.ts:74-85 | only a truthy `detectJSON` that is not a function makes the choice throw; JSON is chosen only when enabled and detected or matched; form only when enabled and matched and JSON does not apply; text only when enabled and matched and neither JSON nor form applies; none only when nothing enabled applies |
| `BodyParsing.ParseBody` | src/middlewares/body-parser.ts:74-85 | the result is `{}` exactly when no parser is chosen; otherwise it is the chosen parser's result with that parser's options, and any rejection is that parser's or the choice's |
| `BodyParsing.Handle` | src/middlewares/body-parser.ts:57-72 | `next` runs exactly when nothing is rethrown; `onerror` is called at most once, and only when it is a callback; an error arises only from `parseBody`; the media type and the disable flag are kept, and so is a raw body already set |
| `BodyParsing.ParsedAssignment` | src/middlewares/body-parser.ts:60-63 | after a successful parse the body is `parsed`, or `{}` when no parser applied; an existing raw body is kept; `next` runs |
| `BodyParsing.ParseErrorRouting` | src/middlewares/body-parser.ts:64-71 | a parse error goes once to an `onerror` callback, leaving the body unset, and `next` still runs; without `onerror` it is rethrown and `next` does not run |
| `BodyParsing.Run` | src/middlewares/body-parser.ts:57-72 | the middleware leaves the request, callback calls, `next` call and rejection exactly as `Handle` describes |

## Left out

- Socket I/O is not modelled: `listen`, `callback`, `createContext`, and the `onFinished` registration that reports connection errors to `ctx.onerror`.
- The `routington` trie internals are not modelled. A defined path is a key in a table, and `match` is a parameter that returns the defined path a request path resolves to, or nothing.
- Parameter binding into `ctx.params` is left out because the code has none.
- Router-scoped `use` is left out because the code has it commented out.
- Middleware and handlers are records: markers, whether `next` is called, and where they throw. Several things they can do in the source are not captured:
  - reading or changing the context;
  - calling `next` twice;
  - registering middleware or routes during a request;
  - awaiting asynchronous work.
- A middleware that wraps `await next()` in `try`/`catch` cannot catch the downstream rejection in the model: a rejection always propagates to the outermost layer.
- Promise timing and asynchronous handlers are not modelled. Because the handler is not awaited, an asynchronous handler's rejection never reaches `ctx.onerror`; the model only has synchronous throws.
- `JSON.stringify`, `Buffer.byteLength`, the `statuses` table and `process.env.NODE_ENV` are parameters. The table is assumed to contain 500, as the `statuses` package does.
- Stream piping is recorded as a `Piped` write in the response output; the bytes it moves are not modelled. Piping leaves the response writable, as the code does, so a second `respond` on the same context would pipe the stream again.
- RespondOnce: its "nothing more is written" half holds only for a response that has ended; for a piped stream the model states the opposite (`RespondStream`).
- `response.ts` is not part of this model. Its setters are modelled as plain writes, and `ctx.type = 'text'` stores `text` rather than the looked-up media type. Two accessors follow upstream Koa instead:
  - `ctx.message` falls back to the status table's phrase.
  - Assigning `ctx.body = null` removes `content-type`, `content-length` and `transfer-encoding`.
- Assigning `ctx.status` does not update the message. While no message was set, the getter's fallback still gives the new status's phrase.
- Header names are compared exactly, without Node's case folding.
- Numbers are integers, plus `NaN`. Loose `404 == status` recognises a number, a boolean, or a string of decimal digits. Other string spellings such as `" 404"` or `"4e2"` are not recognised.
- `FormatJson` stands for `util.format('%j', v)` and maps every serialisation failure to `[Circular]`. The real `util.format` rethrows any error other than a circular-structure one.
- `NewError` builds an error with an empty `stack`. A real `Error` has a stack, so for a wrapped non-Error the model's `ErrorLog` logs `toString()` where the source logs the stack.
- `keys` is a list of strings; a `Keygrip` instance is not modelled.
- Cookie signing, `ctx.throw`/`ctx.assert`, the accessor delegation, `toJSON`/`inspect` and the debug logging decorator are left out: they are foreign libraries or reflection without decisions.
- Events and console output are recorded as sequences: the errors emitted by `app.emit('error', …)`, and the lines written by `console.error`.
- Body parsing, `ctx.request.is` and the user's callbacks are not modelled. The `co-body` parsers and `detectJSON` are parameters. `is(types)` is exact membership of the request's media type, without `type-is` normalisation or wildcards. An `onerror` callback is assumed to return normally and its effect on the context is not modelled. `next` is recorded as called or not.
- `BodyParsing.CheckEnable`: for a string `enableTypes`, the substring search is modelled. Other array-like values are not modelled.
- The `extendTypes` entries are modelled as absent, a string, or a list of strings.
