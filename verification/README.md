# Request-handling layer of simple-memcache, in Dafny

This project models the request-handling layer of a small in-memory list store
that speaks a line-based request/response protocol. There are three pieces:

- **The command router** (`Mux`, module `RespMux`, `mux.dfy`). It is a class
  with a mutable `handlers` map from command name to handler. `Add` registers
  or overwrites a handler. `ServeRESP` looks the command up by exact string
  equality. An unknown command fails with the not-supported error. A known one
  is handed the unchanged request, and the handler's outcome is returned as it is.
- **The list command handlers** (`listApi`, module `ListHandlers`, `list.dfy`).
  There are five: LeftPop, RightPop, LeftPush, RightPush and Range. Each one
  checks the argument count, splits the arguments, makes one call through the
  list engine interface, and maps the engine's answer to a reply: Nil,
  BulkString, Int or Array. The helpers the handlers call are in module
  `HandlerArgs` (`args.dfy`): `validateArgsExact`, `validateArgsMin`,
  `parseInt` and `errInvalidInteger`. Their bodies are not modelled; each is
  modelled by its name and by how the handlers use its result.
- **The protocol error taxonomy** (module `RespErrors`, `errors.dfy`). There
  are two error kinds, `commandNotSupported` and `protocolError`. Each has a
  message (`Error()`) and a fixed client code (`ClientErrorCode()`).

Module `Resp` (`resp.dfy`) holds the shared values: the request, the reply
variants, the error values, Go's `(value, error)` pair as `Result`, and the
handler shape.

**The list engine is abstract.** Its implementation is not part of this model.
`ListEngine<S>` is the record of its five operations (`LLeftPush`,
`LRightPush`, `LLeftPop`, `LRightPop`, `LRange`). Each operation takes the
store's current state `S` and the call's arguments. It returns a `Step`: the
result (a value or an error) and the store's next state. A handler is a
function `(S, Req) -> Step<S, RType>`. Every handler property is stated
relative to what the engine returns. Threading the state makes two things
explicit:

- "the engine is not called": the handler's answer is the same for every
  engine, and the state it returns is the state it was given;
- "the engine's effect is kept": the handler returns the engine's next state.

Where the design description and the code disagree, the model follows the code:

- The design says the invalid-integer error names the offending literal. The
  code always records the first bound's literal (see Findings).
- The design describes a protocol error's message as just the message. The
  code appends `" not supported"` to it, as it does for the unknown-command
  error.

## Model

| member | source | states |
|---|---|---|
| `RespErrors.ClientError.Error` | pkg/infrastructure/resp/errors.go:16-34 | For both kinds, the message is the stored command (or formatted message) verbatim as a prefix, followed by exactly `" not supported"`. |
| `RespErrors.ClientError.ClientErrorCode` | pkg/infrastructure/resp/errors.go:20-38 | The code is an upper-case token. It is `NOT_SUPPORTED` exactly for the unknown-command kind and `PROTOCOL_ERROR` exactly for the protocol kind, whatever the error carries. |
| `RespErrors.CodeDeterminesKind` | pkg/infrastructure/resp/errors.go:21-37 | Two errors have the same code if and only if they are of the same kind, so a client can tell the kinds apart by code alone. |
| `RespErrors.MessageDeterminesError` | pkg/infrastructure/resp/errors.go:16-34 | Within one kind, equal messages mean equal errors: the command or message can be recovered from the text. |
| `RespErrors.MessagesOfKindsCollide` | pkg/infrastructure/resp/errors.go:16-34 | An unknown command `x` and a protocol error with message `x` have the same message but different codes. |
| `RespMux.NotSupported` | pkg/infrastructure/resp/mux.go:21 | The router's error for an unknown command is of the unknown-command kind, with code `NOT_SUPPORTED`, and carries that exact command. |
| `RespMux.Mux.constructor` | pkg/infrastructure/resp/mux.go:7-9 | `NewMux` starts with no handlers. |
| `RespMux.Mux.Add` | pkg/infrastructure/resp/mux.go:11-13 | After `Add(c, h)`, `c` is registered to `h`, replacing any earlier handler. Every other registered command keeps its handler, and no other command is added. |
| `RespMux.Mux.ServeRESP` | pkg/infrastructure/resp/mux.go:15-24 | An unregistered command fails with the not-supported error carrying that command, and the store is left as it was. A registered command returns exactly what its handler returns on the same request: the router does no validation of its own. |
| `RespMux.FreshMuxRejects` | pkg/infrastructure/resp/mux.go:7-22 | On a freshly built router, every request fails with the not-supported error for its command, and the store is untouched. |
| `RespMux.LastRegistrationWins` | pkg/infrastructure/resp/mux.go:11-24 | After `Add(c, h1)` and then `Add(c, h2)`, a request for `c` gets exactly `h2`'s outcome. |
| `RespMux.AddKeepsOtherCommands` | pkg/infrastructure/resp/mux.go:11-13 | Registering `c` does not change how any request for another command is served. |
| `RespMux.LookupIsExact` | pkg/infrastructure/resp/mux.go:15-21 | Lookup is case-sensitive: with only `LPUSH` registered, `lpush` fails with the not-supported error carrying `lpush`. |
| `HandlerArgs.ValidateArgsExact` | pkg/infrastructure/resp/handlers/list.go:23-25 | Fails if and only if the argument count is not exactly `n`. The error records the command and the exact-count rule. |
| `HandlerArgs.ValidateArgsMin` | pkg/infrastructure/resp/handlers/list.go:65-67 | Fails if and only if there are fewer than `n` arguments. The error records the command and the minimum-count rule. |
| `HandlerArgs.ErrInvalidInteger` | pkg/infrastructure/resp/handlers/list.go:107-115 | The invalid-integer error records both the command and the literal it is given. |
| `HandlerArgs.ParseInt` | pkg/infrastructure/resp/handlers/list.go:107-113 | The parse succeeds exactly on base-10 literals. A leading `-` gives a value that is not positive; any other literal gives a non-negative value. |
| `HandlerArgs.ParseFormatRoundTrip` | pkg/infrastructure/resp/handlers/list.go:107-113 | Every integer's canonical base-10 text parses back to that integer. |
| `HandlerArgs.LeadingPlusOrZeroIgnored` | pkg/infrastructure/resp/handlers/list.go:107-113 | For every non-empty digit string `d`, `+d` and `0d` parse to the same value as `d`. |
| `HandlerArgs.NonNumeralsFail` | pkg/infrastructure/resp/handlers/list.go:107-110 | `"x"`, `""`, `"-"` and `"1x"` do not parse; `"-12"` and `"+7"` do. |
| `ListHandlers.PopReply` | pkg/infrastructure/resp/handlers/list.go:30-38 | An engine error is passed on unchanged. The empty string, and only it, becomes Nil. Any other string `s` becomes `BulkString(s)`. `BulkString("")` is never produced. |
| `ListHandlers.KeyAndValues` | pkg/infrastructure/resp/handlers/list.go:69-70 | The key followed by the values is exactly the argument list, so nothing is dropped or reordered. |
| `ListHandlers.ListApi.ServeLeftPop` | pkg/infrastructure/resp/handlers/list.go:21-40 | A count other than 1 is rejected with the validation error before the engine is reached, and the store is untouched. Otherwise `LLeftPop(Args[0])` is called and its next state kept. An engine error is propagated, `""` becomes Nil, any other `s` becomes `BulkString(s)`. The reply is never `BulkString("")`. |
| `ListHandlers.ListApi.ServeRightPop` | pkg/infrastructure/resp/handlers/list.go:42-61 | The same as LeftPop, through `LRightPop`. |
| `ListHandlers.ListApi.ServeLeftPush` | pkg/infrastructure/resp/handlers/list.go:63-79 | Fewer than 2 arguments are rejected before the engine is reached, and the store is untouched. Otherwise `LLeftPush(Args[0], Args[1..])` is called, and the reply is `Int(n)` for exactly the length `n` the engine returned, or the engine's error unchanged. |
| `ListHandlers.ListApi.ServeRightPush` | pkg/infrastructure/resp/handlers/list.go:81-97 | The same as LeftPush, through `LRightPush`. |
| `ListHandlers.ListApi.ServeRange` | pkg/infrastructure/resp/handlers/list.go:99-124 | A count other than 3 is rejected before any parsing. If either bound fails to parse, the result is the invalid-integer error with the command and `Args[1]`, and the engine is not reached. Otherwise `LRange(Args[0], min, max)` is called, and the reply is `Array` of exactly the engine's values, or the engine's error unchanged. |
| `ListHandlers.ListApi.ServeRangeIntended` | pkg/infrastructure/resp/handlers/list.go:112-115 | The corrected Range handler. When a bound fails to parse, the error records a literal that does not parse. Every other case is served exactly as by the as-written handler. |
| `ListHandlers.RangeNamesFirstBound` | pkg/infrastructure/resp/handlers/list.go:112-115 | As written, `LRANGE k 0 x` fails naming `"0"`, a literal that parses. |
| `ListHandlers.ArityFailuresIgnoreEngine` | pkg/infrastructure/resp/handlers/list.go:21-103 | For each handler, a request that fails its argument-count rule gets the same answer from every engine, and the store is left as it was. |
| `ListHandlers.RangeRejectsNonNumeral` | pkg/infrastructure/resp/handlers/list.go:107-110 | `LRANGE k x 1` fails with the invalid-integer error naming `"x"`, and the store is untouched. |
| `ListHandlers.RangePassesBounds` | pkg/infrastructure/resp/handlers/list.go:107-122 | For any integer bounds written in canonical base-10 form, the engine receives exactly those integers, in order. The reply is the engine's values as an Array, or the engine's error. |
| `ListHandlers.PushWithoutValuesThroughRouter` | pkg/infrastructure/resp/mux.go:23 | A push request that carries only a key, sent through the router to the LeftPush handler, fails with the handler's own minimum-count error, and the store is untouched. |

## Findings

| source | as written | input that shows it | evidently intended | confidence | as-written member | corrected member |
|---|---|---|---|---|---|---|
| pkg/infrastructure/resp/handlers/list.go:112-115 | When the upper bound fails to parse, the invalid-integer error records `req.Args[1]`, the lower bound. | `LRANGE k 0 x` yields an invalid-integer error naming `"0"`, which is a valid integer. | Record `req.Args[2]`, the literal that failed. | not executed; high (the line repeats the one above it) | `ListHandlers.RangeNamesFirstBound` | `ListHandlers.ListApi.ServeRangeIntended` |

The handler factory `ListApi.Range` keeps the code's behaviour (`ServeRange`),
because the model follows the code. `ServeRangeIntended` is the fix, with its
property proved.

## Left out

- The list engine's implementation (`domain.NewEngine`) is not part of this
  model. Its behaviour on missing keys, empty lists, index clamping and removal
  of emptied lists is therefore not modelled. Properties that depend on it,
  such as push/pop order or range clamping, are not stated.
- The `logger` field of `listApi` is not modelled: no handler uses it.
- `errProtocolError`'s `fmt.Sprintf` formatting is not modelled.
  `ProtocolError` holds the already formatted message.
- The bodies of `validateArgsExact`, `validateArgsMin`, `parseInt` and
  `errInvalidInteger` are not part of this model. The fields of the
  argument-count error are a modelling choice. `ParseInt` accepts an optional
  sign followed by one or more ASCII digits.
- The client error codes of the argument-count error and the invalid-integer
  error are not modelled. Their constructors are not modelled, so the code a
  client receives for a wrong argument count or a bound that does not parse
  is not stated. Only the two kinds of the protocol error taxonomy carry a code.
- HandlerArgs.ParseInt: does not model the 64-bit range of Go's `int`.
  Integers are unbounded, so a literal too large for 64 bits parses here.
- Registering a nil handler is not modelled. Go treats a nil handler like a
  missing one; a Dafny handler value is never nil.
- The handler factories (`LeftPop()`, `RightPop()`, `LeftPush()`,
  `RightPush()`, `Range()` on `ListApi`) only wrap the `Serve…` functions as
  handler values. Their contracts are those of the functions they wrap.
- Wire encoding of replies and decoding of requests are not modelled. The
  entry point `cmd/memcache/main.go` is not modelled either: it only loads
  configuration and wires up the transport.
- Locking and concurrent access to the engine or the router are not modelled.
  Each request is one sequential step on the store's state.
