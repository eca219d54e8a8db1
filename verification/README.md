# mcp-simple-server, modelled in Dafny

This project models the core of a minimal Model Context Protocol server. The server offers three demonstration tools: `echo`, `add` and `get_timestamp`. The model covers:

- **The tool registry** (`TOOLS`). It is a fixed, ordered list of three descriptors, each with a name, a description and an input schema (module `Registry`).
- **The call-tool dispatcher** (module `Dispatcher`).
  - `Invoke` is the `switch` inside the `try` block. It returns the tool's text, or the message of the `Error` the branch throws.
  - `CallTool` is the whole handler. Its `catch` turns every error into `{content: [{type: "text", text: "Error: <message>"}], isError: true}`.
  - Tool arguments are an untyped bag of JavaScript values (module `JsValue`). The model includes JavaScript truthiness (`!message`) and `typeof`.
  - `${n}` renders an integer in decimal (module `Decimal`). The model proves that this rendering loses nothing: parsing it gives the number back.
- **The server surface** (module `Server`).
  - `Handle` sends a list-tools request or a call-tool request to its handler.
  - `Serve` answers one session's requests in arrival order.
  - `RootInfo` is the JSON body of `GET /`, including the `TOOLS.map` projection.
- **The `WebSocketStream` adapter** in `dist/index.js`. It bridges a `ws` socket into a Node duplex stream.
  - `BridgeSpec` is the pure state machine. Its state holds the socket's `readyState` and send log, plus the readable queue, the end-of-input flag, the destroyed flag and the recorded error.
  - `WebSocketBridge.WebSocketStream` is the class. Each of its methods (handlers, `_write`, `_destroy`, `destroy`) is proved to move its state exactly as `BridgeSpec` says.
  - `WebSocketBridge.Socket` stands in for the `ws` library's socket. It keeps only what the adapter reads and changes.

`src/index.ts` and `dist/index.js` contain the same registry and the same dispatcher. The dispatcher in `dist/index.js` sits inside `createMCPServer`, and the model covers both copies at once. Inputs the model takes as parameters:

- `get_timestamp` reads the wall clock. The model takes the clock reading as the parameter `now`.
- A session takes `clock(i)` for its `i`-th request.

The code accepts more than its input schemas declare, and the adapter leans on Node's stream rules:

- `echo` accepts any *truthy* `message`, not just a non-empty string. In TypeScript, `as string` is only a cast. A truthy number, boolean, array or object is returned verbatim as the content item's `text`. This is why `ContentItem.text` is a `JsValue.Value`.
- Destroying the stream closes the socket at most once. This follows from Node's `destroy` running `_destroy` only on its first call, together with the `readyState` test in `_destroy`. `BridgeSpec.CloseAtMostOnce` proves it for every sequence of events.
- `push` on the readable side:
  - an empty chunk is not queued, as in Node;
  - a chunk pushed after destruction is dropped, as in Node;
  - the model does not queue a chunk pushed after end of input (Node would raise `ERR_STREAM_PUSH_AFTER_EOF`; see Left out);
  - `push(null)` is idempotent, as in Node.

## Model

| member | source | states |
|---|---|---|
| `Registry.RegistryShape` | src/index.ts:12-53 | the registry holds exactly three descriptors named echo, add, get_timestamp in that order; the names are pairwise distinct; every schema is of type "object" and every required name is a declared property |
| `Registry.Names` | dist/index.js:13-54 | the names of a descriptor list, position by position, with the list's length |
| `Registry.Summaries` | dist/index.js:199 | the `{name, description}` projection has the registry's length, and each entry carries the name and description of the descriptor at the same position |
| `JsValue.Truthy` | src/index.ts:83 | `!v` holds exactly for undefined, null, false, 0 and the empty string |
| `JsValue.Get` | src/index.ts:97-98 | `args?.key` is the stored value when the bag holds the key, and anything other than undefined comes from the bag |
| `JsValue.TypeOf` | src/index.ts:99 | `typeof v` is "number" exactly for numbers |
| `Decimal.NatToString` | src/index.ts:107 | the rendering of a natural number is a non-empty string of digits with no leading zero, except for 0 itself |
| `Decimal.IntToString` | dist/index.js:101 | `${n}` is an optional minus sign followed by digits; the minus sign appears exactly for negative numbers; the numeral is canonical: "0" is the only one starting with 0, and no leading zero follows the sign |
| `Decimal.ParseNatToString` | src/index.ts:102-107 | parsing the rendering of a natural number gives that number back |
| `Decimal.ParseIntToString` | dist/index.js:96-101 | parsing `${n}` gives `n` back for every integer |
| `Decimal.IntToStringInjective` | src/index.ts:96-110 | distinct numbers render to distinct strings, so the `add` text determines its operands |
| `Dispatcher.Invoke` | src/index.ts:79-127 | the `try` block throws exactly for a name other than echo, add and get_timestamp, for `echo` without a truthy message, and for `add` unless both operands have `typeof` "number"; the thrown message is one of the three fixed messages |
| `Dispatcher.ErrorResult` | src/index.ts:128-139 | the `catch` envelope has one "text" item reading "Error: " followed by the message, and `isError: true` |
| `Dispatcher.ErrorResultInjective` | dist/index.js:121-132 | different error messages give different envelopes |
| `Dispatcher.AddText` | src/index.ts:107 | the `add` text is three numerals joined by " + " and " = " that read back as `a`, `b` and `a + b` |
| `Dispatcher.AddTextInjective` | src/index.ts:102-107 | the `add` text determines both operands |
| `Dispatcher.CallTool` | src/index.ts:76-140 | every call yields exactly one content item of type "text"; `isError` is either absent or true, and it is true exactly when the `try` block threw |
| `Dispatcher.EchoReturnsMessage` | src/index.ts:81-93 | `echo` with a truthy `message` returns that value verbatim as its only item and has no `isError` |
| `Dispatcher.EchoRejectsFalsyMessage` | dist/index.js:76-80 | `echo` with a missing or falsy `message` returns the error envelope for "Message is required" |
| `Dispatcher.AddFormatsSum` | src/index.ts:96-110 | `add` with numeric `a` and `b` returns the single text `<a> + <b> = <a+b>` and has no `isError` |
| `Dispatcher.AddRejectsNonNumbers` | dist/index.js:90-95 | `add` where either operand is missing or not a number returns the error envelope for "Both 'a' and 'b' must be numbers" |
| `Dispatcher.TimestampNeverFails` | src/index.ts:113-123 | `get_timestamp` returns the clock reading as its only item and is never an error, whatever the arguments |
| `Dispatcher.UnknownToolRejected` | dist/index.js:117-132 | a name outside the registry returns the error envelope for "Unknown tool: <name>" |
| `Dispatcher.DispatchMatchesRegistry` | src/index.ts:75-127 | the unknown-tool error comes back if and only if the name is not in the registry |
| `Dispatcher.Examples` | dist/index.js:90-104 | `add {a: 2, b: 3}` gives "2 + 3 = 5" with no error; `echo {}` gives an error whose text starts with "Error:" |
| `Server.Handle` | src/index.ts:69-76 | a list-tools request gets the registry and a call-tool request gets a single "text" item, flagged as an error exactly when the tool threw |
| `Server.Serve` | dist/index.js:56-135 | a session answers each request exactly once, in order, and each answer depends only on its own request and the clock |
| `Server.ListingIgnoresHistory` | src/index.ts:69-73 | listing the tools after any history of requests returns the registry unchanged |
| `Server.SessionCallsAreWellFormed` | src/index.ts:128-139 | within a session, every call-tool request is answered by a tool result with exactly one "text" item |
| `Server.RootInfo` | dist/index.js:193-200 | `GET /` advertises `ws://<host>/` for the request's host and lists one entry per registered tool, with its name, in order |
| `Server.RootListsRegistry` | dist/index.js:193-200 | `GET /` lists the three tools by name and description, in registry order |
| `BridgeSpec.Push` | dist/index.js:143-145 | a received non-empty message is appended at the back of the readable queue, and nothing else changes; after end of input or destruction the queue is unchanged |
| `BridgeSpec.PushEnd` | dist/index.js:147-149 | the close event sets end of input and changes nothing else |
| `BridgeSpec.Write` | dist/index.js:160-167 | a write on an OPEN socket sends that chunk once and hands `ws.send`'s own outcome (success or a socket error) to the callback; otherwise the callback gets "WebSocket is not open", nothing is sent and the state is unchanged |
| `BridgeSpec.DestroyHook` | dist/index.js:169-174 | `_destroy` closes the socket (OPEN or CONNECTING becomes CLOSING) only when it is OPEN or CONNECTING, and always hands the original error to the callback |
| `BridgeSpec.Destroy` | dist/index.js:150-153 | the first destroy marks the stream destroyed, records the error, leaves the queue and end-of-input alone, and through `_destroy` moves a live socket to CLOSING with one `close()` call; a repeated destroy changes nothing |
| `BridgeSpec.Step` | dist/index.js:143-153 | under any one event the readable queue only grows, and not after end of input; a socket that left OPEN and CONNECTING never returns and sends nothing; `close()` is called only on a live socket, which it leaves CLOSING |
| `BridgeSpec.Run` | dist/index.js:139-174 | over a sequence of events destruction is final and keeps its first error, and each event sends at most one chunk without unsending any |
| `BridgeSpec.NoDataAfterEnd` | dist/index.js:147-149 | once end of input has been pushed, no later event adds data to the readable queue |
| `BridgeSpec.ReadableOnlyGrows` | dist/index.js:143-145 | the readable queue only grows at its back: what was queued is never changed |
| `BridgeSpec.MessagesQueuedInOrder` | dist/index.js:142-145 | messages received on a live stream are queued in arrival order, and sending is unaffected |
| `BridgeSpec.CloseAtMostOnce` | dist/index.js:169-174 | over any sequence of events, the stream calls `close()` on the socket at most once, and only if the socket was OPEN or CONNECTING |
| `BridgeSpec.NothingSentAfterClose` | dist/index.js:160-167 | once the socket is CLOSING or CLOSED, no later event sends anything and the socket never reopens |
| `BridgeSpec.SocketErrorDestroys` | dist/index.js:150-153 | a socket error destroys the stream with that error and closes a live socket |
| `WebSocketBridge.WebSocketStream.constructor` | dist/index.js:139-154 | a new adapter has an empty readable queue, is neither ended nor destroyed, and leaves its socket as it was |
| `WebSocketBridge.WebSocketStream.Push` | dist/index.js:144 | `push(data)` updates the readable side as `BridgeSpec.Push` says |
| `WebSocketBridge.WebSocketStream.OnMessage` | dist/index.js:143-145 | the message handler updates the state as `BridgeSpec.Push` says |
| `WebSocketBridge.WebSocketStream.OnClose` | dist/index.js:147-149 | the close handler updates the state as `BridgeSpec.PushEnd` says |
| `WebSocketBridge.WebSocketStream.OnError` | dist/index.js:151-153 | the error handler updates the state as `BridgeSpec.Destroy` says, for that error |
| `WebSocketBridge.WebSocketStream.WriteImpl` | dist/index.js:160-167 | `_write` changes the socket and returns the callback's error (on an OPEN socket, `ws.send`'s own outcome `sendResult`) as `BridgeSpec.Write` says |
| `WebSocketBridge.WebSocketStream.DestroyImpl` | dist/index.js:169-174 | `_destroy` changes the socket and returns the callback's error as `BridgeSpec.DestroyHook` says |
| `WebSocketBridge.WebSocketStream.Destroy` | dist/index.js:152 | `destroy(error)` follows `BridgeSpec.Destroy`: it runs `_destroy` on the first call only |
| `WebSocketBridge.WebSocketStream.Deliver` | dist/index.js:141-153 | each socket event, write or teardown changes the adapter and its socket as `BridgeSpec.Step` says; a write on a destroyed stream does not reach `_write` |
| `WebSocketBridge.Socket.Send` | dist/index.js:162 | sending on an OPEN socket appends exactly that chunk to its send log, and the callback receives the socket write's outcome |
| `WebSocketBridge.Socket.Close` | dist/index.js:171 | `ws.close()` moves OPEN or CONNECTING to CLOSING and leaves other states alone |

## Left out

- `get_timestamp`'s ISO-8601 formatting of the wall clock is not modelled. The reading is an arbitrary string `now`, so monotonicity across calls is not stated.
- Dispatcher.AddFormatsSum: numbers are unbounded integers, not IEEE doubles. Fractions, NaN, ±Infinity, -0 and the exponent notation `${n}` uses from 1e21 up are not modelled, and neither is floating-point rounding in `a + b`.
- JsValue.TypeOf: `bigint`, `symbol` and `function` values cannot occur in a JSON argument bag and are not modelled.
- The MCP SDK is a foreign library and is not modelled: `Server`, `StdioServerTransport`, `connect`, JSON-RPC framing and request-schema validation. `Server.Serve` stands for its one-request-at-a-time dispatch.
- Express, the `http` listener, `GET /health`, the `WebSocketServer` connection handler and `listen` are I/O plumbing and are not modelled. The exception is the JSON body of `GET /` (`Server.RootInfo`).
- Reading `MCP_MODE` and `PORT`, the `console.error` logging and `process.exit(1)` are process I/O and are not modelled.
- Asynchronous scheduling is not modelled. Handlers and hooks run as sequential method calls, and callbacks are return values.
- Node's `Duplex` internals beyond what the adapter relies on are not modelled:
  - the consumer draining Node's buffer through the transport's `data` listener: `readable` is the history of every chunk delivered to the consumer, not what is still buffered;
  - the `error` and `close` events a destroyed stream emits;
  - the automatic destroy after a failed write;
  - the `ERR_STREAM_PUSH_AFTER_EOF` error, which `ws` never triggers because it emits no message after "close".
- BridgeSpec.Write: whether `ws.send`'s socket write fails is an input (`sendResult`), not modelled network behaviour. The automatic destroy Node performs after the callback reports that error is not modelled. A write on a destroyed stream never reaches `_write` (`BridgeSpec.Step`), but the `ERR_STREAM_DESTROYED` error Node hands that writer is not modelled.
- The `ws` library is reduced to `WebSocketBridge.Socket`. Its framing, its close codes and its own closing handshake are left out. The transitions of the handshake appear only as the events `HandshakeDone`, `PeerClosing` and `SocketClosed`.
