/** The observable state of one WebSocket connection bridged into a duplex
    stream, and how each event changes it. `WebSocketStream` in
    websocket_stream.dfy is proved to follow these functions. */
module BridgeSpec {
  import opened Wrappers

  newtype byte = x: int | 0 <= x < 256

  /** One WebSocket message or one stream write, as bytes. */
  type Chunk = seq<byte>

  /** The socket's `readyState`: CONNECTING (0), OPEN (1), CLOSING (2), CLOSED (3). */
  datatype ReadyState = Connecting | Open | Closing | Closed

  datatype Error = Error(message: string)

  const NotOpen := Error("WebSocket is not open")

  /** The socket's state and send log, and the stream's readable queue,
      end-of-input flag, destroyed flag and recorded error. `closeCalls`
      counts the `close()` calls the stream made on the socket. */
  datatype Bridge = Bridge(
    readyState: ReadyState,
    sent: seq<Chunk>,
    readable: seq<Chunk>,
    ended: bool,
    destroyed: bool,
    errored: Option<Error>,
    closeCalls: nat)

  /** OPEN or CONNECTING: the states in which the stream closes the socket. */
  predicate Live(s: ReadyState) {
    s == Open || s == Connecting
  }

  /** A fresh stream over a socket in state `s` that has already sent `sent`. */
  function Attach(s: ReadyState, sent: seq<Chunk>): Bridge {
    Bridge(s, sent, [], false, false, None, 0)
  }

  /** `push(data)`: a non-empty chunk joins the back of the readable queue;
      after end-of-input or destruction, or for an empty chunk, nothing changes. */
  function Push(b: Bridge, data: Chunk): (r: Bridge)
    ensures r.readable == if |data| > 0 && !b.ended && !b.destroyed then b.readable + [data] else b.readable
    ensures r.(readable := b.readable) == b
  {
    if |data| == 0 || b.ended || b.destroyed then b else b.(readable := b.readable + [data])
  }

  /** `push(null)`: end of input. */
  function PushEnd(b: Bridge): (r: Bridge)
    ensures r.ended && r.(ended := b.ended) == b
  {
    b.(ended := true)
  }

  /** `_write(chunk)`: the new state and the error the callback receives.
      On an OPEN socket the chunk goes to `ws.send`, whose own callback
      outcome `sendResult` (a failed socket write, or none) is passed on. */
  function Write(b: Bridge, chunk: Chunk, sendResult: Option<Error>): (r: (Bridge, Option<Error>))
    ensures b.readyState == Open ==> r.0 == b.(sent := b.sent + [chunk]) && r.1 == sendResult
    ensures b.readyState != Open ==> r.0 == b && r.1 == Some(NotOpen)
    ensures b.readyState != Open ==> r.1.value.message == "WebSocket is not open"
  {
    if b.readyState == Open then (b.(sent := b.sent + [chunk]), sendResult) else (b, Some(NotOpen))
  }

  /** `ws.close()`: OPEN and CONNECTING move to CLOSING; otherwise nothing changes. */
  function CloseSocket(s: ReadyState): ReadyState {
    if Live(s) then Closing else s
  }

  /** `_destroy(error)`: the new state and the error the callback receives. */
  function DestroyHook(b: Bridge, error: Option<Error>): (r: (Bridge, Option<Error>))
    ensures r.1 == error
    ensures Live(b.readyState) ==> r.0 == b.(readyState := Closing, closeCalls := b.closeCalls + 1)
    ensures !Live(b.readyState) ==> r.0 == b
  {
    if Live(b.readyState) then
      (b.(readyState := CloseSocket(b.readyState), closeCalls := b.closeCalls + 1), error)
    else
      (b, error)
  }

  /** `destroy(error)`: the first call marks the stream destroyed, records the
      error and runs `_destroy` once; later calls change nothing. */
  function Destroy(b: Bridge, error: Option<Error>): (r: Bridge)
    ensures r.destroyed
    ensures b.destroyed ==> r == b
    ensures !b.destroyed ==> r.errored == error && r.readable == b.readable && r.sent == b.sent
    ensures !b.destroyed ==> r.ended == b.ended && r.readyState == CloseSocket(b.readyState)
    ensures !b.destroyed ==> r.closeCalls == b.closeCalls + (if Live(b.readyState) then 1 else 0)
  {
    if b.destroyed then b else DestroyHook(b.(destroyed := true, errored := error), error).0
  }

  /** What can happen to a bridged connection. */
  datatype Event =
    | HandshakeDone          // the socket finishes opening
    | PeerClosing            // the peer starts the closing handshake
    | Message(data: Chunk)   // the socket's "message" event
    | SocketClosed           // the socket becomes CLOSED and emits "close"
    | SocketError(error: Error) // the socket's "error" event
    | WriteChunk(data: Chunk, sendResult: Option<Error>) // the protocol layer writes a chunk; `ws.send` reports `sendResult`
    | DestroyStream(reason: Option<Error>) // the protocol layer tears the stream down

  /** One event. The readable queue only grows, and not after end of input;
      a socket that has left OPEN and CONNECTING never returns and sends
      nothing more; a `close()` call is made only on a live socket, which it
      leaves CLOSING. */
  function Step(b: Bridge, e: Event): (r: Bridge)
    ensures b.readable <= r.readable
    ensures b.ended ==> r.ended && r.readable == b.readable
    ensures !Live(b.readyState) ==> !Live(r.readyState) && r.sent == b.sent
    ensures r.closeCalls == b.closeCalls || (Live(b.readyState) && !Live(r.readyState) && r.closeCalls == b.closeCalls + 1)
  {
    match e
    case HandshakeDone => if b.readyState == Connecting then b.(readyState := Open) else b
    case PeerClosing => if b.readyState == Open then b.(readyState := Closing) else b
    case Message(data) => Push(b, data)
    case SocketClosed => PushEnd(b.(readyState := Closed))
    case SocketError(error) => Destroy(b, Some(error))
    case WriteChunk(data, sendResult) =>
      // A destroyed stream refuses the write without calling `_write`.
      if b.destroyed then b else Write(b, data, sendResult).0
    case DestroyStream(error) => Destroy(b, error)
  }

  /** A sequence of events, in order. Destruction is final and keeps the
      first recorded error; each event sends at most one chunk, and what was
      sent stays sent. */
  function Run(b: Bridge, events: seq<Event>): (r: Bridge)
    ensures b.destroyed ==> r.destroyed && r.errored == b.errored
    ensures b.sent <= r.sent && |r.sent| <= |b.sent| + |events|
    decreases |events|
  {
    if events == [] then b else Run(Step(b, events[0]), events[1..])
  }

  /** Once end of input has been pushed, no later event delivers data. */
  lemma {:induction false} NoDataAfterEnd(b: Bridge, events: seq<Event>)
    requires b.ended
    ensures Run(b, events).ended
    ensures Run(b, events).readable == b.readable
    decreases |events|
  {
    if events != [] {
      NoDataAfterEnd(Step(b, events[0]), events[1..]);
    }
  }

  /** The readable queue only ever grows at its back. */
  lemma {:induction false} ReadableOnlyGrows(b: Bridge, events: seq<Event>)
    ensures b.readable <= Run(b, events).readable
    decreases |events|
  {
    if events != [] {
      ReadableOnlyGrows(Step(b, events[0]), events[1..]);
    }
  }

  lemma RunCons(b: Bridge, e: Event, rest: seq<Event>)
    ensures Run(b, [e] + rest) == Run(Step(b, e), rest)
  {
    assert ([e] + rest)[1..] == rest;
  }

  function Messages(chunks: seq<Chunk>): (events: seq<Event>)
    ensures |events| == |chunks|
  {
    if chunks == [] then [] else [Message(chunks[0])] + Messages(chunks[1..])
  }

  function NonEmpty(chunks: seq<Chunk>): seq<Chunk> {
    if chunks == [] then [] else (if |chunks[0]| > 0 then [chunks[0]] else []) + NonEmpty(chunks[1..])
  }

  /** Messages received on an open stream are queued in arrival order. */
  lemma {:induction false} MessagesQueuedInOrder(b: Bridge, chunks: seq<Chunk>)
    requires !b.ended && !b.destroyed
    ensures Run(b, Messages(chunks)).readable == b.readable + NonEmpty(chunks)
    ensures Run(b, Messages(chunks)).sent == b.sent
    decreases |chunks|
  {
    if chunks != [] {
      var next := Push(b, chunks[0]);
      RunCons(b, Message(chunks[0]), Messages(chunks[1..]));
      MessagesQueuedInOrder(next, chunks[1..]);
    }
  }

  /** Whatever happens, the stream calls `close()` on the socket at most once,
      and only if the socket was OPEN or CONNECTING. */
  lemma {:induction false} CloseAtMostOnce(b: Bridge, events: seq<Event>)
    ensures Run(b, events).closeCalls <= b.closeCalls + (if Live(b.readyState) then 1 else 0)
    decreases |events|
  {
    if events != [] {
      CloseAtMostOnce(Step(b, events[0]), events[1..]);
    }
  }

  /** Once the socket has left OPEN and CONNECTING, nothing more is sent. */
  lemma {:induction false} NothingSentAfterClose(b: Bridge, events: seq<Event>)
    requires !Live(b.readyState)
    ensures Run(b, events).sent == b.sent
    ensures !Live(Run(b, events).readyState)
    decreases |events|
  {
    if events != [] {
      NothingSentAfterClose(Step(b, events[0]), events[1..]);
    }
  }

  /** A socket error tears the stream down: it is destroyed with that error
      and a live socket is closed. */
  lemma SocketErrorDestroys(b: Bridge, error: Error)
    requires !b.destroyed
    ensures Step(b, SocketError(error)).destroyed
    ensures Step(b, SocketError(error)).errored == Some(error)
    ensures Live(b.readyState) ==> Step(b, SocketError(error)).readyState == Closing
  {
  }
}
