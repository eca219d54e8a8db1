/** The adapter that presents one WebSocket connection as a duplex stream,
    so that a stdio-style transport can read requests from it and write
    responses to it. Each method is one event handler or stream hook, proved
    to change the state exactly as `BridgeSpec` says. */
module WebSocketBridge {
  import opened Wrappers
  import S = BridgeSpec

  /** The parts of a `ws` socket the adapter touches: its `readyState` and
      the messages it has sent. */
  class Socket {
    var readyState: S.ReadyState
    var sent: seq<S.Chunk>

    constructor (state: S.ReadyState)
      ensures readyState == state && sent == []
    {
      readyState := state;
      sent := [];
    }

    /** `send(data, callback)`; the adapter only sends on an OPEN socket.
        Whether the socket write then fails is up to the network, so that
        outcome is an input and is what the callback receives. */
    method Send(data: S.Chunk, outcome: Option<S.Error>) returns (callbackError: Option<S.Error>)
      requires readyState == S.Open
      modifies this
      ensures readyState == S.Open && sent == old(sent) + [data]
      ensures callbackError == outcome
    {
      sent := sent + [data];
      callbackError := outcome;
    }

    /** `close()`: starts the closing handshake unless it is already under way. */
    method Close()
      modifies this
      ensures readyState == S.CloseSocket(old(readyState)) && sent == old(sent)
    {
      if readyState == S.Open || readyState == S.Connecting {
        readyState := S.Closing;
      }
    }

    /** The opening handshake completes. */
    method HandshakeDone()
      modifies this
      ensures readyState == (if old(readyState) == S.Connecting then S.Open else old(readyState))
      ensures sent == old(sent)
    {
      if readyState == S.Connecting {
        readyState := S.Open;
      }
    }

    /** The peer starts the closing handshake. */
    method PeerClosing()
      modifies this
      ensures readyState == (if old(readyState) == S.Open then S.Closing else old(readyState))
      ensures sent == old(sent)
    {
      if readyState == S.Open {
        readyState := S.Closing;
      }
    }

    /** The connection is gone; the socket is CLOSED before it emits "close". */
    method Terminate()
      modifies this
      ensures readyState == S.Closed && sent == old(sent)
    {
      readyState := S.Closed;
    }
  }

  class WebSocketStream {
    const ws: Socket
    var readable: seq<S.Chunk>
    var ended: bool
    var destroyed: bool
    var errored: Option<S.Error>
    ghost var closeCalls: nat

    /** The bridge state this object and its socket represent. */
    ghost function Model(): S.Bridge
      reads this, ws
    {
      S.Bridge(ws.readyState, ws.sent, readable, ended, destroyed, errored, closeCalls)
    }

    constructor (ws: Socket)
      ensures this.ws == ws
      ensures Model() == S.Attach(ws.readyState, ws.sent)
    {
      this.ws := ws;
      readable := [];
      ended := false;
      destroyed := false;
      errored := None;
      closeCalls := 0;
    }

    /** `push(data)` on the readable side. */
    method Push(data: S.Chunk)
      modifies this
      ensures Model() == S.Push(old(Model()), data)
    {
      if |data| > 0 && !ended && !destroyed {
        readable := readable + [data];
      }
    }

    /** The socket's "message" handler. */
    method OnMessage(data: S.Chunk)
      modifies this
      ensures Model() == S.Push(old(Model()), data)
    {
      Push(data);
    }

    /** The socket's "close" handler: `push(null)`. */
    method OnClose()
      modifies this
      ensures Model() == S.PushEnd(old(Model()))
    {
      ended := true;
    }

    /** The socket's "error" handler: `destroy(error)`. */
    method OnError(error: S.Error)
      modifies this, ws
      ensures Model() == S.Destroy(old(Model()), Some(error))
    {
      Destroy(Some(error));
    }

    /** `_write(chunk, encoding, callback)`; returns what the callback receives. */
    method WriteImpl(chunk: S.Chunk, sendResult: Option<S.Error>) returns (callbackError: Option<S.Error>)
      modifies ws
      ensures (Model(), callbackError) == S.Write(old(Model()), chunk, sendResult)
    {
      if ws.readyState == S.Open {
        callbackError := ws.Send(chunk, sendResult);
      } else {
        callbackError := Some(S.NotOpen);
      }
    }

    /** `_destroy(error, callback)`; returns what the callback receives. */
    method DestroyImpl(error: Option<S.Error>) returns (callbackError: Option<S.Error>)
      modifies this, ws
      ensures (Model(), callbackError) == S.DestroyHook(old(Model()), error)
    {
      if ws.readyState == S.Open || ws.readyState == S.Connecting {
        ws.Close();
        closeCalls := closeCalls + 1;
      }
      callbackError := error;
    }

    /** `destroy(error)`: runs `_destroy` on the first call only. */
    method Destroy(error: Option<S.Error>)
      modifies this, ws
      ensures Model() == S.Destroy(old(Model()), error)
    {
      if !destroyed {
        destroyed := true;
        errored := error;
        var _ := DestroyImpl(error);
      }
    }

    /** Delivers one event to the socket and the handlers registered on it. */
    method Deliver(e: S.Event)
      modifies this, ws
      ensures Model() == S.Step(old(Model()), e)
    {
      match e
      case HandshakeDone => ws.HandshakeDone();
      case PeerClosing => ws.PeerClosing();
      case Message(data) => OnMessage(data);
      case SocketClosed =>
        ws.Terminate();
        OnClose();
      case SocketError(error) => OnError(error);
      case WriteChunk(data, sendResult) =>
        if !destroyed {
          var _ := WriteImpl(data, sendResult);
        }
      case DestroyStream(reason) => Destroy(reason);
    }
  }
}
