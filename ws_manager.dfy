/**
 * The connection registry of app/services/ws_manager.py: a map from client id
 * to the transport channel, and guarded sends by id.
 */
module WsManager {
  import opened Wrappers
  import opened PyStr
  import opened Schemas

  /** An accepted transport channel (one websocket object of the source). */
  datatype Socket = Socket(handle: nat)

  /** One outbound websocket frame. */
  datatype Frame = TextFrame(text: string) | BinaryFrame(data: Bytes)

  /** A frame written to a particular channel. */
  datatype Delivery = Delivery(socket: Socket, frame: Frame)

  /** The error a send to an unregistered client id raises. */
  function NoConnection(clientId: string): Error {
    WebSocketError("No active connection for client " + clientId)
  }

  /** The frames `frames`, in order, each written to channel `ws`. */
  function Deliveries(ws: Socket, frames: seq<Frame>): (r: seq<Delivery>)
    ensures |r| == |frames|
  {
    if frames == [] then [] else [Delivery(ws, frames[0])] + Deliveries(ws, frames[1..])
  }

  /** The i-th delivery carries the i-th frame, on `ws`. */
  lemma {:induction false} DeliveriesAt(ws: Socket, frames: seq<Frame>, i: nat)
    requires i < |frames|
    ensures Deliveries(ws, frames)[i] == Delivery(ws, frames[i])
  {
    if i > 0 {
      DeliveriesAt(ws, frames[1..], i - 1);
    }
  }

  /** What reaches the transport when `frames` are sent by id `clientId` under `conns`. */
  function Outbox(conns: map<string, Socket>, clientId: string, frames: seq<Frame>): seq<Delivery> {
    if clientId in conns then Deliveries(conns[clientId], frames) else []
  }

  lemma {:induction false} DeliveriesAppend(ws: Socket, a: seq<Frame>, b: seq<Frame>)
    ensures Deliveries(ws, a + b) == Deliveries(ws, a) + Deliveries(ws, b)
  {
    if a == [] {
      assert a + b == b;
    } else {
      assert (a + b)[0] == a[0] && (a + b)[1..] == a[1..] + b;
      DeliveriesAppend(ws, a[1..], b);
    }
  }

  lemma OutboxAppend(conns: map<string, Socket>, clientId: string, a: seq<Frame>, b: seq<Frame>)
    ensures Outbox(conns, clientId, a + b) == Outbox(conns, clientId, a) + Outbox(conns, clientId, b)
  {
    if clientId in conns {
      DeliveriesAppend(conns[clientId], a, b);
    }
  }

  class WebSocketManager {
    /** `active_connections`: client id to channel. */
    var activeConnections: map<string, Socket>
    /** Every frame handed to the transport so far, in order. */
    ghost var sent: seq<Delivery>

    constructor ()
      ensures activeConnections == map[] && sent == []
    {
      activeConnections := map[];
      sent := [];
    }

    /** `connect`: registers `websocket` under `clientId`, replacing any earlier entry. */
    method Connect(websocket: Socket, clientId: string)
      modifies this`activeConnections
      ensures activeConnections == old(activeConnections)[clientId := websocket]
    {
      activeConnections := activeConnections[clientId := websocket];
    }

    /** `disconnect`: forgets `clientId`; nothing happens when it is not registered. */
    method Disconnect(clientId: string)
      modifies this`activeConnections
      ensures activeConnections == old(activeConnections) - {clientId}
    {
      if clientId in activeConnections {
        activeConnections := activeConnections - {clientId};
      }
    }

    /** `send_text`: writes `message` to the channel of `clientId`, or raises when there is none. */
    method SendText(clientId: string, message: string) returns (r: Outcome<Error>)
      modifies this`sent
      ensures clientId in activeConnections ==>
                r == Pass && sent == old(sent) + [Delivery(activeConnections[clientId], TextFrame(message))]
      ensures clientId !in activeConnections ==> r == Fail(NoConnection(clientId)) && sent == old(sent)
    {
      if clientId !in activeConnections {
        return Fail(NoConnection(clientId));
      }
      var websocket := activeConnections[clientId];
      sent := sent + [Delivery(websocket, TextFrame(message))];
      r := Pass;
    }

    /** `send_bytes`: as SendText, for a binary frame carrying exactly `data`. */
    method SendBytes(clientId: string, data: Bytes) returns (r: Outcome<Error>)
      modifies this`sent
      ensures clientId in activeConnections ==>
                r == Pass && sent == old(sent) + [Delivery(activeConnections[clientId], BinaryFrame(data))]
      ensures clientId !in activeConnections ==> r == Fail(NoConnection(clientId)) && sent == old(sent)
    {
      if clientId !in activeConnections {
        return Fail(NoConnection(clientId));
      }
      var websocket := activeConnections[clientId];
      sent := sent + [Delivery(websocket, BinaryFrame(data))];
      r := Pass;
    }
  }

  /**
   * Connecting and then disconnecting a client leaves it unregistered (a second
   * disconnect changes nothing), and every later send to it raises without
   * reaching the transport.
   */
  method ConnectThenDisconnect(registry: WebSocketManager, websocket: Socket, clientId: string, data: Bytes)
    returns (textSent: Outcome<Error>, bytesSent: Outcome<Error>)
    modifies registry
    ensures registry.activeConnections == old(registry.activeConnections) - {clientId}
    ensures textSent == Fail(NoConnection(clientId)) && bytesSent == Fail(NoConnection(clientId))
    ensures registry.sent == old(registry.sent)
  {
    registry.Connect(websocket, clientId);
    registry.Disconnect(clientId);
    ghost var once := registry.activeConnections;
    registry.Disconnect(clientId);
    assert registry.activeConnections == once;
    textSent := registry.SendText(clientId, "hello");
    bytesSent := registry.SendBytes(clientId, data);
  }
}
