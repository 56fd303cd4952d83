/**
 * The connection coordinator: a P2P manager whose fields (`roomId`,
 * `isInitiator`, `socket`, `peer`) its methods and event handlers update.
 *
 * The socket.io client socket and the SimplePeer object are abstract: each
 * handler the manager registers on them is a method here, called when that
 * event arrives. What the manager emits on the socket is collected in
 * `relayOut`, what it emits to its own listeners in `emitted`.
 */
module P2P {
  import opened Wrappers
  import opened Wire
  import Json

  const ConnectFailed := "Failed to connect to signaling server"

  /** A socket.io client socket: the request its `connect` callback emits, and whether it was disconnected. */
  datatype Socket = Socket(onConnect: ClientEvent, closed: bool)

  /**
   * A SimplePeer object as the manager sees it: its options, its `connected`
   * flag, whether it was destroyed, the remote signals fed into it and the
   * frames sent through it.
   */
  datatype Peer = Peer(initiator: bool, trickle: bool, connected: bool, destroyed: bool,
                       signalled: seq<Payload>, sent: seq<Json.Frame>)

  /** `new SimplePeer({ initiator, trickle: false })`. */
  function NewPeer(initiator: bool): Peer {
    Peer(initiator, false, false, false, [], [])
  }

  /** The events the manager emits to its listeners. */
  datatype ManagerEvent = Connected | Disconnected | Data(value: Json.Value) | Failed(message: string)

  /** The events of the current peer that the manager handles. */
  datatype PeerEvent =
    | LocalSignal(data: Payload)     // the peer produced an offer or answer
    | PeerConnect
    | PeerData(frame: Json.Frame)
    | PeerClose
    | PeerError(message: string)

  /**
   * The peer a relay event makes the manager create, as its `initiator`
   * option: a responder's peer on `joined`, an initiator's peer on `ready`
   * when this side created the room, and none otherwise.
   */
  function PeerFor(isInitiator: bool, ev: RelayEvent): (r: Option<bool>)
    ensures r == Some(false) <==> ev == Joined
    ensures r == Some(true) <==> ev == Ready && isInitiator
  {
    match ev
    case Joined => Some(false)
    case Ready => if isInitiator then Some(true) else None
    case _ => None
  }

  /** The `initiator` options of the peers a run of relay events creates, in order. */
  function PeersCreated(isInitiator: bool, events: seq<RelayEvent>): seq<bool> {
    if events == [] then []
    else
      (match PeerFor(isInitiator, events[0]) case Some(initiator) => [initiator] case None => [])
      + PeersCreated(isInitiator, events[1..])
  }

  /** The peer after `send(msg)`: one serialised frame more when a peer exists and is connected, otherwise the same. */
  function AfterSend(peer: Option<Peer>, msg: Json.Value): (r: Option<Peer>)
    ensures r.Some? <==> peer.Some?
    ensures r.Some? ==> r.value.(sent := peer.value.sent) == peer.value
    ensures r.Some? && peer.value.connected ==>
              |r.value.sent| == |peer.value.sent| + 1
              && r.value.sent[..|peer.value.sent|] == peer.value.sent
              && Json.Parse(r.value.sent[|r.value.sent| - 1]) == Some(msg)
    ensures !(peer.Some? && peer.value.connected) ==> r == peer
  {
    if peer.Some? && peer.value.connected then
      Some(peer.value.(sent := peer.value.sent + [Json.Stringify(msg)]))
    else peer
  }

  /** What a `data` frame makes the manager emit: the parsed value, or nothing for a malformed frame. */
  function Received(frame: Json.Frame): (r: seq<ManagerEvent>)
    ensures |r| <= 1
    ensures r == [] <==> Json.Parse(frame).None?
    ensures r != [] ==> r[0] == Data(Json.Parse(frame).value)
  {
    match Json.Parse(frame)
    case None => []
    case Some(v) => [Data(v)]
  }

  class P2PManager {
    const signalingServerUrl: string
    var peer: Option<Peer>
    var socket: Option<Socket>
    var roomId: Option<RoomId>
    var isInitiator: bool          // undefined, hence falsy, until createRoom or joinRoom
    var relayOut: seq<ClientEvent>
    var emitted: seq<ManagerEvent>

    /** A peer exists only once a socket does, and never trickles; a socket exists only once a room id is set. */
    ghost predicate Valid()
      reads this
    {
      && (peer.Some? ==> socket.Some? && !peer.value.trickle)
      && (socket.Some? ==> roomId.Some?)
    }

    constructor (url: string)
      ensures Valid()
      ensures signalingServerUrl == url && peer == None && socket == None && roomId == None
      ensures !isInitiator && relayOut == [] && emitted == []
    {
      signalingServerUrl := url;
      peer, socket, roomId := None, None, None;
      isInitiator := false;
      relayOut, emitted := [], [];
    }

    /** Opens a new socket whose `connect` callback will emit `request`. */
    method ConnectToSignalingServer(request: ClientEvent)
      modifies this`socket
      ensures socket == Some(Socket(request, false))
    {
      socket := Some(Socket(request, false));
    }

    method CreateRoom(id: RoomId)
      requires Valid()
      modifies this
      ensures Valid()
      ensures roomId == Some(id) && isInitiator && socket == Some(Socket(Create(id), false))
      ensures peer == old(peer) && relayOut == old(relayOut) && emitted == old(emitted)
    {
      roomId := Some(id);
      isInitiator := true;
      ConnectToSignalingServer(Create(id));
    }

    method JoinRoom(id: RoomId)
      requires Valid()
      modifies this
      ensures Valid()
      ensures roomId == Some(id) && !isInitiator && socket == Some(Socket(Join(id), false))
      ensures peer == old(peer) && relayOut == old(relayOut) && emitted == old(emitted)
    {
      roomId := Some(id);
      isInitiator := false;
      ConnectToSignalingServer(Join(id));
    }

    /** The socket's `connect` event: only now is the `create` or `join` request emitted. */
    method OnSocketConnect()
      requires Valid() && socket.Some? && !socket.value.closed
      modifies this
      ensures Valid()
      ensures relayOut == old(relayOut) + [old(socket).value.onConnect]
      ensures peer == old(peer) && socket == old(socket) && roomId == old(roomId)
      ensures isInitiator == old(isInitiator) && emitted == old(emitted)
    {
      relayOut := relayOut + [socket.value.onConnect];
    }

    /** The socket's `connect_error` event. */
    method OnConnectError()
      requires Valid() && socket.Some? && !socket.value.closed
      modifies this
      ensures Valid()
      ensures emitted == old(emitted) + [Failed(ConnectFailed)]
      ensures peer == old(peer) && socket == old(socket) && roomId == old(roomId)
      ensures isInitiator == old(isInitiator) && relayOut == old(relayOut)
    {
      emitted := emitted + [Failed(ConnectFailed)];
    }

    /**
     * The socket's `created`, `joined`, `ready`, `signal` and `error` events.
     * A new peer replaces any existing one; an inbound signal reaches the
     * peer only when there is one.
     */
    method OnRelayEvent(ev: RelayEvent)
      requires Valid() && socket.Some? && !socket.value.closed
      modifies this
      ensures Valid()
      ensures PeerFor(old(isInitiator), ev).Some? ==> peer == Some(NewPeer(PeerFor(old(isInitiator), ev).value))
      ensures ev.Relayed? ==>
                peer == if old(peer).Some? then Some(old(peer).value.(signalled := old(peer).value.signalled + [ev.signal]))
                        else None
      ensures PeerFor(old(isInitiator), ev).None? && !ev.Relayed? ==> peer == old(peer)
      ensures emitted == old(emitted) + (if ev.Error? then [Failed(ev.message)] else [])
      ensures socket == old(socket) && roomId == old(roomId)
      ensures isInitiator == old(isInitiator) && relayOut == old(relayOut)
    {
      match ev {
        case Created =>
        case Joined =>
          InitPeer(false);
        case Ready =>
          if isInitiator {
            InitPeer(true);
          }
        case Relayed(data) =>
          if peer.Some? {
            peer := Some(peer.value.(signalled := peer.value.signalled + [data]));
          }
        case Error(message) =>
          emitted := emitted + [Failed(message)];
      }
    }

    method InitPeer(initiator: bool)
      modifies this`peer
      ensures peer == Some(NewPeer(initiator))
    {
      peer := Some(NewPeer(initiator));
    }

    /**
     * The current peer's `signal`, `connect`, `data`, `close` and `error`
     * events. A local signal goes to the relay tagged with the current room;
     * a frame that does not parse is dropped without closing anything.
     */
    method OnPeerEvent(ev: PeerEvent)
      requires Valid() && peer.Some?
      modifies this
      ensures Valid()
      ensures relayOut == old(relayOut) + (if ev.LocalSignal? then [Signal(old(roomId).value, ev.data)] else [])
      ensures emitted == old(emitted) + match ev {
                case LocalSignal(_) => []
                case PeerConnect => [Connected]
                case PeerData(frame) => Received(frame)
                case PeerClose => [Disconnected]
                case PeerError(message) => [Failed(message)]
              }
      ensures peer == match ev {
                case PeerConnect => Some(old(peer).value.(connected := true))
                case PeerClose => Some(old(peer).value.(connected := false))
                case _ => old(peer)
              }
      ensures socket == old(socket) && roomId == old(roomId) && isInitiator == old(isInitiator)
    {
      match ev {
        case LocalSignal(data) =>
          relayOut := relayOut + [Signal(roomId.value, data)];
        case PeerConnect =>
          peer := Some(peer.value.(connected := true));
          emitted := emitted + [Connected];
        case PeerData(frame) =>
          match Json.Parse(frame) {
            case None =>
            case Some(value) =>
              emitted := emitted + [Data(value)];
          }
        case PeerClose =>
          peer := Some(peer.value.(connected := false));
          emitted := emitted + [Disconnected];
        case PeerError(message) =>
          emitted := emitted + [Failed(message)];
      }
    }

    /** `send(data)`: transmits only over an existing, connected peer; otherwise a silent no-op. */
    method Send(msg: Json.Value)
      requires Valid()
      modifies this
      ensures Valid()
      ensures peer == AfterSend(old(peer), msg)
      ensures socket == old(socket) && roomId == old(roomId) && isInitiator == old(isInitiator)
      ensures relayOut == old(relayOut) && emitted == old(emitted)
    {
      if peer.Some? && peer.value.connected {
        peer := Some(peer.value.(sent := peer.value.sent + [Json.Stringify(msg)]));
      }
    }

    /** `disconnect()`: destroys the peer and disconnects the socket, whichever exist. */
    method Disconnect()
      requires Valid()
      modifies this
      ensures Valid()
      ensures peer == if old(peer).Some? then Some(old(peer).value.(connected := false, destroyed := true)) else None
      ensures socket == if old(socket).Some? then Some(old(socket).value.(closed := true)) else None
      ensures roomId == old(roomId) && isInitiator == old(isInitiator)
      ensures relayOut == old(relayOut) && emitted == old(emitted)
    {
      if peer.Some? {
        peer := Some(peer.value.(connected := false, destroyed := true));
      }
      if socket.Some? {
        socket := Some(socket.value.(closed := true));
      }
    }
  }
}
