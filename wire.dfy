/** The usual optional value: `None` stands for JavaScript's `null`/`undefined`. */
module Wrappers {
  datatype Option<+T> = None | Some(value: T)
}

/**
 * The socket.io events exchanged between a client's P2P manager and the
 * signalling relay (one persistent socket per client).
 */
module Wire {

  /** A room identifier, chosen by the client that creates the room. */
  type RoomId = string

  /**
   * A negotiation blob produced by the peer library (an offer or an answer).
   * The relay forwards it without ever looking inside.
   */
  type Payload = string

  /** What a client emits to the relay. */
  datatype ClientEvent =
    | Create(room: RoomId)
    | Join(room: RoomId)
    | Signal(room: RoomId, signal: Payload)    // emitted as `{ room, signal }`

  /** What the relay emits to one client. */
  datatype RelayEvent =
    | Created
    | Joined
    | Ready
    | Relayed(signal: Payload)                 // the relay's 'signal' event: the bare payload
    | Error(message: string)
}
