/**
 * Identifiers, transforms and protocol messages shared by the server, the
 * client and the synchronisation bridge.  The byte layout of the wire codec
 * is not modelled: a received packet is either too short to carry a header
 * or a framed message whose type the codec recognised (or did not).
 */
module NetTypes {

  datatype Option<T> = None | Some(value: T)

  /** Server-assigned identity of a connected player session; 0 is reserved. */
  type ClientID = nat
  /** Identity of a networked object owned by a client; 0 is reserved. */
  type NetObjectID = nat
  /** Opaque transport-level handle of one remote endpoint. */
  type Peer = nat
  /** Transport channel number. */
  type Channel = nat

  const INVALID_CLIENT_ID: ClientID := 0
  const INVALID_NET_OBJECT_ID: NetObjectID := 0

  /** Channel 0 is reliable and ordered, channel 1 unreliable and unsequenced. */
  const RELIABLE: Channel := 0
  const UNRELIABLE: Channel := 1

  /**
   * Position plus rotation quaternion in w, x, y, z order.  The model only
   * copies transforms around, so the float fields are carried as reals.
   */
  datatype NetTransform = NetTransform(
    posX: real, posY: real, posZ: real,
    rotW: real, rotX: real, rotY: real, rotZ: real)

  /** A value-initialised NetTransformState: every field zero. */
  const ZeroTransform: NetTransform := NetTransform(0.0, 0.0, 0.0, 0.0, 0.0, 0.0, 0.0)

  /** One line of a position broadcast. */
  datatype BroadcastEntry = BroadcastEntry(clientID: ClientID, objectID: NetObjectID, transform: NetTransform)

  /** The protocol's messages; UnknownType stands for a header whose type no handler knows. */
  datatype Msg =
    | ClientHello
    | ServerWelcome(assignedClientID: ClientID)
    | PositionUpdate(clientID: ClientID, objectID: NetObjectID, transform: NetTransform)
    | PositionBroadcast(entries: seq<BroadcastEntry>)
    | ClientDisconnect(clientID: ClientID)
    | UnknownType

  /** A received datagram: shorter than the packet header, or framed. */
  datatype Packet = Truncated | Framed(msg: Msg)
}
