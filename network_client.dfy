/**
 * The client side of the handshake: the locally assigned ClientID together
 * with the transport's link state, and the log of messages the client asked
 * the transport to send to the server peer.
 */
module Client {
  import opened NetTypes

  /** One message the client handed to its transport for the server peer. */
  datatype Sent = Sent(msg: Msg, channel: Channel)

  class NetworkClient {
    /** The transport reports Connected (its link to the server is up). */
    var transportConnected: bool
    var localClientID: ClientID
    var outbox: seq<Sent>
    /** A position-broadcast callback has been registered. */
    var broadcastCallbackSet: bool

    constructor ()
      ensures !transportConnected && localClientID == INVALID_CLIENT_ID
      ensures outbox == [] && !broadcastCallbackSet
    {
      transportConnected := false;
      localClientID := INVALID_CLIENT_ID;
      outbox := [];
      broadcastCallbackSet := false;
    }

    /** Connected at the application level: link up and an id assigned. */
    predicate IsConnected(): (r: bool)
      reads this
      ensures r ==> transportConnected
      ensures r ==> localClientID != INVALID_CLIENT_ID
      ensures transportConnected && localClientID != INVALID_CLIENT_ID ==> r
    {
      transportConnected && localClientID != INVALID_CLIENT_ID
    }

    /** The id the server assigned, or the invalid id while none is held. */
    function GetLocalClientID(): (id: ClientID)
      reads this
      ensures IsConnected() ==> id != INVALID_CLIENT_ID
      ensures id == INVALID_CLIENT_ID ==> !IsConnected()
    {
      localClientID
    }

    /**
     * Connect binds the transport callbacks and starts connecting; the answer
     * of the transport is an input.  A started connection is not up until the
     * transport's connect event.
     */
    method Connect(transportOk: bool) returns (ok: bool)
      modifies this
      ensures ok == transportOk
      ensures transportOk ==> !transportConnected && !IsConnected()
      ensures !transportOk ==> transportConnected == old(transportConnected)
      ensures localClientID == old(localClientID) && outbox == old(outbox)
      ensures broadcastCallbackSet == old(broadcastCallbackSet)
    {
      if transportOk {
        transportConnected := false;
      }
      ok := transportOk;
    }

    /** The transport's connect event: the link is up and exactly one Hello goes out reliably. */
    method OnTransportConnected()
      modifies this
      ensures transportConnected
      ensures outbox == old(outbox) + [Sent(ClientHello, RELIABLE)]
      ensures localClientID == old(localClientID) && broadcastCallbackSet == old(broadcastCallbackSet)
    {
      transportConnected := true;
      outbox := outbox + [Sent(ClientHello, RELIABLE)];
    }

    /** The transport's disconnect event: the id is forgotten, so the client is no longer connected. */
    method OnTransportDisconnected()
      modifies this
      ensures !transportConnected && localClientID == INVALID_CLIENT_ID && !IsConnected()
      ensures outbox == old(outbox) && broadcastCallbackSet == old(broadcastCallbackSet)
    {
      localClientID := INVALID_CLIENT_ID;
      transportConnected := false;
    }

    /**
     * Disconnect: announce the departure reliably only when an id is held,
     * then always tear the transport down and forget the id.
     */
    method Disconnect()
      modifies this
      ensures old(localClientID) != INVALID_CLIENT_ID ==>
                outbox == old(outbox) + [Sent(ClientDisconnect(old(localClientID)), RELIABLE)]
      ensures old(localClientID) == INVALID_CLIENT_ID ==> outbox == old(outbox)
      ensures !transportConnected && localClientID == INVALID_CLIENT_ID && !IsConnected()
      ensures broadcastCallbackSet == old(broadcastCallbackSet)
    {
      if localClientID != INVALID_CLIENT_ID {
        outbox := outbox + [Sent(ClientDisconnect(localClientID), RELIABLE)];
      }
      transportConnected := false;
      localClientID := INVALID_CLIENT_ID;
    }

    /** Nothing is sent unless connected; otherwise one unreliable update tagged with the local id. */
    method SendPositionUpdate(objectID: NetObjectID, tf: NetTransform)
      modifies this
      ensures old(IsConnected()) ==>
                outbox == old(outbox) + [Sent(PositionUpdate(old(localClientID), objectID, tf), UNRELIABLE)]
      ensures !old(IsConnected()) ==> outbox == old(outbox)
      ensures transportConnected == old(transportConnected) && localClientID == old(localClientID)
      ensures broadcastCallbackSet == old(broadcastCallbackSet)
    {
      if !IsConnected() {
        return;
      }
      outbox := outbox + [Sent(PositionUpdate(localClientID, objectID, tf), UNRELIABLE)];
    }

    method SetOnPositionBroadcast()
      modifies this
      ensures broadcastCallbackSet
      ensures transportConnected == old(transportConnected) && localClientID == old(localClientID)
      ensures outbox == old(outbox)
    {
      broadcastCallbackSet := true;
    }

    /**
     * OnRawReceive: a welcome sets the local id; a broadcast is handed, in full
     * and unchanged, to the callback if one is set (the entries passed are
     * returned); short packets and other types are ignored.
     */
    method OnRawReceive(packet: Packet) returns (delivered: Option<seq<BroadcastEntry>>)
      modifies this
      ensures packet.Framed? && packet.msg.ServerWelcome? ==> localClientID == packet.msg.assignedClientID
      ensures !(packet.Framed? && packet.msg.ServerWelcome?) ==> localClientID == old(localClientID)
      ensures delivered ==
                if packet.Framed? && packet.msg.PositionBroadcast? && broadcastCallbackSet
                then Some(packet.msg.entries) else None
      ensures transportConnected == old(transportConnected) && outbox == old(outbox)
      ensures broadcastCallbackSet == old(broadcastCallbackSet)
    {
      delivered := None;
      if packet.Truncated? {
        return;
      }
      match packet.msg
      case ServerWelcome(id) =>
        localClientID := id;
      case PositionBroadcast(entries) =>
        if broadcastCallbackSet {
          delivered := Some(entries);
        }
      case _ =>
    }
  }
}
