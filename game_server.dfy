/**
 * The authoritative session table of the game server: a map from transport
 * peer to ClientState, an id counter, and the log of what the server asked
 * its transport to send.  The handlers are first given as functions over a
 * `Sessions` value; the `GameServer` class below updates its fields in place
 * and each of its methods is proved to agree with those functions.
 */
module Server {
  import opened NetTypes

  /** Per-peer state kept by the server. */
  datatype ClientState = ClientState(
    id: ClientID,
    peer: Peer,
    objectID: NetObjectID,
    lastTransform: NetTransform,
    hasTransform: bool)

  /** One request the server made of its transport, in the order made. */
  datatype Outgoing =
    | SendTo(peer: Peer, msg: Msg, channel: Channel)
    | BroadcastAll(msg: Msg, channel: Channel)
    | DisconnectPeer(peer: Peer)

  /** One event delivered by a transport poll. */
  datatype Event =
    | PeerConnected(peer: Peer)
    | PeerDisconnected(peer: Peer)
    | PacketReceived(peer: Peer, packet: Packet)

  /** The part of the server that the event handlers read and write. */
  datatype Sessions = Sessions(nextClientID: ClientID, clients: map<Peer, ClientState>, outbox: seq<Outgoing>)

  /** A freshly constructed server: the counter starts at 1 because 0 is invalid. */
  const InitialSessions: Sessions := Sessions(1, map[], [])

  /**
   * Each entry is filed under its own peer, carries a valid id below the
   * counter, and no two peers share an id.
   */
  ghost predicate ValidSessions(s: Sessions) {
    && s.nextClientID >= 1
    && (forall p :: p in s.clients ==> s.clients[p].peer == p && 1 <= s.clients[p].id < s.nextClientID)
    && (forall p, q :: p in s.clients && q in s.clients && p != q ==> s.clients[p].id != s.clients[q].id)
  }

  // ---------------------------------------------------------------- handlers

  /** A ClientState as HandleClientHello builds it: no object and no transform yet. */
  function NewClient(id: ClientID, p: Peer): ClientState {
    ClientState(id, p, INVALID_NET_OBJECT_ID, ZeroTransform, false)
  }

  /** HandleClientHello: hand out the counter, (re)place the peer's entry, queue a reliable welcome. */
  function Hello(s: Sessions, p: Peer): Sessions {
    Sessions(s.nextClientID + 1,
             s.clients[p := NewClient(s.nextClientID, p)],
             s.outbox + [SendTo(p, ServerWelcome(s.nextClientID), RELIABLE)])
  }

  /** HandlePositionUpdate: a known peer's object, transform and flag are overwritten. */
  function UpdatePosition(s: Sessions, p: Peer, objectID: NetObjectID, tf: NetTransform): Sessions {
    if p !in s.clients then s
    else s.(clients := s.clients[p := s.clients[p].(objectID := objectID, lastTransform := tf, hasTransform := true)])
  }

  /** OnPeerDisconnected: forget the peer if it is known. */
  function PeerGone(s: Sessions, p: Peer): Sessions {
    s.(clients := s.clients - {p})
  }

  /** HandleClientDisconnect: forget the peer and always ask the transport to drop it. */
  function RequestedDisconnect(s: Sessions, p: Peer): Sessions {
    s.(clients := s.clients - {p}, outbox := s.outbox + [DisconnectPeer(p)])
  }

  /** OnPacketReceived: short packets and types the server does not handle are dropped. */
  function Receive(s: Sessions, p: Peer, packet: Packet): Sessions {
    match packet
    case Truncated => s
    case Framed(msg) =>
      match msg
      case ClientHello => Hello(s, p)
      case PositionUpdate(_, objectID, tf) => UpdatePosition(s, p, objectID, tf)
      case ClientDisconnect(_) => RequestedDisconnect(s, p)
      case _ => s
  }

  /** The transport callbacks bound in Start; a new connection creates no state. */
  function Handle(s: Sessions, e: Event): Sessions {
    match e
    case PeerConnected(_) => s
    case PeerDisconnected(p) => PeerGone(s, p)
    case PacketReceived(p, packet) => Receive(s, p, packet)
  }

  /** The events of one poll, handled in delivery order. */
  function HandleAll(s: Sessions, events: seq<Event>): Sessions
    decreases |events|
  {
    if events == [] then s
    else Handle(HandleAll(s, events[..|events| - 1]), events[|events| - 1])
  }

  // --------------------------------------------------------------- broadcast

  function EntryOf(c: ClientState): BroadcastEntry {
    BroadcastEntry(c.id, c.objectID, c.lastTransform)
  }

  /** The entries owed to the clients filed under `keys` that have reported a transform. */
  ghost function ReportedEntries(clients: map<Peer, ClientState>, keys: set<Peer>): set<BroadcastEntry> {
    set p | p in keys && p in clients && clients[p].hasTransform :: EntryOf(clients[p])
  }

  predicate NoDuplicates<T(==)>(s: seq<T>) {
    forall i, j :: 0 <= i < j < |s| ==> s[i] != s[j]
  }

  /** `entries` lists each client that has a transform exactly once, in some order. */
  ghost predicate ListsReporters(entries: seq<BroadcastEntry>, clients: map<Peer, ClientState>) {
    NoDuplicates(entries) && forall e :: e in entries <==> e in ReportedEntries(clients, clients.Keys)
  }

  /** `e` is the broadcast entry of some client that has reported a transform. */
  ghost predicate EntryOfSomeReporter(e: BroadcastEntry, clients: map<Peer, ClientState>) {
    exists p :: p in clients && clients[p].hasTransform && e == EntryOf(clients[p])
  }

  ghost predicate HasReporter(clients: map<Peer, ClientState>) {
    exists p :: p in clients && clients[p].hasTransform
  }

  /**
   * The effect of BroadcastPositions: no state changes; nothing is sent when no
   * client has a transform, otherwise exactly one broadcast on the unreliable
   * channel that lists the reporting clients (in the map's iteration order,
   * which is unspecified).
   */
  ghost predicate BroadcastStep(before: Sessions, after: Sessions) {
    && after.nextClientID == before.nextClientID
    && after.clients == before.clients
    && if !HasReporter(before.clients) then after.outbox == before.outbox
       else
         && |after.outbox| == |before.outbox| + 1
         && after.outbox[..|before.outbox|] == before.outbox
         && var last := after.outbox[|before.outbox|];
            && last.BroadcastAll?
            && last.channel == UNRELIABLE
            && last.msg.PositionBroadcast?
            && ListsReporters(last.msg.entries, before.clients)
  }

  // ------------------------------------------------------------------ server

  class GameServer {
    var running: bool
    /** The transport's host exists (Listen succeeded and Stop has not run since). */
    var listening: bool
    var nextClientID: ClientID
    var clients: map<Peer, ClientState>
    var outbox: seq<Outgoing>

    function State(): Sessions
      reads this
    {
      Sessions(nextClientID, clients, outbox)
    }

    ghost predicate Valid()
      reads this
    {
      ValidSessions(State()) && (running ==> listening)
    }

    constructor ()
      ensures Valid() && !running && !listening
      ensures State() == InitialSessions
    {
      running := false;
      listening := false;
      nextClientID := 1;
      clients := map[];
      outbox := [];
    }

    /** Start: running only once the transport listens; a failed Listen changes nothing. */
    method Start(listenOk: bool) returns (ok: bool)
      requires Valid()
      modifies this
      ensures Valid() && ok == listenOk && State() == old(State())
      ensures running == (old(running) || listenOk)
      ensures listening == (old(listening) || listenOk)
    {
      if !listenOk {
        return false;
      }
      listening := true;
      running := true;
      return true;
    }

    /** Stop: not running, transport torn down, table emptied; the counter is kept. */
    method Stop()
      requires Valid()
      modifies this
      ensures Valid() && !running && !listening
      ensures clients == map[] && nextClientID == old(nextClientID) && outbox == old(outbox)
    {
      running := false;
      listening := false;
      clients := map[];
    }

    /** Tick: nothing unless running; otherwise handle the polled events in order, then broadcast. */
    method Tick(events: seq<Event>)
      requires Valid()
      modifies this
      ensures Valid() && running == old(running) && listening == old(listening)
      ensures !old(running) ==> State() == old(State())
      ensures old(running) ==> BroadcastStep(HandleAll(old(State()), events), State())
    {
      if !running {
        return;
      }
      var i := 0;
      while i < |events|
        invariant 0 <= i <= |events|
        invariant Valid() && running == old(running) && listening == old(listening)
        invariant State() == HandleAll(old(State()), events[..i])
      {
        Dispatch(events[i]);
        assert events[..i + 1][..i] == events[..i];
        i := i + 1;
      }
      assert events[..i] == events;
      BroadcastPositions();
    }

    /** One transport event routed to its callback; OnPeerConnected only logs. */
    method Dispatch(e: Event)
      requires Valid()
      modifies this
      ensures Valid() && running == old(running) && listening == old(listening)
      ensures State() == Handle(old(State()), e)
    {
      match e
      case PeerConnected(_) =>
      case PeerDisconnected(p) => OnPeerDisconnected(p);
      case PacketReceived(p, packet) => OnPacketReceived(p, packet);
    }

    method OnPeerDisconnected(p: Peer)
      requires Valid()
      modifies this
      ensures Valid() && running == old(running) && listening == old(listening)
      ensures State() == PeerGone(old(State()), p)
    {
      if p in clients {
        clients := clients - {p};
      }
    }

    method OnPacketReceived(p: Peer, packet: Packet)
      requires Valid()
      modifies this
      ensures Valid() && running == old(running) && listening == old(listening)
      ensures State() == Receive(old(State()), p, packet)
    {
      if packet.Truncated? {
        return;
      }
      match packet.msg
      case ClientHello => HandleClientHello(p);
      case PositionUpdate(_, objectID, tf) => HandlePositionUpdate(p, objectID, tf);
      case ClientDisconnect(_) => HandleClientDisconnect(p);
      case _ =>
    }

    method HandleClientHello(p: Peer)
      requires Valid()
      modifies this
      ensures Valid() && running == old(running) && listening == old(listening)
      ensures State() == Hello(old(State()), p)
    {
      var newID := nextClientID;
      nextClientID := nextClientID + 1;
      clients := clients[p := NewClient(newID, p)];
      outbox := outbox + [SendTo(p, ServerWelcome(newID), RELIABLE)];
    }

    method HandlePositionUpdate(p: Peer, objectID: NetObjectID, tf: NetTransform)
      requires Valid()
      modifies this
      ensures Valid() && running == old(running) && listening == old(listening)
      ensures State() == UpdatePosition(old(State()), p, objectID, tf)
    {
      if p !in clients {
        return;
      }
      var cs := clients[p];
      clients := clients[p := cs.(objectID := objectID, lastTransform := tf, hasTransform := true)];
    }

    method HandleClientDisconnect(p: Peer)
      requires Valid()
      modifies this
      ensures Valid() && running == old(running) && listening == old(listening)
      ensures State() == RequestedDisconnect(old(State()), p)
    {
      if p in clients {
        clients := clients - {p};
      }
      outbox := outbox + [DisconnectPeer(p)];
    }

    /** Collect every client with a transform, then send one broadcast if the list is not empty. */
    method BroadcastPositions()
      requires Valid()
      modifies this
      ensures Valid() && running == old(running) && listening == old(listening)
      ensures BroadcastStep(old(State()), State())
    {
      var entries: seq<BroadcastEntry> := [];
      var todo := clients.Keys;
      while todo != {}
        invariant todo <= clients.Keys
        invariant NoDuplicates(entries)
        invariant forall e :: e in entries <==> e in ReportedEntries(clients, clients.Keys - todo)
        decreases todo
      {
        var p :| p in todo;
        if clients[p].hasTransform {
          forall i | 0 <= i < |entries|
            ensures entries[i] != EntryOf(clients[p])
          {
            assert entries[i] in entries;
            var q :| q in clients.Keys - todo && q in clients && clients[q].hasTransform && entries[i] == EntryOf(clients[q]);
            assert q != p;
          }
          entries := entries + [EntryOf(clients[p])];
        }
        todo := todo - {p};
      }
      assert clients.Keys - todo == clients.Keys;
      if |entries| == 0 {
        forall p | p in clients
          ensures !clients[p].hasTransform
        {
          assert clients[p].hasTransform ==> EntryOf(clients[p]) in ReportedEntries(clients, clients.Keys);
        }
        return;
      }
      assert HasReporter(clients) by {
        assert entries[0] in ReportedEntries(clients, clients.Keys);
      }
      outbox := outbox + [BroadcastAll(PositionBroadcast(entries), UNRELIABLE)];
    }
  }

  // ------------------------------------------------------------------ lemmas

  /** Every handler keeps the table well formed. */
  lemma HandlePreservesValid(s: Sessions, e: Event)
    requires ValidSessions(s)
    ensures ValidSessions(Handle(s, e))
  {
  }

  lemma {:induction false} HandleAllPreservesValid(s: Sessions, events: seq<Event>)
    requires ValidSessions(s)
    ensures ValidSessions(HandleAll(s, events))
    decreases |events|
  {
    if events != [] {
      HandleAllPreservesValid(s, events[..|events| - 1]);
      HandlePreservesValid(HandleAll(s, events[..|events| - 1]), events[|events| - 1]);
    }
  }

  /** Handling two batches one after the other is handling their concatenation. */
  lemma {:induction false} HandleAllAppend(s: Sessions, a: seq<Event>, b: seq<Event>)
    ensures HandleAll(s, a + b) == HandleAll(HandleAll(s, a), b)
    decreases |b|
  {
    if b == [] {
      assert a + b == a;
    } else {
      assert (a + b)[..|a + b| - 1] == a + b[..|b| - 1];
      HandleAllAppend(s, a, b[..|b| - 1]);
    }
  }

  /** A connection event allocates nothing and sends nothing. */
  lemma ConnectCreatesNoClient(s: Sessions, p: Peer)
    ensures Handle(s, PeerConnected(p)).clients == s.clients
    ensures Handle(s, PeerConnected(p)) == s
  {
  }

  /**
   * A Hello takes the current counter as the peer's id (replacing any earlier
   * entry of that peer with one that has no transform), bumps the counter, and
   * sends exactly one welcome carrying that id to that peer on channel 0;
   * other peers' entries are untouched.
   */
  lemma HelloAssignsNextId(s: Sessions, p: Peer)
    ensures var r := Hello(s, p);
      && p in r.clients
      && r.clients[p].id == s.nextClientID
      && !r.clients[p].hasTransform
      && r.nextClientID == s.nextClientID + 1
      && r.outbox == s.outbox + [SendTo(p, ServerWelcome(r.clients[p].id), RELIABLE)]
      && (forall q :: q != p ==> (q in r.clients <==> q in s.clients))
      && (forall q :: q != p && q in s.clients ==> r.clients[q] == s.clients[q])
  {
  }

  /**
   * A position update from an unknown peer changes nothing; from a known peer
   * it sets that entry's object, transform and flag and nothing else.
   */
  lemma PositionUpdateTouchesOnlySender(s: Sessions, p: Peer, claimed: ClientID, objectID: NetObjectID, tf: NetTransform)
    ensures var r := Receive(s, p, Framed(PositionUpdate(claimed, objectID, tf)));
      && r.nextClientID == s.nextClientID && r.outbox == s.outbox
      && r.clients.Keys == s.clients.Keys
      && (p !in s.clients ==> r == s)
      && (p in s.clients ==>
            && r.clients[p].id == s.clients[p].id
            && r.clients[p].objectID == objectID
            && r.clients[p].lastTransform == tf
            && r.clients[p].hasTransform)
      && (forall q :: q != p && q in s.clients ==> r.clients[q] == s.clients[q])
  {
  }

  /**
   * A disconnect request or a transport disconnect removes exactly the peer's
   * entry (nothing if absent); only the request asks the transport to drop it.
   */
  lemma DisconnectRemovesOnlyPeer(s: Sessions, p: Peer, claimed: ClientID)
    ensures var r := Receive(s, p, Framed(ClientDisconnect(claimed)));
      && r.clients.Keys == s.clients.Keys - {p}
      && (forall q :: q in r.clients ==> r.clients[q] == s.clients[q])
      && r.outbox == s.outbox + [DisconnectPeer(p)]
      && r.nextClientID == s.nextClientID
    ensures var r := Handle(s, PeerDisconnected(p));
      && r.clients.Keys == s.clients.Keys - {p}
      && (forall q :: q in r.clients ==> r.clients[q] == s.clients[q])
      && r.outbox == s.outbox
      && r.nextClientID == s.nextClientID
  {
  }

  /** Short packets and message types the server does not handle leave every part of the state alone. */
  lemma IgnoredPacketsChangeNothing(s: Sessions, p: Peer, packet: Packet)
    requires packet.Truncated? || packet.msg.UnknownType? || packet.msg.ServerWelcome? || packet.msg.PositionBroadcast?
    ensures Receive(s, p, packet) == s
  {
  }

  // ------------------------------------------------------- id allocation

  /** `o` is a welcome, sent to one peer, that hands out `id`. */
  predicate IsWelcomeOf(o: Outgoing, id: ClientID) {
    o.SendTo? && o.msg.ServerWelcome? && o.msg.assignedClientID == id
  }

  /**
   * The ids carried by the server's welcome messages, in send order: an id is
   * listed exactly when some message of the log welcomes with it, and there
   * is at most one id per message.
   */
  function Welcomes(out: seq<Outgoing>): (ids: seq<ClientID>)
    ensures |ids| <= |out|
    ensures forall id :: id in ids <==> exists j :: 0 <= j < |out| && IsWelcomeOf(out[j], id)
    decreases |out|
  {
    if out == [] then []
    else
      var last := out[|out| - 1];
      Welcomes(out[..|out| - 1])
        + (if last.SendTo? && last.msg.ServerWelcome? then [last.msg.assignedClientID] else [])
  }

  /** lo, lo + 1, ..., hi - 1. */
  function Range(lo: nat, hi: nat): (r: seq<nat>)
    ensures |r| == if lo <= hi then hi - lo else 0
    ensures forall k :: 0 <= k < |r| ==> r[k] == lo + k
    decreases hi - lo
  {
    if lo >= hi then [] else [lo] + Range(lo + 1, hi)
  }

  /** A single message contributes its id exactly when it is a welcome. */
  lemma WelcomesOfOne(o: Outgoing)
    ensures Welcomes([o]) == if o.SendTo? && o.msg.ServerWelcome? then [o.msg.assignedClientID] else []
  {
    assert [o][..0] == [];
  }

  lemma {:induction false} WelcomesAppend(a: seq<Outgoing>, b: seq<Outgoing>)
    ensures Welcomes(a + b) == Welcomes(a) + Welcomes(b)
    decreases |b|
  {
    if b == [] {
      assert a + b == a;
    } else {
      assert (a + b)[..|a + b| - 1] == a + b[..|b| - 1];
      WelcomesAppend(a, b[..|b| - 1]);
    }
  }

  /**
   * Over any batch of events the welcomes sent are exactly the consecutive ids
   * from the old counter up to the new one: each Hello takes the next id, and
   * no id is sent twice or skipped.
   */
  lemma {:induction false} WelcomesAreConsecutive(s: Sessions, events: seq<Event>)
    ensures s.nextClientID <= HandleAll(s, events).nextClientID
    ensures Welcomes(HandleAll(s, events).outbox)
         == Welcomes(s.outbox) + Range(s.nextClientID, HandleAll(s, events).nextClientID)
    decreases |events|
  {
    if events == [] {
      assert Range(s.nextClientID, s.nextClientID) == [];
    } else {
      var before := HandleAll(s, events[..|events| - 1]);
      WelcomesAreConsecutive(s, events[..|events| - 1]);
      var e := events[|events| - 1];
      var after := Handle(before, e);
      assert HandleAll(s, events) == after;
      HandleWelcomesNext(before, e);
      if after.nextClientID == before.nextClientID + 1 {
        RangeSnoc(s.nextClientID, before.nextClientID);
      }
    }
  }

  lemma RangeSnoc(lo: nat, hi: nat)
    requires lo <= hi
    ensures Range(lo, hi + 1) == Range(lo, hi) + [hi]
  {
    var a, b := Range(lo, hi + 1), Range(lo, hi) + [hi];
    assert |a| == |b|;
    forall k | 0 <= k < |a| ensures a[k] == b[k] {}
  }

  /** One event sends the welcome for the counter's current value if it bumps the counter, and no welcome otherwise. */
  lemma HandleWelcomesNext(s: Sessions, e: Event)
    ensures var r := Handle(s, e);
      && (r.nextClientID == s.nextClientID || r.nextClientID == s.nextClientID + 1)
      && Welcomes(r.outbox) == Welcomes(s.outbox)
           + (if r.nextClientID == s.nextClientID + 1 then [s.nextClientID] else [])
  {
    var r := Handle(s, e);
    if e.PacketReceived? && e.packet.Framed? && e.packet.msg.ClientHello? {
      var sent := [SendTo(e.peer, ServerWelcome(s.nextClientID), RELIABLE)];
      WelcomesAppend(s.outbox, sent);
      assert sent[..0] == [];
    } else if e.PacketReceived? && e.packet.Framed? && e.packet.msg.ClientDisconnect? {
      var sent := [DisconnectPeer(e.peer)];
      WelcomesAppend(s.outbox, sent);
      assert sent[..0] == [];
    }
  }

  /**
   * From a freshly constructed server, the ids handed out by any run of events
   * are 1, 2, 3, ... in order: strictly increasing and never the invalid id 0.
   */
  lemma WelcomedIdsIncreaseFromOne(events: seq<Event>)
    ensures var ids := Welcomes(HandleAll(InitialSessions, events).outbox);
      && (forall k :: 0 <= k < |ids| ==> ids[k] == k + 1 && ids[k] != INVALID_CLIENT_ID)
      && (forall i, j :: 0 <= i < j < |ids| ==> ids[i] < ids[j])
  {
    WelcomesAreConsecutive(InitialSessions, events);
    assert Welcomes(InitialSessions.outbox) == [];
  }

  // ------------------------------------------------------------- lifecycle

  /** The position updates one peer sends during its session. */
  function Updates(p: Peer, claimed: ClientID, objects: seq<NetObjectID>, tf: NetTransform): (es: seq<Event>)
    ensures |es| == |objects|
    ensures forall k :: 0 <= k < |es| ==> es[k] == PacketReceived(p, Framed(PositionUpdate(claimed, objects[k], tf)))
  {
    if objects == [] then []
    else Updates(p, claimed, objects[..|objects| - 1], tf)
         + [PacketReceived(p, Framed(PositionUpdate(claimed, objects[|objects| - 1], tf)))]
  }

  /** Position updates from a known peer keep it known and leave every other entry alone. */
  lemma {:induction false} UpdatesKeepOthers(s: Sessions, p: Peer, claimed: ClientID, objects: seq<NetObjectID>, tf: NetTransform)
    requires p in s.clients
    ensures var r := HandleAll(s, Updates(p, claimed, objects, tf));
      && r.clients.Keys == s.clients.Keys
      && forall q :: q in s.clients && q != p ==> r.clients[q] == s.clients[q]
    decreases |objects|
  {
    if objects != [] {
      var es := Updates(p, claimed, objects, tf);
      assert es[..|es| - 1] == Updates(p, claimed, objects[..|objects| - 1], tf);
      UpdatesKeepOthers(s, p, claimed, objects[..|objects| - 1], tf);
    }
  }

  /**
   * A whole session of a new peer (connect, Hello, any number of position
   * updates, then a disconnect request or a transport disconnect) leaves the
   * table exactly as it found it: no leaked entry, no other entry changed.
   */
  lemma {:induction false} SessionLeavesNoTrace(
    s: Sessions, p: Peer, claimed: ClientID, objects: seq<NetObjectID>, tf: NetTransform, byRequest: bool)
    requires p !in s.clients
    ensures var es := [PeerConnected(p), PacketReceived(p, Framed(ClientHello))]
                      + Updates(p, claimed, objects, tf)
                      + [if byRequest then PacketReceived(p, Framed(ClientDisconnect(claimed))) else PeerDisconnected(p)];
            HandleAll(s, es).clients == s.clients
  {
    var opening := [PeerConnected(p), PacketReceived(p, Framed(ClientHello))];
    var body := Updates(p, claimed, objects, tf);
    var closing := [if byRequest then PacketReceived(p, Framed(ClientDisconnect(claimed))) else PeerDisconnected(p)];
    assert opening[..1] == [PeerConnected(p)];
    assert [PeerConnected(p)][..0] == [];
    assert HandleAll(s, [PeerConnected(p)]) == s;
    var afterHello := HandleAll(s, opening);
    assert afterHello == Hello(s, p);
    HandleAllAppend(s, opening, body);
    UpdatesKeepOthers(afterHello, p, claimed, objects, tf);
    var afterBody := HandleAll(afterHello, body);
    HandleAllAppend(s, opening + body, closing);
    assert closing[..0] == [];
    assert HandleAll(s, opening + body + closing) == Handle(afterBody, closing[0]);
    assert afterBody.clients.Keys == s.clients.Keys + {p};
  }

  // -------------------------------------------------------------- broadcast

  /**
   * A broadcast list over a well-formed table names each reporting client
   * exactly once, with that client's id, object and last transform, and names
   * nobody else.
   */
  lemma {:induction false} BroadcastNamesEachReporterOnce(entries: seq<BroadcastEntry>, s: Sessions)
    requires ValidSessions(s)
    requires ListsReporters(entries, s.clients)
    ensures forall i :: 0 <= i < |entries| ==> EntryOfSomeReporter(entries[i], s.clients)
    ensures forall p :: p in s.clients && s.clients[p].hasTransform ==> EntryOf(s.clients[p]) in entries
    ensures forall i, j :: 0 <= i < j < |entries| ==> entries[i].clientID != entries[j].clientID
  {
    forall i | 0 <= i < |entries|
      ensures EntryOfSomeReporter(entries[i], s.clients)
    {
      assert entries[i] in ReportedEntries(s.clients, s.clients.Keys);
      var p :| p in s.clients.Keys && p in s.clients && s.clients[p].hasTransform && entries[i] == EntryOf(s.clients[p]);
    }
    forall p | p in s.clients && s.clients[p].hasTransform
      ensures EntryOf(s.clients[p]) in entries
    {
      assert EntryOf(s.clients[p]) in ReportedEntries(s.clients, s.clients.Keys);
    }
    forall i, j | 0 <= i < j < |entries|
      ensures entries[i].clientID != entries[j].clientID
    {
      assert entries[i] in ReportedEntries(s.clients, s.clients.Keys);
      assert entries[j] in ReportedEntries(s.clients, s.clients.Keys);
      var p :| p in s.clients && s.clients[p].hasTransform && entries[i] == EntryOf(s.clients[p]);
      var q :| q in s.clients && s.clients[q].hasTransform && entries[j] == EntryOf(s.clients[q]);
      assert entries[i] != entries[j];
      assert p != q;
    }
  }
}
