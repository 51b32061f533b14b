/**
 * Whole runs through several components at once: the server, a client and
 * the client's sync bridge exchanging the messages each one queues for the
 * other, and the chat HUD driven frame by frame.
 */
module Scenarios {
  import opened NetTypes
  import Server
  import Client
  import Sync
  import Chat
  import Hud

  /** A broadcast list without repeats whose elements are all `e` (and include it) is just [e]. */
  lemma OnlyEntry(entries: seq<BroadcastEntry>, e: BroadcastEntry)
    requires Server.NoDuplicates(entries)
    requires forall x :: x in entries <==> x == e
    ensures entries == [e]
  {
    assert e in entries;
    var k := |entries| - 1;
    assert entries[0] in entries && entries[k] in entries;
  }

  /** A fresh server, polled with a connect and a hello from one peer, welcomes it with id 1. */
  lemma WelcomeFirstPeer(peer: Peer)
    ensures var s1 := Server.HandleAll(Server.InitialSessions,
                        [Server.PeerConnected(peer), Server.PacketReceived(peer, Framed(ClientHello))]);
      && s1 == Server.Sessions(2, map[peer := Server.NewClient(1, peer)],
                               [Server.SendTo(peer, ServerWelcome(1), RELIABLE)])
      && !Server.HasReporter(s1.clients)
  {
    var s0 := Server.InitialSessions;
    var connect := Server.PeerConnected(peer);
    var hello := Server.PacketReceived(peer, Framed(ClientHello));
    assert [connect, hello][..1] == [connect];
    assert [connect][..0] == [];
    assert Server.HandleAll(s0, [connect, hello]) == Server.Handle(Server.HandleAll(s0, [connect]), hello);
    assert Server.HandleAll(s0, [connect]) == Server.Handle(Server.HandleAll(s0, []), connect);
    assert Server.HandleAll(s0, [connect]) == s0;
    assert Server.Handle(s0, hello) == Server.Hello(s0, peer);
  }

  /** Client 1's first position update makes it the only reporter. */
  lemma ReportFirstObject(t0: Server.Sessions, peer: Peer, objectID: NetObjectID, tf: NetTransform)
    requires t0.clients == map[peer := Server.NewClient(1, peer)]
    ensures var t1 := Server.HandleAll(t0, [Server.PacketReceived(peer, Framed(PositionUpdate(1, objectID, tf)))]);
      && t1.outbox == t0.outbox && t1.nextClientID == t0.nextClientID
      && Server.HasReporter(t1.clients)
      && forall x :: x in Server.ReportedEntries(t1.clients, t1.clients.Keys) <==> x == BroadcastEntry(1, objectID, tf)
  {
    var ev := Server.PacketReceived(peer, Framed(PositionUpdate(1, objectID, tf)));
    assert [ev][..0] == [];
    var t1 := Server.HandleAll(t0, [ev]);
    assert t1 == Server.Handle(Server.HandleAll(t0, []), ev);
    assert Server.HandleAll(t0, []) == t0;
    assert Server.Handle(t0, ev) == Server.Receive(t0, peer, Framed(PositionUpdate(1, objectID, tf)));
    assert t1 == Server.UpdatePosition(t0, peer, objectID, tf);
    assert t1.clients == map[peer := Server.ClientState(1, peer, objectID, tf, true)];
    assert peer in t1.clients && t1.clients[peer].hasTransform;
  }

  /** One local player, with or without an owner yet, uploads once and ends up owned by `id`. */
  lemma UploadOneRecord(r: Sync.SyncRecord, id: ClientID)
    requires r.isLocalPlayer && (r.owner == INVALID_CLIENT_ID || r.owner == id)
    ensures Sync.UploadRecords([r], id) == [r.(owner := id)]
    ensures Sync.UploadSends([r], id) == [Sync.UploadFor(r, id)]
  {
    assert [r][..0] == [];
  }

  /** A broadcast holding only the client's own echo leaves its world as it is. */
  lemma EchoIgnored(es: seq<Sync.SyncRecord>, e: Sync.RemoteEntry, id: ClientID)
    requires e.clientID == id
    ensures Sync.ApplyBroadcast(es, [e], id) == es
    ensures Sync.ApplyDespawns(es, [], id) == es
  {
    assert [e][..0] == [];
  }

  /**
   * A client joins a running server, uploads its player object, and receives
   * the server's broadcast.  It is welcomed with id 1, the broadcast lists
   * exactly its own object, and because that entry is its own echo the
   * client's world keeps just its local player, now owned by id 1.
   */
  method JoinUploadAndEcho(peer: Peer, objectID: NetObjectID, tf: NetTransform)
    returns (welcomedID: ClientID, broadcast: seq<BroadcastEntry>, world: seq<Sync.SyncRecord>)
    ensures welcomedID == 1
    ensures broadcast == [BroadcastEntry(1, objectID, tf)]
    ensures world == [Sync.SyncRecord(1, objectID, true, true, false, tf)]
  {
    var server := new Server.GameServer();
    var ok := server.Start(true);
    var client := new Client.NetworkClient();
    ok := client.Connect(true);
    client.OnTransportConnected();
    var hello := client.outbox[0];

    // the server welcomes the new peer
    var events := [Server.PeerConnected(peer), Server.PacketReceived(peer, Framed(hello.msg))];
    WelcomeFirstPeer(peer);
    server.Tick(events);
    var welcome := server.outbox[0];
    assert welcome == Server.SendTo(peer, ServerWelcome(1), RELIABLE);
    var delivered := client.OnRawReceive(Framed(welcome.msg));
    welcomedID := client.GetLocalClientID();

    // the client's first sync update uploads its player
    var w := new Sync.World([Sync.SyncRecord(INVALID_CLIENT_ID, objectID, true, true, false, tf)]);
    var sync := new Sync.NetworkSyncSystem();
    sync.Init(client);
    ghost var before := client.outbox;
    UploadOneRecord(w.entities[0], 1);
    sync.Update(w, client);
    assert client.outbox == before + [Client.Sent(PositionUpdate(1, objectID, tf), UNRELIABLE)];
    var update := client.outbox[|client.outbox| - 1];

    // the server stores it and broadcasts
    ghost var t0 := server.State();
    ReportFirstObject(t0, peer, objectID, tf);
    server.Tick([Server.PacketReceived(peer, Framed(update.msg))]);
    var last := server.outbox[|server.outbox| - 1];
    assert last == server.outbox[|t0.outbox|];
    broadcast := last.msg.entries;
    OnlyEntry(broadcast, BroadcastEntry(1, objectID, tf));

    // the client hands the broadcast to the bridge, which skips its own echo
    delivered := client.OnRawReceive(Framed(last.msg));
    sync.OnPositionBroadcast(delivered.value);
    ghost var pending := sync.pendingRemote;
    assert pending == [Sync.RemoteEntry(1, objectID, tf)];
    ghost var mid := w.entities;
    UploadOneRecord(mid[0], 1);
    EchoIgnored(mid, pending[0], 1);
    sync.Update(w, client);
    world := w.entities;
  }

  /**
   * A client with id 2 hears twice, in two updates, about object 5 of client
   * 1: exactly one remote representation is spawned, and it carries the
   * newer transform.
   */
  method RemoteObjectSpawnsOnce(tf1: NetTransform, tf2: NetTransform, localObject: NetObjectID, localTf: NetTransform)
    returns (world: seq<Sync.SyncRecord>)
    ensures world == [Sync.SyncRecord(2, localObject, true, true, false, localTf),
                      Sync.SyncRecord(1, 5, false, true, false, tf2)]
  {
    var client := new Client.NetworkClient();
    var ok := client.Connect(true);
    client.OnTransportConnected();
    var delivered := client.OnRawReceive(Framed(ServerWelcome(2)));
    var w := new Sync.World([Sync.SyncRecord(2, localObject, true, true, false, localTf)]);
    var sync := new Sync.NetworkSyncSystem();
    sync.Init(client);
    var local := w.entities[0];

    delivered := client.OnRawReceive(Framed(PositionBroadcast([BroadcastEntry(1, 5, tf1)])));
    sync.OnPositionBroadcast(delivered.value);
    ghost var p1 := sync.pendingRemote;
    assert p1 == [Sync.RemoteEntry(1, 5, tf1)];
    sync.Update(w, client);
    assert Sync.UploadRecords([local], 2) == [local];
    assert Sync.ApplyBroadcast([local], p1, 2) == [local, Sync.SyncRecord(1, 5, false, true, false, tf1)] by {
      assert p1[..0] == [];
    }
    ghost var once := w.entities;

    delivered := client.OnRawReceive(Framed(PositionBroadcast([BroadcastEntry(1, 5, tf2)])));
    sync.OnPositionBroadcast(delivered.value);
    ghost var p2 := sync.pendingRemote;
    assert p2 == [Sync.RemoteEntry(1, 5, tf2)];
    sync.Update(w, client);
    assert Sync.UploadRecords(once, 2) == once;
    assert Sync.ApplyBroadcast(once, p2, 2) == once[1 := once[1].(transform := tf2)] by {
      assert p2[..0] == [];
      assert Sync.FindRecord(once, 1, 5) == 1;
    }
    world := w.entities;
  }

  /**
   * The chat HUD ignores Enter on its first two frames, opens on the third,
   * and closes on Escape; the Exit action of that frame is suppressed once,
   * so asking twice answers true and then false.
   */
  method ChatEscapeSuppressesOneExit() returns (openedEarly: bool, openedOnThird: bool, first: bool, second: bool)
    ensures !openedEarly && openedOnThird
    ensures first && !second
  {
    var chat := new Chat.ChatHud();
    chat.OnEnter();
    var sent := chat.Update(true, false, None);
    sent := chat.Update(true, false, None);
    openedEarly := chat.chatActive;
    sent := chat.Update(true, false, None);
    openedOnThird := chat.chatActive;
    sent := chat.Update(false, true, Some("hi"));
    first := chat.ConsumeExitSuppressRequest();
    second := chat.ConsumeExitSuppressRequest();
  }

  /** Enter while chatting sends the input text as an escaped literal; empty input sends nothing. */
  method ChatSendsEscapedLine() returns (sent: Option<string>, empty: Option<string>)
    ensures sent == Some("\"\\\"hi\\\"\"")
    ensures empty == None
  {
    var chat := new Chat.ChatHud();
    chat.OnEnter();
    var s := chat.Update(false, false, None);
    s := chat.Update(false, false, None);
    s := chat.Update(true, false, None);
    assert Chat.EscapeBody("\"") == "\\\"";
    assert Chat.EscapeBody("i\"") == "i\\\"";
    assert Chat.EscapeBody("hi\"") == "hi\\\"";
    assert Chat.EscapeBody("\"hi\"") == "\\\"hi\\\"";
    assert chat.chatActive;
    sent := chat.Update(true, false, Some("\"hi\""));
    assert sent.Some?;
    assert sent.value == "\"" + Chat.EscapeBody("\"hi\"") + "\"";
    assert "\"" + "\\\"hi\\\"" + "\"" == "\"\\\"hi\\\"\"";
    empty := chat.Update(true, false, Some(""));
  }

  /**
   * The manager sees the chat HUD through its view: once the chat is open,
   * a manager holding that HUD blocks gameplay input and shows the cursor;
   * after Escape closes it, a manager holding the new view does neither.
   */
  method ChatViewDrivesManager() returns (blocksOpen: bool, cursorOpen: bool, blocksClosed: bool, cursorClosed: bool)
    ensures blocksOpen && cursorOpen
    ensures !blocksClosed && !cursorClosed
  {
    var chat := new Chat.ChatHud();
    chat.OnEnter();
    var sent := chat.Update(true, false, None);
    sent := chat.Update(true, false, None);
    sent := chat.Update(true, false, None);

    var factory := new Hud.HudFactory();
    factory.Register(7, Some(chat.View()));
    var manager := new Hud.HudManager(factory);
    var ok := manager.AddHud(7);
    assert 7 in manager.huds && manager.huds[7] == chat.View();
    blocksOpen := manager.BlocksGameplayInput();
    cursorOpen := manager.WantsCursorVisible();

    sent := chat.Update(false, true, None);
    factory.Register(7, Some(chat.View()));
    manager.Clear();
    ok := manager.AddHud(7);
    blocksClosed := manager.BlocksGameplayInput();
    cursorClosed := manager.WantsCursorVisible();
  }
}
