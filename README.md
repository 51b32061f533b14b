# Multiplayer position sync, HUD registry and particle ring buffer — a Dafny model

This project models the stateful core of a small game engine and its
dedicated server.

**Position sync** (`NetTypes`, `Server`, `Client`, `Sync`):
- **Server session table** (`Server`). The server keeps one `ClientState`
  per transport peer and an id counter that starts at 1.
  - A `ClientHello` takes the next `ClientID` and queues a reliable
    `ServerWelcome`.
  - A `PositionUpdate` overwrites the sender's stored transform.
  - A `ClientDisconnect` request or a transport disconnect erases the sender.
  - Each tick ends with one unreliable `PositionBroadcast` of every client
    that has reported a transform, or with nothing when none has.
- **Client handshake** (`Client`). The client's state is its local id plus
  the transport's link flag. It is "connected" only with both. A welcome
  sets the id, and a disconnect clears it.
- **Reconciliation bridge** (`Sync`). It buffers the last broadcast and the
  despawn notices. Each update does two things, in this order:
  1. It uploads every local player's transform.
  2. It applies both buffers to the world's sync records, then empties them.
     Applying skips the client's own echo, spawns at most one remote entity
     per (owner, object) pair, and only deactivates remote entities.

**HUD** (`HudStates`, `Hud`, `Chat`, `HudBridge`):
- **HUD registry** (`Hud`). A creator table keyed by HUD state. A manager
  whose map of live HUDs and insertion-ordered list stay in lock-step.
- **`HudState`** (`HudStates`). An (id, name) value whose equality looks at
  the id only.
- **Chat HUD** (`Chat`). A chat toggle, a frame counter that ignores Enter
  right after the HUD appears, and a one-shot request to suppress the Exit
  action. Also the escaper that turns chat text into a JavaScript string
  literal.
- **Web-UI side of chat** (`HudBridge`). The application-state fields the
  game writes, and a trimmed, bounded (128) queue of outgoing chat lines.

**Particles** (`Particles`). The particle emitter's ring-buffer insertion
index, with its spawn cap of 100 and the split write at the end of the buffer.

**Structure of the model.**
- Code that updates state in place is a `class`, whose methods are proved
  against pure functions of the old state.
- The server's handlers are also written as functions over a `Sessions`
  value. The lemmas about whole runs of events are stated there.
- The transport is an outbox log of what each side asked to send.
- A received packet is either too short for a header or a framed message.
- `Scenarios` strings the components together. A client joins, uploads,
  and ignores its own echo. A remote object is spawned once. The chat HUD
  suppresses exactly one Exit.

Two observations about the source:
- **Particle overrun.** `Particles.WritesInBoundsIff` shows that the
  emitter's second write stays inside the buffer only when the batch is at
  most twice the capacity minus the index. The batch is capped at 100, not
  at the capacity, and the index can reach capacity - 1. So an emitter with
  at most 98 slots can be asked to write past its end;
  `Particles.OverrunWithSixtySlots` drives a 60-slot emitter into writing
  slot 98.
- **Server design.** The server's header declares a different design: an
  id-keyed table, a reverse index and a "welcomed" flag. The model follows
  the implementation instead: the table is keyed by peer, and there is no
  welcomed filter.

## Model

| member | source | states |
|---|---|---|
| Server.GameServer.constructor | server/GameServer.h:51 | A new server is stopped, holds no clients, has sent nothing, and its id counter is 1 (0 is the invalid id). |
| Server.GameServer.Start | server/GameServer.cpp:10-25 | Running (and listening) only when Listen succeeds, and the result is Listen's answer; a failed Listen leaves the server as it was; the session table is untouched. |
| Server.GameServer.Stop | server/GameServer.cpp:27-33 | Afterwards the server is not running, the transport is torn down and the table is empty; the id counter is kept. |
| Server.GameServer.Tick | server/GameServer.cpp:37-43 | Nothing changes unless running; otherwise the polled events are handled in delivery order and then exactly one broadcast step follows; the table stays well formed. |
| Server.GameServer.Dispatch | server/GameServer.cpp:47-51 | Routes one transport event to its callback; a new connection changes nothing. |
| Server.GameServer.OnPeerDisconnected | server/GameServer.cpp:53-62 | A transport disconnect forgets the peer if known and sends nothing. |
| Server.GameServer.OnPacketReceived | server/GameServer.cpp:66-90 | Short packets and types the server does not handle are dropped; Hello, position update and disconnect reach their handlers. |
| Server.GameServer.HandleClientHello | server/GameServer.cpp:94-108 | The peer's entry becomes a fresh one with the counter's id, the counter moves on, and one reliable welcome with that id goes to that peer. |
| Server.GameServer.HandlePositionUpdate | server/GameServer.cpp:110-122 | A known peer's object, transform and flag are overwritten; an unknown peer changes nothing. |
| Server.GameServer.HandleClientDisconnect | server/GameServer.cpp:124-135 | The peer's entry is removed if present, and the transport is always asked to drop the peer. |
| Server.GameServer.BroadcastPositions | server/GameServer.cpp:139-161 | The table is unchanged; with no reporting client nothing is sent, otherwise exactly one unreliable broadcast lists each reporting client once (id, object, last transform) and nobody else. |
| Server.HandlePreservesValid | server/GameServer.cpp:47-135 | Every handler keeps each entry filed under its own peer, with a valid id below the counter and distinct from every other peer's id. |
| Server.HandleAllPreservesValid | server/GameServer.cpp:37-43 | Any run of events keeps the table well formed. |
| Server.HandleAllAppend | server/GameServer.cpp:37-43 | Handling two polls one after the other is handling their events in one run. |
| Server.ConnectCreatesNoClient | server/GameServer.cpp:47-51 | A connection event creates no client entry and sends nothing. |
| Server.HelloAssignsNextId | server/GameServer.cpp:97-105 | A Hello gives the peer the counter's value as its id, with no transform yet (also when it says Hello again), bumps the counter, sends exactly one welcome with that id to that peer on channel 0, and leaves every other peer's entry alone. |
| Server.PositionUpdateTouchesOnlySender | server/GameServer.cpp:115-121 | An update from an unknown peer changes nothing; from a known peer it sets only that entry's object, transform and flag, keeping its id; other entries, the counter and the outbox are unchanged. |
| Server.DisconnectRemovesOnlyPeer | server/GameServer.cpp:53-62 | A disconnect request or a transport disconnect removes exactly the peer's entry and keeps all others; only the request asks the transport to drop the peer. |
| Server.IgnoredPacketsChangeNothing | server/GameServer.cpp:69-70 | A packet shorter than the header, or a message type the server does not handle, leaves every part of the state unchanged. |
| Server.WelcomesAreConsecutive | server/GameServer.cpp:97-105 | Over any run of events, the welcomes sent carry exactly the consecutive ids from the old counter up to the new one: none skipped, none repeated. |
| Server.HandleWelcomesNext | server/GameServer.cpp:97-105 | One event either keeps the counter and sends no welcome, or bumps it by one and sends the welcome for its old value. |
| Server.WelcomedIdsIncreaseFromOne | server/GameServer.h:51 | From a new server the ids handed out are 1, 2, 3, ... in order: strictly increasing and never the invalid id 0. |
| Server.UpdatesKeepOthers | server/GameServer.cpp:115-121 | Any number of position updates from a known peer keep the set of peers and every other peer's entry. |
| Server.SessionLeavesNoTrace | server/GameServer.cpp:53-135 | A new peer's whole session (connect, Hello, any updates, then a disconnect request or a transport disconnect) leaves the table exactly as it was. |
| Server.BroadcastNamesEachReporterOnce | server/GameServer.cpp:139-161 | Every broadcast entry belongs to a client with a transform, every such client is listed, and no client id appears twice. |
| Server.Welcomes | server/GameServer.cpp:104-105 | An id is listed exactly when some message of the log is a welcome handing it out, with at most one id per message. |
| Server.WelcomesOfOne | server/GameServer.cpp:104-105 | One message contributes its id exactly when it is a welcome, and nothing otherwise. |
| Server.WelcomesAppend | server/GameServer.cpp:104-105 | The welcome ids of two logs one after the other are those of the first followed by those of the second: the ids are read in send order. |
| Server.Range | server/GameServer.h:51 | The consecutive ids lo .. hi-1, one per position. |
| Client.NetworkClient.constructor | src/Engine/Network/Client/NetworkClient.h:65 | A new client has no id, no link, no broadcast callback and has sent nothing. |
| Client.NetworkClient.IsConnected | src/Engine/Network/Client/NetworkClient.cpp:56-59 | Connected exactly when the transport link is up and a valid (non-zero) id is held. |
| Client.NetworkClient.GetLocalClientID | src/Engine/Network/Client/NetworkClient.h:45 | The held id, which is valid whenever the client is connected; the invalid id means not connected. |
| Client.NetworkClient.Connect | src/Engine/Network/Client/NetworkClient.cpp:17-36 | Returns the transport's answer; a started connection is not yet connected, and no message is sent before the connect event. |
| Client.NetworkClient.OnTransportConnected | src/Engine/Network/Client/NetworkClient.cpp:20-24 | The connect event brings the link up and sends exactly one Hello on channel 0. |
| Client.NetworkClient.OnTransportDisconnected | src/Engine/Network/Client/NetworkClient.cpp:26-29 | The disconnect event clears the id, so the client is no longer connected. |
| Client.NetworkClient.Disconnect | src/Engine/Network/Client/NetworkClient.cpp:39-48 | A disconnect message with the id goes out on channel 0 only when an id is held; the link always goes down and the id is reset to invalid. |
| Client.NetworkClient.SendPositionUpdate | src/Engine/Network/Client/NetworkClient.cpp:62-71 | Nothing is sent unless connected (link up and valid id); otherwise exactly one update tagged with the local id goes out on channel 1. |
| Client.NetworkClient.SetOnPositionBroadcast | src/Engine/Network/Client/NetworkClient.h:55-58 | A broadcast callback is registered; nothing else changes. |
| Client.NetworkClient.OnRawReceive | src/Engine/Network/Client/NetworkClient.cpp:74-105 | A welcome sets the id to the assigned one; a broadcast reaches the callback, in full, only when one is set, and leaves the id alone; short packets and other types change nothing. |
| Sync.NetworkSyncSystem.constructor | src/Engine/Network/Sync/NetworkSyncSystem.h:44-46 | A new bridge has no callbacks bound and both buffers empty. |
| Sync.NetworkSyncSystem.Init | src/Engine/Network/Sync/NetworkSyncSystem.cpp:11-39 | The broadcast callback is bound on the first call; any later call leaves the client untouched; the buffers are kept. |
| Sync.NetworkSyncSystem.OnPositionBroadcast | src/Engine/Network/Sync/NetworkSyncSystem.cpp:25-30 | The broadcast buffer is replaced by exactly the received entries, in order; the despawn buffer is kept. |
| Sync.NetworkSyncSystem.OnObjectDespawn | src/Engine/Network/Sync/NetworkSyncSystem.cpp:32-36 | Exactly one (owner, object) notice is appended to the despawn buffer. |
| Sync.NetworkSyncSystem.Update | src/Engine/Network/Sync/NetworkSyncSystem.cpp:42-94 | Nothing changes while the client is not connected; otherwise the world becomes the upload step (owners filled in) followed by the broadcast and then the despawns, the client sends the upload's position updates, and both buffers end empty. |
| Sync.NetworkSyncSystem.ApplyRemoteBroadcast | src/Engine/Network/Sync/NetworkSyncSystem.cpp:97-149 | The world becomes the pending entries applied in order, the local echo skipped, and the buffer ends empty. |
| Sync.NetworkSyncSystem.FindOrSpawnRemoteObject | src/Engine/Network/Sync/NetworkSyncSystem.cpp:151-182 | Returns the first entity with the key and changes nothing when there is one; otherwise appends exactly one remote, active entity with that key and returns it. |
| Sync.NetworkSyncSystem.ApplyRemoteDespawn | src/Engine/Network/Sync/NetworkSyncSystem.cpp:184-216 | The world becomes the pending notices applied in order, those about the local client skipped, and the buffer ends empty. |
| Sync.IndexOfRecord | src/Engine/Network/Sync/NetworkSyncSystem.cpp:115-126 | The search loop finds the first entity with the (owner, object) key, or reports none. |
| Sync.IndexOfRemote | src/Engine/Network/Sync/NetworkSyncSystem.cpp:197-212 | The despawn search finds the first non-local entity with the key, or reports none. |
| Sync.FindRecord | src/Engine/Network/Sync/NetworkSyncSystem.cpp:115-126 | The index found carries the key and no earlier entity does; the length of the world means there is none. |
| Sync.FindRemote | src/Engine/Network/Sync/NetworkSyncSystem.cpp:197-205 | The index found is a non-local entity with the key and every earlier entity is local or has another key. |
| Sync.FindRecordIsFirst | src/Engine/Network/Sync/NetworkSyncSystem.cpp:115-126 | The first matching index (or none) is unique: any index with those properties is the one FindRecord gives. |
| Sync.FindRemoteIsFirst | src/Engine/Network/Sync/NetworkSyncSystem.cpp:197-205 | The same uniqueness for the despawn search. |
| Sync.SameKeysSameFind | src/Engine/Network/Sync/NetworkSyncSystem.cpp:138-145 | Moving entities (changing transforms only) does not change which entity a key finds. |
| Sync.FindRecordAppend | src/Engine/Network/Sync/NetworkSyncSystem.cpp:130-133 | Adding a spawned entity to the search set never moves an existing match, and makes the new entity the match only for its own key. |
| Sync.ApplyBroadcastSpawnsOnce | src/Engine/Network/Sync/NetworkSyncSystem.cpp:107-146 | A broadcast only moves existing entities (keys, flags and ownership kept) and appends spawned ones; each spawned entity is remote, active, not the local client's, the first and only one with its key, and its key was absent before: a key repeated in one batch spawns once. |
| Sync.ApplyBroadcastLastWriteWins | src/Engine/Network/Sync/NetworkSyncSystem.cpp:107-146 | Afterwards the entity found for a key holds the transform of the last non-echo entry for it; a key with no such entry (every local key included) keeps its entity unchanged and gains none. |
| Sync.ApplyDespawnsTargets | src/Engine/Network/Sync/NetworkSyncSystem.cpp:192-213 | Despawns keep the world's length and every entity's key, owner and transform; an entity changes only by becoming inactive and waiting for destruction, only as the first non-local match of a notice not about the local client; local players never change, and every such first match is deactivated. |
| Sync.LocalDespawnsIgnored | src/Engine/Network/Sync/NetworkSyncSystem.cpp:194-195 | Notices about the local client never change the world. |
| Sync.UploadOnePerLocalPlayer | src/Engine/Network/Sync/NetworkSyncSystem.cpp:52-79 | The upload sends exactly one unreliable position update per local player, in world order, tagged with the local id and carrying that entity's object and transform; non-local entities send nothing. |
| Sync.LocalPlayersSnoc | src/Engine/Network/Sync/NetworkSyncSystem.cpp:57-58 | One more entity adds itself to the local players exactly when it is a local player. |
| Sync.World.constructor | src/Engine/Network/Sync/NetworkSyncSystem.cpp:48 | A world holding the given synced entities. |
| HudStates.Default | src/Engine/System/HUD/HudState.h:8 | The default state has id -1 and name "none". |
| HudStates.EqIsIdEquivalence | src/Engine/System/HUD/HudState.h:14 | Equality is reflexive, symmetric and transitive, and holds exactly when the int conversions agree. |
| HudStates.EqIgnoresNames | src/Engine/System/HUD/HudState.h:14 | Two states with one id are equal whatever their names, even when the values differ. |
| HudStates.NeqIsNotEq | src/Engine/System/HUD/HudState.h:15 | Inequality is exactly the negation of equality. |
| HudStates.ConversionsRoundTrip | src/Engine/System/HUD/HudState.h:9-17 | The int conversion gives back the id, and the string conversion and GetName give back the name, the constructor was given. |
| HudStates.NoneIsDefault | src/Engine/System/HUD/HudState.h:24 | HUD_STATE_NONE is the default state. |
| Hud.HudFactory.constructor | src/Engine/System/HUD/HudFactory.cpp:4-7 | A new factory has no creators. |
| Hud.HudFactory.Create | src/Engine/System/HUD/HudFactory.cpp:9-16 | An unregistered state yields no HUD; a registered one yields what its creator yields. |
| Hud.HudFactory.Register | src/Engine/System/HUD/HudFactory.cpp:4-7 | Afterwards the state yields the new creator's result, whatever was registered before; every other state yields what it did. |
| Hud.HudManager.constructor | src/Engine/System/HUD/HudManager.cpp:5-8 | A new manager holds no HUDs, and the map and the order agree. |
| Hud.HudManager.HasHud | src/Engine/System/HUD/HudManager.cpp:49-52 | True exactly when the state is a key of the HUD map, and so, while map and order agree, exactly when it is listed in the order. |
| Hud.HudManager.AddHud | src/Engine/System/HUD/HudManager.cpp:21-36 | A present state answers true and changes nothing; with no factory or a null result it answers false and changes nothing; otherwise the HUD is stored and its state appended to the order; map and order stay in lock-step without repeats. |
| Hud.HudManager.RemoveHud | src/Engine/System/HUD/HudManager.cpp:38-47 | An absent state is a no-op; a present one leaves the map and leaves the order at its one position, the others keeping their relative order. |
| Hud.HudManager.Clear | src/Engine/System/HUD/HudManager.cpp:54-66 | Both structures end empty; the factory is kept. |
| Hud.HudManager.SetFactory | src/Engine/System/HUD/HudManager.cpp:15-19 | The live HUDs are cleared and the new factory installed. |
| Hud.HudManager.BlocksGameplayInput | src/Engine/System/HUD/HudManager.cpp:98-107 | True exactly when some live HUD blocks gameplay input. |
| Hud.HudManager.WantsCursorVisible | src/Engine/System/HUD/HudManager.cpp:109-118 | True exactly when some live HUD wants the cursor. |
| Hud.HudManager.ConsumeExitSuppressRequest | src/Engine/System/HUD/HudManager.cpp:120-130 | Every live HUD is asked, none skipped: true exactly when some HUD had a pending request, and afterwards none has one; the HUDs and their order are kept. |
| Hud.Without | src/Engine/System/HUD/HudManager.cpp:46 | The erase-remove result holds every state except the removed one and is no longer than before. |
| Hud.WithoutAt | src/Engine/System/HUD/HudManager.cpp:46 | On a list without repeats, removing the element at position i leaves exactly the elements before and after it, in order. |
| Hud.WithoutKeepsDistinct | src/Engine/System/HUD/HudManager.cpp:46 | Removing a state from a list without repeats leaves a list without repeats. |
| Hud.WithoutAbsent | src/Engine/System/HUD/HudManager.cpp:46 | Removing a state that is not listed leaves the list as it was. |
| Chat.ChatHud.constructor | src/Game/HUD/ChatHud.h:33-35 | A new chat HUD is inactive, has no pending suppression and counts no frames. |
| Chat.ChatHud.View | src/Game/HUD/ChatHud.h:20-21 | The HUD blocks input and wants the cursor exactly while chatting, and reports its pending suppression. |
| Chat.ChatHud.OnEnter | src/Game/HUD/ChatHud.cpp:16-18 | Entering resets the toggle, the suppression flag and the frame counter. |
| Chat.ChatHud.OnExit | src/Game/HUD/ChatHud.cpp:57-63 | Leaving closes the chat if it was open; the flag and counter are kept. |
| Chat.ChatHud.ConsumeExitSuppressRequest | src/Game/HUD/ChatHud.cpp:65-71 | Answers the flag and clears it, so a second call in a row answers false. |
| Chat.ChatHud.ActivateChat | src/Game/HUD/ChatHud.cpp:75-78 | Already active changes nothing; otherwise the chat becomes active. |
| Chat.ChatHud.DeactivateChat | src/Game/HUD/ChatHud.cpp:98-101 | Already inactive changes nothing; otherwise the chat becomes inactive. |
| Chat.ChatHud.Update | src/Game/HUD/ChatHud.cpp:38-51 | The frame counter goes up by one; while inactive, Enter opens the chat only from the third frame on and nothing is sent; while active, the frame is the chat poll. |
| Chat.ChatHud.PollChatUI | src/Game/HUD/ChatHud.cpp:140-167 | Escape closes the chat and requests one Exit suppression; Enter sends the input as an escaped literal exactly when there is a UI layer and the text is not empty. |
| Chat.EscapeForJsStringLiteral | src/Game/HUD/ChatHud.cpp:118-138 | The loop's output is a quote, every character escaped in order, and a quote. |
| Chat.EscapeChar | src/Game/HUD/ChatHud.cpp:123-135 | A special character becomes a backslash and one more character; any other is copied. |
| Chat.EscapedLiteralShape | src/Game/HUD/ChatHud.cpp:122-136 | The literal starts and ends with a quote, its length is the text's plus two plus one per special character, and its interior reads back as the text. |
| Chat.UnescapeEscapeBody | src/Game/HUD/ChatHud.cpp:123-135 | Reading the escaped interior back gives the original text. |
| Chat.EscapeBodyLength | src/Game/HUD/ChatHud.cpp:123-135 | Each special character costs exactly one extra character. |
| Chat.EscapeBodyIsSafe | src/Game/HUD/ChatHud.cpp:123-135 | No raw newline or carriage return is inside, and every double quote is preceded by a backslash. |
| Chat.EscapeBodyAppend | src/Game/HUD/ChatHud.cpp:123-135 | Escaping one more character appends that character's escape. |
| HudBridge.TrimStart | ui/src/hud/hudBridge.js:56 | Drops exactly the leading white space: the result is a suffix not starting with white space. |
| HudBridge.TrimEnd | ui/src/hud/hudBridge.js:56 | Drops exactly the trailing white space: the result is a prefix not ending with white space. |
| HudBridge.Trim | ui/src/hud/hudBridge.js:56 | The trimmed text neither starts nor ends with white space. |
| HudBridge.TrimIsSlice | ui/src/hud/hudBridge.js:56 | The trimmed text is one contiguous piece of the input with only white space before and after it. |
| HudBridge.TrimEmptyIff | ui/src/hud/hudBridge.js:56-59 | The payload is empty exactly when the input is all white space. |
| HudBridge.AllWhitespaceTrimsAway | ui/src/hud/hudBridge.js:56 | An all-white-space input trims to nothing. |
| HudBridge.TrimIdempotent | ui/src/hud/hudBridge.js:56 | Trimming twice is trimming once. |
| HudBridge.AppState.constructor | ui/src/hud/hudBridge.js:3-6 | A fresh state object holds no chat fields yet: no array queue, everything empty or false. |
| HudBridge.AppState.SetChatActiveState | ui/src/hud/hudBridge.js:8-11 | Stores the boolean coercion of its argument and nothing else. |
| HudBridge.AppState.SetChatActive | ui/src/hud/hudBridge.js:44-52 | Stores the boolean coercion of its argument and nothing else. |
| HudBridge.AppState.SetChatInputText | ui/src/hud/hudBridge.js:13-16 | Stores the text, or the empty string for a nullish value. |
| HudBridge.AppState.ClearChatQueue | ui/src/hud/hudBridge.js:18-21 | The queue becomes an empty array. |
| HudBridge.AppState.ClearLegacyChatSend | ui/src/hud/hudBridge.js:23-27 | The legacy send flag is cleared and its text emptied. |
| HudBridge.AppState.ResetChatState | ui/src/hud/hudBridge.js:29-35 | Messages and queue empty, chat inactive, input text empty, legacy send cleared. |
| HudBridge.AppState.EnqueueChatSend | ui/src/hud/hudBridge.js:54-70 | An empty trimmed payload is refused with the queue unchanged; a slot that is not an array is reset first; a queue of 128 or more refuses; otherwise the payload is appended and true returned; a queue within the bound stays within it. |
| Particles.ParticleEmitter.constructor | src/Engine/Graphics/ParticleSystem/ParticleEmiter.cpp:3-7 | A new emitter starts at slot 0 with no initializers. |
| Particles.ParticleEmitter.AddInitializer | src/Engine/Graphics/ParticleSystem/ParticleEmiter.cpp:47-50 | The initializer is appended after the earlier ones. |
| Particles.ParticleEmitter.Update | src/Engine/Graphics/ParticleSystem/ParticleEmiter.cpp:9-46 | A non-positive count changes nothing; otherwise at most 100 fresh particles go through every initializer in order, are written at the index (split at the end of the buffer) and the index moves on, staying a slot of the buffer. |
| Particles.GpuParticleBuffer.UpdateSubData | src/Engine/Graphics/ParticleSystem/ParticleEmiter.cpp:29 | One write of the given items at the given offset is recorded. |
| Particles.PlaceWrite | src/Engine/Graphics/ParticleSystem/ParticleEmiter.cpp:29 | A write puts its j-th item in slot offset + j. |
| Particles.RingPlacement | src/Engine/Graphics/ParticleSystem/ParticleEmiter.cpp:26-44 | For a batch no larger than the buffer, the k-th particle lands in slot (index + k) mod capacity and the new index is (index + count) mod capacity. |
| Particles.WritesInBoundsIff | src/Engine/Graphics/ParticleSystem/ParticleEmiter.cpp:31-42 | Every slot written is inside the buffer exactly when count + index is at most twice the capacity. |
| Scenarios.JoinUploadAndEcho | server/GameServer.cpp:94-161 | A joining client is welcomed with id 1, the broadcast lists exactly its object, and its own echo leaves its world holding only its local player, now owned by id 1. |
| Scenarios.RemoteObjectSpawnsOnce | src/Engine/Network/Sync/NetworkSyncSystem.cpp:107-177 | Two broadcasts about one remote object spawn it once, and it ends with the newer transform. |
| Scenarios.ChatEscapeSuppressesOneExit | src/Game/HUD/ChatHud.cpp:38-71 | Enter is ignored for two frames and opens the chat on the third; Escape then suppresses exactly one Exit. |
| Particles.OverrunWithSixtySlots | src/Engine/Graphics/ParticleSystem/ParticleEmiter.cpp:14-44 | With 60 slots, spawning 59 and then a capped 100 makes the last write cover slots 0 to 98, past the end of the buffer. |
| Scenarios.ChatViewDrivesManager | src/Engine/System/HUD/HudManager.cpp:98-118 | A manager holding the open chat HUD blocks input and shows the cursor; holding it after Escape it does neither. |
| Scenarios.ChatSendsEscapedLine | src/Game/HUD/ChatHud.cpp:118-167 | A quoted line is sent as its escaped literal, and empty input sends nothing. |

## Left out

- Server.GameServer.HandleClientHello: the 32-bit `ClientID` counter is an unbounded natural, so the wrap after 2^32 - 1 Hellos (back to the invalid id 0) is not modelled; `Server.WelcomedIdsIncreaseFromOne` holds only below that bound.
- The ENet transport is not part of this model. Sends are entries in an outbox log, and a link is a flag. This leaves out: the host handle, sends attempted without a peer, the blocking disconnect wait, and channel setup. The transport's own drop of a peer is an outbox entry (`DisconnectPeer`).
- The wire codec is not part of this model. Its byte layout, the header size, and how a type is recognised are abstracted away. A packet is either too short for a header or a decoded message.
- Floating-point code is not modelled:
  - Transforms are copied as values and never computed with.
  - The emitter's emission-rate accumulator is replaced by the spawn count as an input.
  - NaN truthiness in `HudBridge.Truthy` is not covered.
- Particles.ParticleEmitter.Update: a particle is the list of initializer ids that ran on it, and an initializer is an opaque id. What an initializer does to a particle's fields, and the GPU upload itself, are not modelled. The GPU buffer is its log of sub-data writes.
- The emitter's constructor argument for the buffer and its rendering calls are not modelled.
- Logging and the log-only static counters are left out. This covers the console output in every file, and the counters in the sync bridge's broadcast callback and upload step.
- The despawn producer (`SetOnObjectDespawn`) is not declared by the client's header. Despawn notices enter the bridge as calls to `OnObjectDespawn`. The server never sends them.
- The client's `Poll` only drives the transport. Its effects are the calls to the transport event methods (`OnTransportConnected`, `OnTransportDisconnected`, `OnRawReceive`).
- Sync.NetworkSyncSystem.FindOrSpawnRemoteObject: prefab loading, the entity name and the component plumbing are not modelled. A spawned entity is a sync record with a zero transform, which the caller overwrites at once. Entities that lack a sync or transform component are never in the modelled world.
- The HUD interface's forwarding calls are not modelled: `OnEnter`/`OnExit` of managed HUDs, `FixedUpdate`, `Update`, `Draw`, and the null HUD pointers. A live HUD is its three query answers. A creator is the HUD value it yields, or none.
- The chat HUD's UI side effects are not modelled: the scripts it executes in the web view, the cursor and input-manager calls, and the chat-message list. Key presses and the UI's input text are inputs.
- `HudBridge.Coerce` covers strings and nullish values. The `String()` conversion of other JavaScript values is not modelled.
- The bridge's window hooks (`__NW_CHAT_ACTIVATE__` and the like) are not modelled. Nor are `registerHudBridge`/`unregisterHudBridge`, which only install and remove global references to the modelled functions.
- The server header's alternative design is not modelled. That design has an id-keyed table, a reverse connection index and a welcomed flag, and no implementation of it is shown.
- Sync.NetworkSyncSystem.Update and Sync.NetworkSyncSystem.ApplyRemoteBroadcast: an entity has one transform. The upload reads the world position and rotation, and the broadcast writes the local ones; the model treats the two as the same, which holds only for entities without a parent.
- Sync.NetworkSyncSystem.ApplyRemoteBroadcast and Sync.NetworkSyncSystem.ApplyRemoteDespawn: the searched world holds every entity with a sync and a transform component, inactive and waiting-for-destruction ones included, and nothing is ever destroyed. The world's entity query is not part of this model. If that query skipped inactive entities, a key broadcast again after its despawn would spawn a fresh entity, where the model moves the deactivated one.
- Client.NetworkClient.Connect and Server.GameServer.Start: a failed call is modelled as changing nothing. That is exact for a first call. On a repeated call while a link or a host is live, the transport's failure paths may drop the link (a failed connect cleans the transport up) or lose the listening host while the server stays marked running; this is not modelled.
- Chat.ChatHud.Update: the frame counter is a C++ `int`, and its overflow after 2^31 - 1 frames is not modelled; the counter is an unbounded integer.
