/**
 * The bridge between the network client and the game world.  Broadcasts and
 * despawn notices are buffered; each Update uploads the local players'
 * transforms and then applies both buffers to the world's sync records,
 * spawning one remote representation per unseen (owner, object) pair.
 *
 * The world is the list of entities that carry both a sync and a transform
 * component; an entity is identified by its position in that list, and
 * spawning appends.
 */
module Sync {
  import opened NetTypes
  import Client

  /** One entry of the pending broadcast buffer. */
  datatype RemoteEntry = RemoteEntry(clientID: ClientID, objectID: NetObjectID, transform: NetTransform)

  /** One entry of the pending despawn buffer. */
  datatype DespawnEntry = DespawnEntry(ownerClientID: ClientID, objectID: NetObjectID)

  /** The sync-relevant view of one world entity: its sync component, activity flags and transform. */
  datatype SyncRecord = SyncRecord(
    owner: ClientID,
    objectID: NetObjectID,
    isLocalPlayer: bool,
    active: bool,
    waitingDestroy: bool,
    transform: NetTransform)

  predicate IsKey(r: SyncRecord, owner: ClientID, objectID: NetObjectID) {
    r.owner == owner && r.objectID == objectID
  }

  /** Index of the first record with the given key, or |es| when there is none. */
  function FindRecord(es: seq<SyncRecord>, owner: ClientID, objectID: NetObjectID): (k: nat)
    ensures k <= |es|
    ensures k < |es| ==> IsKey(es[k], owner, objectID)
    ensures forall j :: 0 <= j < k ==> !IsKey(es[j], owner, objectID)
    decreases |es|
  {
    if es == [] then 0
    else if IsKey(es[0], owner, objectID) then 0
    else 1 + FindRecord(es[1..], owner, objectID)
  }

  /** Index of the first non-local record with the given key, or |es| when there is none. */
  function FindRemote(es: seq<SyncRecord>, owner: ClientID, objectID: NetObjectID): (k: nat)
    ensures k <= |es|
    ensures k < |es| ==> !es[k].isLocalPlayer && IsKey(es[k], owner, objectID)
    ensures forall j :: 0 <= j < k ==> es[j].isLocalPlayer || !IsKey(es[j], owner, objectID)
    decreases |es|
  {
    if es == [] then 0
    else if !es[0].isLocalPlayer && IsKey(es[0], owner, objectID) then 0
    else 1 + FindRemote(es[1..], owner, objectID)
  }

  /** A remote representation as FindOrSpawnRemoteObject tags it: not local, active. */
  function Spawned(owner: ClientID, objectID: NetObjectID): SyncRecord {
    SyncRecord(owner, objectID, false, true, false, ZeroTransform)
  }

  /** One broadcast entry: move the matching entity, or spawn one and move it. */
  function ApplyEntry(es: seq<SyncRecord>, e: RemoteEntry): seq<SyncRecord> {
    var k := FindRecord(es, e.clientID, e.objectID);
    if k < |es| then es[k := es[k].(transform := e.transform)]
    else es + [Spawned(e.clientID, e.objectID).(transform := e.transform)]
  }

  /** ApplyRemoteBroadcast: the pending entries in order, skipping the local client's own echo. */
  function ApplyBroadcast(es: seq<SyncRecord>, pending: seq<RemoteEntry>, localID: ClientID): seq<SyncRecord>
    decreases |pending|
  {
    if pending == [] then es
    else
      var prev := ApplyBroadcast(es, pending[..|pending| - 1], localID);
      var e := pending[|pending| - 1];
      if e.clientID == localID then prev else ApplyEntry(prev, e)
  }

  /** One despawn notice: the first matching non-local entity becomes inactive and waits for destruction. */
  function ApplyDespawn(es: seq<SyncRecord>, d: DespawnEntry): seq<SyncRecord> {
    var k := FindRemote(es, d.ownerClientID, d.objectID);
    if k < |es| then es[k := es[k].(active := false, waitingDestroy := true)] else es
  }

  /** ApplyRemoteDespawn: the pending notices in order, ignoring those about the local client. */
  function ApplyDespawns(es: seq<SyncRecord>, ds: seq<DespawnEntry>, localID: ClientID): seq<SyncRecord>
    decreases |ds|
  {
    if ds == [] then es
    else
      var prev := ApplyDespawns(es, ds[..|ds| - 1], localID);
      var d := ds[|ds| - 1];
      if d.ownerClientID == localID then prev else ApplyDespawn(prev, d)
  }

  /** The upload step's change to one entity: a local player without an owner takes the local id. */
  function FillOwner(r: SyncRecord, localID: ClientID): SyncRecord {
    if r.isLocalPlayer && r.owner == INVALID_CLIENT_ID then r.(owner := localID) else r
  }

  function UploadRecords(es: seq<SyncRecord>, localID: ClientID): seq<SyncRecord> {
    seq(|es|, i requires 0 <= i < |es| => FillOwner(es[i], localID))
  }

  /** The position update sent for one local player. */
  function UploadFor(r: SyncRecord, localID: ClientID): Client.Sent {
    Client.Sent(PositionUpdate(localID, r.objectID, r.transform), UNRELIABLE)
  }

  /** What the upload step sends, entity by entity. */
  function UploadSends(es: seq<SyncRecord>, localID: ClientID): seq<Client.Sent>
    decreases |es|
  {
    if es == [] then []
    else
      UploadSends(es[..|es| - 1], localID)
        + (if es[|es| - 1].isLocalPlayer then [UploadFor(es[|es| - 1], localID)] else [])
  }

  /** The local players among the entities, in world order. */
  function LocalPlayers(es: seq<SyncRecord>): seq<SyncRecord>
    decreases |es|
  {
    if es == [] then []
    else (if es[0].isLocalPlayer then [es[0]] else []) + LocalPlayers(es[1..])
  }

  // ------------------------------------------------------------------- world

  class World {
    var entities: seq<SyncRecord>

    constructor (entities: seq<SyncRecord>)
      ensures this.entities == entities
    {
      this.entities := entities;
    }
  }

  // -------------------------------------------------------------- the bridge

  class NetworkSyncSystem {
    var callbackBound: bool
    var pendingRemote: seq<RemoteEntry>
    var pendingDespawn: seq<DespawnEntry>

    constructor ()
      ensures !callbackBound && pendingRemote == [] && pendingDespawn == []
    {
      callbackBound := false;
      pendingRemote := [];
      pendingDespawn := [];
    }

    /** Init binds the broadcast callback once; a later call changes nothing. */
    method Init(client: Client.NetworkClient)
      modifies this, client
      ensures callbackBound
      ensures old(callbackBound) ==> unchanged(client)
      ensures !old(callbackBound) ==> client.broadcastCallbackSet
      ensures client.transportConnected == old(client.transportConnected)
      ensures client.localClientID == old(client.localClientID) && client.outbox == old(client.outbox)
      ensures pendingRemote == old(pendingRemote) && pendingDespawn == old(pendingDespawn)
    {
      if callbackBound {
        return;
      }
      client.SetOnPositionBroadcast();
      callbackBound := true;
    }

    /** The broadcast callback: the buffer is replaced by exactly the received entries, in order. */
    method OnPositionBroadcast(entries: seq<BroadcastEntry>)
      modifies this
      ensures |pendingRemote| == |entries|
      ensures forall i :: 0 <= i < |entries| ==>
                pendingRemote[i] == RemoteEntry(entries[i].clientID, entries[i].objectID, entries[i].transform)
      ensures callbackBound == old(callbackBound) && pendingDespawn == old(pendingDespawn)
    {
      pendingRemote := [];
      var i := 0;
      while i < |entries|
        invariant 0 <= i <= |entries|
        invariant |pendingRemote| == i
        invariant forall j :: 0 <= j < i ==>
                    pendingRemote[j] == RemoteEntry(entries[j].clientID, entries[j].objectID, entries[j].transform)
        invariant callbackBound == old(callbackBound) && pendingDespawn == old(pendingDespawn)
      {
        var e := entries[i];
        pendingRemote := pendingRemote + [RemoteEntry(e.clientID, e.objectID, e.transform)];
        i := i + 1;
      }
    }

    /** The despawn callback: exactly one notice is appended. */
    method OnObjectDespawn(owner: ClientID, objectID: NetObjectID)
      modifies this
      ensures pendingDespawn == old(pendingDespawn) + [DespawnEntry(owner, objectID)]
      ensures callbackBound == old(callbackBound) && pendingRemote == old(pendingRemote)
    {
      pendingDespawn := pendingDespawn + [DespawnEntry(owner, objectID)];
    }

    /**
     * Update: nothing while the client is not connected.  Otherwise upload one
     * position update per local player (filling in its owner), then apply the
     * broadcast buffer and the despawn buffer, and leave both empty.
     */
    method Update(world: World, client: Client.NetworkClient)
      modifies this, world, client
      ensures !old(client.IsConnected()) ==> unchanged(this, world, client)
      ensures old(client.IsConnected()) ==>
                var id := old(client.localClientID);
                && world.entities == ApplyDespawns(
                     ApplyBroadcast(UploadRecords(old(world.entities), id), old(pendingRemote), id),
                     old(pendingDespawn), id)
                && client.outbox == old(client.outbox) + UploadSends(old(world.entities), id)
                && pendingRemote == [] && pendingDespawn == []
      ensures client.transportConnected == old(client.transportConnected)
      ensures client.localClientID == old(client.localClientID)
      ensures client.broadcastCallbackSet == old(client.broadcastCallbackSet)
      ensures callbackBound == old(callbackBound)
    {
      if !client.IsConnected() {
        return;
      }
      var id := client.GetLocalClientID();
      ghost var es0 := world.entities;

      // 1. upload local transforms
      var i := 0;
      while i < |world.entities|
        invariant 0 <= i <= |world.entities| == |es0|
        invariant forall j :: 0 <= j < i ==> world.entities[j] == FillOwner(es0[j], id)
        invariant forall j :: i <= j < |es0| ==> world.entities[j] == es0[j]
        invariant client.outbox == old(client.outbox) + UploadSends(es0[..i], id)
        invariant client.IsConnected() && client.localClientID == id
        invariant client.broadcastCallbackSet == old(client.broadcastCallbackSet)
        invariant pendingRemote == old(pendingRemote) && pendingDespawn == old(pendingDespawn)
        invariant callbackBound == old(callbackBound)
      {
        var r := world.entities[i];
        if r.isLocalPlayer {
          if r.owner == INVALID_CLIENT_ID {
            world.entities := world.entities[i := r.(owner := id)];
          }
          client.SendPositionUpdate(r.objectID, r.transform);
        }
        assert es0[..i + 1][..i] == es0[..i];
        i := i + 1;
      }
      assert es0[..i] == es0;
      assert world.entities == UploadRecords(es0, id);

      // 2. apply remote state
      ApplyRemoteBroadcast(world, id);
      ApplyRemoteDespawn(world, id);
    }

    method ApplyRemoteBroadcast(world: World, localID: ClientID)
      modifies this, world
      ensures world.entities == ApplyBroadcast(old(world.entities), old(pendingRemote), localID)
      ensures pendingRemote == []
      ensures callbackBound == old(callbackBound) && pendingDespawn == old(pendingDespawn)
    {
      if |pendingRemote| == 0 {
        return;
      }
      var i := 0;
      while i < |pendingRemote|
        invariant 0 <= i <= |pendingRemote|
        invariant pendingRemote == old(pendingRemote)
        invariant world.entities == ApplyBroadcast(old(world.entities), pendingRemote[..i], localID)
        invariant callbackBound == old(callbackBound) && pendingDespawn == old(pendingDespawn)
      {
        var remote := pendingRemote[i];
        assert pendingRemote[..i + 1][..i] == pendingRemote[..i];
        if remote.clientID != localID {
          var k := IndexOfRecord(world.entities, remote.clientID, remote.objectID);
          if k == |world.entities| {
            k := FindOrSpawnRemoteObject(world, remote.clientID, remote.objectID);
          }
          world.entities := world.entities[k := world.entities[k].(transform := remote.transform)];
        }
        i := i + 1;
      }
      assert pendingRemote[..i] == pendingRemote;
      pendingRemote := [];
    }

    /** The existing entity with the key, or a newly spawned remote one appended to the world. */
    method FindOrSpawnRemoteObject(world: World, owner: ClientID, objectID: NetObjectID) returns (k: nat)
      modifies world
      ensures k < |world.entities| && IsKey(world.entities[k], owner, objectID)
      ensures var found := FindRecord(old(world.entities), owner, objectID);
        if found < |old(world.entities)|
        then world.entities == old(world.entities) && k == found
        else world.entities == old(world.entities) + [Spawned(owner, objectID)] && k == |old(world.entities)|
    {
      k := IndexOfRecord(world.entities, owner, objectID);
      if k < |world.entities| {
        return;
      }
      world.entities := world.entities + [Spawned(owner, objectID)];
    }

    method ApplyRemoteDespawn(world: World, localID: ClientID)
      modifies this, world
      ensures world.entities == ApplyDespawns(old(world.entities), old(pendingDespawn), localID)
      ensures pendingDespawn == []
      ensures callbackBound == old(callbackBound) && pendingRemote == old(pendingRemote)
    {
      if |pendingDespawn| == 0 {
        return;
      }
      var i := 0;
      while i < |pendingDespawn|
        invariant 0 <= i <= |pendingDespawn|
        invariant pendingDespawn == old(pendingDespawn)
        invariant world.entities == ApplyDespawns(old(world.entities), pendingDespawn[..i], localID)
        invariant callbackBound == old(callbackBound) && pendingRemote == old(pendingRemote)
      {
        var d := pendingDespawn[i];
        assert pendingDespawn[..i + 1][..i] == pendingDespawn[..i];
        if d.ownerClientID != localID {
          var k := IndexOfRemote(world.entities, d.ownerClientID, d.objectID);
          if k < |world.entities| {
            world.entities := world.entities[k := world.entities[k].(active := false, waitingDestroy := true)];
          }
        }
        i := i + 1;
      }
      assert pendingDespawn[..i] == pendingDespawn;
      pendingDespawn := [];
    }
  }

  /** The search loop over the synced entities: the first entity with the key. */
  method IndexOfRecord(es: seq<SyncRecord>, owner: ClientID, objectID: NetObjectID) returns (k: nat)
    ensures k == FindRecord(es, owner, objectID)
  {
    k := 0;
    while k < |es|
      invariant k <= |es|
      invariant forall j :: 0 <= j < k ==> !IsKey(es[j], owner, objectID)
    {
      if IsKey(es[k], owner, objectID) {
        break;
      }
      k := k + 1;
    }
    FindRecordIsFirst(es, owner, objectID, k);
  }

  /** The despawn search loop: the first non-local entity with the key. */
  method IndexOfRemote(es: seq<SyncRecord>, owner: ClientID, objectID: NetObjectID) returns (k: nat)
    ensures k == FindRemote(es, owner, objectID)
  {
    k := 0;
    while k < |es|
      invariant k <= |es|
      invariant forall j :: 0 <= j < k ==> es[j].isLocalPlayer || !IsKey(es[j], owner, objectID)
    {
      if !es[k].isLocalPlayer && IsKey(es[k], owner, objectID) {
        break;
      }
      k := k + 1;
    }
    FindRemoteIsFirst(es, owner, objectID, k);
  }

  // ------------------------------------------------------------------ lemmas

  /** FindRecord is the unique index that matches with no match before it (or |es| with none). */
  lemma FindRecordIsFirst(es: seq<SyncRecord>, owner: ClientID, objectID: NetObjectID, k: nat)
    requires k <= |es|
    requires k < |es| ==> IsKey(es[k], owner, objectID)
    requires forall j :: 0 <= j < k ==> !IsKey(es[j], owner, objectID)
    ensures k == FindRecord(es, owner, objectID)
  {
    var f := FindRecord(es, owner, objectID);
    assert !(f < k) && !(k < f);
  }

  lemma FindRemoteIsFirst(es: seq<SyncRecord>, owner: ClientID, objectID: NetObjectID, k: nat)
    requires k <= |es|
    requires k < |es| ==> !es[k].isLocalPlayer && IsKey(es[k], owner, objectID)
    requires forall j :: 0 <= j < k ==> es[j].isLocalPlayer || !IsKey(es[j], owner, objectID)
    ensures k == FindRemote(es, owner, objectID)
  {
    var f := FindRemote(es, owner, objectID);
    assert !(f < k) && !(k < f);
  }

  /** Two worlds whose records carry the same keys, position by position. */
  ghost predicate SameKeys(a: seq<SyncRecord>, b: seq<SyncRecord>) {
    |a| == |b| && forall i :: 0 <= i < |a| ==> a[i].owner == b[i].owner && a[i].objectID == b[i].objectID
  }

  lemma SameKeysSameFind(a: seq<SyncRecord>, b: seq<SyncRecord>, owner: ClientID, objectID: NetObjectID)
    requires SameKeys(a, b)
    ensures FindRecord(a, owner, objectID) == FindRecord(b, owner, objectID)
  {
    var k := FindRecord(a, owner, objectID);
    FindRecordIsFirst(b, owner, objectID, k);
  }

  /** Appending a record never moves the first match of a key that was already present. */
  lemma FindRecordAppend(es: seq<SyncRecord>, x: SyncRecord, owner: ClientID, objectID: NetObjectID)
    ensures var k := FindRecord(es, owner, objectID);
      FindRecord(es + [x], owner, objectID)
        == if k < |es| then k else if IsKey(x, owner, objectID) then |es| else |es| + 1
  {
    var k := FindRecord(es, owner, objectID);
    var r := if k < |es| then k else if IsKey(x, owner, objectID) then |es| else |es| + 1;
    FindRecordIsFirst(es + [x], owner, objectID, r);
  }

  /**
   * Applying a broadcast only moves existing entities (their keys, flags and
   * ownership are kept) and appends spawned ones; every spawned entity is
   * remote, active, not the local client's, and is the first and only entity
   * with its key: a key seen twice in one batch spawns once, and a key already
   * in the world never spawns.
   */
  lemma {:induction false} ApplyBroadcastSpawnsOnce(es: seq<SyncRecord>, pending: seq<RemoteEntry>, localID: ClientID)
    ensures var r := ApplyBroadcast(es, pending, localID);
      && |r| >= |es|
      && (forall i :: 0 <= i < |es| ==> r[i] == es[i].(transform := r[i].transform))
      && (forall j :: |es| <= j < |r| ==>
            && !r[j].isLocalPlayer && r[j].active && !r[j].waitingDestroy && r[j].owner != localID
            && FindRecord(r, r[j].owner, r[j].objectID) == j
            && FindRecord(es, r[j].owner, r[j].objectID) == |es|)
    decreases |pending|
  {
    if pending != [] {
      var init := pending[..|pending| - 1];
      var prev := ApplyBroadcast(es, init, localID);
      var e := pending[|pending| - 1];
      ApplyBroadcastSpawnsOnce(es, init, localID);
      if e.clientID != localID {
        var r := ApplyEntry(prev, e);
        var k := FindRecord(prev, e.clientID, e.objectID);
        if k < |prev| {
          forall j | |es| <= j < |r|
            ensures FindRecord(r, r[j].owner, r[j].objectID) == j
          {
            SameKeysSameFind(r, prev, r[j].owner, r[j].objectID);
          }
        } else {
          var x := Spawned(e.clientID, e.objectID).(transform := e.transform);
          assert r == prev + [x];
          forall j | |es| <= j < |r|
            ensures FindRecord(r, r[j].owner, r[j].objectID) == j
            ensures FindRecord(es, r[j].owner, r[j].objectID) == |es|
          {
            FindRecordAppend(prev, x, r[j].owner, r[j].objectID);
            if j == |prev| {
              assert forall i :: 0 <= i < |es| ==> !IsKey(es[i], e.clientID, e.objectID) by {
                assert forall i :: 0 <= i < |es| ==> !IsKey(prev[i], e.clientID, e.objectID);
              }
              FindRecordIsFirst(es, e.clientID, e.objectID, |es|);
            }
          }
        }
      }
    }
  }

  /** The transform of the last pending entry for a key that is not the local client's echo. */
  function LastFor(pending: seq<RemoteEntry>, owner: ClientID, objectID: NetObjectID, localID: ClientID): Option<NetTransform>
    decreases |pending|
  {
    if pending == [] then None
    else
      var e := pending[|pending| - 1];
      if e.clientID != localID && e.clientID == owner && e.objectID == objectID then Some(e.transform)
      else LastFor(pending[..|pending| - 1], owner, objectID, localID)
  }

  /**
   * After a broadcast is applied, the entity found for a key holds the
   * transform of the last remote entry for that key.  A key with no such entry
   * (in particular every key owned by the local client, whose echoes are
   * skipped) keeps the entity it had, unchanged, and gets no new one.
   */
  lemma {:induction false} ApplyBroadcastLastWriteWins(
    es: seq<SyncRecord>, pending: seq<RemoteEntry>, localID: ClientID, owner: ClientID, objectID: NetObjectID)
    ensures var r := ApplyBroadcast(es, pending, localID);
      var k := FindRecord(r, owner, objectID);
      var k0 := FindRecord(es, owner, objectID);
      match LastFor(pending, owner, objectID, localID)
      case Some(tf) => k < |r| && r[k].transform == tf
      case None => (k0 < |es| ==> k == k0 && k < |r| && r[k] == es[k]) && (k0 == |es| ==> k == |r|)
    decreases |pending|
  {
    if pending != [] {
      var init := pending[..|pending| - 1];
      var prev := ApplyBroadcast(es, init, localID);
      var e := pending[|pending| - 1];
      ApplyBroadcastLastWriteWins(es, init, localID, owner, objectID);
      ApplyBroadcastSpawnsOnce(es, init, localID);
      if e.clientID != localID {
        var r := ApplyEntry(prev, e);
        var j := FindRecord(prev, e.clientID, e.objectID);
        if j < |prev| {
          SameKeysSameFind(r, prev, owner, objectID);
        } else {
          var x := Spawned(e.clientID, e.objectID).(transform := e.transform);
          assert r == prev + [x];
          FindRecordAppend(prev, x, owner, objectID);
        }
      }
    }
  }

  /**
   * Applying despawn notices keeps the world's length and every record's key,
   * ownership and transform; a record changes only by becoming inactive and
   * waiting for destruction, and only when it is the first non-local match of
   * a notice that is not about the local client.  Local players never change,
   * and every such first match does end up inactive.
   */
  lemma {:induction false} ApplyDespawnsTargets(es: seq<SyncRecord>, ds: seq<DespawnEntry>, localID: ClientID)
    ensures var r := ApplyDespawns(es, ds, localID);
      && |r| == |es|
      && (forall i :: 0 <= i < |es| ==> r[i] == es[i].(active := r[i].active, waitingDestroy := r[i].waitingDestroy))
      && (forall i :: 0 <= i < |es| && r[i] != es[i] ==>
            !r[i].active && r[i].waitingDestroy && IsDespawnTarget(es, ds, localID, i))
      && (forall i :: 0 <= i < |es| && es[i].isLocalPlayer ==> r[i] == es[i])
      && (forall n ::
            (0 <= n < |ds| && ds[n].ownerClientID != localID
             && FindRemote(es, ds[n].ownerClientID, ds[n].objectID) < |es|) ==>
              var t := FindRemote(es, ds[n].ownerClientID, ds[n].objectID);
              !r[t].active && r[t].waitingDestroy)
    decreases |ds|
  {
    if ds != [] {
      var init := ds[..|ds| - 1];
      var prev := ApplyDespawns(es, init, localID);
      var d := ds[|ds| - 1];
      ApplyDespawnsTargets(es, init, localID);
      forall i | 0 <= i < |es| && IsDespawnTarget(es, init, localID, i)
        ensures IsDespawnTarget(es, ds, localID, i)
      {
        var n :| 0 <= n < |init| && init[n].ownerClientID != localID
                 && FindRemote(es, init[n].ownerClientID, init[n].objectID) == i;
        assert ds[n] == init[n];
      }
      if d.ownerClientID != localID {
        var t := FindRemote(prev, d.ownerClientID, d.objectID);
        FindRemoteIsFirst(es, d.ownerClientID, d.objectID, t);
        assert ds[|ds| - 1] == d;
      }
    }
  }

  /** Record `i` is the first non-local match of some notice not about the local client. */
  ghost predicate IsDespawnTarget(es: seq<SyncRecord>, ds: seq<DespawnEntry>, localID: ClientID, i: nat) {
    exists n :: 0 <= n < |ds| && ds[n].ownerClientID != localID
                && FindRemote(es, ds[n].ownerClientID, ds[n].objectID) == i
  }

  /** Notices about the local client's own objects never change the world. */
  lemma {:induction false} LocalDespawnsIgnored(es: seq<SyncRecord>, ds: seq<DespawnEntry>, localID: ClientID)
    requires forall n :: 0 <= n < |ds| ==> ds[n].ownerClientID == localID
    ensures ApplyDespawns(es, ds, localID) == es
    decreases |ds|
  {
    if ds != [] {
      LocalDespawnsIgnored(es, ds[..|ds| - 1], localID);
    }
  }

  /**
   * The upload step sends exactly one position update per local player, in
   * world order, each tagged with the local id and carrying that entity's
   * object id and transform, on the unreliable channel.
   */
  lemma {:induction false} UploadOnePerLocalPlayer(es: seq<SyncRecord>, localID: ClientID)
    ensures var sends := UploadSends(es, localID);
      && |sends| == |LocalPlayers(es)|
      && forall k :: 0 <= k < |sends| ==>
           sends[k] == Client.Sent(PositionUpdate(localID, LocalPlayers(es)[k].objectID, LocalPlayers(es)[k].transform), UNRELIABLE)
    decreases |es|
  {
    if es != [] {
      var init := es[..|es| - 1];
      UploadOnePerLocalPlayer(init, localID);
      LocalPlayersSnoc(init, es[|es| - 1]);
      assert init + [es[|es| - 1]] == es;
    }
  }

  lemma {:induction false} LocalPlayersSnoc(es: seq<SyncRecord>, x: SyncRecord)
    ensures LocalPlayers(es + [x]) == LocalPlayers(es) + (if x.isLocalPlayer then [x] else [])
    decreases |es|
  {
    if es == [] {
      assert [x][1..] == [];
    } else {
      var head := if es[0].isLocalPlayer then [es[0]] else [];
      var tail := if x.isLocalPlayer then [x] else [];
      assert (es + [x])[0] == es[0];
      assert (es + [x])[1..] == es[1..] + [x];
      LocalPlayersSnoc(es[1..], x);
      assert LocalPlayers(es + [x]) == head + (LocalPlayers(es[1..]) + tail);
      assert LocalPlayers(es) == head + LocalPlayers(es[1..]);
    }
  }
}
