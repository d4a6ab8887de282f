/** The game manager on the server: it spawns a player for each client
    that has none yet (through the player spawner) and keeps a data
    record per connected client, dropped when the client disconnects. */
module Game {
  import opened Common
  import opened Spawning

  datatype PlayerData = PlayerData(id: nat, position: Vec3)

  /** A client connected when the manager spawns on the network, and
      whether it already owns a player object. */
  datatype ConnectedClient = ConnectedClient(clientId: nat, hasPlayerObject: bool)

  /** The clients, in order, that still need a player object. */
  function Unspawned(clients: seq<ConnectedClient>): seq<nat>
    decreases |clients|
  {
    if clients == [] then []
    else
      var last := clients[|clients| - 1];
      Unspawned(clients[..|clients| - 1]) + (if last.hasPlayerObject then [] else [last.clientId])
  }

  function ClientIds(players: seq<SpawnedPlayer>): seq<nat>
  {
    seq(|players|, k requires 0 <= k < |players| => players[k].clientId)
  }

  /** The spawns recorded for the clients in order, with their random
      draws, and the available list after them: a client without a player
      object takes the next position, then the rotation for the list left
      after the draw, and is recorded only when the prefab has a network
      object. */
  function SpawnRun(points: seq<Transform>, randomize: bool, withObject: bool, available: seq<Transform>,
                    clients: seq<ConnectedClient>, rolls: seq<nat>): (r: (seq<SpawnedPlayer>, seq<Transform>))
    requires |rolls| == |clients| && SubMultiset(available, points)
    ensures SubMultiset(r.1, points)
    decreases |clients|
  {
    if clients == [] then ([], available)
    else
      var n := |clients| - 1;
      var (spawned, avail) := SpawnRun(points, randomize, withObject, available, clients[..n], rolls[..n]);
      if clients[n].hasPlayerObject then (spawned, avail)
      else
        var (position, after) := TakeSpawn(points, randomize, avail, rolls[n]);
        (spawned + (if withObject then [SpawnedPlayer(clients[n].clientId, position, RotationFor(points, after))] else []), after)
  }

  /** With a network object on the prefab, exactly the clients without a
      player object are recorded, in order; without one, nobody is. */
  lemma {:induction false} SpawnRunRecordsUnspawned(points: seq<Transform>, randomize: bool, withObject: bool,
                                                   available: seq<Transform>, clients: seq<ConnectedClient>, rolls: seq<nat>)
    requires |rolls| == |clients| && SubMultiset(available, points)
    ensures ClientIds(SpawnRun(points, randomize, withObject, available, clients, rolls).0)
      == if withObject then Unspawned(clients) else []
    decreases |clients|
  {
    if clients != [] {
      var n := |clients| - 1;
      SpawnRunRecordsUnspawned(points, randomize, withObject, available, clients[..n], rolls[..n]);
      var (spawned, avail) := SpawnRun(points, randomize, withObject, available, clients[..n], rolls[..n]);
      if !clients[n].hasPlayerObject {
        var (position, after) := TakeSpawn(points, randomize, avail, rolls[n]);
        var added := if withObject then [SpawnedPlayer(clients[n].clientId, position, RotationFor(points, after))] else [];
        ClientIdsAppend(spawned, added);
      }
    }
  }

  /** One more client in the run: a client with a player object changes
      nothing, any other takes one TakeSpawn step. */
  lemma SpawnRunStep(points: seq<Transform>, randomize: bool, withObject: bool, available: seq<Transform>,
                     clients: seq<ConnectedClient>, rolls: seq<nat>, i: nat)
    requires |rolls| == |clients| && SubMultiset(available, points) && i < |clients|
    ensures var run := SpawnRun(points, randomize, withObject, available, clients[..i], rolls[..i]);
      var next := SpawnRun(points, randomize, withObject, available, clients[..i + 1], rolls[..i + 1]);
      var take := TakeSpawn(points, randomize, run.1, rolls[i]);
      && (clients[i].hasPlayerObject ==> next == run)
      && (!clients[i].hasPlayerObject ==>
            && next.1 == take.1
            && next.0 == run.0 + if withObject then [SpawnedPlayer(clients[i].clientId, take.0, RotationFor(points, take.1))] else [])
  {
    assert clients[..i + 1][..i] == clients[..i];
    assert rolls[..i + 1][..i] == rolls[..i];
  }

  lemma ClientIdsAppend(a: seq<SpawnedPlayer>, b: seq<SpawnedPlayer>)
    ensures ClientIds(a + b) == ClientIds(a) + ClientIds(b)
  {
    assert forall k :: 0 <= k < |a + b| ==> ClientIds(a + b)[k] == (ClientIds(a) + ClientIds(b))[k];
  }

  class GameManager {
    const playerSpawner: NetworkPlayerSpawner
    var playerStatesByID: map<nat, PlayerData>

    constructor (playerSpawner: NetworkPlayerSpawner)
      ensures this.playerSpawner == playerSpawner && playerStatesByID == map[]
    {
      this.playerSpawner := playerSpawner;
      playerStatesByID := map[];
    }

    /** On the server, a player is spawned for every connected client that
        has no player object yet, in connection order; `rolls` stands for
        the spawner's random draws, one per client. */
    method OnNetworkSpawn(isServer: bool, clients: seq<ConnectedClient>, rolls: seq<nat>)
      requires |rolls| == |clients| && playerSpawner.Valid()
      modifies playerSpawner`availableSpawnPoints, playerSpawner`spawnedPlayers
      ensures playerSpawner.Valid()
      ensures !isServer ==>
        && playerSpawner.spawnedPlayers == old(playerSpawner.spawnedPlayers)
        && playerSpawner.availableSpawnPoints == old(playerSpawner.availableSpawnPoints)
      ensures isServer ==>
        var run := SpawnRun(playerSpawner.Points(), playerSpawner.randomizeSpawnPoints,
                            playerSpawner.prefabHasNetworkObject,
                            old(playerSpawner.availableSpawnPoints), clients, rolls);
        && playerSpawner.spawnedPlayers == old(playerSpawner.spawnedPlayers) + run.0
        && playerSpawner.availableSpawnPoints == run.1
      ensures isServer ==>
        ClientIds(playerSpawner.spawnedPlayers[|old(playerSpawner.spawnedPlayers)|..])
          == if playerSpawner.prefabHasNetworkObject then Unspawned(clients) else []
    {
      if !isServer {
        return;
      }
      ghost var before := playerSpawner.spawnedPlayers;
      ghost var availableBefore := playerSpawner.availableSpawnPoints;
      SpawnMissingPlayers(clients, rolls);
      SpawnRunRecordsUnspawned(playerSpawner.Points(), playerSpawner.randomizeSpawnPoints,
                               playerSpawner.prefabHasNetworkObject, availableBefore, clients, rolls);
      assert playerSpawner.spawnedPlayers[|before|..]
        == SpawnRun(playerSpawner.Points(), playerSpawner.randomizeSpawnPoints,
                    playerSpawner.prefabHasNetworkObject, availableBefore, clients, rolls).0;
    }

    /** The loop of OnNetworkSpawn: one spawn per client without a player
        object, in order. */
    method SpawnMissingPlayers(clients: seq<ConnectedClient>, rolls: seq<nat>)
      requires |rolls| == |clients| && playerSpawner.Valid()
      modifies playerSpawner`availableSpawnPoints, playerSpawner`spawnedPlayers
      ensures playerSpawner.Valid()
      ensures var run := SpawnRun(playerSpawner.Points(), playerSpawner.randomizeSpawnPoints,
                                  playerSpawner.prefabHasNetworkObject,
                                  old(playerSpawner.availableSpawnPoints), clients, rolls);
        && playerSpawner.spawnedPlayers == old(playerSpawner.spawnedPlayers) + run.0
        && playerSpawner.availableSpawnPoints == run.1
    {
      ghost var before := playerSpawner.spawnedPlayers;
      ghost var availableBefore := playerSpawner.availableSpawnPoints;
      ghost var points := playerSpawner.Points();
      ghost var randomize, withObject := playerSpawner.randomizeSpawnPoints, playerSpawner.prefabHasNetworkObject;
      var i := 0;
      assert clients[..0] == [] && rolls[..0] == [];
      while i < |clients|
        invariant 0 <= i <= |clients|
        invariant playerSpawner.Valid()
        invariant playerSpawner.spawnedPlayers == before + SpawnRun(points, randomize, withObject, availableBefore, clients[..i], rolls[..i]).0
        invariant playerSpawner.availableSpawnPoints == SpawnRun(points, randomize, withObject, availableBefore, clients[..i], rolls[..i]).1
      {
        SpawnRunStep(points, randomize, withObject, availableBefore, clients, rolls, i);
        if !clients[i].hasPlayerObject {
          // private in the spawner; the game manager calls it all the same
          playerSpawner.SpawnPlayerForClient(clients[i].clientId, rolls[i]);
        }
        i := i + 1;
      }
      assert clients[..|clients|] == clients;
      assert rolls[..|rolls|] == rolls;
    }

    /** A newly connected client gets a player unless it already has one.
        (The manager calls the spawner's own spawning routine.) */
    method OnClientConnected(isServer: bool, clientId: nat, hasPlayerObject: bool, roll: nat) returns (spawned: bool)
      requires playerSpawner.Valid()
      modifies playerSpawner`availableSpawnPoints, playerSpawner`spawnedPlayers
      ensures playerSpawner.Valid()
      ensures spawned <==> isServer && !hasPlayerObject
      ensures !spawned ==>
        && playerSpawner.availableSpawnPoints == old(playerSpawner.availableSpawnPoints)
        && playerSpawner.spawnedPlayers == old(playerSpawner.spawnedPlayers)
      ensures spawned ==>
        var (position, after) := TakeSpawn(playerSpawner.Points(), playerSpawner.randomizeSpawnPoints,
                                           old(playerSpawner.availableSpawnPoints), roll);
        && playerSpawner.availableSpawnPoints == after
        && playerSpawner.spawnedPlayers == old(playerSpawner.spawnedPlayers)
             + (if playerSpawner.prefabHasNetworkObject
                then [SpawnedPlayer(clientId, position, RotationFor(playerSpawner.Points(), after))] else [])
    {
      if !isServer {
        return false;
      }
      if !hasPlayerObject {
        // private in the spawner; the game manager calls it all the same
        playerSpawner.SpawnPlayerForClient(clientId, roll);
        spawned := true;
      } else {
        spawned := false;
      }
    }

    /** The client's record is dropped, the others are kept, and every
        spawn point becomes available again. */
    method OnClientDisconnected(isServer: bool, clientId: nat)
      modifies this`playerStatesByID, playerSpawner`availableSpawnPoints
      ensures !isServer ==>
        playerStatesByID == old(playerStatesByID)
        && playerSpawner.availableSpawnPoints == old(playerSpawner.availableSpawnPoints)
      ensures isServer ==>
        && clientId !in playerStatesByID
        && (forall other :: other != clientId ==> GetPlayerData(other) == old(GetPlayerData(other)))
        && playerSpawner.availableSpawnPoints == playerSpawner.Points()
    {
      if !isServer {
        return;
      }
      if clientId in playerStatesByID {
        playerStatesByID := map k | k in playerStatesByID && k != clientId :: playerStatesByID[k];
      }
      // private in the spawner; the game manager calls it all the same
      playerSpawner.ResetSpawnPoints();
    }

    /** Server only: stores the record, replacing any earlier one; every
        other client's record is unchanged. */
    method RegisterPlayerData(isServer: bool, clientId: nat, data: PlayerData)
      modifies this`playerStatesByID
      ensures !isServer ==> playerStatesByID == old(playerStatesByID)
      ensures isServer ==> GetPlayerData(clientId) == Some(data)
      ensures forall other :: other != clientId ==> GetPlayerData(other) == old(GetPlayerData(other))
    {
      if !isServer {
        return;
      }
      playerStatesByID := playerStatesByID[clientId := data];
    }

    /** The stored record, or nothing for an unknown client. */
    function GetPlayerData(clientId: nat): (data: Option<PlayerData>)
      reads this
      ensures data.Some? <==> clientId in playerStatesByID
      ensures data.Some? ==> data.value == playerStatesByID[clientId]
    {
      if clientId in playerStatesByID then Some(playerStatesByID[clientId]) else None
    }
  }
}
