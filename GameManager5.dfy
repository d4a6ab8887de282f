/** The account-keyed variant of the game manager: a client registering
    under an account key gets a fresh record (at the origin, health 100,
    attack 5) the first time, and its stored record on later
    registrations; either way a player is spawned with that record. */
module Game5 {
  import opened Common

  const DefaultHealth: int := 100
  const DefaultAttack: int := 5

  /** The data a player object is spawned with. */
  datatype PlayerRecord = PlayerRecord(clientId: nat, position: Vec3, health: int, attack: int)

  /** A player object spawned for a network client with a record. */
  datatype SpawnedPlayer = SpawnedPlayer(networkId: nat, data: PlayerRecord)

  function NewRecord(id: nat): PlayerRecord
  {
    PlayerRecord(id, Zero, DefaultHealth, DefaultAttack)
  }

  /** The map after a registration: get-or-create. */
  function RegisterEntry(states: map<string, PlayerRecord>, key: string, id: nat): (r: map<string, PlayerRecord>)
    ensures key in r
    ensures key in states ==> r == states
    ensures key !in states ==> r[key] == NewRecord(id) && forall k :: k in states ==> k in r && r[k] == states[k]
  {
    if key in states then states else states[key := NewRecord(id)]
  }

  /** Registering a key again changes nothing, whatever network id it
      comes with; the record stays the first one. */
  lemma RegisterIdempotent(states: map<string, PlayerRecord>, key: string, id1: nat, id2: nat)
    ensures RegisterEntry(RegisterEntry(states, key, id1), key, id2) == RegisterEntry(states, key, id1)
    ensures RegisterEntry(RegisterEntry(states, key, id1), key, id2)[key]
      == if key in states then states[key] else NewRecord(id1)
  {
  }

  class GameManager5 {
    var playerStatesByID: map<string, PlayerRecord>
    var spawnedPlayers: seq<SpawnedPlayer>

    constructor ()
      ensures playerStatesByID == map[] && spawnedPlayers == []
    {
      playerStatesByID := map[];
      spawnedPlayers := [];
    }

    /** Runs on the server: get-or-create the record under `key`, then
        spawn the client's player with it. */
    method RegisterPlayerServerRpc(key: string, id: nat)
      modifies this
      ensures playerStatesByID == RegisterEntry(old(playerStatesByID), key, id)
      ensures spawnedPlayers == old(spawnedPlayers) + [SpawnedPlayer(id, playerStatesByID[key])]
      ensures key in old(playerStatesByID) ==> playerStatesByID[key] == old(playerStatesByID)[key]
    {
      if key !in playerStatesByID {
        var newPlayerData := NewRecord(id);
        playerStatesByID := playerStatesByID[key := newPlayerData];
        SpawnPlayerServer(true, id, newPlayerData);
      } else {
        var playerData := playerStatesByID[key];
        SpawnPlayerServer(true, id, playerData);
      }
    }

    /** Spawns only on the server. */
    method SpawnPlayerServer(isServer: bool, id: nat, data: PlayerRecord)
      modifies this`spawnedPlayers
      ensures spawnedPlayers == old(spawnedPlayers) + (if isServer then [SpawnedPlayer(id, data)] else [])
    {
      if !isServer {
        return;
      }
      spawnedPlayers := spawnedPlayers + [SpawnedPlayer(id, data)];
    }
  }
}
