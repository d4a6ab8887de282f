/** Where a newly connected client's player appears. With randomized
    spawning a point is drawn from the list of points still available and
    removed from it; otherwise (or once that list is empty) the point at
    index len - |available| is used, and when that index runs past the end
    the list is refilled and point 0 is used. Note that the in-order branch
    never removes a point, so it never advances by itself. */
module Spawning {
  import opened Common

  datatype SpawnPosition = Origin | PositionOf(point: Transform)
  datatype SpawnRotation = Identity | RotationOf(point: Transform)

  /** A player object spawned for a client. */
  datatype SpawnedPlayer = SpawnedPlayer(clientId: nat, position: SpawnPosition, rotation: SpawnRotation)

  /** The available list never holds a point more often than the
      configured list does. */
  ghost predicate SubMultiset(available: seq<Transform>, points: seq<Transform>)
  {
    multiset(available) <= multiset(points)
  }

  lemma {:induction false} SubMultisetShorter(available: seq<Transform>, points: seq<Transform>)
    requires SubMultiset(available, points)
    ensures |available| <= |points|
    decreases |available|
  {
    if available != [] {
      var x := available[0];
      assert x in multiset(points);
      var i :| 0 <= i < |points| && points[i] == x;
      var rest := points[..i] + points[i + 1..];
      RemoveAtMultiset(points, i);
      assert available == [x] + available[1..];
      assert multiset(available[1..]) <= multiset(rest);
      SubMultisetShorter(available[1..], rest);
    }
  }

  /** Removing the element at i takes exactly one copy of it out. */
  lemma RemoveAtMultiset(s: seq<Transform>, i: nat)
    requires i < |s|
    ensures multiset(s[..i] + s[i + 1..]) == multiset(s) - multiset{s[i]}
    ensures multiset(s[..i] + s[i + 1..]) + multiset{s[i]} == multiset(s)
  {
    assert s == s[..i] + [s[i]] + s[i + 1..];
  }

  /** GetSpawnPosition: the position handed out and the available list
      afterwards. `roll` stands for the random draw, reduced to the
      available range. */
  function TakeSpawn(points: seq<Transform>, randomize: bool, available: seq<Transform>, roll: nat): (r: (SpawnPosition, seq<Transform>))
    requires SubMultiset(available, points)
    ensures SubMultiset(r.1, points)
    ensures points == [] <==> r.0 == Origin
    ensures r.0.PositionOf? ==> r.0.point in points
  {
    SubMultisetShorter(available, points);
    if points == [] then (Origin, available)
    else if randomize && |available| > 0 then
      var i := roll % |available|;
      RemoveAtMultiset(available, i);
      (PositionOf(available[i]), available[..i] + available[i + 1..])
    else
      var index := |points| - |available|;
      if index >= |points| then (PositionOf(points[0]), points)
      else (PositionOf(points[index]), available)
  }

  /** GetSpawnRotation: the rotation of point len - |available| - 1 when
      that index is in range, the identity otherwise. */
  function RotationFor(points: seq<Transform>, available: seq<Transform>): SpawnRotation
  {
    var index := |points| - |available| - 1;
    if 0 <= index < |points| then RotationOf(points[index]) else Identity
  }

  /** A randomized draw from a non-empty available list hands out one of
      its points and removes exactly that copy, so a point is never handed
      out more often than it is configured until the list is refilled. */
  lemma RandomDrawRemovesChosen(points: seq<Transform>, available: seq<Transform>, roll: nat)
    requires SubMultiset(available, points) && points != [] && available != []
    ensures var (position, after) := TakeSpawn(points, true, available, roll);
      && position.PositionOf?
      && position.point in available
      && multiset(after) + multiset{position.point} == multiset(available)
      && |after| == |available| - 1
  {
    RemoveAtMultiset(available, roll % |available|);
  }

  /** The positions handed out by successive spawns, and the available
      list after them. */
  function Spawns(points: seq<Transform>, randomize: bool, available: seq<Transform>, rolls: seq<nat>): (r: (seq<SpawnPosition>, seq<Transform>))
    requires SubMultiset(available, points)
    ensures |r.0| == |rolls| && SubMultiset(r.1, points)
    decreases |rolls|
  {
    if rolls == [] then ([], available)
    else
      var (position, next) := TakeSpawn(points, randomize, available, rolls[0]);
      var (rest, final) := Spawns(points, randomize, next, rolls[1..]);
      ([position] + rest, final)
  }

  /** The points behind a list of positions (the origin has none). */
  function PointsOf(positions: seq<SpawnPosition>): seq<Transform>
  {
    if positions == [] then []
    else (if positions[0].PositionOf? then [positions[0].point] else []) + PointsOf(positions[1..])
  }

  /** Randomized spawns that do not exhaust the available list hand out
      every available point at most as often as it is available: what is
      handed out plus what is left is exactly what was available. */
  lemma {:induction false} RandomSpawnsNeverReuse(points: seq<Transform>, available: seq<Transform>, rolls: seq<nat>)
    requires SubMultiset(available, points) && points != [] && |rolls| <= |available|
    ensures var (positions, after) := Spawns(points, true, available, rolls);
      multiset(PointsOf(positions)) + multiset(after) == multiset(available)
    decreases |rolls|
  {
    if rolls != [] {
      var (position, next) := TakeSpawn(points, true, available, rolls[0]);
      RandomDrawRemovesChosen(points, available, rolls[0]);
      RandomSpawnsNeverReuse(points, next, rolls[1..]);
      var (rest, final) := Spawns(points, true, next, rolls[1..]);
      assert Spawns(points, true, available, rolls) == ([position] + rest, final);
      assert ([position] + rest)[1..] == rest;
    }
  }

  /** In order, from a full available list, every spawn uses point 0 and
      the list stays full: the in-order branch never advances. */
  lemma {:induction false} InOrderSpawnsRepeatFirstPoint(points: seq<Transform>, rolls: seq<nat>)
    requires points != []
    ensures var (positions, after) := Spawns(points, false, points, rolls);
      && after == points
      && forall k :: 0 <= k < |positions| ==> positions[k] == PositionOf(points[0])
    decreases |rolls|
  {
    if rolls != [] {
      assert TakeSpawn(points, false, points, rolls[0]) == (PositionOf(points[0]), points);
      InOrderSpawnsRepeatFirstPoint(points, rolls[1..]);
    }
  }

  /** The rotation follows the number of points taken since the last
      refill, not the point that was drawn: after one randomized draw
      from a full list it is the rotation of point 0 whichever point was
      drawn. */
  lemma RotationAfterFirstDraw(points: seq<Transform>, roll: nat)
    requires points != []
    ensures RotationFor(points, points) == Identity
    ensures RotationFor(points, TakeSpawn(points, true, points, roll).1) == RotationOf(points[0])
  {
    RemoveAtMultiset(points, roll % |points|);
  }

  class NetworkPlayerSpawner {
    const spawnPoints: Option<seq<Transform>>
    const randomizeSpawnPoints: bool
    const prefabHasNetworkObject: bool
    var availableSpawnPoints: seq<Transform>
    var spawnedPlayers: seq<SpawnedPlayer>

    function Points(): seq<Transform>
    {
      if spawnPoints.None? then [] else spawnPoints.value
    }

    ghost predicate Valid()
      reads this
    {
      SubMultiset(availableSpawnPoints, Points())
    }

    constructor (spawnPoints: Option<seq<Transform>>, randomizeSpawnPoints: bool, prefabHasNetworkObject: bool)
      ensures this.spawnPoints == spawnPoints && this.randomizeSpawnPoints == randomizeSpawnPoints
      ensures this.prefabHasNetworkObject == prefabHasNetworkObject
      ensures availableSpawnPoints == [] && spawnedPlayers == [] && Valid()
    {
      this.spawnPoints := spawnPoints;
      this.randomizeSpawnPoints := randomizeSpawnPoints;
      this.prefabHasNetworkObject := prefabHasNetworkObject;
      availableSpawnPoints := [];
      spawnedPlayers := [];
    }

    /** On the server: fill the available list, then spawn the host's own
        player when this peer is the host. */
    method Start(isServer: bool, isHost: bool, localClientId: nat, roll: nat)
      requires Valid()
      modifies this`availableSpawnPoints, this`spawnedPlayers
      ensures Valid()
      ensures !isServer ==> availableSpawnPoints == old(availableSpawnPoints) && spawnedPlayers == old(spawnedPlayers)
      ensures isServer && !isHost ==> availableSpawnPoints == Points() && spawnedPlayers == old(spawnedPlayers)
      ensures isServer && isHost ==>
        var (position, after) := TakeSpawn(Points(), randomizeSpawnPoints, Points(), roll);
        && availableSpawnPoints == after
        && spawnedPlayers == old(spawnedPlayers)
             + (if prefabHasNetworkObject then [SpawnedPlayer(localClientId, position, RotationFor(Points(), after))] else [])
    {
      if !isServer {
        return;
      }
      ResetSpawnPoints();
      if isHost {
        SpawnPlayerForClient(localClientId, roll);
      }
    }

    method OnClientConnected(isServer: bool, clientId: nat, roll: nat)
      requires Valid()
      modifies this`availableSpawnPoints, this`spawnedPlayers
      ensures Valid()
      ensures !isServer ==> availableSpawnPoints == old(availableSpawnPoints) && spawnedPlayers == old(spawnedPlayers)
      ensures isServer ==>
        var (position, after) := TakeSpawn(Points(), randomizeSpawnPoints, old(availableSpawnPoints), roll);
        && availableSpawnPoints == after
        && spawnedPlayers == old(spawnedPlayers)
             + (if prefabHasNetworkObject then [SpawnedPlayer(clientId, position, RotationFor(Points(), after))] else [])
    {
      if !isServer {
        return;
      }
      SpawnPlayerForClient(clientId, roll);
    }

    /** A disconnect frees every point again. */
    method OnClientDisconnected(isServer: bool, clientId: nat)
      modifies this`availableSpawnPoints
      ensures availableSpawnPoints == if isServer then Points() else old(availableSpawnPoints)
      ensures old(Valid()) ==> Valid()
    {
      if !isServer {
        return;
      }
      ResetSpawnPoints();
    }

    /** Takes a position, then the rotation, and spawns the player when the
        prefab carries a network object. */
    method SpawnPlayerForClient(clientId: nat, roll: nat)
      requires Valid()
      modifies this`availableSpawnPoints, this`spawnedPlayers
      ensures Valid()
      ensures var (position, after) := TakeSpawn(Points(), randomizeSpawnPoints, old(availableSpawnPoints), roll);
        && availableSpawnPoints == after
        && spawnedPlayers == old(spawnedPlayers)
             + (if prefabHasNetworkObject then [SpawnedPlayer(clientId, position, RotationFor(Points(), after))] else [])
    {
      var spawnPosition := GetSpawnPosition(roll);
      var spawnRotation := GetSpawnRotation();
      if !prefabHasNetworkObject {
        return;  // the instance is destroyed again
      }
      spawnedPlayers := spawnedPlayers + [SpawnedPlayer(clientId, spawnPosition, spawnRotation)];
    }

    method GetSpawnPosition(roll: nat) returns (position: SpawnPosition)
      requires Valid()
      modifies this`availableSpawnPoints
      ensures Valid()
      ensures (position, availableSpawnPoints) == TakeSpawn(Points(), randomizeSpawnPoints, old(availableSpawnPoints), roll)
    {
      if spawnPoints.None? || |spawnPoints.value| == 0 {
        return Origin;
      }
      var points := spawnPoints.value;
      var available := availableSpawnPoints;
      ghost var expected := TakeSpawn(points, randomizeSpawnPoints, available, roll);
      SubMultisetShorter(available, points);
      if randomizeSpawnPoints && |available| > 0 {
        var randomIndex := roll % |available|;
        position := PositionOf(available[randomIndex]);
        availableSpawnPoints := available[..randomIndex] + available[randomIndex + 1..];
      } else {
        var index := |points| - |available|;
        if index >= |points| {
          ResetSpawnPoints();
          index := 0;
        }
        position := PositionOf(points[index]);
      }
      assert (position, availableSpawnPoints) == expected;
    }

    /** The identity until a point has been taken since the last refill,
        then the rotation of the point at len - |available| - 1. */
    function GetSpawnRotation(): (rotation: SpawnRotation)
      reads this
      requires Valid()
      ensures rotation.RotationOf? <==> |availableSpawnPoints| < |Points()|
      ensures rotation.RotationOf? ==> rotation.point == Points()[|Points()| - |availableSpawnPoints| - 1]
    {
      SubMultisetShorter(availableSpawnPoints, Points());
      RotationFor(Points(), availableSpawnPoints)
    }

    method ResetSpawnPoints()
      modifies this`availableSpawnPoints
      ensures availableSpawnPoints == Points() && Valid()
    {
      availableSpawnPoints := [];
      if spawnPoints.Some? {
        availableSpawnPoints := availableSpawnPoints + spawnPoints.value;
      }
    }
  }
}
