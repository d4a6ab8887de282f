/** The round's phases on the server: preparation (fences up, shop and
    candy spawner on, players sent to their spawn points, everyone told
    the preparation phase has begun), the game phase (fences and shop
    off) and the end of the round (candy spawner off); and the adult's
    win condition. */
module Rounds {
  import opened Common
  import opened Adult
  import opened Children

  /** A teleport order sent to the clients: the adult, or the child at a
      position of the child list, to a spawn point. */
  datatype Teleport =
    | TeleportAdult(point: Transform)
    | TeleportChild(index: nat, point: Transform)

  /** An optional scene object switched on or off: None when it is not
      assigned, otherwise whether it is active. */
  function Switched(obj: Option<bool>, active: bool): (r: Option<bool>)
    ensures r.None? <==> obj.None?
    ensures r.Some? ==> r.value == active
  {
    if obj.Some? then Some(active) else None
  }

  class RoundManager {
    var houseFences: Option<bool>
    var shoppingManager: Option<bool>
    var candySpawner: Option<bool>

    var childrenSpawnPoints: Option<seq<Option<Transform>>>
    var adultSpawnPoint: Option<Transform>

    // a player object is modelled by the component the round uses on it;
    // null stands for a missing or destroyed player object
    var adultPlayer: AdultManager?
    var childPlayers: Option<seq<ChildrenManager?>>
    var hasBeenFinishedEarlier: bool

    constructor (houseFences: Option<bool>, shoppingManager: Option<bool>, candySpawner: Option<bool>)
      ensures this.houseFences == houseFences && this.shoppingManager == shoppingManager
      ensures this.candySpawner == candySpawner
      ensures childrenSpawnPoints == None && adultSpawnPoint == None
      ensures adultPlayer == null && childPlayers == Some([]) && !hasBeenFinishedEarlier
    {
      this.houseFences := houseFences;
      this.shoppingManager := shoppingManager;
      this.candySpawner := candySpawner;
      childrenSpawnPoints := None;
      adultSpawnPoint := None;
      adultPlayer := null;
      childPlayers := Some([]);
      hasBeenFinishedEarlier := false;
    }

    /** The children of the list, as a frame. */
    ghost function Children(): set<ChildrenManager?>
      reads this
    {
      if childPlayers.None? then {} else set c | c in childPlayers.value && c != null
    }

    /** The adult, if set, as a frame. */
    ghost function Adults(): set<AdultManager>
      reads this
    {
      if adultPlayer == null then {} else {adultPlayer}
    }

    /** Every present child has the given preparation flag. */
    ghost predicate ChildrenInPhase(isPhase: bool)
      reads this, Children()
    {
      childPlayers.Some? ==> forall c :: c in childPlayers.value && c != null ==> c.isPreparationPhase == isPhase
    }

    /** The teleport orders a round start sends: the adult to its spawn
        point when both exist, and each present child i to spawn point
        i mod n when there are n > 0 spawn points and that one is set. */
    ghost predicate Planned(teleports: seq<Teleport>)
      reads this
    {
      && (forall p :: TeleportAdult(p) in teleports <==> adultPlayer != null && adultSpawnPoint == Some(p))
      && (forall i: nat, p :: TeleportChild(i, p) in teleports <==>
            && childPlayers.Some? && childrenSpawnPoints.Some? && |childrenSpawnPoints.value| > 0
            && i < |childPlayers.value| && childPlayers.value[i] != null
            && childrenSpawnPoints.value[i % |childrenSpawnPoints.value|] == Some(p))
    }

    method StartPreparationPhase(isServer: bool) returns (teleports: seq<Teleport>)
      requires isServer ==> childPlayers.Some?
      modifies this`hasBeenFinishedEarlier, this`houseFences, this`shoppingManager, this`candySpawner
      modifies Adults()`isPreparationPhase, Children()`isPreparationPhase
      ensures adultPlayer != null ==>
        adultPlayer.coins == old(adultPlayer.coins) && adultPlayer.inventory == old(adultPlayer.inventory)
      ensures forall c :: c in Children() ==>
        && c.currentCandies == old(c.currentCandies) && c.maxCandies == old(c.maxCandies)
        && c.caught == old(c.caught)
      ensures !isServer ==>
        && teleports == []
        && hasBeenFinishedEarlier == old(hasBeenFinishedEarlier)
        && houseFences == old(houseFences) && shoppingManager == old(shoppingManager)
        && candySpawner == old(candySpawner)
      ensures !isServer ==> forall c :: c in Children() ==> c.isPreparationPhase == old(c.isPreparationPhase)
      ensures !isServer && adultPlayer != null ==> adultPlayer.isPreparationPhase == old(adultPlayer.isPreparationPhase)
      ensures isServer ==>
        && !hasBeenFinishedEarlier
        && houseFences == Switched(old(houseFences), true)
        && shoppingManager == Switched(old(shoppingManager), true)
        && candySpawner == Switched(old(candySpawner), true)
        && Planned(teleports)
        && (adultPlayer != null ==> adultPlayer.isPreparationPhase)
        && ChildrenInPhase(true)
    {
      if !isServer {
        return [];
      }
      ResetRound();
      houseFences := Switched(houseFences, true);
      shoppingManager := Switched(shoppingManager, true);
      candySpawner := Switched(candySpawner, true);
      teleports := TeleportPlayersToSpawnPoints();
      if adultPlayer != null {
        adultPlayer.SetPreparationPhase(true, true);
      }
      SetChildrenPhase(true);
    }

    method StartGamePhase(isServer: bool)
      requires isServer ==> childPlayers.Some?
      modifies this`houseFences, this`shoppingManager, Adults()`isPreparationPhase, Children()`isPreparationPhase
      ensures adultPlayer != null ==>
        adultPlayer.coins == old(adultPlayer.coins) && adultPlayer.inventory == old(adultPlayer.inventory)
      ensures forall c :: c in Children() ==>
        && c.currentCandies == old(c.currentCandies) && c.maxCandies == old(c.maxCandies)
        && c.caught == old(c.caught)
      ensures !isServer ==> houseFences == old(houseFences) && shoppingManager == old(shoppingManager)
      ensures !isServer && adultPlayer != null ==> adultPlayer.isPreparationPhase == old(adultPlayer.isPreparationPhase)
      ensures !isServer ==> forall c :: c in Children() ==> c.isPreparationPhase == old(c.isPreparationPhase)
      ensures isServer ==>
        && houseFences == Switched(old(houseFences), false)
        && shoppingManager == Switched(old(shoppingManager), false)
        && (adultPlayer != null ==> !adultPlayer.isPreparationPhase)
        && ChildrenInPhase(false)
    {
      if !isServer {
        return;
      }
      houseFences := Switched(houseFences, false);
      shoppingManager := Switched(shoppingManager, false);
      if adultPlayer != null {
        adultPlayer.SetPreparationPhase(true, false);
      }
      SetChildrenPhase(false);
    }

    /** The loop over the child list shared by both phase starts. */
    method SetChildrenPhase(isPhase: bool)
      requires childPlayers.Some?
      modifies Children()`isPreparationPhase
      ensures ChildrenInPhase(isPhase)
    {
      var children := childPlayers.value;
      var i := 0;
      while i < |children|
        invariant 0 <= i <= |children|
        invariant forall j :: 0 <= j < i && children[j] != null ==> children[j].isPreparationPhase == isPhase
      {
        var child := children[i];
        if child != null {
          child.SetPreparationPhase(isPhase);
        }
        i := i + 1;
      }
    }

    method EndRound(isServer: bool)
      modifies this`candySpawner
      ensures candySpawner == if isServer then Switched(old(candySpawner), false) else old(candySpawner)
    {
      if !isServer {
        return;
      }
      candySpawner := Switched(candySpawner, false);
    }

    method ResetRound()
      modifies this`hasBeenFinishedEarlier
      ensures !hasBeenFinishedEarlier
    {
      hasBeenFinishedEarlier := false;
    }

    /** Computes the teleport orders; the clients carry them out. */
    method TeleportPlayersToSpawnPoints() returns (teleports: seq<Teleport>)
      ensures Planned(teleports)
    {
      teleports := [];
      if adultPlayer != null && adultSpawnPoint.Some? {
        teleports := [TeleportAdult(adultSpawnPoint.value)];
      }
      if childPlayers.Some? && childrenSpawnPoints.Some? && |childrenSpawnPoints.value| > 0 {
        var children, points := childPlayers.value, childrenSpawnPoints.value;
        var i := 0;
        while i < |children|
          invariant 0 <= i <= |children|
          invariant forall p :: TeleportAdult(p) in teleports <==> adultPlayer != null && adultSpawnPoint == Some(p)
          invariant forall k: nat, p :: TeleportChild(k, p) in teleports <==>
            k < i && children[k] != null && points[k % |points|] == Some(p)
        {
          if children[i] != null {
            var spawnPoint := points[i % |points|];
            if spawnPoint.Some? {
              teleports := teleports + [TeleportChild(i, spawnPoint.value)];
            }
          }
          i := i + 1;
        }
      }
    }

    method SetAdultPlayer(adult: AdultManager?)
      modifies this`adultPlayer
      ensures adultPlayer == adult
    {
      adultPlayer := adult;
    }

    method SetChildPlayers(children: Option<seq<ChildrenManager?>>)
      modifies this`childPlayers
      ensures childPlayers == children
    {
      childPlayers := children;
    }

    /** The adult wins when there is at least one child in the list and
        every present child is caught; missing entries are skipped. */
    method AdultHasWon() returns (won: bool)
      ensures won <==>
        && childPlayers.Some? && |childPlayers.value| > 0
        && forall c :: c in childPlayers.value && c != null ==> c.caught
    {
      if childPlayers.None? || |childPlayers.value| == 0 {
        return false;
      }
      var children := childPlayers.value;
      var i := 0;
      while i < |children|
        invariant 0 <= i <= |children|
        invariant forall j :: 0 <= j < i && children[j] != null ==> children[j].caught
      {
        if children[i] != null && !children[i].IsCaught() {
          return false;
        }
        i := i + 1;
      }
      won := true;
    }

    function HasFinishedEarlier(): bool
      reads this
    {
      hasBeenFinishedEarlier
    }

    method SetFinishedEarlier(value: bool)
      modifies this`hasBeenFinishedEarlier
      ensures HasFinishedEarlier() == value
    {
      hasBeenFinishedEarlier := value;
    }

    method SetAdultSpawnPoint(point: Option<Transform>)
      modifies this`adultSpawnPoint
      ensures adultSpawnPoint == point
    {
      adultSpawnPoint := point;
    }

    method SetChildrenSpawnPoints(points: Option<seq<Option<Transform>>>)
      modifies this`childrenSpawnPoints
      ensures childrenSpawnPoints == points
    {
      childrenSpawnPoints := points;
    }
  }
}
