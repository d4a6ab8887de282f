/** A trap that sends the child who sets it off to the goulag: the child is
    moved to the goulag point, marked caught and remembered, until every
    trapped child is released at once. */
module GoulagTraps {
  import opened Common
  import opened Children
  import opened Traps

  /** A possibly missing player object, as a frame. */
  function PlayerOf(child: ChildPlayer?): set<ChildPlayer>
  {
    if child == null then {} else {child}
  }

  /** The manager of a possibly missing player object, as a frame. */
  function ManagerOf(child: ChildPlayer?): set<ChildrenManager>
  {
    if child == null || child.manager == null then {} else {child.manager}
  }

  class GoulagTrap {
    const base: TrapBase
    const goulagSpawnPoint: Option<Transform>
    const releaseSpawnPoint: Option<Transform>
    var trappedPlayers: seq<ChildPlayer?>

    /** No child is trapped twice. */
    ghost predicate Valid()
      reads this
    {
      forall i, j :: 0 <= i < j < |trappedPlayers| ==> trappedPlayers[i] != trappedPlayers[j]
    }

    constructor (config: TrapConfig, goulagSpawnPoint: Option<Transform>, releaseSpawnPoint: Option<Transform>)
      ensures base.config == config && base.State() == InitialTrap && fresh(base)
      ensures this.goulagSpawnPoint == goulagSpawnPoint && this.releaseSpawnPoint == releaseSpawnPoint
      ensures trappedPlayers == [] && Valid()
    {
      base := new TrapBase(config);
      this.goulagSpawnPoint := goulagSpawnPoint;
      this.releaseSpawnPoint := releaseSpawnPoint;
      trappedPlayers := [];
    }

    /** The trapped children, as a frame. */
    ghost function Trapped(): set<ChildPlayer>
      reads this
    {
      set c: ChildPlayer | c in trappedPlayers
    }

    /** The managers of the trapped children, as a frame. */
    ghost function TrappedManagers(): set<ChildrenManager>
      reads this
    {
      set c: ChildPlayer | c in trappedPlayers && c.manager != null :: c.manager
    }

    /** Captures a child not yet trapped, provided a goulag point is set. */
    method ActivateTrap(child: ChildPlayer)
      requires Valid()
      modifies this`trappedPlayers, child`pose, ManagerOf(child)`caught
      ensures Valid()
      ensures goulagSpawnPoint.None? || child in old(trappedPlayers) ==>
        && trappedPlayers == old(trappedPlayers)
        && child.pose == old(child.pose)
        && (child.manager != null ==> child.manager.caught == old(child.manager.caught))
      ensures goulagSpawnPoint.Some? && child !in old(trappedPlayers) ==>
        && trappedPlayers == old(trappedPlayers) + [child]
        && child.pose == goulagSpawnPoint.value
        && (child.manager != null ==> child.manager.caught)
      ensures child.manager != null ==> child.manager.currentCandies == old(child.manager.currentCandies)
    {
      var manager := child.manager;
      if goulagSpawnPoint.None? {
        return;
      }
      if child in trappedPlayers {
        return;
      }
      trappedPlayers := trappedPlayers + [child];
      child.pose := goulagSpawnPoint.value;
      if manager != null {
        manager.SetCaught(true);
      }
    }

    /** Frees every trapped child: moved to the release point when there is
        one, caught flag cleared; then the list is emptied. */
    method ReleaseAllPlayers()
      modifies this`trappedPlayers, Trapped()`pose, TrappedManagers()`caught
      ensures trappedPlayers == [] && Valid()
      ensures forall c :: c in old(trappedPlayers) && c != null ==>
        c.pose == if releaseSpawnPoint.Some? then releaseSpawnPoint.value else old(c.pose)
      ensures forall c :: c in old(trappedPlayers) && c != null && c.manager != null ==> !c.manager.caught
    {
      if |trappedPlayers| == 0 {
        return;
      }
      var i := 0;
      while i < |trappedPlayers|
        invariant 0 <= i <= |trappedPlayers|
        invariant trappedPlayers == old(trappedPlayers)
        invariant forall j :: 0 <= j < i && trappedPlayers[j] != null && releaseSpawnPoint.Some? ==>
          trappedPlayers[j].pose == releaseSpawnPoint.value
        invariant forall c :: c in trappedPlayers && c != null && releaseSpawnPoint.None? ==>
          c.pose == old(c.pose)
        invariant forall j :: 0 <= j < i && trappedPlayers[j] != null && trappedPlayers[j].manager != null ==>
          !trappedPlayers[j].manager.caught
      {
        var child := trappedPlayers[i];
        if child != null {
          if releaseSpawnPoint.Some? {
            child.pose := releaseSpawnPoint.value;
          }
          var manager := child.manager;
          if manager != null {
            manager.ResetCaughtStatus();
          }
        }
        i := i + 1;
      }
      trappedPlayers := [];
    }

    /** The trap protocol, then the capture when it fires. */
    method OnTriggerEnter(isServer: bool, other: Collider) returns (activated: bool)
      requires Valid()
      modifies base, this`trappedPlayers, PlayerOf(other.controller)`pose
      modifies ManagerOf(other.controller)`caught
      ensures Valid()
      ensures Step(base.config, old(base.State()), Enter(isServer, other.tag, other.controller != null))
        == TrapStep(base.State(), activated, false)
      ensures !activated ==> trappedPlayers == old(trappedPlayers)
      ensures activated ==>
        var child := other.controller;
        trappedPlayers == if goulagSpawnPoint.Some? && child !in old(trappedPlayers)
          then old(trappedPlayers) + [child]
          else old(trappedPlayers)
      ensures var child := other.controller;
        child != null && activated && goulagSpawnPoint.Some? && child !in old(trappedPlayers) ==>
          && child.pose == goulagSpawnPoint.value
          && (child.manager != null ==> child.manager.caught)
      ensures var child := other.controller;
        child != null && !(activated && goulagSpawnPoint.Some? && child !in old(trappedPlayers)) ==>
          && child.pose == old(child.pose)
          && (child.manager != null ==> child.manager.caught == old(child.manager.caught))
      ensures var child := other.controller;
        child != null && child.manager != null ==> child.manager.currentCandies == old(child.manager.currentCandies)
    {
      activated := base.OnTriggerEnter(isServer, other);
      if activated {
        ActivateTrap(other.controller);
      }
    }
  }
}
