/** A child's replicated candy count, its effect forwarding to the
    ability component, and the caught and preparation flags that other
    components use. */
module Children {
  import opened Common
  import opened Ability

  const DefaultMaxCandies: int := 5

  class ChildrenManager {
    var maxCandies: int
    var currentCandies: int
    const childrenAbility: ChildrenAbility?

    // Called by the catch system, the goulag trap and the round manager
    // but not defined in the child's component: modelled as plain flags.
    var caught: bool
    var isPreparationPhase: bool

    constructor (ability: ChildrenAbility?)
      ensures maxCandies == DefaultMaxCandies && currentCandies == 0
      ensures childrenAbility == ability
      ensures !caught && isPreparationPhase
    {
      maxCandies := DefaultMaxCandies;
      currentCandies := 0;
      childrenAbility := ability;
      caught := false;
      isPreparationPhase := true;
    }

    /** The bound the candy operations keep. */
    ghost predicate CandiesInRange()
      reads this
    {
      0 <= currentCandies <= maxCandies
    }

    /** Server only: one more candy unless the inventory is full. */
    method AddCandy(isServer: bool) returns (added: bool)
      modifies this`currentCandies
      ensures added == (isServer && !old(IsCandyFull()))
      ensures currentCandies == if added then old(currentCandies) + 1 else old(currentCandies)
      ensures old(CandiesInRange()) ==> CandiesInRange()
    {
      if !isServer {
        return false;
      }
      if currentCandies >= maxCandies {
        return false;
      }
      currentCandies := currentCandies + 1;
      added := true;
    }

    /** Server only: one candy fewer unless there is none. */
    method RemoveCandy(isServer: bool) returns (removed: bool)
      modifies this`currentCandies
      ensures removed == (isServer && old(currentCandies) > 0)
      ensures currentCandies == if removed then old(currentCandies) - 1 else old(currentCandies)
      ensures old(CandiesInRange()) ==> CandiesInRange()
    {
      if !isServer {
        return false;
      }
      if currentCandies <= 0 {
        return false;
      }
      currentCandies := currentCandies - 1;
      removed := true;
    }

    function GetCandyCount(): int
      reads this
    {
      currentCandies
    }

    function GetMaxCandies(): int
      reads this
    {
      maxCandies
    }

    function IsCandyFull(): bool
      reads this
    {
      currentCandies >= maxCandies
    }

    /** Without an ability component the child can always move. */
    function CanMove(): (can: bool)
      reads this, childrenAbility
      ensures childrenAbility == null ==> can
      ensures childrenAbility != null ==> can == childrenAbility.State().canMove
    {
      if childrenAbility == null then true else childrenAbility.CanMove()
    }

    /** Without an ability component the multiplier is 1. */
    function GetSpeedMultiplier(): (multiplier: real)
      reads this, childrenAbility
      ensures childrenAbility == null ==> multiplier == 1.0
      ensures childrenAbility != null ==> multiplier == childrenAbility.State().speedMultiplier
    {
      if childrenAbility == null then 1.0 else childrenAbility.GetSpeedMultiplier()
    }

    method UseAbility(isOwner: bool, now: real) returns (sent: bool)
      modifies childrenAbility
      ensures sent == (childrenAbility != null && isOwner)
      ensures childrenAbility != null && isOwner ==>
        childrenAbility.State() == StartSpeed(old(childrenAbility.State()), true, AbilityBoostMultiplier, AbilityBoostDuration, now)
      ensures childrenAbility != null && !isOwner ==> childrenAbility.State() == old(childrenAbility.State())
    {
      sent := false;
      if childrenAbility != null {
        sent := childrenAbility.ActivateAbility(isOwner, now);
      }
    }

    method SpeedBoost(isServer: bool, multiplier: real, duration: real, now: real)
      modifies childrenAbility
      ensures childrenAbility != null ==>
        childrenAbility.State() == StartSpeed(old(childrenAbility.State()), isServer, multiplier, duration, now)
    {
      if childrenAbility != null {
        childrenAbility.ActivateSpeedBoost(isServer, multiplier, duration, now);
      }
    }

    method Slow(isServer: bool, multiplier: real, duration: real, now: real)
      modifies childrenAbility
      ensures childrenAbility != null ==>
        childrenAbility.State() == StartSpeed(old(childrenAbility.State()), isServer, multiplier, duration, now)
    {
      if childrenAbility != null {
        childrenAbility.ActivateSlow(isServer, multiplier, duration, now);
      }
    }

    method Stun(isServer: bool, duration: real, now: real)
      modifies childrenAbility
      ensures childrenAbility != null ==>
        childrenAbility.State() == StartStun(old(childrenAbility.State()), isServer, duration, now)
    {
      if childrenAbility != null {
        childrenAbility.Stun(isServer, duration, now);
      }
    }

    method SetCaught(value: bool)
      modifies this`caught
      ensures caught == value
    {
      caught := value;
    }

    function IsCaught(): bool
      reads this
    {
      caught
    }

    method ResetCaughtStatus()
      modifies this`caught
      ensures !caught
    {
      caught := false;
    }

    method SetPreparationPhase(isPhase: bool)
      modifies this`isPreparationPhase
      ensures isPreparationPhase == isPhase
    {
      isPreparationPhase := isPhase;
    }
  }

  /** A child's player object (its network controller): where it stands
      and the ChildrenManager found on it, if any. */
  class ChildPlayer {
    const manager: ChildrenManager?
    var pose: Transform

    constructor (manager: ChildrenManager?, pose: Transform)
      ensures this.manager == manager && this.pose == pose
    {
      this.manager := manager;
      this.pose := pose;
    }
  }

  /** The ability component reached from a child's player object, as a
      frame: empty when a link is missing. */
  function AbilityOf(child: ChildPlayer?): set<object>
  {
    if child != null && child.manager != null && child.manager.childrenAbility != null
    then {child.manager.childrenAbility}
    else {}
  }
}
