/** A trap that stuns the child who sets it off. */
module ParalysisTraps {
  import opened Ability
  import opened Children
  import opened Traps

  const DefaultParalysisDuration: real := 3.0

  class ParalysisTrap {
    const base: TrapBase
    const paralysisDuration: real

    constructor (config: TrapConfig, paralysisDuration: real)
      ensures base.config == config && base.State() == InitialTrap && fresh(base)
      ensures this.paralysisDuration == paralysisDuration
    {
      base := new TrapBase(config);
      this.paralysisDuration := paralysisDuration;
    }

    /** Stuns the child through its manager. Only the stun state changes:
        the speed effect and the candy count are left as they were. The
        child is dereferenced without a check, so the caller must pass one. */
    method ActivateTrap(child: ChildPlayer, now: real)
      modifies AbilityOf(child)
      ensures AbilityOf(child) != {} ==>
        var ability := child.manager.childrenAbility;
        && ability.State() == StartStun(old(ability.State()), true, paralysisDuration, now)
        && ability.speedMultiplier == old(ability.speedMultiplier)
        && ability.speedCoroutine == old(ability.speedCoroutine)
      ensures child.manager != null ==> child.manager.currentCandies == old(child.manager.currentCandies)
    {
      var manager := child.manager;
      if manager != null {
        manager.Stun(true, paralysisDuration, now);
      }
    }

    /** The trap protocol, then this trap's activation when it fires. */
    method OnTriggerEnter(isServer: bool, other: Collider, now: real) returns (activated: bool)
      modifies base, AbilityOf(other.controller)
      ensures Step(base.config, old(base.State()), Enter(isServer, other.tag, other.controller != null))
        == TrapStep(base.State(), activated, false)
      ensures AbilityOf(other.controller) != {} ==>
        var ability := other.controller.manager.childrenAbility;
        ability.State() == if activated
          then StartStun(old(ability.State()), true, paralysisDuration, now)
          else old(ability.State())
    {
      activated := base.OnTriggerEnter(isServer, other);
      if activated {
        ActivateTrap(other.controller, now);
      }
    }
  }
}
