/** A trap that slows the child who sets it off. */
module SlowTraps {
  import opened Ability
  import opened Children
  import opened Traps

  const DefaultSlowMultiplier: real := 0.5
  const DefaultSlowDuration: real := 5.0

  class SlowTrap {
    const base: TrapBase
    const slowMultiplier: real
    const slowDuration: real

    /** The inspector keeps the multiplier within [0.1, 1]. */
    constructor (config: TrapConfig, slowMultiplier: real, slowDuration: real)
      requires 0.1 <= slowMultiplier <= 1.0
      ensures base.config == config && base.State() == InitialTrap && fresh(base)
      ensures this.slowMultiplier == slowMultiplier && this.slowDuration == slowDuration
    {
      base := new TrapBase(config);
      this.slowMultiplier := slowMultiplier;
      this.slowDuration := slowDuration;
    }

    /** Slows the child through its manager; a missing child, manager or
        ability component means nothing changes (the frame is then empty). */
    method ActivateTrap(child: ChildPlayer?, now: real)
      modifies AbilityOf(child)
      ensures AbilityOf(child) != {} ==>
        child.manager.childrenAbility.State()
          == StartSpeed(old(child.manager.childrenAbility.State()), true, slowMultiplier, slowDuration, now)
    {
      if child == null {
        return;
      }
      var manager := child.manager;
      if manager != null {
        manager.Slow(true, slowMultiplier, slowDuration, now);
      }
    }

    /** The trap protocol, then this trap's activation when it fires. */
    method OnTriggerEnter(isServer: bool, other: Collider, now: real) returns (activated: bool)
      modifies base, AbilityOf(other.controller)
      ensures Step(base.config, old(base.State()), Enter(isServer, other.tag, other.controller != null))
        == TrapStep(base.State(), activated, false)
      ensures AbilityOf(other.controller) != {} ==>
        var ability := other.controller.manager.childrenAbility;
        ability.State() == if activated
          then StartSpeed(old(ability.State()), true, slowMultiplier, slowDuration, now)
          else old(ability.State())
    {
      activated := base.OnTriggerEnter(isServer, other);
      if activated {
        ActivateTrap(other.controller, now);
      }
    }
  }
}
