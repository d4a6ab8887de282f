/** The trap protocol shared by every trap: armed until a child walks in,
    then triggered; when the child walks out of a trap that may rearm, a
    coroutine waits `rearmDelay` seconds and arms it again. The rearm
    coroutines are never stopped, so several may be pending at once; they
    are kept as a list of deadlines in the order they were started. */
module Traps {
  import opened Common
  import opened Children

  const ChildTag := "Child"

  /** What a trigger callback sees of the other collider: its tag and the
      child's network controller on it, if any. */
  datatype Collider = Collider(tag: string, controller: ChildPlayer?)

  /** Inspector settings of a trap. */
  datatype TrapConfig = TrapConfig(canRearm: bool, rearmDelay: real)

  const DefaultTrapConfig := TrapConfig(false, 5.0)

  datatype TrapState = TrapState(hasTriggered: bool, pendingRearms: seq<real>)

  const InitialTrap := TrapState(false, [])

  /** One callback or frame seen by a trap. */
  datatype TrapEvent =
    | Enter(isServer: bool, tag: string, hasController: bool)
    | Exit(isServer: bool, tag: string, at: real)
    | RearmDue(at: real)

  /** The new state, whether ActivateTrap ran, and whether the trap was
      rearmed (OnRearmed ran). */
  datatype TrapStep = TrapStep(next: TrapState, activated: bool, rearmed: bool)

  function Step(config: TrapConfig, s: TrapState, e: TrapEvent): TrapStep
  {
    match e
    case Enter(isServer, tag, hasController) =>
      if !isServer || s.hasTriggered || tag != ChildTag || !hasController
      then TrapStep(s, false, false)
      else TrapStep(s.(hasTriggered := true), true, false)
    case Exit(isServer, tag, now) =>
      if isServer && tag == ChildTag && s.hasTriggered && config.canRearm
      then TrapStep(s.(pendingRearms := s.pendingRearms + [now + config.rearmDelay]), false, false)
      else TrapStep(s, false, false)
    case RearmDue(now) =>
      // the oldest pending rearm coroutine resumes once its wait is over
      if s.pendingRearms != [] && s.pendingRearms[0] <= now
      then TrapStep(TrapState(false, s.pendingRearms[1..]), false, true)
      else TrapStep(s, false, false)
  }

  function Run(config: TrapConfig, s: TrapState, events: seq<TrapEvent>): TrapState
    decreases |events|
  {
    if events == [] then s else Run(config, Step(config, s, events[0]).next, events[1..])
  }

  /** How many times ActivateTrap runs along a sequence of events. */
  function Activations(config: TrapConfig, s: TrapState, events: seq<TrapEvent>): nat
    decreases |events|
  {
    if events == [] then 0
    else
      var step := Step(config, s, events[0]);
      (if step.activated then 1 else 0) + Activations(config, step.next, events[1..])
  }

  /** How many times the trap is rearmed along a sequence of events. */
  function Rearms(config: TrapConfig, s: TrapState, events: seq<TrapEvent>): nat
    decreases |events|
  {
    if events == [] then 0
    else
      var step := Step(config, s, events[0]);
      (if step.rearmed then 1 else 0) + Rearms(config, step.next, events[1..])
  }

  /** A child entering an armed trap on the server triggers it and
      activates it; anything else about an entry changes nothing. */
  lemma EnterTriggersOnce(config: TrapConfig, s: TrapState, isServer: bool, tag: string, hasController: bool)
    ensures var step := Step(config, s, Enter(isServer, tag, hasController));
      && (step.activated <==> isServer && !s.hasTriggered && tag == ChildTag && hasController)
      && (step.activated ==> step.next == s.(hasTriggered := true))
      && (!step.activated ==> step.next == s)
  {
  }

  /** A trap never activates twice without a rearm in between: along any
      sequence of events, activations are at most one more than rearms
      (and no more than rearms when the trap starts triggered). */
  lemma {:induction false} ActivationsBoundedByRearms(config: TrapConfig, s: TrapState, events: seq<TrapEvent>)
    ensures Activations(config, s, events) <= (if s.hasTriggered then 0 else 1) + Rearms(config, s, events)
    decreases |events|
  {
    if events != [] {
      var step := Step(config, s, events[0]);
      ActivationsBoundedByRearms(config, step.next, events[1..]);
    }
  }

  /** A trap that may not rearm and has no rearm pending stays triggered
      forever and never activates again. */
  lemma {:induction false} SpentTrapStaysSpent(config: TrapConfig, s: TrapState, events: seq<TrapEvent>)
    requires !config.canRearm && s.hasTriggered && s.pendingRearms == []
    ensures Run(config, s, events) == s
    ensures Activations(config, s, events) == 0
    decreases |events|
  {
    if events != [] {
      assert Step(config, s, events[0]).next == s;
      SpentTrapStaysSpent(config, s, events[1..]);
    }
  }

  /** A child leaving a triggered rearmable trap schedules a rearm
      `rearmDelay` later; when it is the only one pending, the trap is
      armed again from that moment on. */
  lemma ExitThenRearm(config: TrapConfig, s: TrapState, now: real, later: real)
    requires config.canRearm && s.hasTriggered && s.pendingRearms == []
    requires later >= now + config.rearmDelay
    ensures var exited := Step(config, s, Exit(true, ChildTag, now)).next;
      && exited.hasTriggered
      && exited.pendingRearms == [now + config.rearmDelay]
      && Step(config, exited, RearmDue(later)) == TrapStep(InitialTrap, false, true)
  {
  }

  /** Off the server, entries and exits change nothing. */
  lemma ClientCallbacksIgnored(config: TrapConfig, s: TrapState, tag: string, hasController: bool, now: real)
    ensures Step(config, s, Enter(false, tag, hasController)) == TrapStep(s, false, false)
    ensures Step(config, s, Exit(false, tag, now)) == TrapStep(s, false, false)
  {
  }

  /** Rearms are never cancelled: a child that leaves twice schedules two
      rearms, and the second one re-arms the trap again after another
      child has already set it off. */
  lemma {:induction false} StaleRearmScenario()
    ensures var config := TrapConfig(true, 5.0);
      var events := [Enter(true, ChildTag, true), Exit(true, ChildTag, 0.0), Exit(true, ChildTag, 1.0),
                     RearmDue(5.0), Enter(true, ChildTag, true), RearmDue(6.0)];
      && Activations(config, InitialTrap, events) == 2
      && !Run(config, InitialTrap, events).hasTriggered
  {
    var config := TrapConfig(true, 5.0);
    var s1 := TrapState(true, []);
    var s2 := TrapState(true, [5.0]);
    var s3 := TrapState(true, [5.0, 6.0]);
    var s4 := TrapState(false, [6.0]);
    var s5 := TrapState(true, [6.0]);
    var s6 := TrapState(false, []);
    assert Step(config, InitialTrap, Enter(true, ChildTag, true)) == TrapStep(s1, true, false);
    assert Step(config, s1, Exit(true, ChildTag, 0.0)) == TrapStep(s2, false, false);
    assert Step(config, s2, Exit(true, ChildTag, 1.0)) == TrapStep(s3, false, false);
    assert Step(config, s3, RearmDue(5.0)) == TrapStep(s4, false, true);
    assert Step(config, s4, Enter(true, ChildTag, true)) == TrapStep(s5, true, false);
    assert Step(config, s5, RearmDue(6.0)) == TrapStep(s6, false, true);
    var e0 := Enter(true, ChildTag, true);
    var e1 := Exit(true, ChildTag, 0.0);
    var e2 := Exit(true, ChildTag, 1.0);
    var e3 := RearmDue(5.0);
    var e5 := RearmDue(6.0);
    calc {
      Activations(config, InitialTrap, [e0, e1, e2, e3, e0, e5]);
      1 + Activations(config, s1, [e1, e2, e3, e0, e5]);
      1 + Activations(config, s2, [e2, e3, e0, e5]);
      1 + Activations(config, s3, [e3, e0, e5]);
      1 + Activations(config, s4, [e0, e5]);
      2 + Activations(config, s5, [e5]);
      2 + Activations(config, s6, []);
    }
    calc {
      Run(config, InitialTrap, [e0, e1, e2, e3, e0, e5]);
      Run(config, s1, [e1, e2, e3, e0, e5]);
      Run(config, s2, [e2, e3, e0, e5]);
      Run(config, s3, [e3, e0, e5]);
      Run(config, s4, [e0, e5]);
      Run(config, s5, [e5]);
      Run(config, s6, []);
    }
  }

  /** The protocol part of a trap component. The concrete traps own one
      and run their own ActivateTrap when it reports an activation. */
  class TrapBase {
    const config: TrapConfig
    var hasTriggered: bool
    var pendingRearms: seq<real>

    function State(): TrapState
      reads this
    {
      TrapState(hasTriggered, pendingRearms)
    }

    constructor (config: TrapConfig)
      ensures this.config == config && State() == InitialTrap
    {
      this.config := config;
      hasTriggered := false;
      pendingRearms := [];
    }

    /** Returns whether the concrete trap must now run ActivateTrap. */
    method OnTriggerEnter(isServer: bool, other: Collider) returns (activate: bool)
      modifies this
      ensures Step(config, old(State()), Enter(isServer, other.tag, other.controller != null))
        == TrapStep(State(), activate, false)
      ensures activate ==> other.controller != null
    {
      if !isServer {
        return false;
      }
      if hasTriggered {
        return false;
      }
      if other.tag != ChildTag {
        return false;
      }
      if other.controller != null {
        hasTriggered := true;
        activate := true;
      } else {
        activate := false;
      }
    }

    method OnTriggerExit(isServer: bool, other: Collider, now: real)
      modifies this
      ensures State() == Step(config, old(State()), Exit(isServer, other.tag, now)).next
    {
      if !isServer {
        return;
      }
      if other.tag != ChildTag {
        return;
      }
      if hasTriggered && config.canRearm {
        pendingRearms := pendingRearms + [now + config.rearmDelay];  // StartCoroutine(RearmTrap())
      }
    }

    /** The oldest RearmTrap coroutine, resumed at `now`; returns whether
        it was due and so re-armed the trap (OnRearmed ran). */
    method RearmTrap(now: real) returns (rearmed: bool)
      modifies this
      ensures Step(config, old(State()), RearmDue(now)) == TrapStep(State(), false, rearmed)
    {
      if pendingRearms != [] && pendingRearms[0] <= now {
        pendingRearms := pendingRearms[1..];
        hasTriggered := false;
        rearmed := true;
      } else {
        rearmed := false;
      }
    }

    function IsTriggered(): bool
      reads this
    {
      hasTriggered
    }
  }
}
