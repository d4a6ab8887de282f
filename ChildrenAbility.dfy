/** Timed effects on a child: a speed effect (boost or slow) and a stun.
    Each effect runs as a coroutine that sets the replicated value, waits,
    and restores it. The coroutine handle is modelled by the deadline of
    its wait (None when the handle is null); stopping a coroutine drops
    the deadline, so a cancelled wait can never fire. */
module Ability {
  import opened Common

  /** The effect state of one child. */
  datatype AbilityState = AbilityState(
    canMove: bool,
    speedMultiplier: real,
    speedDeadline: Option<real>,
    stunDeadline: Option<real>)

  const InitialAbility := AbilityState(true, 1.0, None, None)

  /** The owner's ability: a boost of 1.5x for 3 seconds. */
  const AbilityBoostMultiplier: real := 1.5
  const AbilityBoostDuration: real := 3.0

  /** ActivateSpeedBoost and ActivateSlow: stop the running speed
      coroutine, then start a new one, which sets the multiplier at once. */
  function StartSpeed(s: AbilityState, isServer: bool, multiplier: real, duration: real, now: real): AbilityState
  {
    if !isServer then s
    else s.(speedMultiplier := multiplier, speedDeadline := Some(now + duration))
  }

  /** Stun: stop the running stun coroutine, then start a new one. */
  function StartStun(s: AbilityState, isServer: bool, duration: real, now: real): AbilityState
  {
    if !isServer then s
    else s.(canMove := false, stunDeadline := Some(now + duration))
  }

  /** A frame at time `now`: every coroutine whose wait is over resumes
      and restores its value. */
  function Resume(s: AbilityState, now: real): AbilityState
  {
    var afterSpeed :=
      if s.speedDeadline.Some? && s.speedDeadline.value <= now
      then s.(speedMultiplier := 1.0, speedDeadline := None)
      else s;
    if afterSpeed.stunDeadline.Some? && afterSpeed.stunDeadline.value <= now
    then afterSpeed.(canMove := true, stunDeadline := None)
    else afterSpeed
  }

  datatype AbilityEvent =
    | SpeedEffect(isServer: bool, multiplier: real, duration: real, at: real)
    | StunEffect(isServer: bool, duration: real, at: real)
    | Frame(at: real)

  function Apply(s: AbilityState, e: AbilityEvent): AbilityState
  {
    match e
    case SpeedEffect(isServer, m, d, t) => StartSpeed(s, isServer, m, d, t)
    case StunEffect(isServer, d, t) => StartStun(s, isServer, d, t)
    case Frame(t) => Resume(s, t)
  }

  function Run(s: AbilityState, events: seq<AbilityEvent>): AbilityState
    decreases |events|
  {
    if events == [] then s else Run(Apply(s, events[0]), events[1..])
  }

  /** With no speed coroutine running the multiplier is 1, and the child
      can move exactly when no stun coroutine is running. */
  ghost predicate Consistent(s: AbilityState)
  {
    && (s.speedDeadline.None? ==> s.speedMultiplier == 1.0)
    && (s.canMove <==> s.stunDeadline.None?)
  }

  lemma InitialConsistent()
    ensures Consistent(InitialAbility)
  {
  }

  /** Every effect and every frame keeps the state consistent, so any
      sequence of them does. */
  lemma {:induction false} RunKeepsConsistent(s: AbilityState, events: seq<AbilityEvent>)
    requires Consistent(s)
    ensures Consistent(Run(s, events))
    decreases |events|
  {
    if events != [] {
      RunKeepsConsistent(Apply(s, events[0]), events[1..]);
    }
  }

  /** Restarting a speed effect replaces the previous one outright: the
      earlier multiplier and deadline leave no trace. */
  lemma LastSpeedEffectWins(s: AbilityState, m1: real, d1: real, t1: real, m2: real, d2: real, t2: real)
    ensures StartSpeed(StartSpeed(s, true, m1, d1, t1), true, m2, d2, t2) == StartSpeed(s, true, m2, d2, t2)
  {
  }

  /** Restarting a stun replaces the previous one outright. */
  lemma LastStunWins(s: AbilityState, d1: real, t1: real, d2: real, t2: real)
    ensures StartStun(StartStun(s, true, d1, t1), true, d2, t2) == StartStun(s, true, d2, t2)
  {
  }

  /** A cancelled speed effect never ends the new one early: until the new
      deadline the multiplier is the new argument, even past the old
      deadline. */
  lemma {:induction false} CancelledSpeedNeverFires(s: AbilityState, m1: real, d1: real, t1: real, m2: real, d2: real, t2: real, now: real)
    requires now < t2 + d2
    ensures Resume(StartSpeed(StartSpeed(s, true, m1, d1, t1), true, m2, d2, t2), now).speedMultiplier == m2
  {
  }

  /** While a speed effect runs the multiplier is its argument; at its
      deadline the multiplier returns to 1 and the handle is cleared. */
  lemma SpeedEffectLifetime(s: AbilityState, m: real, d: real, t: real, now: real)
    ensures now < t + d ==> Resume(StartSpeed(s, true, m, d, t), now).speedMultiplier == m
    ensures t + d <= now ==> Resume(StartSpeed(s, true, m, d, t), now).speedMultiplier == 1.0
    ensures t + d <= now ==> Resume(StartSpeed(s, true, m, d, t), now).speedDeadline.None?
  {
  }

  /** A stun holds the child until its deadline, then releases it. */
  lemma StunLifetime(s: AbilityState, d: real, t: real, now: real)
    ensures now < t + d ==> !Resume(StartStun(s, true, d, t), now).canMove
    ensures t + d <= now ==> Resume(StartStun(s, true, d, t), now).canMove
  {
  }

  /** The speed and stun timers are independent: starting one never
      touches the other's value or deadline. */
  lemma EffectsIndependent(s: AbilityState, isServer: bool, m: real, d: real, t: real)
    ensures StartSpeed(s, isServer, m, d, t).canMove == s.canMove
    ensures StartSpeed(s, isServer, m, d, t).stunDeadline == s.stunDeadline
    ensures StartStun(s, isServer, d, t).speedMultiplier == s.speedMultiplier
    ensures StartStun(s, isServer, d, t).speedDeadline == s.speedDeadline
  {
  }

  /** Off the server no effect changes anything. */
  lemma ClientEffectsIgnored(s: AbilityState, m: real, d: real, t: real)
    ensures StartSpeed(s, false, m, d, t) == s
    ensures StartStun(s, false, d, t) == s
  {
  }

  /** A child slowed to 0.5 for 5 seconds at t = 0 and slowed again at
      t = 2 is still slowed at t = 5 and back to full speed at t = 7:
      the second slow restarts the window instead of stacking. */
  lemma {:induction false} SlowRestartScenario()
    ensures var s := Run(InitialAbility, [SpeedEffect(true, 0.5, 5.0, 0.0), Frame(2.0), SpeedEffect(true, 0.5, 5.0, 2.0), Frame(5.0)]);
            s.speedMultiplier == 0.5 && Resume(s, 7.0).speedMultiplier == 1.0
  {
    var s1 := StartSpeed(InitialAbility, true, 0.5, 5.0, 0.0);
    var s2 := Resume(s1, 2.0);
    var s3 := StartSpeed(s2, true, 0.5, 5.0, 2.0);
    var s4 := Resume(s3, 5.0);
    assert s4.speedMultiplier == 0.5;
    calc {
      Run(InitialAbility, [SpeedEffect(true, 0.5, 5.0, 0.0), Frame(2.0), SpeedEffect(true, 0.5, 5.0, 2.0), Frame(5.0)]);
      Run(s1, [Frame(2.0), SpeedEffect(true, 0.5, 5.0, 2.0), Frame(5.0)]);
      Run(s2, [SpeedEffect(true, 0.5, 5.0, 2.0), Frame(5.0)]);
      Run(s3, [Frame(5.0)]);
      Run(s4, []);
    }
  }

  /** The component: replicated canMove and speedMultiplier, and the two
      coroutine handles. */
  class ChildrenAbility {
    var canMove: bool
    var speedMultiplier: real
    var speedCoroutine: Option<real>
    var stunCoroutine: Option<real>

    function State(): AbilityState
      reads this
    {
      AbilityState(canMove, speedMultiplier, speedCoroutine, stunCoroutine)
    }

    /** The class invariant: the fields are a consistent ability state. */
    ghost predicate Valid()
      reads this
    {
      Consistent(State())
    }

    constructor ()
      ensures State() == InitialAbility && Valid()
    {
      canMove := true;
      speedMultiplier := 1.0;
      speedCoroutine := None;
      stunCoroutine := None;
    }

    /** The owner asks the server for its boost; anyone else is refused. */
    method ActivateAbility(isOwner: bool, now: real) returns (sent: bool)
      modifies this
      ensures old(Valid()) ==> Valid()
      ensures sent == isOwner
      ensures State() == if isOwner
        then StartSpeed(old(State()), true, AbilityBoostMultiplier, AbilityBoostDuration, now)
        else old(State())
    {
      if !isOwner {
        return false;
      }
      ActivateAbilityServerRpc(now);
      sent := true;
    }

    method ActivateAbilityServerRpc(now: real)
      modifies this
      ensures old(Valid()) ==> Valid()
      ensures State() == StartSpeed(old(State()), true, AbilityBoostMultiplier, AbilityBoostDuration, now)
    {
      ActivateSpeedBoost(true, AbilityBoostMultiplier, AbilityBoostDuration, now);
    }

    method ActivateSpeedBoost(isServer: bool, multiplier: real, duration: real, now: real)
      modifies this
      ensures old(Valid()) ==> Valid()
      ensures State() == StartSpeed(old(State()), isServer, multiplier, duration, now)
    {
      if !isServer {
        return;
      }
      if speedCoroutine.Some? {
        speedCoroutine := None;  // StopCoroutine
      }
      StartSpeedRoutine(multiplier, duration, now);
    }

    method ActivateSlow(isServer: bool, multiplier: real, duration: real, now: real)
      modifies this
      ensures old(Valid()) ==> Valid()
      ensures State() == StartSpeed(old(State()), isServer, multiplier, duration, now)
    {
      if !isServer {
        return;
      }
      if speedCoroutine.Some? {
        speedCoroutine := None;  // StopCoroutine
      }
      StartSpeedRoutine(multiplier, duration, now);
    }

    method Stun(isServer: bool, duration: real, now: real)
      modifies this
      ensures old(Valid()) ==> Valid()
      ensures State() == StartStun(old(State()), isServer, duration, now)
    {
      if !isServer {
        return;
      }
      if stunCoroutine.Some? {
        stunCoroutine := None;  // StopCoroutine
      }
      StartStunRoutine(duration, now);
    }

    /** SpeedRoutine up to its wait: set the multiplier, keep the handle. */
    method StartSpeedRoutine(multiplier: real, duration: real, now: real)
      modifies this`speedMultiplier, this`speedCoroutine
      ensures speedMultiplier == multiplier && speedCoroutine == Some(now + duration)
    {
      speedMultiplier := multiplier;
      speedCoroutine := Some(now + duration);
    }

    /** StunRoutine up to its wait: freeze the child, keep the handle. */
    method StartStunRoutine(duration: real, now: real)
      modifies this`canMove, this`stunCoroutine
      ensures !canMove && stunCoroutine == Some(now + duration)
    {
      canMove := false;
      stunCoroutine := Some(now + duration);
    }

    /** The rest of SpeedRoutine and StunRoutine, run by the frame at which
        their wait is over. */
    method ResumeRoutines(now: real)
      modifies this
      ensures old(Valid()) ==> Valid()
      ensures State() == Resume(old(State()), now)
    {
      if speedCoroutine.Some? && speedCoroutine.value <= now {
        speedMultiplier := 1.0;
        speedCoroutine := None;
      }
      if stunCoroutine.Some? && stunCoroutine.value <= now {
        canMove := true;
        stunCoroutine := None;
      }
    }

    function CanMove(): bool
      reads this
    {
      canMove
    }

    function GetSpeedMultiplier(): real
      reads this
    {
      speedMultiplier
    }

    /** Stunned exactly while a stun coroutine is running. */
    function IsStunned(): (stunned: bool)
      reads this
      requires Valid()
      ensures stunned <==> stunCoroutine.Some?
    {
      !canMove
    }

    /** A speed effect shows only while a speed coroutine is running. */
    function HasSpeedEffect(): (affected: bool)
      reads this
      requires Valid()
      ensures affected ==> speedCoroutine.Some?
    {
      speedMultiplier != 1.0
    }
  }
}
