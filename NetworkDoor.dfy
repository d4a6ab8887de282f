/** A door shared by all players. Its open flag is replicated; every
    change of it starts an animation coroutine that marks the door as
    animating and clears the mark when it ends. A toggle is accepted only
    with a player in range and no animation running; the server may force
    the door open or closed at any time. Animations are never stopped, so
    they are kept as a list of end times, oldest first. */
module Doors {
  import opened Common

  const DefaultOpenSpeed: real := 2.0
  const DefaultInteractionDistance: real := 2.0

  datatype DoorState = DoorState(isOpen: bool, isAnimating: bool, playerInRange: bool, animations: seq<real>)

  const InitialDoor := DoorState(false, false, false, [])

  /** Writing the replicated flag: a change starts an animation that ends
      `duration` later; writing the same value changes nothing. */
  function SetOpen(s: DoorState, value: bool, duration: real, now: real): DoorState
  {
    if value == s.isOpen then s
    else s.(isOpen := value, isAnimating := true, animations := s.animations + [now + duration])
  }

  /** A toggle request, checked on the requesting side and again by the
      server. */
  predicate ToggleAccepted(s: DoorState)
  {
    s.playerInRange && !s.isAnimating
  }

  function Toggle(s: DoorState, duration: real, now: real): DoorState
  {
    if !ToggleAccepted(s) then s else SetOpen(s, !s.isOpen, duration, now)
  }

  /** ForceOpen (value true) and ForceClose (value false). */
  function Force(s: DoorState, isServer: bool, value: bool, duration: real, now: real): DoorState
  {
    if !isServer then s else SetOpen(s, value, duration, now)
  }

  /** The per-frame range check, skipped while animating; `distance` is
      the local player's distance, None when there is no local player. */
  function RangeCheck(s: DoorState, distance: Option<real>, interactionDistance: real): DoorState
  {
    if s.isAnimating || distance.None? then s
    else s.(playerInRange := distance.value <= interactionDistance)
  }

  /** The oldest animation, resumed at `now`: once its end time is reached
      it clears the animating mark. */
  function AnimationEnd(s: DoorState, now: real): DoorState
  {
    if s.animations != [] && s.animations[0] <= now
    then s.(isAnimating := false, animations := s.animations[1..])
    else s
  }

  datatype DoorEvent =
    | ToggleRequest(at: real)
    | ForceTo(isServer: bool, value: bool, at: real)
    | Frame(localPlayerDistance: Option<real>, at: real)   // Update, then the resumed animations

  function Apply(s: DoorState, duration: real, interactionDistance: real, e: DoorEvent): DoorState
  {
    match e
    case ToggleRequest(t) => Toggle(s, duration, t)
    case ForceTo(isServer, v, t) => Force(s, isServer, v, duration, t)
    case Frame(d, t) => AnimationEnd(RangeCheck(s, d, interactionDistance), t)
  }

  function Run(s: DoorState, duration: real, interactionDistance: real, events: seq<DoorEvent>): DoorState
    decreases |events|
  {
    if events == [] then s
    else Run(Apply(s, duration, interactionDistance, events[0]), duration, interactionDistance, events[1..])
  }

  /** The door is marked as animating only while an animation coroutine is
      pending. */
  ghost predicate Consistent(s: DoorState)
  {
    s.isAnimating ==> s.animations != []
  }

  lemma {:induction false} RunKeepsConsistent(s: DoorState, duration: real, interactionDistance: real, events: seq<DoorEvent>)
    requires Consistent(s)
    ensures Consistent(Run(s, duration, interactionDistance, events))
    decreases |events|
  {
    if events != [] {
      RunKeepsConsistent(Apply(s, duration, interactionDistance, events[0]), duration, interactionDistance, events[1..]);
    }
  }

  /** A toggle flips the door exactly when it is accepted, and a rejected
      toggle changes nothing. */
  lemma ToggleFlipsIffAccepted(s: DoorState, duration: real, now: real)
    ensures Toggle(s, duration, now).isOpen != s.isOpen <==> ToggleAccepted(s)
    ensures !ToggleAccepted(s) ==> Toggle(s, duration, now) == s
    ensures ToggleAccepted(s) ==> Toggle(s, duration, now).isAnimating
  {
  }

  /** A second toggle right after an accepted one is refused, because the
      first one's animation is running. */
  lemma NoToggleWhileAnimating(s: DoorState, duration: real, t1: real, t2: real)
    requires ToggleAccepted(s)
    ensures var s1 := Toggle(s, duration, t1); Toggle(s1, duration, t2) == s1
  {
  }

  /** Two accepted toggles, with the first animation over in between,
      bring the door back to where it was. */
  lemma ToggleTwiceRestores(s: DoorState, duration: real, t1: real, t2: real, t3: real)
    requires ToggleAccepted(s) && s.animations == [] && t2 >= t1 + duration
    ensures var s1 := Toggle(s, duration, t1);
      var s2 := AnimationEnd(s1, t2);
      && s1.isOpen != s.isOpen
      && ToggleAccepted(s2)
      && Toggle(s2, duration, t3).isOpen == s.isOpen
  {
  }

  /** Forcing is server only and idempotent: forcing the same value again
      changes nothing and starts no second animation. */
  lemma ForceIdempotent(s: DoorState, value: bool, duration: real, t1: real, t2: real)
    ensures Force(s, true, value, duration, t1).isOpen == value
    ensures Force(Force(s, true, value, duration, t1), true, value, duration, t2) == Force(s, true, value, duration, t1)
    ensures Force(s, false, value, duration, t1) == s
  {
  }

  class NetworkDoor {
    const animationDuration: real
    const interactionDistance: real
    var isOpen: bool
    var isAnimating: bool
    var playerInRange: bool
    var animations: seq<real>

    function State(): DoorState
      reads this
    {
      DoorState(isOpen, isAnimating, playerInRange, animations)
    }

    /** The animation lasts 1 / openSpeed seconds. */
    constructor (openSpeed: real, interactionDistance: real)
      requires openSpeed > 0.0
      ensures animationDuration == 1.0 / openSpeed && this.interactionDistance == interactionDistance
      ensures State() == InitialDoor
    {
      animationDuration := 1.0 / openSpeed;
      this.interactionDistance := interactionDistance;
      isOpen := false;
      isAnimating := false;
      playerInRange := false;
      animations := [];
    }

    method Update(localPlayerDistance: Option<real>)
      modifies this`playerInRange
      ensures State() == RangeCheck(old(State()), localPlayerDistance, interactionDistance)
    {
      if isAnimating {
        return;
      }
      CheckForNearbyPlayer(localPlayerDistance);
    }

    method CheckForNearbyPlayer(localPlayerDistance: Option<real>)
      modifies this`playerInRange
      ensures localPlayerDistance.None? ==> playerInRange == old(playerInRange)
      ensures localPlayerDistance.Some? ==> (playerInRange <==> localPlayerDistance.value <= interactionDistance)
    {
      if localPlayerDistance.Some? {
        if localPlayerDistance.value <= interactionDistance {
          playerInRange := true;
        } else if playerInRange {
          playerInRange := false;
        }
      }
    }

    /** The interact input: the local checks, then the request. */
    method ToggleDoor(now: real) returns (sent: bool)
      modifies this
      ensures sent == ToggleAccepted(old(State()))
      ensures State() == Toggle(old(State()), animationDuration, now)
    {
      if !playerInRange {
        return false;
      }
      if isAnimating {
        return false;
      }
      ToggleDoorServerRpc(now);
      sent := true;
    }

    method ToggleDoorServerRpc(now: real)
      modifies this
      ensures State() == Toggle(old(State()), animationDuration, now)
    {
      if !playerInRange {
        return;
      }
      if isAnimating {
        return;
      }
      SetIsOpen(!isOpen, now);
    }

    /** The replicated flag's setter: a change runs OnDoorStateChanged. */
    method SetIsOpen(value: bool, now: real)
      modifies this
      ensures State() == SetOpen(old(State()), value, animationDuration, now)
    {
      if value == isOpen {
        return;
      }
      isOpen := value;
      OnDoorStateChanged(now);
    }

    /** Either way the door turns, an animation starts. */
    method OnDoorStateChanged(now: real)
      modifies this`isAnimating, this`animations
      ensures isAnimating && animations == old(animations) + [now + animationDuration]
    {
      StartAnimateDoor(now);
    }

    /** AnimateDoor up to its frame loop. */
    method StartAnimateDoor(now: real)
      modifies this`isAnimating, this`animations
      ensures isAnimating && animations == old(animations) + [now + animationDuration]
    {
      isAnimating := true;
      animations := animations + [now + animationDuration];
    }

    /** The end of the oldest AnimateDoor, once its duration has passed. */
    method ResumeAnimation(now: real)
      modifies this`isAnimating, this`animations
      ensures State() == AnimationEnd(old(State()), now)
    {
      if animations != [] && animations[0] <= now {
        animations := animations[1..];
        isAnimating := false;
      }
    }

    function IsOpen(): bool
      reads this
    {
      isOpen
    }

    function IsAnimating(): bool
      reads this
    {
      isAnimating
    }

    method ForceOpen(isServer: bool, now: real)
      modifies this
      ensures State() == Force(old(State()), isServer, true, animationDuration, now)
      ensures isServer ==> isOpen
    {
      if isServer {
        SetIsOpen(true, now);
      }
    }

    method ForceClose(isServer: bool, now: real)
      modifies this
      ensures State() == Force(old(State()), isServer, false, animationDuration, now)
      ensures isServer ==> !isOpen
    {
      if isServer {
        SetIsOpen(false, now);
      }
    }
  }
}
