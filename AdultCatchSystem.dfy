/** The adult's dash and catch. The owner's dash request is gated by the
    dash in progress and by the cooldown measured from the last dash
    start; the dash coroutine marks the dash as running, and when its
    movement ends (the movement itself is not modelled) clears it and
    schedules canDash to come back after the cooldown. While dashing, the
    server catches the first child in range that is not caught yet:
    caught flag set, candies drained, reward paid to the adult. */
module Catching {
  import opened Common
  import opened Adult
  import opened Children

  const ChildTag := "Child"
  const DefaultDashCooldown: real := 2.0
  const DefaultCoinsReward: int := 10
  const InitialLastDashTime: real := -999.0

  /** The dash flags, the time of the last dash start and the pending
      "canDash comes back" waits (never cancelled, oldest first). */
  datatype DashState = DashState(isDashing: bool, canDash: bool, lastDashTime: real, pendingCanDash: seq<real>)

  const InitialDash := DashState(false, true, InitialLastDashTime, [])

  datatype DashEvent =
    | Press(isOwner: bool, at: real)   // the dash input on the owner's peer
    | DashOver(at: real)                // the dash movement has ended
    | CooldownDue(at: real)             // a frame after which a cooldown wait may be over

  /** The owner-side gate of a dash request. */
  predicate MayRequest(s: DashState, dashCooldown: real, isOwner: bool, now: real)
  {
    isOwner && !s.isDashing && now - s.lastDashTime >= dashCooldown
  }

  /** The head of the dash coroutine on one peer: dashing, no dash
      available, the last dash started now. */
  function StartDash(s: DashState, now: real): DashState
  {
    s.(isDashing := true, canDash := false, lastDashTime := now)
  }

  /** One peer that is both the owner and the server (a host that owns
      the adult): the owner's gate, the server's check and the dash
      coroutine all act on the same state. Returns the next state, and
      whether a dash started. */
  function DashStep(dashCooldown: real, s: DashState, e: DashEvent): (DashState, bool)
  {
    match e
    case Press(isOwner, now) =>
      if MayRequest(s, dashCooldown, isOwner, now)
      then (StartDash(s, now), true)
      else (s, false)
    case DashOver(now) =>
      if s.isDashing then (s.(isDashing := false, pendingCanDash := s.pendingCanDash + [now + dashCooldown]), false)
      else (s, false)
    case CooldownDue(now) =>
      if s.pendingCanDash != [] && s.pendingCanDash[0] <= now
      then (s.(canDash := true, pendingCanDash := s.pendingCanDash[1..]), false)
      else (s, false)
  }

  /** The start times of the dashes along a sequence of events. */
  function DashStarts(dashCooldown: real, s: DashState, events: seq<DashEvent>): seq<real>
    decreases |events|
  {
    if events == [] then []
    else
      var (next, started) := DashStep(dashCooldown, s, events[0]);
      (if started then [events[0].at] else []) + DashStarts(dashCooldown, next, events[1..])
  }

  /** Each start is at least `gap` after the one before it, the first at
      least `gap` after `last`. */
  predicate Spaced(last: real, starts: seq<real>, gap: real)
    decreases |starts|
  {
    starts == [] || (starts[0] >= last + gap && Spaced(starts[0], starts[1..], gap))
  }

  /** On a host that owns the adult, whatever the order and timing of
      presses, dash ends and frames, two dashes never start less than the
      cooldown apart. */
  lemma {:induction false} DashesAreSpaced(dashCooldown: real, s: DashState, events: seq<DashEvent>)
    ensures Spaced(s.lastDashTime, DashStarts(dashCooldown, s, events), dashCooldown)
    decreases |events|
  {
    if events != [] {
      var (next, started) := DashStep(dashCooldown, s, events[0]);
      DashesAreSpaced(dashCooldown, next, events[1..]);
      var rest := DashStarts(dashCooldown, next, events[1..]);
      if started {
        assert DashStarts(dashCooldown, s, events) == [events[0].at] + rest;
        assert ([events[0].at] + rest)[1..] == rest;
      } else {
        assert next.lastDashTime == s.lastDashTime;
        assert DashStarts(dashCooldown, s, events) == rest;
      }
    }
  }

  /** A dash cannot start while one is running, and a started dash runs
      until its end event. */
  lemma NoDashDuringDash(dashCooldown: real, s: DashState, isOwner: bool, now: real)
    requires s.isDashing
    ensures DashStep(dashCooldown, s, Press(isOwner, now)) == (s, false)
    ensures !DashStep(dashCooldown, s, DashOver(now)).0.isDashing
  {
  }

  /** The state of one copy after a sequence of events. */
  function DashRun(dashCooldown: real, s: DashState, events: seq<DashEvent>): DashState
    decreases |events|
  {
    if events == [] then s else DashRun(dashCooldown, DashStep(dashCooldown, s, events[0]).0, events[1..])
  }

  /** An idle adult whose dash is unavailable always has a cooldown wait
      queued that will make it available again. */
  ghost predicate AwaitsCooldown(s: DashState)
  {
    !s.canDash && !s.isDashing ==> s.pendingCanDash != []
  }

  /** No sequence of events leaves the dash unavailable for good. */
  lemma {:induction false} RunKeepsAwaitingCooldown(dashCooldown: real, s: DashState, events: seq<DashEvent>)
    requires AwaitsCooldown(s)
    ensures AwaitsCooldown(DashRun(dashCooldown, s, events))
    decreases |events|
  {
    if events != [] {
      RunKeepsAwaitingCooldown(dashCooldown, DashStep(dashCooldown, s, events[0]).0, events[1..]);
    }
  }

  /** The waits that set `canDash` are never stopped, so the wait of an
      earlier dash can make the dash available while the latest dash's
      cooldown still runs: the flag is up and no dash runs, yet the
      owner's gate refuses a press. */
  lemma {:induction false} StaleWaitShowsDash()
    ensures var events := [Press(true, 0.0), DashOver(0.3), Press(true, 2.0), DashOver(2.3), CooldownDue(2.3)];
      var s := DashRun(DefaultDashCooldown, InitialDash, events);
      && s.canDash && !s.isDashing && s.pendingCanDash == [4.3]
      && !MayRequest(s, DefaultDashCooldown, true, 2.3)
  {
    var c := DefaultDashCooldown;
    var e0, e1, e2, e3, e4 := Press(true, 0.0), DashOver(0.3), Press(true, 2.0), DashOver(2.3), CooldownDue(2.3);
    var s1 := StartDash(InitialDash, 0.0);
    var s2 := s1.(isDashing := false, pendingCanDash := s1.pendingCanDash + [0.3 + c]);
    var s3 := StartDash(s2, 2.0);
    var s4 := s3.(isDashing := false, pendingCanDash := s3.pendingCanDash + [2.3 + c]);
    var s5 := s4.(canDash := true, pendingCanDash := s4.pendingCanDash[1..]);
    assert DashStep(c, InitialDash, e0).0 == s1;
    assert DashStep(c, s1, e1).0 == s2;
    assert DashStep(c, s2, e2).0 == s3;
    assert DashStep(c, s3, e3).0 == s4;
    assert DashStep(c, s4, e4).0 == s5;
    calc {
      DashRun(c, InitialDash, [e0, e1, e2, e3, e4]);
      DashRun(c, s1, [e1, e2, e3, e4]);
      DashRun(c, s2, [e2, e3, e4]);
      DashRun(c, s3, [e3, e4]);
      DashRun(c, s4, [e4]);
      DashRun(c, s5, []);
    }
    assert s5.pendingCanDash == [4.3];
  }

  /** The dash when a remote client owns the adult. The dash fields are
      plain fields, so the owner's copy of the component and the server's
      copy each keep their own; `requests` counts the dash requests on
      their way to the server and `rpcs` the dash broadcasts on their way
      back to the owner. */
  datatype DashNet = DashNet(owner: DashState, server: DashState, requests: nat, rpcs: nat)

  const InitialNet := DashNet(InitialDash, InitialDash, 0, 0)

  datatype NetEvent =
    | OwnerPress(at: real)         // the dash input on the owner's peer
    | RequestArrives(at: real)     // a dash request runs on the server
    | RpcArrives(at: real)         // a dash broadcast runs on the owner's peer
    | OwnerDashOver(at: real)      // the owner's copy ends its dash movement
    | ServerDashOver(at: real)     // the server's copy ends its dash movement
    | OwnerCooldownDue(at: real)   // a frame on the owner's peer
    | ServerCooldownDue(at: real)  // a frame on the server

  /** The next state, and whether the server started a dash. The owner
      gates its request on its own copy; the server checks only that its
      own copy is not dashing, runs the broadcast on itself (it is a host)
      and sends it to the owner, whose copy checks the same. */
  function NetStep(dashCooldown: real, n: DashNet, e: NetEvent): (DashNet, bool)
  {
    match e
    case OwnerPress(now) =>
      if MayRequest(n.owner, dashCooldown, true, now) then (n.(requests := n.requests + 1), false)
      else (n, false)
    case RequestArrives(now) =>
      if n.requests == 0 then (n, false)
      else if n.server.isDashing then (n.(requests := n.requests - 1), false)
      else (n.(server := StartDash(n.server, now), requests := n.requests - 1, rpcs := n.rpcs + 1), true)
    case RpcArrives(now) =>
      if n.rpcs == 0 then (n, false)
      else if n.owner.isDashing then (n.(rpcs := n.rpcs - 1), false)
      else (n.(owner := StartDash(n.owner, now), rpcs := n.rpcs - 1), false)
    case OwnerDashOver(now) => (n.(owner := DashStep(dashCooldown, n.owner, DashOver(now)).0), false)
    case ServerDashOver(now) => (n.(server := DashStep(dashCooldown, n.server, DashOver(now)).0), false)
    case OwnerCooldownDue(now) => (n.(owner := DashStep(dashCooldown, n.owner, CooldownDue(now)).0), false)
    case ServerCooldownDue(now) => (n.(server := DashStep(dashCooldown, n.server, CooldownDue(now)).0), false)
  }

  /** The times at which the server starts a dash along a sequence of
      events. */
  function ServerStarts(dashCooldown: real, n: DashNet, events: seq<NetEvent>): seq<real>
    decreases |events|
  {
    if events == [] then []
    else
      var (next, started) := NetStep(dashCooldown, n, events[0]);
      (if started then [events[0].at] else []) + ServerStarts(dashCooldown, next, events[1..])
  }

  /** The owner sends a request exactly when its own copy is not dashing
      and its own cooldown is over; the request changes no dash state. */
  lemma OwnerGatesOnOwnCopy(dashCooldown: real, n: DashNet, now: real)
    ensures var (next, started) := NetStep(dashCooldown, n, OwnerPress(now));
      && !started && next.owner == n.owner && next.server == n.server
      && (next.requests == n.requests + 1 <==> !n.owner.isDashing && now - n.owner.lastDashTime >= dashCooldown)
      && (next.requests != n.requests + 1 ==> next == n)
  {
  }

  /** The server accepts any request that reaches it while its own copy is
      not dashing: it checks no cooldown, whatever its last dash time. */
  lemma ServerChecksNoCooldown(dashCooldown: real, n: DashNet, now: real)
    requires n.requests > 0
    ensures var (next, started) := NetStep(dashCooldown, n, RequestArrives(now));
      && (started <==> !n.server.isDashing)
      && (started ==> next.server == StartDash(n.server, now) && next.rpcs == n.rpcs + 1)
  {
  }

  /** The remote-owner trace below after its second press: the server's
      first dash runs, and the owner's second request is on its way. */
  const RemoteOwnerMidway := DashNet(InitialDash, StartDash(InitialDash, 0.05), 1, 1)

  /** The first three events of the trace: the server starts its first
      dash, and the owner, whose copy the broadcast has not reached, sends
      a second request. */
  lemma {:induction false} RemoteOwnerFirstDash(c: real, rest: seq<NetEvent>)
    requires c <= 999.0
    ensures ServerStarts(c, InitialNet, [OwnerPress(0.0), RequestArrives(0.05), OwnerPress(0.1)] + rest)
      == [0.05] + ServerStarts(c, RemoteOwnerMidway, rest)
  {
    var e0, e1, e2 := OwnerPress(0.0), RequestArrives(0.05), OwnerPress(0.1);
    var n1 := InitialNet.(requests := 1);
    var n2 := DashNet(InitialDash, StartDash(InitialDash, 0.05), 0, 1);
    assert NetStep(c, InitialNet, e0) == (n1, false);
    assert NetStep(c, n1, e1) == (n2, true);
    assert NetStep(c, n2, e2) == (RemoteOwnerMidway, false);
    assert ([e2] + rest)[1..] == rest;
    assert ServerStarts(c, n2, [e2] + rest) == ServerStarts(c, RemoteOwnerMidway, rest);
    assert ([e1, e2] + rest)[1..] == [e2] + rest;
    assert ServerStarts(c, n1, [e1, e2] + rest) == [0.05] + ServerStarts(c, n2, [e2] + rest);
    assert ([e0, e1, e2] + rest)[1..] == [e1, e2] + rest;
    assert ServerStarts(c, InitialNet, [e0, e1, e2] + rest) == ServerStarts(c, n1, [e1, e2] + rest);
  }

  /** The rest of the trace: the server's first dash ends and the second
      request starts another. */
  lemma {:induction false} RemoteOwnerSecondDash(c: real)
    ensures ServerStarts(c, RemoteOwnerMidway, [ServerDashOver(0.35), RequestArrives(0.4)]) == [0.4]
  {
    var n3 := RemoteOwnerMidway;
    var n4 := n3.(server := n3.server.(isDashing := false, pendingCanDash := n3.server.pendingCanDash + [0.35 + c]));
    var n5 := DashNet(InitialDash, StartDash(n4.server, 0.4), 0, 2);
    assert NetStep(c, n3, ServerDashOver(0.35)) == (n4, false);
    assert NetStep(c, n4, RequestArrives(0.4)) == (n5, true);
    assert [ServerDashOver(0.35), RequestArrives(0.4)][1..] == [RequestArrives(0.4)];
    assert ServerStarts(c, n4, [RequestArrives(0.4)]) == [0.4];
  }

  /** With a remote owner, two server dashes can start less than the
      cooldown apart, whatever the cooldown above 0.35 s: the owner
      presses again before the broadcast of its first dash has reached it,
      so its own copy still holds the initial last dash time, and the
      server, whose first dash is already over, accepts the second
      request. */
  lemma {:induction false} RemoteOwnerDashesNotSpaced(c: real)
    requires 0.35 < c <= 999.0
    ensures var events := [OwnerPress(0.0), RequestArrives(0.05), OwnerPress(0.1),
                           ServerDashOver(0.35), RequestArrives(0.4)];
      var starts := ServerStarts(c, InitialNet, events);
      && starts == [0.05, 0.4]
      && !Spaced(InitialLastDashTime, starts, c)
  {
    var rest := [ServerDashOver(0.35), RequestArrives(0.4)];
    RemoteOwnerFirstDash(c, rest);
    RemoteOwnerSecondDash(c);
    assert [OwnerPress(0.0), RequestArrives(0.05), OwnerPress(0.1)] + rest
      == [OwnerPress(0.0), RequestArrives(0.05), OwnerPress(0.1), ServerDashOver(0.35), RequestArrives(0.4)];
    assert [0.05, 0.4][1..] == [0.4];
  }

  /** What a catch check sees of one overlapping collider: its tag and the
      ChildrenManager on it, if any. */
  datatype Hit = Hit(tag: string, child: ChildrenManager?)

  /** A hit the catch check would act on. */
  predicate Catchable(h: Hit)
    reads h.child
  {
    h.tag == ChildTag && h.child != null && !h.child.caught
  }

  /** The children behind a list of hits, as a frame. */
  function HitChildren(hits: seq<Hit>): set<ChildrenManager>
  {
    set h | h in hits && h.child != null :: h.child
  }

  class AdultCatchSystem {
    const dashCooldown: real
    const coinsReward: int
    const adultManager: AdultManager
    var isDashing: bool
    var canDash: bool
    var lastDashTime: real
    var pendingCanDash: seq<real>

    function State(): DashState
      reads this
    {
      DashState(isDashing, canDash, lastDashTime, pendingCanDash)
    }

    constructor (dashCooldown: real, coinsReward: int, adultManager: AdultManager)
      ensures this.dashCooldown == dashCooldown && this.coinsReward == coinsReward
      ensures this.adultManager == adultManager && State() == InitialDash
    {
      this.dashCooldown := dashCooldown;
      this.coinsReward := coinsReward;
      this.adultManager := adultManager;
      isDashing := false;
      canDash := true;
      lastDashTime := InitialLastDashTime;
      pendingCanDash := [];
    }

    /** Owner side: a request goes out only from the owner, not while
        dashing, and only once the cooldown since the last start is over. */
    method TryDashCatch(isOwner: bool, now: real) returns (requested: bool)
      ensures requested <==> isOwner && !isDashing && now - lastDashTime >= dashCooldown
    {
      if !isOwner {
        return false;
      }
      if isDashing {
        return false;
      }
      if now - lastDashTime < dashCooldown {
        return false;
      }
      requested := true;
    }

    /** The dash input on a host that owns the adult: the owner-side gate,
        then the request, which runs at once on the same copy. A remote
        owner is `NetStep`'s case. */
    method OnDashPressed(isOwner: bool, now: real) returns (started: bool)
      modifies this
      ensures (State(), started) == DashStep(dashCooldown, old(State()), Press(isOwner, now))
    {
      var requested := TryDashCatch(isOwner, now);
      started := false;
      if requested {
        started := RequestDashServerRpc(now);
      }
    }

    /** The server's copy only re-checks that its own dash is not running;
        it checks no cooldown. */
    method RequestDashServerRpc(now: real) returns (started: bool)
      modifies this
      ensures started == !old(isDashing)
      ensures State() == if started then StartDash(old(State()), now) else old(State())
    {
      if isDashing {
        return false;
      }
      started := PerformDashClientRpc(now);
    }

    method PerformDashClientRpc(now: real) returns (started: bool)
      modifies this
      ensures started == !old(isDashing)
      ensures State() == if started then StartDash(old(State()), now) else old(State())
    {
      if isDashing {
        return false;
      }
      StartDashCoroutine(now);
      started := true;
    }

    /** The dash coroutine up to its movement loop. */
    method StartDashCoroutine(now: real)
      modifies this`isDashing, this`canDash, this`lastDashTime
      ensures isDashing && !canDash && lastDashTime == now
    {
      isDashing := true;
      canDash := false;
      lastDashTime := now;
    }

    /** The dash coroutine after its movement loop: the dash is over, and
        the cooldown wait starts. */
    method EndDashCoroutine(now: real)
      modifies this
      ensures State() == DashStep(dashCooldown, old(State()), DashOver(now)).0
    {
      if !isDashing {
        return;  // no dash coroutine is running
      }
      isDashing := false;
      pendingCanDash := pendingCanDash + [now + dashCooldown];
    }

    /** The oldest cooldown wait, resumed at `now` if it is over. */
    method ResumeCooldown(now: real)
      modifies this
      ensures State() == DashStep(dashCooldown, old(State()), CooldownDue(now)).0
    {
      if pendingCanDash != [] && pendingCanDash[0] <= now {
        canDash := true;
        pendingCanDash := pendingCanDash[1..];
      }
    }

    /** Server only: catches the first hit that is a child, has a manager
        and is not caught yet, and none of the others. */
    method CheckForChildrenInRange(isServer: bool, hits: seq<Hit>) returns (caughtAt: Option<nat>)
      modifies adultManager`coins, HitChildren(hits)
      ensures !isServer ==> caughtAt == None
      ensures caughtAt.Some? ==>
        && caughtAt.value < |hits|
        && old(Catchable(hits[caughtAt.value]))
        && (forall j :: 0 <= j < caughtAt.value ==> !old(Catchable(hits[j])))
      ensures isServer && caughtAt.None? ==> forall j :: 0 <= j < |hits| ==> !old(Catchable(hits[j]))
      ensures caughtAt.Some? ==>
        var child := hits[caughtAt.value].child;
        && child.caught
        && child.currentCandies == (if old(child.currentCandies) > 0 then 0 else old(child.currentCandies))
        && adultManager.coins == old(adultManager.coins) + coinsReward
      ensures caughtAt.None? ==> adultManager.coins == old(adultManager.coins)
      ensures forall c :: c in HitChildren(hits) && (caughtAt.None? || c != hits[caughtAt.value].child) ==>
        c.caught == old(c.caught) && c.currentCandies == old(c.currentCandies)
    {
      caughtAt := None;
      if !isServer {
        return;
      }
      var i := 0;
      while i < |hits|
        invariant 0 <= i <= |hits|
        invariant caughtAt == None
        invariant forall j :: 0 <= j < i ==> !old(Catchable(hits[j]))
        invariant adultManager.coins == old(adultManager.coins)
        invariant forall c :: c in HitChildren(hits) ==> c.caught == old(c.caught) && c.currentCandies == old(c.currentCandies)
      {
        var hit := hits[i];
        if hit.tag == ChildTag {
          var child := hit.child;
          if child != null && !child.IsCaught() {
            CatchChild(true, child);
            caughtAt := Some(i);
            break;  // one child at a time
          }
        }
        i := i + 1;
      }
    }

    /** Server only: marks the child caught, removes its candies one by
        one, and pays the reward. */
    method CatchChild(isServer: bool, child: ChildrenManager)
      modifies child`caught, child`currentCandies, adultManager`coins
      ensures !isServer ==>
        && child.caught == old(child.caught) && child.currentCandies == old(child.currentCandies)
        && adultManager.coins == old(adultManager.coins)
      ensures isServer ==>
        && child.caught
        && child.currentCandies == (if old(child.currentCandies) > 0 then 0 else old(child.currentCandies))
        && adultManager.coins == old(adultManager.coins) + coinsReward
    {
      if !isServer {
        return;
      }
      child.SetCaught(true);
      var candyCount := child.GetCandyCount();
      var i := 0;
      while i < candyCount
        invariant 0 <= i && (candyCount > 0 ==> i <= candyCount)
        invariant child.currentCandies == if candyCount > 0 then candyCount - i else candyCount
        invariant child.caught
        invariant adultManager.coins == old(adultManager.coins)
      {
        var _ := child.RemoveCandy(true);
        i := i + 1;
      }
      adultManager.AddCoins(true, coinsReward);
    }

    function IsDashing(): bool
      reads this
    {
      isDashing
    }

    /** A dash is shown as available when some earlier cooldown wait has
        ended and no dash is running; the wait need not be the latest
        dash's (`StaleWaitShowsDash`). */
    function CanDash(): (can: bool)
      reads this
      ensures can ==> !isDashing
      ensures can <==> canDash && !isDashing
    {
      canDash && !isDashing
    }

    /** The cooldown left, never negative; it is positive exactly when the
        owner-side gate would refuse a request for the cooldown. */
    function GetDashCooldown(now: real): (remaining: real)
      reads this
      ensures remaining >= 0.0
      ensures remaining > 0.0 <==> now - lastDashTime < dashCooldown
      ensures remaining > 0.0 ==> remaining == dashCooldown - (now - lastDashTime)
    {
      if dashCooldown - (now - lastDashTime) > 0.0 then dashCooldown - (now - lastDashTime) else 0.0
    }
  }
}
