# Gameplay state rules of a networked hide-and-catch game, in Dafny

The game is a Unity multiplayer match between one adult and several
children. The server is authoritative for the adult's coins and trap
inventory, each child's candies and timed effects (speed boost, slow,
stun), the traps' armed/triggered cycle, the shop transaction, the catch,
the round's phase flags and win condition, spawn-point allocation, doors,
the candy spawner, and the per-client data maps. The dash is not
server-owned: its state is kept separately by each peer's copy of the
adult, the owner gates its requests on its own copy's cooldown, and the
server checks only that its own copy is not already dashing. This
project models those rules and proves what they guarantee. Each rule is
a counter, a flag, a list or a map, guarded by explicit conditions.

How the engine is represented:

- **Server and owner tests.** `IsServer` and `IsOwner` are `bool`
  parameters. A call that the source forwards to the server by a server
  RPC is applied to the one authoritative object, so the direct route and
  the forwarded route have the same postcondition.
- **Coroutines.** A coroutine that waits (`WaitForSeconds`, or a
  fixed-duration animation) is modelled up to its wait, which stores a
  deadline. A separate method taking `now` resumes it.
  - `StopCoroutine` drops the stored deadline, so a cancelled wait never
    fires.
  - Some coroutines are never stopped in the source: the trap rearm, the
    return of `canDash`, the door animation and the candy respawn. Each is
    kept as a list of pending deadlines, oldest first.
- **Step functions.** Each timer-driven component has a value-level state
  datatype with step functions. Its class's `State()` maps the fields to
  that datatype, and every method ensures
  `State() == Step(old(State()), …)`. The multi-step properties are
  lemmas over sequences of events.
- **Members the components call but do not define.** The child's caught
  flag, the child's preparation flag and the adult's bounded inventory are
  plain fields. The caught flag is read as `isCaught()` in
  Assets/Scripts/RoundManager.cs:198 and as `IsCaught()` in
  Assets/Scripts/AdultCatchSystem.cs:234; neither is defined in the child's
  manager, and the model reads both as the one flag that `SetCaught` sets. `AddItemToInventory` takes an `accepts` input, which stands
  for whatever the inventory checks besides its capacity.
- **Engine inputs.** Overlapping colliders become `Collider`/`Hit`
  values. A random draw becomes a `roll: nat` reduced modulo the range.
  The local player's distance to a door is an optional `real`. A look ray
  and a key press are `bool`s.
- **Trap dispatch.** The virtual `ActivateTrap` of the trap base class is
  modelled by composition: each concrete trap owns a `TrapBase` and runs
  its own activation when the base reports one.

Behaviours of the code that the model keeps as written:

- **Trap rearms.** On the server, every child-tagged exit from a
  triggered rearmable trap starts a new rearm coroutine, and none is ever
  stopped (Assets/Scripts/Trap/TrapBase.cs:56-66). A stale rearm can
  therefore re-arm a trap that another child has just set off
  (`Traps.StaleRearmScenario`).
- **What starts a rearm.** The exit test is on the tag alone
  (Assets/Scripts/Trap/TrapBase.cs:60-65), so any child's exit starts a
  rearm, not only the exit of the child that set the trap off.
- **Candy respawn.** The respawn cooldown is started only when a candy
  is collected and is never stopped (Assets/Scripts/CandySpawner.cs:68-83).
  A candy cannot be collected while the cooldown runs, so at most one
  cooldown is pending (`Candy.RunKeepsConsistent`).
- **In-order spawning never advances.** The in-order branch reads the
  point at `len - |available|` but removes no point
  (Assets/Scripts/NetworkPlayerSpawner.cs:100-110), so from a full list
  every in-order spawn uses point 0
  (`Spawning.InOrderSpawnsRepeatFirstPoint`).
- **Spawn rotation.** The rotation is taken from index
  `len - |available| - 1` (Assets/Scripts/NetworkPlayerSpawner.cs:115-128),
  which counts the points taken, not the point drawn. After a randomized
  draw it is the rotation of point 0, whichever point was drawn
  (`Spawning.RotationAfterFirstDraw`).
- **Stale dash waits.** The wait that sets `canDash` at the end of a
  dash is never stopped (Assets/Scripts/AdultCatchSystem.cs:210-216), so
  the wait of an earlier dash can show the dash as available while the
  latest dash's cooldown still runs (`Catching.StaleWaitShowsDash`).
- **Dash with a remote owner.** Each peer's copy of the adult keeps its
  own dash fields (Assets/Scripts/AdultCatchSystem.cs:29-31), the owner
  checks the cooldown on its own copy (Assets/Scripts/AdultCatchSystem.cs:73-87)
  and the server checks only that its copy is not dashing
  (Assets/Scripts/AdultCatchSystem.cs:92-99). An owner that presses again
  before its first dash reaches it gets a second dash from the server
  well inside the cooldown (`Catching.RemoteOwnerDashesNotSpaced`).

## Model

| member | source | states |
|---|---|---|
| `Adult.AdultManager.constructor` | Assets/Scripts/AdultManager.cs:7-10 | coins start at 0 and the preparation flag starts true; the inventory starts empty |
| `Adult.AdultManager.SetCoins` | Assets/Scripts/AdultManager.cs:13-20 | coins become max(0, amount), so never negative, and exactly the amount when it is not negative, whether called on the server or forwarded |
| `Adult.AdultManager.SetCoinsServerRpc` | Assets/Scripts/AdultManager.cs:22-25 | the forwarded body clamps at 0 like the server-local one |
| `Adult.AdultManager.AddCoins` | Assets/Scripts/AdultManager.cs:27-34 | coins grow by exactly the amount, with no clamp; nothing else changes |
| `Adult.AdultManager.AddCoinsServerRpc` | Assets/Scripts/AdultManager.cs:36-39 | the forwarded body adds exactly the amount |
| `Adult.AdultManager.RemoveCoins` | Assets/Scripts/AdultManager.cs:41-48 | coins become max(0, coins - amount), exactly coins - amount when that is affordable, and never negative |
| `Adult.AdultManager.RemoveCoinsServerRpc` | Assets/Scripts/AdultManager.cs:50-53 | the forwarded body clamps at 0 like the server-local one |
| `Adult.AdultManager.SetPreparationPhase` | Assets/Scripts/AdultManager.cs:59-66 | the flag becomes the argument; the coins are outside its frame |
| `Adult.AdultManager.SetPreparationPhaseServerRpc` | Assets/Scripts/AdultManager.cs:68-71 | the forwarded body sets the flag the same way |
| `Adult.AdultManager.ResetStats` | Assets/Scripts/AdultManager.cs:77-84 | coins become 0; the preparation flag and the inventory are outside its frame |
| `Adult.AdultManager.ResetStatsServerRpc` | Assets/Scripts/AdultManager.cs:86-89 | the forwarded body zeroes the coins |
| `Adult.AdultManager.AddItemToInventory` | Assets/Scripts/ShopManager.cs:47-54 | the inventory the shop relies on: an item is appended exactly when the inventory is not full and accepts it, and the result says whether it was |
| `Children.ChildrenManager.constructor` | Assets/Scripts/ChildrenManager.cs:8-15 | the candy count starts at 0 with the default maximum of 5; the child is not caught |
| `Children.ChildrenManager.AddCandy` | Assets/Scripts/ChildrenManager.cs:33-47 | true exactly on the server when the count is below the maximum, and then the count grows by one; otherwise nothing changes; 0 <= count <= max is preserved |
| `Children.ChildrenManager.RemoveCandy` | Assets/Scripts/ChildrenManager.cs:49-62 | true exactly on the server when the count is positive, and then the count drops by one; otherwise nothing changes; 0 <= count <= max is preserved |
| `Children.ChildrenManager.CanMove` | Assets/Scripts/ChildrenManager.cs:64 | true without an ability component, otherwise the component's canMove |
| `Children.ChildrenManager.GetSpeedMultiplier` | Assets/Scripts/ChildrenManager.cs:65 | 1 without an ability component, otherwise the component's multiplier |
| `Children.ChildrenManager.UseAbility` | Assets/Scripts/ChildrenManager.cs:17-19 | the owner's boost of 1.5x for 3 s starts on the component; a non-owner changes nothing |
| `Children.ChildrenManager.SpeedBoost` | Assets/Scripts/ChildrenManager.cs:21-23 | forwards to the component's speed effect with the same arguments |
| `Children.ChildrenManager.Slow` | Assets/Scripts/ChildrenManager.cs:25-27 | forwards to the component's speed effect with the same arguments |
| `Children.ChildrenManager.Stun` | Assets/Scripts/ChildrenManager.cs:29-31 | forwards to the component's stun with the same duration |
| `Children.ChildrenManager.SetCaught` | Assets/Scripts/AdultCatchSystem.cs:252 | the caught flag the catch system sets becomes the argument |
| `Children.ChildrenManager.ResetCaughtStatus` | Assets/Scripts/Trap/GoulagTrap.cs:54 | the caught flag the goulag release clears becomes false |
| `Children.ChildrenManager.SetPreparationPhase` | Assets/Scripts/RoundManager.cs:61-72 | the child's preparation flag that the round sets becomes the argument |
| `Children.ChildPlayer.constructor` | Assets/Scripts/Trap/GoulagTrap.cs:13-34 | a child's player object with its manager and its position |
| `Ability.InitialConsistent` | Assets/Scripts/ChildrenAbility.cs:8-21 | the initial state (can move, multiplier 1, no coroutine) satisfies the effect invariant |
| `Ability.RunKeepsConsistent` | Assets/Scripts/ChildrenAbility.cs:70-138 | along any sequence of effects and frames, the multiplier is 1 whenever no speed coroutine runs, and the child can move exactly when no stun coroutine runs |
| `Ability.LastSpeedEffectWins` | Assets/Scripts/ChildrenAbility.cs:77-81 | a second speed effect replaces the first outright (the first coroutine is stopped) |
| `Ability.LastStunWins` | Assets/Scripts/ChildrenAbility.cs:105-109 | a second stun replaces the first outright |
| `Ability.CancelledSpeedNeverFires` | Assets/Scripts/ChildrenAbility.cs:91-95 | until the new deadline, the multiplier is the new argument even after the old deadline has passed |
| `Ability.SpeedEffectLifetime` | Assets/Scripts/ChildrenAbility.cs:112-125 | the multiplier is the argument until the deadline, then 1, and the handle is cleared |
| `Ability.StunLifetime` | Assets/Scripts/ChildrenAbility.cs:127-138 | the child cannot move until the deadline and can move from then on |
| `Ability.EffectsIndependent` | Assets/Scripts/ChildrenAbility.cs:20-21 | a speed effect never touches the stun state, and a stun never touches the speed state |
| `Ability.ClientEffectsIgnored` | Assets/Scripts/ChildrenAbility.cs:72-75 | off the server, speed effects and stuns change nothing |
| `Ability.SlowRestartScenario` | Assets/Scripts/ChildrenAbility.cs:84-96 | a slow reapplied at t = 2 is still in force at t = 5 and gone at t = 7: the window restarts and does not stack |
| `Ability.ChildrenAbility.constructor` | Assets/Scripts/ChildrenAbility.cs:8-21 | starts able to move, at multiplier 1, with no coroutine, so the invariant `Valid` holds |
| `Ability.ChildrenAbility.ActivateAbility` | Assets/Scripts/ChildrenAbility.cs:54-62 | only the owner's request goes out, and it starts the 1.5x, 3 s boost |
| `Ability.ChildrenAbility.ActivateAbilityServerRpc` | Assets/Scripts/ChildrenAbility.cs:64-68 | the server starts the 1.5x, 3 s boost |
| `Ability.ChildrenAbility.ActivateSpeedBoost` | Assets/Scripts/ChildrenAbility.cs:70-82 | server only: stops the running speed coroutine and starts a new one (the state is StartSpeed of the old one); keeps `Valid` |
| `Ability.ChildrenAbility.ActivateSlow` | Assets/Scripts/ChildrenAbility.cs:84-96 | server only: same as the boost, with the slow's multiplier; keeps `Valid` |
| `Ability.ChildrenAbility.Stun` | Assets/Scripts/ChildrenAbility.cs:98-110 | server only: stops the running stun coroutine and starts a new one; keeps `Valid` |
| `Ability.ChildrenAbility.StartSpeedRoutine` | Assets/Scripts/ChildrenAbility.cs:112-120 | the coroutine sets the multiplier and waits until now + duration |
| `Ability.ChildrenAbility.StartStunRoutine` | Assets/Scripts/ChildrenAbility.cs:127-132 | the coroutine freezes the child and waits until now + duration |
| `Ability.ChildrenAbility.ResumeRoutines` | Assets/Scripts/ChildrenAbility.cs:121-137 | each coroutine whose wait is over restores its value and clears its handle; keeps `Valid` |
| `Ability.ChildrenAbility.IsStunned` | Assets/Scripts/ChildrenAbility.cs:150-153 | under `Valid`, stunned exactly while a stun coroutine is running |
| `Ability.ChildrenAbility.HasSpeedEffect` | Assets/Scripts/ChildrenAbility.cs:155-158 | under `Valid`, a changed multiplier shows only while a speed coroutine is running |
| `Shop.ShopManager.constructor` | Assets/Scripts/ShopManager.cs:6 | the shop starts without an adult controller |
| `Shop.ShopManager.SetAdultController` | Assets/Scripts/ShopManager.cs:8-11 | the controller is stored |
| `Shop.ShopManager.TryPurchaseItem` | Assets/Scripts/ShopManager.cs:13-22 | a request is sent exactly when a controller exists and this peer owns it |
| `Shop.ShopManager.PurchaseItemServerRpc` | Assets/Scripts/ShopManager.cs:24-65 | each rejection holds exactly under its own condition, in the server's order: no controller, no manager, bad index, too few coins, full inventory, no prefab. A purchase happens exactly when all checks pass and the inventory takes the item; then the price is paid and the item appended. If the inventory refuses, the price is refunded. Except for a purchase, coins and inventory end as they were. Only the adult's coins and inventory may change, so its preparation flag is untouched |
| `Traps.EnterTriggersOnce` | Assets/Scripts/Trap/TrapBase.cs:35-54 | an entry activates exactly on the server, for an armed trap, a "Child" tag and a controller; it then marks the trap triggered; otherwise nothing changes |
| `Traps.ActivationsBoundedByRearms` | Assets/Scripts/Trap/TrapBase.cs:35-81 | along any sequence of entries, exits and rearms, activations are at most rearms plus one: no second activation without a rearm |
| `Traps.SpentTrapStaysSpent` | Assets/Scripts/Trap/TrapBase.cs:56-66 | a triggered trap that cannot rearm and has no rearm pending stays triggered and never activates again |
| `Traps.ExitThenRearm` | Assets/Scripts/Trap/TrapBase.cs:56-81 | a child leaving a triggered rearmable trap schedules a rearm at now + rearmDelay; when it is due the trap is armed and OnRearmed runs |
| `Traps.ClientCallbacksIgnored` | Assets/Scripts/Trap/TrapBase.cs:37-38 | off the server, entries and exits change nothing |
| `Traps.StaleRearmScenario` | Assets/Scripts/Trap/TrapBase.cs:63-75 | two exits schedule two rearms; the second one re-arms a trap that a new child set off in between |
| `Traps.TrapBase.constructor` | Assets/Scripts/Trap/TrapBase.cs:8-15 | a trap starts armed, with no rearm pending |
| `Traps.TrapBase.OnTriggerEnter` | Assets/Scripts/Trap/TrapBase.cs:35-54 | takes one Enter step of the protocol and reports the activation, which implies a controller is present |
| `Traps.TrapBase.OnTriggerExit` | Assets/Scripts/Trap/TrapBase.cs:56-66 | takes one Exit step: server only, "Child" tag, and a rearm is scheduled when the trap is triggered and may rearm |
| `Traps.TrapBase.RearmTrap` | Assets/Scripts/Trap/TrapBase.cs:68-81 | the oldest rearm, once due, arms the trap and reports that OnRearmed ran |
| `SlowTraps.SlowTrap.constructor` | Assets/Scripts/Trap/SlowTrap.cs:7-8 | multiplier within [0.1, 1] and duration kept; the trap starts armed |
| `SlowTraps.SlowTrap.ActivateTrap` | Assets/Scripts/Trap/SlowTrap.cs:10-21 | a child reached through its manager gets Slow(multiplier, duration); a missing child, manager or ability changes nothing |
| `SlowTraps.SlowTrap.OnTriggerEnter` | Assets/Scripts/Trap/SlowTrap.cs:10-21 | the child is slowed exactly when the trap protocol activates |
| `ParalysisTraps.ParalysisTrap.constructor` | Assets/Scripts/Trap/ParalysisTrap.cs:7 | duration kept; the trap starts armed |
| `ParalysisTraps.ParalysisTrap.ActivateTrap` | Assets/Scripts/Trap/ParalysisTrap.cs:9-17 | the child is stunned for the duration; its speed state and candies are unchanged; without a manager nothing changes |
| `ParalysisTraps.ParalysisTrap.OnTriggerEnter` | Assets/Scripts/Trap/ParalysisTrap.cs:9-17 | the child is stunned exactly when the trap protocol activates |
| `GoulagTraps.GoulagTrap.constructor` | Assets/Scripts/Trap/GoulagTrap.cs:8-11 | no child is trapped; the trap starts armed |
| `GoulagTraps.GoulagTrap.ActivateTrap` | Assets/Scripts/Trap/GoulagTrap.cs:13-34 | no goulag point, or a child already trapped, changes nothing. Otherwise the child is appended, moved to the goulag point and marked caught. The list stays duplicate-free. Only the child's pose and its manager's caught flag may change, so candies, candy limit and preparation flag are untouched |
| `GoulagTraps.GoulagTrap.ReleaseAllPlayers` | Assets/Scripts/Trap/GoulagTrap.cs:36-58 | every trapped child has its caught flag cleared and is moved to the release point when there is one (otherwise it stays put); then the list is empty. Only the trapped children's poses and caught flags may change, so their candies, candy limits and preparation flags are untouched |
| `GoulagTraps.GoulagTrap.OnTriggerEnter` | Assets/Scripts/Trap/GoulagTrap.cs:13-34 | the capture runs exactly when the trap protocol activates: then, with a goulag point and a child not yet trapped, the child is appended, moved to the point and caught; in every other case the list, the child's pose and its caught flag are unchanged. Only the child's pose and its manager's caught flag may change, so candies, candy limit and preparation flag are untouched |
| `Rounds.Switched` | Assets/Scripts/RoundManager.cs:36-47 | a scene object that is not assigned stays unassigned; an assigned one becomes active or inactive as requested |
| `Rounds.RoundManager.constructor` | Assets/Scripts/RoundManager.cs:22-25 | no player and no spawn point, an empty child list, not finished early |
| `Rounds.RoundManager.StartPreparationPhase` | Assets/Scripts/RoundManager.cs:27-75 | server only. Clears finished-early and switches on the fences, shop and candy spawner. Sends the adult to its point and child i to point i mod n. Sets the preparation flag of the adult and of every present child. Off the server nothing changes. Only the phase flags of the adult and children may change: coins, inventory, candies, candy limit and caught flags are untouched |
| `Rounds.RoundManager.StartGamePhase` | Assets/Scripts/RoundManager.cs:77-112 | server only: fences and shop off; the adult's and every present child's preparation flag cleared; off the server nothing changes; coins, inventory, candies, candy limit and caught flags are untouched |
| `Rounds.RoundManager.SetChildrenPhase` | Assets/Scripts/RoundManager.cs:98-109 | every present child in the list gets the flag, and nothing but the children's phase flags changes |
| `Rounds.RoundManager.EndRound` | Assets/Scripts/RoundManager.cs:114-129 | server only: the candy spawner is switched off |
| `Rounds.RoundManager.ResetRound` | Assets/Scripts/RoundManager.cs:131-137 | finished-early is cleared |
| `Rounds.RoundManager.TeleportPlayersToSpawnPoints` | Assets/Scripts/RoundManager.cs:143-174 | the orders are exactly: the adult to its point when both exist, and each present child i to point i mod n when n > 0 and that point is set; with n = 0 no child moves. Every player object is taken to carry a network object |
| `Rounds.RoundManager.SetAdultPlayer` | Assets/Scripts/RoundManager.cs:176-179 | the adult is stored |
| `Rounds.RoundManager.SetChildPlayers` | Assets/Scripts/RoundManager.cs:181-184 | the child list is stored |
| `Rounds.RoundManager.AdultHasWon` | Assets/Scripts/RoundManager.cs:190-205 | true exactly when the list exists, is not empty, and every present child is caught: no vacuous win, and missing entries are skipped |
| `Rounds.RoundManager.SetFinishedEarlier` | Assets/Scripts/RoundManager.cs:207-215 | HasFinishedEarlier afterwards returns the value set |
| `Rounds.RoundManager.SetAdultSpawnPoint` | Assets/Scripts/RoundManager.cs:231-234 | the point is stored |
| `Rounds.RoundManager.SetChildrenSpawnPoints` | Assets/Scripts/RoundManager.cs:236-239 | the points are stored |
| `Spawning.SubMultisetShorter` | Assets/Scripts/NetworkPlayerSpawner.cs:102-109 | an available list that is a sub-multiset of the points is no longer than them, so the in-order index is never negative |
| `Spawning.RemoveAtMultiset` | Assets/Scripts/NetworkPlayerSpawner.cs:97 | RemoveAt takes exactly one copy of the removed point out |
| `Spawning.TakeSpawn` | Assets/Scripts/NetworkPlayerSpawner.cs:82-113 | the origin exactly when there are no points; otherwise a configured point; the available list stays a sub-multiset of the points |
| `Spawning.RandomDrawRemovesChosen` | Assets/Scripts/NetworkPlayerSpawner.cs:92-98 | a randomized draw hands out an available point and removes exactly that copy, so the list shrinks by one |
| `Spawning.Spawns` | Assets/Scripts/NetworkPlayerSpawner.cs:59-113 | one position per spawn, and the available list stays a sub-multiset of the points |
| `Spawning.RandomSpawnsNeverReuse` | Assets/Scripts/NetworkPlayerSpawner.cs:92-98 | until a refill, what randomized spawns hand out plus what is left is exactly what was available: no point is reused |
| `Spawning.InOrderSpawnsRepeatFirstPoint` | Assets/Scripts/NetworkPlayerSpawner.cs:100-111 | from a full list, in-order spawns all use point 0 and the list stays full |
| `Spawning.RotationAfterFirstDraw` | Assets/Scripts/NetworkPlayerSpawner.cs:115-128 | from a full list the rotation is the identity; after one draw it is point 0's, whichever point was drawn |
| `Spawning.NetworkPlayerSpawner.constructor` | Assets/Scripts/NetworkPlayerSpawner.cs:12 | nothing available and nothing spawned yet |
| `Spawning.NetworkPlayerSpawner.Start` | Assets/Scripts/NetworkPlayerSpawner.cs:14-30 | on the server the list is refilled, then the host's player is spawned when this peer is the host |
| `Spawning.NetworkPlayerSpawner.OnClientConnected` | Assets/Scripts/NetworkPlayerSpawner.cs:41-47 | on the server a player is spawned for the client at the next position |
| `Spawning.NetworkPlayerSpawner.OnClientDisconnected` | Assets/Scripts/NetworkPlayerSpawner.cs:49-57 | on the server every point becomes available again |
| `Spawning.NetworkPlayerSpawner.SpawnPlayerForClient` | Assets/Scripts/NetworkPlayerSpawner.cs:59-80 | takes a position, then the rotation for the list after it, and records the player when the prefab has a network object |
| `Spawning.NetworkPlayerSpawner.GetSpawnPosition` | Assets/Scripts/NetworkPlayerSpawner.cs:82-113 | the position and the new available list are those of TakeSpawn; the sub-multiset invariant is kept |
| `Spawning.NetworkPlayerSpawner.GetSpawnRotation` | Assets/Scripts/NetworkPlayerSpawner.cs:115-128 | a point's rotation exactly when a point has been taken since the refill, namely that of point len - available - 1; the identity otherwise |
| `Spawning.NetworkPlayerSpawner.ResetSpawnPoints` | Assets/Scripts/NetworkPlayerSpawner.cs:130-137 | the available list becomes a full copy of the points |
| `Catching.DashesAreSpaced` | Assets/Scripts/AdultCatchSystem.cs:73-131 | on a host that owns the adult (one copy of the dash state), for any order and timing of presses, dash ends and frames, two dash starts are never less than the cooldown apart |
| `Catching.OwnerGatesOnOwnCopy` | Assets/Scripts/AdultCatchSystem.cs:73-87 | with a remote owner, a request goes out exactly when the owner's own copy is not dashing and its own cooldown is over, and changes neither copy |
| `Catching.ServerChecksNoCooldown` | Assets/Scripts/AdultCatchSystem.cs:92-99 | a request reaching the server starts a dash exactly when the server's own copy is not dashing, whatever its last dash time, and sends the broadcast to the owner |
| `Catching.RemoteOwnerDashesNotSpaced` | Assets/Scripts/AdultCatchSystem.cs:29-31 | with a remote owner that presses again before the first broadcast reaches it, the server starts two dashes 0.35 s apart, so they are not spaced by any cooldown above 0.35 s (up to the 999 s that the initial last dash time allows), the default 2 s included |
| `Catching.RunKeepsAwaitingCooldown` | Assets/Scripts/AdultCatchSystem.cs:210-216 | along any events on one copy, an idle adult whose dash is unavailable always has a cooldown wait queued that will set `canDash` again |
| `Catching.StaleWaitShowsDash` | Assets/Scripts/AdultCatchSystem.cs:210-216 | the never-stopped wait of an earlier dash sets `canDash` while the latest dash's cooldown runs: `CanDash` would say yes while the owner's gate refuses the press |
| `Catching.NoDashDuringDash` | Assets/Scripts/AdultCatchSystem.cs:79-80 | no dash starts while one runs, and a dash end stops it |
| `Catching.AdultCatchSystem.constructor` | Assets/Scripts/AdultCatchSystem.cs:12-31 | not dashing, dash available, the last dash at -999 |
| `Catching.AdultCatchSystem.TryDashCatch` | Assets/Scripts/AdultCatchSystem.cs:73-87 | a request goes out exactly from the owner, not while dashing, and once the cooldown since the last start is over |
| `Catching.AdultCatchSystem.OnDashPressed` | Assets/Scripts/AdultCatchSystem.cs:73-122 | on a host that owns the adult, the press takes one Press step: the owner-side gate, then the server's check, on the same copy |
| `Catching.AdultCatchSystem.RequestDashServerRpc` | Assets/Scripts/AdultCatchSystem.cs:92-99 | a dash starts exactly when the server's own copy is not dashing; no cooldown is checked |
| `Catching.AdultCatchSystem.PerformDashClientRpc` | Assets/Scripts/AdultCatchSystem.cs:104-122 | a dash starts exactly when none is running: dashing, dash unavailable, last dash now |
| `Catching.AdultCatchSystem.StartDashCoroutine` | Assets/Scripts/AdultCatchSystem.cs:127-131 | dashing, dash unavailable, last dash time now |
| `Catching.AdultCatchSystem.EndDashCoroutine` | Assets/Scripts/AdultCatchSystem.cs:210-215 | the dash ends and a wait for canDash starts |
| `Catching.AdultCatchSystem.ResumeCooldown` | Assets/Scripts/AdultCatchSystem.cs:215-216 | the oldest wait, once over, makes the dash available again |
| `Catching.AdultCatchSystem.CheckForChildrenInRange` | Assets/Scripts/AdultCatchSystem.cs:222-242 | server only: catches the first child-tagged hit that has a manager and is not caught, and no other. That child is caught, drained and paid for. With no such hit, nobody changes and no reward is paid |
| `Catching.AdultCatchSystem.CatchChild` | Assets/Scripts/AdultCatchSystem.cs:247-270 | server only: the child is caught, its candies drained to 0, and the adult gains exactly the reward (10 by default); off the server nothing changes |
| `Catching.AdultCatchSystem.GetDashCooldown` | Assets/Scripts/AdultCatchSystem.cs:310 | never negative, and positive exactly when the owner-side gate refuses for the cooldown; then it is the time left |
| `Doors.RunKeepsConsistent` | Assets/Scripts/NetworkDoor.cs:96-256 | along any sequence of toggles, forces and frames, the door is animating only while an animation is pending |
| `Doors.ToggleFlipsIffAccepted` | Assets/Scripts/NetworkDoor.cs:199-206 | a toggle flips the door exactly when a player is in range and no animation runs; a refused toggle changes nothing |
| `Doors.NoToggleWhileAnimating` | Assets/Scripts/NetworkDoor.cs:190-192 | a toggle right after an accepted one is refused |
| `Doors.ToggleTwiceRestores` | Assets/Scripts/NetworkDoor.cs:205 | two accepted toggles, with the first animation over in between, restore the door |
| `Doors.ForceIdempotent` | Assets/Scripts/NetworkDoor.cs:299-313 | forcing sets the value on the server only, and forcing the same value again changes nothing |
| `Doors.NetworkDoor.constructor` | Assets/Scripts/NetworkDoor.cs:24-25 | closed, not animating, no player in range; an animation lasts 1 / openSpeed |
| `Doors.NetworkDoor.Update` | Assets/Scripts/NetworkDoor.cs:96-102 | the range check is skipped while animating |
| `Doors.NetworkDoor.CheckForNearbyPlayer` | Assets/Scripts/NetworkDoor.cs:107-132 | with a local player, in range exactly when within the interaction distance; without one, unchanged |
| `Doors.NetworkDoor.ToggleDoor` | Assets/Scripts/NetworkDoor.cs:187-196 | the request goes out exactly when the toggle is accepted, and the door takes one Toggle step |
| `Doors.NetworkDoor.ToggleDoorServerRpc` | Assets/Scripts/NetworkDoor.cs:198-206 | the server re-checks range and animation, then flips the door |
| `Doors.NetworkDoor.SetIsOpen` | Assets/Scripts/NetworkDoor.cs:24 | writing the flag starts an animation only when the value changes |
| `Doors.NetworkDoor.OnDoorStateChanged` | Assets/Scripts/NetworkDoor.cs:211-221 | a change starts an animation, whichever way the door turns |
| `Doors.NetworkDoor.StartAnimateDoor` | Assets/Scripts/NetworkDoor.cs:226-231 | marks the door animating until now + 1 / openSpeed |
| `Doors.NetworkDoor.ResumeAnimation` | Assets/Scripts/NetworkDoor.cs:232-256 | the oldest animation, once over, clears the mark |
| `Doors.NetworkDoor.ForceOpen` | Assets/Scripts/NetworkDoor.cs:299-305 | on the server the door ends open |
| `Doors.NetworkDoor.ForceClose` | Assets/Scripts/NetworkDoor.cs:307-313 | on the server the door ends closed |
| `Candy.StartConsistent` | Assets/Scripts/CandySpawner.cs:24-30 | Start holds a candy exactly when the prefab and spawn point are set, and the spawner invariant holds |
| `Candy.RunKeepsConsistent` | Assets/Scripts/CandySpawner.cs:32-83 | along any frames and respawns, the live candy objects are the one held, at most one cooldown is pending, and never both a candy and a cooldown |
| `Candy.AtMostOneCandy` | Assets/Scripts/CandySpawner.cs:57-76 | at any time after Start at most one candy object exists |
| `Candy.CollectIff` | Assets/Scripts/CandySpawner.cs:32-55 | a frame collects exactly when there is no cooldown, a candy and a camera, and the player aims and presses; the candy goes and the cooldown starts |
| `Candy.RespawnAfterCooldown` | Assets/Scripts/CandySpawner.cs:78-83 | after a collection and a full cooldown the spawner holds a candy again and is off cooldown |
| `Candy.FailedRespawnStaysOnCooldown` | Assets/Scripts/CandySpawner.cs:57-61 | without a prefab or spawn point a respawn leaves the spawner empty and on cooldown for good |
| `Candy.CandySpawner.constructor` | Assets/Scripts/CandySpawner.cs:20-21 | no candy and no cooldown |
| `Candy.CandySpawner.Start` | Assets/Scripts/CandySpawner.cs:24-30 | the camera is recorded and the first spawn is taken; the respawn queue and the destroyed count are untouched |
| `Candy.CandySpawner.Update` | Assets/Scripts/CandySpawner.cs:32-55 | one frame of the collection gate; the camera check is kept for the next frame |
| `Candy.CandySpawner.SpawnCandy` | Assets/Scripts/CandySpawner.cs:57-66 | a candy appears and the cooldown ends only when the prefab and spawn point are set |
| `Candy.CandySpawner.CollectCandy` | Assets/Scripts/CandySpawner.cs:68-76 | with a candy, destroys it and starts the cooldown; without one, nothing |
| `Candy.CandySpawner.StartRespawnCooldown` | Assets/Scripts/CandySpawner.cs:78-81 | on cooldown until now + respawnCooldown |
| `Candy.CandySpawner.ResumeRespawn` | Assets/Scripts/CandySpawner.cs:81-82 | the oldest cooldown, once over, spawns a candy |
| `Hud.GetPhaseText` | Assets/Scripts/HUDManager.cs:155-172 | the text is "Unknown" exactly for a state the HUD does not name |
| `Hud.PhaseTextIdentifiesPhase` | Assets/Scripts/HUDManager.cs:155-172 | "Unknown" exactly for unnamed states, and each named state has its own text |
| `Hud.Digits` | Assets/Scripts/HUDManager.cs:187 | a non-empty digit string, one digit exactly below 10 |
| `Hud.DecimalRoundTrip` | Assets/Scripts/HUDManager.cs:187 | the digits of n read back as n |
| `Hud.Pad2` | Assets/Scripts/HUDManager.cs:187 | the {0:00} field: digits only, at least two, exactly two below 100 |
| `Hud.Pad2RoundTrip` | Assets/Scripts/HUDManager.cs:187 | the zero-padded field reads back as the number |
| `Hud.ClockFields` | Assets/Scripts/HUDManager.cs:181-182 | for a positive time, the floored minutes and the floored remainder: seconds below 60, and together the whole seconds of the time |
| `Hud.FormatTime` | Assets/Scripts/HUDManager.cs:174-191 | "00:00" once the time is up, and the red tag exactly when 0 < t <= 30, tested on the unrounded time |
| `Hud.FormatTimeRoundTrip` | Assets/Scripts/HUDManager.cs:181-190 | for t > 0 the shown minutes and two-digit seconds (below 60) read back as the whole seconds of t |
| `Hud.FormatTimeEdges` | Assets/Scripts/HUDManager.cs:176-190 | half a second left shows a red 00:00; 30.5 seconds left shows 00:30 without the tag |
| `Game.GameManager.constructor` | Assets/Scripts/GameManager.cs:13 | no player data yet |
| `Game.SpawnRunRecordsUnspawned` | Assets/Scripts/GameManager.cs:46-54 | the spawns folded over the clients record exactly the clients without a player object, in order, when the prefab has a network object, and nobody otherwise |
| `Game.GameManager.OnNetworkSpawn` | Assets/Scripts/GameManager.cs:28-55 | on the server, the spawns and the available list are those of the spawner's draws folded over the clients without a player object, in connection order: earlier spawns are kept, exactly those clients are recorded when the prefab has a network object and nobody otherwise; off the server nothing changes |
| `Game.GameManager.SpawnMissingPlayers` | Assets/Scripts/GameManager.cs:46-54 | the loop: the spawns appended and the available list left are the fold of the spawner's draws over the clients |
| `Game.GameManager.OnClientConnected` | Assets/Scripts/GameManager.cs:76-91 | a player is spawned exactly on the server for a client without one |
| `Game.GameManager.OnClientDisconnected` | Assets/Scripts/GameManager.cs:93-107 | on the server only that client's record is dropped, every other record is unchanged, and every spawn point is available again |
| `Game.GameManager.RegisterPlayerData` | Assets/Scripts/GameManager.cs:110-116 | server only: afterwards the record is the one registered, replacing any earlier one; other clients' records are unchanged |
| `Game.GameManager.GetPlayerData` | Assets/Scripts/GameManager.cs:119-126 | the stored record, or nothing exactly when the client is unknown |
| `Game5.RegisterEntry` | Assets/Scripts/Auth/Tmp/GameManager5.cs:62-74 | an unknown key gets a fresh record (origin, health 100, attack 5) and the rest is kept; a known key leaves the map as it was |
| `Game5.RegisterIdempotent` | Assets/Scripts/Auth/Tmp/GameManager5.cs:62-74 | registering a key a second time changes nothing; the record stays the first one |
| `Game5.GameManager5.constructor` | Assets/Scripts/Auth/Tmp/GameManager5.cs:11 | no records and no spawns |
| `Game5.GameManager5.RegisterPlayerServerRpc` | Assets/Scripts/Auth/Tmp/GameManager5.cs:59-75 | get-or-create the record, then spawn the player with the stored record |
| `Game5.GameManager5.SpawnPlayerServer` | Assets/Scripts/Auth/Tmp/GameManager5.cs:77-85 | a player is recorded on the server only |

Plain field getters are functions that return their field and are used in
the contracts above, so they have no row of their own:
`GetCoins`, `IsPreparationPhase`, `IsInventoryFull`, `GetCandyCount`,
`GetMaxCandies`, `IsCandyFull`, `IsCaught`, `ChildrenAbility.CanMove`,
`ChildrenAbility.GetSpeedMultiplier`, `TrapBase.IsTriggered`, `IsDashing`,
`AdultCatchSystem.CanDash`,
`IsOpen`, `IsAnimating` and `HasFinishedEarlier`.

## Left out

- Adult.AdultManager.AddCoins: does not model the 32-bit wrap-around of the source's `int` counter. Coins are unbounded integers, because no modelled amount comes near the limit.
- Adult.AdultManager.AddCoinsServerRpc: the same unbounded addition, without the wrap-around.
- Adult.AdultManager.RemoveCoins: `coins - amount` is unbounded, so a negative amount near the 32-bit limit does not wrap before the clamp at 0 as the source's `int` subtraction would.
- Adult.AdultManager.RemoveCoinsServerRpc: the same unbounded subtraction, without the wrap-around.
- The candy counters need no wrap-around: `AddCandy` increments only below `maxCandies` and `RemoveCandy` decrements only above 0, so the counter stays between 0 and an `int` limit.
- Catching.DashesAreSpaced: proves the spacing only for one copy of the dash state, the case of a host that owns the adult. With a remote owner the server's dashes need not be spaced (`Catching.RemoteOwnerDashesNotSpaced`).
- Catching.AdultCatchSystem.OnDashPressed: runs the owner's gate and the server's check on one copy, which is the host-owned case only; the remote-owner case is the value-level `NetStep`.
- Floats are exact `real`s. Times, multipliers and distances carry no rounding, so a time whose float division or remainder would round across a whole second is formatted from the exact value.
- Lobby, relay, authentication and cloud save are not modelled. They are asynchronous network-service clients.
- Movement, physics, camera and input are not modelled, nor is the dash trajectory with its raycasts. The end of the dash movement is an explicit event (`EndDashCoroutine`), and the overlap test is the given list of hits.
- Replication, ClientRpc visuals and teleport handlers are left out: networked variables are plain fields, and a teleport is an order in a list. So are the door's rotation lerp, the interaction prompt and text, highlighting, audio, UI, editor tooling and procedural generation.
- The root-level trap files are superseded by the versions under `Trap/` and reuse their class names, so only the `Trap/` versions are modelled. The scratch copies `Auth/Tmp/GameManager.cs` and `Auth/Tmp/Player.cs` are also not modelled.
- The round loop, phase timers, team assignment and reward computation are not part of the source. The game-state enumeration the HUD switches on is not defined there either, so `Hud.GameState` has the five named states plus `Other`.
- `PlayerData_tmp` is not part of this model. Its fields (client id, position, health, attack) come from how `GameManager5` builds it.
- A Unity-destroyed object reads as null. The model represents it only as a missing (null) reference. The component links of a child's player object (its manager in the traps and the catch) and the adult controller's manager in the shop are modelled as links that may be null. The round manager's players are their managers, so there a player object always has its manager and its network object.
- Rounds.RoundManager.TeleportPlayersToSpawnPoints: every player object is assumed to carry a network object, so the guards that skip a player without one are not modelled.
- Rounds.RoundManager.StartPreparationPhase: every non-null player object is assumed to carry its manager; the source would throw on one without it when setting the phase flags.
- Rounds.RoundManager.StartGamePhase: the same assumption that every non-null player object carries its manager.
- Rounds.RoundManager.AdultHasWon: the same assumption; the source would throw on a child object without a manager.
- Spawning.NetworkPlayerSpawner.GetSpawnPosition: the spawn points are transforms that are never null; the source would throw on a null entry when reading its position.
- Spawning.NetworkPlayerSpawner.GetSpawnRotation: the same assumption; the source would throw on a null entry when reading its rotation.
- Game.GameManager.OnNetworkSpawn: calls the spawner's `SpawnPlayerForClient`, which is private in Assets/Scripts/NetworkPlayerSpawner.cs:59, so the call as written does not compile; the model lets the game manager call it.
- Game.GameManager.OnClientConnected: the same call to the private `SpawnPlayerForClient`.
- Game.GameManager.OnClientDisconnected: calls the spawner's `ResetSpawnPoints`, which is private in Assets/Scripts/NetworkPlayerSpawner.cs:130; the model lets the game manager call it.
- The round's duration getters and `SetCandySpawnPoint` are setters and getters of values the modelled rules never read, so they are not modelled.
- Rounds.RoundManager.StartPreparationPhase and Rounds.RoundManager.StartGamePhase require a child list on the server. The source would throw on a null list there.
- Doors.NetworkDoor.constructor: requires a positive opening speed. The animation lasts 1 / openSpeed, which the source never guards.
- Doors.NetworkDoor.ToggleDoorServerRpc: the server re-checks the range flag of the one modelled door object, the same flag the requesting peer checked. The per-peer copies of that flag are not modelled.
- The random index of a spawn draw is a parameter (`roll`) reduced modulo the available range. The draw's distribution is not modelled.
- Spawning.NetworkPlayerSpawner.SpawnPlayerForClient: the instance destroyed when the prefab has no network object is simply not recorded. The positions and rotations are transforms, not vectors.
