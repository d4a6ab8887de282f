/** A single-candy spawner on the local peer: it shows one candy; looking
    at it and pressing the key collects it, which starts a cooldown after
    which a new candy appears. The candy objects the spawner creates and
    destroys are counted, so that "one candy at a time" can be stated. */
module Candy {
  const DefaultRespawnCooldown: real := 10.0

  /** currentCandy: the spawner holds a candy; pendingRespawn: the waits of
      the running cooldown coroutines; instantiated / destroyed: candy
      objects created and destroyed so far. */
  datatype CandyState = CandyState(
    currentCandy: bool,
    isOnCooldown: bool,
    pendingRespawn: seq<real>,
    instantiated: nat,
    destroyed: nat)

  const NoCandy := CandyState(false, false, [], 0, 0)

  /** The inspector settings: a spawn needs both the prefab and the spawn
      point. */
  datatype CandyConfig = CandyConfig(hasPrefab: bool, hasSpawnPoint: bool, respawnCooldown: real)

  predicate CanSpawn(config: CandyConfig)
  {
    config.hasPrefab && config.hasSpawnPoint
  }

  function Spawn(config: CandyConfig, s: CandyState): CandyState
  {
    if !CanSpawn(config) then s
    else s.(currentCandy := true, isOnCooldown := false, instantiated := s.instantiated + 1)
  }

  /** Start: the first spawn. */
  function Started(config: CandyConfig): CandyState
  {
    Spawn(config, NoCandy)
  }

  function Collect(config: CandyConfig, s: CandyState, now: real): CandyState
  {
    if !s.currentCandy then s
    else s.(currentCandy := false, destroyed := s.destroyed + 1,
            isOnCooldown := true, pendingRespawn := s.pendingRespawn + [now + config.respawnCooldown])
  }

  /** The collection gate of Update: no cooldown, a candy, a camera. */
  predicate MayCollect(s: CandyState, hasCamera: bool)
  {
    !s.isOnCooldown && s.currentCandy && hasCamera
  }

  /** Update: collect when the gate is open and the player looks at the
      candy and presses the key. */
  function UpdateStep(config: CandyConfig, s: CandyState, hasCamera: bool, aimed: bool, pressed: bool, now: real): CandyState
  {
    if !MayCollect(s, hasCamera) then s
    else if aimed && pressed then Collect(config, s, now)
    else s
  }

  /** The oldest cooldown coroutine resumes once its wait is over and
      spawns a candy (which may fail, leaving the cooldown on). */
  function RespawnDue(config: CandyConfig, s: CandyState, now: real): CandyState
  {
    if s.pendingRespawn != [] && s.pendingRespawn[0] <= now
    then Spawn(config, s.(pendingRespawn := s.pendingRespawn[1..]))
    else s
  }

  datatype CandyEvent =
    | Frame(aimed: bool, pressed: bool, at: real)
    | RespawnFrame(at: real)

  function Apply(config: CandyConfig, hasCamera: bool, s: CandyState, e: CandyEvent): CandyState
  {
    match e
    case Frame(aimed, pressed, t) => UpdateStep(config, s, hasCamera, aimed, pressed, t)
    case RespawnFrame(t) => RespawnDue(config, s, t)
  }

  function Run(config: CandyConfig, hasCamera: bool, s: CandyState, events: seq<CandyEvent>): CandyState
    decreases |events|
  {
    if events == [] then s else Run(config, hasCamera, Apply(config, hasCamera, s, events[0]), events[1..])
  }

  /** The live candy objects are exactly the one the spawner holds, at
      most one cooldown is pending and only while there is no candy, and
      a cooldown never coexists with a candy. */
  ghost predicate Consistent(s: CandyState)
  {
    && s.instantiated == s.destroyed + (if s.currentCandy then 1 else 0)
    && |s.pendingRespawn| <= 1
    && (s.pendingRespawn != [] ==> s.isOnCooldown)
    && (s.isOnCooldown ==> !s.currentCandy)
  }

  lemma StartConsistent(config: CandyConfig)
    ensures Consistent(Started(config))
    ensures Started(config).currentCandy <==> CanSpawn(config)
  {
  }

  lemma {:induction false} RunKeepsConsistent(config: CandyConfig, hasCamera: bool, s: CandyState, events: seq<CandyEvent>)
    requires Consistent(s)
    ensures Consistent(Run(config, hasCamera, s, events))
    decreases |events|
  {
    if events != [] {
      RunKeepsConsistent(config, hasCamera, Apply(config, hasCamera, s, events[0]), events[1..]);
    }
  }

  /** At most one candy object exists at any time after Start. */
  lemma AtMostOneCandy(config: CandyConfig, hasCamera: bool, events: seq<CandyEvent>)
    ensures var s := Run(config, hasCamera, Started(config), events);
      s.instantiated - s.destroyed <= 1 && s.destroyed <= s.instantiated
  {
    StartConsistent(config);
    RunKeepsConsistent(config, hasCamera, Started(config), events);
  }

  /** A collection happens exactly when the gate is open and the player
      aims and presses; it removes the candy and starts the cooldown. */
  lemma CollectIff(config: CandyConfig, s: CandyState, hasCamera: bool, aimed: bool, pressed: bool, now: real)
    ensures var s1 := UpdateStep(config, s, hasCamera, aimed, pressed, now);
      && (s1 != s <==> MayCollect(s, hasCamera) && aimed && pressed)
      && (s1 != s ==> !s1.currentCandy && s1.isOnCooldown && s1.pendingRespawn == s.pendingRespawn + [now + config.respawnCooldown])
  {
  }

  /** After a collection and a full cooldown, a spawner that can spawn
      holds a candy again and is off cooldown. */
  lemma RespawnAfterCooldown(config: CandyConfig, s: CandyState, hasCamera: bool, t1: real, t2: real)
    requires Consistent(s) && MayCollect(s, hasCamera) && CanSpawn(config)
    requires t2 >= t1 + config.respawnCooldown
    ensures var s2 := RespawnDue(config, UpdateStep(config, s, hasCamera, true, true, t1), t2);
      s2.currentCandy && !s2.isOnCooldown && s2.pendingRespawn == []
  {
  }

  /** Without a prefab or spawn point, a respawn leaves the spawner empty
      and on cooldown for good. */
  lemma FailedRespawnStaysOnCooldown(config: CandyConfig, s: CandyState, now: real)
    requires !CanSpawn(config) && Consistent(s) && s.pendingRespawn != [] && s.pendingRespawn[0] <= now
    ensures var s1 := RespawnDue(config, s, now);
      !s1.currentCandy && s1.isOnCooldown && s1.pendingRespawn == []
  {
  }

  class CandySpawner {
    const config: CandyConfig
    var hasCamera: bool
    var currentCandy: bool
    var isOnCooldown: bool
    var pendingRespawn: seq<real>
    var instantiated: nat
    var destroyed: nat

    function State(): CandyState
      reads this
    {
      CandyState(currentCandy, isOnCooldown, pendingRespawn, instantiated, destroyed)
    }

    constructor (config: CandyConfig)
      ensures this.config == config && State() == NoCandy && !hasCamera
    {
      this.config := config;
      hasCamera := false;
      currentCandy := false;
      isOnCooldown := false;
      pendingRespawn := [];
      instantiated := 0;
      destroyed := 0;
    }

    /** `hasCamera`: whether a main camera exists at start. */
    method Start(hasCamera: bool)
      modifies this`hasCamera, this`currentCandy, this`isOnCooldown, this`instantiated
      ensures this.hasCamera == hasCamera
      ensures old(State()) == NoCandy ==> State() == Started(config)
      ensures State() == Spawn(config, old(State()))
    {
      this.hasCamera := hasCamera;
      SpawnCandy();
    }

    /** `aimed`: the look ray hits the current candy within reach;
        `pressed`: the interact key went down this frame. */
    method Update(aimed: bool, pressed: bool, now: real)
      modifies this`currentCandy, this`destroyed, this`isOnCooldown, this`pendingRespawn
      ensures hasCamera == old(hasCamera)
      ensures State() == UpdateStep(config, old(State()), hasCamera, aimed, pressed, now)
    {
      if isOnCooldown || !currentCandy || !hasCamera {
        return;
      }
      if aimed && pressed {
        CollectCandy(now);
      }
    }

    method SpawnCandy()
      modifies this`currentCandy, this`isOnCooldown, this`instantiated
      ensures State() == Spawn(config, old(State()))
    {
      if !config.hasPrefab || !config.hasSpawnPoint {
        return;
      }
      currentCandy := true;
      instantiated := instantiated + 1;
      isOnCooldown := false;
    }

    method CollectCandy(now: real)
      modifies this`currentCandy, this`destroyed, this`isOnCooldown, this`pendingRespawn
      ensures State() == Collect(config, old(State()), now)
    {
      if currentCandy {
        destroyed := destroyed + 1;
        currentCandy := false;
        StartRespawnCooldown(now);
      }
    }

    /** CandyRespawnCooldown up to its wait. */
    method StartRespawnCooldown(now: real)
      modifies this`isOnCooldown, this`pendingRespawn
      ensures isOnCooldown && pendingRespawn == old(pendingRespawn) + [now + config.respawnCooldown]
    {
      isOnCooldown := true;
      pendingRespawn := pendingRespawn + [now + config.respawnCooldown];
    }

    /** The rest of the oldest CandyRespawnCooldown, once its wait is over. */
    method ResumeRespawn(now: real)
      modifies this`currentCandy, this`isOnCooldown, this`instantiated, this`pendingRespawn
      ensures State() == RespawnDue(config, old(State()), now)
    {
      if pendingRespawn != [] && pendingRespawn[0] <= now {
        pendingRespawn := pendingRespawn[1..];
        SpawnCandy();
      }
    }
  }
}
