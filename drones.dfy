/** Drones: enemies that enter at a screen edge, fire radial bursts and are removed
    when they leave the screen, touch a black hole, grow too old or finish dying. */
module Drones {
  import opened Common
  import opened Sprites
  import opened Torpedoes

  const Speed: real := 8.0
  const Jitter: real := 3.0
  const Drag: real := 0.1
  /** Seconds after spawning at which a drone is removed. */
  const MaxAge: real := 10.0
  /** Seconds between two bursts. */
  const FireInterval: real := 1.5
  /** Seconds the death image is shown before the drone is removed. */
  const DeathLinger: real := 0.5
  /** `np.arange(0, 7) * 45`: seven torpedoes, at 0, 45, ..., 270 degrees. */
  const BurstSize: nat := 7
  const BurstAngleStep: real := 45.0
  const BurstSpeed: int := 10

  /** The random choices of the Drone constructor: a left/right edge (sideEdge) or a
      top/bottom one, the far edge of the two or the near one, the coordinate along the
      edge, and the sign of the sideways velocity. */
  datatype SpawnDraw = SpawnDraw(sideEdge: bool, farEdge: bool, along: int, jitterPositive: bool)

  function SpawnPosition(screen: (int, int), draw: SpawnDraw): (p: (int, int))
    ensures draw.sideEdge ==> (p.0 == 0 || p.0 == screen.0) && p.1 == draw.along
    ensures !draw.sideEdge ==> (p.1 == 0 || p.1 == screen.1) && p.0 == draw.along
  {
    if draw.sideEdge then (if draw.farEdge then screen.0 else 0, draw.along)
    else (draw.along, if draw.farEdge then screen.1 else 0)
  }

  /** random.randrange(0, dimension) along the chosen edge: the far end excluded. */
  predicate SpawnDrawFits(screen: (int, int), draw: SpawnDraw)
  {
    0 <= draw.along < (if draw.sideEdge then screen.1 else screen.0)
  }

  /** The spawn velocity: speed 8 across the chosen edge and 3 either way along it. */
  function SpawnVelocity(screen: (int, int), draw: SpawnDraw): (v: (real, real))
    ensures draw.sideEdge ==> (v.0 == Speed || v.0 == -Speed) && (v.1 == Jitter || v.1 == -Jitter)
    ensures !draw.sideEdge ==> (v.1 == Speed || v.1 == -Speed) && (v.0 == Jitter || v.0 == -Jitter)
  {
    var pos := SpawnPosition(screen, draw);
    var jitter := if draw.jitterPositive then Jitter else -Jitter;
    if draw.sideEdge then (Speed * (if pos.0 == 0 then 1.0 else -1.0), jitter)
    else (jitter, Speed * (if pos.1 == 0 then 1.0 else -1.0))
  }

  /** A drone starts on an edge and heads into the screen at speed 8 across that edge,
      with a sideways speed of 3. */
  lemma SpawnHeadsInward(screen: (int, int), draw: SpawnDraw)
    requires screen.0 > 0 && screen.1 > 0
    ensures var p, v := SpawnPosition(screen, draw), SpawnVelocity(screen, draw);
      (draw.sideEdge ==> (p.0 == 0 ==> v.0 == Speed) && (p.0 == screen.0 ==> v.0 == -Speed) &&
                         (v.1 == Jitter || v.1 == -Jitter)) &&
      (!draw.sideEdge ==> (p.1 == 0 ==> v.1 == Speed) && (p.1 == screen.1 ==> v.1 == -Speed) &&
                          (v.0 == Jitter || v.0 == -Jitter))
  {
  }

  /** What one update does with a drone, after it has moved. */
  datatype Action = Remove | FireBurst | Keep

  /** The ordered checks of Drone.update: off the screen, touching a black hole, too old,
      due to fire while alive, finished dying. */
  function Decide(outOfBounds: bool, touchesHole: bool, now: real, initTime: real,
                  lastFired: real, deathTime: Option<real>): (r: Action)
    ensures outOfBounds || touchesHole || now > initTime + MaxAge ==> r == Remove
    ensures r == FireBurst ==> deathTime.None? && now > lastFired + FireInterval
  {
    if outOfBounds then Remove
    else if touchesHole then Remove
    else if now > initTime + MaxAge then Remove
    else if now > lastFired + FireInterval && deathTime.None? then FireBurst
    else if Truthy(deathTime) && now > deathTime.value + DeathLinger then Remove
    else Keep
  }

  /** A dying drone never fires. It is removed once its death image has been shown for more
      than half a second, and until then it stays while on screen, clear of black holes and
      at most 10 seconds old. */
  lemma DyingDroneNeverFires(outOfBounds: bool, touchesHole: bool, now: real, initTime: real,
                             lastFired: real, deathTime: Option<real>)
    requires Truthy(deathTime)
    ensures Decide(outOfBounds, touchesHole, now, initTime, lastFired, deathTime) != FireBurst
    ensures now > deathTime.value + DeathLinger ==>
      Decide(outOfBounds, touchesHole, now, initTime, lastFired, deathTime) == Remove
    ensures !outOfBounds && !touchesHole && now <= initTime + MaxAge && now <= deathTime.value + DeathLinger ==>
      Decide(outOfBounds, touchesHole, now, initTime, lastFired, deathTime) == Keep
  {
  }

  /** A live drone on the screen and clear of black holes fires exactly when it is at most
      10 seconds old and more than 1.5 seconds have passed since its last burst; otherwise it
      is kept. */
  lemma LiveDroneFiresOnSchedule(now: real, initTime: real, lastFired: real)
    ensures var r := Decide(false, false, now, initTime, lastFired, None);
      (r == FireBurst <==> now <= initTime + MaxAge && now > lastFired + FireInterval) &&
      (r == Remove <==> now > initTime + MaxAge)
  {
  }

  /** Inclusive bounds [0, W] x [0, H]: a drone on the edge is still on the screen. */
  function InBounds(p: (int, int), screen: (int, int)): (r: bool)
    ensures screen.0 >= 0 && screen.1 >= 0 && (p == (0, 0) || p == screen) ==> r
    ensures r ==> screen.0 >= 0 && screen.1 >= 0
  {
    0 <= p.0 <= screen.0 && 0 <= p.1 <= screen.1
  }

  /** A drone spawned from draws randrange can return starts inside the bounds, on its edge. */
  lemma SpawnInBounds(screen: (int, int), draw: SpawnDraw)
    requires screen.0 >= 0 && screen.1 >= 0 && SpawnDrawFits(screen, draw)
    ensures InBounds(SpawnPosition(screen, draw), screen)
  {
  }

  datatype DroneImage = Plain | Wreck(angle: real)

  class Drone {
    const screen: (int, int)
    const enemyTorpedoGroup: Group<Torpedo>
    const initTime: real
    var center: (int, int)
    var velocity: (real, real)
    var lastFiredTime: real
    var deathTime: Option<real>
    var image: DroneImage

    /** Drone(screen_shape, ..., enemy_torpedo_group, ...) spawned at time now. */
    constructor (screen: (int, int), enemyTorpedoGroup: Group<Torpedo>, draw: SpawnDraw, now: real)
      requires SpawnDrawFits(screen, draw)
      ensures this.screen == screen && this.enemyTorpedoGroup == enemyTorpedoGroup
      ensures center == SpawnPosition(screen, draw) && velocity == SpawnVelocity(screen, draw)
      ensures initTime == now && lastFiredTime == now && deathTime == None && image == Plain
    {
      this.screen := screen;
      this.enemyTorpedoGroup := enemyTorpedoGroup;
      center := SpawnPosition(screen, draw);
      velocity := SpawnVelocity(screen, draw);
      initTime := now;
      lastFiredTime := now;
      deathTime := None;
      image := Plain;
    }

    /** Drone.update at time now, given the pull of the black holes and whether the drone
        overlaps one. Returns whether the drone kills itself. */
    method Update(now: real, gravity: (real, real), touchesHole: bool) returns (killed: bool)
      requires enemyTorpedoGroup.Valid()
      modifies this`center, this`velocity, this`lastFiredTime, enemyTorpedoGroup
      ensures enemyTorpedoGroup.Valid()
      ensures velocity == ((old(velocity).0 + gravity.0) * (1.0 - Drag), (old(velocity).1 + gravity.1) * (1.0 - Drag))
      ensures center == (Ceil(old(center).0 as real + velocity.0), Ceil(old(center).1 as real + velocity.1))
      ensures var action := Decide(!InBounds(center, screen), touchesHole, now, initTime, old(lastFiredTime), deathTime);
        killed == (action == Remove) &&
        (action == FireBurst ==> lastFiredTime == now) &&
        (action != FireBurst ==> lastFiredTime == old(lastFiredTime) &&
                                 enemyTorpedoGroup.sprites == old(enemyTorpedoGroup.sprites))
      ensures var n := |old(enemyTorpedoGroup.sprites)|;
        Decide(!InBounds(center, screen), touchesHole, now, initTime, old(lastFiredTime), deathTime) == FireBurst ==>
        |enemyTorpedoGroup.sprites| == n + BurstSize &&
        enemyTorpedoGroup.sprites[..n] == old(enemyTorpedoGroup.sprites) &&
        var burst := enemyTorpedoGroup.sprites[n..];
        forall k :: 0 <= k < |burst| ==>
          fresh(burst[k]) &&
          burst[k].center == center &&
          burst[k].angle == BurstAngleStep * k as real &&
          burst[k].speed == BurstSpeed
    {
      velocity := ((velocity.0 + gravity.0) * (1.0 - Drag), (velocity.1 + gravity.1) * (1.0 - Drag));
      center := (Ceil(center.0 as real + velocity.0), Ceil(center.1 as real + velocity.1));
      killed := false;
      if !(0 <= center.0 <= screen.0) || !(0 <= center.1 <= screen.1) {
        killed := true;
      } else if touchesHole {
        killed := true;
      } else if now > initTime + MaxAge {
        killed := true;
      } else if now > lastFiredTime + FireInterval && deathTime.None? {
        FireRadialBurst();
        lastFiredTime := now;
      } else if Truthy(deathTime) {
        if now > deathTime.value + DeathLinger {
          killed := true;
        }
      }
    }

    /** Adds seven torpedoes, at 0, 45, ..., 270 degrees, to the enemy torpedo group. */
    method FireRadialBurst()
      requires enemyTorpedoGroup.Valid()
      modifies enemyTorpedoGroup
      ensures enemyTorpedoGroup.Valid()
      ensures var n := |old(enemyTorpedoGroup.sprites)|;
        |enemyTorpedoGroup.sprites| == n + BurstSize &&
        enemyTorpedoGroup.sprites[..n] == old(enemyTorpedoGroup.sprites) &&
        var burst := enemyTorpedoGroup.sprites[n..];
        forall k :: 0 <= k < |burst| ==>
          fresh(burst[k]) &&
          burst[k].center == center &&
          burst[k].angle == BurstAngleStep * k as real &&
          burst[k].speed == BurstSpeed
    {
      ghost var n := |enemyTorpedoGroup.sprites|;
      var k := 0;
      while k < BurstSize
        invariant 0 <= k <= BurstSize
        invariant enemyTorpedoGroup.Valid()
        invariant |enemyTorpedoGroup.sprites| == n + k
        invariant enemyTorpedoGroup.sprites[..n] == old(enemyTorpedoGroup.sprites)
        invariant var burst := enemyTorpedoGroup.sprites[n..];
          forall j :: 0 <= j < |burst| ==>
          fresh(burst[j]) &&
          burst[j].center == center &&
          burst[j].angle == BurstAngleStep * j as real &&
          burst[j].speed == BurstSpeed
      {
        ghost var before := enemyTorpedoGroup.sprites;
        var t := new Torpedo(center, BurstAngleStep * k as real, BurstSpeed);
        enemyTorpedoGroup.Add(t);
        assert enemyTorpedoGroup.sprites == before + [t];
        assert enemyTorpedoGroup.sprites[n..] == before[n..] + [t];
        k := k + 1;
      }
    }

    /** Drone.destroy: the first hit records the time of death and shows the wreck. */
    method Destroy(angle: real, now: real)
      modifies this`deathTime, this`image
      ensures deathTime == MarkDestroyed(old(deathTime), now)
      ensures image == if old(deathTime).None? then Wreck(angle) else old(image)
    {
      if deathTime.None? {
        image := Wreck(angle);
        deathTime := Some(now);
      }
    }
  }

  /** ds are drones spawned from draws on this screen at time now, each in its initial state. */
  ghost predicate SpawnedAt(ds: seq<Drone>, draws: seq<SpawnDraw>, screen: (int, int),
                            group: Group<Torpedo>, now: real)
    reads ds
  {
    |ds| == |draws| &&
    forall k :: 0 <= k < |ds| ==>
      ds[k].screen == screen && ds[k].enemyTorpedoGroup == group &&
      ds[k].center == SpawnPosition(screen, draws[k]) && ds[k].velocity == SpawnVelocity(screen, draws[k]) &&
      ds[k].initTime == now && ds[k].lastFiredTime == now && ds[k].deathTime == None && ds[k].image == Plain
  }
}
