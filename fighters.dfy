/** The player's fighter: which way it faces, how it is kept on the screen, and its
    death and reset states. */
module Fighters {
  import opened Common
  import opened Sprites
  import opened Torpedoes

  /** The eight compass directions, named as the fighter's sprites are. */
  datatype Direction = Right | DownRight | Down | DownLeft | Left | UpLeft | Up | UpRight

  /** The angle, in degrees, the fighter thrusts in when facing d (y grows downwards). */
  function AngleDegrees(d: Direction): real
  {
    match d
    case Right => 0.0
    case DownRight => 45.0
    case Down => 90.0
    case DownLeft => 135.0
    case Left => 180.0
    case UpLeft => 225.0
    case Up => 270.0
    case UpRight => 315.0
  }

  datatype Key = W | A | S | D

  /** A snapshot of the four movement keys. */
  datatype Keys = Keys(w: bool, a: bool, s: bool, d: bool)

  function Held(keys: Keys): set<Key>
  {
    (if keys.w then {W} else {}) + (if keys.a then {A} else {}) +
    (if keys.s then {S} else {}) + (if keys.d then {D} else {})
  }

  predicate AnyHeld(keys: Keys)
  {
    keys.w || keys.a || keys.s || keys.d
  }

  /** The keys that point the fighter in direction d. */
  function Components(d: Direction): set<Key>
  {
    match d
    case Right => {D}
    case DownRight => {D, S}
    case Down => {S}
    case DownLeft => {S, A}
    case Left => {A}
    case UpLeft => {A, W}
    case Up => {W}
    case UpRight => {W, D}
  }

  /** `_update_direction`: the direction chosen from the held keys, or the current one. */
  function DirectionFor(keys: Keys, current: Direction): (r: Direction)
    ensures !AnyHeld(keys) ==> r == current
    ensures AnyHeld(keys) ==> Components(r) <= Held(keys)
  {
    if keys.w && keys.d then UpRight
    else if keys.d && keys.s then DownRight
    else if keys.s && keys.a then DownLeft
    else if keys.a && keys.w then UpLeft
    else if keys.w then Up
    else if keys.d then Right
    else if keys.s then Down
    else if keys.a then Left
    else current
  }

  /** The priority order of the key combinations, as an independent table. */
  const Priority: seq<(set<Key>, Direction)> :=
    [({W, D}, UpRight), ({D, S}, DownRight), ({S, A}, DownLeft), ({A, W}, UpLeft),
     ({W}, Up), ({D}, Right), ({S}, Down), ({A}, Left)]

  /** The direction of the first rule, from index i on, whose keys are all held, or current if none is. */
  function FirstMatch(held: set<Key>, rules: seq<(set<Key>, Direction)>, i: nat, current: Direction): Direction
    decreases |rules| - i
  {
    if i >= |rules| then current
    else if rules[i].0 <= held then rules[i].1
    else FirstMatch(held, rules, i + 1, current)
  }

  /** The direction is the first match in the order W+D > D+S > S+A > A+W > W > D > S > A. */
  lemma DirectionFollowsPriority(keys: Keys, current: Direction)
    ensures DirectionFor(keys, current) == FirstMatch(Held(keys), Priority, 0, current)
  {
    var held := Held(keys);
    assert (W in held <==> keys.w) && (A in held <==> keys.a) && (S in held <==> keys.s) && (D in held <==> keys.d);
  }

  predicate IsDiagonal(d: Direction)
  {
    d == DownRight || d == DownLeft || d == UpLeft || d == UpRight
  }

  /** Two adjacent keys held always give a diagonal; with only opposite keys held,
      W beats S and D beats A. */
  lemma DiagonalsWin(keys: Keys, current: Direction)
    ensures (keys.w && keys.d) || (keys.d && keys.s) || (keys.s && keys.a) || (keys.a && keys.w) ==>
              IsDiagonal(DirectionFor(keys, current))
    ensures (keys.w && keys.s && !keys.a && !keys.d) ==> DirectionFor(keys, current) == Up
    ensures (keys.a && keys.d && !keys.w && !keys.s) ==> DirectionFor(keys, current) == Right
  {
  }

  /** One axis of `_move`: the new coordinate and velocity component on an axis of length bound. */
  function MoveAxis(c: int, v: real, bound: int): (r: (int, real))
    ensures bound >= 0 ==> 0 <= r.0 <= bound
    ensures r.1 == v || r.1 == 0.0
  {
    var n := Ceil(c as real + v);
    if n < 0 then (0, 0.0)
    else if n > bound then (bound, if v >= 0.0 then 0.0 else v)
    else (n, v)
  }

  /** What `_move` does on one axis: stay on the screen, move by the rounded-up velocity when
      that stays on it, stop when clamped at 0, and stop at the far edge only if moving outwards. */
  lemma MoveAxisClamps(c: int, v: real, bound: int)
    requires bound >= 0
    ensures var (c', v') := MoveAxis(c, v, bound);
      0 <= c' <= bound &&
      (0 <= Ceil(c as real + v) <= bound ==> c' == Ceil(c as real + v) && v' == v) &&
      (Ceil(c as real + v) < 0 ==> c' == 0 && v' == 0.0) &&
      (Ceil(c as real + v) > bound ==> c' == bound && (v' == 0.0 <==> v >= 0.0) && (v' != 0.0 ==> v' == v))
  {
  }

  /** A velocity component that already stays inside is never changed, and the coordinate
      moves by less than one step beyond the exact position c + v. */
  lemma MoveAxisInside(c: int, v: real, bound: int)
    requires 0.0 <= c as real + v <= bound as real
    ensures MoveAxis(c, v, bound).1 == v
    ensures c as real + v <= MoveAxis(c, v, bound).0 as real < c as real + v + 1.0
  {
  }

  /** The fighter's image: its sprite for a direction, or the death image turned by an angle. */
  datatype FighterImage = Facing(direction: Direction) | Wreck(angle: real)

  /** The time a dead fighter waits before it resets. */
  const ResetDelay: real := 1.0
  /** Drag applied to the velocity every tick. */
  const Drag: real := 0.05

  /** The velocity after `_accelerate`, given the thrust and gravity components. */
  function Accelerated(v: seq<real>, thrust: (real, real), gravity: (real, real)): (r: seq<real>)
    requires |v| == 2
    ensures |r| == 2
    ensures thrust == (0.0, 0.0) && gravity == (0.0, 0.0) ==> r[0] == v[0] * 0.95 && r[1] == v[1] * 0.95
  {
    [(thrust.0 + v[0] + gravity.0) * (1.0 - Drag), (thrust.1 + v[1] + gravity.1) * (1.0 - Drag)]
  }

  /** Both axes of `_move`: the new centre and velocity. */
  function Moved(c: seq<int>, v: seq<real>, screen: seq<int>): (r: (seq<int>, seq<real>))
    requires |c| == 2 && |v| == 2 && |screen| == 2
    ensures |r.0| == 2 && |r.1| == 2
    ensures screen[0] >= 0 && screen[1] >= 0 ==> 0 <= r.0[0] <= screen[0] && 0 <= r.0[1] <= screen[1]
  {
    var x, y := MoveAxis(c[0], v[0], screen[0]), MoveAxis(c[1], v[1], screen[1]);
    ([x.0, y.0], [x.1, y.1])
  }

  /** The thrust `_accelerate` adds: along the facing direction, only while alive and steering. */
  function Thrust(alive: bool, keys: Keys, d: Direction, acceleration: real, trig: real -> (real, real)): (t: (real, real))
    ensures !alive || !AnyHeld(keys) ==> t == (0.0, 0.0)
  {
    if alive && AnyHeld(keys)
    then (trig(AngleDegrees(d)).0 * acceleration, trig(AngleDegrees(d)).1 * acceleration)
    else (0.0, 0.0)
  }

  class Fighter {
    const screen: seq<int>
    const initialPos: seq<int>
    const torpedoGroup: Group<Torpedo>
    const acceleration: real := 1.0
    var center: seq<int>
    var velocity: seq<real>
    var direction: Direction
    var deathTime: Option<real>
    var image: FighterImage

    ghost predicate Valid()
      reads this
    {
      |screen| == 2 && |initialPos| == 2 && |center| == 2 && |velocity| == 2 &&
      screen[0] >= 0 && screen[1] >= 0
    }

    /** The state `reset` restores. */
    ghost predicate AtSpawn()
      reads this
    {
      direction == Right && velocity == [0.0, 0.0] && center == initialPos && deathTime == None
    }

    /** After a run of events: at the spawn point if one of them was an R reset, otherwise
        still at center0 with velocity0, direction0 and deathTime0; the image is image0. */
    ghost predicate ResetTracked(reset: bool, center0: seq<int>, velocity0: seq<real>, direction0: Direction,
                                 deathTime0: Option<real>, image0: FighterImage)
      reads this
    {
      image == image0 && |center0| == 2 &&
      (reset ==> AtSpawn()) &&
      (!reset ==> center == center0 && velocity == velocity0 && direction == direction0 && deathTime == deathTime0)
    }

    /** Fighter(screen_shape, ..., torpedo_group, pos=None): spawns at (100, 100) unless given pos. */
    constructor (screen: seq<int>, torpedoGroup: Group<Torpedo>, pos: Option<(int, int)>)
      requires |screen| == 2 && screen[0] >= 0 && screen[1] >= 0
      ensures Valid() && AtSpawn() && image == Facing(Right)
      ensures this.screen == screen && this.torpedoGroup == torpedoGroup
      ensures initialPos == if pos.None? then [100, 100] else [pos.value.0, pos.value.1]
    {
      this.screen := screen;
      this.torpedoGroup := torpedoGroup;
      initialPos := if pos.None? then [100, 100] else [pos.value.0, pos.value.1];
      new;
      velocity := [0.0, 0.0];
      direction := Right;
      center := initialPos;
      deathTime := None;
      image := Facing(Right);
    }

    method UpdateDirection(keys: Keys)
      modifies this`direction
      ensures direction == DirectionFor(keys, old(direction))
    {
      if keys.w && keys.d {
        direction := UpRight;
      } else if keys.d && keys.s {
        direction := DownRight;
      } else if keys.s && keys.a {
        direction := DownLeft;
      } else if keys.a && keys.w {
        direction := UpLeft;
      } else if keys.w {
        direction := Up;
      } else if keys.d {
        direction := Right;
      } else if keys.s {
        direction := Down;
      } else if keys.a {
        direction := Left;
      }
    }

    /** `_move`: add the velocity, round up, and clamp each axis to the screen. */
    method Move()
      requires Valid()
      modifies this`center, this`velocity
      ensures Valid()
      ensures (center, velocity) == Moved(old(center), old(velocity), screen)
      ensures forall i :: 0 <= i < 2 ==> 0 <= center[i] <= screen[i]
    {
      var newCenter := [Ceil(center[0] as real + velocity[0]), Ceil(center[1] as real + velocity[1])];
      for i := 0 to 2
        invariant |newCenter| == 2 && |velocity| == 2
        invariant forall j :: 0 <= j < i ==>
          (newCenter[j], velocity[j]) == MoveAxis(old(center[j]), old(velocity[j]), screen[j])
        invariant forall j :: i <= j < 2 ==>
          newCenter[j] == Ceil(old(center[j]) as real + old(velocity[j])) && velocity[j] == old(velocity[j])
      {
        if newCenter[i] < 0 {
          newCenter := newCenter[i := 0];
          if velocity[i] <= 0.0 {
            velocity := velocity[i := 0.0];
          }
          velocity := velocity[i := 0.0];
        } else if newCenter[i] > screen[i] {
          newCenter := newCenter[i := screen[i]];
          if velocity[i] >= 0.0 {
            velocity := velocity[i := 0.0];
          }
        }
      }
      center := newCenter;
      MoveAxisClamps(old(center[0]), old(velocity[0]), screen[0]);
      MoveAxisClamps(old(center[1]), old(velocity[1]), screen[1]);
      assert center == [center[0], center[1]] && velocity == [velocity[0], velocity[1]];
    }

    /** `_accelerate`: thrust along the facing direction while alive and a key is held, then
        gravity, then drag. trig gives (cos, sin) of an angle in degrees. */
    method Accelerate(keys: Keys, gravity: (real, real), trig: real -> (real, real))
      requires Valid()
      modifies this`velocity
      ensures Valid()
      ensures velocity == Accelerated(old(velocity), Thrust(deathTime.None?, keys, direction, acceleration, trig), gravity)
    {
      ghost var thrust := Thrust(deathTime.None?, keys, direction, acceleration, trig);
      ghost var v0 := velocity;
      if deathTime.None? && AnyHeld(keys) {
        var cs := trig(AngleDegrees(direction));
        velocity := [cs.0 * acceleration + velocity[0], cs.1 * acceleration + velocity[1]];
      }
      assert velocity[0] == thrust.0 + v0[0] && velocity[1] == thrust.1 + v0[1];
      velocity := [velocity[0] + gravity.0, velocity[1] + gravity.1];
      velocity := [velocity[0] * (1.0 - Drag), velocity[1] * (1.0 - Drag)];
    }

    /** `update`: a dead fighter resets once a second has passed since its death; a live one
        turns to the held keys. Then it accelerates and moves. */
    method Update(now: real, keys: Keys, gravity: (real, real), trig: real -> (real, real))
      requires Valid()
      modifies this`center, this`velocity, this`direction, this`deathTime, this`image
      ensures Valid()
      ensures var resets := Truthy(old(deathTime)) && now > old(deathTime).value + ResetDelay;
        deathTime == (if resets then None else old(deathTime)) &&
        direction == (if resets then Right
                      else if Truthy(old(deathTime)) then old(direction)
                      else DirectionFor(keys, old(direction))) &&
        image == (if Truthy(old(deathTime)) then old(image) else Facing(direction)) &&
        (center, velocity) == Moved(if resets then initialPos else old(center),
          Accelerated(if resets then [0.0, 0.0] else old(velocity),
                      Thrust(deathTime.None?, keys, direction, acceleration, trig), gravity), screen)
    {
      ghost var resets := Truthy(deathTime) && now > deathTime.value + ResetDelay;
      if Truthy(deathTime) {
        if now > deathTime.value + ResetDelay {
          Reset();
        }
      } else {
        UpdateDirection(keys);
        image := Facing(direction);
      }
      assert velocity == if resets then [0.0, 0.0] else old(velocity);
      assert center == if resets then initialPos else old(center);
      Accelerate(keys, gravity, trig);
      Move();
    }

    /** `reset`: back to the spawn point, facing right, at rest and alive. */
    method Reset()
      requires Valid()
      modifies this`center, this`velocity, this`direction, this`deathTime
      ensures Valid() && AtSpawn()
    {
      direction := Right;
      velocity := [0.0, 0.0];
      center := initialPos;
      deathTime := None;
    }

    /** `destroy`: the first hit records the time of death and shows the wreck turned by angle;
        later hits change nothing. */
    method Destroy(angle: real, now: real)
      modifies this`deathTime, this`image
      ensures deathTime == MarkDestroyed(old(deathTime), now)
      ensures image == if old(deathTime).None? then Wreck(angle) else old(image)
    {
      if deathTime.None? {
        image := Wreck(angle);
        deathTime := Some(now);
      }
    }

    /** `fire`: a live fighter launches a torpedo from its centre at the given angle (the
        angle towards the pointer, computed by the caller). */
    method Fire(angle: real)
      requires Valid() && torpedoGroup.Valid()
      modifies torpedoGroup
      ensures torpedoGroup.Valid()
      ensures deathTime.None? ==>
        |torpedoGroup.sprites| == |old(torpedoGroup.sprites)| + 1 &&
        torpedoGroup.sprites[..|old(torpedoGroup.sprites)|] == old(torpedoGroup.sprites) &&
        var t := torpedoGroup.sprites[|old(torpedoGroup.sprites)|];
        fresh(t) && t.center == (center[0], center[1]) && t.angle == angle && t.speed == DefaultSpeed
      ensures deathTime.Some? ==> torpedoGroup.sprites == old(torpedoGroup.sprites)
    {
      if deathTime.None? {
        var t := new Torpedo((center[0], center[1]), angle, DefaultSpeed);
        torpedoGroup.Add(t);
      }
    }
  }
}
