/** The game session: level constants, the start-screen buttons, and the parts of the frame
    loop that turn events and collisions into lives, score, high score and spawn timing. */
module Game {
  import opened Common
  import opened Sprites
  import opened Torpedoes
  import opened BlackHoles
  import opened Fighters
  import opened Drones
  import opened StarField

  /** GameParams(level): the same fixed constants on every level. */
  datatype GameParams = GameParams(level: int) {
    const lives: int := 5
    const dronespawnFreq: int := 3000
    const dronespawnFreqRamp: int := 15
    const blackHoles: nat := 2
  }

  /** The lives a new session starts with. */
  const StartLives: int := 5
  /** Interval, in milliseconds, of the timer that ramps the drone spawn interval. */
  const RampInterval: int := 3000

  // ---------------------------------------------------------------- spawn ramp

  /** The drone spawn interval after one ramp event: max(0, freq - ramp). */
  function RampedFreq(freq: int, ramp: int): (r: int)
    ensures r >= 0
    ensures r == freq - ramp || r == 0
    ensures freq >= 0 && ramp >= 0 ==> r <= freq
  {
    Max(0, freq - ramp)
  }

  /** The interval after n ramp events. */
  function RampedTimes(freq: int, ramp: int, n: nat): int
  {
    if n == 0 then freq else RampedFreq(RampedTimes(freq, ramp, n - 1), ramp)
  }

  /** n ramp events lower a non-negative interval by ramp each, down to 0 and no further. */
  lemma {:induction false} RampedTimesClosedForm(freq: int, ramp: int, n: nat)
    requires freq >= 0 && ramp >= 0
    ensures RampedTimes(freq, ramp, n) == Max(0, freq - ramp * n)
  {
    if n > 0 {
      RampedTimesClosedForm(freq, ramp, n - 1);
      assert ramp * n == ramp * (n - 1) + ramp;
    }
  }

  /** The interval never rises and never goes negative, whatever number of ramps. */
  lemma {:induction false} RampedTimesMonotone(freq: int, ramp: int, m: nat, n: nat)
    requires freq >= 0 && ramp >= 0 && m <= n
    ensures 0 <= RampedTimes(freq, ramp, n) <= RampedTimes(freq, ramp, m) <= freq
  {
    if n == 0 {
    } else if m == n {
      RampedTimesMonotone(freq, ramp, 0, n - 1);
    } else {
      RampedTimesMonotone(freq, ramp, m, n - 1);
    }
  }

  /** With the game's constants (3000 ms, ramp 15) exactly the 200th ramp event sets the spawn
      timer to 0, which pygame treats as switching the timer off: from then on no drone spawns. */
  lemma SpawnTimerStops(p: GameParams, n: nat)
    ensures RampedTimes(p.dronespawnFreq, p.dronespawnFreqRamp, n) == 0 <==> n >= 200
  {
    RampedTimesClosedForm(p.dronespawnFreq, p.dronespawnFreqRamp, n);
  }

  // ---------------------------------------------------------------- start screen

  datatype Button = Play | Quit | Music | Effects

  /** The corners of each button, relative to the start-screen offset. */
  function ButtonArea(b: Button): ((int, int), (int, int))
  {
    match b
    case Play => ((98, 281), (230, 341))
    case Quit => ((12, 380), (91, 402))
    case Music => ((148, 385), (159, 396))
    case Effects => ((256, 385), (266, 396))
  }

  /** Python's int(x / 2): halve, then truncate towards zero. */
  function TruncHalf(x: int): (r: int)
    ensures 0 <= x ==> r as real <= x as real / 2.0 < r as real + 1.0
    ensures x < 0 ==> r as real - 1.0 < x as real / 2.0 <= r as real
  {
    if x >= 0 then x / 2 else -((-x) / 2)
  }

  /** START_SCREEN_OFFSET: the offset at which the buttons are hit-tested and the score texts drawn.
      It centres a 350 x 480 area on the screen. */
  function StartScreenOffset(screen: (int, int)): (r: (int, int))
    ensures -1 <= (screen.0 - 350 - r.0) - r.0 <= 1
    ensures -1 <= (screen.1 - 480 - r.1) - r.1 <= 1
  {
    (TruncHalf(screen.0 - 350), TruncHalf(screen.1 - 480))
  }

  /** The start-screen image is drawn at the fixed point (785, 300); the offset equals it
      on a 1920 x 1080 screen. */
  lemma StartScreenOffsetFullHd()
    ensures StartScreenOffset((1920, 1080)) == (785, 300)
  {
  }

  /** is_mouse_over_button: the pointer lies strictly inside the button's area, moved by offset. */
  function IsMouseOverButton(b: Button, offset: (int, int), pos: (int, int)): (r: bool)
    ensures r ==> offset.0 < pos.0 < offset.0 + 350 && offset.1 < pos.1 < offset.1 + 480
  {
    var (lo, hi) := ButtonArea(b);
    lo.0 + offset.0 < pos.0 < hi.0 + offset.0 && lo.1 + offset.1 < pos.1 < hi.1 + offset.1
  }

  /** The buttons do not overlap, so the order in which the start screen tests them does
      not matter: a click hits at most one. */
  lemma ButtonsExclusive(b1: Button, b2: Button, offset: (int, int), pos: (int, int))
    requires b1 != b2
    ensures !(IsMouseOverButton(b1, offset, pos) && IsMouseOverButton(b2, offset, pos))
  {
  }

  /** Every button can be clicked: some pointer position is over it. */
  lemma ButtonsReachable(b: Button, offset: (int, int))
    ensures exists pos :: IsMouseOverButton(b, offset, pos)
  {
    var (lo, hi) := ButtonArea(b);
    var pos := ((lo.0 + hi.0) / 2 + offset.0, (lo.1 + hi.1) / 2 + offset.1);
    assert IsMouseOverButton(b, offset, pos);
  }

  // ---------------------------------------------------------------- game over sound

  datatype GameOverSound = GameOverPlain | GameOver10Plus | GameOver20Plus | GameOver50Plus

  function Tier(s: GameOverSound): nat
  {
    match s
    case GameOverPlain => 0
    case GameOver10Plus => 1
    case GameOver20Plus => 2
    case GameOver50Plus => 3
  }

  /** The sound played at game over, by the score reached. */
  function GameOverSoundFor(score: int): (s: GameOverSound)
    ensures s == GameOver50Plus <==> score >= 50
    ensures s == GameOver20Plus <==> 20 <= score < 50
    ensures s == GameOver10Plus <==> 10 <= score < 20
    ensures s == GameOverPlain <==> score < 10
  {
    if score >= 50 then GameOver50Plus
    else if score >= 20 then GameOver20Plus
    else if score >= 10 then GameOver10Plus
    else GameOverPlain
  }

  /** A higher score never earns a lesser game-over sound. */
  lemma GameOverSoundMonotone(a: int, b: int)
    requires a <= b
    ensures Tier(GameOverSoundFor(a)) <= Tier(GameOverSoundFor(b))
  {
  }

  // ---------------------------------------------------------------- events

  /** The events game_loop reacts to, with the inputs computed outside the model: the angle
      towards the pointer for a click, and the random choices of a new drone. */
  datatype Event =
    | EscapeKey
    | ResetKey
    | OtherKey
    | MouseButtonDown(angle: real)
    | DroneSpawn(draw: SpawnDraw)
    | IncreaseDroneSpawn
    | OtherEvent

  /** The index of the first Escape, or the length: game_loop handles the events before it. */
  function FirstEscape(events: seq<Event>): (r: nat)
    ensures r <= |events|
    ensures forall j :: 0 <= j < r ==> events[j] != EscapeKey
    ensures r < |events| ==> events[r] == EscapeKey
  {
    if events == [] then 0
    else if events[0] == EscapeKey then 0
    else 1 + FirstEscape(events[1..])
  }

  function CountRamps(events: seq<Event>): nat
  {
    if events == [] then 0
    else CountRamps(events[..|events| - 1]) + (if events[|events| - 1] == IncreaseDroneSpawn then 1 else 0)
  }

  /** The drone draws of the spawn events, in order. */
  function SpawnDraws(events: seq<Event>): (r: seq<SpawnDraw>)
    ensures |r| <= |events|
  {
    if events == [] then []
    else SpawnDraws(events[..|events| - 1]) +
         (if events[|events| - 1].DroneSpawn? then [events[|events| - 1].draw] else [])
  }

  /** The torpedoes the clicks launch, in order: for each, whether an R reset came before
      it, and its angle. A click fires only while the fighter is alive: from the start if it
      was alive, otherwise from the first reset on. */
  function Shots(events: seq<Event>, alive: bool): (r: seq<(bool, real)>)
    ensures |r| <= |events|
  {
    if events == [] then []
    else
      var before, last := events[..|events| - 1], events[|events| - 1];
      Shots(before, alive) +
      (if last.MouseButtonDown? && (alive || ResetKey in before) then [(ResetKey in before, last.angle)] else [])
  }

  /** Without an R reset a dead fighter fires nothing, whatever is clicked. */
  lemma {:induction false} DeadFighterFiresNothing(events: seq<Event>)
    requires ResetKey !in events
    ensures Shots(events, false) == []
  {
    if events != [] {
      var before := events[..|events| - 1];
      assert ResetKey !in before by {
        forall j | 0 <= j < |before| ensures before[j] != ResetKey {
          assert before[j] == events[j];
        }
      }
      DeadFighterFiresNothing(before);
    }
  }

  /** Without an R reset, every torpedo the clicks launch leaves from the starting centre. */
  lemma {:induction false} LiveFighterFiresFromStart(events: seq<Event>, k: nat)
    requires ResetKey !in events
    requires k < |Shots(events, true)|
    ensures !Shots(events, true)[k].0
  {
    var before := events[..|events| - 1];
    assert ResetKey !in before by {
      forall j | 0 <= j < |before| ensures before[j] != ResetKey {
        assert before[j] == events[j];
      }
    }
    if k < |Shots(before, true)| {
      LiveFighterFiresFromStart(before, k);
    }
  }

  /** One more event's effect on the spawned drones: a spawn appends the drone for its draw. */
  lemma SpawnedAtStep(ds: seq<Drone>, next: seq<Drone>, before: seq<Event>, e: Event,
                      screen: (int, int), group: Group<Torpedo>, now: real)
    requires SpawnedAt(ds, SpawnDraws(before), screen, group, now)
    requires e.DroneSpawn? ==> SpawnedAt(next, [e.draw], screen, group, now)
    requires !e.DroneSpawn? ==> next == []
    ensures SpawnedAt(ds + next, SpawnDraws(before + [e]), screen, group, now)
  {
    assert (before + [e])[..|before|] == before;
    var all, draws := ds + next, SpawnDraws(before + [e]);
    assert draws == SpawnDraws(before) + if e.DroneSpawn? then [e.draw] else [];
    forall k | 0 <= k < |all|
      ensures all[k].center == SpawnPosition(screen, draws[k]) && all[k].velocity == SpawnVelocity(screen, draws[k])
    {
      if k < |ds| {
        assert all[k] == ds[k];
      } else {
        assert all[k] == next[k - |ds|];
      }
    }
  }

  /** One more event's effect on the fighter's torpedoes: a click that fires appends its torpedo. */
  lemma FiredFromStep(ts: seq<Torpedo>, next: seq<Torpedo>, before: seq<Event>, e: Event, alive: bool,
                      spawn: (int, int), start: (int, int))
    requires FiredFrom(ts, Shots(before, alive), spawn, start)
    requires e.MouseButtonDown? && (alive || ResetKey in before) ==>
      FiredFrom(next, [(ResetKey in before, e.angle)], spawn, start)
    requires !(e.MouseButtonDown? && (alive || ResetKey in before)) ==> next == []
    ensures FiredFrom(ts + next, Shots(before + [e], alive), spawn, start)
  {
    assert (before + [e])[..|before|] == before;
    var all, shots := ts + next, Shots(before + [e], alive);
    assert shots == Shots(before, alive) +
      if e.MouseButtonDown? && (alive || ResetKey in before) then [(ResetKey in before, e.angle)] else [];
    forall k | 0 <= k < |all|
      ensures all[k].center == (if shots[k].0 then spawn else start) && all[k].angle == shots[k].1
    {
      if k < |ts| {
        assert all[k] == ts[k];
      } else {
        assert all[k] == next[k - |ts|];
      }
    }
  }

  /** The sizes of the holes, in group order. */
  ghost function Sizes(holes: seq<BlackHole>): (r: seq<int>)
    reads holes
    ensures |r| == |holes| && forall k :: 0 <= k < |holes| ==> r[k] == holes[k].size
  {
    if holes == [] then [] else Sizes(holes[..|holes| - 1]) + [holes[|holes| - 1].size]
  }

  /** What the event loop starts from: the spawn interval and timer, the hole sizes, the
      fighter's state and the two groups the events add to. */
  datatype Snapshot = Snapshot(freq: int, timer: int, sizes: seq<int>,
                               center: seq<int>, velocity: seq<real>, direction: Direction,
                               deathTime: Option<real>, image: FighterImage,
                               drones: seq<Drone>, torpedoes: seq<Torpedo>)

  // ---------------------------------------------------------------- collisions

  /** The drones in a groupcollide result. */
  function HitDrones(hits: seq<(Drone, seq<Torpedo>)>): set<Drone>
  {
    set h | h in hits :: h.0
  }

  /** The torpedoes in a groupcollide result: each is killed. */
  function HitTorpedoes(hits: seq<(Drone, seq<Torpedo>)>): set<Torpedo>
  {
    set h, t | h in hits && t in h.1 :: t
  }

  /** A dictionary holds each drone once. */
  predicate DistinctDrones(hits: seq<(Drone, seq<Torpedo>)>)
  {
    forall i, j :: 0 <= i < j < |hits| ==> hits[i].0 != hits[j].0
  }

  /** With each drone listed once, the number of entries is the number of distinct drones hit. */
  lemma {:induction false} DistinctDronesCount(hits: seq<(Drone, seq<Torpedo>)>)
    requires DistinctDrones(hits)
    ensures |HitDrones(hits)| == |hits|
  {
    if hits != [] {
      var rest := hits[1..];
      assert DistinctDrones(rest) by {
        forall i, j | 0 <= i < j < |rest| ensures rest[i].0 != rest[j].0 {
          assert rest[i] == hits[i + 1] && rest[j] == hits[j + 1];
        }
      }
      DistinctDronesCount(rest);
      assert HitDrones(hits) == {hits[0].0} + HitDrones(rest) by {
        assert hits == [hits[0]] + rest;
      }
      assert hits[0].0 !in HitDrones(rest) by {
        forall h | h in rest ensures h.0 != hits[0].0 {
          var k :| 0 <= k < |rest| && rest[k] == h;
          assert rest[k] == hits[k + 1];
        }
      }
    }
  }

  /** The number of entries whose drone was not yet dying (the ones that may score). */
  ghost function CountLive(hits: seq<(Drone, seq<Torpedo>)>): nat
    reads set h | h in hits :: h.0
  {
    if hits == [] then 0
    else CountLive(hits[..|hits| - 1]) + (if hits[|hits| - 1].0.deathTime.None? then 1 else 0)
  }

  /** The state SetupGame leaves a black hole group in: one fresh hole per draw. */
  datatype HoleDraw = HoleDraw(pos: (int, int), size: HoleSize)
  type HoleSize = s: int | 50 <= s < 200 witness 50

  /** random.randrange(200, dimension - 200) for both coordinates of a hole's centre. */
  predicate HoleDrawFits(screen: (int, int), d: HoleDraw)
  {
    200 <= d.pos.0 < screen.0 - 200 && 200 <= d.pos.1 < screen.1 - 200
  }

  /** The RelativityWars session. */
  class RelativityWars {
    const screenShape: (int, int)
    const startScreenOffset: (int, int)
    const fighter: Fighter
    const blackHoles: Group<BlackHole>
    const torpedoes: Group<Torpedo>
    const enemyTorpedoes: Group<Torpedo>
    const drones: Group<Drone>
    var stars: Stars?
    var score: int
    var highScore: int
    var lives: int
    var level: int
    var params: GameParams
    var gameActive: bool
    var soundEffects: bool
    /** The drone spawn interval in milliseconds (no value before SetupGame). */
    var dronespawnFreq: int
    /** The interval the DRONESPAWN timer is set to; 0 means switched off. */
    var droneSpawnTimer: int
    /** The interval the INCREASEDRONESPAWN timer is set to; 0 means switched off. */
    var rampTimer: int

    ghost predicate Valid()
      reads this, fighter, blackHoles, torpedoes, enemyTorpedoes, drones, blackHoles.sprites
    {
      fighter.Valid() && fighter.torpedoGroup == torpedoes &&
      fighter.screen == [screenShape.0, screenShape.1] &&
      torpedoes != enemyTorpedoes &&
      blackHoles.Valid() && torpedoes.Valid() && enemyTorpedoes.Valid() && drones.Valid() &&
      forall b :: b in blackHoles.sprites ==> b.size <= MaxSize
    }

    /** RelativityWars(level=1): empty groups, a fighter at (100, 100), no score yet, on the
        start screen. */
    constructor (screenShape: (int, int), level: int)
      requires screenShape.0 >= 0 && screenShape.1 >= 0
      ensures Valid() && fresh(fighter) && fresh(blackHoles) && fresh(torpedoes) && fresh(enemyTorpedoes) && fresh(drones)
      ensures this.screenShape == screenShape && startScreenOffset == StartScreenOffset(screenShape)
      ensures score == 0 && highScore == 0 && lives == StartLives && !gameActive && soundEffects
      ensures this.level == level && params == GameParams(level)
      ensures blackHoles.sprites == [] && torpedoes.sprites == [] && enemyTorpedoes.sprites == [] && drones.sprites == []
      ensures fighter.AtSpawn() && stars == null && droneSpawnTimer == 0 && rampTimer == 0
    {
      var torpedoGroup := new Group<Torpedo>();
      this.screenShape := screenShape;
      startScreenOffset := StartScreenOffset(screenShape);
      blackHoles := new Group<BlackHole>();
      torpedoes := torpedoGroup;
      enemyTorpedoes := new Group<Torpedo>();
      drones := new Group<Drone>();
      fighter := new Fighter([screenShape.0, screenShape.1], torpedoGroup, None);
      stars := null;
      score := 0;
      highScore := 0;
      lives := StartLives;
      this.level := level;
      params := GameParams(level);
      gameActive := false;
      soundEffects := true;
      dronespawnFreq := 0;
      droneSpawnTimer := 0;
      rampTimer := 0;
    }

    /** get_level. */
    method GetLevel(level: int)
      modifies this`level, this`params
      ensures this.level == level && params == GameParams(level)
    {
      this.level := level;
      params := GameParams(level);
    }

    /** next_level. */
    method NextLevel()
      modifies this`level, this`params
      ensures level == old(level) + 1 && params == GameParams(level)
    {
      params := GameParams(level + 1);
      level := level + 1;
    }

    /** setup_game: a fresh star field, the level's spawn interval, new black holes at random
        positions and sizes, both timers started and the fighter reset. */
    method SetupGame(holeDraw: nat -> HoleDraw, starDraw: nat -> FieldDraw)
      requires Valid()
      // random.randrange(200, dimension - 200) raises on a smaller screen
      requires screenShape.0 > 400 && screenShape.1 > 400
      requires forall i: nat :: HoleDrawFits(screenShape, holeDraw(i))
      requires forall i: nat :: FieldDrawFits(screenShape, starDraw(i))
      modifies this`stars, this`dronespawnFreq, this`droneSpawnTimer, this`rampTimer, blackHoles, fighter
      ensures Valid() && stars != null && fresh(stars)
      ensures stars.screen == screenShape && |stars.stars| == NumStars
      ensures forall i :: 0 <= i < NumStars ==> stars.stars[i] == FieldStar(starDraw(i))
      ensures dronespawnFreq == params.dronespawnFreq && droneSpawnTimer == dronespawnFreq && rampTimer == RampInterval
      ensures |blackHoles.sprites| == params.blackHoles
      ensures forall i :: 0 <= i < |blackHoles.sprites| ==>
        fresh(blackHoles.sprites[i]) && blackHoles.sprites[i].pos == holeDraw(i).pos &&
        blackHoles.sprites[i].size == holeDraw(i).size
      ensures fighter.AtSpawn() && fighter.image == old(fighter.image)
    {
      stars := new Stars(screenShape, starDraw);
      dronespawnFreq := params.dronespawnFreq;
      PlaceBlackHoles(holeDraw);
      droneSpawnTimer := dronespawnFreq;
      rampTimer := RampInterval;
      fighter.Reset();
    }

    /** The black holes of a new game: the group emptied, then one hole per draw (its centre
        from randrange(200, dimension - 200), its side from randrange(50, 200)). */
    method PlaceBlackHoles(holeDraw: nat -> HoleDraw)
      requires blackHoles.Valid()
      modifies blackHoles
      ensures blackHoles.Valid() && |blackHoles.sprites| == params.blackHoles
      ensures forall i :: 0 <= i < |blackHoles.sprites| ==>
        fresh(blackHoles.sprites[i]) && blackHoles.sprites[i].pos == holeDraw(i).pos &&
        blackHoles.sprites[i].size == holeDraw(i).size
    {
      blackHoles.Empty();
      var k := 0;
      while k < params.blackHoles
        modifies blackHoles
        invariant 0 <= k <= params.blackHoles
        invariant blackHoles.Valid() && |blackHoles.sprites| == k
        invariant forall i :: 0 <= i < k ==>
          fresh(blackHoles.sprites[i]) && blackHoles.sprites[i].pos == holeDraw(i).pos &&
          blackHoles.sprites[i].size == holeDraw(i).size
      {
        ghost var before := blackHoles.sprites;
        var hole := new BlackHole(holeDraw(k).pos, holeDraw(k).size);
        blackHoles.Add(hole);
        assert blackHoles.sprites == before + [hole];
        k := k + 1;
      }
    }

    /** Clicking Play on the start screen, as the source does it: score and lives carry over
        from the previous game. */
    method StartGameAsWritten(holeDraw: nat -> HoleDraw, starDraw: nat -> FieldDraw)
      requires Valid() && screenShape.0 > 400 && screenShape.1 > 400
      requires forall i: nat :: HoleDrawFits(screenShape, holeDraw(i))
      requires forall i: nat :: FieldDrawFits(screenShape, starDraw(i))
      modifies this`gameActive, this`stars, this`dronespawnFreq, this`droneSpawnTimer, this`rampTimer, blackHoles, fighter
      ensures Valid() && stars != null && fresh(stars) && gameActive
      ensures stars.screen == screenShape && |stars.stars| == NumStars
      ensures forall i :: 0 <= i < NumStars ==> stars.stars[i] == FieldStar(starDraw(i))
      ensures dronespawnFreq == params.dronespawnFreq && droneSpawnTimer == dronespawnFreq && rampTimer == RampInterval
      ensures |blackHoles.sprites| == params.blackHoles
      ensures forall i :: 0 <= i < |blackHoles.sprites| ==>
        fresh(blackHoles.sprites[i]) && blackHoles.sprites[i].pos == holeDraw(i).pos &&
        blackHoles.sprites[i].size == holeDraw(i).size
      ensures fighter.AtSpawn() && fighter.image == old(fighter.image)
    {
      gameActive := true;
      SetupGame(holeDraw, starDraw);
    }

    /** Clicking Play on the start screen, with the score and lives of a new game. */
    method StartGame(holeDraw: nat -> HoleDraw, starDraw: nat -> FieldDraw)
      requires Valid() && screenShape.0 > 400 && screenShape.1 > 400
      requires forall i: nat :: HoleDrawFits(screenShape, holeDraw(i))
      requires forall i: nat :: FieldDrawFits(screenShape, starDraw(i))
      modifies this`gameActive, this`score, this`lives, this`stars, this`dronespawnFreq, this`droneSpawnTimer,
               this`rampTimer, blackHoles, fighter
      ensures Valid() && stars != null && fresh(stars) && gameActive && score == 0 && lives == StartLives
      ensures stars.screen == screenShape && |stars.stars| == NumStars
      ensures forall i :: 0 <= i < NumStars ==> stars.stars[i] == FieldStar(starDraw(i))
      ensures dronespawnFreq == params.dronespawnFreq && droneSpawnTimer == dronespawnFreq && rampTimer == RampInterval
      ensures |blackHoles.sprites| == params.blackHoles
      ensures forall i :: 0 <= i < |blackHoles.sprites| ==>
        fresh(blackHoles.sprites[i]) && blackHoles.sprites[i].pos == holeDraw(i).pos &&
        blackHoles.sprites[i].size == holeDraw(i).size
      ensures fighter.AtSpawn() && fighter.image == old(fighter.image)
    {
      gameActive := true;
      score := 0;
      lives := StartLives;
      SetupGame(holeDraw, starDraw);
    }

    /** game_over: keep the better of score and high score, reset the fighter, clear the drones
        and all torpedoes and stop the drone spawn timer. */
    method GameOver()
      requires Valid()
      modifies this`highScore, this`droneSpawnTimer, fighter, drones, torpedoes, enemyTorpedoes
      ensures Valid()
      ensures highScore == Max(score, old(highScore))
      ensures fighter.AtSpawn() && fighter.image == old(fighter.image)
      ensures drones.sprites == [] && torpedoes.sprites == [] && enemyTorpedoes.sprites == []
      ensures droneSpawnTimer == 0
    {
      highScore := Max(score, highScore);
      fighter.Reset();
      drones.Empty();
      torpedoes.Empty();
      enemyTorpedoes.Empty();
      droneSpawnTimer := 0;
    }

    /** The INCREASEDRONESPAWN event: lower the spawn interval by the ramp, never below 0,
        restart the spawn timer with it and enlarge every black hole once. */
    method RampSpawn()
      requires Valid()
      modifies this`dronespawnFreq, this`droneSpawnTimer, blackHoles.sprites
      ensures Valid()
      ensures dronespawnFreq == RampedFreq(old(dronespawnFreq), params.dronespawnFreqRamp)
      ensures droneSpawnTimer == dronespawnFreq
      ensures forall b :: b in blackHoles.sprites ==> b.size == Enlarged(old(b.size))
    {
      dronespawnFreq := Max(0, dronespawnFreq - params.dronespawnFreqRamp);
      droneSpawnTimer := dronespawnFreq;
      var holes := blackHoles.sprites;
      var i := 0;
      while i < |holes|
        modifies holes
        invariant 0 <= i <= |holes|
        invariant forall j :: 0 <= j < i ==> holes[j].size == Enlarged(old(holes[j].size))
        invariant forall j :: i <= j < |holes| ==> holes[j].size == old(holes[j].size)
      {
        holes[i].Enlarge();
        i := i + 1;
      }
      forall b | b in holes ensures b.size <= MaxSize {
        EnlargedTimesBounded(old(b.size), 1);
      }
    }

    /** One event other than Escape, handled as game_loop does at time now. */
    method HandleEvent(e: Event, now: real)
      requires Valid() && e != EscapeKey
      requires e.DroneSpawn? ==> SpawnDrawFits(screenShape, e.draw)
      modifies this`droneSpawnTimer, this`dronespawnFreq, fighter, drones, torpedoes, blackHoles.sprites
      ensures Valid()
      ensures dronespawnFreq == if e == IncreaseDroneSpawn then RampedFreq(old(dronespawnFreq), params.dronespawnFreqRamp) else old(dronespawnFreq)
      ensures droneSpawnTimer == if e == IncreaseDroneSpawn then dronespawnFreq else old(droneSpawnTimer)
      ensures forall b :: b in blackHoles.sprites ==>
        b.size == if e == IncreaseDroneSpawn then Enlarged(old(b.size)) else old(b.size)
      ensures e != ResetKey ==> unchanged(fighter)
      ensures e == ResetKey ==> fighter.AtSpawn() && fighter.image == old(fighter.image)
      ensures !e.DroneSpawn? ==> drones.sprites == old(drones.sprites)
      ensures e.DroneSpawn? ==>
        |drones.sprites| > 0 && var d := drones.sprites[|drones.sprites| - 1];
        drones.sprites == old(drones.sprites) + [d] && fresh(d) &&
        SpawnedAt([d], [e.draw], screenShape, enemyTorpedoes, now)
      ensures !(e.MouseButtonDown? && fighter.deathTime.None?) ==> torpedoes.sprites == old(torpedoes.sprites)
      ensures e.MouseButtonDown? && fighter.deathTime.None? ==>
        |torpedoes.sprites| > 0 && var t := torpedoes.sprites[|torpedoes.sprites| - 1];
        torpedoes.sprites == old(torpedoes.sprites) + [t] && fresh(t) &&
        t.center == (fighter.center[0], fighter.center[1]) && t.angle == e.angle && t.speed == DefaultSpeed
    {
      match e {
      case ResetKey =>
        fighter.Reset();
      case MouseButtonDown(angle) =>
        fighter.Fire(angle);
      case DroneSpawn(draw) =>
        var drone := new Drone(screenShape, enemyTorpedoes, draw, now);
        drones.Add(drone);
      case IncreaseDroneSpawn =>
        RampSpawn();
      case OtherKey =>
      case OtherEvent =>
      }
    }

    /** The event loop of game_loop, at time now: Escape ends the game and stops the loop;
        the events before it are handled in order. */
    method HandleEvents(events: seq<Event>, now: real)
      requires Valid()
      requires forall i :: 0 <= i < |events| && events[i].DroneSpawn? ==> SpawnDrawFits(screenShape, events[i].draw)
      modifies this`gameActive, this`highScore, this`droneSpawnTimer, this`dronespawnFreq,
               fighter, drones, torpedoes, enemyTorpedoes, blackHoles.sprites
      ensures Valid()
      ensures blackHoles.sprites == old(blackHoles.sprites) && fighter.image == old(fighter.image)
      ensures var ramps := CountRamps(events[..FirstEscape(events)]);
        dronespawnFreq == RampedTimes(old(dronespawnFreq), params.dronespawnFreqRamp, ramps) &&
        forall b :: b in blackHoles.sprites ==> b.size == EnlargedTimes(old(b.size), ramps)
      ensures FirstEscape(events) < |events| ==>
        !gameActive && highScore == Max(score, old(highScore)) && fighter.AtSpawn() &&
        drones.sprites == [] && torpedoes.sprites == [] && enemyTorpedoes.sprites == [] &&
        droneSpawnTimer == 0
      ensures FirstEscape(events) == |events| ==>
        gameActive == old(gameActive) && highScore == old(highScore) &&
        enemyTorpedoes.sprites == old(enemyTorpedoes.sprites) &&
        droneSpawnTimer == (if CountRamps(events) > 0 then dronespawnFreq else old(droneSpawnTimer)) &&
        (ResetKey in events ==> fighter.AtSpawn()) &&
        (ResetKey !in events ==>
          fighter.center == old(fighter.center) && fighter.velocity == old(fighter.velocity) &&
          fighter.direction == old(fighter.direction) && fighter.deathTime == old(fighter.deathTime))
      ensures FirstEscape(events) == |events| ==>
        var n := |old(drones.sprites)|;
        n <= |drones.sprites| && drones.sprites[..n] == old(drones.sprites) &&
        SpawnedAt(drones.sprites[n..], SpawnDraws(events), screenShape, enemyTorpedoes, now)
      ensures FirstEscape(events) == |events| ==>
        var m := |old(torpedoes.sprites)|;
        m <= |torpedoes.sprites| && torpedoes.sprites[..m] == old(torpedoes.sprites) &&
        FiredFrom(torpedoes.sprites[m..], Shots(events, old(fighter.deathTime).None?),
                  (fighter.initialPos[0], fighter.initialPos[1]), (old(fighter.center)[0], old(fighter.center)[1]))
    {
      var k := FirstEscape(events);
      assert k == |events| ==> events[..k] == events;
      ghost var spawned, fired := HandleUntilEscape(events[..k], now);
      assert drones.sprites[|old(drones.sprites)|..] == spawned;
      assert torpedoes.sprites[|old(torpedoes.sprites)|..] == fired;
      if k < |events| {
        gameActive := false;
        GameOver();
      }
    }

    /** The events of game_loop before any Escape, handled in order at time now: R resets the
        fighter, a click fires, DRONESPAWN adds a drone, INCREASEDRONESPAWN ramps. The drones
        spawned and the torpedoes fired are returned, in order. */
    method HandleUntilEscape(events: seq<Event>, now: real) returns (ghost spawned: seq<Drone>, ghost fired: seq<Torpedo>)
      requires Valid() && EscapeKey !in events
      requires forall i :: 0 <= i < |events| && events[i].DroneSpawn? ==> SpawnDrawFits(screenShape, events[i].draw)
      modifies this`droneSpawnTimer, this`dronespawnFreq, fighter, drones, torpedoes, blackHoles.sprites
      ensures Valid()
      ensures blackHoles.sprites == old(blackHoles.sprites) && fighter.image == old(fighter.image)
      ensures dronespawnFreq == RampedTimes(old(dronespawnFreq), params.dronespawnFreqRamp, CountRamps(events))
      ensures forall b :: b in blackHoles.sprites ==> b.size == EnlargedTimes(old(b.size), CountRamps(events))
      ensures droneSpawnTimer == if CountRamps(events) > 0 then dronespawnFreq else old(droneSpawnTimer)
      ensures ResetKey in events ==> fighter.AtSpawn()
      ensures ResetKey !in events ==>
        fighter.center == old(fighter.center) && fighter.velocity == old(fighter.velocity) &&
        fighter.direction == old(fighter.direction) && fighter.deathTime == old(fighter.deathTime)
      ensures drones.sprites == old(drones.sprites) + spawned
      ensures SpawnedAt(spawned, SpawnDraws(events), screenShape, enemyTorpedoes, now)
      ensures torpedoes.sprites == old(torpedoes.sprites) + fired
      ensures FiredFrom(fired, Shots(events, old(fighter.deathTime).None?),
                        (fighter.initialPos[0], fighter.initialPos[1]), (old(fighter.center)[0], old(fighter.center)[1]))
    {
      ghost var s0 := Snapshot(dronespawnFreq, droneSpawnTimer, Sizes(blackHoles.sprites),
                               fighter.center, fighter.velocity, fighter.direction, fighter.deathTime, fighter.image,
                               drones.sprites, torpedoes.sprites);
      StartHandled(s0, now);
      spawned, fired := HandleEach(events, now, s0);
    }

    /** The for loop over the events: each one handled in turn from the snapshot s0. */
    method HandleEach(events: seq<Event>, now: real, ghost s0: Snapshot)
      returns (ghost spawned: seq<Drone>, ghost fired: seq<Torpedo>)
      requires EventsHandled([], s0, [], [], now) && EscapeKey !in events
      requires forall i :: 0 <= i < |events| && events[i].DroneSpawn? ==> SpawnDrawFits(screenShape, events[i].draw)
      modifies this`droneSpawnTimer, this`dronespawnFreq, fighter, drones, torpedoes, blackHoles.sprites
      ensures EventsHandled(events, s0, spawned, fired, now)
    {
      spawned, fired := [], [];
      for i := 0 to |events|
        invariant EventsHandled(events[..i], s0, spawned, fired, now)
      {
        var newDrone, newTorpedo := HandleNext(events[..i], events[i], now, s0, spawned, fired);
        assert events[..i] + [events[i]] == events[..i + 1];
        spawned, fired := spawned + newDrone, fired + newTorpedo;
      }
      assert events[..|events|] == events;
    }

    /** Before any event, the session is the snapshot s0 taken of it. */
    lemma StartHandled(s0: Snapshot, now: real)
      requires Valid()
      requires s0 == Snapshot(dronespawnFreq, droneSpawnTimer, Sizes(blackHoles.sprites),
                              fighter.center, fighter.velocity, fighter.direction, fighter.deathTime, fighter.image,
                              drones.sprites, torpedoes.sprites)
      ensures EventsHandled([], s0, [], [], now)
    {
    }

    /** The session after the events handled, relative to the snapshot s0 of where the loop
        started: the drones spawned and the torpedoes fired follow the groups' first contents. */
    ghost predicate EventsHandled(handled: seq<Event>, s0: Snapshot, spawned: seq<Drone>, fired: seq<Torpedo>, now: real)
      reads this, fighter, blackHoles, torpedoes, enemyTorpedoes, drones, blackHoles.sprites, spawned, fired
    {
      Valid() &&
      fighter.ResetTracked(ResetKey in handled, s0.center, s0.velocity, s0.direction, s0.deathTime, s0.image) &&
      dronespawnFreq == RampedTimes(s0.freq, params.dronespawnFreqRamp, CountRamps(handled)) &&
      droneSpawnTimer == (if CountRamps(handled) > 0 then dronespawnFreq else s0.timer) &&
      EnlargedFrom(blackHoles.sprites, s0.sizes, CountRamps(handled)) &&
      drones.sprites == s0.drones + spawned &&
      SpawnedAt(spawned, SpawnDraws(handled), screenShape, enemyTorpedoes, now) &&
      torpedoes.sprites == s0.torpedoes + fired &&
      FiredFrom(fired, Shots(handled, s0.deathTime.None?),
                (fighter.initialPos[0], fighter.initialPos[1]), (s0.center[0], s0.center[1]))
    }

    /** HandleEvent for the event e that follows the events before: what the events did so far
        now includes e, and the drone or torpedo e adds (if any) is returned. */
    method HandleNext(ghost before: seq<Event>, e: Event, now: real, ghost s0: Snapshot,
                      ghost spawned: seq<Drone>, ghost fired: seq<Torpedo>)
      returns (ghost newDrone: seq<Drone>, ghost newTorpedo: seq<Torpedo>)
      requires EventsHandled(before, s0, spawned, fired, now) && e != EscapeKey
      requires e.DroneSpawn? ==> SpawnDrawFits(screenShape, e.draw)
      modifies this`droneSpawnTimer, this`dronespawnFreq, fighter, drones, torpedoes, blackHoles.sprites
      ensures EventsHandled(before + [e], s0, spawned + newDrone, fired + newTorpedo, now)
    {
      match e {
      case ResetKey =>
        newDrone, newTorpedo := NextReset(before, e, now, s0, spawned, fired);
      case MouseButtonDown(_) =>
        newDrone, newTorpedo := NextClick(before, e, now, s0, spawned, fired);
      case DroneSpawn(_) =>
        newDrone, newTorpedo := NextSpawn(before, e, now, s0, spawned, fired);
      case IncreaseDroneSpawn =>
        newDrone, newTorpedo := NextRamp(before, e, now, s0, spawned, fired);
      case OtherKey =>
        newDrone, newTorpedo := NextQuiet(before, e, now, s0, spawned, fired);
      case OtherEvent =>
        newDrone, newTorpedo := NextQuiet(before, e, now, s0, spawned, fired);
      }
    }

    /** HandleNext for R. */
    method NextReset(ghost before: seq<Event>, e: Event, now: real, ghost s0: Snapshot,
                     ghost spawned: seq<Drone>, ghost fired: seq<Torpedo>)
      returns (ghost newDrone: seq<Drone>, ghost newTorpedo: seq<Torpedo>)
      requires EventsHandled(before, s0, spawned, fired, now) && e == ResetKey
      modifies this`droneSpawnTimer, this`dronespawnFreq, fighter, drones, torpedoes, blackHoles.sprites
      ensures EventsHandled(before + [e], s0, spawned + newDrone, fired + newTorpedo, now)
    {
      assert (before + [e])[..|before|] == before;
      assert ResetKey in before + [e] <==> ResetKey in before || e == ResetKey;
      HandleEvent(e, now);
      newDrone, newTorpedo := [], [];
      SpawnedAtStep(spawned, newDrone, before, e, screenShape, enemyTorpedoes, now);
      FiredFromStep(fired, newTorpedo, before, e, s0.deathTime.None?,
                    (fighter.initialPos[0], fighter.initialPos[1]), (s0.center[0], s0.center[1]));
    }

    /** HandleNext for a click: a live fighter's torpedo is returned. */
    method NextClick(ghost before: seq<Event>, e: Event, now: real, ghost s0: Snapshot,
                     ghost spawned: seq<Drone>, ghost fired: seq<Torpedo>)
      returns (ghost newDrone: seq<Drone>, ghost newTorpedo: seq<Torpedo>)
      requires EventsHandled(before, s0, spawned, fired, now) && e.MouseButtonDown?
      modifies this`droneSpawnTimer, this`dronespawnFreq, fighter, drones, torpedoes, blackHoles.sprites
      ensures EventsHandled(before + [e], s0, spawned + newDrone, fired + newTorpedo, now)
    {
      ghost var spawn := (fighter.initialPos[0], fighter.initialPos[1]);
      ghost var start := (s0.center[0], s0.center[1]);
      ghost var fires := fighter.deathTime.None?;
      assert fires ==>
        (fighter.center[0], fighter.center[1]) == (if ResetKey in before then spawn else start);
      assert (before + [e])[..|before|] == before;
      assert ResetKey in before + [e] <==> ResetKey in before || e == ResetKey;
      HandleEvent(e, now);
      newDrone := [];
      newTorpedo := if fires then [torpedoes.sprites[|torpedoes.sprites| - 1]] else [];
      assert torpedoes.sprites == (s0.torpedoes + fired) + newTorpedo;
      SpawnedAtStep(spawned, newDrone, before, e, screenShape, enemyTorpedoes, now);
      FiredFromStep(fired, newTorpedo, before, e, s0.deathTime.None?,
                    (fighter.initialPos[0], fighter.initialPos[1]), (s0.center[0], s0.center[1]));
    }

    /** HandleNext for DRONESPAWN: the new drone is returned. */
    method NextSpawn(ghost before: seq<Event>, e: Event, now: real, ghost s0: Snapshot,
                     ghost spawned: seq<Drone>, ghost fired: seq<Torpedo>)
      returns (ghost newDrone: seq<Drone>, ghost newTorpedo: seq<Torpedo>)
      requires EventsHandled(before, s0, spawned, fired, now) && e.DroneSpawn? && SpawnDrawFits(screenShape, e.draw)
      modifies this`droneSpawnTimer, this`dronespawnFreq, fighter, drones, torpedoes, blackHoles.sprites
      ensures EventsHandled(before + [e], s0, spawned + newDrone, fired + newTorpedo, now)
    {
      assert (before + [e])[..|before|] == before;
      assert ResetKey in before + [e] <==> ResetKey in before || e == ResetKey;
      HandleEvent(e, now);
      newDrone, newTorpedo := [drones.sprites[|drones.sprites| - 1]], [];
      assert drones.sprites == (s0.drones + spawned) + newDrone;
      SpawnedAtStep(spawned, newDrone, before, e, screenShape, enemyTorpedoes, now);
      FiredFromStep(fired, newTorpedo, before, e, s0.deathTime.None?,
                    (fighter.initialPos[0], fighter.initialPos[1]), (s0.center[0], s0.center[1]));
    }

    /** HandleNext for INCREASEDRONESPAWN. */
    method NextRamp(ghost before: seq<Event>, e: Event, now: real, ghost s0: Snapshot,
                    ghost spawned: seq<Drone>, ghost fired: seq<Torpedo>)
      returns (ghost newDrone: seq<Drone>, ghost newTorpedo: seq<Torpedo>)
      requires EventsHandled(before, s0, spawned, fired, now) && e == IncreaseDroneSpawn
      modifies this`droneSpawnTimer, this`dronespawnFreq, fighter, drones, torpedoes, blackHoles.sprites
      ensures EventsHandled(before + [e], s0, spawned + newDrone, fired + newTorpedo, now)
    {
      assert (before + [e])[..|before|] == before;
      assert ResetKey in before + [e] <==> ResetKey in before || e == ResetKey;
      HandleEvent(e, now);
      newDrone, newTorpedo := [], [];
      SpawnedAtStep(spawned, newDrone, before, e, screenShape, enemyTorpedoes, now);
      FiredFromStep(fired, newTorpedo, before, e, s0.deathTime.None?,
                    (fighter.initialPos[0], fighter.initialPos[1]), (s0.center[0], s0.center[1]));
      forall k | 0 <= k < |blackHoles.sprites|
        ensures blackHoles.sprites[k].size == EnlargedTimes(s0.sizes[k], CountRamps(before + [e]))
      {
        assert blackHoles.sprites[k] in blackHoles.sprites;
      }
    }

    /** HandleNext for a key or event game_loop ignores. */
    method NextQuiet(ghost before: seq<Event>, e: Event, now: real, ghost s0: Snapshot,
                     ghost spawned: seq<Drone>, ghost fired: seq<Torpedo>)
      returns (ghost newDrone: seq<Drone>, ghost newTorpedo: seq<Torpedo>)
      requires EventsHandled(before, s0, spawned, fired, now) && (e.OtherKey? || e.OtherEvent?)
      modifies this`droneSpawnTimer, this`dronespawnFreq, fighter, drones, torpedoes, blackHoles.sprites
      ensures EventsHandled(before + [e], s0, spawned + newDrone, fired + newTorpedo, now)
    {
      assert (before + [e])[..|before|] == before;
      assert ResetKey in before + [e] <==> ResetKey in before || e == ResetKey;
      HandleEvent(e, now);
      newDrone, newTorpedo := [], [];
      SpawnedAtStep(spawned, newDrone, before, e, screenShape, enemyTorpedoes, now);
      FiredFromStep(fired, newTorpedo, before, e, s0.deathTime.None?,
                    (fighter.initialPos[0], fighter.initialPos[1]), (s0.center[0], s0.center[1]));
      forall k | 0 <= k < |blackHoles.sprites|
        ensures blackHoles.sprites[k].size == EnlargedTimes(s0.sizes[k], CountRamps(before + [e]))
      {
        assert blackHoles.sprites[k] in blackHoles.sprites;
      }
    }

    /** The fighter's enemy-torpedo collisions (the torpedoes overlapping it, in group order):
        they are removed, and any hit costs exactly one life. Below zero lives the game is over;
        otherwise the fighter is destroyed, turned by the first hit's angle. */
    method ResolveFighterHits(hits: seq<Torpedo>, now: real) returns (sound: Option<GameOverSound>)
      requires Valid()
      modifies this`lives, this`gameActive, this`highScore, this`droneSpawnTimer,
               fighter, drones, torpedoes, enemyTorpedoes
      ensures Valid() && score == old(score)
      ensures hits == [] ==>
        lives == old(lives) && gameActive == old(gameActive) && highScore == old(highScore) &&
        enemyTorpedoes.sprites == old(enemyTorpedoes.sprites) && sound == None &&
        unchanged(fighter) && unchanged(drones) && unchanged(torpedoes) && droneSpawnTimer == old(droneSpawnTimer)
      ensures hits != [] ==> lives == old(lives) - 1
      ensures hits != [] && lives < 0 ==>
        !gameActive && highScore == Max(score, old(highScore)) && fighter.AtSpawn() &&
        drones.sprites == [] && torpedoes.sprites == [] && enemyTorpedoes.sprites == [] &&
        droneSpawnTimer == 0 && fighter.image == old(fighter.image) &&
        sound == (if soundEffects then Some(GameOverSoundFor(score)) else None)
      ensures hits != [] && lives >= 0 ==>
        gameActive == old(gameActive) && highScore == old(highScore) && sound == None &&
        enemyTorpedoes.sprites == Without(old(enemyTorpedoes.sprites), set t | t in hits) &&
        fighter.deathTime == MarkDestroyed(old(fighter.deathTime), now) &&
        fighter.image == (if old(fighter.deathTime).None? then Fighters.Wreck(hits[0].angle) else old(fighter.image)) &&
        fighter.center == old(fighter.center) && fighter.velocity == old(fighter.velocity) &&
        fighter.direction == old(fighter.direction) &&
        unchanged(drones) && unchanged(torpedoes) && droneSpawnTimer == old(droneSpawnTimer)
    {
      enemyTorpedoes.RemoveAll(set t | t in hits);
      sound := None;
      if |hits| > 0 {
        lives := lives - 1;
        if lives < 0 {
          if soundEffects {
            sound := Some(GameOverSoundFor(score));
          }
          gameActive := false;
          GameOver();
        } else {
          fighter.Destroy(hits[0].angle, now);
        }
      } else {
        assert (set t | t in hits) == {};
        assert Without(old(enemyTorpedoes.sprites), {}) == old(enemyTorpedoes.sprites) by {
          WithoutNothing(old(enemyTorpedoes.sprites));
        }
      }
    }

    /** The drone collisions as the source scores them: the hit torpedoes are removed and every
        drone in the result scores a point and is destroyed, even one already dying. */
    method ResolveDroneHitsAsWritten(hits: seq<(Drone, seq<Torpedo>)>, now: real)
      requires Valid()
      requires DistinctDrones(hits)
      requires forall h :: h in hits ==> h.1 != []
      modifies this`score, torpedoes, HitDrones(hits)`deathTime, HitDrones(hits)`image
      ensures Valid()
      ensures torpedoes.sprites == Without(old(torpedoes.sprites), HitTorpedoes(hits))
      ensures score == old(score) + |HitDrones(hits)|
      ensures forall h :: h in hits ==>
        h.0.deathTime == MarkDestroyed(old(h.0.deathTime), now) &&
        h.0.image == (if old(h.0.deathTime).None? then Drones.Wreck(h.1[0].angle) else old(h.0.image))
    {
      torpedoes.RemoveAll(HitTorpedoes(hits));
      DestroyHitDrones(hits, now, true);
      DistinctDronesCount(hits);
    }

    /** The drone collisions scored as intended: a drone already in its death animation is
        destroyed again (which changes nothing) but does not score twice. */
    method ResolveDroneHits(hits: seq<(Drone, seq<Torpedo>)>, now: real)
      requires Valid()
      requires DistinctDrones(hits)
      requires forall h :: h in hits ==> h.1 != []
      modifies this`score, torpedoes, HitDrones(hits)`deathTime, HitDrones(hits)`image
      ensures Valid()
      ensures torpedoes.sprites == Without(old(torpedoes.sprites), HitTorpedoes(hits))
      ensures score == old(score) + old(CountLive(hits))
      ensures forall h :: h in hits ==>
        h.0.deathTime == MarkDestroyed(old(h.0.deathTime), now) &&
        h.0.image == (if old(h.0.deathTime).None? then Drones.Wreck(h.1[0].angle) else old(h.0.image))
    {
      torpedoes.RemoveAll(HitTorpedoes(hits));
      DestroyHitDrones(hits, now, false);
    }

    /** The loop over the groupcollide result: score (every drone, or only those not yet
        dying) and destroy each drone with the angle of its first torpedo. */
    method DestroyHitDrones(hits: seq<(Drone, seq<Torpedo>)>, now: real, scoreDying: bool)
      requires DistinctDrones(hits)
      requires forall h :: h in hits ==> h.1 != []
      modifies this`score, HitDrones(hits)`deathTime, HitDrones(hits)`image
      ensures score == old(score) + if scoreDying then |hits| else old(CountLive(hits))
      ensures forall h :: h in hits ==>
        h.0.deathTime == MarkDestroyed(old(h.0.deathTime), now) &&
        h.0.image == (if old(h.0.deathTime).None? then Drones.Wreck(h.1[0].angle) else old(h.0.image))
    {
      var i := 0;
      while i < |hits|
        invariant 0 <= i <= |hits|
        invariant score == old(score) + if scoreDying then i else old(CountLive(hits[..i]))
        invariant forall j :: 0 <= j < i ==>
          hits[j].0.deathTime == MarkDestroyed(old(hits[j].0.deathTime), now) &&
          hits[j].0.image == (if old(hits[j].0.deathTime).None? then Drones.Wreck(hits[j].1[0].angle) else old(hits[j].0.image))
        invariant forall j :: i <= j < |hits| ==>
          hits[j].0.deathTime == old(hits[j].0.deathTime) && hits[j].0.image == old(hits[j].0.image)
      {
        assert hits[..i + 1][..i] == hits[..i];
        var (drone, torps) := hits[i];
        assert hits[i] in hits;
        if scoreDying || drone.deathTime.None? {
          score := score + 1;
        }
        drone.Destroy(torps[0].angle, now);
        i := i + 1;
      }
      assert hits[..i] == hits;
    }
  }
}
