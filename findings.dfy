/** Two short games played through the model, each once as the source is written and once as
    evidently intended. */
module Findings {
  import opened Common
  import opened Torpedoes
  import opened Drones
  import opened StarField
  import opened Game

  /** A session on a 1000 x 800 screen that has been through the start screen once. */
  method StartedSession(asWritten: bool) returns (game: RelativityWars)
    ensures fresh(game) && fresh(game.fighter) && fresh(game.blackHoles) && fresh(game.drones)
    ensures fresh(game.torpedoes) && fresh(game.enemyTorpedoes)
    ensures game.Valid() && game.gameActive
    ensures game.screenShape == (1000, 800) && game.score == 0 && game.lives == StartLives
  {
    game := new RelativityWars((1000, 800), 1);
    if asWritten {
      game.StartGameAsWritten((i: nat) => HoleDraw((500, 400), 100), (i: nat) => FieldDraw(0, 10, 10));
    } else {
      game.StartGame((i: nat) => HoleDraw((500, 400), 100), (i: nat) => FieldDraw(0, 10, 10));
    }
  }

  /** Hit the fighter once per frame until its lives run out: six hits from five lives. */
  method PlayUntilGameOver(game: RelativityWars)
    requires game.Valid() && game.gameActive && game.lives == StartLives
    modifies game, game.fighter, game.drones, game.torpedoes, game.enemyTorpedoes
    ensures game.Valid() && !game.gameActive && game.lives == -1 && game.score == old(game.score)
  {
    var k := 0;
    while k < 6
      invariant 0 <= k <= 6 && game.Valid() && game.lives == StartLives - k
      invariant game.score == old(game.score)
      invariant game.gameActive <==> k < 6
    {
      var hit := new Torpedo((100, 100), 0.0, DefaultSpeed);
      var sound := game.ResolveFighterHits([hit], k as real);
      k := k + 1;
    }
  }

  /** As written: after a lost game, Play starts the next one with -1 lives, so the very first
      hit of the second game ends it. */
  method SecondGameAsWritten() returns (livesAtStart: int, livesAfterHit: int, active: bool)
    ensures livesAtStart == -1 && livesAfterHit == -2 && !active
  {
    var game := StartedSession(true);
    PlayUntilGameOver(game);
    game.StartGameAsWritten((i: nat) => HoleDraw((500, 400), 100), (i: nat) => FieldDraw(0, 10, 10));
    livesAtStart := game.lives;
    var hit := new Torpedo((100, 100), 0.0, DefaultSpeed);
    var sound := game.ResolveFighterHits([hit], 10.0);
    livesAfterHit := game.lives;
    active := game.gameActive;
  }

  /** As intended: the second game starts with five lives and no score, and one hit costs
      one life without ending it. */
  method SecondGame() returns (livesAtStart: int, livesAfterHit: int, score: int, active: bool)
    ensures livesAtStart == StartLives && livesAfterHit == StartLives - 1 && score == 0 && active
  {
    var game := StartedSession(false);
    PlayUntilGameOver(game);
    game.StartGame((i: nat) => HoleDraw((500, 400), 100), (i: nat) => FieldDraw(0, 10, 10));
    livesAtStart := game.lives;
    var hit := new Torpedo((100, 100), 0.0, DefaultSpeed);
    var sound := game.ResolveFighterHits([hit], 10.0);
    livesAfterHit := game.lives;
    score := game.score;
    active := game.gameActive;
  }

  /** A 1000x800 session whose one drone, spawned at time 0 on the left edge 400 down, has
      just been hit by a torpedo at time 1.0. */
  method HitDrone() returns (game: RelativityWars, drone: Drone)
    ensures fresh(game) && fresh(game.fighter) && fresh(game.blackHoles) && fresh(game.drones)
    ensures fresh(game.torpedoes) && fresh(game.enemyTorpedoes) && fresh(drone)
    ensures game.Valid() && game.score == 1 && drone.deathTime == Some(1.0)
    ensures drone.screen == game.screenShape == (1000, 800) && drone.enemyTorpedoGroup == game.enemyTorpedoes
    ensures drone.center == (0, 400) && drone.velocity == (8.0, 3.0)
    ensures drone.initTime == 0.0 && drone.lastFiredTime == 0.0
  {
    game := new RelativityWars((1000, 800), 1);
    drone := new Drone(game.screenShape, game.enemyTorpedoes, SpawnDraw(true, false, 400, true), 0.0);
    game.drones.Add(drone);
    var first := new Torpedo((0, 400), 0.0, DefaultSpeed);
    var hits := [(drone, [first])];
    assert HitDrones(hits) == {drone};
    game.ResolveDroneHitsAsWritten(hits, 1.0);
  }

  /** A drone spawned at the left edge and hit by a torpedo at time 1.0 is, at 1.05, still on
      screen in its death animation. */
  method DyingDrone() returns (game: RelativityWars, drone: Drone)
    ensures fresh(game) && fresh(game.fighter) && fresh(game.blackHoles) && fresh(game.drones)
    ensures fresh(game.torpedoes) && fresh(game.enemyTorpedoes) && fresh(drone)
    ensures game.Valid() && game.score == 1 && drone.deathTime == Some(1.0)
    ensures drone.center == (8, 403)
  {
    game, drone := HitDrone();
    var killed := drone.Update(1.05, (0.0, 0.0), false);
    assert drone.velocity == (7.2, 2.7);
    assert InBounds(drone.center, drone.screen);
    assert !killed;
  }

  /** As written: hitting the drone's remains at 1.1 scores a second point for one drone. */
  method HitDyingDroneAsWritten() returns (score: int)
    ensures score == 2
  {
    var game, drone := DyingDrone();
    var second := new Torpedo(drone.center, 0.0, DefaultSpeed);
    var again := [(drone, [second])];
    assert HitDrones(again) == {drone};
    game.ResolveDroneHitsAsWritten(again, 1.1);
    score := game.score;
  }

  /** As intended: the remains absorb the torpedo but the drone has already been scored. */
  method HitDyingDrone() returns (score: int)
    ensures score == 1
  {
    var game, drone := DyingDrone();
    var second := new Torpedo(drone.center, 0.0, DefaultSpeed);
    var again := [(drone, [second])];
    assert HitDrones(again) == {drone};
    assert again[..0] == [];
    game.ResolveDroneHits(again, 1.1);
    score := game.score;
  }
}
