# Relativity Wars — a verified model of the game's rules

Relativity Wars is a pygame shooter. The player's fighter flies around a screen that holds
black holes. Drones enter from the edges and fire radial bursts of enemy torpedoes at it. The
player fires torpedoes at the drones: one point per drone hit, five lives, and a high score
kept across games. The black holes grow, and drones spawn faster, as the game goes on.

This project models, in Dafny, the discrete rules around that physics, and proves what they
promise:

- **Fighter** (`fighters.dfy`): the fighter's state machine.
  - Direction priority of the W/A/S/D keys.
  - Clamping to the screen edges, with the velocity zeroed when clamped.
  - Thrust, gravity and drag composed in the order of `update`.
  - `destroy`, which records the time of death only once, and `reset`, which restores the
    spawn state.
  - `fire`, launching a torpedo from a live fighter.
- **Black holes** (`black_holes.dfy`): `enlarge` grows a hole by 3 while its side is at most 200,
  and `gravity` is size / 100.
- **Drones** (`drones.dfy`):
  - Where a drone spawns and which way it heads.
  - The ordered decision ladder of `Drone.update`: off the screen, touching a black hole, too
    old, firing a burst, finishing the death animation.
  - The 7-torpedo radial burst.
  - `destroy`.
- **Star field** (`star_field.dfy`): `Stars.update` deletes, in a reversed in-place loop, every
  star that drifts off the screen, then appends exactly that many new ones along the edges.
- **Session** (`game.dfy`): the `RelativityWars` class.
  - The fixed `GameParams`.
  - Start-screen button hit-testing.
  - `setup_game` and `game_over`.
  - The event section of `game_loop`: Escape, R, click, drone spawn, and the spawn-interval
    ramp that also enlarges the black holes.
    The loop is proved one event at a time. `HandleNext` passes each event to a step method
    for its kind (`NextReset`, `NextClick`, `NextSpawn`, `NextRamp`, `NextQuiet`). Each step
    calls `HandleEvent` and extends the invariant `EventsHandled` by that event.
  - Enemy-torpedo hits on the fighter: lives, game over, high score.
  - Player-torpedo hits on drones: score.
- **Sprite groups** (`sprites.dfy`): a pygame `Group` as an insertion-ordered sequence without
  duplicates.
- **Torpedoes** (`torpedoes.dfy`): a torpedo as its centre, angle and speed.
- **Shared definitions** (`common.dfy`): `Option`, `Max`, Python's `math.ceil`, Python
  truthiness of a death time, and the "record only the first death time" rule.
- **Findings** (`findings.dfy`): short games played through the model that exhibit the two
  findings below.

How the model treats what it cannot compute:

- Floating-point values are exact reals.
- The current time (`time.time()`) is a parameter `now`.
- Random choices are supplied by the caller: `SpawnDraw`, `HoleDraw`, `FieldDraw`, `EdgeDraw`.
  Each is required to lie in the range the `random` call produces: `SpawnDrawFits` (`randrange(0, n)`),
  `HoleDrawFits` (`randrange(200, n - 200)`), `FieldDrawFits` and `EdgeDrawFits` (`randint(0, n)`).
- The gravity vector, the cosine and sine of the fighter's heading (`trig`), and the results of
  pygame's collision tests are inputs.

Facts of the code that the model keeps:

- A drone's burst has 7 torpedoes, at angles 0 to 270 in steps of 45 (main.py:265-266).
- `GameParams` gives the same values on every level (main.py:351-355).
- Black holes never move; only their size changes (main.py:44-59).
- A hit on the fighter has no shield or immunity window: every frame with a hit costs a life (main.py:496-498).
- Score and lives are not reset when a new game starts (main.py:545-547); see Findings.
- The start-screen image is drawn at the fixed point (785, 300) (main.py:561). The buttons are hit-tested (main.py:450-458) and the score texts drawn (main.py:564-573) at the offset of main.py:402. The hit areas line up with the drawn buttons only on a 1920 x 1080 screen.
- A black hole's `gravity` property (main.py:52-54) is read nowhere. The pull comes from `calculate_gravity` (main.py:27-38), which uses only the holes' centres. `enlarge` (main.py:56-59) changes only `size` and the image; it does not refresh the collision rectangle.

## Model

| member | source | states |
|---|---|---|
| Common.Max | main.py:433 | the result is one of the two arguments and at least each of them (the `max([...])` of the high score) |
| Common.Ceil | main.py:115 | `math.ceil`: the least integer not below x |
| Common.MarkDestroyed | main.py:172-177 | the first hit records the current time; an already recorded time is kept |
| Common.MarkDestroyedIdempotent | main.py:277-282 | destroying twice leaves the death time of the first destruction |
| BlackHoles.GrowthSteps | main.py:56-58 | the number of `enlarge` calls that still grow a hole: none above 200, else the least count that passes 200 |
| BlackHoles.Enlarged | main.py:56-58 | one `enlarge` never shrinks a hole, adds at most 3, and never takes a hole of size at most 203 above 203 |
| BlackHoles.EnlargedGrowsOrStops | main.py:56-58 | `enlarge` adds exactly 3 when the size is at most 200, changes nothing above, and never shrinks |
| BlackHoles.EnlargedTimesClosedForm | main.py:56-58 | n calls of `enlarge` add 3 for each call until the size passes 200, then nothing |
| BlackHoles.EnlargedTimesBounded | main.py:56-58 | a hole of size at most 203 keeps a size between its start and 203 whatever the number of calls |
| BlackHoles.BlackHole.constructor | main.py:44-50 | a hole with the given centre and size |
| BlackHoles.BlackHole.Gravity | main.py:52-54 | gravity times 100 is the size |
| BlackHoles.BlackHole.Enlarge | main.py:56-59 | the new size is the old one grown once |
| BlackHoles.GravityBounded | main.py:52-59 | a hole's `gravity` property never exceeds 2.03 and enlarging never lowers it |
| Sprites.Without | main.py:496 | removing killed sprites keeps exactly the sprites not killed, never adding one |
| Sprites.WithoutNothing | main.py:496 | removing no sprite leaves the group unchanged |
| Sprites.WithoutDistinct | main.py:496 | removing sprites keeps a group free of duplicates |
| Sprites.Group.constructor | main.py:382-384 | a new group is empty |
| Sprites.Group.Add | main.py:427 | adding appends a sprite not yet in the group and ignores one already in it |
| Sprites.Group.Empty | main.py:436-438 | `empty` leaves no sprite |
| Sprites.Group.RemoveAll | main.py:496 | the group afterwards is the old one without the removed sprites, in order |
| Torpedoes.Torpedo.constructor | main.py:197-206 | a torpedo at the given centre, angle and speed |
| Fighters.DirectionFor | main.py:95-112 | no movement key keeps the direction; otherwise every key of the chosen direction is held |
| Fighters.DirectionFollowsPriority | main.py:95-112 | the direction is the first held combination in the order W+D, D+S, S+A, A+W, W, D, S, A, or unchanged when none is held |
| Fighters.DiagonalsWin | main.py:97-108 | two adjacent keys always give a diagonal; W with S gives up, A with D gives right |
| Fighters.MoveAxis | main.py:114-126 | one axis of `_move`: on a screen of non-negative size the coordinate ends in [0, bound]; the velocity component is kept or zeroed, never changed otherwise |
| Fighters.MoveAxisClamps | main.py:114-126 | the coordinate stays in [0, bound]; inside it is ceil(c + v) with v kept; clamped at 0, v becomes 0; clamped at the far edge, v becomes 0 exactly when v >= 0, and is kept otherwise |
| Fighters.MoveAxisInside | main.py:114-126 | when c + v is on the screen the velocity is kept and the coordinate is within one step of c + v |
| Fighters.Moved | main.py:114-126 | both axes of `_move`: the new centre is on the screen whenever the screen has non-negative size |
| Fighters.Thrust | main.py:128-135 | a dead fighter, or one with no movement key held, gets no thrust |
| Fighters.Accelerated | main.py:128-137 | the velocity has two components; with no thrust and no gravity it only loses the 5% drag |
| Fighters.Fighter.constructor | main.py:78-93 | the fighter starts at (100, 100) unless a position is given, at rest, facing right, alive |
| Fighters.Fighter.UpdateDirection | main.py:95-112 | the new direction is the one the priority order chooses |
| Fighters.Fighter.Move | main.py:114-126 | both axes are moved and clamped as MoveAxis states and the centre ends on the screen |
| Fighters.Fighter.Accelerate | main.py:128-137 | thrust only while alive and steering, then gravity, then 5% drag |
| Fighters.Fighter.Update | main.py:139-148 | a dead fighter resets more than a second after its death and keeps its image until then; a live one turns to the keys; both then accelerate and move |
| Fighters.Fighter.Reset | main.py:153-157 | back at the spawn point, facing right, at rest, alive |
| Fighters.Fighter.Destroy | main.py:172-177 | the death time is recorded once; the wreck image replaces the image only on the first hit |
| Fighters.Fighter.Fire | main.py:159-168 | a live fighter appends one fresh torpedo at its centre with the given angle and speed 20; a dead one fires nothing |
| Drones.SpawnPosition | main.py:243-249 | a drone spawns on a left/right edge at the drawn height, or a top/bottom edge at the drawn column |
| Drones.SpawnVelocity | main.py:242-248 | speed 8 across the drawn edge, either way, and 3 along it, either way |
| Drones.SpawnHeadsInward | main.py:242-248 | it crosses the screen at speed 8 away from its edge, with a sideways speed of 3 either way |
| Drones.InBounds | main.py:258 | the bounds include the edges: the corners (0, 0) and (width, height) are inside |
| Drones.SpawnInBounds | main.py:243-249 | a drone spawned from draws in `randrange`'s range starts inside the bounds |
| Drones.Decide | main.py:258-272 | off-screen, black-hole contact and age above 10 remove the drone; a burst happens only when alive and more than 1.5 after the last one |
| Drones.DyingDroneNeverFires | main.py:264-272 | a dying drone never fires; it is removed more than 0.5 after its death, and kept until then while on the screen, clear of black holes and at most 10 old |
| Drones.LiveDroneFiresOnSchedule | main.py:262-269 | a live drone on the screen fires exactly when it is at most 10 old and is due, and is removed exactly when too old |
| Drones.Drone.constructor | main.py:236-252 | a new drone: spawn position and velocity from the draw, born and last fired now, alive |
| Drones.Drone.Update | main.py:254-272 | drag, rounding and the decision ladder with inclusive screen bounds; a burst appends 7 fresh torpedoes at the drone's centre, at 45-degree steps and speed 10; nothing else is fired |
| Drones.Drone.FireRadialBurst | main.py:265-266 | the group gains exactly 7 torpedoes after the old ones, with angles 0, 45, ..., 270 |
| Drones.Drone.Destroy | main.py:277-282 | the death time is recorded once; the wreck image replaces the image only on the first hit |
| StarField.Shifted | main.py:311 | each frame a star drifts left and down, keeping its shade and radius |
| StarField.OnScreen | main.py:313 | the open rectangle: a star on an edge is off the screen, and nothing is on a screen of zero width or height |
| StarField.Kept | main.py:306-315 | the surviving stars are never more than the stars before |
| StarField.KeptMembers | main.py:311-314 | a star survives the frame exactly when it is some old star shifted by the velocity and inside the open screen rectangle |
| StarField.KeptConcat | main.py:308-315 | survivors of two runs of stars are the survivors of each, in order |
| StarField.KeptAllOnScreen | main.py:308-315 | when no star leaves the screen, every star survives, shifted, in its order |
| StarField.NewStar | main.py:322-336 | a new star enters on the top edge or the right edge, with the drawn kind's shade and radius |
| StarField.Spawned | main.py:319-336 | exactly the requested number of new stars |
| StarField.Stars.constructor | main.py:302-347 | 500 stars, each at the drawn position with the drawn kind |
| StarField.Stars.Update | main.py:306-317 | the stars are the survivors in order followed by as many new stars as were deleted, so their number is unchanged |
| StarField.Stars.NewStars | main.py:319-336 | the requested number of new stars is appended after the existing ones |
| Game.RampedFreq | main.py:491 | the spawn interval after a ramp event is never negative, never higher and is either lowered by the ramp or 0 |
| Game.RampedTimesClosedForm | main.py:490-492 | after n ramp events the interval is max(0, freq - ramp * n) |
| Game.RampedTimesMonotone | main.py:490-492 | more ramp events never give a longer interval, nor a negative one |
| Game.SpawnTimerStops | main.py:351-355 | with the game's constants the interval reaches 0 exactly at the 200th ramp event |
| Game.TruncHalf | main.py:402 | Python's int(x / 2): the half rounded towards zero |
| Game.StartScreenOffset | main.py:402 | the offset at which the buttons are hit-tested and the score texts drawn centres a 350 x 480 area to within one pixel on each axis |
| Game.StartScreenOffsetFullHd | main.py:402 | on a 1920 x 1080 screen the offset is (785, 300), the fixed point where the start-screen image is drawn |
| Game.IsMouseOverButton | main.py:450-458 | a pointer over a button lies strictly inside the 350 x 480 area at the offset |
| Game.ButtonsExclusive | main.py:450-458 | no pointer position is over two buttons |
| Game.ButtonsReachable | main.py:450-458 | every button has a pointer position over it |
| Game.GameOverSoundFor | main.py:500-508 | each sound exactly on its score band: 50 and up, 20 to 49, 10 to 19, below 10 |
| Game.GameOverSoundMonotone | main.py:500-508 | a higher score never earns a lesser game-over sound |
| Game.FirstEscape | main.py:478-483 | the index of the first Escape key, or the length when there is none |
| Game.SpawnDraws | main.py:488-489 | the draws of the DRONESPAWN events in order, at most one per event |
| Game.Shots | main.py:484-487 | the torpedoes the clicks launch in order, at most one per event, each marked by whether an R reset came before it |
| Game.DeadFighterFiresNothing | main.py:478-487 | without an R reset, a dead fighter's clicks launch nothing |
| Game.LiveFighterFiresFromStart | main.py:478-487 | without an R reset, every torpedo the clicks launch leaves from the starting centre |
| Game.SpawnedAtStep | main.py:488-489 | one more event extends the spawned drones by the drone of its draw if it is DRONESPAWN, and by nothing otherwise |
| Game.FiredFromStep | main.py:484-487 | one more event extends the launched torpedoes by one torpedo if it is a click of a live fighter, and by nothing otherwise |
| Game.DistinctDronesCount | main.py:514-516 | a collision dictionary has as many entries as distinct drones |
| Game.RelativityWars.constructor | main.py:361-409 | a new session: empty groups, five lives, no score, on the start screen, with the button offset centring a 350 x 480 area |
| Game.RelativityWars.GetLevel | main.py:411-413 | sets the level and its parameters |
| Game.RelativityWars.NextLevel | main.py:415-417 | advances the level by one with its parameters |
| Game.RelativityWars.PlaceBlackHoles | main.py:422-427 | exactly the level's number of fresh holes, at the drawn positions and sizes |
| Game.RelativityWars.SetupGame | main.py:419-430 | a fresh star field of 500 stars on the game's screen, each built from its draw, the level's spawn interval on the spawn timer, the ramp timer at 3000, one fresh black hole per draw at its position and size, the fighter reset |
| Game.RelativityWars.StartGameAsWritten | main.py:545-547 | Play starts the game and sets it up with everything SetupGame states, leaving score and lives as they were |
| Game.RelativityWars.StartGame | main.py:545-547 | Play starts the game with no score and five lives, and sets it up with everything SetupGame states |
| Game.RelativityWars.GameOver | main.py:432-439 | high score becomes max(score, high score); the fighter is reset; drones and both torpedo groups are emptied; the spawn timer is off |
| Game.RelativityWars.RampSpawn | main.py:490-494 | the interval is ramped and the spawn timer set to it; every black hole is enlarged once |
| Game.RelativityWars.HandleEvent | main.py:484-494 | R puts the fighter at its spawn point, and any other event leaves it unchanged; a live fighter's click appends one fresh torpedo at its centre with the click's angle and speed 20, a dead fighter's click appends none; DRONESPAWN appends one fresh drone with the position and velocity of its draw, born now; only INCREASEDRONESPAWN changes the interval, the spawn timer and the holes, each hole enlarged once; the enemy torpedoes are outside its frame |
| Game.RelativityWars.HandleEvents | main.py:477-494 | the events before the first Escape are handled in order, and the interval and every hole reflect their ramp events; Escape then ends the game as game_over does; without Escape, the fighter is at its spawn point if an R came and unchanged otherwise, the old drones are followed by one drone per spawn event with the position and velocity of its draw, the old torpedoes by one per click of a live fighter (from the spawn point after an R, from the start position before one), and the enemy torpedoes are unchanged |
| Game.RelativityWars.HandleUntilEscape | main.py:477-494 | the events of a list without Escape, handled in order: the same ramp, fighter, drone and torpedo results as HandleEvents, with the appended drones and torpedoes returned |
| Game.RelativityWars.HandleEach | main.py:478 | the `for` loop over the events: after them all, the session is as EventsHandled states for the full list |
| Game.RelativityWars.HandleNext | main.py:479-494 | handling one more event extends EventsHandled to the longer list, returning the drone or torpedo that event adds |
| Game.RelativityWars.ResolveFighterHits | main.py:496-512 | any hit removes the hitting torpedoes and costs exactly one life; below zero the game ends with the score's sound and the fighter keeps its image; otherwise the fighter is destroyed with the first hit's angle and keeps its position, velocity and direction; no hit changes nothing |
| Game.RelativityWars.ResolveDroneHitsAsWritten | main.py:514-518 | the hitting torpedoes are removed; the score rises by the number of distinct drones hit; each is destroyed with its first torpedo's angle |
| Game.RelativityWars.ResolveDroneHits | main.py:514-518 | as above, but only drones not already dying score |
| Game.RelativityWars.DestroyHitDrones | main.py:516-518 | the loop over the collision dictionary: score and destroy each drone once |
| Findings.StartedSession | main.py:545-547 | a new session after Play: five lives, no score, game active |
| Findings.PlayUntilGameOver | main.py:496-512 | six hits from five lives end the game at -1 lives |
| Findings.SecondGameAsWritten | main.py:545-547 | the code as written starts a second game at -1 lives; its first hit ends it |
| Findings.SecondGame | main.py:545-547 | with the reset, the second game starts at five lives and survives its first hit |
| Findings.HitDrone | main.py:514-518 | a drone spawned at time 0 and hit at 1.0 scores one point and is dying from 1.0, still at its spawn point |
| Findings.DyingDrone | main.py:254-272 | a drone hit at 1.0 is still on screen, dying, at 1.05 |
| Findings.HitDyingDroneAsWritten | main.py:514-518 | the code as written scores that drone a second time when it is hit again |
| Findings.HitDyingDrone | main.py:514-518 | the intended scoring counts that drone once |

## Left out

- Gravity (`RWSprite.calculate_gravity`) uses `sqrt`, `atan` and `**1.1` on floats. It is an input to the fighter and drone updates.
- Torpedo flight (`Torpedo.update`) and the torpedo's velocity from its angle use floating-point `cos`/`sin`/`atan`. A torpedo is only its centre, angle and speed; its removal at the screen edge or a black hole is not modelled.
- The fire angle towards the pointer (`fire`, main.py:161-167) is computed with `atan` on the mouse position. It is a parameter of `Fighters.Fighter.Fire`.
- Fighters.Fighter.Accelerate: the cosine and sine of the heading are the parameter `trig`, so the thrust is stated in terms of `trig` rather than as real trigonometry.
- Collision detection (`spritecollide`, `groupcollide`, rectangle overlap) is pygame. Its results are inputs, and "touches a black hole" is an input to `Drone.Update`.
- Rendering, images, fonts, sounds, the music toggle, the crosshair, `draw`, `score_display`, and the `play`/`start_screen_loop` event pumping are left out. The game-over sound is returned as a value.
- pygame timers are modelled as the interval each timer is set to: `droneSpawnTimer` and `rampTimer`, where 0 means off. Their firing is the `DroneSpawn` and `IncreaseDroneSpawn` events given to `HandleEvents`.
- The rest of `game_loop`, i.e. the group updates and drawing of one frame, is not composed into a single method. The updates are modelled per object (`Fighter.Update`, `Drone.Update`, `Stars.Update`); a pygame group's `update` looping over its sprites is not.
- `time.time()` is the parameter `now`, and the random draws are parameters. The weights of `random.choices` are not modelled: any kind and axis may be drawn.
- Game.RelativityWars.HandleEvents: does not state that the appended drones and torpedoes are fresh objects, because the loop invariant `EventsHandled` does not carry freshness; HandleEvent states it for each single event.
- Game.RelativityWars.ResolveFighterHits: the hits are given as a sequence of torpedoes. Whether they are members of the enemy group is not checked.
- Drones.Drone.Update: the source's `self.kill()` is the returned flag `killed`. The drone is not taken out of the drone group.
- Game.RelativityWars.ResolveDroneHits: the hit drones and torpedoes are given as a sequence of pairs, each a drone with the torpedoes that hit it. Whether they are members of their groups is not checked. The hitting torpedoes are removed from the torpedo group, and the hit drones stay in the drone group, as in the source. The same holds for ResolveDroneHitsAsWritten and DestroyHitDrones.
- Game.RelativityWars.SetupGame: requires both screen dimensions above 400, because `random.randrange(200, dimension - 200)` raises otherwise.
- Game.RelativityWars.constructor: the optional `fighter` argument of `__init__` (main.py:397, 406-409) is left out; the only call (main.py:578) passes none, so the session always builds its own fighter.
- Game.RelativityWars.constructor: the sprite groups are class attributes in the source (main.py:382-384, 391), shared by every instance. Each session here has its own fresh groups; the two agree while there is one session.
- Module-level display setup and `setup.py` (a build script) are not part of this model.

## Findings

| source | as written | input that shows it | evidently intended | confidence | as-written member | corrected member |
|---|---|---|---|---|---|---|
| main.py:545-547 | clicking Play sets the game active and calls `setup_game`, which resets neither `score` nor `lives`; a lost game leaves lives at -1 | lose a game (six hits), click Play, take one hit: lives go from -1 to -2 and the game ends at once | a new game starts with five lives and no score | not executed | Findings.SecondGameAsWritten | Game.RelativityWars.StartGame (used by Findings.SecondGame) |
| main.py:514-518 | every drone in the collision result scores a point, including one already in its half-second death animation, which stays in the drone group and still collides | a drone hit at time 1.0 is hit again by another torpedo at 1.1, before `Drone.update` removes it at 1.5: the score rises by 2 | each drone destroyed scores once | not executed | Findings.HitDyingDroneAsWritten | Game.RelativityWars.ResolveDroneHits (used by Findings.HitDyingDrone) |
