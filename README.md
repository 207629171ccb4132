# CNP invader: a verified model of the simulation core

CNP invader is a fixed-shooter arcade game for the browser. A ninja at the bottom of a
360 × 640 canvas throws shurikens at a 5 × 8 formation of enemies. The formation marches
sideways and drops at the edges. A bonus UFO crosses the top of the screen every ten
seconds. Once the formation is gone, a boss appears after a 3.5-second countdown.

Holding the fire key for three seconds charges a special shuriken, which is thrown on
release. The game is over when an enemy reaches the bottom of the screen or touches the
player (after a two-second grace period). Scores and a high score are kept.

This project models that core in Dafny and proves properties of the model:

- the game object's fixed-step loop (60 updates a second, drained from an accumulator)
  and its screen switching;
- the play screen's tick: player, formation, UFO, boss, bullets, collisions, boss
  countdown and end-of-wave check, in that order;
- collision resolution;
- the formation movement;
- the player, enemy, boss and UFO state machines;
- the bullets;
- score and input bookkeeping;
- the bouncing ninja of the game-clear screen.

Positions and times are exact `real`s, and counts, health and scores are `int`s. The
constants of the game's configuration are Dafny `const`s in module `Config`.

### How the source's form is kept

- **Classes for objects updated in place.** The loop object, the play screen, the
  player, the UFO (and its class-wide spawn timer), the boss, the formation system and
  the score and input managers are classes.
  - Each class has a `State()` snapshot.
  - Each method that changes state ensures `State() == F(old(State()), …)` for a pure
    function `F`.
  - The loops of the source remain loops, with invariants tying them to those
    functions:
    - `Games.Game.GameLoop` drains the accumulator;
    - `Collision.CheckPlayerBulletCollisions` is the reverse-index pass;
    - `Collision.ScanEnemiesFor` is the inner enemy scan;
    - `GameScreens.GameScreen.CreateEnemies` is the nested grid loop;
    - the formation loops are in `Formation.FormationSystem`.
- **Values for list elements.** Enemies, player bullets and enemy bullets are datatypes
  kept in the screen's `seq` fields. `splice`, `filter` and `push` replace those
  sequences.

The properties are mostly lemmas about the pure functions.

### Two findings and two corrections

Two defects of `checkPlayerBulletCollisions` as written are shown on concrete frames
(see Findings below). `Collision.CheckPlayerBulletCollisions` runs either reading,
chosen by a `Variant` parameter; the play screen runs the corrected pass:

- each bullet is spliced out once;
- the UFO and the boss are checked through their screen slots.

### Unreachable branches in the source

- **The game-clear branch.** A boss killed by a bullet is removed from its slot inside
  the collision pass. The same tick's `checkGameState` then starts a new boss
  countdown. So `updateBoss` never sees an inactive boss. The play-screen tick takes
  the bullet pass's reading from its environment (`Env.pass`), so these lemmas hold
  for the pass as written as well as for the corrected one:
  - `GameScreenProps.RunNeverClears` and `GameScreenProps.EnteredNeverClears`: no run
    ever sets `gameCleared` or asks for the clear screen;
  - `GameScreenProps.BossKillReschedules`: a boss kill starts a new countdown (and
    awards BOSS_KILL at least once, exactly once in the corrected pass).
- **The `'gameClear'` screen is never registered**, so switching to it does nothing
  (`Games.GameClearSwitchIsInert`).
- **The formation never moves as shipped.** The formation's minimum speed multiplier is
  missing from the configuration. The shipped formation never moves
  (`Formation.ShippedFormationNeverMoves`). The multiplier is therefore a parameter:
  `None` for the shipped NaN.
- **Fewer enemies march slower.** With a configured minimum the interval is
  `max(m, 1 − n/50)` seconds for n enemies, which grows as enemies die, although the
  source's comment says the march speeds up (`Formation.FewerEnemiesMarchSlower`). As
  shipped the formation does not move at all, so this is recorded here and not changed.

## Model

| member | source | states |
|---|---|---|
| Games.Game.constructor | src/js/game.js:11-29 | no screens, no current screen, clock and accumulator at 0, not running |
| Games.Game.AddScreen | src/js/game.js:32-34 | the registry maps the name to the screen (see ScreenAddedSpec) |
| Games.ScreenAddedSpec | src/js/game.js:32-34 | the name now maps to the new screen, replacing any old entry; every other name is untouched; nothing else changes |
| Games.Game.SwitchScreen | src/js/game.js:37-45 | the new state is the switch described by SwitchedSpec |
| Games.SwitchedSpec | src/js/game.js:37-45 | unregistered name: nothing changes and no exit or enter is called; registered name: exit on the old screen (if any), then the named screen becomes current and is entered; only the current screen and the call log change |
| Games.GameClearSwitchIsInert | src/js/main.js:60-63 | with the four screens main.js registers, switching to 'gameClear' changes nothing, while 'gameOver' is found |
| Games.Game.Start | src/js/game.js:48-54 | starts only when stopped: running, clock read, one frame requested |
| Games.StartIdempotent | src/js/game.js:48-54 | a second start while running changes nothing |
| Games.Game.Stop | src/js/game.js:57-59 | only isRunning changes, to false |
| Games.StoppedLoopIsInert | src/js/game.js:62-63 | after stop the next gameLoop returns at once and changes nothing |
| Games.Game.GameLoop | src/js/game.js:62-88 | the while loop drains the accumulator with one update per chunk; the new state is the frame of Looped, whose meaning DrainsSpec, FrameCalls and AccumulatorStaysBelowStep state |
| Games.DrainsSpec | src/js/game.js:70-78 | the loop drains floor(acc/timeStep) chunks from a non-negative accumulator and leaves less than one chunk; a negative accumulator drains none |
| Games.FrameCalls | src/js/game.js:66-84 | a running frame on a current screen calls update(timeStep/1000) exactly floor((acc+Δ)/timeStep) times, then render once; earlier calls are kept and one more frame is requested |
| Games.AccumulatorStaysBelowStep | src/js/game.js:66-78 | an accumulator in [0, timeStep) and Δ ≥ 0 leave it in [0, timeStep), with lastTime = currentTime |
| Games.TotalUpdatesDependOnElapsed | src/js/game.js:62-88 | over any ascending run of frames from an accumulator in [0, timeStep), the updates total floor((acc + elapsed)/timeStep), so they depend only on the total time; the accumulator stays in [0, timeStep) |
| GameClear.GameClearScreen.constructor | src/js/screens/gameClearScreen.js:20-23 | offset 0, direction 1 |
| GameClear.GameClearScreen.Update | src/js/screens/gameClearScreen.js:46-55 | the state after one update is Bounced of the old one; deltaTime plays no part |
| GameClear.BouncedSpec | src/js/screens/gameClearScreen.js:48-54 | from any state the offset ends in [0, 25]; the direction flips when the moved offset is ≥ 25 or ≤ 0 and is kept strictly between; a direction of ±1 stays ±1; an in-range moved offset is kept |
| GameClear.BouncesStayInRange | src/js/screens/gameClearScreen.js:46-55 | every state reached by any number of updates from an in-range state is in range |
| GameClear.Rising | src/js/screens/gameClearScreen.js:48 | from the initial state, update k ≤ 16 leaves the offset at 1.5k, rising |
| GameClear.Falling | src/js/screens/gameClearScreen.js:48-54 | update 17 + j (j ≤ 16) leaves the offset at 25 − 1.5j, falling |
| GameClear.JumpCycle | src/js/screens/gameClearScreen.js:46-55 | the bounce reaches 25 at update 17 and is back at the initial state after 34 updates |
| Collision.EntityCollisionSpec | src/js/systems/collisionSystem.js:15-22 | the test is symmetric; it holds exactly when the centres are closer than half the summed sizes on both axes; boxes that only touch do not collide |
| Collision.RemoveAt | src/js/systems/collisionSystem.js:35 | splice(i, 1): one element fewer, those after i shifted down by one; an index past the end removes nothing |
| Collision.LastHitSpec | src/js/systems/collisionSystem.js:30-44 | the reverse scan finds the highest-indexed overlapping enemy below k, or reports that none overlaps |
| Collision.ScanEnemiesSpec | src/js/systems/collisionSystem.js:30-44 | with no overlapping enemy the lists are unchanged; otherwise only the highest-indexed overlapping enemy is touched, so at most one enemy is damaged per bullet |
| Collision.ScanHitAt | src/js/systems/collisionSystem.js:33-43 | the hit enemy loses exactly 1 health whatever the bullet's damage; the bullet is spliced out; the enemy is spliced out (and the kill reported) exactly when it is no longer active; the other enemies keep their order |
| Collision.ScanEnemiesFor | src/js/systems/collisionSystem.js:30-44 | the inner loop computes ScanEnemies for its bullet |
| Collision.HitUfoFor | src/js/systems/collisionSystem.js:47-58 | the UFO test for one bullet of either variant (as written: the `ufo` parameter and a second splice; corrected: the slot and one splice): the new UFO state, slot, bullet list and score are UfoPhase's |
| Collision.HitBossFor | src/js/systems/collisionSystem.js:60-71 | the same for the boss test and BossPhase |
| Collision.HitVisitorsFor | src/js/systems/collisionSystem.js:47-71 | the UFO test, then the boss test, of one iteration, as VisitorPhases of the same variant |
| Collision.ResolveBullet | src/js/systems/collisionSystem.js:27-71 | one outer iteration; the new pass state is BulletStep of the old one, for the given variant |
| Collision.CheckPlayerBulletCollisions | src/js/systems/collisionSystem.js:25-73 | the reverse-index loop; lists, UFO, boss, slots and score end as PlayerBulletPass of the given variant (as written, or corrected) says, with the awards handed to addScore in order |
| Collision.CorrectedStepSplicesOnce | src/js/systems/collisionSystem.js:35-63 | in the corrected pass a bullet that hits anything is spliced out exactly once and the others keep their order; a bullet that hits nothing leaves the list alone |
| Collision.CorrectedStepDamage | src/js/systems/collisionSystem.js:43-62 | the UFO (boss) loses 1 health exactly when the bullet overlaps it while it is in its slot, even if the bullet also hit an enemy: the break leaves only the enemy loop |
| Collision.StepAwards | src/js/systems/collisionSystem.js:37-70 | one step hands out an enemy kill, then a UFO kill, then a boss kill, each at most once; an enemy kill removes one enemy; a UFO or boss kill leaves it inactive and its slot null, and a slot is cleared by nothing else |
| Collision.StepVisitorCounts | src/js/systems/collisionSystem.js:52-70 | a corrected step awards the UFO (boss) kill exactly when it clears that slot; no step refills a slot |
| Collision.StepEnemyCount | src/js/systems/collisionSystem.js:37-42 | the enemy kills of one step equal the enemies it removes |
| Collision.CorrectedPassAwardsOnce | src/js/systems/collisionSystem.js:52-70 | over a corrected pass, UFO_KILL (BOSS_KILL) is awarded exactly once if the slot goes from set to cleared, and never otherwise |
| Collision.EnemyKillsAreRemovals | src/js/systems/collisionSystem.js:37-42 | in either variant, the ENEMY_KILL awards of a pass equal the enemies spliced out |
| Collision.SlotClearsAreAwarded | src/js/systems/collisionSystem.js:52-70 | in either variant no slot is refilled, and clearing the UFO (boss) slot awards UFO_KILL (BOSS_KILL) at least once |
| Collision.CorrectedPassSpec | src/js/systems/collisionSystem.js:25-73 | the whole corrected pass: at most one UFO_KILL, exactly when a UFO was present and its slot is cleared; the same for BOSS_KILL; one ENEMY_KILL per enemy removed; an empty slot stays empty |
| Collision.CheckEnemyBulletCollisions | src/js/systems/collisionSystem.js:76-86 | without a player nothing happens; otherwise each enemy bullet that overlaps the player is deactivated, and one game over is requested per overlapping bullet |
| Collision.EnemyBulletsHitSpec | src/js/systems/collisionSystem.js:79-85 | no enemy bullet moves; a bullet is active afterwards exactly when it was active and misses the player |
| Collision.HitCountSpec | src/js/systems/collisionSystem.js:79-85 | a game over is requested exactly when some enemy bullet overlaps the player, and at most once per bullet |
| Collision.CheckPlayerEnemyCollisions | src/js/systems/collisionSystem.js:89-119 | a game over is requested exactly when there is a player, collisions are enabled, and some enemy's bottom edge passes 0.9 of the canvas height or its 0.8-shrunk box overlaps the player's |
| Collision.ShrunkOverlapImpliesOverlap | src/js/systems/collisionSystem.js:106-111 | contact of the shrunk boxes implies overlap of the full boxes |
| CollisionFindings.DoubleSpliceAsWritten | src/js/systems/collisionSystem.js:35-50 | on a concrete frame the pass as written also removes the bystander bullet after the one that hit; the corrected pass keeps it |
| CollisionFindings.StaleUfoAsWritten | src/js/systems/collisionSystem.js:48-55 | on a concrete frame the pass as written awards UFO_KILL twice for one UFO; the corrected pass awards it once and keeps the second bullet |
| CollisionFindings.StaleBossAsWritten | src/js/systems/collisionSystem.js:61-68 | on a concrete frame the pass as written awards BOSS_KILL twice for one boss; the corrected pass once |
| Formation.ExtremesSpec | src/js/systems/formationSystem.js:44-52 | the folded minimum and maximum x are attained by some enemy and bound every enemy |
| Formation.FormationSystem.constructor | src/js/systems/formationSystem.js:10-16 | direction 1, timer 0, for the given canvas |
| Formation.FormationSystem.Update | src/js/systems/formationSystem.js:19-39 | new state and enemies as FormationUpdated (see UpdateSpec) |
| Formation.UpdateSpec | src/js/systems/formationSystem.js:19-39 | with no enemies nothing changes, not even the timer; otherwise the timer grows by dt and, on the tick it reaches the scaled interval, is reset to 0 with exactly one move; the list keeps its length and order; the direction stays ±1 |
| Formation.MoveDueMonotone | src/js/systems/formationSystem.js:23-32 | a due timer stays due as it grows and as the enemy count grows; with the missing constant no timer value is ever due |
| Formation.FewerEnemiesMarchSlower | src/js/systems/formationSystem.js:22-32 | with a minimum of 0.1, a timer of 0.5 s is due with 40 enemies but not with 1: the march slows as enemies die |
| Formation.FormationSystem.ExecuteFormationMove | src/js/systems/formationSystem.js:42-71 | the new direction and the moved enemies are FormationMoved's (see MoveSpec) |
| Formation.FormationSystem.FindExtremes | src/js/systems/formationSystem.js:44-52 | the loop returns the minimum and maximum x |
| Formation.MoveSpec | src/js/systems/formationSystem.js:42-71 | the formation turns exactly when heading right with some enemy at x ≥ width − 30, or heading left with some at x ≤ 30; a turn negates the direction and drops every enemy by 20 with no x change; otherwise every x moves by direction · 15 and no y changes; nothing else changes |
| Formation.FormationSystem.UpdateIndividualEnemies | src/js/systems/formationSystem.js:74-96 | every enemy gets its cooldown and animation tick |
| Formation.TickedEnemiesSpec | src/js/systems/formationSystem.js:74-96 | each enemy regains its shot with timer 0 once the timer reaches its cooldown, and otherwise accumulates dt; frames stay in range; position, health and life are untouched |
| Formation.FormationSystem.Reset | src/js/systems/formationSystem.js:99-102 | direction 1 and timer 0 |
| Formation.ShippedFormationNeverMoves | src/js/systems/formationSystem.js:23-32 | with the minimum multiplier missing, no run of updates moves any enemy or changes the direction |
| GameScreens.FilterSpec | src/js/screens/gameScreen.js:309 | filter returns exactly the accepted elements of the list, never more elements, and the list itself when all are accepted |
| GameScreens.FilterAppend | src/js/screens/gameScreen.js:309 | filter distributes over concatenation, so the kept elements keep their order |
| GameScreens.GridRowsSpec | src/js/screens/gameScreen.js:149-156 | enemy k of the first n rows is the new enemy of row k / 8 and column k % 8 |
| GameScreens.EnemyGridSpec | src/js/screens/gameScreen.js:142-160 | 40 fresh enemies; enemy k is at x = 70 + (k % 8)(width − 140)/7 and y = 120 + 50(k / 8); the outer columns are 70 pixels inside the edges |
| GameScreens.GameScreen.constructor | src/js/screens/gameScreen.js:17-50 | no player, empty lists, no UFO or boss, every flag down and every timer at 0 |
| GameScreens.GameScreen.Enter | src/js/screens/gameScreen.js:53-77 | initializeGame, then the collision-enabling callback pending |
| GameScreens.GameScreen.EnableCollisions | src/js/screens/gameScreen.js:67-70 | the callback turns collisions on and nothing else |
| GameScreens.GameScreen.InitializeGame | src/js/screens/gameScreen.js:104-139 | the new state is Initialized (see InitializedSpec) |
| GameScreens.GameScreen.ResetEntities | src/js/screens/gameScreen.js:106-119 | new player, the grid, empty lists, no UFO or boss |
| GameScreens.GameScreen.ResetProgress | src/js/screens/gameScreen.js:122-136 | flags and timers cleared, formation and score reset |
| GameScreenProps.InitializedSpec | src/js/screens/gameScreen.js:104-160 | 40 enemies in the 5 × 8 grid; an active player centred 50 pixels above the bottom; no bullets, UFO or boss; every flag false and every timer 0; formation direction 1 and timer 0; score 0 with the high score kept |
| GameScreens.GameScreen.CreateEnemies | src/js/screens/gameScreen.js:142-160 | the nested loops push exactly the grid, row by row |
| GameScreens.GameScreen.Update | src/js/screens/gameScreen.js:228-261 | the new state is Tick: nothing once over or cleared, otherwise the clock advances and player, formation (only without a boss), UFO, boss, bullets, collisions (once enabled), boss countdown and checkGameState run in that order |
| GameScreenProps.TickFrozen | src/js/screens/gameScreen.js:229 | once gameOver or gameCleared is set, update changes nothing |
| GameScreens.GameScreen.UpdateEntities | src/js/screens/gameScreen.js:233-257 | the phases after the clock, in the source's order |
| GameScreens.GameScreen.AdvanceClock | src/js/screens/gameScreen.js:231 | gameTime grows by dt |
| GameScreens.GameScreen.UpdateActors | src/js/screens/gameScreen.js:233-241 | the player, then the formation |
| GameScreens.GameScreen.UpdatePlayer | src/js/screens/gameScreen.js:234-236 | Player.update, its shots appended to the player bullets |
| GameScreens.GameScreen.UpdateFormation | src/js/screens/gameScreen.js:239-241 | the formation moves the enemies only while there is no boss |
| GameScreens.GameScreen.UpdateRest | src/js/screens/gameScreen.js:244-257 | UFO, boss, bullets, then the rules |
| GameScreens.GameScreen.UpdateVisitors | src/js/screens/gameScreen.js:244-245 | updateUFO, then updateBoss |
| GameScreens.GameScreen.UpdateUfo | src/js/screens/gameScreen.js:264-279 | the new state is UfoTick (see UfoTickSpec) |
| GameScreenProps.UfoTickSpec | src/js/screens/gameScreen.js:264-279 | afterwards any UFO in the slot is active; an inactive UFO is dropped; with a boss present the spawn clock does not run and no UFO appears; a new UFO, exactly the one checkSpawn builds, appears only with neither UFO nor boss |
| GameScreens.GameScreen.UpdateBoss | src/js/screens/gameScreen.js:282-301 | Boss.update with its rocks appended; an inactive boss clears the game |
| GameScreens.GameScreen.ClearGame | src/js/screens/gameScreen.js:287-299 | gameCleared set, boss slot null, the clear screen requested |
| GameScreens.GameScreen.UpdateBullets | src/js/screens/gameScreen.js:304-316 | the new state is BulletsTick (see BulletsTickSpec) |
| GameScreenProps.BulletsTickSpec | src/js/screens/gameScreen.js:304-316 | the player bullets afterwards are exactly the updated ones still active, and likewise the enemy bullets; none is lost while all stay in bounds; nothing else changes |
| GameScreens.GameScreen.ApplyRules | src/js/screens/gameScreen.js:249-257 | collisions (once enabled), the boss countdown, then checkGameState |
| GameScreens.GameScreen.CheckAllCollisions | src/js/systems/collisionSystem.js:122-133 | the bullet pass (corrected, as the screen's environment says) written back, then the player-enemy check on what is left; the enemy-bullet check is not run |
| GameScreens.GameScreen.ApplyPlayerBulletCollisions | src/js/systems/collisionSystem.js:123-126 | the spliced lists, the remaining slots and the awarded score written back into the screen |
| GameScreens.GameScreen.StoreLists | src/js/systems/collisionSystem.js:35-40 | the screen's lists become the spliced ones |
| GameScreens.GameScreen.StoreSlots | src/js/systems/collisionSystem.js:55-68 | each slot is kept or set to null |
| GameScreens.GameScreen.UpdateBossSpawnTimer | src/js/screens/gameScreen.js:319-333 | the new state is SpawnTimerTick (see CountdownRuns and CountdownEnds) |
| GameScreenProps.CountdownRuns | src/js/screens/gameScreen.js:319-332 | while the steps since the countdown started sum to less than 3.5 s, the timer holds their sum and no boss appears |
| GameScreenProps.CountdownEnds | src/js/screens/gameScreen.js:319-332 | on the step that brings the sum to 3.5 s a new boss appears, the countdown stops and its timer is 0 |
| GameScreens.GameScreen.CheckGameState | src/js/screens/gameScreen.js:336-348 | the new state is GameStateChecked (see GameStateCheckedSpec) |
| GameScreenProps.GameStateCheckedSpec | src/js/screens/gameScreen.js:336-348 | a countdown runs afterwards exactly when one was running, or the game is not cleared with no enemies, no boss and no respawn or countdown scheduled; a new one starts at 0; nothing else changes; a second check changes nothing |
| GameScreens.GameScreen.HandleGameOver | src/js/screens/gameScreen.js:351-364 | the new state is GameOverHandled (see GameOverHandledSpec) |
| GameScreenProps.GameOverHandledSpec | src/js/screens/gameScreen.js:351-364 | ignored before 2 s or once over; otherwise the game is over, the player inactive and the game-over screen requested; a second call changes nothing |
| GameScreens.GameScreen.AddBullet | src/js/screens/gameScreen.js:466-468 | appends one player bullet |
| GameScreens.GameScreen.AddEnemyBullet | src/js/screens/gameScreen.js:470-472 | appends one enemy bullet |
| GameScreenProps.RequestsAppend | src/js/screens/gameScreen.js:296-298 | one more switch request adds one to that name's count and none to another's |
| GameScreenProps.LatchedTrans | src/js/screens/gameScreen.js:228-261 | the "flag never drops, one request per rise" relation composes |
| GameScreenProps.QuietLatched | src/js/screens/gameScreen.js:233-246 | a phase that leaves flags and requests alone is latched |
| GameScreenProps.BossTickLatched | src/js/screens/gameScreen.js:282-301 | updateBoss on an uncleared game requests the clear screen exactly when it sets gameCleared |
| GameScreenProps.GameOverLatched | src/js/screens/gameScreen.js:351-364 | handleGameOver requests the game-over screen exactly when it sets gameOver |
| GameScreenProps.CollisionLatched | src/js/systems/collisionSystem.js:122-133 | the collision checks request a screen only through handleGameOver |
| GameScreenProps.RulesLatched | src/js/screens/gameScreen.js:249-257 | collisions, countdown and checkGameState, latched |
| GameScreenProps.TickLatched | src/js/screens/gameScreen.js:228-261 | in one tick the game-over (game-clear) screen is requested once more exactly when gameOver (gameCleared) goes up, and neither flag goes down |
| GameScreenProps.RunRequestsOnce | src/js/screens/gameScreen.js:228-364 | over any run each of the two screens is requested at most once more, exactly when its flag goes up, and never once it was already up |
| GameScreenProps.StepKeepsBossLive | src/js/systems/collisionSystem.js:61-70 | one bullet step of either variant leaves only a live boss in the slot |
| GameScreenProps.PassKeepsBossLive | src/js/systems/collisionSystem.js:25-73 | a whole pass of either variant leaves only a live boss in the slot |
| GameScreenProps.PassAppliedKeepsBossLive | src/js/systems/collisionSystem.js:126 | so does the write-back into the screen |
| GameScreenProps.VisitorsKeepBossLive | src/js/screens/gameScreen.js:244-245 | updateUFO and updateBoss keep the boss in the slot alive and do not clear the game |
| GameScreenProps.RulesKeepBossLive | src/js/screens/gameScreen.js:249-257 | the collisions, the countdown and checkGameState keep the boss in the slot alive and do not clear the game |
| GameScreenProps.TickKeepsBossLive | src/js/screens/gameScreen.js:228-261 | a tick that starts with no boss or a live one, and the game not cleared, ends the same way |
| GameScreenProps.RunNeverClears | src/js/screens/gameScreen.js:287-299 | from such a state no run sets gameCleared or requests the clear screen, with the bullet pass as written or corrected: the defeated-boss branch is unreachable |
| GameScreenProps.EnteredNeverClears | src/js/screens/gameScreen.js:53-77 | enter establishes that state, so no game the screen plays is ever cleared, in either variant |
| GameScreenProps.BossKillReschedules | src/js/screens/gameScreen.js:336-348 | in either variant, a boss shot down after the last enemy gets BOSS_KILL (exactly once when corrected), an empty slot, and a new countdown from 0 in the same tick, and the game is not cleared |
| Players.Player.constructor | src/js/entities/player.js:11-63 | active, may shoot, not charging, frame 0 |
| Players.Player.Update | src/js/entities/player.js:66-160 | move, cooldown, charge, animation in that order; shots returned for addBullet |
| Players.Player.Move | src/js/entities/player.js:70-84 | the arrow-key offset applied and x clamped |
| Players.Player.UpdateCooldown | src/js/entities/player.js:87-93 | the shot cooldown tick |
| Players.Player.UpdateCharge | src/js/entities/player.js:96-134 | the charge and release logic |
| Players.Player.UpdateAnimation | src/js/entities/player.js:155-159 | the animation tick |
| Players.UpdateSpec | src/js/entities/player.js:66-160 | x ends in [width/2, canvasWidth − width/2] and equals the moved x when that is inside; y and life never change; the frame stays in range; at most one shot |
| Players.Player.Shoot | src/js/entities/player.js:195-219 | as Shot (see ShootTwiceThrowsOnce, ThrownShotRises) |
| Players.ShootTwiceThrowsOnce | src/js/entities/player.js:195-219 | two shoots with no cooldown tick between them throw at most one shuriken, exactly when shooting was allowed and a game screen receives it; the second changes nothing |
| Players.ThrownShotRises | src/js/entities/player.js:195-219 | a thrown shuriken is a live player bullet leaving the player's top edge, and each positive update makes it climb without drifting sideways |
| Players.Player.ShootSpecial | src/js/entities/player.js:222-244 | as SpecialShot (see SpecialOutranksPlainShot) |
| Players.SpecialOutranksPlainShot | src/js/entities/player.js:195-244 | the special is thrown even while the cooldown blocks a plain shot and blocks plain shots afterwards; from the same spot it flies twice as fast, is four times as wide and does three times the damage |
| Players.CooldownSpec | src/js/entities/player.js:87-93 | while blocked the timer grows by dt; at 0.3 the shot is allowed again with timer 0; while still blocked only a special can be thrown |
| Players.HoldSpec | src/js/entities/player.js:96-115 | while fire is held with a positive hold time the player is charging, chargeTime is the hold time, and the special is ready once the hold reaches 3000 ms; nothing fires while held |
| Players.ReleaseSpec | src/js/entities/player.js:118-134 | releasing while charging ends the charge with chargeTime 0; a ready special is thrown and no longer ready; otherwise a plain shot only if the cooldown allows; releasing without charging fires nothing |
| Players.ChargeThenReleaseThrowsSpecial | src/js/entities/player.js:96-130 | a 3000 ms hold followed by a release throws exactly one special at 800 and leaves the player neither charging nor ready |
| Enemies.TakeDamageSpec | src/js/entities/enemy.js:177-186 | health drops by exactly amount; destroyed exactly when health ≤ 0, and then inactive; never reactivated; nothing else changes |
| Enemies.UpdateSpec | src/js/entities/enemy.js:52-120 | x never changes; y changes only when y > 1000, to 100, ending the tick; while moveDelay > 0 only moveDelay drops by dt; otherwise the cooldown restores the shot with timer 0 at shootCooldown; the frame stays in range |
| Enemies.ShootWaitsForCooldown | src/js/entities/enemy.js:100-106 | after a shot, an update shorter than shootCooldown leaves the enemy unable to fire, and one of at least shootCooldown makes it able to shoot again |
| Enemies.ShootSpec | src/js/entities/enemy.js:153-174 | blocked: nothing; otherwise the shot is blocked with timer 0 and one downward bullet at 200 leaves (x, y + height/2) when there is a game screen |
| Enemies.UpdateAllKeeps | src/js/entities/enemy.js:19-120 | no run of updates moves an enemy sideways, changes its size or frame count, takes its frame out of range or brings it back to life |
| Bosses.Boss.constructor | src/js/entities/boss.js:10-61 | centred, a fifth of the way down, health 30, entering, with patterns single (cooldown 1.5, timer 0) and spread (cooldown 4, timer 2) |
| Bosses.Boss.Update | src/js/entities/boss.js:64-101 | the new state and rocks are BossUpdated's (see EntryNeverOvershoots, PatrolPhaseSpec) |
| Bosses.Boss.Descend | src/js/entities/boss.js:66-73 | the entry step |
| Bosses.Boss.Patrol | src/js/entities/boss.js:76-84 | the horizontal move and edge turn |
| Bosses.Boss.TickAttackPatterns | src/js/entities/boss.js:87-93 | each pattern's timer tick and attack |
| Bosses.Boss.Animate | src/js/entities/boss.js:96-100 | the animation tick |
| Bosses.EntryNeverOvershoots | src/js/entities/boss.js:64-101 | over any run of non-negative steps the boss descends without passing its target height and holds it once the entry is over; it does not move sideways while entering; the target never changes |
| Bosses.UpdateKeepsLife | src/js/entities/boss.js:64-101 | update never changes isActive |
| Bosses.EntryEndsOnFirstUpdate | src/js/entities/boss.js:14-60 | a new boss starts at its target height, so its first update merely ends the entry |
| Bosses.PatrolPhaseSpec | src/js/entities/boss.js:76-100 | x moves by direction · speed · dt; the direction turns exactly past width − 64 moving right or below 64 moving left; each pattern's tick is independent; the rocks come in pattern order; health, y and life are untouched |
| Bosses.Boss.Attack | src/js/entities/boss.js:131-148 | 'single' fires one rock, 'spread' three |
| Bosses.Boss.ShootRockBullet | src/js/entities/boss.js:151-172 | a 16 × 16 enemy bullet, only with a game screen |
| Bosses.TickPatternSpec | src/js/entities/boss.js:87-93 | the timer grows by dt and, at its cooldown, the pattern fires and restarts at 0; single fires one rock and spread three, 16 × 16 from the bottom centre, the middle and single rocks straight down at 150; nothing without a game screen |
| Bosses.Boss.TakeDamage | src/js/entities/boss.js:175-189 | as BossDamaged (see Bosses.TakeDamageSpec) |
| Bosses.TakeDamageSpec | src/js/entities/boss.js:175-189 | health drops by amount; active afterwards exactly when it was and health > 0; nothing else changes |
| Ufos.Ufo.constructor | src/js/entities/ufo.js:8-39 | active, health 1, from the left heading right |
| Ufos.Ufo.Update | src/js/entities/ufo.js:42-60 | as UfoUpdated (see Ufos.UpdateSpec) |
| Ufos.UpdateSpec | src/js/entities/ufo.js:42-60 | x moves by direction · 100 · dt; deactivated only past canvasWidth + width moving right or below −width moving left; never reactivated; the frame stays in range |
| Ufos.Ufo.TakeDamage | src/js/entities/ufo.js:75-84 | as UfoDamaged (see Ufos.TakeDamageSpec) |
| Ufos.TakeDamageSpec | src/js/entities/ufo.js:75-84 | health drops by amount; active afterwards exactly when it was and health > 0 |
| Ufos.UfoSpawnClock.constructor | src/js/entities/ufo.js:93-95 | the shared timer starts at 0 |
| Ufos.CheckSpawn | src/js/entities/ufo.js:87-119 | the timer and spawn are SpawnStep's, and a spawned UFO is fresh and as SpawnedUfo |
| Ufos.SpawnStepSpec | src/js/entities/ufo.js:87-101 | an active current UFO leaves the timer alone and spawns nothing; otherwise the timer grows by dt and a UFO is spawned exactly when it reaches 10, the timer then 0; the timer stays in [0, 10) |
| Ufos.SpawnedUfoSpec | src/js/entities/ufo.js:103-115 | active, health 1, y = 0.1 · canvasHeight; from the left x = −32 heading right, from the right x = canvasWidth + 32 heading left |
| Ufos.UpdateAllKeeps | src/js/entities/ufo.js:42-60 | no run of updates brings an inactive UFO back, changes its direction or takes its frame out of range |
| Bullets.ConstructedBullets | src/js/entities/specialBullet.js:10-33 | a plain bullet is active, 12 × 12, damage 1, not penetrating; a special is the same bullet but 48 × 48, damage 3, penetrating, spinning at 15, glowing at 1 and rising |
| Bullets.UpdateDeactivatesExactlyOutside | src/js/entities/bullet.js:31-48 | the bullet moves by velocity · dt and turns by rotationSpeed · dt; it stays active exactly when it was and is inside the canvas enlarged by its size |
| Bullets.SpecialUpdateIsMoveThenGlow | src/js/entities/specialBullet.js:36-46 | Bullet's update, then the glow changes by its direction, which becomes −0.02 above 1.2, +0.02 below 0.8, and stays otherwise |
| Bullets.InactiveStaysInactive | src/js/entities/bullet.js:31-48 | no run of updates reactivates a bullet |
| Bullets.CollidesWithIsDistanceTest | src/js/entities/bullet.js:67-75 | the square comparison is the source's distance < (width + entity.width)/2 for the true distance |
| EnemyBullets.ConstructedEnemyBullet | src/js/entities/enemyBullet.js:8-22 | active, 4 × 8, not a player bullet |
| EnemyBullets.UpdateDeactivatesExactlyOutside | src/js/entities/enemyBullet.js:25-39 | moves by velocity · dt; stays active exactly when it was and is inside the enlarged canvas |
| EnemyBullets.InactiveStaysInactive | src/js/entities/enemyBullet.js:25-39 | no run of updates reactivates it |
| EnemyBullets.CollidesWithIsDistanceTest | src/js/entities/enemyBullet.js:69-77 | the square comparison is distance < (width + entity.width)/3 |
| Timers.AnimationTickKeepsFrame | src/js/entities/enemy.js:115-119 | the frame stays in [0, totalFrames) and advances cyclically when the timer reaches the speed |
| Timers.CooldownTimerBounded | src/js/entities/enemy.js:100-106 | a blocked cooldown with non-negative steps keeps its timer in [0, cooldown) |
| Scores.ScoreManager.constructor | src/js/managers/scoreManager.js:8-11 | score 0, high score as loaded |
| Scores.ScoreManager.GetScore | src/js/managers/scoreManager.js:14-16 | returns the score, changes nothing |
| Scores.ScoreManager.GetHighScore | src/js/managers/scoreManager.js:19-21 | returns the high score, changes nothing |
| Scores.ScoreManager.AddScore | src/js/managers/scoreManager.js:24-34 | as Added (see AddedSpec), returning the new score |
| Scores.AddedSpec | src/js/managers/scoreManager.js:24-34 | score grows by points; high score becomes max(old high score, new score); a save happens exactly when the high score strictly increases |
| Scores.ScoreManager.ResetScore | src/js/managers/scoreManager.js:37-39 | as Reset (see ResetSpec) |
| Scores.ResetSpec | src/js/managers/scoreManager.js:37-39 | score 0, high score and saves untouched |
| Scores.HighScoreNeverDecreases | src/js/managers/scoreManager.js:24-39 | over any run of additions and resets the high score and the save count never decrease, and once the high score is at least the score and non-negative, it stays so (a negative loaded high score can start below the score) |
| Scores.AddAllSpec | src/js/managers/scoreManager.js:24-34 | non-negative awards in a row raise the score by their sum and leave the high score at the larger of the old one and the new score |
| Scores.AddAllAppend | src/js/managers/scoreManager.js:24-34 | one more award after a run is one more addScore |
| Input.InputManager.constructor | src/js/managers/inputManager.js:8-15 | no key known |
| Input.InputManager.HandleKeyDown | src/js/managers/inputManager.js:18-30 | as KeyDown (see KeyDownSpec) |
| Input.KeyDownSpec | src/js/managers/inputManager.js:18-30 | the key is down; a press time is recorded only when none was, so a repeated keydown after a first press at a non-zero clock reading is a no-op (a press time of 0 counts as none) |
| Input.InputManager.HandleKeyUp | src/js/managers/inputManager.js:33-36 | as KeyUp (see KeyUpSpec) |
| Input.KeyUpSpec | src/js/managers/inputManager.js:33-36 | the key is up with press time 0, so the held time reads 0 |
| Input.HoldMeasuredFromPress | src/js/managers/inputManager.js:18-49 | after a keydown or setKey press on an up key with no press recorded, at clock reading t0 ≠ 0, the held time at now is now − t0, never negative once now ≥ t0 |
| Input.InputManager.SetKey | src/js/managers/inputManager.js:52-62 | as SetKeyTo (see SetKeyActsAsKeyboard) |
| Input.SetKeyActsAsKeyboard | src/js/managers/inputManager.js:18-62 | on a state where a key is down exactly when a press is recorded, setKey(k, true) is keydown and setKey(k, false) is keyup |
| Input.EventsKeepConsistent | src/js/managers/inputManager.js:8-62 | the manager starts in such a state and every run of events with non-zero clock readings keeps it there |
| Input.OtherKeysUnchanged | src/js/managers/inputManager.js:18-62 | every operation on one key leaves every other key's entries as they were |
| Input.HoldMeasuredFromFirstPress | src/js/managers/inputManager.js:18-49 | through any events that do not release the key, the held time keeps measuring from the first press |

## Left out

- The DOM and canvas: UI construction and removal, the charge bar, warning messages, score display, every `render` method, the starfield, image loading, console logging.
- Audio: `audioManager.play` calls are dropped, as the model has no sound state.
- Mobile controls setup in game.js: browser plumbing only; `setKey` itself is modelled.
- `requestAnimationFrame`: counted in `frameRequests`; the host schedules the next frame, and `performance.now()` is a parameter.
- `setTimeout` callbacks:
  - The delayed `collisionEnabled` is the flag `collisionTimerPending`, with `GameScreens.GameScreen.EnableCollisions` as the callback.
  - The delayed `switchScreen('gameOver' | 'gameClear')` calls are recorded in the screen's `transitions` log and not wired to the game object, since the host fires them a second later.
- Dynamic dispatch to screen objects: the game object records exit, enter, update and render calls in a log. The title, instructions and game-over screens, and the UI of the clear screen, are browser plumbing.
- Persistence: the high score read from local storage is a constructor parameter, and each save is counted.
- Trigonometry: bullets carry a velocity (vx, vy) instead of an angle and speed. The spread attack's two angled velocities are a parameter. The square root in `collidesWith` becomes a comparison of squares.
- The player's jump (player.js:138-152, 247-258): `startJump` is never called, so `isJumping` stays false.
- Randomness: the UFO's side is a parameter. The UFO's random `appearanceTimer` is read by nothing. `Enemy.changeDirectionAndDrop` is never called, and the random enemy fire is commented out in the source.
- `checkEnemyBulletCollisions` is modelled but not called by `checkAllCollisions`, as in the source, where the call is commented out.
- `bullet.damage` and `penetrating` are kept as fields but read by nothing, as in the source: every hit does 1 damage.
- `MAX_SPECIAL_USES` is a constant no code reads.
- Element aliasing: enemies and bullets are values in sequences. The source's list is their only reference, so replacing a slot is the update in place.
- Forwarding of shots: `shoot`, `shootSpecial`, `attack` and `Enemy.shoot` return their bullets, and the play screen appends them as `addBullet` would. The game screen's registration (`game.screens['game']`) is a boolean parameter, true in the play screen.
- `GameScreens.GameScreen.CheckAllCollisions`: the screen object runs the corrected bullet pass (see Findings). The pass as written is run by the same methods under `Variant.AsWritten`, exhibited in `CollisionFindings`, and covered by the run-level lemmas through `Env.pass`.
- The formation's minimum speed multiplier: absent from the configuration, so it is a parameter (`None` for the shipped NaN).
- Floating point: all arithmetic is exact, so rounding of JavaScript doubles is not modelled.
- The game object's constructor builds the input, score and audio managers. In the model the play screen is given the score manager and the UFO spawn clock.

## Findings

| source | as written | input that shows it | evidently intended | confidence | as-written member | corrected member |
|---|---|---|---|---|---|---|
| src/js/systems/collisionSystem.js:35-63 | a bullet that hits an enemy is spliced at index i, and again at i if it also overlaps the UFO or boss; the second splice removes the next bullet, which hit nothing | a special bullet at (100, 88) overlapping the front enemy at (100, 120) and a new UFO at x = 100, followed by a plain bullet at (300, 300): both bullets vanish | each bullet that hits anything is removed once | not executed | CollisionFindings.DoubleSpliceAsWritten | Collision.CorrectedStepSplicesOnce |
| src/js/systems/collisionSystem.js:48-55 | the UFO test uses the `ufo` parameter, which still refers to the dead UFO after its slot is cleared, so a later bullet in the same pass hits it again | two bullets at (100, 70) and (100, 75) inside a new UFO at x = 100: UFO_KILL is awarded twice | a UFO is killed and scored once | not executed | CollisionFindings.StaleUfoAsWritten | Collision.CorrectedPassSpec |
| src/js/systems/collisionSystem.js:61-68 | the same for the `boss` parameter | a boss with 1 health and two bullets at (180, 110) and (180, 150) inside it: BOSS_KILL is awarded twice | a boss is killed and scored once | not executed | CollisionFindings.StaleBossAsWritten | Collision.CorrectedPassSpec |
