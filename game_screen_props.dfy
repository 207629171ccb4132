/** What GameScreen.update promises over one tick and over a whole run: it is frozen once
    the game is over or cleared; each of the game-over and game-clear screens is requested
    exactly when its flag goes up, so at most once; a boss on screen is always alive, so
    the defeated-boss branch of updateBoss never runs and the clear screen is never
    requested; a boss shot down is replaced by a new countdown in the same tick; and the
    smaller guarantees of the phases themselves. */
module GameScreenProps {
  import opened Options
  import opened Config
  import opened Bullets
  import opened EnemyBullets
  import opened Enemies
  import opened Ufos
  import opened Bosses
  import opened Players
  import opened Scores
  import opened Formation
  import opened Collision
  import opened GameScreens

  // ---------------------------------------------------------------------------------
  // The single phases.

  /** initializeGame: 40 fresh enemies in the 5 × 8 grid, a new active player centred
      50 pixels above the bottom, no bullets, no UFO or boss, every flag down and every
      timer at 0, the formation reset (direction 1, timer 0) and the score at 0 with the
      high score kept. */
  lemma InitializedSpec(s: ScreenState, e: Env)
    ensures var r := Initialized(s, e);
      && |r.enemies| == 40
      && (forall k :: 0 <= k < |r.enemies| ==>
            r.enemies[k] == NewEnemy(GridX(e.canvasWidth, k % 8), GridY(k / 8)))
      && r.player == Some(InitialPlayer(e.canvasWidth / 2.0, e.canvasHeight - 50.0))
      && r.player.value.isActive
      && r.playerBullets == [] && r.enemyBullets == [] && r.ufo.None? && r.boss.None?
      && r.play.gameTime == 0.0
      && !r.play.gameOver && !r.play.gameCleared && !r.play.collisionEnabled && !r.play.enemyRespawnScheduled
      && r.bossSpawn == BossSpawn(0.0, false)
      && r.formation == FormationState(1, 0.0)
      && r.score.currentScore == 0 && r.score.highScore == s.score.highScore
      && r.transitions == s.transitions && r.ufoSpawnTimer == s.ufoSpawnTimer
  {
    EnemyGridSpec(e.canvasWidth);
  }

  /** updateUFO: afterwards any UFO in the slot is active; while a boss is on screen the
      spawn clock does not run and no UFO appears; a new UFO, the one checkSpawn builds,
      appears only when the old one is gone and there is no boss. Nothing else changes. */
  lemma UfoTickSpec(s: ScreenState, e: Env, dt: real, fromLeft: bool)
    ensures var r := UfoTick(s, e, dt, fromLeft);
      var kept := s.ufo.Some? && UfoUpdated(s.ufo.value, dt, e.canvasWidth).isActive;
      && (r.ufo.Some? ==> r.ufo.value.isActive)
      && (kept ==> r.ufo == Some(UfoUpdated(s.ufo.value, dt, e.canvasWidth)))
      && (s.boss.Some? ==> r.ufoSpawnTimer == s.ufoSpawnTimer && (!kept ==> r.ufo.None?))
      && (!kept && r.ufo.Some? ==> s.boss.None? && r.ufo == Some(SpawnedUfo(e.canvasWidth, e.canvasHeight, fromLeft)))
      && r == s.(ufo := r.ufo, ufoSpawnTimer := r.ufoSpawnTimer)
  {
    SpawnedUfoSpec(e.canvasWidth, e.canvasHeight, fromLeft);
  }

  /** updateBullets: the player bullets afterwards are exactly the moved ones still
      active, and likewise the enemy bullets; none is lost while all stay in bounds (so
      the order is the original one, see FilterAppend); nothing else changes. */
  lemma BulletsTickSpec(s: ScreenState, e: Env, dt: real)
    ensures var r := BulletsTick(s, e, dt);
      var moved := UpdatedBullets(s.playerBullets, dt, e.canvasWidth, e.canvasHeight);
      var movedRocks := UpdatedEnemyBullets(s.enemyBullets, dt, e.canvasWidth, e.canvasHeight);
      && (forall b :: b in r.playerBullets <==> b in moved && b.isActive)
      && (forall b :: b in r.enemyBullets <==> b in movedRocks && b.isActive)
      && |r.playerBullets| <= |s.playerBullets| && |r.enemyBullets| <= |s.enemyBullets|
      && ((forall k :: 0 <= k < |moved| ==> moved[k].isActive) ==> r.playerBullets == moved)
      && ((forall k :: 0 <= k < |movedRocks| ==> movedRocks[k].isActive) ==> r.enemyBullets == movedRocks)
      && r == s.(playerBullets := r.playerBullets, enemyBullets := r.enemyBullets)
  {
    KeptBullets(UpdatedBullets(s.playerBullets, dt, e.canvasWidth, e.canvasHeight));
    KeptRocks(UpdatedEnemyBullets(s.enemyBullets, dt, e.canvasWidth, e.canvasHeight));
  }

  lemma KeptBullets(moved: seq<Bullet>)
    ensures var r := Filter(moved, IsActiveBullet);
      && (forall b :: b in r <==> b in moved && b.isActive)
      && |r| <= |moved|
      && ((forall k :: 0 <= k < |moved| ==> moved[k].isActive) ==> r == moved)
  {
    FilterSpec(moved, IsActiveBullet);
  }

  lemma KeptRocks(moved: seq<EnemyBullet>)
    ensures var r := Filter(moved, IsActiveEnemyBullet);
      && (forall b :: b in r <==> b in moved && b.isActive)
      && |r| <= |moved|
      && ((forall k :: 0 <= k < |moved| ==> moved[k].isActive) ==> r == moved)
  {
    FilterSpec(moved, IsActiveEnemyBullet);
  }

  /** checkGameState: a countdown is running afterwards exactly when one was running or
      BossDue held, and a new one starts from 0; nothing else changes, and a second check
      changes nothing more. */
  lemma GameStateCheckedSpec(s: ScreenState)
    ensures var r := GameStateChecked(s);
      && (r.bossSpawn.scheduled <==> s.bossSpawn.scheduled || BossDue(s))
      && (BossDue(s) ==> r.bossSpawn.timer == 0.0)
      && (!BossDue(s) ==> r == s)
      && r == s.(bossSpawn := r.bossSpawn)
      && GameStateChecked(r) == r
  {
  }

  /** handleGameOver: the game is over afterwards exactly when it was, or the two-second
      grace is past; only the first effective call deactivates the player and requests
      the game-over screen, and calling it again changes nothing. */
  lemma GameOverHandledSpec(s: ScreenState)
    ensures var r := GameOverHandled(s);
      && (r.play.gameOver <==> s.play.gameOver || s.play.gameTime >= 2.0)
      && (s.play.gameOver || s.play.gameTime < 2.0 ==> r == s)
      && (!s.play.gameOver && s.play.gameTime >= 2.0 ==>
            && r.transitions == s.transitions + [GAME_OVER_SCREEN]
            && (r.player.Some? <==> s.player.Some?)
            && (r.player.Some? ==> !r.player.value.isActive))
      && GameOverHandled(r) == r
  {
  }

  /** Tick is the identity once the game is over or cleared. */
  lemma TickFrozen(s: ScreenState, e: Env, dt: real, c: Controls, fromLeft: bool)
    requires s.play.gameOver || s.play.gameCleared
    ensures Tick(s, e, dt, c, fromLeft) == s
  {
  }

  // ---------------------------------------------------------------------------------
  // The boss countdown over several ticks.

  function SumReal(xs: seq<real>): real
    decreases |xs|
  {
    if |xs| == 0 then 0.0 else SumReal(xs[..|xs| - 1]) + xs[|xs| - 1]
  }

  /** updateBossSpawnTimer once per step in dts. */
  function Countdown(s: ScreenState, e: Env, dts: seq<real>): ScreenState
    decreases |dts|
  {
    if |dts| == 0 then s else SpawnTimerTick(Countdown(s, e, dts[..|dts| - 1]), e, dts[|dts| - 1])
  }

  /** While the steps since a countdown started add up to less than 3.5 seconds, the
      timer holds their sum and no boss appears. */
  lemma {:induction false} CountdownRuns(s: ScreenState, e: Env, dts: seq<real>)
    requires s.bossSpawn == BossSpawn(0.0, true)
    requires SumReal(dts) < BOSS_SPAWN_DELAY
    requires forall k :: 0 <= k < |dts| ==> dts[k] >= 0.0
    ensures Countdown(s, e, dts) == s.(bossSpawn := BossSpawn(SumReal(dts), true))
    decreases |dts|
  {
    if |dts| > 0 {
      var init := dts[..|dts| - 1];
      assert forall k :: 0 <= k < |init| ==> init[k] == dts[k];
      CountdownRuns(s, e, init);
    }
  }

  /** On the step that brings the sum to 3.5 seconds the boss appears, freshly built,
      and the countdown stops with its timer back at 0. */
  lemma CountdownEnds(s: ScreenState, e: Env, dts: seq<real>)
    requires s.bossSpawn == BossSpawn(0.0, true)
    requires |dts| > 0 && SumReal(dts[..|dts| - 1]) < BOSS_SPAWN_DELAY <= SumReal(dts)
    requires forall k :: 0 <= k < |dts| ==> dts[k] >= 0.0
    ensures Countdown(s, e, dts)
            == s.(boss := Some(InitialBoss(e.canvasWidth, e.canvasHeight)), bossSpawn := BossSpawn(0.0, false))
  {
    var init := dts[..|dts| - 1];
    assert forall k :: 0 <= k < |init| ==> init[k] == dts[k];
    CountdownRuns(s, e, init);
  }

  // ---------------------------------------------------------------------------------
  // Screen requests: each is made exactly when its flag goes up.

  /** How many times `name` was requested. */
  function Requests(ts: seq<string>, name: string): nat
    decreases |ts|
  {
    if |ts| == 0 then 0 else Requests(ts[..|ts| - 1], name) + (if ts[|ts| - 1] == name then 1 else 0)
  }

  lemma RequestsAppend(ts: seq<string>, t: string, name: string)
    ensures Requests(ts + [t], name) == Requests(ts, name) + (if t == name then 1 else 0)
  {
    assert (ts + [t])[..|ts|] == ts;
  }

  /** The flag that goes with each requested screen. */
  predicate Raised(s: ScreenState, name: string) {
    if name == GAME_OVER_SCREEN then s.play.gameOver else s.play.gameCleared
  }

  predicate IsRequestName(name: string) {
    name == GAME_OVER_SCREEN || name == GAME_CLEAR_SCREEN
  }

  /** From a to b the flag never goes down, and the screen is requested once more
      exactly when it goes up. */
  predicate Latched(a: ScreenState, b: ScreenState, name: string) {
    && (Raised(a, name) ==> Raised(b, name))
    && Requests(b.transitions, name) == Requests(a.transitions, name) + (if !Raised(a, name) && Raised(b, name) then 1 else 0)
  }

  lemma LatchedTrans(a: ScreenState, b: ScreenState, c: ScreenState, name: string)
    requires Latched(a, b, name) && Latched(b, c, name)
    ensures Latched(a, c, name)
  {
  }

  /** A phase that leaves both flags and the requests alone. */
  lemma QuietLatched(a: ScreenState, b: ScreenState, name: string)
    requires b.play.gameOver == a.play.gameOver && b.play.gameCleared == a.play.gameCleared
    requires b.transitions == a.transitions
    ensures Latched(a, b, name)
  {
  }

  lemma BossTickLatched(s: ScreenState, e: Env, dt: real, name: string)
    requires IsRequestName(name) && !s.play.gameCleared
    ensures Latched(s, BossTick(s, e, dt), name)
  {
    var r := BossTick(s, e, dt);
    if r.transitions != s.transitions {
      RequestsAppend(s.transitions, GAME_CLEAR_SCREEN, name);
    }
  }

  lemma GameOverLatched(s: ScreenState, name: string)
    requires IsRequestName(name)
    ensures Latched(s, GameOverHandled(s), name)
  {
    if !s.play.gameOver && s.play.gameTime >= GAME_OVER_GRACE {
      RequestsAppend(s.transitions, GAME_OVER_SCREEN, name);
    }
  }

  lemma CollisionLatched(s: ScreenState, e: Env, name: string)
    requires IsRequestName(name)
    ensures Latched(s, CollisionTick(s, e), name)
  {
    var p := BulletPassApplied(s, e.pass);
    QuietLatched(s, p, name);
    if EnemyEndsGame(p, e) {
      GameOverLatched(p, name);
      LatchedTrans(s, p, GameOverHandled(p), name);
    }
  }

  lemma RulesLatched(s: ScreenState, e: Env, dt: real, name: string)
    requires IsRequestName(name)
    ensures Latched(s, RulesTick(s, e, dt), name)
  {
    var s1 := if s.play.collisionEnabled then CollisionTick(s, e) else s;
    if s.play.collisionEnabled {
      CollisionLatched(s, e, name);
    }
    var s2 := SpawnTimerTick(s1, e, dt);
    QuietLatched(s1, s2, name);
    LatchedTrans(s, s1, s2, name);
    QuietLatched(s2, GameStateChecked(s2), name);
    LatchedTrans(s, s2, GameStateChecked(s2), name);
  }

  /** One tick: the game-over (game-clear) screen is requested once more exactly when
      gameOver (gameCleared) goes up, and neither flag ever goes down. */
  lemma TickLatched(s: ScreenState, e: Env, dt: real, c: Controls, fromLeft: bool, name: string)
    requires IsRequestName(name)
    ensures Latched(s, Tick(s, e, dt, c, fromLeft), name)
  {
    if !s.play.gameOver && !s.play.gameCleared {
      var s0 := Advanced(s, dt);
      var s1 := ActorsTick(s0, e, dt, c);
      var s2 := UfoTick(s1, e, dt, fromLeft);
      var s3 := BossTick(s2, e, dt);
      var s4 := BulletsTick(s3, e, dt);
      QuietLatched(s, s2, name);
      BossTickLatched(s2, e, dt, name);
      LatchedTrans(s, s2, s3, name);
      QuietLatched(s3, s4, name);
      LatchedTrans(s, s3, s4, name);
      RulesLatched(s4, e, dt, name);
      LatchedTrans(s, s4, RulesTick(s4, e, dt), name);
    }
  }

  /** The inputs of one frame: the step, the keys, and the UFO's random side. */
  datatype TickInput = TickInput(dt: real, controls: Controls, ufoFromLeft: bool)

  /** GameScreen.update once per input, in order. */
  function Run(s: ScreenState, e: Env, ins: seq<TickInput>): ScreenState
    decreases |ins|
  {
    if |ins| == 0 then s
    else
      var last := ins[|ins| - 1];
      Tick(Run(s, e, ins[..|ins| - 1]), e, last.dt, last.controls, last.ufoFromLeft)
  }

  /** Over any run the game-over and game-clear screens are each requested at most once
      more, exactly when the flag goes up during the run, and never once it was up. */
  lemma {:induction false} RunRequestsOnce(s: ScreenState, e: Env, ins: seq<TickInput>, name: string)
    requires IsRequestName(name)
    ensures Latched(s, Run(s, e, ins), name)
    ensures Requests(Run(s, e, ins).transitions, name) <= Requests(s.transitions, name) + 1
    ensures Raised(s, name) ==> Requests(Run(s, e, ins).transitions, name) == Requests(s.transitions, name)
    decreases |ins|
  {
    if |ins| > 0 {
      var init := ins[..|ins| - 1];
      var last := ins[|ins| - 1];
      RunRequestsOnce(s, e, init, name);
      TickLatched(Run(s, e, init), e, last.dt, last.controls, last.ufoFromLeft, name);
      LatchedTrans(s, Run(s, e, init), Run(s, e, ins), name);
    }
  }

  // ---------------------------------------------------------------------------------
  // The boss on screen is always alive.

  /** A boss in the slot is active. */
  predicate BossLive(s: ScreenState) {
    s.boss.Some? ==> s.boss.value.isActive
  }

  /** The same within a bullet pass: a boss still in its slot is active. */
  predicate PassBossLive(p: Pass) {
    p.bossInSlot ==> p.boss.Some? && p.boss.value.isActive
  }

  lemma StepKeepsBossLive(p: Pass, i: nat, v: Variant)
    requires i < |p.bullets| && PassBossLive(p)
    ensures PassBossLive(BulletStep(p, i, v))
  {
    var b := p.bullets[i];
    var s1 := EnemyPhase(p, b, i);
    assert s1.pass.boss == p.boss && s1.pass.bossInSlot == p.bossInSlot;
    var s2 := UfoPhase(s1, b, i, v);
    assert s2.pass.boss == p.boss && s2.pass.bossInSlot == p.bossInSlot;
  }

  lemma {:induction false} PassKeepsBossLive(p: Pass, k: nat, v: Variant)
    requires k <= |p.bullets| && PassBossLive(p)
    ensures PassBossLive(PassFrom(p, k, v))
    decreases k
  {
    if k > 0 {
      StepKeepsBossLive(p, k - 1, v);
      PassKeepsBossLive(BulletStep(p, k - 1, v), k - 1, v);
    }
  }

  /** The write-back of either pass leaves only a live boss in the slot. */
  lemma PassAppliedKeepsBossLive(s: ScreenState, v: Variant)
    requires BossLive(s)
    ensures BossLive(BulletPassApplied(s, v))
  {
    PassKeepsBossLive(StartPass(s.playerBullets, s.enemies, s.ufo, s.boss), |s.playerBullets|, v);
  }

  /** A tick starting with a live boss (or none) and the game not cleared ends the same
      way: the collision pass takes a dead boss out of its slot, the spawn puts in a
      fresh one, and Boss.update never changes isActive, so updateBoss never meets an
      inactive boss. */
  lemma TickKeepsBossLive(s: ScreenState, e: Env, dt: real, c: Controls, fromLeft: bool)
    requires BossLive(s) && !s.play.gameCleared
    ensures var r := Tick(s, e, dt, c, fromLeft);
      BossLive(r) && !r.play.gameCleared
  {
    if !s.play.gameOver {
      var s1 := ActorsTick(Advanced(s, dt), e, dt, c);
      assert s1.boss == s.boss && s1.play.gameCleared == s.play.gameCleared;
      VisitorsKeepBossLive(s1, e, dt, fromLeft);
      var s3 := VisitorsTick(s1, e, dt, fromLeft);
      var s4 := BulletsTick(s3, e, dt);
      RulesKeepBossLive(s4, e, dt);
    }
  }

  lemma VisitorsKeepBossLive(s: ScreenState, e: Env, dt: real, fromLeft: bool)
    requires BossLive(s) && !s.play.gameCleared
    ensures BossLive(VisitorsTick(s, e, dt, fromLeft)) && !VisitorsTick(s, e, dt, fromLeft).play.gameCleared
  {
    var s2 := UfoTick(s, e, dt, fromLeft);
    assert s2.boss == s.boss && s2.play == s.play;
    if s2.boss.Some? {
      UpdateKeepsLife(s2.boss.value, dt, e.canvasWidth, e.spread, true);
    }
  }

  lemma RulesKeepBossLive(s: ScreenState, e: Env, dt: real)
    requires BossLive(s) && !s.play.gameCleared
    ensures BossLive(RulesTick(s, e, dt)) && !RulesTick(s, e, dt).play.gameCleared
  {
    var s1 := if s.play.collisionEnabled then CollisionTick(s, e) else s;
    if s.play.collisionEnabled {
      PassAppliedKeepsBossLive(s, e.pass);
      var p := BulletPassApplied(s, e.pass);
      assert p.play == s.play;
      assert s1.boss == p.boss && !s1.play.gameCleared;
    }
    var s2 := SpawnTimerTick(s1, e, dt);
    assert BossLive(s2) && !s2.play.gameCleared;
  }

  /** From the start of a game, the defeated-boss branch of updateBoss is never taken,
      whichever reading of the bullet pass runs: no run clears the game, and no run
      requests the game-clear screen. */
  lemma {:induction false} RunNeverClears(s: ScreenState, e: Env, ins: seq<TickInput>)
    requires BossLive(s) && !s.play.gameCleared
    ensures BossLive(Run(s, e, ins)) && !Run(s, e, ins).play.gameCleared
    ensures Requests(Run(s, e, ins).transitions, GAME_CLEAR_SCREEN) == Requests(s.transitions, GAME_CLEAR_SCREEN)
    decreases |ins|
  {
    if |ins| > 0 {
      var init := ins[..|ins| - 1];
      var last := ins[|ins| - 1];
      RunNeverClears(s, e, init);
      TickKeepsBossLive(Run(s, e, init), e, last.dt, last.controls, last.ufoFromLeft);
    }
    RunRequestsOnce(s, e, ins, GAME_CLEAR_SCREEN);
  }

  /** enter leaves no boss and the game not cleared, so RunNeverClears applies to every
      game the screen plays. */
  lemma EnteredNeverClears(s: ScreenState, e: Env, ins: seq<TickInput>)
    ensures !Run(Entered(s, e), e, ins).play.gameCleared
    ensures Requests(Run(Entered(s, e), e, ins).transitions, GAME_CLEAR_SCREEN) == Requests(s.transitions, GAME_CLEAR_SCREEN)
  {
    RunNeverClears(Entered(s, e), e, ins);
  }

  /** A boss shot down once the enemies are gone, by either reading of the bullet pass:
      the pass awards BOSS_KILL (exactly once in the corrected pass) and empties the
      slot, and the same tick's checkGameState starts a new countdown from 0 instead of
      clearing the game. */
  lemma BossKillReschedules(s: ScreenState, e: Env, dt: real)
    requires s.play.collisionEnabled && !s.play.gameCleared && !s.play.enemyRespawnScheduled
    requires |s.enemies| == 0 && s.boss.Some? && !s.bossSpawn.scheduled
    requires !PlayerBulletPass(s.playerBullets, s.enemies, s.ufo, s.boss, e.pass).bossInSlot
    ensures var r := RulesTick(s, e, dt);
      var q := PlayerBulletPass(s.playerBullets, s.enemies, s.ufo, s.boss, e.pass);
      && Collision.Count(q.awards, SCORE_BOSS_KILL) >= 1
      && (e.pass == Corrected ==> Collision.Count(q.awards, SCORE_BOSS_KILL) == 1)
      && r.boss.None? && r.bossSpawn == BossSpawn(0.0, true) && !r.play.gameCleared
  {
    CorrectedPassSpec(s.playerBullets, s.enemies, s.ufo, s.boss);
    SlotClearsAreAwarded(StartPass(s.playerBullets, s.enemies, s.ufo, s.boss), |s.playerBullets|, e.pass);
    EnemyKillsAreRemovals(StartPass(s.playerBullets, s.enemies, s.ufo, s.boss), |s.playerBullets|, e.pass);
    var p := BulletPassApplied(s, e.pass);
    assert |p.enemies| == 0;
    assert !EnemyEndsGame(p, e);
  }
}
