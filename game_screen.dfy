/** The play screen of src/js/screens/gameScreen.js: a fixed-order tick over the player,
    the formation, the UFO, the boss, both bullet lists, the collision checks, the
    boss-spawn countdown and the "all enemies gone" check, plus the guarded game over.
    The two `setTimeout` callbacks the screen schedules are modelled as what they leave
    behind: `collisionTimerPending` until the host fires EnableCollisions, and the names
    of the screens `switchScreen` is due to be called with, in `transitions`. */
module GameScreens {
  import opened Options
  import opened Config
  import opened Bullets
  import opened EnemyBullets
  import opened Enemies
  import opened Ufos
  import opened Bosses
  import opened Players
  import opened Scores
  import opened Formation
  import opened Input
  import opened Collision

  const GAME_OVER_SCREEN: string := "gameOver"
  const GAME_CLEAR_SCREEN: string := "gameClear"

  /** GameConfig.ENEMY has neither ROWS nor COLS, so createEnemies falls back to a
      5 × 8 grid with 7 gaps. */
  const ENEMY_ROWS: nat := 5
  const ENEMY_COLS: nat := 8
  const ENEMY_GAPS: nat := 7
  const ENEMY_MARGIN_X: real := 70.0
  const ENEMY_TOP_Y: real := 120.0
  const ENEMY_ROW_GAP: real := 50.0
  const BOSS_SPAWN_DELAY: real := 3.5
  const GAME_OVER_GRACE: real := 2.0
  const PLAYER_BOTTOM_GAP: real := 50.0

  /** What the screen takes from its surroundings: the canvas size, the minimum
      formation multiplier, the spread-attack side velocities, and which reading of the
      player-bullet pass runs (the screen itself runs the corrected one). */
  datatype Env = Env(canvasWidth: real, canvasHeight: real, minSpeedMultiplier: Option<real>,
                     spread: Spread, pass: Variant)

  /** The fields the constructor groups as the game state (gameTime, gameOver,
      gameCleared, collisionEnabled, enemyRespawnScheduled), plus whether the
      collision-enabling callback of enter is still pending. */
  datatype PlayState = PlayState(gameTime: real, gameOver: bool, gameCleared: bool,
                                 collisionEnabled: bool, enemyRespawnScheduled: bool,
                                 collisionTimerPending: bool)

  /** The boss spawn countdown: bossSpawnTimer and bossSpawnScheduled. */
  datatype BossSpawn = BossSpawn(timer: real, scheduled: bool)

  /** A snapshot of the screen and the objects it drives: the game elements, the game
      state, the boss countdown, the screen switches requested so far, and the formation,
      score and UFO spawn clock it shares. */
  datatype ScreenState = ScreenState(
    player: Option<PlayerState>,
    enemies: seq<Enemy>,
    playerBullets: seq<Bullet>,
    enemyBullets: seq<EnemyBullet>,
    ufo: Option<UfoState>,
    boss: Option<BossState>,
    play: PlayState,
    bossSpawn: BossSpawn,
    transitions: seq<string>,
    formation: FormationState,
    score: ScoreState,
    ufoSpawnTimer: real)

  /** The elements of s that `keep` accepts, in order: Array.prototype.filter. */
  function Filter<T>(s: seq<T>, keep: T -> bool): seq<T>
    decreases |s|
  {
    if |s| == 0 then [] else Filter(s[..|s| - 1], keep) + (if keep(s[|s| - 1]) then [s[|s| - 1]] else [])
  }

  /** Filter keeps exactly the accepted elements: whatever it returns is accepted and
      comes from s, every accepted element of s is kept, it splits over concatenation
      (so order is kept), and it returns s itself when every element is accepted. */
  lemma {:induction false} FilterSpec<T>(s: seq<T>, keep: T -> bool)
    ensures forall x :: x in Filter(s, keep) <==> x in s && keep(x)
    ensures |Filter(s, keep)| <= |s|
    ensures (forall k :: 0 <= k < |s| ==> keep(s[k])) ==> Filter(s, keep) == s
    decreases |s|
  {
    if |s| > 0 {
      var init := s[..|s| - 1];
      FilterSpec(init, keep);
      assert s == init + [s[|s| - 1]];
      forall x ensures x in s <==> x in init || x == s[|s| - 1] {
      }
    }
  }

  lemma {:induction false} FilterAppend<T>(a: seq<T>, b: seq<T>, keep: T -> bool)
    ensures Filter(a + b, keep) == Filter(a, keep) + Filter(b, keep)
    decreases |b|
  {
    if |b| == 0 {
      assert a + b == a;
    } else {
      var bi := b[..|b| - 1];
      assert (a + b)[..|a + b| - 1] == a + bi;
      FilterAppend(a, bi, keep);
    }
  }

  function UpdatedBullets(bs: seq<Bullet>, dt: real, w: real, h: real): seq<Bullet> {
    seq(|bs|, k requires 0 <= k < |bs| => bs[k].Update(dt, w, h))
  }

  function UpdatedEnemyBullets(bs: seq<EnemyBullet>, dt: real, w: real, h: real): seq<EnemyBullet> {
    seq(|bs|, k requires 0 <= k < |bs| => bs[k].Update(dt, w, h))
  }

  function IsActiveBullet(b: Bullet): bool { b.isActive }
  function IsActiveEnemyBullet(b: EnemyBullet): bool { b.isActive }

  /** The x of column col in createEnemies. */
  function GridX(canvasWidth: real, col: nat): real {
    ENEMY_MARGIN_X + col as real * ((canvasWidth - ENEMY_MARGIN_X * 2.0) / ENEMY_GAPS as real)
  }

  function GridY(row: nat): real {
    ENEMY_TOP_Y + row as real * ENEMY_ROW_GAP
  }

  /** Row `row` of createEnemies, left to right. */
  function GridRow(canvasWidth: real, row: nat): seq<Enemy> {
    seq(ENEMY_COLS, col requires 0 <= col < ENEMY_COLS => NewEnemy(GridX(canvasWidth, col), GridY(row)))
  }

  /** The first n rows createEnemies pushes, row by row. */
  function GridRows(canvasWidth: real, n: nat): seq<Enemy>
    decreases n
  {
    if n == 0 then [] else GridRows(canvasWidth, n - 1) + GridRow(canvasWidth, n - 1)
  }

  function EnemyGrid(canvasWidth: real): seq<Enemy> { GridRows(canvasWidth, ENEMY_ROWS) }

  /** Enemy k of the first n rows is in row k / 8 and column k % 8. */
  lemma {:induction false} GridRowsSpec(canvasWidth: real, n: nat)
    ensures |GridRows(canvasWidth, n)| == n * ENEMY_COLS
    ensures forall k :: 0 <= k < |GridRows(canvasWidth, n)| ==>
      GridRows(canvasWidth, n)[k] == NewEnemy(GridX(canvasWidth, k % ENEMY_COLS), GridY(k / ENEMY_COLS))
    decreases n
  {
    if n > 0 {
      GridRowsSpec(canvasWidth, n - 1);
      var g := GridRows(canvasWidth, n);
      var before := GridRows(canvasWidth, n - 1);
      forall k | 0 <= k < |g|
        ensures g[k] == NewEnemy(GridX(canvasWidth, k % ENEMY_COLS), GridY(k / ENEMY_COLS))
      {
        if k >= |before| {
          var c := k - |before|;
          assert k == (n - 1) * ENEMY_COLS + c;
          assert k / ENEMY_COLS == n - 1 && k % ENEMY_COLS == c;
        }
      }
    }
  }

  /** The grid has 40 fresh enemies, eight to a row: enemy k sits in row k / 8 at
      y = 120 + 50 · (k / 8) and in column k % 8 at x = 70 + (k % 8) · (canvasWidth − 140)/7,
      so the outer columns are 70 pixels inside the canvas edges. */
  lemma EnemyGridSpec(canvasWidth: real)
    ensures |EnemyGrid(canvasWidth)| == 40
    ensures forall k :: 0 <= k < |EnemyGrid(canvasWidth)| ==>
      EnemyGrid(canvasWidth)[k] ==
        NewEnemy(70.0 + (k % 8) as real * ((canvasWidth - 140.0) / 7.0), 120.0 + (k / 8) as real * 50.0)
    ensures GridX(canvasWidth, 0) == 70.0 && GridX(canvasWidth, 7) == canvasWidth - 70.0
  {
    GridRowsSpec(canvasWidth, ENEMY_ROWS);
  }

  /** initializeGame: a new player 50 pixels above the bottom, the grid, empty lists, no
      UFO or boss, the game state and the boss countdown cleared, the formation and the
      score reset. The UFO spawn clock is shared by every screen and is left alone, as
      are the pending callbacks and the screen switches already requested. */
  function Initialized(s: ScreenState, e: Env): ScreenState {
    ProgressReset(EntitiesReset(s, e))
  }

  /** The first half of initializeGame: the player, the grid, the lists and the slots. */
  function EntitiesReset(s: ScreenState, e: Env): ScreenState {
    s.(player := Some(InitialPlayer(e.canvasWidth / 2.0, e.canvasHeight - PLAYER_BOTTOM_GAP)),
       enemies := EnemyGrid(e.canvasWidth), playerBullets := [], enemyBullets := [], ufo := None, boss := None)
  }

  /** The second half: the game state, the boss countdown, the formation and the score. */
  function ProgressReset(s: ScreenState): ScreenState {
    s.(play := PlayState(0.0, false, false, false, false, s.play.collisionTimerPending),
       bossSpawn := BossSpawn(0.0, false), formation := FormationState(1, 0.0), score := Reset(s.score))
  }

  /** enter: initializeGame, then the collision enabling scheduled. */
  function Entered(s: ScreenState, e: Env): ScreenState {
    var i := Initialized(s, e);
    i.(play := i.play.(collisionTimerPending := true))
  }

  /** The player's turn: Player.update, its shots pushed onto playerBullets. */
  function PlayerTick(s: ScreenState, e: Env, dt: real, c: Controls): ScreenState {
    if s.player.None? then s
    else
      var r := PlayerUpdated(s.player.value, dt, c, e.canvasWidth, true);
      s.(player := Some(r.player), playerBullets := s.playerBullets + r.shots)
  }

  /** The formation moves the enemies only while there is no boss. */
  function FormationTick(s: ScreenState, e: Env, dt: real): ScreenState {
    if s.boss.Some? then s
    else
      var r := FormationUpdated(s.formation, dt, s.enemies, e.canvasWidth, e.minSpeedMultiplier);
      s.(formation := r.state, enemies := r.enemies)
  }

  /** updateUFO: the UFO moves and is dropped once inactive; with neither UFO nor boss,
      checkSpawn runs on the shared clock. */
  function UfoTick(s: ScreenState, e: Env, dt: real, fromLeft: bool): ScreenState {
    var kept := if s.ufo.Some? && UfoUpdated(s.ufo.value, dt, e.canvasWidth).isActive
                then Some(UfoUpdated(s.ufo.value, dt, e.canvasWidth)) else None;
    if kept.None? && s.boss.None? then
      var o := SpawnStep(s.ufoSpawnTimer, dt, false);
      s.(ufo := if o.spawn then Some(SpawnedUfo(e.canvasWidth, e.canvasHeight, fromLeft)) else None,
         ufoSpawnTimer := o.spawnTimer)
    else s.(ufo := kept)
  }

  /** updateBoss: the boss moves and attacks; an inactive boss clears the game and asks
      for the clear screen. */
  function BossTick(s: ScreenState, e: Env, dt: real): ScreenState {
    if s.boss.None? then s
    else
      var r := BossUpdated(s.boss.value, dt, e.canvasWidth, e.spread, true);
      var s1 := s.(enemyBullets := s.enemyBullets + r.shots);
      if r.boss.isActive then s1.(boss := Some(r.boss))
      else s1.(play := s.play.(gameCleared := true), boss := None, transitions := s.transitions + [GAME_CLEAR_SCREEN])
  }

  /** updateBullets: every bullet moves, then only the active ones are kept. */
  function BulletsTick(s: ScreenState, e: Env, dt: real): ScreenState {
    s.(playerBullets := Filter(UpdatedBullets(s.playerBullets, dt, e.canvasWidth, e.canvasHeight), IsActiveBullet),
       enemyBullets := Filter(UpdatedEnemyBullets(s.enemyBullets, dt, e.canvasWidth, e.canvasHeight), IsActiveEnemyBullet))
  }

  /** handleGameOver: ignored in the first two seconds and once over; otherwise the game
      is over, the player inactive, and the game-over screen requested. */
  function GameOverHandled(s: ScreenState): ScreenState {
    if s.play.gameTime < GAME_OVER_GRACE || s.play.gameOver then s
    else s.(play := s.play.(gameOver := true),
            player := if s.player.Some? then Some(s.player.value.(isActive := false)) else None,
            transitions := s.transitions + [GAME_OVER_SCREEN])
  }

  /** Some enemy ends the game in checkPlayerEnemyCollisions. */
  predicate EnemyEndsGame(s: ScreenState, e: Env) {
    && s.player.Some? && s.play.collisionEnabled
    && exists k :: 0 <= k < |s.enemies| && EndsGame(s.player.value, s.enemies[k], e.canvasHeight)
  }

  /** checkAllCollisions: the player-bullet pass written back into the screen, then the
      player-enemy check on what is left. */
  function CollisionTick(s: ScreenState, e: Env): ScreenState {
    var s1 := BulletPassApplied(s, e.pass);
    if EnemyEndsGame(s1, e) then GameOverHandled(s1) else s1
  }

  /** The player-bullet pass written back: the spliced lists, the UFO and boss slots it
      leaves, and its awards added to the score in order. */
  function BulletPassApplied(s: ScreenState, v: Variant): ScreenState {
    var p := PlayerBulletPass(s.playerBullets, s.enemies, s.ufo, s.boss, v);
    s.(playerBullets := p.bullets, enemies := p.enemies,
       ufo := if p.ufoInSlot then p.ufo else None,
       boss := if p.bossInSlot then p.boss else None,
       score := AddAll(s.score, p.awards))
  }

  /** updateBossSpawnTimer. */
  function SpawnTimerTick(s: ScreenState, e: Env, dt: real): ScreenState {
    if !s.bossSpawn.scheduled then s
    else if s.bossSpawn.timer + dt >= BOSS_SPAWN_DELAY then
      s.(boss := Some(InitialBoss(e.canvasWidth, e.canvasHeight)), bossSpawn := BossSpawn(0.0, false))
    else s.(bossSpawn := BossSpawn(s.bossSpawn.timer + dt, true))
  }

  /** The "all enemies gone" test of checkGameState. */
  predicate BossDue(s: ScreenState) {
    && !s.play.gameCleared && |s.enemies| == 0 && s.boss.None?
    && !s.play.enemyRespawnScheduled && !s.bossSpawn.scheduled
  }

  /** checkGameState. */
  function GameStateChecked(s: ScreenState): ScreenState {
    if BossDue(s) then s.(bossSpawn := BossSpawn(0.0, true)) else s
  }

  /** The play clock moves on by dt. */
  function Advanced(s: ScreenState, dt: real): ScreenState {
    s.(play := s.play.(gameTime := s.play.gameTime + dt))
  }

  /** GameScreen.update, phase by phase in the source's order: player, formation, UFO,
      boss, bullets, collisions, boss countdown, checkGameState. */
  function Tick(s: ScreenState, e: Env, dt: real, c: Controls, fromLeft: bool): ScreenState {
    if s.play.gameOver || s.play.gameCleared then s
    else LaterTick(ActorsTick(Advanced(s, dt), e, dt, c), e, dt, fromLeft)
  }

  /** The player, then the formation. */
  function ActorsTick(s: ScreenState, e: Env, dt: real, c: Controls): ScreenState {
    FormationTick(PlayerTick(s, e, dt, c), e, dt)
  }

  /** Everything after the player and the formation. */
  function LaterTick(s: ScreenState, e: Env, dt: real, fromLeft: bool): ScreenState {
    RulesTick(BulletsTick(VisitorsTick(s, e, dt, fromLeft), e, dt), e, dt)
  }

  /** The UFO, then the boss. */
  function VisitorsTick(s: ScreenState, e: Env, dt: real, fromLeft: bool): ScreenState {
    BossTick(UfoTick(s, e, dt, fromLeft), e, dt)
  }

  /** The collisions (once enabled), the boss countdown, then checkGameState. */
  function RulesTick(s: ScreenState, e: Env, dt: real): ScreenState {
    GameStateChecked(SpawnTimerTick(if s.play.collisionEnabled then CollisionTick(s, e) else s, e, dt))
  }

  class GameScreen {
    var player: Player?
    var enemies: seq<Enemy>
    var playerBullets: seq<Bullet>
    var enemyBullets: seq<EnemyBullet>
    var ufo: Ufo?
    var boss: Boss?
    var play: PlayState
    var bossSpawn: BossSpawn
    var transitions: seq<string>
    const canvasWidth: real
    const canvasHeight: real
    const spread: Spread
    const formation: FormationSystem
    const score: ScoreManager
    const ufoClock: UfoSpawnClock

    /** The formation was built for this screen's canvas. */
    predicate Valid() {
      formation.canvasWidth == canvasWidth
    }

    function Environment(): Env {
      Env(canvasWidth, canvasHeight, formation.minSpeedMultiplier, spread, Corrected)
    }

    function State(): ScreenState
      reads this, player, ufo, boss, formation, score, ufoClock
    {
      ScreenState(if player == null then None else Some(player.State()), enemies, playerBullets, enemyBullets,
                  UfoOf(ufo), BossOf(boss), play, bossSpawn, transitions,
                  formation.State(), score.State(), ufoClock.spawnTimer)
    }

    /** new GameScreen(game): the score manager and the UFO clock are the game's. */
    constructor(canvasWidth: real, canvasHeight: real, minSpeedMultiplier: Option<real>, spread: Spread,
                score: ScoreManager, ufoClock: UfoSpawnClock)
      ensures Valid()
      ensures Environment() == Env(canvasWidth, canvasHeight, minSpeedMultiplier, spread, Corrected)
      ensures this.score == score && this.ufoClock == ufoClock
      ensures State() == ScreenState(None, [], [], [], None, None, PlayState(0.0, false, false, false, false, false),
                                     BossSpawn(0.0, false), [], FormationState(1, 0.0), score.State(), ufoClock.spawnTimer)
    {
      this.canvasWidth := canvasWidth;
      this.canvasHeight := canvasHeight;
      this.spread := spread;
      this.score := score;
      this.ufoClock := ufoClock;
      formation := new FormationSystem(canvasWidth, minSpeedMultiplier);
      player := null;
      enemies := [];
      playerBullets := [];
      enemyBullets := [];
      ufo := null;
      boss := null;
      play := PlayState(0.0, false, false, false, false, false);
      bossSpawn := BossSpawn(0.0, false);
      transitions := [];
    }

    /** enter: initializeGame, then the collision enabling scheduled a second later. */
    method Enter()
      modifies this, formation, score
      ensures State() == Entered(old(State()), Environment())
    {
      InitializeGame();
      play := play.(collisionTimerPending := true);
    }

    /** The callback enter schedules. */
    method EnableCollisions()
      modifies this
      ensures State() == old(State()).(play := old(play).(collisionEnabled := true, collisionTimerPending := false))
    {
      play := play.(collisionEnabled := true, collisionTimerPending := false);
    }

    method InitializeGame()
      modifies this, formation, score
      ensures State() == Initialized(old(State()), Environment())
    {
      ResetEntities();
      ResetProgress();
    }

    method ResetEntities()
      modifies this
      ensures State() == EntitiesReset(old(State()), Environment())
    {
      player := new Player(canvasWidth / 2.0, canvasHeight - PLAYER_BOTTOM_GAP);
      CreateEnemies();
      playerBullets := [];
      enemyBullets := [];
      ufo := null;
      boss := null;
    }

    method ResetProgress()
      modifies this, formation, score
      ensures State() == ProgressReset(old(State()))
    {
      play := PlayState(0.0, false, false, false, false, play.collisionTimerPending);
      bossSpawn := BossSpawn(0.0, false);
      formation.Reset();
      score.ResetScore();
    }

    /** createEnemies: the 5 × 8 grid, pushed row by row. */
    method CreateEnemies()
      modifies this
      ensures State() == old(State()).(enemies := EnemyGrid(canvasWidth))
    {
      var grid := [];
      var enemySpacing := (canvasWidth - ENEMY_MARGIN_X * 2.0) / ENEMY_GAPS as real;
      for row := 0 to ENEMY_ROWS
        invariant grid == GridRows(canvasWidth, row)
      {
        for col := 0 to ENEMY_COLS
          invariant grid == GridRows(canvasWidth, row) + GridRow(canvasWidth, row)[..col]
        {
          var x := ENEMY_MARGIN_X + col as real * enemySpacing;
          var y := ENEMY_TOP_Y + row as real * ENEMY_ROW_GAP;
          assert GridRow(canvasWidth, row)[col] == NewEnemy(x, y);
          assert GridRow(canvasWidth, row)[..col + 1] == GridRow(canvasWidth, row)[..col] + [NewEnemy(x, y)];
          grid := grid + [NewEnemy(x, y)];
        }
        assert GridRow(canvasWidth, row)[..ENEMY_COLS] == GridRow(canvasWidth, row);
      }
      enemies := grid;
    }

    /** GameScreen.update. `input` and `now` stand for the game's input manager and
        performance.now(); `ufoFromLeft` for the UFO's random side. */
    method Update(dt: real, input: InputManager, now: real, ufoFromLeft: bool)
      requires Valid()
      modifies this, player, ufo, boss, formation, score, ufoClock
      ensures State() == Tick(old(State()), Environment(), dt, ReadControls(input, now), ufoFromLeft)
    {
      if !play.gameOver && !play.gameCleared {
        AdvanceClock(dt);
        UpdateEntities(dt, input, now, ufoFromLeft);
      }
    }

    /** Everything update does after the clock. */
    method UpdateEntities(dt: real, input: InputManager, now: real, ufoFromLeft: bool)
      requires Valid()
      modifies this, player, ufo, boss, formation, score, ufoClock
      ensures State() == LaterTick(ActorsTick(old(State()), Environment(), dt, ReadControls(input, now)),
                                   Environment(), dt, ufoFromLeft)
    {
      UpdateActors(dt, input, now);
      UpdateRest(dt, ufoFromLeft);
    }

    method AdvanceClock(dt: real)
      modifies this
      ensures State() == Advanced(old(State()), dt)
      ensures player == old(player) && ufo == old(ufo) && boss == old(boss)
    {
      play := play.(gameTime := play.gameTime + dt);
    }

    method UpdateActors(dt: real, input: InputManager, now: real)
      requires Valid()
      modifies this, player, formation
      ensures State() == ActorsTick(old(State()), Environment(), dt, ReadControls(input, now))
      ensures player == old(player) && ufo == old(ufo) && boss == old(boss)
    {
      UpdatePlayer(dt, input, now);
      UpdateFormation(dt);
    }

    method UpdateRest(dt: real, fromLeft: bool)
      modifies this, player, ufo, boss, score, ufoClock
      ensures State() == LaterTick(old(State()), Environment(), dt, fromLeft)
    {
      UpdateVisitors(dt, fromLeft);
      UpdateBullets(dt);
      ApplyRules(dt);
    }

    method UpdateVisitors(dt: real, fromLeft: bool)
      modifies this, ufo, boss, ufoClock
      ensures State() == VisitorsTick(old(State()), Environment(), dt, fromLeft)
      ensures player == old(player)
      ensures ufo == null || ufo == old(ufo) || fresh(ufo)
      ensures boss == null || boss == old(boss)
    {
      UpdateUfo(dt, fromLeft);
      UpdateBoss(dt);
    }

    method ApplyRules(dt: real)
      modifies this, player, ufo, boss, score
      ensures State() == RulesTick(old(State()), Environment(), dt)
    {
      if play.collisionEnabled {
        CheckAllCollisions();
      }
      UpdateBossSpawnTimer(dt);
      CheckGameState();
    }

    method UpdatePlayer(dt: real, input: InputManager, now: real)
      modifies this, player
      ensures State() == PlayerTick(old(State()), Environment(), dt, ReadControls(input, now))
      ensures player == old(player) && ufo == old(ufo) && boss == old(boss)
    {
      if player != null {
        var shots := player.Update(dt, input, now, canvasWidth, true);
        playerBullets := playerBullets + shots;
      }
    }

    method UpdateFormation(dt: real)
      requires Valid()
      modifies this, formation
      ensures State() == FormationTick(old(State()), Environment(), dt)
      ensures player == old(player) && ufo == old(ufo) && boss == old(boss)
    {
      if boss == null {
        enemies := formation.Update(dt, enemies);
      }
    }

    method UpdateUfo(dt: real, fromLeft: bool)
      modifies this, ufo, ufoClock
      ensures State() == UfoTick(old(State()), Environment(), dt, fromLeft)
      ensures player == old(player) && boss == old(boss)
      ensures ufo == null || ufo == old(ufo) || fresh(ufo)
    {
      if ufo != null {
        ufo.Update(dt, canvasWidth);
        if !ufo.isActive {
          ufo := null;
        }
      }
      if ufo == null && boss == null {
        var newUfo := CheckSpawn(ufoClock, dt, ufo, canvasWidth, canvasHeight, fromLeft);
        if newUfo != null {
          ufo := newUfo;
        }
      }
    }

    method UpdateBoss(dt: real)
      modifies this, boss
      ensures State() == BossTick(old(State()), Environment(), dt)
      ensures player == old(player) && ufo == old(ufo)
      ensures boss == null || boss == old(boss)
    {
      if boss != null {
        var shots := boss.Update(dt, canvasWidth, spread, true);
        enemyBullets := enemyBullets + shots;
        if !boss.isActive {
          ClearGame();
        }
      }
    }

    /** The defeated-boss branch of updateBoss: the game is cleared, the boss removed
        and the game-clear screen requested. */
    method ClearGame()
      modifies this
      ensures State() == old(State()).(play := old(play).(gameCleared := true), boss := None,
                                       transitions := old(transitions) + [GAME_CLEAR_SCREEN])
      ensures player == old(player) && ufo == old(ufo) && boss == null
    {
      play := play.(gameCleared := true);
      boss := null;
      transitions := transitions + [GAME_CLEAR_SCREEN];
    }

    method UpdateBullets(dt: real)
      modifies this
      ensures State() == BulletsTick(old(State()), Environment(), dt)
      ensures player == old(player) && ufo == old(ufo) && boss == old(boss)
    {
      var bullets := playerBullets;
      for i := 0 to |bullets|
        invariant |bullets| == |playerBullets|
        invariant forall k :: 0 <= k < i ==> bullets[k] == playerBullets[k].Update(dt, canvasWidth, canvasHeight)
        invariant forall k :: i <= k < |bullets| ==> bullets[k] == playerBullets[k]
      {
        bullets := bullets[i := bullets[i].Update(dt, canvasWidth, canvasHeight)];
      }
      assert bullets == UpdatedBullets(playerBullets, dt, canvasWidth, canvasHeight);
      var rocks := enemyBullets;
      for i := 0 to |rocks|
        invariant |rocks| == |enemyBullets|
        invariant forall k :: 0 <= k < i ==> rocks[k] == enemyBullets[k].Update(dt, canvasWidth, canvasHeight)
        invariant forall k :: i <= k < |rocks| ==> rocks[k] == enemyBullets[k]
      {
        rocks := rocks[i := rocks[i].Update(dt, canvasWidth, canvasHeight)];
      }
      assert rocks == UpdatedEnemyBullets(enemyBullets, dt, canvasWidth, canvasHeight);
      playerBullets := Filter(bullets, IsActiveBullet);
      enemyBullets := Filter(rocks, IsActiveEnemyBullet);
    }

    /** checkAllCollisions; the enemy-bullet check stays commented out, as in the source. */
    method CheckAllCollisions()
      modifies this, player, ufo, boss, score
      ensures State() == CollisionTick(old(State()), Environment())
    {
      ApplyPlayerBulletCollisions();
      var requested := CheckPlayerEnemyCollisions(player, enemies, play.collisionEnabled, canvasHeight);
      if requested {
        HandleGameOver();
      }
    }

    /** checkPlayerBulletCollisions on this screen's lists and slots. */
    method ApplyPlayerBulletCollisions()
      modifies this, ufo, boss, score
      ensures State() == BulletPassApplied(old(State()), Corrected)
      ensures player == old(player)
    {
      ghost var s0 := State();
      var bullets, es, ufoSlot, bossSlot := CheckPlayerBulletCollisions(playerBullets, enemies, ufo, boss, score, Corrected);
      ghost var p := PlayerBulletPass(s0.playerBullets, s0.enemies, s0.ufo, s0.boss, Corrected);
      assert State() == s0.(ufo := p.ufo, boss := p.boss, score := AddAll(s0.score, p.awards));
      StoreLists(bullets, es);
      StoreSlots(ufoSlot, bossSlot);
    }

    /** The write-back of the spliced lists. */
    method StoreLists(bullets: seq<Bullet>, es: seq<Enemy>)
      modifies this
      ensures State() == old(State()).(playerBullets := bullets, enemies := es)
      ensures player == old(player) && ufo == old(ufo) && boss == old(boss)
    {
      playerBullets, enemies := bullets, es;
    }

    /** The write-back of the UFO and boss slots, each either kept or cleared. */
    method StoreSlots(ufoSlot: Ufo?, bossSlot: Boss?)
      requires ufoSlot == null || ufoSlot == ufo
      requires bossSlot == null || bossSlot == boss
      modifies this
      ensures State() == old(State()).(ufo := if ufoSlot == null then None else old(State()).ufo,
                                       boss := if bossSlot == null then None else old(State()).boss)
      ensures player == old(player) && ufo == ufoSlot && boss == bossSlot
    {
      ufo, boss := ufoSlot, bossSlot;
    }

    method UpdateBossSpawnTimer(dt: real)
      modifies this
      ensures State() == SpawnTimerTick(old(State()), Environment(), dt)
    {
      if bossSpawn.scheduled {
        bossSpawn := bossSpawn.(timer := bossSpawn.timer + dt);
        if bossSpawn.timer >= BOSS_SPAWN_DELAY {
          boss := new Boss(canvasWidth, canvasHeight);
          bossSpawn := BossSpawn(0.0, false);
        }
      }
    }

    method CheckGameState()
      modifies this
      ensures State() == GameStateChecked(old(State()))
    {
      if play.gameCleared {
        return;
      }
      if |enemies| == 0 && boss == null && !play.enemyRespawnScheduled && !bossSpawn.scheduled {
        bossSpawn := BossSpawn(0.0, true);
      }
    }

    method HandleGameOver()
      modifies this, player
      ensures State() == GameOverHandled(old(State()))
    {
      if play.gameTime < GAME_OVER_GRACE || play.gameOver {
        return;
      }
      play := play.(gameOver := true);
      if player != null {
        player.isActive := false;
      }
      transitions := transitions + [GAME_OVER_SCREEN];
    }

    method AddBullet(bullet: Bullet)
      modifies this
      ensures State() == old(State()).(playerBullets := old(playerBullets) + [bullet])
    {
      playerBullets := playerBullets + [bullet];
    }

    method AddEnemyBullet(bullet: EnemyBullet)
      modifies this
      ensures State() == old(State()).(enemyBullets := old(enemyBullets) + [bullet])
    {
      enemyBullets := enemyBullets + [bullet];
    }
  }
}
