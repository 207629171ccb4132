/** The game-wide constants of src/js/config/gameConfig.js, as exact numbers.
    Times are in seconds unless a name says milliseconds, distances in canvas pixels.
    GameConfig.ENEMY has no ROWS, COLS or MIN_SPEED_MULTIPLIER entry; the code that reads
    them falls back to literals (the game screen) or receives the value as a parameter
    (the formation system). */
module Config {

  const CANVAS_WIDTH: real := 360.0
  const CANVAS_HEIGHT: real := 640.0
  const TARGET_FPS: int := 60

  const SCORE_ENEMY_KILL: int := 10
  const SCORE_UFO_KILL: int := 100
  const SCORE_BOSS_KILL: int := 300
  const SCORE_STAGE_CLEAR: int := 100

  const PLAYER_SPEED: real := 200.0
  const PLAYER_SHOOT_COOLDOWN: real := 0.3
  const PLAYER_CHARGE_TIME_MS: real := 3000.0
  const PLAYER_JUMP_DURATION: real := 0.5
  const PLAYER_JUMP_HEIGHT: real := 30.0
  /** Declared but read by no code of the game. */
  const PLAYER_MAX_SPECIAL_USES: int := 5

  const ENEMY_HEALTH: int := 1
  const ENEMY_FORMATION_SPEED: real := 15.0
  const ENEMY_FORMATION_INTERVAL: real := 1.0
  const ENEMY_DROP_DISTANCE: real := 20.0
  const ENEMY_EDGE_MARGIN: real := 30.0

  const UFO_SPAWN_INTERVAL: real := 10.0
  const UFO_SPEED: real := 100.0

  const BOSS_SPAWN_TIME: real := 180.0
  const BOSS_HEALTH: int := 30

  const BULLET_PLAYER_SPEED: real := 400.0
  const BULLET_ENEMY_SPEED: real := 200.0
  const BULLET_SPECIAL_SPEED: real := 800.0

  /** Fraction of the canvas height below which an enemy's bottom edge ends the game. */
  const COLLISION_GAME_OVER_THRESHOLD: real := 0.9
  /** Factor by which the player and enemy boxes shrink for the direct-contact test. */
  const COLLISION_ADJUSTMENT_FACTOR: real := 0.8

  const DEBUG_GOD_MODE: bool := false
}
