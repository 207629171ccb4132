/** The formation enemies of src/js/entities/enemy.js. Values: the game screen's enemy
    list holds the only reference to each one, so an update in place is a replacement of
    its slot. The fields read only by the never-called changeDirectionAndDrop and the
    disabled random fire (speed, direction, dropDistance, edgeMargin,
    shootProbability) and the unread `points` are not kept. */
module Enemies {
  import opened Timers
  import opened Bullets
  import opened EnemyBullets
  import opened Config

  const ENEMY_WIDTH: real := 48.0
  const ENEMY_HEIGHT: real := 48.0
  const ENEMY_SHOOT_COOLDOWN: real := 2.0
  const ENEMY_TOTAL_FRAMES: int := 2
  const ENEMY_ANIMATION_SPEED: real := 0.5
  /** The y above which Enemy.update assumes a corrupted position and resets it. */
  const ENEMY_Y_LIMIT: real := 1000.0
  const ENEMY_Y_RESET: real := 100.0

  datatype Enemy = Enemy(
    x: real, y: real,
    width: real, height: real,
    health: int,
    isActive: bool,
    moveDelay: real,
    canShoot: bool,
    shootCooldown: real,
    shootTimer: real,
    currentFrame: int,
    totalFrames: int,
    animationSpeed: real,
    animationTimer: real)
  {
    predicate FrameInRange() {
      0 <= currentFrame < totalFrames
    }

    function CooldownPart(): Cooldown { Cooldown(canShoot, shootTimer) }
    function AnimationPart(): Animation { Animation(currentFrame, animationTimer) }

    /** The shot cooldown and the animation ticked by `dt`; the part of Enemy.update
        that formationSystem.js repeats for every enemy. */
    function Tick(dt: real): Enemy {
      var c := CooldownTick(CooldownPart(), shootCooldown, dt);
      var a := AnimationTick(AnimationPart(), animationSpeed, totalFrames, dt);
      this.(canShoot := c.canShoot, shootTimer := c.shootTimer,
            currentFrame := a.currentFrame, animationTimer := a.animationTimer)
    }

    /** Enemy.update. */
    function Update(dt: real): Enemy {
      if y > ENEMY_Y_LIMIT then this.(y := ENEMY_Y_RESET)
      else if moveDelay > 0.0 then this.(moveDelay := moveDelay - dt)
      else Tick(dt)
    }

    /** Enemy.shoot: the bullet it fires, if shooting is allowed and a game screen is
        registered to receive it. */
    function Shoot(hasGameScreen: bool): ShotResult {
      if !canShoot then ShotResult(this, [])
      else ShotResult(this.(canShoot := false, shootTimer := 0.0),
                      if hasGameScreen
                      then [NewEnemyBullet(x, y + height / 2.0, Velocity(0.0, BULLET_ENEMY_SPEED))]
                      else [])
    }

    /** Enemy.takeDamage. */
    function TakeDamage(amount: int): DamageResult {
      var e := this.(health := health - amount);
      if e.health <= 0 then DamageResult(e.(isActive := false), true) else DamageResult(e, false)
    }
  }

  datatype ShotResult = ShotResult(enemy: Enemy, bullets: seq<EnemyBullet>)
  datatype DamageResult = DamageResult(enemy: Enemy, destroyed: bool)

  /** new Enemy(game, x, y). */
  function NewEnemy(x: real, y: real): Enemy {
    Enemy(x, y, ENEMY_WIDTH, ENEMY_HEIGHT, ENEMY_HEALTH, true, 0.0, true,
          ENEMY_SHOOT_COOLDOWN, 0.0, 0, ENEMY_TOTAL_FRAMES, ENEMY_ANIMATION_SPEED, 0.0)
  }

  /** takeDamage lowers the health by exactly `amount` and reports destruction exactly
      when the health reaches 0 or below; the enemy is then inactive, and an inactive
      enemy stays inactive. Nothing else changes. */
  lemma TakeDamageSpec(e: Enemy, amount: int)
    ensures var r := e.TakeDamage(amount);
      && r.enemy.health == e.health - amount
      && (r.destroyed <==> e.health - amount <= 0)
      && (r.destroyed ==> !r.enemy.isActive)
      && (r.enemy.isActive <==> e.isActive && !r.destroyed)
      && r.enemy == e.(health := r.enemy.health, isActive := r.enemy.isActive)
  {
  }

  /** Enemy.update never changes x, and changes y only when y > 1000, where it resets y
      to 100 and the tick ends there. While moveDelay > 0 it only lowers moveDelay by dt.
      Otherwise it only ticks the cooldown (restoring canShoot with a zero timer once the
      timer reaches shootCooldown) and the animation (the frame staying in range).
      Health and isActive never change. */
  lemma UpdateSpec(e: Enemy, dt: real)
    requires e.totalFrames > 0 && e.FrameInRange()
    ensures var u := e.Update(dt);
      && u.x == e.x && u.health == e.health && u.isActive == e.isActive
      && u.FrameInRange()
      && (e.y > ENEMY_Y_LIMIT ==> u == e.(y := 100.0))
      && (e.y <= ENEMY_Y_LIMIT ==> u.y == e.y)
      && (e.y <= ENEMY_Y_LIMIT && e.moveDelay > 0.0 ==> u == e.(moveDelay := e.moveDelay - dt))
      && (e.y <= ENEMY_Y_LIMIT && e.moveDelay <= 0.0 ==>
            u.moveDelay == e.moveDelay
            && (!e.canShoot && e.shootTimer + dt >= e.shootCooldown ==> u.canShoot && u.shootTimer == 0.0)
            && (!e.canShoot && e.shootTimer + dt < e.shootCooldown ==> !u.canShoot && u.shootTimer == e.shootTimer + dt)
            && (e.canShoot ==> u.canShoot && u.shootTimer == e.shootTimer))
  {
    AnimationTickKeepsFrame(e.AnimationPart(), e.animationSpeed, e.totalFrames, dt);
  }

  /** shoot changes nothing when shooting is blocked. Otherwise it blocks shooting with
      a zero timer and fires exactly one downward bullet from the enemy's bottom edge at
      the enemy bullet speed, provided there is a game screen to receive it. */
  lemma ShootSpec(e: Enemy, hasGameScreen: bool)
    ensures var r := e.Shoot(hasGameScreen);
      && (!e.canShoot ==> r.enemy == e && r.bullets == [])
      && (e.canShoot ==>
            r.enemy == e.(canShoot := false, shootTimer := 0.0)
            && |r.bullets| == (if hasGameScreen then 1 else 0)
            && (forall b <- r.bullets ::
                  b.isActive && !b.isPlayerBullet && b.x == e.x && b.y == e.y + e.height / 2.0
                  && b.velocity == Velocity(0.0, 200.0)))
  {
  }

  /** After a shot the enemy waits out its cooldown: once the delay is over and y is
      sane, a shot followed by an update shorter than shootCooldown leaves it unable to
      fire, and an update of at least shootCooldown lets it fire again. */
  lemma ShootWaitsForCooldown(e: Enemy, hasGameScreen: bool, dt: real)
    requires e.canShoot && e.y <= ENEMY_Y_LIMIT && e.moveDelay <= 0.0
    ensures var u := e.Shoot(hasGameScreen).enemy.Update(dt);
      && (dt < e.shootCooldown ==> u.Shoot(hasGameScreen) == ShotResult(u, []))
      && (dt >= e.shootCooldown ==> u.canShoot)
  {
  }

  /** The enemy after a run of updates. */
  function UpdateAll(e: Enemy, dts: seq<real>): Enemy
    decreases |dts|
  {
    if |dts| == 0 then e else UpdateAll(e.Update(dts[0]), dts[1..])
  }

  /** Updates never change an enemy's size or frame count, never move it sideways,
      keep its frame in range, and never bring it back to life. */
  lemma {:induction false} UpdateAllKeeps(e: Enemy, dts: seq<real>)
    requires e.totalFrames > 0 && e.FrameInRange()
    ensures var u := UpdateAll(e, dts);
      u.x == e.x && u.width == e.width && u.height == e.height
      && u.totalFrames == e.totalFrames && u.FrameInRange()
      && (!e.isActive ==> !u.isActive)
    decreases |dts|
  {
    if |dts| > 0 {
      UpdateSpec(e, dts[0]);
      UpdateAllKeeps(e.Update(dts[0]), dts[1..]);
    }
  }
}
