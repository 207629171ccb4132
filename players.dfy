/** The player's ninja of src/js/entities/player.js: clamped horizontal movement, a shot
    cooldown, and the charge shot (hold the fire key for 3000 ms, release to throw the
    special shuriken). The jump animation is not kept: startJump is never called, so its
    branch never runs. The always-1 sprite `direction` and the sounds are not kept.
    Shots are returned for the game screen to add through addBullet. */
module Players {
  import opened Timers
  import opened Config
  import opened Bullets
  import opened Input

  const PLAYER_WIDTH: real := 64.0
  const PLAYER_HEIGHT: real := 96.0
  const PLAYER_TOTAL_FRAMES: int := 4
  const PLAYER_ANIMATION_SPEED: real := 0.1

  const LEFT_KEY: string := "ArrowLeft"
  const RIGHT_KEY: string := "ArrowRight"
  const FIRE_KEY: string := " "

  /** What update reads from the input manager in one tick: the two arrow keys, whether
      the fire key is down, and how long it has been held in milliseconds. */
  datatype Controls = Controls(left: bool, right: bool, fireDown: bool, firePressedTime: real)

  function ReadControls(input: InputManager, now: real): Controls
    reads input
  {
    Controls(input.IsKeyDown(LEFT_KEY), input.IsKeyDown(RIGHT_KEY), input.IsKeyDown(FIRE_KEY),
             input.GetKeyPressedTime(FIRE_KEY, now))
  }

  /** A snapshot of the player's mutable fields. */
  datatype PlayerState = PlayerState(
    x: real, y: real,
    isActive: bool,
    canShoot: bool,
    shootTimer: real,
    isCharging: bool,
    chargeTime: real,
    specialReady: bool,
    currentFrame: int,
    animationTimer: real)
  {
    predicate FrameInRange() {
      0 <= currentFrame < PLAYER_TOTAL_FRAMES
    }
  }

  function InitialPlayer(x: real, y: real): PlayerState {
    PlayerState(x, y, true, true, 0.0, false, 0.0, false, 0, 0.0)
  }

  datatype PlayerUpdate = PlayerUpdate(player: PlayerState, shots: seq<Bullet>)

  /** Player.shoot. */
  function Shot(s: PlayerState, hasGameScreen: bool): PlayerUpdate {
    if !s.canShoot then PlayerUpdate(s, [])
    else PlayerUpdate(s.(canShoot := false, shootTimer := 0.0),
                      if hasGameScreen
                      then [NewBullet(s.x, s.y - PLAYER_HEIGHT / 2.0, Velocity(0.0, -BULLET_PLAYER_SPEED))]
                      else [])
  }

  /** Player.shootSpecial. */
  function SpecialShot(s: PlayerState, hasGameScreen: bool): PlayerUpdate {
    PlayerUpdate(s.(canShoot := false, shootTimer := 0.0),
                 if hasGameScreen
                 then [NewSpecialBullet(s.x, s.y - PLAYER_HEIGHT / 2.0, Velocity(0.0, -BULLET_SPECIAL_SPEED))]
                 else [])
  }

  function Max(a: real, b: real): real { if a >= b then a else b }
  function Min(a: real, b: real): real { if a <= b then a else b }

  /** The charge handling of update, after the move and the cooldown tick. */
  function Charge(s: PlayerState, c: Controls, hasGameScreen: bool): PlayerUpdate {
    if c.fireDown then
      if c.firePressedTime > 0.0 then
        var ready := s.specialReady || c.firePressedTime >= PLAYER_CHARGE_TIME_MS;
        PlayerUpdate(s.(isCharging := true, chargeTime := c.firePressedTime, specialReady := ready), [])
      else PlayerUpdate(s, [])
    else if s.isCharging then
      var released := s.(isCharging := false);
      var fired :=
        if released.specialReady then
          var r := SpecialShot(released, hasGameScreen);
          PlayerUpdate(r.player.(specialReady := false), r.shots)
        else if released.canShoot then Shot(released, hasGameScreen)
        else PlayerUpdate(released, []);
      PlayerUpdate(fired.player.(chargeTime := 0.0), fired.shots)
    else if c.fireDown && s.canShoot then Shot(s, hasGameScreen)
    else PlayerUpdate(s, [])
  }

  /** The horizontal offset of one tick from the arrow keys. */
  function Offset(c: Controls, dt: real): real {
    (if c.left then -PLAYER_SPEED * dt else 0.0) + (if c.right then PLAYER_SPEED * dt else 0.0)
  }

  /** The move of update: the offset applied and x clamped to keep the player on the canvas. */
  function MovedBy(s: PlayerState, dx: real, canvasWidth: real): PlayerState {
    s.(x := Max(PLAYER_WIDTH / 2.0, Min(canvasWidth - PLAYER_WIDTH / 2.0, s.x + dx)))
  }

  function CooledDown(s: PlayerState, dt: real): PlayerState {
    var cd := CooldownTick(Cooldown(s.canShoot, s.shootTimer), PLAYER_SHOOT_COOLDOWN, dt);
    s.(canShoot := cd.canShoot, shootTimer := cd.shootTimer)
  }

  function Animated(s: PlayerState, dt: real): PlayerState {
    var a := AnimationTick(Animation(s.currentFrame, s.animationTimer), PLAYER_ANIMATION_SPEED,
                           PLAYER_TOTAL_FRAMES, dt);
    s.(currentFrame := a.currentFrame, animationTimer := a.animationTimer)
  }

  /** Player.update: move, cooldown, charge, animation, in that order. */
  function PlayerUpdated(s: PlayerState, dt: real, c: Controls, canvasWidth: real,
                         hasGameScreen: bool): PlayerUpdate
  {
    var charged := Charge(CooledDown(MovedBy(s, Offset(c, dt), canvasWidth), dt), c, hasGameScreen);
    PlayerUpdate(Animated(charged.player, dt), charged.shots)
  }

  class Player {
    var x: real
    var y: real
    const width: real := PLAYER_WIDTH
    const height: real := PLAYER_HEIGHT
    const speed: real := PLAYER_SPEED
    var isActive: bool
    var canShoot: bool
    const shootCooldown: real := PLAYER_SHOOT_COOLDOWN
    var shootTimer: real
    var isCharging: bool
    var chargeTime: real
    const requiredChargeTime: real := PLAYER_CHARGE_TIME_MS
    var specialReady: bool
    var currentFrame: int
    const animationSpeed: real := PLAYER_ANIMATION_SPEED
    var animationTimer: real
    const totalFrames: int := PLAYER_TOTAL_FRAMES

    function State(): PlayerState
      reads this
    {
      PlayerState(x, y, isActive, canShoot, shootTimer, isCharging, chargeTime, specialReady,
                  currentFrame, animationTimer)
    }

    constructor(x: real, y: real)
      ensures State() == InitialPlayer(x, y)
    {
      this.x := x;
      this.y := y;
      isActive := true;
      canShoot := true;
      shootTimer := 0.0;
      isCharging := false;
      chargeTime := 0.0;
      specialReady := false;
      currentFrame := 0;
      animationTimer := 0.0;
    }

    /** Player.update reading the keys from `input` at clock reading `now`. */
    method Update(dt: real, input: InputManager, now: real, canvasWidth: real, hasGameScreen: bool)
      returns (shots: seq<Bullet>)
      modifies this
      ensures var r := PlayerUpdated(old(State()), dt, ReadControls(input, now), canvasWidth, hasGameScreen);
        State() == r.player && shots == r.shots
    {
      Move(dt, input, now, canvasWidth);
      UpdateCooldown(dt);
      shots := UpdateCharge(input, now, hasGameScreen);
      UpdateAnimation(dt);
    }

    /** The move of update: left and right arrows, then the clamp to the canvas. */
    method Move(dt: real, input: InputManager, now: real, canvasWidth: real)
      modifies this
      ensures State() == MovedBy(old(State()), Offset(ReadControls(input, now), dt), canvasWidth)
    {
      var dx := 0.0;
      if input.IsKeyDown(LEFT_KEY) {
        dx := dx - speed * dt;
      }
      if input.IsKeyDown(RIGHT_KEY) {
        dx := dx + speed * dt;
      }
      x := Max(width / 2.0, Min(canvasWidth - width / 2.0, x + dx));
    }

    method UpdateCooldown(dt: real)
      modifies this
      ensures State() == CooledDown(old(State()), dt)
    {
      if !canShoot {
        shootTimer := shootTimer + dt;
        if shootTimer >= shootCooldown {
          canShoot := true;
          shootTimer := 0.0;
        }
      }
    }

    method UpdateAnimation(dt: real)
      modifies this
      ensures State() == Animated(old(State()), dt)
    {
      animationTimer := animationTimer + dt;
      if animationTimer >= animationSpeed {
        currentFrame := (currentFrame + 1) % totalFrames;
        animationTimer := 0.0;
      }
    }

    /** The charge and release part of update. */
    method UpdateCharge(input: InputManager, now: real, hasGameScreen: bool) returns (shots: seq<Bullet>)
      modifies this
      ensures var r := Charge(old(State()), ReadControls(input, now), hasGameScreen);
        State() == r.player && shots == r.shots
    {
      shots := [];
      if input.IsKeyDown(FIRE_KEY) {
        var pressedTime := input.GetKeyPressedTime(FIRE_KEY, now);
        if pressedTime > 0.0 {
          if !isCharging {
            isCharging := true;
            chargeTime := 0.0;
          }
          chargeTime := pressedTime;
          if chargeTime >= requiredChargeTime && !specialReady {
            specialReady := true;
          }
        }
      } else {
        if isCharging {
          isCharging := false;
          if specialReady {
            shots := ShootSpecial(hasGameScreen);
            specialReady := false;
          } else if canShoot {
            shots := Shoot(hasGameScreen);
          }
          chargeTime := 0.0;
        }
        // The source's plain shot on a held key without a charge (player.js:131-133)
        // sits on this side of the key test, where the key is not down, so it never runs.
      }
    }

    method Shoot(hasGameScreen: bool) returns (shots: seq<Bullet>)
      modifies this
      ensures var r := Shot(old(State()), hasGameScreen); State() == r.player && shots == r.shots
    {
      if !canShoot {
        return [];
      }
      var bullet := NewBullet(x, y - height / 2.0, Velocity(0.0, -BULLET_PLAYER_SPEED));
      shots := if hasGameScreen then [bullet] else [];
      canShoot := false;
      shootTimer := 0.0;
    }

    method ShootSpecial(hasGameScreen: bool) returns (shots: seq<Bullet>)
      modifies this
      ensures var r := SpecialShot(old(State()), hasGameScreen); State() == r.player && shots == r.shots
    {
      var bullet := NewSpecialBullet(x, y - height / 2.0, Velocity(0.0, -BULLET_SPECIAL_SPEED));
      shots := if hasGameScreen then [bullet] else [];
      canShoot := false;
      shootTimer := 0.0;
    }
  }

  /** After update the player's x lies in [width/2, canvasWidth − width/2] (on any canvas
      at least as wide as the player), and is exactly the moved position when that is
      inside. y and life never change, the frame stays in range, and at most one bullet
      is fired. */
  lemma UpdateSpec(s: PlayerState, dt: real, c: Controls, w: real, has: bool)
    requires s.FrameInRange()
    ensures var r := PlayerUpdated(s, dt, c, w, has);
      var dx := (if c.left then -200.0 * dt else 0.0) + (if c.right then 200.0 * dt else 0.0);
      && (w >= 64.0 ==> 32.0 <= r.player.x <= w - 32.0)
      && (32.0 <= s.x + dx <= w - 32.0 ==> r.player.x == s.x + dx)
      && r.player.y == s.y && r.player.isActive == s.isActive
      && r.player.FrameInRange()
      && |r.shots| <= 1
  {
    AnimationTickKeepsFrame(Animation(s.currentFrame, s.animationTimer), 0.1, 4, dt);
  }

  /** Two shoots with no cooldown tick between them throw at most one shuriken: the
      first blocks the second, which then changes nothing. One is thrown exactly when
      shooting was allowed and there is a game screen. */
  lemma ShootTwiceThrowsOnce(s: PlayerState, has: bool)
    ensures var r1 := Shot(s, has);
      var r2 := Shot(r1.player, has);
      && r2 == PlayerUpdate(r1.player, [])
      && |r1.shots + r2.shots| == (if s.canShoot && has then 1 else 0)
  {
  }

  /** A thrown shuriken is a live player bullet that leaves from the player's top edge
      and, on each update with a positive time step, climbs without drifting sideways. */
  lemma ThrownShotRises(s: PlayerState, dt: real, w: real, h: real)
    requires s.canShoot && dt > 0.0
    ensures var b := Shot(s, true).shots[0];
      var m := b.Update(dt, w, h);
      && b.isActive && b.isPlayerBullet && b.x == s.x && b.y + PLAYER_HEIGHT / 2.0 == s.y
      && m.y < b.y && m.x == b.x
  {
  }

  /** The charged throw outranks the plain one: it is thrown even while the cooldown
      blocks a plain shot and blocks plain shots afterwards; from the same player it
      leaves from the same point, flies twice as fast, is four times as wide and does
      three times the damage. */
  lemma SpecialOutranksPlainShot(s: PlayerState)
    ensures var r := SpecialShot(s, true);
      && |r.shots| == 1 && r.shots[0].kind.Special?
      && Shot(r.player, true) == PlayerUpdate(r.player, [])
    ensures s.canShoot ==>
      var b := Shot(s, true).shots[0];
      var c := SpecialShot(s, true).shots[0];
      && c.x == b.x && c.y == b.y && c.velocity.vx == b.velocity.vx
      && c.velocity.vy == 2.0 * b.velocity.vy && b.velocity.vy < 0.0
      && c.width == 4.0 * b.width && c.damage == 3 * b.damage
  {
  }

  /** While shooting is blocked the timer grows by dt, and once it reaches 0.3 shooting is
      allowed again with the timer at 0; a shot fired in the same tick blocks it again
      with a zero timer, and while still blocked only a special can be thrown. */
  lemma CooldownSpec(s: PlayerState, dt: real, c: Controls, w: real, has: bool)
    requires !s.canShoot
    ensures var r := PlayerUpdated(s, dt, c, w, has);
      && (s.shootTimer + dt < 0.3 && r.shots == [] && has ==> !r.player.canShoot && r.player.shootTimer == s.shootTimer + dt)
      && (s.shootTimer + dt >= 0.3 && r.shots == [] && c.fireDown ==> r.player.canShoot && r.player.shootTimer == 0.0)
      && (s.shootTimer + dt < 0.3 ==> forall b <- r.shots :: b.kind.Special?)
  {
  }

  /** While the fire key is held with a positive hold time the player is charging, the
      charge time is the hold time, and the special is ready once the hold reaches
      3000 ms (and stays ready). No shot fires while the key is held: the plain-shot
      branch that tests the key again sits on the not-held side. */
  lemma HoldSpec(s: PlayerState, dt: real, c: Controls, w: real, has: bool)
    requires c.fireDown
    ensures var r := PlayerUpdated(s, dt, c, w, has);
      && r.shots == []
      && (c.firePressedTime > 0.0 ==>
            r.player.isCharging && r.player.chargeTime == c.firePressedTime
            && (r.player.specialReady <==> s.specialReady || c.firePressedTime >= 3000.0))
      && (c.firePressedTime <= 0.0 ==>
            r.player.isCharging == s.isCharging && r.player.chargeTime == s.chargeTime
            && r.player.specialReady == s.specialReady)
  {
  }

  /** Releasing the key while charging ends the charge with charge time 0: a ready special
      is thrown (and is no longer ready); otherwise a plain shot is thrown only if the
      cooldown allows. Releasing without charging fires nothing and changes no charge
      state. */
  lemma ReleaseSpec(s: PlayerState, dt: real, c: Controls, w: real, has: bool)
    requires !c.fireDown && has
    ensures var r := PlayerUpdated(s, dt, c, w, has);
      var cd := CooldownTick(Cooldown(s.canShoot, s.shootTimer), 0.3, dt);
      && (s.isCharging ==>
            !r.player.isCharging && r.player.chargeTime == 0.0 && !r.player.specialReady
            && (s.specialReady ==> |r.shots| == 1 && r.shots[0].kind.Special? && !r.player.canShoot)
            && (!s.specialReady && cd.canShoot ==> |r.shots| == 1 && r.shots[0].kind.Normal? && !r.player.canShoot)
            && (!s.specialReady && !cd.canShoot ==> r.shots == []))
      && (!s.isCharging ==>
            r.shots == [] && !r.player.isCharging && r.player.chargeTime == s.chargeTime
            && r.player.specialReady == s.specialReady)
  {
  }

  /** A hold of 3000 ms seen by one update, followed by a release on the next, throws
      exactly one special shuriken and leaves the player neither charging nor ready. */
  lemma ChargeThenReleaseThrowsSpecial(s: PlayerState, dt1: real, dt2: real, held: Controls,
                                       released: Controls, w: real)
    requires held.fireDown && held.firePressedTime >= 3000.0 && !released.fireDown
    ensures var r1 := PlayerUpdated(s, dt1, held, w, true);
      var r2 := PlayerUpdated(r1.player, dt2, released, w, true);
      && r1.shots == []
      && |r2.shots| == 1 && r2.shots[0].kind.Special? && r2.shots[0].velocity == Velocity(0.0, -800.0)
      && !r2.player.isCharging && !r2.player.specialReady && r2.player.chargeTime == 0.0
  {
  }
}
