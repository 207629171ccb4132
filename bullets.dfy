/** The player's bullets: the plain shuriken of src/js/entities/bullet.js and the charged
    shuriken of src/js/entities/specialBullet.js, which overrides the size, damage,
    penetration and spin and adds a glow that oscillates on every update.
    Both are values: the game screen's bullet list holds the only reference to each one,
    so an update in place is a replacement of its slot. */
module Bullets {

  /** Velocity in pixels per second. The source stores an angle and a speed and moves by
      `cos(angle)·speed` and `sin(angle)·speed`; the model takes those two products. */
  datatype Velocity = Velocity(vx: real, vy: real)

  /** The glow state exists only on the charged subclass. */
  datatype BulletKind =
    | Normal
    | Special(glowIntensity: real, glowDirection: real)

  datatype Bullet = Bullet(
    x: real, y: real,
    velocity: Velocity,
    width: real, height: real,
    damage: int,
    isPlayerBullet: bool,
    isActive: bool,
    penetrating: bool,
    rotation: real,
    rotationSpeed: real,
    kind: BulletKind)
  {
    /** Outside the canvas enlarged by the bullet's own size on every side. */
    predicate OutOfBounds(canvasWidth: real, canvasHeight: real) {
      x < -width || x > canvasWidth + width || y < -height || y > canvasHeight + height
    }

    /** Bullet.update: move, spin, and deactivate once out of bounds. */
    function Moved(dt: real, canvasWidth: real, canvasHeight: real): Bullet {
      var b := this.(x := x + velocity.vx * dt, y := y + velocity.vy * dt,
                     rotation := rotation + rotationSpeed * dt);
      if b.OutOfBounds(canvasWidth, canvasHeight) then b.(isActive := false) else b
    }

    /** The update the bullet's own class performs: Bullet.update, or for a special
        bullet Bullet.update followed by the glow step. */
    function Update(dt: real, canvasWidth: real, canvasHeight: real): Bullet {
      var m := Moved(dt, canvasWidth, canvasHeight);
      match kind
      case Normal => m
      case Special(g, d) => m.(kind := GlowStep(g, d))
    }

    /** Bullet.collidesWith: the distance between the centres is below the mean of the
        two widths. The square root is avoided by comparing squares. */
    predicate CollidesWith(ex: real, ey: real, ewidth: real) {
      var dx := x - ex;
      var dy := y - ey;
      var minDistance := (width + ewidth) / 2.0;
      minDistance > 0.0 && dx * dx + dy * dy < minDistance * minDistance
    }
  }

  const GLOW_STEP: real := 0.02
  const GLOW_MAX: real := 1.2
  const GLOW_MIN: real := 0.8

  /** SpecialBullet glow: the intensity moves by the direction, and the direction is
      turned down above the maximum and up below the minimum. */
  function GlowStep(glowIntensity: real, glowDirection: real): BulletKind {
    var g := glowIntensity + glowDirection;
    Special(g, if g > GLOW_MAX then -GLOW_STEP else if g < GLOW_MIN then GLOW_STEP else glowDirection)
  }

  /** new Bullet(game, x, y, angle, speed). */
  function NewBullet(x: real, y: real, velocity: Velocity): Bullet {
    Bullet(x, y, velocity, 12.0, 12.0, 1, true, true, false, 0.0, 10.0, Normal)
  }

  /** new SpecialBullet(game, x, y, angle, speed): the Bullet constructor, then overrides. */
  function NewSpecialBullet(x: real, y: real, velocity: Velocity): Bullet {
    NewBullet(x, y, velocity).(width := 48.0, height := 48.0, damage := 3, penetrating := true,
                               rotationSpeed := 15.0, kind := Special(1.0, GLOW_STEP))
  }

  /** A fresh plain bullet is an active 12×12 player bullet of damage 1 that does not
      penetrate and has not turned; a fresh special bullet is the same bullet at the same
      place and speed, but 48×48, of damage 3, penetrating, spinning at 15 instead of 10,
      and glowing at intensity 1 and rising. */
  lemma ConstructedBullets(x: real, y: real, v: Velocity)
    ensures var b := NewBullet(x, y, v);
      b.isActive && b.isPlayerBullet && b.width == 12.0 && b.height == 12.0 && b.damage == 1
      && !b.penetrating && b.rotation == 0.0 && b.kind.Normal? && b.x == x && b.y == y && b.velocity == v
    ensures var s := NewSpecialBullet(x, y, v);
      s == NewBullet(x, y, v).(width := 48.0, height := 48.0, damage := 3, penetrating := true,
                               rotationSpeed := 15.0, kind := Special(1.0, 0.02))
  {
  }

  /** Update moves the bullet by velocity·dt and turns it by rotationSpeed·dt; it leaves
      the bullet active exactly when it was active and the new position is inside the
      enlarged canvas, so `isActive` is never set back to true. Size, damage and speed are
      kept. */
  lemma UpdateDeactivatesExactlyOutside(b: Bullet, dt: real, w: real, h: real)
    ensures var u := b.Update(dt, w, h);
      && u.x == b.x + b.velocity.vx * dt && u.y == b.y + b.velocity.vy * dt
      && u.rotation == b.rotation + b.rotationSpeed * dt
      && (u.isActive <==> b.isActive && !u.OutOfBounds(w, h))
      && u.width == b.width && u.height == b.height && u.damage == b.damage
      && u.velocity == b.velocity && u.penetrating == b.penetrating
      && u.isPlayerBullet == b.isPlayerBullet && u.rotationSpeed == b.rotationSpeed
      && u.kind.Normal? == b.kind.Normal?
  {
  }

  /** The special bullet's update is Bullet's update followed by the glow step: the
      intensity changes by the direction on every update, and the direction becomes
      -0.02 above 1.2, +0.02 below 0.8, and is otherwise unchanged. */
  lemma SpecialUpdateIsMoveThenGlow(b: Bullet, dt: real, w: real, h: real)
    requires b.kind.Special?
    ensures var u := b.Update(dt, w, h);
      && u == b.Moved(dt, w, h).(kind := u.kind)
      && u.kind.glowIntensity == b.kind.glowIntensity + b.kind.glowDirection
      && (u.kind.glowIntensity > 1.2 ==> u.kind.glowDirection == -0.02)
      && (u.kind.glowIntensity < 0.8 ==> u.kind.glowDirection == 0.02)
      && (0.8 <= u.kind.glowIntensity <= 1.2 ==> u.kind.glowDirection == b.kind.glowDirection)
  {
  }

  /** The bullet after a run of updates, one per tick length in `dts`. */
  function UpdateAll(b: Bullet, dts: seq<real>, w: real, h: real): Bullet
    decreases |dts|
  {
    if |dts| == 0 then b else UpdateAll(b.Update(dts[0], w, h), dts[1..], w, h)
  }

  /** Once a bullet is inactive, no run of updates makes it active again. */
  lemma {:induction false} InactiveStaysInactive(b: Bullet, dts: seq<real>, w: real, h: real)
    requires !b.isActive
    ensures !UpdateAll(b, dts, w, h).isActive
    decreases |dts|
  {
    if |dts| > 0 {
      UpdateDeactivatesExactlyOutside(b, dts[0], w, h);
      InactiveStaysInactive(b.Update(dts[0], w, h), dts[1..], w, h);
    }
  }

  /** `d < m` for a non-negative `d` is the same as `m > 0 ∧ d² < m²`. */
  lemma SquareComparison(d: real, m: real)
    requires d >= 0.0
    ensures d < m <==> (m > 0.0 && d * d < m * m)
  {
    if d < m {
      calc {
        d * d;
      <= { assert d * (m - d) >= 0.0; }
        d * m;
      < { assert (m - d) * m > 0.0; }
        m * m;
      }
    } else if m > 0.0 {
      calc {
        d * d;
      >= { assert (d - m) * d >= 0.0; }
        m * d;
      >= { assert (d - m) * m >= 0.0; }
        m * m;
      }
    }
  }

  /** For any square root `distance` of dx² + dy², the square comparison of
      CollidesWith is the source's test `distance < (width + entity.width) / 2`. */
  lemma CollidesWithIsDistanceTest(b: Bullet, ex: real, ey: real, ewidth: real, distance: real)
    requires distance >= 0.0
    requires distance * distance == (b.x - ex) * (b.x - ex) + (b.y - ey) * (b.y - ey)
    ensures b.CollidesWith(ex, ey, ewidth) <==> distance < (b.width + ewidth) / 2.0
  {
    SquareComparison(distance, (b.width + ewidth) / 2.0);
  }
}
