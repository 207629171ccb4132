/** The enemies' bullets of src/js/entities/enemyBullet.js. Values, like the player's
    bullets: the game screen's list holds the only reference to each one. */
module EnemyBullets {
  import opened Bullets

  datatype EnemyBullet = EnemyBullet(
    x: real, y: real,
    velocity: Velocity,
    width: real, height: real,
    isPlayerBullet: bool,
    isActive: bool)
  {
    predicate OutOfBounds(canvasWidth: real, canvasHeight: real) {
      x < -width || x > canvasWidth + width || y < -height || y > canvasHeight + height
    }

    /** EnemyBullet.update: move, and deactivate once outside the enlarged canvas. */
    function Update(dt: real, canvasWidth: real, canvasHeight: real): EnemyBullet {
      var b := this.(x := x + velocity.vx * dt, y := y + velocity.vy * dt);
      if b.OutOfBounds(canvasWidth, canvasHeight) then b.(isActive := false) else b
    }

    /** EnemyBullet.collidesWith: the centre distance is below a third of the summed
        widths, compared as squares. */
    predicate CollidesWith(ex: real, ey: real, ewidth: real) {
      var dx := x - ex;
      var dy := y - ey;
      var minDistance := (width + ewidth) / 3.0;
      minDistance > 0.0 && dx * dx + dy * dy < minDistance * minDistance
    }
  }

  /** new EnemyBullet(game, x, y, angle, speed). */
  function NewEnemyBullet(x: real, y: real, velocity: Velocity): EnemyBullet {
    EnemyBullet(x, y, velocity, 4.0, 8.0, false, true)
  }

  /** A fresh enemy bullet is active, 4×8, and not a player bullet. */
  lemma ConstructedEnemyBullet(x: real, y: real, v: Velocity)
    ensures var b := NewEnemyBullet(x, y, v);
      b.isActive && !b.isPlayerBullet && b.width == 4.0 && b.height == 8.0
      && b.x == x && b.y == y && b.velocity == v
  {
  }

  /** Update moves by velocity·dt and leaves the bullet active exactly when it was and
      the new position is inside the enlarged canvas; size and speed are kept. */
  lemma UpdateDeactivatesExactlyOutside(b: EnemyBullet, dt: real, w: real, h: real)
    ensures var u := b.Update(dt, w, h);
      && u.x == b.x + b.velocity.vx * dt && u.y == b.y + b.velocity.vy * dt
      && (u.isActive <==> b.isActive && !u.OutOfBounds(w, h))
      && u.width == b.width && u.height == b.height && u.velocity == b.velocity
      && u.isPlayerBullet == b.isPlayerBullet
  {
  }

  function UpdateAll(b: EnemyBullet, dts: seq<real>, w: real, h: real): EnemyBullet
    decreases |dts|
  {
    if |dts| == 0 then b else UpdateAll(b.Update(dts[0], w, h), dts[1..], w, h)
  }

  /** Once an enemy bullet is inactive, no run of updates makes it active again. */
  lemma {:induction false} InactiveStaysInactive(b: EnemyBullet, dts: seq<real>, w: real, h: real)
    requires !b.isActive
    ensures !UpdateAll(b, dts, w, h).isActive
    decreases |dts|
  {
    if |dts| > 0 {
      UpdateDeactivatesExactlyOutside(b, dts[0], w, h);
      InactiveStaysInactive(b.Update(dts[0], w, h), dts[1..], w, h);
    }
  }

  /** For any square root `distance` of dx² + dy², the square comparison of
      CollidesWith is the source's test `distance < (width + entity.width) / 3`. */
  lemma CollidesWithIsDistanceTest(b: EnemyBullet, ex: real, ey: real, ewidth: real, distance: real)
    requires distance >= 0.0
    requires distance * distance == (b.x - ex) * (b.x - ex) + (b.y - ey) * (b.y - ey)
    ensures b.CollidesWith(ex, ey, ewidth) <==> distance < (b.width + ewidth) / 3.0
  {
    SquareComparison(distance, (b.width + ewidth) / 3.0);
  }
}
