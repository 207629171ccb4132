/** The two per-entity timers that player.js, enemy.js, boss.js, ufo.js and
    formationSystem.js each write out inline: the shot cooldown and the sprite animation. */
module Timers {

  /** Whether the entity may shoot, and the time since its last shot while it may not. */
  datatype Cooldown = Cooldown(canShoot: bool, shootTimer: real)

  /** One tick of the shot cooldown: while shooting is blocked the timer grows by `dt`,
      and once it reaches `cooldown` shooting is allowed again with the timer at 0. */
  function CooldownTick(c: Cooldown, cooldown: real, dt: real): Cooldown {
    if c.canShoot then c
    else if c.shootTimer + dt >= cooldown then Cooldown(true, 0.0)
    else Cooldown(false, c.shootTimer + dt)
  }

  /** The sprite frame shown and the time since it was shown. */
  datatype Animation = Animation(currentFrame: int, animationTimer: real)

  /** One tick of a sprite animation with `totalFrames` frames. Every entity has a
      positive frame count; for a count of 0 or less, where JavaScript's `%` would give
      NaN, the frame is left as it is. */
  function AnimationTick(a: Animation, animationSpeed: real, totalFrames: int, dt: real): Animation {
    var t := a.animationTimer + dt;
    if t >= animationSpeed then
      Animation(if totalFrames > 0 then (a.currentFrame + 1) % totalFrames else a.currentFrame, 0.0)
    else Animation(a.currentFrame, t)
  }

  predicate FrameInRange(a: Animation, totalFrames: int) {
    0 <= a.currentFrame < totalFrames
  }

  /** The frame index stays in [0, totalFrames) under any tick; on the tick the timer
      reaches the animation speed it advances by one, cyclically. */
  lemma AnimationTickKeepsFrame(a: Animation, animationSpeed: real, totalFrames: int, dt: real)
    requires totalFrames > 0 && FrameInRange(a, totalFrames)
    ensures FrameInRange(AnimationTick(a, animationSpeed, totalFrames, dt), totalFrames)
    ensures a.animationTimer + dt >= animationSpeed ==>
      AnimationTick(a, animationSpeed, totalFrames, dt).currentFrame
        == (if a.currentFrame + 1 == totalFrames then 0 else a.currentFrame + 1)
    ensures a.animationTimer + dt < animationSpeed ==>
      AnimationTick(a, animationSpeed, totalFrames, dt) == Animation(a.currentFrame, a.animationTimer + dt)
  {
  }

  /** Starting from a blocked shot with a non-negative timer, a cooldown ticked by
      non-negative steps never leaves the range [0, cooldown). */
  lemma CooldownTimerBounded(c: Cooldown, cooldown: real, dt: real)
    requires cooldown > 0.0 && dt >= 0.0 && 0.0 <= c.shootTimer < cooldown
    ensures 0.0 <= CooldownTick(c, cooldown, dt).shootTimer < cooldown
  {
  }
}
