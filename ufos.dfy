/** The bonus UFO of src/js/entities/ufo.js and its class-wide spawn timer
    (the static `UFO.spawnTimer`). The random side of entry is a parameter;
    the random `appearanceTimer`, the interval field beside it and the unread `points`
    are not kept, since no code reads them. */
module Ufos {
  import opened Timers
  import opened Config

  const UFO_WIDTH: real := 64.0
  const UFO_HEIGHT: real := 32.0
  const UFO_TOTAL_FRAMES: int := 2
  const UFO_ANIMATION_SPEED: real := 0.2
  /** The hard-coded spawn period of checkSpawn (equal to GameConfig.UFO.SPAWN_INTERVAL). */
  const UFO_SPAWN_PERIOD: real := 10.0

  /** A snapshot of a UFO's mutable fields. */
  datatype UfoState = UfoState(
    x: real, y: real,
    health: int,
    isActive: bool,
    direction: int,
    currentFrame: int,
    animationTimer: real)
  {
    predicate FrameInRange() {
      0 <= currentFrame < UFO_TOTAL_FRAMES
    }

    /** Past the far edge in the direction of travel. */
    predicate Gone(canvasWidth: real) {
      (direction > 0 && x > canvasWidth + UFO_WIDTH) || (direction < 0 && x < -UFO_WIDTH)
    }
  }

  /** new UFO(game, y). */
  function InitialUfo(y: real): UfoState {
    UfoState(-32.0, y, 1, true, 1, 0, 0.0)
  }

  /** UFO.update. */
  function UfoUpdated(s: UfoState, dt: real, canvasWidth: real): UfoState {
    var moved := s.(x := s.x + s.direction as real * UFO_SPEED * dt);
    var a := AnimationTick(Animation(s.currentFrame, s.animationTimer), UFO_ANIMATION_SPEED,
                           UFO_TOTAL_FRAMES, dt);
    moved.(isActive := if moved.Gone(canvasWidth) then false else s.isActive,
           currentFrame := a.currentFrame, animationTimer := a.animationTimer)
  }

  /** UFO.takeDamage, the state part. */
  function UfoDamaged(s: UfoState, amount: int): UfoState {
    var d := s.(health := s.health - amount);
    if d.health <= 0 then d.(isActive := false) else d
  }

  /** The UFO checkSpawn creates: the constructor at a tenth of the canvas height, then,
      when it enters from the right, moved just past the right edge and turned left. */
  function SpawnedUfo(canvasWidth: real, canvasHeight: real, fromLeft: bool): UfoState {
    var u := InitialUfo(canvasHeight * 0.1);
    if fromLeft then u else u.(x := canvasWidth + UFO_WIDTH / 2.0, direction := -1)
  }

  /** The spawn timer and whether a UFO is created, after one call of checkSpawn. */
  datatype SpawnOutcome = SpawnOutcome(spawnTimer: real, spawn: bool)

  function SpawnStep(spawnTimer: real, dt: real, currentActive: bool): SpawnOutcome {
    if currentActive then SpawnOutcome(spawnTimer, false)
    else if spawnTimer + dt >= UFO_SPAWN_PERIOD then SpawnOutcome(0.0, true)
    else SpawnOutcome(spawnTimer + dt, false)
  }

  class Ufo {
    var x: real
    var y: real
    const width: real := UFO_WIDTH
    const height: real := UFO_HEIGHT
    const speed: real := UFO_SPEED
    var health: int
    var isActive: bool
    var direction: int
    var currentFrame: int
    const totalFrames: int := UFO_TOTAL_FRAMES
    const animationSpeed: real := UFO_ANIMATION_SPEED
    var animationTimer: real

    function State(): UfoState
      reads this
    {
      UfoState(x, y, health, isActive, direction, currentFrame, animationTimer)
    }

    constructor(y: real)
      ensures State() == InitialUfo(y)
    {
      this.x := -32.0;
      this.y := y;
      health := 1;
      isActive := true;
      direction := 1;
      currentFrame := 0;
      animationTimer := 0.0;
    }

    method Update(dt: real, canvasWidth: real)
      modifies this
      ensures State() == UfoUpdated(old(State()), dt, canvasWidth)
    {
      x := x + direction as real * speed * dt;
      if (direction > 0 && x > canvasWidth + width) || (direction < 0 && x < -width) {
        isActive := false;
      }
      animationTimer := animationTimer + dt;
      if animationTimer >= animationSpeed {
        currentFrame := (currentFrame + 1) % totalFrames;
        animationTimer := 0.0;
      }
    }

    method TakeDamage(amount: int) returns (destroyed: bool)
      modifies this
      ensures State() == UfoDamaged(old(State()), amount)
      ensures destroyed <==> health <= 0
    {
      health := health - amount;
      if health <= 0 {
        isActive := false;
        return true;
      }
      return false;
    }
  }

  /** The class-wide `UFO.spawnTimer`. It starts at 0 and is shared by every game. */
  class UfoSpawnClock {
    var spawnTimer: real

    constructor()
      ensures spawnTimer == 0.0
    {
      spawnTimer := 0.0;
    }
  }

  /** UFO.checkSpawn. `fromLeft` is the random choice of side. A spawn timer that is
      unset or 0 is taken as 0, which the clock's real value already is. */
  method CheckSpawn(clock: UfoSpawnClock, dt: real, currentUfo: Ufo?,
                    canvasWidth: real, canvasHeight: real, fromLeft: bool)
    returns (spawned: Ufo?)
    modifies clock
    ensures var o := SpawnStep(old(clock.spawnTimer), dt,
                               currentUfo != null && old(currentUfo.isActive));
      && clock.spawnTimer == o.spawnTimer
      && (spawned != null <==> o.spawn)
      && (spawned != null ==> fresh(spawned)
                              && spawned.State() == SpawnedUfo(canvasWidth, canvasHeight, fromLeft))
  {
    if currentUfo != null && currentUfo.isActive {
      return null;
    }
    clock.spawnTimer := clock.spawnTimer + dt;
    if clock.spawnTimer >= UFO_SPAWN_PERIOD {
      clock.spawnTimer := 0.0;
      var y := canvasHeight * 0.1;
      var ufo := new Ufo(y);
      if !fromLeft {
        ufo.x := canvasWidth + ufo.width / 2.0;
        ufo.direction := -1;
      }
      return ufo;
    }
    return null;
  }

  /** update moves the UFO by direction·speed·dt and deactivates it only once it is past
      canvasWidth + width moving right or below -width moving left; it never reactivates
      it, and keeps the frame in range. Height, health and direction do not change. */
  lemma UpdateSpec(s: UfoState, dt: real, canvasWidth: real)
    requires s.FrameInRange()
    ensures var u := UfoUpdated(s, dt, canvasWidth);
      && u.x == s.x + s.direction as real * 100.0 * dt
      && u.y == s.y && u.health == s.health && u.direction == s.direction
      && (u.isActive <==> s.isActive && !u.Gone(canvasWidth))
      && u.FrameInRange()
  {
    AnimationTickKeepsFrame(Animation(s.currentFrame, s.animationTimer), UFO_ANIMATION_SPEED,
                            UFO_TOTAL_FRAMES, dt);
  }

  /** takeDamage lowers the health by `amount`; the UFO is destroyed exactly when the
      health reaches 0 or below and is then inactive, and an inactive UFO stays inactive. */
  lemma TakeDamageSpec(s: UfoState, amount: int)
    ensures var d := UfoDamaged(s, amount);
      && d.health == s.health - amount
      && (d.isActive <==> s.isActive && d.health > 0)
      && d == s.(health := d.health, isActive := d.isActive)
  {
  }

  /** checkSpawn leaves the timer alone and spawns nothing while the current UFO is
      active. Otherwise the timer grows by dt and a UFO is spawned exactly when it
      reaches 10, the timer being reset to 0 then. From non-negative steps starting
      in [0, 10) the timer stays in [0, 10). */
  lemma SpawnStepSpec(spawnTimer: real, dt: real, currentActive: bool)
    ensures var o := SpawnStep(spawnTimer, dt, currentActive);
      && (currentActive ==> o == SpawnOutcome(spawnTimer, false))
      && (!currentActive ==> (o.spawn <==> spawnTimer + dt >= 10.0))
      && (!currentActive && o.spawn ==> o.spawnTimer == 0.0)
      && (!currentActive && !o.spawn ==> o.spawnTimer == spawnTimer + dt)
      && (0.0 <= spawnTimer < 10.0 && dt >= 0.0 ==> 0.0 <= o.spawnTimer < 10.0)
  {
  }

  /** A spawned UFO is active with health 1 at a tenth of the canvas height; from the
      left it starts at x = -32 heading right, from the right at canvasWidth + 32
      heading left. */
  lemma SpawnedUfoSpec(canvasWidth: real, canvasHeight: real, fromLeft: bool)
    ensures var u := SpawnedUfo(canvasWidth, canvasHeight, fromLeft);
      && u.isActive && u.health == 1 && u.y == canvasHeight * 0.1 && u.FrameInRange()
      && (fromLeft ==> u.x == -32.0 && u.direction == 1)
      && (!fromLeft ==> u.x == canvasWidth + 32.0 && u.direction == -1)
  {
  }

  /** The UFO after a run of updates. */
  function UpdateAll(s: UfoState, dts: seq<real>, canvasWidth: real): UfoState
    decreases |dts|
  {
    if |dts| == 0 then s else UpdateAll(UfoUpdated(s, dts[0], canvasWidth), dts[1..], canvasWidth)
  }

  /** No run of updates brings an inactive UFO back, or changes its direction, or
      takes its frame out of range. */
  lemma {:induction false} UpdateAllKeeps(s: UfoState, dts: seq<real>, canvasWidth: real)
    requires s.FrameInRange()
    ensures var u := UpdateAll(s, dts, canvasWidth);
      u.FrameInRange() && u.direction == s.direction && (!s.isActive ==> !u.isActive)
    decreases |dts|
  {
    if |dts| > 0 {
      UpdateSpec(s, dts[0], canvasWidth);
      UpdateAllKeeps(UfoUpdated(s, dts[0], canvasWidth), dts[1..], canvasWidth);
    }
  }
}
