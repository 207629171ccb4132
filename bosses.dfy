/** The stage boss of src/js/entities/boss.js: an entry phase, a horizontal patrol that
    turns at the canvas edges, and two attack patterns with timers of their own. The
    unread `stage`, `points`, `entryY` and the sprite images are not kept. */
module Bosses {
  import opened Timers
  import opened Config
  import opened Bullets
  import opened EnemyBullets

  const BOSS_WIDTH: real := 128.0
  const BOSS_HEIGHT: real := 128.0
  const BOSS_SPEED: real := 50.0
  const BOSS_ENTRY_SPEED: real := 50.0
  const BOSS_TOTAL_FRAMES: int := 2
  const BOSS_ANIMATION_SPEED: real := 0.3
  const ROCK_SPEED: real := 150.0
  const ROCK_SIZE: real := 16.0

  datatype PatternName = SinglePattern | SpreadPattern

  datatype AttackPattern = AttackPattern(name: PatternName, cooldown: real, timer: real)

  /** The velocities of the two outer rocks of the spread attack, 150 pixels per second
      along the headings π/2 − 0.3 and π/2 + 0.3; the host computes the cosines and sines.
      The middle rock falls straight down. */
  datatype Spread = Spread(minus: Velocity, plus: Velocity)

  const INITIAL_PATTERNS: seq<AttackPattern> :=
    [AttackPattern(SinglePattern, 1.5, 0.0), AttackPattern(SpreadPattern, 4.0, 2.0)]

  /** A snapshot of a boss's mutable fields. */
  datatype BossState = BossState(
    x: real, y: real,
    direction: int,
    health: int,
    isActive: bool,
    attackPatterns: seq<AttackPattern>,
    currentFrame: int,
    animationTimer: real,
    isEntering: bool,
    targetY: real)
  {
    predicate FrameInRange() {
      0 <= currentFrame < BOSS_TOTAL_FRAMES
    }
  }

  /** new Boss(game): centred, a fifth of the way down, entering with its target at its
      own starting height. */
  function InitialBoss(canvasWidth: real, canvasHeight: real): BossState {
    BossState(canvasWidth / 2.0, canvasHeight * 0.2, 1, BOSS_HEALTH, true, INITIAL_PATTERNS,
              0, 0.0, true, canvasHeight * 0.2)
  }

  /** shootRockBullet: a 16×16 enemy bullet, delivered only when a game screen exists. */
  function RockShots(x: real, y: real, v: Velocity, hasGameScreen: bool): seq<EnemyBullet> {
    if hasGameScreen then [NewEnemyBullet(x, y, v).(width := ROCK_SIZE, height := ROCK_SIZE)] else []
  }

  /** attack(name), fired from the boss's bottom edge. */
  function AttackShots(name: PatternName, x: real, y: real, spread: Spread,
                       hasGameScreen: bool): seq<EnemyBullet>
  {
    if !hasGameScreen then []
    else
      var bottom := y + BOSS_HEIGHT / 2.0;
      match name
      case SinglePattern => RockShots(x, bottom, Velocity(0.0, ROCK_SPEED), hasGameScreen)
      case SpreadPattern =>
        RockShots(x, bottom, spread.minus, hasGameScreen) + RockShots(x, bottom, Velocity(0.0, ROCK_SPEED), hasGameScreen)
        + RockShots(x, bottom, spread.plus, hasGameScreen)
  }

  datatype PatternTick = PatternTick(pattern: AttackPattern, shots: seq<EnemyBullet>)

  /** One pattern's turn in the update loop: its timer grows by dt, and once it reaches
      the cooldown the pattern attacks and its timer goes back to 0. */
  function TickPattern(p: AttackPattern, x: real, y: real, dt: real, spread: Spread,
                       hasGameScreen: bool): PatternTick
  {
    var t := p.timer + dt;
    if t >= p.cooldown then PatternTick(p.(timer := 0.0), AttackShots(p.name, x, y, spread, hasGameScreen))
    else PatternTick(p.(timer := t), [])
  }

  /** Every pattern after its turn; each pattern's turn depends on that pattern alone. */
  function TickedPatterns(ps: seq<AttackPattern>, x: real, y: real, dt: real, spread: Spread,
                          hasGameScreen: bool): seq<AttackPattern>
  {
    seq(|ps|, k requires 0 <= k < |ps| => TickPattern(ps[k], x, y, dt, spread, hasGameScreen).pattern)
  }

  /** The rocks fired by the loop over the patterns, in pattern order; defined by its
      last step. */
  function PatternShots(ps: seq<AttackPattern>, x: real, y: real, dt: real, spread: Spread,
                        hasGameScreen: bool): seq<EnemyBullet>
    decreases |ps|
  {
    if |ps| == 0 then []
    else PatternShots(ps[..|ps| - 1], x, y, dt, spread, hasGameScreen)
         + TickPattern(ps[|ps| - 1], x, y, dt, spread, hasGameScreen).shots
  }

  datatype BossUpdate = BossUpdate(boss: BossState, shots: seq<EnemyBullet>)

  /** Boss.update. */
  function BossUpdated(s: BossState, dt: real, canvasWidth: real, spread: Spread,
                       hasGameScreen: bool): BossUpdate
  {
    if s.isEntering then
      var y := s.y + BOSS_ENTRY_SPEED * dt;
      BossUpdate(if y >= s.targetY then s.(y := s.targetY, isEntering := false) else s.(y := y), [])
    else
      var x := s.x + s.direction as real * BOSS_SPEED * dt;
      var turn := (s.direction > 0 && x > canvasWidth - BOSS_WIDTH / 2.0)
                  || (s.direction < 0 && x < BOSS_WIDTH / 2.0);
      var a := AnimationTick(Animation(s.currentFrame, s.animationTimer), BOSS_ANIMATION_SPEED,
                             BOSS_TOTAL_FRAMES, dt);
      BossUpdate(s.(x := x, direction := if turn then s.direction * -1 else s.direction,
                    attackPatterns := TickedPatterns(s.attackPatterns, x, s.y, dt, spread, hasGameScreen),
                    currentFrame := a.currentFrame, animationTimer := a.animationTimer),
                 PatternShots(s.attackPatterns, x, s.y, dt, spread, hasGameScreen))
  }

  /** takeDamage, the state part; the sound effects are not modelled. */
  function BossDamaged(s: BossState, amount: int): BossState {
    var d := s.(health := s.health - amount);
    if d.health <= 0 then d.(isActive := false) else d
  }

  class Boss {
    var x: real
    var y: real
    const width: real := BOSS_WIDTH
    const height: real := BOSS_HEIGHT
    const speed: real := BOSS_SPEED
    var direction: int
    var health: int
    const maxHealth: int := BOSS_HEALTH
    var isActive: bool
    var attackPatterns: seq<AttackPattern>
    var currentFrame: int
    const totalFrames: int := BOSS_TOTAL_FRAMES
    const animationSpeed: real := BOSS_ANIMATION_SPEED
    var animationTimer: real
    var isEntering: bool
    var targetY: real
    const entrySpeed: real := BOSS_ENTRY_SPEED

    function State(): BossState
      reads this
    {
      BossState(x, y, direction, health, isActive, attackPatterns, currentFrame, animationTimer,
                isEntering, targetY)
    }

    constructor(canvasWidth: real, canvasHeight: real)
      ensures State() == InitialBoss(canvasWidth, canvasHeight)
    {
      x := canvasWidth / 2.0;
      y := canvasHeight * 0.2;
      direction := 1;
      health := BOSS_HEALTH;
      isActive := true;
      attackPatterns := INITIAL_PATTERNS;
      currentFrame := 0;
      animationTimer := 0.0;
      isEntering := true;
      targetY := canvasHeight * 0.2;
    }

    /** Boss.update; the rocks it fires are returned for the game screen to add. */
    method Update(dt: real, canvasWidth: real, spread: Spread, hasGameScreen: bool)
      returns (shots: seq<EnemyBullet>)
      modifies this
      ensures var r := BossUpdated(old(State()), dt, canvasWidth, spread, hasGameScreen);
        State() == r.boss && shots == r.shots
    {
      shots := [];
      if isEntering {
        Descend(dt);
        return;
      }
      ghost var s0 := State();
      Patrol(dt, canvasWidth);
      assert x == s0.x + s0.direction as real * BOSS_SPEED * dt;
      attackPatterns, shots := TickAttackPatterns(dt, spread, hasGameScreen);
      assert shots == BossUpdated(s0, dt, canvasWidth, spread, hasGameScreen).shots;
      Animate(dt);
      assert State() == BossUpdated(s0, dt, canvasWidth, spread, hasGameScreen).boss;
    }

    /** The entry branch of update: down at the entry speed, stopping at the target. */
    method Descend(dt: real)
      modifies this
      ensures var ny := old(y) + BOSS_ENTRY_SPEED * dt;
        State() == if ny >= old(targetY) then old(State()).(y := old(targetY), isEntering := false)
                   else old(State()).(y := ny)
    {
      y := y + entrySpeed * dt;
      if y >= targetY {
        y := targetY;
        isEntering := false;
      }
    }

    /** The sideways move of update, turning past either edge. */
    method Patrol(dt: real, canvasWidth: real)
      modifies this
      ensures var nx := old(x) + old(direction) as real * BOSS_SPEED * dt;
        var turn := (old(direction) > 0 && nx > canvasWidth - BOSS_WIDTH / 2.0)
                    || (old(direction) < 0 && nx < BOSS_WIDTH / 2.0);
        State() == old(State()).(x := nx, direction := if turn then old(direction) * -1 else old(direction))
    {
      x := x + direction as real * speed * dt;
      if (direction > 0 && x > canvasWidth - width / 2.0) || (direction < 0 && x < width / 2.0) {
        direction := direction * -1;
      }
    }

    /** The animation step of update. */
    method Animate(dt: real)
      modifies this
      ensures var a := AnimationTick(Animation(old(currentFrame), old(animationTimer)), BOSS_ANIMATION_SPEED,
                                     BOSS_TOTAL_FRAMES, dt);
        State() == old(State()).(currentFrame := a.currentFrame, animationTimer := a.animationTimer)
    {
      animationTimer := animationTimer + dt;
      if animationTimer >= animationSpeed {
        currentFrame := (currentFrame + 1) % totalFrames;
        animationTimer := 0.0;
      }
    }

    /** The loop of update over the attack patterns, working on a copy: every pattern's
        timer grows by dt, and a pattern whose timer reaches its cooldown attacks and
        restarts from 0. */
    method TickAttackPatterns(dt: real, spread: Spread, hasGameScreen: bool)
      returns (patterns: seq<AttackPattern>, shots: seq<EnemyBullet>)
      ensures patterns == TickedPatterns(attackPatterns, x, y, dt, spread, hasGameScreen)
      ensures shots == PatternShots(attackPatterns, x, y, dt, spread, hasGameScreen)
    {
      ghost var ps := attackPatterns;
      patterns := attackPatterns;
      shots := [];
      for i := 0 to |patterns|
        invariant |patterns| == |ps|
        invariant forall k :: 0 <= k < i ==>
          patterns[k] == TickPattern(ps[k], x, y, dt, spread, hasGameScreen).pattern
        invariant forall k :: i <= k < |ps| ==> patterns[k] == ps[k]
        invariant shots == PatternShots(ps[..i], x, y, dt, spread, hasGameScreen)
      {
        assert ps[..i + 1][..i] == ps[..i];
        var fired := [];
        var timer := patterns[i].timer + dt;
        if timer >= patterns[i].cooldown {
          fired := Attack(patterns[i].name, spread, hasGameScreen);
          timer := 0.0;
        }
        shots := shots + fired;
        patterns := patterns[i := patterns[i].(timer := timer)];
      }
      assert ps[..|ps|] == ps;
    }

    /** Boss.attack: the rocks of one pattern. */
    method Attack(name: PatternName, spread: Spread, hasGameScreen: bool)
      returns (shots: seq<EnemyBullet>)
      ensures shots == AttackShots(name, x, y, spread, hasGameScreen)
    {
      if !hasGameScreen {
        return [];
      }
      match name {
        case SinglePattern =>
          shots := ShootRockBullet(x, y + height / 2.0, Velocity(0.0, ROCK_SPEED), hasGameScreen);
        case SpreadPattern =>
          var a := ShootRockBullet(x, y + height / 2.0, spread.minus, hasGameScreen);
          var b := ShootRockBullet(x, y + height / 2.0, Velocity(0.0, ROCK_SPEED), hasGameScreen);
          var c := ShootRockBullet(x, y + height / 2.0, spread.plus, hasGameScreen);
          shots := a + b + c;
      }
    }

    /** Boss.shootRockBullet. */
    method ShootRockBullet(rx: real, ry: real, v: Velocity, hasGameScreen: bool)
      returns (shots: seq<EnemyBullet>)
      ensures shots == RockShots(rx, ry, v, hasGameScreen)
    {
      var bullet := NewEnemyBullet(rx, ry, v);
      bullet := bullet.(width := ROCK_SIZE, height := ROCK_SIZE);
      shots := if hasGameScreen then [bullet] else [];
    }

    method TakeDamage(amount: int) returns (destroyed: bool)
      modifies this
      ensures State() == BossDamaged(old(State()), amount)
      ensures destroyed <==> health <= 0
    {
      health := health - amount;
      if health <= 0 {
        isActive := false;
        return true;
      }
      return false;
    }
  }

  /** Updates in a row, one per time step; the rocks of each are dropped. */
  function BossRun(s: BossState, dts: seq<real>, w: real, spread: Spread, has: bool): BossState
    decreases |dts|
  {
    if |dts| == 0 then s else BossRun(BossUpdated(s, dts[0], w, spread, has).boss, dts[1..], w, spread, has)
  }

  /** Over any run of non-negative steps the boss descends without passing its target
      height, and holds it once the entry is over; it does not move sideways while it
      is still entering, and the target never changes. */
  lemma {:induction false} EntryNeverOvershoots(s: BossState, dts: seq<real>, w: real, spread: Spread, has: bool)
    requires s.y <= s.targetY && (!s.isEntering ==> s.y == s.targetY)
    requires forall k :: 0 <= k < |dts| ==> dts[k] >= 0.0
    ensures var r := BossRun(s, dts, w, spread, has);
      && r.targetY == s.targetY && s.y <= r.y <= s.targetY
      && (!r.isEntering ==> r.y == s.targetY)
      && (r.isEntering ==> s.isEntering && r.x == s.x)
    decreases |dts|
  {
    if |dts| > 0 {
      var s1 := BossUpdated(s, dts[0], w, spread, has).boss;
      assert dts[0] >= 0.0;
      assert s1.targetY == s.targetY && s.y <= s1.y <= s.targetY && (!s1.isEntering ==> s1.y == s.targetY);
      assert s1.isEntering ==> s.isEntering && s1.x == s.x;
      assert !s.isEntering ==> !s1.isEntering;
      assert forall k :: 0 <= k < |dts[1..]| ==> dts[1..][k] >= 0.0 by {
        forall k | 0 <= k < |dts[1..]| ensures dts[1..][k] >= 0.0 {
          assert dts[1..][k] == dts[k + 1];
        }
      }
      EntryNeverOvershoots(s1, dts[1..], w, spread, has);
    }
  }

  /** update never changes whether the boss is active. */
  lemma UpdateKeepsLife(s: BossState, dt: real, w: real, spread: Spread, has: bool)
    ensures BossUpdated(s, dt, w, spread, has).boss.isActive == s.isActive
  {
  }

  /** The boss starts at its target height, so its entry ends on its first update with
      a non-negative step, without moving it. */
  lemma EntryEndsOnFirstUpdate(w: real, h: real, dt: real, spread: Spread, has: bool)
    requires dt >= 0.0
    ensures var b := InitialBoss(w, h);
      BossUpdated(b, dt, w, spread, has).boss == b.(isEntering := false)
  {
  }

  /** After entry, x moves by direction·speed·dt, and the direction turns exactly when
      the boss passes canvasWidth − width/2 moving right or goes below width/2 moving
      left. Each pattern's timer grows by dt and, independently of the other patterns,
      that pattern fires and resets to 0 when it reaches its cooldown; the rocks come
      out in pattern order. Health, height and life are untouched and the frame stays in
      range. */
  lemma PatrolPhaseSpec(s: BossState, dt: real, w: real, spread: Spread, has: bool)
    requires !s.isEntering && s.FrameInRange()
    ensures var r := BossUpdated(s, dt, w, spread, has);
      var x := s.x + s.direction as real * 50.0 * dt;
      && r.boss.x == x && r.boss.y == s.y && r.boss.health == s.health
      && r.boss.isActive == s.isActive && !r.boss.isEntering && r.boss.FrameInRange()
      && (r.boss.direction == -s.direction <==>
            (s.direction > 0 && x > w - 64.0) || (s.direction < 0 && x < 64.0) || s.direction == 0)
      && (r.boss.direction != -s.direction ==> r.boss.direction == s.direction)
      && |r.boss.attackPatterns| == |s.attackPatterns|
      && (forall i :: 0 <= i < |s.attackPatterns| ==>
            r.boss.attackPatterns[i] == TickPattern(s.attackPatterns[i], x, s.y, dt, spread, has).pattern)
      && r.shots == PatternShots(s.attackPatterns, x, s.y, dt, spread, has)
  {
    AnimationTickKeepsFrame(Animation(s.currentFrame, s.animationTimer), 0.3, 2, dt);
  }

  /** Each pattern's tick: the timer grows by dt and, once at the cooldown, the pattern
      fires and restarts from 0. 'single' fires one rock and 'spread' three, each 16×16
      from the boss's bottom-centre, the spread's middle rock and the single rock
      straight down at speed 150 and the outer two along the given headings; nothing is
      fired without a game screen. The name and cooldown never change. */
  lemma TickPatternSpec(p: AttackPattern, x: real, y: real, dt: real, spread: Spread, has: bool)
    ensures var o := TickPattern(p, x, y, dt, spread, has);
      && o.pattern.name == p.name && o.pattern.cooldown == p.cooldown
      && (p.timer + dt >= p.cooldown ==> o.pattern.timer == 0.0)
      && (p.timer + dt < p.cooldown ==> o.pattern.timer == p.timer + dt && o.shots == [])
      && |o.shots| == (if has && p.timer + dt >= p.cooldown then (if p.name == SinglePattern then 1 else 3) else 0)
      && (forall b <- o.shots :: b.x == x && b.y == y + 64.0 && b.width == 16.0 && b.height == 16.0
                                 && b.isActive && !b.isPlayerBullet)
      && (has && p.timer + dt >= p.cooldown && p.name == SpreadPattern ==>
            [o.shots[0].velocity, o.shots[1].velocity, o.shots[2].velocity]
              == [spread.minus, Velocity(0.0, 150.0), spread.plus])
      && (has && p.timer + dt >= p.cooldown && p.name == SinglePattern ==>
            o.shots[0].velocity == Velocity(0.0, 150.0))
  {
  }

  /** takeDamage lowers the health by `amount`; the boss is destroyed exactly when its
      health reaches 0 or below and is then inactive, and an inactive boss stays so. */
  lemma TakeDamageSpec(s: BossState, amount: int)
    ensures var d := BossDamaged(s, amount);
      && d.health == s.health - amount
      && (d.isActive <==> s.isActive && d.health > 0)
      && d == s.(health := d.health, isActive := d.isActive)
  {
  }
}
