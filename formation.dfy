/** The formation movement of src/js/systems/formationSystem.js: one shared timer and
    direction for all enemies, a discrete move (turn and drop, or shift sideways) each
    time the timer reaches the interval, and the per-enemy cooldown and animation every
    tick.
    GameConfig.ENEMY has no MIN_SPEED_MULTIPLIER, so the shipped code computes
    `Math.max(undefined, …)`, which is NaN, and the move test is never true. The minimum
    multiplier is therefore a parameter: `None` stands for that NaN, `Some(m)` for a
    configured value. */
module Formation {
  import opened Options
  import opened Config
  import opened Enemies

  datatype FormationState = FormationState(direction: int, moveTimer: real)

  predicate ValidDirection(s: FormationState) {
    s.direction == 1 || s.direction == -1
  }

  function Max(a: real, b: real): real { if a >= b then a else b }
  function Min(a: real, b: real): real { if a <= b then a else b }

  /** The interval scale `max(MIN_SPEED_MULTIPLIER, 1 − n/50)`; `None` when it is NaN. */
  function SpeedMultiplier(minSpeedMultiplier: Option<real>, n: nat): Option<real> {
    match minSpeedMultiplier
    case None => None
    case Some(m) => Some(Max(m, 1.0 - n as real / 50.0))
  }

  /** `moveTimer >= moveInterval · multiplier`, false against NaN. */
  predicate MoveDue(moveTimer: real, minSpeedMultiplier: Option<real>, n: nat) {
    match SpeedMultiplier(minSpeedMultiplier, n)
    case None => false
    case Some(k) => moveTimer >= ENEMY_FORMATION_INTERVAL * k
  }

  /** The smallest and largest x over the enemies, folded from the first. */
  function MinX(es: seq<Enemy>): real
    requires |es| > 0
    decreases |es|
  {
    if |es| == 1 then es[0].x else Min(MinX(es[..|es| - 1]), es[|es| - 1].x)
  }

  function MaxX(es: seq<Enemy>): real
    requires |es| > 0
    decreases |es|
  {
    if |es| == 1 then es[0].x else Max(MaxX(es[..|es| - 1]), es[|es| - 1].x)
  }

  /** The minimum is the x of some enemy and no enemy is further left; likewise the
      maximum on the right. */
  lemma ExtremesSpec(es: seq<Enemy>)
    requires |es| > 0
    ensures forall i :: 0 <= i < |es| ==> MinX(es) <= es[i].x <= MaxX(es)
    ensures exists i :: 0 <= i < |es| && es[i].x == MinX(es)
    ensures exists j :: 0 <= j < |es| && es[j].x == MaxX(es)
  {
    var i := MinXSpec(es);
    var j := MaxXSpec(es);
  }

  /** MinX is attained at index i and bounds every x from below. */
  lemma {:induction false} MinXSpec(es: seq<Enemy>) returns (i: nat)
    requires |es| > 0
    ensures i < |es| && es[i].x == MinX(es)
    ensures forall k :: 0 <= k < |es| ==> MinX(es) <= es[k].x
    decreases |es|
  {
    if |es| == 1 {
      i := 0;
    } else {
      var init := es[..|es| - 1];
      i := MinXSpec(init);
      assert forall k :: 0 <= k < |init| ==> init[k] == es[k];
      if MinX(es) == es[|es| - 1].x {
        i := |es| - 1;
      }
    }
  }

  /** MaxX is attained at index j and bounds every x from above. */
  lemma {:induction false} MaxXSpec(es: seq<Enemy>) returns (j: nat)
    requires |es| > 0
    ensures j < |es| && es[j].x == MaxX(es)
    ensures forall k :: 0 <= k < |es| ==> es[k].x <= MaxX(es)
    decreases |es|
  {
    if |es| == 1 {
      j := 0;
    } else {
      var init := es[..|es| - 1];
      j := MaxXSpec(init);
      assert forall k :: 0 <= k < |init| ==> init[k] == es[k];
      if MaxX(es) == es[|es| - 1].x {
        j := |es| - 1;
      }
    }
  }

  /** The edge test of executeFormationMove. */
  predicate ShouldTurn(direction: int, es: seq<Enemy>, canvasWidth: real)
    requires |es| > 0
  {
    (direction == 1 && MaxX(es) >= canvasWidth - ENEMY_EDGE_MARGIN)
    || (direction == -1 && MinX(es) <= ENEMY_EDGE_MARGIN)
  }

  function Dropped(es: seq<Enemy>): seq<Enemy> {
    seq(|es|, i requires 0 <= i < |es| => es[i].(y := es[i].y + ENEMY_DROP_DISTANCE))
  }

  function Shifted(es: seq<Enemy>, dx: real): seq<Enemy> {
    seq(|es|, i requires 0 <= i < |es| => es[i].(x := es[i].x + dx))
  }

  datatype FormationMove = FormationMove(direction: int, enemies: seq<Enemy>)

  /** executeFormationMove. */
  function FormationMoved(direction: int, es: seq<Enemy>, canvasWidth: real): FormationMove
    requires |es| > 0
  {
    if ShouldTurn(direction, es, canvasWidth) then FormationMove(direction * -1, Dropped(es))
    else FormationMove(direction, Shifted(es, direction as real * ENEMY_FORMATION_SPEED))
  }

  /** updateIndividualEnemies: the cooldown and animation tick of every enemy. */
  function TickedEnemies(es: seq<Enemy>, dt: real): seq<Enemy> {
    seq(|es|, i requires 0 <= i < |es| => es[i].Tick(dt))
  }

  datatype FormationUpdate = FormationUpdate(state: FormationState, enemies: seq<Enemy>)

  /** FormationSystem.update. */
  function FormationUpdated(s: FormationState, dt: real, es: seq<Enemy>, canvasWidth: real,
                            minSpeedMultiplier: Option<real>): FormationUpdate
  {
    if |es| == 0 then FormationUpdate(s, es)
    else
      var t := s.moveTimer + dt;
      if MoveDue(t, minSpeedMultiplier, |es|) then
        var m := FormationMoved(s.direction, es, canvasWidth);
        FormationUpdate(FormationState(m.direction, 0.0), TickedEnemies(m.enemies, dt))
      else FormationUpdate(s.(moveTimer := t), TickedEnemies(es, dt))
  }

  class FormationSystem {
    var direction: int
    var moveTimer: real
    const moveInterval: real := ENEMY_FORMATION_INTERVAL
    const speed: real := ENEMY_FORMATION_SPEED
    const canvasWidth: real
    const minSpeedMultiplier: Option<real>

    function State(): FormationState
      reads this
    {
      FormationState(direction, moveTimer)
    }

    constructor(canvasWidth: real, minSpeedMultiplier: Option<real>)
      ensures State() == FormationState(1, 0.0)
      ensures this.canvasWidth == canvasWidth && this.minSpeedMultiplier == minSpeedMultiplier
    {
      this.canvasWidth := canvasWidth;
      this.minSpeedMultiplier := minSpeedMultiplier;
      direction := 1;
      moveTimer := 0.0;
    }

    /** FormationSystem.update on the screen's enemy list; the moved enemies are returned. */
    method Update(dt: real, enemies: seq<Enemy>) returns (updated: seq<Enemy>)
      modifies this
      ensures var r := FormationUpdated(old(State()), dt, enemies, canvasWidth, minSpeedMultiplier);
        State() == r.state && updated == r.enemies
    {
      if |enemies| == 0 {
        return enemies;
      }
      var multiplier := SpeedMultiplier(minSpeedMultiplier, |enemies|);
      moveTimer := moveTimer + dt;
      updated := enemies;
      if multiplier.Some? && moveTimer >= moveInterval * multiplier.value {
        moveTimer := 0.0;
        updated := ExecuteFormationMove(enemies);
      }
      updated := UpdateIndividualEnemies(dt, updated);
    }

    method ExecuteFormationMove(enemies: seq<Enemy>) returns (moved: seq<Enemy>)
      requires |enemies| > 0
      modifies this
      ensures var m := FormationMoved(old(direction), enemies, canvasWidth);
        direction == m.direction && moveTimer == old(moveTimer) && moved == m.enemies
    {
      var leftmost, rightmost := FindExtremes(enemies);
      var shouldChangeDirection := (direction == 1 && rightmost >= canvasWidth - ENEMY_EDGE_MARGIN)
                                   || (direction == -1 && leftmost <= ENEMY_EDGE_MARGIN);
      moved := enemies;
      if shouldChangeDirection {
        direction := direction * -1;
        for i := 0 to |moved|
          invariant |moved| == |enemies|
          invariant forall k :: 0 <= k < i ==> moved[k] == enemies[k].(y := enemies[k].y + ENEMY_DROP_DISTANCE)
          invariant forall k :: i <= k < |moved| ==> moved[k] == enemies[k]
        {
          moved := moved[i := moved[i].(y := moved[i].y + ENEMY_DROP_DISTANCE)];
        }
      } else {
        for i := 0 to |moved|
          invariant |moved| == |enemies|
          invariant forall k :: 0 <= k < i ==>
            moved[k] == enemies[k].(x := enemies[k].x + direction as real * speed)
          invariant forall k :: i <= k < |moved| ==> moved[k] == enemies[k]
        {
          moved := moved[i := moved[i].(x := moved[i].x + direction as real * speed)];
        }
      }
    }

    /** The loop of executeFormationMove that finds the outermost enemies. */
    method FindExtremes(enemies: seq<Enemy>) returns (leftmost: real, rightmost: real)
      requires |enemies| > 0
      ensures leftmost == MinX(enemies) && rightmost == MaxX(enemies)
    {
      leftmost := enemies[0].x;
      rightmost := enemies[0].x;
      for i := 0 to |enemies|
        invariant i == 0 ==> leftmost == enemies[0].x && rightmost == enemies[0].x
        invariant i > 0 ==> leftmost == MinX(enemies[..i]) && rightmost == MaxX(enemies[..i])
      {
        assert enemies[..i + 1][..i] == enemies[..i];
        leftmost := Min(leftmost, enemies[i].x);
        rightmost := Max(rightmost, enemies[i].x);
      }
      assert enemies[..|enemies|] == enemies;
    }

    /** updateIndividualEnemies, from the last enemy to the first. */
    method UpdateIndividualEnemies(dt: real, enemies: seq<Enemy>) returns (ticked: seq<Enemy>)
      ensures ticked == TickedEnemies(enemies, dt)
    {
      ticked := enemies;
      var i := |enemies|;
      while i > 0
        invariant 0 <= i <= |enemies| && |ticked| == |enemies|
        invariant forall k :: i <= k < |enemies| ==> ticked[k] == enemies[k].Tick(dt)
        invariant forall k :: 0 <= k < i ==> ticked[k] == enemies[k]
      {
        i := i - 1;
        var e := ticked[i];
        if !e.canShoot {
          e := e.(shootTimer := e.shootTimer + dt);
          if e.shootTimer >= e.shootCooldown {
            e := e.(canShoot := true, shootTimer := 0.0);
          }
        }
        e := e.(animationTimer := e.animationTimer + dt);
        if e.animationTimer >= e.animationSpeed {
          e := e.(currentFrame := if e.totalFrames > 0 then (e.currentFrame + 1) % e.totalFrames else e.currentFrame,
                  animationTimer := 0.0);
        }
        ticked := ticked[i := e];
      }
    }

    method Reset()
      modifies this
      ensures State() == FormationState(1, 0.0)
    {
      direction := 1;
      moveTimer := 0.0;
    }
  }

  /** With no enemies update changes nothing, not even the timer. Otherwise the timer
      grows by dt and, on the tick it reaches the scaled interval, is reset to 0 with
      exactly one formation move; the enemy list keeps its length and order and the
      direction stays 1 or −1. */
  lemma UpdateSpec(s: FormationState, dt: real, es: seq<Enemy>, w: real, minMult: Option<real>)
    requires ValidDirection(s)
    ensures var r := FormationUpdated(s, dt, es, w, minMult);
      && (|es| == 0 ==> r == FormationUpdate(s, es))
      && |r.enemies| == |es| && ValidDirection(r.state)
      && (|es| > 0 && MoveDue(s.moveTimer + dt, minMult, |es|) ==>
            r.state == FormationState(FormationMoved(s.direction, es, w).direction, 0.0)
            && r.enemies == TickedEnemies(FormationMoved(s.direction, es, w).enemies, dt))
      && (|es| > 0 && !MoveDue(s.moveTimer + dt, minMult, |es|) ==>
            r.state == FormationState(s.direction, s.moveTimer + dt) && r.enemies == TickedEnemies(es, dt))
  {
  }

  /** The move test is monotone: a due timer stays due as it grows, and a formation due
      with n enemies is due with more, since the interval max(m, 1 − n/50) only shrinks
      as n grows. With the multiplier missing no timer is ever due. */
  lemma MoveDueMonotone(t: real, t': real, minMult: Option<real>, n: nat, n': nat)
    requires t <= t' && n <= n'
    ensures MoveDue(t, minMult, n) ==> MoveDue(t', minMult, n')
    ensures minMult.None? ==> !MoveDue(t', minMult, n')
  {
  }

  /** So fewer enemies march slower, not faster: with a minimum multiplier of 0.1, a
      timer of 0.5 s is due for a full formation of 40 but not for a last enemy. */
  lemma FewerEnemiesMarchSlower()
    ensures MoveDue(0.5, Some(0.1), 40) && !MoveDue(0.5, Some(0.1), 1)
  {
  }

  /** A move turns exactly when heading right with the rightmost enemy at or past
      canvasWidth − 30, or heading left with the leftmost at or before 30. A turn negates
      the direction and drops every enemy by 20 without moving any sideways; otherwise
      every enemy moves sideways by direction·15 and none drops. Nothing else about an
      enemy changes and the list keeps its length and order. */
  lemma MoveSpec(direction: int, es: seq<Enemy>, w: real)
    requires |es| > 0
    ensures var m := FormationMoved(direction, es, w);
      var right := exists i :: 0 <= i < |es| && es[i].x >= w - 30.0;
      var left := exists i :: 0 <= i < |es| && es[i].x <= 30.0;
      var turn := (direction == 1 && right) || (direction == -1 && left);
      && |m.enemies| == |es|
      && (turn ==> m.direction == -direction
                   && forall i :: 0 <= i < |es| ==> m.enemies[i] == es[i].(y := es[i].y + 20.0))
      && (!turn ==> m.direction == direction
                    && forall i :: 0 <= i < |es| ==> m.enemies[i] == es[i].(x := es[i].x + direction as real * 15.0))
  {
    ExtremesSpec(es);
  }

  /** Each tick every enemy regains its shot with a zero timer once the timer reaches
      its cooldown, and keeps its frame in range; position, health and life are
      untouched. */
  lemma TickedEnemiesSpec(es: seq<Enemy>, dt: real)
    requires forall i :: 0 <= i < |es| ==> es[i].FrameInRange()
    ensures var t := TickedEnemies(es, dt);
      && |t| == |es|
      && forall i :: 0 <= i < |es| ==>
           && t[i].x == es[i].x && t[i].y == es[i].y && t[i].health == es[i].health
           && t[i].isActive == es[i].isActive && t[i].FrameInRange()
           && (!es[i].canShoot && es[i].shootTimer + dt >= es[i].shootCooldown ==>
                 t[i].canShoot && t[i].shootTimer == 0.0)
           && (!es[i].canShoot && es[i].shootTimer + dt < es[i].shootCooldown ==>
                 !t[i].canShoot && t[i].shootTimer == es[i].shootTimer + dt)
  {
    forall i | 0 <= i < |es| ensures TickedEnemies(es, dt)[i].FrameInRange() {
      Timers.AnimationTickKeepsFrame(es[i].AnimationPart(), es[i].animationSpeed, es[i].totalFrames, dt);
    }
  }

  /** The formation after a run of updates on the enemies it moves. */
  function UpdateAll(s: FormationState, dts: seq<real>, es: seq<Enemy>, w: real,
                     minMult: Option<real>): FormationUpdate
    decreases |dts|
  {
    if |dts| == 0 then FormationUpdate(s, es)
    else
      var r := FormationUpdated(s, dts[0], es, w, minMult);
      UpdateAll(r.state, dts[1..], r.enemies, w, minMult)
  }

  /** As shipped, with the minimum multiplier missing, the formation never moves: over
      any run of updates no enemy changes position and the direction never changes. */
  lemma {:induction false} ShippedFormationNeverMoves(s: FormationState, dts: seq<real>, es: seq<Enemy>, w: real)
    ensures var r := UpdateAll(s, dts, es, w, None);
      && r.state.direction == s.direction && |r.enemies| == |es|
      && forall i :: 0 <= i < |es| ==> r.enemies[i].x == es[i].x && r.enemies[i].y == es[i].y
    decreases |dts|
  {
    if |dts| > 0 {
      var r := FormationUpdated(s, dts[0], es, w, None);
      assert |r.enemies| == |es|;
      assert forall i :: 0 <= i < |es| ==> r.enemies[i].x == es[i].x && r.enemies[i].y == es[i].y;
      ShippedFormationNeverMoves(r.state, dts[1..], r.enemies, w);
    }
  }

}
