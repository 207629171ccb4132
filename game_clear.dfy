/** The bouncing player of the game-clear screen (src/js/screens/gameClearScreen.js):
    each update moves the jump offset one speed step in the current direction, turns
    round at the floor or the ceiling, and clamps the offset into [0, maxJumpHeight].
    The frame time is ignored, as in the source. */
module GameClear {
  const JUMP_SPEED: real := 1.5
  const MAX_JUMP_HEIGHT: real := 25.0

  datatype JumpState = JumpState(jumpOffset: real, jumpDirection: int)

  function Clamp(v: real): real {
    if v > MAX_JUMP_HEIGHT then MAX_JUMP_HEIGHT else if v < 0.0 then 0.0 else v
  }

  /** One update of the jump. */
  function Bounced(s: JumpState): JumpState {
    var moved := s.jumpOffset + s.jumpDirection as real * JUMP_SPEED;
    var dir := if moved >= MAX_JUMP_HEIGHT || moved <= 0.0 then -s.jumpDirection else s.jumpDirection;
    JumpState(Clamp(moved), dir)
  }

  /** The state the constructor sets. */
  const INITIAL: JumpState := JumpState(0.0, 1)

  predicate InRange(s: JumpState) {
    0.0 <= s.jumpOffset <= MAX_JUMP_HEIGHT && (s.jumpDirection == 1 || s.jumpDirection == -1)
  }

  class GameClearScreen {
    var jumpOffset: real
    var jumpDirection: int
    const jumpSpeed: real := JUMP_SPEED
    const maxJumpHeight: real := MAX_JUMP_HEIGHT

    function State(): JumpState
      reads this
    {
      JumpState(jumpOffset, jumpDirection)
    }

    constructor()
      ensures State() == INITIAL
    {
      jumpOffset := 0.0;
      jumpDirection := 1;
    }

    /** update(deltaTime): deltaTime plays no part. */
    method Update(deltaTime: real)
      modifies this
      ensures State() == Bounced(old(State()))
    {
      jumpOffset := jumpOffset + jumpDirection as real * jumpSpeed;
      if jumpOffset >= maxJumpHeight || jumpOffset <= 0.0 {
        jumpDirection := jumpDirection * -1;
      }
      jumpOffset := Clamp(jumpOffset);
    }
  }

  // ---------------------------------------------------------------------------------

  /** From any state at all, one update leaves the offset within [0, maxJumpHeight]; it
      flips the direction exactly when the unclamped offset reaches a bound, and keeps
      a direction of 1 or -1. */
  lemma BouncedSpec(s: JumpState)
    ensures var r := Bounced(s);
      var moved := s.jumpOffset + s.jumpDirection as real * JUMP_SPEED;
      && 0.0 <= r.jumpOffset <= MAX_JUMP_HEIGHT
      && (moved >= MAX_JUMP_HEIGHT || moved <= 0.0 ==> r.jumpDirection == -s.jumpDirection)
      && (0.0 < moved < MAX_JUMP_HEIGHT ==> r.jumpDirection == s.jumpDirection)
      && ((s.jumpDirection == 1 || s.jumpDirection == -1) ==> (r.jumpDirection == 1 || r.jumpDirection == -1))
      && (0.0 <= moved <= MAX_JUMP_HEIGHT ==> r.jumpOffset == moved)
  {
  }

  /** n updates in a row. */
  function Bounces(s: JumpState, n: nat): JumpState
    decreases n
  {
    if n == 0 then s else Bounced(Bounces(s, n - 1))
  }

  /** Every state the screen reaches from its constructor is in range. */
  lemma {:induction false} BouncesStayInRange(s: JumpState, n: nat)
    requires InRange(s)
    ensures InRange(Bounces(s, n))
    decreases n
  {
    if n > 0 {
      BouncesStayInRange(s, n - 1);
      BouncedSpec(Bounces(s, n - 1));
    }
  }

  /** Rising from the floor: the k-th update (k <= 16) is at 1.5k, still going up. */
  lemma {:induction false} Rising(k: nat)
    requires k <= 16
    ensures Bounces(INITIAL, k) == JumpState(k as real * JUMP_SPEED, 1)
    decreases k
  {
    if k > 0 {
      Rising(k - 1);
    }
  }

  /** Falling from the ceiling: update 17 + j (j <= 16) leaves the offset at 25 - 1.5j,
      going down. */
  lemma {:induction false} Falling(j: nat)
    requires j <= 16
    ensures Bounces(INITIAL, 17 + j) == JumpState(MAX_JUMP_HEIGHT - j as real * JUMP_SPEED, -1)
    decreases j
  {
    if j == 0 {
      Rising(16);
    } else {
      Falling(j - 1);
    }
  }

  /** The jump is a cycle of 34 updates: it touches 25 at update 17 (clamped from 25.5)
      and comes back to the floor, rising, at update 34 (clamped from -0.5). */
  lemma JumpCycle()
    ensures Bounces(INITIAL, 17) == JumpState(MAX_JUMP_HEIGHT, -1)
    ensures Bounces(INITIAL, 34) == INITIAL
  {
    Falling(0);
    Falling(16);
  }
}
