/** The score bookkeeping of src/js/managers/scoreManager.js. Persistence is abstracted:
    the high score read from local storage at construction is a parameter, and each
    call of saveHighScore is counted in `saves` (the stored value is the high score at
    that moment). */
module Scores {

  datatype ScoreState = ScoreState(currentScore: int, highScore: int, saves: nat)

  /** addScore, the state part. */
  function Added(s: ScoreState, points: int): ScoreState {
    var c := s.currentScore + points;
    if c > s.highScore then ScoreState(c, c, s.saves + 1) else s.(currentScore := c)
  }

  /** resetScore. */
  function Reset(s: ScoreState): ScoreState {
    s.(currentScore := 0)
  }

  class ScoreManager {
    var currentScore: int
    var highScore: int
    var saves: nat

    function State(): ScoreState
      reads this
    {
      ScoreState(currentScore, highScore, saves)
    }

    /** `storedHighScore` is what loadHighScore reads back (0 when nothing is stored). */
    constructor(storedHighScore: int)
      ensures State() == ScoreState(0, storedHighScore, 0)
    {
      currentScore := 0;
      highScore := storedHighScore;
      saves := 0;
    }

    method GetScore() returns (score: int)
      ensures score == currentScore
    {
      return currentScore;
    }

    method GetHighScore() returns (score: int)
      ensures score == highScore
    {
      return highScore;
    }

    method AddScore(points: int) returns (score: int)
      modifies this
      ensures State() == Added(old(State()), points)
      ensures score == currentScore
    {
      currentScore := currentScore + points;
      if currentScore > highScore {
        highScore := currentScore;
        saves := saves + 1;
      }
      return currentScore;
    }

    method ResetScore()
      modifies this
      ensures State() == Reset(old(State()))
    {
      currentScore := 0;
    }
  }

  /** addScore adds the points to the current score; the high score becomes the larger of
      the old high score and the new current score, and a save happens exactly when the
      high score strictly increases. */
  lemma AddedSpec(s: ScoreState, points: int)
    ensures var a := Added(s, points);
      && a.currentScore == s.currentScore + points
      && a.highScore == (if s.highScore >= a.currentScore then s.highScore else a.currentScore)
      && (a.saves == s.saves + 1 <==> a.highScore > s.highScore)
      && (a.saves != s.saves + 1 ==> a.saves == s.saves)
  {
  }

  /** resetScore zeroes the current score and leaves the high score and saves alone. */
  lemma ResetSpec(s: ScoreState)
    ensures Reset(s).currentScore == 0 && Reset(s).highScore == s.highScore && Reset(s).saves == s.saves
  {
  }

  datatype ScoreOp = AddOp(points: int) | ResetOp

  function ApplyAll(s: ScoreState, ops: seq<ScoreOp>): ScoreState
    decreases |ops|
  {
    if |ops| == 0 then s
    else ApplyAll(match ops[0] case AddOp(p) => Added(s, p) case ResetOp => Reset(s), ops[1..])
  }

  /** Over any sequence of additions (of any sign) and resets the high score never
      decreases, the save count never decreases, and once the high score is at least the
      current score and non-negative it stays so. */
  lemma {:induction false} HighScoreNeverDecreases(s: ScoreState, ops: seq<ScoreOp>)
    ensures ApplyAll(s, ops).highScore >= s.highScore
    ensures ApplyAll(s, ops).saves >= s.saves
    ensures s.highScore >= s.currentScore && s.highScore >= 0 ==>
      ApplyAll(s, ops).highScore >= ApplyAll(s, ops).currentScore
    decreases |ops|
  {
    if |ops| > 0 {
      var s1 := match ops[0] case AddOp(p) => Added(s, p) case ResetOp => Reset(s);
      HighScoreNeverDecreases(s1, ops[1..]);
    }
  }

  /** A run of additions, as one collision pass hands them to addScore. */
  function AddAll(s: ScoreState, awards: seq<int>): ScoreState
    decreases |awards|
  {
    if |awards| == 0 then s else AddAll(Added(s, awards[0]), awards[1..])
  }

  function Sum(xs: seq<int>): int
    decreases |xs|
  {
    if |xs| == 0 then 0 else xs[0] + Sum(xs[1..])
  }

  /** A run of non-negative additions from a state whose high score is at least its
      current score raises the current score by their sum and leaves the high score at
      the larger of the old high score and the new current score. */
  lemma {:induction false} AddAllSpec(s: ScoreState, awards: seq<int>)
    requires s.highScore >= s.currentScore
    requires forall i :: 0 <= i < |awards| ==> awards[i] >= 0
    ensures AddAll(s, awards).currentScore == s.currentScore + Sum(awards)
    ensures var e := AddAll(s, awards);
      e.highScore == (if s.highScore >= e.currentScore then s.highScore else e.currentScore)
    decreases |awards|
  {
    if |awards| > 0 {
      assert forall i :: 0 <= i < |awards[1..]| ==> awards[1..][i] >= 0 by {
        forall i | 0 <= i < |awards[1..]| ensures awards[1..][i] >= 0 {
          assert awards[1..][i] == awards[i + 1];
        }
      }
      AddAllSpec(Added(s, awards[0]), awards[1..]);
      SumNonNegative(awards[1..]);
    }
  }

  lemma {:induction false} SumNonNegative(xs: seq<int>)
    requires forall i :: 0 <= i < |xs| ==> xs[i] >= 0
    ensures Sum(xs) >= 0
    decreases |xs|
  {
    if |xs| > 0 {
      assert forall i :: 0 <= i < |xs[1..]| ==> xs[1..][i] >= 0 by {
        forall i | 0 <= i < |xs[1..]| ensures xs[1..][i] >= 0 {
          assert xs[1..][i] == xs[i + 1];
        }
      }
      SumNonNegative(xs[1..]);
    }
  }

  /** Handing one more award to addScore after a run of them. */
  lemma {:induction false} AddAllAppend(s: ScoreState, awards: seq<int>, points: int)
    ensures AddAll(s, awards + [points]) == Added(AddAll(s, awards), points)
    decreases |awards|
  {
    if |awards| == 0 {
      assert awards + [points] == [points];
    } else {
      assert (awards + [points])[1..] == awards[1..] + [points];
      AddAllAppend(Added(s, awards[0]), awards[1..], points);
    }
  }
}
