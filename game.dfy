/** The game object of src/js/game.js: the screen registry, the screen switch, and the
    fixed-step loop that drains an accumulator in timeStep chunks. Screens are known by
    identity only; what the game does to them (exit, enter, update, render) is recorded
    in a call log, and requestAnimationFrame is counted, not scheduled. The frame time
    performance.now() gives is a parameter. */
module Games {
  import opened Options

  /** timeStep: 1000/60 milliseconds, for 60 updates a second. */
  const TIME_STEP: real := 1000.0 / 60.0

  /** A screen object, by identity. */
  type ScreenId = nat

  /** A call the game makes on a screen. */
  datatype ScreenCall = Exit(screen: ScreenId) | Enter(screen: ScreenId) | Update(screen: ScreenId, dt: real)
                      | Render(screen: ScreenId)

  /** A snapshot of the game's fields. */
  datatype GameState = GameState(
    screens: map<string, ScreenId>,
    currentScreen: Option<ScreenId>,
    lastTime: real,
    accumulator: real,
    isRunning: bool,
    calls: seq<ScreenCall>,
    frameRequests: nat)

  function ScreenAdded(s: GameState, name: string, screen: ScreenId): GameState {
    s.(screens := s.screens[name := screen])
  }

  function ExitCall(current: Option<ScreenId>): seq<ScreenCall> {
    if current.Some? then [Exit(current.value)] else []
  }

  /** switchScreen: a registered name exits the current screen (if any), makes the
      named one current and enters it; any other name does nothing. */
  function Switched(s: GameState, name: string): GameState {
    if name !in s.screens then s
    else
      var next := s.screens[name];
      s.(currentScreen := Some(next), calls := s.calls + ExitCall(s.currentScreen) + [Enter(next)])
  }

  /** start: only when not running, the clock read and the first frame requested. */
  function Started(s: GameState, now: real): GameState {
    if s.isRunning then s else s.(isRunning := true, lastTime := now, frameRequests := s.frameRequests + 1)
  }

  function Stopped(s: GameState): GameState {
    s.(isRunning := false)
  }

  /** How many timeStep chunks the while loop of gameLoop drains from acc. */
  function Drains(acc: real): nat
    decreases if acc < TIME_STEP then 0 else (acc / TIME_STEP).Floor
  {
    if acc < TIME_STEP then 0 else 1 + Drains(acc - TIME_STEP)
  }

  /** The updates of n drained chunks, each with timeStep in seconds; none without a
      current screen. */
  function UpdateCalls(current: Option<ScreenId>, n: nat): seq<ScreenCall>
    decreases n
  {
    if n == 0 || current.None? then [] else UpdateCalls(current, n - 1) + [Update(current.value, TIME_STEP / 1000.0)]
  }

  function RenderCall(current: Option<ScreenId>): seq<ScreenCall> {
    if current.Some? then [Render(current.value)] else []
  }

  /** gameLoop(currentTime): nothing once stopped; otherwise the elapsed time is added to
      the accumulator, whole chunks are drained with one update each, the current screen
      is rendered, and the next frame requested. */
  function Looped(s: GameState, currentTime: real): GameState {
    if !s.isRunning then s
    else
      var acc := s.accumulator + (currentTime - s.lastTime);
      var n := Drains(acc);
      s.(lastTime := currentTime, accumulator := acc - n as real * TIME_STEP,
         calls := s.calls + UpdateCalls(s.currentScreen, n) + RenderCall(s.currentScreen),
         frameRequests := s.frameRequests + 1)
  }

  class Game {
    var screens: map<string, ScreenId>
    var currentScreen: Option<ScreenId>
    var lastTime: real
    var accumulator: real
    const timeStep: real := TIME_STEP
    var isRunning: bool
    var calls: seq<ScreenCall>
    var frameRequests: nat

    function State(): GameState
      reads this
    {
      GameState(screens, currentScreen, lastTime, accumulator, isRunning, calls, frameRequests)
    }

    constructor()
      ensures State() == GameState(map[], None, 0.0, 0.0, false, [], 0)
    {
      screens := map[];
      currentScreen := None;
      lastTime := 0.0;
      accumulator := 0.0;
      isRunning := false;
      calls := [];
      frameRequests := 0;
    }

    method AddScreen(name: string, screen: ScreenId)
      modifies this
      ensures State() == ScreenAdded(old(State()), name, screen)
    {
      screens := screens[name := screen];
    }

    method SwitchScreen(name: string)
      modifies this
      ensures State() == Switched(old(State()), name)
    {
      if name in screens {
        if currentScreen.Some? {
          calls := calls + [Exit(currentScreen.value)];
        }
        currentScreen := Some(screens[name]);
        calls := calls + [Enter(currentScreen.value)];
      }
    }

    method Start(now: real)
      modifies this
      ensures State() == Started(old(State()), now)
    {
      if !isRunning {
        isRunning := true;
        lastTime := now;
        frameRequests := frameRequests + 1;
      }
    }

    method Stop()
      modifies this
      ensures State() == Stopped(old(State()))
    {
      isRunning := false;
    }

    /** gameLoop; the accumulator is drained in a local and stored once the loop ends. */
    method GameLoop(currentTime: real)
      modifies this
      ensures State() == Looped(old(State()), currentTime)
    {
      if !isRunning {
        return;
      }
      var deltaTime := currentTime - lastTime;
      var acc := accumulator + deltaTime;
      var log := calls;
      ghost var acc0 := acc;
      ghost var k: nat := 0;
      while acc >= timeStep
        invariant k + Drains(acc) == Drains(acc0)
        invariant acc == acc0 - k as real * TIME_STEP
        invariant log == calls + UpdateCalls(currentScreen, k)
        decreases Drains(acc)
      {
        if currentScreen.Some? {
          log := log + [Update(currentScreen.value, timeStep / 1000.0)];
        }
        acc := acc - timeStep;
        k := k + 1;
      }
      if currentScreen.Some? {
        log := log + [Render(currentScreen.value)];
      }
      Store(currentTime, acc, log);
    }

    method Store(time: real, acc: real, log: seq<ScreenCall>)
      modifies this
      ensures State() == old(State()).(lastTime := time, accumulator := acc, calls := log,
                                       frameRequests := old(frameRequests) + 1)
    {
      lastTime, accumulator, calls := time, acc, log;
      frameRequests := frameRequests + 1;
    }
  }

  // ---------------------------------------------------------------------------------

  /** The loop drains floor(acc / timeStep) chunks from a non-negative accumulator and
      leaves less than one chunk; from a negative one (the clock went back) it drains
      nothing. */
  lemma {:induction false} DrainsSpec(acc: real)
    ensures acc < TIME_STEP ==> Drains(acc) == 0
    ensures acc >= 0.0 ==> 0.0 <= acc - Drains(acc) as real * TIME_STEP < TIME_STEP
    ensures acc >= 0.0 ==> Drains(acc) == (acc / TIME_STEP).Floor
    decreases if acc < TIME_STEP then 0 else (acc / TIME_STEP).Floor
  {
    if acc >= TIME_STEP {
      DrainsSpec(acc - TIME_STEP);
      FloorOfSplit(Drains(acc), acc - Drains(acc) as real * TIME_STEP);
    }
  }

  /** n whole chunks plus a remainder under one chunk make floor n. */
  lemma FloorOfSplit(n: int, r: real)
    requires 0.0 <= r < TIME_STEP
    ensures ((n as real * TIME_STEP + r) / TIME_STEP).Floor == n
  {
    assert (n as real * TIME_STEP + r) / TIME_STEP == n as real + r / TIME_STEP;
  }

  /** The updates of a frame are Drains of them, all with the same step. */
  lemma {:induction false} UpdateCallsSpec(screen: ScreenId, n: nat)
    ensures |UpdateCalls(Some(screen), n)| == n
    ensures forall k :: 0 <= k < n ==> UpdateCalls(Some(screen), n)[k] == Update(screen, TIME_STEP / 1000.0)
    decreases n
  {
    if n > 0 {
      UpdateCallsSpec(screen, n - 1);
    }
  }

  /** A running frame with an accumulator in [0, timeStep) and a clock that did not go
      back leaves the accumulator in [0, timeStep) and the clock at currentTime. */
  lemma AccumulatorStaysBelowStep(s: GameState, currentTime: real)
    requires s.isRunning && 0.0 <= s.accumulator < TIME_STEP && currentTime >= s.lastTime
    ensures var r := Looped(s, currentTime);
      0.0 <= r.accumulator < TIME_STEP && r.lastTime == currentTime
  {
    DrainsSpec(s.accumulator + (currentTime - s.lastTime));
  }

  /** A running frame on a current screen calls update floor((acc + Δ)/timeStep) times,
      each with timeStep/1000 seconds, then render once, and requests one more frame. */
  lemma FrameCalls(s: GameState, currentTime: real)
    requires s.isRunning && s.currentScreen.Some?
    requires s.accumulator + (currentTime - s.lastTime) >= 0.0
    ensures var r := Looped(s, currentTime);
      var n := ((s.accumulator + (currentTime - s.lastTime)) / TIME_STEP).Floor;
      var added := r.calls[|s.calls|..];
      && |s.calls| <= |r.calls| && r.calls[..|s.calls|] == s.calls
      && |added| == n + 1
      && (forall k :: 0 <= k < n ==> added[k] == Update(s.currentScreen.value, TIME_STEP / 1000.0))
      && added[n] == Render(s.currentScreen.value)
      && r.frameRequests == s.frameRequests + 1
  {
    var acc := s.accumulator + (currentTime - s.lastTime);
    DrainsSpec(acc);
    UpdateCallsSpec(s.currentScreen.value, Drains(acc));
    var r := Looped(s, currentTime);
    assert r.calls == s.calls + (UpdateCalls(s.currentScreen, Drains(acc)) + [Render(s.currentScreen.value)]);
  }

  /** A stopped game's gameLoop returns at once, so after stop nothing moves. */
  lemma StoppedLoopIsInert(s: GameState, currentTime: real)
    ensures Looped(Stopped(s), currentTime) == Stopped(s)
  {
  }

  /** start is idempotent while running: a second start keeps the first clock reading
      and requests no second frame chain. */
  lemma StartIdempotent(s: GameState, t1: real, t2: real)
    ensures Started(Started(s, t1), t2) == Started(s, t1)
    ensures Started(s, t1).isRunning
  {
  }

  /** addScreen stores the screen under its name, replacing an earlier one, and
      touches no other name. */
  lemma ScreenAddedSpec(s: GameState, name: string, screen: ScreenId)
    ensures var r := ScreenAdded(s, name, screen);
      && r.screens[name] == screen
      && (forall n :: n != name ==> (n in r.screens <==> n in s.screens))
      && (forall n :: n != name && n in s.screens ==> r.screens[n] == s.screens[n])
      && r == s.(screens := r.screens)
  {
  }

  /** switchScreen to an unregistered name calls neither exit nor enter and changes
      nothing; to a registered one, the old screen's exit comes before the new screen
      is current and entered, and nothing but the current screen and the log changes. */
  lemma SwitchedSpec(s: GameState, name: string)
    ensures name !in s.screens ==> Switched(s, name) == s
    ensures name in s.screens ==>
      var r := Switched(s, name);
      var added := r.calls[|s.calls|..];
      && r.currentScreen == Some(s.screens[name])
      && |s.calls| <= |r.calls| && r.calls[..|s.calls|] == s.calls
      && added == (if s.currentScreen.Some? then [Exit(s.currentScreen.value), Enter(s.screens[name])]
                   else [Enter(s.screens[name])])
      && r == s.(currentScreen := r.currentScreen, calls := r.calls)
  {
    if name in s.screens {
      var r := Switched(s, name);
      assert r.calls == s.calls + (ExitCall(s.currentScreen) + [Enter(s.screens[name])]);
    }
  }

  /** The screens main.js registers before the first switch. */
  function Registered(s: GameState): GameState {
    ScreenAdded(ScreenAdded(ScreenAdded(ScreenAdded(s, "title", 0), "game", 1), "instructions", 2), "gameOver", 3)
  }

  /** 'gameClear' is not among them, so the switch the play screen asks for after a
      boss defeat would change nothing. */
  lemma GameClearSwitchIsInert(s: GameState)
    requires s.screens == map[]
    ensures Switched(Registered(s), "gameClear") == Registered(s)
    ensures Switched(Registered(s), "gameOver").currentScreen == Some(3)
  {
  }

  // ---------------------------------------------------------------------------------

  /** gameLoop once per frame time, in order. */
  function Frames(s: GameState, times: seq<real>): GameState
    decreases |times|
  {
    if |times| == 0 then s else Looped(Frames(s, times[..|times| - 1]), times[|times| - 1])
  }

  /** The chunks drained over those frames. */
  function TotalDrains(s: GameState, times: seq<real>): nat
    decreases |times|
  {
    if |times| == 0 then 0
    else
      var before := Frames(s, times[..|times| - 1]);
      TotalDrains(s, times[..|times| - 1]) + Drains(before.accumulator + (times[|times| - 1] - before.lastTime))
  }

  predicate Ascending(s: GameState, times: seq<real>) {
    && (|times| > 0 ==> s.lastTime <= times[0])
    && forall k :: 0 < k < |times| ==> times[k - 1] <= times[k]
  }

  /** Over any run of frames from a clean start, the chunks drained add up to exactly
      floor(elapsed / timeStep): how many updates happen depends only on the total time,
      not on how it was split into frames, and the accumulator stays in [0, timeStep). */
  lemma {:induction false} TotalUpdatesDependOnElapsed(s: GameState, times: seq<real>)
    requires s.isRunning && 0.0 <= s.accumulator < TIME_STEP
    requires Ascending(s, times)
    ensures var r := Frames(s, times);
      var elapsed := if |times| == 0 then 0.0 else times[|times| - 1] - s.lastTime;
      && r.isRunning
      && (|times| > 0 ==> r.lastTime == times[|times| - 1])
      && r.accumulator == s.accumulator + elapsed - TotalDrains(s, times) as real * TIME_STEP
      && 0.0 <= r.accumulator < TIME_STEP
      && TotalDrains(s, times) == ((s.accumulator + elapsed) / TIME_STEP).Floor
    decreases |times|
  {
    if |times| == 0 {
      FloorOfSplit(0, s.accumulator);
    } else {
      var init := times[..|times| - 1];
      var t := times[|times| - 1];
      assert Ascending(s, init);
      TotalUpdatesDependOnElapsed(s, init);
      var before := Frames(s, init);
      assert before.lastTime <= t;
      AccumulatorStaysBelowStep(before, t);
      DrainsSpec(before.accumulator + (t - before.lastTime));
      var r := Frames(s, times);
      FloorOfSplit(TotalDrains(s, times), r.accumulator);
    }
  }
}
