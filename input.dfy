/** The keyboard state of src/js/managers/inputManager.js: which keys are down and when
    each was first pressed (milliseconds on the host clock). The clock reading
    `performance.now()` is a parameter of every operation that reads it; the browser
    event listeners and preventDefault are not modelled. A press time that is absent or
    0 counts as "no press recorded", as the JavaScript truthiness tests do. */
module Input {

  datatype InputState = InputState(keys: map<string, bool>, pressedTime: map<string, real>)

  /** keys[k] === true. */
  predicate IsDown(s: InputState, key: string) {
    key in s.keys && s.keys[key]
  }

  /** A truthy pressedTime[k]. */
  predicate Recorded(s: InputState, key: string) {
    key in s.pressedTime && s.pressedTime[key] != 0.0
  }

  /** getKeyPressedTime. */
  function PressedTime(s: InputState, key: string, now: real): real {
    if IsDown(s, key) && Recorded(s, key) then now - s.pressedTime[key] else 0.0
  }

  /** handleKeyDown. */
  function KeyDown(s: InputState, key: string, now: real): InputState {
    InputState(s.keys[key := true],
               if Recorded(s, key) then s.pressedTime else s.pressedTime[key := now])
  }

  /** handleKeyUp. */
  function KeyUp(s: InputState, key: string): InputState {
    InputState(s.keys[key := false], s.pressedTime[key := 0.0])
  }

  /** setKey, the entry point of the on-screen buttons. */
  function SetKeyTo(s: InputState, key: string, pressed: bool, now: real): InputState {
    if pressed then
      if IsDown(s, key) then s else InputState(s.keys[key := true], s.pressedTime[key := now])
    else
      InputState(s.keys[key := false], s.pressedTime[key := 0.0])
  }

  class InputManager {
    var keys: map<string, bool>
    var pressedTime: map<string, real>

    function State(): InputState
      reads this
    {
      InputState(keys, pressedTime)
    }

    constructor()
      ensures State() == InputState(map[], map[])
    {
      keys := map[];
      pressedTime := map[];
    }

    method HandleKeyDown(key: string, now: real)
      modifies this
      ensures State() == KeyDown(old(State()), key, now)
    {
      keys := keys[key := true];
      if !(key in pressedTime && pressedTime[key] != 0.0) {
        pressedTime := pressedTime[key := now];
      }
    }

    method HandleKeyUp(key: string)
      modifies this
      ensures State() == KeyUp(old(State()), key)
    {
      keys := keys[key := false];
      pressedTime := pressedTime[key := 0.0];
    }

    function IsKeyDown(key: string): bool
      reads this
    {
      IsDown(State(), key)
    }

    function GetKeyPressedTime(key: string, now: real): real
      reads this
    {
      PressedTime(State(), key, now)
    }

    method SetKey(key: string, pressed: bool, now: real)
      modifies this
      ensures State() == SetKeyTo(old(State()), key, pressed, now)
    {
      if pressed {
        if !(key in keys && keys[key]) {
          keys := keys[key := true];
          pressedTime := pressedTime[key := now];
        }
      } else {
        keys := keys[key := false];
        pressedTime := pressedTime[key := 0.0];
      }
    }
  }

  /** After keydown the key is down; a press time is recorded only when none was, so a
      repeated keydown does not restart the hold. */
  lemma KeyDownSpec(s: InputState, key: string, now: real)
    ensures IsDown(KeyDown(s, key, now), key)
    ensures Recorded(s, key) ==> KeyDown(s, key, now).pressedTime == s.pressedTime
    ensures !Recorded(s, key) ==> KeyDown(s, key, now).pressedTime[key] == now
    ensures now != 0.0 ==> forall later :: KeyDown(KeyDown(s, key, now), key, later) == KeyDown(s, key, now)
  {
  }

  /** After keyup the key is up with press time 0, so the pressed time reads 0 at any
      clock reading. */
  lemma KeyUpSpec(s: InputState, key: string, now: real)
    ensures var u := KeyUp(s, key);
      !IsDown(u, key) && key in u.pressedTime && u.pressedTime[key] == 0.0 && PressedTime(u, key, now) == 0.0
  {
  }

  /** After a keydown or a setKey press on a key that is up with no press recorded (a
      fresh key, or one released since), taken at a non-zero clock reading t0, the held
      time at now is now − t0, so never negative once now ≥ t0. */
  lemma HoldMeasuredFromPress(s: InputState, key: string, t0: real, now: real)
    requires !IsDown(s, key) && !Recorded(s, key) && t0 != 0.0
    ensures PressedTime(KeyDown(s, key, t0), key, now) == now - t0
    ensures PressedTime(SetKeyTo(s, key, true, t0), key, now) == now - t0
    ensures now >= t0 ==> PressedTime(KeyDown(s, key, t0), key, now) >= 0.0
  {
  }

  /** Every key is down exactly when a press time is recorded for it. */
  ghost predicate Consistent(s: InputState) {
    forall k :: IsDown(s, k) <==> Recorded(s, k)
  }

  /** On a consistent state the on-screen buttons act as the keyboard: setKey(k, true)
      is keydown and setKey(k, false) is keyup. (They part only on a key down with no
      press recorded, which keydown at a non-zero clock reading never leaves.) */
  lemma SetKeyActsAsKeyboard(s: InputState, key: string, pressed: bool, now: real)
    requires Consistent(s) && now != 0.0
    ensures SetKeyTo(s, key, pressed, now) == if pressed then KeyDown(s, key, now) else KeyUp(s, key)
  {
    if pressed && IsDown(s, key) {
      assert Recorded(s, key);
      assert s.keys[key := true] == s.keys;
    }
  }

  /** Every operation on one key leaves every other key's entries as they were. */
  lemma OtherKeysUnchanged(s: InputState, key: string, other: string, pressed: bool, now: real)
    requires other != key
    ensures var d := KeyDown(s, key, now);
      (other in d.keys <==> other in s.keys) && (other in s.keys ==> d.keys[other] == s.keys[other])
      && (other in d.pressedTime <==> other in s.pressedTime)
      && (other in s.pressedTime ==> d.pressedTime[other] == s.pressedTime[other])
    ensures var u := KeyUp(s, key);
      (other in u.keys <==> other in s.keys) && (other in s.keys ==> u.keys[other] == s.keys[other])
      && (other in u.pressedTime <==> other in s.pressedTime)
      && (other in s.pressedTime ==> u.pressedTime[other] == s.pressedTime[other])
    ensures var k := SetKeyTo(s, key, pressed, now);
      (other in k.keys <==> other in s.keys) && (other in s.keys ==> k.keys[other] == s.keys[other])
      && (other in k.pressedTime <==> other in s.pressedTime)
      && (other in s.pressedTime ==> k.pressedTime[other] == s.pressedTime[other])
  {
  }

  /** One input event as the browser or the on-screen buttons deliver it. */
  datatype KeyEvent =
    | KeyDownEvent(key: string, time: real)
    | KeyUpEvent(key: string)
    | SetKeyEvent(key: string, pressed: bool, time: real)

  function Apply(s: InputState, e: KeyEvent): InputState {
    match e
    case KeyDownEvent(k, t) => KeyDown(s, k, t)
    case KeyUpEvent(k) => KeyUp(s, k)
    case SetKeyEvent(k, p, t) => SetKeyTo(s, k, p, t)
  }

  function ApplyAll(s: InputState, es: seq<KeyEvent>): InputState
    decreases |es|
  {
    if |es| == 0 then s else ApplyAll(Apply(s, es[0]), es[1..])
  }

  /** The clock reading an event carries, when it carries one, is not 0. */
  predicate NonZeroTime(e: KeyEvent) {
    match e
    case KeyDownEvent(_, t) => t != 0.0
    case KeyUpEvent(_) => true
    case SetKeyEvent(_, _, t) => t != 0.0
  }

  /** The manager starts consistent and every run of events with non-zero clock
      readings keeps it so; on such runs SetKeyActsAsKeyboard applies throughout. */
  lemma {:induction false} EventsKeepConsistent(s: InputState, es: seq<KeyEvent>)
    requires Consistent(s)
    requires forall i :: 0 <= i < |es| ==> NonZeroTime(es[i])
    ensures Consistent(InputState(map[], map[]))
    ensures Consistent(ApplyAll(s, es))
    decreases |es|
  {
    if |es| > 0 {
      var s1 := Apply(s, es[0]);
      assert NonZeroTime(es[0]);
      assert Consistent(s1) by {
        forall k ensures IsDown(s1, k) <==> Recorded(s1, k) {
          if k != es[0].key {
            assert IsDown(s1, k) == IsDown(s, k) && Recorded(s1, k) == Recorded(s, k);
          }
        }
      }
      assert forall i :: 0 <= i < |es[1..]| ==> NonZeroTime(es[1..][i]) by {
        forall i | 0 <= i < |es[1..]| ensures NonZeroTime(es[1..][i]) {
          assert es[1..][i] == es[i + 1];
        }
      }
      EventsKeepConsistent(s1, es[1..]);
    }
  }

  /** Whether an event releases `key`. */
  predicate Releases(e: KeyEvent, key: string) {
    e.key == key && (e.KeyUpEvent? || (e.SetKeyEvent? && !e.pressed))
  }

  /** Once a key is down with a press time recorded, the pressed time keeps measuring
      from that first press through any events that do not release the key (repeated
      keydowns, other keys, setKey presses): the hold is never restarted. */
  lemma {:induction false} HoldMeasuredFromFirstPress(s: InputState, key: string, es: seq<KeyEvent>, now: real)
    requires IsDown(s, key) && Recorded(s, key)
    requires forall i :: 0 <= i < |es| ==> !Releases(es[i], key)
    ensures IsDown(ApplyAll(s, es), key) && Recorded(ApplyAll(s, es), key)
    ensures PressedTime(ApplyAll(s, es), key, now) == now - s.pressedTime[key]
    decreases |es|
  {
    if |es| > 0 {
      var s1 := Apply(s, es[0]);
      assert IsDown(s1, key) && Recorded(s1, key) && s1.pressedTime[key] == s.pressedTime[key] by {
        assert !Releases(es[0], key);
      }
      assert forall i :: 0 <= i < |es[1..]| ==> !Releases(es[1..][i], key) by {
        forall i | 0 <= i < |es[1..]| ensures !Releases(es[1..][i], key) {
          assert es[1..][i] == es[i + 1];
        }
      }
      HoldMeasuredFromFirstPress(s1, key, es[1..], now);
    }
  }
}
