/** The input and frame callbacks of main.cpp: `keyHandle` maps a key code to
    a logical button of the keyboard model, to the exit of the program, or to
    nothing, and forwards the key's state; `update` ticks the frame clock and
    steps the scene by the measured delta. */
module MainLoop {
  import opened Keyboard
  import opened Fps
  import Scene

  /** An `unsigned char` key code, as GLUT passes it. */
  newtype Byte = b: int | 0 <= b < 256

  /** Escape, which ends the program when pressed. */
  const KEY_ESCAPE: Byte := 27
  /** Line feed (10), the one control code of the `switch`. The Enter key
      sends carriage return (13), which the `switch` ignores. */
  const KEY_LINE_FEED: Byte := 10

  /** The code of a one-byte character. */
  function Code(c: char): (k: Byte)
    requires c as int < 256
    ensures k as int == c as int
  {
    c as int as Byte
  }

  /** What `keyHandle` does with a key. */
  datatype KeyOutcome = Exit | Ignore | Press(button: ButtonId)

  /** The dispatch of `keyHandle`: escape on key-down exits before anything
      else; otherwise the letters w, a, s, d, k, i in either case and line
      feed (10) name a button, and every other key is ignored. */
  function KeyMap(key: Byte, pressed: bool): (r: KeyOutcome)
    ensures r.Exit? <==> pressed && key == KEY_ESCAPE
  {
    if pressed && key == KEY_ESCAPE then Exit
    else if key == Code('w') || key == Code('W') then Press(BTN_UP)
    else if key == Code('a') || key == Code('A') then Press(BTN_LEFT)
    else if key == Code('s') || key == Code('S') then Press(BTN_DOWN)
    else if key == Code('d') || key == Code('D') then Press(BTN_RIGHT)
    else if key == Code('k') || key == Code('K') then Press(BTN_ACTION1)
    else if key == Code('i') || key == Code('I') then Press(BTN_ACTION2)
    else if key == KEY_LINE_FEED then Press(BTN_START)
    else Ignore
  }

  /** The keys bound to each button, as a table by button. */
  function KeysFor(b: ButtonId): (keys: set<Byte>)
    ensures keys != {} && KEY_ESCAPE !in keys
    ensures b != BTN_START ==> |keys| == 2
  {
    if b == BTN_UP then {119, 87}
    else if b == BTN_DOWN then {115, 83}
    else if b == BTN_LEFT then {97, 65}
    else if b == BTN_RIGHT then {100, 68}
    else if b == BTN_START then {10}
    else if b == BTN_ACTION1 then {107, 75}
    else {105, 73}
  }

  /** The thirteen keys of the `switch`: every key bound to some button, and
      no other. */
  function BoundKeys(): (keys: set<Byte>)
    ensures KEY_ESCAPE !in keys
    ensures forall b: ButtonId :: KeysFor(b) <= keys
    ensures forall k :: k in keys <==> KeyMap(k, false).Press?
  {
    {119, 87, 115, 83, 97, 65, 100, 68, 10, 107, 75, 105, 73}
  }

  /** A key names button `b`, on key-down and key-up alike, exactly when it is
      bound to `b`; escape is bound to no button. */
  lemma KeyMapMatchesTable(key: Byte, pressed: bool, b: ButtonId)
    ensures KeyMap(key, pressed) == Press(b) <==> key in KeysFor(b)
    ensures KEY_ESCAPE !in KeysFor(b)
  {
  }

  /** A key is ignored exactly when it is bound to no button and is not
      escape pressed down; so escape released is ignored. */
  lemma KeyMapIgnores(key: Byte, pressed: bool)
    ensures KeyMap(key, pressed) == Ignore <==> key !in BoundKeys() && !(pressed && key == KEY_ESCAPE)
    ensures KeyMap(KEY_ESCAPE, false) == Ignore
  {
  }

  /** The upper- and lower-case forms of each bound letter name the same
      button. */
  lemma KeyMapIgnoresCase(c: char, pressed: bool)
    requires c in "wasdki"
    ensures KeyMap(Code(c), pressed).Press?
    ensures KeyMap(Code(c), pressed) == KeyMap(Code((c as int - 32) as char), pressed)
  {
  }

  /** Apart from escape, whether the key goes down or up does not change
      which button it names. */
  lemma KeyMapIgnoresDirection(key: Byte)
    requires key != KEY_ESCAPE
    ensures KeyMap(key, true) == KeyMap(key, false)
  {
  }

  /** `keyHandle(key, pressed)`: a bound key writes `pressed` to its button,
      and only to it; escape on key-down and unbound keys leave the keyboard
      as it was. The exit itself is the `Exit` outcome. */
  method HandleKey(kbd: Keyboard, key: Byte, pressed: bool) returns (r: KeyOutcome)
    requires kbd.Valid()
    modifies kbd.current, kbd.previous
    ensures r == KeyMap(key, pressed)
    ensures r.Press? ==> kbd.Model() == old(kbd.Model()).Update(r.button, pressed)
    ensures !r.Press? ==> kbd.Model() == old(kbd.Model())
  {
    r := KeyMap(key, pressed);
    if r.Press? {
      kbd.UpdateButton(r.button, pressed);
    }
  }

  /** `keyDown`: the key goes down. The mouse position is unused. */
  method KeyDown(kbd: Keyboard, key: Byte, x: int, y: int) returns (r: KeyOutcome)
    requires kbd.Valid()
    modifies kbd.current, kbd.previous
    ensures r == KeyMap(key, true)
    ensures r.Press? ==> kbd.Model() == old(kbd.Model()).Update(r.button, true)
    ensures !r.Press? ==> kbd.Model() == old(kbd.Model())
  {
    r := HandleKey(kbd, key, true);
  }

  /** `keyUp`: the key goes up. The mouse position is unused. */
  method KeyUp(kbd: Keyboard, key: Byte, x: int, y: int) returns (r: KeyOutcome)
    requires kbd.Valid()
    modifies kbd.current, kbd.previous
    ensures r == KeyMap(key, false)
    ensures r.Press? ==> kbd.Model() == old(kbd.Model()).Update(r.button, false)
    ensures !r.Press? ==> kbd.Model() == old(kbd.Model())
  {
    r := HandleKey(kbd, key, false);
  }

  /** Pressing a bound key whose button was not held makes that button just
      pressed; releasing it leaves it neither held nor just pressed. */
  lemma KeyDownThenUp(s: Snapshot, key: Byte)
    requires s.Valid() && KeyMap(key, true).Press?
    ensures var b := KeyMap(key, true).button;
      (!s.Pressing(b) ==> s.Update(b, true).Pressed(b))
      && KeyMap(key, false) == Press(b)
      && !s.Update(b, true).Update(b, false).Pressing(b)
      && !s.Update(b, true).Update(b, false).Pressed(b)
  {
  }

  /** The simulation half of `update`, with `now` the elapsed-time reading:
      tick the clock, read the delta in seconds, and step the scene by it with
      the buttons held in `kbd`. */
  method FrameUpdate(clock: Clock, scene: Scene.Scene, kbd: Keyboard, now: int)
    requires scene.Valid() && kbd.Valid()
    modifies clock, scene
    ensures scene.Valid()
    ensures clock.State() == Tick(old(clock.State()), now)
    ensures scene.State() == Scene.Step(old(scene.State()), clock.State().DeltaSeconds(), Scene.HeldIn(kbd.Model()))
    ensures scene.colorStride == old(scene.colorStride) && scene.colorTime == old(scene.colorTime)
  {
    clock.Update(now);
    var dt := clock.GetDeltaTime();
    scene.Update(dt, kbd);
  }
}
