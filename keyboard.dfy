/** The keyboard state machine of keyboard.cpp: for each of seven logical
    buttons, the state written by the latest update (`current`) and the one
    it replaced (`previous`). `Snapshot` is the value view of the two tables
    and specifies the `Keyboard` class, which keeps them in two arrays. */
module Keyboard {

  /** Button ids of keyboard.hpp. */
  const BTN_UP: ButtonId := 0
  const BTN_DOWN: ButtonId := 1
  const BTN_LEFT: ButtonId := 2
  const BTN_RIGHT: ButtonId := 3
  const BTN_START: ButtonId := 4
  const BTN_ACTION1: ButtonId := 5
  const BTN_ACTION2: ButtonId := 6

  /** Number of slots in a `KeyboardState`. */
  const NUM_BUTTONS: nat := 7

  /** An id that indexes the seven-slot tables; callers must pass one. */
  type ButtonId = b: nat | b < NUM_BUTTONS

  /** One raw button transition: which button, and the state written to it. */
  datatype KeyEvent = KeyEvent(button: ButtonId, state: bool)

  /** The current and previous tables, as values. */
  datatype Snapshot = Snapshot(current: seq<bool>, previous: seq<bool>)
  {
    ghost predicate Valid() {
      |current| == NUM_BUTTONS && |previous| == NUM_BUTTONS
    }

    /** "Held": the latest state written to `b`. */
    predicate Pressing(b: ButtonId): (r: bool)
      requires Valid()
      ensures Update(b, r).current == current
    {
      current[b]
    }

    /** "Just pressed": held now, and not held before the latest update. */
    predicate Pressed(b: ButtonId): (r: bool)
      requires Valid()
      ensures r ==> Pressing(b)
    {
      current[b] && !previous[b]
    }

    /** One per-button update: the current state of `b` moves into its
        previous slot, then `state` becomes its current state. */
    function Update(b: ButtonId, state: bool): (s: Snapshot)
      requires Valid()
      ensures s.Valid()
    {
      Snapshot(current[b := state], previous[b := current[b]])
    }
  }

  /** Both tables zeroed, as `kbdInit` leaves them. */
  function Cleared(): (s: Snapshot)
    ensures s.Valid()
  {
    Snapshot(seq(NUM_BUTTONS, _ => false), seq(NUM_BUTTONS, _ => false))
  }

  /** Applies a sequence of updates in order. */
  function Replay(s: Snapshot, events: seq<KeyEvent>): (r: Snapshot)
    requires s.Valid()
    ensures r.Valid()
    decreases |events|
  {
    if events == [] then s
    else
      var last := events[|events| - 1];
      Replay(s, events[..|events| - 1]).Update(last.button, last.state)
  }

  /** The states written to `b` by `events`, in order. */
  function Writes(events: seq<KeyEvent>, b: ButtonId): (w: seq<bool>)
    ensures |w| <= |events|
    decreases |events|
  {
    if events == [] then []
    else
      var last := events[|events| - 1];
      Writes(events[..|events| - 1], b) + (if last.button == b then [last.state] else [])
  }

  /** After `Cleared`, no button is held or just pressed. */
  lemma ClearedIsQuiet(b: ButtonId)
    ensures !Cleared().Pressing(b) && !Cleared().Pressed(b)
  {
  }

  /** After an update of `b` to `state`, `b` is held exactly when `state`
      is true, its previous state is its old current state, and every other
      button keeps both of its states. */
  lemma UpdateEffect(s: Snapshot, b: ButtonId, state: bool)
    requires s.Valid()
    ensures s.Update(b, state).Pressing(b) == state
    ensures s.Update(b, state).previous[b] == s.current[b]
    ensures forall c: ButtonId :: c != b ==>
      s.Update(b, state).current[c] == s.current[c] && s.Update(b, state).previous[c] == s.previous[c]
  {
  }

  /** "Just pressed" implies "held". */
  lemma PressedImpliesPressing(s: Snapshot, b: ButtonId)
    requires s.Valid()
    ensures s.Pressed(b) ==> s.Pressing(b)
  {
  }

  /** The edge rule: writing true to a button that was not held makes it
      just pressed; writing true again (key repeat) makes it not just pressed;
      writing false never leaves it just pressed. */
  lemma EdgeRule(s: Snapshot, b: ButtonId)
    requires s.Valid()
    ensures !s.Pressing(b) ==> s.Update(b, true).Pressed(b)
    ensures !s.Update(b, true).Update(b, true).Pressed(b)
    ensures !s.Update(b, false).Pressed(b)
  {
  }

  /** Only the last two states written to a button are observable: after any
      sequence of updates, the current and previous states of `b` are the
      last two entries of its history, that is of its two states before the
      sequence followed by what the sequence wrote to `b`. Everything written
      to `b` earlier, and everything written to other buttons, is lost. */
  lemma {:induction false} ReplayKeepsLastTwo(s: Snapshot, events: seq<KeyEvent>, b: ButtonId)
    requires s.Valid()
    ensures var h := [s.previous[b], s.current[b]] + Writes(events, b);
      Replay(s, events).current[b] == h[|h| - 1] && Replay(s, events).previous[b] == h[|h| - 2]
  {
    if events != [] {
      var init := events[..|events| - 1];
      var last := events[|events| - 1];
      ReplayKeepsLastTwo(s, init, b);
      var h0 := [s.previous[b], s.current[b]] + Writes(init, b);
      if last.button == b {
        assert [s.previous[b], s.current[b]] + Writes(events, b) == h0 + [last.state];
      } else {
        assert [s.previous[b], s.current[b]] + Writes(events, b) == h0;
      }
    }
  }

  /** From the zeroed tables, `b` is just pressed after a sequence of updates
      exactly when the last state written to it is true and the one before it
      (false if there is none) is false. */
  lemma PressedAfterReplay(events: seq<KeyEvent>, b: ButtonId)
    ensures var h := [false, false] + Writes(events, b);
      Replay(Cleared(), events).Pressed(b) <==> h[|h| - 1] && !h[|h| - 2]
  {
    ReplayKeepsLastTwo(Cleared(), events, b);
  }

  /** Updates that never name `b` leave both of its states as they were. */
  lemma UntouchedButtonUnchanged(s: Snapshot, events: seq<KeyEvent>, b: ButtonId)
    requires s.Valid()
    requires forall i :: 0 <= i < |events| ==> events[i].button != b
    ensures Replay(s, events).current[b] == s.current[b]
    ensures Replay(s, events).previous[b] == s.previous[b]
  {
    ReplayKeepsLastTwo(s, events, b);
    NoWritesWithoutEvents(events, b);
  }

  lemma {:induction false} NoWritesWithoutEvents(events: seq<KeyEvent>, b: ButtonId)
    requires forall i :: 0 <= i < |events| ==> events[i].button != b
    ensures Writes(events, b) == []
  {
    if events != [] {
      NoWritesWithoutEvents(events[..|events| - 1], b);
    }
  }

  /** The two `KeyboardState` tables of keyboard.cpp, updated in place. */
  class Keyboard {
    var current: array<bool>
    var previous: array<bool>

    ghost predicate Valid()
      reads this
    {
      current.Length == NUM_BUTTONS && previous.Length == NUM_BUTTONS && current != previous
    }

    /** The tables as a `Snapshot`. */
    ghost function Model(): (s: Snapshot)
      requires Valid()
      reads this, current, previous
      ensures s.Valid()
    {
      Snapshot(current[..], previous[..])
    }

    /** The static tables, zero-initialised. */
    constructor ()
      ensures Valid() && fresh(current) && fresh(previous)
      ensures Model() == Cleared()
    {
      current := new bool[NUM_BUTTONS](_ => false);
      previous := new bool[NUM_BUTTONS](_ => false);
      new;
      assert current[..] == Cleared().current;
      assert previous[..] == Cleared().previous;
    }

    /** `kbdInit`: zero both tables. */
    method Init()
      requires Valid()
      modifies current, previous
      ensures Model() == Cleared()
    {
      forall i | 0 <= i < NUM_BUTTONS {
        current[i] := false;
      }
      forall i | 0 <= i < NUM_BUTTONS {
        previous[i] := false;
      }
      assert current[..] == Cleared().current;
      assert previous[..] == Cleared().previous;
    }

    /** `kbdUpdateButton`: shift the current state of `button` into the
        previous table, then store `state`. */
    method UpdateButton(button: ButtonId, state: bool)
      requires Valid()
      modifies current, previous
      ensures Model() == old(Model()).Update(button, state)
    {
      previous[button] := current[button];
      current[button] := state;
    }

    /** `kbdPressing` */
    function Pressing(button: ButtonId): (r: bool)
      requires Valid()
      reads this, current, previous
      ensures r == Model().Pressing(button)
    {
      current[button]
    }

    /** `kbdPressed` */
    function Pressed(button: ButtonId): (r: bool)
      requires Valid()
      reads this, current, previous
      ensures r == Model().Pressed(button)
      ensures r ==> Pressing(button)
    {
      current[button] && !previous[button]
    }
  }
}
