/** Mouse buttons as bit flags, and the mouse state that records which are held. */
module Mouse {
  import Wrappers
  import opened Geometry

  /** The underlying type of the MouseButton enumeration: one byte of flags. */
  type MouseButton = bv8

  const NONE: MouseButton := 0x00
  const LEFT: MouseButton := 0x01
  const RIGHT: MouseButton := 0x02
  const MIDDLE: MouseButton := 0x04
  const UNKNOWN: MouseButton := 0x08
  const ANY: MouseButton := 0xFF

  /** The four named buttons, each a single bit. */
  predicate IsSingleButton(b: MouseButton)
  {
    b == LEFT || b == RIGHT || b == MIDDLE || b == UNKNOWN
  }

  /** Whether the query's bits meet the pressed set: no query is satisfied by
      NONE, and ANY is satisfied exactly when something is pressed. */
  function IsPressed(pressed: MouseButton, query: MouseButton): (r: bool)
    ensures query == NONE ==> !r
    ensures query == ANY ==> (r <==> pressed != NONE)
    ensures IsSingleButton(query) ==> (r <==> pressed & query == query)
  {
    query & pressed != 0
  }

  /** The flags after marking `button` pressed (bitwise or) or released (and
      with the complement). */
  function WithButton(pressed: MouseButton, button: MouseButton, isPressed: bool): (r: MouseButton)
    ensures isPressed && button != NONE ==> IsPressed(r, button)
    ensures !isPressed ==> !IsPressed(r, button)
    ensures !isPressed && button == ANY ==> r == NONE
  {
    if isPressed then pressed | button else pressed & !button
  }

  /** Setting a button the same way twice is the same as once. */
  lemma WithButtonIdempotent(pressed: MouseButton, button: MouseButton, isPressed: bool)
    ensures WithButton(WithButton(pressed, button, isPressed), button, isPressed) == WithButton(pressed, button, isPressed)
  {
  }

  /** Pressing or releasing one named button leaves every other named button as it was. */
  lemma OtherButtonsUnchanged(pressed: MouseButton, button: MouseButton, other: MouseButton, isPressed: bool)
    requires IsSingleButton(button) && IsSingleButton(other) && button != other
    ensures IsPressed(WithButton(pressed, button, isPressed), other) == IsPressed(pressed, other)
  {
  }

  class MouseState {
    var CursorPosition: Vec2
    var CursorPositionDelta: Wrappers.Option<Vec2>
    var PressedMouseButtons: MouseButton

    /** The cursor at the origin, no delta yet, nothing pressed. */
    constructor ()
      ensures CursorPosition == ZERO2
      ensures CursorPositionDelta == Wrappers.None
      ensures PressedMouseButtons == NONE
      ensures forall b: MouseButton :: !IsMouseButtonPressed(b)
    {
      CursorPosition := ZERO2;
      CursorPositionDelta := Wrappers.None;
      PressedMouseButtons := NONE;
    }

    function IsMouseButtonPressed(button: MouseButton): bool
      reads this
    {
      IsPressed(PressedMouseButtons, button)
    }

    /** Rewrites the flags only; the cursor position and delta are untouched. */
    method SetMouseButtonPressed(button: MouseButton, isPressed: bool)
      modifies this`PressedMouseButtons
      ensures PressedMouseButtons == WithButton(old(PressedMouseButtons), button, isPressed)
      ensures isPressed && button != NONE ==> IsMouseButtonPressed(button)
      ensures !isPressed ==> !IsMouseButtonPressed(button)
    {
      if isPressed {
        PressedMouseButtons := PressedMouseButtons | button;
      } else {
        PressedMouseButtons := PressedMouseButtons & !button;
      }
    }
  }
}
