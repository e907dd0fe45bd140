/** Translation of GLFW mouse button codes into MouseButton flags. */
module MouseButtonMapping {
  import opened Mouse

  // GLFW mouse button codes (GLFW 3 `GLFW_MOUSE_BUTTON_*` values).
  const GLFW_MOUSE_BUTTON_LEFT: int := 0
  const GLFW_MOUSE_BUTTON_RIGHT: int := 1
  const GLFW_MOUSE_BUTTON_MIDDLE: int := 2

  const MOUSE_BUTTON_FROM_GLFW: map<int, MouseButton> := map[
    GLFW_MOUSE_BUTTON_LEFT   := LEFT,
    GLFW_MOUSE_BUTTON_RIGHT  := RIGHT,
    GLFW_MOUSE_BUTTON_MIDDLE := MIDDLE
  ]

  /** A total lookup with UNKNOWN as the fallback; the result is always exactly
      one named button, never NONE or ANY. */
  function MouseButtonFromGlfw(glfwMouseButton: int): (button: MouseButton)
    ensures IsSingleButton(button)
    ensures button != NONE && button != ANY
    ensures button == UNKNOWN <==> glfwMouseButton !in MOUSE_BUTTON_FROM_GLFW
  {
    if glfwMouseButton in MOUSE_BUTTON_FROM_GLFW then MOUSE_BUTTON_FROM_GLFW[glfwMouseButton] else UNKNOWN
  }

  /** The three GLFW codes give three different buttons, Left, Right and Middle. */
  lemma TableEntries()
    ensures MouseButtonFromGlfw(GLFW_MOUSE_BUTTON_LEFT) == LEFT
    ensures MouseButtonFromGlfw(GLFW_MOUSE_BUTTON_RIGHT) == RIGHT
    ensures MouseButtonFromGlfw(GLFW_MOUSE_BUTTON_MIDDLE) == MIDDLE
    ensures forall c1, c2 :: c1 in MOUSE_BUTTON_FROM_GLFW && c2 in MOUSE_BUTTON_FROM_GLFW && c1 != c2 ==>
      MouseButtonFromGlfw(c1) != MouseButtonFromGlfw(c2)
  {
  }
}
