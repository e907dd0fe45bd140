/** Keys of the abstract input layer and their translation from GLFW key codes. */
module KeyMapping {

  /** The keys the translation table knows, plus the fallback. */
  datatype Key = Escape | Z | W | S | A | D | Up | Down | Left | Right | Unknown

  // GLFW key codes (GLFW 3 `GLFW_KEY_*` values).
  const GLFW_KEY_A: int := 65
  const GLFW_KEY_D: int := 68
  const GLFW_KEY_S: int := 83
  const GLFW_KEY_W: int := 87
  const GLFW_KEY_Z: int := 90
  const GLFW_KEY_ESCAPE: int := 256
  const GLFW_KEY_RIGHT: int := 262
  const GLFW_KEY_LEFT: int := 263
  const GLFW_KEY_DOWN: int := 264
  const GLFW_KEY_UP: int := 265

  const KEY_FROM_GLFW: map<int, Key> := map[
    GLFW_KEY_ESCAPE := Escape,
    GLFW_KEY_Z      := Z,
    GLFW_KEY_W      := W,
    GLFW_KEY_S      := S,
    GLFW_KEY_A      := A,
    GLFW_KEY_D      := D,
    GLFW_KEY_UP     := Up,
    GLFW_KEY_DOWN   := Down,
    GLFW_KEY_LEFT   := Left,
    GLFW_KEY_RIGHT  := Right
  ]

  /** A total lookup: a code of the table gives its key, every other code gives
      Unknown, and no code of the table gives Unknown. */
  function KeyFromGlfw(glfwKey: int): (key: Key)
    ensures key != Unknown <==> glfwKey in KEY_FROM_GLFW
    ensures glfwKey in KEY_FROM_GLFW ==> key == KEY_FROM_GLFW[glfwKey]
  {
    if glfwKey in KEY_FROM_GLFW then KEY_FROM_GLFW[glfwKey] else Unknown
  }

  /** The table names the ten keys under their GLFW codes. */
  lemma TableEntries()
    ensures KEY_FROM_GLFW.Keys == {
      GLFW_KEY_ESCAPE, GLFW_KEY_Z, GLFW_KEY_W, GLFW_KEY_S, GLFW_KEY_A,
      GLFW_KEY_D, GLFW_KEY_UP, GLFW_KEY_DOWN, GLFW_KEY_LEFT, GLFW_KEY_RIGHT }
    ensures KeyFromGlfw(GLFW_KEY_ESCAPE) == Escape
    ensures KeyFromGlfw(GLFW_KEY_Z) == Z && KeyFromGlfw(GLFW_KEY_W) == W
    ensures KeyFromGlfw(GLFW_KEY_S) == S && KeyFromGlfw(GLFW_KEY_A) == A
    ensures KeyFromGlfw(GLFW_KEY_D) == D
    ensures KeyFromGlfw(GLFW_KEY_UP) == Up && KeyFromGlfw(GLFW_KEY_DOWN) == Down
    ensures KeyFromGlfw(GLFW_KEY_LEFT) == Left && KeyFromGlfw(GLFW_KEY_RIGHT) == Right
  {
  }

  /** Two different codes of the table never give the same key. */
  lemma KeyFromGlfwInjectiveOnTable(c1: int, c2: int)
    requires c1 in KEY_FROM_GLFW && c2 in KEY_FROM_GLFW && c1 != c2
    ensures KeyFromGlfw(c1) != KeyFromGlfw(c2)
  {
    TableEntries();
  }

  /** Every key other than Unknown is the image of some GLFW code of the table
      (of exactly one, by KeyFromGlfwInjectiveOnTable). */
  lemma EveryKnownKeyHasACode(key: Key)
    requires key != Unknown
    ensures exists c :: c in KEY_FROM_GLFW && KeyFromGlfw(c) == key
  {
    TableEntries();
    match key
    case Escape => assert KeyFromGlfw(GLFW_KEY_ESCAPE) == key;
    case Z => assert KeyFromGlfw(GLFW_KEY_Z) == key;
    case W => assert KeyFromGlfw(GLFW_KEY_W) == key;
    case S => assert KeyFromGlfw(GLFW_KEY_S) == key;
    case A => assert KeyFromGlfw(GLFW_KEY_A) == key;
    case D => assert KeyFromGlfw(GLFW_KEY_D) == key;
    case Up => assert KeyFromGlfw(GLFW_KEY_UP) == key;
    case Down => assert KeyFromGlfw(GLFW_KEY_DOWN) == key;
    case Left => assert KeyFromGlfw(GLFW_KEY_LEFT) == key;
    case Right => assert KeyFromGlfw(GLFW_KEY_RIGHT) == key;
  }
}
