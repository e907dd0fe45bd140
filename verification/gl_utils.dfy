/** Naming GL error codes and choosing the next polygon mode. */
module GlUtils {

  // Error codes of section 2.5 (GL Errors) of the OpenGL 3.3 Core Profile
  // specification, with the two stack errors OpenGL 4.0 headers also define.
  const GL_NO_ERROR: int := 0
  const GL_INVALID_ENUM: int := 0x0500
  const GL_INVALID_VALUE: int := 0x0501
  const GL_INVALID_OPERATION: int := 0x0502
  const GL_STACK_OVERFLOW: int := 0x0503
  const GL_STACK_UNDERFLOW: int := 0x0504
  const GL_OUT_OF_MEMORY: int := 0x0505
  const GL_INVALID_FRAMEBUFFER_OPERATION: int := 0x0506

  const UNRECOGNIZED: string := "<UNRECOGNIZED>"

  /** The codes GlErrorToCStr names; the stack errors only when the GL loader
      was generated for OpenGL 4.0 (`hasGl40`). */
  predicate IsRecognizedGlError(error: int, hasGl40: bool)
  {
    || error == GL_NO_ERROR || error == GL_INVALID_ENUM || error == GL_INVALID_VALUE
    || error == GL_INVALID_OPERATION || error == GL_OUT_OF_MEMORY || error == GL_INVALID_FRAMEBUFFER_OPERATION
    || (hasGl40 && (error == GL_STACK_OVERFLOW || error == GL_STACK_UNDERFLOW))
  }

  /** The name of a GL error code. An unrecognised code is a failed assertion
      in a debug build; this model returns "<UNRECOGNIZED>", as a release
      build does. */
  function GlErrorToCStr(error: int, hasGl40: bool): (name: string)
    ensures name != UNRECOGNIZED <==> IsRecognizedGlError(error, hasGl40)
    ensures error == GL_NO_ERROR ==> name == "GL_NO_ERROR"
    ensures error == GL_INVALID_ENUM ==> name == "GL_INVALID_ENUM"
    ensures error == GL_INVALID_VALUE ==> name == "GL_INVALID_VALUE"
    ensures error == GL_INVALID_OPERATION ==> name == "GL_INVALID_OPERATION"
    ensures error == GL_OUT_OF_MEMORY ==> name == "GL_OUT_OF_MEMORY"
    ensures error == GL_INVALID_FRAMEBUFFER_OPERATION ==> name == "GL_INVALID_FRAMEBUFFER_OPERATION"
    ensures hasGl40 && error == GL_STACK_OVERFLOW ==> name == "GL_STACK_OVERFLOW"
    ensures hasGl40 && error == GL_STACK_UNDERFLOW ==> name == "GL_STACK_UNDERFLOW"
  {
    if error == GL_NO_ERROR then "GL_NO_ERROR"
    else if error == GL_INVALID_ENUM then "GL_INVALID_ENUM"
    else if error == GL_INVALID_VALUE then "GL_INVALID_VALUE"
    else if error == GL_INVALID_OPERATION then "GL_INVALID_OPERATION"
    else if hasGl40 && error == GL_STACK_OVERFLOW then "GL_STACK_OVERFLOW"
    else if hasGl40 && error == GL_STACK_UNDERFLOW then "GL_STACK_UNDERFLOW"
    else if error == GL_OUT_OF_MEMORY then "GL_OUT_OF_MEMORY"
    else if error == GL_INVALID_FRAMEBUFFER_OPERATION then "GL_INVALID_FRAMEBUFFER_OPERATION"
    else UNRECOGNIZED
  }

  /** A name identifies its code: no two recognised codes share a name. */
  lemma GlErrorNamesAreDistinct(error1: int, error2: int, hasGl40: bool)
    requires IsRecognizedGlError(error1, hasGl40) && IsRecognizedGlError(error2, hasGl40)
    requires GlErrorToCStr(error1, hasGl40) == GlErrorToCStr(error2, hasGl40)
    ensures error1 == error2
  {
  }

  /** The stack errors are named only when the loader provides them; every
      other code is named the same either way. */
  lemma StackErrorsNeedGl40(error: int)
    ensures (error == GL_STACK_OVERFLOW || error == GL_STACK_UNDERFLOW) ==>
      GlErrorToCStr(error, false) == UNRECOGNIZED && GlErrorToCStr(error, true) != UNRECOGNIZED
    ensures !(error == GL_STACK_OVERFLOW || error == GL_STACK_UNDERFLOW) ==>
      GlErrorToCStr(error, false) == GlErrorToCStr(error, true)
  {
  }

  const GL_POINT: int := 0x1B00
  const GL_LINE: int := 0x1B01
  const GL_FILL: int := 0x1B02

  /** The mode TogglePolygonMode sets for both faces: fill after line, and
      line after anything else. */
  function NextPolygonMode(frontFaceMode: int): (mode: int)
    ensures mode == GL_FILL <==> frontFaceMode == GL_LINE
    ensures mode == GL_LINE <==> frontFaceMode != GL_LINE
  {
    if frontFaceMode == GL_LINE then GL_FILL else GL_LINE
  }

  /** Toggling twice from line or fill mode returns to it. */
  lemma ToggleTwice(mode: int)
    requires mode == GL_LINE || mode == GL_FILL
    ensures NextPolygonMode(NextPolygonMode(mode)) == mode
  {
  }

  /** TogglePolygonMode: GL reports up to two modes into a two-slot array
      preset to -1; `reported` is what GL writes, and a slot it leaves alone
      keeps -1. A debug build asserts that
      two reported modes agree; as in a release build, the model goes on with
      the front-face mode either way. Returns the mode passed to
      glPolygonMode. */
  method TogglePolygonMode(reported: seq<int>) returns (mode: int)
    requires |reported| <= 2
    ensures mode == NextPolygonMode(if |reported| == 0 then -1 else reported[0])
    ensures |reported| == 0 ==> mode == GL_LINE
    ensures mode == GL_FILL || mode == GL_LINE
  {
    var polygonMode := new int[2](_ => -1);
    if |reported| >= 1 {
      polygonMode[0] := reported[0];
    }
    if |reported| == 2 {
      polygonMode[1] := reported[1];
    }
    var frontFaceMode := polygonMode[0];
    mode := if frontFaceMode == GL_LINE then GL_FILL else GL_LINE;
  }
}
