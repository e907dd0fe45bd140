/** Vectors and matrices of the renderer.

    Floats are modelled as `real`; IEEE rounding is not modelled. A 4x4 matrix
    is kept symbolic: `Mat4` records which glm constructor built it and from
    which arguments, so two matrices are equal exactly when they were built by
    the same constructor from the same arguments. Nothing about the numeric
    entries of those matrices is assumed. */
module Geometry {

  datatype Vec2 = Vec2(x: real, y: real)

  datatype Vec3 = Vec3(x: real, y: real, z: real)

  const ZERO2: Vec2 := Vec2(0.0, 0.0)
  const ZERO3: Vec3 := Vec3(0.0, 0.0, 0.0)

  function Add(a: Vec3, b: Vec3): Vec3 {
    Vec3(a.x + b.x, a.y + b.y, a.z + b.z)
  }

  function Sub(a: Vec3, b: Vec3): Vec3 {
    Vec3(a.x - b.x, a.y - b.y, a.z - b.z)
  }

  /** The matrix glm::lookAt, glm::ortho or glm::perspective returns for these
      arguments. Only the call and its arguments are recorded: nothing is
      claimed about whether calls with different arguments give equal
      matrices. */
  datatype Mat4 =
    | LookAt(eye: Vec3, center: Vec3, up: Vec3)
    | Ortho(left: real, right: real, bottom: real, top: real, zNear: real, zFar: real)
    | Perspective(fovy: real, aspect: real, zNear: real, zFar: real)
}
