/** The projection settings of a camera and the projection matrix built from them. */
module Projections {
  import opened Geometry

  datatype Projection =
    | OrthographicProjection(Width: real, Height: real, NearPlane: real, FarPlane: real)
    | PerspectiveProjection(VerticalFov: real, AspectRatio: real, NearPlane: real, FarPlane: real)

  /** The orthographic branch builds a box symmetric about the view axis, half the
      width and half the height to either side; the perspective branch passes its
      four parameters through in order. */
  function CreateMatrixFromProjection(projection: Projection): (m: Mat4)
    ensures projection.OrthographicProjection? <==> m.Ortho?
    ensures m.Ortho? ==>
      && m.left == -m.right && m.bottom == -m.top
      && m.right - m.left == projection.Width
      && m.top - m.bottom == projection.Height
      && m.zNear == projection.NearPlane && m.zFar == projection.FarPlane
    ensures m.Perspective? ==>
      m == Perspective(projection.VerticalFov, projection.AspectRatio, projection.NearPlane, projection.FarPlane)
  {
    match projection
    case OrthographicProjection(width, height, near, far) =>
      var halfWidth := 0.5 * width;
      var halfHeight := 0.5 * height;
      Ortho(-halfWidth, halfWidth, -halfHeight, halfHeight, near, far)
    case PerspectiveProjection(fov, aspect, near, far) =>
      Perspective(fov, aspect, near, far)
  }
}
