/** Box meshes: the eight corners of an axis-aligned box, flattened to vertex
    data, with a constant list of 36 indices forming its twelve triangles. */
module Construction {
  import opened Geometry

  const FLOATS_PER_VERTEX: nat := 8
  const VERTICES_COUNT: nat := 8

  datatype Vertex = Vertex(Position: Vec3, TintRgb: Vec3, TextureUv: Vec2)

  const NO_TINT_RGB: Vec3 := Vec3(1.0, 1.0, 1.0)

  /** A default vertex sits at the origin, untinted, at uv (0, 0). */
  function DefaultVertex(): (v: Vertex)
    ensures v.Position == ZERO3 && v.TintRgb == NO_TINT_RGB && v.TextureUv == ZERO2
  {
    Vertex(ZERO3, NO_TINT_RGB, ZERO2)
  }

  /** The eight floats a vertex contributes to a vertex buffer. */
  function AsVertexData(v: Vertex): (data: seq<real>)
    ensures |data| == FLOATS_PER_VERTEX
  {
    [ v.Position.x, v.Position.y, v.Position.z,
      v.TintRgb.x, v.TintRgb.y, v.TintRgb.z,
      v.TextureUv.x, v.TextureUv.y ]
  }

  /** How the vertex attribute layout reads eight floats back: position from
      0..2, tint from 3..5, uv from 6..7. */
  function FromVertexData(data: seq<real>): (v: Vertex)
    requires |data| == FLOATS_PER_VERTEX
  {
    Vertex(Vec3(data[0], data[1], data[2]), Vec3(data[3], data[4], data[5]), Vec2(data[6], data[7]))
  }

  /** Reading a vertex's data back through the attribute layout gives the
      vertex: position, tint and uv are laid out in that order. */
  lemma VertexDataRoundTrip(v: Vertex)
    ensures FromVertexData(AsVertexData(v)) == v
  {
  }

  /** Flattens the vertices, in order, to FLOATS_PER_VERTEX floats each. */
  method VerticesToVertexData(vertices: seq<Vertex>) returns (result: seq<real>)
    ensures |result| == FLOATS_PER_VERTEX * |vertices|
    ensures forall k :: 0 <= k < |vertices| ==>
      result[FLOATS_PER_VERTEX * k .. FLOATS_PER_VERTEX * k + FLOATS_PER_VERTEX] == AsVertexData(vertices[k])
    ensures forall k :: 0 <= k < |vertices| ==>
      FromVertexData(result[FLOATS_PER_VERTEX * k .. FLOATS_PER_VERTEX * k + FLOATS_PER_VERTEX]) == vertices[k]
  {
    result := [];
    for i := 0 to |vertices|
      invariant |result| == FLOATS_PER_VERTEX * i
      invariant forall k :: 0 <= k < i ==>
        result[FLOATS_PER_VERTEX * k .. FLOATS_PER_VERTEX * k + FLOATS_PER_VERTEX] == AsVertexData(vertices[k])
    {
      var vertexData := AsVertexData(vertices[i]);
      ghost var before := result;
      result := result + vertexData;
      forall k | 0 <= k < i
        ensures result[FLOATS_PER_VERTEX * k .. FLOATS_PER_VERTEX * k + FLOATS_PER_VERTEX] == AsVertexData(vertices[k])
      {
        assert result[FLOATS_PER_VERTEX * k .. FLOATS_PER_VERTEX * k + FLOATS_PER_VERTEX]
            == before[FLOATS_PER_VERTEX * k .. FLOATS_PER_VERTEX * k + FLOATS_PER_VERTEX];
      }
      assert result[FLOATS_PER_VERTEX * i .. FLOATS_PER_VERTEX * i + FLOATS_PER_VERTEX] == vertexData;
    }
    forall k | 0 <= k < |vertices|
      ensures FromVertexData(result[FLOATS_PER_VERTEX * k .. FLOATS_PER_VERTEX * k + FLOATS_PER_VERTEX]) == vertices[k]
    {
      VertexDataRoundTrip(vertices[k]);
    }
  }

  /** Whether corner `i` takes its coordinate on `axis` (0 = x, 1 = y, 2 = z)
      from the minimum: exactly when bit `axis` of `i` is clear. */
  predicate UseMin(i: nat, axis: nat)
    requires i < VERTICES_COUNT && axis < 3
  {
    (i as bv8) & (1 << axis) == 0
  }

  /** The bits of the eight corner indices. */
  lemma CornerBits()
    ensures UseMin(0, 0) && UseMin(0, 1) && UseMin(0, 2)
    ensures !UseMin(1, 0) && UseMin(1, 1) && UseMin(1, 2)
    ensures UseMin(2, 0) && !UseMin(2, 1) && UseMin(2, 2)
    ensures !UseMin(3, 0) && !UseMin(3, 1) && UseMin(3, 2)
    ensures UseMin(4, 0) && UseMin(4, 1) && !UseMin(4, 2)
    ensures !UseMin(5, 0) && UseMin(5, 1) && !UseMin(5, 2)
    ensures UseMin(6, 0) && !UseMin(6, 1) && !UseMin(6, 2)
    ensures !UseMin(7, 0) && !UseMin(7, 1) && !UseMin(7, 2)
  {
  }

  /** The corner that takes the minimum on exactly the axes marked. */
  function CornerIndex(minX: bool, minY: bool, minZ: bool): (i: nat)
    ensures i < VERTICES_COUNT
  {
    (if minX then 0 else 1) + (if minY then 0 else 2) + (if minZ then 0 else 4)
  }

  /** Vertex indices and choices of a minimum or maximum per axis are in
      one-to-one correspondence: the eight vertices are the eight corners. */
  lemma CornerIndexBijection()
    ensures forall i :: 0 <= i < VERTICES_COUNT ==>
      CornerIndex(UseMin(i, 0), UseMin(i, 1), UseMin(i, 2)) == i
    ensures forall minX, minY, minZ ::
      var i := CornerIndex(minX, minY, minZ);
      UseMin(i, 0) == minX && UseMin(i, 1) == minY && UseMin(i, 2) == minZ
  {
    CornerBits();
  }

  function Select(useMin: bool, min: real, max: real): real {
    if useMin then min else max
  }

  function Bit(useMin: bool): real {
    if useMin then 0.0 else 1.0
  }

  /** Vertex `i` of the box spanned by `minCoords` and `maxCoords`, as the
      vertex loop of CreateAabbMesh leaves it. */
  function BoxCorner(minCoords: Vec3, maxCoords: Vec3, mustUseAxisTint: bool, i: nat): (v: Vertex)
    requires i < VERTICES_COUNT
  {
    var useMinX := UseMin(i, 0);
    var useMinY := UseMin(i, 1);
    var useMinZ := UseMin(i, 2);
    Vertex(
      Vec3(Select(useMinX, minCoords.x, maxCoords.x),
           Select(useMinY, minCoords.y, maxCoords.y),
           Select(useMinZ, minCoords.z, maxCoords.z)),
      if mustUseAxisTint then Vec3(Bit(useMinX), Bit(useMinY), Bit(useMinZ)) else NO_TINT_RGB,
      Vec2(Bit(useMinX), Bit(useMinY)))
  }

  /** In a box with extent on every axis, the eight vertices sit at eight
      distinct corners, and each choice of minimum or maximum per axis is the
      position of the vertex CornerIndex names. */
  lemma {:induction false} BoxCornersAreDistinct(minCoords: Vec3, maxCoords: Vec3, mustUseAxisTint: bool)
    requires minCoords.x != maxCoords.x && minCoords.y != maxCoords.y && minCoords.z != maxCoords.z
    ensures forall i, j :: 0 <= i < j < VERTICES_COUNT ==>
      BoxCorner(minCoords, maxCoords, mustUseAxisTint, i).Position
      != BoxCorner(minCoords, maxCoords, mustUseAxisTint, j).Position
    ensures forall minX, minY, minZ ::
      BoxCorner(minCoords, maxCoords, mustUseAxisTint, CornerIndex(minX, minY, minZ)).Position
      == Vec3(Select(minX, minCoords.x, maxCoords.x), Select(minY, minCoords.y, maxCoords.y), Select(minZ, minCoords.z, maxCoords.z))
  {
    CornerIndexBijection();
    forall i, j | 0 <= i < j < VERTICES_COUNT
      ensures BoxCorner(minCoords, maxCoords, mustUseAxisTint, i).Position
           != BoxCorner(minCoords, maxCoords, mustUseAxisTint, j).Position
    {
      assert CornerIndex(UseMin(i, 0), UseMin(i, 1), UseMin(i, 2)) != CornerIndex(UseMin(j, 0), UseMin(j, 1), UseMin(j, 2));
    }
  }

  /** With axis tint, each tint component is 0 on the minimum side of its axis
      and 1 on the maximum side; without it the vertex is untinted. The uv is
      the x and y choice the same way. */
  lemma TintAndUvFollowCornerBits(minCoords: Vec3, maxCoords: Vec3, mustUseAxisTint: bool, i: nat)
    requires i < VERTICES_COUNT
    ensures var v := BoxCorner(minCoords, maxCoords, mustUseAxisTint, i);
      && (mustUseAxisTint ==>
            && (v.TintRgb.x == 0.0 <==> UseMin(i, 0)) && (v.TintRgb.x == 1.0 <==> !UseMin(i, 0))
            && (v.TintRgb.y == 0.0 <==> UseMin(i, 1)) && (v.TintRgb.y == 1.0 <==> !UseMin(i, 1))
            && (v.TintRgb.z == 0.0 <==> UseMin(i, 2)) && (v.TintRgb.z == 1.0 <==> !UseMin(i, 2)))
      && (!mustUseAxisTint ==> v.TintRgb == NO_TINT_RGB)
      && (v.TextureUv.x == 0.0 <==> UseMin(i, 0)) && (v.TextureUv.x == 1.0 <==> !UseMin(i, 0))
      && (v.TextureUv.y == 0.0 <==> UseMin(i, 1)) && (v.TextureUv.y == 1.0 <==> !UseMin(i, 1))
  {
  }

  /** Twelve triangles, two per face of the box. */
  const AABB_INDICES: seq<nat> := [
    0, 1, 3,
    0, 2, 3,
    4, 5, 7,
    4, 6, 7,
    2, 3, 7,
    2, 6, 7,
    0, 1, 5,
    0, 4, 5,
    0, 2, 6,
    0, 4, 6,
    1, 3, 7,
    1, 5, 7
  ]

  /** The face each consecutive pair of triangles covers, as the axis and
      whether it is the minimum side. */
  const AABB_FACES: seq<(nat, bool)> := [(2, true), (2, false), (1, false), (1, true), (0, true), (0, false)]

  /** The six indices of triangles 2f and 2f+1. */
  function FaceTriangles(f: nat): (indices: seq<nat>)
    requires f < 6
    ensures |indices| == 6
  {
    AABB_INDICES[6 * f .. 6 * f + 6]
  }

  lemma FaceTrianglesAre(f: nat, indices: seq<nat>)
    requires f < 6 && |indices| == 6
    requires forall k :: 0 <= k < 6 ==> AABB_INDICES[6 * f + k] == indices[k]
    ensures FaceTriangles(f) == indices
  {
  }

  /** The corners triangles 2f and 2f+1 use. */
  function TriangleCorners(f: nat): set<nat>
    requires f < 6
  {
    var t := FaceTriangles(f);
    {t[0], t[1], t[2], t[3], t[4], t[5]}
  }

  /** There are 36 indices, each naming one of the eight vertices. */
  lemma IndicesNameVertices()
    ensures |AABB_INDICES| == 36
    ensures forall k :: 0 <= k < |AABB_INDICES| ==> AABB_INDICES[k] < VERTICES_COUNT
  {
  }

  /** The six indices of triangle pair `f`, written out. */
  function FaceTrianglesLiteral(f: nat): (indices: seq<nat>)
    requires f < 6
    ensures FaceTriangles(f) == indices
  {
    var indices: seq<nat> :=
      if f == 0 then [0, 1, 3, 0, 2, 3]
      else if f == 1 then [4, 5, 7, 4, 6, 7]
      else if f == 2 then [2, 3, 7, 2, 6, 7]
      else if f == 3 then [0, 1, 5, 0, 4, 5]
      else if f == 4 then [0, 2, 6, 0, 4, 6]
      else [1, 3, 7, 1, 5, 7];
    FaceTrianglesAre(f, indices);
    indices
  }

  /** Triangles 2f and 2f+1 both lie on face f: all six of their indices are
      corners on the same side of the same axis. */
  lemma TrianglePairLiesOnFace(f: nat)
    requires f < 6
    ensures AABB_FACES[f].0 < 3
    ensures forall k :: 0 <= k < 6 ==>
      FaceTriangles(f)[k] < VERTICES_COUNT && UseMin(FaceTriangles(f)[k], AABB_FACES[f].0) == AABB_FACES[f].1
  {
    var indices := FaceTrianglesLiteral(f);
    CornerBits();
    if f == 0 {
      assert indices == [0, 1, 3, 0, 2, 3] && AABB_FACES[f] == (2, true);
    } else if f == 1 {
      assert indices == [4, 5, 7, 4, 6, 7] && AABB_FACES[f] == (2, false);
    } else if f == 2 {
      assert indices == [2, 3, 7, 2, 6, 7] && AABB_FACES[f] == (1, false);
    } else if f == 3 {
      assert indices == [0, 1, 5, 0, 4, 5] && AABB_FACES[f] == (1, true);
    } else if f == 4 {
      assert AABB_FACES[f] == (0, true);
    } else {
      assert AABB_FACES[f] == (0, false);
    }
  }

  /** Triangles 2f and 2f+1 together use four distinct corners, so they are
      the two halves of one quadrilateral face. */
  lemma TrianglePairUsesFourCorners(f: nat)
    requires f < 6
    ensures |TriangleCorners(f)| == 4
  {
    var indices := FaceTrianglesLiteral(f);
    if f == 0 {
      assert TriangleCorners(f) == {0, 1, 2, 3};
    } else if f == 1 {
      assert TriangleCorners(f) == {4, 5, 6, 7};
    } else if f == 2 {
      assert TriangleCorners(f) == {2, 3, 6, 7};
    } else if f == 3 {
      assert TriangleCorners(f) == {0, 1, 4, 5};
    } else if f == 4 {
      assert TriangleCorners(f) == {0, 2, 4, 6};
    } else {
      assert TriangleCorners(f) == {1, 3, 5, 7};
    }
  }

  /** The six triangle pairs lie on six different faces, so every side of the
      box is covered. */
  lemma FacesAreTheSixSides()
    ensures |AABB_FACES| == 6 && |AABB_INDICES| == 6 * 6
    ensures forall f, g :: 0 <= f < g < 6 ==> AABB_FACES[f] != AABB_FACES[g]
    ensures forall axis: nat, useMin: bool :: axis < 3 ==> (axis, useMin) in AABB_FACES
  {
  }

  /** The parts of MeshData the model keeps; the vertex array object is a GL
      handle and is not part of this model. */
  datatype MeshData = MeshData(IndicesCount: int, IsIndexed: bool)

  /** The GL draw call Mesh::Render issues for mesh data. */
  datatype DrawCall =
    | DrawElements(count: int)
    | DrawArrays(first: int, count: int)

  function RenderDrawCall(data: MeshData): (call: DrawCall)
    ensures call.DrawElements? <==> data.IsIndexed
    ensures call.count == data.IndicesCount
    ensures call.DrawArrays? ==> call.first == 0
  {
    if data.IsIndexed then DrawElements(data.IndicesCount) else DrawArrays(0, data.IndicesCount)
  }

  /** The vertices a draw call reads from the vertex buffer, in order: those
      the index buffer names, or a run of consecutive ones. */
  function VerticesRead(call: DrawCall, indices: seq<nat>): (read: seq<int>)
    requires 0 <= call.count
    requires call.DrawElements? ==> call.count <= |indices|
    ensures |read| == call.count
    ensures call.DrawElements? ==> forall k :: 0 <= k < call.count ==> read[k] == indices[k]
    ensures call.DrawArrays? ==> forall k :: 0 <= k < call.count ==> read[k] == call.first + k
  {
    if call.DrawElements? then seq(call.count, k requires 0 <= k < call.count => indices[k] as int)
    else seq(call.count, k => call.first + k)
  }

  /** The mesh data CreateAabbMesh returns as written: the aggregate
      initialisation names only the VAO and the index count, so IsIndexed is
      value-initialised to false. */
  function AabbMeshDataAsWritten(indices: seq<nat>): (data: MeshData)
    ensures data.IndicesCount == |indices| && !data.IsIndexed
  {
    MeshData(|indices|, false)
  }

  /** As written, rendering a box mesh draws 36 consecutive vertices from a
      buffer of 8, so it reads vertices that do not exist and ignores the
      index buffer. */
  lemma AsWrittenBoxMeshReadsMissingVertices()
    ensures var call := RenderDrawCall(AabbMeshDataAsWritten(AABB_INDICES));
      call.DrawArrays? && VerticesRead(call, AABB_INDICES)[8] == 8 && VerticesRead(call, AABB_INDICES)[35] == 35
  {
  }

  /** The mesh data the index buffer calls for: indexed drawing of all the
      indices. */
  function AabbMeshData(indices: seq<nat>): (data: MeshData)
    ensures data.IndicesCount == |indices| && data.IsIndexed
  {
    MeshData(|indices|, true)
  }

  /** Rendering the corrected box mesh reads only the eight box vertices. */
  lemma BoxMeshReadsOnlyItsVertices()
    ensures var call := RenderDrawCall(AabbMeshData(AABB_INDICES));
      && call.DrawElements? && |VerticesRead(call, AABB_INDICES)| == 36
      && forall k :: 0 <= k < 36 ==> 0 <= VerticesRead(call, AABB_INDICES)[k] < VERTICES_COUNT
  {
    IndicesNameVertices();
  }

  /** Builds the box's vertices in place, then the index list and the mesh
      data as written, which is not marked indexed. Uploading them into a VAO
      is a sequence of GL calls and is not part of this model. */
  method CreateAabbMesh(minCoords: Vec3, maxCoords: Vec3, mustUseAxisTint: bool)
    returns (vertices: seq<Vertex>, indices: seq<nat>, data: MeshData)
    ensures |vertices| == VERTICES_COUNT
    ensures forall i :: 0 <= i < VERTICES_COUNT ==> vertices[i] == BoxCorner(minCoords, maxCoords, mustUseAxisTint, i)
    ensures indices == AABB_INDICES
    ensures data == AabbMeshDataAsWritten(indices) && data.IndicesCount == 36 && !data.IsIndexed
  {
    var buffer := new Vertex[VERTICES_COUNT](_ => DefaultVertex());
    for i := 0 to VERTICES_COUNT
      invariant forall j :: 0 <= j < i ==> buffer[j] == BoxCorner(minCoords, maxCoords, mustUseAxisTint, j)
      invariant forall j :: i <= j < VERTICES_COUNT ==> buffer[j] == DefaultVertex()
    {
      var useMinX := UseMin(i, 0);
      var useMinY := UseMin(i, 1);
      var useMinZ := UseMin(i, 2);
      var vertex := buffer[i];
      vertex := vertex.(Position := Vec3(
        Select(useMinX, minCoords.x, maxCoords.x),
        Select(useMinY, minCoords.y, maxCoords.y),
        Select(useMinZ, minCoords.z, maxCoords.z)));
      if mustUseAxisTint {
        vertex := vertex.(TintRgb := Vec3(Bit(useMinX), Bit(useMinY), Bit(useMinZ)));
      }
      vertex := vertex.(TextureUv := Vec2(Bit(useMinX), Bit(useMinY)));
      buffer[i] := vertex;
    }
    vertices := buffer[..];
    indices := AABB_INDICES;
    data := AabbMeshDataAsWritten(indices);
  }

  /** The arguments CreateUnitCubeMesh passes to the five-parameter
      CreateAabbMesh declared beside it. */
  datatype AabbMeshRequest = AabbMeshRequest(
    mustUseIndices: bool, minCoords: Vec3, maxCoords: Vec3, mustUseAxisTint: bool, mustUseSmoothShading: bool)

  const CENTERED_ORIGIN_OFFSET: Vec3 := Vec3(-0.5, -0.5, -0.5)

  /** A unit cube from the origin, or centred on it: the flags pass through
      unchanged, and the box always has extent 1 on every axis. */
  function CreateUnitCubeMesh(mustUseIndices: bool, isOriginCentered: bool, mustUseAxisTint: bool, mustUseSmoothShading: bool)
    : (request: AabbMeshRequest)
    ensures request.mustUseIndices == mustUseIndices
    ensures request.mustUseAxisTint == mustUseAxisTint
    ensures request.mustUseSmoothShading == mustUseSmoothShading
    ensures isOriginCentered ==> request.minCoords == Vec3(-0.5, -0.5, -0.5) && request.maxCoords == Vec3(0.5, 0.5, 0.5)
    ensures !isOriginCentered ==> request.minCoords == ZERO3 && request.maxCoords == Vec3(1.0, 1.0, 1.0)
    ensures Sub(request.maxCoords, request.minCoords) == Vec3(1.0, 1.0, 1.0)
  {
    var actualOffset := if isOriginCentered then CENTERED_ORIGIN_OFFSET else ZERO3;
    AabbMeshRequest(
      mustUseIndices,
      Add(ZERO3, actualOffset),
      Add(Vec3(1.0, 1.0, 1.0), actualOffset),
      mustUseAxisTint,
      mustUseSmoothShading)
  }
}
