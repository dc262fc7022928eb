/** The render side of the soft-body demo: turning soft bodies into the per-vertex attributes the
    vertex buffer receives, and the last phase of the solver step, which moves every vertex by its
    velocity and keeps it inside the box [-2, 2]^3 by reflecting the velocity at the walls. */
module SoftBodyRender {
  import opened Glm
  import opened CppInt
  import opened ObjParse
  import opened ObjLoader

  /** One vertex as the vertex buffer receives it. */
  datatype RenderAttribute = RenderAttribute(vertex: Vec3, normal: Vec3, texCoord: Vec2)

  /** One corner of the built-in cube: the index of a cube vertex and its texture coordinate. */
  datatype MeshData = MeshData(index: nat, texCoord: Vec2)

  /** A soft body kept as its own vertex positions and velocities. */
  class SoftBodyObject {
    var positions: seq<Vec3>
    var velocities: seq<Vec3>

    constructor(positions: seq<Vec3>)
      ensures this.positions == positions
      ensures velocities == seq(|positions|, _ => Zero3)
    {
      this.positions := positions;
      velocities := seq(|positions|, _ => Zero3);
    }
  }

  // ---------------------------------------------------------------------------------------------
  // The built-in cube

  /** The eight corners of the unit cube centred on the origin. */
  const SOFT_BODY_VERTICES: seq<Vec3> := [
    Vec3(-0.5, -0.5, -0.5), Vec3(0.5, -0.5, -0.5), Vec3(0.5, 0.5, -0.5), Vec3(-0.5, 0.5, -0.5),
    Vec3(-0.5, -0.5, 0.5), Vec3(0.5, -0.5, 0.5), Vec3(0.5, 0.5, 0.5), Vec3(-0.5, 0.5, 0.5)]

  /** The cube's twelve triangles, two per face: back, front, left, right, top, bottom. */
  const SOFT_BODY_INDICES: seq<nat> := [
    0, 1, 2, 2, 3, 0,
    4, 5, 6, 6, 7, 4,
    0, 4, 7, 7, 3, 0,
    1, 5, 6, 6, 2, 1,
    3, 2, 6, 6, 7, 3,
    0, 1, 5, 5, 4, 0]

  const BACK_FACE: seq<MeshData> := [
    MeshData(0, Vec2(0.0, 0.0)), MeshData(1, Vec2(1.0, 0.0)), MeshData(2, Vec2(1.0, 1.0)),
    MeshData(2, Vec2(1.0, 1.0)), MeshData(3, Vec2(0.0, 1.0)), MeshData(0, Vec2(0.0, 0.0))]
  const FRONT_FACE: seq<MeshData> := [
    MeshData(4, Vec2(0.0, 0.0)), MeshData(5, Vec2(1.0, 0.0)), MeshData(6, Vec2(1.0, 1.0)),
    MeshData(6, Vec2(1.0, 1.0)), MeshData(7, Vec2(0.0, 1.0)), MeshData(4, Vec2(0.0, 0.0))]
  const LEFT_FACE: seq<MeshData> := [
    MeshData(0, Vec2(0.0, 1.0)), MeshData(4, Vec2(0.0, 0.0)), MeshData(7, Vec2(1.0, 0.0)),
    MeshData(7, Vec2(1.0, 0.0)), MeshData(3, Vec2(1.0, 1.0)), MeshData(0, Vec2(0.0, 1.0))]
  const RIGHT_FACE: seq<MeshData> := [
    MeshData(1, Vec2(0.0, 1.0)), MeshData(5, Vec2(0.0, 0.0)), MeshData(6, Vec2(1.0, 0.0)),
    MeshData(6, Vec2(1.0, 0.0)), MeshData(2, Vec2(1.0, 1.0)), MeshData(1, Vec2(0.0, 1.0))]
  const TOP_FACE: seq<MeshData> := [
    MeshData(3, Vec2(0.0, 1.0)), MeshData(2, Vec2(1.0, 1.0)), MeshData(6, Vec2(1.0, 0.0)),
    MeshData(6, Vec2(1.0, 0.0)), MeshData(7, Vec2(0.0, 0.0)), MeshData(3, Vec2(0.0, 1.0))]
  const BOTTOM_FACE: seq<MeshData> := [
    MeshData(0, Vec2(0.0, 1.0)), MeshData(1, Vec2(1.0, 1.0)), MeshData(5, Vec2(1.0, 0.0)),
    MeshData(5, Vec2(1.0, 0.0)), MeshData(4, Vec2(0.0, 0.0)), MeshData(0, Vec2(0.0, 1.0))]

  /** The cube's 36 render corners, each a vertex index with its texture coordinate. */
  const CUBE_MESH_DATA: seq<MeshData> :=
    BACK_FACE + FRONT_FACE + LEFT_FACE + RIGHT_FACE + TOP_FACE + BOTTOM_FACE

  /** The render corners visit the cube's vertices in exactly the order of the triangle list, so the
      36 entries reserved for each body (the size of the triangle list) are what the gather pushes, and
      every index names one of the eight cube vertices. */
  lemma CubeMeshDataFollowsIndices()
    ensures |CUBE_MESH_DATA| == |SOFT_BODY_INDICES| == 36
    ensures forall k :: 0 <= k < 36 ==> CUBE_MESH_DATA[k].index == SOFT_BODY_INDICES[k]
    ensures forall k :: 0 <= k < 36 ==> CUBE_MESH_DATA[k].index < |SOFT_BODY_VERTICES|
  {
    forall k | 0 <= k < 36
      ensures CUBE_MESH_DATA[k].index == SOFT_BODY_INDICES[k] < 8
    {
      if k < 6 {
        assert CUBE_MESH_DATA[k] == BACK_FACE[k];
      } else if k < 12 {
        assert CUBE_MESH_DATA[k] == FRONT_FACE[k - 6];
      } else if k < 18 {
        assert CUBE_MESH_DATA[k] == LEFT_FACE[k - 12];
      } else if k < 24 {
        assert CUBE_MESH_DATA[k] == RIGHT_FACE[k - 18];
      } else if k < 30 {
        assert CUBE_MESH_DATA[k] == TOP_FACE[k - 24];
      } else {
        assert CUBE_MESH_DATA[k] == BOTTOM_FACE[k - 30];
      }
    }
  }

  // ---------------------------------------------------------------------------------------------
  // softBodyToVertex for a list of cube bodies

  /** The render vertex for corner k of the cube of a body with the given positions: the body's own
      position of that cube vertex, a zero normal and the corner's texture coordinate. */
  function CubeVertex(positions: seq<Vec3>, k: nat): (r: RenderAttribute)
    requires k < 36 && |positions| >= 8
  {
    CubeMeshDataFollowsIndices();
    RenderAttribute(positions[CUBE_MESH_DATA[k].index], Zero3, CUBE_MESH_DATA[k].texCoord)
  }

  /** The 36 render vertices of one cube body, in the order of the render corners. */
  function CubeVertices(positions: seq<Vec3>): (r: seq<RenderAttribute>)
    requires |positions| >= 8
    ensures |r| == 36
  {
    seq(36, k requires 0 <= k < 36 => CubeVertex(positions, k))
  }

  predicate CubeBodies(objs: seq<SoftBodyObject>)
    reads objs
  {
    forall o :: 0 <= o < |objs| ==> |objs[o].positions| >= 8
  }

  /** The render vertices of the first n bodies, body after body. */
  function Gathered(objs: seq<SoftBodyObject>, n: nat): seq<RenderAttribute>
    requires CubeBodies(objs) && n <= |objs|
    reads objs
  {
    if n == 0 then [] else Gathered(objs, n - 1) + CubeVertices(objs[n - 1].positions)
  }

  /** The first n bodies give 36n render vertices, and entry 36o + k is corner k of body o. */
  lemma {:induction false} GatheredAt(objs: seq<SoftBodyObject>, n: nat, o: nat, k: nat)
    requires CubeBodies(objs) && n <= |objs| && o < n && k < 36
    ensures |Gathered(objs, n)| == 36 * n
    ensures Gathered(objs, n)[36 * o + k] == CubeVertex(objs[o].positions, k)
  {
    if o < n - 1 {
      GatheredAt(objs, n - 1, o, k);
    } else {
      if n > 1 {
        GatheredAt(objs, n - 1, 0, 0);
      }
    }
  }

  /** softBodyToVertex over cube bodies: for each body in turn, the 36 cube corners in order, so entry
      36o + k is corner k of body o. */
  method SoftBodiesToVertex(objs: seq<SoftBodyObject>) returns (result: seq<RenderAttribute>)
    requires CubeBodies(objs)
    ensures |result| == 36 * |objs|
    ensures forall o, k :: 0 <= o < |objs| && 0 <= k < 36 ==>
              result[36 * o + k] == CubeVertex(objs[o].positions, k)
  {
    CubeMeshDataFollowsIndices();
    result := [];
    for o := 0 to |objs|
      invariant result == Gathered(objs, o)
    {
      var obj := objs[o];
      for k := 0 to |CUBE_MESH_DATA|
        invariant result == Gathered(objs, o) + CubeVertices(obj.positions)[..k]
      {
        var vert := CUBE_MESH_DATA[k];
        result := result + [RenderAttribute(obj.positions[vert.index], Zero3, vert.texCoord)];
        assert CubeVertices(obj.positions)[..k + 1] == CubeVertices(obj.positions)[..k] + [CubeVertex(obj.positions, k)];
      }
    }
    if |objs| == 0 {
    } else {
      GatheredAt(objs, |objs|, 0, 0);
    }
    forall o, k | 0 <= o < |objs| && 0 <= k < 36
      ensures result[36 * o + k] == CubeVertex(objs[o].positions, k)
    {
      GatheredAt(objs, |objs|, o, k);
    }
  }

  // ---------------------------------------------------------------------------------------------
  // softBodyToVertex for a loaded mesh

  /** Entry `slot` of the 3-entry group g of a face list. */
  function Slot(faces: seq<nat>, g: nat, slot: nat): nat
    requires 3 * g + slot < |faces|
  {
    faces[3 * g + slot]
  }

  /** The loader stores each corner as (vertex, normal, texture). These say that every group's indices
      are in range when the middle entry is read as the texture index and the last as the normal index
      (as the conversion is written), or the other way round (as the loader stores them). */
  predicate InRangeAsWritten(vertices: seq<Vec3>, normals: seq<Vec3>, texCoords: seq<Vec2>, faces: seq<nat>) {
    |faces| % 3 == 0 &&
    forall g :: 0 <= g < |faces| / 3 ==>
      Slot(faces, g, 0) < |vertices| && Slot(faces, g, 2) < |normals| && Slot(faces, g, 1) < |texCoords|
  }

  predicate InRange(vertices: seq<Vec3>, normals: seq<Vec3>, texCoords: seq<Vec2>, faces: seq<nat>) {
    |faces| % 3 == 0 &&
    forall g :: 0 <= g < |faces| / 3 ==>
      Slot(faces, g, 0) < |vertices| && Slot(faces, g, 1) < |normals| && Slot(faces, g, 2) < |texCoords|
  }

  /** The render vertex the conversion builds for group g as written: the normal is looked up with the
      group's last entry and the texture coordinate with its middle entry. */
  function RenderVertexAsWritten(vertices: seq<Vec3>, normals: seq<Vec3>, texCoords: seq<Vec2>,
                                 faces: seq<nat>, g: nat): RenderAttribute
    requires InRangeAsWritten(vertices, normals, texCoords, faces) && g < |faces| / 3
  {
    RenderAttribute(vertices[Slot(faces, g, 0)], normals[Slot(faces, g, 2)], texCoords[Slot(faces, g, 1)])
  }

  /** The render vertex for group g with each index read from the slot the loader stored it in. */
  function RenderVertex(vertices: seq<Vec3>, normals: seq<Vec3>, texCoords: seq<Vec2>,
                        faces: seq<nat>, g: nat): RenderAttribute
    requires InRange(vertices, normals, texCoords, faces) && g < |faces| / 3
  {
    RenderAttribute(vertices[Slot(faces, g, 0)], normals[Slot(faces, g, 1)], texCoords[Slot(faces, g, 2)])
  }

  /** softBodyToVertex(SoftBodyMesh&) as written: one render vertex per 3-entry group, in order. */
  method SoftBodyToVertexAsWritten(mesh: SoftBodyMesh) returns (result: seq<RenderAttribute>)
    requires InRangeAsWritten(mesh.vertices, mesh.normals, mesh.texCoords, mesh.faces)
    ensures |result| == |mesh.faces| / 3
    ensures forall g :: 0 <= g < |result| ==>
              result[g] == RenderVertexAsWritten(mesh.vertices, mesh.normals, mesh.texCoords, mesh.faces, g)
  {
    result := [];
    var faceIdx := 0;
    while faceIdx < |mesh.faces|
      invariant faceIdx == 3 * |result| <= |mesh.faces|
      invariant forall g :: 0 <= g < |result| ==>
                  result[g] == RenderVertexAsWritten(mesh.vertices, mesh.normals, mesh.texCoords, mesh.faces, g)
    {
      var g := |result|;
      assert g < |mesh.faces| / 3;
      assert Slot(mesh.faces, g, 0) == mesh.faces[faceIdx] && Slot(mesh.faces, g, 1) == mesh.faces[faceIdx + 1];
      assert Slot(mesh.faces, g, 2) == mesh.faces[faceIdx + 2];
      result := result + [RenderAttribute(mesh.vertices[mesh.faces[faceIdx]], mesh.normals[mesh.faces[faceIdx + 2]],
                                          mesh.texCoords[mesh.faces[faceIdx + 1]])];
      faceIdx := faceIdx + 3;
    }
  }

  /** softBodyToVertex(SoftBodyMesh&) with the normal and texture lookups each reading the slot the
      loader stored that index in. */
  method SoftBodyToVertex(mesh: SoftBodyMesh) returns (result: seq<RenderAttribute>)
    requires InRange(mesh.vertices, mesh.normals, mesh.texCoords, mesh.faces)
    ensures |result| == |mesh.faces| / 3
    ensures forall g :: 0 <= g < |result| ==>
              result[g] == RenderVertex(mesh.vertices, mesh.normals, mesh.texCoords, mesh.faces, g)
  {
    result := [];
    var faceIdx := 0;
    while faceIdx < |mesh.faces|
      invariant faceIdx == 3 * |result| <= |mesh.faces|
      invariant forall g :: 0 <= g < |result| ==>
                  result[g] == RenderVertex(mesh.vertices, mesh.normals, mesh.texCoords, mesh.faces, g)
    {
      var g := |result|;
      assert g < |mesh.faces| / 3;
      assert Slot(mesh.faces, g, 0) == mesh.faces[faceIdx] && Slot(mesh.faces, g, 1) == mesh.faces[faceIdx + 1];
      assert Slot(mesh.faces, g, 2) == mesh.faces[faceIdx + 2];
      result := result + [RenderAttribute(mesh.vertices[mesh.faces[faceIdx]], mesh.normals[mesh.faces[faceIdx + 1]],
                                          mesh.texCoords[mesh.faces[faceIdx + 2]])];
      faceIdx := faceIdx + 3;
    }
  }

  /** For the entries the loader appends for a run of corners, render vertex g carries the position,
      the normal and the texture coordinate that corner g of the face line names. */
  lemma CornerRendersOwnAttributes(vertices: seq<Vec3>, normals: seq<Vec3>, texCoords: seq<Vec2>,
                                   cs: seq<Corner>, faces: seq<nat>, g: nat)
    requires faces == Entries(cs) && InRange(vertices, normals, texCoords, faces) && g < |cs|
    ensures ToUnsigned(cs[g].vertex) < |vertices| && ToUnsigned(cs[g].normal) < |normals|
    ensures ToUnsigned(cs[g].tex) < |texCoords|
    ensures RenderVertex(vertices, normals, texCoords, faces, g) ==
            RenderAttribute(vertices[ToUnsigned(cs[g].vertex)], normals[ToUnsigned(cs[g].normal)],
                            texCoords[ToUnsigned(cs[g].tex)])
  {
    EntriesAt(cs, g);
    RenderVertexOf(vertices, normals, texCoords, faces, g,
                   ToUnsigned(cs[g].vertex), ToUnsigned(cs[g].normal), ToUnsigned(cs[g].tex));
  }

  lemma RenderVertexOf(vertices: seq<Vec3>, normals: seq<Vec3>, texCoords: seq<Vec2>, faces: seq<nat>,
                       g: nat, a: nat, b: nat, c: nat)
    requires InRange(vertices, normals, texCoords, faces) && 3 * g + 2 < |faces|
    requires faces[3 * g] == a && faces[3 * g + 1] == b && faces[3 * g + 2] == c
    ensures g < |faces| / 3
    ensures a < |vertices| && b < |normals| && c < |texCoords|
    ensures RenderVertex(vertices, normals, texCoords, faces, g) ==
            RenderAttribute(vertices[a], normals[b], texCoords[c])
  {
    assert Slot(faces, g, 0) == a && Slot(faces, g, 1) == b && Slot(faces, g, 2) == c;
  }

  /** The face token "1/1/2" names vertex 1, texture coordinate 1 and normal 2. With two normals and two
      texture coordinates that differ, the conversion as written gives that corner the first normal and
      the second texture coordinate; the corner names the second normal and the first texture
      coordinate, which is what the corrected conversion gives. */
  lemma AsWrittenSwapsNormalAndTexture(v: Vec3, n0: Vec3, n1: Vec3, t0: Vec2, t1: Vec2)
    requires n0 != n1 && t0 != t1
    ensures ParseFaceToken("1/1/2").Decoded?
    ensures CornerEntries(ParseFaceToken("1/1/2").corner) == [0, 1, 0]
    ensures RenderVertexAsWritten([v], [n0, n1], [t0, t1], [0, 1, 0], 0) == RenderAttribute(v, n0, t1)
    ensures RenderVertex([v], [n0, n1], [t0, t1], [0, 1, 0], 0) == RenderAttribute(v, n1, t0)
  {
    assert Decimal(1) == "1" && Decimal(2) == "2";
    assert Decimal(1) + "/" + Decimal(1) + "/" + Decimal(2) == "1/1/2";
    DecimalTokenEntries(1, 1, 2);
  }

  // ---------------------------------------------------------------------------------------------
  // The final phase of the solver step: integrate and keep inside the box

  const DAMPING: real := 1.0
  const WALL: real := 2.0

  /** The y tests: the floor first, then the ceiling. Crossing a wall puts the coordinate on it and
      multiplies the velocity component by -1 * damping. */
  function FloorThenCeiling(p: real, v: real): (r: (real, real))
    ensures -WALL <= r.0 <= WALL
    ensures -WALL <= p <= WALL ==> r == (p, v)
    ensures p < -WALL ==> r == (-WALL, -v)
    ensures p > WALL ==> r == (WALL, -v)
  {
    var (p1, v1) := if p < -WALL then (-WALL, v * (-1.0 * DAMPING)) else (p, v);
    if p1 > WALL then (WALL, v1 * (-1.0 * DAMPING)) else (p1, v1)
  }

  /** The x and z tests: the upper wall first, then the lower one. */
  function CeilingThenFloor(p: real, v: real): (r: (real, real))
    ensures -WALL <= r.0 <= WALL
    ensures -WALL <= p <= WALL ==> r == (p, v)
    ensures p < -WALL ==> r == (-WALL, -v)
    ensures p > WALL ==> r == (WALL, -v)
  {
    var (p1, v1) := if p > WALL then (WALL, v * (-1.0 * DAMPING)) else (p, v);
    if p1 < -WALL then (-WALL, v1 * (-1.0 * DAMPING)) else (p1, v1)
  }

  predicate InBox(p: Vec3) {
    -WALL <= p.x <= WALL && -WALL <= p.y <= WALL && -WALL <= p.z <= WALL
  }

  /** One vertex after the step: moved by velocity times frame time, then each axis kept inside the
      walls with its velocity component reflected where the wall was crossed. */
  function MoveAndClamp(p: Vec3, v: Vec3, frameTime: real): (r: (Vec3, Vec3))
  {
    var q := Add(p, Scale(v, frameTime));
    var (y, vy) := FloorThenCeiling(q.y, v.y);
    var (x, vx) := CeilingThenFloor(q.x, v.x);
    var (z, vz) := CeilingThenFloor(q.z, v.z);
    (Vec3(x, y, z), Vec3(vx, vy, vz))
  }

  /** After the step every vertex is inside the box; an axis whose moved coordinate was already inside
      keeps it and its velocity component, and an axis that crossed a wall ends on that wall with its
      velocity component negated. */
  lemma MoveAndClampStaysInBox(p: Vec3, v: Vec3, frameTime: real)
    ensures InBox(MoveAndClamp(p, v, frameTime).0)
    ensures var q := Add(p, Scale(v, frameTime));
            var r := MoveAndClamp(p, v, frameTime);
            (-WALL <= q.y <= WALL ==> r.0.y == q.y && r.1.y == v.y) &&
            (q.y < -WALL ==> r.0.y == -WALL && r.1.y == -v.y) &&
            (q.y > WALL ==> r.0.y == WALL && r.1.y == -v.y)
    ensures var q := Add(p, Scale(v, frameTime));
            var r := MoveAndClamp(p, v, frameTime);
            (-WALL <= q.x <= WALL ==> r.0.x == q.x && r.1.x == v.x) &&
            (q.x < -WALL ==> r.0.x == -WALL && r.1.x == -v.x) &&
            (q.x > WALL ==> r.0.x == WALL && r.1.x == -v.x)
    ensures var q := Add(p, Scale(v, frameTime));
            var r := MoveAndClamp(p, v, frameTime);
            (-WALL <= q.z <= WALL ==> r.0.z == q.z && r.1.z == v.z) &&
            (q.z < -WALL ==> r.0.z == -WALL && r.1.z == -v.z) &&
            (q.z > WALL ==> r.0.z == WALL && r.1.z == -v.z)
  {
  }

  /** A vertex inside the box that does not move stays where it is with its velocity. */
  lemma RestingVertexStays(p: Vec3, frameTime: real)
    requires InBox(p)
    ensures MoveAndClamp(p, Zero3, frameTime) == (p, Zero3)
  {
    assert Add(p, Scale(Zero3, frameTime)) == p;
  }

  /** The body of the last loop of stepSolver for one vertex: the move, then the y tests (floor,
      ceiling), the x tests (upper, lower) and the z tests (upper, lower) in turn. */
  method MoveVertex(position: Vec3, velocity: Vec3, frameTime: real) returns (p: Vec3, v: Vec3)
    ensures (p, v) == MoveAndClamp(position, velocity, frameTime)
    ensures InBox(p)
  {
    var damping := DAMPING;
    p := Add(position, Scale(velocity, frameTime));
    v := velocity;
    if p.y < -2.0 {
      p := p.(y := -2.0);
      v := v.(y := v.y * (-1.0 * damping));
    }
    if p.y > 2.0 {
      p := p.(y := 2.0);
      v := v.(y := v.y * (-1.0 * damping));
    }
    if p.x > 2.0 {
      p := p.(x := 2.0);
      v := v.(x := v.x * (-1.0 * damping));
    }
    if p.x < -2.0 {
      p := p.(x := -2.0);
      v := v.(x := v.x * (-1.0 * damping));
    }
    if p.z > 2.0 {
      p := p.(z := 2.0);
      v := v.(z := v.z * (-1.0 * damping));
    }
    if p.z < -2.0 {
      p := p.(z := -2.0);
      v := v.(z := v.z * (-1.0 * damping));
    }
    MoveAndClampStaysInBox(position, velocity, frameTime);
  }

  /** The last loop of stepSolver: every vertex is moved by its velocity times the frame time, then the
      y tests (floor, ceiling), the x tests (upper, lower) and the z tests (upper, lower) run in turn. */
  method IntegrateAndClamp(mesh: SoftBodyMesh, frameTime: real)
    requires |mesh.velocities| >= |mesh.vertices|
    modifies mesh`vertices, mesh`velocities
    ensures |mesh.vertices| == |old(mesh.vertices)| && |mesh.velocities| == |old(mesh.velocities)|
    ensures forall i :: 0 <= i < |mesh.vertices| ==>
              (mesh.vertices[i], mesh.velocities[i]) ==
              MoveAndClamp(old(mesh.vertices[i]), old(mesh.velocities[i]), frameTime)
    ensures forall i :: |mesh.vertices| <= i < |mesh.velocities| ==> mesh.velocities[i] == old(mesh.velocities[i])
    ensures forall i :: 0 <= i < |mesh.vertices| ==> InBox(mesh.vertices[i])
  {
    for i := 0 to |mesh.vertices|
      invariant |mesh.vertices| == |old(mesh.vertices)| && |mesh.velocities| == |old(mesh.velocities)|
      invariant forall j :: 0 <= j < i ==>
                  (mesh.vertices[j], mesh.velocities[j]) ==
                  MoveAndClamp(old(mesh.vertices[j]), old(mesh.velocities[j]), frameTime)
      invariant forall j :: i <= j < |mesh.vertices| ==> mesh.vertices[j] == old(mesh.vertices[j])
      invariant forall j :: i <= j < |mesh.velocities| ==> mesh.velocities[j] == old(mesh.velocities[j])
      invariant forall j :: 0 <= j < i ==> InBox(mesh.vertices[j])
    {
      var p, v := MoveVertex(mesh.vertices[i], mesh.velocities[i], frameTime);
      mesh.vertices := mesh.vertices[i := p];
      mesh.velocities := mesh.velocities[i := v];
    }
  }
}
