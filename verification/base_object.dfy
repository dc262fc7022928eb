/** A drawable object: its mesh (a flat list of vertex coordinates and a triangle index list), its colour
    and its local transform, and the interleaving of coordinates and colour into a vertex buffer. */
module BaseObjects {
  import opened Glm

  /** A mesh as a flat list of coordinates, three per vertex, and a list of vertex indices, three per
      triangle. */
  datatype MeshData = MeshData(vertices: seq<real>, indices: seq<nat>)

  datatype MeshShape = CUBE | PLANE

  /** The built-in cube: eight vertices (a front face at z = 0.5 and a back face at z = 1.5) and twelve
      triangles. */
  const CUBE_VERTICES: seq<real> := [
    -0.5, -0.5, 0.5,
    -0.5, 0.5, 0.5,
    0.5, 0.5, 0.5,
    0.5, -0.5, 0.5,
    0.5, -0.5, 1.5,
    0.5, 0.5, 1.5,
    -0.5, 0.5, 1.5,
    -0.5, -0.5, 1.5]

  /** The twelve triangles, two per face: front, back, top, bottom, right, left. */
  const FRONT: seq<nat> := [0, 1, 2, 2, 3, 0]
  const BACK: seq<nat> := [4, 5, 6, 6, 7, 4]
  const TOP: seq<nat> := [1, 6, 5, 5, 2, 1]
  const BOTTOM: seq<nat> := [0, 7, 4, 4, 3, 0]
  const RIGHT: seq<nat> := [3, 2, 5, 5, 4, 3]
  const LEFT: seq<nat> := [7, 6, 1, 1, 0, 7]

  const CUBE_MESH: MeshData := MeshData(CUBE_VERTICES, FRONT + BACK + TOP + BOTTOM + RIGHT + LEFT)

  /** Every index of the cube names one of its eight vertices, and the coordinates are exactly eight
      vertices' worth. */
  lemma CubeIndicesInRange()
    ensures |CUBE_MESH.vertices| == 24 && |CUBE_MESH.indices| == 36
    ensures forall k :: 0 <= k < |CUBE_MESH.indices| ==> CUBE_MESH.indices[k] < |CUBE_MESH.vertices| / 3
  {
    var idx := CUBE_MESH.indices;
    forall k | 0 <= k < 36
      ensures idx[k] < 8
    {
      if k < 6 {
        assert idx[k] == FRONT[k];
      } else if k < 12 {
        assert idx[k] == BACK[k - 6];
      } else if k < 18 {
        assert idx[k] == TOP[k - 12];
      } else if k < 24 {
        assert idx[k] == BOTTOM[k - 18];
      } else if k < 30 {
        assert idx[k] == RIGHT[k - 24];
      } else {
        assert idx[k] == LEFT[k - 30];
      }
    }
  }

  /** The mesh the constructor picks for a shape: the cube for CUBE, and, by the default branch of the
      switch, the cube for every other shape as well. */
  function ShapeMesh(shape: MeshShape): (m: MeshData)
    ensures m == CUBE_MESH
  {
    match shape
    case CUBE => CUBE_MESH
    case _ => CUBE_MESH
  }

  // ---------------------------------------------------------------------------------------------
  // Interleaving coordinates and colour

  function ColorEntries(c: Vec4): seq<real> {
    [c.r, c.g, c.b, c.a]
  }

  /** What loadToBuffer appends for the coordinates vs: each coordinate in order, and after every third
      one (the coordinate at an index i with i % 3 == 2) the four colour components. */
  function Interleave(vs: seq<real>, c: Vec4): seq<real>
  {
    if vs == [] then []
    else
      Interleave(vs[..|vs| - 1], c) + [vs[|vs| - 1]] + (if (|vs| - 1) % 3 == 2 then ColorEntries(c) else [])
  }

  /** n coordinates grow the buffer by n + 4 * floor(n / 3). */
  lemma {:induction false} InterleaveLength(vs: seq<real>, c: Vec4)
    ensures |Interleave(vs, c)| == |vs| + 4 * (|vs| / 3)
  {
    if vs != [] {
      InterleaveLength(vs[..|vs| - 1], c);
    }
  }

  /** Coordinate i lands after the i coordinates and the floor(i / 3) colours before it. */
  lemma {:induction false} InterleaveCoordinate(vs: seq<real>, c: Vec4, i: nat)
    requires i < |vs|
    ensures i + 4 * (i / 3) < |Interleave(vs, c)|
    ensures Interleave(vs, c)[i + 4 * (i / 3)] == vs[i]
  {
    var init := vs[..|vs| - 1];
    InterleaveLength(init, c);
    InterleaveLength(vs, c);
    if i < |vs| - 1 {
      InterleaveCoordinate(init, c, i);
      assert init[i] == vs[i];
    }
  }

  /** After the last coordinate of vertex g (coordinate 3g + 2, at position 7g + 2) come the four colour
      components. */
  lemma {:induction false} InterleaveColour(vs: seq<real>, c: Vec4, g: nat)
    requires 3 * g + 2 < |vs|
    ensures 7 * g + 7 <= |Interleave(vs, c)|
    ensures Interleave(vs, c)[7 * g + 3..7 * g + 7] == ColorEntries(c)
  {
    var init := vs[..|vs| - 1];
    InterleaveLength(init, c);
    InterleaveLength(vs, c);
    if 3 * g + 2 < |vs| - 1 {
      InterleaveColour(init, c, g);
      assert Interleave(vs, c)[7 * g + 3..7 * g + 7] == Interleave(init, c)[7 * g + 3..7 * g + 7];
    } else {
      assert |Interleave(init, c)| == 7 * g + 2;
    }
  }

  /** The cube's 24 coordinates become 56 buffer entries. */
  lemma CubeBufferSize(c: Vec4)
    ensures |Interleave(CUBE_MESH.vertices, c)| == 56
  {
    InterleaveLength(CUBE_MESH.vertices, c);
  }

  // ---------------------------------------------------------------------------------------------
  // The local transform

  /** glm::translate(m, v): the fourth column becomes m0 * v.x + m1 * v.y + m2 * v.z + m3 for the
      columns m0..m3 of m; the other columns are kept. */
  function Translated(m: Mat4, v: Vec3): (r: Mat4)
    requires |m.entries| == 16
    ensures |r.entries| == 16 && r.entries[..12] == m.entries[..12]
  {
    var e := m.entries;
    Mat4(e[..12] + seq(4, row requires 0 <= row < 4 => e[row] * v.x + e[4 + row] * v.y + e[8 + row] * v.z + e[12 + row]))
  }

  /** Translating the identity by v puts v in the fourth column and keeps the rest of the identity. */
  lemma TranslateIdentity(v: Vec3)
    ensures Translated(Identity(), v).entries[12..15] == [v.x, v.y, v.z]
    ensures Translated(Identity(), v).entries[15] == 1.0
  {
    var e := Identity().entries;
    assert e[0] == 1.0 && e[4] == 0.0 && e[8] == 0.0 && e[12] == 0.0;
    assert e[1] == 0.0 && e[5] == 1.0 && e[9] == 0.0 && e[13] == 0.0;
    assert e[2] == 0.0 && e[6] == 0.0 && e[10] == 1.0 && e[14] == 0.0;
    assert e[3] == 0.0 && e[7] == 0.0 && e[11] == 0.0 && e[15] == 1.0;
  }

  /** Two translations in a row are one translation by the sum of the offsets. */
  lemma TranslateTwice(m: Mat4, u: Vec3, v: Vec3)
    requires |m.entries| == 16
    ensures Translated(Translated(m, u), v) == Translated(m, Add(u, v))
  {
    var e := m.entries;
    var a := Translated(Translated(m, u), v).entries;
    var b := Translated(m, Add(u, v)).entries;
    forall k | 12 <= k < 16
      ensures a[k] == b[k]
    {
      var row := k - 12;
      calc {
        a[k];
        e[row] * v.x + e[4 + row] * v.y + e[8 + row] * v.z
          + (e[row] * u.x + e[4 + row] * u.y + e[8 + row] * u.z + e[12 + row]);
        e[row] * (u.x + v.x) + e[4 + row] * (u.y + v.y) + e[8 + row] * (u.z + v.z) + e[12 + row];
        b[k];
      }
    }
    assert a == b;
  }

  // ---------------------------------------------------------------------------------------------
  // The object

  class BaseObject {
    var meshData: MeshData
    var meshColor: Vec4
    var localOrigin: Mat4

    /** Every shape gets the cube mesh; the colour is the one given and the transform the identity. */
    constructor(shape: MeshShape, color: Vec4)
      ensures meshData == CUBE_MESH && meshColor == color && localOrigin == Identity()
    {
      meshData := ShapeMesh(shape);
      meshColor := color;
      localOrigin := Identity();
    }

    method Translate(v: Vec3)
      requires |localOrigin.entries| == 16
      modifies this`localOrigin
      ensures localOrigin == Translated(old(localOrigin), v)
    {
      localOrigin := Translated(localOrigin, v);
    }

    method ResetTransform()
      modifies this`localOrigin
      ensures localOrigin == Identity()
    {
      localOrigin := Identity();
    }

    /** loadToBuffer: returns the caller's buffer with the interleaved coordinates and colour appended;
        what the buffer held before is kept as its prefix. */
    method LoadToBuffer(vertList: seq<real>) returns (result: seq<real>)
      ensures result == vertList + Interleave(meshData.vertices, meshColor)
    {
      var vs := meshData.vertices;
      result := vertList;
      for i := 0 to |vs|
        invariant result == vertList + Interleave(vs[..i], meshColor)
      {
        assert vs[..i + 1][..i] == vs[..i];
        result := result + [vs[i]];
        if i % 3 == 2 {
          result := result + [meshColor.r, meshColor.g, meshColor.b, meshColor.a];
        }
      }
      assert vs[..|vs|] == vs;
    }
  }
}
