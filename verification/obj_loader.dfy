/** The Wavefront OBJ loader of the soft-body demo: the line loop that appends to a SoftBodyMesh, the
    canonical spring pairs and the structural pairs drawn in order from a std::set, and the map from
    edges to 3-entry groups of `faces` with the bend-pair selection built on it. */
module ObjLoader {
  import opened Wrappers
  import opened Glm
  import opened CppInt
  import opened ObjParse

  /** A std::pair<unsigned int, unsigned int>. */
  type Pair = (nat, nat)

  /** The mesh the loader fills. A Constraint's rest distance is not modelled, so a structural or bend
      pair is the index pair alone; the centre-of-mass fields are not modelled either. */
  class SoftBodyMesh {
    var vertices: seq<Vec3>
    var normals: seq<Vec3>
    var texCoords: seq<Vec2>
    var velocities: seq<Vec3>
    var faces: seq<nat>
    var structuralPairs: seq<Pair>
    var bendPairs: seq<Pair>

    constructor()
      ensures vertices == [] && normals == [] && texCoords == [] && velocities == []
      ensures faces == [] && structuralPairs == [] && bendPairs == []
    {
      vertices, normals, texCoords, velocities := [], [], [], [];
      faces, structuralPairs, bendPairs := [], [], [];
    }
  }

  // ---------------------------------------------------------------------------------------------
  // Spring helpers

  /** make_canonical_spring: the two indices as (min, max). */
  function MakeCanonicalSpring(a: nat, b: nat): (r: Pair)
    ensures r.0 <= r.1
    ensures (r.0 == a && r.1 == b) || (r.0 == b && r.1 == a)
  {
    if a <= b then (a, b) else (b, a)
  }

  /** The canonical pair does not depend on the order of its arguments. */
  lemma CanonicalSpringSymmetric(a: nat, b: nat)
    ensures MakeCanonicalSpring(a, b) == MakeCanonicalSpring(b, a)
  {
  }

  /** Two canonical pairs are equal exactly when they are built from the same two indices. */
  lemma CanonicalSpringsEqual(a: nat, b: nat, c: nat, d: nat)
    ensures MakeCanonicalSpring(a, b) == MakeCanonicalSpring(c, d) <==> (a == c && b == d) || (a == d && b == c)
  {
  }

  /** find_third_vertex on the three entries tri[0..3]: the first entry that is neither v1 nor v2, and
      tri[2] when there is none. */
  function FindThirdVertex(tri: seq<nat>, v1: nat, v2: nat): (r: nat)
    requires |tri| >= 3
    ensures r == tri[0] || r == tri[1] || r == tri[2]
    ensures (r != v1 && r != v2) || r == tri[2]
  {
    if tri[0] != v1 && tri[0] != v2 then tri[0]
    else if tri[1] != v1 && tri[1] != v2 then tri[1]
    else tri[2]
  }

  /** A group that holds v1, v2 and one other value w, in any order, has w as its third vertex. */
  lemma ThirdVertexIsTheOther(tri: seq<nat>, v1: nat, v2: nat, w: nat)
    requires |tri| == 3 && multiset(tri) == multiset{v1, v2, w} && w != v1 && w != v2
    ensures FindThirdVertex(tri, v1, v2) == w
  {
    assert tri == [tri[0], tri[1], tri[2]];
    assert tri[0] in multiset{v1, v2, w} && tri[1] in multiset{v1, v2, w} && tri[2] in multiset{v1, v2, w};
    assert w in multiset(tri);
  }

  // ---------------------------------------------------------------------------------------------
  // The line loop as a specification

  /** What the line loop has built: the four vectors it appends to, the structural pair set, and whether
      a std::stoi call has thrown, which ends the load. */
  datatype Parsed = Parsed(vertices: seq<Vec3>, normals: seq<Vec3>, texCoords: seq<Vec2>, faces: seq<nat>,
                           springs: set<Pair>, threw: bool)

  /** The corners read from the first tokens of a face line, and whether a token threw. */
  datatype FaceRead = FaceRead(corners: seq<Corner>, threw: bool)

  /** A face line on which each of the three token reads leaves a string with a slash in it. A token
      without one leaves v[i] uninitialised, which the structural springs then read. */
  predicate WellFormedFace(toks: seq<string>) {
    forall i :: 0 <= i < 3 ==> '/' in FaceField(toks, i)
  }

  predicate WellFormedLine(line: string) {
    Prefix(Tokens(line)) == "f" ==> WellFormedFace(Tokens(line))
  }

  predicate WellFormed(lines: seq<string>) {
    forall k :: 0 <= k < |lines| ==> WellFormedLine(lines[k])
  }

  /** The corners decoded from the first n token reads of a face line, stopping at the first throw. */
  function ReadFace(toks: seq<string>, n: nat): (r: FaceRead)
    requires n <= 3 && WellFormedFace(toks)
    ensures |r.corners| <= n
    ensures !r.threw ==> |r.corners| == n
  {
    if n == 0 then FaceRead([], false)
    else
      var r := ReadFace(toks, n - 1);
      if r.threw then r
      else match ParseFaceToken(FaceField(toks, n - 1))
        case Decoded(c) => FaceRead(r.corners + [c], false)
        case _ => FaceRead(r.corners, true)
  }

  /** Once a token has thrown, later reads change nothing. */
  lemma {:induction false} ReadFaceStaysThrown(toks: seq<string>, n: nat, m: nat)
    requires n <= m <= 3 && WellFormedFace(toks) && ReadFace(toks, n).threw
    ensures ReadFace(toks, m) == ReadFace(toks, n)
    decreases m - n
  {
    if n < m {
      ReadFaceStaysThrown(toks, n, m - 1);
    }
  }

  /** The three entries one corner appends to `faces`: vertex, normal, texture, each converted to
      unsigned int. */
  function CornerEntries(c: Corner): seq<nat> {
    [ToUnsigned(c.vertex), ToUnsigned(c.normal), ToUnsigned(c.tex)]
  }

  /** The entries a run of corners appends to `faces`. */
  function Entries(cs: seq<Corner>): (r: seq<nat>)
    ensures |r| == 3 * |cs|
  {
    if cs == [] then [] else Entries(cs[..|cs| - 1]) + CornerEntries(cs[|cs| - 1])
  }

  /** Entries 3i, 3i + 1 and 3i + 2 of the appended entries are the vertex, normal and texture indices
      of corner i. */
  lemma {:induction false} EntriesAt(cs: seq<Corner>, i: nat)
    requires i < |cs|
    ensures Entries(cs)[3 * i] == ToUnsigned(cs[i].vertex)
    ensures Entries(cs)[3 * i + 1] == ToUnsigned(cs[i].normal)
    ensures Entries(cs)[3 * i + 2] == ToUnsigned(cs[i].tex)
  {
    var init := cs[..|cs| - 1];
    if i < |cs| - 1 {
      EntriesAt(init, i);
      assert cs[i] == init[i];
    }
  }

  /** The vertex indices of the three corners of a face, as v[0], v[1], v[2] hold them. */
  function FaceVertex(cs: seq<Corner>, i: nat): nat
    requires i < |cs|
  {
    ToUnsigned(cs[i].vertex)
  }

  /** The three structural springs of a triangle. */
  function FaceSprings(cs: seq<Corner>): set<Pair>
    requires |cs| == 3
  {
    {MakeCanonicalSpring(FaceVertex(cs, 0), FaceVertex(cs, 1)),
     MakeCanonicalSpring(FaceVertex(cs, 1), FaceVertex(cs, 2)),
     MakeCanonicalSpring(FaceVertex(cs, 2), FaceVertex(cs, 0))}
  }

  /** One line: its first field chooses what is appended. Coordinates are read by `number`, which stands
      for the float extraction. A face line appends the entries of the corners it decodes and, when no
      token threw, its three structural springs. */
  function FeedLine(p: Parsed, line: string, number: string -> real): Parsed
    requires WellFormedLine(line)
  {
    var toks := Tokens(line);
    if Prefix(toks) == "v" then
      p.(vertices := p.vertices + [Vec3(number(Field(toks, 1)), number(Field(toks, 2)), number(Field(toks, 3)))])
    else if Prefix(toks) == "vn" then
      p.(normals := p.normals + [Vec3(number(Field(toks, 1)), number(Field(toks, 2)), number(Field(toks, 3)))])
    else if Prefix(toks) == "vt" then
      p.(texCoords := p.texCoords + [Vec2(number(Field(toks, 1)), number(Field(toks, 2)))])
    else if Prefix(toks) == "f" then
      FeedFace(p, ReadFace(toks, 3))
    else
      p
  }

  function FeedFace(p: Parsed, r: FaceRead): Parsed
    requires !r.threw ==> |r.corners| == 3
  {
    if r.threw then p.(faces := p.faces + Entries(r.corners), threw := true)
    else p.(faces := p.faces + Entries(r.corners), springs := p.springs + FaceSprings(r.corners))
  }

  /** The line loop over a file, up to the line whose parsing throws. */
  function FeedLines(p: Parsed, lines: seq<string>, number: string -> real): Parsed
    requires WellFormed(lines)
  {
    if lines == [] then p
    else
      var q := FeedLines(p, lines[..|lines| - 1], number);
      if q.threw then q else FeedLine(q, lines[|lines| - 1], number)
  }

  /** The number of lines whose first field is `prefix`. */
  function CountPrefix(lines: seq<string>, prefix: string): nat {
    if lines == [] then 0
    else CountPrefix(lines[..|lines| - 1], prefix) + (if Prefix(Tokens(lines[|lines| - 1])) == prefix then 1 else 0)
  }

  // ---------------------------------------------------------------------------------------------
  // Properties of the line loop

  /** The loop only appends: every vector keeps what it held, and the spring set only grows. */
  lemma {:induction false} FeedLinesAppends(p: Parsed, lines: seq<string>, number: string -> real)
    requires WellFormed(lines)
    ensures p.vertices <= FeedLines(p, lines, number).vertices && p.normals <= FeedLines(p, lines, number).normals
    ensures p.texCoords <= FeedLines(p, lines, number).texCoords && p.faces <= FeedLines(p, lines, number).faces
    ensures p.springs <= FeedLines(p, lines, number).springs
    ensures p.threw ==> FeedLines(p, lines, number) == p
  {
    if lines != [] {
      FeedLinesAppends(p, lines[..|lines| - 1], number);
      if !FeedLines(p, lines[..|lines| - 1], number).threw {
        FeedLineAppends(FeedLines(p, lines[..|lines| - 1], number), lines[|lines| - 1], number);
      }
    }
  }

  lemma FeedLineAppends(p: Parsed, line: string, number: string -> real)
    requires WellFormedLine(line)
    ensures p.vertices <= FeedLine(p, line, number).vertices && p.normals <= FeedLine(p, line, number).normals
    ensures p.texCoords <= FeedLine(p, line, number).texCoords && p.faces <= FeedLine(p, line, number).faces
    ensures p.springs <= FeedLine(p, line, number).springs
  {
  }

  /** Without a throw, a "v", "vn" or "vt" line adds exactly one element to its vector, a face line
      adds nine entries to `faces`, and any other line adds nothing. */
  lemma {:induction false} FeedLinesCounts(p: Parsed, lines: seq<string>, number: string -> real)
    requires WellFormed(lines) && !FeedLines(p, lines, number).threw
    ensures |FeedLines(p, lines, number).vertices| == |p.vertices| + CountPrefix(lines, "v")
    ensures |FeedLines(p, lines, number).normals| == |p.normals| + CountPrefix(lines, "vn")
    ensures |FeedLines(p, lines, number).texCoords| == |p.texCoords| + CountPrefix(lines, "vt")
    ensures |FeedLines(p, lines, number).faces| == |p.faces| + 9 * CountPrefix(lines, "f")
  {
    if lines != [] {
      FeedLinesCounts(p, lines[..|lines| - 1], number);
      FeedLineCounts(FeedLines(p, lines[..|lines| - 1], number), lines[|lines| - 1], number);
    }
  }

  lemma FeedLineCounts(p: Parsed, line: string, number: string -> real)
    requires WellFormedLine(line) && !FeedLine(p, line, number).threw
    ensures |FeedLine(p, line, number).vertices| == |p.vertices| + (if Prefix(Tokens(line)) == "v" then 1 else 0)
    ensures |FeedLine(p, line, number).normals| == |p.normals| + (if Prefix(Tokens(line)) == "vn" then 1 else 0)
    ensures |FeedLine(p, line, number).texCoords| == |p.texCoords| + (if Prefix(Tokens(line)) == "vt" then 1 else 0)
    ensures |FeedLine(p, line, number).faces| == |p.faces| + (if Prefix(Tokens(line)) == "f" then 9 else 0)
  {
  }

  /** The vertex entries of `faces`: entries 3j, the first of each corner. */
  function VertexEntries(faces: seq<nat>): set<nat> {
    set j | 0 <= j < |faces| && 3 * j < |faces| :: faces[3 * j]
  }

  /** Every structural spring is canonical and joins two vertex entries of `faces`. */
  predicate SpringsJoinFaceVertices(p: Parsed) {
    && |p.faces| % 3 == 0
    && forall s :: s in p.springs ==> s.0 <= s.1 && s.0 in VertexEntries(p.faces) && s.1 in VertexEntries(p.faces)
  }

  lemma VertexEntriesGrow(faces: seq<nat>, more: seq<nat>)
    ensures VertexEntries(faces) <= VertexEntries(faces + more)
  {
    forall x | x in VertexEntries(faces)
      ensures x in VertexEntries(faces + more)
    {
      var j :| 0 <= j < |faces| && 3 * j < |faces| && faces[3 * j] == x;
      VertexEntryAt(faces + more, j);
    }
  }

  lemma VertexEntryAt(faces: seq<nat>, j: nat)
    requires 3 * j < |faces|
    ensures faces[3 * j] in VertexEntries(faces)
  {
  }

  lemma ThirdOfMultiple(a: nat)
    requires a % 3 == 0
    ensures 3 * (a / 3) == a
  {
  }

  /** The vertex index of each decoded corner is a vertex entry of the extended `faces`. */
  lemma CornerVertexIsEntry(faces: seq<nat>, cs: seq<Corner>, i: nat)
    requires |faces| % 3 == 0 && i < |cs|
    ensures FaceVertex(cs, i) in VertexEntries(faces + Entries(cs))
  {
    EntriesAt(cs, i);
    ThirdOfMultiple(|faces|);
    var j := |faces| / 3 + i;
    assert 3 * j == |faces| + 3 * i;
    assert (faces + Entries(cs))[3 * j] == Entries(cs)[3 * i];
    VertexEntryAt(faces + Entries(cs), j);
  }

  lemma FeedFaceKeepsSprings(p: Parsed, r: FaceRead)
    requires SpringsJoinFaceVertices(p) && (!r.threw ==> |r.corners| == 3)
    ensures SpringsJoinFaceVertices(FeedFace(p, r))
  {
    VertexEntriesGrow(p.faces, Entries(r.corners));
    if !r.threw {
      CornerVertexIsEntry(p.faces, r.corners, 0);
      CornerVertexIsEntry(p.faces, r.corners, 1);
      CornerVertexIsEntry(p.faces, r.corners, 2);
    }
  }

  lemma FeedLineKeepsSprings(p: Parsed, line: string, number: string -> real)
    requires SpringsJoinFaceVertices(p) && WellFormedLine(line)
    ensures SpringsJoinFaceVertices(FeedLine(p, line, number))
  {
    if Prefix(Tokens(line)) == "f" {
      FeedFaceKeepsSprings(p, ReadFace(Tokens(line), 3));
    }
  }

  /** The line loop keeps every structural spring canonical and between vertex entries of `faces`. */
  lemma {:induction false} FeedLinesKeepsSprings(p: Parsed, lines: seq<string>, number: string -> real)
    requires SpringsJoinFaceVertices(p) && WellFormed(lines)
    ensures SpringsJoinFaceVertices(FeedLines(p, lines, number))
  {
    if lines != [] {
      FeedLinesKeepsSprings(p, lines[..|lines| - 1], number);
      var q := FeedLines(p, lines[..|lines| - 1], number);
      if !q.threw {
        FeedLineKeepsSprings(q, lines[|lines| - 1], number);
      }
    }
  }

  /** The decimal face token "a/b/c" appends a - 1, c - 1 and b - 1: vertex, normal, texture. */
  lemma DecimalTokenEntries(a: nat, b: nat, c: nat)
    requires 1 <= a <= INT_MAX && 1 <= b <= INT_MAX && 1 <= c <= INT_MAX
    ensures ParseFaceToken(Decimal(a) + "/" + Decimal(b) + "/" + Decimal(c)).Decoded?
    ensures CornerEntries(ParseFaceToken(Decimal(a) + "/" + Decimal(b) + "/" + Decimal(c)).corner) == [a - 1, c - 1, b - 1]
  {
    ParseDecimalToken(a, b, c);
    EntriesOfDecoded(ParseFaceToken(Decimal(a) + "/" + Decimal(b) + "/" + Decimal(c)), a, b, c);
  }

  lemma EntriesOfDecoded(r: TokenParse, a: nat, b: nat, c: nat)
    requires 1 <= a <= INT_MAX && 1 <= b <= INT_MAX && 1 <= c <= INT_MAX
    requires r == Decoded(Corner(a - 1, b - 1, c - 1))
    ensures r.Decoded? && CornerEntries(r.corner) == [a - 1, c - 1, b - 1]
  {
  }

  // ---------------------------------------------------------------------------------------------
  // The structural pairs, in the order a std::set yields them

  /** The lexicographic order of std::pair. */
  predicate PairLess(a: Pair, b: Pair) {
    a.0 < b.0 || (a.0 == b.0 && a.1 < b.1)
  }

  predicate IsLeast(m: Pair, s: set<Pair>) {
    m in s && forall x :: x in s ==> x == m || PairLess(m, x)
  }

  lemma LeastExists(s: set<Pair>)
    requires s != {}
    ensures exists m :: IsLeast(m, s)
    decreases |s|
  {
    var x :| x in s;
    if s - {x} != {} {
      LeastExists(s - {x});
      var m :| IsLeast(m, s - {x});
      if PairLess(x, m) {
        forall y | y in s
          ensures y == x || PairLess(x, y)
        {
          if y != x {
            assert y in s - {x};
          }
        }
        assert IsLeast(x, s);
      } else {
        assert IsLeast(m, s);
      }
    } else {
      assert s == {x};
      assert IsLeast(x, s);
    }
  }

  lemma LeastUnique(m: Pair, m': Pair, s: set<Pair>)
    requires IsLeast(m, s) && IsLeast(m', s)
    ensures m == m'
  {
  }

  /** The elements of a pair set in ascending order, as iterating a std::set visits them. */
  ghost function SortedPairs(s: set<Pair>): (r: seq<Pair>)
    ensures |r| == |s|
    decreases |s|
  {
    if s == {} then []
    else
      LeastExists(s);
      var m :| IsLeast(m, s);
      [m] + SortedPairs(s - {m})
  }

  /** The ordered pairs are exactly the set's elements. */
  lemma {:induction false} SortedPairsMembers(s: set<Pair>)
    ensures forall x :: x in SortedPairs(s) <==> x in s
    decreases |s|
  {
    if s != {} {
      LeastExists(s);
      var m :| IsLeast(m, s);
      SortedPairsFirst(m, s);
      SortedPairsMembers(s - {m});
    }
  }

  /** The ordered pairs are strictly ascending, so none repeats. */
  lemma {:induction false} SortedPairsAscending(s: set<Pair>)
    ensures forall i, j :: 0 <= i < j < |SortedPairs(s)| ==> PairLess(SortedPairs(s)[i], SortedPairs(s)[j])
    decreases |s|
  {
    if s != {} {
      LeastExists(s);
      var m :| IsLeast(m, s);
      SortedPairsFirst(m, s);
      SortedPairsMembers(s - {m});
      SortedPairsAscending(s - {m});
      var r := SortedPairs(s - {m});
      forall i, j | 0 <= i < j < |SortedPairs(s)|
        ensures PairLess(SortedPairs(s)[i], SortedPairs(s)[j])
      {
        assert SortedPairs(s)[j] == r[j - 1];
        if i == 0 {
          assert r[j - 1] in s - {m};
        } else {
          assert SortedPairs(s)[i] == r[i - 1];
        }
      }
    }
  }

  lemma SortedPairsFirst(m: Pair, s: set<Pair>)
    requires IsLeast(m, s)
    ensures SortedPairs(s) == [m] + SortedPairs(s - {m})
  {
    LeastExists(s);
    var m' :| IsLeast(m', s);
    LeastUnique(m, m', s);
  }

  // ---------------------------------------------------------------------------------------------
  // Edge map and bend pairs

  /** The edge keys group g of `faces` (entries 3g, 3g + 1, 3g + 2) contributes, in insertion order. */
  function GroupEdges(faces: seq<nat>, g: nat): seq<Pair>
    requires 3 * g + 3 <= |faces|
  {
    [MakeCanonicalSpring(faces[3 * g], faces[3 * g + 1]),
     MakeCanonicalSpring(faces[3 * g + 1], faces[3 * g + 2]),
     MakeCanonicalSpring(faces[3 * g + 2], faces[3 * g])]
  }

  /** edgeToFaceMap[key].push_back(g): operator[] starts an absent key with an empty vector. */
  function Push(m: map<Pair, seq<nat>>, key: Pair, g: nat): map<Pair, seq<nat>> {
    m[key := (if key in m then m[key] else []) + [g]]
  }

  /** The map after the first n groups. */
  function EdgeMap(faces: seq<nat>, n: nat): map<Pair, seq<nat>>
    requires 3 * n <= |faces|
  {
    if n == 0 then map[]
    else
      var e := GroupEdges(faces, n - 1);
      Push(Push(Push(EdgeMap(faces, n - 1), e[0], n - 1), e[1], n - 1), e[2], n - 1)
  }

  /** The map lists group g under key exactly when key is one of that group's edges, and it lists the
      groups of each key in ascending order. */
  lemma {:induction false} EdgeMapMembers(faces: seq<nat>, n: nat, key: Pair, g: nat)
    requires 3 * n <= |faces|
    ensures (key in EdgeMap(faces, n) && g in EdgeMap(faces, n)[key]) <==> (g < n && key in GroupEdges(faces, g))
  {
    if n > 0 {
      EdgeMapMembers(faces, n - 1, key, g);
      var e := GroupEdges(faces, n - 1);
      var m0 := EdgeMap(faces, n - 1);
      PushMembers(m0, e[0], n - 1, key, g);
      PushMembers(Push(m0, e[0], n - 1), e[1], n - 1, key, g);
      PushMembers(Push(Push(m0, e[0], n - 1), e[1], n - 1), e[2], n - 1, key, g);
    }
  }

  lemma PushMembers(m: map<Pair, seq<nat>>, k: Pair, h: nat, key: Pair, g: nat)
    ensures (key in Push(m, k, h) && g in Push(m, k, h)[key]) <==> (key in m && g in m[key]) || (key == k && g == h)
  {
  }

  /** Every group the map lists under a key is below n. */
  lemma EdgeMapBelow(faces: seq<nat>, n: nat, key: Pair)
    requires 3 * n <= |faces| && key in EdgeMap(faces, n)
    ensures forall i :: 0 <= i < |EdgeMap(faces, n)[key]| ==> EdgeMap(faces, n)[key][i] < n
  {
    forall i | 0 <= i < |EdgeMap(faces, n)[key]|
      ensures EdgeMap(faces, n)[key][i] < n
    {
      EdgeMapMembers(faces, n, key, EdgeMap(faces, n)[key][i]);
    }
  }

  /** Every group a map lists starts three entries inside `faces`. */
  predicate GroupsInRange(faces: seq<nat>, m: map<Pair, seq<nat>>) {
    forall key :: key in m ==> forall i :: 0 <= i < |m[key]| ==> 3 * m[key][i] + 3 <= |faces|
  }

  lemma EdgeMapGroupsInRange(faces: seq<nat>, n: nat)
    requires 3 * n <= |faces|
    ensures GroupsInRange(faces, EdgeMap(faces, n))
  {
    forall key | key in EdgeMap(faces, n)
      ensures forall i :: 0 <= i < |EdgeMap(faces, n)[key]| ==> 3 * EdgeMap(faces, n)[key][i] + 3 <= |faces|
    {
      EdgeMapBelow(faces, n, key);
    }
  }

  /** The third vertex of group g opposite the edge key. */
  function Third(faces: seq<nat>, g: nat, key: Pair): nat
    requires 3 * g + 3 <= |faces|
  {
    FindThirdVertex(faces[3 * g .. 3 * g + 3], key.0, key.1)
  }

  /** An edge key shared by exactly two groups whose third vertices differ. */
  predicate IsBendEdge(faces: seq<nat>, m: map<Pair, seq<nat>>, key: Pair)
    requires GroupsInRange(faces, m)
  {
    key in m && |m[key]| == 2 && Third(faces, m[key][0], key) != Third(faces, m[key][1], key)
  }

  function BendOf(faces: seq<nat>, m: map<Pair, seq<nat>>, key: Pair): Pair
    requires GroupsInRange(faces, m) && key in m && |m[key]| == 2
  {
    MakeCanonicalSpring(Third(faces, m[key][0], key), Third(faces, m[key][1], key))
  }

  /** uniqueBendPairs: one canonical pair of third vertices for every bend edge of the map. */
  function BendSet(faces: seq<nat>, m: map<Pair, seq<nat>>): set<Pair>
    requires GroupsInRange(faces, m)
  {
    set key | key in m && IsBendEdge(faces, m, key) :: BendOf(faces, m, key)
  }

  /** Every bend pair joins two different vertices, in ascending order, each the third vertex of one of
      two groups that share an edge of `faces`. */
  lemma BendPairsFromSharedEdges(faces: seq<nat>, n: nat, s: Pair)
    requires 3 * n <= |faces| && GroupsInRange(faces, EdgeMap(faces, n)) && s in BendSet(faces, EdgeMap(faces, n))
    ensures s.0 < s.1
    ensures exists key: Pair, g0: nat, g1: nat :: g0 < n && g1 < n && key in GroupEdges(faces, g0) && key in GroupEdges(faces, g1)
                                   && s == MakeCanonicalSpring(Third(faces, g0, key), Third(faces, g1, key))
  {
    var m := EdgeMap(faces, n);
    var key :| key in m && IsBendEdge(faces, m, key) && s == BendOf(faces, m, key);
    var g0, g1 := m[key][0], m[key][1];
    EdgeMapMembers(faces, n, key, g0);
    EdgeMapMembers(faces, n, key, g1);
  }

  // ---------------------------------------------------------------------------------------------
  // The loader

  datatype LoadResult = CouldNotOpen | Loaded | Threw

  /** The part of the mesh the line loop appends to, with the spring set and the throw flag beside it. */
  function Snapshot(mesh: SoftBodyMesh, springs: set<Pair>, threw: bool): Parsed
    reads mesh
  {
    Parsed(mesh.vertices, mesh.normals, mesh.texCoords, mesh.faces, springs, threw)
  }

  /** The body of the line loop for one line. */
  method ReadLine(mesh: SoftBodyMesh, line: string, number: string -> real, springs: set<Pair>)
      returns (springs': set<Pair>, threw: bool)
    requires WellFormedLine(line)
    modifies mesh
    ensures Snapshot(mesh, springs', threw) == FeedLine(old(Snapshot(mesh, springs, false)), line, number)
    ensures unchanged(mesh`velocities, mesh`structuralPairs, mesh`bendPairs)
  {
    springs', threw := springs, false;
    var toks := Tokens(line);
    var prefix := Prefix(toks);
    if prefix == "v" {
      mesh.vertices := mesh.vertices + [Vec3(number(Field(toks, 1)), number(Field(toks, 2)), number(Field(toks, 3)))];
    } else if prefix == "vn" {
      mesh.normals := mesh.normals + [Vec3(number(Field(toks, 1)), number(Field(toks, 2)), number(Field(toks, 3)))];
    } else if prefix == "vt" {
      mesh.texCoords := mesh.texCoords + [Vec2(number(Field(toks, 1)), number(Field(toks, 2)))];
    } else if prefix == "f" {
      springs', threw := ReadFaceLine(mesh, toks, springs);
    }
  }

  /** The face branch: three token reads, then the three structural springs of the triangle. */
  method ReadFaceLine(mesh: SoftBodyMesh, toks: seq<string>, springs: set<Pair>) returns (springs': set<Pair>, threw: bool)
    requires WellFormedFace(toks)
    modifies mesh
    ensures Snapshot(mesh, springs', threw) == FeedFace(old(Snapshot(mesh, springs, false)), ReadFace(toks, 3))
    ensures unchanged(mesh`velocities, mesh`structuralPairs, mesh`bendPairs)
  {
    var v;
    v, threw := ReadFaceCorners(mesh, toks);
    if threw {
      return springs, true;
    }
    springs' := springs + {MakeCanonicalSpring(v[0], v[1]), MakeCanonicalSpring(v[1], v[2]),
                           MakeCanonicalSpring(v[2], v[0])};
  }

  /** The loop over the three tokens of a face line; v holds the vertex index of each decoded corner. */
  method ReadFaceCorners(mesh: SoftBodyMesh, toks: seq<string>) returns (v: seq<nat>, threw: bool)
    requires WellFormedFace(toks)
    modifies mesh`faces
    ensures threw == ReadFace(toks, 3).threw
    ensures mesh.faces == old(mesh.faces) + Entries(ReadFace(toks, 3).corners)
    ensures !threw ==> |v| == 3 && forall k :: 0 <= k < 3 ==> v[k] == FaceVertex(ReadFace(toks, 3).corners, k)
  {
    var faceVertexStr := "";
    v := [];
    for i := 0 to 3
      invariant faceVertexStr == (if i == 0 then "" else FaceField(toks, i - 1))
      invariant !ReadFace(toks, i).threw
      invariant mesh.faces == old(mesh.faces) + Entries(ReadFace(toks, i).corners)
      invariant |v| == i && forall k :: 0 <= k < i ==> v[k] == FaceVertex(ReadFace(toks, i).corners, k)
    {
      if i + 1 < |toks| {
        faceVertexStr := toks[i + 1];
      }
      assert faceVertexStr == FaceField(toks, i) && '/' in faceVertexStr;
      var parsed := ReadCorner(mesh, faceVertexStr);
      match parsed
      case NoSlash =>
        NoSlashExactly(faceVertexStr);
        assert false;
      case Throws =>
        ReadFaceThrows(toks, i);
        return v, true;
      case Decoded(c) =>
        DecodedStep(toks, i, c, old(mesh.faces), v);
        v := v + [ToUnsigned(c.vertex)];
    }
    threw := false;
  }

  /** One token of a face line: find, substr and stoi, then the three pushes of a decoded corner. */
  method ReadCorner(mesh: SoftBodyMesh, faceVertexStr: string) returns (parsed: TokenParse)
    modifies mesh`faces
    ensures parsed == ParseFaceToken(faceVertexStr)
    ensures parsed.Decoded? ==> mesh.faces == old(mesh.faces) + CornerEntries(parsed.corner)
    ensures !parsed.Decoded? ==> mesh.faces == old(mesh.faces)
  {
    parsed := ParseFaceToken(faceVertexStr);
    if parsed.Decoded? {
      var c := parsed.corner;
      mesh.faces := mesh.faces + [ToUnsigned(c.vertex)];
      mesh.faces := mesh.faces + [ToUnsigned(c.normal)];
      mesh.faces := mesh.faces + [ToUnsigned(c.tex)];
    }
  }

  /** A token that decodes adds its corner to what the earlier tokens read: its three entries follow
      theirs, and its vertex index follows theirs. */
  lemma DecodedStep(toks: seq<string>, i: nat, c: Corner, before: seq<nat>, v: seq<nat>)
    requires i < 3 && WellFormedFace(toks) && !ReadFace(toks, i).threw
    requires ParseFaceToken(FaceField(toks, i)) == Decoded(c)
    requires |v| == i && forall k :: 0 <= k < i ==> v[k] == FaceVertex(ReadFace(toks, i).corners, k)
    ensures !ReadFace(toks, i + 1).threw
    ensures before + Entries(ReadFace(toks, i).corners) + CornerEntries(c) == before + Entries(ReadFace(toks, i + 1).corners)
    ensures forall k :: 0 <= k < i + 1 ==> (v + [ToUnsigned(c.vertex)])[k] == FaceVertex(ReadFace(toks, i + 1).corners, k)
  {
    var cs := ReadFace(toks, i).corners;
    ReadFaceDecodes(toks, i, c);
    EntriesSnoc(cs, c);
    assert before + Entries(cs) + CornerEntries(c) == before + (Entries(cs) + CornerEntries(c));
    forall k | 0 <= k < i + 1
      ensures (v + [ToUnsigned(c.vertex)])[k] == FaceVertex(cs + [c], k)
    {
      if k < i {
        assert (cs + [c])[k] == cs[k];
      }
    }
  }

  /** A token that decodes appends its corner to the corners read so far. */
  lemma ReadFaceDecodes(toks: seq<string>, i: nat, c: Corner)
    requires i < 3 && WellFormedFace(toks) && !ReadFace(toks, i).threw
    requires ParseFaceToken(FaceField(toks, i)) == Decoded(c)
    ensures ReadFace(toks, i + 1) == FaceRead(ReadFace(toks, i).corners + [c], false)
  {
  }

  /** Appending a corner appends its three entries. */
  lemma EntriesSnoc(cs: seq<Corner>, c: Corner)
    ensures Entries(cs + [c]) == Entries(cs) + CornerEntries(c)
  {
    assert (cs + [c])[..|cs|] == cs;
  }

  /** A token that throws ends the face line with the corners read before it. */
  lemma ReadFaceThrows(toks: seq<string>, i: nat)
    requires i < 3 && WellFormedFace(toks) && !ReadFace(toks, i).threw
    requires ParseFaceToken(FaceField(toks, i)) == Throws
    ensures ReadFace(toks, 3) == FaceRead(ReadFace(toks, i).corners, true)
  {
    ReadFaceStaysThrown(toks, i + 1, 3);
  }

  /** Builds edgeToFaceMap from the 3-entry groups of `faces`. */
  method BuildEdgeToFaceMap(faces: seq<nat>) returns (m: map<Pair, seq<nat>>)
    requires |faces| % 3 == 0
    ensures m == EdgeMap(faces, |faces| / 3)
  {
    m := map[];
    var i := 0;
    ghost var g := 0;
    ThirdOfMultiple(|faces|);
    while i < |faces|
      invariant i == 3 * g && 3 * g <= |faces|
      invariant m == EdgeMap(faces, g)
    {
      var v1, v2, v3 := faces[i], faces[i + 1], faces[i + 2];
      var triangleIndex := i / 3;
      assert triangleIndex == g;
      m := Push(m, MakeCanonicalSpring(v1, v2), triangleIndex);
      m := Push(m, MakeCanonicalSpring(v2, v3), triangleIndex);
      m := Push(m, MakeCanonicalSpring(v3, v1), triangleIndex);
      i, g := i + 3, g + 1;
    }
  }

  /** Collects uniqueBendPairs from the edge map. */
  method CollectBendPairs(faces: seq<nat>, m: map<Pair, seq<nat>>) returns (bends: set<Pair>)
    requires GroupsInRange(faces, m)
    ensures bends == BendSet(faces, m)
  {
    bends := {};
    var todo := m.Keys;
    while todo != {}
      invariant todo <= m.Keys
      invariant bends == set key | key in m && key !in todo && IsBendEdge(faces, m, key) :: BendOf(faces, m, key)
      decreases |todo|
    {
      var key :| key in todo;
      if |m[key]| == 2 {
        var tri1 := faces[3 * m[key][0] .. 3 * m[key][0] + 3];
        var tri2 := faces[3 * m[key][1] .. 3 * m[key][1] + 3];
        var v3 := FindThirdVertex(tri1, key.0, key.1);
        var v4 := FindThirdVertex(tri2, key.0, key.1);
        if v3 != v4 {
          bends := bends + {MakeCanonicalSpring(v3, v4)};
        }
      }
      todo := todo - {key};
    }
  }

  /** loadOBJ. `file` is None when the file cannot be opened, and otherwise holds its lines; `number`
      stands for the float extraction of one field. The load ends with Threw when a std::stoi call
      throws: the vectors keep what was appended up to that point. */
  method LoadOBJ(file: Option<seq<string>>, number: string -> real, mesh: SoftBodyMesh) returns (result: LoadResult)
    requires |mesh.faces| % 3 == 0
    requires file.Some? ==> WellFormed(file.value)
    modifies mesh
    ensures file.None? <==> result == CouldNotOpen
    ensures file.None? ==> unchanged(mesh)
    ensures file.Some? ==>
              Snapshot(mesh, FeedLines(old(Snapshot(mesh, {}, false)), file.value, number).springs, result == Threw)
              == FeedLines(old(Snapshot(mesh, {}, false)), file.value, number)
    ensures result == Loaded && file.Some? ==>
              mesh.structuralPairs
              == old(mesh.structuralPairs) + SortedPairs(FeedLines(old(Snapshot(mesh, {}, false)), file.value, number).springs)
    ensures result == Loaded ==> mesh.velocities == seq(|mesh.vertices|, _ => Zero3)
    ensures result != Loaded ==> mesh.velocities == old(mesh.velocities) && mesh.structuralPairs == old(mesh.structuralPairs)
    ensures mesh.bendPairs == old(mesh.bendPairs)
  {
    if file.None? {
      return CouldNotOpen;
    }
    var uniqueStructuralPairs, threw := ReadLines(mesh, file.value, number);
    if threw {
      return Threw;
    }
    FeedLinesAppends(old(Snapshot(mesh, {}, false)), file.value, number);
    FeedLinesKeepsSprings(old(Snapshot(mesh, {}, false)), file.value, number);
    AppendStructuralPairs(mesh, uniqueStructuralPairs);

    var edgeToFaceMap := BuildEdgeToFaceMap(mesh.faces);
    EdgeMapGroupsInRange(mesh.faces, |mesh.faces| / 3);
    var uniqueBendPairs := CollectBendPairs(mesh.faces, edgeToFaceMap);

    mesh.velocities := seq(|mesh.vertices|, _ => Zero3);
    return Loaded;
  }

  /** The line loop of loadOBJ, up to the end of the file or the first line that throws. */
  method ReadLines(mesh: SoftBodyMesh, lines: seq<string>, number: string -> real) returns (springs: set<Pair>, threw: bool)
    requires WellFormed(lines)
    modifies mesh
    ensures Snapshot(mesh, springs, threw) == FeedLines(old(Snapshot(mesh, {}, false)), lines, number)
    ensures unchanged(mesh`velocities, mesh`structuralPairs, mesh`bendPairs)
  {
    ghost var start := Snapshot(mesh, {}, false);
    springs := {};
    for n := 0 to |lines|
      invariant Snapshot(mesh, springs, false) == FeedLines(start, lines[..n], number)
      invariant unchanged(mesh`velocities, mesh`structuralPairs, mesh`bendPairs)
    {
      assert lines[..n + 1][..n] == lines[..n];
      springs, threw := ReadLine(mesh, lines[n], number, springs);
      if threw {
        FeedLinesAfterThrow(start, lines, n + 1, number);
        return;
      }
    }
    assert lines[..|lines|] == lines;
    threw := false;
  }

  /** The loop over uniqueStructuralPairs: std::set iteration visits the pairs in ascending order. */
  method AppendStructuralPairs(mesh: SoftBodyMesh, pairs: set<Pair>)
    modifies mesh`structuralPairs
    ensures mesh.structuralPairs == old(mesh.structuralPairs) + SortedPairs(pairs)
  {
    var rest := pairs;
    while rest != {}
      invariant mesh.structuralPairs + SortedPairs(rest) == old(mesh.structuralPairs) + SortedPairs(pairs)
      decreases |rest|
    {
      LeastExists(rest);
      var least :| IsLeast(least, rest);
      SortedPairsFirst(least, rest);
      mesh.structuralPairs := mesh.structuralPairs + [least];
      rest := rest - {least};
    }
  }

  /** When the line at n - 1 throws, the rest of the file changes nothing. */
  lemma {:induction false} FeedLinesAfterThrow(p: Parsed, lines: seq<string>, n: nat, number: string -> real)
    requires n <= |lines| && WellFormed(lines) && FeedLines(p, lines[..n], number).threw
    ensures FeedLines(p, lines, number) == FeedLines(p, lines[..n], number)
    decreases |lines| - n
  {
    if n < |lines| {
      assert lines[..n + 1][..n] == lines[..n];
      FeedLinesAfterThrow(p, lines, n + 1, number);
    } else {
      assert lines[..n] == lines;
    }
  }
}
