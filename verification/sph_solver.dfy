/** The SPH particle solver as the class that owns the particle state: per-particle sequences, the spatial
    lookup kept in two arrays, the placement of particles on a lattice, the reset, the time step with its
    box collision, and the neighbour enumeration. The functions of SpatialHash specify the lookup and the
    neighbour scan; the functions here specify placement and integration. */
module SphSolver {
  import opened Glm
  import opened CppInt
  import opened SpatialHash

  const DEFAULT_PARTICLE_COUNT: int := 2500
  const SPHERE_RADIUS: real := 1.0
  const DIMENSION: int := 3
  /** (float)1e-6, added to a density before dividing by it. */
  const DENSITY_EPSILON: real := 0.000001
  const INITIAL_COLOR: Vec4 := Vec4(0.8, 0.2, 0.2, 1.0)

  // ---------------------------------------------------------------------------------------------
  // Integer roots of the particle count

  lemma CubeAtLeast(k: nat)
    ensures k <= k * k * k
  {
    if k > 0 {
      assert k * k >= 1;
      assert k * k * k == k * (k * k);
    }
  }

  lemma SquareAtLeast(k: nat)
    ensures k <= k * k
  {
  }

  /** The largest s at or above `s` whose cube does not exceed n. */
  function CubeRootFrom(n: nat, s: nat): (r: nat)
    requires s * s * s <= n
    ensures s <= r
    ensures r * r * r <= n < (r + 1) * (r + 1) * (r + 1)
    decreases n - s
  {
    if (s + 1) * (s + 1) * (s + 1) > n then s
    else
      CubeAtLeast(s + 1);
      CubeRootFrom(n, s + 1)
  }

  /** (int)cbrtf(n) for a count n, as the exact integer cube root. */
  function IntCbrt(n: nat): (s: nat)
    ensures s * s * s <= n < (s + 1) * (s + 1) * (s + 1)
    ensures n > 0 ==> s > 0
  {
    CubeRootFrom(n, 0)
  }

  /** The largest s at or above `s` whose square does not exceed n. */
  function SquareRootFrom(n: nat, s: nat): (r: nat)
    requires s * s <= n
    ensures s <= r
    ensures r * r <= n < (r + 1) * (r + 1)
    decreases n - s
  {
    if (s + 1) * (s + 1) > n then s
    else
      SquareAtLeast(s + 1);
      SquareRootFrom(n, s + 1)
  }

  /** (int)sqrt((float)n) for a count n, as the exact integer square root. */
  function IntSqrt(n: nat): (s: nat)
    ensures s * s <= n < (s + 1) * (s + 1)
    ensures n > 0 ==> s > 0
  {
    SquareRootFrom(n, 0)
  }

  /** 2500 particles make a cube thirteen particles wide. */
  lemma DefaultCubeSide()
    ensures IntCbrt(DEFAULT_PARTICLE_COUNT) == 13
  {
  }

  // ---------------------------------------------------------------------------------------------
  // Lattice placement

  /** The lattice coordinates particle i receives in a cube of side s: x fastest, then y, then z. */
  function LatticeCoords(i: nat, s: nat): (c: Cell)
    requires s > 0
    ensures 0 <= c.x < s && 0 <= c.y < s && 0 <= c.z
  {
    var rem := i % (s * s);
    QuotientBelow(rem, s);
    Cell(rem % s, rem / s, i / (s * s))
  }

  lemma QuotientBelow(a: int, s: int)
    requires s > 0 && 0 <= a < s * s
    ensures 0 <= a / s < s
  {
    var q, r := a / s, a % s;
    assert a == s * q + r;
    if q >= s {
      MulAtLeast(s, q - s + 1);
      assert false;
    }
  }

  /** The lattice coordinates are the digits of i: i = x + s * y + s * s * z, and the first s * s * s
      particles fill the cube. */
  lemma LatticeCoordsDecompose(i: nat, s: nat)
    requires s > 0
    ensures var c := LatticeCoords(i, s); i == c.x + s * c.y + s * s * c.z
    ensures i < s * s * s ==> LatticeCoords(i, s).z < s
  {
    var c := LatticeCoords(i, s);
    var rem := i % (s * s);
    assert i == (s * s) * c.z + rem;
    assert rem == s * c.y + c.x;
    if i < s * s * s && c.z >= s {
      MulAtLeast(s * s, c.z - s + 1);
      assert false;
    }
  }

  /** Lattice coordinates are the unique digits of i in base s (the last digit unbounded). */
  lemma LatticeCoordsUnique(i: nat, s: nat, e: Cell)
    requires s > 0 && 0 <= e.x < s && 0 <= e.y < s && 0 <= e.z
    requires i == e.x + s * e.y + s * s * e.z
    ensures LatticeCoords(i, s) == e
  {
    var lo := e.x + s * e.y;
    assert 0 <= lo < s * s by {
      MulAtLeast(s, s - e.y);
      assert s * (s - e.y) == s * s - s * e.y;
    }
    ModUnique(i, s * s, e.z, lo);
    ModUnique(lo, s, e.y, e.x);
  }

  /** The position of lattice point i: the origin plus its lattice coordinates times the gap. */
  function LatticePoint(origin: Vec3, gap: real, s: nat, i: nat): Vec3
    requires s > 0
  {
    CellPoint(origin, gap, LatticeCoords(i, s))
  }

  /** The point of integer coordinates c on a grid of spacing gap anchored at origin. */
  function CellPoint(origin: Vec3, gap: real, c: Cell): Vec3 {
    Vec3(origin.x + c.x as real * gap, origin.y + c.y as real * gap, origin.z + c.z as real * gap)
  }

  /** On a grid with a nonzero spacing, distinct coordinates give distinct points. */
  lemma CellPointInjective(origin: Vec3, gap: real, c: Cell, d: Cell)
    requires gap != 0.0 && CellPoint(origin, gap, c) == CellPoint(origin, gap, d)
    ensures c == d
  {
    ScaledEqual(c.x, d.x, gap);
    ScaledEqual(c.y, d.y, gap);
    ScaledEqual(c.z, d.z, gap);
  }

  lemma ScaledEqual(a: int, b: int, gap: real)
    requires gap != 0.0 && a as real * gap == b as real * gap
    ensures a == b
  {
    assert (a as real - b as real) * gap == 0.0;
  }

  /** With a nonzero gap no two particles of the cube share a position. */
  lemma LatticePointsDistinct(origin: Vec3, gap: real, s: nat, i: nat, j: nat)
    requires s > 0 && gap != 0.0 && i != j
    ensures LatticePoint(origin, gap, s, i) != LatticePoint(origin, gap, s, j)
  {
    if LatticePoint(origin, gap, s, i) == LatticePoint(origin, gap, s, j) {
      CellPointInjective(origin, gap, LatticeCoords(i, s), LatticeCoords(j, s));
      LatticeCoordsInjective(i, j, s);
      assert false;
    }
  }

  /** Distinct particles get distinct lattice coordinates. */
  lemma LatticeCoordsInjective(i: nat, j: nat, s: nat)
    requires s > 0 && LatticeCoords(i, s) == LatticeCoords(j, s)
    ensures i == j
  {
    LatticeCoordsDecompose(i, s);
    LatticeCoordsDecompose(j, s);
  }

  /** Neighbouring particles of the cube along x are exactly one gap apart. */
  lemma LatticeStepAlongX(origin: Vec3, gap: real, s: nat, i: nat)
    requires s > 0 && LatticeCoords(i, s).x + 1 < s
    ensures var p := LatticePoint(origin, gap, s, i);
            LatticePoint(origin, gap, s, i + 1) == Vec3(p.x + gap, p.y, p.z)
  {
    var c := LatticeCoords(i, s);
    var d := Cell(c.x + 1, c.y, c.z);
    LatticeCoordsDecompose(i, s);
    LatticeCoordsUnique(i + 1, s, d);
    CellPointStepX(origin, gap, c);
  }

  lemma CellPointStepX(origin: Vec3, gap: real, c: Cell)
    ensures var p := CellPoint(origin, gap, c);
            CellPoint(origin, gap, Cell(c.x + 1, c.y, c.z)) == Vec3(p.x + gap, p.y, p.z)
  {
    var p, q := CellPoint(origin, gap, c), CellPoint(origin, gap, Cell(c.x + 1, c.y, c.z));
    assert q.x == p.x + gap by {
      StepTimesGap(c.x, gap);
    }
    assert q.y == p.y && q.z == p.z;
  }

  lemma StepTimesGap(k: int, gap: real)
    ensures (k + 1) as real * gap == k as real * gap + gap
  {
    var x := k as real;
    assert (k + 1) as real == x + 1.0;
    assert (x + 1.0) * gap == x * gap + 1.0 * gap;
  }

  /** The point of particle k on the square grid of grid_init_particle(…, 2): column k % columns to the
      right of the origin, row k / columns below it, at height z. */
  function SquarePoint(origin: Vec3, gap: real, columns: nat, k: nat, z: real): Vec3
    requires columns > 0
  {
    Vec3(origin.x + (k % columns) as real * gap, origin.y - (k / columns) as real * gap, z)
  }

  /** The positions after placing the first `count` particles on the square grid; each keeps its z. */
  function SquarePlacement(before: seq<Vec3>, origin: Vec3, gap: real, columns: nat, count: nat): (r: seq<Vec3>)
    requires columns > 0 && count <= |before|
    ensures |r| == |before|
    ensures forall k :: 0 <= k < count ==> r[k] == SquarePoint(origin, gap, columns, k, before[k].z)
    ensures forall k :: count <= k < |before| ==> r[k] == before[k]
  {
    seq(|before|, k requires 0 <= k < |before| =>
      if k < count then SquarePoint(origin, gap, columns, k, before[k].z) else before[k])
  }

  /** The positions after placing `count` particles on the cube of grid_init_particle(…, 3): particle k
      goes to lattice point k, particles past the end of the position array are not placed. */
  function CubePlacement(before: seq<Vec3>, origin: Vec3, gap: real, side: nat, count: nat): (r: seq<Vec3>)
    requires side > 0
    ensures |r| == |before|
    ensures forall k :: 0 <= k < |before| && k < count ==> r[k] == LatticePoint(origin, gap, side, k)
    ensures forall k :: count <= k < |before| ==> r[k] == before[k]
  {
    seq(|before|, k requires 0 <= k < |before| => if k < count then LatticePoint(origin, gap, side, k) else before[k])
  }

  // ---------------------------------------------------------------------------------------------
  // Integration and box collision of one particle

  /** One axis of the box collision: a sphere at coordinate p outside [lo, hi] is put back on the face it
      crossed (the lower face first) and its velocity reflected and scaled by the restitution e. */
  function ClampAxis(p: real, v: real, lo: real, hi: real, e: real): (r: (real, real))
    ensures r.0 == p <==> lo <= p - SPHERE_RADIUS && p + SPHERE_RADIUS <= hi
    ensures r.0 == p ==> r.1 == v
    ensures r.0 != p ==> r.1 == -v * e && (r.0 == lo + SPHERE_RADIUS || r.0 == hi - SPHERE_RADIUS)
    ensures p - SPHERE_RADIUS < lo ==> r == (lo + SPHERE_RADIUS, -v * e)
    ensures lo <= p - SPHERE_RADIUS && p + SPHERE_RADIUS > hi ==> r == (hi - SPHERE_RADIUS, -v * e)
    ensures hi - lo >= 2.0 * SPHERE_RADIUS ==> lo + SPHERE_RADIUS <= r.0 <= hi - SPHERE_RADIUS
  {
    if p - SPHERE_RADIUS < lo then (lo + SPHERE_RADIUS, -v * e)
    else if p + SPHERE_RADIUS > hi then (hi - SPHERE_RADIUS, -v * e)
    else (p, v)
  }

  /** A box that leaves room for a particle sphere on every axis. */
  predicate WideBox(boxMin: Vec3, boxMax: Vec3) {
    && boxMax.x - boxMin.x >= 2.0 * SPHERE_RADIUS
    && boxMax.y - boxMin.y >= 2.0 * SPHERE_RADIUS
    && boxMax.z - boxMin.z >= 2.0 * SPHERE_RADIUS
  }

  /** The whole particle sphere lies inside the box. */
  predicate InBox(p: Vec3, boxMin: Vec3, boxMax: Vec3) {
    && boxMin.x + SPHERE_RADIUS <= p.x <= boxMax.x - SPHERE_RADIUS
    && boxMin.y + SPHERE_RADIUS <= p.y <= boxMax.y - SPHERE_RADIUS
    && boxMin.z + SPHERE_RADIUS <= p.z <= boxMax.z - SPHERE_RADIUS
  }

  /** The box collision of one particle, axis by axis. */
  function BoxCollide(p: Vec3, v: Vec3, boxMin: Vec3, boxMax: Vec3, e: real): (pv: (Vec3, Vec3))
    ensures WideBox(boxMin, boxMax) ==> InBox(pv.0, boxMin, boxMax)
    ensures InBox(p, boxMin, boxMax) ==> pv == (p, v)
  {
    var cx := ClampAxis(p.x, v.x, boxMin.x, boxMax.x, e);
    var cy := ClampAxis(p.y, v.y, boxMin.y, boxMax.y, e);
    var cz := ClampAxis(p.z, v.z, boxMin.z, boxMax.z, e);
    (Vec3(cx.0, cy.0, cz.0), Vec3(cx.1, cy.1, cz.1))
  }

  /** A particle already inside a wide box is left where it is by a second collision pass. */
  lemma BoxCollideIdempotent(p: Vec3, v: Vec3, w: Vec3, boxMin: Vec3, boxMax: Vec3, e: real)
    requires WideBox(boxMin, boxMax)
    ensures BoxCollide(BoxCollide(p, v, boxMin, boxMax, e).0, w, boxMin, boxMax, e).0
         == BoxCollide(p, v, boxMin, boxMax, e).0
  {
  }

  /** The velocity after gravity has acted for dt. */
  function FallVelocity(v: Vec3, g: real, dt: real): Vec3 {
    Vec3(v.x, v.y - g * dt, v.z)
  }

  /** The velocity after gravity and then the pressure force (per unit density) have acted for dt. */
  function PressedVelocity(v: Vec3, g: real, dt: real, force: Vec3, density: real): Vec3
    requires density + DENSITY_EPSILON != 0.0
  {
    Add(FallVelocity(v, g, dt), Scale(Scale(force, 1.0 / (density + DENSITY_EPSILON)), dt))
  }

  /** The new position and velocity of a particle after one step: integrate, then collide with the box. */
  function StepParticle(p: Vec3, v: Vec3, force: Vec3, density: real, g: real, dt: real,
                        boxMin: Vec3, boxMax: Vec3, e: real): (pv: (Vec3, Vec3))
    requires density + DENSITY_EPSILON != 0.0
    ensures WideBox(boxMin, boxMax) ==> InBox(pv.0, boxMin, boxMax)
  {
    var v2 := PressedVelocity(v, g, dt, force, density);
    BoxCollide(Add(p, Scale(v2, dt)), v2, boxMin, boxMax, e)
  }

  /** Without forces, with zero gravity and inside a wide box, a resting particle stays at rest. */
  lemma RestingParticleStaysPut(p: Vec3, density: real, dt: real, boxMin: Vec3, boxMax: Vec3, e: real)
    requires density + DENSITY_EPSILON != 0.0 && InBox(p, boxMin, boxMax)
    ensures StepParticle(p, Zero3, Zero3, density, 0.0, dt, boxMin, boxMax, e) == (p, Zero3)
  {
    assert PressedVelocity(Zero3, 0.0, dt, Zero3, density) == Zero3;
    assert Add(p, Scale(Zero3, dt)) == p;
  }

  // ---------------------------------------------------------------------------------------------
  // The solver

  class SPHSolver {
    var densities: seq<real>
    var velocities: seq<Vec3>
    var positions: seq<Vec3>
    var predictedPositions: seq<Vec3>
    var colors: seq<Vec4>

    /** The (key, particle) table, sorted by key after every lookup update. */
    var positionsHashed: array<SpatialCell>
    /** For every key, the first position of that key in positionsHashed, or -1. */
    var hashFirstIdx: array<int>

    var spawnPos: Vec3
    var spawnGap: real
    var nParticles: int
    var gravity: real
    var mass: real
    var pressureMult: real
    var smoothingRadius: real
    var density0: real
    var restitution: real

    /** Every per-particle sequence and both lookup arrays have one slot per particle. */
    ghost predicate Valid()
      reads this, positionsHashed, hashFirstIdx
    {
      var n := |positions|;
      && n <= INT_MAX
      && smoothingRadius != 0.0
      && |densities| == n && |velocities| == n && |predictedPositions| == n && |colors| == n
      && LookupReady()
    }

    /** The lookup arrays have the shape the neighbour scan relies on. */
    ghost predicate LookupReady()
      reads this, positionsHashed, hashFirstIdx
    {
      && smoothingRadius != 0.0 && |positions| <= INT_MAX
      && LookupShape(positionsHashed[..], hashFirstIdx[..], |positions|)
    }

    constructor (g: real)
      ensures Valid()
      ensures |positions| == nParticles
      ensures gravity == g && spawnPos == Zero3 && spawnGap == 2.0 && nParticles == DEFAULT_PARTICLE_COUNT
      ensures mass == 1.0 && pressureMult == 1.0 && smoothingRadius == 2.0 && density0 == 1000.0
      ensures restitution == 0.5
      ensures densities == seq(DEFAULT_PARTICLE_COUNT, _ => 0.0)
      ensures velocities == seq(DEFAULT_PARTICLE_COUNT, _ => Zero3)
      ensures predictedPositions == seq(DEFAULT_PARTICLE_COUNT, _ => Zero3)
      ensures colors == seq(DEFAULT_PARTICLE_COUNT, _ => INITIAL_COLOR)
      ensures positions == CubePlacement(seq(DEFAULT_PARTICLE_COUNT, _ => Zero3), Zero3, 2.0,
                                         IntCbrt(DEFAULT_PARTICLE_COUNT), DEFAULT_PARTICLE_COUNT)
      ensures positionsHashed[..] == seq(DEFAULT_PARTICLE_COUNT, _ => EMPTY_SPATIAL_CELL)
      ensures hashFirstIdx[..] == seq(DEFAULT_PARTICLE_COUNT, _ => -1)
      ensures fresh(positionsHashed) && fresh(hashFirstIdx)
    {
      var n := DEFAULT_PARTICLE_COUNT;
      spawnPos := Zero3;
      spawnGap := 2.0;
      nParticles := n;
      gravity := g;
      mass := 1.0;
      pressureMult := 1.0;
      smoothingRadius := 2.0;
      density0 := 1000.0;
      restitution := 0.5;
      densities := seq(n, _ => 0.0);
      velocities := seq(n, _ => Zero3);
      positions := seq(n, _ => Zero3);
      predictedPositions := seq(n, _ => Zero3);
      colors := seq(n, _ => INITIAL_COLOR);
      positionsHashed := new SpatialCell[n](_ => EMPTY_SPATIAL_CELL);
      hashFirstIdx := new int[n](_ => -1);
      new;
      GridInitParticle(Zero3, n, spawnGap, DIMENSION);
    }

    /** grid_init_particle: place the first nParticles particles on a square (dimension 2) or a cube
        (dimension 3) whose side is the integer root of totalParticles; other dimensions place nothing. */
    method GridInitParticle(position: Vec3, totalParticles: int, gap: real, dimension: int)
      requires 0 <= totalParticles && 0 <= nParticles
      requires dimension == 2 ==> nParticles <= |positions| && (nParticles > 0 ==> totalParticles > 0)
      requires dimension == 3 ==> (nParticles > 0 && |positions| > 0 ==> totalParticles > 0)
      modifies this`positions
      ensures dimension == 2 && totalParticles > 0 ==>
        positions == SquarePlacement(old(positions), position, gap, IntSqrt(totalParticles), nParticles)
      ensures dimension == 3 && totalParticles > 0 ==>
        positions == CubePlacement(old(positions), position, gap, IntCbrt(totalParticles), nParticles)
      ensures dimension !in {2, 3} || nParticles == 0 ==> positions == old(positions)
    {
      if dimension == 2 {
        if nParticles == 0 {
          return;
        }
        var columns := IntSqrt(totalParticles);
        var i := 0;
        while i < nParticles
          invariant 0 <= i <= nParticles && |positions| == |old(positions)|
          invariant forall k :: 0 <= k < i ==>
            positions[k] == SquarePoint(position, gap, columns, k, old(positions)[k].z)
          invariant forall k :: i <= k < |positions| ==> positions[k] == old(positions)[k]
        {
          var placed := Vec3(position.x + (i % columns) as real * gap,
                             position.y - (i / columns) as real * gap, positions[i].z);
          assert placed == SquarePoint(position, gap, columns, i, old(positions)[i].z);
          positions := positions[i := placed];
          i := i + 1;
        }
        assert positions == SquarePlacement(old(positions), position, gap, columns, nParticles);
      } else if dimension == 3 {
        if nParticles == 0 || |positions| == 0 {
          return;
        }
        var side := IntCbrt(totalParticles);
        var i := 0;
        while i < nParticles
          invariant 0 <= i <= nParticles && i <= |positions| && |positions| == |old(positions)|
          invariant forall k :: 0 <= k < i ==> positions[k] == LatticePoint(position, gap, side, k)
          invariant forall k :: i <= k < |positions| ==> positions[k] == old(positions)[k]
        {
          if i >= |positions| {
            break;
          }
          var size2 := side * side;
          var z := i / size2;
          var remainder := i % size2;
          var y := remainder / side;
          var x := remainder % side;
          assert Cell(x, y, z) == LatticeCoords(i, side);
          positions := positions[i := CellPoint(position, gap, Cell(x, y, z))];
          i := i + 1;
        }
        assert positions == CubePlacement(old(positions), position, gap, side, nParticles);
      }
    }

    /** The two in-place steps of std::sort the model uses: an insertion sort by key, swapping neighbours. */
    static method SortByKey(a: array<SpatialCell>)
      modifies a
      ensures SortedByKey(a[..])
      ensures multiset(a[..]) == multiset(old(a[..]))
    {
      if a.Length == 0 { return; }
      var i := 1;
      while i < a.Length
        invariant 1 <= i <= a.Length
        invariant SortedByKey(a[..i])
        invariant multiset(a[..]) == multiset(old(a[..]))
      {
        var j := i;
        while j > 0 && a[j - 1].key > a[j].key
          invariant 0 <= j <= i
          invariant multiset(a[..]) == multiset(old(a[..]))
          invariant forall p, q :: 0 <= p < q <= i && p != j && q != j ==> a[p].key <= a[q].key
          invariant forall q :: j < q <= i ==> a[j].key <= a[q].key
        {
          Swap(a, j - 1, j);
          j := j - 1;
        }
        i := i + 1;
      }
    }

    static method Swap(a: array<SpatialCell>, p: int, q: int)
      requires 0 <= p < a.Length && 0 <= q < a.Length
      modifies a
      ensures a[..] == old(a[..])[p := old(a[q])][q := old(a[p])]
      ensures multiset(a[..]) == multiset(old(a[..]))
    {
      a[p], a[q] := a[q], a[p];
    }

    /** updateSpatialLookup(src): key every particle by the hash of its cell (modulo the number of
        particles), sort the table by key and record where each key first occurs. */
    method UpdateSpatialLookup(src: seq<Vec3>)
      requires |src| == |positions| && GridSafe(src, smoothingRadius)
      requires positionsHashed.Length == |src| && hashFirstIdx.Length == |src|
      modifies positionsHashed, hashFirstIdx
      ensures IsLookupOf(positionsHashed[..], CellKeys(src, smoothingRadius))
      ensures IsFirstIndexTable(positionsHashed[..], hashFirstIdx[..])
      ensures LookupShape(positionsHashed[..], hashFirstIdx[..], |src|)
    {
      var n := |src|;
      ghost var keys := CellKeys(src, smoothingRadius);
      var i := 0;
      while i < n
        invariant 0 <= i <= n
        invariant forall k :: 0 <= k < i ==> positionsHashed[k] == SpatialCell(keys[k], k)
        invariant forall k :: 0 <= k < i ==> hashFirstIdx[k] == -1
      {
        var key := HashGridCell(PositionToGrid(src[i], smoothingRadius), |positions|);
        positionsHashed[i] := SpatialCell(key, i);
        hashFirstIdx[i] := -1;
        i := i + 1;
      }
      assert positionsHashed[..] == KeyedEntries(keys);
      SortByKey(positionsHashed);
      ghost var entries := positionsHashed[..];
      assert IsLookupOf(entries, keys);
      KeysInRange(entries, keys);
      FirstIndexStart(entries, hashFirstIdx[..]);
      i := 0;
      while i < n
        invariant 0 <= i <= n
        invariant FirstIndexPrefix(entries, hashFirstIdx[..], i)
        modifies hashFirstIdx
      {
        var key := positionsHashed[i].key;
        var keyPrev := if i == 0 then -1 else positionsHashed[i - 1].key;
        FirstIndexStep(entries, hashFirstIdx[..], i);
        if key != keyPrev {
          hashFirstIdx[key] := i;
        }
        i := i + 1;
      }
      assert positionsHashed[..] == entries;
      FirstIndexComplete(entries, hashFirstIdx[..]);
      LookupOfPositionsHasShape(entries, hashFirstIdx[..], src, smoothingRadius);
    }

    /** forEachWithinRadius(i, callback): the particle indices handed to the callback, in order. */
    method ForEachWithinRadius(i: nat) returns (neighbours: seq<int>)
      requires Valid() && i < |positions|
      requires OffsetsSafe(OFFSET_CELLS, PositionToGrid(positions[i], smoothingRadius))
      ensures neighbours
           == NeighbourQuery(OFFSET_CELLS, positionsHashed[..], hashFirstIdx[..], positions, i, smoothingRadius)
      ensures forall j :: j in neighbours ==> WithinRadius(positions, i, j, smoothingRadius)
    {
      assert |OFFSET_CELLS| == 78;
      neighbours := ScanOffsetCells(OFFSET_CELLS, i);
      NeighbourScanSound(OFFSET_CELLS, 26, positionsHashed[..], hashFirstIdx[..], positions, i, smoothingRadius);
    }

    /** The corrected enumeration, over all 27 cells including the particle's own: with a lookup built
        from the current positions it hands the callback exactly the other particles within the radius. */
    method ForEachWithinRadiusFull(i: nat) returns (neighbours: seq<int>)
      requires Valid() && i < |positions| && smoothingRadius > 0.0
      requires GridSafe(positions, smoothingRadius)
      requires IsLookupOf(positionsHashed[..], CellKeys(positions, smoothingRadius))
      requires IsFirstIndexTable(positionsHashed[..], hashFirstIdx[..])
      requires OffsetsSafe(FULL_OFFSET_CELLS, PositionToGrid(positions[i], smoothingRadius))
      ensures forall j :: j in neighbours <==> WithinRadius(positions, i, j, smoothingRadius)
    {
      FullOffsetCellsCoverNeighbourhood(Cell(0, 0, 0));
      neighbours := ScanOffsetCells(FULL_OFFSET_CELLS, i);
      FullScanIsBruteForce(positionsHashed[..], hashFirstIdx[..], positions, i, smoothingRadius);
    }

    /** The loop of forEachWithinRadius over a table of cell offsets (three ints per cell): for each
        offset cell, walk its bucket from the first index of its key. */
    method ScanOffsetCells(offs: seq<int>, i: nat) returns (neighbours: seq<int>)
      requires LookupReady() && i < |positions| && |offs| % 3 == 0
      requires OffsetsSafe(offs, PositionToGrid(positions[i], smoothingRadius))
      ensures neighbours == NeighbourQuery(offs, positionsHashed[..], hashFirstIdx[..], positions, i, smoothingRadius)
    {
      ghost var entries, table := positionsHashed[..], hashFirstIdx[..];
      var cell := PositionToGrid(positions[i], smoothingRadius);
      neighbours := [];
      var j := 0;
      ghost var t := 0;
      while j < |offs|
        invariant 0 <= j <= |offs| && j == 3 * t
        invariant neighbours == NeighbourScan(offs, t, entries, table, positions, i, smoothingRadius)
      {
        var bucket := ScanOffsetCell(offs, j, t, cell, i);
        neighbours := neighbours + bucket;
        j, t := j + 3, t + 1;
      }
    }

    /** One offset cell of forEachWithinRadius: hash the cell and walk its bucket. */
    method ScanOffsetCell(offs: seq<int>, j: nat, ghost t: nat, cell: Cell, i: nat) returns (bucket: seq<int>)
      requires LookupReady() && i < |positions| && j == 3 * t && j + 2 < |offs|
      requires cell == PositionToGrid(positions[i], smoothingRadius)
      requires OffsetsSafe(offs, cell)
      ensures bucket == BucketAt(offs, t, positionsHashed[..], hashFirstIdx[..], positions, i, smoothingRadius)
    {
      var key := OffsetCellKey(offs, j, t, cell, i);
      bucket := WalkBucket(key, hashFirstIdx[key], i);
    }

    /** The key of the offset cell at offs[j..j + 3] around cell, the cell of particle i. */
    method OffsetCellKey(offs: seq<int>, j: nat, ghost t: nat, cell: Cell, i: nat) returns (key: int)
      requires LookupReady() && i < |positions| && j == 3 * t && j + 2 < |offs|
      requires cell == PositionToGrid(positions[i], smoothingRadius)
      requires OffsetsSafe(offs, cell)
      ensures key == OffsetKey(offs, t, positions, i, smoothingRadius)
    {
      assert Cell(cell.x + offs[j], cell.y + offs[j + 1], cell.z + offs[j + 2]) == Shift(cell, OffsetAt(offs, t));
      key := HashGridCell(Cell(cell.x + offs[j], cell.y + offs[j + 1], cell.z + offs[j + 2]), |positions|);
    }

    /** The inner loop of forEachWithinRadius: from startIdx, walk the sorted table while the key matches,
        keeping the other particles within the radius of particle i. */
    method WalkBucket(key: int, startIdx: int, i: nat) returns (bucket: seq<int>)
      requires LookupReady() && i < |positions| && 0 <= key && -1 <= startIdx < |positions|
      ensures bucket == ScanBucket(positionsHashed[..], startIdx, key, positions, i, smoothingRadius)
    {
      bucket := WalkSortedTable(positionsHashed, positions, smoothingRadius, key, startIdx, i);
    }

    /** resetSimulation: fresh per-particle state for nParticles particles, a lookup over the (all zero)
        predicted positions, and the particles placed on the spawn cube. */
    method ResetSimulation()
      requires 0 <= nParticles <= INT_MAX && smoothingRadius != 0.0
      modifies this`densities, this`velocities, this`positions, this`predictedPositions, this`colors
      modifies this`positionsHashed, this`hashFirstIdx
      ensures Valid() && |positions| == nParticles
      ensures densities == seq(nParticles, _ => 0.0)
      ensures velocities == seq(nParticles, _ => Zero3)
      ensures predictedPositions == seq(nParticles, _ => Zero3)
      ensures colors == seq(nParticles, _ => INITIAL_COLOR)
      ensures nParticles > 0 ==>
        positions == CubePlacement(seq(nParticles, _ => Zero3), spawnPos, spawnGap, IntCbrt(nParticles), nParticles)
      ensures IsLookupOf(positionsHashed[..], CellKeys(predictedPositions, smoothingRadius))
      ensures IsFirstIndexTable(positionsHashed[..], hashFirstIdx[..])
      ensures nParticles > 0 ==> hashFirstIdx[0] == 0 && forall k :: 1 <= k < nParticles ==> hashFirstIdx[k] == -1
      ensures fresh(positionsHashed) && fresh(hashFirstIdx)
    {
      ResetParticleState();
      OriginCellsAreSafe(predictedPositions, smoothingRadius);
      UpdateSpatialLookup(predictedPositions);
      OneCellLookup(positionsHashed[..], hashFirstIdx[..], predictedPositions, smoothingRadius);
      GridInitParticle(spawnPos, |densities|, spawnGap, DIMENSION);
    }

    /** The first part of resetSimulation: fresh per-particle vectors of nParticles entries, the hashed
        table resized (keeping its leading entries) and the first-index table refilled with -1. */
    method ResetParticleState()
      requires 0 <= nParticles
      modifies this`densities, this`velocities, this`positions, this`predictedPositions, this`colors
      modifies this`positionsHashed, this`hashFirstIdx
      ensures densities == seq(nParticles, _ => 0.0)
      ensures velocities == seq(nParticles, _ => Zero3)
      ensures positions == seq(nParticles, _ => Zero3)
      ensures predictedPositions == seq(nParticles, _ => Zero3)
      ensures colors == seq(nParticles, _ => INITIAL_COLOR)
      ensures positionsHashed.Length == nParticles
      ensures forall k :: 0 <= k < nParticles ==>
        positionsHashed[k] == if k < old(positionsHashed.Length) then old(positionsHashed[k]) else EMPTY_SPATIAL_CELL
      ensures hashFirstIdx[..] == seq(nParticles, _ => -1)
      ensures fresh(positionsHashed) && fresh(hashFirstIdx)
    {
      var n := nParticles;
      densities := seq(n, _ => 0.0);
      velocities := seq(n, _ => Zero3);
      positions := seq(n, _ => Zero3);
      predictedPositions := seq(n, _ => Zero3);
      colors := seq(n, _ => INITIAL_COLOR);
      var kept := positionsHashed[..];
      positionsHashed := new SpatialCell[n](k => if 0 <= k < |kept| then kept[k] else EMPTY_SPATIAL_CELL);
      hashFirstIdx := new int[n](_ => -1);
    }

    /** solver_step: rebuild the lookup from the predicted positions of the previous step, apply gravity
        and predict, store the densities, apply the pressure forces, then move every particle and collide
        it with the box. Densities and pressure forces are inputs (see README). */
    method SolverStep(deltaTime: real, boxMin: Vec3, boxMax: Vec3, newDensities: seq<real>,
                      pressureForces: seq<Vec3>)
      requires Valid() && GridSafe(predictedPositions, smoothingRadius)
      requires |newDensities| == |positions| && |pressureForces| == |positions|
      requires forall k :: 0 <= k < |newDensities| ==> newDensities[k] + DENSITY_EPSILON != 0.0
      modifies this`densities, this`velocities, this`positions, this`predictedPositions
      modifies positionsHashed, hashFirstIdx
      ensures Valid()
      ensures IsLookupOf(positionsHashed[..], CellKeys(old(predictedPositions), smoothingRadius))
      ensures IsFirstIndexTable(positionsHashed[..], hashFirstIdx[..])
      ensures densities == newDensities
      ensures |positions| == |velocities| == |predictedPositions| == |old(positions)|
      ensures forall k :: 0 <= k < |positions| ==>
        predictedPositions[k] == Add(old(positions[k]), Scale(FallVelocity(old(velocities[k]), gravity, deltaTime), deltaTime))
      ensures forall k :: 0 <= k < |positions| ==>
        (positions[k], velocities[k]) == StepParticle(old(positions[k]), old(velocities[k]), pressureForces[k],
                                                      newDensities[k], gravity, deltaTime, boxMin, boxMax, restitution)
      ensures WideBox(boxMin, boxMax) ==> forall k :: 0 <= k < |positions| ==> InBox(positions[k], boxMin, boxMax)
    {
      UpdateSpatialLookup(predictedPositions);
      ApplyGravity(deltaTime);
      StoreDensities(newDensities);
      ApplyPressure(deltaTime, pressureForces);
      MoveAndCollide(deltaTime, boxMin, boxMax);
    }

    /** First loop of solver_step: gravity changes the vertical velocity, then the predicted position is
        the position advanced by the new velocity. */
    method ApplyGravity(deltaTime: real)
      requires |velocities| == |densities| && |predictedPositions| == |densities| && |positions| == |densities|
      modifies this`velocities, this`predictedPositions
      ensures |velocities| == |predictedPositions| == |densities|
      ensures forall k :: 0 <= k < |densities| ==> velocities[k] == FallVelocity(old(velocities[k]), gravity, deltaTime)
      ensures forall k :: 0 <= k < |densities| ==>
        predictedPositions[k] == Add(positions[k], Scale(velocities[k], deltaTime))
    {
      var i := 0;
      while i < |densities|
        invariant 0 <= i <= |densities| && |velocities| == |densities| && |predictedPositions| == |densities|
        invariant forall k :: 0 <= k < i ==> velocities[k] == FallVelocity(old(velocities[k]), gravity, deltaTime)
        invariant forall k :: i <= k < |densities| ==> velocities[k] == old(velocities[k])
        invariant forall k :: 0 <= k < i ==>
          predictedPositions[k] == Add(positions[k], Scale(velocities[k], deltaTime))
      {
        velocities := velocities[i := FallVelocity(velocities[i], gravity, deltaTime)];
        predictedPositions := predictedPositions[i := Add(positions[i], Scale(velocities[i], deltaTime))];
        i := i + 1;
      }
    }

    /** Second loop of solver_step: the density of every particle is replaced. */
    method StoreDensities(newDensities: seq<real>)
      requires |newDensities| == |densities|
      modifies this`densities
      ensures densities == newDensities
    {
      var i := 0;
      while i < |densities|
        invariant 0 <= i <= |densities| == |newDensities|
        invariant forall k :: 0 <= k < i ==> densities[k] == newDensities[k]
      {
        densities := densities[i := newDensities[i]];
        i := i + 1;
      }
    }

    /** Third loop of solver_step: the pressure force divided by the (regularised) density accelerates
        every particle for deltaTime. */
    method ApplyPressure(deltaTime: real, pressureForces: seq<Vec3>)
      requires |velocities| == |densities| && |pressureForces| == |densities|
      requires forall k :: 0 <= k < |densities| ==> densities[k] + DENSITY_EPSILON != 0.0
      modifies this`velocities
      ensures |velocities| == |densities|
      ensures forall k :: 0 <= k < |densities| ==>
        velocities[k] == Add(old(velocities[k]), Scale(Scale(pressureForces[k], 1.0 / (densities[k] + DENSITY_EPSILON)), deltaTime))
    {
      var i := 0;
      while i < |densities|
        invariant 0 <= i <= |densities| && |velocities| == |densities|
        invariant forall k :: 0 <= k < i ==>
          velocities[k] == Add(old(velocities[k]), Scale(Scale(pressureForces[k], 1.0 / (densities[k] + DENSITY_EPSILON)), deltaTime))
        invariant forall k :: i <= k < |densities| ==> velocities[k] == old(velocities[k])
      {
        var accel := Scale(pressureForces[i], 1.0 / (densities[i] + DENSITY_EPSILON));
        velocities := velocities[i := Add(velocities[i], Scale(accel, deltaTime))];
        i := i + 1;
      }
    }

    /** Fourth loop of solver_step: every particle moves by its velocity and is then collided with the box. */
    method MoveAndCollide(deltaTime: real, boxMin: Vec3, boxMax: Vec3)
      requires |velocities| == |densities| && |positions| == |densities|
      modifies this`positions, this`velocities
      ensures |positions| == |velocities| == |densities|
      ensures forall k :: 0 <= k < |densities| ==>
        (positions[k], velocities[k]) == BoxCollide(Add(old(positions[k]), Scale(old(velocities[k]), deltaTime)),
                                                    old(velocities[k]), boxMin, boxMax, restitution)
    {
      var i := 0;
      while i < |densities|
        invariant 0 <= i <= |densities| && |velocities| == |densities| && |positions| == |densities|
        invariant forall k :: 0 <= k < i ==>
          (positions[k], velocities[k]) == BoxCollide(Add(old(positions[k]), Scale(old(velocities[k]), deltaTime)),
                                                      old(velocities[k]), boxMin, boxMax, restitution)
        invariant forall k :: i <= k < |densities| ==> positions[k] == old(positions[k]) && velocities[k] == old(velocities[k])
      {
        var moved := Add(positions[i], Scale(velocities[i], deltaTime));
        var pv := BoxCollide(moved, velocities[i], boxMin, boxMax, restitution);
        positions := positions[i := pv.0];
        velocities := velocities[i := pv.1];
        i := i + 1;
      }
    }
  }

  /** The first-index loop after handling the first i entries: keys seen so far point at their first
      entry, every other key is still -1. */
  ghost predicate FirstIndexPrefix(entries: seq<SpatialCell>, table: seq<int>, i: nat) {
    forall k :: 0 <= k < |table| ==>
      if table[k] == -1 then
        forall m :: 0 <= m < i && m < |entries| ==> entries[m].key != k
      else
        && 0 <= table[k] < i && table[k] < |entries|
        && entries[table[k]].key == k
        && forall m :: 0 <= m < table[k] ==> entries[m].key != k
  }

  /** Every key of a lookup over particle keys lies in [0, particle count). */
  lemma KeysInRange(entries: seq<SpatialCell>, keys: seq<int>)
    requires IsLookupOf(entries, keys)
    requires forall p :: 0 <= p < |keys| ==> 0 <= keys[p] < |keys|
    ensures |entries| == |keys|
    ensures forall m :: 0 <= m < |entries| ==> 0 <= entries[m].key < |keys|
  {
    LookupEntriesNameParticles(entries, keys);
  }

  lemma FirstIndexStart(entries: seq<SpatialCell>, table: seq<int>)
    requires forall k :: 0 <= k < |table| ==> table[k] == -1
    ensures FirstIndexPrefix(entries, table, 0)
  {
  }

  lemma FirstIndexComplete(entries: seq<SpatialCell>, table: seq<int>)
    requires FirstIndexPrefix(entries, table, |entries|)
    ensures IsFirstIndexTable(entries, table)
  {
  }

  /** One step of the first-index loop: a key that differs from its predecessor occurs here for the first
      time (the table is sorted), and a repeated key already points at its first entry. */
  lemma FirstIndexStep(entries: seq<SpatialCell>, table: seq<int>, i: nat)
    requires SortedByKey(entries) && i < |entries| && 0 <= entries[i].key < |table|
    requires FirstIndexPrefix(entries, table, i)
    ensures var key := entries[i].key;
            var keyPrev := if i == 0 then -1 else entries[i - 1].key;
            FirstIndexPrefix(entries, if key != keyPrev then table[key := i] else table, i + 1)
  {
    var key := entries[i].key;
    var keyPrev := if i == 0 then -1 else entries[i - 1].key;
    if key != keyPrev {
      assert forall m :: 0 <= m < i ==> entries[m].key != key by {
        forall m | 0 <= m < i ensures entries[m].key != key {
          assert entries[m].key <= entries[i - 1].key;
        }
      }
    } else {
      assert table[key] != -1;
    }
  }

  /** Positions at the origin all fall in cell (0, 0, 0). */
  lemma OriginCellsAreSafe(pos: seq<Vec3>, radius: real)
    requires radius != 0.0 && forall k :: 0 <= k < |pos| ==> pos[k] == Zero3
    ensures GridSafe(pos, radius)
    ensures forall k :: 0 <= k < |pos| ==> PositionToGrid(pos[k], radius) == Cell(0, 0, 0)
  {
    forall k | 0 <= k < |pos|
      ensures PositionToGrid(pos[k], radius) == Cell(0, 0, 0)
    {
      assert 0.0 / radius == 0.0;
    }
  }

  /** When every particle sits at the origin, all particles share key 0: the first-index table points key
      0 at the start of the table and holds -1 for every other key. */
  lemma OneCellLookup(entries: seq<SpatialCell>, table: seq<int>, pos: seq<Vec3>, radius: real)
    requires radius != 0.0 && forall k :: 0 <= k < |pos| ==> pos[k] == Zero3
    requires GridSafe(pos, radius) && IsLookupOf(entries, CellKeys(pos, radius))
    requires |table| == |pos| && IsFirstIndexTable(entries, table)
    ensures |pos| > 0 ==> table[0] == 0 && forall k :: 1 <= k < |pos| ==> table[k] == -1
  {
    OriginCellsAreSafe(pos, radius);
    var keys := CellKeys(pos, radius);
    LookupEntriesNameParticles(entries, keys);
    if |pos| > 0 {
      assert forall p :: 0 <= p < |keys| ==> keys[p] == 0 by {
        forall p | 0 <= p < |keys| ensures keys[p] == 0 {
          assert HashSum(Cell(0, 0, 0)) == 0;
        }
      }
      assert entries[0].key == 0;
    }
  }

  /** The loop of WalkBucket over the sorted (key, particle) table: from startIdx, while the entry's key
      is `key`, keep every other particle within the radius. A start of -1 is, as size_t, past the end. */
  method WalkSortedTable(positionsHashed: array<SpatialCell>, positions: seq<Vec3>, smoothingRadius: real,
                         key: int, startIdx: int, i: nat) returns (bucket: seq<int>)
    requires |positions| <= INT_MAX && positionsHashed.Length == |positions|
    requires forall m :: 0 <= m < positionsHashed.Length && positionsHashed[m].key >= 0 ==>
      0 <= positionsHashed[m].idx < |positions|
    requires i < |positions| && 0 <= key && -1 <= startIdx < |positions|
    ensures bucket == ScanBucket(positionsHashed[..], startIdx, key, positions, i, smoothingRadius)
  {
    ghost var entries := positionsHashed[..];
    var sqrRadius := smoothingRadius * smoothingRadius;
    ghost var total := ScanBucket(entries, startIdx, key, positions, i, smoothingRadius);
    bucket := [];
    var inCellIdx := startIdx;
    while ToSizeT(inCellIdx) < positionsHashed.Length
      invariant startIdx <= inCellIdx && (inCellIdx >= 0 ==> inCellIdx <= positionsHashed.Length)
      invariant bucket + ScanBucket(entries, inCellIdx, key, positions, i, smoothingRadius) == total
      decreases positionsHashed.Length - inCellIdx
    {
      if positionsHashed[inCellIdx].key != key {
        break;
      }
      var neighbourIdx := positionsHashed[inCellIdx].idx;
      ScanBucketStep(entries, inCellIdx, key, positions, i, smoothingRadius, bucket, total);
      var within := NeighbourWithin(positions, sqrRadius, smoothingRadius, i, neighbourIdx);
      if within {
        bucket := bucket + [neighbourIdx];
      }
      inCellIdx := inCellIdx + 1;
    }
    assert ScanBucket(entries, inCellIdx, key, positions, i, smoothingRadius) == [];
    assert bucket + [] == bucket;
  }

  /** The test in the inner loop: another particle, at a squared distance of at most sqrRadius. */
  method NeighbourWithin(positions: seq<Vec3>, sqrRadius: real, ghost radius: real, i: nat, j: int)
    returns (within: bool)
    requires i < |positions| && 0 <= j < |positions| && sqrRadius == radius * radius
    ensures within == (i != j && DistSq(positions[i], positions[j]) <= radius * radius)
  {
    within := false;
    if i != j {
      var vDist := Sub(positions[i], positions[j]);
      var sqrDist := Dot(vDist, vDist);
      within := sqrDist <= sqrRadius;
    }
  }

}
