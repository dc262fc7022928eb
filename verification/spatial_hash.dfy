/** The uniform-grid spatial hash of the particle solver, on values: the grid cell of a position, the hash of
    a cell, the key-sorted (key, particle) table with its first-index table, and the neighbour scan that
    walks the buckets of a particle's surrounding cells. The solver class keeps these tables in arrays and
    its methods are proved against the functions here. */
module SpatialHash {
  import opened Glm
  import opened CppInt

  /** An integer grid cell (glm::ivec3). */
  datatype Cell = Cell(x: int, y: int, z: int)

  /** One entry of the lookup table: the hash key of a particle's cell and the particle's index. */
  datatype SpatialCell = SpatialCell(key: int, idx: int)

  /** The default-constructed entry. */
  const EMPTY_SPATIAL_CELL: SpatialCell := SpatialCell(-1, -1)

  const PRIME_X: int := 991
  const PRIME_Y: int := 233
  const PRIME_Z: int := 887

  function HashSum(c: Cell): int {
    c.x * PRIME_X + c.y * PRIME_Y + c.z * PRIME_Z
  }

  /** Every step of the int arithmetic of the hash, evaluated left to right, stays within 32 bits. */
  predicate NoOverflow(c: Cell) {
    && InInt(c.x * PRIME_X) && InInt(c.y * PRIME_Y) && InInt(c.z * PRIME_Z)
    && InInt(c.x * PRIME_X + c.y * PRIME_Y)
    && InInt(HashSum(c))
  }

  /** hashGridCell: the int sum is converted to size_t (a negative sum wraps around 2^64) before the
      remainder by the particle count n is taken. The key is always a valid bucket index. */
  function HashGridCell(c: Cell, n: nat): (key: int)
    requires n > 0 && NoOverflow(c)
    ensures 0 <= key < n
  {
    ToSizeT(HashSum(c)) % n
  }

  lemma MulAtLeast(n: int, x: int)
    requires n > 0 && x >= 1
    ensures n * x >= n
    decreases x
  {
    if x > 1 {
      MulAtLeast(n, x - 1);
      assert n * x == n * (x - 1) + n;
    }
  }

  /** Euclidean division is unique: a = n * k + r with 0 <= r < n fixes a / n and a % n. */
  lemma ModUnique(a: int, n: int, k: int, r: int)
    requires n > 0 && 0 <= r < n && a == n * k + r
    ensures a / n == k && a % n == r
  {
    var k' := a / n;
    var r' := a % n;
    assert a == n * k' + r';
    if k > k' {
      MulAtLeast(n, k - k');
      assert false;
    } else if k < k' {
      MulAtLeast(n, k' - k);
      assert false;
    }
  }

  lemma ModOfMultipleShift(a: int, q: int, n: int)
    requires n > 0
    ensures (n * q + a) % n == a % n
  {
    var r := a % n;
    var d := a / n;
    assert a == n * d + r;
    assert n * q + a == n * (q + d) + r;
    ModUnique(n * q + a, n, q + d, r);
  }

  /** When the particle count divides 2^64 the size_t wrap-around is invisible and the key is the
      mathematical residue of the hash sum; for other counts a negative sum gives a different bucket. */
  lemma HashIsResidueWhenCountDividesWordSize(c: Cell, n: nat)
    requires n > 0 && NoOverflow(c) && SIZE_T_MODULUS % n == 0
    ensures HashGridCell(c, n) == HashSum(c) % n
  {
    if HashSum(c) < 0 {
      var q := SIZE_T_MODULUS / n;
      assert SIZE_T_MODULUS == n * q;
      ModOfMultipleShift(HashSum(c), q, n);
    }
  }

  lemma HashOfNegativeSumIsNotResidue()
    ensures NoOverflow(Cell(-1, 0, 0))
    ensures HashGridCell(Cell(-1, 0, 0), 3) == 0
    ensures HashSum(Cell(-1, 0, 0)) % 3 == 2
  {
  }

  /** positionToGrid: the cell holding a position is the floor of the position divided by the radius. */
  function PositionToGrid(p: Vec3, radius: real): Cell
    requires radius != 0.0
  {
    Cell((p.x / radius).Floor, (p.y / radius).Floor, (p.z / radius).Floor)
  }

  /** Every cell of these positions can be hashed without overflow. */
  predicate GridSafe(pos: seq<Vec3>, radius: real) {
    radius != 0.0 && forall p :: 0 <= p < |pos| ==> NoOverflow(PositionToGrid(pos[p], radius))
  }

  /** The hash key of every particle's cell, hashed modulo the particle count. */
  function CellKeys(pos: seq<Vec3>, radius: real): (keys: seq<int>)
    requires GridSafe(pos, radius)
    ensures |keys| == |pos|
    ensures forall p :: 0 <= p < |keys| ==> 0 <= keys[p] < |pos|
  {
    seq(|pos|, p requires 0 <= p < |pos| => HashGridCell(PositionToGrid(pos[p], radius), |pos|))
  }

  /** The table the first loop of updateSpatialLookup writes: entry p is (key of particle p, p). */
  function KeyedEntries(keys: seq<int>): seq<SpatialCell> {
    seq(|keys|, p requires 0 <= p < |keys| => SpatialCell(keys[p], p))
  }

  predicate SortedByKey(s: seq<SpatialCell>) {
    forall p, q :: 0 <= p < q < |s| ==> s[p].key <= s[q].key
  }

  /** `entries` is the keyed table put in ascending key order (in some order among equal keys). */
  ghost predicate IsLookupOf(entries: seq<SpatialCell>, keys: seq<int>) {
    SortedByKey(entries) && multiset(entries) == multiset(KeyedEntries(keys))
  }

  /** table[k] is the position of the first entry with key k, or -1 when no entry has key k. */
  ghost predicate IsFirstIndexTable(entries: seq<SpatialCell>, table: seq<int>) {
    forall k :: 0 <= k < |table| ==>
      if table[k] == -1 then
        forall m :: 0 <= m < |entries| ==> entries[m].key != k
      else
        && 0 <= table[k] < |entries|
        && entries[table[k]].key == k
        && forall m :: 0 <= m < table[k] ==> entries[m].key != k
  }

  /** The shape the solver keeps its two tables in between calls: both have one slot per particle, the
      first-index table holds -1 or an entry position, and every hashed entry names a particle. */
  predicate LookupShape(entries: seq<SpatialCell>, table: seq<int>, n: nat) {
    && |entries| == n && |table| == n
    && (forall k :: 0 <= k < n ==> -1 <= table[k] < n)
    && (forall m :: 0 <= m < n && entries[m].key >= 0 ==> 0 <= entries[m].idx < n)
  }

  /** A sorted keyed table names every particle exactly where its key says. */
  lemma LookupEntriesNameParticles(entries: seq<SpatialCell>, keys: seq<int>)
    requires IsLookupOf(entries, keys)
    ensures |entries| == |keys|
    ensures forall m :: 0 <= m < |entries| ==>
      0 <= entries[m].idx < |keys| && entries[m].key == keys[entries[m].idx]
  {
    var ke := KeyedEntries(keys);
    assert |entries| == |multiset(entries)| == |multiset(ke)| == |keys|;
    forall m | 0 <= m < |entries|
      ensures 0 <= entries[m].idx < |keys| && entries[m].key == keys[entries[m].idx]
    {
      assert entries[m] in multiset(entries);
      assert entries[m] in multiset(ke);
      var p :| 0 <= p < |ke| && ke[p] == entries[m];
    }
  }

  /** Lookup tables built from the particles' own positions have the shape the neighbour scan needs. */
  lemma LookupOfPositionsHasShape(entries: seq<SpatialCell>, table: seq<int>, pos: seq<Vec3>, radius: real)
    requires GridSafe(pos, radius)
    requires IsLookupOf(entries, CellKeys(pos, radius))
    requires |table| == |pos| && IsFirstIndexTable(entries, table)
    ensures LookupShape(entries, table, |pos|)
  {
    LookupEntriesNameParticles(entries, CellKeys(pos, radius));
  }

  // ---------------------------------------------------------------------------------------------
  // Offsets of the surrounding cells

  predicate IsUnitOffset(d: Cell) {
    -1 <= d.x <= 1 && -1 <= d.y <= 1 && -1 <= d.z <= 1
  }

  function Shift(c: Cell, d: Cell): Cell {
    Cell(c.x + d.x, c.y + d.y, c.z + d.z)
  }

  /** The t-th (dx, dy, dz) triple of a flat offset table. */
  function OffsetAt(offs: seq<int>, t: nat): Cell
    requires 3 * t + 2 < |offs|
  {
    Cell(offs[3 * t], offs[3 * t + 1], offs[3 * t + 2])
  }

  /** offsetCells as the solver declares it: 26 triples, x fastest, then y, then z (written here one row of
      three triples per line). */
  const OFFSET_CELLS: seq<int> :=
    [-1, -1, -1,   0, -1, -1,   1, -1, -1] +
    [-1,  0, -1,   0,  0, -1,   1,  0, -1] +
    [-1,  1, -1,   0,  1, -1,   1,  1, -1] +
    [-1, -1,  0,   0, -1,  0,   1, -1,  0] +
    [-1,  0,  0,                1,  0,  0] +
    [-1,  1,  0,   0,  1,  0,   1,  1,  0] +
    [-1, -1,  1,   0, -1,  1,   1, -1,  1] +
    [-1,  0,  1,   0,  0,  1,   1,  0,  1] +
    [-1,  1,  1,   0,  1,  1,   1,  1,  1]

  /** The corrected table: the same triples with the particle's own cell (0, 0, 0) inserted in its place. */
  const FULL_OFFSET_CELLS: seq<int> := OFFSET_CELLS[..39] + [0, 0, 0] + OFFSET_CELLS[39..]

  /** Position of a unit offset in the 27-triple order x fastest, then y, then z. */
  function UnitOffsetIndex(d: Cell): (t: nat)
    requires IsUnitOffset(d)
    ensures t < 27
  {
    (d.x + 1) + 3 * (d.y + 1) + 9 * (d.z + 1)
  }

  /** The unit offset at a given position of the x-y-z order. */
  function UnitOffsetOfIndex(u: nat): (d: Cell)
    requires u < 27
    ensures IsUnitOffset(d) && UnitOffsetIndex(d) == u
  {
    Cell(u % 3 - 1, (u / 3) % 3 - 1, u / 9 - 1)
  }

  lemma FullOffsetCellsBelow(d: Cell)
    requires IsUnitOffset(d) && d.z == -1
    ensures OffsetAt(FULL_OFFSET_CELLS, UnitOffsetIndex(d)) == d
  {
    if d.y == -1 {
      if d.x == -1 { assert d == Cell(-1, -1, -1) && UnitOffsetIndex(d) == 0; assert OffsetAt(FULL_OFFSET_CELLS, 0) == Cell(-1, -1, -1); }
      else if d.x == 0 { assert d == Cell(0, -1, -1) && UnitOffsetIndex(d) == 1; assert OffsetAt(FULL_OFFSET_CELLS, 1) == Cell(0, -1, -1); }
      else { assert d == Cell(1, -1, -1) && UnitOffsetIndex(d) == 2; assert OffsetAt(FULL_OFFSET_CELLS, 2) == Cell(1, -1, -1); }
    } else if d.y == 0 {
      if d.x == -1 { assert d == Cell(-1, 0, -1) && UnitOffsetIndex(d) == 3; assert OffsetAt(FULL_OFFSET_CELLS, 3) == Cell(-1, 0, -1); }
      else if d.x == 0 { assert d == Cell(0, 0, -1) && UnitOffsetIndex(d) == 4; assert OffsetAt(FULL_OFFSET_CELLS, 4) == Cell(0, 0, -1); }
      else { assert d == Cell(1, 0, -1) && UnitOffsetIndex(d) == 5; assert OffsetAt(FULL_OFFSET_CELLS, 5) == Cell(1, 0, -1); }
    } else {
      if d.x == -1 { assert d == Cell(-1, 1, -1) && UnitOffsetIndex(d) == 6; assert OffsetAt(FULL_OFFSET_CELLS, 6) == Cell(-1, 1, -1); }
      else if d.x == 0 { assert d == Cell(0, 1, -1) && UnitOffsetIndex(d) == 7; assert OffsetAt(FULL_OFFSET_CELLS, 7) == Cell(0, 1, -1); }
      else { assert d == Cell(1, 1, -1) && UnitOffsetIndex(d) == 8; assert OffsetAt(FULL_OFFSET_CELLS, 8) == Cell(1, 1, -1); }
    }
  }

  lemma FullOffsetCellsLevel(d: Cell)
    requires IsUnitOffset(d) && d.z == 0
    ensures OffsetAt(FULL_OFFSET_CELLS, UnitOffsetIndex(d)) == d
  {
    if d.y == -1 {
      if d.x == -1 { assert d == Cell(-1, -1, 0) && UnitOffsetIndex(d) == 9; assert OffsetAt(FULL_OFFSET_CELLS, 9) == Cell(-1, -1, 0); }
      else if d.x == 0 { assert d == Cell(0, -1, 0) && UnitOffsetIndex(d) == 10; assert OffsetAt(FULL_OFFSET_CELLS, 10) == Cell(0, -1, 0); }
      else { assert d == Cell(1, -1, 0) && UnitOffsetIndex(d) == 11; assert OffsetAt(FULL_OFFSET_CELLS, 11) == Cell(1, -1, 0); }
    } else if d.y == 0 {
      if d.x == -1 { assert d == Cell(-1, 0, 0) && UnitOffsetIndex(d) == 12; assert OffsetAt(FULL_OFFSET_CELLS, 12) == Cell(-1, 0, 0); }
      else if d.x == 0 { assert d == Cell(0, 0, 0) && UnitOffsetIndex(d) == 13; assert OffsetAt(FULL_OFFSET_CELLS, 13) == Cell(0, 0, 0); }
      else { assert d == Cell(1, 0, 0) && UnitOffsetIndex(d) == 14; assert OffsetAt(FULL_OFFSET_CELLS, 14) == Cell(1, 0, 0); }
    } else {
      if d.x == -1 { assert d == Cell(-1, 1, 0) && UnitOffsetIndex(d) == 15; assert OffsetAt(FULL_OFFSET_CELLS, 15) == Cell(-1, 1, 0); }
      else if d.x == 0 { assert d == Cell(0, 1, 0) && UnitOffsetIndex(d) == 16; assert OffsetAt(FULL_OFFSET_CELLS, 16) == Cell(0, 1, 0); }
      else { assert d == Cell(1, 1, 0) && UnitOffsetIndex(d) == 17; assert OffsetAt(FULL_OFFSET_CELLS, 17) == Cell(1, 1, 0); }
    }
  }

  lemma FullOffsetCellsAbove(d: Cell)
    requires IsUnitOffset(d) && d.z == 1
    ensures OffsetAt(FULL_OFFSET_CELLS, UnitOffsetIndex(d)) == d
  {
    if d.y == -1 {
      if d.x == -1 { assert d == Cell(-1, -1, 1) && UnitOffsetIndex(d) == 18; assert OffsetAt(FULL_OFFSET_CELLS, 18) == Cell(-1, -1, 1); }
      else if d.x == 0 { assert d == Cell(0, -1, 1) && UnitOffsetIndex(d) == 19; assert OffsetAt(FULL_OFFSET_CELLS, 19) == Cell(0, -1, 1); }
      else { assert d == Cell(1, -1, 1) && UnitOffsetIndex(d) == 20; assert OffsetAt(FULL_OFFSET_CELLS, 20) == Cell(1, -1, 1); }
    } else if d.y == 0 {
      if d.x == -1 { assert d == Cell(-1, 0, 1) && UnitOffsetIndex(d) == 21; assert OffsetAt(FULL_OFFSET_CELLS, 21) == Cell(-1, 0, 1); }
      else if d.x == 0 { assert d == Cell(0, 0, 1) && UnitOffsetIndex(d) == 22; assert OffsetAt(FULL_OFFSET_CELLS, 22) == Cell(0, 0, 1); }
      else { assert d == Cell(1, 0, 1) && UnitOffsetIndex(d) == 23; assert OffsetAt(FULL_OFFSET_CELLS, 23) == Cell(1, 0, 1); }
    } else {
      if d.x == -1 { assert d == Cell(-1, 1, 1) && UnitOffsetIndex(d) == 24; assert OffsetAt(FULL_OFFSET_CELLS, 24) == Cell(-1, 1, 1); }
      else if d.x == 0 { assert d == Cell(0, 1, 1) && UnitOffsetIndex(d) == 25; assert OffsetAt(FULL_OFFSET_CELLS, 25) == Cell(0, 1, 1); }
      else { assert d == Cell(1, 1, 1) && UnitOffsetIndex(d) == 26; assert OffsetAt(FULL_OFFSET_CELLS, 26) == Cell(1, 1, 1); }
    }
  }

  /** The corrected table lists every unit offset, at the index the x-y-z order gives it. */
  lemma FullOffsetCellsCoverNeighbourhood(d: Cell)
    requires IsUnitOffset(d)
    ensures |FULL_OFFSET_CELLS| == 81
    ensures OffsetAt(FULL_OFFSET_CELLS, UnitOffsetIndex(d)) == d
  {
    if d.z == -1 {
      FullOffsetCellsBelow(d);
    } else if d.z == 0 {
      FullOffsetCellsLevel(d);
    } else {
      FullOffsetCellsAbove(d);
    }
  }

  /** Triple t of the solver's table is triple t, or t + 1 past the centre, of the corrected table. */
  lemma OffsetCellsSkipCentre(t: nat)
    requires t < 26
    ensures OffsetAt(OFFSET_CELLS, t) == OffsetAt(FULL_OFFSET_CELLS, if t < 13 then t else t + 1)
  {
    var a := OFFSET_CELLS;
    assert |a| == 78;
    InsertedTriple(a, t);
  }

  /** Inserting a triple at index 39 keeps every entry before it and moves every entry after it up by three. */
  lemma InsertedTriple(a: seq<int>, t: nat)
    requires 39 <= |a| && 3 * t + 2 < |a|
    ensures 3 * (if t < 13 then t else t + 1) + 2 < |a[..39] + [0, 0, 0] + a[39..]|
    ensures OffsetAt(a, t) == OffsetAt(a[..39] + [0, 0, 0] + a[39..], if t < 13 then t else t + 1)
  {
  }

  /** Triple u of the corrected table is the unit offset at position u of the x-y-z order. */
  lemma FullOffsetCellsInOrder(u: nat)
    requires u < 27
    ensures OffsetAt(FULL_OFFSET_CELLS, u) == UnitOffsetOfIndex(u)
  {
    FullOffsetCellsCoverNeighbourhood(UnitOffsetOfIndex(u));
  }

  /** The solver's table holds exactly the 26 unit offsets other than (0, 0, 0), in x-y-z order: the
      particle's own cell is never scanned. */
  lemma OffsetCellsAreTheOtherNeighbours()
    ensures |OFFSET_CELLS| == 78
    ensures forall t :: 0 <= t < 26 ==>
      OffsetAt(OFFSET_CELLS, t) == UnitOffsetOfIndex(if t < 13 then t else t + 1)
    ensures forall t :: 0 <= t < 26 ==> OffsetAt(OFFSET_CELLS, t) != Cell(0, 0, 0)
    ensures forall d :: IsUnitOffset(d) && d != Cell(0, 0, 0) ==>
      exists t :: 0 <= t < 26 && OffsetAt(OFFSET_CELLS, t) == d
  {
    forall t | 0 <= t < 26
      ensures OffsetAt(OFFSET_CELLS, t) == UnitOffsetOfIndex(if t < 13 then t else t + 1)
      ensures OffsetAt(OFFSET_CELLS, t) != Cell(0, 0, 0)
    {
      OffsetCellsSkipCentre(t);
      FullOffsetCellsInOrder(if t < 13 then t else t + 1);
    }
    forall d | IsUnitOffset(d) && d != Cell(0, 0, 0)
      ensures exists t :: 0 <= t < 26 && OffsetAt(OFFSET_CELLS, t) == d
    {
      FullOffsetCellsCoverNeighbourhood(d);
      var u := UnitOffsetIndex(d);
      var t := if u < 13 then u else u - 1;
      OffsetCellsSkipCentre(t);
    }
  }

  // ---------------------------------------------------------------------------------------------
  // The neighbour scan

  /** Every offset cell around `c` can be hashed without overflow. */
  predicate OffsetsSafe(offs: seq<int>, c: Cell) {
    forall t :: 0 <= t < |offs| / 3 ==> NoOverflow(Shift(c, OffsetAt(offs, t)))
  }

  /** The particles the inner loop of forEachWithinRadius hands to the callback: starting at `from`, walk
      the entries while their key is `key`, skipping particle i itself and every particle farther than the
      radius. A start of -1 (an absent key, which as size_t is never below the table size) yields nothing. */
  function ScanBucket(entries: seq<SpatialCell>, from: int, key: int, pos: seq<Vec3>, i: nat, radius: real)
    : seq<int>
    requires i < |pos| && key >= 0
    requires forall m :: 0 <= m < |entries| && entries[m].key >= 0 ==> 0 <= entries[m].idx < |pos|
    decreases |entries| - from
  {
    if from < 0 || from >= |entries| || entries[from].key != key then []
    else
      var j := entries[from].idx;
      (if i != j && DistSq(pos[i], pos[j]) <= radius * radius then [j] else [])
      + ScanBucket(entries, from + 1, key, pos, i, radius)
  }

  /** One step of the bucket walk: when `done` followed by the scan from `from` is the whole bucket, an
      entry with the right key contributes its particle (when that is another particle within the radius)
      and the scan goes on from the next entry. */
  lemma ScanBucketStep(entries: seq<SpatialCell>, from: int, key: int, pos: seq<Vec3>, i: nat, radius: real,
                       done: seq<int>, total: seq<int>)
    requires i < |pos| && key >= 0
    requires forall m :: 0 <= m < |entries| && entries[m].key >= 0 ==> 0 <= entries[m].idx < |pos|
    requires 0 <= from < |entries| && entries[from].key == key
    requires done + ScanBucket(entries, from, key, pos, i, radius) == total
    ensures var j := entries[from].idx;
      done + (if i != j && DistSq(pos[i], pos[j]) <= radius * radius then [j] else [])
      + ScanBucket(entries, from + 1, key, pos, i, radius) == total
  {
    var j := entries[from].idx;
    var piece := if i != j && DistSq(pos[i], pos[j]) <= radius * radius then [j] else [];
    var rest := ScanBucket(entries, from + 1, key, pos, i, radius);
    assert ScanBucket(entries, from, key, pos, i, radius) == piece + rest;
    assert done + (piece + rest) == done + piece + rest;
  }

  /** The key of the t-th offset cell around particle i. */
  function OffsetKey(offs: seq<int>, t: nat, pos: seq<Vec3>, i: nat, radius: real): (key: int)
    requires 3 * t + 2 < |offs| && i < |pos| && radius != 0.0
    requires OffsetsSafe(offs, PositionToGrid(pos[i], radius))
    ensures 0 <= key < |pos|
  {
    HashGridCell(Shift(PositionToGrid(pos[i], radius), OffsetAt(offs, t)), |pos|)
  }

  /** The callback arguments produced by the bucket of the t-th offset cell. */
  function BucketAt(offs: seq<int>, t: nat, entries: seq<SpatialCell>, table: seq<int>, pos: seq<Vec3>,
                    i: nat, radius: real): seq<int>
    requires 3 * t + 2 < |offs| && i < |pos| && radius != 0.0
    requires OffsetsSafe(offs, PositionToGrid(pos[i], radius))
    requires LookupShape(entries, table, |pos|)
  {
    var key := OffsetKey(offs, t, pos, i, radius);
    ScanBucket(entries, table[key], key, pos, i, radius)
  }

  /** The callback arguments of the first `count` offset cells, in visiting order. */
  function NeighbourScan(offs: seq<int>, count: nat, entries: seq<SpatialCell>, table: seq<int>,
                         pos: seq<Vec3>, i: nat, radius: real): seq<int>
    requires 3 * count <= |offs| && i < |pos| && radius != 0.0
    requires OffsetsSafe(offs, PositionToGrid(pos[i], radius))
    requires LookupShape(entries, table, |pos|)
  {
    if count == 0 then []
    else NeighbourScan(offs, count - 1, entries, table, pos, i, radius)
         + BucketAt(offs, count - 1, entries, table, pos, i, radius)
  }

  /** forEachWithinRadius(i): the callback arguments over the whole offset table. */
  function NeighbourQuery(offs: seq<int>, entries: seq<SpatialCell>, table: seq<int>, pos: seq<Vec3>,
                          i: nat, radius: real): seq<int>
    requires i < |pos| && radius != 0.0
    requires OffsetsSafe(offs, PositionToGrid(pos[i], radius))
    requires LookupShape(entries, table, |pos|)
  {
    NeighbourScan(offs, |offs| / 3, entries, table, pos, i, radius)
  }

  /** A particle is within the smoothing radius of particle i and is not i itself. */
  predicate WithinRadius(pos: seq<Vec3>, i: nat, j: int, radius: real)
    requires i < |pos|
  {
    0 <= j < |pos| && j != i && DistSq(pos[i], pos[j]) <= radius * radius
  }

  lemma {:induction false} ScanBucketSound(entries: seq<SpatialCell>, from: int, key: int, pos: seq<Vec3>,
                                           i: nat, radius: real)
    requires i < |pos| && key >= 0
    requires forall m :: 0 <= m < |entries| && entries[m].key >= 0 ==> 0 <= entries[m].idx < |pos|
    ensures forall j :: j in ScanBucket(entries, from, key, pos, i, radius) ==>
      WithinRadius(pos, i, j, radius)
    decreases |entries| - from
  {
    if !(from < 0 || from >= |entries| || entries[from].key != key) {
      ScanBucketSound(entries, from + 1, key, pos, i, radius);
    }
  }

  /** Soundness, for any offset table: every particle handed to the callback is another particle within
      the smoothing radius. */
  lemma {:induction false} NeighbourScanSound(offs: seq<int>, count: nat, entries: seq<SpatialCell>,
                                              table: seq<int>, pos: seq<Vec3>, i: nat, radius: real)
    requires 3 * count <= |offs| && i < |pos| && radius != 0.0
    requires OffsetsSafe(offs, PositionToGrid(pos[i], radius))
    requires LookupShape(entries, table, |pos|)
    ensures forall j :: j in NeighbourScan(offs, count, entries, table, pos, i, radius) ==>
      WithinRadius(pos, i, j, radius)
  {
    if count > 0 {
      NeighbourScanSound(offs, count - 1, entries, table, pos, i, radius);
      var key := OffsetKey(offs, count - 1, pos, i, radius);
      ScanBucketSound(entries, table[key], key, pos, i, radius);
    }
  }

  lemma {:induction false} ScanBucketReaches(entries: seq<SpatialCell>, from: int, m: int, key: int,
                                             pos: seq<Vec3>, i: nat, radius: real)
    requires i < |pos| && key >= 0
    requires forall q :: 0 <= q < |entries| && entries[q].key >= 0 ==> 0 <= entries[q].idx < |pos|
    requires 0 <= from <= m < |entries|
    requires forall q :: from <= q <= m ==> entries[q].key == key
    requires WithinRadius(pos, i, entries[m].idx, radius)
    ensures entries[m].idx in ScanBucket(entries, from, key, pos, i, radius)
    decreases m - from
  {
    if from < m {
      ScanBucketReaches(entries, from + 1, m, key, pos, i, radius);
    }
  }

  lemma {:induction false} NeighbourScanHasBucket(offs: seq<int>, count: nat, t: nat, entries: seq<SpatialCell>,
                                                  table: seq<int>, pos: seq<Vec3>, i: nat, radius: real)
    requires 3 * count <= |offs| && i < |pos| && radius != 0.0 && t < count
    requires OffsetsSafe(offs, PositionToGrid(pos[i], radius))
    requires LookupShape(entries, table, |pos|)
    ensures forall j :: j in BucketAt(offs, t, entries, table, pos, i, radius) ==>
      j in NeighbourScan(offs, count, entries, table, pos, i, radius)
  {
    var prev := NeighbourScan(offs, count - 1, entries, table, pos, i, radius);
    var last := BucketAt(offs, count - 1, entries, table, pos, i, radius);
    assert NeighbourScan(offs, count, entries, table, pos, i, radius) == prev + last;
    if t < count - 1 {
      NeighbourScanHasBucket(offs, count - 1, t, entries, table, pos, i, radius);
      forall j | j in BucketAt(offs, t, entries, table, pos, i, radius)
        ensures j in prev + last
      {
        assert j in prev;
      }
    } else {
      forall j | j in last
        ensures j in prev + last
      {
      }
    }
  }

  lemma SquareBound(a: real, r: real)
    requires r > 0.0 && a * a <= r * r
    ensures -r <= a <= r
  {
    assert a * a - r * r == (a - r) * (a + r);
  }

  lemma FloorsAdjacent(a: real, b: real, r: real)
    requires r > 0.0 && -r <= a - b <= r
    ensures -1 <= (a / r).Floor - (b / r).Floor <= 1
  {
    var w := a / r - b / r;
    assert w * r == a - b;
    UnitQuotient(w, r, a - b);
  }

  lemma UnitQuotient(w: real, r: real, d: real)
    requires r > 0.0 && w * r == d && -r <= d <= r
    ensures -1.0 <= w <= 1.0
  {
    assert (w - 1.0) * r == d - r;
    assert (w + 1.0) * r == d + r;
  }

  /** Two positions no farther apart than the radius lie in the same or in adjacent grid cells. */
  lemma NearbyPositionsShareNeighbourhood(p: Vec3, q: Vec3, r: real)
    requires r > 0.0 && DistSq(p, q) <= r * r
    ensures var cp := PositionToGrid(p, r); var cq := PositionToGrid(q, r);
      IsUnitOffset(Cell(cq.x - cp.x, cq.y - cp.y, cq.z - cp.z))
  {
    var d := Sub(q, p);
    assert DistSq(p, q) == d.x * d.x + d.y * d.y + d.z * d.z;
    assert d.x * d.x <= r * r;
    assert d.y * d.y <= r * r;
    assert d.z * d.z <= r * r;
    SquareBound(d.x, r);
    SquareBound(d.y, r);
    SquareBound(d.z, r);
    FloorsAdjacent(q.x, p.x, r);
    FloorsAdjacent(q.y, p.y, r);
    FloorsAdjacent(q.z, p.z, r);
  }

  /** In a sorted table with its first-index table, the bucket scan for particle j's key reaches j. */
  lemma BucketScanFindsParticle(entries: seq<SpatialCell>, table: seq<int>, keys: seq<int>, pos: seq<Vec3>,
                                i: nat, radius: real, j: int)
    requires i < |pos| && |keys| == |pos| && |table| == |pos|
    requires forall p :: 0 <= p < |keys| ==> 0 <= keys[p] < |pos|
    requires IsLookupOf(entries, keys) && IsFirstIndexTable(entries, table)
    requires LookupShape(entries, table, |pos|)
    requires WithinRadius(pos, i, j, radius)
    ensures j in ScanBucket(entries, table[keys[j]], keys[j], pos, i, radius)
  {
    var ke := KeyedEntries(keys);
    var k := keys[j];
    assert ke[j] == SpatialCell(k, j);
    assert ke[j] in multiset(ke);
    assert SpatialCell(k, j) in multiset(entries);
    var m :| 0 <= m < |entries| && entries[m] == SpatialCell(k, j);
    var f := table[k];
    assert f != -1;
    forall q | f <= q <= m
      ensures entries[q].key == k
    {
      assert entries[f].key <= entries[q].key <= entries[m].key;
    }
    ScanBucketReaches(entries, f, m, k, pos, i, radius);
  }

  /** The cell of a particle within the radius of particle i is one of the corrected table's offset cells
      around i's cell, so its key is the key of that offset cell. */
  lemma NeighbourCellIsFullOffset(pos: seq<Vec3>, i: nat, j: nat, radius: real) returns (t: nat)
    requires i < |pos| && j < |pos| && radius > 0.0 && GridSafe(pos, radius)
    requires OffsetsSafe(FULL_OFFSET_CELLS, PositionToGrid(pos[i], radius))
    requires DistSq(pos[i], pos[j]) <= radius * radius
    ensures 3 * t + 2 < |FULL_OFFSET_CELLS| && t < 27
    ensures OffsetKey(FULL_OFFSET_CELLS, t, pos, i, radius) == CellKeys(pos, radius)[j]
  {
    var ci := PositionToGrid(pos[i], radius);
    var cj := PositionToGrid(pos[j], radius);
    NearbyPositionsShareNeighbourhood(pos[i], pos[j], radius);
    var d := Cell(cj.x - ci.x, cj.y - ci.y, cj.z - ci.z);
    FullOffsetCellsCoverNeighbourhood(d);
    t := UnitOffsetIndex(d);
    assert Shift(ci, OffsetAt(FULL_OFFSET_CELLS, t)) == cj;
  }

  /** Completeness of the corrected scan: with the lookup built from the same positions, every other
      particle within the smoothing radius is handed to the callback. */
  lemma FullScanComplete(entries: seq<SpatialCell>, table: seq<int>, pos: seq<Vec3>, i: nat, radius: real, j: int)
    requires i < |pos| && radius > 0.0 && GridSafe(pos, radius)
    requires IsLookupOf(entries, CellKeys(pos, radius))
    requires |table| == |pos| && IsFirstIndexTable(entries, table)
    requires OffsetsSafe(FULL_OFFSET_CELLS, PositionToGrid(pos[i], radius))
    requires LookupShape(entries, table, |pos|)
    requires WithinRadius(pos, i, j, radius)
    ensures j in NeighbourQuery(FULL_OFFSET_CELLS, entries, table, pos, i, radius)
  {
    var keys := CellKeys(pos, radius);
    BucketScanFindsParticle(entries, table, keys, pos, i, radius, j);
    var t := NeighbourCellIsFullOffset(pos, i, j, radius);
    assert j in BucketAt(FULL_OFFSET_CELLS, t, entries, table, pos, i, radius);
    NeighbourScanHasBucket(FULL_OFFSET_CELLS, 27, t, entries, table, pos, i, radius);
  }

  /** The corrected scan hands the callback exactly the other particles within the smoothing radius: the
      same set as the brute-force loop over all particles. */
  lemma FullScanIsBruteForce(entries: seq<SpatialCell>, table: seq<int>, pos: seq<Vec3>, i: nat, radius: real)
    requires i < |pos| && radius > 0.0 && GridSafe(pos, radius)
    requires IsLookupOf(entries, CellKeys(pos, radius))
    requires |table| == |pos| && IsFirstIndexTable(entries, table)
    requires OffsetsSafe(FULL_OFFSET_CELLS, PositionToGrid(pos[i], radius))
    requires LookupShape(entries, table, |pos|)
    ensures forall j :: j in NeighbourQuery(FULL_OFFSET_CELLS, entries, table, pos, i, radius) <==>
      WithinRadius(pos, i, j, radius)
  {
    NeighbourScanSound(FULL_OFFSET_CELLS, 27, entries, table, pos, i, radius);
    forall j | WithinRadius(pos, i, j, radius)
      ensures j in NeighbourQuery(FULL_OFFSET_CELLS, entries, table, pos, i, radius)
    {
      FullScanComplete(entries, table, pos, i, radius, j);
    }
  }

  /** Offset cells whose keys are absent from the first-index table contribute nothing to the scan. */
  lemma {:induction false} NeighbourScanOfAbsentKeys(offs: seq<int>, count: nat, entries: seq<SpatialCell>,
                                                     table: seq<int>, pos: seq<Vec3>, i: nat, radius: real)
    requires 3 * count <= |offs| && i < |pos| && radius != 0.0
    requires OffsetsSafe(offs, PositionToGrid(pos[i], radius))
    requires LookupShape(entries, table, |pos|)
    requires forall t :: 0 <= t < count ==> table[OffsetKey(offs, t, pos, i, radius)] == -1
    ensures NeighbourScan(offs, count, entries, table, pos, i, radius) == []
  {
    if count > 0 {
      NeighbourScanOfAbsentKeys(offs, count - 1, entries, table, pos, i, radius);
    }
  }

  /** Around cell (1, 1, 1) with eleven buckets, only the cell itself hashes to bucket 10. */
  lemma OnlyCentreHashesToTen(d: Cell)
    requires IsUnitOffset(d)
    ensures NoOverflow(Shift(Cell(1, 1, 1), d))
    ensures HashGridCell(Shift(Cell(1, 1, 1), d), 11) == 10 <==> d == Cell(0, 0, 0)
  {
    var c := Shift(Cell(1, 1, 1), d);
    var w := 10 + d.x + 2 * d.y + 7 * d.z;
    assert HashSum(c) == 11 * (191 + 90 * d.x + 21 * d.y + 80 * d.z) + w;
    if w < 11 {
      ModUnique(HashSum(c), 11, 191 + 90 * d.x + 21 * d.y + 80 * d.z, w);
    } else {
      ModUnique(HashSum(c), 11, 192 + 90 * d.x + 21 * d.y + 80 * d.z, w - 11);
    }
  }

  /** Eleven particles all at one position p of cell (1, 1, 1) (with radius 1). */
  predicate SamePoint(pos: seq<Vec3>, p: Vec3) {
    && PositionToGrid(p, 1.0) == Cell(1, 1, 1)
    && |pos| == 11
    && forall k :: 0 <= k < |pos| ==> pos[k] == p
  }

  /** Their keyed table: every key is 2111 % 11 = 10, so the table is already sorted. */
  function SamePointEntries(): seq<SpatialCell> {
    KeyedEntries(seq(11, _ => 10))
  }

  /** Its first-index table: only key 10 is present, at position 0. */
  function SamePointTable(): seq<int> {
    seq(10, _ => -1) + [0]
  }

  lemma SamePointLookup(pos: seq<Vec3>, p: Vec3)
    requires SamePoint(pos, p)
    ensures GridSafe(pos, 1.0)
    ensures CellKeys(pos, 1.0) == seq(11, _ => 10)
    ensures IsLookupOf(SamePointEntries(), CellKeys(pos, 1.0))
    ensures IsFirstIndexTable(SamePointEntries(), SamePointTable())
    ensures LookupShape(SamePointEntries(), SamePointTable(), |pos|)
  {
    OnlyCentreHashesToTen(Cell(0, 0, 0));
    assert GridSafe(pos, 1.0);
    assert CellKeys(pos, 1.0) == seq(11, _ => 10);
  }

  /** Two distinct particles at the same position are within any radius of each other. */
  lemma CoincidentNeighbours(pos: seq<Vec3>, i: nat, j: int, radius: real)
    requires i < |pos| && 0 <= j < |pos| && i != j && pos[i] == pos[j]
    ensures WithinRadius(pos, i, j, radius)
  {
    DistSqToSelf(pos[i]);
    SquareNonNegative(radius);
  }

  lemma SquareNonNegative(r: real)
    ensures r * r >= 0.0
  {
    if r < 0.0 {
      assert r * r == (-r) * (-r);
    }
  }

  lemma SamePointOffsetsSafe()
    ensures OffsetsSafe(OFFSET_CELLS, Cell(1, 1, 1))
    ensures OffsetsSafe(FULL_OFFSET_CELLS, Cell(1, 1, 1))
    ensures forall t :: 0 <= t < 26 ==>
      HashGridCell(Shift(Cell(1, 1, 1), OffsetAt(OFFSET_CELLS, t)), 11) != 10
  {
    OffsetCellsAreTheOtherNeighbours();
    forall t | 0 <= t < 26
      ensures NoOverflow(Shift(Cell(1, 1, 1), OffsetAt(OFFSET_CELLS, t)))
      ensures HashGridCell(Shift(Cell(1, 1, 1), OffsetAt(OFFSET_CELLS, t)), 11) != 10
    {
      OnlyCentreHashesToTen(OffsetAt(OFFSET_CELLS, t));
    }
    forall u | 0 <= u < 27
      ensures NoOverflow(Shift(Cell(1, 1, 1), OffsetAt(FULL_OFFSET_CELLS, u)))
    {
      FullOffsetCellsInOrder(u);
      OnlyCentreHashesToTen(OffsetAt(FULL_OFFSET_CELLS, u));
    }
  }

  lemma SolverScanOfSamePoint(pos: seq<Vec3>, p: Vec3)
    requires SamePoint(pos, p)
    ensures LookupShape(SamePointEntries(), SamePointTable(), |pos|)
    ensures OffsetsSafe(OFFSET_CELLS, PositionToGrid(pos[0], 1.0))
    ensures NeighbourQuery(OFFSET_CELLS, SamePointEntries(), SamePointTable(), pos, 0, 1.0) == []
  {
    var table := SamePointTable();
    SamePointLookup(pos, p);
    SamePointOffsetsSafe();
    assert pos[0] == p;
    forall t | 0 <= t < 26
      ensures table[OffsetKey(OFFSET_CELLS, t, pos, 0, 1.0)] == -1
    {
    }
    NeighbourScanOfAbsentKeys(OFFSET_CELLS, 26, SamePointEntries(), table, pos, 0, 1.0);
  }

  lemma FullScanOfSamePoint(pos: seq<Vec3>, p: Vec3)
    requires SamePoint(pos, p)
    ensures LookupShape(SamePointEntries(), SamePointTable(), |pos|)
    ensures OffsetsSafe(FULL_OFFSET_CELLS, PositionToGrid(pos[0], 1.0))
    ensures 1 in NeighbourQuery(FULL_OFFSET_CELLS, SamePointEntries(), SamePointTable(), pos, 0, 1.0)
  {
    SamePointLookup(pos, p);
    SamePointOffsetsSafe();
    assert pos[0] == pos[1] == p;
    CoincidentNeighbours(pos, 0, 1, 1.0);
    assert pos[0] == p;
    FullScanComplete(SamePointEntries(), SamePointTable(), pos, 0, 1.0, 1);
  }

  /** Eleven particles at one position of cell (1, 1, 1), with radius 1, are all within one another's
      radius, yet the solver's scan hands particle 0 none of them, because their common cell is the one
      offset its table leaves out; the corrected table finds them. */
  lemma SolverScanMissesSameCellNeighbours(pos: seq<Vec3>, p: Vec3)
    requires SamePoint(pos, p)
    ensures var entries := SamePointEntries();
      var table := SamePointTable();
      && GridSafe(pos, 1.0)
      && IsLookupOf(entries, CellKeys(pos, 1.0))
      && IsFirstIndexTable(entries, table)
      && LookupShape(entries, table, |pos|)
      && OffsetsSafe(OFFSET_CELLS, PositionToGrid(pos[0], 1.0))
      && OffsetsSafe(FULL_OFFSET_CELLS, PositionToGrid(pos[0], 1.0))
      && WithinRadius(pos, 0, 1, 1.0)
      && NeighbourQuery(OFFSET_CELLS, entries, table, pos, 0, 1.0) == []
      && 1 in NeighbourQuery(FULL_OFFSET_CELLS, entries, table, pos, 0, 1.0)
  {
    SamePointLookup(pos, p);
    assert pos[0] == pos[1] == p;
    CoincidentNeighbours(pos, 0, 1, 1.0);
    SolverScanOfSamePoint(pos, p);
    FullScanOfSamePoint(pos, p);
  }

  /** Such particles exist: eleven copies of (1.5, 1.5, 1.5). */
  lemma SamePointExample()
    ensures SamePoint(seq(11, _ => Vec3(1.5, 1.5, 1.5)), Vec3(1.5, 1.5, 1.5))
  {
  }
}
