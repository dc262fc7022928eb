# opengl-softbody, modelled in Dafny

This project models the discrete core of the opengl-softbody demo: a particle fluid solver (SPH) with a
spatial hash grid, a Wavefront OBJ loader that builds a soft-body mesh, the conversion of soft bodies to
render vertices, and the small physics-engine, physics-object and drawable-object classes around them.

## What is modelled

- **Spatial hash grid** (`spatial_hash.dfy`, module `SpatialHash`):
  - `hashGridCell`, with its size_t conversion before the remainder;
  - the sorted (key, particle) table and the first-index table that `updateSpatialLookup` builds;
  - the neighbour scan of `forEachWithinRadius` as the sequence of callback arguments;
  - the 26-entry offset table, and a corrected 27-entry table proved complete.
- **SPH solver state** (`sph_solver.dfy`, class `SphSolver.SPHSolver`):
  - the per-particle vectors are `seq` fields;
  - `positions_hased` and `hash_firstIdx` are arrays;
  - `updateSpatialLookup` fills them in place and sorts with an insertion sort whose contract is std::sort's (sorted by key and a permutation);
  - the module also models the lattice spawn (`grid_init_particle`), `resetSimulation`, the four loops of `solver_step` and the per-axis box clamp.
- **OBJ loader** (`obj_parse.dfy`, `obj_loader.dfy`):
  - a line is split into fields as successive `>>` reads would split it;
  - `std::stoi` reads a digit prefix;
  - the face token is decoded with `find`/`substr` exactly as written, including the `npos + 1` wrap;
  - the loader keeps the vertex/normal/texture push order and the structural spring set;
  - a `std::map` edge-to-group map, the bend-pair selection, `make_canonical_spring` and `find_third_vertex`.
- **Soft-body rendering and clamp** (`soft_body_render.dfy`):
  - both `softBodyToVertex` overloads, with the `cubeMeshData` table;
  - the last loop of the shape-matching step, which keeps every vertex in [-2, 2]^3.
- **Engine and objects**:
  - `physics_engine.dfy`: `PhysicsEngine`, its buffers, the singleton and the collision pass;
  - `physics_object.dfy`: `PhysicsObject` and the colour ramp;
  - `base_object.dfy`: `BaseObject`, the cube mesh and `loadToBuffer`.
- **Support modules**:
  - `glm.dfy`: vectors over exact reals;
  - `cpp_int.dfy`: int32 range, size_t and unsigned conversions, truncation toward zero;
  - `wrappers.dfy`: `Option`.

Two points of the code deserve a note:
- The loop of `forEachWithinRadius` is commented as iterating the whole 3x3x3 neighbourhood (includes/Physics/SPHSolver.h:764), but its offset table has 26 triples and leaves out (0, 0, 0). The model keeps the table as written and proves what a 27-triple table would give (see "## Findings").
- The colour ramp of `PhysicsObject` does not clamp its value, so a speed above 30 gives colour components outside [0, 1] (`PhysicsObjects.ColorRampUnclamped`).

## Model

| member | source | states |
|---|---|---|
| CppInt.ToSizeT | includes/Physics/SPHSolver.h:833 | an int converted to size_t is below 2^64, is unchanged when non-negative, and is 2^64 + v when negative |
| CppInt.ToUnsigned | includes/objectloader.h:100-102 | an int stored into the unsigned faces vector is below 2^32, is unchanged when non-negative, and is 2^32 + v when negative |
| CppInt.Trunc | includes/Physics/PhysicsObject.h:38-40 | the float-to-int conversion truncates toward zero: n <= x < n + 1 for x >= 0, and n - 1 < x <= n for x < 0 |
| Glm.Identity | include/GraphicObject/BaseObject.h:76 | glm::mat4(1.0f) has 16 entries: 1 on the diagonal, 0 elsewhere |
| SpatialHash.HashSum | includes/Physics/SPHSolver.h:832 | defines the int hash sum x * 991 + y * 233 + z * 887 of a cell; HashGridCell, HashIsResidueWhenCountDividesWordSize and HashOfNegativeSumIsNotResidue state how the key follows from it |
| SpatialHash.HashGridCell | includes/Physics/SPHSolver.h:829-834 | with n > 0 particles and no int overflow, every key is a bucket index in [0, n) |
| SpatialHash.HashIsResidueWhenCountDividesWordSize | includes/Physics/SPHSolver.h:832-833 | when n divides 2^64, the size_t wrap-around is invisible and the key is the mathematical residue of the hash sum |
| SpatialHash.HashOfNegativeSumIsNotResidue | includes/Physics/SPHSolver.h:832-833 | for cell (-1, 0, 0) and 3 particles the key is 0, while the residue of the sum -991 is 2 |
| SpatialHash.PositionToGrid | includes/Physics/SPHSolver.h:824-827 | defines the cell of a position as the floor of each coordinate divided by the radius; NearbyPositionsShareNeighbourhood states that positions within one radius land in the same or adjacent cells |
| SpatialHash.CellKeys | includes/Physics/SPHSolver.h:799-805 | the first loop gives one key per particle, each in [0, particle count) |
| SpatialHash.LookupEntriesNameParticles | includes/Physics/SPHSolver.h:799-809 | in a key-sorted permutation of the keyed table, every entry names a particle in range and carries that particle's key |
| SpatialHash.LookupOfPositionsHasShape | includes/Physics/SPHSolver.h:795-822 | tables built from the particles' own positions have n entries and n slots, every slot holds -1 or an entry position, and every keyed entry names a particle |
| SpatialHash.UnitOffsetOfIndex | includes/Physics/SPHSolver.h:400-426 | position u < 27 of the x-fastest order is a unit offset, and indexing it again gives back u |
| SpatialHash.FullOffsetCellsCoverNeighbourhood | includes/Physics/SPHSolver.h:400-426 | the corrected 27-triple table lists every unit offset at its x-y-z index |
| SpatialHash.OffsetCellsSkipCentre | includes/Physics/SPHSolver.h:400-426 | triple t of the solver's table is triple t (t < 13) or triple t + 1 (t >= 13) of the corrected table |
| SpatialHash.FullOffsetCellsInOrder | includes/Physics/SPHSolver.h:400-426 | triple u of the corrected table is the unit offset at position u of the x-y-z order |
| SpatialHash.OffsetCellsAreTheOtherNeighbours | includes/Physics/SPHSolver.h:400-426 | the solver's table holds exactly the 26 unit offsets other than (0, 0, 0), in x-y-z order; (0, 0, 0) is not among them |
| SpatialHash.OffsetKey | includes/Physics/SPHSolver.h:768 | the key of every offset cell is a valid index into the first-index table |
| SpatialHash.ScanBucket | includes/Physics/SPHSolver.h:769-791 | defines the inner loop's output from a start index: entries are walked while the key matches, skipping i and every particle beyond the radius, and a start outside the table gives nothing; ScanBucketStep, ScanBucketSound and ScanBucketReaches state its meaning |
| SpatialHash.NeighbourScan | includes/Physics/SPHSolver.h:766-792 | defines the outer loop's output over the first count offset triples, bucket after bucket in table order; NeighbourScanSound and NeighbourScanHasBucket state its meaning |
| SpatialHash.NeighbourQuery | includes/Physics/SPHSolver.h:760-793 | defines the callback arguments of forEachWithinRadius(i) over a whole offset table; FullScanIsBruteForce states what they are for the corrected table |
| SpatialHash.ScanBucketStep | includes/Physics/SPHSolver.h:772-790 | while the key still matches, an entry adds its particle exactly when it is not i and lies within the radius, and the scan goes on with the next entry |
| SpatialHash.ScanBucketSound | includes/Physics/SPHSolver.h:772-790 | every index a bucket scan reports is another particle, within the smoothing radius of particle i |
| SpatialHash.NeighbourScanSound | includes/Physics/SPHSolver.h:760-793 | for any offset table, every callback argument is another particle within the smoothing radius, never i itself |
| SpatialHash.ScanBucketReaches | includes/Physics/SPHSolver.h:772-790 | an entry reached by an unbroken run of its key, holding another particle within the radius, is reported |
| SpatialHash.NeighbourScanHasBucket | includes/Physics/SPHSolver.h:766-792 | what any one offset cell's bucket reports is part of what the whole scan reports |
| SpatialHash.NearbyPositionsShareNeighbourhood | includes/Physics/SPHSolver.h:824-827 | two positions at most one radius apart lie in the same grid cell or in adjacent ones |
| SpatialHash.BucketScanFindsParticle | includes/Physics/SPHSolver.h:769-790 | in a sorted table with its first-index table, the scan of particle j's bucket reaches j whenever j is within the radius |
| SpatialHash.NeighbourCellIsFullOffset | includes/Physics/SPHSolver.h:762-768 | the key of a particle within the radius is the key of one of the 27 offset cells around i's cell |
| SpatialHash.FullScanComplete | includes/Physics/SPHSolver.h:760-793 | with the corrected table, every other particle within the radius is handed to the callback |
| SpatialHash.FullScanIsBruteForce | includes/Physics/SPHSolver.h:760-793 | with the corrected table, j is reported if and only if j is another particle within the radius |
| SpatialHash.NeighbourScanOfAbsentKeys | includes/Physics/SPHSolver.h:769-772 | when every offset cell's key has first index -1 (absent), the scan reports nothing: -1 as size_t is never below the table size |
| SpatialHash.OnlyCentreHashesToTen | includes/Physics/SPHSolver.h:829-834 | around cell (1, 1, 1) with 11 buckets, a unit offset cell hashes to bucket 10 if and only if it is the centre |
| SpatialHash.SamePointLookup | includes/Physics/SPHSolver.h:795-822 | for eleven particles at one point of cell (1, 1, 1), every key is 10, the entries (10, p) in particle order are their sorted table, and key 10 starts at 0 while every other key is -1 |
| SpatialHash.CoincidentNeighbours | includes/Physics/SPHSolver.h:780-790 | two distinct particles at the same position pass the self and distance tests for any radius |
| SpatialHash.SamePointOffsetsSafe | includes/Physics/SPHSolver.h:400-426 | none of the solver's 26 offset cells around (1, 1, 1) hashes to bucket 10 when there are 11 buckets |
| SpatialHash.SolverScanOfSamePoint | includes/Physics/SPHSolver.h:760-793 | for eleven coincident particles, the solver's scan of particle 0 reports nothing |
| SpatialHash.FullScanOfSamePoint | includes/Physics/SPHSolver.h:760-793 | for the same particles, the corrected scan of particle 0 reports particle 1 |
| SpatialHash.SolverScanMissesSameCellNeighbours | includes/Physics/SPHSolver.h:400-426 | for eleven coincident particles, the lookup is well formed and particle 1 is within the radius of particle 0, yet the solver's scan of particle 0 reports nothing, while the corrected scan reports particle 1 |
| SpatialHash.SamePointExample | includes/Physics/SPHSolver.h:461 | eleven copies of (1.5, 1.5, 1.5) form such a particle set |
| SphSolver.IntCbrt | includes/Physics/SPHSolver.h:518 | the cube side is the integer cube root: s^3 <= n < (s + 1)^3, and s > 0 when n > 0 |
| SphSolver.IntSqrt | includes/Physics/SPHSolver.h:509 | the column count is the integer square root: s^2 <= n < (s + 1)^2, and s > 0 when n > 0 |
| SphSolver.DefaultCubeSide | includes/Physics/SPHSolver.h:461 | the default 2500 particles make a cube 13 particles wide |
| SphSolver.LatticeCoords | includes/Physics/SPHSolver.h:523-526 | x and y lie in [0, s) and z >= 0 |
| SphSolver.LatticeCoordsDecompose | includes/Physics/SPHSolver.h:523-526 | i = x + s * y + s^2 * z, and the first s^3 particles have z < s |
| SphSolver.LatticeCoordsUnique | includes/Physics/SPHSolver.h:523-526 | any digits (x, y in [0, s), z >= 0) that recompose to i are i's lattice coordinates |
| SphSolver.LatticeCoordsInjective | includes/Physics/SPHSolver.h:523-526 | distinct particles get distinct lattice coordinates |
| SphSolver.LatticePointsDistinct | includes/Physics/SPHSolver.h:528-530 | with a nonzero gap, no two particles of the cube are placed at the same position |
| SphSolver.LatticeStepAlongX | includes/Physics/SPHSolver.h:528-530 | neighbours along x within a row are exactly one gap apart |
| SphSolver.SquarePlacement | includes/Physics/SPHSolver.h:507-515 | in dimension 2, particle k goes to column k % columns to the right and row k / columns down, keeping its z; later particles are unchanged |
| SphSolver.CubePlacement | includes/Physics/SPHSolver.h:517-532 | in dimension 3, particle k (below the count and the array size) goes to lattice point k; the others are unchanged |
| SphSolver.ClampAxis | includes/Physics/SPHSolver.h:577-586 | a coordinate stays, with its velocity, exactly when the sphere fits; otherwise a sphere below the lower face is put at min + R (this test wins when both fail), one only above the upper face at max - R, and the velocity becomes -v * e; in a box at least 2R wide it ends in [min + R, max - R] |
| SphSolver.BoxCollide | includes/Physics/SPHSolver.h:577-610 | in a box wide enough on every axis the sphere ends inside it, and a sphere already inside is left untouched |
| SphSolver.BoxCollideIdempotent | includes/Physics/SPHSolver.h:577-610 | a second collision pass leaves the position of a collided sphere where it is |
| SphSolver.StepParticle | includes/Physics/SPHSolver.h:544-610 | after one integration and collision step, the particle lies inside any wide box |
| SphSolver.RestingParticleStaysPut | includes/Physics/SPHSolver.h:544-610 | with no force and no gravity, a resting particle inside the box stays put |
| SphSolver.SPHSolver.constructor | includes/Physics/SPHSolver.h:475-495 | it sets the parameter defaults; it creates 2500 zero densities, velocities and predicted positions, the initial colour, empty hashed entries and -1 first indices; the particles are placed on the 13-wide cube |
| SphSolver.SPHSolver.GridInitParticle | includes/Physics/SPHSolver.h:503-534 | it places the particles on the square (dimension 2) or the cube (dimension 3) of the integer root, and changes nothing for other dimensions |
| SphSolver.SPHSolver.SortByKey | includes/Physics/SPHSolver.h:809 | the table ends sorted by key and is a permutation of what it held |
| SphSolver.SPHSolver.UpdateSpatialLookup | includes/Physics/SPHSolver.h:795-822 | the hashed table is a key-sorted permutation of (key of particle p, p); the first-index table holds each present key's first position and -1 for every other key |
| SphSolver.SPHSolver.ForEachWithinRadius | includes/Physics/SPHSolver.h:760-793 | the callback arguments are the scan over the 26 offsets, and each is another particle within the smoothing radius |
| SphSolver.SPHSolver.ForEachWithinRadiusFull | includes/Physics/SPHSolver.h:760-793 | with all 27 offsets and a lookup of the current positions, j is reported if and only if it is another particle within the radius |
| SphSolver.SPHSolver.ScanOffsetCells | includes/Physics/SPHSolver.h:766-792 | the outer loop concatenates the bucket scans of the offset cells, in table order |
| SphSolver.SPHSolver.ScanOffsetCell | includes/Physics/SPHSolver.h:768-791 | one offset cell's iteration reports the scan of that cell's bucket |
| SphSolver.SPHSolver.OffsetCellKey | includes/Physics/SPHSolver.h:768 | the key computed for an offset cell is the hash of the shifted cell |
| SphSolver.SPHSolver.WalkBucket | includes/Physics/SPHSolver.h:769-791 | walking from the first index reports the bucket scan of that key |
| SphSolver.SPHSolver.ResetSimulation | includes/Physics/SPHSolver.h:617-628 | every vector is resized and refilled; the lookup is built from the all-zero predicted positions, so key 0 starts at 0 and every other key is -1; the particles are placed on the spawn cube |
| SphSolver.SPHSolver.ResetParticleState | includes/Physics/SPHSolver.h:619-625 | fresh vectors of nParticles entries; resize keeps the leading hashed entries and appends default ones; first indices are all -1 |
| SphSolver.SPHSolver.SolverStep | includes/Physics/SPHSolver.h:536-612 | the lookup is rebuilt from the old predicted positions; predicted positions use the velocity after gravity; each particle ends at its integrated and collided state; in a wide box every particle ends inside it |
| SphSolver.SPHSolver.ApplyGravity | includes/Physics/SPHSolver.h:541-546 | every vertical velocity drops by gravity * dt, and the predicted position is the position plus the new velocity * dt |
| SphSolver.SPHSolver.StoreDensities | includes/Physics/SPHSolver.h:547-551 | every density is replaced by the given one |
| SphSolver.SPHSolver.ApplyPressure | includes/Physics/SPHSolver.h:559-564 | every velocity gains force / (density + 1e-6) * dt |
| SphSolver.SPHSolver.MoveAndCollide | includes/Physics/SPHSolver.h:566-611 | every particle moves by velocity * dt and is then collided with the box |
| SphSolver.KeysInRange | includes/Physics/SPHSolver.h:815-819 | every key in the sorted table is a valid slot of the first-index table |
| SphSolver.FirstIndexStep | includes/Physics/SPHSolver.h:813-821 | one iteration keeps the invariant: seen keys point at their first entry, and unseen keys hold -1 |
| SphSolver.OriginCellsAreSafe | includes/Physics/SPHSolver.h:622-626 | positions at the origin all fall in cell (0, 0, 0) and hash without overflow |
| SphSolver.OneCellLookup | includes/Physics/SPHSolver.h:626 | when every particle is at the origin, first index 0 is 0 and every other slot is -1 |
| SphSolver.WalkSortedTable | includes/Physics/SPHSolver.h:772-791 | the inner loop's output is the bucket scan; a start of -1 is past the end as size_t |
| SphSolver.NeighbourWithin | includes/Physics/SPHSolver.h:780-788 | the test passes exactly for another particle within the radius |
| ObjParse.Tokens | includes/objectloader.h:58-60 | the fields of a line are non-empty and contain no white space |
| ObjParse.TokensOfJoin | includes/objectloader.h:58-60 | splitting space-joined words gives the words back |
| ObjParse.FaceField | includes/objectloader.h:88-90 | the string a token read leaves behind is a field of the line, or empty |
| ObjParse.Stoi | includes/objectloader.h:96-98 | a result fits in an int, and text that does not start with a digit or sign throws |
| ObjParse.StoiDecimal | includes/objectloader.h:96-98 | stoi reads back the decimal digits of every int-sized n |
| ObjParse.StoiStops | includes/objectloader.h:96-98 | stoi ignores what follows the digits |
| ObjParse.Find | includes/objectloader.h:92-93 | a found position is at or after the start and holds the character |
| ObjParse.FindIsFirst | includes/objectloader.h:92-93 | the found position is the first occurrence, and npos means there is none |
| ObjParse.ParseFaceToken | includes/objectloader.h:92-98 | defines the face-token decode as written: the first slash, a second slash searched from one past it, and stoi of the three substr texts minus one; NoSlashExactly, ParseFullToken, ParseTwoPartToken and ParseTokenWithoutTexture state what it gives |
| ObjParse.DecodeAt | includes/objectloader.h:96-98 | defines the three stoi calls once the slash positions are known; with no second slash the normal text is the whole token (npos + 1 == 0) |
| ObjParse.TexText | includes/objectloader.h:97 | defines substr(p + 1, q): q characters from p + 1, cut at the end of the token, so it runs past the second slash |
| ObjParse.NoSlashExactly | includes/objectloader.h:94 | nothing is decoded exactly when the token holds no slash |
| ObjParse.ParseFullToken | includes/objectloader.h:92-98 | "a/b/c" decodes to stoi(a) - 1, stoi(b) - 1, stoi(c) - 1, or throws |
| ObjParse.ParseTwoPartToken | includes/objectloader.h:93-98 | in "a/b" the normal text is the whole token (npos + 1 wraps to 0), so the normal index repeats the vertex index |
| ObjParse.ParseDecimalToken | includes/objectloader.h:96-98 | the decimal token "a/b/c" decodes to (a - 1, b - 1, c - 1) |
| ObjParse.ParseTokenWithoutTexture | includes/objectloader.h:97 | "a//c" throws, because stoi finds no digit in the texture text |
| ObjLoader.SoftBodyMesh.constructor | includes/objectloader.h:19-31 | a new mesh has every vector empty |
| ObjLoader.MakeCanonicalSpring | includes/objectloader.h:202-205 | the pair is (min, max) of its arguments: ordered, and made of the two inputs |
| ObjLoader.CanonicalSpringSymmetric | includes/objectloader.h:202-205 | the pair does not depend on argument order |
| ObjLoader.CanonicalSpringsEqual | includes/objectloader.h:202-205 | two canonical pairs are equal if and only if they join the same two indices |
| ObjLoader.FindThirdVertex | includes/objectloader.h:207-214 | the result is one of the three entries, and it is neither v1 nor v2 unless it is the last entry |
| ObjLoader.ThirdVertexIsTheOther | includes/objectloader.h:207-214 | for a triangle of v1, v2 and w in any order, the result is w |
| ObjLoader.ReadFace | includes/objectloader.h:88-108 | the corners read are at most the tokens read, and exactly that many unless one threw |
| ObjLoader.ReadFaceStaysThrown | includes/objectloader.h:96-98 | after a throw, later token reads change nothing |
| ObjLoader.Entries | includes/objectloader.h:100-102 | the corners append three entries each |
| ObjLoader.EntriesAt | includes/objectloader.h:100-102 | corner i fills entries 3i, 3i + 1 and 3i + 2 with its vertex, normal and texture indices, in that order |
| ObjLoader.FeedLine | includes/objectloader.h:58-113 | defines one line's effect: its first field selects a vertex, normal, texture coordinate or face, and any other line changes nothing; ReadLine is proved to do exactly this |
| ObjLoader.FeedFace | includes/objectloader.h:100-112 | defines a face line's effect: the decoded corners' entries are appended, then either the three structural springs (no throw) or the throw flag |
| ObjLoader.FeedLines | includes/objectloader.h:55-114 | defines the line loop up to the line that throws; FeedLinesAppends, FeedLinesCounts, FeedLinesKeepsSprings and FeedLinesAfterThrow state its meaning |
| ObjLoader.FeedLinesAppends | includes/objectloader.h:56-114 | the line loop only appends to the vectors and only grows the spring set; after a throw nothing changes |
| ObjLoader.FeedLinesCounts | includes/objectloader.h:62-113 | without a throw, each v, vn or vt line adds one element to its vector, each face line adds nine entries, and other lines add nothing |
| ObjLoader.FeedLinesKeepsSprings | includes/objectloader.h:109-112 | every structural spring is canonical and joins two vertex entries of faces |
| ObjLoader.DecimalTokenEntries | includes/objectloader.h:96-102 | the token "a/b/c" appends a - 1, c - 1, b - 1: vertex, normal, texture |
| ObjLoader.ReadFaceThrows | includes/objectloader.h:96-98 | a throwing token ends the face with the corners read before it |
| ObjLoader.SortedPairs | includes/objectloader.h:116-118 | iterating the set gives one element per member |
| ObjLoader.SortedPairsMembers | includes/objectloader.h:116-118 | the iteration holds exactly the set's elements |
| ObjLoader.SortedPairsAscending | includes/objectloader.h:116-118 | the iteration is strictly ascending in pair order, so nothing repeats |
| ObjLoader.EdgeMap | includes/objectloader.h:126-137 | defines the edge-to-group map after the first n groups, each group pushed under its three canonical edges; EdgeMapMembers, EdgeMapBelow and EdgeMapGroupsInRange state its meaning |
| ObjLoader.EdgeMapMembers | includes/objectloader.h:126-137 | group g is listed under a key if and only if g is one of the groups read and the key is one of its three edges |
| ObjLoader.EdgeMapBelow | includes/objectloader.h:126-137 | every group listed is one of the groups read |
| ObjLoader.EdgeMapGroupsInRange | includes/objectloader.h:126-137 | every group listed starts three entries inside faces |
| ObjLoader.BendSet | includes/objectloader.h:139-159 | defines the bend pairs: the canonical pair of third vertices for every edge listed under exactly two groups whose third vertices differ; BendPairsFromSharedEdges states its meaning |
| ObjLoader.BendPairsFromSharedEdges | includes/objectloader.h:139-159 | every bend pair is ascending, joins two different vertices, and is the canonical pair of the third vertices of two groups that share an edge |
| ObjLoader.ReadLine | includes/objectloader.h:58-113 | one iteration of the line loop changes the mesh vectors and the spring set as the line-by-line specification of a v, vn, vt or f line says, and leaves the velocities and the pair vectors alone |
| ObjLoader.ReadFaceLine | includes/objectloader.h:81-113 | a face line appends its corners' entries and, unless a token threw, its three structural springs |
| ObjLoader.ReadFaceCorners | includes/objectloader.h:86-108 | the token loop appends the decoded corners' entries and keeps their vertex indices in v |
| ObjLoader.ReadCorner | includes/objectloader.h:90-105 | one token appends its corner's three entries when it decodes, and nothing otherwise |
| ObjLoader.BuildEdgeToFaceMap | includes/objectloader.h:126-137 | the loop builds the edge map over every group of faces |
| ObjLoader.CollectBendPairs | includes/objectloader.h:139-159 | the loop collects the canonical third-vertex pair of every edge shared by exactly two groups whose third vertices differ |
| ObjLoader.LoadOBJ | includes/objectloader.h:36-198 | a file that cannot be opened is reported (the source returns false) and leaves the mesh untouched; otherwise the mesh holds what the line loop appended; after a full load the spring set's pairs, in ascending order, are appended after whatever the structural pairs held, the velocities are zero and as many as the vertices, and the bend pairs are never filled |
| ObjLoader.ReadLines | includes/objectloader.h:55-114 | after the line loop, the mesh vectors, the spring set and the throw flag are those of the line-by-line specification from the old mesh, and the velocities and pair vectors are untouched |
| ObjLoader.AppendStructuralPairs | includes/objectloader.h:116-121 | the set's pairs are appended in ascending order |
| ObjLoader.FeedLinesAfterThrow | includes/objectloader.h:96-98 | once a line throws, the rest of the file changes nothing |
| SoftBodyRender.CubeMeshDataFollowsIndices | src/main.cpp:78-140 | the 36 render corners follow the triangle list exactly, and every index is below 8 |
| SoftBodyRender.CubeVertices | src/main.cpp:891-894 | one body gives 36 render vertices |
| SoftBodyRender.GatheredAt | src/main.cpp:889-895 | n bodies give 36n vertices, and entry 36o + k is corner k of body o |
| SoftBodyRender.SoftBodiesToVertex | src/main.cpp:883-898 | the result has 36 entries per body, and entry 36o + k is body o's position of cube corner k, with a zero normal and the corner's texture coordinate |
| SoftBodyRender.RenderVertexAsWritten | src/main.cpp:910 | defines group g's vertex as written: the position with the first entry, the normal with the last entry and the texture coordinate with the middle entry |
| SoftBodyRender.RenderVertex | src/main.cpp:908-911 | defines group g's vertex with each index read from the slot the loader stored it in; CornerRendersOwnAttributes states that it renders each corner's own attributes |
| SoftBodyRender.SoftBodyToVertexAsWritten | src/main.cpp:900-914 | as written, one vertex per group: the normal is read with the last entry of the group and the texture coordinate with the middle entry |
| SoftBodyRender.SoftBodyToVertex | src/main.cpp:900-914 | corrected, one vertex per group, with each index read from the slot the loader stored it in |
| SoftBodyRender.CornerRendersOwnAttributes | src/main.cpp:908-911 | for loader-built faces, render vertex g carries exactly the position, normal and texture coordinate that corner g names |
| SoftBodyRender.AsWrittenSwapsNormalAndTexture | src/main.cpp:910 | for the token "1/1/2", the code as written renders normal 1 and texture 2, while the corner names normal 2 and texture 1 |
| SoftBodyRender.MoveAndClamp | src/main.cpp:845-880 | defines one vertex's move by velocity times frame time and the six wall tests; MoveAndClampStaysInBox and RestingVertexStays state its meaning |
| SoftBodyRender.FloorThenCeiling | src/main.cpp:850-859 | y ends in [-2, 2]; inside, it is unchanged; a crossed wall becomes the value, with the velocity negated |
| SoftBodyRender.CeilingThenFloor | src/main.cpp:860-879 | the same for x and z, with the upper test first |
| SoftBodyRender.MoveAndClampStaysInBox | src/main.cpp:845-880 | every moved vertex ends in [-2, 2]^3; an axis that stayed inside keeps its coordinate and velocity; a crossed axis ends on the wall with its velocity negated |
| SoftBodyRender.RestingVertexStays | src/main.cpp:845-880 | a vertex inside the box with zero velocity stays where it is |
| SoftBodyRender.MoveVertex | src/main.cpp:848-879 | the body of the loop computes the move and the six wall tests, ending inside the box |
| SoftBodyRender.IntegrateAndClamp | src/main.cpp:844-880 | every vertex is moved and clamped in place and ends inside the box; extra velocities are untouched |
| PhysicsEngines.BoundingBox | includes/Physics/PhysicsEngine.h:90-95 | max - min is (width, height, depth) and the midpoint is the position |
| PhysicsEngines.AsWrittenVelocities | includes/Physics/PhysicsEngine.h:112-119 | defines eq1 and eq2 as written; AsWrittenMomentum, AsWrittenLosesMomentum and EqualMassesSwap state what they do to momentum |
| PhysicsEngines.ElasticVelocities | includes/Physics/PhysicsEngine.h:112-119 | defines the elastic-collision velocities, which differ from the written ones in the second sphere's own factor; ElasticConservesMomentum states that they keep momentum |
| PhysicsEngines.EqualMassesSwap | includes/Physics/PhysicsEngine.h:112-122 | with equal masses the two velocities are exchanged |
| PhysicsEngines.ElasticConservesMomentum | includes/Physics/PhysicsEngine.h:112-122 | the corrected formulas keep mi vi + mj vj |
| PhysicsEngines.AsWrittenMomentum | includes/Physics/PhysicsEngine.h:118-119 | as written, momentum changes by vj * 2 mj (mi - mj) / (mi + mj) |
| PhysicsEngines.AsWrittenLosesMomentum | includes/Physics/PhysicsEngine.h:118-119 | with masses 1 and 3, vi = 0 and vj = 1 on one axis, momentum 3 becomes 0 as written |
| PhysicsEngines.CollidePair | includes/Physics/PhysicsEngine.h:109-122 | keeps the number of velocities; when the centres are at most 2 apart, both velocities of the pair are replaced by eq1 and eq2, in that order |
| PhysicsEngines.CollideBucket | includes/Physics/PhysicsEngine.h:105-125 | keeps the number of velocities; applies every pair i < j of a bucket in the order of the two loops |
| PhysicsEngines.CollideGrid | includes/Physics/PhysicsEngine.h:98-127 | keeps the number of velocities; applies every bucket in grid order; CollideGridPermutes and CollideGridUntouched state its meaning |
| PhysicsEngines.CollidePairPermutes | includes/Physics/PhysicsEngine.h:109-123 | with equal masses, one pair's update is a permutation of the velocities |
| PhysicsEngines.CollideGridPermutes | includes/Physics/PhysicsEngine.h:98-127 | with equal masses (the constructor gives mass 1), the whole pass permutes the velocities |
| PhysicsEngines.CollideGridUntouched | includes/Physics/PhysicsEngine.h:98-127 | an object listed in no bucket keeps its velocity |
| PhysicsEngines.PhysicsEngine.constructor | includes/Physics/PhysicsEngine.h:38-41 | the engine starts with no objects, counter 0 and not paused |
| PhysicsEngines.PhysicsEngine.Update | includes/Physics/PhysicsEngine.h:61-70 | it passes the gate exactly when not paused or forced, and changes no state |
| PhysicsEngines.PhysicsEngine.AddPhysicObject | includes/Physics/PhysicsEngine.h:73-82 | it appends one object (mass 1, at rest) and its position and colour to the buffers; the id is the old counter, which goes up by one; registration is preserved |
| PhysicsEngines.PhysicsEngine.SetBoundingBox | includes/Physics/PhysicsEngine.h:90-95 | the box becomes the bounding box of the given size, centred on the position |
| PhysicsEngines.PhysicsEngine.HandleObjectCollision | includes/Physics/PhysicsEngine.h:98-127 | only velocities change, and they become the pass over every bucket pair i < j within distance 2 |
| PhysicsEngines.CollideGridLoop | includes/Physics/PhysicsEngine.h:100-126 | the bucket loop applies every bucket in grid order |
| PhysicsEngines.CollideBucketLoop | includes/Physics/PhysicsEngine.h:105-125 | the two inner loops apply every pair i < j in order |
| PhysicsEngines.CollideStep | includes/Physics/PhysicsEngine.h:109-123 | one pair replaces both velocities when the centres are at most 2 apart |
| PhysicsEngines.EngineInstance.GetInstance | includes/Physics/PhysicsEngine.h:43-50 | the first call creates an empty engine, and every later call returns that same engine |
| PhysicsEngines.GetInstanceTwice | includes/Physics/PhysicsEngine.h:43-50 | two calls return the same engine |
| PhysicsObjects.ColorRamp | includes/Physics/PhysicsObject.h:33-43 | green 0 and alpha 1; for a value in [0, 1], red and blue lie in [0, 1] and add up to 1 (or 254/255 when both are cut) |
| PhysicsObjects.ColorRampEnds | includes/Physics/PhysicsObject.h:33-43 | value 0 is (0, 0, 1, 1) and value 1 is (1, 0, 0, 1) |
| PhysicsObjects.ColorRampUnclamped | includes/Physics/PhysicsObject.h:33-43 | value 2 gives red 2 and blue -1: nothing clamps |
| PhysicsObjects.PhysicsObject.constructor | includes/Physics/PhysicsObject.h:11-25 | mass is 1 whatever the argument; motion is zero; radius 1; id -1; the position and colour are the given ones |
| PhysicsObjects.PhysicsObject.SetColorByVelocity | includes/Physics/PhysicsObject.h:27-31 | the colour becomes the ramp at speed / 30, and nothing else changes |
| BaseObjects.CubeIndicesInRange | include/GraphicObject/BaseObject.h:20-57 | 24 coordinates and 36 indices, every index below 8 |
| BaseObjects.ShapeMesh | include/GraphicObject/BaseObject.h:66-74 | every shape gets the cube mesh |
| BaseObjects.Interleave | include/GraphicObject/BaseObject.h:96-102 | defines what loadToBuffer appends: each coordinate in order, and the four colour components after every index i with i % 3 == 2; InterleaveLength, InterleaveCoordinate and InterleaveColour state its meaning |
| BaseObjects.InterleaveLength | include/GraphicObject/BaseObject.h:96-102 | n coordinates grow the buffer by n + 4 floor(n / 3) |
| BaseObjects.InterleaveCoordinate | include/GraphicObject/BaseObject.h:96-102 | coordinate i lands at i + 4 floor(i / 3) |
| BaseObjects.InterleaveColour | include/GraphicObject/BaseObject.h:99-101 | after vertex g's last coordinate come r, g, b, a of the colour |
| BaseObjects.CubeBufferSize | include/GraphicObject/BaseObject.h:96-102 | the cube adds 56 entries |
| BaseObjects.Translated | include/GraphicObject/BaseObject.h:87-90 | translation keeps the first three columns |
| BaseObjects.TranslateIdentity | include/GraphicObject/BaseObject.h:87-90 | translating the identity puts the offset in the last column |
| BaseObjects.TranslateTwice | include/GraphicObject/BaseObject.h:87-90 | two translations compose into one by the sum of the offsets |
| BaseObjects.BaseObject.constructor | include/GraphicObject/BaseObject.h:64-77 | cube mesh for every shape, the given colour, and the identity transform |
| BaseObjects.BaseObject.Translate | include/GraphicObject/BaseObject.h:87-90 | the transform becomes its translation |
| BaseObjects.BaseObject.ResetTransform | include/GraphicObject/BaseObject.h:91-94 | the transform is the identity again |
| BaseObjects.BaseObject.LoadToBuffer | include/GraphicObject/BaseObject.h:96-102 | the caller's buffer is kept as a prefix, and the interleaved coordinates and colour follow it |

## Left out

- Density, pressure and the SPH kernels (`calculateDensity`, `calculatePressureForce`, the kernel polynomials): floating-point numerics. `SolverStep` takes the new densities and the pressure forces as inputs.
- `randomDirection`: it draws from a random generator shared between threads.
- OpenMP: every parallel loop is modelled as a sequential loop.
- Floating point in general: positions, velocities and colours are exact reals. `positionToGrid` is a real floor. `glm::distance(a, b) <= 2` is modelled as a squared distance of at most 4.
- The spring and shape-matching forces of the soft-body step, including the Eigen SVD: numerics. Only the final move-and-clamp loop is modelled.
- Constraint rest distances (`glm::distance`) and the centre-of-mass fields computed by the loader: numerics. A structural pair is modelled as its index pair.
- File and console I/O:
  - `loadOBJ` receives `None` for a file that cannot be opened, and otherwise the file's lines;
  - the float extraction of a field is the parameter `number`;
  - the `std::cout` output is not modelled.
- SphSolver.IntCbrt / SphSolver.IntSqrt: `(int)cbrtf((float)total)` and `(int)sqrt((float)total)` are modelled as the exact integer roots. cbrtf is not required to be correctly rounded, and a count above 2^24 is not exact as a float, so the float computation can give a side one smaller (or different) from the exact root.
- ObjLoader.WellFormed: face tokens are required to contain a slash. A token without one leaves `v[i]` uninitialised, and the springs then read it.
- ObjParse.Stoi: stoi of "-2147483648" is exact, but the following `- 1` overflows int. The model computes the unbounded result.
- `rotate` (trigonometry) is not modelled; `translate` and `resetTransform` are.
- PhysicsObjects.PhysicsObject.SetColorByVelocity: the length of the velocity (a square root) is passed in as `speed`, with `speed * speed` equal to the squared length.
- The `sph_solver` pointer of the engine and the solver call inside `update` (it is commented out in the source).
- includes/Graphic/BaseObject.h, the base class `PhysicsObject` derives from, is not part of this model. The physics object's drawable fields follow include/GraphicObject/BaseObject.h. There is no `SPHERE` shape, and the shape argument has no default.
- PhysicsEngines.PhysicsEngine.HandleObjectCollision: `partition_grid` is a `std::map` keyed by `glm::vec3` with a comparator. It is modelled as the sequence of its buckets in the map's visiting order. The comparator and the bucket-filling code are not modelled.
- PhysicsEngines.PhysicsEngine.AddPhysicObject: the id counter is an unbounded integer. The int overflow after 2^31 objects is not modelled.
- SoftBodyRender.SoftBodyToVertexAsWritten: requires the index ranges for every complete group of three. A trailing partial group is never read by the model, while the code would read past the end of `faces`.
- PhysicsEngines.AsWrittenLosesMomentum: the counterexample is stated for one axis, not as a three-vector.
- The 2-D square placement is proved for the positions only. Its `y` row goes down, as written.

## Findings

| source | as written | input that shows it | evidently intended | confidence | as-written member | corrected member |
|---|---|---|---|---|---|---|
| includes/Physics/SPHSolver.h:400-426 | the offset table of forEachWithinRadius has 26 triples and leaves out (0, 0, 0): the own cell is not among the scanned offsets, so same-cell neighbours are found only when an offset cell's key happens to collide with the own cell's key | eleven particles, all at (1.5, 1.5, 1.5), smoothing radius 1: they all hash to bucket 10, none of the 26 neighbour cells does, and particle 0 gets no neighbours although the other ten are at distance 0 | scan all 27 cells of the 3x3x3 block, which finds exactly the other particles within the radius | high (not executed) | SpatialHash.SolverScanMissesSameCellNeighbours | SpatialHash.FullScanIsBruteForce |
| src/main.cpp:910 | softBodyToVertex reads the normal with faces[3k + 2] and the texture coordinate with faces[3k + 1], but the loader stores (vertex, normal, texture) | face token "1/1/2" with two different normals and two different texture coordinates: the corner names normal 2 and texture 1, but gets normal 1 and texture 2 | read the normal with faces[3k + 1] and the texture coordinate with faces[3k + 2] | high (not executed) | SoftBodyRender.AsWrittenSwapsNormalAndTexture | SoftBodyRender.CornerRendersOwnAttributes |
| includes/Physics/PhysicsEngine.h:118-119 | the second velocity's own term uses the factor (mi - mj) / (mi + mj) | masses 1 and 3, first sphere at rest, second moving at 1 along x: momentum 3 becomes 0 | the elastic-collision factor (mj - mi) / (mi + mj), which conserves momentum; with the constructor's fixed mass 1 both agree, and a source comment marks the pass as experimental and unused | medium (not executed) | PhysicsEngines.AsWrittenLosesMomentum | PhysicsEngines.ElasticConservesMomentum |
