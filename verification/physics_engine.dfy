/** The physics engine: the list of physics objects with the instance and colour buffers the renderer
    draws them from, the pause gate of the time step, the particles' bounding box, the single shared
    instance, and the pairwise sphere collision pass over the partition grid. */
module PhysicsEngines {
  import opened Glm
  import opened BaseObjects
  import opened PhysicsObjects

  /** A vector owned by the renderer that the engine appends to through a pointer. */
  class Buffer<T> {
    var items: seq<T>

    constructor()
      ensures items == []
    {
      items := [];
    }
  }

  // ---------------------------------------------------------------------------------------------
  // The bounding box

  /** The box of the given width, height and depth centred on `position`, as (min corner, max
      corner). */
  function BoundingBox(width: real, height: real, depth: real, position: Vec3): (box: (Vec3, Vec3))
    ensures Sub(box.1, box.0) == Vec3(width, height, depth)
    ensures Scale(Add(box.0, box.1), 0.5) == position
  {
    (Vec3(position.x - width / 2.0, position.y - height / 2.0, position.z - depth / 2.0),
     Vec3(position.x + width / 2.0, position.y + height / 2.0, position.z + depth / 2.0))
  }

  // ---------------------------------------------------------------------------------------------
  // Collision response

  /** The velocities the collision pass gives two touching spheres, as written: the first gets
      vi (mi - mj) / (mi + mj) + vj 2mj / (mi + mj), the second vi 2mi / (mi + mj) + vj (mi - mj) / (mi + mj). */
  function AsWrittenVelocities(mi: real, mj: real, vi: Vec3, vj: Vec3): (Vec3, Vec3)
    requires mi + mj != 0.0
  {
    var bot := mi + mj;
    (Add(Scale(vi, (mi - mj) / bot), Scale(vj, (2.0 * mj) / bot)),
     Add(Scale(vi, (2.0 * mi) / bot), Scale(vj, (mi - mj) / bot)))
  }

  /** The one-dimensional elastic collision, applied per axis: the second sphere's own term has the
      factor (mj - mi) / (mi + mj). */
  function ElasticVelocities(mi: real, mj: real, vi: Vec3, vj: Vec3): (Vec3, Vec3)
    requires mi + mj != 0.0
  {
    var bot := mi + mj;
    (Add(Scale(vi, (mi - mj) / bot), Scale(vj, (2.0 * mj) / bot)),
     Add(Scale(vi, (2.0 * mi) / bot), Scale(vj, (mj - mi) / bot)))
  }

  /** The momentum of the pair along one axis, for components a and b. */
  function AxisMomentum(mi: real, mj: real, a: real, b: real): real {
    a * mi + b * mj
  }

  /** The momentum of the pair, mi vi + mj vj, axis by axis. */
  function Momentum(mi: real, mj: real, vi: Vec3, vj: Vec3): Vec3 {
    Vec3(AxisMomentum(mi, mj, vi.x, vj.x), AxisMomentum(mi, mj, vi.y, vj.y), AxisMomentum(mi, mj, vi.z, vj.z))
  }

  /** One axis of ElasticVelocities: the new components of the two spheres for old components a and b. */
  function ElasticAxis(mi: real, mj: real, a: real, b: real): (real, real)
    requires mi + mj != 0.0
  {
    (a * ((mi - mj) / (mi + mj)) + b * ((2.0 * mj) / (mi + mj)),
     a * ((2.0 * mi) / (mi + mj)) + b * ((mj - mi) / (mi + mj)))
  }

  /** One axis of AsWrittenVelocities. */
  function AsWrittenAxis(mi: real, mj: real, a: real, b: real): (real, real)
    requires mi + mj != 0.0
  {
    (a * ((mi - mj) / (mi + mj)) + b * ((2.0 * mj) / (mi + mj)),
     a * ((2.0 * mi) / (mi + mj)) + b * ((mi - mj) / (mi + mj)))
  }

  /** The momentum the code as written adds per unit of the second sphere's velocity. */
  function MomentumShift(mi: real, mj: real): real
    requires mi + mj != 0.0
  {
    2.0 * mj * (mi - mj) / (mi + mj)
  }

  /** Equal masses exchange velocities, in the code as written and in the elastic collision alike. */
  lemma EqualMassesSwap(m: real, vi: Vec3, vj: Vec3)
    requires m + m != 0.0
    ensures AsWrittenVelocities(m, m, vi, vj) == (vj, vi)
    ensures ElasticVelocities(m, m, vi, vj) == (vj, vi)
  {
    assert (m - m) / (m + m) == 0.0;
    assert (2.0 * m) / (m + m) == 1.0;
  }

  lemma Regroup(mi: real, mj: real, a: real, b: real, p: real, q: real, r: real, t: real)
    ensures (a * p + b * q) * mi + (a * r + b * t) * mj == a * (mi * p + mj * r) + b * (mi * q + mj * t)
  {
  }

  /** The mass-weighted factors of the elastic collision: the first sphere's old velocity keeps its
      weight mi, the second's its weight mj. */
  lemma ElasticCoefficients(mi: real, mj: real)
    requires mi + mj != 0.0
    ensures mi * ((mi - mj) / (mi + mj)) + mj * ((2.0 * mi) / (mi + mj)) == mi
    ensures mi * ((2.0 * mj) / (mi + mj)) + mj * ((mj - mi) / (mi + mj)) == mj
  {
    var s := mi + mj;
    var p := (mi - mj) / s;
    var q := (2.0 * mj) / s;
    var r := (2.0 * mi) / s;
    var t := (mj - mi) / s;
    assert p * s == mi - mj && q * s == 2.0 * mj && r * s == 2.0 * mi && t * s == mj - mi;
    assert (mi * p + mj * r) * s == mi * s;
    assert (mi * q + mj * t) * s == mj * s;
  }

  /** As written, the second sphere's old velocity comes out with weight mj + MomentumShift. */
  lemma AsWrittenCoefficients(mi: real, mj: real)
    requires mi + mj != 0.0
    ensures mi * ((mi - mj) / (mi + mj)) + mj * ((2.0 * mi) / (mi + mj)) == mi
    ensures mi * ((2.0 * mj) / (mi + mj)) + mj * ((mi - mj) / (mi + mj)) == mj + MomentumShift(mi, mj)
  {
    ElasticCoefficients(mi, mj);
    var s := mi + mj;
    var p := (mi - mj) / s;
    var q := (2.0 * mj) / s;
    var k := MomentumShift(mi, mj);
    assert p * s == mi - mj && q * s == 2.0 * mj && k * s == 2.0 * mj * (mi - mj);
    assert (mi * q + mj * p) * s == (mj + k) * s;
  }

  /** One axis of the elastic collision keeps mi a + mj b. */
  lemma ElasticAxisMomentum(mi: real, mj: real, a: real, b: real)
    requires mi + mj != 0.0
    ensures AxisMomentum(mi, mj, ElasticAxis(mi, mj, a, b).0, ElasticAxis(mi, mj, a, b).1) == AxisMomentum(mi, mj, a, b)
  {
    var s := mi + mj;
    ElasticCoefficients(mi, mj);
    Regroup(mi, mj, a, b, (mi - mj) / s, (2.0 * mj) / s, (2.0 * mi) / s, (mj - mi) / s);
  }

  /** One axis as written turns mi a + mj b into mi a + mj b + b MomentumShift. */
  lemma AsWrittenAxisMomentum(mi: real, mj: real, a: real, b: real)
    requires mi + mj != 0.0
    ensures AxisMomentum(mi, mj, AsWrittenAxis(mi, mj, a, b).0, AsWrittenAxis(mi, mj, a, b).1)
         == AxisMomentum(mi, mj, a, b) + b * MomentumShift(mi, mj)
  {
    var s := mi + mj;
    AsWrittenCoefficients(mi, mj);
    Regroup(mi, mj, a, b, (mi - mj) / s, (2.0 * mj) / s, (2.0 * mi) / s, (mi - mj) / s);
  }

  /** The vector formulas act on each axis separately. */
  lemma ElasticComponents(mi: real, mj: real, vi: Vec3, vj: Vec3)
    requires mi + mj != 0.0
    ensures ElasticVelocities(mi, mj, vi, vj).0
         == Vec3(ElasticAxis(mi, mj, vi.x, vj.x).0, ElasticAxis(mi, mj, vi.y, vj.y).0, ElasticAxis(mi, mj, vi.z, vj.z).0)
    ensures ElasticVelocities(mi, mj, vi, vj).1
         == Vec3(ElasticAxis(mi, mj, vi.x, vj.x).1, ElasticAxis(mi, mj, vi.y, vj.y).1, ElasticAxis(mi, mj, vi.z, vj.z).1)
  {
    ElasticFirst(mi, mj, vi, vj);
    ElasticSecond(mi, mj, vi, vj);
  }

  lemma ElasticFirst(mi: real, mj: real, vi: Vec3, vj: Vec3)
    requires mi + mj != 0.0
    ensures ElasticVelocities(mi, mj, vi, vj).0
         == Vec3(ElasticAxis(mi, mj, vi.x, vj.x).0, ElasticAxis(mi, mj, vi.y, vj.y).0, ElasticAxis(mi, mj, vi.z, vj.z).0)
  {
  }

  lemma ElasticSecond(mi: real, mj: real, vi: Vec3, vj: Vec3)
    requires mi + mj != 0.0
    ensures ElasticVelocities(mi, mj, vi, vj).1
         == Vec3(ElasticAxis(mi, mj, vi.x, vj.x).1, ElasticAxis(mi, mj, vi.y, vj.y).1, ElasticAxis(mi, mj, vi.z, vj.z).1)
  {
  }

  lemma AsWrittenComponents(mi: real, mj: real, vi: Vec3, vj: Vec3)
    requires mi + mj != 0.0
    ensures AsWrittenVelocities(mi, mj, vi, vj).0
         == Vec3(AsWrittenAxis(mi, mj, vi.x, vj.x).0, AsWrittenAxis(mi, mj, vi.y, vj.y).0, AsWrittenAxis(mi, mj, vi.z, vj.z).0)
    ensures AsWrittenVelocities(mi, mj, vi, vj).1
         == Vec3(AsWrittenAxis(mi, mj, vi.x, vj.x).1, AsWrittenAxis(mi, mj, vi.y, vj.y).1, AsWrittenAxis(mi, mj, vi.z, vj.z).1)
  {
    AsWrittenFirst(mi, mj, vi, vj);
    AsWrittenSecond(mi, mj, vi, vj);
  }

  lemma AsWrittenFirst(mi: real, mj: real, vi: Vec3, vj: Vec3)
    requires mi + mj != 0.0
    ensures AsWrittenVelocities(mi, mj, vi, vj).0
         == Vec3(AsWrittenAxis(mi, mj, vi.x, vj.x).0, AsWrittenAxis(mi, mj, vi.y, vj.y).0, AsWrittenAxis(mi, mj, vi.z, vj.z).0)
  {
  }

  lemma AsWrittenSecond(mi: real, mj: real, vi: Vec3, vj: Vec3)
    requires mi + mj != 0.0
    ensures AsWrittenVelocities(mi, mj, vi, vj).1
         == Vec3(AsWrittenAxis(mi, mj, vi.x, vj.x).1, AsWrittenAxis(mi, mj, vi.y, vj.y).1, AsWrittenAxis(mi, mj, vi.z, vj.z).1)
  {
  }

  /** The elastic collision keeps the pair's momentum. */
  lemma ElasticConservesMomentum(mi: real, mj: real, vi: Vec3, vj: Vec3)
    requires mi + mj != 0.0
    ensures Momentum(mi, mj, ElasticVelocities(mi, mj, vi, vj).0, ElasticVelocities(mi, mj, vi, vj).1)
         == Momentum(mi, mj, vi, vj)
  {
    ElasticComponents(mi, mj, vi, vj);
    ElasticAxisMomentum(mi, mj, vi.x, vj.x);
    ElasticAxisMomentum(mi, mj, vi.y, vj.y);
    ElasticAxisMomentum(mi, mj, vi.z, vj.z);
  }

  /** As written, the pair's momentum changes by vj 2 mj (mi - mj) / (mi + mj): it is kept only when the
      masses are equal or the second sphere is at rest. */
  lemma AsWrittenMomentum(mi: real, mj: real, vi: Vec3, vj: Vec3)
    requires mi + mj != 0.0
    ensures Momentum(mi, mj, AsWrittenVelocities(mi, mj, vi, vj).0, AsWrittenVelocities(mi, mj, vi, vj).1)
         == Add(Momentum(mi, mj, vi, vj), Scale(vj, MomentumShift(mi, mj)))
  {
    AsWrittenComponents(mi, mj, vi, vj);
    AsWrittenAxisMomentum(mi, mj, vi.x, vj.x);
    AsWrittenAxisMomentum(mi, mj, vi.y, vj.y);
    AsWrittenAxisMomentum(mi, mj, vi.z, vj.z);
  }

  /** A sphere of mass 1 at rest hit by a sphere of mass 3 moving at 1 along an axis: along that axis
      the pair had momentum 3 and, as written, leaves with momentum 0. */
  lemma AsWrittenLosesMomentum()
    ensures AxisMomentum(1.0, 3.0, 0.0, 1.0) == 3.0
    ensures AxisMomentum(1.0, 3.0, AsWrittenAxis(1.0, 3.0, 0.0, 1.0).0, AsWrittenAxis(1.0, 3.0, 0.0, 1.0).1) == 0.0
  {
    AsWrittenAxisMomentum(1.0, 3.0, 0.0, 1.0);
  }

  /** Every mass is positive, so no pair's mass sum is zero. */
  predicate PositiveMasses(mass: seq<real>) {
    forall k :: 0 <= k < |mass| ==> mass[k] > 0.0
  }

  /** One pair (a, b) of a bucket: if the spheres' centres are at most 2 apart (glm::distance <= 2, that
      is a squared distance of at most 4), both velocities are replaced, a's first and then b's. */
  function CollidePair(vel: seq<Vec3>, pos: seq<Vec3>, mass: seq<real>, a: nat, b: nat): (r: seq<Vec3>)
    requires |pos| == |vel| == |mass| && PositiveMasses(mass) && a < |vel| && b < |vel|
    ensures |r| == |vel|
  {
    if DistSq(pos[a], pos[b]) <= 4.0 then
      var (e1, e2) := AsWrittenVelocities(mass[a], mass[b], vel[a], vel[b]);
      vel[a := e1][b := e2]
    else vel
  }

  predicate InBucketRange(bucket: seq<int>, n: nat) {
    forall k :: 0 <= k < |bucket| ==> 0 <= bucket[k] < n
  }

  predicate InGridRange(grid: seq<seq<int>>, n: nat) {
    forall b :: 0 <= b < |grid| ==> InBucketRange(grid[b], n)
  }

  /** The pairs of one bucket from (i, j) on, in the order of the two loops: j runs from i + 1 to the end,
      then i moves on. */
  function CollideBucket(vel: seq<Vec3>, pos: seq<Vec3>, mass: seq<real>, bucket: seq<int>, i: nat, j: nat)
    : (r: seq<Vec3>)
    requires |pos| == |vel| == |mass| && PositiveMasses(mass) && InBucketRange(bucket, |vel|)
    ensures |r| == |vel|
    decreases |bucket| - i, |bucket| - j
  {
    if i >= |bucket| then vel
    else if j >= |bucket| then CollideBucket(vel, pos, mass, bucket, i + 1, i + 2)
    else CollideBucket(CollidePair(vel, pos, mass, bucket[i], bucket[j]), pos, mass, bucket, i, j + 1)
  }

  /** The buckets of the partition grid from bucket b on, in the grid's order. */
  function CollideGrid(vel: seq<Vec3>, pos: seq<Vec3>, mass: seq<real>, grid: seq<seq<int>>, b: nat)
    : (r: seq<Vec3>)
    requires |pos| == |vel| == |mass| && PositiveMasses(mass) && InGridRange(grid, |vel|)
    ensures |r| == |vel|
    decreases |grid| - b
  {
    if b >= |grid| then vel
    else CollideGrid(CollideBucket(vel, pos, mass, grid[b], 0, 1), pos, mass, grid, b + 1)
  }

  /** With equal masses a pair only swaps two velocities (or keeps them), so the velocities stay a
      permutation of the old ones. */
  lemma CollidePairPermutes(vel: seq<Vec3>, pos: seq<Vec3>, mass: seq<real>, a: nat, b: nat)
    requires |pos| == |vel| == |mass| && PositiveMasses(mass) && a < |vel| && b < |vel|
    requires mass[a] == mass[b]
    ensures multiset(CollidePair(vel, pos, mass, a, b)) == multiset(vel)
  {
    if DistSq(pos[a], pos[b]) <= 4.0 {
      EqualMassesSwap(mass[a], vel[a], vel[b]);
      if a != b {
        var swapped := vel[a := vel[b]][b := vel[a]];
        assert multiset(vel[a := vel[b]]) == multiset(vel) - multiset{vel[a]} + multiset{vel[b]};
        assert multiset(swapped) == multiset(vel[a := vel[b]]) - multiset{vel[b]} + multiset{vel[a]};
      } else {
        assert vel[a := vel[b]][b := vel[a]] == vel;
      }
    }
  }

  predicate EqualMasses(mass: seq<real>) {
    forall k :: 0 <= k < |mass| ==> mass[k] == mass[0]
  }

  lemma {:induction false} CollideBucketPermutes(vel: seq<Vec3>, pos: seq<Vec3>, mass: seq<real>, bucket: seq<int>,
                                                 i: nat, j: nat)
    requires |pos| == |vel| == |mass| && PositiveMasses(mass) && InBucketRange(bucket, |vel|)
    requires EqualMasses(mass)
    ensures multiset(CollideBucket(vel, pos, mass, bucket, i, j)) == multiset(vel)
    decreases |bucket| - i, |bucket| - j
  {
    if i >= |bucket| {
    } else if j >= |bucket| {
      CollideBucketPermutes(vel, pos, mass, bucket, i + 1, i + 2);
    } else {
      CollidePairPermutes(vel, pos, mass, bucket[i], bucket[j]);
      CollideBucketPermutes(CollidePair(vel, pos, mass, bucket[i], bucket[j]), pos, mass, bucket, i, j + 1);
    }
  }

  /** When every object has the same mass (the constructor gives every object mass 1), the collision
      pass only permutes the velocities. */
  lemma {:induction false} CollideGridPermutes(vel: seq<Vec3>, pos: seq<Vec3>, mass: seq<real>, grid: seq<seq<int>>,
                                               b: nat)
    requires |pos| == |vel| == |mass| && PositiveMasses(mass) && InGridRange(grid, |vel|)
    requires EqualMasses(mass)
    ensures multiset(CollideGrid(vel, pos, mass, grid, b)) == multiset(vel)
    decreases |grid| - b
  {
    if b < |grid| {
      CollideBucketPermutes(vel, pos, mass, grid[b], 0, 1);
      CollideGridPermutes(CollideBucket(vel, pos, mass, grid[b], 0, 1), pos, mass, grid, b + 1);
    }
  }

  /** An object listed in no bucket keeps its velocity. */
  lemma {:induction false} CollideBucketUntouched(vel: seq<Vec3>, pos: seq<Vec3>, mass: seq<real>, bucket: seq<int>,
                                                  i: nat, j: nat, x: nat)
    requires |pos| == |vel| == |mass| && PositiveMasses(mass) && InBucketRange(bucket, |vel|)
    requires x < |vel| && x !in bucket
    ensures CollideBucket(vel, pos, mass, bucket, i, j)[x] == vel[x]
    decreases |bucket| - i, |bucket| - j
  {
    if i >= |bucket| {
    } else if j >= |bucket| {
      CollideBucketUntouched(vel, pos, mass, bucket, i + 1, i + 2, x);
    } else {
      assert bucket[i] != x && bucket[j] != x;
      CollideBucketUntouched(CollidePair(vel, pos, mass, bucket[i], bucket[j]), pos, mass, bucket, i, j + 1, x);
    }
  }

  lemma {:induction false} CollideGridUntouched(vel: seq<Vec3>, pos: seq<Vec3>, mass: seq<real>, grid: seq<seq<int>>,
                                                b: nat, x: nat)
    requires |pos| == |vel| == |mass| && PositiveMasses(mass) && InGridRange(grid, |vel|)
    requires x < |vel| && forall c :: 0 <= c < |grid| ==> x !in grid[c]
    ensures CollideGrid(vel, pos, mass, grid, b)[x] == vel[x]
    decreases |grid| - b
  {
    if b < |grid| {
      CollideBucketUntouched(vel, pos, mass, grid[b], 0, 1, x);
      CollideGridUntouched(CollideBucket(vel, pos, mass, grid[b], 0, 1), pos, mass, grid, b + 1, x);
    }
  }

  // ---------------------------------------------------------------------------------------------
  // The engine

  function Velocities(objs: seq<PhysicsObject>): (r: seq<Vec3>)
    reads objs
    ensures |r| == |objs|
  {
    seq(|objs|, k requires 0 <= k < |objs| reads objs => objs[k].velocity)
  }

  function Positions(objs: seq<PhysicsObject>): (r: seq<Vec3>)
    reads objs
    ensures |r| == |objs|
  {
    seq(|objs|, k requires 0 <= k < |objs| reads objs => objs[k].position)
  }

  function Masses(objs: seq<PhysicsObject>): (r: seq<real>)
    reads objs
    ensures |r| == |objs|
  {
    seq(|objs|, k requires 0 <= k < |objs| reads objs => objs[k].mass)
  }

  predicate PositiveMassObjects(objs: seq<PhysicsObject>)
    reads objs
  {
    forall k :: 0 <= k < |objs| ==> objs[k].mass > 0.0
  }

  /** pos and mass hold the objects' positions and masses. */
  predicate Holds(objs: seq<PhysicsObject>, pos: seq<Vec3>, mass: seq<real>)
    reads objs
  {
    |pos| == |objs| && |mass| == |objs| &&
    forall k :: 0 <= k < |objs| ==> pos[k] == objs[k].position && mass[k] == objs[k].mass
  }

  predicate Distinct(objs: seq<PhysicsObject>) {
    forall a, b :: 0 <= a < b < |objs| ==> objs[a] != objs[b]
  }

  class PhysicsEngine {
    const GRAVITY: real := 9.81
    const RESTITUTION: real := 0.5

    var objectList: seq<PhysicsObject>
    var instanceBuffer: Buffer?<Vec3>
    var colorBuffer: Buffer?<Vec4>
    var boxPosition: Vec3
    var boxMin: Vec3
    var boxMax: Vec3
    var instanceIdCounter: int
    var isPause: bool
    /** The buckets of the partition grid in the order the grid's map visits its keys. */
    var partitionGrid: seq<seq<int>>

    /** An empty engine: no objects, id counter 0, not paused; the buffers are attached later. */
    constructor()
      ensures objectList == [] && instanceIdCounter == 0 && !isPause && partitionGrid == []
      ensures instanceBuffer == null && colorBuffer == null
    {
      objectList := [];
      instanceIdCounter := 0;
      isPause := false;
      partitionGrid := [];
      instanceBuffer := null;
      colorBuffer := null;
    }

    /** The ids hand out buffer slots: object k has id k and its position and colour at slot k of the
        buffers, the counter is the number of objects, and no object is listed twice. */
    predicate Registered()
      reads this, instanceBuffer, colorBuffer, objectList
    {
      instanceBuffer != null && colorBuffer != null &&
      instanceIdCounter == |objectList| == |instanceBuffer.items| == |colorBuffer.items| &&
      Distinct(objectList) &&
      forall k :: 0 <= k < |objectList| ==>
        objectList[k].instanceId == k && instanceBuffer.items[k] == objectList[k].position &&
        colorBuffer.items[k] == objectList[k].meshColor
    }

    /** The time step: it passes the pause gate unless paused and not forced, and then does nothing
        more (the solver step is not called), so no state changes either way. */
    method Update(deltaTime: real, forced: bool) returns (passedGate: bool)
      ensures passedGate <==> !isPause || forced
    {
      if isPause && !forced {
        return false;
      }
      return true;
    }

    /** addPhysicObject: a new cube object at pos with the given colour (the shape argument is not used,
        the mass argument is ignored by the object), appended to the list, with its position and colour
        appended to the buffers and the counter's old value as its id. */
    method AddPhysicObject(shape: MeshShape, pos: Vec3, color: Vec4, mass: real)
      requires instanceBuffer != null && colorBuffer != null
      modifies this`objectList, this`instanceIdCounter, instanceBuffer, colorBuffer
      ensures |objectList| == |old(objectList)| + 1 && objectList[..|old(objectList)|] == old(objectList)
      ensures fresh(objectList[|old(objectList)|])
      ensures objectList[|old(objectList)|].position == pos && objectList[|old(objectList)|].meshColor == color
      ensures objectList[|old(objectList)|].mass == 1.0 && objectList[|old(objectList)|].velocity == Zero3
      ensures objectList[|old(objectList)|].instanceId == old(instanceIdCounter)
      ensures instanceIdCounter == old(instanceIdCounter) + 1
      ensures instanceBuffer.items == old(instanceBuffer.items) + [pos]
      ensures colorBuffer.items == old(colorBuffer.items) + [color]
      ensures old(Registered()) ==> Registered()
    {
      var newObj := new PhysicsObject(CUBE, pos, color, mass, 9.8);
      objectList := objectList + [newObj];
      instanceBuffer.items := instanceBuffer.items + [newObj.position];
      colorBuffer.items := colorBuffer.items + [newObj.meshColor];
      newObj.instanceId := instanceIdCounter;
      instanceIdCounter := instanceIdCounter + 1;
    }

    /** setBoundingBox: the box of the given size centred on position. */
    method SetBoundingBox(width: real, height: real, depth: real, position: Vec3)
      modifies this`boxMin, this`boxMax, this`boxPosition
      ensures (boxMin, boxMax) == BoundingBox(width, height, depth, position) && boxPosition == position
    {
      boxMin := Vec3(position.x - (width / 2.0), position.y - (height / 2.0), position.z - (depth / 2.0));
      boxMax := Vec3(position.x + (width / 2.0), position.y + (height / 2.0), position.z + (depth / 2.0));
      boxPosition := position;
    }

    /** handleObjectCollision: for every bucket of the partition grid and every pair i < j in it, the two
        objects' velocities are replaced when their centres are at most 2 apart. Only velocities
        change. */
    method HandleObjectCollision()
      requires Distinct(objectList) && PositiveMassObjects(objectList)
      requires InGridRange(partitionGrid, |objectList|)
      modifies objectList`velocity
      ensures Velocities(objectList) ==
              CollideGrid(old(Velocities(objectList)), old(Positions(objectList)), old(Masses(objectList)), partitionGrid, 0)
    {
      var objs := objectList;
      CollideGridLoop(objs, Positions(objs), Masses(objs), partitionGrid);
    }
  }

  /** The outer loop of handleObjectCollision: every non-empty bucket of the grid in order. */
  method CollideGridLoop(objs: seq<PhysicsObject>, pos: seq<Vec3>, mass: seq<real>, grid: seq<seq<int>>)
    requires Distinct(objs) && Holds(objs, pos, mass) && PositiveMasses(mass)
    requires InGridRange(grid, |objs|)
    modifies objs`velocity
    ensures Velocities(objs) == CollideGrid(old(Velocities(objs)), pos, mass, grid, 0)
  {
    ghost var final := CollideGrid(Velocities(objs), pos, mass, grid, 0);
    for b := 0 to |grid|
      invariant Holds(objs, pos, mass)
      invariant CollideGrid(Velocities(objs), pos, mass, grid, b) == final
    {
      var bucket := grid[b];
      if |bucket| == 0 {
        continue;
      }
      CollideBucketLoop(objs, pos, mass, bucket);
    }
  }

  /** The two inner loops of handleObjectCollision over one bucket: every pair i < j in order. */
  method CollideBucketLoop(objs: seq<PhysicsObject>, pos: seq<Vec3>, mass: seq<real>, bucket: seq<int>)
    requires Distinct(objs) && Holds(objs, pos, mass) && PositiveMasses(mass)
    requires InBucketRange(bucket, |objs|)
    modifies objs`velocity
    ensures Holds(objs, pos, mass)
    ensures Velocities(objs) == CollideBucket(old(Velocities(objs)), pos, mass, bucket, 0, 1)
  {
    ghost var final := CollideBucket(Velocities(objs), pos, mass, bucket, 0, 1);
    for i := 0 to |bucket|
      invariant Holds(objs, pos, mass)
      invariant CollideBucket(Velocities(objs), pos, mass, bucket, i, i + 1) == final
    {
      for j := i + 1 to |bucket|
        invariant Holds(objs, pos, mass)
        invariant CollideBucket(Velocities(objs), pos, mass, bucket, i, j) == final
      {
        CollideStep(objs, pos, mass, bucket[i], bucket[j]);
      }
    }
  }

  /** The body of the inner loop for the pair (a, b): the velocities afterwards are those of CollidePair. */
  method CollideStep(objs: seq<PhysicsObject>, pos: seq<Vec3>, mass: seq<real>, a: int, b: int)
    requires Distinct(objs) && Holds(objs, pos, mass) && PositiveMasses(mass)
    requires 0 <= a < |objs| && 0 <= b < |objs|
    modifies objs`velocity
    ensures Holds(objs, pos, mass)
    ensures Velocities(objs) == CollidePair(old(Velocities(objs)), pos, mass, a, b)
  {
    var oi := objs[a];
    var oj := objs[b];
    if DistSq(oi.position, oj.position) <= 4.0 {
      var eqBot := oi.mass + oj.mass;
      var eq1 := Scale(oi.velocity, (oi.mass - oj.mass) / eqBot);
      eq1 := Add(eq1, Scale(oj.velocity, (2.0 * oj.mass) / eqBot));
      var eq2 := Scale(oi.velocity, (2.0 * oi.mass) / eqBot);
      eq2 := Add(eq2, Scale(oj.velocity, (oi.mass - oj.mass) / eqBot));
      oi.velocity := eq1;
      oj.velocity := eq2;
    }
  }

  /** The single shared engine behind getInstance. */
  class EngineInstance {
    var instance: PhysicsEngine?

    constructor()
      ensures instance == null
    {
      instance := null;
    }

    /** getInstance: the first call creates the engine, every later call returns that same engine. */
    method GetInstance() returns (engine: PhysicsEngine)
      modifies this
      ensures old(instance) != null ==> engine == old(instance)
      ensures old(instance) == null ==> fresh(engine) && engine.objectList == [] && engine.instanceIdCounter == 0
      ensures instance == engine
    {
      if instance == null {
        instance := new PhysicsEngine();
      }
      return instance;
    }
  }

  /** Two calls in a row give the same engine. */
  method GetInstanceTwice(holder: EngineInstance) returns (first: PhysicsEngine, second: PhysicsEngine)
    modifies holder
    ensures first == second
  {
    first := holder.GetInstance();
    second := holder.GetInstance();
  }
}
