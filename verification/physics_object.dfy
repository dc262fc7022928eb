/** A physics object: a drawable object with a position, a fixed unit mass, motion state and an instance
    id, and the blue-to-red colour ramp it uses to show its speed. */
module PhysicsObjects {
  import opened Glm
  import opened CppInt
  import opened BaseObjects

  /** The colour ramp from blue (value 0) to red (value 1). Red is trunc(255 * value) / 255 and blue is
      trunc(255 - 255 * value) / 255, both cut to int first; nothing clamps the value, so a value outside
      [0, 1] gives components outside [0, 1]. */
  function ColorRamp(value: real): (c: Vec4)
    requires InInt(Trunc(255.0 * value)) && InInt(Trunc(255.0 - 255.0 * value))
    ensures c.g == 0.0 && c.a == 1.0
    ensures 0.0 <= value <= 1.0 ==>
              0.0 <= c.r <= 1.0 && 0.0 <= c.b <= 1.0 && (c.r + c.b == 1.0 || c.r + c.b == 254.0 / 255.0)
  {
    var aR, aG, aB := 0, 0, 255;
    var bR, bG, bB := 255, 0, 0;
    var red := Trunc((bR - aR) as real * value + aR as real);
    var green := Trunc((bG - aG) as real * value + aG as real);
    var blue := Trunc((bB - aB) as real * value + aB as real);
    RampChannels(value, red, blue);
    Vec4(red as real / 255.0, green as real / 255.0, blue as real / 255.0, 1.0)
  }

  /** For a value in [0, 1] the two truncated channels lie in [0, 255] and add up to 255, or to 254 when
      both were cut. */
  lemma RampChannels(value: real, red: int, blue: int)
    requires red == Trunc(255.0 * value) && blue == Trunc(255.0 - 255.0 * value)
    ensures 0.0 <= value <= 1.0 ==> 0 <= red <= 255 && 0 <= blue <= 255 && (red + blue == 255 || red + blue == 254)
  {
  }

  /** Value 0 is pure blue and value 1 pure red. */
  lemma ColorRampEnds()
    ensures ColorRamp(0.0) == Vec4(0.0, 0.0, 1.0, 1.0)
    ensures ColorRamp(1.0) == Vec4(1.0, 0.0, 0.0, 1.0)
  {
    assert Trunc(0.0) == 0 && Trunc(255.0) == 255;
  }

  /** Value 2 (a speed of 60) is not clamped: red 2 and blue -1. */
  lemma ColorRampUnclamped()
    ensures ColorRamp(2.0) == Vec4(2.0, 0.0, -1.0, 1.0)
  {
    assert Trunc(510.0) == 510 && Trunc(-255.0) == -255 && Trunc(0.0) == 0;
  }

  /** A speed fits the ramp when both of its colour values fit in an int. */
  predicate RampDefined(speed: real) {
    InInt(Trunc(255.0 * (speed / 30.0))) && InInt(Trunc(255.0 - 255.0 * (speed / 30.0)))
  }

  class PhysicsObject {
    // the fields of the drawable base
    var meshData: MeshData
    var meshColor: Vec4
    var localOrigin: Mat4
    var position: Vec3
    // the physics fields
    var grounded: bool
    var mass: real
    var gravity: real
    var radius: real
    var instanceId: int
    var velocity: Vec3
    var acceleration: Vec3
    var force: Vec3

    /** The base is built from the shape and colour; the mass argument is ignored (the mass is always
        1); motion starts at rest, the radius is 1 and the instance id is -1 until the engine assigns
        one. */
    constructor(shape: MeshShape, pos: Vec3, color: Vec4, mass: real, gravity: real)
      ensures meshData == CUBE_MESH && meshColor == color && localOrigin == Identity()
      ensures this.mass == 1.0 && this.gravity == gravity && !grounded
      ensures velocity == Zero3 && acceleration == Zero3 && force == Zero3
      ensures position == pos && radius == 1.0 && instanceId == -1
    {
      meshData := ShapeMesh(shape);
      meshColor := color;
      localOrigin := Identity();
      this.gravity := gravity;
      this.mass := 1.0;
      grounded := false;
      velocity := Zero3;
      acceleration := Zero3;
      force := Zero3;
      position := pos;
      radius := 1.0;
      instanceId := -1;
    }

    /** setColorByVelocity, with the length of the velocity given as `speed` (a non-negative number whose
        square is the velocity's squared length): the colour becomes the ramp at speed / 30 and no other
        field changes. */
    method SetColorByVelocity(speed: real)
      requires speed >= 0.0 && speed * speed == Dot(velocity, velocity) && RampDefined(speed)
      modifies this`meshColor
      ensures meshColor == ColorRamp(speed / 30.0)
    {
      var vel := speed;
      meshColor := ColorRamp(vel / 30.0);
    }
  }
}
