/**
 * A celestial body of the 3-D simulation (the `Object` class): its state, the
 * clamps of updateRadius, the fixed-divisor kinematics and the collision test.
 */
module Objects {
  import opened Vectors
  import opened Constants

  /** The physical state of an Object, as a value. */
  datatype BodyState = BodyState(
    position: Vec3,
    velocity: Vec3,
    mass: real,
    density: real,
    radius: real,
    sizeRatio: real,
    initializing: bool,
    launched: bool)

  /** What updateRadius establishes: positive density and mass, and a positive radius for a positive size ratio. */
  predicate Physical(b: BodyState) {
    && b.density > 0.0
    && b.mass > 0.0
    && b.sizeRatio != 0.0
    && (b.sizeRatio > 0.0 ==> b.radius > 0.0)
  }

  /** A body takes part in gravity, collisions and integration only once launched and no longer being authored. */
  predicate Participates(b: BodyState) {
    !b.initializing && b.launched
  }

  /**
   * updateRadius: substitute the default density and the default mass for
   * non-positive values, derive radius = cbrt(3m / (4 pi d)) / sizeRatio, and
   * floor a non-positive radius at 0.1 / sizeRatio.
   */
  function WithDerivedRadius(b: BodyState, cbrt: real -> real): (r: BodyState)
    requires b.sizeRatio != 0.0
    ensures Physical(r)
    ensures b.density > 0.0 ==> r.density == b.density
    ensures b.density <= 0.0 ==> r.density == DEFAULT_DENSITY
    ensures b.mass > 0.0 ==> r.mass == b.mass
    ensures b.mass <= 0.0 ==> r.mass == DEFAULT_INIT_MASS
    ensures r == b.(density := r.density, mass := r.mass, radius := r.radius)
  {
    var d := if b.density <= 0.0 then DEFAULT_DENSITY else b.density;
    var m := if b.mass <= 0.0 then DEFAULT_INIT_MASS else b.mass;
    var physicalRadius := cbrt((3.0 * m / d) / (4.0 * PI));
    var visual := physicalRadius / b.sizeRatio;
    b.(density := d, mass := m, radius := if visual <= 0.0 then 0.1 / b.sizeRatio else visual)
  }

  /**
   * With a cube root that is positive on positive input, the floor of
   * updateRadius never fires for a positive size ratio: the radius is exactly
   * cbrt(3m / (4 pi d)) / sizeRatio of the (substituted) mass and density.
   */
  lemma DerivedRadiusFormula(b: BodyState, cbrt: real -> real)
    requires b.sizeRatio > 0.0 && PositiveCubeRoot(cbrt)
    ensures var r := WithDerivedRadius(b, cbrt);
            r.radius == cbrt((3.0 * r.mass / r.density) / (4.0 * PI)) / b.sizeRatio
  {
    var r := WithDerivedRadius(b, cbrt);
    var arg := (3.0 * r.mass / r.density) / (4.0 * PI);
    assert 3.0 * r.mass / r.density > 0.0;
    assert arg > 0.0;
    assert cbrt(arg) > 0.0;
    assert cbrt(arg) / b.sizeRatio > 0.0;
  }

  /** A body that already satisfies the clamps keeps its mass and density, so deriving the radius twice equals deriving it once. */
  lemma DerivedRadiusIdempotent(b: BodyState, cbrt: real -> real)
    requires b.sizeRatio != 0.0
    ensures WithDerivedRadius(WithDerivedRadius(b, cbrt), cbrt) == WithDerivedRadius(b, cbrt)
  {
  }

  /** checkCollision: -0.2 when the two spheres overlap, 1.0 otherwise. */
  function CheckCollision(self: BodyState, other: BodyState, length: Vec3 -> real): (f: real)
    ensures f == COLLISION_FACTOR || f == NO_COLLISION
    ensures f == COLLISION_FACTOR <==> other.radius + self.radius > length(Sub3(other.position, self.position))
  {
    var distance := length(Sub3(other.position, self.position));
    if other.radius + self.radius > distance then COLLISION_FACTOR else NO_COLLISION
  }

  /** Overlap is a symmetric relation when distance is. */
  lemma CollisionSymmetric(a: BodyState, b: BodyState, length: Vec3 -> real)
    requires SymmetricLength3(length)
    ensures CheckCollision(a, b, length) == CheckCollision(b, a, length)
  {
    assert Sub3(a.position, b.position) == Neg3(Sub3(b.position, a.position));
  }

  /** The Object class: the fields the simulation updates in place. */
  class Object {
    var position: Vec3
    var velocity: Vec3
    var mass: real
    var density: real
    var radius: real
    var sizeRatio: real
    var initializing: bool
    var launched: bool

    function State(): BodyState
      reads this
    {
      BodyState(position, velocity, mass, density, radius, sizeRatio, initializing, launched)
    }

    ghost predicate Valid()
      reads this
    {
      Physical(State())
    }

    /** The constructor stores its arguments and runs updateRadius; a new Object is neither initializing nor launched. */
    constructor (initPosition: Vec3, initVelocity: Vec3, m: real, d: real, sr: real, cbrt: real -> real)
      requires sr != 0.0
      ensures State() == WithDerivedRadius(BodyState(initPosition, initVelocity, m, d, 0.0, sr, false, false), cbrt)
      ensures Valid()
    {
      position := initPosition;
      velocity := initVelocity;
      mass := m;
      density := d;
      radius := 0.0;
      sizeRatio := sr;
      initializing := false;
      launched := false;
      new;
      UpdateRadius(cbrt);
    }

    method UpdateRadius(cbrt: real -> real)
      requires sizeRatio != 0.0
      modifies this
      ensures State() == WithDerivedRadius(old(State()), cbrt)
      ensures Valid()
    {
      if density <= 0.0 {
        density := DEFAULT_DENSITY;
      }
      if mass <= 0.0 {
        mass := DEFAULT_INIT_MASS;
      }
      var physicalRadius := cbrt((3.0 * mass / density) / (4.0 * PI));
      radius := physicalRadius / sizeRatio;
      if radius <= 0.0 {
        radius := 0.1 / sizeRatio;
      }
    }

    /** updatePhysics: position += velocity / timeStepRatio (94 by default); nothing else changes. */
    method UpdatePhysics(timeStepRatio: real)
      requires timeStepRatio != 0.0
      modifies this
      ensures State() == old(State()).(position := Add3(old(position), Div3(old(velocity), timeStepRatio)))
      ensures Valid() <==> old(Valid())
    {
      position := Add3(position, Div3(velocity, timeStepRatio));
    }

    /** accelerate: velocity += acc / timeStepRatio (96 by default); nothing else changes. */
    method Accelerate(acc: Vec3, timeStepRatio: real)
      requires timeStepRatio != 0.0
      modifies this
      ensures State() == old(State()).(velocity := Add3(old(velocity), Div3(acc, timeStepRatio)))
      ensures Valid() <==> old(Valid())
    {
      velocity := Add3(velocity, Div3(acc, timeStepRatio));
    }
  }
}
