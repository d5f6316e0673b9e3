/**
 * A point mass of the 2-D engine (the `Body` class): force accumulation and
 * the semi-implicit Euler step that consumes the accumulated force.
 */
module Bodies {
  import opened Vectors

  /** The state of a Body, as a value. */
  datatype PointMass = PointMass(position: Vec2, velocity: Vec2, force: Vec2, mass: real)

  /** Momentum m * v of a point mass. */
  function Momentum(p: PointMass): Vec2 {
    Scale2(p.velocity, p.mass)
  }

  /**
   * Body::update as a value: a body without positive mass is left exactly as
   * it is (its force included); otherwise velocity += (F / m) * dt, then
   * position += (new velocity) * dt, and the accumulated force is cleared.
   */
  function Integrate(p: PointMass, dt: real): (r: PointMass)
    ensures p.mass <= 0.0 ==> r == p
    ensures r.mass == p.mass
    ensures p.mass > 0.0 ==> r.force == Zero2
    // semi-implicit: the position moves by the new velocity
    ensures p.mass > 0.0 ==> r.position == Add2(p.position, Scale2(r.velocity, dt))
  {
    if p.mass <= 0.0 then p
    else
      var v := Add2(p.velocity, Scale2(Div2(p.force, p.mass), dt));
      PointMass(Add2(p.position, Scale2(v, dt)), v, Zero2, p.mass)
  }

  /** The impulse law: the step changes momentum by exactly F * dt. */
  lemma Impulse(p: PointMass, dt: real)
    requires p.mass > 0.0
    ensures Momentum(Integrate(p, dt)) == Add2(Momentum(p), Scale2(p.force, dt))
  {
    var r := Integrate(p, dt);
    var m := p.mass;
    ShareOut(p.force.x, m, dt);
    ShareOut(p.force.y, m, dt);
    assert r.velocity.x * m == p.velocity.x * m + (p.force.x / m) * dt * m;
    assert r.velocity.y * m == p.velocity.y * m + (p.force.y / m) * dt * m;
  }

  /** (f / m) * dt * m == f * dt for non-zero m. */
  lemma ShareOut(f: real, m: real, dt: real)
    requires m != 0.0
    ensures (f / m) * dt * m == f * dt
  {
    calc {
      (f / m) * dt * m;
      ((f / m) * m) * dt;
      f * dt;
    }
  }

  /** Without force, a massive body keeps its velocity and moves uniformly. */
  lemma Inertia(p: PointMass, dt: real)
    requires p.mass > 0.0 && p.force == Zero2
    ensures Integrate(p, dt).velocity == p.velocity
    ensures Integrate(p, dt).position == Add2(p.position, Scale2(p.velocity, dt))
  {
    assert Div2(p.force, p.mass) == Zero2;
  }

  class Body {
    var position: Vec2
    var velocity: Vec2
    var accumulatedForce: Vec2
    /** Set by the constructor and never changed afterwards. */
    const mass: real

    function State(): PointMass
      reads this
    {
      PointMass(position, velocity, accumulatedForce, mass)
    }

    /** The constructor stores its arguments and starts with no accumulated force. */
    constructor (initPosition: Vec2, initVelocity: Vec2, m: real)
      ensures State() == PointMass(initPosition, initVelocity, Zero2, m)
    {
      position := initPosition;
      velocity := initVelocity;
      accumulatedForce := Zero2;
      mass := m;
    }

    /** The implicit copy constructor, used when a Body is stored by value. */
    constructor Copy(other: Body)
      ensures State() == other.State()
    {
      position := other.position;
      velocity := other.velocity;
      accumulatedForce := other.accumulatedForce;
      mass := other.mass;
    }

    function GetPosition(): Vec2
      reads this
    {
      position
    }

    function GetVelocity(): Vec2
      reads this
    {
      velocity
    }

    function GetMass(): real
      reads this
    {
      mass
    }

    /** applyForce: the force is added to the accumulated force; nothing else changes. */
    method ApplyForce(force: Vec2)
      modifies this
      ensures State() == old(State()).(force := Add2(old(accumulatedForce), force))
    {
      accumulatedForce := Add2(accumulatedForce, force);
    }

    /** update: one semi-implicit Euler step of length dt, skipped entirely without positive mass. */
    method Update(dt: real)
      modifies this
      ensures State() == Integrate(old(State()), dt)
    {
      if mass <= 0.0 {
        return;
      }
      var acceleration := Div2(accumulatedForce, mass);
      velocity := Add2(velocity, Scale2(acceleration, dt));
      position := Add2(position, Scale2(velocity, dt));
      accumulatedForce := Zero2;
    }
  }
}
