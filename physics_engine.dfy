/**
 * The 2-D engine (the `PhysicsEngine` class): every unordered pair of bodies
 * exchanges an equal and opposite gravitational force, accumulated per body,
 * and then every body takes one integration step.
 */
module Physics {
  import opened Vectors
  import opened Constants
  import opened Bodies

  /** glm::length and glm::normalize on planar vectors. */
  datatype Planar = Planar(length: Vec2 -> real, normalize: Vec2 -> Vec2)

  // ---------------------------------------------------------------------------
  // The force between two bodies

  /** The distance computeForces divides by: the length of the separation, floored at 1. */
  function FlooredDistance(d: Vec2, lib: Planar): (r: real)
    ensures r >= 1.0
    ensures r >= lib.length(d)
    ensures lib.length(d) >= 1.0 ==> r == lib.length(d)
  {
    if lib.length(d) < 1.0 then 1.0 else lib.length(d)
  }

  /** G * m_a * m_b / d^2 at the floored distance d between positions pa and pb. */
  function PairMagnitude(lib: Planar, pa: Vec2, ma: real, pb: Vec2, mb: real): real {
    var d := FlooredDistance(Sub2(pb, pa), lib);
    G_2D * ma * mb / (d * d)
  }

  /** The gravitational force on a body at pa of mass ma from a body at pb of mass mb: along the direction from pa to pb. */
  function PairForce(lib: Planar, pa: Vec2, ma: real, pb: Vec2, mb: real): Vec2 {
    Scale2(lib.normalize(Sub2(pb, pa)), PairMagnitude(lib, pa, ma, pb, mb))
  }

  /** A force law: the force on a body (position, mass) from another body (position, mass). */
  type ForceLaw = (Vec2, real, Vec2, real) -> Vec2

  /** The law computeForces uses. */
  function Gravity(lib: Planar): ForceLaw {
    (pa: Vec2, ma: real, pb: Vec2, mb: real) => PairForce(lib, pa, ma, pb, mb)
  }

  /** The force that b exerts on a under law. */
  function Pull(law: ForceLaw, a: PointMass, b: PointMass): Vec2 {
    law(a.position, a.mass, b.position, b.mass)
  }

  /** A law in which the force on the second body is the negation of the force on the first. */
  ghost predicate Antisymmetric(law: ForceLaw) {
    forall pa: Vec2, ma: real, pb: Vec2, mb: real {:trigger law(pa, ma, pb, mb)} ::
      law(pb, mb, pa, ma) == Neg2(law(pa, ma, pb, mb))
  }

  /** The distance floor bounds the magnitude: it is never negative and never more than G * m_a * m_b. */
  lemma MagnitudeBounded(lib: Planar, pa: Vec2, ma: real, pb: Vec2, mb: real)
    requires ma >= 0.0 && mb >= 0.0
    ensures 0.0 <= PairMagnitude(lib, pa, ma, pb, mb) <= G_2D * ma * mb
  {
    var d := FlooredDistance(Sub2(pb, pa), lib);
    var k := G_2D * ma * mb;
    assert k >= 0.0 by {
      assert ma * mb >= 0.0;
    }
    assert d * d >= 1.0 by {
      assert d * d >= d * 1.0;
    }
    DivideByAtLeastOne(k, d * d);
  }

  /** Dividing a non-negative number by at least 1 does not increase it. */
  lemma DivideByAtLeastOne(k: real, q: real)
    requires k >= 0.0 && q >= 1.0
    ensures 0.0 <= k / q <= k
  {
    var r := k / q;
    assert r * q == k;
  }

  /**
   * With a length that ignores orientation and an odd normalize, gravity is
   * antisymmetric: the force applied to j in computeForces is exactly the
   * force j would compute for itself.
   */
  lemma GravityAntisymmetric(lib: Planar)
    requires SymmetricLength2(lib.length) && OddNormalize2(lib.normalize)
    ensures Antisymmetric(Gravity(lib))
  {
    forall pa: Vec2, ma: real, pb: Vec2, mb: real
      ensures PairForce(lib, pb, mb, pa, ma) == Neg2(PairForce(lib, pa, ma, pb, mb))
    {
      var d := Sub2(pb, pa);
      assert Sub2(pa, pb) == Neg2(d);
      assert lib.length(Neg2(d)) == lib.length(d);
      assert lib.normalize(Neg2(d)) == Neg2(lib.normalize(d));
      var dist := FlooredDistance(d, lib);
      assert G_2D * mb * ma == G_2D * ma * mb;
      assert PairMagnitude(lib, pb, mb, pa, ma) == PairMagnitude(lib, pa, ma, pb, mb);
    }
  }

  // ---------------------------------------------------------------------------
  // computeForces as a sequence of pair visits

  function AddForce(p: PointMass, f: Vec2): PointMass {
    p.(force := Add2(p.force, f))
  }

  /** Visiting pair (i, j): i receives the force of j, and j receives its negation. */
  function ApplyPair(ps: seq<PointMass>, i: nat, j: nat, law: ForceLaw): (r: seq<PointMass>)
    requires i < j < |ps|
    ensures |r| == |ps|
  {
    var f := Pull(law, ps[i], ps[j]);
    ps[i := AddForce(ps[i], f)][j := AddForce(ps[j], Neg2(f))]
  }

  /** The inner loop for row i after partners i+1 .. j-1. */
  function Row(ps: seq<PointMass>, i: nat, j: nat, law: ForceLaw): (r: seq<PointMass>)
    requires i < j <= |ps|
    ensures |r| == |ps|
    decreases j
  {
    if j == i + 1 then ps else ApplyPair(Row(ps, i, j - 1, law), i, j - 1, law)
  }

  /** The outer loop after rows 0 .. i-1. */
  function Rows(ps: seq<PointMass>, i: nat, law: ForceLaw): (r: seq<PointMass>)
    requires i <= |ps|
    ensures |r| == |ps|
    decreases i
  {
    if i == 0 then ps else Row(Rows(ps, i - 1, law), i - 1, |ps|, law)
  }

  /** All of computeForces: every row, in order. */
  function PairsApplied(ps: seq<PointMass>, law: ForceLaw): (r: seq<PointMass>)
    ensures |r| == |ps|
  {
    Rows(ps, |ps|, law)
  }

  // ---------------------------------------------------------------------------
  // Newton's third law: the net force never changes

  /** The sum of the accumulated forces of all bodies. */
  function NetForce(ps: seq<PointMass>): Vec2
    decreases |ps|
  {
    if ps == [] then Zero2 else Add2(NetForce(ps[..|ps| - 1]), ps[|ps| - 1].force)
  }

  /** Adding f to the force of body k adds f to the net force. */
  lemma {:induction false} NetForceAdd(ps: seq<PointMass>, k: nat, f: Vec2)
    requires k < |ps|
    ensures NetForce(ps[k := AddForce(ps[k], f)]) == Add2(NetForce(ps), f)
    decreases |ps|
  {
    var n := |ps|;
    var qs := ps[k := AddForce(ps[k], f)];
    if k == n - 1 {
      assert qs[..n - 1] == ps[..n - 1];
    } else {
      assert qs[..n - 1] == ps[..n - 1][k := AddForce(ps[k], f)];
      NetForceAdd(ps[..n - 1], k, f);
    }
  }

  /** One pair visit adds f and -f, so the net force is unchanged. */
  lemma ApplyPairNetForce(ps: seq<PointMass>, i: nat, j: nat, law: ForceLaw)
    requires i < j < |ps|
    ensures NetForce(ApplyPair(ps, i, j, law)) == NetForce(ps)
  {
    var f := Pull(law, ps[i], ps[j]);
    var once := ps[i := AddForce(ps[i], f)];
    NetForceAdd(ps, i, f);
    NetForceAdd(once, j, Neg2(f));
  }

  lemma {:induction false} RowNetForce(ps: seq<PointMass>, i: nat, j: nat, law: ForceLaw)
    requires i < j <= |ps|
    ensures NetForce(Row(ps, i, j, law)) == NetForce(ps)
    decreases j
  {
    if j > i + 1 {
      var before := Row(ps, i, j - 1, law);
      RowNetForce(ps, i, j - 1, law);
      ApplyPairNetForce(before, i, j - 1, law);
      assert Row(ps, i, j, law) == ApplyPair(before, i, j - 1, law);
    }
  }

  lemma {:induction false} RowsNetForce(ps: seq<PointMass>, i: nat, law: ForceLaw)
    requires i <= |ps|
    ensures NetForce(Rows(ps, i, law)) == NetForce(ps)
    decreases i
  {
    if i > 0 {
      RowsNetForce(ps, i - 1, law);
      RowNetForce(Rows(ps, i - 1, law), i - 1, |ps|, law);
    }
  }

  /** computeForces adds a net force of zero across all bodies, whatever the force law. */
  lemma NetForceUnchanged(ps: seq<PointMass>, law: ForceLaw)
    ensures NetForce(PairsApplied(ps, law)) == NetForce(ps)
  {
    RowsNetForce(ps, |ps|, law);
  }

  // ---------------------------------------------------------------------------
  // Every unordered pair exactly once

  /** What pair (k, m) adds to body k: the pull of m when k < m, the negated pull on m when m < k. */
  function Share(ps: seq<PointMass>, k: nat, m: nat, law: ForceLaw): Vec2
    requires k < |ps| && m < |ps|
  {
    if m < k then Neg2(Pull(law, ps[m], ps[k]))
    else if k < m then Pull(law, ps[k], ps[m])
    else Zero2
  }

  /** The contributions of partners 0 .. m-1 to body k, in that order. */
  function Received(ps: seq<PointMass>, k: nat, m: nat, law: ForceLaw): Vec2
    requires k < |ps| && m <= |ps|
    decreases m
  {
    if m == 0 then Zero2 else Add2(Received(ps, k, m - 1, law), Share(ps, k, m - 1, law))
  }

  /** How many partners of body k have been visited after rows 0 .. i-1 and partners i+1 .. j-1 of row i. */
  function Visited(n: nat, i: nat, j: nat, k: nat): nat {
    if k < i then n else if k == i then j else if k < j then i + 1 else i
  }

  /** qs is ps after rows 0 .. i-1 and partners i+1 .. j-1 of row i: each body has received from the partners visited so far. */
  ghost predicate AfterPairs(ps: seq<PointMass>, qs: seq<PointMass>, law: ForceLaw, i: nat, j: nat) {
    && i < j <= |ps| == |qs|
    && forall k {:trigger qs[k]} :: 0 <= k < |ps| ==>
         qs[k] == ps[k].(force := Add2(ps[k].force, Received(ps, k, Visited(|ps|, i, j, k), law)))
  }

  /** Visiting pair (i, j) moves body i on to partner j + 1 and body j on to partner i + 1. */
  lemma PairReceives(ps: seq<PointMass>, qs: seq<PointMass>, i: nat, j: nat, law: ForceLaw)
    requires j < |ps| && AfterPairs(ps, qs, law, i, j)
    ensures AfterPairs(ps, ApplyPair(qs, i, j, law), law, i, j + 1)
  {
    var n := |ps|;
    var rs := ApplyPair(qs, i, j, law);
    var f := Pull(law, ps[i], ps[j]);
    assert qs[i].position == ps[i].position && qs[i].mass == ps[i].mass;
    assert qs[j].position == ps[j].position && qs[j].mass == ps[j].mass;
    assert Received(ps, i, j + 1, law) == Add2(Received(ps, i, j, law), f);
    assert Received(ps, j, i + 1, law) == Add2(Received(ps, j, i, law), Neg2(f));
    forall k | 0 <= k < n
      ensures rs[k] == ps[k].(force := Add2(ps[k].force, Received(ps, k, Visited(n, i, j + 1, k), law)))
    {
      if k != i && k != j {
        assert rs[k] == qs[k];
      }
    }
  }

  lemma {:induction false} RowReceives(ps: seq<PointMass>, qs: seq<PointMass>, i: nat, j: nat, law: ForceLaw)
    requires i < j <= |ps|
    requires AfterPairs(ps, qs, law, i, i + 1)
    ensures AfterPairs(ps, Row(qs, i, j, law), law, i, j)
    decreases j
  {
    if j > i + 1 {
      RowReceives(ps, qs, i, j - 1, law);
      PairReceives(ps, Row(qs, i, j - 1, law), i, j - 1, law);
      assert Row(qs, i, j, law) == ApplyPair(Row(qs, i, j - 1, law), i, j - 1, law);
    }
  }

  lemma {:induction false} RowsReceive(ps: seq<PointMass>, i: nat, law: ForceLaw)
    requires i < |ps|
    ensures AfterPairs(ps, Rows(ps, i, law), law, i, i + 1)
    decreases i
  {
    var n := |ps|;
    var qs := Rows(ps, i, law);
    if i == 0 {
      forall k | 0 <= k < n
        ensures qs[k] == ps[k].(force := Add2(ps[k].force, Received(ps, k, Visited(n, 0, 1, k), law)))
      {
        assert Received(ps, k, Visited(n, 0, 1, k), law) == Zero2;
      }
      return;
    }
    RowsReceive(ps, i - 1, law);
    RowReceives(ps, Rows(ps, i - 1, law), i - 1, n, law);
    forall k | 0 <= k < n
      ensures qs[k] == ps[k].(force := Add2(ps[k].force, Received(ps, k, Visited(n, i, i + 1, k), law)))
    {
      if k == i {
        assert Received(ps, k, i + 1, law) == Add2(Received(ps, k, i, law), Zero2);
      }
    }
  }

  /**
   * computeForces visits every unordered pair exactly once: body k ends with
   * its previous force plus the pull of every later body and the negated pull
   * on every earlier body.
   */
  lemma EachPairOnce(ps: seq<PointMass>, law: ForceLaw)
    ensures forall k :: 0 <= k < |ps| ==>
              PairsApplied(ps, law)[k] == ps[k].(force := Add2(ps[k].force, Received(ps, k, |ps|, law)))
  {
    var n := |ps|;
    if n > 0 {
      RowsReceive(ps, n - 1, law);
      RowReceives(ps, Rows(ps, n - 1, law), n - 1, n, law);
    }
  }

  /** The pulls on body k of bodies 0 .. m-1 other than k itself, in order. */
  function Pulls(ps: seq<PointMass>, k: nat, m: nat, law: ForceLaw): Vec2
    requires k < |ps| && m <= |ps|
    decreases m
  {
    if m == 0 then Zero2
    else Add2(Pulls(ps, k, m - 1, law), if m - 1 == k then Zero2 else Pull(law, ps[k], ps[m - 1]))
  }

  lemma {:induction false} ReceivedArePulls(ps: seq<PointMass>, k: nat, m: nat, law: ForceLaw)
    requires Antisymmetric(law)
    requires k < |ps| && m <= |ps|
    ensures Received(ps, k, m, law) == Pulls(ps, k, m, law)
    decreases m
  {
    if m > 0 {
      ReceivedArePulls(ps, k, m - 1, law);
    }
  }

  /**
   * Under the laws of length and normalize, computeForces gives every body
   * the sum of the gravitational pulls of all the other bodies.
   */
  lemma ForceIsSumOfPulls(ps: seq<PointMass>, law: ForceLaw)
    requires Antisymmetric(law)
    ensures forall k :: 0 <= k < |ps| ==>
              PairsApplied(ps, law)[k].force == Add2(ps[k].force, Pulls(ps, k, |ps|, law))
  {
    EachPairOnce(ps, law);
    forall k | 0 <= k < |ps|
      ensures Received(ps, k, |ps|, law) == Pulls(ps, k, |ps|, law)
    {
      ReceivedArePulls(ps, k, |ps|, law);
    }
  }

  // ---------------------------------------------------------------------------
  // A whole engine step

  function IntegrateAll(ps: seq<PointMass>, dt: real): (r: seq<PointMass>)
    ensures |r| == |ps| && forall k :: 0 <= k < |ps| ==> r[k] == Integrate(ps[k], dt)
  {
    seq(|ps|, k requires 0 <= k < |ps| => Integrate(ps[k], dt))
  }

  /** PhysicsEngine::update: the pair forces, then one step of every body with the same dt. */
  function Advance(ps: seq<PointMass>, dt: real, law: ForceLaw): (r: seq<PointMass>)
    ensures |r| == |ps|
  {
    IntegrateAll(PairsApplied(ps, law), dt)
  }

  predicate AllMassive(ps: seq<PointMass>) {
    forall k :: 0 <= k < |ps| ==> ps[k].mass > 0.0
  }

  /** The sum of the momenta of all bodies. */
  function TotalMomentum(ps: seq<PointMass>): Vec2
    decreases |ps|
  {
    if ps == [] then Zero2 else Add2(TotalMomentum(ps[..|ps| - 1]), Momentum(ps[|ps| - 1]))
  }

  /** Integrating every body changes the total momentum by the net force times dt. */
  lemma {:induction false} TotalImpulse(ps: seq<PointMass>, dt: real)
    requires AllMassive(ps)
    ensures TotalMomentum(IntegrateAll(ps, dt)) == Add2(TotalMomentum(ps), Scale2(NetForce(ps), dt))
    decreases |ps|
  {
    if ps != [] {
      var n := |ps| - 1;
      var init := ps[..n];
      var after := IntegrateAll(ps, dt);
      assert after[..n] == IntegrateAll(init, dt);
      TotalImpulse(init, dt);
      Impulse(ps[n], dt);
      Regroup(TotalMomentum(init), Scale2(NetForce(init), dt), Momentum(ps[n]), Scale2(ps[n].force, dt));
      ScaleSum(NetForce(init), ps[n].force, dt);
    }
  }

  /** (p + q) + (r + s) == (p + r) + (q + s). */
  lemma Regroup(p: Vec2, q: Vec2, r: Vec2, s: Vec2)
    ensures Add2(Add2(p, q), Add2(r, s)) == Add2(Add2(p, r), Add2(q, s))
  {
  }

  /** Scaling distributes over a sum. */
  lemma ScaleSum(a: Vec2, b: Vec2, k: real)
    ensures Scale2(Add2(a, b), k) == Add2(Scale2(a, k), Scale2(b, k))
  {
    assert (a.x + b.x) * k == a.x * k + b.x * k;
    assert (a.y + b.y) * k == a.y * k + b.y * k;
  }

  /** Bodies with the same velocities and masses have the same total momentum. */
  lemma {:induction false} SameMotionSameMomentum(ps: seq<PointMass>, qs: seq<PointMass>)
    requires |ps| == |qs|
    requires forall k :: 0 <= k < |ps| ==> qs[k].velocity == ps[k].velocity && qs[k].mass == ps[k].mass
    ensures TotalMomentum(qs) == TotalMomentum(ps)
    decreases |ps|
  {
    if ps != [] {
      var n := |ps| - 1;
      SameMotionSameMomentum(ps[..n], qs[..n]);
    }
  }

  /**
   * An engine step with only massive bodies whose accumulated forces cancel
   * out conserves total momentum.
   */
  lemma MomentumConserved(ps: seq<PointMass>, dt: real, law: ForceLaw)
    requires AllMassive(ps) && NetForce(ps) == Zero2
    ensures TotalMomentum(Advance(ps, dt, law)) == TotalMomentum(ps)
  {
    var qs := PairsApplied(ps, law);
    NetForceUnchanged(ps, law);
    EachPairOnce(ps, law);
    SameMotionSameMomentum(ps, qs);
    TotalImpulse(qs, dt);
  }

  lemma {:induction false} NoForces(ps: seq<PointMass>)
    requires forall k :: 0 <= k < |ps| ==> ps[k].force == Zero2
    ensures NetForce(ps) == Zero2
    decreases |ps|
  {
    if ps != [] {
      NoForces(ps[..|ps| - 1]);
    }
  }

  /**
   * A step with only massive bodies clears every accumulated force, so every
   * later step conserves total momentum.
   */
  lemma LaterStepsConserveMomentum(ps: seq<PointMass>, dt: real, dt': real, law: ForceLaw)
    requires AllMassive(ps)
    ensures var next := Advance(ps, dt, law);
            TotalMomentum(Advance(next, dt', law)) == TotalMomentum(next)
  {
    var next := Advance(ps, dt, law);
    EachPairOnce(ps, law);
    NoForces(next);
    MomentumConserved(next, dt', law);
  }

  // ---------------------------------------------------------------------------
  // The PhysicsEngine class

  ghost predicate DistinctBodies(bs: seq<Body>) {
    forall i, j :: 0 <= i < j < |bs| ==> bs[i] != bs[j]
  }

  /** The states of a sequence of Bodies, in order. */
  function BodyStates(bs: seq<Body>): (ps: seq<PointMass>)
    reads bs
    ensures |ps| == |bs|
    ensures forall k :: 0 <= k < |bs| ==> ps[k] == bs[k].State()
    decreases |bs|
  {
    if bs == [] then [] else BodyStates(bs[..|bs| - 1]) + [bs[|bs| - 1].State()]
  }

  class PhysicsEngine {
    /** The bodies, held by value: no Body is stored twice. */
    var bodies: seq<Body>

    function States(): (ps: seq<PointMass>)
      reads this, bodies
      ensures |ps| == |bodies|
    {
      BodyStates(bodies)
    }

    ghost predicate Valid()
      reads this
    {
      DistinctBodies(bodies)
    }

    constructor ()
      ensures Valid() && States() == []
    {
      bodies := [];
    }

    /** addBody: a copy of body is appended; the bodies already held are untouched. */
    method AddBody(body: Body)
      requires Valid()
      modifies this`bodies
      ensures Valid()
      ensures States() == old(States()) + [body.State()]
      ensures bodies[..|bodies| - 1] == old(bodies) && fresh(bodies[|bodies| - 1])
    {
      var copy := new Body.Copy(body);
      assert DistinctBodies(bodies + [copy]);
      bodies := bodies + [copy];
    }

    /** update: computeForces, then every body's own update with the same dt. */
    method Update(dt: real, lib: Planar)
      requires Valid()
      modifies bodies
      ensures States() == Advance(old(States()), dt, Gravity(lib))
    {
      ghost var ps := States();
      ComputeForces(lib);
      ghost var qs := States();
      IntegrateBodies(bodies, dt);
      assert States() == IntegrateAll(qs, dt);
    }

    /** The second loop of update: every body's own update, in order, with the same dt. */
    static method IntegrateBodies(bs: seq<Body>, dt: real)
      requires DistinctBodies(bs)
      modifies bs
      ensures BodyStates(bs) == IntegrateAll(old(BodyStates(bs)), dt)
    {
      ghost var qs := BodyStates(bs);
      var k := 0;
      while k < |bs|
        invariant 0 <= k <= |bs|
        invariant forall m :: 0 <= m < |bs| ==> bs[m].State() == if m < k then Integrate(qs[m], dt) else qs[m]
      {
        bs[k].Update(dt);
        k := k + 1;
      }
      assert BodyStates(bs) == IntegrateAll(qs, dt);
    }

    /** computeForces: the "reset" loop, then the pair loops. */
    method ComputeForces(lib: Planar)
      requires Valid()
      modifies bodies
      ensures States() == PairsApplied(old(States()), Gravity(lib))
    {
      AddZeroForces(bodies);
      ApplyRows(bodies, lib, Gravity(lib));
    }

    /** The first loop of computeForces applies a zero force to every body, which changes nothing. */
    static method AddZeroForces(bs: seq<Body>)
      modifies bs
      ensures BodyStates(bs) == old(BodyStates(bs))
    {
      ghost var ps := BodyStates(bs);
      var k := 0;
      while k < |bs|
        invariant 0 <= k <= |bs|
        invariant forall m :: 0 <= m < |bs| ==> bs[m].State() == ps[m]
      {
        bs[k].ApplyForce(Zero2);
        k := k + 1;
      }
      assert BodyStates(bs) == ps;
    }

    /** The outer loop of computeForces: rows 0 .. n-1 in order. law names the gravity of lib. */
    static method ApplyRows(bs: seq<Body>, lib: Planar, ghost law: ForceLaw)
      requires DistinctBodies(bs) && law == Gravity(lib)
      modifies bs
      ensures BodyStates(bs) == PairsApplied(old(BodyStates(bs)), law)
    {
      ghost var ps := BodyStates(bs);
      var i := 0;
      while i < |bs|
        invariant 0 <= i <= |bs|
        invariant BodyStates(bs) == Rows(ps, i, law)
      {
        ApplyRow(bs, i, lib, law, ps);
        i := i + 1;
      }
    }

    /** The inner loop of computeForces for row i: partners i+1 .. n-1 in order, after rows 0 .. i-1 of ps. */
    static method ApplyRow(bs: seq<Body>, i: nat, lib: Planar, ghost law: ForceLaw, ghost ps: seq<PointMass>)
      requires DistinctBodies(bs) && i < |bs| == |ps| && law == Gravity(lib)
      requires BodyStates(bs) == Rows(ps, i, law)
      modifies bs
      ensures BodyStates(bs) == Rows(ps, i + 1, law)
    {
      ghost var start := BodyStates(bs);
      var j := i + 1;
      while j < |bs|
        invariant i < j <= |bs|
        invariant BodyStates(bs) == Row(start, i, j, law)
      {
        ApplyPairInPlace(bs, i, j, lib, law, start);
        j := j + 1;
      }
    }

    /**
     * The force on a from b, as the pair loop computes it: distance floored at 1,
     * G * m_a * m_b / d^2 along the normalized separation. It computes PairForce
     * and exists only to keep the nonlinear arithmetic out of ApplyPairInPlace.
     */
    static method ForceBetween(a: Body, b: Body, lib: Planar) returns (force: Vec2)
      ensures force == PairForce(lib, a.position, a.mass, b.position, b.mass)
    {
      var posA := a.GetPosition();
      var posB := b.GetPosition();
      var direction := Sub2(posB, posA);
      var distance := lib.length(direction);
      if distance < 1.0 {
        distance := 1.0;
      }
      var forceDir := lib.normalize(direction);
      var forceMagnitude := G_2D * a.GetMass() * b.GetMass() / (distance * distance);
      force := Scale2(forceDir, forceMagnitude);
    }

    /** One pair visit, in place: the force on i is applied to i and its negation to j, after partners i+1 .. j-1 of start. */
    static method ApplyPairInPlace(bodies: seq<Body>, i: nat, j: nat, lib: Planar, ghost law: ForceLaw, ghost start: seq<PointMass>)
      requires DistinctBodies(bodies) && i < j < |bodies| == |start| && law == Gravity(lib)
      requires BodyStates(bodies) == Row(start, i, j, law)
      modifies bodies[i], bodies[j]
      ensures BodyStates(bodies) == Row(start, i, j + 1, law)
    {
      ghost var ps := BodyStates(bodies);
      var force := ForceBetween(bodies[i], bodies[j], lib);
      assert force == Pull(law, ps[i], ps[j]);
      bodies[i].ApplyForce(force);
      bodies[j].ApplyForce(Neg2(force));
      ghost var qs := ApplyPair(ps, i, j, law);
      forall k | 0 <= k < |bodies|
        ensures bodies[k].State() == qs[k]
      {
        if k != i && k != j {
          assert bodies[k] != bodies[i] && bodies[k] != bodies[j];
        }
      }
      assert BodyStates(bodies) == qs;
      assert Row(start, i, j + 1, law) == qs;
    }
  }
}
