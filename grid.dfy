/**
 * The warp lattice (the `Grid` class): a fixed set of line segments on the
 * plane y = initialYPlane whose y coordinates are recomputed every frame from
 * the bodies' masses and positions.
 */
module Grids {
  import opened Vectors
  import opened Constants
  import opened Objects

  /** Distance between neighbouring lattice lines. */
  function Spacing(size: real, divisions: int): real
    requires divisions != 0
  {
    size / divisions as real
  }

  /** The constructor's reference height: -(size / 2) * 0.3 + 3 * step. */
  function InitialYPlane(size: real, divisions: int): real
    requires divisions != 0
  {
    -(size / 2.0) * 0.3 + 3.0 * Spacing(size, divisions)
  }

  /** Number of lines in each direction: the loops run while step <= divisions. */
  function LineCount(divisions: int): nat {
    if divisions >= 0 then divisions + 1 else 0
  }

  /** Number of segments on each line: the loops run while step < divisions. */
  function SegmentCount(divisions: int): nat {
    if divisions > 0 then divisions else 0
  }

  /** Segment xStep of the line z = -size/2 + zStep * step running along x: two vertices of three floats. */
  function XSegment(size: real, divisions: int, y0: real, zStep: int, xStep: int): seq<real>
    requires divisions != 0
  {
    var step := Spacing(size, divisions);
    var z := -(size / 2.0) + zStep as real * step;
    var xStart := -(size / 2.0) + xStep as real * step;
    [xStart, y0, z, xStart + step, y0, z]
  }

  /** Segment zStep of the line x = -size/2 + xStep * step running along z. */
  function ZSegment(size: real, divisions: int, y0: real, xStep: int, zStep: int): seq<real>
    requires divisions != 0
  {
    var step := Spacing(size, divisions);
    var x := -(size / 2.0) + xStep as real * step;
    var zStart := -(size / 2.0) + zStep as real * step;
    [x, y0, zStart, x, y0, zStart + step]
  }

  /** The first `count` segments of the x-line with index zStep. */
  function XLine(size: real, divisions: int, y0: real, zStep: int, count: nat): seq<real>
    requires divisions != 0
  {
    if count == 0 then [] else XLine(size, divisions, y0, zStep, count - 1) + XSegment(size, divisions, y0, zStep, count - 1)
  }

  /** The first `rows` x-lines, each with all its segments. */
  function XLines(size: real, divisions: int, y0: real, rows: nat): seq<real>
    requires divisions != 0
  {
    if rows == 0 then []
    else XLines(size, divisions, y0, rows - 1) + XLine(size, divisions, y0, rows - 1, SegmentCount(divisions))
  }

  function ZLine(size: real, divisions: int, y0: real, xStep: int, count: nat): seq<real>
    requires divisions != 0
  {
    if count == 0 then [] else ZLine(size, divisions, y0, xStep, count - 1) + ZSegment(size, divisions, y0, xStep, count - 1)
  }

  function ZLines(size: real, divisions: int, y0: real, columns: nat): seq<real>
    requires divisions != 0
  {
    if columns == 0 then []
    else ZLines(size, divisions, y0, columns - 1) + ZLine(size, divisions, y0, columns - 1, SegmentCount(divisions))
  }

  /** generateInitialVertices: all x-lines, then all z-lines. */
  function Lattice(size: real, divisions: int, y0: real): seq<real>
    requires divisions != 0
  {
    XLines(size, divisions, y0, LineCount(divisions)) + ZLines(size, divisions, y0, LineCount(divisions))
  }

  /** Every vertex (triple) of vs lies on the plane y = y0. */
  ghost predicate Flat(vs: seq<real>, y0: real) {
    && |vs| % 3 == 0
    && forall i :: 0 <= i < |vs| && i % 3 == 1 ==> vs[i] == y0
  }

  lemma FlatAppend(a: seq<real>, b: seq<real>, y0: real)
    requires Flat(a, y0) && Flat(b, y0)
    ensures Flat(a + b, y0)
  {
    forall i | 0 <= i < |a + b| && i % 3 == 1
      ensures (a + b)[i] == y0
    {
      if i >= |a| {
        assert (i - |a|) % 3 == 1;
      }
    }
  }

  lemma {:induction false} XLineShape(size: real, divisions: int, y0: real, zStep: int, count: nat)
    requires divisions != 0
    ensures |XLine(size, divisions, y0, zStep, count)| == 6 * count
    ensures Flat(XLine(size, divisions, y0, zStep, count), y0)
  {
    if count > 0 {
      XLineShape(size, divisions, y0, zStep, count - 1);
      FlatAppend(XLine(size, divisions, y0, zStep, count - 1), XSegment(size, divisions, y0, zStep, count - 1), y0);
    }
  }

  lemma {:induction false} ZLineShape(size: real, divisions: int, y0: real, xStep: int, count: nat)
    requires divisions != 0
    ensures |ZLine(size, divisions, y0, xStep, count)| == 6 * count
    ensures Flat(ZLine(size, divisions, y0, xStep, count), y0)
  {
    if count > 0 {
      ZLineShape(size, divisions, y0, xStep, count - 1);
      FlatAppend(ZLine(size, divisions, y0, xStep, count - 1), ZSegment(size, divisions, y0, xStep, count - 1), y0);
    }
  }

  lemma {:induction false} XLinesShape(size: real, divisions: int, y0: real, rows: nat)
    requires divisions != 0
    ensures |XLines(size, divisions, y0, rows)| == 6 * rows * SegmentCount(divisions)
    ensures Flat(XLines(size, divisions, y0, rows), y0)
  {
    if rows > 0 {
      var s := SegmentCount(divisions);
      XLinesShape(size, divisions, y0, rows - 1);
      XLineShape(size, divisions, y0, rows - 1, s);
      FlatAppend(XLines(size, divisions, y0, rows - 1), XLine(size, divisions, y0, rows - 1, s), y0);
      assert 6 * (rows - 1) * s + 6 * s == 6 * rows * s;
    }
  }

  lemma {:induction false} ZLinesShape(size: real, divisions: int, y0: real, columns: nat)
    requires divisions != 0
    ensures |ZLines(size, divisions, y0, columns)| == 6 * columns * SegmentCount(divisions)
    ensures Flat(ZLines(size, divisions, y0, columns), y0)
  {
    if columns > 0 {
      var s := SegmentCount(divisions);
      ZLinesShape(size, divisions, y0, columns - 1);
      ZLineShape(size, divisions, y0, columns - 1, s);
      FlatAppend(ZLines(size, divisions, y0, columns - 1), ZLine(size, divisions, y0, columns - 1, s), y0);
      assert 6 * (columns - 1) * s + 6 * s == 6 * columns * s;
    }
  }

  /**
   * The lattice has 2 (d + 1) d segments of two vertices of three floats each,
   * 12 d (d + 1) floats for d > 0 divisions and none for d < 0, and every
   * vertex lies on the plane y = y0.
   */
  lemma LatticeShape(size: real, divisions: int, y0: real)
    requires divisions != 0
    ensures |Lattice(size, divisions, y0)| == if divisions > 0 then 12 * divisions * (divisions + 1) else 0
    ensures Flat(Lattice(size, divisions, y0), y0)
  {
    var n := LineCount(divisions);
    XLinesShape(size, divisions, y0, n);
    ZLinesShape(size, divisions, y0, n);
    FlatAppend(XLines(size, divisions, y0, n), ZLines(size, divisions, y0, n), y0);
    assert 6 * n * SegmentCount(divisions) + 6 * n * SegmentCount(divisions) == 12 * n * SegmentCount(divisions);
  }

  /** Consecutive vertices of an x-line segment share y and z and are one step apart in x. */
  lemma XSegmentTopology(size: real, divisions: int, y0: real, zStep: int, count: nat, k: nat)
    requires divisions != 0 && k < count
    ensures var line := XLine(size, divisions, y0, zStep, count);
            |line| == 6 * count &&
            line[6 * k + 3] == line[6 * k] + Spacing(size, divisions) &&
            line[6 * k + 4] == line[6 * k + 1] && line[6 * k + 5] == line[6 * k + 2]
    decreases count
  {
    XLineShape(size, divisions, y0, zStep, count);
    if k < count - 1 {
      XSegmentTopology(size, divisions, y0, zStep, count - 1, k);
      XLineShape(size, divisions, y0, zStep, count - 1);
      var prev := XLine(size, divisions, y0, zStep, count - 1);
      var line := XLine(size, divisions, y0, zStep, count);
      assert line == prev + XSegment(size, divisions, y0, zStep, count - 1);
      assert line[6 * k] == prev[6 * k] && line[6 * k + 3] == prev[6 * k + 3];
      assert line[6 * k + 1] == prev[6 * k + 1] && line[6 * k + 4] == prev[6 * k + 4];
      assert line[6 * k + 2] == prev[6 * k + 2] && line[6 * k + 5] == prev[6 * k + 5];
    } else {
      XLineShape(size, divisions, y0, zStep, count - 1);
    }
  }

  /** Consecutive vertices of a z-line segment share x and y and are one step apart in z. */
  lemma ZSegmentTopology(size: real, divisions: int, y0: real, xStep: int, count: nat, k: nat)
    requires divisions != 0 && k < count
    ensures var line := ZLine(size, divisions, y0, xStep, count);
            |line| == 6 * count &&
            line[6 * k + 5] == line[6 * k + 2] + Spacing(size, divisions) &&
            line[6 * k + 3] == line[6 * k] && line[6 * k + 4] == line[6 * k + 1]
    decreases count
  {
    ZLineShape(size, divisions, y0, xStep, count);
    if k < count - 1 {
      ZSegmentTopology(size, divisions, y0, xStep, count - 1, k);
      ZLineShape(size, divisions, y0, xStep, count - 1);
      var prev := ZLine(size, divisions, y0, xStep, count - 1);
      var line := ZLine(size, divisions, y0, xStep, count);
      assert line == prev + ZSegment(size, divisions, y0, xStep, count - 1);
      assert line[6 * k] == prev[6 * k] && line[6 * k + 3] == prev[6 * k + 3];
      assert line[6 * k + 1] == prev[6 * k + 1] && line[6 * k + 4] == prev[6 * k + 4];
      assert line[6 * k + 2] == prev[6 * k + 2] && line[6 * k + 5] == prev[6 * k + 5];
    } else {
      ZLineShape(size, divisions, y0, xStep, count - 1);
    }
  }

  // ---------------------------------------------------------------------------
  // The warp field

  /** Summed mass of the bodies that are not being authored. */
  function TotalMass(bodies: seq<BodyState>): real {
    if bodies == [] then 0.0
    else
      var last := bodies[|bodies| - 1];
      TotalMass(bodies[..|bodies| - 1]) + (if last.initializing then 0.0 else last.mass)
  }

  /** Mass-weighted sum of the y coordinates of the bodies that are not being authored. */
  function WeightedY(bodies: seq<BodyState>): real {
    if bodies == [] then 0.0
    else
      var last := bodies[|bodies| - 1];
      WeightedY(bodies[..|bodies| - 1]) + (if last.initializing then 0.0 else last.mass * last.position.y)
  }

  /** Centre-of-mass height, or the reference height y0 when the total mass is not positive. */
  function CenterOfMassY(bodies: seq<BodyState>, y0: real): real {
    var total := TotalMass(bodies);
    if total > 0.0 then WeightedY(bodies) / total else y0
  }

  /** If every counted body lies at or below height h and so does y0, the centre of mass does too. */
  lemma {:induction false} WeightedYBounded(bodies: seq<BodyState>, h: real)
    requires forall k :: 0 <= k < |bodies| && !bodies[k].initializing ==> bodies[k].mass >= 0.0 && bodies[k].position.y <= h
    ensures WeightedY(bodies) <= h * TotalMass(bodies)
  {
    if bodies != [] {
      var last := bodies[|bodies| - 1];
      WeightedYBounded(bodies[..|bodies| - 1], h);
      if !last.initializing {
        assert last.mass * last.position.y <= last.mass * h;
      }
    }
  }

  lemma CenterOfMassBelow(bodies: seq<BodyState>, y0: real, h: real)
    requires forall k :: 0 <= k < |bodies| && !bodies[k].initializing ==> bodies[k].mass >= 0.0 && bodies[k].position.y <= h
    requires y0 <= h
    ensures CenterOfMassY(bodies, y0) <= h
  {
    WeightedYBounded(bodies, h);
    var total := TotalMass(bodies);
    if total > 0.0 {
      var mean := WeightedY(bodies) / total;
      assert mean * total == WeightedY(bodies);
      if mean > h {
        assert mean * total > h * total;
      }
    }
  }

  function Abs(r: real): real { if r < 0.0 then -r else r }

  /** The horizontal distance from the lattice point (x, y0, z) to body b, floored at 1. */
  function FlooredXZ(b: BodyState, x: real, z: real, y0: real, length: Vec3 -> real): (d: real)
    ensures d >= 1.0
  {
    var toObject := Sub3(b.position, Vec3(x, y0, z));
    var planar := length(Vec3(toObject.x, 0.0, toObject.z));
    if planar < 1.0 then 1.0 else planar
  }

  /**
   * The contribution of one body to the height at the lattice point (x, y0, z):
   * a strict dip exactly when the body has positive mass and radius and the
   * floored horizontal distance in metres exceeds its Schwarzschild radius,
   * and zero otherwise.
   */
  function Contribution(b: BodyState, x: real, z: real, y0: real, length: Vec3 -> real): (dy: real)
    ensures dy <= 0.0
    ensures b.mass <= 0.0 || b.radius <= 0.0 ==> dy == 0.0
    ensures dy < 0.0 <==> b.mass > 0.0 && b.radius > 0.0 && FlooredXZ(b, x, z, y0, length) * 1000.0 > Schwarzschild(b.mass)
  {
    if b.mass <= 0.0 || b.radius <= 0.0 then 0.0
    else
      var distanceXZm := FlooredXZ(b, x, z, y0, length) * 1000.0;
      var rs := Schwarzschild(b.mass);
      if distanceXZm > rs then
        var warpFactor := (b.mass / DEFAULT_INIT_MASS) * b.radius * 100000.0;
        DipPositive(warpFactor, rs, distanceXZm);
        -Dip(warpFactor, rs, distanceXZm)
      else 0.0
  }

  /** Whether a body is being authored or launched plays no part in how far it pulls the grid down. */
  lemma ContributionIgnoresFlags(b: BodyState, initializing: bool, launched: bool, x: real, z: real, y0: real, length: Vec3 -> real)
    ensures Contribution(b.(initializing := initializing, launched := launched), x, z, y0, length)
         == Contribution(b, x, z, y0, length)
  {
  }

  /** The depth by which one body pulls a lattice point down: warpFactor * (rs / distance). */
  function Dip(warpFactor: real, rs: real, distance: real): real
    requires distance != 0.0
  {
    warpFactor * (rs / distance)
  }

  lemma DipPositive(warpFactor: real, rs: real, distance: real)
    requires warpFactor > 0.0 && rs > 0.0 && distance > 0.0
    ensures Dip(warpFactor, rs, distance) > 0.0
  {
    assert rs / distance > 0.0;
  }

  /** The Schwarzschild-radius analogue 2 G m / c^2 that gates a body's contribution. */
  function Schwarzschild(mass: real): real {
    (2.0 * G * mass) / (C * C)
  }

  /** Sum of the contributions of all bodies, taken in order; Initializing bodies are not excluded. */
  function Displacement(bodies: seq<BodyState>, x: real, z: real, y0: real, length: Vec3 -> real): (dy: real)
    ensures dy <= 0.0
  {
    if bodies == [] then 0.0
    else Displacement(bodies[..|bodies| - 1], x, z, y0, length) + Contribution(bodies[|bodies| - 1], x, z, y0, length)
  }

  /** The new height of the lattice point (x, z). */
  function WarpedY(bodies: seq<BodyState>, x: real, z: real, y0: real, length: Vec3 -> real): real {
    y0 + Displacement(bodies, x, z, y0, length) - Abs((CenterOfMassY(bodies, y0) - y0) * 0.1)
  }

  /** The warped height never rises above the reference plane. */
  lemma WarpedYBelowPlane(bodies: seq<BodyState>, x: real, z: real, y0: real, length: Vec3 -> real)
    ensures WarpedY(bodies, x, z, y0, length) <= y0
  {
  }

  /** With no counted mass (no bodies, or all of them initializing) the tilt term vanishes. */
  lemma NoMassNoTilt(bodies: seq<BodyState>, x: real, z: real, y0: real, length: Vec3 -> real)
    requires forall k :: 0 <= k < |bodies| ==> bodies[k].initializing
    ensures CenterOfMassY(bodies, y0) == y0
    ensures WarpedY(bodies, x, z, y0, length) == y0 + Displacement(bodies, x, z, y0, length)
  {
    NoMassTotal(bodies);
  }

  lemma {:induction false} NoMassTotal(bodies: seq<BodyState>)
    requires forall k :: 0 <= k < |bodies| ==> bodies[k].initializing
    ensures TotalMass(bodies) == 0.0
  {
    if bodies != [] {
      NoMassTotal(bodies[..|bodies| - 1]);
    }
  }

  /**
   * updateAndWarp on a buffer of (x, y, z) triples: each y is replaced by the
   * warped height at that triple's x and z; x, z and the length are kept.
   */
  function Warped(vs: seq<real>, y0: real, bodies: seq<BodyState>, length: Vec3 -> real): (ws: seq<real>)
    requires |vs| % 3 == 0
    ensures |ws| == |vs|
    ensures forall i :: 0 <= i < |vs| && i % 3 != 1 ==> ws[i] == vs[i]
    ensures forall i :: 0 <= i < |vs| && i % 3 == 1 ==> ws[i] <= y0
    decreases |vs|
  {
    if vs == [] then []
    else
      var n := |vs| - 3;
      WarpedYBelowPlane(bodies, vs[n], vs[n + 2], y0, length);
      assert forall i :: n <= i < |vs| ==> (i % 3 == 1 <==> i == n + 1);
      Warped(vs[..n], y0, bodies, length) + [vs[n], WarpedY(bodies, vs[n], vs[n + 2], y0, length), vs[n + 2]]
  }

  /** The y slot of each triple is WarpedY of that triple's own x and z. */
  lemma {:induction false} WarpedHeight(vs: seq<real>, y0: real, bodies: seq<BodyState>, length: Vec3 -> real, i: nat)
    requires |vs| % 3 == 0 && i < |vs| && i % 3 == 1
    ensures Warped(vs, y0, bodies, length)[i] == WarpedY(bodies, vs[i - 1], vs[i + 1], y0, length)
    decreases |vs|
  {
    var n := |vs| - 3;
    if i < n {
      WarpedHeight(vs[..n], y0, bodies, length, i);
    } else {
      assert i == n + 1;
    }
  }

  /** The new heights depend on x, z, y0 and the bodies only, so warping twice gives what warping once gives. */
  lemma {:induction false} WarpIdempotent(vs: seq<real>, y0: real, bodies: seq<BodyState>, length: Vec3 -> real)
    requires |vs| % 3 == 0
    ensures Warped(Warped(vs, y0, bodies, length), y0, bodies, length) == Warped(vs, y0, bodies, length)
    decreases |vs|
  {
    if vs != [] {
      var n := |vs| - 3;
      var once := Warped(vs, y0, bodies, length);
      assert once[..n] == Warped(vs[..n], y0, bodies, length);
      WarpIdempotent(vs[..n], y0, bodies, length);
    }
  }

  // ---------------------------------------------------------------------------
  // The loops of updateAndWarp

  /**
   * One step of the vertex loop: when the first i slots are already warped, the
   * next triple still holds its original x and z, and writing its warped y
   * extends the warped prefix by one triple.
   */
  lemma RewriteStep(original: seq<real>, current: seq<real>, i: nat, y0: real, bodies: seq<BodyState>, length: Vec3 -> real)
    requires i % 3 == 0 && i < |original| && |original| % 3 == 0
    requires current == Warped(original[..i], y0, bodies, length) + original[i..]
    ensures i + 3 <= |original| && (i + 3) % 3 == 0
    ensures current[i] == original[i] && current[i + 2] == original[i + 2]
    ensures current[i + 1 := WarpedY(bodies, original[i], original[i + 2], y0, length)]
         == Warped(original[..i + 3], y0, bodies, length) + original[i + 3..]
  {
    NextTriple(i, |original|);
    var done := Warped(original[..i], y0, bodies, length);
    assert original[..i + 3][..i] == original[..i];
    assert Warped(original[..i + 3], y0, bodies, length)
        == done + [original[i], WarpedY(bodies, original[i], original[i + 2], y0, length), original[i + 2]];
    SetMiddle(done, original[i..], WarpedY(bodies, original[i], original[i + 2], y0, length));
  }

  /** Overwriting the middle slot of the triple that follows a prefix. */
  lemma SetMiddle(done: seq<real>, rest: seq<real>, y: real)
    requires |rest| >= 3
    ensures (done + rest)[|done| + 1 := y] == done + [rest[0], y, rest[2]] + rest[3..]
  {
  }

  /** Walking a buffer of triples three slots at a time never runs past its end. */
  lemma NextTriple(i: int, n: int)
    requires 0 <= i < n && i % 3 == 0 && n % 3 == 0
    ensures i + 3 <= n && (i + 3) % 3 == 0
  {
  }

  /** The first loop of updateAndWarp: accumulate totalMass and comY over the non-initializing bodies. */
  method ComputeCenterOfMassY(bodies: seq<BodyState>, y0: real) returns (comY: real)
    ensures comY == CenterOfMassY(bodies, y0)
  {
    var totalMass := 0.0;
    comY := 0.0;
    var k := 0;
    while k < |bodies|
      invariant 0 <= k <= |bodies|
      invariant totalMass == TotalMass(bodies[..k])
      invariant comY == WeightedY(bodies[..k])
    {
      assert bodies[..k + 1][..k] == bodies[..k];
      if !bodies[k].initializing {
        comY := comY + bodies[k].mass * bodies[k].position.y;
        totalMass := totalMass + bodies[k].mass;
      }
      k := k + 1;
    }
    assert bodies[..k] == bodies;
    if totalMass > 0.0 {
      comY := comY / totalMass;
    } else {
      comY := y0;
    }
  }

  /** The inner loop of updateAndWarp: the summed contribution of every body at the lattice point (x, z). */
  method ComputeDisplacement(bodies: seq<BodyState>, x: real, z: real, y0: real, length: Vec3 -> real)
    returns (totalDisplacementY: real)
    ensures totalDisplacementY == Displacement(bodies, x, z, y0, length)
  {
    totalDisplacementY := 0.0;
    var k := 0;
    while k < |bodies|
      invariant 0 <= k <= |bodies|
      invariant totalDisplacementY == Displacement(bodies[..k], x, z, y0, length)
    {
      assert bodies[..k + 1][..k] == bodies[..k];
      var dy := BodyDisplacement(bodies[k], x, z, y0, length);
      totalDisplacementY := totalDisplacementY + dy;
      k := k + 1;
    }
    assert bodies[..k] == bodies;
  }

  /**
   * One iteration of the inner loop of updateAndWarp: how far body b pulls the
   * point (x, z) down. It computes Contribution step by step and exists only to
   * keep the arithmetic out of the loop proof of ComputeDisplacement.
   */
  method BodyDisplacement(b: BodyState, x: real, z: real, y0: real, length: Vec3 -> real) returns (dy: real)
    ensures dy == Contribution(b, x, z, y0, length)
  {
    dy := 0.0;
    if b.mass <= 0.0 || b.radius <= 0.0 {
      return;
    }
    var toObject := Sub3(b.position, Vec3(x, y0, z));
    var distanceXZ := length(Vec3(toObject.x, 0.0, toObject.z));
    if distanceXZ < 1.0 {
      distanceXZ := 1.0;
    }
    var distanceXZm := distanceXZ * 1000.0;
    var rs := Schwarzschild(b.mass);
    if distanceXZm > rs {
      var warpFactor := (b.mass / DEFAULT_INIT_MASS) * b.radius * 100000.0;
      dy := -Dip(warpFactor, rs, distanceXZm);
    }
  }

  /**
   * The body of the vertex loop of updateAndWarp: the new y of the vertex at
   * (x, z). It computes WarpedY and exists only to split the proof of RewriteHeights.
   */
  method WarpedHeightAt(bodies: seq<BodyState>, x: real, z: real, y0: real, verticalShiftFactor: real, length: Vec3 -> real)
    returns (y: real)
    requires verticalShiftFactor == CenterOfMassY(bodies, y0) - y0
    ensures y == WarpedY(bodies, x, z, y0, length)
  {
    var totalDisplacementY := ComputeDisplacement(bodies, x, z, y0, length);
    y := y0 + totalDisplacementY - Abs(verticalShiftFactor * 0.1);
  }

  // ---------------------------------------------------------------------------
  // The Grid class

  class Grid {
    var gridSize: real
    var divisions: int
    var initialYPlane: real
    var vertices: seq<real>
    var vertexCount: nat
    /** Stands for `VAO != 0`: the buffer has been handed to the GPU. */
    var uploaded: bool

    ghost predicate Valid()
      reads this
    {
      && divisions != 0
      && initialYPlane == InitialYPlane(gridSize, divisions)
      && |vertices| % 3 == 0
      && vertexCount == |vertices|
    }

    constructor (size: real, divs: int)
      requires divs != 0
      ensures Valid() && !uploaded
      ensures gridSize == size && divisions == divs
      ensures initialYPlane == -(size / 2.0) * 0.3 + 3.0 * (size / divs as real)
      ensures vertices == Lattice(size, divs, initialYPlane)
    {
      gridSize := size;
      divisions := divs;
      var step := size / divs as real;
      var halfSize := size / 2.0;
      initialYPlane := -halfSize * 0.3 + 3.0 * step;
      vertices := [];
      vertexCount := 0;
      uploaded := false;
      new;
      GenerateInitialVertices();
    }

    /** generateInitialVertices: rebuild the flat lattice and record its length. */
    method GenerateInitialVertices()
      requires divisions != 0
      modifies this`vertices, this`vertexCount
      ensures vertices == Lattice(gridSize, divisions, initialYPlane)
      ensures vertexCount == |vertices|
      ensures |vertices| == if divisions > 0 then 12 * divisions * (divisions + 1) else 0
      ensures Flat(vertices, initialYPlane)
    {
      vertices := [];
      AppendXLines();
      AppendZLines();
      vertexCount := |vertices|;
      LatticeShape(gridSize, divisions, initialYPlane);
    }

    /** The first pair of nested loops of generateInitialVertices: the lines running along x. */
    method AppendXLines()
      requires divisions != 0
      modifies this`vertices
      ensures vertices == old(vertices) + XLines(gridSize, divisions, initialYPlane, LineCount(divisions))
    {
      var zStep := 0;
      while zStep <= divisions
        invariant 0 <= zStep <= LineCount(divisions)
        invariant vertices == old(vertices) + XLines(gridSize, divisions, initialYPlane, zStep)
      {
        AppendXLine(zStep);
        zStep := zStep + 1;
      }
    }

    /** The inner x loop: the segments of the line z = -size/2 + zStep * step. */
    method AppendXLine(zStep: int)
      requires divisions != 0
      modifies this`vertices
      ensures vertices == old(vertices) + XLine(gridSize, divisions, initialYPlane, zStep, SegmentCount(divisions))
    {
      var step := gridSize / divisions as real;
      var halfSize := gridSize / 2.0;
      var z := -halfSize + zStep as real * step;
      var xStep := 0;
      while xStep < divisions
        invariant 0 <= xStep <= SegmentCount(divisions)
        invariant vertices == old(vertices) + XLine(gridSize, divisions, initialYPlane, zStep, xStep)
      {
        var xStart := -halfSize + xStep as real * step;
        var xEnd := xStart + step;
        assert XSegment(gridSize, divisions, initialYPlane, zStep, xStep)[0] == xStart;
        assert XSegment(gridSize, divisions, initialYPlane, zStep, xStep)[2] == z;
        assert XSegment(gridSize, divisions, initialYPlane, zStep, xStep) == [xStart, initialYPlane, z, xEnd, initialYPlane, z];
        vertices := vertices + [xStart, initialYPlane, z];
        vertices := vertices + [xEnd, initialYPlane, z];
        xStep := xStep + 1;
      }
    }

    /** The second pair of nested loops of generateInitialVertices: the lines running along z. */
    method AppendZLines()
      requires divisions != 0
      modifies this`vertices
      ensures vertices == old(vertices) + ZLines(gridSize, divisions, initialYPlane, LineCount(divisions))
    {
      var xStep := 0;
      while xStep <= divisions
        invariant 0 <= xStep <= LineCount(divisions)
        invariant vertices == old(vertices) + ZLines(gridSize, divisions, initialYPlane, xStep)
      {
        AppendZLine(xStep);
        xStep := xStep + 1;
      }
    }

    /** The inner z loop: the segments of the line x = -size/2 + xStep * step. */
    method AppendZLine(xStep: int)
      requires divisions != 0
      modifies this`vertices
      ensures vertices == old(vertices) + ZLine(gridSize, divisions, initialYPlane, xStep, SegmentCount(divisions))
    {
      var step := gridSize / divisions as real;
      var halfSize := gridSize / 2.0;
      var x := -halfSize + xStep as real * step;
      var zStep := 0;
      while zStep < divisions
        invariant 0 <= zStep <= SegmentCount(divisions)
        invariant vertices == old(vertices) + ZLine(gridSize, divisions, initialYPlane, xStep, zStep)
      {
        var zStart := -halfSize + zStep as real * step;
        var zEnd := zStart + step;
        assert ZSegment(gridSize, divisions, initialYPlane, xStep, zStep)[0] == x;
        assert ZSegment(gridSize, divisions, initialYPlane, xStep, zStep)[2] == zStart;
        assert ZSegment(gridSize, divisions, initialYPlane, xStep, zStep) == [x, initialYPlane, zStart, x, initialYPlane, zEnd];
        vertices := vertices + [x, initialYPlane, zStart];
        vertices := vertices + [x, initialYPlane, zEnd];
        zStep := zStep + 1;
      }
    }

    /** setupOpenGLResources, reduced to its effect on VAO: a non-empty buffer becomes uploaded. */
    method SetupOpenGLResources()
      modifies this`uploaded
      ensures uploaded == (old(uploaded) || |vertices| > 0)
    {
      if |vertices| > 0 && !uploaded {
        uploaded := true;
      }
    }

    /**
     * updateAndWarp: when the buffer is non-empty and uploaded, rewrite the y
     * slot of every vertex from the bodies; otherwise do nothing.
     */
    method UpdateAndWarp(bodies: seq<BodyState>, length: Vec3 -> real)
      requires Valid()
      modifies this`vertices
      ensures Valid()
      ensures if |old(vertices)| == 0 || !uploaded then vertices == old(vertices)
              else vertices == Warped(old(vertices), initialYPlane, bodies, length)
    {
      if |vertices| == 0 || !uploaded {
        return;
      }
      var comY := ComputeCenterOfMassY(bodies, initialYPlane);
      var verticalShiftFactor := comY - initialYPlane;
      RewriteHeights(bodies, verticalShiftFactor, length);
    }

    /** The vertex loop of updateAndWarp: y := initialYPlane + displacement - |shift * 0.1| for every triple. */
    method RewriteHeights(bodies: seq<BodyState>, verticalShiftFactor: real, length: Vec3 -> real)
      requires Valid()
      requires verticalShiftFactor == CenterOfMassY(bodies, initialYPlane) - initialYPlane
      modifies this`vertices
      ensures Valid()
      ensures vertices == Warped(old(vertices), initialYPlane, bodies, length)
    {
      ghost var original := vertices;
      var i := 0;
      while i < |vertices|
        invariant 0 <= i <= |vertices| && i % 3 == 0
        invariant |vertices| == |original|
        invariant vertices == Warped(original[..i], initialYPlane, bodies, length) + original[i..]
      {
        RewriteStep(original, vertices, i, initialYPlane, bodies, length);
        var y := WarpedHeightAt(bodies, vertices[i], vertices[i + 2], initialYPlane, verticalShiftFactor, length);
        vertices := vertices[i + 1 := y];
        i := i + 3;
      }
      assert original[..i] == original;
    }
  }
}
