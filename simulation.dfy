/**
 * The 3-D GravitySimulation: one frame of update() (growth of the body being
 * authored, the pairwise gravity and collision pass, the position pass and the
 * grid warp), the key and mouse-button callbacks, and the initial scene.
 */
module Simulation {
  import opened Vectors
  import opened Constants
  import opened Objects
  import opened Grids

  /** The library routines a frame relies on: glm::length, glm::normalize and the cube root of updateRadius. */
  datatype Library = Library(length: Vec3 -> real, normalize: Vec3 -> Vec3, cbrt: real -> real)

  /** GLFW key, action and button codes the callbacks compare against. */
  const KEY_P: int := 80
  const KEY_Q: int := 81
  const KEY_ESCAPE: int := 256
  const RELEASE: int := 0
  const PRESS: int := 1
  const MOUSE_BUTTON_LEFT: int := 0

  /** Pairs closer than this (in visual units) exert no gravity on each other. */
  const MIN_DISTANCE: real := 0.001
  /** One visual unit is this many metres. */
  const METRES_PER_UNIT: real := 1000.0
  /** The width and number of divisions of the grid the simulation owns. */
  const GRID_SIZE: real := 20000.0
  const GRID_DIVISIONS: int := 25

  predicate AllPhysical(s: seq<BodyState>) {
    forall k :: 0 <= k < |s| ==> Physical(s[k])
  }

  /**
   * The authoring life cycle: while a body is being created it is the last
   * one, initializing and not launched; every other body takes part.
   */
  predicate Lifecycle(s: seq<BodyState>, creating: bool) {
    && (creating ==> |s| > 0 && s[|s| - 1].initializing && !s[|s| - 1].launched)
    && forall k :: 0 <= k < |s| && !(creating && k == |s| - 1) ==> Participates(s[k])
  }

  /** Under the life cycle, the body being authored is the only one left out of the physics. */
  lemma AtMostOneAuthored(s: seq<BodyState>, creating: bool, k: int)
    requires Lifecycle(s, creating)
    requires 0 <= k < |s|
    ensures !Participates(s[k]) <==> (creating && k == |s| - 1)
  {
  }

  // ---------------------------------------------------------------------------
  // The pair pass

  /** The visual distance from body i to body j. */
  function Separation(bi: BodyState, bj: BodyState, length: Vec3 -> real): real {
    length(Sub3(bj.position, bi.position))
  }

  /**
   * The acceleration body j gives body i: a force G * mi * mj / d^2 (d the
   * distance in metres) divided by mi, along normalize(pj - pi).
   */
  function PairAcceleration(bi: BodyState, bj: BodyState, lib: Library): Vec3
    requires bi.mass != 0.0
    requires Separation(bi, bj, lib.length) > MIN_DISTANCE
  {
    var diff := Sub3(bj.position, bi.position);
    var direction := lib.normalize(diff);
    var distM := lib.length(diff) * METRES_PER_UNIT;
    var forceMag := (G * bi.mass * bj.mass) / (distM * distM);
    Scale3(direction, forceMag / bi.mass)
  }

  /** What body i's velocity v becomes when partner j is visited: accelerate when far enough apart, then damp on overlap. */
  function PairStep(v: Vec3, bi: BodyState, bj: BodyState, lib: Library): Vec3
    requires bi.mass != 0.0
  {
    var accelerated :=
      if Separation(bi, bj, lib.length) > MIN_DISTANCE
      then Add3(v, Div3(PairAcceleration(bi, bj, lib), VELOCITY_STEP_RATIO))
      else v;
    var collisionFactor := CheckCollision(bi, bj, lib.length);
    if collisionFactor < 1.0 then Scale3(accelerated, collisionFactor) else accelerated
  }

  /** Body i's velocity after the inner loop has visited partners 0 .. j-1, skipping itself and the bodies that do not take part. */
  function VelocityAfter(s: seq<BodyState>, i: nat, j: nat, lib: Library): Vec3
    requires i < |s| && j <= |s| && s[i].mass != 0.0
    decreases j
  {
    if j == 0 then s[i].velocity
    else
      var v := VelocityAfter(s, i, j - 1, lib);
      if i == j - 1 || !Participates(s[j - 1]) then v else PairStep(v, s[i], s[j - 1], lib)
  }

  /** The nested loops of update(): every participating body gets the velocity its partners give it; nothing else changes. */
  function PairPass(s: seq<BodyState>, lib: Library): (r: seq<BodyState>)
    requires AllPhysical(s)
    ensures |r| == |s|
    ensures forall k :: 0 <= k < |s| ==> r[k] == s[k].(velocity := r[k].velocity)
    ensures forall k :: 0 <= k < |s| && !Participates(s[k]) ==> r[k] == s[k]
    ensures AllPhysical(r)
  {
    seq(|s|, k requires 0 <= k < |s| =>
      if Participates(s[k]) then s[k].(velocity := VelocityAfter(s, k, |s|, lib)) else s[k])
  }

  /** The position loop of update(): every participating body moves by velocity / 94; nothing else changes. */
  function PositionPass(s: seq<BodyState>): (r: seq<BodyState>)
    ensures |r| == |s|
    ensures forall k :: 0 <= k < |s| ==> r[k] == s[k].(position := r[k].position)
    ensures forall k :: 0 <= k < |s| && !Participates(s[k]) ==> r[k] == s[k]
    ensures forall k :: 0 <= k < |s| && Participates(s[k]) ==>
      Sub3(r[k].position, s[k].position) == Div3(s[k].velocity, POSITION_STEP_RATIO)
  {
    seq(|s|, k requires 0 <= k < |s| =>
      if Participates(s[k]) then s[k].(position := Add3(s[k].position, Div3(s[k].velocity, POSITION_STEP_RATIO))) else s[k])
  }

  /**
   * The growth step of update(): while a body is being authored and the right
   * button is held, its mass grows by the factor 1 + deltaTime and its radius
   * is derived again. No other body and no position, velocity or flag changes.
   */
  function Grow(s: seq<BodyState>, creating: bool, growHeld: bool, deltaTime: real, cbrt: real -> real): (r: seq<BodyState>)
    requires AllPhysical(s)
    ensures |r| == |s| && AllPhysical(r)
    ensures forall k :: 0 <= k < |s| ==> r[k] == s[k].(mass := r[k].mass, density := r[k].density, radius := r[k].radius)
    ensures forall k :: 0 <= k < |s| && !(creating && growHeld && k == |s| - 1) ==> r[k] == s[k]
    ensures creating && growHeld && |s| > 0 ==>
              r[|s| - 1] == WithDerivedRadius(s[|s| - 1].(mass := s[|s| - 1].mass * (1.0 + 1.0 * deltaTime)), cbrt)
  {
    if creating && |s| > 0 && growHeld then
      var n := |s| - 1;
      s[n := WithDerivedRadius(s[n].(mass := s[n].mass * (1.0 + 1.0 * deltaTime)), cbrt)]
    else s
  }

  /** One frame of update() on the bodies: growth, then (unless paused) the pair pass followed by the position pass. */
  function Step(s: seq<BodyState>, paused: bool, creating: bool, growHeld: bool, deltaTime: real, lib: Library): (r: seq<BodyState>)
    requires AllPhysical(s)
    ensures |r| == |s| && AllPhysical(r)
    ensures forall k :: 0 <= k < |s| ==> r[k].initializing == s[k].initializing && r[k].launched == s[k].launched
    ensures forall k :: 0 <= k < |s| && !Participates(s[k]) ==> r[k].position == s[k].position && r[k].velocity == s[k].velocity
  {
    var grown := Grow(s, creating, growHeld, deltaTime, lib.cbrt);
    if paused then grown else PositionPass(PairPass(grown, lib))
  }

  // ---------------------------------------------------------------------------
  // Properties of a frame

  /** A frame never breaks the authoring life cycle. */
  lemma StepKeepsLifecycle(s: seq<BodyState>, paused: bool, creating: bool, growHeld: bool, deltaTime: real, lib: Library)
    requires AllPhysical(s) && Lifecycle(s, creating)
    ensures Lifecycle(Step(s, paused, creating, growHeld, deltaTime, lib), creating)
  {
    var r := Step(s, paused, creating, growHeld, deltaTime, lib);
    forall k | 0 <= k < |s| && !(creating && k == |s| - 1)
      ensures Participates(r[k])
    {
      assert Participates(s[k]);
    }
  }

  /** While paused nothing moves: positions and velocities are those of the previous frame. */
  lemma PausedFreezesMotion(s: seq<BodyState>, creating: bool, growHeld: bool, deltaTime: real, lib: Library, k: int)
    requires AllPhysical(s) && 0 <= k < |s|
    ensures Step(s, true, creating, growHeld, deltaTime, lib)[k].position == s[k].position
    ensures Step(s, true, creating, growHeld, deltaTime, lib)[k].velocity == s[k].velocity
  {
    var r := Grow(s, creating, growHeld, deltaTime, lib.cbrt);
    assert r[k] == s[k].(mass := r[k].mass, density := r[k].density, radius := r[k].radius);
  }

  /**
   * A paused frame without growth changes no body, so two such frames in a
   * row leave the grid exactly as the first left it.
   */
  lemma PausedFramesRepeatGrid(s: seq<BodyState>, creating: bool, deltaTime: real, lib: Library, vs: seq<real>, y0: real)
    requires AllPhysical(s) && |vs| % 3 == 0
    ensures Step(s, true, creating, false, deltaTime, lib) == s
    ensures var once := Warped(vs, y0, Step(s, true, creating, false, deltaTime, lib), lib.length);
            Warped(once, y0, Step(Step(s, true, creating, false, deltaTime, lib), true, creating, false, deltaTime, lib), lib.length) == once
  {
    var r := Step(s, true, creating, false, deltaTime, lib);
    assert r == s;
    WarpIdempotent(vs, y0, s, lib.length);
  }

  /**
   * Growth runs before the pause test: while a body is authored and the right
   * button is held, it grows by the factor 1 + deltaTime and its radius is
   * derived again, paused or not, and the pair and position passes leave it
   * alone.
   */
  lemma GrowthIgnoresPause(s: seq<BodyState>, paused: bool, deltaTime: real, lib: Library)
    requires AllPhysical(s) && Lifecycle(s, true)
    ensures var n := |s| - 1;
            Step(s, paused, true, true, deltaTime, lib)[n]
              == WithDerivedRadius(s[n].(mass := s[n].mass * (1.0 + 1.0 * deltaTime)), lib.cbrt)
    ensures deltaTime >= 0.0 ==>
              Step(s, paused, true, true, deltaTime, lib)[|s| - 1].mass == s[|s| - 1].mass * (1.0 + deltaTime)
  {
    var n := |s| - 1;
    var grown := Grow(s, true, true, deltaTime, lib.cbrt);
    assert !Participates(grown[n]);
    var r := Step(s, paused, true, true, deltaTime, lib);
    assert r[n] == grown[n];
    if deltaTime >= 0.0 {
      assert s[n].mass * (1.0 + 1.0 * deltaTime) > 0.0;
    }
  }

  /** G * m / d^2 along normalize(diff), d the length of diff in metres: the pull of a mass m at offset diff. */
  function GravityPull(m: real, diff: Vec3, lib: Library): Vec3
    requires lib.length(diff) > MIN_DISTANCE
  {
    var distM := lib.length(diff) * METRES_PER_UNIT;
    Scale3(lib.normalize(diff), G * m / (distM * distM))
  }

  /** The acceleration does not depend on the mass of the body it acts on: it is the pull of the partner's mass alone. */
  lemma AccelerationIndependentOfOwnMass(bi: BodyState, bj: BodyState, lib: Library)
    requires bi.mass != 0.0
    requires Separation(bi, bj, lib.length) > MIN_DISTANCE
    ensures PairAcceleration(bi, bj, lib) == GravityPull(bj.mass, Sub3(bj.position, bi.position), lib)
  {
    var diff := Sub3(bj.position, bi.position);
    var distM := lib.length(diff) * METRES_PER_UNIT;
    var d2 := distM * distM;
    assert d2 > 0.0;
    calc {
      (G * bi.mass * bj.mass) / d2 / bi.mass;
      (G * bj.mass * bi.mass) / (d2 * bi.mass);
      G * bj.mass / d2;
    }
  }

  /**
   * Action and reaction: with a symmetric length and an odd normalize, mass
   * times the acceleration of i toward j is the opposite of mass times the
   * acceleration of j toward i.
   */
  lemma ActionReaction(bi: BodyState, bj: BodyState, lib: Library)
    requires bi.mass != 0.0 && bj.mass != 0.0
    requires SymmetricLength3(lib.length) && OddNormalize3(lib.normalize)
    requires Separation(bi, bj, lib.length) > MIN_DISTANCE
    ensures Separation(bj, bi, lib.length) > MIN_DISTANCE
    ensures Scale3(PairAcceleration(bi, bj, lib), bi.mass) == Neg3(Scale3(PairAcceleration(bj, bi, lib), bj.mass))
  {
    var diff := Sub3(bj.position, bi.position);
    assert Sub3(bi.position, bj.position) == Neg3(diff);
    assert lib.length(Neg3(diff)) == lib.length(diff);
    assert lib.normalize(Neg3(diff)) == Neg3(lib.normalize(diff));
    var distM := lib.length(diff) * METRES_PER_UNIT;
    var d2 := distM * distM;
    var u := lib.normalize(diff);
    assert GravityPull(bj.mass, diff, lib) == Scale3(u, G * bj.mass / d2);
    assert GravityPull(bi.mass, Neg3(diff), lib) == Scale3(Neg3(u), G * bi.mass / d2);
    AccelerationIndependentOfOwnMass(bi, bj, lib);
    AccelerationIndependentOfOwnMass(bj, bi, lib);
    OppositePulls(u, bi.mass, bj.mass, d2);
  }

  /** The vector identity behind ActionReaction: mi * (G mj / d2) u == -(mj * (G mi / d2) (-u)). */
  lemma OppositePulls(u: Vec3, mi: real, mj: real, d2: real)
    requires d2 > 0.0
    ensures Scale3(Scale3(u, G * mj / d2), mi) == Neg3(Scale3(Scale3(Neg3(u), G * mi / d2), mj))
  {
    var k := G * mi * mj / d2;
    MulDiv(G * mj, mi, d2);
    MulDiv(G * mi, mj, d2);
    assert G * mj / d2 * mi == k;
    assert G * mi / d2 * mj == k;
    ScaleTwice(u, G * mj / d2, mi);
    ScaleTwice(Neg3(u), G * mi / d2, mj);
    ScaleTwice(u, k, 1.0);
  }

  /** Multiplying a quotient is multiplying its numerator. */
  lemma MulDiv(a: real, b: real, d: real)
    requires d != 0.0
    ensures a / d * b == a * b / d
  {
  }

  /** Scaling twice is scaling by the product. */
  lemma ScaleTwice(u: Vec3, a: real, b: real)
    ensures Scale3(Scale3(u, a), b) == Scale3(u, a * b)
    ensures Scale3(Neg3(u), a) == Neg3(Scale3(u, a))
  {
    assert (u.x * a) * b == u.x * (a * b);
    assert (u.y * a) * b == u.y * (a * b);
    assert (u.z * a) * b == u.z * (a * b);
  }

  /**
   * Two overlapping bodies closer than the gravity cut-off still collide: the
   * velocity is reversed and scaled by 0.2 without any acceleration.
   */
  lemma CoincidentBodiesBounce(v: Vec3, bi: BodyState, bj: BodyState, lib: Library)
    requires bi.mass != 0.0
    requires Separation(bi, bj, lib.length) <= MIN_DISTANCE
    requires bi.radius + bj.radius > Separation(bi, bj, lib.length)
    ensures PairStep(v, bi, bj, lib) == Scale3(v, -0.2)
  {
  }

  /** Bodies that do not take part exert no pull: changing one (other than i itself) leaves i's new velocity unchanged. */
  lemma {:induction false} NonParticipantsExertNoPull(s: seq<BodyState>, i: nat, j: nat, m: nat, b: BodyState, lib: Library)
    requires i < |s| && j <= |s| && m < |s| && m != i && s[i].mass != 0.0
    requires !Participates(s[m]) && !Participates(b)
    ensures VelocityAfter(s[m := b], i, j, lib) == VelocityAfter(s, i, j, lib)
    decreases j
  {
    if j > 0 {
      NonParticipantsExertNoPull(s, i, j - 1, m, b, lib);
    }
  }

  /** A body with no participating partner keeps its velocity through the pair pass. */
  lemma {:induction false} LoneBodyKeepsVelocity(s: seq<BodyState>, i: nat, j: nat, lib: Library)
    requires i < |s| && j <= |s| && s[i].mass != 0.0
    requires forall k :: 0 <= k < |s| && k != i ==> !Participates(s[k])
    ensures VelocityAfter(s, i, j, lib) == s[i].velocity
    decreases j
  {
    if j > 0 {
      LoneBodyKeepsVelocity(s, i, j - 1, lib);
    }
  }

  /** Hence a frame of a single body is free motion: it drifts by velocity / 94 and its velocity is unchanged. */
  lemma SingleBodyDrifts(s: seq<BodyState>, creating: bool, growHeld: bool, deltaTime: real, lib: Library)
    requires AllPhysical(s) && Lifecycle(s, creating) && |s| == 1 && Participates(s[0])
    ensures Step(s, false, creating, growHeld, deltaTime, lib)
         == [s[0].(position := Add3(s[0].position, Div3(s[0].velocity, POSITION_STEP_RATIO)))]
  {
    // the only body takes part, so under the life cycle none is being authored and growHeld has no effect
    assert !creating;
    LoneBodyKeepsVelocity(s, 0, 1, lib);
    assert PairPass(s, lib) == s;
  }

  // ---------------------------------------------------------------------------
  // Callbacks, as functions of the state they change

  /** The flags keyCallback changes. */
  datatype Controls = Controls(running: bool, paused: bool)

  /** keyCallback: Esc and Q stop the loop, P toggles pause; only presses count. */
  function OnKey(c: Controls, key: int, action: int): (r: Controls)
    ensures r.running ==> c.running
    ensures r.running != c.running <==> c.running && action == PRESS && (key == KEY_ESCAPE || key == KEY_Q)
    ensures r.paused != c.paused <==> action == PRESS && key == KEY_P
  {
    var stop := action == PRESS && (key == KEY_ESCAPE || key == KEY_Q);
    var toggle := action == PRESS && key == KEY_P;
    Controls(c.running && !stop, if toggle then !c.paused else c.paused)
  }

  /** Pressing P twice restores the pause state. */
  lemma PauseToggleInvolution(c: Controls)
    ensures OnKey(OnKey(c, KEY_P, PRESS), KEY_P, PRESS) == c
  {
  }

  /** The bodies and the creating flag mouseButtonCallback changes. */
  datatype Authoring = Authoring(bodies: seq<BodyState>, creating: bool)

  /** The body a left press spawns: default mass and density at the spawn point, at rest, being authored. */
  function Spawned(spawnAt: Vec3, cbrt: real -> real): (b: BodyState)
    ensures Physical(b) && b.initializing && !b.launched
    ensures b.position == spawnAt && b.velocity == Zero3
    ensures b.mass == DEFAULT_INIT_MASS && b.density == DEFAULT_DENSITY && b.sizeRatio == DEFAULT_SIZE_RATIO
  {
    WithDerivedRadius(BodyState(spawnAt, Zero3, DEFAULT_INIT_MASS, DEFAULT_DENSITY, 0.0, DEFAULT_SIZE_RATIO, false, false), cbrt)
      .(initializing := true, launched := false)
  }

  /**
   * mouseButtonCallback: a left press when nothing is being authored appends
   * a spawned body; a left release while authoring launches the last body.
   * Anything else changes nothing.
   */
  function OnMouseButton(a: Authoring, button: int, action: int, spawnAt: Vec3, cbrt: real -> real): (r: Authoring)
    ensures AllPhysical(a.bodies) && Lifecycle(a.bodies, a.creating) ==> AllPhysical(r.bodies) && Lifecycle(r.bodies, r.creating)
    ensures button != MOUSE_BUTTON_LEFT ==> r == a
  {
    var s := a.bodies;
    if button != MOUSE_BUTTON_LEFT then a
    else if action == PRESS && !a.creating then
      Authoring(s + [Spawned(spawnAt, cbrt)], true)
    else if action == RELEASE && a.creating && |s| > 0 then
      Authoring(s[|s| - 1 := s[|s| - 1].(initializing := false, launched := true)], false)
    else a
  }

  /**
   * A press followed by a release adds exactly one body to a scene with no
   * body being authored, and that body takes part from then on.
   */
  lemma PressReleaseLaunches(s: seq<BodyState>, spawnAt: Vec3, cbrt: real -> real)
    requires Lifecycle(s, false)
    ensures var r := OnMouseButton(OnMouseButton(Authoring(s, false), MOUSE_BUTTON_LEFT, PRESS, spawnAt, cbrt),
                                   MOUSE_BUTTON_LEFT, RELEASE, spawnAt, cbrt);
            && !r.creating && |r.bodies| == |s| + 1 && r.bodies[..|s|] == s
            && Participates(r.bodies[|s|]) && r.bodies[|s|].position == spawnAt
            && r.bodies[|s|].mass == DEFAULT_INIT_MASS
  {
    var pressed := OnMouseButton(Authoring(s, false), MOUSE_BUTTON_LEFT, PRESS, spawnAt, cbrt);
    assert pressed.bodies == s + [Spawned(spawnAt, cbrt)];
    var r := OnMouseButton(pressed, MOUSE_BUTTON_LEFT, RELEASE, spawnAt, cbrt);
    assert r.bodies[..|s|] == pressed.bodies[..|s|];
  }

  /** A second press while a body is being authored does not spawn another one. */
  lemma PressWhileAuthoringIgnored(a: Authoring, spawnAt: Vec3, cbrt: real -> real)
    requires a.creating
    ensures OnMouseButton(a, MOUSE_BUTTON_LEFT, PRESS, spawnAt, cbrt) == a
  {
  }

  // ---------------------------------------------------------------------------
  // The initial scene

  /** A body of the initial scene: built like the Object constructor does, then marked launched. */
  function SceneBody(position: Vec3, velocity: Vec3, mass: real, cbrt: real -> real): (b: BodyState)
    requires mass > 0.0
    ensures Physical(b) && Participates(b)
    ensures b.position == position && b.velocity == velocity && b.mass == mass
    ensures b == WithDerivedRadius(BodyState(position, velocity, mass, 5515.0, 0.0, DEFAULT_SIZE_RATIO, false, false), cbrt)
                  .(initializing := false, launched := true)
  {
    WithDerivedRadius(BodyState(position, velocity, mass, 5515.0, 0.0, DEFAULT_SIZE_RATIO, false, false), cbrt)
      .(initializing := false, launched := true)
  }

  /** The three bodies the constructor creates, all marked launched: two planets either side of a heavy star. */
  function InitialScene(cbrt: real -> real): (s: seq<BodyState>)
    ensures |s| == 3 && AllPhysical(s) && Lifecycle(s, false)
    ensures s[0].mass == s[1].mass && s[2].mass > s[0].mass
    ensures s[1].position == Vec3(-s[0].position.x, s[0].position.y, s[0].position.z)
    ensures s[1].velocity == Vec3(-s[0].velocity.x, -s[0].velocity.y, -s[0].velocity.z)
  {
    [ SceneBody(Vec3(-5000.0, 650.0, -350.0), Vec3(0.0, 0.0, -500.0), 5.97219e22, cbrt),
      SceneBody(Vec3(5000.0, 650.0, -350.0), Vec3(0.0, 0.0, 500.0), 5.97219e22, cbrt),
      SceneBody(Vec3(0.0, 0.0, -350.0), Vec3(0.0, 0.0, 0.0), 1.989e25, cbrt) ]
  }

  /**
   * The body of the inner loop of update(): partner other accelerates self
   * when far enough, then damps it on overlap. bi and bj are the two bodies
   * as they were when the frame began; positions, masses and radii have not
   * changed since.
   */
  method VisitPartner(self: Object, other: Object, lib: Library, ghost bi: BodyState, ghost bj: BodyState)
    requires self != other && bi.mass != 0.0
    requires self.position == bi.position && self.mass == bi.mass && self.radius == bi.radius
    requires other.position == bj.position && other.mass == bj.mass && other.radius == bj.radius
    modifies self
    ensures self.State() == old(self.State()).(velocity := PairStep(old(self.velocity), bi, bj, lib))
  {
    var diff := Sub3(other.position, self.position);
    var distanceVisual := lib.length(diff);
    if distanceVisual > MIN_DISTANCE {
      var direction := lib.normalize(diff);
      var distM := distanceVisual * METRES_PER_UNIT;
      var forceMag := (G * self.mass * other.mass) / (distM * distM);
      var accMag := forceMag / self.mass;
      var acceleration := Scale3(direction, accMag);
      assert acceleration == PairAcceleration(bi, bj, lib);
      self.Accelerate(acceleration, VELOCITY_STEP_RATIO);
    }
    var collisionFactor := CheckCollision(self.State(), other.State(), lib.length);
    assert collisionFactor == CheckCollision(bi, bj, lib.length);
    if collisionFactor < 1.0 {
      self.velocity := Scale3(self.velocity, collisionFactor);
    }
  }

  /** The grid the constructor creates: 20000 wide with 25 divisions, a flat lattice of 26 lines each way. */
  method NewGrid() returns (g: Grid)
    ensures fresh(g) && g.Valid() && !g.uploaded
    ensures g.gridSize == GRID_SIZE && g.divisions == GRID_DIVISIONS
    ensures |g.vertices| == 12 * GRID_DIVISIONS * (GRID_DIVISIONS + 1) && Flat(g.vertices, g.initialYPlane)
  {
    var size, divs := GRID_SIZE, GRID_DIVISIONS;
    g := new Grid(size, divs);
    LatticeShape(size, divs, g.initialYPlane);
  }

  /** The three Objects the constructor creates, marked launched. */
  method CreateScene(cbrt: real -> real) returns (objs: seq<Object>)
    ensures |objs| == 3 && objs[0] != objs[1] && objs[0] != objs[2] && objs[1] != objs[2]
    ensures fresh(objs[0]) && fresh(objs[1]) && fresh(objs[2])
    ensures [objs[0].State(), objs[1].State(), objs[2].State()] == InitialScene(cbrt)
  {
    var a := new Object(Vec3(-5000.0, 650.0, -350.0), Vec3(0.0, 0.0, -500.0), 5.97219e22, 5515.0, DEFAULT_SIZE_RATIO, cbrt);
    a.initializing, a.launched := false, true;
    assert a.State() == SceneBody(Vec3(-5000.0, 650.0, -350.0), Vec3(0.0, 0.0, -500.0), 5.97219e22, cbrt);
    var b := new Object(Vec3(5000.0, 650.0, -350.0), Vec3(0.0, 0.0, 500.0), 5.97219e22, 5515.0, DEFAULT_SIZE_RATIO, cbrt);
    b.initializing, b.launched := false, true;
    assert b.State() == SceneBody(Vec3(5000.0, 650.0, -350.0), Vec3(0.0, 0.0, 500.0), 5.97219e22, cbrt);
    var c := new Object(Vec3(0.0, 0.0, -350.0), Vec3(0.0, 0.0, 0.0), 1.989e25, 5515.0, DEFAULT_SIZE_RATIO, cbrt);
    c.initializing, c.launched := false, true;
    assert c.State() == SceneBody(Vec3(0.0, 0.0, -350.0), Vec3(0.0, 0.0, 0.0), 1.989e25, cbrt);
    objs := [a, b, c];
  }

  /** No Object occurs twice in objs. */
  ghost predicate DistinctObjects(objs: seq<Object>) {
    forall i, j :: 0 <= i < j < |objs| ==> objs[i] != objs[j]
  }

  /** The states of a sequence of Objects, in order: the 3-D counterpart of BodyStates in the 2-D engine. */
  function ObjectStates(objs: seq<Object>): (s: seq<BodyState>)
    reads objs
    ensures |s| == |objs|
    ensures forall k :: 0 <= k < |objs| ==> s[k] == objs[k].State()
    decreases |objs|
  {
    if objs == [] then [] else ObjectStates(objs[..|objs| - 1]) + [objs[|objs| - 1].State()]
  }

  // ---------------------------------------------------------------------------
  // The GravitySimulation class

  class GravitySimulation {
    var objects: seq<Object>
    var grid: Grid
    var running: bool
    var paused: bool
    var isCreatingObject: bool

    /** The bodies, as values. */
    function Snapshot(): (s: seq<BodyState>)
      reads this, objects
      ensures |s| == |objects|
      ensures forall k :: 0 <= k < |objects| ==> s[k] == objects[k].State()
    {
      ObjectStates(objects)
    }

    /** No Object is stored twice, so updating one body in place never changes another. */
    ghost predicate Distinct()
      reads this
    {
      DistinctObjects(objects)
    }

    ghost predicate Valid()
      reads this, objects, grid
    {
      && grid.Valid()
      && Distinct()
      && AllPhysical(Snapshot())
      && Lifecycle(Snapshot(), isCreatingObject)
    }

    /**
     * The constructor: a 20000-wide grid of 25 divisions, paused; when the
     * window and GL come up, the grid is uploaded and the three bodies of the
     * initial scene are created and launched, otherwise running is cleared and
     * there are no bodies.
     */
    constructor (glReady: bool, cbrt: real -> real)
      ensures Valid() && fresh(grid)
      ensures paused && !isCreatingObject && running == glReady
      ensures grid.gridSize == GRID_SIZE && grid.divisions == GRID_DIVISIONS
      ensures |grid.vertices| == 12 * GRID_DIVISIONS * (GRID_DIVISIONS + 1) && Flat(grid.vertices, grid.initialYPlane)
      ensures grid.uploaded == glReady
      ensures Snapshot() == if glReady then InitialScene(cbrt) else []
    {
      var g := NewGrid();
      objects := [];
      grid := g;
      running := true;
      paused := true;
      isCreatingObject := false;
      new;
      if !glReady {
        running := false;
        return;
      }
      grid.SetupOpenGLResources();
      PopulateScene(cbrt);
    }

    /** The tail of the constructor once GL is up: create the three bodies of the initial scene. */
    method PopulateScene(cbrt: real -> real)
      requires grid.Valid() && !isCreatingObject
      modifies this`objects
      ensures Valid() && Snapshot() == InitialScene(cbrt)
      ensures fresh(objects[0]) && fresh(objects[1]) && fresh(objects[2])
    {
      var objs := CreateScene(cbrt);
      assert DistinctObjects(objs);
      objects := objs;
      assert Snapshot() == InitialScene(cbrt);
    }

    /** update(): grow the body being authored, then (unless paused) the pair and position passes, then warp the grid. */
    method Update(lib: Library, growHeld: bool, deltaTime: real)
      requires Valid()
      modifies objects, grid`vertices
      ensures Valid()
      ensures Snapshot() == Step(old(Snapshot()), paused, isCreatingObject, growHeld, deltaTime, lib)
      ensures grid.vertices == if |old(grid.vertices)| == 0 || !grid.uploaded then old(grid.vertices)
                               else Warped(old(grid.vertices), grid.initialYPlane, Snapshot(), lib.length)
    {
      AdvanceBodies(lib, growHeld, deltaTime);
      var bodies := Snapshot();
      grid.UpdateAndWarp(bodies, lib.length);
    }

    /** The body half of update(): growth, then, unless paused, the pair and position passes. */
    method AdvanceBodies(lib: Library, growHeld: bool, deltaTime: real)
      requires Valid()
      modifies objects
      ensures Valid()
      ensures Snapshot() == Step(old(Snapshot()), paused, isCreatingObject, growHeld, deltaTime, lib)
    {
      ghost var s := Snapshot();
      GrowNewObject(growHeld, deltaTime, lib.cbrt);
      if !paused {
        ApplyPairInteractions(lib);
        MoveBodies();
      }
      StepKeepsLifecycle(s, paused, isCreatingObject, growHeld, deltaTime, lib);
    }

    /** The growth step of update(). */
    method GrowNewObject(growHeld: bool, deltaTime: real, cbrt: real -> real)
      requires Distinct() && AllPhysical(Snapshot())
      modifies objects
      ensures Snapshot() == Grow(old(Snapshot()), isCreatingObject, growHeld, deltaTime, cbrt)
    {
      if isCreatingObject && |objects| > 0 && growHeld {
        ghost var s := Snapshot();
        ghost var r := Grow(s, isCreatingObject, growHeld, deltaTime, cbrt);
        var n := |objects| - 1;
        var newObj := objects[n];
        newObj.mass := newObj.mass * (1.0 + 1.0 * deltaTime);
        ghost var heavier := newObj.State();
        assert heavier == s[n].(mass := s[n].mass * (1.0 + 1.0 * deltaTime));
        assert r[n] == WithDerivedRadius(heavier, cbrt);
        newObj.UpdateRadius(cbrt);
        assert newObj.State() == r[n];
        assert forall k :: 0 <= k < n ==> objects[k] != newObj;
        assert forall k :: 0 <= k < |objects| ==> Snapshot()[k] == r[k];
      }
    }

    /** The nested gravity and collision loops of update(): each participating body's velocity, one partner at a time, in place. */
    method ApplyPairInteractions(lib: Library)
      requires Distinct() && AllPhysical(Snapshot())
      modifies objects
      ensures Snapshot() == PairPass(old(Snapshot()), lib)
    {
      ghost var s := Snapshot();
      ghost var r := PairPass(s, lib);
      var i := 0;
      while i < |objects|
        invariant 0 <= i <= |objects|
        invariant forall k :: 0 <= k < |objects| ==> objects[k].State() == if k < i then r[k] else s[k]
      {
        if !objects[i].initializing && objects[i].launched {
          ApplyPartners(objects, i, lib, s);
        }
        i := i + 1;
      }
      assert Snapshot() == r;
    }

    /** The inner loop for body i: visit every partner j in order, accelerating and damping body i. */
    static method ApplyPartners(objs: seq<Object>, i: nat, lib: Library, ghost s: seq<BodyState>)
      requires DistinctObjects(objs) && AllPhysical(s) && i < |objs| == |s|
      requires Participates(s[i])
      requires forall k :: 0 <= k < |objs| ==> objs[k].State() == if k < i then PairPass(s, lib)[k] else s[k]
      modifies objs
      ensures forall k :: 0 <= k < |objs| ==> objs[k].State() == if k <= i then PairPass(s, lib)[k] else s[k]
    {
      ghost var r := PairPass(s, lib);
      var self := objs[i];
      var j := 0;
      while j < |objs|
        invariant 0 <= j <= |objs|
        invariant self.State() == s[i].(velocity := VelocityAfter(s, i, j, lib))
        modifies self
      {
        var other := objs[j];
        VisitSlot(self, other, i, j, lib, s);
        j := j + 1;
      }
      assert self.State() == r[i];
      assert forall k :: 0 <= k < |objs| && k != i ==> objs[k].State() == old(objs[k].State());
    }

    /** One turn of the inner loop: partner j acts on body i unless it is body i itself or does not take part. */
    static method VisitSlot(self: Object, other: Object, i: nat, j: nat, lib: Library, ghost s: seq<BodyState>)
      requires i < |s| && j < |s| && AllPhysical(s)
      requires self.State() == s[i].(velocity := VelocityAfter(s, i, j, lib))
      requires i != j ==> self != other && other.State() == s[j].(velocity := other.velocity)
      modifies self
      ensures self.State() == s[i].(velocity := VelocityAfter(s, i, j + 1, lib))
    {
      if i != j && !other.initializing && other.launched {
        VisitPartner(self, other, lib, s[i], s[j]);
      }
    }

    /** The position loop of update(). */
    method MoveBodies()
      requires Distinct()
      modifies objects
      ensures Snapshot() == PositionPass(old(Snapshot()))
    {
      ghost var s := Snapshot();
      ghost var r := PositionPass(s);
      var k := 0;
      while k < |objects|
        invariant 0 <= k <= |objects|
        invariant forall m :: 0 <= m < |objects| ==> objects[m].State() == if m < k then r[m] else s[m]
      {
        var obj := objects[k];
        if !obj.initializing && obj.launched {
          obj.UpdatePhysics(POSITION_STEP_RATIO);
        }
        k := k + 1;
      }
      assert Snapshot() == r;
    }

    /** keyCallback of the single-file program: Esc and Q stop the loop, P toggles pause. */
    method KeyCallback(key: int, action: int)
      modifies this`running, this`paused
      ensures Controls(running, paused) == OnKey(Controls(old(running), old(paused)), key, action)
    {
      if key == KEY_ESCAPE && action == PRESS {
        running := false;
      }
      if key == KEY_Q && action == PRESS {
        running := false;
      }
      if key == KEY_P && action == PRESS {
        paused := !paused;
      }
    }

    /** mouseButtonCallback: spawn a body at spawnAt on a left press, launch it on the left release. */
    method MouseButtonCallback(button: int, action: int, spawnAt: Vec3, cbrt: real -> real)
      requires Valid()
      modifies this`objects, this`isCreatingObject, objects
      ensures Valid()
      ensures Authoring(Snapshot(), isCreatingObject)
           == OnMouseButton(Authoring(old(Snapshot()), old(isCreatingObject)), button, action, spawnAt, cbrt)
    {
      if button == MOUSE_BUTTON_LEFT {
        if action == PRESS && !isCreatingObject {
          SpawnObject(spawnAt, cbrt);
        } else if action == RELEASE && isCreatingObject && |objects| > 0 {
          LaunchObject();
        }
      }
    }

    /** The left press: a new Object at spawnAt, appended and marked as being authored. */
    method SpawnObject(spawnAt: Vec3, cbrt: real -> real)
      requires Valid() && !isCreatingObject
      modifies this`objects, this`isCreatingObject
      ensures Valid() && isCreatingObject
      ensures Snapshot() == old(Snapshot()) + [Spawned(spawnAt, cbrt)]
    {
      ghost var s := Snapshot();
      var o := NewAuthoredObject(spawnAt, cbrt);
      assert DistinctObjects(objects + [o]);
      objects := objects + [o];
      isCreatingObject := true;
      assert Snapshot() == s + [Spawned(spawnAt, cbrt)];
    }

    /** The Object a left press creates: built with the defaults, then marked as being authored. */
    static method NewAuthoredObject(spawnAt: Vec3, cbrt: real -> real) returns (o: Object)
      ensures fresh(o) && o.State() == Spawned(spawnAt, cbrt)
    {
      o := new Object(spawnAt, Zero3, DEFAULT_INIT_MASS, DEFAULT_DENSITY, DEFAULT_SIZE_RATIO, cbrt);
      o.initializing := true;
      o.launched := false;
    }

    /** The left release: the body being authored is launched. */
    method LaunchObject()
      requires Valid() && isCreatingObject && |objects| > 0
      modifies this`isCreatingObject, objects
      ensures Valid() && !isCreatingObject
      ensures var s := old(Snapshot()); var n := |s| - 1;
              Snapshot() == s[n := s[n].(initializing := false, launched := true)]
    {
      ghost var s := Snapshot();
      var n := |objects| - 1;
      var last := objects[n];
      last.initializing := false;
      last.launched := true;
      isCreatingObject := false;
      assert forall k :: 0 <= k < n ==> objects[k] != last;
      assert Snapshot() == s[n := s[n].(initializing := false, launched := true)];
    }
  }
}
