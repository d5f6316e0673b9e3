# Gravity simulation — a verified model

This project models the physics core of a small C++/OpenGL gravity
simulator in Dafny. The simulator comes in two variants.

* **The 3-D simulation.** It has three parts:
  - `Object`: a body with position, velocity, mass, density, visual radius
    and the authoring flags `Initializing` and `Launched`.
  - `Grid`: a flat lattice of line segments that sags under the bodies.
  - `GravitySimulation`: owns both. Each frame grows the body being authored,
    runs a pairwise gravity-and-collision pass and moves every launched body,
    then warps the grid. The key and mouse callbacks pause the loop and author
    new bodies.

  The code exists twice, once split into `src/Object.cpp`, `src/Grid.cpp` and
  `src/GravitySimulation.cpp`, and once as the single file `gravity_sim.cpp`.
  The two copies agree on the physics.
* **The 2-D engine.** `Body` accumulates forces and takes a semi-implicit Euler
  step. `PhysicsEngine` applies Newtonian attraction to every unordered pair
  and then advances every body.

## Layout

| module | file | models |
|---|---|---|
| `Vectors` | vectors.dfy | `glm::vec2`/`vec3` arithmetic as real-valued records, and the laws assumed of `length`, `normalize` and the cube root |
| `Constants` | constants.dfy | `Constants::G`, `C`, `DEFAULT_INIT_MASS`, `DEFAULT_SIZE_RATIO`, `PI`, the default density, the step divisors 94 and 96, the collision factors and the 2-D `G` |
| `Objects` | objects.dfy | `Object` |
| `Grids` | grid.dfy | `Grid` |
| `Simulation` | simulation.dfy | `GravitySimulation` |
| `Bodies` | body.dfy | `Body` |
| `Physics` | physics_engine.dfy | `PhysicsEngine` |

## How the model is built

**Classes and their specifications.** Every C++ class whose fields are
updated in place is a Dafny `class` with the same fields. Each has a value
view (`State()`, `Snapshot()`, `States()`), and its methods are proved
against specification functions on those values:
* `Step` for one frame of `GravitySimulation::update`;
* `Warped` for `Grid::updateAndWarp`;
* `Advance` for `PhysicsEngine::update`.

The properties the program relies on are then lemmas about those functions:
* momentum is conserved;
* every pair is visited once, with equal and opposite forces;
* the grid never rises above its plane;
* the authoring life cycle is kept.

`std::vector<Object>` and `std::vector<Body>` hold their elements by value,
so no element is stored twice. The model states this as `DistinctObjects`
and `DistinctBodies`.

**Floating point.** `float` and `double` are modelled as `real`, with no
rounding. The library routines the core calls are parameters: `glm::length`,
`glm::normalize`, and the cube root `std::pow(x, 1/3)`. A lemma that needs
one of their laws says so in its `requires`:
* a length that is symmetric under negation;
* a normalize that is odd;
* a cube root that is positive on positive input.

**Input.** The mouse position and GLFW's polling of the right button are
parameters: the spawn point `spawnAt` and the flag `growHeld`. So are the
frame time `deltaTime` and the step `dt`.

**Where the code differs from the documented design.** The model follows the
code.
* Two bodies closer than 0.001 visual units get no gravitational
  acceleration at all (`src/GravitySimulation.cpp:233`). The distance is not
  floored. They can still collide: see `CoincidentBodiesBounce`.
* `updateRadius` yields a positive radius only for a positive size ratio
  (`src/Object.cpp:101-104`). Every size ratio the program passes is
  positive.
* The first loop of `PhysicsEngine::computeForces` is commented as a reset,
  but it adds a zero force and so changes nothing (`src/PhysicsEngine.cpp:24-27`).
  Forces are actually cleared at the end of `Body::update`, which skips
  bodies without positive mass. `AddZeroForces` models the loop as it is.
* The grid's centre of mass ignores bodies that are being authored, but the
  per-vertex displacement does not (`src/Grid.cpp:60` against `src/Grid.cpp:74-75`).
  `Displacement` sums over every body.
* The split copy gives the two planets initial velocities of ±500 along z
  (`src/GravitySimulation.cpp:67-68`). The single-file copy uses ±1500. The
  model uses the split copy's values.
* The split copy's `keyCallback` only toggles pause. The single-file copy
  also stops on Esc and Q (`gravity_sim.cpp:786-799`), and that is the one
  modelled. The split copy polls Esc and Q in `processInput` instead.

## Model

| member | source | states |
|---|---|---|
| Objects.WithDerivedRadius | src/Object.cpp:96-106 | a non-positive density becomes 3344 and a non-positive mass becomes 10^22; positive values are kept; the result has positive density and mass, and a positive radius whenever the size ratio is positive; nothing but density, mass and radius changes |
| Objects.DerivedRadiusFormula | src/Object.cpp:100-105 | for a positive size ratio and a cube root positive on positive input, the 0.1/sizeRatio floor never fires: radius = cbrt(3m/(4πd))/sizeRatio of the substituted mass and density |
| Objects.DerivedRadiusIdempotent | src/Object.cpp:96-106 | running updateRadius twice gives the same body as running it once |
| Objects.CheckCollision | src/Object.cpp:154-161 | the factor is -0.2 or 1.0, and it is -0.2 exactly when the radius sum exceeds the distance between the centres |
| Objects.CollisionSymmetric | src/Object.cpp:154-161 | with a symmetric length, the two bodies of a pair agree on whether they collide |
| Objects.Object.constructor | src/Object.cpp:8-13 | stores position, velocity, mass, density and size ratio, then applies updateRadius; the new object keeps the positivity invariant and is neither initializing nor launched (include/Object.hpp:18-19) |
| Objects.Object.UpdateRadius | src/Object.cpp:96-106 | the new state is WithDerivedRadius of the old one, so the positivity invariant holds afterwards |
| Objects.Object.UpdatePhysics | src/Object.cpp:146-148 | position moves by velocity / timeStepRatio; nothing else changes, so the positivity invariant is kept |
| Objects.Object.Accelerate | src/Object.cpp:150-152 | velocity changes by acc / timeStepRatio; nothing else changes, so the positivity invariant is kept |
| Grids.LatticeShape | src/Grid.cpp:20-46 | the lattice of d divisions has 12·d·(d+1) floats (2·(d+1) lines of d two-vertex segments) and every vertex lies on y = initialYPlane |
| Grids.XSegmentTopology | src/Grid.cpp:28-33 | within an x-line, each segment ends one step further along x than it starts, at the same y and z |
| Grids.ZSegmentTopology | src/Grid.cpp:38-43 | within a z-line, each segment ends one step further along z than it starts, at the same x and y |
| Grids.CenterOfMassBelow | src/Grid.cpp:57-65 | if every counted body lies at or below height h, and so does the fallback height, the centre-of-mass height does too |
| Grids.Contribution | src/Grid.cpp:74-90 | one body's contribution to a vertex height is never positive; it is a strict dip exactly when the body has positive mass and radius and its horizontal distance, floored at 1 and in metres, exceeds the Schwarzschild radius 2Gm/c², and zero otherwise |
| Grids.ContributionIgnoresFlags | src/Grid.cpp:74-75 | the initializing and launched flags play no part in a body's contribution |
| Grids.Displacement | src/Grid.cpp:72-90 | the summed displacement of a vertex is never positive |
| Grids.WarpedYBelowPlane | src/Grid.cpp:92 | a warped vertex height never rises above initialYPlane |
| Grids.NoMassNoTilt | src/Grid.cpp:57-67 | when every body is being authored, the centre of mass falls back to initialYPlane and the tilt term vanishes |
| Grids.Warped | src/Grid.cpp:69-93 | warping keeps the buffer's length and every x and z slot, and puts every y slot at or below initialYPlane |
| Grids.WarpedHeight | src/Grid.cpp:71-92 | each y slot becomes the warped height at that vertex's own x and z |
| Grids.WarpIdempotent | src/Grid.cpp:69-93 | heights depend only on x, z and the bodies, so warping twice for the same bodies equals warping once |
| Grids.ComputeCenterOfMassY | src/Grid.cpp:57-65 | the loop computes the mass-weighted mean height of the bodies not being authored, or initialYPlane when their total mass is not positive |
| Grids.ComputeDisplacement | src/Grid.cpp:72-90 | the inner loop computes the summed displacement at (x, z) |
| Grids.Grid.constructor | src/Grid.cpp:6-13 | stores size and divisions, sets initialYPlane = -(size/2)·0.3 + 3·size/divisions, and fills the lattice; nothing is uploaded yet |
| Grids.Grid.GenerateInitialVertices | src/Grid.cpp:20-46 | the vertices are all x-lines followed by all z-lines, vertexCount is their number, 12·d·(d+1), and all lie on the plane |
| Grids.Grid.AppendXLines | src/Grid.cpp:25-34 | appends the d+1 x-lines in order of zStep |
| Grids.Grid.AppendZLines | src/Grid.cpp:35-44 | appends the d+1 z-lines in order of xStep |
| Grids.Grid.SetupOpenGLResources | src/Grid.cpp:48-52 | the buffer counts as uploaded afterwards exactly when it already was or there are vertices |
| Grids.Grid.UpdateAndWarp | src/Grid.cpp:54-98 | an empty or not-uploaded grid is left alone; otherwise the vertices become Warped of the old ones for the given bodies |
| Grids.Grid.RewriteHeights | src/Grid.cpp:69-93 | the vertex loop rewrites every y slot in place to its warped height |
| Simulation.AtMostOneAuthored | include/GravitySimulation.hpp:50 | under the authoring life cycle, a body is left out of the physics exactly when it is the last one and a body is being created |
| Simulation.PairPass | src/GravitySimulation.cpp:224-253 | the pair loops change only velocities, and only those of participating bodies; the positivity invariant is kept |
| Simulation.PositionPass | src/GravitySimulation.cpp:255-259 | every participating body moves by velocity / 94; nothing else changes |
| Simulation.Grow | src/GravitySimulation.cpp:213-221 | while a body is authored and the right button is held, that last body's mass is multiplied by 1 + deltaTime and its radius derived again (updateRadius); no other body changes, and no field other than mass, density and radius; positivity is kept |
| Simulation.GrowthIgnoresPause | src/GravitySimulation.cpp:213-223 | growth runs before the pause test: paused or not, the authored body ends the frame grown by 1 + deltaTime with its radius re-derived, untouched by the pair and position passes |
| Simulation.Step | src/GravitySimulation.cpp:212-260 | a frame keeps the number of bodies, their flags and positivity, and never moves a body that does not take part |
| Simulation.StepKeepsLifecycle | src/GravitySimulation.cpp:212-260 | a frame keeps the authoring life cycle: only the last body can be excluded, and only while it is being created |
| Simulation.PausedFreezesMotion | src/GravitySimulation.cpp:223 | while paused no position and no velocity changes |
| Simulation.PausedFramesRepeatGrid | src/GravitySimulation.cpp:223-261 | a paused frame without growth leaves the bodies unchanged, so the next frame's warp reproduces the same grid |
| Simulation.AccelerationIndependentOfOwnMass | src/GravitySimulation.cpp:236-242 | the acceleration of i toward j is G·m_j/d² along the direction to j, with d in metres; m_i cancels |
| Simulation.ActionReaction | src/GravitySimulation.cpp:230-243 | with a symmetric length and an odd normalize, m_i·a_ij = -(m_j·a_ji): the pair accelerations obey Newton's third law |
| Simulation.CoincidentBodiesBounce | src/GravitySimulation.cpp:233-250 | overlapping bodies within the 0.001 cut-off get no acceleration, and the velocity is scaled by -0.2 |
| Simulation.NonParticipantsExertNoPull | src/GravitySimulation.cpp:228 | changing a body that does not take part leaves every other body's new velocity unchanged |
| Simulation.LoneBodyKeepsVelocity | src/GravitySimulation.cpp:227-252 | a body with no participating partner keeps its velocity through the inner loop |
| Simulation.SingleBodyDrifts | src/GravitySimulation.cpp:223-259 | under the authoring life cycle, a frame with a single launched body moves it by velocity / 94 and changes nothing else, whatever the right button does |
| Simulation.OnKey | gravity_sim.cpp:786-799 | running only ever goes from true to false, and does so exactly on a press of Esc or Q; pause flips exactly on a press of P |
| Simulation.PauseToggleInvolution | gravity_sim.cpp:796-798 | two presses of P restore the pause state |
| Simulation.Spawned | src/GravitySimulation.cpp:311-314 | a spawned body is at the spawn point, at rest, with mass 10^22, density 3344 and size ratio 30000; it is physical, initializing and not launched |
| Simulation.OnMouseButton | src/GravitySimulation.cpp:308-326 | the life cycle and positivity are kept by every event, and a button other than the left one changes nothing |
| Simulation.PressReleaseLaunches | src/GravitySimulation.cpp:310-321 | a left press then release adds exactly one body after the existing ones (which are untouched), at the spawn point, with the default mass, and launched |
| Simulation.PressWhileAuthoringIgnored | src/GravitySimulation.cpp:310 | a left press while a body is being authored changes nothing |
| Simulation.SceneBody | src/GravitySimulation.cpp:67-74 | an initial body is built as the Object constructor builds it, with density 5515, and then marked launched; position, velocity and mass are as given |
| Simulation.InitialScene | src/GravitySimulation.cpp:67-74 | three launched bodies: two planets of equal mass at mirrored positions with opposite velocities, and a heavier star |
| Simulation.VisitPartner | src/GravitySimulation.cpp:230-251 | one partner's visit sets body i's velocity to PairStep (accelerate when farther than 0.001, then damp by the collision factor); nothing else of body i changes |
| Simulation.NewGrid | src/GravitySimulation.cpp:12 | the grid is 20000 wide with 25 divisions, not uploaded, and holds 7800 floats on its plane |
| Simulation.CreateScene | src/GravitySimulation.cpp:67-74 | three distinct fresh Objects whose states are the initial scene |
| Simulation.GravitySimulation.constructor | src/GravitySimulation.cpp:10-76 | paused and not authoring; with GL up, the grid is uploaded and the three initial bodies exist; without GL, running is cleared and there are no bodies |
| Simulation.GravitySimulation.PopulateScene | src/GravitySimulation.cpp:67-74 | the bodies become the initial scene and the class invariant holds |
| Simulation.GravitySimulation.Update | src/GravitySimulation.cpp:212-262 | the bodies become Step of the old ones, the grid becomes Warped for the new bodies (unless empty or not uploaded), and the invariant is kept |
| Simulation.GravitySimulation.AdvanceBodies | src/GravitySimulation.cpp:213-260 | the bodies become Step of the old ones and the invariant is kept |
| Simulation.GravitySimulation.GrowNewObject | src/GravitySimulation.cpp:213-221 | the bodies become Grow of the old ones |
| Simulation.GravitySimulation.ApplyPairInteractions | src/GravitySimulation.cpp:224-253 | the bodies become PairPass of the old ones, updated in place one body at a time |
| Simulation.GravitySimulation.ApplyPartners | src/GravitySimulation.cpp:227-252 | after the inner loop for body i, bodies 0..i hold their pair-pass states and the rest are untouched |
| Simulation.GravitySimulation.VisitSlot | src/GravitySimulation.cpp:228-251 | one turn of the inner loop advances body i's velocity by one partner, skipping itself and non-participants |
| Simulation.GravitySimulation.MoveBodies | src/GravitySimulation.cpp:255-259 | the bodies become PositionPass of the old ones |
| Simulation.GravitySimulation.KeyCallback | gravity_sim.cpp:786-799 | running and paused become OnKey of the old flags |
| Simulation.GravitySimulation.MouseButtonCallback | src/GravitySimulation.cpp:308-326 | the bodies and the creating flag become OnMouseButton of the old ones; the invariant is kept |
| Simulation.GravitySimulation.SpawnObject | src/GravitySimulation.cpp:310-315 | a spawned body is appended and the creating flag is set |
| Simulation.GravitySimulation.NewAuthoredObject | src/GravitySimulation.cpp:312-314 | a fresh Object whose state is the spawned body |
| Simulation.GravitySimulation.LaunchObject | src/GravitySimulation.cpp:318-321 | the last body is marked launched and no longer initializing, and the creating flag is cleared |
| Bodies.Integrate | src/Body.cpp:10-19 | a body without positive mass is left exactly as it was; otherwise mass is kept, the force is cleared, and the position moves by the new velocity times dt |
| Bodies.Impulse | src/Body.cpp:13-15 | one step changes a massive body's momentum by exactly F·dt |
| Bodies.Inertia | src/Body.cpp:13-15 | without force, a massive body keeps its velocity and moves by velocity·dt |
| Bodies.Body.constructor | src/Body.cpp:3-4 | stores position, velocity and mass, with no accumulated force |
| Bodies.Body.Copy | src/PhysicsEngine.cpp:8 | the copy made when a Body is stored by value has the same state |
| Bodies.Body.ApplyForce | src/Body.cpp:6-8 | the force is added to the accumulated force; nothing else changes |
| Bodies.Body.Update | src/Body.cpp:10-19 | the new state is Integrate of the old one |
| Physics.FlooredDistance | src/PhysicsEngine.cpp:34-35 | the divisor is at least 1 and at least the distance, and equals the distance when that is at least 1 |
| Physics.MagnitudeBounded | src/PhysicsEngine.cpp:34-38 | for non-negative masses, the force magnitude lies between 0 and G·m_a·m_b |
| Physics.GravityAntisymmetric | src/PhysicsEngine.cpp:31-42 | with a symmetric length and an odd normalize, the force b exerts on a is the negation of the force a exerts on b |
| Physics.NetForceUnchanged | src/PhysicsEngine.cpp:29-44 | the pair loops add a total force of zero over all bodies, whatever the force law |
| Physics.EachPairOnce | src/PhysicsEngine.cpp:29-44 | every unordered pair is visited exactly once: body k gains the pull of every later body and the negated pull on it from every earlier body |
| Physics.ReceivedArePulls | src/PhysicsEngine.cpp:41-42 | for an antisymmetric law, what a body receives from its partners equals the sum of their pulls on it |
| Physics.ForceIsSumOfPulls | src/PhysicsEngine.cpp:29-44 | for an antisymmetric law, computeForces gives every body its old force plus the pull of every other body |
| Physics.TotalImpulse | src/PhysicsEngine.cpp:18-20 | stepping every massive body changes the total momentum by the net force times dt |
| Physics.MomentumConserved | src/PhysicsEngine.cpp:15-21 | an engine step of massive bodies whose accumulated forces cancel conserves total momentum |
| Physics.LaterStepsConserveMomentum | src/PhysicsEngine.cpp:15-21 | after one step of massive bodies all forces are cleared, so every later step conserves total momentum |
| Physics.PhysicsEngine.constructor | include/PhysicsEngine.hpp:13 | a new engine holds no bodies |
| Physics.PhysicsEngine.AddBody | src/PhysicsEngine.cpp:7-9 | a fresh copy of the body is appended; the bodies already held are untouched |
| Physics.PhysicsEngine.Update | src/PhysicsEngine.cpp:15-21 | the bodies become Advance of the old ones under the engine's gravity |
| Physics.PhysicsEngine.IntegrateBodies | src/PhysicsEngine.cpp:18-20 | every body takes one step of the same dt: the states become IntegrateAll of the old ones |
| Physics.PhysicsEngine.ComputeForces | src/PhysicsEngine.cpp:23-45 | the bodies become PairsApplied of the old ones under the engine's gravity |
| Physics.PhysicsEngine.AddZeroForces | src/PhysicsEngine.cpp:24-27 | the "reset" loop changes no body |
| Physics.PhysicsEngine.ApplyRows | src/PhysicsEngine.cpp:29-44 | the outer loop applies every row in order: the states become PairsApplied |
| Physics.PhysicsEngine.ApplyRow | src/PhysicsEngine.cpp:30-43 | the inner loop for row i applies partners i+1..n-1 in order |
| Physics.PhysicsEngine.ApplyPairInPlace | src/PhysicsEngine.cpp:31-42 | one pair visit adds the force to body i and its negation to body j, in place; no other body changes |

## Left out

- Rendering is not modelled: OpenGL buffers, shaders, the camera, `draw`, `render`, `Object::generateSphereVertices`, colours and glow. `Grid::setupOpenGLResources` is modelled only as the `uploaded` flag that stands for `VAO != 0`.
- The camera controls of `processInput`, the mouse-move and scroll callbacks, and `glfwSetWindowShouldClose` are not modelled. They steer the camera or close the window.
- The arrow-key nudging of the body being authored is not modelled (`src/GravitySimulation.cpp:190-209`, `gravity_sim.cpp:703-720`). In the model, an authored body stays at `spawnAt` until it is launched. In the program, the arrow keys move it while it is authored; the grid's displacement sum sees that position, and the body launches from there.
- Console logging is not modelled.
- Float rounding, the `double` casts of the force computation and the `float` step divisors are modelled as exact real arithmetic.
- `glm::length`, `glm::normalize` and `std::pow(x, 1/3)` are parameters, not definitions. Their laws appear only as `requires` on the lemmas that need them. Normalizing a zero vector (two coincident bodies in the 2-D engine) is whatever the `normalize` parameter returns.
- The window and GL start-up of the `GravitySimulation` constructor is the `glReady` flag, so the separate GLFW and GLEW failure paths collapse into one.
- The camera-derived spawn point and the polling of the right mouse button are the parameters `spawnAt` and `growHeld`.
- The single-file copy's initial velocities of ±1500 along z are not modelled. The split copy's ±500 are.
- `PhysicsEngine::getBodies` is not modelled: it returns a mutable reference that callers can change without going through the engine.
- Bodies.Body.GetPosition: the getters `GetPosition`, `GetVelocity` and `GetMass` are field reads with no contract of their own.
- Object copy and move constructors and assignments are not modelled beyond value semantics: they only transfer GL handles besides copying fields.
- `main.cpp` and `Application` are not modelled: they only wire the loop together.
