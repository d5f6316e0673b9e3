/** The simulator's physical and tuning constants, as real numbers. */
module Constants {
  /** Newtonian gravitational constant used by the 3-D simulation. */
  const G: real := 6.6743e-11
  /** Speed of light. */
  const C: real := 299792458.0
  /** Seed mass of a body spawned interactively, and the substitute for a non-positive mass. */
  const DEFAULT_INIT_MASS: real := 1.0e22
  /** Divisor from physical radius to visual radius. */
  const DEFAULT_SIZE_RATIO: real := 30000.0
  /** The single-precision value of pi the source uses. */
  const PI: real := 3.14159265359
  /** Default density of an Object, and the substitute for a non-positive density. */
  const DEFAULT_DENSITY: real := 3344.0
  /** Default divisor of Object::updatePhysics. */
  const POSITION_STEP_RATIO: real := 94.0
  /** Default divisor of Object::accelerate. */
  const VELOCITY_STEP_RATIO: real := 96.0
  /** checkCollision's result for overlapping bodies, and the damping factor applied. */
  const COLLISION_FACTOR: real := -0.2
  /** checkCollision's result for separated bodies. */
  const NO_COLLISION: real := 1.0
  /** Gravitational constant of the 2-D physics engine. */
  const G_2D: real := 100.0
}
