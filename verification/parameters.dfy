/** The physical constants of SPHParameters.h. */
module SPHParameters {

  /** One complete set of the named constants. */
  datatype ParameterSet = ParameterSet(
    restDensity: real,
    gasConstant: real,
    viscosity: real,
    timeStep: real,
    mass: real,
    smoothingRadius: real,
    gravity: real,
    damping: real)

  /** A parameter set the kernels accept: its smoothing radius is positive. */
  type Parameters = p: ParameterSet | p.smoothingRadius > 0.0
    witness ParameterSet(1000.0, 2000.0, 0.1, 0.005, 0.02, 0.045, -9.81, -0.5)

  const REST_DENSITY: real := 1000.0
  const GAS_CONSTANT: real := 2000.0
  const VISCOSITY: real := 0.1
  const TIME_STEP: real := 0.005
  const MASS: real := 0.02
  const SMOOTHING_RADIUS: real := 0.045
  const GRAVITY: real := -9.81
  const DAMPING: real := -0.5

  /** The set the solver is compiled with, as one value. */
  const ACTIVE: ParameterSet := ParameterSet(
    REST_DENSITY, GAS_CONSTANT, VISCOSITY, TIME_STEP, MASS, SMOOTHING_RADIUS, GRAVITY, DAMPING)

  /** The commented-out alternative set, kept as a preset of its own. */
  const ALTERNATIVE: ParameterSet :=
    ParameterSet(1000.0, 500.0, -0.5, 0.005, 0.02, 0.045, 0.0, -0.9)

  /**
   * What the solver's guarantees rest on: positive mass, kernel radius, stiffness
   * and time step, and a damping factor that reverses and shrinks a velocity.
   */
  predicate WellPosed(p: ParameterSet) {
    && p.mass > 0.0
    && p.smoothingRadius > 0.0
    && p.gasConstant > 0.0
    && p.timeStep > 0.0
    && -1.0 < p.damping < 0.0
  }

  lemma ActiveWellPosed()
    ensures WellPosed(ACTIVE)
    ensures MASS > 0.0 && SMOOTHING_RADIUS > 0.0 && GAS_CONSTANT > 0.0 && TIME_STEP > 0.0
    ensures DAMPING == -0.5
  {
  }

  /** The alternative preset is well posed too, but has negative viscosity and no gravity. */
  lemma AlternativePreset()
    ensures WellPosed(ALTERNATIVE)
    ensures ALTERNATIVE.viscosity < 0.0 && ALTERNATIVE.gravity == 0.0
    ensures ALTERNATIVE != ACTIVE
  {
  }
}
