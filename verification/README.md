# SPH fluid solver — a Dafny model

This project models the CPU core of a small smoothed-particle-hydrodynamics (SPH)
fluid solver. The solver object `SPHSystem` owns a vector of `Particle` records.
Its constructor lays the particles out on a lattice. Three passes then make up one
simulation tick:

- `computeDensityPressure` sums Poly6 kernel contributions over every pair,
  self included, and applies the equation of state;
- `computeForces` sums Spiky-gradient pressure terms and viscosity-Laplacian
  terms over every other particle and adds gravity;
- `integrate` takes a semi-implicit Euler step and clamps every coordinate into
  the unit box, damping the velocity of each clamped axis.

The physical constants live in a header of `const float`s, with a second,
commented-out preset.

Each file of the model has the form of the code it models:

- `vectors.dfy` (`Vectors`): `glm::vec3` as a datatype over `real`, with the
  vector operations the solver uses. Vector length is a predicate
  `IsLength` on a function parameter, and its consequences are proved as lemmas.
- `particle.dfy` (`Particles`): the five-field particle record and its
  constructor.
- `parameters.dfy` (`SPHParameters`): the active constants, the commented preset
  as the separate value `ALTERNATIVE`, and the subset type `Parameters`
  (positive smoothing radius) that the passes take.
- `kernels.dfy` (`Kernels`): the three kernels as pure functions, with their
  support and sign lemmas.
- `grid.dfy` (`Grid`): the lattice `initializeParticles` appends, as a function,
  with its size and indexing lemmas.
- `density.dfy`, `forces.dfy`, `integrate.dfy`: each pass as a function of the
  store before it (`DensityPressurePass`, `ForcePass`, `IntegratePass`), and the
  properties of that function.
- `pair.dfy` (`PairBalance`): the two-particle balance of the pressure and
  viscosity forces.
- `sph_system.dfy` (`SPH`): class `SPHSystem`. It has a `particles: seq<Particle>`
  field and the constructor and passes as methods. Their loops update the store
  in place, as the C++ loops do. Each method is proved to leave exactly the
  store that the matching pass function describes.

## Model

| member | source | states |
|---|---|---|
| Particles.Particle | particle.h:4-10 | the record: position, velocity and force vectors, density and pressure; a plain value, so a particle is known only by its index in the store |
| Particles.NewParticle | particle.h:11-12 | no contract; the body is the constructor: the given position, zero velocity and force, zero density and pressure |
| Grid.Lattice | SPHSystem.cpp:8-21 | no contract of its own; the body is the triple loop's output, x-major, then y, then z; `LatticeSize` and `LatticeAt` below state its length and every element |
| SPH.SPHSystem.constructor | SPHSystem.cpp:3-5 | the new system holds the active constants, and its store is exactly the lattice for the given counts and spacing |
| SPH.SPHSystem.InitializeParticles | SPHSystem.cpp:8-21 | appends the lattice to the store, x-major, then y, then z; the loop invariants carry the partial slabs, slab and column |
| Grid.LatticeSize | SPHSystem.cpp:9-11 | the lattice has numX*numY*numZ particles when all three counts are positive and none otherwise |
| Grid.LatticeAt | SPHSystem.cpp:12-17 | index (x*numY + y)*numZ + z is in range and holds a fresh particle at (x*spacing, y*spacing, z*spacing) |
| Grid.SlabsAt | SPHSystem.cpp:9-17 | within the first l slabs, offset x*(numY*numZ) + y*numZ + z holds the particle at (x, y, z) |
| Grid.SlabsLength | SPHSystem.cpp:9-11 | l slabs hold l*(numY*numZ) particles |
| Grid.SlabsEmpty | SPHSystem.cpp:10-11 | a zero y or z count emits nothing, however many x slabs |
| SPH.FreshLatticeNeedsDensityPass | particle.h:11-12 | a fresh lattice has a zero density, so it is not yet fit for the divisions; one density pass with positive mass makes every density non-zero |
| SPH.TickWellDefined | main.cpp:49-51 | in the drivers' order density, forces, integrate, with positive mass: the density pass makes the neighbour densities non-zero, the force pass keeps every density non-zero, and the step keeps the count and leaves every particle in the unit box |
| Kernels.Poly6Kernel | SPHSystem.cpp:23-30 | requires h > 0 (the division by pow(h, 9)); no contract beyond that; `Poly6Support` and `Poly6AtZero` state its support and sign |
| Kernels.SpikyGradient | SPHSystem.cpp:46-52 | requires h > 0; no contract beyond that; `SpikyGradientVanishes`, `SpikyGradientDirection` and `SpikyGradientOdd` state its zeros, direction and oddness |
| Kernels.ViscosityLaplacian | SPHSystem.cpp:54-58 | requires h > 0; no contract beyond that; `ViscosityLaplacianSupport` states its support and sign |
| Kernels.Pow | SPHSystem.cpp:28 | pow of a positive base is positive |
| Kernels.Poly6Support | SPHSystem.cpp:23-30 | poly6 is exactly 0 for r² >= h², strictly positive below, and never negative |
| Kernels.Poly6AtZero | SPHSystem.cpp:23-30 | poly6 at distance 0 is positive for h > 0 |
| Kernels.ViscosityLaplacianSupport | SPHSystem.cpp:54-58 | the Laplacian is 0 for r >= h and strictly positive for r < h |
| Kernels.SpikyGradientVanishes | SPHSystem.cpp:46-52 | the gradient is the zero vector at r == 0, at r == h and beyond h |
| Kernels.SpikyMagnitudeNegative | SPHSystem.cpp:50-51 | the scalar factor coeff*(h - r)² is negative inside the support |
| Kernels.SpikyGradientDirection | SPHSystem.cpp:46-52 | for 0 < r < h the gradient is a strictly negative multiple of the offset |
| Kernels.SpikyGradientOdd | SPHSystem.cpp:46-52 | the gradient is odd: at -rij it is the negation of the gradient at rij |
| Kernels.SpikyGradientOddWhenEven | SPHSystem.cpp:46-52 | the gradient is odd for any length function that is even |
| Vectors.LengthZeroIff | SPHSystem.cpp:47 | a Euclidean length is non-negative and vanishes exactly at the zero vector |
| Vectors.LengthOfNeg | SPHSystem.cpp:47 | a Euclidean length is even |
| Vectors.DotSubSymmetric | SPHSystem.cpp:37-38 | the squared distance from i to j equals that from j to i |
| SPH.SPHSystem.ComputeDensityPressure | SPHSystem.cpp:33-43 | the in-place loops leave exactly the density-pressure pass of the old store |
| DensityPressure.DensityPressurePass | SPHSystem.cpp:33-43 | the pass over a whole store, as a function; its own contract is only that the count is kept; the body is lines 34-42, one particle at a time; the lemmas below state each field |
| DensityPressure.DensityPressurePassFields | SPHSystem.cpp:34-42 | count and order are kept; position, velocity and force are unchanged; density is the all-pairs sum, self included; pressure follows the equation of state |
| DensityPressure.EvaluatedEverywhere | SPHSystem.cpp:34-42 | a store whose every particle is evaluated in order is the pass's result |
| DensityPressure.DensityPositive | SPHSystem.cpp:36-39 | with positive mass, every density is at least the particle's own contribution, which is positive; so every density is non-zero |
| DensityPressure.DensitySumBelow | SPHSystem.cpp:36-39 | with positive mass a partial density sum is non-negative and at least each of its terms |
| DensityPressure.SelfContribution | SPHSystem.cpp:37-39 | a particle's own contribution is MASS * poly6(0, h), whatever its position |
| DensityPressure.SelfContributionPositive | SPHSystem.cpp:37-39 | with positive mass the self contribution is positive |
| DensityPressure.SelfContributionUniform | SPHSystem.cpp:37-39 | every particle contributes the same amount to itself |
| DensityPressure.ContributionNonNegative | SPHSystem.cpp:37-39 | with positive mass no contribution is negative |
| DensityPressure.ContributionSymmetric | SPHSystem.cpp:37-39 | j contributes to i exactly what i contributes to j |
| DensityPressure.DensityReadsOnlyPositions | SPHSystem.cpp:34-42 | two stores with the same positions get the same densities and pressures: no other field is read |
| DensityPressure.DensitySumReadsPositions | SPHSystem.cpp:36-39 | a partial density sum depends on positions alone |
| DensityPressure.SingleParticleDensity | SPHSystem.cpp:34-42 | a lone particle's density is its own contribution, and its pressure follows from that |
| DensityPressure.EquationOfStateMonotone | SPHSystem.cpp:41 | with a positive gas constant, pressure rises strictly with density, is zero exactly at rest density and negative exactly below it |
| DensityPressure.EvaluatedPrefixAt | SPHSystem.cpp:34-42 | particle k of the first n evaluated ones is particle k evaluated |
| SPH.SPHSystem.ComputeForces | SPHSystem.cpp:60-83 | the in-place loops leave exactly the force pass of the old store |
| Forces.ForcePass | SPHSystem.cpp:60-83 | the pass over a whole store, as a function; requires the neighbour densities to be non-zero; its own contract is only that the count is kept; the lemmas below state each field |
| Forces.ForcePassFields | SPHSystem.cpp:60-83 | count and order are kept; only force changes, and it becomes pressure sum + viscosity sum + gravity over all j != i |
| Forces.ForcedEverywhere | SPHSystem.cpp:61-82 | a store whose every particle carries its new force in order is the pass's result |
| Forces.ForcedPrefixAt | SPHSystem.cpp:61-82 | particle k of the first n forced ones is particle k with its new force |
| Forces.GravityForce | SPHSystem.cpp:64 | gravity is (0, GRAVITY*density, 0), pointing down for negative GRAVITY and positive density |
| Forces.ForceIgnoresPreviousForce | SPHSystem.cpp:60-83 | two stores that differ only in forces give the same result: the old force is never read |
| Forces.PressureSumIgnoresForces | SPHSystem.cpp:66-74 | the pressure sum does not read forces |
| Forces.ViscositySumIgnoresForces | SPHSystem.cpp:76-78 | the viscosity sum does not read forces |
| Forces.TermsIgnoreForce | SPHSystem.cpp:69-78 | both pair terms are unchanged when only the forces of the pair differ |
| Forces.LoneParticleForce | SPHSystem.cpp:62-81 | a lone particle skips itself and feels gravity only |
| Forces.LoneParticleSums | SPHSystem.cpp:66-67 | for a lone particle both neighbour sums are zero |
| Forces.NonZeroDensitiesSuffice | SPHSystem.cpp:72-78 | non-zero densities everywhere make every division by a neighbour's density defined |
| Forces.PressureCoefficientSymmetric | SPHSystem.cpp:74 | at equal densities the pressure coefficient is symmetric in the pair |
| Forces.PressureTermAntisymmetric | SPHSystem.cpp:69-74 | at equal densities the pressure term on a from b is the negation of that on b from a |
| Forces.VelocityPullAntisymmetric | SPHSystem.cpp:78 | at equal densities the velocity pull of b on a is the negation of that of a on b |
| Forces.ViscosityTermAntisymmetric | SPHSystem.cpp:69-78 | at equal densities the viscosity term on a from b is the negation of that on b from a |
| Forces.ViscosityTermAntisymmetricWhenEven | SPHSystem.cpp:76-78 | the same, for any weight that is symmetric in the pair |
| PairBalance.PairDensity | SPHSystem.cpp:36-39 | in a pair, each density is its own contribution plus its partner's |
| PairBalance.TwoParticleDensities | SPHSystem.cpp:34-42 | after the density pass the two particles of a pair have equal densities |
| PairBalance.PairSums | SPHSystem.cpp:66-78 | in a pair, each neighbour sum is the single term from the partner |
| PairBalance.TwoParticleForceBalance | SPHSystem.cpp:60-83 | after the density pass, the pair's pressure forces are equal and opposite, and so are their viscosity forces |
| SPH.SPHSystem.Integrate | SPHSystem.cpp:85-109 | the in-place loop and the per-axis clamp loop leave exactly the integration pass of the old store |
| Integration.IntegratePass | SPHSystem.cpp:85-109 | the pass over a whole store, as a function; requires every density to be non-zero; its own contract is only that the count is kept; the lemmas below state each particle |
| Integration.IntegratePassFields | SPHSystem.cpp:85-109 | count and order are kept; each particle is integrated on its own, ends inside the unit box, and keeps density, pressure and force |
| Integration.IntegratedEverywhere | SPHSystem.cpp:90-108 | a store whose every particle is integrated in order is the pass's result |
| Integration.IntegratedPrefixAt | SPHSystem.cpp:90-108 | particle k of the first n integrated ones is particle k integrated |
| Integration.IntegratedAxis | SPHSystem.cpp:92-107 | velocity += force/density*TIME_STEP, then position += new velocity*TIME_STEP; an axis below 0 or above 1 is set to that bound with velocity -0.5 times the stepped value; an axis inside keeps the stepped values |
| Integration.IntegratedInBox | SPHSystem.cpp:99-107 | every integrated particle lies in [0,1]³ |
| Integration.BounceAxisEffect | SPHSystem.cpp:100-106 | one clamp step settles its own axis and touches no other axis or field |
| Integration.BounceAxesEffect | SPHSystem.cpp:99-107 | after axes 0..n-1 each of them is settled by its own coordinate alone; the rest are untouched |
| Integration.BounceInsideIsIdentity | SPHSystem.cpp:99-107 | the clamp changes nothing for a particle already in the box |
| Integration.DampingReversesAndShrinks | SPHSystem.cpp:86 | damping reverses a velocity component and shrinks it; integrate's own factor equals the header's DAMPING |
| SPHParameters.ACTIVE | SPHParameters.h:3-10 | the eight active constants as one parameter set, with the same values |
| SPHParameters.ALTERNATIVE | SPHParameters.h:12-19 | the eight commented-out constants as a second parameter set, with the same values |
| SPHParameters.ActiveWellPosed | SPHParameters.h:3-10 | the active set has positive mass, radius, gas constant and time step, and damping -0.5 in (-1, 0) |
| SPHParameters.AlternativePreset | SPHParameters.h:12-19 | the commented preset is a distinct set, with negative viscosity and zero gravity |

## Left out

- Floating point: `float` is modelled as `real`. Rounding, overflow, NaN and
  infinity are not modelled, and neither is stability over many ticks.
- `glm::length` is not defined, because the model has no square root over
  `real`. It is a parameter `length` of the force pass. The lemmas that need
  Euclidean behaviour require `IsLength(length)`: `length(v) >= 0` and
  `length(v)² == dot(v, v)`.
- `M_PI` is the real literal 3.14159265358979323846. `pow(h, n)` is repeated
  multiplication.
- The kernels require `h > 0`, because they divide by a power of `h`. The passes
  take a parameter set of type `Parameters`, whose smoothing radius is positive.
- The class reads its constants from its `prm` field. The header's namespace-scope
  `const float` globals are modelled as one `ParameterSet` value, `ACTIVE`, which
  the constructor stores in `prm`.
- SPH.SPHSystem.ComputeForces: requires that every density a neighbour is read
  with is non-zero. The C++ code has no such guard and would divide by zero.
  `DensityPositive` and `FreshLatticeNeedsDensityPass` show that one density pass
  with positive mass establishes this, and `TickWellDefined` that it holds along
  the drivers' call order, for `Integrate` as well.
- SPH.SPHSystem.Integrate: requires every density to be non-zero, for the same
  reason.
- SPH.SPHSystem.Integrate: works on a local copy of the particle and writes it
  back. The C++ loop updates it through a reference. The store after the loop is
  the same.
- SPH.SPHSystem.ComputeDensityPressure: each contribution is written as the
  function `Contribution`, which computes `rij`, `r2` and `MASS * poly6` as
  lines 37-39 do. The gas-constant line is written as `EquationOfState`.
- There is no configuration-error path. Non-positive grid counts give an empty
  store, as in the code.
- `integrate` declares its own damping -0.5 and the bounds [0,1]³ rather than
  reading `DAMPING`. The model keeps these separate constants.
  `DampingReversesAndShrinks` shows that the damping agrees with the active set's
  `DAMPING`. The bounds have no counterpart in the header.
- The alternative preset is kept as a value. No constructor uses it, just as no
  code path uses it in the source.
- SPHSystem.h declares a zero-argument constructor and `initializeParticles()`
  that do not match the definitions, and a destructor that is never defined.
  Only the definitions in SPHSystem.cpp are modelled.
- The windowing, rendering, shader, GPU and test programs are not part of this
  model, and neither is the foam and depth-sorting effect in the lighting demo.
