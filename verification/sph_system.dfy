/** The solver object of SPHSystem.cpp: a store of particles and the passes that update it in place. */
module SPH {
  import opened Vectors
  import opened Particles
  import opened SPHParameters
  import opened Grid
  import opened DensityPressure
  import opened Forces
  import opened Integration

  /**
   * A fresh lattice cannot go to computeForces or integrate: every density is 0.
   * One density pass with a positive mass makes every density positive.
   */
  lemma FreshLatticeNeedsDensityPass(prm: Parameters, numX: int, numY: int, numZ: int, spacing: real)
    requires prm.mass > 0.0
    requires numX > 0 && numY > 0 && numZ > 0
    ensures !DensitiesNonZero(Lattice(numX, numY, numZ, spacing))
    ensures DensitiesNonZero(DensityPressurePass(prm, Lattice(numX, numY, numZ, spacing)))
    ensures NeighbourDensitiesNonZero(DensityPressurePass(prm, Lattice(numX, numY, numZ, spacing)))
  {
    var ps := Lattice(numX, numY, numZ, spacing);
    LatticeAt(numX, numY, numZ, spacing, 0, 0, 0);
    assert ps[0].density == 0.0;
    DensityPositive(prm, ps);
  }

  /**
   * One tick in the order every driver calls the passes: the density pass makes the
   * divisions of the force pass defined, the force pass keeps the densities, so the
   * divisions of the step are defined too, and the step leaves every particle in the box.
   */
  lemma TickWellDefined(prm: Parameters, ps: seq<Particle>, length: Vec3 -> real)
    requires prm.mass > 0.0
    ensures NeighbourDensitiesNonZero(DensityPressurePass(prm, ps))
    ensures DensitiesNonZero(ForcePass(prm, DensityPressurePass(prm, ps), length))
    ensures |IntegratePass(prm, ForcePass(prm, DensityPressurePass(prm, ps), length))| == |ps|
    ensures forall i :: 0 <= i < |ps| ==>
      InBox(IntegratePass(prm, ForcePass(prm, DensityPressurePass(prm, ps), length))[i])
  {
    var densities := DensityPressurePass(prm, ps);
    DensityPositive(prm, ps);
    NonZeroDensitiesSuffice(densities);
    var forced := ForcePass(prm, densities, length);
    forall k | 0 <= k < |forced|
      ensures forced[k].density != 0.0
    {
      ForcePassFields(prm, densities, length, k);
    }
    forall i | 0 <= i < |ps|
      ensures InBox(IntegratePass(prm, forced)[i])
    {
      IntegratePassFields(prm, forced, i);
    }
  }

  class SPHSystem {
    /** std::vector<Particle> particles: index order is the only identity a particle has. */
    var particles: seq<Particle>

    /** The constants of SPHParameters.h the solver is built with. */
    const prm: Parameters

    /** SPHSystem(numX, numY, numZ, spacing): the store starts as the lattice. */
    constructor (numX: int, numY: int, numZ: int, spacing: real)
      ensures prm == ACTIVE
      ensures particles == Lattice(numX, numY, numZ, spacing)
    {
      prm := ACTIVE;
      particles := [];
      new;
      InitializeParticles(numX, numY, numZ, spacing);
    }

    /** Appends the lattice, x-major, then y, then z; a non-positive count adds nothing. */
    method InitializeParticles(numX: int, numY: int, numZ: int, spacing: real)
      modifies this
      ensures particles == old(particles) + Lattice(numX, numY, numZ, spacing)
    {
      ghost var ny, nz := Iterations(numY), Iterations(numZ);
      var x := 0;
      while x < numX
        invariant 0 <= x <= Iterations(numX)
        invariant particles == old(particles) + Slabs(x, ny, nz, spacing)
      {
        ghost var slabs := particles;
        var y := 0;
        while y < numY
          invariant 0 <= y <= ny
          invariant particles == slabs + Slab(x, y, nz, spacing)
        {
          ghost var column := particles;
          var z := 0;
          while z < numZ
            invariant 0 <= z <= nz
            invariant particles == column + Column(x, y, z, spacing)
          {
            var pos := LatticePoint(x, y, z, spacing);
            ColumnGrows(column, x, y, z, spacing);
            particles := particles + [NewParticle(pos)];
            z := z + 1;
          }
          SlabGrows(slabs, x, y, nz, spacing);
          y := y + 1;
        }
        SlabsGrow(old(particles), x, ny, nz, spacing);
        x := x + 1;
      }
    }

    /**
     * Sets every density to the sum of all contributions, the particle's own included,
     * and every pressure by the equation of state. The density is accumulated in place.
     */
    method ComputeDensityPressure()
      modifies this
      ensures particles == DensityPressurePass(prm, old(particles))
    {
      ghost var ps := particles;
      var i := 0;
      while i < |particles|
        invariant |particles| == |ps| && 0 <= i <= |ps|
        invariant forall k :: 0 <= k < i ==> particles[k] == Evaluated(prm, ps, k)
        invariant forall k :: i <= k < |ps| ==> particles[k] == ps[k]
      {
        ghost var start := particles;
        particles := particles[i := particles[i].(density := 0.0)];
        var j := 0;
        while j < |particles|
          invariant 0 <= j <= |particles| == |ps|
          invariant particles == start[i := ps[i].(density := DensitySum(prm, ps, j, ps[i].position))]
        {
          var contribution := Contribution(prm, particles[j].position, particles[i].position);
          particles := particles[i := particles[i].(density := particles[i].density + contribution)];
          j := j + 1;
        }
        particles := particles[i := particles[i].(pressure := EquationOfState(prm, particles[i].density))];
        assert particles == start[i := Evaluated(prm, ps, i)];
        i := i + 1;
      }
      EvaluatedEverywhere(prm, ps, particles);
    }

    /**
     * Replaces every force by the pressure and viscosity terms from every other
     * particle plus gravity; the previous force is never read.
     */
    method ComputeForces(length: Vec3 -> real)
      requires NeighbourDensitiesNonZero(particles)
      modifies this
      ensures particles == ForcePass(prm, old(particles), length)
    {
      ghost var ps := particles;
      var i := 0;
      while i < |particles|
        invariant |particles| == |ps| && 0 <= i <= |ps|
        invariant forall k :: 0 <= k < i ==> particles[k] == ps[k].(force := ForceOn(prm, ps, k, length))
        invariant forall k :: i <= k < |ps| ==> particles[k] == ps[k]
        invariant forall k :: 0 <= k < |ps| ==> SameButForce(particles[k], ps[k])
      {
        ghost var start := particles;
        var pi := particles[i];
        var pressureForce := ZERO;
        var viscosityForce := ZERO;
        var gravityForce := GravityForce(prm, pi);
        var j := 0;
        while j < |particles|
          invariant particles == start && 0 <= j <= |particles|
          invariant pressureForce == PressureSum(prm, ps, i, j, length)
          invariant viscosityForce == ViscositySum(prm, ps, i, j, length)
        {
          if j != i {
            var pj := particles[j];
            TermsIgnoreForce(prm, pi, pj, ps[i], ps[j], length);
            pressureForce := Add(pressureForce, PressureTerm(prm, pi, pj, length));
            viscosityForce := Add(viscosityForce, ViscosityTerm(prm, pi, pj, length));
          }
          j := j + 1;
        }
        assert Add(Add(pressureForce, viscosityForce), gravityForce) == ForceOn(prm, ps, i, length);
        particles := particles[i := pi.(force := Add(Add(pressureForce, viscosityForce), gravityForce))];
        i := i + 1;
      }
      ForcedEverywhere(prm, ps, particles, length);
    }

    /** Moves every particle by one semi-implicit Euler step and clamps it to the unit box. */
    method Integrate()
      requires DensitiesNonZero(particles)
      modifies this
      ensures particles == IntegratePass(prm, old(particles))
    {
      ghost var ps := particles;
      var n := 0;
      while n < |particles|
        invariant |particles| == |ps| && 0 <= n <= |ps|
        invariant forall k :: 0 <= k < n ==> particles[k] == Integrated(prm, ps[k])
        invariant forall k :: n <= k < |ps| ==> particles[k] == ps[k]
      {
        var p := particles[n];
        var acceleration := Div(p.force, p.density);
        p := p.(velocity := Add(p.velocity, Scale(prm.timeStep, acceleration)));
        p := p.(position := Add(p.position, Scale(prm.timeStep, p.velocity)));
        var i := 0;
        while i < 3
          invariant 0 <= i <= 3
          invariant p == BounceAxes(Kicked(prm, ps[n]), i)
        {
          if Component(p.position, i) < Component(BOUNDS_MIN, i) {
            p := p.(position := WithComponent(p.position, i, Component(BOUNDS_MIN, i)),
                    velocity := WithComponent(p.velocity, i, Component(p.velocity, i) * INTEGRATE_DAMPING));
          } else if Component(p.position, i) > Component(BOUNDS_MAX, i) {
            p := p.(position := WithComponent(p.position, i, Component(BOUNDS_MAX, i)),
                    velocity := WithComponent(p.velocity, i, Component(p.velocity, i) * INTEGRATE_DAMPING));
          }
          i := i + 1;
        }
        particles := particles[n := p];
        n := n + 1;
      }
      IntegratedEverywhere(prm, ps, particles);
    }
  }
}
