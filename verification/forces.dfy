/** The force pass, SPHSystem::computeForces, as a function of the store. */
module Forces {
  import opened Vectors
  import opened Particles
  import opened SPHParameters
  import opened Kernels

  /**
   * Every division the pass performs is defined: the density of each particle
   * that some other particle reads as its neighbour `pj` is non-zero. With two or
   * more particles that is every particle; a lone particle is nobody's neighbour.
   */
  predicate NeighbourDensitiesNonZero(ps: seq<Particle>) {
    |ps| <= 1 || DensitiesNonZero(ps)
  }

  lemma NonZeroDensitiesSuffice(ps: seq<Particle>)
    requires DensitiesNonZero(ps)
    ensures NeighbourDensitiesNonZero(ps)
  {
  }

  /** The scalar factor of the pressure force `pj` exerts on `pi`. */
  function PressureCoefficient(prm: Parameters, pi: Particle, pj: Particle): real
    requires pj.density != 0.0
  {
    -prm.mass * (pi.pressure + pj.pressure) / (2.0 * pj.density)
  }

  /** The pressure force `pj` exerts on `pi`. */
  function PressureTerm(prm: Parameters, pi: Particle, pj: Particle, length: Vec3 -> real): Vec3
    requires pj.density != 0.0
  {
    var gradW := SpikyGradient(Sub(pi.position, pj.position), prm.smoothingRadius, length);
    Scale(PressureCoefficient(prm, pi, pj), gradW)
  }

  /** The viscosity kernel's Laplacian at the distance between `pi` and `pj`. */
  function ViscosityWeight(prm: Parameters, pi: Particle, pj: Particle, length: Vec3 -> real): real {
    ViscosityLaplacian(length(Sub(pi.position, pj.position)), prm.smoothingRadius)
  }

  /** VISCOSITY * MASS * (pj.velocity - pi.velocity) / pj.density */
  function VelocityPull(prm: Parameters, pi: Particle, pj: Particle): Vec3
    requires pj.density != 0.0
  {
    Div(Scale(prm.viscosity * prm.mass, Sub(pj.velocity, pi.velocity)), pj.density)
  }

  /** The viscosity force `pj` exerts on `pi`. */
  function ViscosityTerm(prm: Parameters, pi: Particle, pj: Particle, length: Vec3 -> real): Vec3
    requires pj.density != 0.0
  {
    Scale(ViscosityWeight(prm, pi, pj, length), VelocityPull(prm, pi, pj))
  }

  /** The pressure terms on particle i from particles 0 .. n-1, particle i skipped. */
  function PressureSum(prm: Parameters, ps: seq<Particle>, i: nat, n: nat, length: Vec3 -> real): Vec3
    requires i < |ps| && n <= |ps|
    requires NeighbourDensitiesNonZero(ps)
  {
    if n == 0 then ZERO
    else if n - 1 == i then PressureSum(prm, ps, i, n - 1, length)
    else Add(PressureSum(prm, ps, i, n - 1, length), PressureTerm(prm, ps[i], ps[n - 1], length))
  }

  /** The viscosity terms on particle i from particles 0 .. n-1, particle i skipped. */
  function ViscositySum(prm: Parameters, ps: seq<Particle>, i: nat, n: nat, length: Vec3 -> real): Vec3
    requires i < |ps| && n <= |ps|
    requires NeighbourDensitiesNonZero(ps)
  {
    if n == 0 then ZERO
    else if n - 1 == i then ViscositySum(prm, ps, i, n - 1, length)
    else Add(ViscositySum(prm, ps, i, n - 1, length), ViscosityTerm(prm, ps[i], ps[n - 1], length))
  }

  /** Gravity acts along y alone, in proportion to density, and points down for a positive density. */
  function GravityForce(prm: Parameters, p: Particle): (g: Vec3)
    ensures g.x == 0.0 && g.z == 0.0 && g.y == prm.gravity * p.density
    ensures prm.gravity < 0.0 && p.density > 0.0 ==> g.y < 0.0
  {
    Scale(p.density, Vec3(0.0, prm.gravity, 0.0))
  }

  /** The force the pass assigns to particle i. */
  function ForceOn(prm: Parameters, ps: seq<Particle>, i: nat, length: Vec3 -> real): Vec3
    requires i < |ps|
    requires NeighbourDensitiesNonZero(ps)
  {
    Add(Add(PressureSum(prm, ps, i, |ps|, length), ViscositySum(prm, ps, i, |ps|, length)), GravityForce(prm, ps[i]))
  }

  /** The first n particles once the pass has assigned their forces. */
  function ForcedPrefix(prm: Parameters, ps: seq<Particle>, n: nat, length: Vec3 -> real): (r: seq<Particle>)
    requires n <= |ps|
    requires NeighbourDensitiesNonZero(ps)
    ensures |r| == n
  {
    if n == 0 then [] else ForcedPrefix(prm, ps, n - 1, length) + [ps[n - 1].(force := ForceOn(prm, ps, n - 1, length))]
  }

  /** The store after computeForces: every force replaced, every particle read from the store before it. */
  function ForcePass(prm: Parameters, ps: seq<Particle>, length: Vec3 -> real): (r: seq<Particle>)
    requires NeighbourDensitiesNonZero(ps)
    ensures |r| == |ps|
  {
    ForcedPrefix(prm, ps, |ps|, length)
  }

  lemma {:induction false} ForcedPrefixAt(prm: Parameters, ps: seq<Particle>, n: nat, length: Vec3 -> real, i: nat)
    requires n <= |ps|
    requires NeighbourDensitiesNonZero(ps)
    ensures i < n ==> ForcedPrefix(prm, ps, n, length)[i] == ps[i].(force := ForceOn(prm, ps, i, length))
  {
    if n > 0 {
      ForcedPrefixAt(prm, ps, n - 1, length, i);
    }
  }

  /** A store holding every particle with its new force, in order, is the store after the pass. */
  lemma ForcedEverywhere(prm: Parameters, ps: seq<Particle>, qs: seq<Particle>, length: Vec3 -> real)
    requires NeighbourDensitiesNonZero(ps)
    requires |qs| == |ps|
    requires forall k :: 0 <= k < |ps| ==> qs[k] == ps[k].(force := ForceOn(prm, ps, k, length))
    ensures qs == ForcePass(prm, ps, length)
  {
    forall k | 0 <= k < |ps|
      ensures qs[k] == ForcePass(prm, ps, length)[k]
    {
      ForcedPrefixAt(prm, ps, |ps|, length, k);
    }
  }

  /** The pass writes the force of every particle and no other field, keeping count and order. */
  lemma ForcePassFields(prm: Parameters, ps: seq<Particle>, length: Vec3 -> real, i: nat)
    requires NeighbourDensitiesNonZero(ps)
    requires i < |ps|
    ensures |ForcePass(prm, ps, length)| == |ps|
    ensures ForcePass(prm, ps, length)[i].position == ps[i].position
    ensures ForcePass(prm, ps, length)[i].velocity == ps[i].velocity
    ensures ForcePass(prm, ps, length)[i].density == ps[i].density
    ensures ForcePass(prm, ps, length)[i].pressure == ps[i].pressure
    ensures ForcePass(prm, ps, length)[i].force == ForceOn(prm, ps, i, length)
  {
    ForcedPrefixAt(prm, ps, |ps|, length, i);
  }

  /** Two particles that differ at most in their force. */
  predicate SameButForce(p: Particle, q: Particle) {
    p.position == q.position && p.velocity == q.velocity && p.density == q.density && p.pressure == q.pressure
  }

  /** Two stores that differ at most in their forces. */
  predicate SameButForces(ps: seq<Particle>, qs: seq<Particle>) {
    |ps| == |qs| && forall k :: 0 <= k < |ps| ==> SameButForce(ps[k], qs[k])
  }

  lemma TermsIgnoreForce(prm: Parameters, a: Particle, b: Particle, c: Particle, d: Particle, length: Vec3 -> real)
    requires SameButForce(a, c) && SameButForce(b, d)
    requires b.density != 0.0
    ensures PressureTerm(prm, a, b, length) == PressureTerm(prm, c, d, length)
    ensures ViscosityTerm(prm, a, b, length) == ViscosityTerm(prm, c, d, length)
  {
    assert PressureCoefficient(prm, a, b) == PressureCoefficient(prm, c, d);
    assert Sub(a.position, b.position) == Sub(c.position, d.position);
    assert Sub(b.velocity, a.velocity) == Sub(d.velocity, c.velocity);
  }

  lemma {:induction false} PressureSumIgnoresForces(prm: Parameters, ps: seq<Particle>, qs: seq<Particle>, i: nat, n: nat, length: Vec3 -> real)
    requires SameButForces(ps, qs)
    requires NeighbourDensitiesNonZero(ps) && NeighbourDensitiesNonZero(qs)
    requires i < |ps| && n <= |ps|
    ensures PressureSum(prm, ps, i, n, length) == PressureSum(prm, qs, i, n, length)
  {
    if n > 0 {
      PressureSumIgnoresForces(prm, ps, qs, i, n - 1, length);
      if n - 1 != i {
        TermsIgnoreForce(prm, ps[i], ps[n - 1], qs[i], qs[n - 1], length);
      }
    }
  }

  lemma {:induction false} ViscositySumIgnoresForces(prm: Parameters, ps: seq<Particle>, qs: seq<Particle>, i: nat, n: nat, length: Vec3 -> real)
    requires SameButForces(ps, qs)
    requires NeighbourDensitiesNonZero(ps) && NeighbourDensitiesNonZero(qs)
    requires i < |ps| && n <= |ps|
    ensures ViscositySum(prm, ps, i, n, length) == ViscositySum(prm, qs, i, n, length)
  {
    if n > 0 {
      ViscositySumIgnoresForces(prm, ps, qs, i, n - 1, length);
      if n - 1 != i {
        TermsIgnoreForce(prm, ps[i], ps[n - 1], qs[i], qs[n - 1], length);
      }
    }
  }

  /** The previous forces play no part: the pass overwrites them without reading them. */
  lemma ForceIgnoresPreviousForce(prm: Parameters, ps: seq<Particle>, qs: seq<Particle>, length: Vec3 -> real)
    requires SameButForces(ps, qs)
    requires NeighbourDensitiesNonZero(ps) && NeighbourDensitiesNonZero(qs)
    ensures ForcePass(prm, ps, length) == ForcePass(prm, qs, length)
  {
    forall i | 0 <= i < |ps|
      ensures ForcePass(prm, ps, length)[i] == ForcePass(prm, qs, length)[i]
    {
      PressureSumIgnoresForces(prm, ps, qs, i, |ps|, length);
      ViscositySumIgnoresForces(prm, ps, qs, i, |ps|, length);
      ForcedPrefixAt(prm, ps, |ps|, length, i);
      ForcedPrefixAt(prm, qs, |qs|, length, i);
      assert SameButForce(ps[i], qs[i]);
    }
  }

  lemma LoneParticleSums(prm: Parameters, ps: seq<Particle>, length: Vec3 -> real)
    requires |ps| == 1
    ensures NeighbourDensitiesNonZero(ps)
    ensures PressureSum(prm, ps, 0, 1, length) == ZERO
    ensures ViscositySum(prm, ps, 0, 1, length) == ZERO
  {
    assert PressureSum(prm, ps, 0, 1, length) == PressureSum(prm, ps, 0, 0, length);
    assert ViscositySum(prm, ps, 0, 1, length) == ViscositySum(prm, ps, 0, 0, length);
  }

  /** A particle alone in the store feels gravity and nothing else. */
  lemma LoneParticleForce(prm: Parameters, ps: seq<Particle>, length: Vec3 -> real)
    requires |ps| == 1
    ensures NeighbourDensitiesNonZero(ps)
    ensures ForcePass(prm, ps, length)[0].force == GravityForce(prm, ps[0])
  {
    LoneParticleSums(prm, ps, length);
    ForcedPrefixAt(prm, ps, 1, length, 0);
    var g := GravityForce(prm, ps[0]);
    assert Add(Add(ZERO, ZERO), g) == g;
  }

  lemma ScaleOfNeg(k: real, v: Vec3)
    ensures Scale(k, Neg(v)) == Neg(Scale(k, v))
  {
    MulSigns(k, v.x);
    MulSigns(k, v.y);
    MulSigns(k, v.z);
    assert Scale(k, Neg(v)) == Vec3(Mul(k, -v.x), Mul(k, -v.y), Mul(k, -v.z));
    assert Scale(k, v) == Vec3(Mul(k, v.x), Mul(k, v.y), Mul(k, v.z));
  }

  /** The coefficient depends on the pair's pressures symmetrically and on the neighbour's density. */
  lemma PressureCoefficientSymmetric(prm: Parameters, a: Particle, b: Particle)
    requires a.density == b.density != 0.0
    ensures PressureCoefficient(prm, a, b) == PressureCoefficient(prm, b, a)
  {
    assert a.pressure + b.pressure == b.pressure + a.pressure;
  }

  /**
   * Between two particles of equal density the pressure forces are equal and
   * opposite: the coefficient is symmetric and the Spiky gradient is odd.
   */
  lemma PressureTermAntisymmetric(prm: Parameters, a: Particle, b: Particle, length: Vec3 -> real)
    requires a.density == b.density != 0.0
    requires IsLength(length)
    ensures PressureTerm(prm, a, b, length) == Neg(PressureTerm(prm, b, a, length))
  {
    var rab := Sub(a.position, b.position);
    assert Sub(b.position, a.position) == Neg(rab);
    SpikyGradientOdd(rab, prm.smoothingRadius, length);
    PressureCoefficientSymmetric(prm, a, b);
    ScaleOfNeg(PressureCoefficient(prm, a, b), SpikyGradient(rab, prm.smoothingRadius, length));
  }

  lemma DivOfNeg(v: Vec3, d: real)
    requires d != 0.0
    ensures Div(Neg(v), d) == Neg(Div(v, d))
  {
  }

  lemma VelocityPullAntisymmetric(prm: Parameters, a: Particle, b: Particle)
    requires a.density == b.density != 0.0
    ensures VelocityPull(prm, a, b) == Neg(VelocityPull(prm, b, a))
  {
    var k, dv := prm.viscosity * prm.mass, Sub(a.velocity, b.velocity);
    assert Sub(b.velocity, a.velocity) == Neg(dv);
    ScaleOfNeg(k, dv);
    DivOfNeg(Scale(k, dv), a.density);
  }

  lemma ViscosityTermAntisymmetricWhenEven(prm: Parameters, a: Particle, b: Particle, length: Vec3 -> real)
    requires a.density == b.density != 0.0
    requires ViscosityWeight(prm, a, b, length) == ViscosityWeight(prm, b, a, length)
    ensures ViscosityTerm(prm, a, b, length) == Neg(ViscosityTerm(prm, b, a, length))
  {
    VelocityPullAntisymmetric(prm, a, b);
    ScaleOfNeg(ViscosityWeight(prm, a, b, length), VelocityPull(prm, b, a));
  }

  /** Between two particles of equal density the viscosity forces are equal and opposite. */
  lemma ViscosityTermAntisymmetric(prm: Parameters, a: Particle, b: Particle, length: Vec3 -> real)
    requires a.density == b.density != 0.0
    requires IsLength(length)
    ensures ViscosityTerm(prm, a, b, length) == Neg(ViscosityTerm(prm, b, a, length))
  {
    var rab := Sub(a.position, b.position);
    assert Sub(b.position, a.position) == Neg(rab);
    LengthOfNeg(length, rab);
    assert ViscosityWeight(prm, a, b, length) == ViscosityWeight(prm, b, a, length);
    ViscosityTermAntisymmetricWhenEven(prm, a, b, length);
  }
}
