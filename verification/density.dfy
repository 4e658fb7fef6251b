/**
 * The density and pressure pass, SPHSystem::computeDensityPressure, as a function
 * of the store and of the parameter set the solver is built with.
 */
module DensityPressure {
  import opened Vectors
  import opened Particles
  import opened SPHParameters
  import opened Kernels

  /** What a particle at `pj` adds to the density at `pi`: MASS * poly6(|pj - pi|^2, h). */
  function Contribution(prm: Parameters, pj: Vec3, pi: Vec3): real {
    var rij := Sub(pj, pi);
    prm.mass * Poly6Kernel(Dot(rij, rij), prm.smoothingRadius)
  }

  /** The contributions of particles 0 .. n-1 at `pi`, summed in loop order. */
  function DensitySum(prm: Parameters, ps: seq<Particle>, n: nat, pi: Vec3): real
    requires n <= |ps|
  {
    if n == 0 then 0.0
    else DensitySum(prm, ps, n - 1, pi) + Contribution(prm, ps[n - 1].position, pi)
  }

  /** The equation of state: pressure from density, unclamped. */
  function EquationOfState(prm: Parameters, density: real): real {
    prm.gasConstant * (density - prm.restDensity)
  }

  /** Particle i once its density (over every particle, itself included) and pressure are set. */
  function Evaluated(prm: Parameters, ps: seq<Particle>, i: nat): Particle
    requires i < |ps|
  {
    var density := DensitySum(prm, ps, |ps|, ps[i].position);
    ps[i].(density := density, pressure := EquationOfState(prm, density))
  }

  /** The first n particles once the pass has evaluated them. */
  function EvaluatedPrefix(prm: Parameters, ps: seq<Particle>, n: nat): (r: seq<Particle>)
    requires n <= |ps|
    ensures |r| == n
  {
    if n == 0 then [] else EvaluatedPrefix(prm, ps, n - 1) + [Evaluated(prm, ps, n - 1)]
  }

  /** The store after computeDensityPressure, every particle read from the store before it. */
  function DensityPressurePass(prm: Parameters, ps: seq<Particle>): (r: seq<Particle>)
    ensures |r| == |ps|
  {
    EvaluatedPrefix(prm, ps, |ps|)
  }

  lemma {:induction false} EvaluatedPrefixAt(prm: Parameters, ps: seq<Particle>, n: nat, i: nat)
    requires n <= |ps|
    ensures i < n ==> EvaluatedPrefix(prm, ps, n)[i] == Evaluated(prm, ps, i)
  {
    if n > 0 {
      EvaluatedPrefixAt(prm, ps, n - 1, i);
    }
  }

  /** A store holding every particle evaluated, in order, is the store after the pass. */
  lemma EvaluatedEverywhere(prm: Parameters, ps: seq<Particle>, qs: seq<Particle>)
    requires |qs| == |ps|
    requires forall k :: 0 <= k < |ps| ==> qs[k] == Evaluated(prm, ps, k)
    ensures qs == DensityPressurePass(prm, ps)
  {
    forall k | 0 <= k < |ps|
      ensures qs[k] == DensityPressurePass(prm, ps)[k]
    {
      EvaluatedPrefixAt(prm, ps, |ps|, k);
    }
  }

  /** A particle's contribution to its own density is MASS * poly6(0, h), whatever its position. */
  lemma SelfContribution(prm: Parameters, p: Vec3)
    ensures Contribution(prm, p, p) == Mul(prm.mass, Poly6Kernel(0.0, prm.smoothingRadius))
  {
    assert Sub(p, p) == ZERO;
  }

  /** With a positive mass that self contribution is strictly positive. */
  lemma SelfContributionPositive(prm: Parameters, p: Vec3)
    requires prm.mass > 0.0
    ensures Contribution(prm, p, p) > 0.0
  {
    SelfContribution(prm, p);
    Poly6AtZero(prm.smoothingRadius);
    MulSigns(prm.mass, Poly6Kernel(0.0, prm.smoothingRadius));
  }

  /** Every particle contributes the same amount to its own density. */
  lemma SelfContributionUniform(prm: Parameters, p: Vec3, q: Vec3)
    ensures Contribution(prm, p, p) == Contribution(prm, q, q)
  {
    assert Sub(p, p) == Sub(q, q);
  }

  lemma ContributionNonNegative(prm: Parameters, pj: Vec3, pi: Vec3)
    requires prm.mass > 0.0
    ensures Contribution(prm, pj, pi) >= 0.0
  {
    var rij := Sub(pj, pi);
    var w := Poly6Kernel(Dot(rij, rij), prm.smoothingRadius);
    Poly6Support(Dot(rij, rij), prm.smoothingRadius);
    MulSigns(prm.mass, w);
    assert Contribution(prm, pj, pi) == Mul(prm.mass, w);
  }

  /** The density contribution of j to i equals that of i to j. */
  lemma ContributionSymmetric(prm: Parameters, a: Vec3, b: Vec3)
    ensures Contribution(prm, a, b) == Contribution(prm, b, a)
  {
    DotSubSymmetric(a, b);
  }

  /** A partial sum is non-negative and bounded below by each of its terms. */
  lemma {:induction false} DensitySumBelow(prm: Parameters, ps: seq<Particle>, n: nat, pi: Vec3, k: nat)
    requires prm.mass > 0.0
    requires n <= |ps|
    ensures DensitySum(prm, ps, n, pi) >= 0.0
    ensures k < n ==> DensitySum(prm, ps, n, pi) >= Contribution(prm, ps[k].position, pi)
  {
    if n > 0 {
      DensitySumBelow(prm, ps, n - 1, pi, k);
      ContributionNonNegative(prm, ps[n - 1].position, pi);
    }
  }

  /** The pass sets density and pressure and nothing else, keeping count and order. */
  lemma DensityPressurePassFields(prm: Parameters, ps: seq<Particle>, i: nat)
    requires i < |ps|
    ensures |DensityPressurePass(prm, ps)| == |ps|
    ensures DensityPressurePass(prm, ps)[i].position == ps[i].position
    ensures DensityPressurePass(prm, ps)[i].velocity == ps[i].velocity
    ensures DensityPressurePass(prm, ps)[i].force == ps[i].force
    ensures DensityPressurePass(prm, ps)[i].density == DensitySum(prm, ps, |ps|, ps[i].position)
    ensures DensityPressurePass(prm, ps)[i].pressure == EquationOfState(prm, DensityPressurePass(prm, ps)[i].density)
  {
    EvaluatedPrefixAt(prm, ps, |ps|, i);
  }

  /**
   * Every density after the pass is at least the particle's own contribution,
   * so it is strictly positive and the later divisions by density are defined.
   */
  lemma DensityPositive(prm: Parameters, ps: seq<Particle>)
    requires prm.mass > 0.0
    ensures forall i :: 0 <= i < |ps| ==>
      DensityPressurePass(prm, ps)[i].density >= Contribution(prm, ps[i].position, ps[i].position) > 0.0
    ensures DensitiesNonZero(DensityPressurePass(prm, ps))
  {
    forall i | 0 <= i < |ps|
      ensures DensityPressurePass(prm, ps)[i].density >= Contribution(prm, ps[i].position, ps[i].position) > 0.0
    {
      var p := ps[i].position;
      DensityPressurePassFields(prm, ps, i);
      DensitySumBelow(prm, ps, |ps|, p, i);
      SelfContributionPositive(prm, p);
    }
  }

  lemma {:induction false} DensitySumReadsPositions(prm: Parameters, ps: seq<Particle>, qs: seq<Particle>, n: nat, pi: Vec3)
    requires n <= |ps| == |qs|
    requires forall k :: 0 <= k < |ps| ==> ps[k].position == qs[k].position
    ensures DensitySum(prm, ps, n, pi) == DensitySum(prm, qs, n, pi)
  {
    if n > 0 {
      DensitySumReadsPositions(prm, ps, qs, n - 1, pi);
    }
  }

  /** Density and pressure depend on the positions alone: no other field is read. */
  lemma DensityReadsOnlyPositions(prm: Parameters, ps: seq<Particle>, qs: seq<Particle>)
    requires |ps| == |qs|
    requires forall k :: 0 <= k < |ps| ==> ps[k].position == qs[k].position
    ensures forall i :: 0 <= i < |ps| ==>
      DensityPressurePass(prm, ps)[i].density == DensityPressurePass(prm, qs)[i].density &&
      DensityPressurePass(prm, ps)[i].pressure == DensityPressurePass(prm, qs)[i].pressure
  {
    forall i | 0 <= i < |ps|
      ensures DensityPressurePass(prm, ps)[i].density == DensityPressurePass(prm, qs)[i].density
      ensures DensityPressurePass(prm, ps)[i].pressure == DensityPressurePass(prm, qs)[i].pressure
    {
      DensityPressurePassFields(prm, ps, i);
      DensityPressurePassFields(prm, qs, i);
      DensitySumReadsPositions(prm, ps, qs, |ps|, ps[i].position);
    }
  }

  lemma DensitySumOfOne(prm: Parameters, ps: seq<Particle>, pi: Vec3)
    requires |ps| == 1
    ensures DensitySum(prm, ps, 1, pi) == Contribution(prm, ps[0].position, pi)
  {
  }

  lemma DensitySumOfTwo(prm: Parameters, ps: seq<Particle>, pi: Vec3)
    requires |ps| == 2
    ensures DensitySum(prm, ps, 2, pi) == Contribution(prm, ps[0].position, pi) + Contribution(prm, ps[1].position, pi)
  {
    assert DensitySum(prm, ps, 1, pi) == Contribution(prm, ps[0].position, pi);
  }

  /** A lone particle's density is its own contribution only. */
  lemma SingleParticleDensity(prm: Parameters, ps: seq<Particle>)
    requires |ps| == 1
    ensures DensityPressurePass(prm, ps)[0].density == Contribution(prm, ps[0].position, ps[0].position)
    ensures DensityPressurePass(prm, ps)[0].pressure == EquationOfState(prm, Contribution(prm, ps[0].position, ps[0].position))
  {
    DensityPressurePassFields(prm, ps, 0);
    DensitySumOfOne(prm, ps, ps[0].position);
  }

  /**
   * With a positive gas constant, pressure rises strictly with density, is zero
   * exactly at rest density and negative below it.
   */
  lemma EquationOfStateMonotone(prm: Parameters, d1: real, d2: real)
    requires prm.gasConstant > 0.0
    ensures d1 < d2 ==> EquationOfState(prm, d1) < EquationOfState(prm, d2)
    ensures EquationOfState(prm, d1) == 0.0 <==> d1 == prm.restDensity
    ensures EquationOfState(prm, d1) < 0.0 <==> d1 < prm.restDensity
  {
    var k := prm.gasConstant;
    MulSigns(k, d1 - prm.restDensity);
    assert EquationOfState(prm, d1) == Mul(k, d1 - prm.restDensity);
    if d1 < d2 {
      MulLeftStrict(k, d1 - prm.restDensity, d2 - prm.restDensity);
      assert EquationOfState(prm, d2) == Mul(k, d2 - prm.restDensity);
    }
  }
}
