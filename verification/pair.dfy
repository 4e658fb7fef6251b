/**
 * Two particles on their own: the density pass gives them equal densities, and the
 * force pass then gives them equal and opposite pressure and viscosity forces.
 */
module PairBalance {
  import opened Vectors
  import opened Particles
  import opened SPHParameters
  import opened DensityPressure
  import opened Forces

  /** In a pair, each density is the particle's own contribution plus its partner's. */
  lemma PairDensity(prm: Parameters, ps: seq<Particle>, i: nat)
    requires |ps| == 2 && i < 2
    ensures DensityPressurePass(prm, ps)[i].density ==
      Contribution(prm, ps[i].position, ps[i].position) + Contribution(prm, ps[1 - i].position, ps[i].position)
  {
    var p, q := ps[i].position, ps[1 - i].position;
    DensityPressurePassFields(prm, ps, i);
    DensitySumOfTwo(prm, ps, p);
    if i == 0 {
      assert DensitySum(prm, ps, 2, p) == Contribution(prm, p, p) + Contribution(prm, q, p);
    } else {
      assert DensitySum(prm, ps, 2, p) == Contribution(prm, q, p) + Contribution(prm, p, p);
    }
  }

  /** Two particles always see the same density. */
  lemma TwoParticleDensities(prm: Parameters, ps: seq<Particle>)
    requires |ps| == 2
    ensures DensityPressurePass(prm, ps)[0].density == DensityPressurePass(prm, ps)[1].density
  {
    PairDensity(prm, ps, 0);
    PairDensity(prm, ps, 1);
    ContributionSymmetric(prm, ps[0].position, ps[1].position);
    SelfContributionUniform(prm, ps[0].position, ps[1].position);
  }

  /** In a pair, each sum over neighbours is the one term from the partner. */
  lemma PairSums(prm: Parameters, qs: seq<Particle>, length: Vec3 -> real, i: nat)
    requires |qs| == 2 && i < 2
    requires DensitiesNonZero(qs)
    ensures NeighbourDensitiesNonZero(qs)
    ensures PressureSum(prm, qs, i, 2, length) == PressureTerm(prm, qs[i], qs[1 - i], length)
    ensures ViscositySum(prm, qs, i, 2, length) == ViscosityTerm(prm, qs[i], qs[1 - i], length)
  {
    var pt, vt := PressureTerm(prm, qs[i], qs[1 - i], length), ViscosityTerm(prm, qs[i], qs[1 - i], length);
    assert Add(ZERO, pt) == pt;
    assert Add(ZERO, vt) == vt;
    if i == 0 {
      assert PressureSum(prm, qs, 0, 1, length) == PressureSum(prm, qs, 0, 0, length);
      assert ViscositySum(prm, qs, 0, 1, length) == ViscositySum(prm, qs, 0, 0, length);
    } else {
      assert PressureSum(prm, qs, 1, 2, length) == PressureSum(prm, qs, 1, 1, length);
      assert ViscositySum(prm, qs, 1, 2, length) == ViscositySum(prm, qs, 1, 1, length);
    }
  }

  /**
   * After the density pass, the pressure forces of a pair are equal and
   * opposite, and so are their viscosity forces.
   */
  lemma TwoParticleForceBalance(prm: Parameters, ps: seq<Particle>, length: Vec3 -> real)
    requires |ps| == 2
    requires prm.mass > 0.0
    requires IsLength(length)
    ensures NeighbourDensitiesNonZero(DensityPressurePass(prm, ps))
    ensures PressureSum(prm, DensityPressurePass(prm, ps), 0, 2, length) == Neg(PressureSum(prm, DensityPressurePass(prm, ps), 1, 2, length))
    ensures ViscositySum(prm, DensityPressurePass(prm, ps), 0, 2, length) == Neg(ViscositySum(prm, DensityPressurePass(prm, ps), 1, 2, length))
  {
    var qs := DensityPressurePass(prm, ps);
    DensityPositive(prm, ps);
    TwoParticleDensities(prm, ps);
    PairSums(prm, qs, length, 0);
    PairSums(prm, qs, length, 1);
    PressureTermAntisymmetric(prm, qs[0], qs[1], length);
    ViscosityTermAntisymmetric(prm, qs[0], qs[1], length);
  }
}
