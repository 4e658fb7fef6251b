/** The particle record of particle.h. */
module Particles {
  import opened Vectors

  /** A plain value record of five fields; its only identity is its index in the store. */
  datatype Particle = Particle(
    position: Vec3,
    velocity: Vec3,
    force: Vec3,
    density: real,
    pressure: real)

  /** `Particle(pos)`: position as given, every other field zero. */
  function NewParticle(pos: Vec3): Particle {
    Particle(pos, ZERO, ZERO, 0.0, 0.0)
  }

  /** The divisions by density in the force and integration passes are defined. */
  predicate DensitiesNonZero(ps: seq<Particle>) {
    forall k :: 0 <= k < |ps| ==> ps[k].density != 0.0
  }
}
