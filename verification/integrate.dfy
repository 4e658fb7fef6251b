/**
 * The integration pass, SPHSystem::integrate: a semi-implicit Euler step followed
 * by a per-axis clamp to the unit box that damps the velocity of a clamped axis.
 */
module Integration {
  import opened Vectors
  import opened Particles
  import opened SPHParameters

  /** The damping factor integrate declares for itself; it is not read from the parameter set. */
  const INTEGRATE_DAMPING: real := -0.5

  /** The box integrate keeps every particle in. */
  const BOUNDS_MIN: Vec3 := ZERO
  const BOUNDS_MAX: Vec3 := Vec3(1.0, 1.0, 1.0)

  /** The particle after the Euler step and before the clamp: the new velocity moves the position. */
  function Kicked(prm: Parameters, p: Particle): Particle
    requires p.density != 0.0
  {
    var velocity := Add(p.velocity, Scale(prm.timeStep, Div(p.force, p.density)));
    p.(velocity := velocity, position := Add(p.position, Scale(prm.timeStep, velocity)))
  }

  /** Axis i of the clamp: a coordinate outside the box is set to the bound it crossed. */
  function BounceAxis(p: Particle, i: nat): Particle
    requires i < 3
  {
    var c := Component(p.position, i);
    var damped := WithComponent(p.velocity, i, Component(p.velocity, i) * INTEGRATE_DAMPING);
    if c < Component(BOUNDS_MIN, i) then
      p.(position := WithComponent(p.position, i, Component(BOUNDS_MIN, i)), velocity := damped)
    else if c > Component(BOUNDS_MAX, i) then
      p.(position := WithComponent(p.position, i, Component(BOUNDS_MAX, i)), velocity := damped)
    else p
  }

  /** Axes 0 .. n-1 of the clamp, in loop order. */
  function BounceAxes(p: Particle, n: nat): Particle
    requires n <= 3
  {
    if n == 0 then p else BounceAxis(BounceAxes(p, n - 1), n - 1)
  }

  /** One particle after integrate. */
  function Integrated(prm: Parameters, p: Particle): Particle
    requires p.density != 0.0
  {
    BounceAxes(Kicked(prm, p), 3)
  }

  /** The first n particles once integrated. */
  function IntegratedPrefix(prm: Parameters, ps: seq<Particle>, n: nat): (r: seq<Particle>)
    requires n <= |ps|
    requires DensitiesNonZero(ps)
    ensures |r| == n
  {
    if n == 0 then [] else IntegratedPrefix(prm, ps, n - 1) + [Integrated(prm, ps[n - 1])]
  }

  /** The store after integrate; each particle is integrated on its own. */
  function IntegratePass(prm: Parameters, ps: seq<Particle>): (r: seq<Particle>)
    requires DensitiesNonZero(ps)
    ensures |r| == |ps|
  {
    IntegratedPrefix(prm, ps, |ps|)
  }

  /** A coordinate inside the unit box. */
  predicate InRange(c: real) {
    0.0 <= c <= 1.0
  }

  /** Every coordinate of the position inside the unit box. */
  predicate InBox(p: Particle) {
    InRange(p.position.x) && InRange(p.position.y) && InRange(p.position.z)
  }

  /**
   * Axis i of the clamp puts coordinate i in the box, damps velocity i exactly when
   * it moves the coordinate, and leaves every other coordinate and field alone.
   */
  lemma BounceAxisEffect(p: Particle, i: nat, j: nat)
    requires i < 3 && j < 3
    ensures var q := BounceAxis(p, i);
      && q.force == p.force && q.density == p.density && q.pressure == p.pressure
      && (j != i ==>
            Component(q.position, j) == Component(p.position, j)
            && Component(q.velocity, j) == Component(p.velocity, j))
      && (j == i ==> InRange(Component(q.position, j)))
      && (j == i && Component(p.position, j) < 0.0 ==>
            Component(q.position, j) == 0.0
            && Component(q.velocity, j) == Component(p.velocity, j) * INTEGRATE_DAMPING)
      && (j == i && Component(p.position, j) > 1.0 ==>
            Component(q.position, j) == 1.0
            && Component(q.velocity, j) == Component(p.velocity, j) * INTEGRATE_DAMPING)
      && (j == i && InRange(Component(p.position, j)) ==> q == p)
  {
    var damped := WithComponent(p.velocity, i, Component(p.velocity, i) * INTEGRATE_DAMPING);
    ComponentOfWith(p.velocity, i, j, Component(p.velocity, i) * INTEGRATE_DAMPING);
    ComponentOfWith(p.position, i, j, Component(BOUNDS_MIN, i));
    ComponentOfWith(p.position, i, j, Component(BOUNDS_MAX, i));
  }

  /** After axes 0 .. n-1, each of them is settled by its own coordinate alone; the rest are untouched. */
  lemma {:induction false} BounceAxesEffect(p: Particle, n: nat, j: nat)
    requires n <= 3 && j < 3
    ensures var q := BounceAxes(p, n);
      && q.force == p.force && q.density == p.density && q.pressure == p.pressure
      && (j >= n ==>
            Component(q.position, j) == Component(p.position, j)
            && Component(q.velocity, j) == Component(p.velocity, j))
      && (j < n ==> InRange(Component(q.position, j)))
      && (j < n && Component(p.position, j) < 0.0 ==>
            Component(q.position, j) == 0.0
            && Component(q.velocity, j) == Component(p.velocity, j) * INTEGRATE_DAMPING)
      && (j < n && Component(p.position, j) > 1.0 ==>
            Component(q.position, j) == 1.0
            && Component(q.velocity, j) == Component(p.velocity, j) * INTEGRATE_DAMPING)
      && (j < n && InRange(Component(p.position, j)) ==>
            Component(q.position, j) == Component(p.position, j)
            && Component(q.velocity, j) == Component(p.velocity, j))
  {
    if n > 0 {
      BounceAxesEffect(p, n - 1, j);
      BounceAxisEffect(BounceAxes(p, n - 1), n - 1, j);
    }
  }

  /**
   * One particle after integrate, axis by axis: the Euler step moves it with the
   * new velocity, and the clamp then brings a coordinate that left the box back
   * to the bound and damps that velocity component. Density, pressure and force
   * are untouched.
   */
  lemma IntegratedAxis(prm: Parameters, p: Particle, j: nat)
    requires p.density != 0.0
    requires j < 3
    ensures var k := Kicked(prm, p);
      && k.velocity == Add(p.velocity, Scale(prm.timeStep, Div(p.force, p.density)))
      && k.position == Add(p.position, Scale(prm.timeStep, k.velocity))
    ensures var k, q := Kicked(prm, p), Integrated(prm, p);
      && q.force == p.force && q.density == p.density && q.pressure == p.pressure
      && InRange(Component(q.position, j))
      && (Component(k.position, j) < 0.0 ==>
            Component(q.position, j) == 0.0
            && Component(q.velocity, j) == INTEGRATE_DAMPING * Component(k.velocity, j))
      && (Component(k.position, j) > 1.0 ==>
            Component(q.position, j) == 1.0
            && Component(q.velocity, j) == INTEGRATE_DAMPING * Component(k.velocity, j))
      && (InRange(Component(k.position, j)) ==>
            Component(q.position, j) == Component(k.position, j)
            && Component(q.velocity, j) == Component(k.velocity, j))
  {
    BounceAxesEffect(Kicked(prm, p), 3, j);
  }

  /** Every particle integrate returns lies inside the unit box. */
  lemma IntegratedInBox(prm: Parameters, p: Particle)
    requires p.density != 0.0
    ensures InBox(Integrated(prm, p))
  {
    IntegratedAxis(prm, p, 0);
    IntegratedAxis(prm, p, 1);
    IntegratedAxis(prm, p, 2);
  }

  lemma {:induction false} IntegratedPrefixAt(prm: Parameters, ps: seq<Particle>, n: nat, i: nat)
    requires n <= |ps|
    requires DensitiesNonZero(ps)
    ensures i < n ==> IntegratedPrefix(prm, ps, n)[i] == Integrated(prm, ps[i])
  {
    if n > 0 {
      IntegratedPrefixAt(prm, ps, n - 1, i);
    }
  }

  /** A store holding every particle integrated, in order, is the store after the pass. */
  lemma IntegratedEverywhere(prm: Parameters, ps: seq<Particle>, qs: seq<Particle>)
    requires DensitiesNonZero(ps)
    requires |qs| == |ps|
    requires forall k :: 0 <= k < |ps| ==> qs[k] == Integrated(prm, ps[k])
    ensures qs == IntegratePass(prm, ps)
  {
    forall k | 0 <= k < |ps|
      ensures qs[k] == IntegratePass(prm, ps)[k]
    {
      IntegratedPrefixAt(prm, ps, |ps|, k);
    }
  }

  /**
   * The pass keeps count and order, integrates each particle on its own, and
   * leaves every particle inside the unit box with its density, pressure and
   * force as they were.
   */
  lemma IntegratePassFields(prm: Parameters, ps: seq<Particle>, i: nat)
    requires DensitiesNonZero(ps)
    requires i < |ps|
    ensures |IntegratePass(prm, ps)| == |ps|
    ensures IntegratePass(prm, ps)[i] == Integrated(prm, ps[i])
    ensures InBox(IntegratePass(prm, ps)[i])
    ensures IntegratePass(prm, ps)[i].density == ps[i].density
    ensures IntegratePass(prm, ps)[i].pressure == ps[i].pressure
    ensures IntegratePass(prm, ps)[i].force == ps[i].force
  {
    IntegratedPrefixAt(prm, ps, |ps|, i);
    IntegratedInBox(prm, ps[i]);
    IntegratedAxis(prm, ps[i], 0);
  }

  /** The clamp changes nothing for a particle already inside the box. */
  lemma BounceInsideIsIdentity(p: Particle)
    requires InBox(p)
    ensures BounceAxes(p, 3) == p
  {
    BounceAxisEffect(p, 0, 0);
    assert BounceAxes(p, 1) == p;
    BounceAxisEffect(p, 1, 1);
    assert BounceAxes(p, 2) == p;
    BounceAxisEffect(p, 2, 2);
  }

  /**
   * Damping a velocity component reverses it and shrinks it: the new component
   * has the opposite sign and a smaller magnitude, and integrate's own factor is
   * the DAMPING of the active parameter set.
   */
  lemma DampingReversesAndShrinks(v: real)
    ensures v > 0.0 ==> -v < v * INTEGRATE_DAMPING < 0.0
    ensures v < 0.0 ==> 0.0 < v * INTEGRATE_DAMPING < -v
    ensures v == 0.0 ==> v * INTEGRATE_DAMPING == 0.0
    ensures INTEGRATE_DAMPING == ACTIVE.damping
  {
  }
}
