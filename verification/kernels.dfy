/** The three smoothing kernels of SPHSystem.cpp and their support and sign properties. */
module Kernels {
  import opened Vectors

  /** M_PI */
  const PI: real := 3.14159265358979323846

  /** pow(x, n) for a natural exponent, as repeated multiplication. */
  function Pow(x: real, n: nat): (r: real)
    ensures x > 0.0 ==> r > 0.0
  {
    if n == 0 then 1.0 else x * Pow(x, n - 1)
  }

  /** The Poly6 density kernel, evaluated on a squared distance. */
  function Poly6Kernel(rSquared: real, h: real): real
    requires h > 0.0
  {
    var h2 := h * h;
    if rSquared >= h2 then 0.0
    else
      var diff := h2 - rSquared;
      var coeff := 315.0 / (64.0 * PI * Pow(h, 9));
      coeff * diff * diff * diff
  }

  /** The scalar factor of the Spiky gradient at distance `r`: coeff * (h - r)^2. */
  function SpikyMagnitude(r: real, h: real): real
    requires h > 0.0
  {
    var coeff := -45.0 / (PI * Pow(h, 6));
    coeff * Pow(h - r, 2)
  }

  /** The gradient of the Spiky pressure kernel at offset `rij`. */
  function SpikyGradient(rij: Vec3, h: real, length: Vec3 -> real): Vec3
    requires h > 0.0
  {
    var r := length(rij);
    if r == 0.0 || r > h then ZERO
    else Scale(SpikyMagnitude(r, h), Div(rij, r))
  }

  /** The Laplacian of the viscosity kernel at distance `r`. */
  function ViscosityLaplacian(r: real, h: real): real
    requires h > 0.0
  {
    if r >= h then 0.0
    else
      var coeff := 45.0 / (PI * Pow(h, 6));
      coeff * (h - r)
  }

  lemma QuotientPositive(a: real, b: real)
    requires a > 0.0 && b > 0.0
    ensures a / b > 0.0
  {
  }

  lemma Poly6Support(rSquared: real, h: real)
    requires h > 0.0
    ensures rSquared >= h * h ==> Poly6Kernel(rSquared, h) == 0.0
    ensures rSquared < h * h ==> Poly6Kernel(rSquared, h) > 0.0
    ensures Poly6Kernel(rSquared, h) >= 0.0
  {
    if rSquared < h * h {
      var diff := h * h - rSquared;
      var coeff := 315.0 / (64.0 * PI * Pow(h, 9));
      QuotientPositive(315.0, 64.0 * PI * Pow(h, 9));
      MulSigns(coeff, diff);
      MulSigns(Mul(coeff, diff), diff);
      MulSigns(Mul(Mul(coeff, diff), diff), diff);
      assert Poly6Kernel(rSquared, h) == Mul(Mul(Mul(coeff, diff), diff), diff);
    }
  }

  /** An isolated particle's own contribution is positive. */
  lemma Poly6AtZero(h: real)
    requires h > 0.0
    ensures Poly6Kernel(0.0, h) > 0.0
  {
    SquareFacts(h);
    assert h * h == Mul(h, h);
    Poly6Support(0.0, h);
  }

  lemma ViscosityLaplacianSupport(r: real, h: real)
    requires h > 0.0
    ensures r >= h ==> ViscosityLaplacian(r, h) == 0.0
    ensures r < h ==> ViscosityLaplacian(r, h) > 0.0
  {
    if r < h {
      var coeff := 45.0 / (PI * Pow(h, 6));
      QuotientPositive(45.0, PI * Pow(h, 6));
      MulSigns(coeff, h - r);
      assert ViscosityLaplacian(r, h) == Mul(coeff, h - r);
    }
  }

  /** The gradient vanishes at zero distance and at and beyond the support radius. */
  lemma SpikyGradientVanishes(rij: Vec3, h: real, length: Vec3 -> real)
    requires h > 0.0
    ensures length(rij) == 0.0 || length(rij) >= h ==> SpikyGradient(rij, h, length) == ZERO
  {
    var r := length(rij);
    if r == h {
      assert Pow(h - r, 2) == 0.0;
    }
  }

  /** Strictly inside the support the Spiky factor is negative. */
  lemma SpikyMagnitudeNegative(r: real, h: real)
    requires h > 0.0 && r < h
    ensures SpikyMagnitude(r, h) < 0.0
  {
    var coeff := -45.0 / (PI * Pow(h, 6));
    QuotientPositive(45.0, PI * Pow(h, 6));
    assert coeff < 0.0;
    MulSigns(coeff, Pow(h - r, 2));
  }

  /** Inside the support the gradient is a negative multiple of the offset. */
  lemma SpikyGradientDirection(rij: Vec3, h: real, length: Vec3 -> real)
    requires h > 0.0
    ensures 0.0 < length(rij) < h ==>
      exists s: real :: s < 0.0 && SpikyGradient(rij, h, length) == Scale(s, rij)
  {
    var r := length(rij);
    if 0.0 < r < h {
      var k := SpikyMagnitude(r, h);
      SpikyMagnitudeNegative(r, h);
      var s := k / r;
      assert s < 0.0;
      ScaleOfQuotient(k, rij, r);
      assert SpikyGradient(rij, h, length) == Scale(s, rij);
    }
  }

  /** Scaling an offset divided by r is scaling it by the quotient. */
  lemma ScaleOfQuotient(k: real, v: Vec3, r: real)
    requires r != 0.0
    ensures Scale(k, Div(v, r)) == Scale(k / r, v)
  {
    assert k * (v.x / r) == (k / r) * v.x;
    assert k * (v.y / r) == (k / r) * v.y;
    assert k * (v.z / r) == (k / r) * v.z;
  }

  lemma ScaleQuotientOfNeg(k: real, x: real, r: real)
    requires r != 0.0
    ensures k * ((-x) / r) == -(k * (x / r))
  {
    var q := x / r;
    assert (-x) / r == -q;
    assert k * (-q) == -(k * q);
  }

  lemma ScaleDivOfNeg(k: real, v: Vec3, r: real)
    requires r != 0.0
    ensures Scale(k, Div(Neg(v), r)) == Neg(Scale(k, Div(v, r)))
  {
    ScaleQuotientOfNeg(k, v.x, r);
    ScaleQuotientOfNeg(k, v.y, r);
    ScaleQuotientOfNeg(k, v.z, r);
  }

  /** The gradient is odd in the offset whenever the length is even. */
  lemma SpikyGradientOddWhenEven(rij: Vec3, h: real, length: Vec3 -> real)
    requires h > 0.0
    requires length(Neg(rij)) == length(rij)
    ensures SpikyGradient(Neg(rij), h, length) == Neg(SpikyGradient(rij, h, length))
  {
    var r := length(rij);
    if !(r == 0.0 || r > h) {
      ScaleDivOfNeg(SpikyMagnitude(r, h), rij, r);
    }
  }

  /** The gradient is odd in the offset: swapping the two particles flips it. */
  lemma SpikyGradientOdd(rij: Vec3, h: real, length: Vec3 -> real)
    requires h > 0.0
    requires IsLength(length)
    ensures SpikyGradient(Neg(rij), h, length) == Neg(SpikyGradient(rij, h, length))
  {
    LengthOfNeg(length, rij);
    SpikyGradientOddWhenEven(rij, h, length);
  }
}
