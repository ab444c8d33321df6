/** Strange attractors: each variant is a map of the plane, written on the
    complex type, that a renderer iterates from many starting points. */
module Attractors {
  import opened ComplexArith
  import opened Transcendental

  datatype Attractor =
    | Clifford(a: real, b: real, c: real, d: real)
    | DeJong(a: real, b: real, c: real, d: real)
    | Henon(a: real, b: real)
    | Ikeda(u: real)
    | Tinkerbell(a: real, b: real, c: real, d: real)

  /** One step of the Clifford map; each coordinate is a Wave. */
  function CliffordStep(p: Complex, a: real, b: real, c: real, d: real, trig: Trig): Complex {
    Complex(Wave(Sin(trig, a * p.im), c, Cos(trig, a * p.re)),
            Wave(Sin(trig, b * p.re), d, Cos(trig, b * p.im)))
  }

  /** s + k c for a sine s and a cosine c: the shape of both Clifford
      coordinates. */
  function Wave(s: real, k: real, c: real): real {
    s + k * c
  }

  /** One step of the Peter de Jong map. */
  function DeJongStep(p: Complex, a: real, b: real, c: real, d: real, trig: Trig): Complex {
    Complex(Sin(trig, a * p.im) - Cos(trig, b * p.re),
            Sin(trig, c * p.re) - Cos(trig, d * p.im))
  }

  /** One step of the Henon map. */
  function HenonStep(p: Complex, a: real, b: real): Complex {
    Complex(1.0 - a * p.re * p.re + p.im, b * p.re)
  }

  /** The angle by which the Ikeda map rotates a point at squared radius rSq;
      the denominator 1 + rSq is never zero. */
  function IkedaAngle(rSq: real): real
    requires rSq >= 0.0
  {
    0.4 - 6.0 / (1.0 + rSq)
  }

  /** One step of the Ikeda map: rotate p by the angle IkedaAngle(|p|^2),
      that is multiply it by cos t + i sin t, scale by u, shift right by one.
      Written out, the coordinates are 1 + u (x cos t - y sin t) and
      u (x sin t + y cos t). */
  function IkedaStep(p: Complex, u: real, trig: Trig): Complex {
    var t := IkedaAngle(NormSqr(p));
    Add(One, Scale(u, Mul(p, Complex(Cos(trig, t), Sin(trig, t)))))
  }

  /** One step of the Tinkerbell map. */
  function TinkerbellStep(p: Complex, a: real, b: real, c: real, d: real): Complex {
    Complex(p.re * p.re - p.im * p.im + a * p.re + b * p.im,
            2.0 * p.re * p.im + c * p.re + d * p.im)
  }

  /** One iteration of the attractor's dynamics from p. */
  function Iterate(att: Attractor, p: Complex, trig: Trig): Complex {
    match att
    case Clifford(a, b, c, d) => CliffordStep(p, a, b, c, d, trig)
    case DeJong(a, b, c, d) => DeJongStep(p, a, b, c, d, trig)
    case Henon(a, b) => HenonStep(p, a, b)
    case Ikeda(u) => IkedaStep(p, u, trig)
    case Tinkerbell(a, b, c, d) => TinkerbellStep(p, a, b, c, d)
  }

  /** The point reached after n iterations from p. */
  function Orbit(att: Attractor, p: Complex, n: nat, trig: Trig): Complex
    decreases n
  {
    if n == 0 then p else Iterate(att, Orbit(att, p, n - 1, trig), trig)
  }

  // ---------------------------------------------------------------------
  // Properties of the maps

  /** Running m iterations and then n more is running m + n iterations. */
  lemma {:induction false} OrbitAdditive(att: Attractor, p: Complex, m: nat, n: nat, trig: Trig)
    ensures Orbit(att, Orbit(att, p, m, trig), n, trig) == Orbit(att, p, m + n, trig)
    decreases n
  {
    if n > 0 {
      OrbitAdditive(att, p, m, n - 1, trig);
    }
  }

  /** With bounded sine and cosine, a Clifford step lands in the box
      [-1 - |c|, 1 + |c|] x [-1 - |d|, 1 + |d|], whatever the start. */
  lemma CliffordBounded(p: Complex, a: real, b: real, c: real, d: real, trig: Trig)
    requires Bounded(trig)
    ensures Abs(CliffordStep(p, a, b, c, d, trig).re) <= 1.0 + Abs(c)
    ensures Abs(CliffordStep(p, a, b, c, d, trig).im) <= 1.0 + Abs(d)
  {
    forall s, k, x | -1.0 <= s <= 1.0 && -1.0 <= x <= 1.0
      ensures Abs(Wave(s, k, x)) <= 1.0 + Abs(k)
    {
      WaveBounded(s, k, x);
    }
  }

  lemma WaveBounded(s: real, k: real, x: real)
    requires -1.0 <= s <= 1.0 && -1.0 <= x <= 1.0
    ensures Abs(Wave(s, k, x)) <= 1.0 + Abs(k)
  {
    ScaledBounded(k, x);
  }

  lemma ScaledBounded(k: real, x: real)
    requires -1.0 <= x <= 1.0
    ensures -Abs(k) <= k * x <= Abs(k)
  {
    if k >= 0.0 {
      ProductNonNegative(k, 1.0 - x);
      ProductNonNegative(k, x + 1.0);
    } else {
      ProductNonNegative(-k, 1.0 - x);
      ProductNonNegative(-k, x + 1.0);
    }
  }

  lemma ProductNonNegative(a: real, b: real)
    requires a >= 0.0 && b >= 0.0
    ensures a * b >= 0.0
  {
  }

  /** With bounded sine and cosine, a de Jong step lands in [-2, 2]^2. */
  lemma DeJongBounded(p: Complex, a: real, b: real, c: real, d: real, trig: Trig)
    requires Bounded(trig)
    ensures -2.0 <= DeJongStep(p, a, b, c, d, trig).re <= 2.0
    ensures -2.0 <= DeJongStep(p, a, b, c, d, trig).im <= 2.0
  {
  }

  /** After at least one iteration a Clifford or de Jong orbit stays in its
      bounding box. */
  lemma OrbitBounded(att: Attractor, p: Complex, n: nat, trig: Trig)
    requires Bounded(trig) && n > 0
    ensures att.Clifford? ==>
              Abs(Orbit(att, p, n, trig).re) <= 1.0 + Abs(att.c) &&
              Abs(Orbit(att, p, n, trig).im) <= 1.0 + Abs(att.d)
    ensures att.DeJong? ==>
              -2.0 <= Orbit(att, p, n, trig).re <= 2.0 &&
              -2.0 <= Orbit(att, p, n, trig).im <= 2.0
  {
    var q := Orbit(att, p, n - 1, trig);
    match att
    case Clifford(a, b, c, d) => CliffordBounded(q, a, b, c, d, trig);
    case DeJong(a, b, c, d) => DeJongBounded(q, a, b, c, d, trig);
    case _ =>
  }

  /** The Henon map is invertible when b is non-zero: HenonInverse undoes it
      and it undoes HenonInverse. */
  function HenonInverse(q: Complex, a: real, b: real): (p: Complex)
    requires b != 0.0
    ensures HenonStep(p, a, b) == q
  {
    var x := q.im / b;
    Complex(x, q.re - 1.0 + a * x * x)
  }

  lemma HenonRoundTrip(p: Complex, a: real, b: real)
    requires b != 0.0
    ensures HenonInverse(HenonStep(p, a, b), a, b) == p
  {
  }

  /** With b = 0 the Henon map collapses the plane onto the real axis, and
      it is not invertible: two points with the same 1 - a x^2 + y have the
      same image. */
  lemma HenonDegenerate(p: Complex, q: Complex, a: real)
    requires 1.0 - a * p.re * p.re + p.im == 1.0 - a * q.re * q.re + q.im
    ensures HenonStep(p, a, 0.0).im == 0.0
    ensures HenonStep(p, a, 0.0) == HenonStep(q, a, 0.0)
  {
  }

  /** The Ikeda step is a rotation scaled by u and shifted by one: the
      distance from 1 of the image is |u| times the distance of p from 0. */
  lemma IkedaRotation(p: Complex, u: real, trig: Trig)
    requires Pythagorean(trig)
    ensures NormSqr(Sub(IkedaStep(p, u, trig), One)) == u * u * NormSqr(p)
  {
    var t := IkedaAngle(NormSqr(p));
    var rot := Complex(Cos(trig, t), Sin(trig, t));
    var w := Mul(p, rot);
    AddSubCancel(Scale(u, w), One);
    assert Add(One, Scale(u, w)) == Add(Scale(u, w), One);
    assert Sub(IkedaStep(p, u, trig), One) == Scale(u, w);
    UnitCircle(Cos(trig, t), Sin(trig, t));
    NormSqrScale(u, w);
    NormSqrMul(p, rot);
    MulByOne(NormSqr(p), NormSqr(rot));
    MulCongruent(u * u, NormSqr(w), NormSqr(p));
  }

  /** With u = 0 every Ikeda step lands on 1. */
  lemma IkedaCollapse(p: Complex, trig: Trig)
    ensures IkedaStep(p, 0.0, trig) == One
  {
    var t := IkedaAngle(NormSqr(p));
    ScaleByZero(Mul(p, Complex(Cos(trig, t), Sin(trig, t))));
  }

  lemma ScaleByZero(w: Complex)
    ensures Add(One, Scale(0.0, w)) == One
  {
  }

  /** The Tinkerbell map is squaring plus a linear map of the plane; with
      all four parameters zero it is plain squaring. */
  lemma TinkerbellIsSquarePlusLinear(p: Complex, a: real, b: real, c: real, d: real)
    ensures TinkerbellStep(p, a, b, c, d)
         == Add(Mul(p, p), Complex(a * p.re + b * p.im, c * p.re + d * p.im))
    ensures TinkerbellStep(p, 0.0, 0.0, 0.0, 0.0) == Mul(p, p)
  {
    assert 2.0 * p.re * p.im == p.re * p.im + p.im * p.re;
  }
}
