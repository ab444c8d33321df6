/** The stand-alone Mandelbrot loop: the same iteration z := z^2 + c from
    the origin as the Mandelbrot variant of the escape-time fractals. */
module StandaloneMandelbrot {
  import opened ComplexArith
  import opened Transcendental
  import Fractals

  /** The number of iterations before z^2 + c leaves the disc of squared
      radius 4, at most maxIter.  It agrees with the Mandelbrot variant
      everywhere, so it is the index of the first escaped iterate
      (Fractals.EscapeTimeFirst); it is at least one when there is any
      budget, and the whole budget at the origin. */
  method Mandelbrot(c: Complex, maxIter: nat) returns (n: nat)
    ensures n <= maxIter
    ensures maxIter >= 1 ==> n >= 1
    ensures c.re == 0.0 && c.im == 0.0 ==> n == maxIter
    ensures forall trig :: n == Fractals.EscapeTime(Fractals.Mandelbrot, c, maxIter, trig)
  {
    var z := Zero;
    ghost var prev := z;
    n := 0;
    while NormSqr(z) < 4.0 && n < maxIter
      invariant n <= maxIter
      invariant forall trig :: Fractals.CountFrom(Fractals.Mandelbrot, c, z, prev, n, maxIter, trig)
                            == Fractals.EscapeTime(Fractals.Mandelbrot, c, maxIter, trig)
      decreases maxIter - n
    {
      Fractals.EscapedIsNormSqr(z);
      prev := z;
      var zz := Mul(z, z);
      z := Add(zz, c);
      forall trig, v
        ensures Fractals.Step(Fractals.Mandelbrot, c, prev, v, trig) == z
      {
        Fractals.MandelbrotStep(c, prev, v, trig);
      }
      n := n + 1;
    }
    Fractals.EscapedIsNormSqr(z);
    CountBounds(c, maxIter, n);
  }

  /** Any count that agrees with the Mandelbrot escape time is at least one
      when there is a budget, and the whole budget at the origin. */
  lemma CountBounds(c: Complex, maxIter: nat, n: nat)
    requires forall trig :: n == Fractals.EscapeTime(Fractals.Mandelbrot, c, maxIter, trig)
    ensures maxIter >= 1 ==> n >= 1
    ensures c.re == 0.0 && c.im == 0.0 ==> n == maxIter
  {
    var trig := Trig(x => x, x => x);
    if maxIter >= 1 {
      Fractals.OriginStartsInside(Fractals.Mandelbrot, c, maxIter, trig);
    }
    if c.re == 0.0 && c.im == 0.0 {
      Fractals.MandelbrotOrigin(c, maxIter, trig);
    }
  }
}
