/** Escape-time fractals.  Each variant iterates a map of the complex plane
    from a starting point and counts the iterations until the squared norm of
    the iterate reaches 4 or the iteration budget runs out; Newton's variant
    instead counts Newton steps for z^3 - 1 until the correction is small. */
module Fractals {
  import opened ComplexArith
  import opened Transcendental
  import Attractors

  datatype Fractal =
    | Mandelbrot
    | BurningShip
    | Julia(k: Complex)
    | Tricorn
    | Multibrot(power: nat)
    | Newton(epsilon: real)
    | Phoenix(k: Complex)
    | Clifford(a: real, b: real, c: real, d: real)
    | CelticMandelbrot

  /** The squared norm of z has reached 4, the bound at which every
      escape-time loop stops.  It is stated on the components, as a
      difference from 4; EscapedIsNormSqr restates it with NormSqr. */
  predicate Escaped(z: Complex) {
    z.re * z.re + z.im * z.im - 4.0 >= 0.0
  }

  lemma EscapedIsNormSqr(z: Complex)
    ensures Escaped(z) <==> NormSqr(z) >= 4.0
  {
  }

  // ---------------------------------------------------------------------
  // The maps

  /** The first iterate: the sampled point itself for Julia and Clifford,
      the origin for the others. */
  function Start(f: Fractal, p: Complex): Complex {
    if f.Julia? || f.Clifford? then p else Zero
  }

  /** The next iterate after z, when prev is the iterate before z (only the
      Phoenix map looks at it) and p is the sampled point.  Only the Clifford
      map uses sine and cosine.  Each arm is written on the components;
      the lemmas below show it is the complex expression the sampling loop
      evaluates. */
  function Step(f: Fractal, p: Complex, z: Complex, prev: Complex, trig: Trig): Complex
    requires !f.Newton?
  {
    match f
    case Mandelbrot =>
      Complex(z.re * z.re - z.im * z.im + p.re, z.re * z.im + z.im * z.re + p.im)
    case BurningShip =>
      var x, y := Abs(z.re), Abs(z.im);
      Complex(x * x - y * y + p.re, x * y + y * x + p.im)
    case Julia(k) =>
      Complex(z.re * z.re - z.im * z.im + k.re, z.re * z.im + z.im * z.re + k.im)
    case Tricorn =>
      var x, y := z.re, -z.im;
      Complex(x * x - y * y + p.re, x * y + y * x + p.im)
    case Multibrot(power) => Add(Powi(z, power), p)
    case Phoenix(k) =>
      Complex(z.re * z.re - z.im * z.im + (k.re * prev.re - k.im * prev.im) + p.re,
              z.re * z.im + z.im * z.re + (k.re * prev.im + k.im * prev.re) + p.im)
    case Clifford(a, b, c, d) => Attractors.CliffordStep(z, a, b, c, d, trig)
    case CelticMandelbrot =>
      Complex(Abs(z.re * z.re - z.im * z.im) + p.re, 2.0 * z.re * z.im + p.im)
  }

  /** Each map is the complex expression its sampling loop evaluates:
      z^2 + c for the Mandelbrot set and z^2 + k for a Julia set, the
      square of z folded into the first quadrant for the Burning Ship, the
      square of the conjugate for the Tricorn, z^2 + k prev + p for the
      Phoenix, and the square with the absolute value of its real part for
      the Celtic Mandelbrot.  (The Multibrot arm is z^power + c as written.) */
  lemma MandelbrotStep(p: Complex, z: Complex, prev: Complex, trig: Trig)
    ensures Step(Mandelbrot, p, z, prev, trig) == Add(Mul(z, z), p)
  {
  }

  lemma BurningShipStep(p: Complex, z: Complex, prev: Complex, trig: Trig)
    ensures var w := Complex(Abs(z.re), Abs(z.im));
            Step(BurningShip, p, z, prev, trig) == Add(Mul(w, w), p)
  {
  }

  lemma JuliaStep(k: Complex, p: Complex, z: Complex, prev: Complex, trig: Trig)
    ensures Step(Julia(k), p, z, prev, trig) == Add(Mul(z, z), k)
  {
  }

  lemma TricornStep(p: Complex, z: Complex, prev: Complex, trig: Trig)
    ensures Step(Tricorn, p, z, prev, trig) == Add(Mul(Complex(z.re, -z.im), Complex(z.re, -z.im)), p)
  {
    var s, r := Step(Tricorn, p, z, prev, trig), Add(Mul(Complex(z.re, -z.im), Complex(z.re, -z.im)), p);
    assert s.re == r.re && s.im == r.im;
  }

  lemma PhoenixStep(k: Complex, p: Complex, z: Complex, prev: Complex, trig: Trig)
    ensures Step(Phoenix(k), p, z, prev, trig) == Add(Add(Mul(z, z), Mul(k, prev)), p)
  {
    var s, r := Step(Phoenix(k), p, z, prev, trig), Add(Add(Mul(z, z), Mul(k, prev)), p);
    assert s.re == r.re && s.im == r.im;
  }

  lemma CelticStep(p: Complex, z: Complex, prev: Complex, trig: Trig)
    ensures Step(CelticMandelbrot, p, z, prev, trig) == Add(Complex(Abs(z.re * z.re - z.im * z.im), 2.0 * z.re * z.im), p)
  {
    var s, r := Step(CelticMandelbrot, p, z, prev, trig), Add(Complex(Abs(z.re * z.re - z.im * z.im), 2.0 * z.re * z.im), p);
    assert s.re == r.re && s.im == r.im;
  }

  // ---------------------------------------------------------------------
  // The escape-time count

  /** The count reached by the loop when z is its k-th iterate and prev the
      one before: stop at the budget or once z has escaped, otherwise step. */
  function CountFrom(f: Fractal, p: Complex, z: Complex, prev: Complex, k: nat, maxIter: nat, trig: Trig): (r: nat)
    requires !f.Newton? && k <= maxIter
    ensures k <= r <= maxIter
    decreases maxIter - k
  {
    if k == maxIter || Escaped(z) then k
    else CountFrom(f, p, Step(f, p, z, prev, trig), z, k + 1, maxIter, trig)
  }

  /** The iteration count of an escape-time fractal at p. */
  function EscapeTime(f: Fractal, p: Complex, maxIter: nat, trig: Trig): (r: nat)
    requires !f.Newton?
    ensures r <= maxIter
  {
    CountFrom(f, p, Start(f, p), Start(f, p), 0, maxIter, trig)
  }

  /** The n-th iterate paired with the one before it; at n = 0 both are the
      start. */
  function Trajectory(f: Fractal, p: Complex, n: nat, trig: Trig): (Complex, Complex)
    requires !f.Newton?
    decreases n
  {
    if n == 0 then (Start(f, p), Start(f, p))
    else
      var (z, prev) := Trajectory(f, p, n - 1, trig);
      (Step(f, p, z, prev, trig), z)
  }

  /** The n-th iterate. */
  function Orbit(f: Fractal, p: Complex, n: nat, trig: Trig): Complex
    requires !f.Newton?
  {
    Trajectory(f, p, n, trig).0
  }

  // ---------------------------------------------------------------------
  // Newton's method for z^3 - 1

  /** A floating-point complex value, or NaN once a 0/0 has occurred. */
  datatype Approx = Num(z: Complex) | NaN

  const Three: Complex := Complex(3.0, 0.0)

  /** f(z) = z^3 - 1. */
  function NewtonResidual(z: Complex): Complex {
    Sub(Mul(Mul(z, z), z), One)
  }

  /** f'(z) = 3 z^2. */
  function NewtonDerivative(z: Complex): Complex {
    Mul(Mul(Three, z), z)
  }

  /** The Newton correction f(z) / f'(z).  The derivative vanishes exactly
      at the origin, where the division is 0/0 and gives NaN; elsewhere the
      correction times the derivative is the residual. */
  function NewtonCorrection(z: Complex): (r: Approx)
    ensures r.NaN? <==> NormSqr(z) == 0.0
    ensures r.Num? ==> Mul(r.z, NewtonDerivative(z)) == NewtonResidual(z)
  {
    DerivativeVanishes(z);
    var df := NewtonDerivative(z);
    if NormSqr(df) == 0.0 then NaN else Num(Div(NewtonResidual(z), df))
  }

  lemma DerivativeVanishes(z: Complex)
    ensures NormSqr(NewtonDerivative(z)) == 0.0 <==> NormSqr(z) == 0.0
  {
    NormSqrMul(Mul(Three, z), z);
    NormSqrMul(Three, z);
    ZeroProduct(NormSqr(Three), NormSqr(z));
    ZeroProduct(NormSqr(Mul(Three, z)), NormSqr(z));
  }

  lemma ZeroProduct(x: real, y: real)
    ensures x * y == 0.0 <==> x == 0.0 || y == 0.0
  {
  }

  /** The correction computed from the current value; NaN stays NaN. */
  function Correction(a: Approx): Approx {
    match a
    case NaN => NaN
    case Num(z) => NewtonCorrection(z)
  }

  /** One Newton step: the value minus its correction; NaN is absorbing. */
  function NewtonNext(a: Approx): Approx {
    var d := Correction(a);
    if a.Num? && d.Num? then Num(Sub(a.z, d.z)) else NaN
  }

  /** The loop stops at a correction that is a number whose squared norm is
      below epsilon; every comparison with NaN is false. */
  predicate Small(d: Approx, epsilon: real) {
    d.Num? && d.z.re * d.z.re + d.z.im * d.z.im < epsilon
  }

  /** The count reached by the loop when a is the value after k steps. */
  function NewtonCountFrom(a: Approx, epsilon: real, k: nat, maxIter: nat): (r: nat)
    requires k <= maxIter
    ensures k <= r <= maxIter
    decreases maxIter - k
  {
    if k == maxIter || Small(Correction(a), epsilon) then k
    else NewtonCountFrom(NewtonNext(a), epsilon, k + 1, maxIter)
  }

  /** Newton's iteration count at c. */
  function NewtonTime(c: Complex, epsilon: real, maxIter: nat): (r: nat)
    ensures r <= maxIter
  {
    NewtonCountFrom(Num(c), epsilon, 0, maxIter)
  }

  /** The value after n Newton steps from c. */
  function NewtonIterate(c: Complex, n: nat): Approx
    decreases n
  {
    if n == 0 then Num(c) else NewtonNext(NewtonIterate(c, n - 1))
  }

  /** Step n (counting from zero) stops the loop. */
  predicate ConvergesAt(c: Complex, epsilon: real, n: nat) {
    Small(Correction(NewtonIterate(c, n)), epsilon)
  }

  // ---------------------------------------------------------------------
  // The sample dispatch

  /** The value a fractal reports for the point p. */
  function SampleCount(f: Fractal, p: Complex, maxIter: nat, trig: Trig): (r: nat)
    ensures r <= maxIter
  {
    if f.Newton? then NewtonTime(p, f.epsilon, maxIter) else EscapeTime(f, p, maxIter, trig)
  }

  method Sample(f: Fractal, p: Complex, maxIter: nat, trig: Trig) returns (n: nat)
    ensures n == SampleCount(f, p, maxIter, trig)
  {
    match f
    case Mandelbrot => n := SampleMandelbrot(p, maxIter);
    case BurningShip => n := SampleBurningShip(p, maxIter);
    case Julia(k) => n := SampleJulia(p, k, maxIter);
    case Tricorn => n := SampleTricorn(p, maxIter);
    case Multibrot(power) => n := SampleMultibrot(p, power, maxIter);
    case Newton(epsilon) => n := SampleNewton(p, epsilon, maxIter);
    case Phoenix(k) => n := SamplePhoenix(p, k, maxIter);
    case Clifford(a, b, c, d) => n := SampleClifford(p, a, b, c, d, maxIter, trig);
    case CelticMandelbrot => n := SampleCeltic(p, maxIter);
  }

  // ---------------------------------------------------------------------
  // The sampling loops, one per variant.  The ghost variable prev follows
  // the iterate before z, which only the Phoenix map reads.

  method SampleMandelbrot(c: Complex, maxIter: nat) returns (n: nat)
    ensures forall trig :: n == EscapeTime(Mandelbrot, c, maxIter, trig)
  {
    var z := Zero;
    ghost var prev := z;
    n := 0;
    while NormSqr(z) < 4.0 && n < maxIter
      invariant n <= maxIter
      invariant forall trig :: CountFrom(Mandelbrot, c, z, prev, n, maxIter, trig)
                            == EscapeTime(Mandelbrot, c, maxIter, trig)
      decreases maxIter - n
    {
      EscapedIsNormSqr(z);
      prev := z;
      z := Add(Mul(z, z), c);
      forall trig, v
        ensures Step(Mandelbrot, c, prev, v, trig) == z
      {
        MandelbrotStep(c, prev, v, trig);
      }
      n := n + 1;
    }
    EscapedIsNormSqr(z);
  }

  method SampleBurningShip(c: Complex, maxIter: nat) returns (n: nat)
    ensures forall trig :: n == EscapeTime(BurningShip, c, maxIter, trig)
  {
    var z := Zero;
    ghost var prev := z;
    n := 0;
    while NormSqr(z) < 4.0 && n < maxIter
      invariant n <= maxIter
      invariant forall trig :: CountFrom(BurningShip, c, z, prev, n, maxIter, trig)
                            == EscapeTime(BurningShip, c, maxIter, trig)
      decreases maxIter - n
    {
      EscapedIsNormSqr(z);
      prev := z;
      z := Complex(Abs(z.re), Abs(z.im));
      z := Add(Mul(z, z), c);
      forall trig, v
        ensures Step(BurningShip, c, prev, v, trig) == z
      {
        BurningShipStep(c, prev, v, trig);
      }
      n := n + 1;
    }
    EscapedIsNormSqr(z);
  }

  method SampleJulia(p: Complex, k: Complex, maxIter: nat) returns (n: nat)
    ensures forall trig :: n == EscapeTime(Julia(k), p, maxIter, trig)
  {
    var z := p;
    ghost var prev := z;
    n := 0;
    while NormSqr(z) < 4.0 && n < maxIter
      invariant n <= maxIter
      invariant forall trig :: CountFrom(Julia(k), p, z, prev, n, maxIter, trig)
                            == EscapeTime(Julia(k), p, maxIter, trig)
      decreases maxIter - n
    {
      EscapedIsNormSqr(z);
      prev := z;
      z := Add(Mul(z, z), k);
      forall trig, v
        ensures Step(Julia(k), p, prev, v, trig) == z
      {
        JuliaStep(k, p, prev, v, trig);
      }
      n := n + 1;
    }
    EscapedIsNormSqr(z);
  }

  method SampleTricorn(c: Complex, maxIter: nat) returns (n: nat)
    ensures forall trig :: n == EscapeTime(Tricorn, c, maxIter, trig)
  {
    var z := Zero;
    ghost var prev := z;
    n := 0;
    while NormSqr(z) < 4.0 && n < maxIter
      invariant n <= maxIter
      invariant forall trig :: CountFrom(Tricorn, c, z, prev, n, maxIter, trig)
                            == EscapeTime(Tricorn, c, maxIter, trig)
      decreases maxIter - n
    {
      EscapedIsNormSqr(z);
      prev := z;
      z := Add(Mul(Complex(z.re, -z.im), Complex(z.re, -z.im)), c);
      forall trig, v
        ensures Step(Tricorn, c, prev, v, trig) == z
      {
        TricornStep(c, prev, v, trig);
      }
      n := n + 1;
    }
    EscapedIsNormSqr(z);
  }

  method SampleMultibrot(c: Complex, power: nat, maxIter: nat) returns (n: nat)
    ensures forall trig :: n == EscapeTime(Multibrot(power), c, maxIter, trig)
  {
    var z := Zero;
    ghost var prev := z;
    n := 0;
    while NormSqr(z) < 4.0 && n < maxIter
      invariant n <= maxIter
      invariant forall trig :: CountFrom(Multibrot(power), c, z, prev, n, maxIter, trig)
                            == EscapeTime(Multibrot(power), c, maxIter, trig)
      decreases maxIter - n
    {
      EscapedIsNormSqr(z);
      prev := z;
      var zp := PowiLoop(z, power);
      z := Add(zp, c);
      n := n + 1;
    }
    EscapedIsNormSqr(z);
  }

  method SampleNewton(c: Complex, epsilon: real, maxIter: nat) returns (n: nat)
    ensures n == NewtonTime(c, epsilon, maxIter)
  {
    var z := Num(c);
    n := 0;
    while n < maxIter
      invariant n <= maxIter
      invariant NewtonCountFrom(z, epsilon, n, maxIter) == NewtonTime(c, epsilon, maxIter)
      decreases maxIter - n
    {
      var dz := Correction(z);
      z := if z.Num? && dz.Num? then Num(Sub(z.z, dz.z)) else NaN;
      if Small(dz, epsilon) {
        break;
      }
      n := n + 1;
    }
  }

  method SamplePhoenix(p: Complex, k: Complex, maxIter: nat) returns (n: nat)
    ensures forall trig :: n == EscapeTime(Phoenix(k), p, maxIter, trig)
  {
    var z := Zero;
    var zOld := z;
    n := 0;
    while NormSqr(z) < 4.0 && n < maxIter
      invariant n <= maxIter
      invariant forall trig :: CountFrom(Phoenix(k), p, z, zOld, n, maxIter, trig)
                            == EscapeTime(Phoenix(k), p, maxIter, trig)
      decreases maxIter - n
    {
      EscapedIsNormSqr(z);
      var temp := z;
      z := Add(Add(Mul(z, z), Mul(k, zOld)), p);
      forall trig
        ensures Step(Phoenix(k), p, temp, zOld, trig) == z
      {
        PhoenixStep(k, p, temp, zOld, trig);
      }
      zOld := temp;
      n := n + 1;
    }
    EscapedIsNormSqr(z);
  }

  method SampleClifford(p: Complex, a: real, b: real, c: real, d: real, maxIter: nat, trig: Trig)
    returns (n: nat)
    ensures n == EscapeTime(Clifford(a, b, c, d), p, maxIter, trig)
  {
    var z := p;
    ghost var prev := z;
    n := 0;
    while NormSqr(z) < 4.0 && n < maxIter
      invariant n <= maxIter
      invariant CountFrom(Clifford(a, b, c, d), p, z, prev, n, maxIter, trig)
             == EscapeTime(Clifford(a, b, c, d), p, maxIter, trig)
      decreases maxIter - n
    {
      EscapedIsNormSqr(z);
      prev := z;
      z := Attractors.CliffordStep(z, a, b, c, d, trig);
      n := n + 1;
    }
    EscapedIsNormSqr(z);
  }

  method SampleCeltic(c: Complex, maxIter: nat) returns (n: nat)
    ensures forall trig :: n == EscapeTime(CelticMandelbrot, c, maxIter, trig)
  {
    var z := Zero;
    ghost var prev := z;
    n := 0;
    while NormSqr(z) < 4.0 && n < maxIter
      invariant n <= maxIter
      invariant forall trig :: CountFrom(CelticMandelbrot, c, z, prev, n, maxIter, trig)
                            == EscapeTime(CelticMandelbrot, c, maxIter, trig)
      decreases maxIter - n
    {
      EscapedIsNormSqr(z);
      prev := z;
      z := Add(Complex(Abs(z.re * z.re - z.im * z.im), 2.0 * z.re * z.im), c);
      forall trig, v
        ensures Step(CelticMandelbrot, c, prev, v, trig) == z
      {
        CelticStep(c, prev, v, trig);
      }
      n := n + 1;
    }
    EscapedIsNormSqr(z);
  }

  // ---------------------------------------------------------------------
  // What the counts mean

  lemma OrbitStep(f: Fractal, p: Complex, n: nat, trig: Trig)
    requires !f.Newton?
    ensures Orbit(f, p, n + 1, trig) == Step(f, p, Orbit(f, p, n, trig), Trajectory(f, p, n, trig).1, trig)
    ensures Trajectory(f, p, n + 1, trig).1 == Orbit(f, p, n, trig)
  {
  }

  /** Started from the k-th iterate, the count is the first index from k on
      at which the orbit has escaped, or the budget. */
  lemma {:induction false} CountFromOrbit(f: Fractal, p: Complex, k: nat, maxIter: nat, trig: Trig)
    requires !f.Newton? && k <= maxIter
    ensures var r := CountFrom(f, p, Orbit(f, p, k, trig), Trajectory(f, p, k, trig).1, k, maxIter, trig);
            r < maxIter ==> Escaped(Orbit(f, p, r, trig))
    decreases maxIter - k
  {
    if k < maxIter && !Escaped(Orbit(f, p, k, trig)) {
      OrbitStep(f, p, k, trig);
      CountFromOrbit(f, p, k + 1, maxIter, trig);
    }
  }

  lemma {:induction false} CountFromInside(f: Fractal, p: Complex, k: nat, maxIter: nat, trig: Trig)
    requires !f.Newton? && k <= maxIter
    ensures var r := CountFrom(f, p, Orbit(f, p, k, trig), Trajectory(f, p, k, trig).1, k, maxIter, trig);
            forall j :: k <= j < r ==> !Escaped(Orbit(f, p, j, trig))
    decreases maxIter - k
  {
    if k < maxIter && !Escaped(Orbit(f, p, k, trig)) {
      OrbitStep(f, p, k, trig);
      CountFromInside(f, p, k + 1, maxIter, trig);
    }
  }

  /** The escape time is the index of the first iterate whose squared norm
      reaches the bailout, or the budget when none of the first maxIter
      iterates does. */
  lemma EscapeTimeFirst(f: Fractal, p: Complex, maxIter: nat, trig: Trig)
    requires !f.Newton?
    ensures var r := EscapeTime(f, p, maxIter, trig);
            (r < maxIter ==> Escaped(Orbit(f, p, r, trig))) &&
            (forall j :: 0 <= j < r ==> !Escaped(Orbit(f, p, j, trig)))
  {
    CountFromOrbit(f, p, 0, maxIter, trig);
    CountFromInside(f, p, 0, maxIter, trig);
  }

  /** The characterisation determines the escape time: a count with the
      same two properties is the escape time. */
  lemma EscapeTimeUnique(f: Fractal, p: Complex, maxIter: nat, trig: Trig, n: nat)
    requires !f.Newton? && n <= maxIter
    ensures n == EscapeTime(f, p, maxIter, trig) <==>
            (n < maxIter ==> Escaped(Orbit(f, p, n, trig))) &&
            (forall j :: 0 <= j < n ==> !Escaped(Orbit(f, p, j, trig)))
  {
    EscapeTimeFirst(f, p, maxIter, trig);
  }

  // ---------------------------------------------------------------------
  // Properties of the escape-time variants

  /** With no budget every variant, Newton's included, reports zero. */
  lemma NoBudget(f: Fractal, p: Complex, trig: Trig)
    ensures SampleCount(f, p, 0, trig) == 0
  {
  }

  /** A variant that starts at the origin gets past the first test, so it
      reports at least one when the budget allows one step. */
  lemma OriginStartsInside(f: Fractal, p: Complex, maxIter: nat, trig: Trig)
    requires !f.Newton? && !f.Julia? && !f.Clifford? && maxIter >= 1
    ensures EscapeTime(f, p, maxIter, trig) >= 1
  {
  }

  /** Julia and Clifford start at the sampled point, so a point outside the
      bailout disc reports zero. */
  lemma StartOutside(f: Fractal, p: Complex, maxIter: nat, trig: Trig)
    requires (f.Julia? || f.Clifford?) && Escaped(p)
    ensures EscapeTime(f, p, maxIter, trig) == 0
  {
  }

  /** Two variants whose maps agree everywhere and that start at the same
      point report the same count. */
  lemma {:induction false} SameStepSameCount(f: Fractal, g: Fractal, p: Complex, z: Complex, prev: Complex,
                                            k: nat, maxIter: nat, trig: Trig)
    requires !f.Newton? && !g.Newton? && k <= maxIter
    requires forall w, v :: Step(f, p, w, v, trig) == Step(g, p, w, v, trig)
    ensures CountFrom(f, p, z, prev, k, maxIter, trig) == CountFrom(g, p, z, prev, k, maxIter, trig)
    decreases maxIter - k
  {
    if k < maxIter && !Escaped(z) {
      SameStepSameCount(f, g, p, Step(f, p, z, prev, trig), z, k + 1, maxIter, trig);
    }
  }

  /** The power-2 Multibrot is the Mandelbrot set. */
  lemma MultibrotTwo(c: Complex, maxIter: nat, trig: Trig)
    ensures EscapeTime(Multibrot(2), c, maxIter, trig) == EscapeTime(Mandelbrot, c, maxIter, trig)
  {
    forall w, v
      ensures Step(Multibrot(2), c, w, v, trig) == Step(Mandelbrot, c, w, v, trig)
    {
      PowiSucc(w, 1);
    }
    SameStepSameCount(Multibrot(2), Mandelbrot, c, Zero, Zero, 0, maxIter, trig);
  }

  /** Only the Clifford map reads sine and cosine: every other variant
      reports the same count whatever functions are supplied. */
  lemma TrigIrrelevant(f: Fractal, p: Complex, maxIter: nat, trig: Trig, trig': Trig)
    requires !f.Newton? && !f.Clifford?
    ensures EscapeTime(f, p, maxIter, trig) == EscapeTime(f, p, maxIter, trig')
  {
    CountFromTrigFree(f, p, Start(f, p), Start(f, p), 0, maxIter, trig, trig');
  }

  lemma {:induction false} CountFromTrigFree(f: Fractal, p: Complex, z: Complex, prev: Complex,
                                            k: nat, maxIter: nat, trig: Trig, trig': Trig)
    requires !f.Newton? && !f.Clifford? && k <= maxIter
    ensures CountFrom(f, p, z, prev, k, maxIter, trig) == CountFrom(f, p, z, prev, k, maxIter, trig')
    decreases maxIter - k
  {
    if k < maxIter && !Escaped(z) {
      StepTrigFree(f, p, z, prev, trig, trig');
      CountFromTrigFree(f, p, Step(f, p, z, prev, trig), z, k + 1, maxIter, trig, trig');
    }
  }

  /** Only the Clifford map looks at sine and cosine. */
  lemma StepTrigFree(f: Fractal, p: Complex, z: Complex, prev: Complex, trig: Trig, trig': Trig)
    requires !f.Newton? && !f.Clifford?
    ensures Step(f, p, z, prev, trig) == Step(f, p, z, prev, trig')
  {
    match f
    case Mandelbrot =>
    case BurningShip =>
    case Julia(_) =>
    case Tricorn =>
    case Multibrot(_) =>
    case Phoenix(_) =>
    case CelticMandelbrot =>
  }

  /** The Mandelbrot orbit of c is the Julia orbit of c for the constant c,
      one step behind: 0, c, c^2 + c, ...  So the Mandelbrot count with one
      more step of budget is one more than the Julia count. */
  lemma MandelbrotJulia(c: Complex, maxIter: nat, trig: Trig)
    ensures EscapeTime(Mandelbrot, c, maxIter + 1, trig) == 1 + EscapeTime(Julia(c), c, maxIter, trig)
  {
    assert Step(Mandelbrot, c, Zero, Zero, trig) == c;
    MandelbrotJuliaFrom(c, c, Zero, Zero, 0, maxIter, trig);
  }

  lemma {:induction false} MandelbrotJuliaFrom(c: Complex, z: Complex, prev: Complex, prev': Complex,
                                              k: nat, maxIter: nat, trig: Trig)
    requires k <= maxIter
    ensures CountFrom(Mandelbrot, c, z, prev, k + 1, maxIter + 1, trig)
         == 1 + CountFrom(Julia(c), c, z, prev', k, maxIter, trig)
    decreases maxIter - k
  {
    if k < maxIter && !Escaped(z) {
      MandelbrotJuliaFrom(c, Step(Mandelbrot, c, z, z, trig), z, z, k + 1, maxIter, trig);
    }
  }

  /** An orbit caught in a trap, a set of points inside the bailout disc
      that the map sends into itself, never escapes: the count runs to the
      budget.  A fixed point is the trap of one point. */
  lemma {:induction false} TrappedCount(f: Fractal, p: Complex, z: Complex, prev: Complex,
                                       k: nat, maxIter: nat, trig: Trig, trap: Complex -> bool)
    requires !f.Newton? && k <= maxIter && trap(z)
    requires forall w :: trap(w) ==> !Escaped(w)
    requires forall w, v :: trap(w) ==> trap(Step(f, p, w, v, trig))
    ensures CountFrom(f, p, z, prev, k, maxIter, trig) == maxIter
    decreases maxIter - k
  {
    if k < maxIter {
      TrappedCount(f, p, Step(f, p, z, prev, trig), z, k + 1, maxIter, trig, trap);
    }
  }

  /** The origin is a fixed point of z^2 + 0, so the Mandelbrot count at
      the origin is the whole budget. */
  lemma MandelbrotOrigin(c: Complex, maxIter: nat, trig: Trig)
    requires c.re == 0.0 && c.im == 0.0
    ensures EscapeTime(Mandelbrot, c, maxIter, trig) == maxIter
  {
    TrappedCount(Mandelbrot, c, Zero, Zero, 0, maxIter, trig, w => w == Zero);
  }

  /** The point -3/4, the cusp where the main cardioid of the Mandelbrot set
      meets its period-2 bulb, never escapes: z^2 - 3/4 maps the segment
      [-3/4, 0] of the real axis into [-3/4, -3/16]. */
  lemma CardioidCusp(maxIter: nat, trig: Trig)
    ensures EscapeTime(Mandelbrot, Complex(-0.75, 0.0), maxIter, trig) == maxIter
  {
    var c := Complex(-0.75, 0.0);
    var trap := (w: Complex) => w.im == 0.0 && -0.75 <= w.re <= 0.0;
    forall w, v | trap(w)
      ensures trap(Step(Mandelbrot, c, w, v, trig)) && !Escaped(w)
    {
      SquareOnSegment(w.re);
    }
    TrappedCount(Mandelbrot, c, Zero, Zero, 0, maxIter, trig, trap);
  }

  lemma SquareOnSegment(x: real)
    requires -0.75 <= x <= 0.0
    ensures 0.0 <= x * x <= 0.5625
  {
    Attractors.ProductNonNegative(-x, -x);
    Attractors.ProductNonNegative(0.75 + x, 0.75 - x);
  }

  /** The Mandelbrot set is symmetric about the real axis: the orbit of the
      conjugate point is the conjugate orbit, so the counts agree. */
  lemma MandelbrotConjugate(c: Complex, maxIter: nat, trig: Trig)
    ensures EscapeTime(Mandelbrot, Conj(c), maxIter, trig) == EscapeTime(Mandelbrot, c, maxIter, trig)
  {
    ConjugateFrom(c, Zero, Zero, Zero, 0, maxIter, trig);
  }

  function Conj(z: Complex): Complex {
    Complex(z.re, -z.im)
  }

  lemma {:induction false} ConjugateFrom(c: Complex, z: Complex, prev: Complex, prev': Complex,
                                        k: nat, maxIter: nat, trig: Trig)
    requires k <= maxIter
    ensures CountFrom(Mandelbrot, Conj(c), Conj(z), prev', k, maxIter, trig)
         == CountFrom(Mandelbrot, c, z, prev, k, maxIter, trig)
    decreases maxIter - k
  {
    assert Escaped(Conj(z)) == Escaped(z);
    if k < maxIter && !Escaped(z) {
      var w := Step(Mandelbrot, c, z, prev, trig);
      assert Step(Mandelbrot, Conj(c), Conj(z), prev', trig) == Conj(w);
      ConjugateFrom(c, w, z, Conj(z), k + 1, maxIter, trig);
    }
  }

  // ---------------------------------------------------------------------
  // Properties of Newton's count

  /** Started from the k-th Newton value, the count is the first step from
      k on whose correction is small, or the budget. */
  lemma {:induction false} NewtonCountFromIterate(c: Complex, epsilon: real, k: nat, maxIter: nat)
    requires k <= maxIter
    ensures var r := NewtonCountFrom(NewtonIterate(c, k), epsilon, k, maxIter);
            (r < maxIter ==> ConvergesAt(c, epsilon, r)) &&
            (forall j :: k <= j < r ==> !ConvergesAt(c, epsilon, j))
    decreases maxIter - k
  {
    if k < maxIter && !ConvergesAt(c, epsilon, k) {
      NewtonCountFromIterate(c, epsilon, k + 1, maxIter);
    }
  }

  /** Newton's count is the index of the first step whose correction has
      squared norm below epsilon (the loop breaks before counting it), or the
      budget when none of the first maxIter steps does. */
  lemma NewtonTimeFirst(c: Complex, epsilon: real, maxIter: nat)
    ensures var r := NewtonTime(c, epsilon, maxIter);
            (r < maxIter ==> ConvergesAt(c, epsilon, r)) &&
            (forall j :: 0 <= j < r ==> !ConvergesAt(c, epsilon, j))
  {
    NewtonCountFromIterate(c, epsilon, 0, maxIter);
  }

  /** The characterisation determines Newton's count. */
  lemma NewtonTimeUnique(c: Complex, epsilon: real, maxIter: nat, n: nat)
    requires n <= maxIter
    ensures n == NewtonTime(c, epsilon, maxIter) <==>
            (n < maxIter ==> ConvergesAt(c, epsilon, n)) &&
            (forall j :: 0 <= j < n ==> !ConvergesAt(c, epsilon, j))
  {
    NewtonTimeFirst(c, epsilon, maxIter);
  }

  /** Once the value is NaN no correction is small: the loop runs out. */
  lemma {:induction false} NaNRunsOut(epsilon: real, k: nat, maxIter: nat)
    requires k <= maxIter
    ensures NewtonCountFrom(NaN, epsilon, k, maxIter) == maxIter
    decreases maxIter - k
  {
    if k < maxIter {
      NaNRunsOut(epsilon, k + 1, maxIter);
    }
  }

  /** At the origin the derivative vanishes, the first correction is NaN and
      the count is the whole budget. */
  lemma NewtonOrigin(c: Complex, epsilon: real, maxIter: nat)
    requires NormSqr(c) == 0.0
    ensures NewtonTime(c, epsilon, maxIter) == maxIter
  {
    if maxIter > 0 {
      assert NewtonNext(Num(c)) == NaN;
      NaNRunsOut(epsilon, 1, maxIter);
    }
  }

  /** A tolerance that is not positive is never met (a squared norm is never
      negative), so the count is the whole budget. */
  lemma NewtonNoTolerance(c: Complex, epsilon: real, maxIter: nat)
    requires epsilon <= 0.0
    ensures NewtonTime(c, epsilon, maxIter) == maxIter
  {
    NeverSmall(Num(c), epsilon, 0, maxIter);
  }

  lemma {:induction false} NeverSmall(a: Approx, epsilon: real, k: nat, maxIter: nat)
    requires epsilon <= 0.0 && k <= maxIter
    ensures NewtonCountFrom(a, epsilon, k, maxIter) == maxIter
    decreases maxIter - k
  {
    if k < maxIter {
      var d := Correction(a);
      if d.Num? {
        assert NormSqr(d.z) >= 0.0;
      }
      NeverSmall(NewtonNext(a), epsilon, k + 1, maxIter);
    }
  }

  /** At a cube root of unity the residual, and so the first correction, is
      zero: with a positive tolerance the loop stops at once. */
  lemma NewtonAtRoot(c: Complex, epsilon: real, maxIter: nat)
    requires Mul(Mul(c, c), c) == One && epsilon > 0.0
    ensures NewtonTime(c, epsilon, maxIter) == 0
  {
    RootNonZero(c);
    DerivativeVanishes(c);
    var d := NewtonCorrection(c).z;
    var df := NewtonDerivative(c);
    assert Mul(d, df).re == 0.0 && Mul(d, df).im == 0.0;
    FactorVanishes(d.re, d.im, df.re, df.im);
  }

  /** A cube root of unity is not the origin. */
  lemma RootNonZero(c: Complex)
    requires Mul(Mul(c, c), c) == One
    ensures NormSqr(c) != 0.0
  {
    NormSqrMul(Mul(c, c), c);
    NormSqrMul(c, c);
    ZeroProduct(NormSqr(c), NormSqr(c));
    ZeroProduct(NormSqr(Mul(c, c)), NormSqr(c));
  }

  /** A complex product that is zero, with a non-zero second factor, has a
      zero first factor; stated on the components. */
  lemma FactorVanishes(p: real, q: real, r: real, s: real)
    requires r * r + s * s != 0.0
    requires p * r - q * s == 0.0 && p * s + q * r == 0.0
    ensures p == 0.0 && q == 0.0
  {
    assert p * (r * r + s * s) == r * (p * r - q * s) + s * (p * s + q * r);
    assert q * (r * r + s * s) == r * (p * s + q * r) - s * (p * r - q * s);
    ZeroProduct(p, r * r + s * s);
    ZeroProduct(q, r * r + s * s);
  }
}
