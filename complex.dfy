/** Complex numbers over exact reals: the field operations that the
    escape-time and attractor iterations are built from. */
module ComplexArith {

  datatype Complex = Complex(re: real, im: real)

  const Zero: Complex := Complex(0.0, 0.0)
  const One: Complex := Complex(1.0, 0.0)

  /** Absolute value of a real (the float type's `abs`). */
  function Abs(x: real): (r: real)
    ensures r >= 0.0 && (r == x || r == -x)
  {
    if x < 0.0 then -x else x
  }

  function Neg(z: Complex): Complex {
    Complex(-z.re, -z.im)
  }

  function Add(a: Complex, b: Complex): Complex {
    Complex(a.re + b.re, a.im + b.im)
  }

  function Sub(a: Complex, b: Complex): Complex {
    Complex(a.re - b.re, a.im - b.im)
  }

  function Mul(a: Complex, b: Complex): Complex {
    Complex(a.re * b.re - a.im * b.im, a.re * b.im + a.im * b.re)
  }

  /** Multiplication of both components by a real. */
  function Scale(k: real, z: Complex): Complex {
    Complex(k * z.re, k * z.im)
  }

  /** Squared modulus: never negative (it is zero only at the origin, see
      NormSqrZero). */
  function NormSqr(z: Complex): (r: real)
    ensures r >= 0.0
  {
    var r := z.re * z.re + z.im * z.im;
    SumOfSquares(z, r);
    r
  }

  lemma NormSqrZero(z: Complex)
    ensures NormSqr(z) == 0.0 <==> z == Zero
  {
    SumOfSquares(z, NormSqr(z));
  }

  lemma SumOfSquares(z: Complex, r: real)
    requires r == z.re * z.re + z.im * z.im
    ensures r >= 0.0 && (r == 0.0 <==> z == Zero)
  {
    var s, t := z.re * z.re, z.im * z.im;
    Square(z.re, s);
    Square(z.im, t);
    if r == 0.0 {
      assert z == Complex(z.re, z.im);
    }
  }

  /** A square is never negative and is positive away from zero. */
  lemma Square(x: real, s: real)
    requires s == x * x
    ensures s >= 0.0 && (x != 0.0 ==> s > 0.0)
  {
    if x < 0.0 {
      ProductPositive(-x, -x, s);
    } else if x > 0.0 {
      ProductPositive(x, x, s);
    }
  }

  lemma ProductPositive(a: real, b: real, p: real)
    requires a > 0.0 && b > 0.0 && p == a * b
    ensures p > 0.0
  {
  }

  // ---------------------------------------------------------------------
  // Small facts of real arithmetic, each on plain variables so that the
  // solver never has to rewrite inside a product on its own.

  /** Equal factors give equal products. */
  lemma MulCongruent(k: real, x: real, y: real)
    requires x == y
    ensures k * x == k * y
  {
  }

  lemma MulByOne(k: real, t: real)
    requires t == 1.0
    ensures k * t == k
  {
  }

  /** Complex division by the conjugate-normalised formula.  A divisor of
      zero norm is a caller error. */
  function Div(a: Complex, b: Complex): (q: Complex)
    requires NormSqr(b) != 0.0
    ensures Mul(q, b) == a
  {
    var n := b.re * b.re + b.im * b.im;
    var q := Complex((a.re * b.re + a.im * b.im) / n, (a.im * b.re - a.re * b.im) / n);
    DivMulCancel(a, b, q);
    q
  }

  lemma DivMulCancel(a: Complex, b: Complex, q: Complex)
    requires NormSqr(b) != 0.0
    requires q.re == (a.re * b.re + a.im * b.im) / NormSqr(b)
    requires q.im == (a.im * b.re - a.re * b.im) / NormSqr(b)
    ensures Mul(q, b) == a
  {
    var n := NormSqr(b);
    var x, y := a.re * b.re + a.im * b.im, a.im * b.re - a.re * b.im;
    assert q.re * n == x;
    assert q.im * n == y;
    calc {
      (q.re * b.re - q.im * b.im) * n;
      (q.re * n) * b.re - (q.im * n) * b.im;
      x * b.re - y * b.im;
      a.re * n;
    }
    calc {
      (q.re * b.im + q.im * b.re) * n;
      (q.re * n) * b.im + (q.im * n) * b.re;
      x * b.im + y * b.re;
      a.im * n;
    }
    CancelFactor(q.re * b.re - q.im * b.im, a.re, n);
    CancelFactor(q.re * b.im + q.im * b.re, a.im, n);
  }

  lemma CancelFactor(u: real, v: real, n: real)
    requires n != 0.0 && u * n == v * n
    ensures u == v
  {
    assert (u - v) * n == 0.0;
  }

  /** Division of both components by a real scalar (the source's `div_scalar`
      and its `Div<T>` impl compute the same thing). */
  function DivScalar(z: Complex, s: real): (r: Complex)
    requires s != 0.0
    ensures r.re * s == z.re && r.im * s == z.im
  {
    Complex(z.re / s, z.im / s)
  }

  /** Integer power by repeated right multiplication: the result starts at z
      and is multiplied by z another n - 1 times; the zeroth power is one. */
  function Powi(z: Complex, n: nat): Complex
    decreases n
  {
    if n == 0 then One
    else if n == 1 then z
    else Mul(Powi(z, n - 1), z)
  }

  /** The loop that computes the power, as the source writes it. */
  method PowiLoop(z: Complex, n: nat) returns (result: Complex)
    ensures result == Powi(z, n)
  {
    if n == 0 {
      return One;
    }
    result := z;
    for i := 1 to n
      invariant result == Powi(z, i)
    {
      result := Mul(result, z);
    }
  }

  /** Reciprocal: the conjugate divided by the squared norm. */
  function Inv(z: Complex): (r: Complex)
    requires NormSqr(z) != 0.0
    ensures Mul(r, z) == One
  {
    var n := z.re * z.re + z.im * z.im;
    var r := Complex(z.re / n, -z.im / n);
    InvMulCancel(z, r);
    r
  }

  lemma InvMulCancel(z: Complex, r: Complex)
    requires NormSqr(z) != 0.0
    requires r.re == z.re / NormSqr(z) && r.im == -z.im / NormSqr(z)
    ensures Mul(r, z) == One
  {
    var n := NormSqr(z);
    assert r.re * n == z.re;
    assert r.im * n == -z.im;
    calc {
      (r.re * z.re - r.im * z.im) * n;
      (r.re * n) * z.re - (r.im * n) * z.im;
      z.re * z.re + z.im * z.im;
      1.0 * n;
    }
    calc {
      (r.re * z.im + r.im * z.re) * n;
      (r.re * n) * z.im + (r.im * n) * z.re;
      0.0 * n;
    }
    CancelFactor(r.re * z.re - r.im * z.im, 1.0, n);
    CancelFactor(r.re * z.im + r.im * z.re, 0.0, n);
  }

  // ---------------------------------------------------------------------
  // Algebraic laws of the operations

  lemma AddSubCancel(a: Complex, b: Complex)
    ensures Sub(Add(a, b), b) == a
    ensures Add(Sub(a, b), b) == a
  {
  }

  lemma NegInvolution(z: Complex)
    ensures Neg(Neg(z)) == z
    ensures Add(z, Neg(z)) == Zero
  {
  }

  lemma MulCommutative(a: Complex, b: Complex)
    ensures Mul(a, b) == Mul(b, a)
  {
  }

  lemma MulOneLeft(z: Complex)
    ensures Mul(One, z) == z
  {
  }

  /** The power satisfies the textbook recurrence for every n, including
      n = 0, so the special case for n = 1 changes nothing. */
  lemma PowiSucc(z: Complex, n: nat)
    ensures Powi(z, 0) == One && Powi(z, 1) == z
    ensures Powi(z, n + 1) == Mul(Powi(z, n), z)
    ensures Powi(z, 2) == Mul(z, z)
  {
    if n == 0 {
      MulOneLeft(z);
    }
  }

  /** The squared norm is multiplicative. */
  lemma NormSqrMul(a: Complex, b: Complex)
    ensures NormSqr(Mul(a, b)) == NormSqr(a) * NormSqr(b)
  {
    var p, q, r, s := a.re, a.im, b.re, b.im;
    calc {
      NormSqr(Mul(a, b));
      (p * r - q * s) * (p * r - q * s) + (p * s + q * r) * (p * s + q * r);
      p * p * r * r + q * q * s * s + p * p * s * s + q * q * r * r;
      (p * p + q * q) * (r * r + s * s);
    }
  }

  /** Scaling by k scales the squared norm by k^2. */
  lemma NormSqrScale(k: real, z: Complex)
    ensures NormSqr(Scale(k, z)) == k * k * NormSqr(z)
  {
  }

  /** A point (c, s) with c^2 + s^2 = 1 has unit norm. */
  lemma UnitCircle(c: real, s: real)
    requires s * s + c * c == 1.0
    ensures NormSqr(Complex(c, s)) == 1.0
  {
  }

  /** The norm of an integer power is the power of the norm. */
  lemma {:induction false} NormSqrPowi(z: Complex, n: nat)
    ensures NormSqr(Powi(z, n)) == RealPow(NormSqr(z), n)
  {
    if n == 0 {
    } else if n == 1 {
    } else {
      NormSqrPowi(z, n - 1);
      NormSqrMul(Powi(z, n - 1), z);
    }
  }

  function RealPow(x: real, n: nat): real {
    if n == 0 then 1.0 else RealPow(x, n - 1) * x
  }
}
