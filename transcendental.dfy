/** The sine and cosine that the floating-point type supplies.  Their values
    are not computed here: a model takes them as a pair of total functions
    and states, where a proof needs it, the laws those functions obey. */
module Transcendental {
  import ComplexArith

  datatype Trig = Trig(sin: real -> real, cos: real -> real)

  /** The sine and cosine of x under t. */
  function Sin(t: Trig, x: real): real {
    t.sin(x)
  }

  function Cos(t: Trig, x: real): real {
    t.cos(x)
  }

  /** Both functions stay within [-1, 1]. */
  ghost predicate Bounded(t: Trig) {
    forall x :: -1.0 <= Sin(t, x) <= 1.0 && -1.0 <= Cos(t, x) <= 1.0
  }

  /** sin^2 + cos^2 = 1 everywhere. */
  ghost predicate Pythagorean(t: Trig) {
    forall x :: Sin(t, x) * Sin(t, x) + Cos(t, x) * Cos(t, x) == 1.0
  }

  /** The Pythagorean identity already bounds both functions. */
  lemma PythagoreanImpliesBounded(t: Trig)
    requires Pythagorean(t)
    ensures Bounded(t)
  {
    forall x
      ensures -1.0 <= Sin(t, x) <= 1.0 && -1.0 <= Cos(t, x) <= 1.0
    {
      var s, c := Sin(t, x), Cos(t, x);
      var ss, cc := s * s, c * c;
      ComplexArith.Square(s, ss);
      ComplexArith.Square(c, cc);
      assert ss + cc == 1.0;
      SquareAtMostOne(s, ss);
      SquareAtMostOne(c, cc);
    }
  }

  lemma SquareAtMostOne(x: real, s: real)
    requires s == x * x && s <= 1.0
    ensures -1.0 <= x <= 1.0
  {
  }
}
