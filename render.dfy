/** Rendering: a fractal is rendered by supersampling each pixel of a view
    of the plane; an attractor by iterating it from many starting points
    and counting the hits of each orbit in the pixels of the view. */
module Render {
  import opened ComplexArith
  import opened Transcendental
  import opened Grids
  import opened Fractals
  import Attractors

  /** Sums and counts are 32-bit unsigned integers in the renderer. */
  const U32Limit: nat := 0x1_0000_0000

  /** A view of the plane: the point at the middle of the image, the height
      of the image in the plane, and the resolution in pixels. */
  datatype View = View(centre: Complex, scale: real, xRes: nat, yRes: nat)

  /** The width of the image in the plane: the height stretched by the
      aspect ratio. */
  function Width(v: View): real
    requires v.yRes > 0
  {
    v.scale * ((v.xRes as real) / (v.yRes as real))
  }

  /** The height of a pixel. */
  function YStep(v: View): real
    requires v.yRes > 0
  {
    v.scale / v.yRes as real
  }

  /** The width of a pixel: the width divided by the horizontal resolution,
      which makes the pixels square. */
  function XStep(v: View): (r: real)
    requires v.xRes > 0 && v.yRes > 0
    ensures r == YStep(v)
  {
    var n := v.xRes as real;
    var r := Width(v) / n;
    SquarePixels(v.scale, n, v.yRes as real, r);
    r
  }

  lemma SquarePixels(s: real, n: real, m: real, r: real)
    requires n > 0.0 && m > 0.0 && r == s * (n / m) / n
    ensures r == s / m
  {
    assert r * n == s * (n / m);
    assert (s / m) * n == s * (n / m);
    CancelFactor(r, s / m, n);
  }

  // ---------------------------------------------------------------------
  // Supersampling a fractal

  /** The centre of pixel (x, y): half a pixel into the pixel from its
      corner, with pixel (xRes / 2, yRes / 2) touching the centre of the
      view. */
  function PixelCentre(v: View, x: nat, y: nat): Complex
    requires v.xRes > 0 && v.yRes > 0
  {
    Complex(Along(v.centre.re, x as real + 0.5, v.xRes, XStep(v)),
            Along(v.centre.im, y as real + 0.5, v.yRes, YStep(v)))
  }

  /** The coordinate at position u along an axis of res pixels of length
      step, centred on o. */
  function Along(o: real, u: real, res: nat, step: real): real {
    o + (u - res as real / 2.0) * step
  }

  /** The offset of sub-sample k of s from the pixel centre along an axis
      whose pixels are step long: the sub-samples sit at the centres of s
      equal slices of the pixel, strictly within half a step of its
      centre, and a single sample sits at the centre itself. */
  function SubOffset(k: nat, s: nat, step: real): (r: real)
    requires k < s
    ensures step != 0.0 ==> 2.0 * Abs(r) < Abs(step)
    ensures step == 0.0 || s == 1 ==> r == 0.0
  {
    var t := (k as real + 0.5) / s as real - 0.5;
    SliceCentre(k, s, t);
    ScaledFraction(t, step);
    t * step
  }

  lemma SliceCentre(k: nat, s: nat, t: real)
    requires k < s && t == (k as real + 0.5) / s as real - 0.5
    ensures -0.5 < t < 0.5
    ensures s == 1 ==> t == 0.0
  {
    if s > 1 {
      QuotientInUnit(k as real + 0.5, s as real);
    }
  }

  lemma QuotientInUnit(a: real, n: real)
    requires 0.0 < a < n
    ensures 0.0 < a / n < 1.0
  {
    var q := a / n;
    assert q * n == a;
    if q >= 1.0 {
      assert (q - 1.0) * n == q * n - n;
      if q > 1.0 {
        ProductPositive(q - 1.0, n, (q - 1.0) * n);
      }
    }
    if q <= 0.0 {
      if q < 0.0 {
        ProductPositive(-q, n, (-q) * n);
      }
    }
  }

  lemma ScaledFraction(t: real, step: real)
    requires -0.5 < t < 0.5
    ensures step != 0.0 ==> 2.0 * Abs(t * step) < Abs(step)
    ensures t == 0.0 || step == 0.0 ==> t * step == 0.0
  {
    AbsProduct(t, step);
    if step != 0.0 {
      var a, u := Abs(step), Abs(t);
      ProductPositive(0.5 - u, a, (0.5 - u) * a);
      assert (0.5 - u) * a == 0.5 * a - u * a;
    }
  }

  lemma AbsProduct(a: real, b: real)
    ensures Abs(a * b) == Abs(a) * Abs(b)
  {
    if a < 0.0 && b >= 0.0 {
      assert a * b == -((-a) * b);
    } else if a >= 0.0 && b < 0.0 {
      assert a * b == -(a * (-b));
    } else if a < 0.0 && b < 0.0 {
      assert a * b == (-a) * (-b);
    }
  }

  /** Where sub-sample (i, j) of pixel (x, y) is taken, with s sub-samples a
      side. */
  function SamplePoint(v: View, x: nat, y: nat, i: nat, j: nat, s: nat): Complex
    requires v.xRes > 0 && v.yRes > 0 && i < s && j < s
  {
    var c := PixelCentre(v, x, y);
    Complex(c.re + SubOffset(i, s, XStep(v)), c.im + SubOffset(j, s, YStep(v)))
  }

  /** The counts of sub-samples (i, 0) .. (i, n - 1) of pixel (x, y), added
      up. */
  function ColumnSum(f: Fractal, v: View, x: nat, y: nat, i: nat, n: nat, s: nat, maxIter: nat, trig: Trig): (r: nat)
    requires v.xRes > 0 && v.yRes > 0 && i < s && n <= s
    ensures r <= n * maxIter
  {
    if n == 0 then 0
    else ColumnSum(f, v, x, y, i, n - 1, s, maxIter, trig) + SampleCount(f, SamplePoint(v, x, y, i, n - 1, s), maxIter, trig)
  }

  /** The counts of the first m columns of sub-samples of pixel (x, y),
      added up. */
  function PixelSum(f: Fractal, v: View, x: nat, y: nat, m: nat, s: nat, maxIter: nat, trig: Trig): (r: nat)
    requires v.xRes > 0 && v.yRes > 0 && m <= s
    ensures r <= m * (s * maxIter)
  {
    if m == 0 then 0
    else
      var before := PixelSum(f, v, x, y, m - 1, s, maxIter, trig);
      var column := ColumnSum(f, v, x, y, m - 1, s, s, maxIter, trig);
      MulSucc(m - 1, s * maxIter);
      before + column
  }

  /** The value of pixel (x, y): the s x s sub-sample counts averaged by
      truncating division, so never more than the budget. */
  function PixelValue(f: Fractal, v: View, x: nat, y: nat, s: nat, maxIter: nat, trig: Trig): (r: nat)
    requires v.xRes > 0 && v.yRes > 0 && s > 0
    ensures r <= maxIter
  {
    var sum := PixelSum(f, v, x, y, s, s, maxIter, trig);
    var count := s * s;
    MulMonotone(1, s, s);
    MulAssociative(s, s, maxIter);
    AverageBound(sum, count, maxIter);
    sum / count
  }

  lemma QuotientNat(a: nat, b: nat)
    requires b > 0
    ensures a / b >= 0
  {
  }

  lemma AverageBound(sum: nat, count: nat, bound: nat)
    requires count > 0 && sum <= count * bound
    ensures 0 <= sum / count <= bound
  {
  }

  /** With one sample a pixel is the count at its centre. */
  lemma SingleSample(f: Fractal, v: View, x: nat, y: nat, maxIter: nat, trig: Trig)
    requires v.xRes > 0 && v.yRes > 0
    ensures PixelValue(f, v, x, y, 1, maxIter, trig) == SampleCount(f, PixelCentre(v, x, y), maxIter, trig)
  {
    var c := PixelCentre(v, x, y);
    assert SamplePoint(v, x, y, 0, 0, 1) == c;
  }

  /** With no budget every pixel is zero. */
  lemma NoBudgetBlack(f: Fractal, v: View, x: nat, y: nat, s: nat, trig: Trig)
    requires v.xRes > 0 && v.yRes > 0 && s > 0
    ensures PixelValue(f, v, x, y, s, 0, trig) == 0
  {
  }

  /** A 21 x 21 view of height 3 centred on -3/4: the middle pixel (10, 10)
      is centred exactly on -3/4, which never escapes, so with one sample
      and a budget of 100 that pixel is 100. */
  lemma CardioidScenario(trig: Trig)
    ensures PixelValue(Mandelbrot, View(Complex(-0.75, 0.0), 3.0, 21, 21), 10, 10, 1, 100, trig) == 100
  {
    var v := View(Complex(-0.75, 0.0), 3.0, 21, 21);
    SingleSample(Mandelbrot, v, 10, 10, 100, trig);
    assert PixelCentre(v, 10, 10) == Complex(-0.75, 0.0);
    CardioidCusp(100, trig);
  }

  /** The loops over the sub-samples of one pixel, summing in a 32-bit
      counter and dividing by the 32-bit sample count s * s; the
      precondition keeps both from overflowing and the count from being
      zero. */
  method SupersamplePixel(f: Fractal, v: View, x: nat, y: nat, s: nat, maxIter: nat, trig: Trig)
    returns (value: nat)
    requires v.xRes > 0 && v.yRes > 0 && s > 0
    requires s * s < U32Limit && s * s * maxIter < U32Limit
    ensures value == PixelValue(f, v, x, y, s, maxIter, trig)
  {
    var centre := PixelCentre(v, x, y);
    var sum: nat := 0;
    for i := 0 to s
      invariant sum == PixelSum(f, v, x, y, i, s, maxIter, trig)
    {
      var offsetX := SubOffset(i, s, XStep(v));
      for j := 0 to s
        invariant sum == PixelSum(f, v, x, y, i, s, maxIter, trig) + ColumnSum(f, v, x, y, i, j, s, maxIter, trig)
      {
        sum := AddSample(f, v, x, y, i, j, s, maxIter, trig, centre, offsetX, sum);
      }
    }
    var count := s * s;
    MulMonotone(1, s, s);
    QuotientNat(sum, count);
    value := sum / count;
  }

  /** The innermost step: count sub-sample (i, j) and add it to the running
      sum, which stays below 2^32. */
  method AddSample(f: Fractal, v: View, x: nat, y: nat, i: nat, j: nat, s: nat, maxIter: nat, trig: Trig,
                   centre: Complex, offsetX: real, sum: nat)
    returns (sum': nat)
    requires v.xRes > 0 && v.yRes > 0 && i < s && j < s && s * s * maxIter < U32Limit
    requires centre == PixelCentre(v, x, y) && offsetX == SubOffset(i, s, XStep(v))
    requires sum == PixelSum(f, v, x, y, i, s, maxIter, trig) + ColumnSum(f, v, x, y, i, j, s, maxIter, trig)
    ensures sum' == sum + SampleCount(f, SamplePoint(v, x, y, i, j, s), maxIter, trig)
    ensures sum' < U32Limit
  {
    var offsetY := SubOffset(j, s, YStep(v));
    var n := Sample(f, Complex(centre.re + offsetX, centre.im + offsetY), maxIter, trig);
    SumFits(PixelSum(f, v, x, y, i, s, maxIter, trig), ColumnSum(f, v, x, y, i, j, s, maxIter, trig), n, i, j, s, maxIter);
    sum' := sum + n;
  }

  /** Sub-sample (i, j) is the (i s + j + 1)-th one added, so the running
      sum stays within s^2 maxIter and fits the 32-bit counter. */
  lemma SumFits(before: nat, column: nat, n: nat, i: nat, j: nat, s: nat, maxIter: nat)
    requires i < s && j < s && s * s * maxIter < U32Limit
    requires before <= i * (s * maxIter) && column <= j * maxIter && n <= maxIter
    ensures before + column + n < U32Limit
  {
    MulSucc(j, maxIter);
    MulMonotone(i, s - 1, s * maxIter);
    MulMonotone(j + 1, s, maxIter);
    MulSucc(s - 1, s * maxIter);
    MulAssociative(s, s, maxIter);
  }

  lemma MulSucc(m: nat, k: nat)
    ensures m * k + k == (m + 1) * k
  {
  }

  lemma MulMonotone(a: nat, b: nat, k: nat)
    requires a <= b
    ensures a * k <= b * k
  {
  }

  lemma MulAssociative(a: nat, b: nat, c: nat)
    ensures a * (b * c) == a * b * c
  {
  }

  /** The fractal image: a yRes x xRes grid whose pixel (x, y) is the
      supersampled value there.  The rows are independent (each cell is a
      function of its own coordinates), so the order in which they are
      filled does not matter.  Chunking the rows needs a non-zero width;
      the counter must not overflow. */
  method RenderFractal(centre: Complex, maxIter: nat, scale: real, xRes: nat, yRes: nat,
                       f: Fractal, samples: nat, trig: Trig)
    returns (pixels: array2<nat>)
    requires xRes > 0
    requires yRes > 0 ==> samples > 0 && samples * samples < U32Limit && samples * samples * maxIter < U32Limit
    ensures fresh(pixels) && pixels.Length0 == yRes && pixels.Length1 == xRes
    ensures forall y, x :: 0 <= y < yRes && 0 <= x < xRes ==>
              pixels[y, x] == PixelValue(f, View(centre, scale, xRes, yRes), x, y, samples, maxIter, trig)
  {
    var v := View(centre, scale, xRes, yRes);
    pixels := new nat[yRes, xRes]((_, _) => 0);
    for y := 0 to yRes
      invariant forall i, j :: 0 <= i < y && 0 <= j < xRes ==>
                  pixels[i, j] == PixelValue(f, v, j, i, samples, maxIter, trig)
    {
      for x := 0 to xRes
        invariant forall i, j :: 0 <= i < y && 0 <= j < xRes ==>
                    pixels[i, j] == PixelValue(f, v, j, i, samples, maxIter, trig)
        invariant forall j :: 0 <= j < x ==> pixels[y, j] == PixelValue(f, v, j, y, samples, maxIter, trig)
      {
        pixels[y, x] := SupersamplePixel(f, v, x, y, samples, maxIter, trig);
      }
    }
  }

  // ---------------------------------------------------------------------
  // From the plane to a pixel

  datatype Option<T> = None | Some(value: T)

  /** A view with no pixels or no extent: the mapper's coordinates are NaN
      or infinite, or the range [0, resolution) is empty, so no point passes
      its bounds test. */
  predicate Degenerate(v: View) {
    v.xRes == 0 || v.yRes == 0 || v.scale == 0.0
  }

  /** The horizontal pixel coordinate of p: its distance from the left edge
      as a fraction of the width, times the last column index. */
  function MapX(v: View, p: Complex): real
    requires !Degenerate(v)
  {
    var w := Width(v);
    ((p.re - v.centre.re + w / 2.0) / w) * (v.xRes as real - 1.0)
  }

  /** The vertical pixel coordinate of p, measured down from the top edge:
      the imaginary axis points up, the rows go down. */
  function MapY(v: View, p: Complex): real
    requires !Degenerate(v)
  {
    var h := v.scale;
    ((h / 2.0 - (p.im - v.centre.im)) / h) * (v.yRes as real - 1.0)
  }

  /** The pixel (x, y) that p falls in, or None when it lies outside the
      image.  Exactly the points whose coordinates both lie in
      [0, resolution) are accepted, so the truncated coordinates always
      index a cell of the grid. */
  function PixelOf(v: View, p: Complex): (r: Option<(nat, nat)>)
    ensures r.Some? <==> !Degenerate(v) && 0.0 <= MapX(v, p) < v.xRes as real && 0.0 <= MapY(v, p) < v.yRes as real
    ensures r.Some? ==> r.value.0 < v.xRes && r.value.1 < v.yRes
    ensures r.Some? ==> r.value.0 as real <= MapX(v, p) < r.value.0 as real + 1.0 &&
                        r.value.1 as real <= MapY(v, p) < r.value.1 as real + 1.0
  {
    if Degenerate(v) then None
    else
      var x, y := MapX(v, p), MapY(v, p);
      if 0.0 <= x < v.xRes as real && 0.0 <= y < v.yRes as real then Some((x.Floor, y.Floor)) else None
  }

  /** The mapper flips the vertical axis: the top-left corner of the view
      is pixel (0, 0) and the bottom-right corner is the last pixel. */
  lemma MapperCorners(v: View)
    requires !Degenerate(v)
    ensures var hw, hh := Width(v) / 2.0, v.scale / 2.0;
            PixelOf(v, Complex(v.centre.re - hw, v.centre.im + hh)) == Some((0, 0)) &&
            PixelOf(v, Complex(v.centre.re + hw, v.centre.im - hh)) == Some((v.xRes - 1, v.yRes - 1))
  {
    var w, h := Width(v), v.scale;
    NonZeroProduct(v.scale, (v.xRes as real) / (v.yRes as real));
    var tl := Complex(v.centre.re - w / 2.0, v.centre.im + h / 2.0);
    var br := Complex(v.centre.re + w / 2.0, v.centre.im - h / 2.0);
    EdgeFractions(w, tl.re - v.centre.re + w / 2.0, br.re - v.centre.re + w / 2.0);
    EdgeFractions(h, h / 2.0 - (tl.im - v.centre.im), h / 2.0 - (br.im - v.centre.im));
    assert MapX(v, tl) == 0.0 && MapY(v, tl) == 0.0;
    assert MapX(v, br) == (v.xRes - 1) as real && MapY(v, br) == (v.yRes - 1) as real;
    WholeFloor(v.xRes - 1);
    WholeFloor(v.yRes - 1);
    WholeFloor(0);
  }

  lemma WholeFloor(n: int)
    ensures (n as real).Floor == n
  {
  }

  lemma NonZeroProduct(a: real, b: real)
    requires a != 0.0 && b != 0.0
    ensures a * b != 0.0
  {
    assert (a * b) / b == a;
  }

  /** Along an axis of length w the near edge is at fraction 0 and the far
      edge at fraction 1. */
  lemma EdgeFractions(w: real, near: real, far: real)
    requires w != 0.0 && near == 0.0 && far == w
    ensures near / w == 0.0 && far / w == 1.0
  {
  }

  /** The cell of an axis of n pixels that the centre of pixel u comes back
      to under the mapper: the mapper scales by n - 1 rather than n, which
      moves the centre of pixel u to u + 1/2 - (u + 1/2)/n, so pixels in the
      far half fall one cell short. */
  function Shrink(u: nat, n: nat): (r: nat)
    requires u < n
    ensures r <= u <= r + 1 && r < n
  {
    if 2 * u + 1 <= n then u else u - 1
  }

  /** Fractal pixel (x, y) mapped forward to its centre and back through the
      mapper: the column comes back as x or x - 1, but the row comes back
      counted from the other edge, since the fractal renderer's rows go up
      the imaginary axis while the mapper's rows go down it. */
  lemma RoundTrip(v: View, x: nat, y: nat)
    requires !Degenerate(v) && x < v.xRes && y < v.yRes
    ensures PixelOf(v, PixelCentre(v, x, y)) == Some((Shrink(x, v.xRes), Shrink(v.yRes - 1 - y, v.yRes)))
  {
    ColumnBack(v, x, y);
    RowBack(v, x, y);
  }

  /** The column half of the round trip. */
  lemma ColumnBack(v: View, x: nat, y: nat)
    requires !Degenerate(v) && x < v.xRes
    ensures var m := MapX(v, PixelCentre(v, x, y));
            0.0 <= m < v.xRes as real && m.Floor == Shrink(x, v.xRes)
  {
    var n, w := v.xRes as real, Width(v);
    NonZeroProduct(v.scale, n / (v.yRes as real));
    var a := x as real + 0.5;
    var d := Along(v.centre.re, a, v.xRes, XStep(v)) - v.centre.re + w / 2.0;
    EdgeOffsets(v.centre.re, a, v.xRes, w, XStep(v));
    AxisFraction(a, n, w, XStep(v), d);
    AxisFloor(x, v.xRes, a / n, (d / w) * (n - 1.0));
  }

  /** The row half of the round trip, counted from the other edge. */
  lemma RowBack(v: View, x: nat, y: nat)
    requires !Degenerate(v) && y < v.yRes
    ensures var m := MapY(v, PixelCentre(v, x, y));
            0.0 <= m < v.yRes as real && m.Floor == Shrink(v.yRes - 1 - y, v.yRes)
  {
    var n, h := v.yRes as real, v.scale;
    var a := y as real + 0.5;
    var b := (v.yRes - 1 - y) as real + 0.5;
    var d := h / 2.0 - (Along(v.centre.im, a, v.yRes, YStep(v)) - v.centre.im);
    EdgeOffsets(v.centre.im, a, v.yRes, h, YStep(v));
    assert b == n - a;
    AxisFraction(b, n, h, YStep(v), d);
    AxisFloor(v.yRes - 1 - y, v.yRes, b / n, (d / h) * (n - 1.0));
  }

  /** The point a pixels along an axis of res pixels, each e / res long,
      lies a pixels from the near edge and res - a pixels from the far edge. */
  lemma EdgeOffsets(o: real, a: real, res: nat, e: real, step: real)
    requires res > 0 && step == e / res as real
    ensures Along(o, a, res, step) - o + e / 2.0 == a * step
    ensures e / 2.0 - (Along(o, a, res, step) - o) == (res as real - a) * step
  {
    assert step * res as real == e;
  }

  /** The mapper's offset from the near edge, a pixels of e / n each, is the
      fraction a / n of the extent e. */
  lemma AxisFraction(a: real, n: real, e: real, step: real, d: real)
    requires n > 0.0 && e != 0.0 && step == e / n && d == a * step
    ensures d / e == a / n
  {
    assert d == (a / n) * e;
  }

  /** The fraction (u + 1/2) / n scaled by n - 1 lies in [0, n) and truncates
      to Shrink(u, n). */
  lemma AxisFloor(u: nat, n: nat, q: real, m: real)
    requires u < n && q == (u as real + 0.5) / n as real && m == q * (n as real - 1.0)
    ensures 0.0 <= m < n as real && m.Floor == Shrink(u, n)
  {
    var a := u as real + 0.5;
    assert q * n as real == a;
    assert m == a - q;
    QuotientInUnit(a, n as real);
    SameSign(q - 0.5, n as real, a - (n as real) / 2.0);
  }

  /** A real times a positive one keeps its sign. */
  lemma SameSign(x: real, n: real, p: real)
    requires n > 0.0 && p == x * n
    ensures p <= 0.0 <==> x <= 0.0
  {
    if x > 0.0 {
      ProductPositive(x, n, p);
    } else if x < 0.0 {
      ProductPositive(-x, n, -p);
    }
  }

  /** The round trip for the top row of a 21 x 21 view: it comes back as row
      19, not as row 0 or 1. */
  lemma TopRowComesBackNearBottom()
    ensures var v := View(Zero, 1.0, 21, 21);
            PixelOf(v, PixelCentre(v, 10, 0)) == Some((10, 19))
  {
    RoundTrip(View(Zero, 1.0, 21, 21), 10, 0);
  }

  /** The forward map with the rows counted down from the top edge, as the
      mapper counts them. */
  function TopDownCentre(v: View, x: nat, y: nat): Complex
    requires v.xRes > 0 && v.yRes > 0 && y < v.yRes
  {
    PixelCentre(v, x, v.yRes - 1 - y)
  }

  /** With the rows counted from the same edge, the round trip returns every
      pixel to itself or to its neighbour one column left, one row up, or
      both. */
  lemma TopDownRoundTrip(v: View, x: nat, y: nat)
    requires !Degenerate(v) && x < v.xRes && y < v.yRes
    ensures var r := PixelOf(v, TopDownCentre(v, x, y));
            r.Some? && r.value.0 <= x <= r.value.0 + 1 && r.value.1 <= y <= r.value.1 + 1
  {
    RoundTrip(v, x, v.yRes - 1 - y);
  }

  // ---------------------------------------------------------------------
  // Attractor histograms

  /** The grid g with one more hit in the pixel p falls in, if any: at
      most one cell changes, by exactly one. */
  function Hit(g: Grid, v: View, p: Complex): (r: Grid)
    requires HasShape(g, v.yRes, v.xRes)
    ensures HasShape(r, v.yRes, v.xRes)
    ensures PixelOf(v, p).None? ==> r == g
    ensures PixelOf(v, p).Some? ==>
              var (x, y) := PixelOf(v, p).value;
              r[y][x] == g[y][x] + 1 &&
              forall i, j :: 0 <= i < v.yRes && 0 <= j < v.xRes && (i, j) != (y, x) ==> r[i][j] == g[i][j]
    ensures Total(r) == Total(g) + (if PixelOf(v, p).Some? then 1 else 0)
  {
    match PixelOf(v, p)
    case None => g
    case Some((x, y)) =>
      TotalIncrement(g, y, x);
      Increment(g, y, x)
  }

  /** The hits after the first n steps of the orbit of start: step k
      (counting from zero) moves to the (k + 1)-th iterate and is drawn
      only from step drawAfter on. */
  function PathHits(att: Attractors.Attractor, start: Complex, v: View, drawAfter: nat, n: nat, trig: Trig): (g: Grid)
    ensures HasShape(g, v.yRes, v.xRes)
    decreases n
  {
    if n == 0 then Zeros(v.yRes, v.xRes)
    else
      var g := PathHits(att, start, v, drawAfter, n - 1, trig);
      if n - 1 < drawAfter then g else Hit(g, v, Attractors.Orbit(att, start, n, trig))
  }

  /** The histogram of one orbit over maxIter steps. */
  function PathGrid(att: Attractors.Attractor, start: Complex, v: View, maxIter: nat, drawAfter: nat, trig: Trig): (g: Grid)
    ensures HasShape(g, v.yRes, v.xRes)
  {
    PathHits(att, start, v, drawAfter, maxIter, trig)
  }

  /** The number of steps that are drawn: those from drawAfter on. */
  function Drawn(maxIter: nat, drawAfter: nat): nat {
    if drawAfter >= maxIter then 0 else maxIter - drawAfter
  }

  /** A histogram of n steps holds at most one hit per drawn step. */
  lemma {:induction false} PathHitsTotal(att: Attractors.Attractor, start: Complex, v: View, drawAfter: nat, n: nat, trig: Trig)
    ensures Total(PathHits(att, start, v, drawAfter, n, trig)) <= Drawn(n, drawAfter)
    decreases n
  {
    if n == 0 {
      TotalZeros(v.yRes, v.xRes);
    } else {
      PathHitsTotal(att, start, v, drawAfter, n - 1, trig);
    }
  }

  lemma PathTotal(att: Attractors.Attractor, start: Complex, v: View, maxIter: nat, drawAfter: nat, trig: Trig)
    ensures Total(PathGrid(att, start, v, maxIter, drawAfter, trig)) <= Drawn(maxIter, drawAfter)
  {
    PathHitsTotal(att, start, v, drawAfter, maxIter, trig);
  }

  /** When no step reaches drawAfter nothing is drawn. */
  lemma {:induction false} NothingDrawn(att: Attractors.Attractor, start: Complex, v: View, drawAfter: nat, n: nat, trig: Trig)
    requires drawAfter >= n
    ensures PathHits(att, start, v, drawAfter, n, trig) == Zeros(v.yRes, v.xRes)
    decreases n
  {
    if n > 0 {
      NothingDrawn(att, start, v, drawAfter, n - 1, trig);
    }
  }

  /** The loop that follows one orbit and counts its hits in a zeroed
      grid. */
  method RenderAttractorPath(start: Complex, centre: Complex, maxIter: nat, drawAfter: nat,
                             scale: real, xRes: nat, yRes: nat, att: Attractors.Attractor, trig: Trig)
    returns (pixels: array2<nat>)
    ensures fresh(pixels) && pixels.Length0 == yRes && pixels.Length1 == xRes
    ensures Holds(pixels, PathGrid(att, start, View(centre, scale, xRes, yRes), maxIter, drawAfter, trig))
  {
    var v := View(centre, scale, xRes, yRes);
    pixels := new nat[yRes, xRes]((_, _) => 0);
    var pos := start;
    ghost var g := Zeros(yRes, xRes);
    for n := 0 to maxIter
      invariant pos == Attractors.Orbit(att, start, n, trig)
      invariant g == PathHits(att, start, v, drawAfter, n, trig)
      invariant Holds(pixels, g)
    {
      pos, g := PathStep(pixels, v, start, pos, n, drawAfter, att, trig, g);
    }
  }

  /** One pass of the loop: step to the next point of the orbit and, from
      step drawAfter on, count it. */
  method PathStep(pixels: array2<nat>, v: View, start: Complex, pos: Complex, n: nat, drawAfter: nat,
                  att: Attractors.Attractor, trig: Trig, ghost g: Grid)
    returns (next: Complex, ghost g': Grid)
    requires pixels.Length0 == v.yRes && pixels.Length1 == v.xRes
    requires pos == Attractors.Orbit(att, start, n, trig)
    requires g == PathHits(att, start, v, drawAfter, n, trig) && Holds(pixels, g)
    modifies pixels
    ensures next == Attractors.Orbit(att, start, n + 1, trig)
    ensures g' == PathHits(att, start, v, drawAfter, n + 1, trig) && Holds(pixels, g')
  {
    next := Attractors.Iterate(att, pos, trig);
    g' := g;
    if n >= drawAfter {
      AddHit(pixels, v, next, g);
      g' := Hit(g, v, next);
    }
  }

  /** The array holds the grid g, cell for cell. */
  ghost predicate Holds(pixels: array2<nat>, g: Grid)
    reads pixels
  {
    HasShape(g, pixels.Length0, pixels.Length1) &&
    forall y, x :: 0 <= y < pixels.Length0 && 0 <= x < pixels.Length1 ==> pixels[y, x] == g[y][x]
  }

  /** Counts one hit at p in the pixel array that holds the grid g: the
      array then holds Hit(g, v, p). */
  method AddHit(pixels: array2<nat>, v: View, p: Complex, ghost g: Grid)
    requires pixels.Length0 == v.yRes && pixels.Length1 == v.xRes && Holds(pixels, g)
    modifies pixels
    ensures Holds(pixels, Hit(g, v, p))
  {
    match PixelOf(v, p)
    case Some((x, y)) =>
      pixels[y, x] := pixels[y, x] + 1;
    case None =>
  }

  /** The attractor image: the element-wise sum of the histograms of the
      orbits from each starting point, folded from the zero grid. */
  function RenderAttractor(starts: seq<Complex>, v: View, maxIter: nat, drawAfter: nat,
                           att: Attractors.Attractor, trig: Trig): (g: Grid)
    ensures HasShape(g, v.yRes, v.xRes)
  {
    if starts == [] then Zeros(v.yRes, v.xRes)
    else
      AddGrids(RenderAttractor(starts[..|starts| - 1], v, maxIter, drawAfter, att, trig),
               PathGrid(att, starts[|starts| - 1], v, maxIter, drawAfter, trig))
  }

  /** Splitting the starting points anywhere and adding the two images
      gives the whole image: the reduction may combine partial sums in any
      grouping. */
  lemma {:induction false} RenderAttractorSplit(a: seq<Complex>, b: seq<Complex>, v: View, maxIter: nat, drawAfter: nat,
                                               att: Attractors.Attractor, trig: Trig)
    ensures RenderAttractor(a + b, v, maxIter, drawAfter, att, trig)
         == AddGrids(RenderAttractor(a, v, maxIter, drawAfter, att, trig), RenderAttractor(b, v, maxIter, drawAfter, att, trig))
    decreases |b|
  {
    var rows, cols := v.yRes, v.xRes;
    if b == [] {
      assert a + b == a;
      AddCommutative(RenderAttractor(a, v, maxIter, drawAfter, att, trig), Zeros(rows, cols), rows, cols);
      AddZeros(RenderAttractor(a, v, maxIter, drawAfter, att, trig), rows, cols);
    } else {
      var n := |b| - 1;
      assert (a + b)[..|a + b| - 1] == a + b[..n];
      RenderAttractorSplit(a, b[..n], v, maxIter, drawAfter, att, trig);
      AddAssociative(RenderAttractor(a, v, maxIter, drawAfter, att, trig),
                     RenderAttractor(b[..n], v, maxIter, drawAfter, att, trig),
                     PathGrid(att, b[n], v, maxIter, drawAfter, trig), rows, cols);
    }
  }

  /** The image does not depend on the order of the starting points. */
  lemma {:induction false} RenderAttractorOrderFree(a: seq<Complex>, b: seq<Complex>, v: View, maxIter: nat, drawAfter: nat,
                                                   att: Attractors.Attractor, trig: Trig)
    requires multiset(a) == multiset(b)
    ensures RenderAttractor(a, v, maxIter, drawAfter, att, trig) == RenderAttractor(b, v, maxIter, drawAfter, att, trig)
    decreases |a|
  {
    if a != [] {
      var n := |a| - 1;
      var last := a[n];
      var k := RemoveMatching(a, b);
      var b1, b2 := b[..k], b[k + 1..];
      assert b == b1 + [last] + b2;
      RenderAttractorOrderFree(a[..n], b1 + b2, v, maxIter, drawAfter, att, trig);
      MoveToEnd(b1, last, b2, v, maxIter, drawAfter, att, trig);
      assert (b1 + b2 + [last])[..|b1 + b2|] == b1 + b2;
    }
  }

  /** The last element of a occurs in b at some index k, and removing it
      from both leaves two permutations of each other. */
  lemma RemoveMatching<T>(a: seq<T>, b: seq<T>) returns (k: nat)
    requires a != [] && multiset(a) == multiset(b)
    ensures k < |b| && b[k] == a[|a| - 1]
    ensures multiset(a[..|a| - 1]) == multiset(b[..k] + b[k + 1..])
  {
    var last := a[|a| - 1];
    SplitAt(a, |a| - 1);
    assert last in multiset(b);
    k :| 0 <= k < |b| && b[k] == last;
    SplitAt(b, k);
    MultisetCancel(multiset(a[..|a| - 1]), multiset(b[..k] + b[k + 1..]), last);
  }

  /** Removing the element at k takes one occurrence of it out of the
      multiset. */
  lemma SplitAt<T>(s: seq<T>, k: nat)
    requires k < |s|
    ensures multiset(s) == multiset(s[..k] + s[k + 1..]) + multiset{s[k]}
  {
    assert s == s[..k] + [s[k]] + s[k + 1..];
  }

  lemma MultisetCancel<T>(x: multiset<T>, y: multiset<T>, e: T)
    requires x + multiset{e} == y + multiset{e}
    ensures x == y
  {
    forall d ensures x[d] == y[d] {
      assert (x + multiset{e})[d] == (y + multiset{e})[d];
    }
  }

  /** Moving one starting point to the end leaves the image unchanged. */
  lemma MoveToEnd(b1: seq<Complex>, last: Complex, b2: seq<Complex>, v: View, maxIter: nat, drawAfter: nat,
                  att: Attractors.Attractor, trig: Trig)
    ensures RenderAttractor(b1 + [last] + b2, v, maxIter, drawAfter, att, trig)
         == RenderAttractor(b1 + b2 + [last], v, maxIter, drawAfter, att, trig)
  {
    var rows, cols := v.yRes, v.xRes;
    var r1 := RenderAttractor(b1, v, maxIter, drawAfter, att, trig);
    var r2 := RenderAttractor(b2, v, maxIter, drawAfter, att, trig);
    var p := PathGrid(att, last, v, maxIter, drawAfter, trig);
    assert [last][..0] == [];
    AddZeros(p, rows, cols);
    RenderAttractorSplit(b1 + [last], b2, v, maxIter, drawAfter, att, trig);
    RenderAttractorSplit(b1, [last], v, maxIter, drawAfter, att, trig);
    RenderAttractorSplit(b1, b2, v, maxIter, drawAfter, att, trig);
    assert (b1 + b2 + [last])[..|b1 + b2|] == b1 + b2;
    AddSwapLast(r1, p, r2, rows, cols);
  }

  /** The image holds at most one hit per drawn step of each orbit; so no
      cell exceeds |starts| times the drawn steps, and with that below 2^32
      the 32-bit cells of the sum cannot overflow. */
  lemma {:induction false} RenderAttractorTotal(starts: seq<Complex>, v: View, maxIter: nat, drawAfter: nat,
                                               att: Attractors.Attractor, trig: Trig)
    ensures Total(RenderAttractor(starts, v, maxIter, drawAfter, att, trig)) <= |starts| * Drawn(maxIter, drawAfter)
    decreases |starts|
  {
    if starts == [] {
      TotalZeros(v.yRes, v.xRes);
    } else {
      var n := |starts| - 1;
      RenderAttractorTotal(starts[..n], v, maxIter, drawAfter, att, trig);
      PathTotal(att, starts[n], v, maxIter, drawAfter, trig);
      TotalAdd(RenderAttractor(starts[..n], v, maxIter, drawAfter, att, trig),
               PathGrid(att, starts[n], v, maxIter, drawAfter, trig));
      MulSucc(n, Drawn(maxIter, drawAfter));
    }
  }

  lemma RenderAttractorCells(starts: seq<Complex>, v: View, maxIter: nat, drawAfter: nat,
                             att: Attractors.Attractor, trig: Trig)
    ensures forall y, x :: 0 <= y < v.yRes && 0 <= x < v.xRes ==>
              RenderAttractor(starts, v, maxIter, drawAfter, att, trig)[y][x] <= |starts| * Drawn(maxIter, drawAfter)
  {
    var g := RenderAttractor(starts, v, maxIter, drawAfter, att, trig);
    RenderAttractorTotal(starts, v, maxIter, drawAfter, att, trig);
    forall y, x | 0 <= y < v.yRes && 0 <= x < v.xRes
      ensures g[y][x] <= |starts| * Drawn(maxIter, drawAfter)
    {
      CellAtMostTotal(g, y, x);
    }
  }
}
