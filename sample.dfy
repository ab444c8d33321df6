/** The older sampling routines: one sample per pixel at the pixel's
    corner, or s x s sub-samples per pixel averaged like the renderer. */
module Sampling {
  import opened ComplexArith
  import opened Transcendental
  import opened Fractals
  import opened Render

  /** The corner convention: pixel (x, y) is sampled at its corner, so
      that the pixel centre lies half a step further along each axis. */
  function CornerPoint(v: View, x: nat, y: nat): (c: Complex)
    requires v.xRes > 0 && v.yRes > 0
    ensures PixelCentre(v, x, y) == Complex(c.re + XStep(v) / 2.0, c.im + YStep(v) / 2.0)
  {
    var xStep, yStep := XStep(v), YStep(v);
    HalfStepFurther(v.centre.re, x as real, v.xRes, xStep);
    HalfStepFurther(v.centre.im, y as real, v.yRes, yStep);
    Complex(Along(v.centre.re, x as real, v.xRes, xStep), Along(v.centre.im, y as real, v.yRes, yStep))
  }

  lemma HalfStepFurther(o: real, u: real, res: nat, step: real)
    ensures Along(o, u + 0.5, res, step) == Along(o, u, res, step) + step / 2.0
  {
    var h := res as real / 2.0;
    assert (u + 0.5 - h) * step == (u - h) * step + 0.5 * step;
  }

  /** With even resolutions the middle pixel is sampled exactly at the
      centre of the view. */
  lemma CornerAtCentre(v: View)
    requires v.xRes > 0 && v.yRes > 0 && v.xRes % 2 == 0 && v.yRes % 2 == 0
    ensures CornerPoint(v, v.xRes / 2, v.yRes / 2) == v.centre
  {
    assert (v.xRes / 2) as real == v.xRes as real / 2.0;
    assert (v.yRes / 2) as real == v.yRes as real / 2.0;
    assert Along(v.centre.re, (v.xRes / 2) as real, v.xRes, XStep(v)) == v.centre.re;
    assert Along(v.centre.im, (v.yRes / 2) as real, v.yRes, YStep(v)) == v.centre.im;
  }

  /** One sample per pixel, at the corner: a yRes x xRes grid whose cell
      (x, y) is the count at CornerPoint(x, y), so never above the budget.
      Chunking the rows needs a non-zero width. */
  method SampleArea(centre: Complex, maxIter: nat, scale: real, xRes: nat, yRes: nat, f: Fractal, trig: Trig)
    returns (samples: array2<nat>)
    requires xRes > 0
    ensures fresh(samples) && samples.Length0 == yRes && samples.Length1 == xRes
    ensures forall y, x :: 0 <= y < yRes && 0 <= x < xRes ==>
              samples[y, x] == SampleCount(f, CornerPoint(View(centre, scale, xRes, yRes), x, y), maxIter, trig) &&
              samples[y, x] <= maxIter
  {
    var v := View(centre, scale, xRes, yRes);
    samples := new nat[yRes, xRes]((_, _) => 0);
    for y := 0 to yRes
      invariant forall i, j :: 0 <= i < y && 0 <= j < xRes ==>
                  samples[i, j] == SampleCount(f, CornerPoint(v, j, i), maxIter, trig)
    {
      for x := 0 to xRes
        invariant forall i, j :: 0 <= i < y && 0 <= j < xRes ==>
                    samples[i, j] == SampleCount(f, CornerPoint(v, j, i), maxIter, trig)
        invariant forall j :: 0 <= j < x ==> samples[y, j] == SampleCount(f, CornerPoint(v, j, y), maxIter, trig)
      {
        samples[y, x] := Sample(f, CornerPoint(v, x, y), maxIter, trig);
      }
    }
  }

  /** Supersampling with the centre convention: the same grid as
      RenderFractal computes from the same inputs. */
  method MultisampleArea(centre: Complex, maxIter: nat, scale: real, xRes: nat, yRes: nat,
                         f: Fractal, samples: nat, trig: Trig)
    returns (result: array2<nat>)
    requires xRes > 0
    requires yRes > 0 ==> samples > 0 && samples * samples < U32Limit && samples * samples * maxIter < U32Limit
    ensures fresh(result) && result.Length0 == yRes && result.Length1 == xRes
    ensures forall y, x :: 0 <= y < yRes && 0 <= x < xRes ==>
              result[y, x] == PixelValue(f, View(centre, scale, xRes, yRes), x, y, samples, maxIter, trig)
  {
    var v := View(centre, scale, xRes, yRes);
    result := new nat[yRes, xRes]((_, _) => 0);
    for y := 0 to yRes
      invariant forall i, j :: 0 <= i < y && 0 <= j < xRes ==>
                  result[i, j] == PixelValue(f, v, j, i, samples, maxIter, trig)
    {
      for x := 0 to xRes
        invariant forall i, j :: 0 <= i < y && 0 <= j < xRes ==>
                    result[i, j] == PixelValue(f, v, j, i, samples, maxIter, trig)
        invariant forall j :: 0 <= j < x ==> result[y, j] == PixelValue(f, v, j, y, samples, maxIter, trig)
      {
        result[y, x] := SupersamplePixel(f, v, x, y, samples, maxIter, trig);
      }
    }
  }
}
