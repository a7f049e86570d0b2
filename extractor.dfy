/**
 * The extractor's pipeline: the calibration phase and then the sampling phase
 * read one event stream, the samples are scaled with the calibration, and the
 * coefficient pairs are read from the transform of the scaled heights.  The
 * transform itself is a parameter.
 */
module Extractor {
  import opened Wrappers
  import opened Events
  import opened CalibrationCapture
  import opened SampleCapture
  import opened Scaling
  import opened Fourier

  /**
   * One capture: the raw calibration clicks, the raw samples, the sample
   * times (`None` when the x scale has no finite value) and the sample heights.
   */
  datatype Digitized = Digitized(xy: seq<Point>, samples: seq<Point>, times: Option<seq<real>>, heights: seq<real>)

  /**
   * Why no result comes out: the stream ended before a phase was complete
   * (the figure would still be waiting for a click), or the y_start and y_end
   * clicks share a row, so that no height has a finite value.
   */
  datatype ExtractError = AwaitingInput | NonFiniteHeights

  /**
   * What a capture on the event stream `es` yields: four calibration clicks,
   * then nterms + 1 samples from the events after them, scaled with the
   * calibration.  A degenerate x pair leaves the times without a value and
   * the heights as they are.
   */
  function Digitize(b: Bounds, es: seq<Event>): (r: Result<Digitized, ExtractError>)
    ensures r.Success? ==>
      r.value.xy == Run(CalibrationPoints, [], es).points &&
      |r.value.xy| == CalibrationPoints && r.value.xy[3].y != r.value.xy[2].y &&
      |r.value.samples| == NTerms + 1 && |r.value.heights| == NTerms + 1 &&
      (r.value.times.None? <==> r.value.xy[1].x == r.value.xy[0].x) &&
      (r.value.times.Some? ==> |r.value.times.value| == NTerms + 1 && r.value.times.value[0] == 0.0)
    ensures r == Failure(AwaitingInput) <==>
      |Run(CalibrationPoints, [], es).points| < CalibrationPoints ||
      |Run(NTerms + 1, [], es[Run(CalibrationPoints, [], es).consumed..]).points| < NTerms + 1
    ensures r == Failure(NonFiniteHeights) ==>
      var xy := Run(CalibrationPoints, [], es).points; |xy| == CalibrationPoints && xy[3].y == xy[2].y
    ensures r.Success? ==>
      var cal := Run(CalibrationPoints, [], es);
      var sf := ScaleFactors(r.value.xy, b);
      r.value.samples == Run(NTerms + 1, [], es[cal.consumed..]).points &&
      sf.ySF.Some? &&
      r.value.heights == ScaleHeights(r.value.samples, r.value.xy, b.yStartReal, sf.ySF.value) &&
      (r.value.times.Some? ==> sf.xSF.Some? && r.value.times.value == ScaleTimes(r.value.samples, r.value.xy, sf.xSF.value))
  {
    var cal := Run(CalibrationPoints, [], es);
    if |cal.points| < CalibrationPoints then Failure(AwaitingInput)
    else
      var smp := Run(NTerms + 1, [], es[cal.consumed..]);
      if |smp.points| < NTerms + 1 then Failure(AwaitingInput)
      else
        var sf := ScaleFactors(cal.points, b);
        if sf.ySF.None? then Failure(NonFiniteHeights)
        else
          var times := if sf.xSF.None? then None else Some(ScaleTimes(smp.points, cal.points, sf.xSF.value));
          Success(Digitized(cal.points, smp.points, times, ScaleHeights(smp.points, cal.points, b.yStartReal, sf.ySF.value)))
  }

  /**
   * The capture: run the calibration session, clear its crosshairs, run the
   * sample session with guide lines spaced over the calibrated x span, then
   * shift and scale the samples.
   */
  method TakePoints(b: Bounds, es: seq<Event>) returns (r: Result<Digitized, ExtractError>)
    ensures r == Digitize(b, es)
  {
    var cal, used := CaptureCalibration(es);
    if cal.i < CalibrationPoints {
      return Failure(AwaitingInput);
    }
    cal.ClearCrosshairs();
    var xy := cal.xy;
    var xStep := XStep(XRangeFig(xy), NTerms);
    var smp, _ := CaptureSamples(xy[0].x, xStep, NTerms, es[used..]);
    if smp.i < NTerms + 1 {
      return Failure(AwaitingInput);
    }
    smp.Complete();
    var sf := ScaleFactors(xy, b);
    if sf.ySF.None? {
      return Failure(NonFiniteHeights);
    }
    var times := None;
    if sf.xSF.Some? {
      times := Some(ScaleTimes(smp.points, xy, sf.xSF.value));
    }
    r := Success(Digitized(xy, smp.points, times, ScaleHeights(smp.points, xy, b.yStartReal, sf.ySF.value)));
  }

  /**
   * The whole extraction: capture, then the first NCoeff coefficient pairs of
   * the transform `fft` of the scaled heights.  The transform keeps the
   * signal's length, so the 50 heights always have the 21 bins that are read.
   */
  function Extract(b: Bounds, es: seq<Event>, fft: seq<real> -> seq<Complex>): (r: Result<seq<Coeff>, ExtractError>)
    requires forall ys :: |fft(ys)| == |ys|
    ensures r.Success? <==> Digitize(b, es).Success?
    ensures r.Failure? ==> r.error == Digitize(b, es).error
    ensures r.Success? ==> |r.value| == NCoeff
    ensures r.Success? ==>
      var ys := Digitize(b, es).value.heights;
      forall n :: 0 <= n < NCoeff ==>
        r.value[n].a * ((NTerms + 1) as real) == 2.0 * fft(ys)[n].re &&
        r.value[n].b * ((NTerms + 1) as real) == -2.0 * fft(ys)[n].im
  {
    match Digitize(b, es)
    case Failure(e) => Failure(e)
    case Success(d) => Success(CoefficientsOf(fft(d.heights), NCoeff).value)
  }

  /**
   * In a completed capture, when bin 0 of the transform is the sum of the
   * heights, the first pair is twice the mean height and 0: a_0 / 2 is the
   * signal's average.
   */
  lemma CompletedCaptureDcTerm(b: Bounds, es: seq<Event>, fft: seq<real> -> seq<Complex>)
    requires forall ys :: |fft(ys)| == |ys|
    requires Digitize(b, es).Success?
    requires var ys := Digitize(b, es).value.heights; fft(ys)[0] == Complex(Sum(ys), 0.0)
    ensures Extract(b, es, fft).Success?
    ensures var ys := Digitize(b, es).value.heights; Extract(b, es, fft).value[0] == Coeff(2.0 * Mean(ys), 0.0)
  {
    var ys := Digitize(b, es).value.heights;
    DcCoefficientIsTwiceMean(ys, fft(ys), NCoeff);
  }

  /**
   * A calibration whose x_start and x_end clicks share a column leaves the
   * times without a finite value, but the heights, and so the coefficient
   * pairs, are computed as usual.
   */
  lemma XDegenerateCaptureStillFits(b: Bounds, es: seq<Event>, fft: seq<real> -> seq<Complex>)
    requires forall ys :: |fft(ys)| == |ys|
    requires |Run(CalibrationPoints, [], es).points| == CalibrationPoints
    requires |Run(NTerms + 1, [], es[Run(CalibrationPoints, [], es).consumed..]).points| == NTerms + 1
    requires var xy := Run(CalibrationPoints, [], es).points; xy[1].x == xy[0].x && xy[3].y != xy[2].y
    ensures Digitize(b, es).Success? && Digitize(b, es).value.times.None?
    ensures Extract(b, es, fft).Success? && |Extract(b, es, fft).value| == NCoeff
  {
  }

  /**
   * Samples clicked exactly on their guide lines: sample k then has time
   * k * (x_end_real - x_start_real) / nterms, so the guide lines divide the
   * real x range into nterms equal steps and the last one is at the full range.
   */
  lemma OnGuideSamplesSplitTheRange(points: seq<Point>, xy: seq<Point>, b: Bounds, nterms: nat, k: nat)
    requires |xy| == 4 && 0 < nterms && k < |points|
    requires xy[1].x != xy[0].x
    requires forall j :: 0 <= j < |points| ==> points[j].x == GuideX(xy[0].x, XStep(XRangeFig(xy), nterms), j)
    ensures ScaleFactors(xy, b).xSF.Some?
    ensures var xSF := ScaleFactors(xy, b).xSF.value;
      ScaleTimes(points, xy, xSF)[k] * (nterms as real) == (k as real) * (b.xEndReal - b.xStartReal)
  {
    var xSF := ScaleFactors(xy, b).xSF.value;
    var step := XStep(XRangeFig(xy), nterms);
    var n := nterms as real;
    var kr := k as real;
    var t := ScaleTimes(points, xy, xSF)[k];
    assert t == (step * kr) * xSF by {
      assert points[0].x == xy[0].x + step * 0.0;
      assert points[k].x - points[0].x == step * kr;
    }
    calc {
      t * n;
      (step * kr) * xSF * n;
      { assert (step * kr) * xSF * n == kr * xSF * (step * n); }
      kr * xSF * (step * n);
      kr * (xSF * XRangeFig(xy));
      kr * (b.xEndReal - b.xStartReal);
    }
  }

  /** The calibration of a 1000 x 1000 image used below: axes meeting at pixel (100, 900). */
  const RampCalibration: seq<Point> := [Point(100.0, 900.0), Point(900.0, 900.0), Point(100.0, 900.0), Point(100.0, 100.0)]
  const RampBounds: Bounds := Bounds(0.0, 10.0, 0.0, 5.0)

  /**
   * A ramp sampled on the guide lines, sample k at row 900 - 8k: it scales to
   * t_k = 10k / 49 and y_k = k / 20, so the last sample (k = 49) is at t = 10,
   * y = 2.45.
   */
  lemma RampScenario(points: seq<Point>, k: nat)
    requires |points| == NTerms + 1 && k < |points|
    requires forall j :: 0 <= j < |points| ==>
      points[j] == Point(GuideX(100.0, XStep(800.0, NTerms), j), 900.0 - 8.0 * (j as real))
    ensures ScaleFactors(RampCalibration, RampBounds) == Scale(Some(10.0 / 800.0), Some(5.0 / 800.0))
    ensures var sf := ScaleFactors(RampCalibration, RampBounds);
      ScaleTimes(points, RampCalibration, sf.xSF.value)[k] * 49.0 == 10.0 * (k as real) &&
      ScaleHeights(points, RampCalibration, 0.0, sf.ySF.value)[k] * 20.0 == k as real
  {
    var xy := RampCalibration;
    assert XRangeFig(xy) == 800.0 && YRangeFig(xy) == 800.0;
    var sf := ScaleFactors(xy, RampBounds);
    assert sf == Scale(Some(10.0 / 800.0), Some(5.0 / 800.0));
    OnGuideSamplesSplitTheRange(points, xy, RampBounds, NTerms, k);
    var ys := ScaleHeights(points, xy, 0.0, sf.ySF.value);
    assert ys[k] == (8.0 * (k as real)) * (5.0 / 800.0);
  }
}
