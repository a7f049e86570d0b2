/**
 * Calibration and coordinate scaling.  The four calibration clicks and the
 * four real axis bounds give one scale factor per axis (real units per pixel).
 * The sample columns are then shifted so that the first sample is at t = 0 and
 * scaled, and the sample rows are turned into real heights, anchored at the
 * y_start click (pixel rows grow downwards, real heights upwards).  Arithmetic
 * is exact; a factor whose pixel distance is zero has no finite value (the
 * program's floating-point division gives infinity or NaN) and is `None`.
 */
module Scaling {
  import opened Wrappers
  import opened Events

  /** The real axis values entered for the four calibration clicks. */
  datatype Bounds = Bounds(xStartReal: real, xEndReal: real, yStartReal: real, yEndReal: real)

  /** Real units per pixel along each axis, `None` where the division has no finite value. */
  datatype Scale = Scale(xSF: Option<real>, ySF: Option<real>)

  function Abs(r: real): (a: real)
    ensures a >= 0.0 && (a == r || a == -r)
  {
    if r < 0.0 then -r else r
  }

  /** Pixel distance between the x_start and x_end clicks. */
  function XRangeFig(xy: seq<Point>): (d: real)
    requires |xy| == 4
    ensures d >= 0.0 && (d == 0.0 <==> xy[1].x == xy[0].x)
  {
    Abs(xy[1].x - xy[0].x)
  }

  /** Pixel distance between the y_start and y_end clicks. */
  function YRangeFig(xy: seq<Point>): (d: real)
    requires |xy| == 4
    ensures d >= 0.0 && (d == 0.0 <==> xy[3].y == xy[2].y)
  {
    Abs(xy[3].y - xy[2].y)
  }

  lemma SignOfQuotient(n: real, d: real)
    requires d > 0.0
    ensures (n / d) * d == n
    ensures n / d > 0.0 <==> n > 0.0
  {
  }

  /**
   * The scale factors from the calibration clicks `xy` (x_start, x_end,
   * y_start, y_end) and the real bounds: each is the real range divided by the
   * pixel distance of its pair, so it has the sign of the real range; it has
   * no finite value exactly when the pair coincides in its axis.
   */
  function ScaleFactors(xy: seq<Point>, b: Bounds): (sf: Scale)
    requires |xy| == 4
    ensures sf.xSF.None? <==> xy[1].x == xy[0].x
    ensures sf.ySF.None? <==> xy[3].y == xy[2].y
    ensures sf.xSF.Some? ==>
      sf.xSF.value * XRangeFig(xy) == b.xEndReal - b.xStartReal &&
      (sf.xSF.value > 0.0 <==> b.xStartReal < b.xEndReal)
    ensures sf.ySF.Some? ==>
      sf.ySF.value * YRangeFig(xy) == b.yEndReal - b.yStartReal &&
      (sf.ySF.value > 0.0 <==> b.yStartReal < b.yEndReal)
  {
    Scale(AxisScale(b.xEndReal - b.xStartReal, XRangeFig(xy)), AxisScale(b.yEndReal - b.yStartReal, YRangeFig(xy)))
  }

  /** Real range per pixel distance; no finite value for a zero distance. */
  function AxisScale(realRange: real, pixelRange: real): (r: Option<real>)
    requires pixelRange >= 0.0
    ensures r.None? <==> pixelRange == 0.0
    ensures r.Some? ==> r.value * pixelRange == realRange && (r.value > 0.0 <==> realRange > 0.0)
  {
    if pixelRange == 0.0 then None
    else
      SignOfQuotient(realRange, pixelRange);
      Some(realRange / pixelRange)
  }

  /**
   * The sample times: columns shifted by the y_start click's column, then by
   * the first shifted sample, then scaled.  The first time is 0 and every time
   * is the sample's column distance from the first sample times the x scale
   * (the shift by the y_start column cancels).
   */
  function ScaleTimes(points: seq<Point>, xy: seq<Point>, xSF: real): (ts: seq<real>)
    requires |points| > 0 && |xy| == 4
    ensures |ts| == |points| && ts[0] == 0.0
    ensures forall k :: 0 <= k < |ts| ==> ts[k] == (points[k].x - points[0].x) * xSF
  {
    var shifted := seq(|points|, k requires 0 <= k < |points| => points[k].x - xy[2].x);
    var ts := seq(|points|, k requires 0 <= k < |points| => (shifted[k] - shifted[0]) * xSF);
    assert forall k :: 0 <= k < |ts| ==> ts[k] == (points[k].x - points[0].x) * xSF by {
      forall k | 0 <= k < |ts| ensures ts[k] == (points[k].x - points[0].x) * xSF {
        assert shifted[k] - shifted[0] == points[k].x - points[0].x;
      }
    }
    ts
  }

  /**
   * The sample heights: rows measured upwards from the y_start click's row,
   * scaled, and offset by the real y_start value.  A sample on the y_start
   * row has height y_start.
   */
  function ScaleHeights(points: seq<Point>, xy: seq<Point>, yStartReal: real, ySF: real): (ys: seq<real>)
    requires |xy| == 4
    ensures |ys| == |points|
    ensures forall k :: 0 <= k < |ys| && points[k].y == xy[2].y ==> ys[k] == yStartReal
  {
    var ys := seq(|points|, k requires 0 <= k < |points| => (xy[2].y - points[k].y) * ySF + yStartReal);
    assert forall k :: 0 <= k < |ys| && points[k].y == xy[2].y ==> ys[k] == yStartReal by {
      forall k | 0 <= k < |ys| && points[k].y == xy[2].y ensures ys[k] == yStartReal {
        assert xy[2].y - points[k].y == 0.0;
      }
    }
    ys
  }

  /**
   * A sample on the y_end click's row, when that row lies above the y_start
   * row, has height y_end: the two calibration rows map to their real values.
   */
  lemma YEndRowMapsToYEnd(points: seq<Point>, xy: seq<Point>, b: Bounds, k: nat)
    requires |xy| == 4 && k < |points|
    requires xy[3].y < xy[2].y && points[k].y == xy[3].y
    ensures ScaleFactors(xy, b).ySF.Some?
    ensures ScaleHeights(points, xy, b.yStartReal, ScaleFactors(xy, b).ySF.value)[k] == b.yEndReal
  {
    var ySF := ScaleFactors(xy, b).ySF.value;
    var ys := ScaleHeights(points, xy, b.yStartReal, ySF);
    assert YRangeFig(xy) == xy[2].y - points[k].y;
    calc {
      ys[k];
      (xy[2].y - points[k].y) * ySF + b.yStartReal;
      ySF * YRangeFig(xy) + b.yStartReal;
      b.yEndReal;
    }
  }

  /** With a positive y scale, a sample lower in the image (a larger row) is lower in real height. */
  lemma LowerRowsAreLower(points: seq<Point>, xy: seq<Point>, yStartReal: real, ySF: real, j: nat, k: nat)
    requires |xy| == 4 && j < |points| && k < |points|
    requires ySF > 0.0 && points[j].y < points[k].y
    ensures ScaleHeights(points, xy, yStartReal, ySF)[k] < ScaleHeights(points, xy, yStartReal, ySF)[j]
  {
    var ys := ScaleHeights(points, xy, yStartReal, ySF);
    var dj := xy[2].y - points[j].y;
    var dk := xy[2].y - points[k].y;
    assert ys[j] - ys[k] == (dj - dk) * ySF;
    assert dj - dk > 0.0;
  }

  /**
   * With a non-negative x scale, samples clicked left to right get
   * non-decreasing times.  Nothing forces the clicks to be ordered: the time of
   * a sample is read from the column actually clicked.
   */
  lemma TimesFollowColumns(points: seq<Point>, xy: seq<Point>, xSF: real, j: nat, k: nat)
    requires |points| > 0 && |xy| == 4 && j < |points| && k < |points|
    requires xSF >= 0.0 && points[j].x <= points[k].x
    ensures ScaleTimes(points, xy, xSF)[j] <= ScaleTimes(points, xy, xSF)[k]
  {
    var ts := ScaleTimes(points, xy, xSF);
    assert ts[k] - ts[j] == (points[k].x - points[j].x) * xSF;
  }
}
