/**
 * The sampling phase of the point capture: nterms + 1 clicks, one per
 * vertical guide line.  The guide line for sample k stands at
 * x_start + k * x_step, where x_start is the column of the first calibration
 * click and x_step = |x_end - x_start| / nterms in pixels.  Each accepted click
 * is marked and the guide moves one step right; a right click undoes the last
 * sample and moves the guide back.
 */
module SampleCapture {
  import opened Events

  /** Number of intervals between sample guide lines; nterms + 1 samples are taken. */
  const NTerms: nat := 49

  /** The marker drawn on an accepted sample (an orange cross). */
  datatype Marker = Cross(at: Point)

  /** The current vertical guide line: its column and its line width. */
  datatype GuideLine = GuideLine(x: real, width: real)

  /** The figure title of the sampling phase. */
  datatype Prompt = TermsLeft(terms: int) | SelectionComplete

  /** Width of the first guide line, and of every guide line drawn after an accept or an undo. */
  const FirstGuideWidth: real := 0.5
  const GuideWidth: real := 1.0

  /** Pixel spacing of the guide lines for a calibrated x span of `xRangeFig` pixels. */
  function XStep(xRangeFig: real, nterms: nat): (step: real)
    requires nterms > 0
    ensures step * (nterms as real) == xRangeFig
  {
    xRangeFig / (nterms as real)
  }

  /**
   * Column of the guide line for sample `k`: k steps right of the x_start
   * column, so with a positive step it lies right of x_start exactly for k > 0.
   */
  function GuideX(x0: real, xStep: real, k: int): (x: real)
    ensures xStep > 0.0 ==> (x > x0 <==> k > 0)
  {
    x0 + xStep * (k as real)
  }

  /**
   * The guide line of the last sample stands the whole calibrated pixel span
   * right of the x_start column: on the x_end click when that click lies to
   * the right of x_start, mirrored past x_start otherwise.
   */
  lemma LastGuideSpansTheRange(x0: real, xRangeFig: real, nterms: nat)
    requires nterms > 0
    ensures GuideX(x0, XStep(xRangeFig, nterms), nterms) == x0 + xRangeFig
  {
  }

  class SampleSession {
    /** Column of the first calibration click, where the first guide line stands. */
    const x0: real
    const xStep: real
    const nterms: nat
    /** The accepted samples, in order. */
    var points: seq<Point>
    var pointsPlot: seq<Marker>
    var lineCurr: GuideLine
    /** The step counter shared by the capture loop and the undo handler. */
    var i: int
    var prompt: Prompt
    /** Diagnostics written to standard output. */
    var console: seq<string>

    /**
     * The points and their markers grow and shrink with the counter, the
     * guide line stands at the column of the next sample, and while the phase
     * runs the prompt reports nterms + 1 - i samples left.
     */
    ghost predicate Valid()
      reads this
    {
      0 <= i <= nterms + 1 &&
      |points| == i && |pointsPlot| == i &&
      (forall k :: 0 <= k < i ==> pointsPlot[k] == Cross(points[k])) &&
      lineCurr.x == GuideX(x0, xStep, i) &&
      (i <= nterms ==> prompt == TermsLeft(nterms + 1 - i))
    }

    constructor (x0: real, xStep: real, nterms: nat)
      ensures Valid()
      ensures this.x0 == x0 && this.xStep == xStep && this.nterms == nterms
      ensures points == [] && i == 0 && console == []
      ensures lineCurr == GuideLine(x0, FirstGuideWidth)
    {
      this.x0, this.xStep, this.nterms := x0, xStep, nterms;
      points, pointsPlot := [], [];
      i := 0;
      lineCurr := GuideLine(x0 + xStep * 0.0, FirstGuideWidth);
      prompt := TermsLeft(nterms + 1);
      console := [];
    }

    /** A left click at `p`: record and mark it, step on and move the guide line to the next column. */
    method Accept(p: Point)
      requires Valid() && i <= nterms
      modifies this
      ensures Valid()
      ensures points == old(points) + [p] && pointsPlot == old(pointsPlot) + [Cross(p)]
      ensures i == old(i) + 1
      ensures lineCurr == GuideLine(GuideX(x0, xStep, i), GuideWidth)
      ensures i == nterms + 1 ==> prompt == old(prompt)
      ensures console == old(console)
    {
      points := points + [p];
      pointsPlot := pointsPlot + [Cross(p)];
      i := i + 1;
      lineCurr := GuideLine(x0 + xStep * (i as real), GuideWidth);
      if i <= nterms {
        prompt := TermsLeft(nterms + 1 - i);
      }
    }

    /**
     * A right click: remove the last sample and its marker, step back and
     * return the guide line to that sample's column, or, with nothing accepted,
     * only report that there is nothing to undo.
     */
    method Undo()
      requires Valid()
      modifies this
      ensures Valid()
      ensures old(i) > 0 ==>
        i == old(i) - 1 && points == old(points)[..i] && pointsPlot == old(pointsPlot)[..i] &&
        lineCurr == GuideLine(GuideX(x0, xStep, i), GuideWidth) &&
        prompt == TermsLeft(nterms + 1 - i) && console == old(console)
      ensures old(i) == 0 ==>
        i == 0 && points == old(points) && pointsPlot == old(pointsPlot) && lineCurr == old(lineCurr) &&
        prompt == old(prompt) && console == old(console) + [NothingToUndo]
    {
      if |points| > 0 {
        points := points[..|points| - 1];
        i := i - 1;
        pointsPlot := pointsPlot[..|pointsPlot| - 1];
        lineCurr := GuideLine(x0 + xStep * (i as real), GuideWidth);
        prompt := TermsLeft(nterms + 1 - i);
      } else {
        console := console + [NothingToUndo];
      }
    }

    /** Dispatches one event while the phase is running; inputs other than the two clicks change nothing. */
    method Handle(e: Event)
      requires Valid() && i <= nterms
      modifies this
      ensures Valid()
      ensures points == Step(old(points), e)
      ensures console == old(console) + StepOutput(old(points), e)
      ensures e.OtherInput? ==>
        points == old(points) && pointsPlot == old(pointsPlot) && lineCurr == old(lineCurr) &&
        i == old(i) && prompt == old(prompt) && console == old(console)
    {
      match e
      case LeftClick(p) => Accept(p);
      case RightClick => Undo();
      case OtherInput =>
    }

    /** After the last sample the title tells the operator to close the figure. */
    method Complete()
      requires Valid() && i == nterms + 1
      modifies this`prompt
      ensures Valid() && prompt == SelectionComplete
    {
      prompt := SelectionComplete;
    }
  }

  /**
   * Runs the sampling loop on the event stream `es` until nterms + 1 samples
   * are accepted or the stream is used up.  The session then holds exactly what
   * the replay of the events used says.
   */
  method CaptureSamples(x0: real, xStep: real, nterms: nat, es: seq<Event>)
    returns (session: SampleSession, consumed: nat)
    ensures fresh(session) && session.Valid()
    ensures session.x0 == x0 && session.xStep == xStep && session.nterms == nterms
    ensures session.points == Run(nterms + 1, [], es).points
    ensures consumed == Run(nterms + 1, [], es).consumed
    ensures session.console == Diagnostics(nterms + 1, [], es)
  {
    session := new SampleSession(x0, xStep, nterms);
    consumed := 0;
    assert es[consumed..] == es;
    while session.i <= nterms && consumed < |es|
      invariant session.Valid() && consumed <= |es|
      invariant session.x0 == x0 && session.xStep == xStep && session.nterms == nterms
      invariant Run(nterms + 1, session.points, es[consumed..]).points == Run(nterms + 1, [], es).points
      invariant Run(nterms + 1, session.points, es[consumed..]).consumed + consumed == Run(nterms + 1, [], es).consumed
      invariant session.console + Diagnostics(nterms + 1, session.points, es[consumed..]) == Diagnostics(nterms + 1, [], es)
      decreases |es| - consumed
    {
      var e := es[consumed];
      assert es[consumed..] == [e] + es[consumed + 1..];
      ReplayAdvance(nterms + 1, session.points, e, es[consumed + 1..], es, consumed, session.console);
      session.Handle(e);
      consumed := consumed + 1;
    }
  }
}
