/**
 * The calibration phase of the point capture: four clicks, in the fixed order
 * x = x_start, x = x_end, y = y_start, y = y_end.  Every accepted click leaves a
 * marker and a horizontal and a vertical guide line in the colour of its step;
 * a right click undoes the last one.  The figure's artists are kept as values
 * that record where and in which colour they were drawn.
 */
module CalibrationCapture {
  import opened Events

  datatype Color = Blue | Red | Green | Purple

  /** What the figure shows for one accepted calibration click. */
  datatype Artist = Dot(at: Point, color: Color) | HLine(y: real, color: Color) | VLine(x: real, color: Color)

  /** The figure title: which axis reference is requested next, in that step's colour. */
  datatype Title = Title(text: string, color: Color)

  /** Number of calibration clicks. */
  const CalibrationPoints: nat := 4

  const Cues: seq<string> := ["x = x_start", "x = x_end", "y = y_start", "y = y_end"]
  const Palette: seq<Color> := [Blue, Red, Green, Purple]

  /** The prompt for step `step`: it names that step's axis reference, in that step's colour. */
  function CueTitle(step: nat): (t: Title)
    requires step < CalibrationPoints
    ensures t.color == Palette[step]
    ensures |Cues[step]| <= |t.text| && t.text[|t.text| - |Cues[step]|..] == Cues[step]
  {
    Title("click on the AXIS where " + Cues[step], Palette[step])
  }

  class CalibrationSession {
    /** The accepted clicks, in order. */
    var xy: seq<Point>
    /** One marker and two guide lines per accepted click. */
    var dots: seq<Artist>
    var hlines: seq<Artist>
    var vlines: seq<Artist>
    /** The step counter shared by the capture loop and the undo handler. */
    var i: int
    var title: Title
    /** Diagnostics written to standard output. */
    var console: seq<string>

    /**
     * The lists grow and shrink together with the counter, and the k-th
     * annotation marks the k-th click in the k-th step's colour.  While the
     * phase is running the title requests step i.
     */
    ghost predicate Valid()
      reads this
    {
      0 <= i <= CalibrationPoints &&
      |xy| == i && |dots| == i && |hlines| == i && |vlines| == i &&
      (forall k :: 0 <= k < i ==>
        dots[k] == Dot(xy[k], Palette[k]) &&
        hlines[k] == HLine(xy[k].y, Palette[k]) &&
        vlines[k] == VLine(xy[k].x, Palette[k])) &&
      (i < CalibrationPoints ==> title == CueTitle(i))
    }

    constructor ()
      ensures Valid()
      ensures xy == [] && i == 0 && console == []
    {
      xy, dots, hlines, vlines := [], [], [], [];
      i := 0;
      title := CueTitle(0);
      console := [];
    }

    /** A left click at `p`: record it, annotate it in step i's colour, advance the step. */
    method Accept(p: Point)
      requires Valid() && i < CalibrationPoints
      modifies this
      ensures Valid()
      ensures xy == old(xy) + [p] && i == old(i) + 1
      ensures dots == old(dots) + [Dot(p, Palette[old(i)])]
      ensures hlines == old(hlines) + [HLine(p.y, Palette[old(i)])]
      ensures vlines == old(vlines) + [VLine(p.x, Palette[old(i)])]
      ensures i == CalibrationPoints ==> title == old(title)
      ensures console == old(console)
    {
      xy := xy + [p];
      dots := dots + [Dot(p, Palette[i])];
      hlines := hlines + [HLine(p.y, Palette[i])];
      vlines := vlines + [VLine(p.x, Palette[i])];
      i := i + 1;
      if i < CalibrationPoints {
        title := CueTitle(i);
      }
    }

    /**
     * A right click: remove the last click and its three annotations and step
     * back, or, with nothing accepted, only report that there is nothing to undo.
     */
    method Undo()
      requires Valid()
      modifies this
      ensures Valid()
      ensures old(i) > 0 ==>
        i == old(i) - 1 && xy == old(xy)[..i] && dots == old(dots)[..i] &&
        hlines == old(hlines)[..i] && vlines == old(vlines)[..i] && console == old(console)
      ensures old(i) == 0 ==>
        i == 0 && xy == old(xy) && dots == old(dots) && hlines == old(hlines) &&
        vlines == old(vlines) && title == old(title) && console == old(console) + [NothingToUndo]
    {
      if |xy| > 0 {
        xy := xy[..|xy| - 1];
        dots := dots[..|dots| - 1];
        hlines := hlines[..|hlines| - 1];
        vlines := vlines[..|vlines| - 1];
        i := i - 1;
        title := CueTitle(i);
      } else {
        console := console + [NothingToUndo];
      }
    }

    /** Dispatches one event while the phase is running; inputs other than the two clicks change nothing. */
    method Handle(e: Event)
      requires Valid() && i < CalibrationPoints
      modifies this
      ensures Valid()
      ensures xy == Step(old(xy), e)
      ensures console == old(console) + StepOutput(old(xy), e)
      ensures i == CalibrationPoints ==> title == old(title)
      ensures e.OtherInput? ==>
        xy == old(xy) && dots == old(dots) && hlines == old(hlines) && vlines == old(vlines) &&
        i == old(i) && title == old(title) && console == old(console)
    {
      match e
      case LeftClick(p) => Accept(p);
      case RightClick => Undo();
      case OtherInput =>
    }

    /** After the fourth click the crosshair lines are taken off the figure; the markers stay. */
    method ClearCrosshairs()
      requires Valid() && i == CalibrationPoints
      modifies this
      ensures hlines == [] && vlines == []
      ensures xy == old(xy) && dots == old(dots) && i == old(i)
      ensures title == old(title) && console == old(console)
    {
      hlines, vlines := [], [];
    }
  }

  /**
   * Runs the calibration loop on the event stream `es` until four clicks are
   * accepted or the stream is used up.  The session then holds exactly what the
   * replay of the events used says, and `consumed` is how many events it used.
   */
  method CaptureCalibration(es: seq<Event>) returns (session: CalibrationSession, consumed: nat)
    ensures fresh(session) && session.Valid()
    ensures session.xy == Run(CalibrationPoints, [], es).points
    ensures consumed == Run(CalibrationPoints, [], es).consumed
    ensures session.console == Diagnostics(CalibrationPoints, [], es)
  {
    session := new CalibrationSession();
    consumed := 0;
    assert es[consumed..] == es;
    while session.i < CalibrationPoints && consumed < |es|
      invariant session.Valid() && consumed <= |es|
      invariant Run(CalibrationPoints, session.xy, es[consumed..]).points == Run(CalibrationPoints, [], es).points
      invariant Run(CalibrationPoints, session.xy, es[consumed..]).consumed + consumed == Run(CalibrationPoints, [], es).consumed
      invariant session.console + Diagnostics(CalibrationPoints, session.xy, es[consumed..]) == Diagnostics(CalibrationPoints, [], es)
      decreases |es| - consumed
    {
      var e := es[consumed];
      assert es[consumed..] == [e] + es[consumed + 1..];
      ReplayAdvance(CalibrationPoints, session.xy, e, es[consumed + 1..], es, consumed, session.console);
      session.Handle(e);
      consumed := consumed + 1;
    }
  }
}
