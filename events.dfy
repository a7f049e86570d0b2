/**
 * The input events of an interactive capture and the value-level semantics of
 * one capture phase.  Both phases of the extractor (four calibration clicks,
 * then nterms + 1 sample clicks) share the same protocol: a left click is taken
 * by the blocking point input and accepted, a right click reaches the undo
 * handler, which drops the last accepted point if there is one, and every other
 * input is ignored by both.  The phase ends as soon as the target number of
 * points has been accepted; the events after that belong to whatever follows.
 */
module Events {

  /** A position on the displayed image, in pixel coordinates (x = column, y = row). */
  datatype Point = Point(x: real, y: real)

  /** One input event of the figure window. */
  datatype Event = LeftClick(at: Point) | RightClick | OtherInput

  /** What a capture phase ends with: the points it kept and how many events it used. */
  datatype Outcome = Outcome(points: seq<Point>, consumed: nat)

  /** The line printed for an undo with nothing to undo. */
  const NothingToUndo: string := "Nothing to undo"

  /** The points of the left clicks among `es`, in the order they were clicked. */
  function LeftClicks(es: seq<Event>): (r: seq<Point>)
    ensures |r| <= |es|
    ensures forall p :: p in r ==> LeftClick(p) in es
  {
    if es == [] then []
    else if es[0].LeftClick? then [es[0].at] + LeftClicks(es[1..])
    else LeftClicks(es[1..])
  }

  predicate NoUndo(es: seq<Event>)
  {
    forall k :: 0 <= k < |es| ==> !es[k].RightClick?
  }

  /**
   * The effect of one event on the accepted points: an accept appends, an undo
   * drops the last point when there is one, anything else changes nothing.
   * Whatever happens, only the last position changes: the points before it stay.
   */
  function Step(s: seq<Point>, e: Event): (r: seq<Point>)
    ensures (e.LeftClick? && |r| == |s| + 1 && r[..|s|] == s && r[|s|] == e.at)
         || (|s| > 0 && |r| == |s| - 1 && r == s[..|r|] && e.RightClick?)
         || (r == s && (e.OtherInput? || (e.RightClick? && s == [])))
  {
    match e
    case LeftClick(p) => s + [p]
    case RightClick => if |s| > 0 then s[..|s| - 1] else s
    case OtherInput => s
  }

  /**
   * Replays the events `es` on a phase that has already accepted `s` and needs
   * `target` points.  The result says which points the phase holds when it
   * stops and how many events it used; it stops either because it is complete
   * or because no event is left.
   */
  function Run(target: nat, s: seq<Point>, es: seq<Event>): (r: Outcome)
    requires |s| <= target
    ensures |r.points| <= target && r.consumed <= |es|
    ensures r.consumed < |es| ==> |r.points| == target
    ensures |r.points| < target ==> r.consumed == |es|
    ensures |s| == target ==> r == Outcome(s, 0)
    decreases |es|
  {
    if |s| == target || es == [] then Outcome(s, 0)
    else
      var rest := Run(target, Step(s, es[0]), es[1..]);
      Outcome(rest.points, rest.consumed + 1)
  }

  /** What one event prints: only an undo with nothing accepted prints anything. */
  function StepOutput(s: seq<Point>, e: Event): (out: seq<string>)
    ensures out != [] <==> e.RightClick? && s == []
    ensures out != [] ==> out == [NothingToUndo]
  {
    if e.RightClick? && s == [] then [NothingToUndo] else []
  }

  /**
   * The lines a phase prints while it replays `es` from `s`: one
   * "Nothing to undo" per undo that found nothing accepted, in order.
   */
  function Diagnostics(target: nat, s: seq<Point>, es: seq<Event>): (d: seq<string>)
    requires |s| <= target
    ensures |d| <= |es|
    ensures forall k :: 0 <= k < |d| ==> d[k] == NothingToUndo
    decreases |es|
  {
    if |s| == target || es == [] then []
    else StepOutput(s, es[0]) + Diagnostics(target, Step(s, es[0]), es[1..])
  }

  /** Replaying one more event before `es` uses one more event and otherwise agrees. */
  lemma RunUnfold(target: nat, s: seq<Point>, e: Event, es: seq<Event>)
    requires |s| < target
    ensures Run(target, s, [e] + es).points == Run(target, Step(s, e), es).points
    ensures Run(target, s, [e] + es).consumed == Run(target, Step(s, e), es).consumed + 1
    ensures Diagnostics(target, s, [e] + es) == StepOutput(s, e) + Diagnostics(target, Step(s, e), es)
  {
    assert ([e] + es)[0] == e;
    assert ([e] + es)[1..] == es;
  }

  /**
   * One loop iteration of a capture phase: if replaying the remaining events
   * from `s` finishes the replay of the whole stream `es`, then so does
   * replaying the events after `e` from `Step(s, e)`, with the output of `e`
   * printed.
   */
  lemma ReplayAdvance(target: nat, s: seq<Point>, e: Event, rest: seq<Event>, es: seq<Event>,
                      used: nat, printed: seq<string>)
    requires |s| < target
    requires Run(target, s, [e] + rest).points == Run(target, [], es).points
    requires Run(target, s, [e] + rest).consumed + used == Run(target, [], es).consumed
    requires printed + Diagnostics(target, s, [e] + rest) == Diagnostics(target, [], es)
    ensures Run(target, Step(s, e), rest).points == Run(target, [], es).points
    ensures Run(target, Step(s, e), rest).consumed + used + 1 == Run(target, [], es).consumed
    ensures (printed + StepOutput(s, e)) + Diagnostics(target, Step(s, e), rest) == Diagnostics(target, [], es)
  {
    RunUnfold(target, s, e, rest);
    assert printed + (StepOutput(s, e) + Diagnostics(target, Step(s, e), rest)) == Diagnostics(target, [], es);
  }

  /**
   * A completed phase ended on an accept: the last event it used is a left
   * click, and the point of that click is the last point kept.
   */
  lemma {:induction false} CompletionEndsOnAccept(target: nat, s: seq<Point>, es: seq<Event>)
    requires |s| < target
    requires |Run(target, s, es).points| == target
    ensures var r := Run(target, s, es);
      0 < r.consumed && es[r.consumed - 1].LeftClick? && r.points[target - 1] == es[r.consumed - 1].at
    decreases |es|
  {
    var e := es[0];
    var s' := Step(s, e);
    assert es == [e] + es[1..];
    RunUnfold(target, s, e, es[1..]);
    if |s'| == target {
      assert e.LeftClick? && s'[target - 1] == e.at;
    } else {
      CompletionEndsOnAccept(target, s', es[1..]);
    }
  }

  /**
   * Without undo, a phase keeps the points it started with followed by the
   * left clicks it used, in click order.
   */
  lemma {:induction false} ClickOrderWithoutUndo(target: nat, s: seq<Point>, es: seq<Event>)
    requires |s| <= target
    requires NoUndo(es)
    ensures var r := Run(target, s, es); r.points == s + LeftClicks(es[..r.consumed])
    decreases |es|
  {
    var r := Run(target, s, es);
    if |s| == target || es == [] {
      assert es[..r.consumed] == [];
    } else {
      var e := es[0];
      var s' := Step(s, e);
      assert es == [e] + es[1..];
      RunUnfold(target, s, e, es[1..]);
      var r' := Run(target, s', es[1..]);
      assert NoUndo(es[1..]) by {
        forall k | 0 <= k < |es[1..]| ensures !es[1..][k].RightClick? { assert es[1..][k] == es[k + 1]; }
      }
      ClickOrderWithoutUndo(target, s', es[1..]);
      var used := es[..r.consumed];
      assert used[0] == e && used[1..] == es[1..][..r'.consumed];
      assert !e.RightClick?;
      if e.LeftClick? {
        assert LeftClicks(used) == [e.at] + LeftClicks(es[1..][..r'.consumed]);
      } else {
        assert LeftClicks(used) == LeftClicks(es[1..][..r'.consumed]);
      }
    }
  }

  /** A completed phase without undo kept exactly its first `target` left clicks. */
  lemma FirstClicksWithoutUndo(target: nat, es: seq<Event>)
    requires NoUndo(es)
    requires |Run(target, [], es).points| == target
    ensures var r := Run(target, [], es); r.points == LeftClicks(es[..r.consumed])
  {
    ClickOrderWithoutUndo(target, [], es);
  }

  /**
   * An undo right after an accept restores the phase exactly: the phase ends
   * with the same points as if neither event had happened, two events later.
   */
  lemma UndoCancelsAccept(target: nat, s: seq<Point>, p: Point, es: seq<Event>)
    requires |s| + 1 < target
    ensures Run(target, s, [LeftClick(p), RightClick] + es).points == Run(target, s, es).points
    ensures Run(target, s, [LeftClick(p), RightClick] + es).consumed == Run(target, s, es).consumed + 2
  {
    assert [LeftClick(p), RightClick] + es == [LeftClick(p)] + ([RightClick] + es);
    RunUnfold(target, s, LeftClick(p), [RightClick] + es);
    RunUnfold(target, s + [p], RightClick, es);
    assert (s + [p])[..|s|] == s;
  }

  /** An undo before anything was accepted, and any other input, leave the phase as it was. */
  lemma IgnoredEventsChangeNothing(target: nat, s: seq<Point>, e: Event, es: seq<Event>)
    requires |s| < target
    requires e.OtherInput? || (e.RightClick? && s == [])
    ensures Run(target, s, [e] + es).points == Run(target, s, es).points
    ensures Run(target, s, [e] + es).consumed == Run(target, s, es).consumed + 1
  {
    RunUnfold(target, s, e, es);
  }
}
