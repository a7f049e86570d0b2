# Waveform Extractor — point capture, calibration, scaling and Fourier coefficients

A Dafny model of the core of the Waveform Extractor (`WaveformExtractor.py`):
the operator digitises a waveform image by clicking. `_take_points` runs two
capture phases over the same figure. The first takes four calibration clicks
(x_start, x_end, y_start, y_end). The second takes nterms + 1 = 50 samples,
one per vertical guide line. A right click undoes the last accepted click in
either phase. The samples are then shifted and scaled into real units. `_fcalc`
reads 21 coefficient pairs (a_n, b_n) from the discrete Fourier transform of the
scaled heights.

Modules:

- `Events` (events.dfy): input events (left click, right click, other input).
  It holds the value-level semantics shared by both phases: `Step` is the
  effect of one event and `Run` replays a stream until the phase is complete.
  The lemmas about undo, ignored input and click order are stated here.
- `CalibrationCapture` (calibration_capture.dfy): the calibration phase as a
  class. It holds the lists `xy`, `dots`, `hlines`, `vlines`, the shared
  counter `i`, the title and the console output. `CaptureCalibration` is the
  `while i < 4` loop driven by an event stream.
- `SampleCapture` (sample_capture.dfy): the sampling phase as a class. It holds
  `points`, `pointsPlot`, the current guide line and the counter.
  `CaptureSamples` is the `while i < nterms + 1` loop.
- `Scaling` (scaling.dfy): the scale factors from the calibration, and the
  sample times and heights. The arithmetic is exact (`real`). A factor whose
  pixel distance is zero has no finite value and is `None`.
- `Fourier` (fourier.dfy): the coefficient loop of `_fcalc`. The spectrum is an
  input sequence of complex bins.
- `Extractor` (extractor.dfy): the pipeline. Calibration, sampling and scaling
  read one event stream (`Digitize`, `TakePoints`). The transform of the
  heights is a function parameter that keeps the signal's length (`Extract`).

Both capture phases are classes whose methods update their fields in place.
Each phase's `Valid()` states the equal-length invariant of its lists and
counter. It also fixes what every annotation looks like: the k-th calibration
marker and crosshair are at the k-th click, in the k-th step's colour. In the
sampling phase, the guide line stands at `xy[0].x + x_step * i` and the prompt
reports `nterms + 1 - i` samples left. Each driver loop is proved to leave its
session exactly where the pure replay `Run` of the events it used leaves it.

### Behaviour of the code worth knowing

- The x and y scale factors are divisions on numpy values (lines 326-327). A
  zero pixel distance gives infinity or NaN, not an error. The times use only
  the x factor and the heights only the y factor (lines 333-337). So when the
  x_start and x_end clicks share a column, only the times are non-finite. The
  heights, the transform and the 21 coefficient pairs are computed as usual
  (`XDegenerateCaptureStillFits`).
- Sample times are read from the clicked columns (lines 333-334). When
  x_start_real < x_end_real, clicks made left to right get non-decreasing
  times (`TimesFollowColumns`); nothing makes the clicks go in that order.
- Take calibration clicks at (100,900), (900,900), (100,900), (100,100) and
  bounds x [0,10], y [0,5]. Samples on the guide lines, on rows 900 - 8k,
  scale to t_k = 10k/49 and y_k = k/20 (`RampScenario`).
- When x_start and x_end are in different columns, the guide lines advance
  to the right of the x_start column by |x_end - x_start| / nterms per sample,
  and the last one reaches the x_end click only when that click lies right of
  x_start (`LastGuideSpansTheRange`); when they share a column, every guide
  stands on it.
- No check relates the sample count to the coefficient count. The fit fails
  in two places: `np.fft.fft` rejects an empty signal (line 360), and reading a
  bin past the end raises an index error (line 365). With 50 samples and 21
  coefficients neither happens in the program.
- `nterms` is the constant 49. The guide spacing divides by it.

## Model

| member | source | states |
|---|---|---|
| `Events.Step` | WaveformExtractor.py:171-232 | an accept appends exactly the clicked point; an undo with points drops exactly the last one; an undo with none, and any other input, change nothing; only the last position ever changes |
| `Events.StepOutput` | WaveformExtractor.py:174-191 | an event prints something exactly when it is an undo with nothing accepted, and then exactly "Nothing to undo" |
| `Events.Diagnostics` | WaveformExtractor.py:162-191 | a phase prints at most one line per event, every one of them "Nothing to undo" |
| `Events.Run` | WaveformExtractor.py:211-232 | a phase never holds more than its target, stops early only when complete, uses up the stream otherwise, and uses no event once complete |
| `Events.CompletionEndsOnAccept` | WaveformExtractor.py:212-232 | a completed phase's last used event is a left click, and its point is the last point kept |
| `Events.ClickOrderWithoutUndo` | WaveformExtractor.py:222-224 | without undo, the kept points are the starting points followed by the used left clicks, in click order |
| `Events.FirstClicksWithoutUndo` | WaveformExtractor.py:211-232 | a completed phase without undo kept exactly its first `target` left clicks, in order |
| `Events.UndoCancelsAccept` | WaveformExtractor.py:174-181 | an accept followed by an undo leaves the phase ending with the same points as without them |
| `Events.IgnoredEventsChangeNothing` | WaveformExtractor.py:171-191 | other input, and an undo with nothing accepted, leave the phase's outcome unchanged |
| `CalibrationCapture.CueTitle` | WaveformExtractor.py:184-185 | the prompt for step k names the k-th axis reference and is drawn in the k-th colour |
| `CalibrationCapture.CalibrationSession.constructor` | WaveformExtractor.py:203-218 | empty lists, counter 0, title requesting x = x_start |
| `CalibrationCapture.CalibrationSession.Accept` | WaveformExtractor.py:222-232 | appends the click and its marker, horizontal and vertical line in step i's colour, increments i, keeps the invariant; after the fourth click the title stays on the y_end cue |
| `CalibrationCapture.CalibrationSession.Undo` | WaveformExtractor.py:162-191 | with points: removes the last point and its three annotations and decrements i, earlier ones unchanged; with none: changes nothing but prints "Nothing to undo" |
| `CalibrationCapture.CalibrationSession.Handle` | WaveformExtractor.py:171-222 | the session's points follow `Step`; a click prints nothing except an undo with nothing accepted, which prints "Nothing to undo"; the click that completes the phase leaves the title as it was; any other input leaves the whole session unchanged |
| `CalibrationCapture.CalibrationSession.ClearCrosshairs` | WaveformExtractor.py:282-284 | removes all crosshair lines, keeps the clicks, markers, title and output |
| `CalibrationCapture.CaptureCalibration` | WaveformExtractor.py:203-235 | the loop leaves a valid session holding exactly the points, and using exactly the events, that `Run` with target 4 gives; its output is one "Nothing to undo" per undo that found nothing accepted |
| `SampleCapture.XStep` | WaveformExtractor.py:290-291 | nterms guide steps span exactly the calibrated x pixel range |
| `SampleCapture.GuideX` | WaveformExtractor.py:298-317 | with a positive step, the guide of sample k lies right of the x_start column exactly when k > 0 |
| `SampleCapture.LastGuideSpansTheRange` | WaveformExtractor.py:290-317 | the guide of the last sample stands the whole calibrated pixel span right of x_start |
| `SampleCapture.SampleSession.constructor` | WaveformExtractor.py:294-298 | no samples, counter 0, first guide line (width 0.5) at the x_start column |
| `SampleCapture.SampleSession.Accept` | WaveformExtractor.py:309-317 | appends the sample and its marker, increments i, moves the guide line to `x0 + x_step * i`; the click that completes the selection leaves the prompt as it was |
| `SampleCapture.SampleSession.Undo` | WaveformExtractor.py:252-279 | with samples: removes the last one and its marker, decrements i, returns the guide to `x0 + x_step * i` and reports `nterms + 1 - i` left; with none: only prints "Nothing to undo" |
| `SampleCapture.SampleSession.Handle` | WaveformExtractor.py:287-309 | the samples follow `Step`; a click prints nothing except an undo with nothing accepted, which prints "Nothing to undo"; any other input leaves the whole session unchanged |
| `SampleCapture.SampleSession.Complete` | WaveformExtractor.py:319-321 | once nterms + 1 samples are in, the title announces completion |
| `SampleCapture.CaptureSamples` | WaveformExtractor.py:297-319 | the loop leaves a valid session holding exactly the points `Run` with target nterms + 1 gives; its output is one "Nothing to undo" per undo that found nothing accepted |
| `Scaling.XRangeFig` | WaveformExtractor.py:237 | the x pixel range is non-negative and zero exactly when x_start and x_end share a column |
| `Scaling.YRangeFig` | WaveformExtractor.py:238 | the y pixel range is non-negative and zero exactly when y_start and y_end share a row |
| `Scaling.ScaleFactors` | WaveformExtractor.py:326-327 | each factor has no finite value exactly when its pixel range is zero; otherwise it times its pixel range is the real range, and it is positive exactly when the real bounds increase |
| `Scaling.ScaleTimes` | WaveformExtractor.py:333-334 | one time per sample; the first is 0; every time is (column - first column) times x_SF, the y_start shift cancelling |
| `Scaling.ScaleHeights` | WaveformExtractor.py:337 | one height per sample; a sample on the y_start row has height y_start_real |
| `Scaling.YEndRowMapsToYEnd` | WaveformExtractor.py:337 | when the y_end row lies above the y_start row, a sample on it has height y_end_real |
| `Scaling.LowerRowsAreLower` | WaveformExtractor.py:337 | with y_SF > 0, a larger pixel row gives a smaller height |
| `Scaling.TimesFollowColumns` | WaveformExtractor.py:333-334 | with x_SF >= 0, samples ordered by column have ordered times |
| `Fourier.CoeffAt` | WaveformExtractor.py:365-366 | a times the bin count is 2 Re(F_n); b times the bin count is -2 Im(F_n) |
| `Fourier.CoefficientsOf` | WaveformExtractor.py:355-367 | fails exactly for an empty signal or fewer bins than coefficients; otherwise exactly nCoeff pairs, pair n read from bin n |
| `Fourier.ExtractCoefficients` | WaveformExtractor.py:363-368 | the coefficient loop computes exactly `CoefficientsOf`, failing at the first bin past the end |
| `Fourier.SpectrumRoundTrip` | WaveformExtractor.py:365-366 | mapping each extracted pair back gives the bin it was read from |
| `Fourier.DcCoefficientIsTwiceMean` | WaveformExtractor.py:360-366 | when bin 0 is the sum of the samples, a_0 is twice their mean and b_0 is 0 |
| `Extractor.Digitize` | WaveformExtractor.py:137-340 | a completed capture has the four replayed calibration points and the 50 samples replayed from the events after them; its heights are `ScaleHeights` of those samples, its times `ScaleTimes` of them, starting at 0 and absent exactly when x_start and x_end share a column; it awaits input exactly when a phase ran out of events |
| `Extractor.TakePoints` | WaveformExtractor.py:137-340 | running both sessions on one stream and scaling gives exactly `Digitize` |
| `Extractor.Extract` | WaveformExtractor.py:127-135 | with a length-preserving transform, extraction succeeds exactly when the capture does, with exactly 21 pairs, pair n read from bin n of the transform of the captured heights (a_n * 50 = 2 Re, b_n * 50 = -2 Im); capture failures propagate |
| `Extractor.CompletedCaptureDcTerm` | WaveformExtractor.py:355-366 | in a completed capture whose bin 0 is the sum of the heights, the first pair is twice the mean height and 0 |
| `Extractor.XDegenerateCaptureStillFits` | WaveformExtractor.py:326-367 | a calibration whose x clicks share a column leaves the times without value but still yields 21 pairs |
| `Extractor.OnGuideSamplesSplitTheRange` | WaveformExtractor.py:290-334 | samples clicked on their guide lines have t_k * nterms = k * (x_end_real - x_start_real); the last is at the full real range |
| `Extractor.RampScenario` | WaveformExtractor.py:326-337 | the example ramp (calibration at (100,900), (900,900), (100,900), (100,100), bounds x [0,10], y [0,5]) scales to t_k = 10k/49 and y_k = k/20 |

## Left out

- `Extractor.Digitize`: when the y_start and y_end clicks share a row, the program computes infinite or NaN heights and goes on. The model returns `Failure(NonFiniteHeights)`, because `real` has no infinite or NaN values.
- `Extractor.Extract`: for the same calibration the program saves infinite or NaN coefficient pairs. The model returns the `NonFiniteHeights` failure instead.
- The Tk window (`set_main_window`, `_browse_files`, `_preview_image`, `_mandatory_fields`) and `utils/tkutils.py` are not part of this model. They are widget construction and dialogs.
- Matplotlib drawing is reduced to values. Each marker and line is a record of where and in which colour it was drawn. Removing an artist is removing it from its list. The calibration title keeps its text and colour. The sampling prompt is reduced to the number of samples left, or `SelectionComplete`.
- `plt.ginput` blocking is replaced by an event stream. If the stream ends before a phase is complete, the model returns `AwaitingInput`; the program would keep waiting.
- Keyboard input to `ginput` is left out. Matplotlib treats keys as add, pop or stop, and that behaviour is internal to the library. A left click outside the axes is `OtherInput`. A right click undoes wherever it lands on the figure, because the undo handlers test only the button (lines 171, 255).
- The blocking `plt.show()` after sampling is left out. Events after the last sample are not used.
- `np.fft.fft` is a parameter of `Extract`. The spectrum is an input of `CoefficientsOf`. Floating-point trigonometry cannot be stated over `real`.
- `create_fourier_series`, the comparison plot in `_fcalc` and `debug_fourier.py` are left out. They are trigonometric reconstruction for display only.
- Parsing the bound entries with `float()` (lines 140-143) is left out; the model takes the parsed bounds. Image loading and its error dialog (lines 146-152) are left out too.
- Writing `fourier_params.txt` in `_save_to_file`, the `np.save` debug artefacts, logging and the argument parser are left out. They are output formatting and I/O.
- Floating-point rounding is left out. All arithmetic is exact `real`. A scale factor over a zero pixel distance is `None` rather than an infinite or NaN value.
