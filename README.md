# WebTuner pitch engine, modelled in Dafny

A model of the logic in `app.js` of WebTuner (a browser guitar and bass
tuner), with proofs about it:

- **PitchDetection** (`pitch_detection.dfy`) — `autoCorrelate(buf, sampleRate)`.
  It applies an RMS silence gate and a hard-clip filter at 0.01. It then scans
  the lags `floor(sr/1000)..floor(sr/50)` for the best normalised
  autocorrelation, stopping early at the first lag above 0.95 that is still
  rising. A peak below 0.01 is rejected. The accepted lag is refined with a
  three-point parabola, and the result is `sampleRate / refinedLag` or -1.
  The functions are the specification: `Estimate` composes `TooQuiet`,
  `Clipped`, `Corr`, `ScanPeak` and `Refine`. The methods (`AutoCorrelate`,
  `ScanLags`, `Correlation`, `ClipCopy`, `SumOfSquares`, `Interpolate`) are
  the source's loops over arrays. Each is proved to compute its specification.
- **Notes** (`notes.dfy`) — `freqToNote`. It computes the semitone index (JavaScript
  `Math.round`), the name `NOTE_NAMES[n % 12]` with JavaScript's truncating
  `%` (`undefined` becomes `None`), the octave `floor(n/12) - 1`, the
  equal-temperament reference and the cents. `Math.log2` and `Math.pow(2, ·)`
  are parameters `log2` and `exp2`. Each lemma states the laws of those
  functions that it relies on.
- **Needle** (`needle.dfy`) — the clamp, the needle position and the good/warn/plain
  band of `setNeedle`.
- **Presets** (`presets.dfy`) — the guitar and bass string tables and the
  mode-to-table choice of `renderStrings`.
- **Driver** (`driver.dfy`) — one pass of `update` as the function `Cycle`.
  The class `Tuner` holds `isRunning`, `rafId` and `a4`, with `start`, `stop`,
  `update` and the A4 slider handler as methods. The calls into the browser
  are recorded in order in the field `effects`. Whether the microphone opens
  and which handle `requestAnimationFrame` returns are inputs.
- **Base** (`base.dfy`) — `Option`, and the JavaScript numbers the estimator
  can return (`Finite`, `PosInfinity`, `NaN`).

Edge cases of `app.js` that the model keeps:

- For a sample rate below 1000 the minimum lag is 0, so lag 0 is scanned.
  A refined lag of 0 then gives `+Infinity`.
- When the accepted lag is the frame length minus one, `acfAt` one lag
  further divides 0 by 0 and the result is `NaN`. `update` treats NaN as
  no signal.
- An empty frame passes the silence gate, because `sqrt(0/0)` is NaN. The
  scan then finds nothing, and the result is -1
  (`PitchDetection.NoSignalAfterClippingHasNoPitch`).
- The "no signal" branch of `update` calls `setNeedle(0)`. This centres the
  needle and gives the cents display the "good" class
  (`Driver.CycleOutcomes`).

## Model

| member | source | states |
|---|---|---|
| `PitchDetection.SumSquares` | app.js:96-97 | the accumulated sum of squares is never negative |
| `PitchDetection.TooQuiet` | app.js:96-99 | the gate without the square root: a non-empty frame whose mean square is below 0.008²; stated by `QuietFrameHasNoPitch` and `AutoCorrelate` |
| `PitchDetection.SumOfSquares` | app.js:95-97 | the first loop returns the sum of the squares of all samples |
| `PitchDetection.QuietFrameHasNoPitch` | app.js:96-99 | a non-empty frame whose samples are all below 0.008 in magnitude has mean square below 0.008², so the result is -1 |
| `PitchDetection.AutoCorrelate` | app.js:94-149 | returns exactly `Estimate(buf, sampleRate)`; a frame that is too quiet gives -1 before any lag is scanned |
| `PitchDetection.Estimate` | app.js:94-149 | what `autoCorrelate` returns: -1 for a quiet frame or a rejected peak, otherwise the refinement at the scanned peak; its meaning is stated by `EstimateOnEarlyExit`, `EstimateWithoutEarlyExit`, `QuietFrameHasNoPitch` and `NoSignalAfterClippingHasNoPitch` |
| `PitchDetection.EstimateOnEarlyExit` | app.js:114-148 | for a frame that passes the gate, the first lag of the range above 0.95 and above the previous lag's correlation lies below the frame length, and the result is the refinement at that lag |
| `PitchDetection.EstimateWithoutEarlyExit` | app.js:110-148 | for a frame that passes the gate with no early-exit lag, the result is the refinement at the first lag of maximum correlation when that maximum reaches 0.01, and -1 otherwise |
| `PitchDetection.Clipped` | app.js:101-106 | the copy has the input's length; a sample of magnitude at least 0.01 is kept (0.01 itself included), a smaller one becomes 0 |
| `PitchDetection.ClippedProperties` | app.js:101-106 | every clipped sample is 0 or at least 0.01 in magnitude, no sample grows, and clipping is idempotent |
| `PitchDetection.ClipCopy` | app.js:102-106 | the second loop fills a fresh array equal to `Clipped(buf)` |
| `PitchDetection.Correlation` | app.js:115-119 | the inner loop (and `acfAt`, 134-140) returns the lagged product sum divided by `SIZE - lag` |
| `PitchDetection.Corr` | app.js:115-119 | the normalised autocorrelation, the lagged sum over `SIZE - lag`; bounded by `CorrBounded` and computed by `Correlation` |
| `PitchDetection.LagSumBounded` | app.js:116-118 | for samples in [-1, 1] the sum of n lagged products lies in [-n, n] |
| `PitchDetection.CorrBounded` | app.js:115-119 | for samples in [-1, 1] every correlation lies in [-1, 1] |
| `PitchDetection.MinLag` | app.js:109 | `floor(sr / 1000)`: the r with 1000r <= sr < 1000(r+1) |
| `PitchDetection.MaxLag` | app.js:108 | `floor(sr / 50)`: the r with 50r <= sr < 50(r+1) |
| `PitchDetection.LagRange` | app.js:108-109 | for a positive sample rate `floor(sr/1000) <= floor(sr/50)`, and the minimum lag is 0 exactly when sr < 1000 |
| `PitchDetection.IsExitLag` | app.js:120 | the early-exit test, above 0.95 and above the previous lag's correlation (1 before the first lag); stated by `FirstExitFrom`, `FirstExitIsFirst` and `FirstLagNeverExits` |
| `PitchDetection.FirstExitFrom` | app.js:114-122 | an exit lag found is in the remaining range and is above 0.95 and above the previous lag's correlation |
| `PitchDetection.FirstExitIsFirst` | app.js:114-122 | no earlier lag of the range satisfies the exit test, and when none is found no lag in the range does |
| `PitchDetection.FirstExitFinds` | app.js:114-122 | an exit lag with no exit lag before it is the one the search finds |
| `PitchDetection.BestUpTo` | app.js:110-125 | the running best starts at (-1, 0); a recorded lag is in range and its correlation is the best, which is positive |
| `PitchDetection.BestUpToIsFirstMaximum` | app.js:110-125 | the best is the maximum over the range, it is 0 when no lag is recorded, and the recorded lag is the first one to attain it (strict `>`) |
| `PitchDetection.ScanPeak` | app.js:110-127 | the scan's outcome has a non-negative correlation; its lag is -1 or a scanned lag whose correlation is positive and is the one recorded |
| `PitchDetection.EarlyExitWins` | app.js:120-121 | the first lag above 0.95 that is higher than the previous lag becomes the result, whatever later lags give |
| `PitchDetection.NoExitGivesFirstMaximum` | app.js:110-127 | without an early exit the result is the maximum correlation over the scanned lags and the first lag attaining it; the lag is -1 exactly when no correlation is positive |
| `PitchDetection.FirstLagNeverExits` | app.js:112-121 | because the previous correlation starts at 1, the first scanned lag cannot exit early when every sample lies in [-1, 1] |
| `PitchDetection.ScanLags` | app.js:108-127 | the lag loop, with its `break`, computes exactly `ScanPeak` over `MIN_LAG..MAX_LAG` |
| `PitchDetection.NoSignalAfterClippingHasNoPitch` | app.js:101-129 | a frame with every sample below the clip level, the empty frame included, gives -1 |
| `PitchDetection.ParabolicShift` | app.js:142-146 | the shift `0.5*(y1-y3)/denom`, 0 when the second difference is 0; stated by `ParabolicShiftIsVertex` |
| `PitchDetection.LowerNeighbour` | app.js:131 | the lag below the best, except that lags 0 and 1 use themselves; stated by `LowLagShiftsByHalf` |
| `PitchDetection.RefinedLag` | app.js:131-146 | the best lag plus the parabolic shift through its neighbours' correlations; stated by `LowLagShiftsByHalf` |
| `PitchDetection.Refine` | app.js:131-148 | NaN exactly when the lag after the best equals the frame length; +Infinity only at a refined lag of 0; a finite result times the refined lag is the sample rate |
| `PitchDetection.ParabolicShiftIsVertex` | app.js:142-146 | the shift `0.5*(y1-y3)/denom` is the stationary point of the parabola through the three correlations, and when y2 is a local maximum it is at most half a lag |
| `PitchDetection.LowLagShiftsByHalf` | app.js:131-146 | at lags 0 and 1, x1 equals the lag, so y1 == y2 and the refined lag is the lag minus 0.5 whenever y3 != y2 |
| `PitchDetection.Interpolate` | app.js:131-148 | refinement returns NaN when the lag after the best equals the frame length, +Infinity for a refined lag of 0, and otherwise `sampleRate / refined`, where refined is the lag plus the parabolic shift (the lag itself when the second difference is 0) |
| `Notes.JsRemainder12` | app.js:38 | JavaScript's `n % 12`: equals Euclidean `%` for n >= 0; for n < 0 it lies in (-12, 0] and differs from n by a multiple of 12 |
| `Notes.JsRound` | app.js:37 | `Math.round` gives the integer within [-0.5, +0.5) of its argument |
| `Notes.Octave` | app.js:39 | octave k holds the indices 12(k+1) to 12(k+2)-1 |
| `Notes.NoteName` | app.js:38 | a defined name is one of the twelve note names, and every non-negative index has one |
| `Notes.SemitonePosition` | app.js:37 | the continuous index `12 log2(f / A4) + 69`; stated by `ReferencePitchIsA4`, `DoublingRaisesOctave` and `CentsWithinHalfSemitone` |
| `Notes.RefFrequency` | app.js:40 | the equal-temperament frequency `A4 * 2^((n - 69) / 12)`; positive by `FreqToNote` |
| `Notes.FreqToNote` | app.js:36-43 | the reference frequency is positive, so the cents are defined |
| `Notes.NameOfNonNegativeIndex` | app.js:38-39 | for n >= 0 the name is `NOTE_NAMES[n mod 12]` and n = 12(oct+1) + n mod 12 |
| `Notes.NameOfNegativeIndex` | app.js:38 | for n < 0 the name is defined exactly when n is a multiple of 12, and is then "C" |
| `Notes.OctaveShift` | app.js:38-39 | for n >= 0, raising n by 12 keeps the name and raises the octave by 1 |
| `Notes.RoundShift` | app.js:37 | rounding commutes with a shift by 12 |
| `Notes.ReferencePitchIsA4` | app.js:36-42 | with log2(1) = 0 and 2^0 = 1, f = A4 maps to index 69, "A", octave 4, reference A4 and 0 cents |
| `Notes.DoublingRaisesOctave` | app.js:36-42 | doubling f (under the octave laws of log2 and exp2) raises the index by 12 and the octave by 1, keeps a non-negative index's name, doubles the reference and keeps the cents |
| `Notes.CentsWithinHalfSemitone` | app.js:37-41 | when log2 turns quotients into differences, the cents lie in [-50, 50) |
| `Needle.Clamp` | app.js:46 | the clamped value lies in [-50, 50]: it equals the input inside the range and the nearer end outside it |
| `Needle.Position` | app.js:47 | the needle position lies in [0, 100] |
| `Needle.PositionProperties` | app.js:46-47 | the position is the clamped value plus 50; it is monotone, 50 at 0 cents and symmetric about the centre |
| `Needle.Classify` | app.js:50-56 | the band of the cents display; stated by `ClassifyBands`, `ClassifyMonotone` and `PinnedNeedleWarns` |
| `Needle.ClassifyBands` | app.js:50-56 | "good" exactly when abs(c) <= 5, "warn" exactly when abs(c) > 20, neither otherwise; 5 is good and 20 is neither |
| `Needle.ClassifyMonotone` | app.js:50-56 | the band depends only on abs(c), and a larger deviation never gets a better band |
| `Needle.PinnedNeedleWarns` | app.js:46-52 | beyond ±50 cents the needle is pinned at an end and the band is "warn": the band uses the unclamped value |
| `Presets.StringsFor` | app.js:61-63 | the bass table for "bass", the guitar table for "guitar", none otherwise; stated by `ModeSelection` and `PresetsDescend` |
| `Presets.ModeSelection` | app.js:61-70 | the chromatic legend shows exactly when the mode is neither "bass" nor "guitar"; bass has 4 strings, guitar 6 |
| `Presets.PresetsDescend` | app.js:7-13 | every table the choice can return lists positive frequencies from highest to lowest |
| `Driver.Cycle` | app.js:154-164 | what one pass of `update` shows for the estimator's result; stated by `CycleOutcomes`, `DetectedNeedleTracksCents` and `QuietFrameShowsNoSignal` |
| `Driver.CycleOutcomes` | app.js:154-164 | a note is shown exactly for a positive finite frequency; -1, other non-positive values and NaN show no signal, with the needle at 50 and the "good" class; a shown note's needle lies in [0, 100] |
| `Driver.DetectedNeedleTracksCents` | app.js:155-160 | when the cents lie within half a semitone, a detected note places the needle unclamped at cents + 50, with the band of the cents |
| `Driver.QuietFrameShowsNoSignal` | app.js:154-163 | a quiet frame makes the pass show no signal |
| `Driver.AlternatesExtend` | app.js:169-201 | opening only while not held and releasing only while held keeps the history alternating, and updates whether the microphone is held |
| `Driver.AcquireReleaseBalance` | app.js:169-201 | in an alternating history the microphone was opened as many times as released, plus one while it is held |
| `Driver.Tuner.constructor` | app.js:17-20 | initially not running, no frame handle, A4 = 440 Hz, no calls made |
| `Driver.Tuner.Start` | app.js:169-190 | does nothing when running; on success opens the microphone, sets running and requests a frame; on failure only alerts and stays idle |
| `Driver.Tuner.Stop` | app.js:192-201 | does nothing when idle; otherwise cancels the pending frame, releases the microphone and clears running, leaving the stale handle |
| `Driver.Tuner.Update` | app.js:152-166 | shows `Cycle` of the estimate for the frame read, using the A4 value at the start of the pass, and requests the next frame |
| `Driver.Tuner.SetA4` | app.js:206-209 | sets the reference pitch to the (positive) slider value and nothing else |

## Left out

- Float32 storage of the clipped copy, and floating-point rounding in general. Samples and sums are exact reals.
- `Math.sqrt` in the silence gate. It is replaced by the equivalent test `sumSq / SIZE < 0.008²` on the non-negative mean square.
- `Math.log2` and `Math.pow` in `freqToNote`. They are the parameters `log2` and `exp2`. The lemmas assume only the laws they state at the points they use.
- PitchDetection.Corr: at lags of at least the frame length the source gets NaN (lag = SIZE) or -0. The model uses 0. Neither value can pass the scan's `> 0.95`, `> lastCorr` or `> bestCorr` tests, because `bestCorr` never drops below 0. The one place NaN escapes, refinement at the frame length, is modelled as `NaN`.
- Driver.Cycle: for a `+Infinity` frequency the page shows an undefined name and NaN cents. The model only says `Unbounded`.
- Driver.Tuner.SetA4 and Driver.Cycle require a positive reference pitch, and `Tuner.Valid` keeps `a4 > 0`. The source relies on the slider's range for this; a non-positive A4 would make the log undefined.
- DOM writes (text, CSS classes, the needle's `style.left`, button enabling, the string buttons and legend of `renderStrings`), `cents.toFixed(0)` and `freq.toFixed(2)` formatting. These are page output.
- `playTone` and the Web Audio setup in `start` (AudioContext, `getUserMedia` constraints, analyser size and smoothing). These are browser calls; the model keeps only whether acquisition succeeds.
- The display of the first `update` pass inside `start`. `Start` records only its frame request; the display of every pass is `Cycle`.
- The `async` concurrency of `start`: while `getUserMedia` is pending, `isRunning` is still false, so a second click can start a second acquisition. The model treats each start as atomic.
- The `requestAnimationFrame` cadence. One pass is `Update`, and the frame handle is an input.
- `Number(e.target.value)` parsing in the A4 handler. The model takes the parsed value.
- sw.js (the service worker's asset caching). It is asynchronous Cache API and `fetch` plumbing with no tuner logic.
