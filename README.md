# Four-oscillator synthesizer: state model

A Dafny model of the state behind a p5.js sketch that plays four oscillators
and draws their mix as a waveform, a spectrograph and a spectrum. The sketch
is mostly drawing and audio-library calls; underneath sits a small sequential
state model, which is what is modelled and proved here:

- **Oscillator records and their control handlers** (`Oscillators`, `Synth`):
  four records `{frequency, amplitude, waveform, cents, baseFreq, centsStep}`
  and the handlers of the frequency slider, the typed frequency, the cents
  step, the cents buttons, the amplitude slider and the waveform selector,
  as methods of the `Synth.Controller` class. Parsed control text arrives as
  `Option` (`None` is the NaN of `parseInt`/`parseFloat`). The invariant
  `Valid()` says every cents step stays in [1, 100] and every record stays
  *in tune*: `frequency == baseFreq * ratio(cents)`, where `ratio` stands for
  `c => 2^(c/1200)` and is only assumed to satisfy `ratio(0) == 1`.
- **Spectrum history** (`History`): the sliding window of snapshots that each
  playing frame shifts and pushes, refilled with 1024-wide silent snapshots
  at start-up and on stop. The reset loop `for (i = 0; i < maxHistoryLength;
  i++)` runs `HistoryDepth(maxHistoryLength)` (the ceiling) times; the
  sketch's bound 0.18575963718 gives a history of exactly one snapshot.
- **Transport** (`EngineLog`, `Synth`): `isPlaying` with the guarded start and
  stop and the space-bar toggle. Calls on the external oscillators are
  recorded in a ghost event log; the invariant says that every oscillator is
  running exactly when `isPlaying` holds and that the log never starts a
  running oscillator or stops a stopped one.
- **Spectrograph colours and cents labels** (`Spectrograph`, `Labels`,
  `Decimal`): the piecewise-linear map from magnitude to RGBA over `real`, the
  number of bins drawn per column, and the cents texts of the status line and
  the cents display.

Three details of the code that are easy to misread, and that the model follows as written:

- At intensity 0.3 the code yields blue (0, 0, 255), not cyan (0, 255, 255).
  Cyan is reached at 0.6.
- The fractional history bound is not truncated to 0. The `i < bound` loop
  runs once, so the capacity is the ceiling, 1.
- A start does not push the configured frequency or waveform. The start
  sequence sends only `start()` and `amp(level, 0.1)`, and frequency and
  waveform edits reach an oscillator only while playing. So an edit made
  while stopped stays in the record and is never sent, even after the next
  start (`EngineLog.StartEventsSendNoTuning`, `Synth.EditWhileStopped`).

## Model

| member | source | states |
|---|---|---|
| Decimal.NatToDecimal | sketch.js:202 | the text of a natural is a non-empty string of digits, without a leading zero unless it is "0" |
| Decimal.NatToDecimalRoundTrip | sketch.js:202 | reading the digits back gives the number |
| Decimal.IntToDecimal | sketch.js:202 | an integer's text starts with '-' exactly when it is negative; the rest is digits |
| Decimal.IntToDecimalRoundTrip | sketch.js:202 | the text of every integer reads back as that integer |
| Decimal.IntToDecimalInjective | sketch.js:202 | different integers print differently |
| Labels.CentsDisplay | sketch.js:230-233 | the cents display ends in "¢" and starts with '+' exactly for offsets >= 0 (so "+0¢" for zero) and with '-' exactly for negative ones |
| Labels.CentsSuffix | sketch.js:202 | the status-line suffix is empty exactly when the offset is 0; otherwise it is a space followed by the signed cents display |
| Labels.CentsDisplayInjective | sketch.js:231-232 | the cents display determines the offset |
| Labels.CentsSuffixInjective | sketch.js:202 | the status-line suffix determines the offset |
| Labels.ZeroOffsetLabels | sketch.js:231-232 | a zero offset reached with the buttons reads "+0¢", not the "±0¢" a direct edit writes; its status suffix is empty |
| Spectrograph.Intensity | sketch.js:120 | the intensity times 255 is the magnitude; it lies in [0, 1] exactly when the magnitude lies in [0, 255] |
| Spectrograph.SpectroColour | sketch.js:123-146 | for an intensity in [0, 1], r, g and b lie in [0, 255] and alpha in [55, 255] |
| Spectrograph.ColourEndpoints | sketch.js:124-146 | intensity 0 is (0, 0, 0) with alpha 55; intensity 1 is (255, 0, 0) with alpha 255 |
| Spectrograph.ColourAtBreakpoints | sketch.js:124-146 | the breakpoints 0.3, 0.6 and 0.8 are blue, cyan and yellow |
| Spectrograph.ColourLipschitz | sketch.js:124-146 | every channel changes by at most 1275 times the change in intensity (alpha by 200), so the gradient has no jump at any breakpoint |
| Spectrograph.VisibleBins | sketch.js:116 | the number of drawn bins is the floor of 0.3 times the snapshot width, never more than the width |
| Spectrograph.VisibleBinsOfSnapshot | sketch.js:116 | a 1024-bin snapshot draws 307 bins |
| Spectrograph.ColumnColours | sketch.js:116-146 | a column has one colour per drawn bin, bin j painted with the colour of its own intensity |
| Spectrograph.ColumnInRange | sketch.js:118-146 | a column of magnitudes in [0, 255] is painted only with valid channels and alpha in [55, 255] |
| History.HistoryDepth | sketch.js:49-51 | the reset loop runs the ceiling of a positive bound, at least once, and never for a bound <= 0 |
| History.SourceHistoryDepth | sketch.js:7 | the sketch's bound gives a history of exactly one snapshot |
| History.ZeroSnapshot | sketch.js:50 | a silent snapshot has 1024 bins, all zero |
| History.Silence | sketch.js:359-362 | a reset history has the requested number of snapshots, each 1024 wide and all zero |
| History.Slide | sketch.js:66-67 | a frame keeps a non-empty history's length, drops the oldest snapshot, keeps the others in order one place down and puts the new spectrum last |
| History.SlideAll | sketch.js:66-67 | a run of frames keeps a non-empty history's length and leaves the last spectrum newest |
| History.SlidingWindow | sketch.js:66-67 | after any run of frames the history is the tail of everything seen, of the original length |
| History.LastSpectra | sketch.js:66-67 | the length never changes, and after at least N frames the history holds exactly the last N spectra, oldest first |
| Oscillators.InitialData | sketch.js:10-15 | four start-up records, each with no cents offset, frequency equal to base, step 10; base frequencies 440, 554, 659, 880 Hz with sine, triangle, square and sawtooth, and amplitudes 0.3, 0.2, 0.15, 0.1 |
| Oscillators.InitialDataTuned | sketch.js:10-15 | the four start-up records are in tune and have cents steps in range |
| Oscillators.OctaveExamples | sketch.js:224 | with a true cents ratio, the cents recompute of the first oscillator (440 Hz) at +1200 cents plays 880 Hz and at -1200 cents 220 Hz |
| EngineLog.RunningSnoc | sketch.js:341 | a start makes an oscillator running, a stop makes it stopped, and other calls change nothing |
| EngineLog.QuietAppend | sketch.js:236-238 | frequency, amplitude and type calls change nobody's running state and keep the log bracketed |
| EngineLog.SetupEvents | sketch.js:35-42 | setup makes three calls per oscillator, none of which starts or stops it |
| EngineLog.StartEvents | sketch.js:340-343 | the start sequence for n oscillators has two calls per oscillator |
| EngineLog.StopEvents | sketch.js:353-355 | the stop sequence for n oscillators has one call per oscillator |
| EngineLog.StopEventsLayout | sketch.js:353-355 | the stop sequence is stop(0), ..., stop(n-1), in index order |
| EngineLog.StartEventsLayout | sketch.js:340-343 | the start sequence calls start(i) and then amp(amplitude of i, 0.1) for each oscillator in order |
| EngineLog.CountAppend | sketch.js:340-343 | the number of occurrences of a call in two logs put together is the sum of the two counts |
| EngineLog.StartEventsSendNoTuning | sketch.js:340-343 | the start sequence sends no frequency and no waveform call to any oscillator |
| EngineLog.StartEventsStartOnce | sketch.js:340-343 | the start sequence starts each oscillator exactly once and nobody else |
| EngineLog.StartEventsRampOnce | sketch.js:340-343 | the start sequence sets each oscillator's amplitude exactly once, to its configured level with a 0.1 s ramp, and no other amplitude |
| EngineLog.StopEventsOnce | sketch.js:353-355 | the stop sequence stops each oscillator exactly once |
| EngineLog.RunningAfterStart | sketch.js:340-344 | after the start sequence every oscillator runs |
| EngineLog.BracketedAfterStart | sketch.js:336-344 | starting only stopped oscillators keeps the log bracketed |
| EngineLog.RunningAfterStop | sketch.js:353-356 | after the stop sequence no oscillator runs |
| EngineLog.BracketedAfterStop | sketch.js:351-356 | stopping only running oscillators keeps the log bracketed |
| Oscillators.Retuned | sketch.js:255-257 | a direct edit makes the value both base and played frequency, clears the cents and keeps amplitude, waveform and step |
| Oscillators.Detuned | sketch.js:220-225 | a cents press moves the offset by exactly the step given, plays base times ratio(new offset) and keeps base, amplitude, waveform and step |
| Oscillators.RetunedIsTuned | sketch.js:255-257 | a directly edited record is in tune |
| Oscillators.DetuneUndone | sketch.js:288-301 | minus then plus restores a tuned record exactly, and a press leaves the record in tune |
| Synth.FrequencyAccepted | sketch.js:272 | a typed frequency is taken exactly when it is a number with 20 <= v <= 20000 |
| Synth.FrequencyBounds | sketch.js:272 | 20 and 20000 are accepted; 19.9, 20000.1 and NaN are rejected |
| Synth.CentsStepAccepted | sketch.js:245 | a cents step is taken exactly when it parses to an integer with 1 <= step <= 100 |
| Synth.CentsStepBounds | sketch.js:245 | 1 and 100 are accepted; 0, 101 and NaN are rejected |
| Synth.Controller.constructor | sketch.js:23-55 | start-up: the default records, stopped, a silent history of HistoryDepth snapshots, and three setup calls per oscillator; the invariant holds |
| Synth.Controller.ResetHistory | sketch.js:359-362 | the history becomes HistoryDepth(bound) silent 1024-bin snapshots; nothing else changes |
| Synth.Controller.Frame | sketch.js:60-67 | while playing the history slides by the new spectrum; while stopped it is untouched; its length stays HistoryDepth(bound) |
| Synth.Controller.OnFrequencySlider | sketch.js:253-265 | oscillator i alone is retuned to the slider value with no range check; the input shows it, the cents display reads "±0¢"; a frequency call only while playing |
| Synth.Controller.OnFrequencyInput | sketch.js:270-284 | accepted exactly for numbers in [20, 20000], both ends included; a rejected value changes nothing; an accepted one retunes oscillator i alone, moves the slider only when <= 2000, and calls frequency only while playing |
| Synth.Controller.OnCentsStep | sketch.js:243-248 | the step of oscillator i is stored exactly when the parsed integer is in [1, 100]; otherwise nothing changes; so the step stays in [1, 100] |
| Synth.Controller.OnCentsMinus | sketch.js:288-293 | oscillator i alone loses exactly one step of cents and is retuned from its unchanged base; widgets and the frequency call as for the recompute |
| Synth.Controller.OnCentsPlus | sketch.js:296-301 | oscillator i alone gains exactly one step of cents and is retuned from its unchanged base; widgets and the frequency call as for the recompute |
| Synth.Controller.UpdateFrequencyFromCents | sketch.js:220-239 | the frequency becomes base times ratio(cents), restoring the invariant; the input shows it, the slider follows only up to 2000, the cents display shows the signed offset, and a frequency call is made only while playing |
| Synth.Controller.OnAmplitude | sketch.js:307-313 | oscillator i alone takes the new amplitude, the readout shows it, and a playing oscillator ramps to it over 0.1 s |
| Synth.Controller.OnWaveform | sketch.js:319-324 | oscillator i alone takes the new waveform, and a playing oscillator switches type at once with no ramp |
| Synth.Controller.StartOscillators | sketch.js:336-348 | a no-op while playing or when activation does not resolve; otherwise every oscillator gets one start and one amp(amplitude, 0.1) call and isPlaying becomes true |
| Synth.Controller.StopOscillators | sketch.js:350-366 | a no-op (no calls, no reset) while stopped; otherwise every oscillator is stopped, isPlaying becomes false and the history is reset to silence |
| Synth.Controller.KeyPressed | sketch.js:369-378 | space stops when playing and starts otherwise and is consumed; every other key changes nothing |
| Synth.DoubleStart | sketch.js:336-348 | pressing start from stopped, then a second press after the first start has resolved, appends exactly one start sequence to the log, so every oscillator is started and ramped exactly once |
| Synth.EditWhileStopped | sketch.js:253-348 | a frequency and a waveform set while stopped are stored in the record, but neither the edits nor the next start send them: the log gains exactly the start sequence and no frequency or type call for them |

## Left out

- Drawing: the p5 calls (`background`, `stroke`, `vertex`, `rect`, `text`, `line`), the waveform, spectrum and gridline coordinates and the labels pass. They place pixels and have no contract beyond that.
- The audio library (`p5.Oscillator`, `p5.Gain`, `p5.FFT`): its calls appear only as events in a ghost log. The analyser's spectrum is a parameter of `Frame`. `fft.waveform()` feeds drawing only.
- `Math.pow(2, cents / 1200)`: a transcendental floating-point function. It is the controller's `ratio` parameter, assumed only to satisfy `ratio(0) == 1`; `OctaveExamples` shows the octave facts under a stronger hypothesis.
- `toFixed` formatting: the number input and the amplitude readout hold the unrounded value. The status line is modelled only through its cents suffix.
- Floating point: all numbers are exact `real`s, so the thresholds 0.3, 0.6, 0.8 and the floor of `n * 0.3` are exact.
- Decimal.IntToDecimal: does not model JavaScript's exponent notation for integers of magnitude at least 10^21, which cents offsets do not reach in practice.
- DOM lookup: every control element and every oscillator object is assumed present. The `if (element)` guards and the missing-element case are not modelled.
- Slider values are numbers. A range input always yields numeric text, so the NaN `parseFloat` could give is not modelled there. Typed text that is NaN or infinite is `None`, and it is rejected either way.
- The waveform selector yields one of the four waveform names. Any other option text is not modelled.
- `userStartAudio().then(...)`: the resolution is a synchronous step, chosen by the `resumed` argument. A rejection or a never-resolving promise leaves everything unchanged. The start/stop race before resolution is not modelled.
- `windowResized`, `console.log`, canvas creation, and the mixer and analyser wiring in `setup`. These are I/O or have no effect on the modelled state.
- Synth.DoubleStart: covers only a second press after the first start has resolved. A second press before `userStartAudio()` resolves finds `isPlaying` still false, registers a second continuation, and every oscillator then gets `start()` and `amp(..., 0.1)` twice; that double-start race is not modelled.
- Synth.Controller.constructor: the widgets' initial contents come from the page, which is not part of this model, so they are a constructor argument.
