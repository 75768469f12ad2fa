/** The per-oscillator parameter records the controls edit. */
module Oscillators {

  datatype Waveform = Sine | Triangle | Square | Sawtooth

  /** One entry of `oscillatorData`. `frequency` is what the oscillator plays;
      `baseFreq` and `cents` are the tuning it was derived from. */
  datatype OscParams = OscParams(
    frequency: real,
    amplitude: real,
    waveform: Waveform,
    cents: int,
    baseFreq: real,
    centsStep: int)

  const OscillatorCount: nat := 4

  const DefaultCentsStep: int := 10

  /** The start-up values of the four oscillators: no cents offset, the
      played frequency equal to the base, and the default step. */
  function InitialData(): (d: seq<OscParams>)
    ensures |d| == OscillatorCount
    ensures forall j :: 0 <= j < |d| ==>
      d[j].cents == 0 && d[j].frequency == d[j].baseFreq && d[j].centsStep == DefaultCentsStep
    ensures d[0].baseFreq == 440.0 && d[1].baseFreq == 554.0 && d[2].baseFreq == 659.0 && d[3].baseFreq == 880.0
    ensures d[0].amplitude == 0.3 && d[1].amplitude == 0.2 && d[2].amplitude == 0.15 && d[3].amplitude == 0.1
    ensures d[0].waveform == Sine && d[1].waveform == Triangle && d[2].waveform == Square && d[3].waveform == Sawtooth
  {
    [
      OscParams(440.0, 0.3, Sine, 0, 440.0, DefaultCentsStep),
      OscParams(554.0, 0.2, Triangle, 0, 554.0, DefaultCentsStep),
      OscParams(659.0, 0.15, Square, 0, 659.0, DefaultCentsStep),
      OscParams(880.0, 0.1, Sawtooth, 0, 880.0, DefaultCentsStep)
    ]
  }

  /** The range the cents-step entry accepts. */
  predicate StepInRange(step: int) {
    1 <= step <= 100
  }

  /** The played frequency is the base frequency moved by the cents offset;
      `ratio` stands for c => 2^(c / 1200). */
  predicate Tuned(o: OscParams, ratio: int -> real) {
    o.frequency == o.baseFreq * ratio(o.cents)
  }

  /** What a ratio honouring the cents scale satisfies: zero cents is unison
      and 1200 cents is an octave. */
  ghost predicate OctaveRatio(ratio: int -> real) {
    ratio(0) == 1.0 && forall c :: ratio(c + 1200) == 2.0 * ratio(c)
  }

  /** The start-up records are tuned for every ratio with ratio(0) == 1, and
      their cents steps are in range. */
  lemma InitialDataTuned(ratio: int -> real)
    requires ratio(0) == 1.0
    ensures |InitialData()| == OscillatorCount
    ensures forall j :: 0 <= j < |InitialData()| ==>
      Tuned(InitialData()[j], ratio) && StepInRange(InitialData()[j].centsStep)
  {
  }

  /** The record after a direct frequency edit: the edit becomes the new base
      and the cents offset is cleared. */
  function Retuned(o: OscParams, hz: real): (r: OscParams)
    ensures r.frequency == hz && r.baseFreq == hz && r.cents == 0
    ensures r.amplitude == o.amplitude && r.waveform == o.waveform && r.centsStep == o.centsStep
  {
    o.(baseFreq := hz, frequency := hz, cents := 0)
  }

  /** The record after a cents button moved the offset by delta. */
  function Detuned(o: OscParams, delta: int, ratio: int -> real): (r: OscParams)
    ensures r.cents == o.cents + delta && r.frequency == o.baseFreq * ratio(r.cents)
    ensures r.baseFreq == o.baseFreq && r.amplitude == o.amplitude
    ensures r.waveform == o.waveform && r.centsStep == o.centsStep
  {
    o.(cents := o.cents + delta, frequency := o.baseFreq * ratio(o.cents + delta))
  }

  /** A retuned record is in tune, whatever its history. */
  lemma RetunedIsTuned(o: OscParams, hz: real, ratio: int -> real)
    requires ratio(0) == 1.0
    ensures Tuned(Retuned(o, hz), ratio)
  {
  }

  /** Pressing minus then plus restores the record, and the second press
      leaves a record that is in tune. */
  lemma DetuneUndone(o: OscParams, ratio: int -> real)
    requires Tuned(o, ratio)
    ensures Detuned(Detuned(o, -o.centsStep, ratio), o.centsStep, ratio) == o
    ensures Tuned(Detuned(o, o.centsStep, ratio), ratio)
  {
  }

  /** With a true cents ratio, moving the first oscillator's 440 Hz by 1200
      cents gives 880 Hz, and by -1200 cents 220 Hz. */
  lemma OctaveExamples(ratio: int -> real)
    requires OctaveRatio(ratio)
    ensures Detuned(InitialData()[0], 1200, ratio).frequency == 880.0
    ensures Detuned(InitialData()[0], -1200, ratio).frequency == 220.0
  {
    assert ratio(0 + 1200) == 2.0 * ratio(0);
    assert ratio(-1200 + 1200) == 2.0 * ratio(-1200);
  }
}
