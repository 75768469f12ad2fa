/** The sketch's mutable state and the callbacks that change it: the four
    oscillator records and their control handlers, the spectrum history that
    each playing frame slides, and the start/stop transport. The calls made on
    the external oscillators are recorded in the ghost `log`. */
module Synth {
  import opened Wrappers
  import opened Oscillators
  import opened History
  import opened EngineLog
  import opened Labels

  /** What the handlers last wrote into one oscillator's widgets: the
      frequency slider, the frequency number input, the cents display and the
      amplitude readout. */
  datatype Panel = Panel(slider: real, input: real, centsLabel: string, ampReadout: real)

  /** The frequency slider is only moved to values it can show. */
  const SliderMax: real := 2000.0

  const MinTypedFrequency: real := 20.0
  const MaxTypedFrequency: real := 20000.0

  /** A typed frequency is taken when it is a number in [20, 20000]. */
  predicate FrequencyAccepted(parsed: Option<real>) {
    parsed.Some? && MinTypedFrequency <= parsed.value <= MaxTypedFrequency
  }

  /** A cents step is taken when it parses to an integer in [1, 100]. */
  predicate CentsStepAccepted(parsed: Option<int>) {
    parsed.Some? && StepInRange(parsed.value)
  }

  /** Both ends of the typed-frequency range are accepted; just outside them,
      and NaN, are not. */
  lemma FrequencyBounds()
    ensures FrequencyAccepted(Some(20.0)) && FrequencyAccepted(Some(20000.0))
    ensures !FrequencyAccepted(Some(19.9)) && !FrequencyAccepted(Some(20000.1)) && !FrequencyAccepted(None)
  {
  }

  /** Both ends of the cents-step range are accepted; 0, 101 and NaN are not. */
  lemma CentsStepBounds()
    ensures CentsStepAccepted(Some(1)) && CentsStepAccepted(Some(100))
    ensures !CentsStepAccepted(Some(0)) && !CentsStepAccepted(Some(101)) && !CentsStepAccepted(None)
  {
  }

  class Controller {
    /** Stands for c => Math.pow(2, c / 1200). */
    const ratio: int -> real
    /** The bound of the history reset loops. */
    const maxHistoryLength: real

    var oscData: seq<OscParams>
    var panel: seq<Panel>
    var history: seq<Snapshot>
    var isPlaying: bool
    ghost var log: seq<Event>

    /** Everything the handlers keep, except that each record is in tune. */
    ghost predicate Consistent()
      reads this
    {
      ratio(0) == 1.0 && maxHistoryLength > 0.0 &&
      |oscData| == OscillatorCount && |panel| == OscillatorCount &&
      (forall j :: 0 <= j < |oscData| ==> StepInRange(oscData[j].centsStep)) &&
      |history| == HistoryDepth(maxHistoryLength) &&
      WellBracketed(log) &&
      (forall j: nat :: j < OscillatorCount ==> Running(log, j) == isPlaying)
    }

    ghost predicate Valid()
      reads this
    {
      Consistent() && forall j :: 0 <= j < |oscData| ==> Tuned(oscData[j], ratio)
    }

    /** `setup`: the default records, each oscillator told its type and
        frequency and silenced, and a silent history. */
    constructor (ratio: int -> real, maxHistoryLength: real, widgets: seq<Panel>)
      requires ratio(0) == 1.0 && maxHistoryLength > 0.0 && |widgets| == OscillatorCount
      ensures Valid()
      ensures this.ratio == ratio && this.maxHistoryLength == maxHistoryLength
      ensures oscData == InitialData() && panel == widgets && !isPlaying
      ensures history == Silence(HistoryDepth(maxHistoryLength))
      ensures log == SetupEvents(InitialData(), OscillatorCount)
    {
      this.ratio := ratio;
      this.maxHistoryLength := maxHistoryLength;
      oscData := InitialData();
      panel := widgets;
      isPlaying := false;
      history := [];
      log := [];
      new;
      var i := 0;
      while i < OscillatorCount
        invariant 0 <= i <= OscillatorCount
        invariant oscData == InitialData() && panel == widgets && !isPlaying && history == []
        invariant log == SetupEvents(InitialData(), i)
      {
        var o := oscData[i];
        log := log + [SetType(i, o.waveform), SetFreq(i, o.frequency), SetAmp(i, 0.0, 0.0)];
        i := i + 1;
      }
      QuietAppend([], log);
      assert [] + log == log;
      ResetHistory();
      InitialDataTuned(ratio);
    }

    /** The reset loop of `setup` and `stopOscillators`. */
    method ResetHistory()
      modifies this`history
      ensures history == Silence(HistoryDepth(maxHistoryLength))
    {
      history := [];
      var i: nat := 0;
      while (i as real) < maxHistoryLength
        invariant i <= HistoryDepth(maxHistoryLength)
        invariant history == Silence(i)
        decreases HistoryDepth(maxHistoryLength) - i
      {
        history := history + [ZeroSnapshot()];
        i := i + 1;
      }
    }

    /** The history update of `draw`: while playing, shift out the oldest
        snapshot and push the new spectrum. */
    method Frame(spectrum: Snapshot)
      requires Valid()
      modifies this`history
      ensures Valid()
      ensures history == if isPlaying then Slide(old(history), spectrum) else old(history)
    {
      if isPlaying {
        history := history[1..];
        history := history + [spectrum];
      }
    }

    /** The slider handler: no range check. */
    method OnFrequencySlider(i: nat, hz: real)
      requires Valid() && i < OscillatorCount
      modifies this`oscData, this`panel, this`log
      ensures Valid()
      ensures oscData == old(oscData)[i := Retuned(old(oscData)[i], hz)]
      ensures panel == old(panel)[i := old(panel)[i].(input := hz, centsLabel := ZeroCentsLabel)]
      ensures log == old(log) + if isPlaying then [SetFreq(i, hz)] else []
    {
      oscData := oscData[i := Retuned(oscData[i], hz)];
      panel := panel[i := panel[i].(input := hz, centsLabel := ZeroCentsLabel)];
      if isPlaying {
        Tell(SetFreq(i, hz));
      }
    }

    /** The number-input handler: anything outside [20, 20000], and NaN, is
        ignored; the slider follows only up to its maximum. */
    method OnFrequencyInput(i: nat, parsed: Option<real>)
      requires Valid() && i < OscillatorCount
      modifies this`oscData, this`panel, this`log
      ensures Valid()
      ensures !FrequencyAccepted(parsed) ==>
        oscData == old(oscData) && panel == old(panel) && log == old(log)
      ensures FrequencyAccepted(parsed) ==>
        var hz := parsed.value;
        oscData == old(oscData)[i := Retuned(old(oscData)[i], hz)] &&
        panel == old(panel)[i := old(panel)[i].(
          slider := if hz <= SliderMax then hz else old(panel)[i].slider,
          centsLabel := ZeroCentsLabel)] &&
        log == old(log) + if isPlaying then [SetFreq(i, hz)] else []
    {
      if FrequencyAccepted(parsed) {
        var hz := parsed.value;
        oscData := oscData[i := Retuned(oscData[i], hz)];
        if hz <= SliderMax {
          panel := panel[i := panel[i].(slider := hz)];
        }
        panel := panel[i := panel[i].(centsLabel := ZeroCentsLabel)];
        if isPlaying {
          Tell(SetFreq(i, hz));
        }
      }
    }

    /** The cents-step handler. */
    method OnCentsStep(i: nat, parsed: Option<int>)
      requires Valid() && i < OscillatorCount
      modifies this`oscData
      ensures Valid()
      ensures oscData == if CentsStepAccepted(parsed)
        then old(oscData)[i := old(oscData)[i].(centsStep := parsed.value)]
        else old(oscData)
    {
      if CentsStepAccepted(parsed) {
        oscData := oscData[i := oscData[i].(centsStep := parsed.value)];
      }
    }

    /** The cents-minus button. */
    method OnCentsMinus(i: nat)
      requires Valid() && i < OscillatorCount
      modifies this`oscData, this`panel, this`log
      ensures Valid()
      ensures oscData == old(oscData)[i := Detuned(old(oscData)[i], -old(oscData)[i].centsStep, ratio)]
      ensures CentsRecomputed(i, old(panel), old(log))
    {
      ghost var o := oscData[i];
      oscData := oscData[i := oscData[i].(cents := oscData[i].cents - oscData[i].centsStep)];
      UpdateFrequencyFromCents(i);
      assert oscData[i] == Detuned(o, -o.centsStep, ratio);
    }

    /** The cents-plus button. */
    method OnCentsPlus(i: nat)
      requires Valid() && i < OscillatorCount
      modifies this`oscData, this`panel, this`log
      ensures Valid()
      ensures oscData == old(oscData)[i := Detuned(old(oscData)[i], old(oscData)[i].centsStep, ratio)]
      ensures CentsRecomputed(i, old(panel), old(log))
    {
      ghost var o := oscData[i];
      oscData := oscData[i := oscData[i].(cents := oscData[i].cents + oscData[i].centsStep)];
      UpdateFrequencyFromCents(i);
      assert oscData[i] == Detuned(o, o.centsStep, ratio);
    }

    /** The widgets and calls after the frequency of oscillator i was
        recomputed from its cents: the input shows the new frequency, the
        slider follows up to its maximum, the cents display shows the signed
        offset, and a playing oscillator is retuned. */
    ghost predicate CentsRecomputed(i: nat, panel0: seq<Panel>, log0: seq<Event>)
      requires i < |oscData| && i < |panel0|
      reads this
    {
      var hz := oscData[i].frequency;
      panel == panel0[i := panel0[i].(
        input := hz,
        slider := if hz <= SliderMax then hz else panel0[i].slider,
        centsLabel := CentsDisplay(oscData[i].cents))] &&
      log == log0 + if isPlaying then [SetFreq(i, hz)] else []
    }

    /** `updateFrequencyFromCents`: brings oscillator i back in tune. */
    method UpdateFrequencyFromCents(i: nat)
      requires Consistent() && i < OscillatorCount
      requires forall j :: 0 <= j < |oscData| && j != i ==> Tuned(oscData[j], ratio)
      modifies this`oscData, this`panel, this`log
      ensures Valid()
      ensures oscData == old(oscData)[i := old(oscData)[i].(
        frequency := old(oscData)[i].baseFreq * ratio(old(oscData)[i].cents))]
      ensures CentsRecomputed(i, old(panel), old(log))
    {
      var hz := oscData[i].baseFreq * ratio(oscData[i].cents);
      oscData := oscData[i := oscData[i].(frequency := hz)];
      panel := panel[i := panel[i].(input := hz)];
      if hz <= SliderMax {
        panel := panel[i := panel[i].(slider := hz)];
      }
      panel := panel[i := panel[i].(centsLabel := CentsDisplay(oscData[i].cents))];
      if isPlaying {
        Tell(SetFreq(i, hz));
      }
    }

    /** The amplitude slider: a playing oscillator ramps to the new level. */
    method OnAmplitude(i: nat, level: real)
      requires Valid() && i < OscillatorCount
      modifies this`oscData, this`panel, this`log
      ensures Valid()
      ensures oscData == old(oscData)[i := old(oscData)[i].(amplitude := level)]
      ensures panel == old(panel)[i := old(panel)[i].(ampReadout := level)]
      ensures log == old(log) + if isPlaying then [SetAmp(i, level, AmpRamp)] else []
    {
      oscData := oscData[i := oscData[i].(amplitude := level)];
      panel := panel[i := panel[i].(ampReadout := level)];
      if isPlaying {
        Tell(SetAmp(i, level, AmpRamp));
      }
    }

    /** The waveform selector: a playing oscillator switches at once. */
    method OnWaveform(i: nat, kind: Waveform)
      requires Valid() && i < OscillatorCount
      modifies this`oscData, this`log
      ensures Valid()
      ensures oscData == old(oscData)[i := old(oscData)[i].(waveform := kind)]
      ensures log == old(log) + if isPlaying then [SetType(i, kind)] else []
    {
      oscData := oscData[i := oscData[i].(waveform := kind)];
      if isPlaying {
        Tell(SetType(i, kind));
      }
    }

    /** Records a call that neither starts nor stops an oscillator. */
    method Tell(e: Event)
      requires Consistent() && !e.Start? && !e.Stop?
      modifies this`log
      ensures Consistent() && log == old(log) + [e]
    {
      QuietAppend(log, [e]);
      log := log + [e];
    }

    /** `startOscillators`. `resumed` says whether the audio context's
        activation resolved; only then does the continuation run. */
    method StartOscillators(resumed: bool)
      requires Valid()
      modifies this`isPlaying, this`log
      ensures Valid()
      ensures old(isPlaying) || !resumed ==> isPlaying == old(isPlaying) && log == old(log)
      ensures !old(isPlaying) && resumed ==>
        isPlaying && log == old(log) + StartEvents(oscData, OscillatorCount)
    {
      if !isPlaying && resumed {
        var i := 0;
        while i < OscillatorCount
          invariant 0 <= i <= OscillatorCount
          invariant log == old(log) + StartEvents(oscData, i)
        {
          log := log + [Start(i), SetAmp(i, oscData[i].amplitude, AmpRamp)];
          i := i + 1;
        }
        BracketedAfterStart(old(log), oscData, OscillatorCount);
        forall j: nat | j < OscillatorCount
          ensures Running(log, j)
        {
          RunningAfterStart(old(log), oscData, OscillatorCount, j);
        }
        isPlaying := true;
      }
    }

    /** `stopOscillators`: nothing happens when already stopped. */
    method StopOscillators()
      requires Valid()
      modifies this`isPlaying, this`log, this`history
      ensures Valid()
      ensures !old(isPlaying) ==> !isPlaying && log == old(log) && history == old(history)
      ensures old(isPlaying) ==>
        !isPlaying && log == old(log) + StopEvents(OscillatorCount) &&
        history == Silence(HistoryDepth(maxHistoryLength))
    {
      if isPlaying {
        var i := 0;
        while i < OscillatorCount
          invariant 0 <= i <= OscillatorCount
          invariant log == old(log) + StopEvents(i)
        {
          log := log + [Stop(i)];
          i := i + 1;
        }
        BracketedAfterStop(old(log), OscillatorCount);
        forall j: nat | j < OscillatorCount
          ensures !Running(log, j)
        {
          RunningAfterStop(old(log), OscillatorCount, j);
        }
        isPlaying := false;
        ResetHistory();
      }
    }

    /** `keyPressed`: space toggles the transport and is consumed (the handler
        returns false to suppress the page's default); other keys do nothing. */
    method KeyPressed(key: string, resumed: bool) returns (consumed: bool)
      requires Valid()
      modifies this`isPlaying, this`log, this`history
      ensures Valid()
      ensures consumed == (key == " ")
      ensures key != " " ==> isPlaying == old(isPlaying) && log == old(log) && history == old(history)
      ensures key == " " && old(isPlaying) ==>
        !isPlaying && log == old(log) + StopEvents(OscillatorCount) &&
        history == Silence(HistoryDepth(maxHistoryLength))
      ensures key == " " && !old(isPlaying) ==>
        isPlaying == resumed && history == old(history) &&
        log == old(log) + if resumed then StartEvents(oscData, OscillatorCount) else []
    {
      consumed := false;
      if key == " " {
        if isPlaying {
          StopOscillators();
        } else {
          StartOscillators(resumed);
        }
        consumed := true;
      }
    }
  }

  /** Start pressed twice from Stopped, the second press coming after the
      first start has resolved: each oscillator is started and ramped exactly
      once. */
  method DoubleStart(c: Controller)
    requires c.Valid() && !c.isPlaying
    modifies c`isPlaying, c`log
    ensures c.Valid() && c.isPlaying
    ensures c.log == old(c.log) + StartEvents(c.oscData, OscillatorCount)
    ensures forall j: nat :: j < OscillatorCount ==>
      Count(c.log[|old(c.log)|..], Start(j)) == 1 &&
      Count(c.log[|old(c.log)|..], SetAmp(j, c.oscData[j].amplitude, AmpRamp)) == 1
  {
    c.StartOscillators(true);
    c.StartOscillators(true);
    assert c.log[|old(c.log)|..] == StartEvents(c.oscData, OscillatorCount);
    forall j: nat | j < OscillatorCount
      ensures Count(c.log[|old(c.log)|..], Start(j)) == 1
      ensures Count(c.log[|old(c.log)|..], SetAmp(j, c.oscData[j].amplitude, AmpRamp)) == 1
    {
      StartEventsStartOnce(c.oscData, OscillatorCount, j);
      StartEventsRampOnce(c.oscData, OscillatorCount, j, c.oscData[j].amplitude, AmpRamp);
    }
  }

  /** A frequency and a waveform chosen while stopped reach the record but
      are never sent to the oscillator, not even by the next start: the log
      gains no frequency or type call for them. */
  method EditWhileStopped(c: Controller, i: nat, hz: real, kind: Waveform)
    requires c.Valid() && !c.isPlaying && i < OscillatorCount
    modifies c`oscData, c`panel, c`isPlaying, c`log
    ensures c.Valid() && c.isPlaying
    ensures c.oscData[i].frequency == hz && c.oscData[i].waveform == kind
    ensures c.log == old(c.log) + StartEvents(c.oscData, OscillatorCount)
    ensures Count(c.log, SetFreq(i, hz)) == Count(old(c.log), SetFreq(i, hz))
    ensures Count(c.log, SetType(i, kind)) == Count(old(c.log), SetType(i, kind))
  {
    c.OnFrequencySlider(i, hz);
    c.OnWaveform(i, kind);
    c.StartOscillators(true);
    CountAppend(old(c.log), StartEvents(c.oscData, OscillatorCount), SetFreq(i, hz));
    CountAppend(old(c.log), StartEvents(c.oscData, OscillatorCount), SetType(i, kind));
    StartEventsSendNoTuning(c.oscData, OscillatorCount, i, hz, kind);
  }
}
