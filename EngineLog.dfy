/** The calls the controller makes on the external oscillators, recorded as
    events, and what they imply: which oscillators are running, and that the
    start/stop calls are properly bracketed. */
module EngineLog {
  import opened Oscillators

  datatype Event =
    | Start(osc: nat)
    | Stop(osc: nat)
    | SetFreq(osc: nat, hz: real)
    | SetAmp(osc: nat, level: real, rampSeconds: real)
    | SetType(osc: nat, kind: Waveform)

  /** The ramp time of every amplitude change made while playing. */
  const AmpRamp: real := 0.1

  /** Whether oscillator i was last started rather than stopped. */
  function Running(log: seq<Event>, i: nat): bool
    decreases |log|
  {
    if log == [] then false
    else
      var e := log[|log| - 1];
      if e == Start(i) then true
      else if e == Stop(i) then false
      else Running(log[..|log| - 1], i)
  }

  lemma RunningSnoc(log: seq<Event>, e: Event, i: nat)
    ensures Running(log + [e], i) ==
      if e == Start(i) then true else if e == Stop(i) then false else Running(log, i)
  {
  }

  /** A start only for a stopped oscillator, a stop only for a running one. */
  predicate Admissible(prefix: seq<Event>, e: Event) {
    (e.Start? ==> !Running(prefix, e.osc)) && (e.Stop? ==> Running(prefix, e.osc))
  }

  predicate WellBracketed(log: seq<Event>) {
    forall k :: 0 <= k < |log| ==> Admissible(log[..k], log[k])
  }

  lemma WellBracketedSnoc(log: seq<Event>, e: Event)
    requires WellBracketed(log) && Admissible(log, e)
    ensures WellBracketed(log + [e])
  {
    var l := log + [e];
    forall k | 0 <= k < |l|
      ensures Admissible(l[..k], l[k])
    {
      if k < |log| {
        assert l[..k] == log[..k];
      } else {
        assert l[..k] == log;
      }
    }
  }

  /** Calls that neither start nor stop an oscillator. */
  predicate Quiet(es: seq<Event>) {
    forall k :: 0 <= k < |es| ==> !es[k].Start? && !es[k].Stop?
  }

  /** Quiet calls change nobody's running state and keep the bracketing. */
  lemma {:induction false} QuietAppend(log: seq<Event>, es: seq<Event>)
    requires Quiet(es)
    ensures forall i: nat :: Running(log + es, i) == Running(log, i)
    ensures WellBracketed(log) ==> WellBracketed(log + es)
    decreases |es|
  {
    if es != [] {
      var front, e := es[..|es| - 1], es[|es| - 1];
      assert es == front + [e];
      assert log + es == (log + front) + [e];
      QuietAppend(log, front);
      forall i: nat ensures Running(log + es, i) == Running(log, i) {
        RunningSnoc(log + front, e, i);
      }
      if WellBracketed(log) {
        WellBracketedSnoc(log + front, e);
      }
    } else {
      assert log + es == log;
    }
  }

  /** What `setup` tells the first n oscillators: type, frequency, silence. */
  function SetupEvents(data: seq<OscParams>, n: nat): (es: seq<Event>)
    requires n <= |data|
    ensures |es| == 3 * n && Quiet(es)
  {
    if n == 0 then []
    else
      var o := data[n - 1];
      SetupEvents(data, n - 1) + [SetType(n - 1, o.waveform), SetFreq(n - 1, o.frequency), SetAmp(n - 1, 0.0, 0.0)]
  }

  /** What a successful start tells the first n oscillators: start, then ramp
      to the configured amplitude. */
  function StartEvents(data: seq<OscParams>, n: nat): (es: seq<Event>)
    requires n <= |data|
    ensures |es| == 2 * n
  {
    if n == 0 then []
    else StartEvents(data, n - 1) + [Start(n - 1), SetAmp(n - 1, data[n - 1].amplitude, AmpRamp)]
  }

  /** What a stop tells the first n oscillators. */
  function StopEvents(n: nat): (es: seq<Event>)
    ensures |es| == n
  {
    if n == 0 then [] else StopEvents(n - 1) + [Stop(n - 1)]
  }

  /** The start sequence, call by call. */
  lemma {:induction false} StartEventsLayout(data: seq<OscParams>, n: nat)
    requires n <= |data|
    ensures |StartEvents(data, n)| == 2 * n
    ensures forall i :: 0 <= i < n ==>
      StartEvents(data, n)[2 * i] == Start(i) &&
      StartEvents(data, n)[2 * i + 1] == SetAmp(i, data[i].amplitude, AmpRamp)
  {
    if n > 0 {
      StartEventsLayout(data, n - 1);
    }
  }

  /** How many times e occurs in es. */
  function Count(es: seq<Event>, e: Event): nat
    decreases |es|
  {
    if es == [] then 0 else Count(es[..|es| - 1], e) + (if es[|es| - 1] == e then 1 else 0)
  }

  lemma CountSnoc(es: seq<Event>, x: Event, e: Event)
    ensures Count(es + [x], e) == Count(es, e) + if x == e then 1 else 0
  {
  }

  /** Counting distributes over concatenation. */
  lemma {:induction false} CountAppend(a: seq<Event>, b: seq<Event>, e: Event)
    ensures Count(a + b, e) == Count(a, e) + Count(b, e)
    decreases |b|
  {
    if b == [] {
      assert a + b == a;
    } else {
      var front := b[..|b| - 1];
      assert b == front + [b[|b| - 1]];
      assert a + b == (a + front) + [b[|b| - 1]];
      CountAppend(a, front, e);
      CountSnoc(a + front, b[|b| - 1], e);
      CountSnoc(front, b[|b| - 1], e);
    }
  }

  /** The start sequence sends no frequency and no waveform: a start does not
      push an oscillator's configured frequency or type. */
  lemma {:induction false} StartEventsSendNoTuning(data: seq<OscParams>, n: nat, i: nat, hz: real, kind: Waveform)
    requires n <= |data|
    ensures Count(StartEvents(data, n), SetFreq(i, hz)) == 0
    ensures Count(StartEvents(data, n), SetType(i, kind)) == 0
  {
    if n > 0 {
      var prev := StartEvents(data, n - 1);
      var amp := SetAmp(n - 1, data[n - 1].amplitude, AmpRamp);
      assert StartEvents(data, n) == (prev + [Start(n - 1)]) + [amp];
      CountSnoc(prev, Start(n - 1), SetFreq(i, hz));
      CountSnoc(prev + [Start(n - 1)], amp, SetFreq(i, hz));
      CountSnoc(prev, Start(n - 1), SetType(i, kind));
      CountSnoc(prev + [Start(n - 1)], amp, SetType(i, kind));
      StartEventsSendNoTuning(data, n - 1, i, hz, kind);
    }
  }

  /** Each of the n oscillators is started exactly once, and nobody else is. */
  lemma {:induction false} StartEventsStartOnce(data: seq<OscParams>, n: nat, i: nat)
    requires n <= |data|
    ensures Count(StartEvents(data, n), Start(i)) == if i < n then 1 else 0
  {
    if n > 0 {
      var prev := StartEvents(data, n - 1);
      var amp := SetAmp(n - 1, data[n - 1].amplitude, AmpRamp);
      assert StartEvents(data, n) == (prev + [Start(n - 1)]) + [amp];
      CountSnoc(prev, Start(n - 1), Start(i));
      CountSnoc(prev + [Start(n - 1)], amp, Start(i));
      StartEventsStartOnce(data, n - 1, i);
    }
  }

  /** Each of the n oscillators is ramped to its amplitude exactly once, and
      nobody else's amplitude is set. */
  lemma {:induction false} StartEventsRampOnce(data: seq<OscParams>, n: nat, i: nat, level: real, ramp: real)
    requires n <= |data|
    ensures Count(StartEvents(data, n), SetAmp(i, level, ramp)) ==
      if i < n && level == data[i].amplitude && ramp == AmpRamp then 1 else 0
  {
    if n > 0 {
      var prev := StartEvents(data, n - 1);
      var amp := SetAmp(n - 1, data[n - 1].amplitude, AmpRamp);
      assert StartEvents(data, n) == (prev + [Start(n - 1)]) + [amp];
      CountSnoc(prev, Start(n - 1), SetAmp(i, level, ramp));
      CountSnoc(prev + [Start(n - 1)], amp, SetAmp(i, level, ramp));
      StartEventsRampOnce(data, n - 1, i, level, ramp);
    }
  }

  /** The stop sequence, call by call. */
  lemma {:induction false} StopEventsLayout(n: nat)
    ensures forall k :: 0 <= k < n ==> StopEvents(n)[k] == Stop(k)
  {
    if n > 0 {
      StopEventsLayout(n - 1);
    }
  }

  /** Each of the n oscillators is stopped exactly once. */
  lemma {:induction false} StopEventsOnce(n: nat, i: nat)
    ensures Count(StopEvents(n), Stop(i)) == if i < n then 1 else 0
  {
    if n > 0 {
      var prev := StopEvents(n - 1);
      CountSnoc(prev, Stop(n - 1), Stop(i));
      StopEventsOnce(n - 1, i);
    }
  }

  /** After a start sequence the first n oscillators run, the rest are as before. */
  lemma {:induction false} RunningAfterStart(log: seq<Event>, data: seq<OscParams>, n: nat, i: nat)
    requires n <= |data|
    ensures Running(log + StartEvents(data, n), i) == (i < n || Running(log, i))
  {
    if n > 0 {
      var prev := log + StartEvents(data, n - 1);
      var amp := SetAmp(n - 1, data[n - 1].amplitude, AmpRamp);
      assert log + StartEvents(data, n) == (prev + [Start(n - 1)]) + [amp];
      RunningAfterStart(log, data, n - 1, i);
      RunningSnoc(prev, Start(n - 1), i);
      RunningSnoc(prev + [Start(n - 1)], amp, i);
    } else {
      assert log + StartEvents(data, n) == log;
    }
  }

  /** Starting oscillators that are all stopped keeps the log bracketed. */
  lemma {:induction false} BracketedAfterStart(log: seq<Event>, data: seq<OscParams>, n: nat)
    requires n <= |data| && WellBracketed(log)
    requires forall j: nat :: j < n ==> !Running(log, j)
    ensures WellBracketed(log + StartEvents(data, n))
  {
    if n > 0 {
      var prev := log + StartEvents(data, n - 1);
      var amp := SetAmp(n - 1, data[n - 1].amplitude, AmpRamp);
      assert log + StartEvents(data, n) == (prev + [Start(n - 1)]) + [amp];
      BracketedAfterStart(log, data, n - 1);
      RunningAfterStart(log, data, n - 1, n - 1);
      WellBracketedSnoc(prev, Start(n - 1));
      WellBracketedSnoc(prev + [Start(n - 1)], amp);
    } else {
      assert log + StartEvents(data, n) == log;
    }
  }

  /** After a stop sequence the first n oscillators are stopped. */
  lemma {:induction false} RunningAfterStop(log: seq<Event>, n: nat, i: nat)
    ensures Running(log + StopEvents(n), i) == (i >= n && Running(log, i))
  {
    if n > 0 {
      assert log + StopEvents(n) == (log + StopEvents(n - 1)) + [Stop(n - 1)];
      RunningAfterStop(log, n - 1, i);
      RunningSnoc(log + StopEvents(n - 1), Stop(n - 1), i);
    } else {
      assert log + StopEvents(n) == log;
    }
  }

  /** Stopping oscillators that all run keeps the log bracketed. */
  lemma {:induction false} BracketedAfterStop(log: seq<Event>, n: nat)
    requires WellBracketed(log)
    requires forall j: nat :: j < n ==> Running(log, j)
    ensures WellBracketed(log + StopEvents(n))
  {
    if n > 0 {
      assert log + StopEvents(n) == (log + StopEvents(n - 1)) + [Stop(n - 1)];
      BracketedAfterStop(log, n - 1);
      RunningAfterStop(log, n - 1, n - 1);
      WellBracketedSnoc(log + StopEvents(n - 1), Stop(n - 1));
    } else {
      assert log + StopEvents(n) == log;
    }
  }
}
