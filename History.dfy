/** The spectrum history behind the spectrograph: a window of snapshots,
    oldest first, that every playing frame slides by one (drop the oldest,
    append the newest) and that start-up and stop refill with silence. */
module History {

  /** One analyser output: a magnitude per frequency bin. */
  type Snapshot = seq<real>

  /** Width of a silent snapshot (`new Array(1024).fill(0)`). */
  const SnapshotWidth: nat := 1024

  /** The fractional bound the reset loops compare against (about 8192 / 44100). */
  const SourceMaxHistoryLength: real := 0.18575963718

  /** How many times `for (i = 0; i < maxLength; i++)` runs: the ceiling of a
      positive bound. */
  function HistoryDepth(maxLength: real): (n: nat)
    ensures maxLength <= 0.0 ==> n == 0
    ensures maxLength > 0.0 ==> n >= 1 && (n - 1) as real < maxLength <= n as real
  {
    if maxLength <= 0.0 then 0
    else
      var f := maxLength.Floor;
      if f as real == maxLength then f else f + 1
  }

  /** The source's bound yields a single-snapshot history. */
  lemma SourceHistoryDepth()
    ensures HistoryDepth(SourceMaxHistoryLength) == 1
  {
  }

  function ZeroSnapshot(): (z: Snapshot)
    ensures |z| == SnapshotWidth
    ensures forall b :: 0 <= b < |z| ==> z[b] == 0.0
  {
    seq(SnapshotWidth, _ => 0.0)
  }

  /** A history of n silent snapshots. */
  function Silence(n: nat): (h: seq<Snapshot>)
    ensures |h| == n
    ensures forall k :: 0 <= k < n ==> |h[k]| == SnapshotWidth
    ensures forall k, b :: 0 <= k < n && 0 <= b < |h[k]| ==> h[k][b] == 0.0
  {
    seq(n, _ => ZeroSnapshot())
  }

  /** Array.prototype.shift: drops the first element; an empty array stays empty. */
  function Shift(h: seq<Snapshot>): seq<Snapshot> {
    if h == [] then [] else h[1..]
  }

  /** One playing frame: shift, then push a copy of the new spectrum. */
  function Slide(h: seq<Snapshot>, s: Snapshot): (r: seq<Snapshot>)
    ensures |h| > 0 ==> |r| == |h|
    ensures |r| > 0 && r[|r| - 1] == s
    ensures |h| > 0 ==> forall k :: 0 <= k < |r| - 1 ==> r[k] == h[k + 1]
  {
    Shift(h) + [s]
  }

  /** The history after a run of playing frames, one spectrum per frame. */
  function SlideAll(h: seq<Snapshot>, spectra: seq<Snapshot>): (r: seq<Snapshot>)
    ensures |h| > 0 ==> |r| == |h|
    ensures spectra != [] ==> |r| > 0 && r[|r| - 1] == spectra[|spectra| - 1]
    decreases |spectra|
  {
    if spectra == [] then h else SlideAll(Slide(h, spectra[0]), spectra[1..])
  }

  /** A non-empty history is a sliding window over everything it has seen. */
  lemma {:induction false} SlidingWindow(h: seq<Snapshot>, spectra: seq<Snapshot>)
    requires |h| > 0
    ensures SlideAll(h, spectra) == (h + spectra)[|spectra|..]
    decreases |spectra|
  {
    if spectra != [] {
      var h' := Slide(h, spectra[0]);
      assert h' == h[1..] + [spectra[0]];
      assert h' + spectra[1..] == (h + spectra)[1..];
      SlidingWindow(h', spectra[1..]);
    }
  }

  /** Once at least |h| frames have played, the history holds exactly the
      last |h| spectra, oldest first; its length never changes. */
  lemma LastSpectra(h: seq<Snapshot>, spectra: seq<Snapshot>)
    requires |h| > 0
    ensures |SlideAll(h, spectra)| == |h|
    ensures |spectra| >= |h| ==> SlideAll(h, spectra) == spectra[|spectra| - |h|..]
  {
    SlidingWindow(h, spectra);
    if |spectra| >= |h| {
      assert (h + spectra)[|spectra|..] == spectra[|spectra| - |h|..];
    }
  }
}
