/** The colour branch of the spectrograph pass: a magnitude in [0, 255] is
    scaled to an intensity in [0, 1] and mapped through a four-piece linear
    gradient (navy to blue, blue to cyan, cyan to yellow, yellow to red) with
    an alpha that grows with the intensity. Only the lowest 30% of the bins of
    a snapshot are drawn. */
module Spectrograph {

  datatype Rgba = Rgba(r: real, g: real, b: real, a: real)

  predicate InChannel(x: real) {
    0.0 <= x <= 255.0
  }

  function Abs(x: real): real {
    if x < 0.0 then -x else x
  }

  /** The steepest slope of any channel: 255 over a 0.2-wide piece. */
  const MaxSlope: real := 1275.0

  /** p5's map(m, 0, 255, 0, 1), which does not clamp. */
  function Intensity(magnitude: real): (t: real)
    ensures t * 255.0 == magnitude
    ensures 0.0 <= magnitude <= 255.0 <==> 0.0 <= t <= 1.0
  {
    (magnitude - 0.0) / (255.0 - 0.0) * (1.0 - 0.0) + 0.0
  }

  function SpectroColour(t: real): (c: Rgba)
    ensures 0.0 <= t <= 1.0 ==> InChannel(c.r) && InChannel(c.g) && InChannel(c.b)
    ensures 0.0 <= t <= 1.0 ==> 55.0 <= c.a <= 255.0
  {
    var alpha := t * 200.0 + 55.0;
    if t < 0.3 then
      Rgba(0.0, 0.0, t * 255.0 / 0.3, alpha)
    else if t < 0.6 then
      Rgba(0.0, (t - 0.3) * 255.0 / 0.3, 255.0, alpha)
    else if t < 0.8 then
      Rgba((t - 0.6) * 255.0 / 0.2, 255.0, 255.0 - (t - 0.6) * 255.0 / 0.2, alpha)
    else
      Rgba(255.0, 255.0 - (t - 0.8) * 255.0 / 0.2, 0.0, alpha)
  }

  /** Silence is black and a full-scale bin is opaque red. */
  lemma ColourEndpoints()
    ensures SpectroColour(0.0) == Rgba(0.0, 0.0, 0.0, 55.0)
    ensures SpectroColour(1.0) == Rgba(255.0, 0.0, 0.0, 255.0)
  {
  }

  /** The colours at the three breakpoints: blue, cyan and yellow. */
  lemma ColourAtBreakpoints()
    ensures SpectroColour(0.3) == Rgba(0.0, 0.0, 255.0, 115.0)
    ensures SpectroColour(0.6) == Rgba(0.0, 255.0, 255.0, 175.0)
    ensures SpectroColour(0.8) == Rgba(255.0, 255.0, 0.0, 215.0)
  {
  }

  /** No piece jumps at a breakpoint: every channel is Lipschitz in the
      intensity, so the gradient is continuous everywhere. */
  lemma ColourLipschitz(x: real, y: real)
    ensures Abs(SpectroColour(x).r - SpectroColour(y).r) <= MaxSlope * Abs(x - y)
    ensures Abs(SpectroColour(x).g - SpectroColour(y).g) <= MaxSlope * Abs(x - y)
    ensures Abs(SpectroColour(x).b - SpectroColour(y).b) <= MaxSlope * Abs(x - y)
    ensures Abs(SpectroColour(x).a - SpectroColour(y).a) <= 200.0 * Abs(x - y)
  {
  }

  /** Math.floor(n * 0.3): how many bins of an n-bin snapshot are drawn. */
  function VisibleBins(n: nat): (k: nat)
    ensures k <= n
    ensures k as real <= n as real * 0.3 < k as real + 1.0
  {
    (n as real * 0.3).Floor
  }

  /** Of a 1024-bin snapshot, bins 0..306 are drawn. */
  lemma VisibleBinsOfSnapshot()
    ensures VisibleBins(1024) == 307
  {
  }

  /** The colours of one spectrograph column, lowest bin first. */
  function ColumnColours(spectrum: seq<real>): (cs: seq<Rgba>)
    ensures |cs| == VisibleBins(|spectrum|)
    ensures forall j :: 0 <= j < |cs| ==> cs[j] == SpectroColour(Intensity(spectrum[j]))
  {
    seq(VisibleBins(|spectrum|), j requires 0 <= j < VisibleBins(|spectrum|) => SpectroColour(Intensity(spectrum[j])))
  }

  /** A column of analyser magnitudes is painted in valid colours only. */
  lemma ColumnInRange(spectrum: seq<real>)
    requires forall j :: 0 <= j < |spectrum| ==> 0.0 <= spectrum[j] <= 255.0
    ensures forall j :: 0 <= j < |ColumnColours(spectrum)| ==>
      InChannel(ColumnColours(spectrum)[j].r) && InChannel(ColumnColours(spectrum)[j].g) &&
      InChannel(ColumnColours(spectrum)[j].b) && 55.0 <= ColumnColours(spectrum)[j].a <= 255.0
  {
  }
}
