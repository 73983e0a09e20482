/**
 * The ping-pong schedule of the wave solver, stated on values. Two field generations are kept
 * side by side; a substep advances the clock, binds the current generation and the previous
 * one to the wave-update program, writes the program's output over the previous generation
 * and flips the index of the current one. The program itself (the leapfrog update) is not part
 * of this model and enters as a function of its bindings and the texel it shades; a pass runs
 * it once for every texel of the fixed-size target texture.
 */
module Stepper {
  import opened Common

  /** The named parameters bound to the wave-update program for one pass. */
  datatype WaveUniforms = WaveUniforms(
    currentWave: Grid,
    previousWave: Grid,
    waveSpeed: Grid,
    sideDamp: Grid,
    waveSource1Mask: Grid,
    waveSource1Amplitude: real,
    texPixelSize: (real, real),
    c: real,
    coeff: real)

  /** The wave-update program: the value it writes at texel (x, y) under the given bindings. */
  type WaveProgram = (WaveUniforms, nat, nat) -> real

  /** The immutable maps every pass reads, with the texture size. */
  datatype MediumMaps = MediumMaps(
    waveSpeed: Grid, sideDamp: Grid, sourceMask: Grid, texWidth: nat, texHeight: nat)

  /** The global oscillator: base amplitude, frequency and the sine it is computed with. */
  datatype Oscillator = Oscillator(amp: real, freq: real, sin: real -> real)

  /** The mutable simulation state: both generations, the current index and the clock. */
  datatype Field = Field(textures: seq<Grid>, current: int, t: real)

  /**
   * Exactly two generations, each of the texture's h-by-w shape, and the current index names
   * one of them.
   */
  predicate ValidField(f: Field, m: MediumMaps)
  {
    |f.textures| == 2 && 0 <= f.current <= 1 &&
    IsGrid(f.textures[0], m.texHeight, m.texWidth) && IsGrid(f.textures[1], m.texHeight, m.texWidth)
  }

  predicate ValidMaps(m: MediumMaps)
  {
    m.texWidth > 0 && m.texHeight > 0
  }

  /** The source amplitude at time t: amp * sin(t * freq / (2 pi)). */
  function SourceAmplitude(osc: Oscillator, t: real): real
  {
    osc.amp * osc.sin(t * osc.freq / (PI * 2.0))
  }

  /** The size of one texel in texture coordinates. */
  function TexPixelSize(m: MediumMaps): (real, real)
    requires ValidMaps(m)
  {
    (1.0 / m.texWidth as real, 1.0 / m.texHeight as real)
  }

  /**
   * One render pass into an h-by-w target: the program is run for every texel and the target
   * receives exactly its outputs.
   */
  function Render(prog: WaveProgram, u: WaveUniforms, h: nat, w: nat): (g: Grid)
    ensures IsGrid(g, h, w)
    ensures forall y, x :: 0 <= y < h && 0 <= x < w ==> g[y][x] == prog(u, x, y)
  {
    seq(h, y requires 0 <= y < h => seq(w, x requires 0 <= x < w => prog(u, x, y)))
  }

  /** What the pass started from f binds: the clock has already advanced to f.t + DT. */
  function Bindings(f: Field, m: MediumMaps, osc: Oscillator): WaveUniforms
    requires ValidField(f, m) && ValidMaps(m)
  {
    WaveUniforms(
      f.textures[f.current], f.textures[1 - f.current],
      m.waveSpeed, m.sideDamp, m.sourceMask,
      SourceAmplitude(osc, f.t + DT), TexPixelSize(m), C, COEFF)
  }

  /** The output of the pass started from f: the previous generation's texture, re-rendered. */
  function PassOutput(f: Field, m: MediumMaps, osc: Oscillator, prog: WaveProgram): Grid
    requires ValidField(f, m) && ValidMaps(m)
  {
    Render(prog, Bindings(f, m, osc), m.texHeight, m.texWidth)
  }

  /**
   * One substep: advance the clock, render into the previous generation, flip the index. Both
   * generations keep the texture's shape.
   */
  function Substep(f: Field, m: MediumMaps, osc: Oscillator, prog: WaveProgram): (r: Field)
    requires ValidField(f, m) && ValidMaps(m)
    ensures ValidField(r, m)
  {
    Field(f.textures[1 - f.current := PassOutput(f, m, osc, prog)], 1 - f.current, f.t + DT)
  }

  /** The state after n substeps. */
  function Substeps(f: Field, m: MediumMaps, osc: Oscillator, prog: WaveProgram, n: nat): (r: Field)
    requires ValidField(f, m) && ValidMaps(m)
    ensures ValidField(r, m)
    decreases n
  {
    if n == 0 then f else Substep(Substeps(f, m, osc, prog, n - 1), m, osc, prog)
  }

  /**
   * A substep reads the current generation as currentWave and the previous one as previousWave,
   * overwrites only the previous one with the program's output, leaves the current one as it
   * was, flips the index and advances the clock by DT.
   */
  lemma SubstepOwnership(f: Field, m: MediumMaps, osc: Oscillator, prog: WaveProgram)
    requires ValidField(f, m) && ValidMaps(m)
    ensures Bindings(f, m, osc).currentWave == f.textures[f.current]
    ensures Bindings(f, m, osc).previousWave == f.textures[1 - f.current]
    ensures Substep(f, m, osc, prog).textures[1 - f.current] == PassOutput(f, m, osc, prog)
    ensures Substep(f, m, osc, prog).textures[f.current] == f.textures[f.current]
    ensures Substep(f, m, osc, prog).current == 1 - f.current
    ensures Substep(f, m, osc, prog).t == f.t + DT
  {
  }

  /** After n substeps the clock has advanced by exactly n * DT. */
  lemma {:induction false} SubstepsClock(f: Field, m: MediumMaps, osc: Oscillator, prog: WaveProgram, n: nat)
    requires ValidField(f, m) && ValidMaps(m)
    ensures Substeps(f, m, osc, prog, n).t == f.t + n as real * DT
  {
    if n > 0 {
      SubstepsClock(f, m, osc, prog, n - 1);
    }
  }

  /** The current index strictly alternates: it is back where it started after an even count. */
  lemma {:induction false} SubstepsParity(f: Field, m: MediumMaps, osc: Oscillator, prog: WaveProgram, n: nat)
    requires ValidField(f, m) && ValidMaps(m)
    ensures Substeps(f, m, osc, prog, n).current == if n % 2 == 0 then f.current else 1 - f.current
  {
    if n > 0 {
      SubstepsParity(f, m, osc, prog, n - 1);
    }
  }

  /**
   * The k-th substep (counting from 1) drives the source with the amplitude at t0 + k * DT: the
   * clock is advanced before the amplitude is computed.
   */
  lemma SubstepAmplitude(f: Field, m: MediumMaps, osc: Oscillator, prog: WaveProgram, k: nat)
    requires ValidField(f, m) && ValidMaps(m) && k >= 1
    ensures Bindings(Substeps(f, m, osc, prog, k - 1), m, osc).waveSource1Amplitude
         == SourceAmplitude(osc, f.t + k as real * DT)
  {
    SubstepsClock(f, m, osc, prog, k - 1);
    assert f.t + (k - 1) as real * DT + DT == f.t + k as real * DT;
  }

  /**
   * After a frame of SUBSTEPS passes the current index is back to its initial value, and the
   * generation the visualiser binds, textures[1 - current], is the output of the 9th pass; the
   * 10th pass's output sits in textures[current].
   */
  lemma FrameDisplaysNinthPass(f: Field, m: MediumMaps, osc: Oscillator, prog: WaveProgram)
    requires ValidField(f, m) && ValidMaps(m)
    ensures Substeps(f, m, osc, prog, SUBSTEPS).current == f.current
    ensures Substeps(f, m, osc, prog, SUBSTEPS).textures[1 - f.current]
         == PassOutput(Substeps(f, m, osc, prog, 8), m, osc, prog)
    ensures Substeps(f, m, osc, prog, SUBSTEPS).textures[f.current]
         == PassOutput(Substeps(f, m, osc, prog, 9), m, osc, prog)
  {
    var s8 := Substeps(f, m, osc, prog, 8);
    var s9 := Substeps(f, m, osc, prog, 9);
    SubstepsParity(f, m, osc, prog, 8);
    SubstepOwnership(s8, m, osc, prog);
    SubstepOwnership(s9, m, osc, prog);
  }
}
