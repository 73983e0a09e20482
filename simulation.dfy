/**
 * The WaveSimulation object: start-up checks, the one-time derivation of the medium and the
 * field generations, the letterbox window, and the per-frame update that runs SUBSTEPS wave
 * passes and then hands textures[1 - current] to the visualiser: the output of the
 * second-to-last pass, one substep behind the newest generation.
 */
module Simulation {
  import opened Common
  import opened Terrain
  import opened Damping
  import opened Letterbox
  import opened Stepper
  import opened Capture

  /** The options the simulation is constructed with. */
  datatype Config = Config(
    width: nat,
    height: nat,
    renderIntensityView: bool,
    saveVideo: bool,
    videoPath: Option<string>,
    videoFps: nat,
    waveSourceFreq: real,
    waveSourceAmp: real)

  /** The one error construction raises itself. */
  datatype InitError = ValueError(message: string)

  /** The stability warning construction may issue. */
  datatype Warning = CflWarning(cfl: real)

  /** The named parameters bound to the visualiser program each frame. */
  datatype VisualizeUniforms = VisualizeUniforms(
    waveTex: Grid, bgTex: Grid, uv: UV, texPixelSize: (real, real))

  /** The Courant number COEFF * C^2 with COEFF = (dt / dx)^2. */
  function CflNumber(dt: real, dx: real, c: real): real
    requires dx != 0.0
  {
    ((dt / dx) * (dt / dx)) * (c * c)
  }

  /** Above 0.25 the explicit scheme may be unstable; this only warns. */
  predicate CflExceeded(dt: real, dx: real, c: real)
    requires dx != 0.0
  {
    CflNumber(dt, dx, c) > 0.25
  }

  /** With the shipped DT, DX and C the Courant number is 0.01, so no warning is issued. */
  lemma ShippedParametersStable()
    ensures CflNumber(DT, DX, C) == 0.01
    ensures !CflExceeded(DT, DX, C)
  {
  }

  /** init_textures' results, each of which the source stores on the object. */
  method InitTextures(terrain: Image)
    returns (texWidth: nat, texHeight: nat, texAspect: real,
             waveSpeed: Grid, sideDamp: Grid, sourceMask: Grid, textures: array<Grid>)
    requires WellFormed(terrain)
    ensures texWidth == Width(terrain) && texHeight == Height(terrain)
    ensures texAspect == texWidth as real / texHeight as real
    ensures waveSpeed == WaveSpeedMap(terrain) && sourceMask == SourceMaskMap(terrain)
    ensures sideDamp == SideDampGrid(texWidth, texHeight)
    ensures fresh(textures) && textures.Length == 2
    ensures textures[0] == ZeroGrid(texHeight, texWidth) && textures[1] == ZeroGrid(texHeight, texWidth)
  {
    FlipWellFormed(terrain);
    var flipped := FlipY(terrain);
    texWidth := |flipped[0]|;
    texHeight := |flipped|;
    texAspect := texWidth as real / texHeight as real;
    var initialData := ZeroGrid(texHeight, texWidth);
    waveSpeed := NormalizedChannel(flipped, Blue);
    sourceMask := NormalizedChannel(flipped, Green);
    var sideDampArray := BuildSideDamp(texWidth, texHeight);
    textures := new Grid[2][initialData, initialData];
    sideDamp := GridOf(sideDampArray);
    forall y | 0 <= y < texHeight
      ensures sideDamp[y] == SideDampGrid(texWidth, texHeight)[y]
    {
    }
  }

  /** The contents of a two-dimensional array as the grid it is uploaded as. */
  function GridOf(a: array2<real>): (g: Grid)
    reads a
    ensures IsGrid(g, a.Length0, a.Length1)
    ensures forall y, x :: 0 <= y < a.Length0 && 0 <= x < a.Length1 ==> g[y][x] == a[y, x]
  {
    seq(a.Length0, y requires 0 <= y < a.Length0 reads a =>
      seq(a.Length1, x requires 0 <= x < a.Length1 reads a => a[y, x]))
  }

  class WaveSimulation {
    const renderIntensityView: bool
    const saveVideo: bool
    const windowSize: (nat, nat)
    const waveSourceFreq: real
    const waveSourceAmp: real
    /** The sine the source amplitude is computed with. */
    const sin: real -> real
    /** The compiled wave-update program. */
    const waveUpdateProg: WaveProgram
    const videoWriter: Option<VideoWriter>

    const texWidth: nat
    const texHeight: nat
    const texAspect: real
    const waveSpeed: Grid
    const sideDamp: Grid
    const sourceMask: Grid
    /** The two field generations (ping-pong textures). */
    const textures: array<Grid>
    const contentUv: UV

    /** Index of the current generation. */
    var currentTexture: int
    /** Simulation time in seconds. */
    var t: real

    /** Two generations of the texture's shape, and a current index naming one of them. */
    ghost predicate Valid()
      reads this, textures
    {
      textures.Length == 2 && ValidMaps(Maps()) && ValidField(State(), Maps())
    }

    function Maps(): MediumMaps
      reads this
    {
      MediumMaps(waveSpeed, sideDamp, sourceMask, texWidth, texHeight)
    }

    function Source(): Oscillator
      reads this
    {
      Oscillator(waveSourceAmp, waveSourceFreq, sin)
    }

    /** The abstract state the update works on. */
    function State(): Field
      reads this, textures
    {
      Field(textures[..], currentTexture, t)
    }

    /**
     * Construction after the video-path check: both generations all zero, current index 0,
     * clock 0, the medium maps derived from the terrain, and the letterbox bounds.
     */
    constructor Init(cfg: Config, terrain: Image, sin: real -> real, waveUpdateProg: WaveProgram)
      requires WellFormed(terrain)
      requires cfg.width > 0 && cfg.height > 0
      requires cfg.saveVideo ==> cfg.videoPath.Some?
      ensures Valid() && fresh(textures)
      ensures texWidth == Width(terrain) && texHeight == Height(terrain)
      ensures State() == Field([ZeroGrid(texHeight, texWidth), ZeroGrid(texHeight, texWidth)], 0, 0.0)
      ensures waveSpeed == WaveSpeedMap(terrain) && sourceMask == SourceMaskMap(terrain)
      ensures sideDamp == SideDampGrid(texWidth, texHeight)
      ensures texAspect == texWidth as real / texHeight as real
      ensures contentUv == ContentUv(cfg.width as real / cfg.height as real, texAspect)
      ensures videoWriter.Some? <==> cfg.saveVideo
      ensures videoWriter.Some? ==>
        fresh(videoWriter.value) &&
        videoWriter.value.width == cfg.width && videoWriter.value.height == cfg.height &&
        videoWriter.value.path == cfg.videoPath.value && videoWriter.value.fps == cfg.videoFps &&
        videoWriter.value.frameQueue == [] && videoWriter.value.log == []
      ensures this.sin == sin && this.waveUpdateProg == waveUpdateProg
      ensures waveSourceFreq == cfg.waveSourceFreq && waveSourceAmp == cfg.waveSourceAmp
    {
      renderIntensityView := cfg.renderIntensityView;
      saveVideo := cfg.saveVideo;
      windowSize := (cfg.width, cfg.height);
      waveSourceFreq := cfg.waveSourceFreq;
      waveSourceAmp := cfg.waveSourceAmp;
      this.sin := sin;
      this.waveUpdateProg := waveUpdateProg;
      currentTexture := 0;
      t := 0.0;
      if cfg.saveVideo {
        var writer := new VideoWriter(cfg.width, cfg.height, cfg.videoPath.value, cfg.videoFps);
        videoWriter := Some(writer);
      } else {
        videoWriter := None;
      }
      var tw, th, aspect, speed, damp, mask, tex := InitTextures(terrain);
      texWidth, texHeight, texAspect := tw, th, aspect;
      waveSpeed, sideDamp, sourceMask, textures := speed, damp, mask, tex;
      var screenAspect := cfg.width as real / cfg.height as real;
      contentUv := ContentUv(screenAspect, aspect);
      new;
      assert textures[..] == [ZeroGrid(texHeight, texWidth), ZeroGrid(texHeight, texWidth)];
    }

    /**
     * One pass of the wave-update program (one iteration of the substep loop): advance the
     * clock, compute the source amplitude at the new time, render from the current and previous
     * generations into the previous one, and flip the current index.
     */
    method WavePass(texPixelSize: (real, real))
      requires Valid() && texPixelSize == TexPixelSize(Maps())
      modifies this`t, this`currentTexture, textures
      ensures Valid()
      ensures State() == Substep(old(State()), Maps(), Source(), waveUpdateProg)
    {
      t := t + DT;
      var amp := SourceAmplitude(Source(), t);
      var uniforms := WaveUniforms(
        textures[currentTexture], textures[1 - currentTexture],
        waveSpeed, sideDamp, sourceMask, amp, texPixelSize, C, COEFF);
      assert uniforms == Bindings(old(State()), Maps(), Source());
      textures[1 - currentTexture] := Render(waveUpdateProg, uniforms, texHeight, texWidth);
      currentTexture := 1 - currentTexture;
    }

    /**
     * One displayed frame: SUBSTEPS wave passes, then the visualiser bindings. The current
     * index is back where it started, the clock has advanced by SUBSTEPS * DT, and the
     * generation shown is the one the 9th pass wrote.
     */
    method Update() returns (shown: VisualizeUniforms)
      requires Valid()
      modifies this`t, this`currentTexture, textures
      ensures Valid()
      ensures State() == Substeps(old(State()), Maps(), Source(), waveUpdateProg, SUBSTEPS)
      ensures currentTexture == old(currentTexture)
      ensures t == old(t) + SUBSTEPS as real * DT
      ensures shown == VisualizeUniforms(textures[1 - currentTexture], waveSpeed, contentUv, TexPixelSize(Maps()))
      ensures IsGrid(shown.waveTex, texHeight, texWidth)
      ensures shown.waveTex == PassOutput(Substeps(old(State()), Maps(), Source(), waveUpdateProg, 8), Maps(), Source(), waveUpdateProg)
    {
      var texPixelSize := (1.0 / texWidth as real, 1.0 / texHeight as real);
      for i := 0 to SUBSTEPS
        invariant Valid()
        invariant State() == Substeps(old(State()), Maps(), Source(), waveUpdateProg, i)
      {
        WavePass(texPixelSize);
      }
      FrameDisplaysNinthPass(old(State()), Maps(), Source(), waveUpdateProg);
      SubstepsClock(old(State()), Maps(), Source(), waveUpdateProg, SUBSTEPS);
      shown := VisualizeUniforms(textures[1 - currentTexture], waveSpeed, contentUv, texPixelSize);
    }
  }

  /**
   * Construction as a whole: the stability check warns (and never fails), a recording run
   * without an output path is refused with ValueError before the video writer and the textures
   * are created, and otherwise a fresh simulation is built.
   */
  method Create(cfg: Config, terrain: Image, sin: real -> real, waveUpdateProg: WaveProgram)
    returns (warnings: seq<Warning>, r: Result<WaveSimulation, InitError>)
    requires WellFormed(terrain)
    requires cfg.width > 0 && cfg.height > 0
    ensures warnings == if CflExceeded(DT, DX, C) then [CflWarning(CflNumber(DT, DX, C))] else []
    ensures warnings == []
    ensures r.Failure? <==> cfg.saveVideo && cfg.videoPath.None?
    ensures r.Failure? ==> r.error == ValueError("--video_path not specified")
    ensures r.Success? ==>
      fresh(r.value) && fresh(r.value.textures) && r.value.Valid() &&
      r.value.State() == Field([ZeroGrid(Height(terrain), Width(terrain)), ZeroGrid(Height(terrain), Width(terrain))], 0, 0.0) &&
      (r.value.videoWriter.Some? <==> cfg.saveVideo)
  {
    if CflExceeded(DT, DX, C) {
      warnings := [CflWarning(CflNumber(DT, DX, C))];
    } else {
      warnings := [];
    }
    ShippedParametersStable();
    if cfg.saveVideo && cfg.videoPath.None? {
      return warnings, Failure(ValueError("--video_path not specified"));
    }
    var sim := new WaveSimulation.Init(cfg, terrain, sin, waveUpdateProg);
    r := Success(sim);
  }
}
