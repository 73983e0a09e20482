/** Types and fixed simulation parameters shared by the whole model of NeedyWave. */
module Common {

  datatype Option<T> = None | Some(value: T)

  datatype Result<T, E> = Success(value: T) | Failure(error: E)

  /** One unsigned 8-bit image or pixel-buffer component. */
  newtype byte = x: int | 0 <= x < 256

  /** A single-channel texture as rows of cells: g[y][x]. Float32 cells are modelled as reals. */
  type Grid = seq<seq<real>>

  /** g has h rows of w cells each. */
  predicate IsGrid(g: Grid, h: nat, w: nat)
  {
    |g| == h && forall y :: 0 <= y < h ==> |g[y]| == w
  }

  /** Integration timestep in seconds (WaveSimulation.DT). */
  const DT: real := 0.01
  /** Cell size in metres (WaveSimulation.DX). */
  const DX: real := 1.0
  /** Reference wave speed in metres per second (WaveSimulation.C). */
  const C: real := 10.0
  /** The stability coefficient (DT/DX)^2 handed to the wave-update program. */
  const COEFF: real := (DT / DX) * (DT / DX)
  /** Width of the absorbing border band in metres. */
  const SIDE_DAMP_WIDTH: real := 50.0
  /** Damping coefficient at the outermost cells, before scaling by DT. */
  const SIDE_DAMP_MAX: real := 5.0
  /** Wave-update passes per displayed frame. */
  const SUBSTEPS: nat := 10
  /** The double-precision value of pi that numpy uses. */
  const PI: real := 3.141592653589793
}
