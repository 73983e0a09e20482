/**
 * The medium derived once from the terrain image: the image is flipped top to bottom, its
 * blue channel scaled to [0, 1] gives the wave speed, its green channel scaled to [0, 1] gives
 * the source mask, and the two field generations start as all-zero grids.
 */
module Terrain {
  import opened Common

  /** One pixel as the image decoder delivers it, in blue-green-red order. */
  datatype Pixel = Pixel(b: byte, g: byte, r: byte)

  /** A decoded image: rows of pixels, top row first. */
  type Image = seq<seq<Pixel>>

  /** The colour channel a map is derived from. */
  datatype Channel = Blue | Green | Red

  /** A decoded image is a non-empty rectangle of pixels. */
  predicate WellFormed(img: Image)
  {
    |img| > 0 && |img[0]| > 0 && forall y :: 0 <= y < |img| ==> |img[y]| == |img[0]|
  }

  function Height(img: Image): nat
  {
    |img|
  }

  function Width(img: Image): nat
    requires WellFormed(img)
  {
    |img[0]|
  }

  /** The reversed-rows view img[::-1]: row y of the result is row h-1-y of img. */
  function FlipY(img: Image): (r: Image)
    ensures |r| == |img|
  {
    seq(|img|, y requires 0 <= y < |img| => img[|img| - 1 - y])
  }

  function ChannelOf(p: Pixel, ch: Channel): byte
  {
    match ch
    case Blue => p.b
    case Green => p.g
    case Red => p.r
  }

  /** A channel byte scaled to a real: byte / 255. */
  function Normalize(v: byte): (r: real)
    ensures 0.0 <= r <= 1.0
    ensures r == 0.0 <==> v == 0
    ensures r == 1.0 <==> v == 255
  {
    v as real / 255.0
  }

  /** One channel of a well-formed image, scaled to [0, 1], as a grid of the same shape. */
  function NormalizedChannel(img: Image, ch: Channel): (g: Grid)
    requires WellFormed(img)
    ensures IsGrid(g, Height(img), Width(img))
  {
    seq(Height(img), y requires 0 <= y < Height(img) =>
      seq(Width(img), x requires 0 <= x < Width(img) => Normalize(ChannelOf(img[y][x], ch))))
  }

  /** The wave-speed map: blue channel of the flipped image over 255. */
  function WaveSpeedMap(terrain: Image): Grid
    requires WellFormed(terrain)
  {
    FlipWellFormed(terrain);
    NormalizedChannel(FlipY(terrain), Blue)
  }

  /** The source mask: green channel of the flipped image over 255. */
  function SourceMaskMap(terrain: Image): Grid
    requires WellFormed(terrain)
  {
    FlipWellFormed(terrain);
    NormalizedChannel(FlipY(terrain), Green)
  }

  /** An all-zero h-by-w grid, the initial content of both field generations. */
  function ZeroGrid(h: nat, w: nat): (g: Grid)
    ensures IsGrid(g, h, w)
  {
    seq(h, _ => seq(w, _ => 0.0))
  }

  /** Flipping keeps an image rectangular and of the same size. */
  lemma FlipWellFormed(img: Image)
    requires WellFormed(img)
    ensures WellFormed(FlipY(img))
    ensures Height(FlipY(img)) == Height(img) && Width(FlipY(img)) == Width(img)
  {
  }

  /** Flipping twice gives back the original image. */
  lemma FlipInvolution(img: Image)
    ensures FlipY(FlipY(img)) == img
  {
  }

  /** Scaling by 1/255 keeps the order of channel values, so it loses nothing. */
  lemma NormalizeOrder(u: byte, v: byte)
    ensures u <= v <==> Normalize(u) <= Normalize(v)
    ensures u == v <==> Normalize(u) == Normalize(v)
  {
  }

  /**
   * Row y of both maps comes from row h-1-y of the image: each cell is that pixel's blue (speed)
   * or green (mask) byte over 255, and so lies in [0, 1].
   */
  lemma MediumMapsAt(terrain: Image, x: nat, y: nat)
    requires WellFormed(terrain)
    requires x < Width(terrain) && y < Height(terrain)
    ensures IsGrid(WaveSpeedMap(terrain), Height(terrain), Width(terrain))
    ensures IsGrid(SourceMaskMap(terrain), Height(terrain), Width(terrain))
    ensures WaveSpeedMap(terrain)[y][x] == Normalize(terrain[Height(terrain) - 1 - y][x].b)
    ensures SourceMaskMap(terrain)[y][x] == Normalize(terrain[Height(terrain) - 1 - y][x].g)
    ensures 0.0 <= WaveSpeedMap(terrain)[y][x] <= 1.0
    ensures 0.0 <= SourceMaskMap(terrain)[y][x] <= 1.0
  {
    FlipWellFormed(terrain);
  }

  /** Every cell of a zero grid is exactly 0. */
  lemma ZeroGridAt(h: nat, w: nat, x: nat, y: nat)
    requires x < w && y < h
    ensures ZeroGrid(h, w)[y][x] == 0.0
  {
  }
}
