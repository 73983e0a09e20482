/**
 * The absorbing border of the simulation domain: every cell within SIDE_DAMP_WIDTH of an edge
 * gets a damping coefficient that falls off quadratically from the edge inwards, and the
 * whole map is scaled by the timestep.
 */
module Damping {
  import opened Common

  /** The damping band width measured in cells: SIDE_DAMP_WIDTH / DX. */
  const BAND: real := SIDE_DAMP_WIDTH / DX

  /** Python's four-argument min. */
  function Min4(a: int, b: int, c: int, d: int): (m: int)
    ensures m <= a && m <= b && m <= c && m <= d
    ensures m == a || m == b || m == c || m == d
  {
    var ab := if a <= b then a else b;
    var cd := if c <= d then c else d;
    if ab <= cd then ab else cd
  }

  /** Distance in cells from cell (x, y) of a w-by-h grid to the nearest grid edge. */
  function BorderDist(w: nat, h: nat, x: nat, y: nat): (d: nat)
    requires x < w && y < h
    ensures d <= x && d <= w - 1 - x && d <= y && d <= h - 1 - y
    ensures d == x || d == w - 1 - x || d == y || d == h - 1 - y
  {
    Min4(x, w - 1 - x, y, h - 1 - y)
  }

  /** The coefficient a cell at border distance d receives before the scaling by DT. */
  function DampProfile(d: nat): real
  {
    if (d as real) < BAND then
      var q := 1.0 - d as real / BAND;
      SIDE_DAMP_MAX * (q * q)
    else
      0.0
  }

  /** The final damping map entry side_damp[y, x]. */
  function SideDampAt(w: nat, h: nat, x: nat, y: nat): real
    requires x < w && y < h
  {
    DampProfile(BorderDist(w, h, x, y)) * DT
  }

  /** The damping map as the texture it is uploaded to, row y holding side_damp[y, ..]. */
  function SideDampGrid(w: nat, h: nat): (g: Grid)
    ensures IsGrid(g, h, w)
  {
    seq(h, y requires 0 <= y < h =>
      seq(w, x requires 0 <= x < w => SideDampAt(w, h, x, y)))
  }

  lemma SquareMonotone(p: real, q: real)
    requires 0.0 <= p <= q
    ensures p * p <= q * q
  {
    calc {
      p * p;
    <= { assert p * (q - p) >= 0.0; }
      p * q;
    <= { assert q * (q - p) >= 0.0; }
      q * q;
    }
  }

  /**
   * The profile lies in [0, SIDE_DAMP_MAX], is positive exactly inside the band and takes its
   * maximum at the edge.
   */
  lemma ProfileRange(d: nat)
    ensures 0.0 <= DampProfile(d) <= SIDE_DAMP_MAX
    ensures DampProfile(d) > 0.0 <==> (d as real) < BAND
    ensures d == 0 ==> DampProfile(d) == SIDE_DAMP_MAX
  {
    if (d as real) < BAND {
      var q := 1.0 - d as real / BAND;
      // d is a whole number of cells, so q is at least one band step above 0
      assert q >= 1.0 / BAND;
      assert q * q >= q * (1.0 / BAND);
      SquareMonotone(q, 1.0);
    }
  }

  /** The profile never grows as the distance to the border grows. */
  lemma ProfileMonotone(d1: nat, d2: nat)
    requires d1 <= d2
    ensures DampProfile(d2) <= DampProfile(d1)
  {
    ProfileRange(d1);
    if (d2 as real) < BAND {
      var q1 := 1.0 - d1 as real / BAND;
      var q2 := 1.0 - d2 as real / BAND;
      SquareMonotone(q2, q1);
    }
  }

  /** Interior cells keep damping 0, and exactly the cells of the band are damped. */
  lemma SideDampZeroIff(w: nat, h: nat, x: nat, y: nat)
    requires x < w && y < h
    ensures SideDampAt(w, h, x, y) == 0.0 <==> (BorderDist(w, h, x, y) as real) >= BAND
  {
    ProfileRange(BorderDist(w, h, x, y));
  }

  /** Damping is non-negative, bounded by SIDE_DAMP_MAX * DT, and reaches that bound at the edge. */
  lemma SideDampBounds(w: nat, h: nat, x: nat, y: nat)
    requires x < w && y < h
    ensures 0.0 <= SideDampAt(w, h, x, y) <= SIDE_DAMP_MAX * DT
    ensures BorderDist(w, h, x, y) == 0 ==> SideDampAt(w, h, x, y) == SIDE_DAMP_MAX * DT
  {
    ProfileRange(BorderDist(w, h, x, y));
  }

  /** A cell at least as far from the border as another is damped at most as much. */
  lemma SideDampMonotone(w: nat, h: nat, x1: nat, y1: nat, x2: nat, y2: nat)
    requires x1 < w && y1 < h && x2 < w && y2 < h
    requires BorderDist(w, h, x1, y1) <= BorderDist(w, h, x2, y2)
    ensures SideDampAt(w, h, x2, y2) <= SideDampAt(w, h, x1, y1)
  {
    ProfileMonotone(BorderDist(w, h, x1, y1), BorderDist(w, h, x2, y2));
  }

  /** The map is mirror-symmetric left to right and top to bottom. */
  lemma SideDampSymmetric(w: nat, h: nat, x: nat, y: nat)
    requires x < w && y < h
    ensures SideDampAt(w, h, x, y) == SideDampAt(w, h, w - 1 - x, y)
    ensures SideDampAt(w, h, x, y) == SideDampAt(w, h, x, h - 1 - y)
  {
    assert BorderDist(w, h, x, y) == BorderDist(w, h, w - 1 - x, y);
    assert BorderDist(w, h, x, y) == BorderDist(w, h, x, h - 1 - y);
  }

  /**
   * init_textures' damping builder: a zero-filled h-by-w array, a column-by-column pass that
   * assigns the band cells only, then the whole array scaled by DT in place.
   */
  method BuildSideDamp(w: nat, h: nat) returns (sideDamp: array2<real>)
    ensures fresh(sideDamp)
    ensures sideDamp.Length0 == h && sideDamp.Length1 == w
    ensures forall y, x :: 0 <= y < h && 0 <= x < w ==> sideDamp[y, x] == SideDampAt(w, h, x, y)
  {
    sideDamp := new real[h, w]((_, _) => 0.0);
    for x := 0 to w
      invariant forall y', x' :: 0 <= y' < h && 0 <= x' < w ==>
        sideDamp[y', x'] == if x' < x then DampProfile(BorderDist(w, h, x', y')) else 0.0
    {
      for y := 0 to h
        invariant forall y', x' :: 0 <= y' < h && 0 <= x' < w ==>
          sideDamp[y', x'] ==
            if x' < x || (x' == x && y' < y) then DampProfile(BorderDist(w, h, x', y')) else 0.0
      {
        var dist := Min4(x, w - 1 - x, y, h - 1 - y);
        if (dist as real) < BAND {
          var q := 1.0 - dist as real / BAND;
          sideDamp[y, x] := SIDE_DAMP_MAX * (q * q);
        }
      }
    }
    forall y, x | 0 <= y < h && 0 <= x < w {
      sideDamp[y, x] := sideDamp[y, x] * DT;
    }
  }
}
