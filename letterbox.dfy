/**
 * The letterbox window: the part of texture space, in UV coordinates, that the visualiser maps
 * onto the screen so that the medium keeps its aspect ratio inside a window of another shape.
 */
module Letterbox {

  /** Texture-coordinate bounds handed to the visualiser as u_min, u_max, v_min, v_max. */
  datatype UV = UV(uMin: real, uMax: real, vMin: real, vMax: real)

  /** Both axes are centred on 0.5. */
  predicate Centred(uv: UV)
  {
    uv.uMin + uv.uMax == 1.0 && uv.vMin + uv.vMax == 1.0
  }

  /** Every bound lies in [0, 1] and each interval is ordered. */
  predicate InUnitSquare(uv: UV)
  {
    0.0 <= uv.uMin <= uv.uMax <= 1.0 && 0.0 <= uv.vMin <= uv.vMax <= 1.0
  }

  predicate FullU(uv: UV)
  {
    uv.uMin == 0.0 && uv.uMax == 1.0
  }

  predicate FullV(uv: UV)
  {
    uv.vMin == 0.0 && uv.vMax == 1.0
  }

  /**
   * The bounds computed at start-up from the screen aspect (width / height of the window) and
   * the texture aspect: a window wider than the medium narrows u, any other narrows v.
   */
  function ContentUv(screenAspect: real, texAspect: real): (uv: UV)
    requires screenAspect > 0.0 && texAspect > 0.0
    ensures Centred(uv) && InUnitSquare(uv)
    ensures FullU(uv) <==> screenAspect <= texAspect
    ensures FullV(uv) <==> screenAspect >= texAspect
    ensures uv.vMax - uv.vMin > 0.0
    ensures (uv.uMax - uv.uMin) * screenAspect / (uv.vMax - uv.vMin) == texAspect
  {
    if screenAspect > texAspect then
      var contentWidth := texAspect / screenAspect;
      NarrowedAxis(texAspect, screenAspect, contentWidth);
      var uv := UV(0.5 - contentWidth / 2.0, 0.5 + contentWidth / 2.0, 0.0, 1.0);
      assert uv.uMax - uv.uMin == contentWidth && uv.vMax - uv.vMin == 1.0;
      uv
    else
      var contentHeight := screenAspect / texAspect;
      NarrowedAxis(screenAspect, texAspect, contentHeight);
      RatioOfRatio(screenAspect, texAspect, contentHeight);
      var uv := UV(0.0, 1.0, 0.5 - contentHeight / 2.0, 0.5 + contentHeight / 2.0);
      assert uv.uMax - uv.uMin == 1.0 && uv.vMax - uv.vMin == contentHeight;
      uv
  }

  /** The share a narrowed axis keeps: n / d of the full interval, with 0 < n / d <= 1. */
  lemma NarrowedAxis(n: real, d: real, share: real)
    requires 0.0 < n <= d && share == n / d
    ensures 0.0 < share <= 1.0
    ensures share == 1.0 <==> n == d
    ensures share * d == n
  {
  }

  /** Dividing s by the share s / t gives back t. */
  lemma RatioOfRatio(s: real, t: real, share: real)
    requires s > 0.0 && t > 0.0 && share == s / t
    ensures 1.0 * s / share == t
  {
    assert share * t == s;
  }

  /** Clearing a positive divisor. */
  lemma DivisionSolved(a: real, b: real, c: real)
    requires b > 0.0 && a / b == c
    ensures a == c * b
  {
  }

  /** s == t * h with t > 0 and 0 < h <= 1 forces s <= t and h == s / t. */
  lemma ScaledBelow(s: real, t: real, h: real)
    requires t > 0.0 && 0.0 < h <= 1.0 && s == t * h
    ensures s <= t && h == s / t
  {
    assert t * h <= t * 1.0;
  }

  /** An interval centred on 0.5 is determined by its length. */
  lemma CentredInterval(lo: real, hi: real, len: real)
    requires lo + hi == 1.0 && hi - lo == len
    ensures lo == 0.5 - len / 2.0 && hi == 0.5 + len / 2.0
  {
  }

  /**
   * The bounds are the only centred window inside the unit square that fills one axis and
   * preserves the texture aspect.
   */
  lemma ContentUvUnique(screenAspect: real, texAspect: real, uv: UV)
    requires screenAspect > 0.0 && texAspect > 0.0
    requires Centred(uv) && InUnitSquare(uv) && (FullU(uv) || FullV(uv))
    requires uv.vMax - uv.vMin > 0.0
    requires (uv.uMax - uv.uMin) * screenAspect / (uv.vMax - uv.vMin) == texAspect
    ensures uv == ContentUv(screenAspect, texAspect)
  {
    var height := uv.vMax - uv.vMin;
    var width := uv.uMax - uv.uMin;
    DivisionSolved(width * screenAspect, height, texAspect);
    if FullU(uv) {
      ScaledBelow(screenAspect, texAspect, height);
      CentredInterval(uv.vMin, uv.vMax, screenAspect / texAspect);
    } else {
      assert width * screenAspect == texAspect;
      ScaledBelow(texAspect, screenAspect, width);
      if screenAspect > texAspect {
        CentredInterval(uv.uMin, uv.uMax, texAspect / screenAspect);
      } else {
        // equal aspects: width would be 1, so u would be full after all
        assert false;
      }
    }
  }
}
