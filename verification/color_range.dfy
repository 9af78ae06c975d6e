/** Colour tolerance ranges shared by rgb_cube.py and detect_cubes.py: an RGBA
    swatch is reordered into OpenCV's B, G, R channel order, widened by a
    tolerance and clamped to the 8-bit range, and a pixel matches when every
    channel lies inside the inclusive bounds (`cv2.inRange`). */
module ColorRange {

  type Byte = x: int | 0 <= x < 256

  /** An 8-bit image pixel in OpenCV's channel order. */
  datatype Bgr = Bgr(b: Byte, g: Byte, r: Byte)

  /** A colour swatch as written in the colour tables: red, green, blue, alpha. */
  datatype Rgba = Rgba(r: int, g: int, b: int, a: int)

  /** Three per-channel numbers in B, G, R order. */
  datatype Triple = Triple(b: int, g: int, r: int)

  /** Inclusive per-channel bounds. */
  datatype Range = Range(lower: Triple, upper: Triple)

  /** A grid of pixels, row by row. */
  type Image = seq<seq<Bgr>>

  /** A grid of on/off mask pixels (255 or 0 in OpenCV). */
  type Mask = seq<seq<bool>>

  const DefaultTolerance: int := 15

  predicate SameShape<T, U>(m: seq<seq<T>>, img: seq<seq<U>>)
  {
    |m| == |img| && forall i :: 0 <= i < |img| ==> |m[i]| == |img[i]|
  }

  /** `(rgb[2], rgb[1], rgb[0])`: the swatch's channels in B, G, R order. */
  function ToBgr(c: Rgba): Triple
  {
    Triple(c.b, c.g, c.r)
  }

  /** `max(0, v - tol)`. */
  function Lower(v: int, tol: int): (lo: int)
    ensures 0 <= lo
    ensures lo == 0 || lo == v - tol
    ensures v - tol <= lo
    ensures 0 <= v <= 255 && 0 <= tol ==> lo <= v
  {
    if v - tol > 0 then v - tol else 0
  }

  /** `min(255, v + tol)`. */
  function Upper(v: int, tol: int): (hi: int)
    ensures hi <= 255
    ensures hi == 255 || hi == v + tol
    ensures hi <= v + tol
    ensures 0 <= v <= 255 && 0 <= tol ==> v <= hi
  {
    if v + tol < 255 then v + tol else 255
  }

  /** The clamped tolerance range around a swatch, in B, G, R order. */
  function Bounds(c: Rgba, tol: int): (rng: Range)
    ensures var t := ToBgr(c);
            0 <= t.b <= 255 && 0 <= t.g <= 255 && 0 <= t.r <= 255 && 0 <= tol ==>
              && 0 <= rng.lower.b <= t.b <= rng.upper.b <= 255
              && 0 <= rng.lower.g <= t.g <= rng.upper.g <= 255
              && 0 <= rng.lower.r <= t.r <= rng.upper.r <= 255
  {
    var t := ToBgr(c);
    Range(Triple(Lower(t.b, tol), Lower(t.g, tol), Lower(t.r, tol)),
          Triple(Upper(t.b, tol), Upper(t.g, tol), Upper(t.r, tol)))
  }

  /** `cv2.inRange` on one pixel: every channel within its inclusive bounds. */
  predicate InRange(p: Bgr, rng: Range)
  {
    && rng.lower.b <= p.b <= rng.upper.b
    && rng.lower.g <= p.g <= rng.upper.g
    && rng.lower.r <= p.r <= rng.upper.r
  }

  /** Reference meaning of a match: the pixel's blue channel is within `tol` of
      the swatch's blue component, and likewise for green and red. */
  predicate Near(p: Bgr, c: Rgba, tol: int)
  {
    && c.b - tol <= p.b <= c.b + tol
    && c.g - tol <= p.g <= c.g + tol
    && c.r - tol <= p.r <= c.r + tol
  }

  /** Clamping never changes which 8-bit pixels match, and the alpha component
      plays no part. */
  lemma InRangeIsNear(p: Bgr, c: Rgba, tol: int)
    ensures InRange(p, Bounds(c, tol)) <==> Near(p, c, tol)
    ensures forall alpha :: Bounds(c, tol) == Bounds(c.(a := alpha), tol)
  {
  }

  /** `cv2.inRange` over a whole image. */
  function RangeMask(img: Image, rng: Range): (m: Mask)
    ensures SameShape(m, img)
    ensures forall i, j :: 0 <= i < |img| && 0 <= j < |img[i]| ==> (m[i][j] <==> InRange(img[i][j], rng))
  {
    seq(|img|, i requires 0 <= i < |img| =>
      seq(|img[i]|, j requires 0 <= j < |img[i]| => InRange(img[i][j], rng)))
  }

  /** The mask of pixels matching one swatch within the tolerance. */
  function SwatchMask(img: Image, c: Rgba, tol: int): (m: Mask)
    ensures SameShape(m, img)
    ensures forall i, j :: 0 <= i < |img| && 0 <= j < |img[i]| ==> (m[i][j] <==> Near(img[i][j], c, tol))
  {
    var m := RangeMask(img, Bounds(c, tol));
    assert forall i, j :: 0 <= i < |img| && 0 <= j < |img[i]| ==>
      (InRange(img[i][j], Bounds(c, tol)) <==> Near(img[i][j], c, tol));
    m
  }

  /** Two masks of the same shape that agree on every pixel are the same mask. */
  lemma MaskExtensionality(m1: Mask, m2: Mask)
    requires SameShape(m1, m2)
    requires forall i, j :: 0 <= i < |m1| && 0 <= j < |m1[i]| ==> m1[i][j] == m2[i][j]
    ensures m1 == m2
  {
    forall i | 0 <= i < |m1|
      ensures m1[i] == m2[i]
    {
      assert forall j :: 0 <= j < |m1[i]| ==> m1[i][j] == m2[i][j];
    }
  }
}
