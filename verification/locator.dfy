/** The pick-zone locator (`VisionBasedSorter.get_object_position` in main.py).

    Contour search and image moments are OpenCV results and arrive as inputs;
    Python floats are modelled as exact reals. */
module Locator {
  import FirstMax

  type PosInt = n: int | n > 0 witness 1

  /** An external contour as OpenCV reports it: its area and its raw moments. */
  datatype Contour = Contour(area: real, m00: real, m10: real, m01: real)

  /** The `(x, y, z, is_in_pick_zone)` tuple the locator returns. */
  datatype PickTarget = PickTarget(x: real, y: real, z: real, inPickZone: bool)

  /** Half-width of the pick zone, in pixels. */
  const PickZoneMargin: real := 50.0
  /** Fixed arm X and Z for picking. */
  const PickX: real := 200.0
  const PickZ: real := 50.0
  /** Lateral extent of the arm workspace the frame width is mapped onto. */
  const WorkspaceWidth: real := 400.0

  /** Returned when no usable object is in view. */
  const NotFound := PickTarget(0.0, 0.0, 0.0, false)

  function Abs(r: real): real { if r < 0.0 then -r else r }

  /** Python's `int(x)` on a float: rounds toward zero. */
  function Trunc(q: real): (n: int)
    ensures Abs(n as real) <= Abs(q) < Abs(n as real) + 1.0
    ensures (n > 0 ==> q > 0.0) && (n < 0 ==> q < 0.0)
  {
    if q >= 0.0 then q.Floor else -((-q).Floor)
  }

  function Areas(cs: seq<Contour>): (areas: seq<real>)
    ensures |areas| == |cs| && forall i :: 0 <= i < |cs| ==> areas[i] == cs[i].area
  {
    seq(|cs|, i requires 0 <= i < |cs| => cs[i].area)
  }

  /** `max(contours, key=cv2.contourArea)`: the first contour of maximal area. */
  function LargestContour(cs: seq<Contour>): (i: nat)
    requires |cs| > 0
    ensures FirstMax.IsFirstMax(Areas(cs), i)
  {
    FirstMax.FirstMaxIndex(Areas(cs))
  }

  /** Horizontal distance of a centroid column from the frame centre. */
  function Offset(cx: int, width: PosInt): real
  {
    cx as real - width as real / 2.0
  }

  /** Centroid column from the moments, truncated as `int(m10 / m00)` does. */
  function CentroidX(c: Contour): int
    requires c.m00 != 0.0
  {
    Trunc(c.m10 / c.m00)
  }

  function GetObjectPosition(width: PosInt, contours: seq<Contour>): (t: PickTarget)
    ensures |contours| == 0 ==> t == NotFound
    ensures |contours| > 0 && contours[LargestContour(contours)].m00 == 0.0 ==> t == NotFound
    ensures |contours| > 0 && contours[LargestContour(contours)].m00 != 0.0 ==>
              var off := Offset(CentroidX(contours[LargestContour(contours)]), width);
              && t.x == PickX && t.z == PickZ
              && (t.inPickZone <==> -PickZoneMargin < off < PickZoneMargin)
              && t.y * (width as real) == off * WorkspaceWidth
  {
    if |contours| == 0 then NotFound
    else
      var c := contours[LargestContour(contours)];
      if c.m00 == 0.0 then NotFound
      else
        var cx := CentroidX(c);
        var centerX := width as real / 2.0;
        var inZone := Abs(cx as real - centerX) < PickZoneMargin;
        var robotY := ((cx as real - centerX) / width as real) * WorkspaceWidth;
        PickTarget(PickX, robotY, PickZ, inZone)
  }

  /** A contour list whose largest contour has a non-zero zeroth moment. */
  predicate Located(contours: seq<Contour>)
  {
    |contours| > 0 && contours[LargestContour(contours)].m00 != 0.0
  }

  /** The mapped lateral coordinate: zero at the frame centre, the sign of the
      offset elsewhere, and within half the workspace for a centroid inside the frame. */
  lemma LateralMapping(width: PosInt, contours: seq<Contour>)
    requires Located(contours)
    ensures var cx := CentroidX(contours[LargestContour(contours)]);
            var t := GetObjectPosition(width, contours);
            && (t.y == 0.0 <==> Offset(cx, width) == 0.0)
            && (t.y > 0.0 <==> Offset(cx, width) > 0.0)
            && (0 <= cx <= width ==> -WorkspaceWidth / 2.0 <= t.y <= WorkspaceWidth / 2.0)
  {
    var cx := CentroidX(contours[LargestContour(contours)]);
    var t := GetObjectPosition(width, contours);
    var w := width as real;
    var off := Offset(cx, width);
    assert t.y == (off / w) * WorkspaceWidth;
    if 0 <= cx <= width {
      assert -w / 2.0 <= off <= w / 2.0;
      HalfRatio(off, w);
    }
  }

  /** An offset of at most half the width, divided by the width, is at most one half. */
  lemma HalfRatio(off: real, w: real)
    requires w > 0.0 && -w / 2.0 <= off <= w / 2.0
    ensures -0.5 <= off / w <= 0.5
  {
  }

  /** The pick-zone bound is strict: an offset of exactly the margin is outside,
      one pixel less is inside. */
  lemma PickZoneBoundaryIsStrict(width: PosInt, contours: seq<Contour>)
    requires Located(contours)
    ensures var off := Offset(CentroidX(contours[LargestContour(contours)]), width);
            (off == 50.0 || off == -50.0) ==> !GetObjectPosition(width, contours).inPickZone
    ensures var off := Offset(CentroidX(contours[LargestContour(contours)]), width);
            (off == 49.0 || off == -49.0) ==> GetObjectPosition(width, contours).inPickZone
  {
  }
}
