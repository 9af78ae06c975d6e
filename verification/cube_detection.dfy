/** Cube detection of detect_cubes.py: a colour counts as present when one of
    its swatches alone matches more than a hundred pixels, and the detected
    colours are listed in the colour table's order. */
module CubeDetection {
  import opened Common
  import opened ColorRange
  import opened Palette
  import ColorMask

  /** A swatch must match strictly more pixels than this. */
  const MinPixels: nat := 100

  /** `cv2.countNonZero` on one mask row. */
  function CountRow(row: seq<bool>): nat
    decreases |row|
  {
    if |row| == 0 then 0 else (if row[0] then 1 else 0) + CountRow(row[1..])
  }

  /** `cv2.countNonZero` on a whole mask. */
  function CountNonZero(m: Mask): nat
    decreases |m|
  {
    if |m| == 0 then 0 else CountRow(m[0]) + CountNonZero(m[1..])
  }

  /** Reference meaning of `detect_color_cube`: some single swatch of the list
      matches more than `MinPixels` pixels on its own. */
  predicate CubePresent(img: Image, values: seq<Rgba>, tol: int)
  {
    exists k :: 0 <= k < |values| && CountNonZero(SwatchMask(img, values[k], tol)) > MinPixels
  }

  /** `detect_color_cube`: tries the swatches in order and stops at the first
      whose mask has more than `MinPixels` pixels set. */
  method DetectColorCube(img: Image, values: seq<Rgba>, tol: int) returns (found: bool)
    ensures found <==> CubePresent(img, values, tol)
    ensures |values| == 0 ==> !found
  {
    var k := 0;
    while k < |values|
      invariant 0 <= k <= |values|
      invariant forall j :: 0 <= j < k ==> CountNonZero(SwatchMask(img, values[j], tol)) <= MinPixels
    {
      var mask := RangeMask(img, Bounds(values[k], tol));
      if CountNonZero(mask) > MinPixels {
        return true;
      }
      k := k + 1;
    }
    return false;
  }

  datatype CubeError = ImageUnreadable   // `ValueError`: the image could not be read

  /** `detect_cubes`: an unreadable image is an error before any colour is
      tried; otherwise each colour of the table is tried in order and appended
      when detected. */
  method DetectCubes(img: Option<Image>) returns (r: Result<seq<Colour>, CubeError>)
    ensures r.Err? <==> img.None?
    ensures r.Ok? ==> forall i, j :: 0 <= i < j < |r.value| ==> Rank(r.value[i]) < Rank(r.value[j])
    ensures r.Ok? ==> forall c :: c in r.value <==> CubePresent(img.value, Swatches(c), DefaultTolerance)
  {
    if img.None? {
      return Err(ImageUnreadable);
    }
    var detected := DetectInTableOrder(img.value);
    return Ok(detected);
  }

  /** The loop of `detect_cubes` over the colour table. */
  method DetectInTableOrder(img: Image) returns (detected: seq<Colour>)
    ensures forall i, j :: 0 <= i < j < |detected| ==> Rank(detected[i]) < Rank(detected[j])
    ensures forall c :: c in detected <==> CubePresent(img, Swatches(c), DefaultTolerance)
  {
    ghost var present := seq(|TableOrder|, i requires 0 <= i < |TableOrder| =>
      CubePresent(img, Swatches(TableOrder[i]), DefaultTolerance));
    detected := [];
    var k := 0;
    while k < |TableOrder|
      invariant 0 <= k <= |TableOrder|
      invariant forall i :: 0 <= i < |detected| ==> Rank(detected[i]) < k
      invariant forall i, j :: 0 <= i < j < |detected| ==> Rank(detected[i]) < Rank(detected[j])
      invariant forall c :: c in detected <==> Rank(c) < k && present[Rank(c)]
    {
      var c := TableOrder[k];
      assert Rank(c) == k;
      var found := DetectColorCube(img, Swatches(c), DefaultTolerance);
      assert found == present[k];
      if found {
        detected := detected + [c];
      }
      k := k + 1;
    }
    assert forall c :: present[Rank(c)] == CubePresent(img, Swatches(c), DefaultTolerance);
  }

  /** The threshold is strict: a lone swatch matching exactly `MinPixels` pixels is not detected. */
  lemma ExactlyHundredIsNotDetected(img: Image, c: Rgba, tol: int)
    requires CountNonZero(SwatchMask(img, c, tol)) == 100
    ensures !CubePresent(img, [c], tol)
  {
  }

  lemma {:induction false} CountRowAppend(a: seq<bool>, b: seq<bool>)
    ensures CountRow(a + b) == CountRow(a) + CountRow(b)
    decreases |a|
  {
    if |a| == 0 {
      assert a + b == b;
    } else {
      assert (a + b)[0] == a[0];
      assert (a + b)[1..] == a[1..] + b;
      CountRowAppend(a[1..], b);
    }
  }

  /** A mask whose pixels are each also set in a second mask has no more pixels set. */
  lemma {:induction false} CountRowMonotone(a: seq<bool>, b: seq<bool>)
    requires |a| == |b| && forall j :: 0 <= j < |a| && a[j] ==> b[j]
    ensures CountRow(a) <= CountRow(b)
    decreases |a|
  {
    if |a| > 0 {
      CountRowMonotone(a[1..], b[1..]);
    }
  }

  lemma {:induction false} CountMonotone(a: Mask, b: Mask)
    requires SameShape(a, b)
    requires forall i, j :: 0 <= i < |a| && 0 <= j < |a[i]| && a[i][j] ==> b[i][j]
    ensures CountNonZero(a) <= CountNonZero(b)
    decreases |a|
  {
    if |a| > 0 {
      CountRowMonotone(a[0], b[0]);
      assert forall i, j :: 0 <= i < |a[1..]| && 0 <= j < |a[1..][i]| && a[1..][i][j] ==> b[1..][i][j] by {
        forall i, j | 0 <= i < |a[1..]| && 0 <= j < |a[1..][i]| && a[1..][i][j]
          ensures b[1..][i][j]
        {
          assert a[1..][i] == a[i + 1] && b[1..][i] == b[i + 1];
        }
      }
      CountMonotone(a[1..], b[1..]);
    }
  }

  /** A detected colour is also visible in the union mask of rgb_cube.py: the
      union has at least as many pixels set as any one swatch's mask. */
  lemma DetectedImpliesUnionLarge(img: Image, values: seq<Rgba>, tol: int)
    requires CubePresent(img, values, tol)
    ensures ColorMask.CreateColorMask(img, values, tol).Some?
    ensures CountNonZero(ColorMask.CreateColorMask(img, values, tol).value) > MinPixels
  {
    var k :| 0 <= k < |values| && CountNonZero(SwatchMask(img, values[k], tol)) > MinPixels;
    var single := SwatchMask(img, values[k], tol);
    var union := ColorMask.CreateColorMask(img, values, tol).value;
    forall i, j | 0 <= i < |single| && 0 <= j < |single[i]| && single[i][j]
      ensures union[i][j]
    {
      assert Near(img[i][j], values[k], tol);
    }
    CountMonotone(single, union);
  }

  lemma {:induction false} CountRowConstant(n: nat, v: bool)
    ensures CountRow(seq(n, _ => v)) == if v then n else 0
    decreases n
  {
    if n > 0 {
      assert seq(n, _ => v)[1..] == seq(n - 1, _ => v);
      CountRowConstant(n - 1, v);
    }
  }

  /** Counts are taken per swatch, not over the union: an image with 60 pixels
      of a red swatch and 60 of a green swatch has 120 pixels in the union mask,
      yet neither swatch reaches the threshold, so nothing is detected. */
  lemma PerSwatchNotUnion()
    ensures var red := Rgba(143, 36, 38, 255);
            var green := Rgba(17, 124, 84, 255);
            var img := [seq(60, _ => Bgr(38, 36, 143)) + seq(60, _ => Bgr(84, 124, 17))];
            && !CubePresent(img, [red, green], DefaultTolerance)
            && CountNonZero(ColorMask.CreateColorMask(img, [red, green], DefaultTolerance).value) > MinPixels
  {
    var red := Rgba(143, 36, 38, 255);
    var green := Rgba(17, 124, 84, 255);
    HalfMasks();
    assert [red, green][0] == red && [red, green][1] == green;
    HalvesUnion();
  }

  /** The image of `PerSwatchNotUnion`: one row, 60 red pixels then 60 green ones. */
  function Halves(): Image
  {
    [seq(60, _ => Bgr(38, 36, 143)) + seq(60, _ => Bgr(84, 124, 17))]
  }

  /** Each swatch matches one half of `Halves`, 60 pixels. */
  lemma HalfMasks()
    ensures CountNonZero(SwatchMask(Halves(), Rgba(143, 36, 38, 255), DefaultTolerance)) == 60
    ensures CountNonZero(SwatchMask(Halves(), Rgba(17, 124, 84, 255), DefaultTolerance)) == 60
  {
    var row := Halves()[0];
    var ones := seq(60, _ => true);
    var zeros := seq(60, _ => false);
    CountRowConstant(60, true);
    CountRowConstant(60, false);
    CountRowAppend(ones, zeros);
    CountRowAppend(zeros, ones);
    var redMask := SwatchMask(Halves(), Rgba(143, 36, 38, 255), DefaultTolerance);
    assert redMask[0] == ones + zeros by {
      forall j | 0 <= j < 120
        ensures redMask[0][j] == (ones + zeros)[j]
      {
        assert j < 60 ==> row[j] == Bgr(38, 36, 143);
        assert j >= 60 ==> row[j] == Bgr(84, 124, 17);
      }
    }
    assert redMask[1..] == [];
    var greenMask := SwatchMask(Halves(), Rgba(17, 124, 84, 255), DefaultTolerance);
    assert greenMask[0] == zeros + ones by {
      forall j | 0 <= j < 120
        ensures greenMask[0][j] == (zeros + ones)[j]
      {
        assert j < 60 ==> row[j] == Bgr(38, 36, 143);
        assert j >= 60 ==> row[j] == Bgr(84, 124, 17);
      }
    }
    assert greenMask[1..] == [];
  }

  /** Every pixel of `Halves` is in the union mask of the two swatches. */
  lemma HalvesUnion()
    ensures var union := ColorMask.CreateColorMask(Halves(), [Rgba(143, 36, 38, 255), Rgba(17, 124, 84, 255)], DefaultTolerance);
            union.Some? && CountNonZero(union.value) == 120
  {
    var values := [Rgba(143, 36, 38, 255), Rgba(17, 124, 84, 255)];
    var row := Halves()[0];
    var union := ColorMask.CreateColorMask(Halves(), values, DefaultTolerance).value;
    CountRowConstant(120, true);
    assert union[0] == seq(120, _ => true) by {
      forall j | 0 <= j < 120
        ensures union[0][j]
      {
        if j < 60 {
          assert row[j] == Bgr(38, 36, 143) && Near(row[j], values[0], DefaultTolerance);
        } else {
          assert row[j] == Bgr(84, 124, 17) && Near(row[j], values[1], DefaultTolerance);
        }
      }
    }
    assert union[1..] == [];
  }
}
