/** The colour-selection mask of rgb_cube.py: the union of the tolerance masks
    of a list of swatches, and the colour-name check that precedes it. The
    darkening blend that `filter_color` applies with the mask is floating-point
    pixel arithmetic and is not modelled. */
module ColorMask {
  import opened Common
  import opened ColorRange
  import Palette

  /** The pixel matches at least one swatch of the list. */
  predicate MatchesAny(p: Bgr, values: seq<Rgba>, tol: int)
  {
    exists k :: 0 <= k < |values| && Near(p, values[k], tol)
  }

  /** `cv2.bitwise_or` of two masks of one shape. */
  function BitwiseOr(a: Mask, b: Mask): (m: Mask)
    requires SameShape(a, b)
    ensures SameShape(m, a)
    ensures forall i, j :: 0 <= i < |a| && 0 <= j < |a[i]| ==> (m[i][j] <==> a[i][j] || b[i][j])
  {
    seq(|a|, i requires 0 <= i < |a| =>
      seq(|a[i]|, j requires 0 <= j < |a[i]| => a[i][j] || b[i][j]))
  }

  /** `create_color_mask`: starts from `None`, takes the first swatch's mask and
      ORs in each later one. An empty swatch list gives `None`. */
  function CreateColorMask(img: Image, values: seq<Rgba>, tol: int): (m: Option<Mask>)
    ensures m.None? <==> |values| == 0
    ensures m.Some? ==> SameShape(m.value, img)
    ensures m.Some? ==> forall i, j :: 0 <= i < |img| && 0 <= j < |img[i]| ==>
                          (m.value[i][j] <==> MatchesAny(img[i][j], values, tol))
    decreases |values|
  {
    if |values| == 0 then None
    else
      var last := values[|values| - 1];
      var current := SwatchMask(img, last, tol);
      var prefix := values[..|values| - 1];
      assert forall p: Bgr :: MatchesAny(p, values, tol) <==> MatchesAny(p, prefix, tol) || Near(p, last, tol) by {
        forall p: Bgr
          ensures MatchesAny(p, values, tol) <==> MatchesAny(p, prefix, tol) || Near(p, last, tol)
        {
          if MatchesAny(p, prefix, tol) {
            var k :| 0 <= k < |prefix| && Near(p, prefix[k], tol);
            assert values[k] == prefix[k];
          }
          if MatchesAny(p, values, tol) && !Near(p, last, tol) {
            var k :| 0 <= k < |values| && Near(p, values[k], tol);
            assert k < |prefix| && prefix[k] == values[k];
          }
        }
      }
      match CreateColorMask(img, prefix, tol)
      case None => Some(current)
      case Some(combined) => Some(BitwiseOr(combined, current))
  }

  /** Building the mask by repeated OR makes it independent of the order of the
      swatch list and of repeated entries: only the set of swatches matters. */
  lemma MaskDependsOnlyOnSwatchSet(img: Image, a: seq<Rgba>, b: seq<Rgba>, tol: int)
    requires forall c :: c in a <==> c in b
    ensures CreateColorMask(img, a, tol) == CreateColorMask(img, b, tol)
  {
    HasMemberIffNonEmpty(a);
    HasMemberIffNonEmpty(b);
    if |a| > 0 {
      var ma := CreateColorMask(img, a, tol).value;
      var mb := CreateColorMask(img, b, tol).value;
      forall i, j | 0 <= i < |ma| && 0 <= j < |ma[i]|
        ensures ma[i][j] == mb[i][j]
      {
        var p := img[i][j];
        if MatchesAny(p, a, tol) {
          var k :| 0 <= k < |a| && Near(p, a[k], tol);
          assert a[k] in b;
          var k' :| 0 <= k' < |b| && b[k'] == a[k];
        }
        if MatchesAny(p, b, tol) {
          var k :| 0 <= k < |b| && Near(p, b[k], tol);
          assert b[k] in a;
          var k' :| 0 <= k' < |a| && a[k'] == b[k];
        }
      }
      MaskExtensionality(ma, mb);
    }
  }

  lemma HasMemberIffNonEmpty(s: seq<Rgba>)
    ensures |s| > 0 <==> exists c :: c in s
  {
    if |s| > 0 {
      assert s[0] in s;
    }
  }

  datatype FilterError =
    | InvalidColour     // `ValueError`: the name is not red, green or blue
    | ImageUnreadable   // the image could not be read, so no mask can be built

  /** `filter_color` up to its mask: the name is lowered and checked against the
      table first, then the mask of that colour's swatches is built. */
  function FilterColor(img: Option<Image>, colour: string): (r: Result<Mask, FilterError>)
    ensures r == Err(InvalidColour) <==> Palette.ParseColour(colour).None?
    ensures r == Err(ImageUnreadable) <==> Palette.ParseColour(colour).Some? && img.None?
    ensures r.Ok? ==> var c := Palette.ParseColour(colour).value;
                      && SameShape(r.value, img.value)
                      && forall i, j :: 0 <= i < |img.value| && 0 <= j < |img.value[i]| ==>
                           (r.value[i][j] <==> MatchesAny(img.value[i][j], Palette.Swatches(c), DefaultTolerance))
  {
    match Palette.ParseColour(colour)
    case None => Err(InvalidColour)
    case Some(c) =>
      if img.None? then Err(ImageUnreadable)
      else Ok(CreateColorMask(img.value, Palette.Swatches(c), DefaultTolerance).value)
  }
}
