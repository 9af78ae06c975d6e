/** The colour table of the cube images (`color_values` in rgb_cube.py and in
    detect_cubes.py, which hold the same entries) and colour-name validation. */
module Palette {
  import opened Common
  import opened ColorRange

  datatype Colour = Red | Green | Blue

  /** The table's keys in insertion order, which is also its iteration order. */
  const TableOrder: seq<Colour> := [Red, Green, Blue]

  function Name(c: Colour): string
  {
    match c
    case Red => "red"
    case Green => "green"
    case Blue => "blue"
  }

  /** Position of a colour in the table. */
  function Rank(c: Colour): (k: nat)
    ensures k < |TableOrder| && TableOrder[k] == c
  {
    match c
    case Red => 0
    case Green => 1
    case Blue => 2
  }

  /** A fully opaque swatch whose colour channels fit in 8 bits. */
  predicate Opaque8Bit(v: Rgba)
  {
    0 <= v.r <= 255 && 0 <= v.g <= 255 && 0 <= v.b <= 255 && v.a == 255
  }

  /** The two measured swatches of each cube colour. */
  function Swatches(c: Colour): (vs: seq<Rgba>)
    ensures |vs| == 2 && vs[0] != vs[1]
    ensures Opaque8Bit(vs[0]) && Opaque8Bit(vs[1])
  {
    match c
    case Red => [Rgba(143, 36, 38, 255), Rgba(153, 43, 44, 255)]
    case Green => [Rgba(17, 124, 84, 255), Rgba(30, 128, 89, 255)]
    case Blue => [Rgba(35, 74, 134, 255), Rgba(35, 75, 134, 255)]
  }

  /** At the default tolerance no pixel matches a swatch of two different
      colours: the three colour masks never overlap. */
  lemma SwatchesSeparated(c: Colour, d: Colour, p: Bgr)
    requires c != d
    ensures forall v, w :: v in Swatches(c) && w in Swatches(d) ==>
              !(Near(p, v, DefaultTolerance) && Near(p, w, DefaultTolerance))
  {
  }

  /** `str.lower` on the ASCII letters; other characters are kept. */
  function ToLower(s: string): (t: string)
    ensures |t| == |s|
    ensures forall i :: 0 <= i < |s| ==> if 'A' <= s[i] <= 'Z' then t[i] as int == s[i] as int + 32 else t[i] == s[i]
  {
    if |s| == 0 then ""
    else
      var ch := s[0];
      var lowered := if 'A' <= ch <= 'Z' then (ch as int + 32) as char else ch;
      [lowered] + ToLower(s[1..])
  }

  /** The table lookup after lowering the name: a colour, or none when the
      lowered name is not a key of the table. */
  function ParseColour(name: string): (c: Option<Colour>)
    ensures c.Some? <==> ToLower(name) in {"red", "green", "blue"}
    ensures c.Some? ==> Name(c.value) == ToLower(name)
  {
    var key := ToLower(name);
    if key == "red" then Some(Red)
    else if key == "green" then Some(Green)
    else if key == "blue" then Some(Blue)
    else None
  }

  /** Upper- and mixed-case spellings are accepted. */
  lemma ParseIgnoresCase()
    ensures ParseColour("RED") == Some(Red)
    ensures ParseColour("Green") == Some(Green)
    ensures ParseColour("purple") == None
  {
  }
}
