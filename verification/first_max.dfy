/** Selection of the first maximal element, as Python's `max(xs, key=k)` and
    NumPy's `argmax` do: both keep the earliest candidate when keys tie. */
module FirstMax {

  /** `i` is the first position holding a maximal value of `s`. */
  ghost predicate IsFirstMax(s: seq<real>, i: int)
  {
    && 0 <= i < |s|
    && (forall j :: 0 <= j < |s| ==> s[j] <= s[i])
    && (forall j :: 0 <= j < i ==> s[j] < s[i])
  }

  /** Scans left to right and replaces the candidate only on a strictly larger value. */
  function FirstMaxIndex(s: seq<real>): (i: nat)
    requires |s| > 0
    ensures IsFirstMax(s, i)
  {
    if |s| == 1 then 0
    else
      var k := FirstMaxIndex(s[..|s| - 1]);
      if s[|s| - 1] > s[k] then |s| - 1 else k
  }

  /** The first maximal position is unique, so the scan picks exactly it. */
  lemma FirstMaxIsUnique(s: seq<real>, i: int)
    requires |s| > 0
    ensures IsFirstMax(s, i) <==> i == FirstMaxIndex(s)
  {
  }
}
