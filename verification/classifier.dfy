/** The biscuit condition classifier (`BiscuitDefectDetector` in main.py).

    The OpenCV pipeline (grey conversion, blur, histogram, threshold, contour
    search) is not modelled; its results arrive as a `Scene`. */
module Classifier {
  import FirstMax

  /** Condition labels. `Unknown` is the placeholder the result is created with
      before the decision tree runs; the tree always overwrites it. */
  datatype Status = Unknown | Good | Broken | SemiBurned | FullyBurned

  /** One row of the declared threshold table. */
  datatype Threshold = Threshold(gray: (int, int), intensityRange: (int, int), peakIntensity: int)

  /** The declared threshold table. Only three of its numbers are read by the
      decision tree: good's intensity range and the peaks of the two burn levels. */
  const Thresholds: map<Status, Threshold> :=
    map[
      Good := Threshold((68, 180), (100, 180), 150),
      Broken := Threshold((0, 255), (10, 180), 160),
      SemiBurned := Threshold((0, 255), (0, 210), 100),
      FullyBurned := Threshold((1, 255), (0, 150), 45)
    ]

  /** What the detector reports besides the label. */
  datatype Metrics = Metrics(peakIntensity: int, intensityRange: (int, int), area: real)

  /** The detector's dictionary: either only a `no_biscuit_detected` status, or a
      status with a confidence and metrics. */
  datatype Detection =
    | NoBiscuitDetected
    | Assessed(status: Status, confidence: real, metrics: Metrics)

  /** A 256-bin grey-level histogram. */
  type Histogram = h: seq<real> | |h| == 256 witness seq(256, _ => 0.0)

  /** What OpenCV extracts from the blurred grey image: the histogram, the
      minimum and maximum grey level, and the areas of the external contours in
      discovery order. */
  datatype Scene = Scene(histogram: Histogram, minIntensity: int, maxIntensity: int, contourAreas: seq<real>)

  /** The histogram peak: the first bin holding the largest count. */
  function PeakIntensity(h: Histogram): (peak: int)
    ensures FirstMax.IsFirstMax(h, peak)
  {
    FirstMax.FirstMaxIndex(h)
  }

  /** Reference partition of the grey axis into disjoint bands, written
      independently of the ordered decision tree. */
  function BandStatus(peak: int): Status
  {
    if peak < 46 then FullyBurned
    else if peak < 100 then SemiBurned
    else if peak < 181 then Good
    else Broken
  }

  /** Confidence attached to each band. */
  function BandConfidence(peak: int): real
  {
    if peak < 46 then 0.85
    else if peak < 100 then 0.8
    else if peak < 181 then 0.9
    else 0.75
  }

  /** The ordered if/elif chain: `good`'s range is tested first, then the
      fully-burned and semi-burned peaks, and everything else is `broken`. */
  function Classify(peak: int, intensityRange: (int, int), areas: seq<real>): (d: Detection)
    ensures d.NoBiscuitDetected? <==> |areas| == 0
    ensures d.Assessed? ==> d.status == BandStatus(peak) && d.confidence == BandConfidence(peak)
    ensures d.Assessed? ==> d.status != Unknown && d.status in Thresholds
    ensures d.Assessed? ==> 0.0 < d.confidence <= 1.0
    ensures d.Assessed? ==> d.metrics.peakIntensity == peak && d.metrics.intensityRange == intensityRange
    ensures d.Assessed? ==> d.metrics.area in areas
    ensures d.Assessed? ==> forall a :: a in areas ==> a <= d.metrics.area
  {
    if |areas| == 0 then NoBiscuitDetected
    else
      var area := areas[FirstMax.FirstMaxIndex(areas)];
      var metrics := Metrics(peak, intensityRange, area);
      var good := Thresholds[Good].intensityRange;
      if good.0 <= peak <= good.1 then Assessed(Good, 0.9, metrics)
      else if peak <= Thresholds[FullyBurned].peakIntensity then Assessed(FullyBurned, 0.85, metrics)
      else if peak <= Thresholds[SemiBurned].peakIntensity then Assessed(SemiBurned, 0.8, metrics)
      else Assessed(Broken, 0.75, metrics)
  }

  /** The detector as a whole: the histogram peak feeds the decision tree. */
  function DetectDefects(scene: Scene): (d: Detection)
    ensures d.NoBiscuitDetected? <==> |scene.contourAreas| == 0
    ensures d.Assessed? ==> d.status != Unknown && d.status in Thresholds
    ensures d.Assessed? ==> FirstMax.IsFirstMax(scene.histogram, d.metrics.peakIntensity)
    ensures d.Assessed? ==> d.status == BandStatus(d.metrics.peakIntensity)
    ensures d.Assessed? ==> d.confidence == BandConfidence(d.metrics.peakIntensity)
    ensures d.Assessed? ==> d.metrics.intensityRange == (scene.minIntensity, scene.maxIntensity)
    ensures d.Assessed? ==> d.metrics.area in scene.contourAreas
    ensures d.Assessed? ==> forall a :: a in scene.contourAreas ==> a <= d.metrics.area
  {
    Classify(PeakIntensity(scene.histogram), (scene.minIntensity, scene.maxIntensity), scene.contourAreas)
  }

  /** A peak in [100, 180] is `good` with confidence 0.9 whatever the range and area. */
  lemma GoodBandWins(peak: int, intensityRange: (int, int), areas: seq<real>)
    requires 100 <= peak <= 180 && |areas| > 0
    ensures Classify(peak, intensityRange, areas).status == Good
    ensures Classify(peak, intensityRange, areas).confidence == 0.9
  {
  }

  /** Peak 100 satisfies both the `good` and the `semi_burned` test; `good` is tested first. */
  lemma BoundaryHundredIsGood(intensityRange: (int, int), areas: seq<real>)
    requires |areas| > 0
    ensures Classify(100, intensityRange, areas).status == Good
    ensures 100 <= Thresholds[SemiBurned].peakIntensity
  {
  }

  /** Whichever branch is taken, the result is one of the four labels and
      never the `Unknown` placeholder; no contours means no confidence or metrics. */
  lemma StatusIsOneOfFour(peak: int, intensityRange: (int, int), areas: seq<real>)
    ensures var d := Classify(peak, intensityRange, areas);
            if |areas| == 0 then d == NoBiscuitDetected
            else d.status in {Good, Broken, SemiBurned, FullyBurned}
  {
  }

  /** The declared per-label ranges are not what decides: a peak of 150 lies in
      the declared intensity ranges of `broken` and `semi_burned` too, yet it is `good`. */
  lemma DeclaredRangesOverlap(intensityRange: (int, int), areas: seq<real>)
    requires |areas| > 0
    ensures Thresholds[Broken].intensityRange.0 <= 150 <= Thresholds[Broken].intensityRange.1
    ensures Thresholds[SemiBurned].intensityRange.0 <= 150 <= Thresholds[SemiBurned].intensityRange.1
    ensures Classify(150, intensityRange, areas) == Assessed(Good, 0.9, Classify(150, intensityRange, areas).metrics)
  {
  }
}
