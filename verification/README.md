# Biscuit sorter and colour-cube detector: a Dafny model

This project models the decision logic of a camera-guided pick-and-place cell.
A camera watches a conveyor. When a biscuit reaches the pick zone, the conveyor
stops and a histogram heuristic classifies the biscuit as good, broken,
semi-burned or fully burned. The arm then picks it up with suction and drops it
into the bin for that condition, and the conveyor restarts. Two helper scripts
find coloured cubes in an image by matching pixels against measured colour
swatches within a tolerance.

Modules, one per component:

- `Common`: `Option` and `Result`.
- `FirstMax`: the first maximal element. Python's `max(xs, key=…)` and NumPy's `argmax` both pick it.
- `Classifier`: `BiscuitDefectDetector.detect_defects`, with its threshold table and ordered decision tree.
- `Locator`: `VisionBasedSorter.get_object_position`. It covers contour choice, centroid truncation, the pick-zone test and the mapping to arm coordinates.
- `Robot`: driver calls as trace events.
  - `RobotController.pick`, `place` and `cleanup` as event sequences.
  - A small hardware state (`Plant`: conveyor speed, suction, arm target) that the events drive.
- `Sorter`: `VisionBasedSorter.sort`. It is a function from a finite sequence of camera ticks, plus an optional exception position, to the emitted command trace and the way the routine exited.
- `ColorRange`, `Palette`, `ColorMask`: rgb_cube.py.
  - Swatch reordering into B, G, R order.
  - Bounds clamped to [0, 255].
  - Per-pixel inclusive range test.
  - Union mask.
  - Colour-name validation.
- `CubeDetection`: detect_cubes.py. It covers the per-swatch count threshold and the ordered list of detected colours.

OpenCV results are inputs to the model:

- the 256-bin histogram;
- the grey-level minimum and maximum;
- the contour areas and moments;
- pixel grids of (b, g, r) bytes.

The camera, the quit key and the detector's inputs are per-tick inputs. Python
floats are exact reals. Python's `int()` on a float is written out as truncation
toward zero (`Locator.Trunc`).

Behaviour of the program worth noting:

- A no-biscuit result (main.py:58) carries only its status, with no confidence and no metrics.
- The drop-zone table (main.py:143-148) is not checked at start-up; `Sorter.DropZonesCoverDetector` proves that the per-cycle lookup cannot fail.
- The cleanup (main.py:242-248) has no guard against running twice.
- The cleanup order is: camera released, suction off, the arm's serial port closed, conveyor stopped, the sorter's serial port closed.
- The conveyor restarts at the constant 30 (main.py:200, 223, 236), not at a remembered prior speed.

## Model

| member | source | states |
|---|---|---|
| FirstMax.FirstMaxIndex | main.py:60 | `max` with a key returns an element whose key is maximal, and every earlier element's key is strictly smaller, so ties go to the first in discovery order |
| Classifier.PeakIntensity | main.py:48-49 | the peak is a bin in 0..255 whose count is maximal, and no earlier bin has as large a count |
| Classifier.Classify | main.py:57-89 | no contours gives only `no_biscuit_detected`. Otherwise the ordered chain agrees with the disjoint bands ≤45 fully burned/0.85, 46..99 semi-burned/0.8, 100..180 good/0.9, ≥181 broken/0.75. The status is never the `unknown` placeholder, the confidence is in (0, 1], and the metrics carry the peak, the (min, max) range and the largest contour area unchanged |
| Classifier.DetectDefects | main.py:43-89 | the detector reports no biscuit exactly when there are no contours. Otherwise the peak is the first maximal histogram bin; the status and confidence are those of the peak's band (≤45 fully burned/0.85, 46..99 semi-burned/0.8, 100..180 good/0.9, ≥181 broken/0.75), never `unknown` and always a row of the threshold table; the range is the image's (min, max); and the area is a contour area no smaller than any other |
| Classifier.GoodBandWins | main.py:75-78 | a peak in [100, 180] is `good` with confidence 0.9, whatever the range and area |
| Classifier.BoundaryHundredIsGood | main.py:75-84 | peak 100 satisfies the `semi_burned` test too, yet is `good`, because `good` is tested first |
| Classifier.StatusIsOneOfFour | main.py:57-87 | a nonempty contour list yields one of the four labels; an empty one yields the bare no-biscuit result |
| Classifier.DeclaredRangesOverlap | main.py:12-33 | the declared ranges overlap: peak 150 lies inside `broken`'s and `semi_burned`'s declared ranges but is classified `good` |
| FirstMax.FirstMaxIsUnique | main.py:60 | the first maximal position is unique, so the selection is determined by the list alone |
| Locator.Trunc | main.py:175 | `int()` of a float rounds toward zero: the result is within 1 of the value, never larger in magnitude, and of the same sign |
| Locator.LargestContour | main.py:168 | the chosen contour has maximal area, and every earlier contour has strictly smaller area |
| Locator.GetObjectPosition | main.py:150-189 | no contours, or a zero `m00`, gives `(0, 0, 0, False)`. Otherwise x = 200 and z = 50, the object is in the pick zone iff the centroid's offset from the frame centre is strictly between -50 and 50, and y · width = offset · 400 |
| Locator.LateralMapping | main.py:180-186 | the mapped y is 0 iff the centroid is at the frame centre, and has the sign of the offset. For a centroid inside the frame, y is within [-200, 200] |
| Locator.PickZoneBoundaryIsStrict | main.py:179-181 | an offset of exactly ±50 is outside the pick zone; ±49 is inside |
| Robot.Pick | main.py:103-110 | a pick settles after every command and switches suction on only with the arm last sent to the object, never off. With the conveyor stopped it is safe; from any state it leaves suction on with the arm over the object, the conveyor speed unchanged |
| Robot.Place | main.py:112-119 | a place settles after every command and switches suction off only with the arm last sent to the bin, never on. With the conveyor stopped it is safe; from any state it leaves suction off with the arm over the bin, the conveyor speed unchanged |
| Robot.RobotCleanup | main.py:121-124 | the arm's cleanup closes its serial port as its last command and only then, is safe from any state, and switches suction off before that close without changing the conveyor speed or the arm target |
| Robot.ReplayArmIsLastMove | main.py:106-116 | the arm's replayed target is the target of the last move command whenever there was one, and is unchanged otherwise, so "last sent to" is where the arm is |
| Robot.PickThenPlace | main.py:103-119 | a pick and then a place, with the conveyor stopped, is safe and settles after every command. Suction is switched on only with the arm last sent to the object and off only with it last sent to the bin; after the pick suction is on over the object, and at the end it is off with the arm over the bin |
| Sorter.DropZonesCoverDetector | main.py:143-148 | every label the detector can report has a bin, so the lookup at main.py:227 never fails; the bin table has exactly the threshold table's labels |
| Sorter.Iteration | main.py:204-240 | a failed capture or an out-of-zone frame emits no command. An in-zone frame emits `speed(0)` and then either `speed(30)` alone (no biscuit) or move to pick, settle, pump on, settle, move to the condition's bin, settle, pump off, settle, `speed(30)`. The key is polled only on passes that reach main.py:239 |
| Sorter.Body | main.py:195-204 | the `try` block homes the arm, starts the conveyor at 30, then emits exactly the loop's commands. It emits only run-time commands, and from any state its suction-on and pick-and-place moves happen only while the conveyor is stopped, ending with the conveyor at 30 |
| Sorter.Cleanup | main.py:242-248 | the `finally` block releases the camera and closes each serial port exactly once. From any state it is safe and leaves suction off and the conveyor stopped, with the arm target unchanged |
| Sorter.Loop | main.py:204-240 | the loop ends by the quit key iff some pass reaches the key poll with the key pressed, and it emits only run-time commands (no release or close) |
| Sorter.LoopOne | main.py:204-240 | a single pass emits that pass's commands, and the loop quits exactly when the pass does |
| Sorter.LoopAppend | main.py:204-240 | after passes that do not quit, the loop's commands are theirs followed by the later passes' in order, and only the later passes decide whether it quits |
| Sorter.Sort | main.py:191-248 | every way out ends with the five cleanup commands in source order, after a prefix of the body's commands that is cut exactly where an exception is raised. The exit is by the quit key iff nothing is raised and some pass quits |
| Sorter.IterationKeepsPlant | main.py:215-236 | a pass leaves the conveyor at speed 30, and its pick-and-place moves and suction-on happen only while the conveyor is stopped. Every motion or suction command is followed by the 0.5 s settle. For an assessed biscuit, suction goes on only with the arm last sent to the pick target and off only with it last sent to the condition's bin, and the pass ends with suction off over that bin |
| Sorter.LoopKeepsPlant | main.py:204-240 | over any number of passes the conveyor is back at speed 30 after each one, pick-and-place moves and suction-on happen only while the conveyor is stopped, and every motion or suction command settles |
| Sorter.LoopStopsAtQuit | main.py:238-240 | after the quit key ends the loop, later ticks have no effect |
| Sorter.TraceSplits | main.py:195-248 | the trace is exactly what the `try` block got through, followed by the `finally` block |
| Sorter.CleanupRunsOnce | main.py:242-248 | on every exit path the camera is released and each serial port is closed exactly once |
| Sorter.RunLeavesPlantStopped | main.py:191-248 | from any starting hardware state, and however the routine exits, every pick-and-place move and every suction-on happens while the conveyor is stopped, and the routine ends with the conveyor stopped and suction off. Homing is not covered (see Left out) |
| ColorRange.Lower | rgb_cube.py:14 | the lower bound is never negative, is `v - tol` unless that is negative, and is at most `v` for a byte `v` and non-negative tolerance |
| ColorRange.Upper | rgb_cube.py:15 | the upper bound is never above 255, is `v + tol` unless that exceeds 255, and is at least `v` for a byte `v` and non-negative tolerance |
| ColorRange.Bounds | rgb_cube.py:11-15 | for byte channels and a non-negative tolerance, each reordered channel lies within its bounds, and both bounds lie in [0, 255] |
| ColorRange.InRangeIsNear | rgb_cube.py:11-18 | a byte pixel is inside the clamped bounds iff its B, G and R are each within the tolerance of the swatch's third, second and first components. The alpha component plays no part |
| ColorRange.RangeMask | rgb_cube.py:18 | the mask has the image's shape, and a pixel is set iff every channel is within its inclusive bounds |
| ColorRange.SwatchMask | rgb_cube.py:9-18 | a mask pixel is set iff the image pixel is within the tolerance of the swatch, channel by channel |
| Palette.Swatches | rgb_cube.py:34-47 | each colour has two distinct swatches, each fully opaque with 8-bit channels |
| Palette.SwatchesSeparated | rgb_cube.py:34-47 | at the default tolerance of 15 no pixel matches a swatch of two different colours, so the three colour masks never overlap |
| Palette.ToLower | rgb_cube.py:49 | lowering keeps the length, maps each ASCII capital to its small letter (code + 32), and keeps every other character |
| Palette.ParseColour | rgb_cube.py:49-53 | a name is accepted iff its lowered form is `red`, `green` or `blue`, and the accepted colour has that name |
| Palette.ParseIgnoresCase | rgb_cube.py:49 | `RED` and `Green` are accepted; `purple` is refused |
| ColorMask.BitwiseOr | rgb_cube.py:24 | a pixel of the combined mask is set iff it is set in either mask |
| ColorMask.CreateColorMask | rgb_cube.py:6-26 | an empty swatch list gives `None`. Otherwise the mask has the image's shape, and a pixel is set iff at least one swatch matches it within the tolerance |
| ColorMask.MaskDependsOnlyOnSwatchSet | rgb_cube.py:20-24 | two swatch lists with the same members, in any order and with any repeats, give the same mask |
| ColorMask.FilterColor | rgb_cube.py:29-53 | an unknown colour name is a `ValueError` whatever the image. An unreadable image with a valid name is an error. Otherwise the selection mask matches the named colour's swatches |
| CubeDetection.DetectColorCube | detect_cubes.py:5-24 | true iff some single swatch's mask has strictly more than 100 pixels set; an empty swatch list gives false |
| CubeDetection.DetectCubes | detect_cubes.py:27-56 | an unreadable image is an error. Otherwise the result lists colours in table order (red, green, blue) without repeats, and a colour is listed iff one of its swatches is detected |
| CubeDetection.ExactlyHundredIsNotDetected | detect_cubes.py:21 | a lone swatch matching exactly 100 pixels is not detected |
| CubeDetection.DetectedImpliesUnionLarge | detect_cubes.py:18-22 | a detected swatch list also has more than 100 pixels in rgb_cube.py's union mask |
| CubeDetection.PerSwatchNotUnion | detect_cubes.py:18-22 | counts are per swatch. With 60 red-swatch and 60 green-swatch pixels, the union has 120 pixels set, yet nothing is detected |

## Left out

- OpenCV internals are inputs, not computations. This covers grey conversion, Gaussian blur, `calcHist`, `threshold`, `findContours`, `contourArea`, `moments`, pixel storage and `imread`.
- `cy` (main.py:176) is computed but never used, so it is not modelled.
- The serial ports, the driver library, G-code string formatting and `time.sleep` are I/O. Each driver call is one trace event, and each sleep is a `Sleep(0.5)` event.
- GUI and user input are out: `cv2.waitKey`, `imshow`, `destroyAllWindows`, `imwrite`, `input()`. The quit key is a per-tick boolean. `destroyAllWindows` in the cleanup emits no event.
- All `print` output and the three `main()` functions are out: they are logging and exception printing only.
- The constructors `VisionBasedSorter.__init__` and `RobotController.__init__` are out. They open the serial ports and the camera, and raise `RuntimeError` when the camera cannot open. Only the drop-zone table from them is modelled.
- ArmZero.py is a straight-line homing script with no logic, so it is not modelled.
- Sorter.RunLeavesPlantStopped: homing (main.py:197) is issued right after whatever conveyor speed the hardware had before the run, and its motion is not constrained; the safety property covers pick-and-place moves and suction-on only.
- Sorter.Sort: an exception is modelled at a position in the command trace only. One raised inside the `finally` block is not modelled, so the cleanup always runs to completion. A finite tick sequence that ends without the quit key stands for an interrupt between passes.
- ColorMask.FilterColor: returns the selection mask, not the blended image. The float32 multiply and truncating uint8 cast (rgb_cube.py:55-73) are floating-point pixel arithmetic.
- Palette.ParseColour: lowers ASCII letters only. Python's full Unicode `str.lower` is not modelled.
- Python floats are exact reals throughout: no rounding of the centroid division or of the y mapping.
- Both rgb_cube.py and detect_cubes.py hold the colour table. The model defines it once (`Palette.Swatches`), with the same entries.
