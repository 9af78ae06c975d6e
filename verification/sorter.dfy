/** The sorting routine (`VisionBasedSorter.sort` in main.py) as a function from
    a finite run of camera ticks to the command trace it emits.

    The camera, the key press and the OpenCV results are per-tick inputs. The
    source loop never ends on its own: a finite tick sequence describes a run up
    to the point where it stops. An exception (a driver fault, or a keyboard
    interrupt) is the position in the run's command trace at which it is
    raised; the command there does not happen and the `finally` block follows. */
module Sorter {
  import opened Common
  import opened Robot
  import Classifier
  import Locator

  /** One captured frame, as the locator and the detector each see it. */
  datatype Frame = Frame(width: Locator.PosInt, shapes: seq<Locator.Contour>, scene: Classifier.Scene)

  /** One pass of the loop: the capture failed, or a frame was captured and the
      quit key is (or is not) pressed when the key is polled. */
  datatype Tick = CaptureFailed | Captured(frame: Frame, quitKey: bool)

  /** Conveyor speed while running, in percent. */
  const RunSpeed: int := 30

  /** Bin position for each condition. */
  const DropZones: map<Classifier.Status, Point> :=
    map[
      Classifier.Good := Point(200.0, 0.0, 50.0),
      Classifier.Broken := Point(200.0, 100.0, 50.0),
      Classifier.SemiBurned := Point(200.0, -100.0, 50.0),
      Classifier.FullyBurned := Point(200.0, -200.0, 50.0)
    ]

  function Target(f: Frame): Locator.PickTarget
  {
    Locator.GetObjectPosition(f.width, f.shapes)
  }

  function Detect(f: Frame): Classifier.Detection
  {
    Classifier.DetectDefects(f.scene)
  }

  /** Every condition the detector can report has a bin, so the lookup never fails. */
  lemma DropZonesCoverDetector(f: Frame)
    ensures Detect(f).Assessed? ==> Detect(f).status in DropZones
    ensures DropZones.Keys == Classifier.Thresholds.Keys
  {
  }

  /** The commands of one pass, and whether the pass reaches the key poll. */
  datatype Step = Step(events: seq<Event>, keyChecked: bool)

  function Iteration(t: Tick): (s: Step)
    ensures s.events == [] <==> t.CaptureFailed? || !Target(t.frame).inPickZone
    ensures s.keyChecked <==> t.Captured? && (!Target(t.frame).inPickZone || Detect(t.frame).Assessed?)
    ensures t.Captured? && Target(t.frame).inPickZone && Detect(t.frame).NoBiscuitDetected? ==>
              s.events == [Speed(0), Speed(RunSpeed)]
    ensures t.Captured? && Target(t.frame).inPickZone && Detect(t.frame).Assessed? ==>
              var g := Target(t.frame);
              var bin := DropZones[Detect(t.frame).status];
              s.events == [Speed(0),
                           Move(Point(g.x, g.y, g.z)), Sleep(0.5), Pump(true), Sleep(0.5),
                           Move(bin), Sleep(0.5), Pump(false), Sleep(0.5),
                           Speed(RunSpeed)]
  {
    match t
    case CaptureFailed => Step([], false)
    case Captured(frame, _) =>
      var g := Target(frame);
      if !g.inPickZone then Step([], true)
      else
        var d := Detect(frame);
        if d.NoBiscuitDetected? then Step(StopFor([]), false)
        else
          var bin := DropZones[d.status];
          Step(StopFor(Pick(Point(g.x, g.y, g.z)) + Place(bin)), true)
  }

  /** The conveyor stopped for the duration of some arm commands, then restarted. */
  function StopFor(motion: seq<Event>): seq<Event>
  {
    [Speed(0)] + motion + [Speed(RunSpeed)]
  }

  /** The pass ends the loop: it reaches the key poll and the key is pressed. */
  predicate Quits(t: Tick)
  {
    Iteration(t).keyChecked && t.quitKey
  }

  /** The commands of the `while True` loop, and whether it left by the quit key. */
  datatype Run = Run(events: seq<Event>, quit: bool)

  function Loop(ticks: seq<Tick>): (r: Run)
    ensures r.quit <==> exists i :: 0 <= i < |ticks| && Quits(ticks[i])
    ensures forall e :: e in r.events ==> IsRunEvent(e)
    decreases |ticks|
  {
    if |ticks| == 0 then Run([], false)
    else
      var s := Iteration(ticks[0]);
      if Quits(ticks[0]) then Run(s.events, true)
      else
        var rest := Loop(ticks[1..]);
        assert forall i :: 0 < i < |ticks| ==> ticks[i] == ticks[1..][i - 1];
        Run(s.events + rest.events, rest.quit)
  }

  /** A single pass's commands are the loop's, and it quits exactly when the pass does. */
  lemma LoopOne(t: Tick)
    ensures Loop([t]) == Run(Iteration(t).events, Quits(t))
  {
  }

  /** Passes that do not quit are followed by the later passes' commands, in
      order, and the later passes alone decide whether the loop quits. */
  lemma {:induction false} LoopAppend(a: seq<Tick>, b: seq<Tick>)
    requires !Loop(a).quit
    ensures Loop(a + b).events == Loop(a).events + Loop(b).events
    ensures Loop(a + b).quit == Loop(b).quit
    decreases |a|
  {
    if |a| == 0 {
      assert a + b == b;
    } else {
      assert !Quits(a[0]);
      assert (a + b)[0] == a[0];
      assert (a + b)[1..] == a[1..] + b;
      LoopAppend(a[1..], b);
    }
  }

  /** Everything in the `try` block: homing, conveyor start, the loop. */
  function Body(ticks: seq<Tick>): (b: seq<Event>)
    ensures |b| >= 2 && b[0] == Home && b[1] == Speed(RunSpeed)
    ensures b[2..] == Loop(ticks).events
    ensures forall e :: e in b ==> IsRunEvent(e)
    ensures forall p: Plant :: Safe(p, b) && Replay(p, b).speed == RunSpeed
  {
    var b := [Home, Speed(RunSpeed)] + Loop(ticks).events;
    assert forall p: Plant :: Safe(p, b) && Replay(p, b).speed == RunSpeed by {
      forall p: Plant
        ensures Safe(p, b) && Replay(p, b).speed == RunSpeed
      {
        BodyKeepsPlant(ticks, p);
      }
    }
    b
  }

  /** The `finally` block: camera released, the arm's cleanup, conveyor
      stopped, the sorter's serial port closed. */
  function Cleanup(): (c: seq<Event>)
    ensures forall p: Plant :: Safe(p, c) && Replay(p, c) == p.(pumpOn := false, speed := 0)
    ensures Occurrences(c, ReleaseCamera) == 1
    ensures Occurrences(c, CloseRobotSerial) == 1
    ensures Occurrences(c, CloseSorterSerial) == 1
  {
    var robot := RobotCleanup();
    var stop := [Speed(0), CloseSorterSerial];
    var c := [ReleaseCamera] + robot + stop;
    assert forall p: Plant :: Safe(p, c) && Replay(p, c) == p.(pumpOn := false, speed := 0) by {
      forall p: Plant
        ensures Safe(p, c) && Replay(p, c) == p.(pumpOn := false, speed := 0)
      {
        ReplayCons(p, ReleaseCamera, robot);
        SafeAppend(p, [ReleaseCamera] + robot, stop);
        ReplayAppend(p, [ReleaseCamera] + robot, stop);
        var q := p.(pumpOn := false);
        ReplayCons(q, Speed(0), [CloseSorterSerial]);
        ReplayCons(q.(speed := 0), CloseSorterSerial, []);
      }
    }
    assert forall e :: Occurrences(c, e) == Occurrences([ReleaseCamera], e) + Occurrences(robot, e) + Occurrences(stop, e) by {
      forall e
        ensures Occurrences(c, e) == Occurrences([ReleaseCamera], e) + Occurrences(robot, e) + Occurrences(stop, e)
      {
        OccurrencesAppend([ReleaseCamera] + robot, stop, e);
        OccurrencesAppend([ReleaseCamera], robot, e);
      }
    }
    c
  }

  /** The cleanup's commands in order. */
  lemma CleanupCommands()
    ensures Cleanup() == [ReleaseCamera, Pump(false), CloseRobotSerial, Speed(0), CloseSorterSerial]
  {
  }

  datatype Exit = QuitKey | Raised

  datatype Outcome = Outcome(trace: seq<Event>, exit: Exit)

  /** `raiseAt` is the position in the body's commands at which an exception is
      raised, if one is; a position past the end is never reached. */
  predicate RaisedIn(ticks: seq<Tick>, raiseAt: Option<nat>)
  {
    raiseAt.Some? && raiseAt.value < |Body(ticks)|
  }

  function Sort(ticks: seq<Tick>, raiseAt: Option<nat>): (o: Outcome)
    ensures |o.trace| >= 5
    ensures o.trace[|o.trace| - 5..] == [ReleaseCamera, Pump(false), CloseRobotSerial, Speed(0), CloseSorterSerial]
    ensures o.trace[..|o.trace| - 5] <= Body(ticks)
    ensures RaisedIn(ticks, raiseAt) ==> |o.trace| == raiseAt.value + 5
    ensures !RaisedIn(ticks, raiseAt) ==> |o.trace| == |Body(ticks)| + 5
    ensures o.exit == QuitKey <==> !RaisedIn(ticks, raiseAt) && exists i :: 0 <= i < |ticks| && Quits(ticks[i])
  {
    var body := Body(ticks);
    CleanupCommands();
    if RaisedIn(ticks, raiseAt) then
      Outcome(body[..raiseAt.value] + Cleanup(), Raised)
    else
      Outcome(body + Cleanup(), if Loop(ticks).quit then QuitKey else Raised)
  }

  /** One pass keeps the conveyor at its running speed when it is done, makes
      its pick-and-place moves and switches suction on only while the conveyor
      is stopped, settles after every motion or suction command, and switches
      suction on only over the object and off only over the bin of the
      detected condition. */
  lemma IterationKeepsPlant(t: Tick, p: Plant)
    requires p.speed == RunSpeed
    ensures var es := Iteration(t).events;
            && Safe(p, es)
            && Settled(es)
            && Replay(p, es).speed == RunSpeed
            && (!p.pumpOn ==> !Replay(p, es).pumpOn)
    ensures t.Captured? && Target(t.frame).inPickZone && Detect(t.frame).Assessed? ==>
              Replay(p, Iteration(t).events) == Plant(RunSpeed, false, Some(DropZones[Detect(t.frame).status]))
    ensures t.Captured? && Target(t.frame).inPickZone && Detect(t.frame).Assessed? ==>
              var g := Target(t.frame);
              && PumpsWith(Iteration(t).events, true, Point(g.x, g.y, g.z))
              && PumpsWith(Iteration(t).events, false, DropZones[Detect(t.frame).status])
  {
    if t.Captured? && Target(t.frame).inPickZone {
      var stopped := p.(speed := 0);
      if Detect(t.frame).NoBiscuitDetected? {
        StopAround(p, [], stopped);
      } else {
        var g := Target(t.frame);
        var bin := DropZones[Detect(t.frame).status];
        PickThenPlace(stopped, Point(g.x, g.y, g.z), bin);
        StopAround(p, Pick(Point(g.x, g.y, g.z)) + Place(bin), Plant(0, false, Some(bin)));
        StopForPumps(Pick(Point(g.x, g.y, g.z)) + Place(bin), true, Point(g.x, g.y, g.z));
        StopForPumps(Pick(Point(g.x, g.y, g.z)) + Place(bin), false, bin);
      }
    }
  }

  /** Stopping and restarting the conveyor around a motion sends no suction command. */
  lemma StopForPumps(motion: seq<Event>, on: bool, at: Point)
    requires PumpsWith(motion, on, at)
    ensures PumpsWith(StopFor(motion), on, at)
  {
    NoPumpsWith([Speed(0)], on, at);
    NoPumpsWith([Speed(RunSpeed)], on, at);
    PumpsWithAppend([Speed(0)], motion, on, at);
    PumpsWithAppend([Speed(0)] + motion, [Speed(RunSpeed)], on, at);
  }

  /** Stopping the conveyor, running a safe, settled motion, then restarting the
      conveyor: safe and settled, and only the speed differs from where the
      motion leaves the plant. */
  lemma StopAround(p: Plant, motion: seq<Event>, q: Plant)
    requires Safe(p.(speed := 0), motion) && Settled(motion)
    requires Replay(p.(speed := 0), motion) == q
    ensures var es := StopFor(motion);
            && Safe(p, es)
            && Settled(es)
            && Replay(p, es) == q.(speed := RunSpeed)
  {
    var stopped := p.(speed := 0);
    ReplayCons(p, Speed(0), motion + [Speed(RunSpeed)]);
    assert [Speed(0)] + motion + [Speed(RunSpeed)] == [Speed(0)] + (motion + [Speed(RunSpeed)]);
    SafeAppend(stopped, motion, [Speed(RunSpeed)]);
    ReplayAppend(stopped, motion, [Speed(RunSpeed)]);
    ReplayCons(q, Speed(RunSpeed), []);
    SettledAppend([Speed(0)], motion);
    SettledAppend([Speed(0)] + motion, [Speed(RunSpeed)]);
  }

  /** The same holds of the whole loop, pass after pass. */
  lemma {:induction false} LoopKeepsPlant(ticks: seq<Tick>, p: Plant)
    requires p.speed == RunSpeed
    ensures var es := Loop(ticks).events;
            && Safe(p, es)
            && Settled(es)
            && Replay(p, es).speed == RunSpeed
            && (!p.pumpOn ==> !Replay(p, es).pumpOn)
    decreases |ticks|
  {
    if |ticks| > 0 {
      var first := Iteration(ticks[0]).events;
      IterationKeepsPlant(ticks[0], p);
      if !Quits(ticks[0]) {
        var q := Replay(p, first);
        var rest := Loop(ticks[1..]).events;
        LoopKeepsPlant(ticks[1..], q);
        SafeAppend(p, first, rest);
        ReplayAppend(p, first, rest);
        SettledAppend(first, rest);
      }
    }
  }

  /** Homing and starting the conveyor, then the loop. */
  lemma BodyKeepsPlant(ticks: seq<Tick>, p: Plant)
    ensures var b := [Home, Speed(RunSpeed)] + Loop(ticks).events;
            Safe(p, b) && Replay(p, b).speed == RunSpeed
  {
    var start := [Home, Speed(RunSpeed)];
    ReplayCons(p, Home, [Speed(RunSpeed)]);
    ReplayCons(p, Speed(RunSpeed), []);
    LoopKeepsPlant(ticks, p.(speed := RunSpeed));
    SafeAppend(p, start, Loop(ticks).events);
    ReplayAppend(p, start, Loop(ticks).events);
  }

  /** Once the quit key has ended the loop, later ticks change nothing. */
  lemma {:induction false} LoopStopsAtQuit(ticks: seq<Tick>, later: seq<Tick>)
    requires Loop(ticks).quit
    ensures Loop(ticks + later) == Loop(ticks)
    decreases |ticks|
  {
    assert (ticks + later)[0] == ticks[0];
    if !Quits(ticks[0]) {
      assert (ticks + later)[1..] == ticks[1..] + later;
      LoopStopsAtQuit(ticks[1..], later);
    }
  }

  /** Number of times `e` occurs in `es`. */
  function Occurrences(es: seq<Event>, e: Event): nat
    decreases |es|
  {
    if |es| == 0 then 0
    else (if es[0] == e then 1 else 0) + Occurrences(es[1..], e)
  }

  lemma {:induction false} OccurrencesAppend(a: seq<Event>, b: seq<Event>, e: Event)
    ensures Occurrences(a + b, e) == Occurrences(a, e) + Occurrences(b, e)
    decreases |a|
  {
    if |a| == 0 {
      assert a + b == b;
    } else {
      assert (a + b)[0] == a[0];
      assert (a + b)[1..] == a[1..] + b;
      OccurrencesAppend(a[1..], b, e);
    }
  }

  lemma {:induction false} OccurrencesAbsent(es: seq<Event>, e: Event)
    requires e !in es
    ensures Occurrences(es, e) == 0
    decreases |es|
  {
    if |es| > 0 {
      assert e !in es[1..];
      OccurrencesAbsent(es[1..], e);
    }
  }

  /** The trace of a run is what the body got through, then the cleanup. */
  lemma TraceSplits(ticks: seq<Tick>, raiseAt: Option<nat>)
    ensures var tr := Sort(ticks, raiseAt).trace;
            && tr == tr[..|tr| - 5] + Cleanup()
            && tr[..|tr| - 5] == Body(ticks)[..|tr| - 5]
            && forall e :: e in tr[..|tr| - 5] ==> IsRunEvent(e)
  {
  }

  /** Run-time commands before the cleanup add no shutdown-only command. */
  lemma {:induction false} RunPrefixAddsNothing(kept: seq<Event>, e: Event)
    requires forall x :: x in kept ==> IsRunEvent(x)
    requires !IsRunEvent(e)
    ensures Occurrences(kept + Cleanup(), e) == Occurrences(Cleanup(), e)
  {
    OccurrencesAppend(kept, Cleanup(), e);
    OccurrencesAbsent(kept, e);
  }

  /** Run-time commands followed by the cleanup release the camera and close
      each serial port exactly once. */
  lemma RunThenCleanupClosesOnce(kept: seq<Event>)
    requires forall x :: x in kept ==> IsRunEvent(x)
    ensures Occurrences(kept + Cleanup(), ReleaseCamera) == 1
    ensures Occurrences(kept + Cleanup(), CloseRobotSerial) == 1
    ensures Occurrences(kept + Cleanup(), CloseSorterSerial) == 1
  {
    RunPrefixAddsNothing(kept, ReleaseCamera);
    RunPrefixAddsNothing(kept, CloseRobotSerial);
    RunPrefixAddsNothing(kept, CloseSorterSerial);
  }

  /** On every way out, the camera is released and both serial ports are
      closed exactly once. */
  lemma CleanupRunsOnce(ticks: seq<Tick>, raiseAt: Option<nat>)
    ensures var tr := Sort(ticks, raiseAt).trace;
            && Occurrences(tr, ReleaseCamera) == 1
            && Occurrences(tr, CloseRobotSerial) == 1
            && Occurrences(tr, CloseSorterSerial) == 1
  {
    var tr := Sort(ticks, raiseAt).trace;
    TraceSplits(ticks, raiseAt);
    RunThenCleanupClosesOnce(tr[..|tr| - 5]);
  }

  /** Whatever state the hardware starts in, a run makes its pick-and-place
      moves and switches suction on only while the conveyor is stopped, and ends
      with the conveyor stopped and suction off, however it exits. Homing is not
      a pick-and-place move and is not covered. */
  lemma RunLeavesPlantStopped(ticks: seq<Tick>, raiseAt: Option<nat>, p: Plant)
    ensures var tr := Sort(ticks, raiseAt).trace;
            && Safe(p, tr)
            && Replay(p, tr).speed == 0
            && !Replay(p, tr).pumpOn
  {
    var tr := Sort(ticks, raiseAt).trace;
    TraceSplits(ticks, raiseAt);
    PrefixThenCleanup(p, Body(ticks), |tr| - 5);
  }

  /** Any safe command run cut short, then the cleanup: safe, and the conveyor
      ends stopped with suction off. */
  lemma PrefixThenCleanup(p: Plant, es: seq<Event>, k: nat)
    requires k <= |es| && Safe(p, es)
    ensures Safe(p, es[..k] + Cleanup())
    ensures Replay(p, es[..k] + Cleanup()).speed == 0 && !Replay(p, es[..k] + Cleanup()).pumpOn
  {
    SafePrefix(p, es, k);
    SafeAppend(p, es[..k], Cleanup());
    ReplayAppend(p, es[..k], Cleanup());
  }
}
