/** Actuator commands (`RobotController` and the conveyor driver in main.py) as
    trace events, and the physical state those commands drive.

    Serial transport, G-code formatting and the driver library are not modelled:
    each driver call is one event, and `time.sleep` is a `Sleep` event. */
module Robot {
  import opened Common

  /** A point in the arm's workspace. */
  datatype Point = Point(x: real, y: real, z: real)

  datatype Event =
    | Home                  // arm homing
    | Speed(percent: int)   // conveyor speed command
    | Move(to: Point)       // linear move of the arm
    | Pump(on: bool)        // suction on or off
    | Sleep(seconds: real)  // settle pause
    | ReleaseCamera         // camera handle released
    | CloseRobotSerial      // the arm controller's serial port closed
    | CloseSorterSerial     // the sorter's own serial port closed

  /** Pause after every motion or suction command. */
  const SettleSeconds: real := 0.5

  /** Commands issued while the sorter runs, as opposed to the shutdown-only ones. */
  predicate IsRunEvent(e: Event)
  {
    e.Home? || e.Speed? || e.Move? || e.Pump? || e.Sleep?
  }

  /** Move over the object, settle, suction on, settle. */
  function Pick(at: Point): (es: seq<Event>)
    ensures Settled(es)
    ensures PumpsWith(es, true, at) && Pump(false) !in es
    ensures forall p: Plant :: Replay(p, es) == Plant(p.speed, true, Some(at))
    ensures forall p: Plant :: p.speed == 0 ==> Safe(p, es)
  {
    MoveAndPump(at, true)
  }

  /** Move over the bin, settle, suction off, settle. */
  function Place(at: Point): (es: seq<Event>)
    ensures Settled(es)
    ensures PumpsWith(es, false, at) && Pump(true) !in es
    ensures forall p: Plant :: Replay(p, es) == Plant(p.speed, false, Some(at))
    ensures forall p: Plant :: p.speed == 0 ==> Safe(p, es)
  {
    MoveAndPump(at, false)
  }

  /** The arm controller's own shutdown: suction off, then its serial port closed. */
  function RobotCleanup(): (es: seq<Event>)
    ensures CloseRobotSerial in es
    ensures es[|es| - 1] == CloseRobotSerial && CloseRobotSerial !in es[..|es| - 1]
    ensures forall p: Plant :: Replay(p, es) == p.(pumpOn := false)
    ensures forall p: Plant :: Safe(p, es)
  {
    var es := [Pump(false), CloseRobotSerial];
    assert es[1] == CloseRobotSerial && es[..1] == [Pump(false)];
    assert forall p: Plant :: Replay(p, es) == p.(pumpOn := false) by {
      forall p: Plant
        ensures Replay(p, es) == p.(pumpOn := false)
      {
        ReplayCons(p, es[0], [es[1]]);
        ReplayCons(Apply(p, es[0]), es[1], []);
      }
    }
    assert forall p: Plant :: Safe(p, es) by {
      forall p: Plant
        ensures Safe(p, es)
      {
        ReplayCons(p, es[0], [es[1]]);
        ReplayCons(Apply(p, es[0]), es[1], []);
      }
    }
    es
  }

  /** The shape shared by a pick and a place: move over a point, settle, switch
      suction, settle. */
  function MoveAndPump(at: Point, on: bool): (es: seq<Event>)
    ensures Settled(es)
    ensures PumpsWith(es, on, at) && Pump(!on) !in es
    ensures forall p: Plant :: Replay(p, es) == Plant(p.speed, on, Some(at))
    ensures forall p: Plant :: p.speed == 0 ==> Safe(p, es)
  {
    var es := [Move(at), Sleep(SettleSeconds), Pump(on), Sleep(SettleSeconds)];
    assert PumpsWith(es, on, at) by {
      forall i | 0 <= i < |es| && es[i] == Pump(on)
        ensures LastMove(es[..i]) == Some(at)
      {
        assert i == 2 && es[..2] == [Move(at)] + [Sleep(SettleSeconds)];
        assert [Move(at)] + [Sleep(SettleSeconds)] == [Move(at), Sleep(SettleSeconds)];
        assert [Move(at), Sleep(SettleSeconds)][..1] == [Move(at)];
      }
    }
    assert Pump(!on) !in es by {
      assert forall i :: 0 <= i < |es| ==> es[i] != Pump(!on);
    }
    assert Settled(es) by {
      forall i | 0 <= i < |es| && NeedsSettle(es[i])
        ensures i + 1 < |es| && es[i + 1] == Sleep(SettleSeconds)
      {
        assert i == 0 || i == 2;
      }
    }
    assert forall p: Plant :: Replay(p, es) == Plant(p.speed, on, Some(at)) by {
      forall p: Plant
        ensures Replay(p, es) == Plant(p.speed, on, Some(at))
      {
        ReplayFour(p, es);
      }
    }
    assert forall p: Plant :: p.speed == 0 ==> Safe(p, es) by {
      forall p: Plant | p.speed == 0
        ensures Safe(p, es)
      {
        ReplayFour(p, es);
      }
    }
    es
  }

  /** What the commands have done to the hardware so far: the conveyor speed
      last commanded, whether suction is on, and the arm's last target. */
  datatype Plant = Plant(speed: int, pumpOn: bool, arm: Option<Point>)

  function Apply(p: Plant, e: Event): Plant
  {
    match e
    case Speed(v) => p.(speed := v)
    case Move(to) => p.(arm := Some(to))
    case Pump(on) => p.(pumpOn := on)
    case _ => p
  }

  function Replay(p: Plant, es: seq<Event>): Plant
    decreases |es|
  {
    if |es| == 0 then p else Replay(Apply(p, es[0]), es[1..])
  }

  /** A pick-and-place move, and switching suction on, happen only while the
      conveyor is stopped. Homing is a separate command and is not constrained. */
  predicate SafeStep(p: Plant, e: Event)
  {
    (e.Move? || (e.Pump? && e.on)) ==> p.speed == 0
  }

  predicate Safe(p: Plant, es: seq<Event>)
    decreases |es|
  {
    |es| == 0 || (SafeStep(p, es[0]) && Safe(Apply(p, es[0]), es[1..]))
  }

  /** Every motion or suction command is followed at once by the settle pause. */
  predicate Settled(es: seq<Event>)
  {
    forall i {:trigger NeedsSettle(es[i])} :: 0 <= i < |es| && NeedsSettle(es[i]) ==>
      i + 1 < |es| && es[i + 1] == Sleep(SettleSeconds)
  }

  /** Motion and suction commands are the ones that need a settle pause. */
  predicate NeedsSettle(e: Event)
  {
    e.Move? || e.Pump?
  }

  /** Where the commands last sent the arm, if they moved it at all. */
  function LastMove(es: seq<Event>): Option<Point>
    decreases |es|
  {
    if |es| == 0 then None
    else if es[|es| - 1].Move? then Some(es[|es| - 1].to)
    else LastMove(es[..|es| - 1])
  }

  /** Every `Pump(on)` command is sent with the arm last moved to `at`. */
  predicate PumpsWith(es: seq<Event>, on: bool, at: Point)
  {
    forall i :: 0 <= i < |es| && es[i] == Pump(on) ==> LastMove(es[..i]) == Some(at)
  }

  /** The last move of a concatenation is the second part's, unless that has none. */
  lemma {:induction false} LastMoveAppend(a: seq<Event>, b: seq<Event>)
    ensures LastMove(a + b) == if LastMove(b).Some? then LastMove(b) else LastMove(a)
    decreases |b|
  {
    if |b| == 0 {
      assert a + b == a;
    } else {
      assert (a + b)[..|a + b| - 1] == a + b[..|b| - 1];
      LastMoveAppend(a, b[..|b| - 1]);
    }
  }

  /** Suction commands sent over `at` in each of two runs are still sent over
      `at` once the runs are concatenated. */
  lemma PumpsWithAppend(a: seq<Event>, b: seq<Event>, on: bool, at: Point)
    requires PumpsWith(a, on, at) && PumpsWith(b, on, at)
    ensures PumpsWith(a + b, on, at)
  {
    forall i | 0 <= i < |a + b| && (a + b)[i] == Pump(on)
      ensures LastMove((a + b)[..i]) == Some(at)
    {
      if i < |a| {
        assert (a + b)[..i] == a[..i];
      } else {
        assert (a + b)[..i] == a + b[..i - |a|];
        assert b[i - |a|] == Pump(on);
        LastMoveAppend(a, b[..i - |a|]);
      }
    }
  }

  /** The replayed arm target is the last move, whenever there is one. */
  lemma {:induction false} ReplayArmIsLastMove(p: Plant, es: seq<Event>)
    ensures LastMove(es).Some? ==> Replay(p, es).arm == LastMove(es)
    ensures LastMove(es).None? ==> Replay(p, es).arm == p.arm
    decreases |es|
  {
    if |es| > 0 {
      var init := es[..|es| - 1];
      assert es == init + [es[|es| - 1]];
      ReplayAppend(p, init, [es[|es| - 1]]);
      ReplayCons(Replay(p, init), es[|es| - 1], []);
      ReplayArmIsLastMove(p, init);
    }
  }

  /** Replaying two command runs one after the other is replaying their concatenation. */
  lemma {:induction false} ReplayAppend(p: Plant, a: seq<Event>, b: seq<Event>)
    ensures Replay(p, a + b) == Replay(Replay(p, a), b)
    decreases |a|
  {
    if |a| == 0 {
      assert a + b == b;
    } else {
      assert (a + b)[0] == a[0];
      assert (a + b)[1..] == a[1..] + b;
      ReplayAppend(Apply(p, a[0]), a[1..], b);
    }
  }

  /** A concatenation is safe iff its first run is safe and the second is safe
      from the state the first leaves behind. */
  lemma {:induction false} SafeAppend(p: Plant, a: seq<Event>, b: seq<Event>)
    ensures Safe(p, a + b) <==> Safe(p, a) && Safe(Replay(p, a), b)
    decreases |a|
  {
    if |a| == 0 {
      assert a + b == b;
    } else {
      assert (a + b)[0] == a[0];
      assert (a + b)[1..] == a[1..] + b;
      SafeAppend(Apply(p, a[0]), a[1..], b);
    }
  }

  /** Two safe, settled runs in a row: safe, settled, and replayed piecewise. */
  lemma Compose(p: Plant, a: seq<Event>, b: seq<Event>)
    requires Safe(p, a) && Safe(Replay(p, a), b)
    requires Settled(a) && Settled(b)
    ensures Safe(p, a + b) && Settled(a + b)
    ensures Replay(p, a + b) == Replay(Replay(p, a), b)
  {
    SafeAppend(p, a, b);
    ReplayAppend(p, a, b);
    SettledAppend(a, b);
  }

  /** Safety is closed under taking a prefix: a run cut short stays safe. */
  lemma {:induction false} SafePrefix(p: Plant, es: seq<Event>, k: nat)
    requires k <= |es| && Safe(p, es)
    ensures Safe(p, es[..k])
  {
    assert es == es[..k] + es[k..];
    SafeAppend(p, es[..k], es[k..]);
  }

  /** Replaying four commands one by one. */
  lemma ReplayFour(p: Plant, es: seq<Event>)
    requires |es| == 4
    ensures var p1 := Apply(p, es[0]);
            var p2 := Apply(p1, es[1]);
            var p3 := Apply(p2, es[2]);
            && Replay(p, es) == Apply(p3, es[3])
            && (Safe(p, es) <==> SafeStep(p, es[0]) && SafeStep(p1, es[1]) && SafeStep(p2, es[2]) && SafeStep(p3, es[3]))
  {
    assert es == [es[0]] + ([es[1]] + ([es[2]] + ([es[3]] + [])));
    var p1 := Apply(p, es[0]);
    var p2 := Apply(p1, es[1]);
    var p3 := Apply(p2, es[2]);
    ReplayCons(p, es[0], [es[1]] + ([es[2]] + ([es[3]] + [])));
    ReplayCons(p1, es[1], [es[2]] + ([es[3]] + []));
    ReplayCons(p2, es[2], [es[3]] + []);
    ReplayCons(p3, es[3], []);
  }

  /** One command, then the rest. */
  lemma ReplayCons(p: Plant, e: Event, rest: seq<Event>)
    ensures Replay(p, [e] + rest) == Replay(Apply(p, e), rest)
    ensures Safe(p, [e] + rest) <==> SafeStep(p, e) && Safe(Apply(p, e), rest)
  {
  }

  /** Runs that settle after every command still do so when concatenated. */
  lemma SettledAppend(a: seq<Event>, b: seq<Event>)
    requires Settled(a) && Settled(b)
    ensures Settled(a + b)
  {
  }


  /** A pick followed by a place, with the conveyor stopped, is safe, settles
      after every command, switches suction on only over the object and off
      only over the bin, and leaves suction off with the arm over the bin. */
  lemma PickThenPlace(p: Plant, at: Point, bin: Point)
    requires p.speed == 0
    ensures Safe(p, Pick(at) + Place(bin))
    ensures Settled(Pick(at) + Place(bin))
    ensures Replay(p, Pick(at) + Place(bin)) == Plant(0, false, Some(bin))
    ensures Replay(p, Pick(at)) == Plant(0, true, Some(at))
    ensures PumpsWith(Pick(at) + Place(bin), true, at)
    ensures PumpsWith(Pick(at) + Place(bin), false, bin)
  {
    PickThenPlaceSteps(p, at, bin);
    Compose(p, Pick(at), Place(bin));
    PickThenPlacePumps(at, bin);
  }

  /** In a pick then a place, suction goes on over the object and off over the bin. */
  lemma PickThenPlacePumps(at: Point, bin: Point)
    ensures PumpsWith(Pick(at) + Place(bin), true, at)
    ensures PumpsWith(Pick(at) + Place(bin), false, bin)
  {
    NoPumpsWith(Place(bin), true, at);
    PumpsWithAppend(Pick(at), Place(bin), true, at);
    NoPumpsWith(Pick(at), false, bin);
    PumpsWithAppend(Pick(at), Place(bin), false, bin);
  }

  /** A run without `Pump(on)` trivially sends it nowhere else. */
  lemma NoPumpsWith(es: seq<Event>, on: bool, at: Point)
    requires Pump(on) !in es
    ensures PumpsWith(es, on, at)
  {
  }

  /** The two halves of `PickThenPlace`, each from the state the previous leaves. */
  lemma PickThenPlaceSteps(p: Plant, at: Point, bin: Point)
    requires p.speed == 0
    ensures Safe(p, Pick(at)) && Replay(p, Pick(at)) == Plant(0, true, Some(at))
    ensures Safe(Replay(p, Pick(at)), Place(bin))
    ensures Replay(Replay(p, Pick(at)), Place(bin)) == Plant(0, false, Some(bin))
  {
  }
}
