/** The squat and plank branches of `gen_frames` (app.py lines 203-281) as they are written.
    `gen_frames` declares `global` only for the push-up and curl state (app.py lines 96-101), so
    every squat and plank variable the branches assign (`squat_stage`, `squat_count`, the squat
    posture tallies, `current_knee_angle`, `plank_start_time`, `plank_time`, the plank posture
    times) is a local of the generator: it starts unbound, it keeps its value from one frame to
    the next while the generator runs, and reading it before any assignment raises
    `UnboundLocalError`, which ends the video stream. `knee_angle_history` is only mutated, never
    assigned, so it stays the module-level list. */
module AsWritten {
  import opened Optional
  import opened Tracking

  /** A local variable of the generator. */
  datatype Local<T> = Unbound | Bound(value: T)

  /** The generator's own squat and plank variables. */
  datatype Locals = Locals(
    squatStage: Local<Stage>, squatCount: Local<int>, squatGood: Local<int>, squatBad: Local<int>,
    kneeAngle: Local<int>,
    plankStart: Local<real>, plankTime: Local<int>, plankGood: Local<int>, plankBad: Local<int>)

  /** Nothing is bound when the generator starts. */
  const FreshLocals := Locals(Unbound, Unbound, Unbound, Unbound, Unbound,
                              Unbound, Unbound, Unbound, Unbound)

  /** What a frame leaves behind: the module-level state and the generator's locals, or the
      exception, with the module-level state as it was when it was raised. */
  datatype Outcome =
    | Continue(tracker: Tracker, locals: Locals)
    | UnboundLocalError(tracker: Tracker)

  /** `x += 1` on a local. */
  function Incremented(x: Local<int>): Local<int> {
    match x
    case Unbound => Unbound
    case Bound(v) => Bound(v + 1)
  }

  /** The squat branch as written: the module-level window slides, the rest lives in `l`. The
      second test of the `elif` is only evaluated when the first holds. */
  function SquatFrameAsWritten(tr: Tracker, l: Locals, p: Pose): (r: Outcome)
    ensures r.tracker == tr.(windows := tr.windows.(knee := Slide(tr.windows.knee, (p.rKnee + p.lKnee) / 2.0)))
  {
    var h := Slide(tr.windows.knee, (p.rKnee + p.lKnee) / 2.0);
    var smoothed := Mean(h);
    var global := tr.(windows := tr.windows.(knee := h));
    var l1 := l.(kneeAngle := Bound(Trunc(smoothed)));
    if smoothed <= SquatKneeMin then Continue(global, l1.(squatStage := Bound(Down)))
    else if smoothed >= SquatKneeMax then
      match l1.squatStage
      case Unbound => UnboundLocalError(global)
      case Bound(s) =>
        if s != Down then Continue(global, l1)
        else if l1.squatCount.Unbound? then UnboundLocalError(global)
        else
          var l2 := l1.(squatStage := Bound(Up), squatCount := Incremented(l1.squatCount));
          if p.spine > SquatSpineMin then Continue(global, l2.(squatGood := Incremented(l2.squatGood)))
          else Continue(global, l2.(squatBad := Incremented(l2.squatBad)))
    else Continue(global, l1)
  }

  /** The plank branch as written: `plank_start_time is None` reads the local before anything
      assigns it. `now` is the clock reading. */
  function PlankFrameAsWritten(tr: Tracker, l: Locals, p: Pose, now: real): Outcome {
    match l.plankStart
    case Unbound => UnboundLocalError(tr)
    case Bound(start) =>
      var good := p.alignment < PlankAlignmentThreshold;
      Continue(tr, l.(plankTime := Bound(Trunc(now - start)),
                      plankGood := if good then Incremented(l.plankGood) else l.plankGood,
                      plankBad := if good then l.plankBad else Incremented(l.plankBad)))
  }

  /** `squat_count` is only ever assigned by `+=`, so it is never bound: a squat frame that goes
      on leaves it unbound. */
  lemma SquatCountStaysUnbound(tr: Tracker, l: Locals, p: Pose)
    requires l.squatCount.Unbound?
    ensures SquatFrameAsWritten(tr, l, p).Continue? ==> SquatFrameAsWritten(tr, l, p).locals.squatCount.Unbound?
  {
  }

  /** Nothing a squat frame does reaches the module-level counters, stages or displayed angle. */
  lemma SquatLeavesGlobals(tr: Tracker, l: Locals, p: Pose)
    ensures var r := SquatFrameAsWritten(tr, l, p).tracker;
      r.counters == tr.counters && r.stages == tr.stages && r.display == tr.display
  {
  }

  /** Every frame that should complete a squat raises instead: where the intended rule counts a
      repetition from the stage the generator holds, the frame as written raises
      `UnboundLocalError`. */
  lemma {:induction false} SquatRepetitionRaises(tr: Tracker, l: Locals, p: Pose)
    requires l.squatCount.Unbound?
    requires l.squatStage == Bound(Down)
    requires SquatRule(Some(Down), Mean(Slide(tr.windows.knee, (p.rKnee + p.lKnee) / 2.0)), p.spine).counted
    ensures SquatFrameAsWritten(tr, l, p).UnboundLocalError?
  {
    var smoothed := Mean(Slide(tr.windows.knee, (p.rKnee + p.lKnee) / 2.0));
    assert smoothed >= SquatKneeMax;
  }

  /** The first squat frame of a user standing straight (both knees at 170 degrees) ends the video
      stream, where the intended rule simply waits for the user to go down. */
  lemma StandingSquatFrameRaises()
    ensures var p := Pose(0.0, 0.0, 180.0, false, false, 170.0, 170.0, 0.0);
      && SquatFrameAsWritten(ZeroTracker, FreshLocals, p).UnboundLocalError?
      && SquatStep(ZeroTracker, p) == ZeroTracker.(windows := EmptyWindows.(knee := [170.0]),
                                                   display := Display(0, 0, 0, 170))
  {
    var p := Pose(0.0, 0.0, 180.0, false, false, 170.0, 170.0, 0.0);
    assert Slide([], 170.0) == [170.0];
    assert Sum([170.0]) == 170.0 by { assert [170.0][..0] == []; }
    assert Mean([170.0]) == 170.0;
    assert Trunc(170.0) == 170;
  }

  /** The tracker before any frame. */
  const ZeroTracker := Tracker(ZeroCounters, NoStages, EmptyWindows, Display(0, 0, 0, 0), None)

  /** `plank_start_time` is assigned only after it is read, so no frame binds it and every plank
      frame with a detected pose raises: the plank timer never starts. */
  lemma PlankAlwaysRaises(tr: Tracker, l: Locals, p: Pose, now: real)
    requires l.plankStart.Unbound?
    ensures PlankFrameAsWritten(tr, l, p, now) == UnboundLocalError(tr)
    ensures var r := SquatFrameAsWritten(tr, l, p); r.Continue? ==> r.locals.plankStart.Unbound?
  {
  }

  /** Where the as-written plank frame raises, the intended one starts the hold at `now` and
      books half a second of posture time. */
  lemma PlankIntended(tr: Tracker, p: Pose, now: real)
    requires tr.plankStart.None?
    ensures var r := PlankStep(tr, p, now);
      && r.plankStart == Some(now) && r.counters.plankTime == 0
      && r.counters.plankGoodHalves + r.counters.plankBadHalves
         == tr.counters.plankGoodHalves + tr.counters.plankBadHalves + 1
  {
  }

  /** Where the as-written squat frame raises on a completed repetition, the intended one counts
      it, good or bad by the spine angle. */
  lemma SquatIntended(tr: Tracker, p: Pose)
    requires tr.stages.squat == Some(Down)
    requires Mean(Slide(tr.windows.knee, (p.rKnee + p.lKnee) / 2.0)) >= SquatKneeMax
    ensures var r := SquatStep(tr, p);
      && r.counters.squat.count == tr.counters.squat.count + 1
      && r.stages.squat == Some(Up)
      && (p.spine > SquatSpineMin ==> r.counters.squat.good == tr.counters.squat.good + 1)
      && (p.spine <= SquatSpineMin ==> r.counters.squat.bad == tr.counters.squat.bad + 1)
  {
  }
}
