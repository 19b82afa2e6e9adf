/** The per-frame bookkeeping of `gen_frames` in app.py: the smoothing windows, the stage machines
    that decide when a repetition is counted, and the good/bad posture tallies. Angles arrive as
    real numbers computed elsewhere; the posture tests arrive as their outcomes. */
module Tracking {
  import opened Optional

  const PushupElbowMin: real := 70.0
  const PushupElbowMax: real := 160.0
  const CurlElbowMin: real := 50.0
  const CurlElbowMax: real := 160.0
  const SquatKneeMin: real := 80.0
  const SquatKneeMax: real := 160.0
  /** Push-up spine angle above which the back counts as straight. */
  const PushupSpineMin: real := 150.0
  /** Squat spine angle above which the back counts as straight. */
  const SquatSpineMin: real := 140.0
  const PlankAlignmentThreshold: real := 0.15
  /** ANGLE_HISTORY_WINDOW: how many recent angles are averaged. */
  const AngleHistoryWindow: nat := 8

  datatype Stage = Up | Down

  function StageName(s: Stage): string {
    match s
    case Up => "up"
    case Down => "down"
  }

  function Other(s: Stage): Stage {
    if s == Up then Down else Up
  }

  /** What one frame does to one stage machine: its new stage, whether a repetition completed,
      and whether that repetition had good posture. */
  datatype Transition = Transition(stage: Option<Stage>, counted: bool, good: bool)

  /** The hysteresis rule shared by every counted exercise: `enter` moves to the first stage;
      otherwise `reach` while in the first stage moves to the other one and counts a repetition. */
  function StageRule(stage: Option<Stage>, first: Stage, enter: bool, reach: bool, posture: bool)
    : (t: Transition)
    ensures t.counted <==> !enter && reach && stage == Some(first)
    ensures t.counted ==> t.stage == Some(Other(first)) && (t.good <==> posture)
    ensures !t.counted ==> !t.good
    ensures enter ==> t.stage == Some(first)
    ensures !enter && !t.counted ==> t.stage == stage
  {
    if enter then Transition(Some(first), false, false)
    else if reach && stage == Some(first) then Transition(Some(Other(first)), true, posture)
    else Transition(stage, false, false)
  }

  /** The three tests one frame feeds to a stage machine. */
  datatype Reading = Reading(enter: bool, reach: bool, posture: bool)

  /** The repetitions a stage machine counts over a run of frames, starting in `stage`. */
  function CountedOver(stage: Option<Stage>, first: Stage, frames: seq<Reading>): nat
    decreases |frames|
  {
    if frames == [] then 0
    else
      var t := StageRule(stage, first, frames[0].enter, frames[0].reach, frames[0].posture);
      (if t.counted then 1 else 0) + CountedOver(t.stage, first, frames[1..])
  }

  /** The machine re-arms only through the entry test: over frames that never pass it, at most
      one repetition is counted, and none unless the run starts in the first stage. */
  lemma {:induction false} NoRecountWithoutEntry(stage: Option<Stage>, first: Stage, frames: seq<Reading>)
    requires forall i :: 0 <= i < |frames| ==> !frames[i].enter
    ensures CountedOver(stage, first, frames) <= 1
    ensures stage != Some(first) ==> CountedOver(stage, first, frames) == 0
    decreases |frames|
  {
    if frames != [] {
      var t := StageRule(stage, first, frames[0].enter, frames[0].reach, frames[0].posture);
      assert forall i :: 0 <= i < |frames[1..]| ==> frames[1..][i] == frames[i + 1];
      NoRecountWithoutEntry(t.stage, first, frames[1..]);
    }
  }

  /** Push-up (app.py lines 143-156): down when the elbow closes with a straight spine, a repetition
      when it opens again with a straight spine. */
  function PushUpRule(stage: Option<Stage>, smoothed: real, spine: real): (t: Transition)
    ensures t.counted <==> stage == Some(Down) && smoothed >= PushupElbowMax && spine > PushupSpineMin
    ensures t.counted ==> t.stage == Some(Up) && t.good
    ensures smoothed <= PushupElbowMin && spine > PushupSpineMin ==> t.stage == Some(Down)
    ensures !(smoothed <= PushupElbowMin && spine > PushupSpineMin) && !t.counted ==> t.stage == stage
  {
    StageRule(stage, Down, smoothed <= PushupElbowMin && spine > PushupSpineMin,
              smoothed >= PushupElbowMax && spine > PushupSpineMin, spine > PushupSpineMin)
  }

  /** One curl arm (app.py lines 173-201): up when the elbow closes while tucked to the torso,
      a repetition when it opens again; posture is good when the elbow is still tucked. */
  function CurlRule(stage: Option<Stage>, smoothed: real, tucked: bool): (t: Transition)
    ensures t.counted <==> stage == Some(Up) && smoothed >= CurlElbowMax
    ensures t.counted ==> t.stage == Some(Down) && (t.good <==> tucked)
    ensures smoothed <= CurlElbowMin && tucked ==> t.stage == Some(Up)
    ensures !(smoothed <= CurlElbowMin && tucked) && !t.counted ==> t.stage == stage
  {
    StageRule(stage, Up, smoothed <= CurlElbowMin && tucked, smoothed >= CurlElbowMax, tucked)
  }

  /** Squat (app.py lines 230-243): down when the knee closes, a repetition when it opens again;
      posture is good when the spine angle is above 140. */
  function SquatRule(stage: Option<Stage>, knee: real, spine: real): (t: Transition)
    ensures t.counted <==> stage == Some(Down) && knee >= SquatKneeMax
    ensures t.counted ==> t.stage == Some(Up) && (t.good <==> spine > SquatSpineMin)
    ensures knee <= SquatKneeMin ==> t.stage == Some(Down)
    ensures knee > SquatKneeMin && !t.counted ==> t.stage == stage
  {
    StageRule(stage, Down, knee <= SquatKneeMin, knee >= SquatKneeMax, spine > SquatSpineMin)
  }

  /** `count` repetitions split into `good` and `bad` ones. */
  predicate Split(count: int, good: int, bad: int) {
    0 <= good && 0 <= bad && good + bad == count
  }

  /** A repetition counter with its good/bad posture split. */
  datatype Tally = Tally(count: int, good: int, bad: int) {
    /** Every counted repetition is either good or bad. */
    predicate Balanced() {
      Split(count, good, bad)
    }
  }

  const ZeroTally := Tally(0, 0, 0)

  /** `count += 1` and one of `good`/`bad` `+= 1` on a completed repetition; nothing otherwise. */
  function Tallied(t: Tally, tr: Transition): (r: Tally)
    ensures r.count == t.count + (if tr.counted then 1 else 0)
    ensures r.good + r.bad == t.good + t.bad + (if tr.counted then 1 else 0)
    ensures r.good >= t.good && r.bad >= t.bad
    ensures tr.counted ==> (r.good > t.good <==> tr.good)
    ensures t.Balanced() ==> r.Balanced()
  {
    if !tr.counted then t
    else if tr.good then Tally(t.count + 1, t.good + 1, t.bad)
    else Tally(t.count + 1, t.good, t.bad + 1)
  }

  /** Python's `int(x)` on a float: truncation toward zero. */
  function Trunc(x: real): (r: int)
    ensures 0.0 <= x ==> r >= 0 && r as real <= x < r as real + 1.0
    ensures x < 0.0 ==> r <= 0 && r as real - 1.0 < x <= r as real
  {
    if x >= 0.0 then x.Floor else -((-x).Floor)
  }

  /** The last `n` elements of `s` (all of them when there are fewer). */
  function LastN(s: seq<real>, n: nat): (r: seq<real>)
    ensures |r| == if |s| <= n then |s| else n
    ensures |s| <= n ==> r == s
    ensures |s| > n ==> r == s[|s| - n..]
  {
    if |s| <= n then s else s[|s| - n..]
  }

  /** `history.append(x); if len(history) > 8: history.pop(0)`. */
  function Slide(history: seq<real>, x: real): (r: seq<real>)
    ensures |r| > 0 && r[|r| - 1] == x
    ensures |history| <= AngleHistoryWindow ==> r == LastN(history + [x], AngleHistoryWindow)
  {
    var h := history + [x];
    if |h| > AngleHistoryWindow then h[1..] else h
  }

  /** Keeping the last `n` of a log and then more values is the same as keeping the last `n` of
      the whole log. */
  lemma LastNAbsorb(s: seq<real>, t: seq<real>, n: nat)
    ensures LastN(LastN(s, n) + t, n) == LastN(s + t, n)
  {
    if |s| > n {
      var k := |s| - n;
      assert s + t == s[..k] + (s[k..] + t);
      var u := s[k..] + t;
      if |u| > n {
        assert (s + t)[|s + t| - n..] == u[|u| - n..];
      } else {
        assert |s + t| > n;
      }
    }
  }

  /** The window after any sequence of arrivals holds the most recent (at most eight) angles in
      arrival order. */
  lemma {:induction false} SlideKeepsRecent(log: seq<real>, x: real)
    ensures Slide(LastN(log, AngleHistoryWindow), x) == LastN(log + [x], AngleHistoryWindow)
  {
    LastNAbsorb(log, [x], AngleHistoryWindow);
  }

  function Sum(s: seq<real>): real
    decreases |s|
  {
    if s == [] then 0.0 else Sum(s[..|s| - 1]) + s[|s| - 1]
  }

  /** `sum(history) / len(history)`. */
  function Mean(s: seq<real>): real
    requires |s| > 0
  {
    Sum(s) / (|s| as real)
  }

  lemma {:induction false} SumWithin(s: seq<real>, lo: real, hi: real)
    requires forall i :: 0 <= i < |s| ==> lo <= s[i] <= hi
    ensures (|s| as real) * lo <= Sum(s) <= (|s| as real) * hi
    decreases |s|
  {
    if s != [] {
      SumWithin(s[..|s| - 1], lo, hi);
    }
  }

  /** The smoothed angle stays within the range of the angles in the window. */
  lemma MeanWithin(s: seq<real>, lo: real, hi: real)
    requires |s| > 0
    requires forall i :: 0 <= i < |s| ==> lo <= s[i] <= hi
    ensures lo <= Mean(s) <= hi
  {
    SumWithin(s, lo, hi);
    var n := |s| as real;
    assert Mean(s) * n == Sum(s);
  }

  /** The per-exercise counters that `start_session` zeroes. Plank posture time grows by 0.5 s a
      frame, so it is kept in half seconds. */
  datatype Counters = Counters(
    pushup: Tally, curlR: Tally, curlL: Tally, squat: Tally,
    plankTime: int, plankGoodHalves: int, plankBadHalves: int)
  {
    /** good + bad == count for every counted exercise, and push-up bad posture never grows. */
    predicate Balanced() {
      && Split(pushup.count, pushup.good, pushup.bad) && pushup.bad == 0
      && Split(curlR.count, curlR.good, curlR.bad) && Split(curlL.count, curlL.good, curlL.bad)
      && Split(squat.count, squat.good, squat.bad)
      && Split(plankGoodHalves + plankBadHalves, plankGoodHalves, plankBadHalves)
    }
  }

  const ZeroCounters := Counters(ZeroTally, ZeroTally, ZeroTally, ZeroTally, 0, 0, 0)

  datatype Stages = Stages(pushup: Option<Stage>, curlR: Option<Stage>, curlL: Option<Stage>,
                           squat: Option<Stage>)

  const NoStages := Stages(None, None, None, None)

  /** `angle_history`, `angle_history_r`, `angle_history_l`, `knee_angle_history`. */
  datatype Windows = Windows(elbow: seq<real>, right: seq<real>, left: seq<real>, knee: seq<real>)

  const EmptyWindows := Windows([], [], [], [])

  /** `current_elbow_angle`, `current_elbow_angle_r`, `current_elbow_angle_l`, `current_knee_angle`. */
  datatype Display = Display(elbow: int, right: int, left: int, knee: int)

  /** The joint measurements of one camera frame, as `gen_frames` computes them from the landmarks. */
  datatype Pose = Pose(
    rElbow: real, lElbow: real,   // elbow angles
    spine: real,                  // shoulder / mid-hip / shoulder angle
    rTucked: bool, lTucked: bool, // |elbow.x - torso_x| < 0.1
    rKnee: real, lKnee: real,     // knee angles
    alignment: real)              // plank alignment deviation

  /** Everything one frame of `gen_frames` may change. */
  datatype Tracker = Tracker(counters: Counters, stages: Stages, windows: Windows, display: Display,
                             plankStart: Option<real>)

  /** A window never holds more than eight angles. */
  predicate WindowsBounded(w: Windows) {
    |w.elbow| <= AngleHistoryWindow && |w.right| <= AngleHistoryWindow
    && |w.left| <= AngleHistoryWindow && |w.knee| <= AngleHistoryWindow
  }

  /** One counter and its stage machine across a frame: either nothing was counted and the stage
      stayed or entered the first stage, or exactly one repetition was counted (good or bad) on
      the move from the first stage to the other. */
  predicate TallyStep(before: Tally, after: Tally, sb: Option<Stage>, sa: Option<Stage>, first: Stage) {
    (after == before && (sa == sb || sa == Some(first)))
    || (after.count == before.count + 1 && after.good + after.bad == before.good + before.bad + 1
        && after.good >= before.good && after.bad >= before.bad
        && sb == Some(first) && sa == Some(Other(first)))
  }

  /** The push-up branch (app.py lines 130-156). */
  function PushUpStep(tr: Tracker, p: Pose): (r: Tracker)
    ensures TallyStep(tr.counters.pushup, r.counters.pushup, tr.stages.pushup, r.stages.pushup, Down)
    ensures r.counters.pushup.bad == tr.counters.pushup.bad
    ensures r.plankStart == tr.plankStart
    ensures tr.counters.Balanced() ==> r.counters.Balanced()
    ensures WindowsBounded(tr.windows) ==> WindowsBounded(r.windows)
  {
    var h := Slide(tr.windows.elbow, (p.rElbow + p.lElbow) / 2.0);
    var t := PushUpRule(tr.stages.pushup, Mean(h), p.spine);
    tr.(windows := tr.windows.(elbow := h),
        display := tr.display.(elbow := Trunc(Mean(h))),
        stages := tr.stages.(pushup := t.stage),
        counters := tr.counters.(pushup := Tallied(tr.counters.pushup, t)))
  }

  /** The curl branch (app.py lines 158-201): each arm has its own window and stage machine. */
  function CurlStep(tr: Tracker, p: Pose): (r: Tracker)
    ensures TallyStep(tr.counters.curlR, r.counters.curlR, tr.stages.curlR, r.stages.curlR, Up)
    ensures TallyStep(tr.counters.curlL, r.counters.curlL, tr.stages.curlL, r.stages.curlL, Up)
    ensures r.plankStart == tr.plankStart
    ensures tr.counters.Balanced() ==> r.counters.Balanced()
    ensures WindowsBounded(tr.windows) ==> WindowsBounded(r.windows)
  {
    var hr := Slide(tr.windows.right, p.rElbow);
    var hl := Slide(tr.windows.left, p.lElbow);
    var tr' := CurlRule(tr.stages.curlR, Mean(hr), p.rTucked);
    var tl := CurlRule(tr.stages.curlL, Mean(hl), p.lTucked);
    tr.(windows := tr.windows.(right := hr, left := hl),
        display := tr.display.(right := Trunc(Mean(hr)), left := Trunc(Mean(hl))),
        stages := tr.stages.(curlR := tr'.stage, curlL := tl.stage),
        counters := tr.counters.(curlR := Tallied(tr.counters.curlR, tr'),
                                 curlL := Tallied(tr.counters.curlL, tl)))
  }

  /** The squat branch (app.py lines 203-243), as the authors evidently meant it: the squat
      stage, counter, posture tallies and displayed knee angle are the module-level ones. */
  function SquatStep(tr: Tracker, p: Pose): (r: Tracker)
    ensures TallyStep(tr.counters.squat, r.counters.squat, tr.stages.squat, r.stages.squat, Down)
    ensures r.plankStart == tr.plankStart
    ensures tr.counters.Balanced() ==> r.counters.Balanced()
    ensures WindowsBounded(tr.windows) ==> WindowsBounded(r.windows)
  {
    var h := Slide(tr.windows.knee, (p.rKnee + p.lKnee) / 2.0);
    var t := SquatRule(tr.stages.squat, Mean(h), p.spine);
    tr.(windows := tr.windows.(knee := h),
        display := tr.display.(knee := Trunc(Mean(h))),
        stages := tr.stages.(squat := t.stage),
        counters := tr.counters.(squat := Tallied(tr.counters.squat, t)))
  }

  /** The plank branch (app.py lines 245-281), as the authors evidently meant it: the hold starts
      at the first plank frame, the plank time is the whole seconds since then, and every frame
      adds half a second of good or bad posture. `now` is the clock reading. */
  function PlankStep(tr: Tracker, p: Pose, now: real): (r: Tracker)
    ensures r.plankStart == Some(tr.plankStart.GetOr(now))
    ensures r.plankStart.value <= now ==> r.counters.plankTime >= 0
    ensures r.counters.plankGoodHalves + r.counters.plankBadHalves
            == tr.counters.plankGoodHalves + tr.counters.plankBadHalves + 1
    ensures r.counters.plankGoodHalves > tr.counters.plankGoodHalves <==> p.alignment < PlankAlignmentThreshold
    ensures r.stages == tr.stages && r.windows == tr.windows
    ensures tr.counters.Balanced() ==> r.counters.Balanced()
    ensures WindowsBounded(tr.windows) ==> WindowsBounded(r.windows)
  {
    var start := if tr.plankStart.None? then now else tr.plankStart.value;
    var good := p.alignment < PlankAlignmentThreshold;
    var c := tr.counters;
    tr.(plankStart := Some(start),
        counters := c.(plankTime := Trunc(now - start),
                       plankGoodHalves := c.plankGoodHalves + (if good then 1 else 0),
                       plankBadHalves := c.plankBadHalves + (if good then 0 else 1)),
        display := tr.display.(elbow := Trunc(p.alignment * 1000.0)))
  }

  /** One processed camera frame: nothing happens without detected landmarks or in an unknown mode. */
  function FrameStep(mode: string, tr: Tracker, pose: Option<Pose>, now: real): (r: Tracker)
    ensures TallyStep(tr.counters.pushup, r.counters.pushup, tr.stages.pushup, r.stages.pushup, Down)
    ensures TallyStep(tr.counters.curlR, r.counters.curlR, tr.stages.curlR, r.stages.curlR, Up)
    ensures TallyStep(tr.counters.curlL, r.counters.curlL, tr.stages.curlL, r.stages.curlL, Up)
    ensures TallyStep(tr.counters.squat, r.counters.squat, tr.stages.squat, r.stages.squat, Down)
    ensures tr.counters.Balanced() ==> r.counters.Balanced()
    ensures WindowsBounded(tr.windows) ==> WindowsBounded(r.windows)
    ensures r.counters.plankGoodHalves + r.counters.plankBadHalves
            == tr.counters.plankGoodHalves + tr.counters.plankBadHalves
               + (if pose.Some? && mode == "Plank" then 1 else 0)
    ensures pose.None? || mode !in {"Push-Up", "Curl", "Squat", "Plank"} ==> r == tr
    ensures mode != "Plank" ==> r.plankStart == tr.plankStart && r.counters.plankTime == tr.counters.plankTime
  {
    match pose
    case None => tr
    case Some(p) =>
      if mode == "Push-Up" then PushUpStep(tr, p)
      else if mode == "Curl" then CurlStep(tr, p)
      else if mode == "Squat" then SquatStep(tr, p)
      else if mode == "Plank" then PlankStep(tr, p, now)
      else tr
  }
}
