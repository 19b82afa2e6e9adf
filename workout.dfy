/** The live workout page (frontend/src/pages/Workout.jsx): every half second it polls `/pose_data`
    and turns the frame into the value shown on the angle gauge, the repetition count and a line
    of feedback. */
module Workout {
  import opened Optional
  import opened Records
  import opened Decimal

  const Idle := "Good posture"
  const Connecting := "Connecting to backend..."

  /** `stage === "down" ? down : stage === "up" ? up : "Good posture"`. */
  function StageHint(stage: Option<string>, down: string, up: string): (r: string)
    ensures r in {down, up, Idle}
    ensures down != Idle && up != Idle && down != up ==>
              (r == down <==> stage == Some("down")) && (r == up <==> stage == Some("up"))
  {
    if stage == Some("down") then down else if stage == Some("up") then up else Idle
  }

  /** One arm's hint in curl mode (Workout.jsx lines 63-75). */
  function ArmLabel(stage: Option<string>): (r: string)
    ensures r in {"Curl", "Slow down", Idle}
  {
    StageHint(stage, "Slow down", "Curl")
  }

  /** The index of the first '/' in `s`, or `|s|` when there is none. */
  function SlashAt(s: string): (i: nat)
    ensures i <= |s|
    ensures i < |s| ==> s[i] == '/'
    ensures forall j :: 0 <= j < i ==> s[j] != '/'
    decreases |s|
  {
    if s == [] || s[0] == '/' then 0
    else
      var i := SlashAt(s[1..]);
      assert forall j :: 1 <= j < i + 1 ==> s[j] == s[1..][j - 1];
      i + 1
  }

  /** Reads both arms' hints back from a curl feedback line: the parts around the first " / ",
      or the line itself for both arms when it holds no slash. */
  function ArmsOf(line: string): (string, string) {
    var i := SlashAt(line);
    if 1 <= i && i + 2 <= |line| then (line[..i - 1], line[i + 2..]) else (line, line)
  }

  /** Curl feedback (Workout.jsx lines 77-81): one hint when both arms agree, else "right / left".
      The line names the arms' disagreement by its slash and loses neither arm's hint. */
  function CurlFeedback(f: Frame): (r: string)
    ensures '/' in r <==> ArmLabel(f.curlStageR) != ArmLabel(f.curlStageL)
    ensures ArmsOf(r) == (ArmLabel(f.curlStageR), ArmLabel(f.curlStageL))
  {
    var right, left := ArmLabel(f.curlStageR), ArmLabel(f.curlStageL);
    ArmLabelSlashFree(f.curlStageR);
    if right == left then
      assert SlashAt(right) == |right|;
      right
    else
      var t := right + " / " + left;
      FirstSlash(right, left);
      assert SlashAt(t) == |right| + 1;
      assert t[..|right|] == right && t[|right| + 3..] == left;
      t
  }

  /** Plank feedback (Workout.jsx lines 97-100): `plank_time > 0` is false for an absent time. */
  function PlankFeedback(f: Frame): string {
    if f.plankTime.Some? && f.plankTime.value > 0 then "Hold steady (" + IntToString(f.plankTime.value) + "s)"
    else "Start plank position"
  }

  /** Whether the frame carries a value for the gauge: its mode's own field or `elbow_angle`. */
  predicate CarriesGauge(f: Frame) {
    (f.mode == Some("Squat") && f.kneeAngle.Some?) || (f.mode == Some("Plank") && f.plankTime.Some?)
    || f.elbowAngle.Some?
  }

  /** The gauge value after a frame (Workout.jsx lines 38-44): the knee angle in squat mode, the
      plank time in plank mode, otherwise `elbow_angle`, each only when the field is present;
      with none of them the gauge keeps `shown`. */
  function DisplayValue(f: Frame, shown: int): (r: int)
    ensures CarriesGauge(f) ==> Some(r) in {f.kneeAngle, f.plankTime, f.elbowAngle}
    ensures !CarriesGauge(f) ==> r == shown
    ensures f.mode == Some("Squat") && f.kneeAngle.Some? ==> r == f.kneeAngle.value
    ensures f.mode == Some("Plank") && f.plankTime.Some? ==> r == f.plankTime.value
    ensures !(f.mode == Some("Squat") && f.kneeAngle.Some?) && !(f.mode == Some("Plank") && f.plankTime.Some?) ==>
              r == f.elbowAngle.GetOr(shown)
  {
    if f.mode == Some("Squat") && f.kneeAngle.Some? then f.kneeAngle.value
    else if f.mode == Some("Plank") && f.plankTime.Some? then f.plankTime.value
    else if f.elbowAngle.Some? then f.elbowAngle.value
    else shown
  }

  /** Whether the frame's mode is one the page reacts to with repetitions and feedback. */
  predicate KnownMode(f: Frame) {
    f.mode in {Some("Push-Up"), Some("Curl"), Some("Squat"), Some("Plank")}
  }

  /** The repetition count a frame of a known mode shows (Workout.jsx lines 48, 60-61, 85, 96). */
  function RepsShown(f: Frame): int
    requires KnownMode(f)
  {
    if f.mode == Some("Push-Up") then OrZero(f.pushupCount)
    else if f.mode == Some("Curl") then OrZero(f.curlCountR) + OrZero(f.curlCountL)
    else if f.mode == Some("Squat") then OrZero(f.squatCount)
    else OrZero(f.plankTime)
  }

  /** The feedback line a frame of a known mode shows (Workout.jsx lines 49-55, 63-81, 86-92,
      97-100). */
  function FeedbackShown(f: Frame): string
    requires KnownMode(f)
  {
    if f.mode == Some("Push-Up") then StageHint(f.pushupStage, "Go lower", "Push up")
    else if f.mode == Some("Curl") then CurlFeedback(f)
    else if f.mode == Some("Squat") then StageHint(f.squatStage, "Go lower", "Stand up")
    else PlankFeedback(f)
  }

  /** The page's state slots the poll writes. */
  class LiveView {
    /** `angles.elbow`. */
    var angle: int
    var reps: int
    var feedback: string
    var poseData: Frame

    /** `useState({ elbow: 0 })`, `useState(0)`, `useState("Ready to begin")`, `useState({})`
        (Workout.jsx lines 11-14). */
    constructor()
      ensures angle == 0 && reps == 0 && feedback == "Ready to begin" && poseData == EmptyFrame
    {
      angle := 0;
      reps := 0;
      feedback := "Ready to begin";
      poseData := EmptyFrame;
    }

    /** One tick of the poll (Workout.jsx lines 31-107); `reply` is None when the request or the
        JSON parse failed. A failure only changes the feedback line; a frame of another mode
        updates the stored frame and the gauge and leaves repetitions and feedback alone. */
    method Poll(reply: Option<Frame>)
      modifies this
      ensures reply.None? ==>
                feedback == Connecting && angle == old(angle) && reps == old(reps) && poseData == old(poseData)
      ensures reply.Some? ==> poseData == reply.value && angle == DisplayValue(reply.value, old(angle))
      ensures reply.Some? && KnownMode(reply.value) ==>
                reps == RepsShown(reply.value) && feedback == FeedbackShown(reply.value)
      ensures reply.Some? && !KnownMode(reply.value) ==> reps == old(reps) && feedback == old(feedback)
    {
      if reply.None? {
        feedback := Connecting;
        return;
      }
      var data := reply.value;
      poseData := data;
      if data.mode == Some("Squat") && data.kneeAngle.Some? {
        angle := data.kneeAngle.value;
      } else if data.mode == Some("Plank") && data.plankTime.Some? {
        angle := data.plankTime.value;
      } else if data.elbowAngle.Some? {
        angle := data.elbowAngle.value;
      }
      if data.mode == Some("Push-Up") {
        reps := OrZero(data.pushupCount);
        feedback := StageHint(data.pushupStage, "Go lower", "Push up");
      } else if data.mode == Some("Curl") {
        reps := OrZero(data.curlCountR) + OrZero(data.curlCountL);
        var right := ArmLabel(data.curlStageR);
        var left := ArmLabel(data.curlStageL);
        if right == left {
          feedback := right;
        } else {
          feedback := right + " / " + left;
        }
      } else if data.mode == Some("Squat") {
        reps := OrZero(data.squatCount);
        feedback := StageHint(data.squatStage, "Go lower", "Stand up");
      } else if data.mode == Some("Plank") {
        reps := OrZero(data.plankTime);
        if data.plankTime.Some? && data.plankTime.value > 0 {
          feedback := "Hold steady (" + IntToString(data.plankTime.value) + "s)";
        } else {
          feedback := "Start plank position";
        }
      }
    }
  }

  /** No arm hint contains a slash. */
  lemma ArmLabelSlashFree(stage: Option<string>)
    ensures '/' !in ArmLabel(stage)
  {
    var r := ArmLabel(stage);
    assert r == "Curl" || r == "Slow down" || r == Idle;
  }

  /** In `A + " / " + B` with no slash in `A`, the first slash sits two places after `A`. */
  lemma FirstSlash(a: string, b: string)
    requires '/' !in a
    ensures var t := a + " / " + b;
      t[|a| + 1] == '/' && forall j :: 0 <= j < |a| ==> t[j] != '/'
  {
    var t := a + " / " + b;
    forall j | 0 <= j < |a|
      ensures t[j] != '/'
    {
      assert t[j] == a[j];
    }
  }

  /** Curl feedback never loses an arm: the line determines both arms' hints. */
  lemma CurlFeedbackDetermines(f: Frame, g: Frame)
    requires CurlFeedback(f) == CurlFeedback(g)
    ensures ArmLabel(f.curlStageR) == ArmLabel(g.curlStageR)
    ensures ArmLabel(f.curlStageL) == ArmLabel(g.curlStageL)
  {
    assert ArmsOf(CurlFeedback(f)) == ArmsOf(CurlFeedback(g));
  }

  /** A running plank's feedback names its time: two lines agree only on equal times. */
  lemma PlankFeedbackDetermines(f: Frame, g: Frame)
    requires f.plankTime.Some? && f.plankTime.value > 0 && g.plankTime.Some? && g.plankTime.value > 0
    requires PlankFeedback(f) == PlankFeedback(g)
    ensures f.plankTime == g.plankTime
  {
    var a, b := IntToString(f.plankTime.value), IntToString(g.plankTime.value);
    var t := "Hold steady (" + a + "s)";
    assert t == "Hold steady (" + b + "s)";
    assert a == t[13..|t| - 2];
    assert b == t[13..|t| - 2];
    IntToStringInjective(f.plankTime.value, g.plankTime.value);
  }

  /** The plank line says to start exactly when no positive time has been reported. */
  lemma PlankFeedbackStart(f: Frame)
    ensures PlankFeedback(f) == "Start plank position" <==> !(f.plankTime.Some? && f.plankTime.value > 0)
  {
    if f.plankTime.Some? && f.plankTime.value > 0 {
      var t := PlankFeedback(f);
      assert t[0] == 'H';
    }
  }
}
