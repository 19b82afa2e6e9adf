/** The JSON shapes exchanged between the Flask server (app.py) and the React client:
    a session record (`/get_sessions`, `save_current_session`) and a telemetry frame (`/pose_data`).
    A field that is absent, or null, is `None`. */
module Records {
  import opened Optional

  datatype SessionRecord = SessionRecord(
    id: Option<int>,
    mode: Option<string>,
    startTime: Option<string>,
    endTime: Option<string>,
    isActive: Option<bool>,
    totalReps: Option<int>,
    pushupCount: Option<int>,
    curlCountR: Option<int>,
    curlCountL: Option<int>,
    squatCount: Option<int>,
    plankTime: Option<int>,
    pushupGood: Option<int>,
    pushupBad: Option<int>,
    curlRGood: Option<int>,
    curlRBad: Option<int>,
    curlLGood: Option<int>,
    curlLBad: Option<int>,
    squatGood: Option<int>,
    squatBad: Option<int>,
    plankGoodTime: Option<int>,
    plankBadTime: Option<int>)

  /** One `/pose_data` reply. */
  datatype Frame = Frame(
    mode: Option<string>,
    pushupCount: Option<int>,
    pushupStage: Option<string>,
    curlCountR: Option<int>,
    curlCountL: Option<int>,
    curlStageR: Option<string>,
    curlStageL: Option<string>,
    squatCount: Option<int>,
    squatStage: Option<string>,
    plankTime: Option<int>,
    elbowAngle: Option<int>,
    kneeAngle: Option<int>,
    elbowAngleR: Option<int>,
    elbowAngleL: Option<int>,
    pushupGood: Option<int>,
    pushupBad: Option<int>,
    curlRGood: Option<int>,
    curlRBad: Option<int>,
    curlLGood: Option<int>,
    curlLBad: Option<int>,
    squatGood: Option<int>,
    squatBad: Option<int>,
    plankGoodTime: Option<int>,
    plankBadTime: Option<int>)

  /** The empty object `{}`. */
  const EmptyFrame := Frame(None, None, None, None, None, None, None, None, None, None, None, None,
                            None, None, None, None, None, None, None, None, None, None, None, None)

  /** `total_reps`, absent read as 0 (`s.get("total_reps", 0)` and `s.total_reps || 0` alike). */
  function Reps(s: SessionRecord): int {
    OrZero(s.totalReps)
  }

  /** Sum of `total_reps` over a list of records, in list order. */
  function TotalReps(rows: seq<SessionRecord>): int
    decreases |rows|
  {
    if rows == [] then 0 else TotalReps(rows[..|rows| - 1]) + Reps(rows[|rows| - 1])
  }

  lemma {:induction false} TotalRepsAppend(a: seq<SessionRecord>, b: seq<SessionRecord>)
    ensures TotalReps(a + b) == TotalReps(a) + TotalReps(b)
    decreases |b|
  {
    if b == [] {
      assert a + b == a;
    } else {
      var b' := b[..|b| - 1];
      assert (a + b)[..|a + b| - 1] == a + b';
      TotalRepsAppend(a, b');
    }
  }
}
