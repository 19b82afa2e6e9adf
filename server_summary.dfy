/** What `get_summary` (app.py lines 487-597) computes from the rows it aggregates: the saved
    records plus, while a session is open, one row describing it. */
module ServerSummary {
  import opened Optional
  import opened Records
  import opened Tables

  /** The `current_session` object of the reply (app.py lines 586-596). */
  datatype OpenSessionView = OpenSessionView(
    mode: Option<string>, reps: int, startTime: string,
    pushupGood: int, pushupBad: int, curlRGood: int, curlRBad: int, curlLGood: int, curlLBad: int)

  datatype Summary =
      /** The five-key all-zero reply given when there is nothing to aggregate (lines 506-513). */
    | NoSessions
    | Totals(totalSessions: int, activeSessions: int, totalReps: int,
             byMode: map<string, ModeStats>, byExercise: map<string, ExerciseStats>,
             averageReps: real, current: Option<OpenSessionView>)

  /** `session.get("mode", "Unknown")`. */
  function ModeName(row: SessionRecord): string {
    row.mode.GetOr("Unknown")
  }

  const RightArm := "Curl (Right Arm)"
  const LeftArm := "Curl (Left Arm)"

  /** One row's contribution to `by_exercise` (lines 527-577): the exercise's own counter and
      posture fields, a curl split over two arm keys, nothing for any other mode. */
  function AddExercise(m: map<string, ExerciseStats>, row: SessionRecord): map<string, ExerciseStats> {
    var name := ModeName(row);
    if name == "Push-Up" then
      Accrue(m, "Push-Up", OrZero(row.pushupCount), OrZero(row.pushupGood), OrZero(row.pushupBad))
    else if name == "Curl" then
      var m1 := if RightArm !in m then m[RightArm := ExerciseStats(0, 0, 0)] else m;
      var m2 := if LeftArm !in m1 then m1[LeftArm := ExerciseStats(0, 0, 0)] else m1;
      var m3 := Accrue(m2, RightArm, OrZero(row.curlCountR), OrZero(row.curlRGood), OrZero(row.curlRBad));
      Accrue(m3, LeftArm, OrZero(row.curlCountL), OrZero(row.curlLGood), OrZero(row.curlLBad))
    else if name == "Squat" then
      Accrue(m, "Squat", OrZero(row.squatCount), OrZero(row.squatGood), OrZero(row.squatBad))
    else if name == "Plank" then
      Accrue(m, "Plank", OrZero(row.plankTime), OrZero(row.plankGoodTime), OrZero(row.plankBadTime))
    else m
  }

  /** The `by_exercise` table after the rows, in order. */
  function ByExerciseOf(rows: seq<SessionRecord>): map<string, ExerciseStats>
    decreases |rows|
  {
    if rows == [] then map[] else AddExercise(ByExerciseOf(rows[..|rows| - 1]), rows[|rows| - 1])
  }

  /** The keys `by_exercise` can have. */
  const ExerciseKeys: set<string> := {"Push-Up", RightArm, LeftArm, "Squat", "Plank"}

  /** `by_exercise` only ever holds the five exercise keys, never a bare "Curl", and the two curl
      arms always appear together. */
  lemma {:induction false} ByExerciseKeys(rows: seq<SessionRecord>)
    ensures ByExerciseOf(rows).Keys <= ExerciseKeys
    ensures RightArm in ByExerciseOf(rows) <==> LeftArm in ByExerciseOf(rows)
    ensures RightArm in ByExerciseOf(rows) <==> exists i :: 0 <= i < |rows| && ModeName(rows[i]) == "Curl"
    decreases |rows|
  {
    if rows != [] {
      var init := rows[..|rows| - 1];
      ByExerciseKeys(init);
      if exists i :: 0 <= i < |init| && ModeName(init[i]) == "Curl" {
        var i :| 0 <= i < |init| && ModeName(init[i]) == "Curl";
        assert rows[i] == init[i];
      }
      if exists i :: 0 <= i < |rows| && ModeName(rows[i]) == "Curl" {
        var i :| 0 <= i < |rows| && ModeName(rows[i]) == "Curl";
        if i < |init| {
          assert init[i] == rows[i];
        }
      }
    }
  }
}
