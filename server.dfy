/** The Flask server of app.py: its module-level state (mode, counters, stage machines, smoothing
    windows, the saved-session list and the open session) as one object, the frame loop of
    `gen_frames` and the route handlers that read and change that state. Clock readings
    (`datetime.now().isoformat()`, `time.time()`) are parameters. */
module Server {
  import opened Optional
  import opened Tracking
  import opened Records
  import opened Tables
  import opened ServerSummary

  /** An ISO timestamp; the handlers only test it for truthiness, which a non-empty string has. */
  type Timestamp = s: string | |s| > 0 witness "T"

  /** A route's JSON reply. */
  datatype Reply =
    | ModeSet(mode: string)
    | SessionStarted(start: Timestamp)
    | SessionEnded(session: SessionRecord)
      /** HTTP 400 with `{"status": "error", "message": ...}`. */
    | BadRequest(message: string)

  /** `int(x)` of a posture time kept in half seconds: whole seconds, truncated toward zero. */
  function Seconds(halves: int): (r: int)
    ensures 0 <= halves ==> 0 <= 2 * r <= halves < 2 * r + 2
  {
    if halves >= 0 then halves / 2 else -((-halves) / 2)
  }

  /** `total_reps` of a saved session (app.py lines 367-377): zero for a mode it does not know. */
  function SavedTotal(mode: Option<string>, c: Counters): int {
    if mode == Some("Push-Up") then c.pushup.count
    else if mode == Some("Curl") then c.curlR.count + c.curlL.count
    else if mode == Some("Squat") then c.squat.count
    else if mode == Some("Plank") then c.plankTime
    else 0
  }

  /** `total_reps` of the open session in `/get_sessions` (app.py lines 467-471): the plank time for
      a mode it does not know. */
  function LiveTotal(mode: Option<string>, c: Counters): int {
    if mode == Some("Push-Up") then c.pushup.count
    else if mode == Some("Curl") then c.curlR.count + c.curlL.count
    else if mode == Some("Squat") then c.squat.count
    else c.plankTime
  }

  /** The two totals agree on the four exercises and part only on a mode the server does not know. */
  lemma SavedAndLiveTotals(mode: Option<string>, c: Counters)
    ensures mode in {Some("Push-Up"), Some("Curl"), Some("Squat"), Some("Plank")} ==>
              SavedTotal(mode, c) == LiveTotal(mode, c)
    ensures mode !in {Some("Push-Up"), Some("Curl"), Some("Squat"), Some("Plank")} ==>
              SavedTotal(mode, c) == 0 && LiveTotal(mode, c) == c.plankTime
  {
  }

  /** The record shape shared by `save_current_session` and `/get_sessions`. */
  function Record(id: int, mode: Option<string>, start: string, end: Option<string>,
                  active: Option<bool>, total: int, c: Counters): SessionRecord {
    SessionRecord(Some(id), mode, Some(start), end, active, Some(total),
                  Some(c.pushup.count), Some(c.curlR.count), Some(c.curlL.count), Some(c.squat.count),
                  Some(c.plankTime), Some(c.pushup.good), Some(c.pushup.bad),
                  Some(c.curlR.good), Some(c.curlR.bad), Some(c.curlL.good), Some(c.curlL.bad),
                  Some(c.squat.good), Some(c.squat.bad),
                  Some(Seconds(c.plankGoodHalves)), Some(Seconds(c.plankBadHalves)))
  }

  /** `total_reps` of the open-session row of `/get_summary` (app.py line 497). */
  function OpenRowTotal(mode: Option<string>, c: Counters): int {
    if mode == Some("Push-Up") then c.pushup.count else c.curlR.count + c.curlL.count
  }

  /** The open-session row `get_summary` aggregates (app.py lines 492-504): no squat or plank
      fields at all. */
  function OpenRow(mode: Option<string>, c: Counters): SessionRecord {
    SessionRecord(None, mode, None, None, None, Some(OpenRowTotal(mode, c)),
                  Some(c.pushup.count), Some(c.curlR.count), Some(c.curlL.count), None, None,
                  Some(c.pushup.good), Some(c.pushup.bad), Some(c.curlR.good), Some(c.curlR.bad),
                  Some(c.curlL.good), Some(c.curlL.bad), None, None, None, None)
  }

  /** The saved list is numbered 1, 2, ... and holds only closed sessions. */
  predicate Ledger(rows: seq<SessionRecord>) {
    forall i :: 0 <= i < |rows| ==>
      rows[i].id == Some(i + 1) && rows[i].endTime.Some? && rows[i].isActive.None?
  }

  class Server {
    var mode: string
    var counters: Counters
    var stages: Stages
    var windows: Windows
    var display: Display
    /** `plank_start_time`. */
    var plankStart: Option<real>
    /** `workout_sessions`. */
    var sessions: seq<SessionRecord>
    /** `current_session_start`: a session is open exactly when it is set. */
    var sessionStart: Option<Timestamp>
    /** `current_session_mode`. */
    var sessionMode: Option<string>

    ghost predicate Valid()
      reads this
    {
      && WindowsBounded(windows)
      // counters.Balanced(), spelled out on the fields
      && Split(counters.pushup.count, counters.pushup.good, counters.pushup.bad) && counters.pushup.bad == 0
      && Split(counters.curlR.count, counters.curlR.good, counters.curlR.bad)
      && Split(counters.curlL.count, counters.curlL.good, counters.curlL.bad)
      && Split(counters.squat.count, counters.squat.good, counters.squat.bad)
      && Split(counters.plankGoodHalves + counters.plankBadHalves, counters.plankGoodHalves,
               counters.plankBadHalves)
      && (sessionStart.Some? ==> sessionMode.Some?)
      && Ledger(sessions)
    }

    /** The state one frame may change. */
    function Tracked(): Tracker
      reads this
    {
      Tracker(counters, stages, windows, display, plankStart)
    }

    /** The module-level initial values (app.py lines 45-92). */
    constructor()
      ensures Valid()
      ensures mode == "Push-Up" && counters == ZeroCounters && stages == NoStages
      ensures windows == EmptyWindows && display == Display(0, 0, 0, 0) && plankStart == None
      ensures sessions == [] && sessionStart == None && sessionMode == None
    {
      mode := "Push-Up";
      counters := ZeroCounters;
      stages := NoStages;
      windows := EmptyWindows;
      display := Display(0, 0, 0, 0);
      plankStart := None;
      sessions := [];
      sessionStart := None;
      sessionMode := None;
    }

    /** One iteration of the `gen_frames` loop; `pose` is None when no landmarks were detected and
        `now` is `time.time()`. */
    method ProcessFrame(pose: Option<Pose>, now: real)
      requires Valid()
      modifies this`counters, this`stages, this`windows, this`display, this`plankStart
      ensures Valid()
      ensures Tracked() == FrameStep(mode, old(Tracked()), pose, now)
    {
      if pose.None? {
        return;
      }
      if mode == "Push-Up" {
        TrackPushUp(pose.value);
      } else if mode == "Curl" {
        TrackCurl(pose.value);
      } else if mode == "Squat" {
        TrackSquat(pose.value);
      } else if mode == "Plank" {
        TrackPlank(pose.value, now);
      }
    }

    /** The push-up branch of `gen_frames` (app.py lines 130-156). */
    method TrackPushUp(p: Pose)
      modifies this`counters, this`stages, this`windows, this`display
      ensures Tracked() == PushUpStep(old(Tracked()), p)
    {
      var x := (p.rElbow + p.lElbow) / 2.0;
      var h := Push(windows.elbow, x);
      var smoothed := Mean(h);
      var t := PushUpRule(stages.pushup, smoothed, p.spine);
      var tally := Tallied(counters.pushup, t);
      windows := windows.(elbow := h);
      display := display.(elbow := Trunc(smoothed));
      stages := stages.(pushup := t.stage);
      counters := counters.(pushup := tally);
    }

    /** The curl branch of `gen_frames` (app.py lines 158-201). */
    method TrackCurl(p: Pose)
      modifies this`counters, this`stages, this`windows, this`display
      ensures Tracked() == CurlStep(old(Tracked()), p)
    {
      var hr := Push(windows.right, p.rElbow);
      var smoothedR := Mean(hr);
      var hl := Push(windows.left, p.lElbow);
      var smoothedL := Mean(hl);
      var tr := CurlRule(stages.curlR, smoothedR, p.rTucked);
      var tl := CurlRule(stages.curlL, smoothedL, p.lTucked);
      var right, left := Tallied(counters.curlR, tr), Tallied(counters.curlL, tl);
      windows := windows.(right := hr, left := hl);
      display := display.(right := Trunc(smoothedR), left := Trunc(smoothedL));
      stages := stages.(curlR := tr.stage, curlL := tl.stage);
      counters := counters.(curlR := right, curlL := left);
    }

    /** The squat branch of `gen_frames` (app.py lines 203-243), on the module-level squat state. */
    method TrackSquat(p: Pose)
      modifies this`counters, this`stages, this`windows, this`display
      ensures Tracked() == SquatStep(old(Tracked()), p)
    {
      var x := (p.rKnee + p.lKnee) / 2.0;
      var h := Push(windows.knee, x);
      var smoothed := Mean(h);
      var t := SquatRule(stages.squat, smoothed, p.spine);
      var tally := Tallied(counters.squat, t);
      windows := windows.(knee := h);
      display := display.(knee := Trunc(smoothed));
      stages := stages.(squat := t.stage);
      counters := counters.(squat := tally);
    }

    /** The plank branch of `gen_frames` (app.py lines 245-281), on the module-level plank state. */
    method TrackPlank(p: Pose, now: real)
      modifies this`counters, this`display, this`plankStart
      ensures Tracked() == PlankStep(old(Tracked()), p, now)
    {
      if plankStart.None? {
        plankStart := Some(now);
      }
      var elapsed := now - plankStart.value;
      if p.alignment < PlankAlignmentThreshold {
        counters := counters.(plankGoodHalves := counters.plankGoodHalves + 1);
      } else {
        counters := counters.(plankBadHalves := counters.plankBadHalves + 1);
      }
      counters := counters.(plankTime := Trunc(elapsed));
      display := display.(elbow := Trunc(p.alignment * 1000.0));
    }

    /** The record `save_current_session` appends when called at `now`. */
    function Closing(now: Timestamp): (r: SessionRecord)
      reads this
      requires sessionStart.Some?
      ensures r.id == Some(|sessions| + 1) && r.isActive.None? && r.endTime == Some(now)
      ensures r.mode == sessionMode && r.startTime == Some(sessionStart.value)
    {
      Record(|sessions| + 1, sessionMode, sessionStart.value, Some(now), None,
             SavedTotal(sessionMode, counters), counters)
    }

    /** `save_current_session` (app.py lines 356-402): with a session open, append its record and
        return it; otherwise do nothing. The session stays open. */
    method SaveCurrentSession(now: Timestamp) returns (saved: Option<SessionRecord>)
      requires Valid()
      modifies this`sessions
      ensures Valid()
      ensures old(sessionStart).None? ==> saved.None? && sessions == old(sessions)
      ensures old(sessionStart).Some? ==>
                saved == Some(old(Closing(now))) && sessions == old(sessions) + [saved.value]
    {
      if sessionStart.None? {
        return None;
      }
      var record := Closing(now);
      sessions := sessions + [record];
      saved := Some(record);
    }

    /** Whether `set_mode` to `requested` saves the open session first: only when one is open,
        its mode is truthy and differs from the requested one. */
    predicate SavesOnSwitch(requested: string)
      reads this
    {
      sessionStart.Some? && sessionMode.Some? && sessionMode.value != "" && sessionMode.value != requested
    }

    /** `/set_mode` (app.py lines 340-354). Without a mode: 400 and nothing changes. Otherwise the
        open session may be saved, the mode switches, and a session opens only if none is open; an
        open session keeps its original mode and start. */
    method SetMode(requested: Option<string>, now: Timestamp) returns (reply: Reply)
      requires Valid()
      modifies this`mode, this`sessions, this`sessionStart, this`sessionMode
      ensures Valid()
      ensures requested.None? ==>
                reply == BadRequest("Mode not provided") && mode == old(mode) && sessions == old(sessions)
                && sessionStart == old(sessionStart) && sessionMode == old(sessionMode)
      ensures requested.Some? ==>
                reply == ModeSet(requested.value) && mode == requested.value
                && sessions == old(sessions)
                   + (if old(SavesOnSwitch(requested.value)) then [old(Closing(now))] else [])
      ensures requested.Some? && old(sessionStart).None? ==>
                sessionStart == Some(now) && sessionMode == Some(requested.value)
      ensures requested.Some? && old(sessionStart).Some? ==>
                sessionStart == old(sessionStart) && sessionMode == old(sessionMode)
    {
      if requested.None? {
        return BadRequest("Mode not provided");
      }
      if SavesOnSwitch(requested.value) {
        var _ := SaveCurrentSession(now);
      }
      mode := requested.value;
      if sessionStart.None? {
        sessionStart := Some(now);
        sessionMode := Some(mode);
      }
      reply := ModeSet(mode);
    }

    /** `/start_session` (app.py lines 404-439): save any open session, zero every counter and the
        plank clock, and open a new session in the current mode. Stage machines, smoothing windows
        and displayed angles carry over. */
    method StartSession(now: Timestamp) returns (reply: Reply)
      requires Valid()
      modifies this`counters, this`plankStart, this`sessions, this`sessionStart, this`sessionMode
      ensures Valid()
      ensures reply == SessionStarted(now)
      ensures sessions == old(sessions) + (if old(sessionStart).Some? then [old(Closing(now))] else [])
      ensures counters == ZeroCounters && plankStart == None
      ensures sessionStart == Some(now) && sessionMode == Some(mode)
    {
      if sessionStart.Some? {
        var _ := SaveCurrentSession(now);
      }
      counters := ZeroCounters;
      plankStart := None;
      sessionStart := Some(now);
      sessionMode := Some(mode);
      reply := SessionStarted(now);
    }

    /** `/end_session` (app.py lines 441-449): with a session open, save and close it and return
        the saved record; otherwise 400. Counters and the session mode are left as they are. */
    method EndSession(now: Timestamp) returns (reply: Reply)
      requires Valid()
      modifies this`sessions, this`sessionStart
      ensures Valid()
      ensures sessionStart == None
      ensures old(sessionStart).None? ==> reply == BadRequest("No active session") && sessions == old(sessions)
      ensures old(sessionStart).Some? ==>
                reply == SessionEnded(old(Closing(now))) && sessions == old(sessions) + [old(Closing(now))]
    {
      if sessionStart.None? {
        return BadRequest("No active session");
      }
      var saved := SaveCurrentSession(now);
      sessionStart := None;
      reply := SessionEnded(saved.value);
    }

    /** The open session as `/get_sessions` lists it. */
    function Live(): SessionRecord
      reads this
      requires sessionStart.Some?
    {
      Record(|sessions| + 1, sessionMode, sessionStart.value, None, Some(true),
             LiveTotal(sessionMode, counters), counters)
    }

    /** `/get_sessions` (app.py lines 451-485): the saved records followed, while a session is open,
        by one active record numbered after them. */
    function GetSessions(): (r: seq<SessionRecord>)
      reads this
      ensures |r| == |sessions| + (if sessionStart.Some? then 1 else 0)
      ensures r[..|sessions|] == sessions
      ensures sessionStart.Some? ==>
                r[|sessions|].id == Some(|sessions| + 1) && r[|sessions|].isActive == Some(true)
                && r[|sessions|].endTime.None? && r[|sessions|].startTime == Some(sessionStart.value)
    {
      sessions + (if sessionStart.Some? then [Live()] else [])
    }

    /** The rows `get_summary` aggregates (app.py lines 490-504): the saved records, then, while a
        session is open, one row of the session's mode that carries the push-up and curl counters
        only, with the push-up count as its total in push-up mode and the two arms' curls otherwise. */
    function SummaryRows(): (r: seq<SessionRecord>)
      reads this
      ensures |r| == |sessions| + (if sessionStart.Some? then 1 else 0)
      ensures r[..|sessions|] == sessions
      ensures sessionStart.Some? ==>
                var o := r[|sessions|];
                && o.mode == sessionMode
                && o.totalReps == Some(if sessionMode == Some("Push-Up") then counters.pushup.count
                                       else counters.curlR.count + counters.curlL.count)
                && o.pushupCount == Some(counters.pushup.count)
                && o.curlCountR == Some(counters.curlR.count) && o.curlCountL == Some(counters.curlL.count)
                && o.squatCount.None? && o.squatGood.None? && o.squatBad.None?
                && o.plankTime.None? && o.plankGoodTime.None? && o.plankBadTime.None?
    {
      sessions + (if sessionStart.Some? then [OpenRow(sessionMode, counters)] else [])
    }

    /** The `current_session` object (app.py lines 586-596). */
    function OpenView(): OpenSessionView
      reads this
      requires sessionStart.Some?
    {
      OpenSessionView(sessionMode, OpenRowTotal(sessionMode, counters), sessionStart.value,
                      counters.pushup.good, counters.pushup.bad, counters.curlR.good,
                      counters.curlR.bad, counters.curlL.good, counters.curlL.bad)
    }

    /** `/get_summary` (app.py lines 487-597): the all-zero reply when there is nothing to
        aggregate, otherwise the totals, `by_mode` and `by_exercise` over every row. The session
        count covers the saved sessions only while the average divides by every row. */
    method GetSummary() returns (s: Summary)
      ensures s.NoSessions? <==> SummaryRows() == []
      ensures s.Totals? ==>
                && s.totalSessions == |sessions|
                && s.activeSessions == (if sessionStart.Some? then 1 else 0)
                && s.totalReps == TotalReps(SummaryRows())
                && s.byMode == ByModeOf(SummaryRows(), ModeName)
                && s.byExercise == ByExerciseOf(SummaryRows())
                && s.averageReps == (s.totalReps as real) / (|SummaryRows()| as real)
                && (sessionStart.Some? ==> s.current == Some(OpenView()))
                && (sessionStart.None? ==> s.current == None)
    {
      var rows := SummaryRows();
      if rows == [] {
        return NoSessions;
      }
      var total := SumReps(rows);
      var byMode, byExercise := Tabulate(rows);
      var current := if sessionStart.Some? then Some(OpenView()) else None;
      s := Totals(|sessions|, if sessionStart.Some? then 1 else 0, total, byMode, byExercise,
                  (total as real) / (|rows| as real), current);
    }

    /** The generic angle `/pose_data` reports for the current mode (app.py lines 300-310). */
    function ShownAngle(): int
      reads this
    {
      if mode == "Curl" then Trunc((display.right + display.left) as real / 2.0)
      else if mode == "Squat" then display.knee
      else display.elbow
    }

    /** `/pose_data` (app.py lines 297-338). */
    function PoseData(): (f: Frame)
      reads this
      ensures f.mode == Some(mode) && f.elbowAngle == Some(ShownAngle())
      ensures f.plankGoodTime == Some(Seconds(counters.plankGoodHalves))
      ensures f.plankBadTime == Some(Seconds(counters.plankBadHalves))
    {
      var c := counters;
      Records.Frame(Some(mode), Some(c.pushup.count), StageLabel(stages.pushup),
            Some(c.curlR.count), Some(c.curlL.count), StageLabel(stages.curlR), StageLabel(stages.curlL),
            Some(c.squat.count), StageLabel(stages.squat), Some(c.plankTime),
            Some(ShownAngle()), Some(display.knee), Some(display.right), Some(display.left),
            Some(c.pushup.good), Some(c.pushup.bad), Some(c.curlR.good), Some(c.curlR.bad),
            Some(c.curlL.good), Some(c.curlL.bad), Some(c.squat.good), Some(c.squat.bad),
            Some(Seconds(c.plankGoodHalves)), Some(Seconds(c.plankBadHalves)))
    }
  }

  /** `history.append(x)` followed by `history.pop(0)` once the window holds more than
      ANGLE_HISTORY_WINDOW angles. */
  method Push(history: seq<real>, x: real) returns (h: seq<real>)
    ensures h == Slide(history, x)
  {
    h := history + [x];
    if |h| > AngleHistoryWindow {
      h := h[1..];
    }
  }

  /** `sum(s.get("total_reps", 0) for s in all_sessions)` (app.py line 515). */
  method SumReps(rows: seq<SessionRecord>) returns (total: int)
    ensures total == TotalReps(rows)
  {
    total := 0;
    for i := 0 to |rows|
      invariant total == TotalReps(rows[..i])
    {
      assert rows[..i + 1][..i] == rows[..i];
      total := total + Reps(rows[i]);
    }
    assert rows[..|rows|] == rows;
  }

  /** The loop of `get_summary` that fills `by_mode` and `by_exercise` (app.py lines 519-577). */
  method Tabulate(rows: seq<SessionRecord>)
    returns (byMode: map<string, ModeStats>, byExercise: map<string, ExerciseStats>)
    ensures byMode == ByModeOf(rows, ModeName) && byExercise == ByExerciseOf(rows)
  {
    byMode, byExercise := map[], map[];
    for j := 0 to |rows|
      invariant byMode == ByModeOf(rows[..j], ModeName)
      invariant byExercise == ByExerciseOf(rows[..j])
    {
      assert rows[..j + 1][..j] == rows[..j];
      byMode := CountRow(byMode, ModeName(rows[j]), Reps(rows[j]));
      byExercise := AddExercise(byExercise, rows[j]);
    }
    assert rows[..|rows|] == rows;
  }

  /** A stage as `/pose_data` reports it: "up", "down" or null. */
  function StageLabel(s: Option<Stage>): (r: Option<string>)
    ensures r.None? <==> s.None?
  {
    match s
    case None => None
    case Some(st) => Some(StageName(st))
  }

  /** Saved sessions keep consecutive ids, and `/get_sessions` lists exactly one active record, the
      last one, while a session is open. */
  lemma GetSessionsNumbered(srv: Server)
    requires srv.Valid()
    ensures var r := srv.GetSessions();
      forall i :: 0 <= i < |r| ==> r[i].id == Some(i + 1) && (IsTrue(r[i].isActive) <==> i == |srv.sessions|)
  {
    var r := srv.GetSessions();
    forall i | 0 <= i < |r|
      ensures r[i].id == Some(i + 1) && (IsTrue(r[i].isActive) <==> i == |srv.sessions|)
    {
      if i < |srv.sessions| {
        assert r[i] == r[..|srv.sessions|][i];
      }
    }
  }

  /** Summed over `by_mode`, the summary counts every row once, so the sessions column sums to the
      saved sessions plus the open one, and the repetitions column to `total_reps`. */
  lemma SummaryByModeTotals(srv: Server, s: Summary)
    requires s.Totals? && s.byMode == ByModeOf(srv.SummaryRows(), ModeName)
    requires s.totalSessions == |srv.sessions| && s.activeSessions == (if srv.sessionStart.Some? then 1 else 0)
    requires s.totalReps == TotalReps(srv.SummaryRows())
    ensures SumValues(SessionsColumn(s.byMode)) == s.totalSessions + s.activeSessions
    ensures SumValues(RepsColumn(s.byMode)) == s.totalReps
  {
    ByModeTotals(srv.SummaryRows(), ModeName);
  }

  /** In curl mode the generic angle lies between the two arms' displayed angles. */
  lemma CurlAngleBetweenArms(srv: Server)
    requires srv.mode == "Curl"
    ensures var a := srv.ShownAngle();
      (srv.display.right <= a <= srv.display.left) || (srv.display.left <= a <= srv.display.right)
  {
    var r, l := srv.display.right, srv.display.left;
    var x := (r + l) as real / 2.0;
    var a := srv.ShownAngle();
    assert a == Trunc(x);
    if r <= l {
      assert r as real <= x <= l as real;
    } else {
      assert l as real <= x <= r as real;
    }
  }

  /** Every posture tally `/pose_data` reports splits its counter exactly. */
  lemma PoseDataBalanced(srv: Server)
    requires srv.Valid()
    ensures var f := srv.PoseData();
      && f.pushupGood.value + f.pushupBad.value == f.pushupCount.value && f.pushupBad == Some(0)
      && f.curlRGood.value + f.curlRBad.value == f.curlCountR.value
      && f.curlLGood.value + f.curlLBad.value == f.curlCountL.value
      && f.squatGood.value + f.squatBad.value == f.squatCount.value
  {
  }

  /** Changing the mode twice while one session is open saves that same session twice, under its
      original mode and start, because the open session keeps its mode. */
  method RepeatedSwitchSavesTwice() returns (srv: Server)
    ensures |srv.sessions| == 2
    ensures srv.sessions[0].mode == Some("Push-Up") && srv.sessions[1].mode == Some("Push-Up")
    ensures srv.sessions[0].startTime == Some("t1") && srv.sessions[1].startTime == Some("t1")
    ensures srv.sessionStart == Some("t1") && srv.mode == "Squat"
  {
    srv := new Server();
    var _ := srv.SetMode(Some("Push-Up"), "t1");
    var _ := srv.SetMode(Some("Curl"), "t2");
    var _ := srv.SetMode(Some("Squat"), "t3");
  }
}
