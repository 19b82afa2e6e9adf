/** How the two pages read the server: what the live page shows for the server's `/pose_data`
    frame, and what the results page derives from the server's `/get_sessions` list and keeps of
    its `/get_summary` reply. */
module CrossCheck {
  import opened Optional
  import opened Records
  import opened Tracking
  import ServerSummary
  import Server
  import Workout
  import ClientSummary
  import ResultsView

  const KnownModes: set<string> := {"Push-Up", "Curl", "Squat", "Plank"}

  /** The gauge shows the server's generic angle, except in plank mode, where it shows the plank
      time rather than the alignment reading the server sends as `elbow_angle`. */
  lemma GaugeFollowsServer(srv: Server.Server, shown: int)
    ensures var g := Workout.DisplayValue(srv.PoseData(), shown);
      && (srv.mode != "Plank" ==> g == srv.ShownAngle())
      && (srv.mode == "Squat" ==> g == srv.display.knee)
      && (srv.mode == "Plank" ==> g == srv.counters.plankTime)
  {
  }

  /** The page counts repetitions for exactly the server's four modes, and then shows the total
      the server lists for an open session of that mode. */
  lemma RepsFollowServer(srv: Server.Server)
    ensures var f := srv.PoseData();
      && (Workout.KnownMode(f) <==> srv.mode in KnownModes)
      && (Workout.KnownMode(f) ==> Workout.RepsShown(f) == Server.LiveTotal(Some(srv.mode), srv.counters))
  {
  }

  /** The push-up and squat feedback names the server's stage: "Go lower" for down, the mode's
      up hint for up, "Good posture" before the first stage. */
  lemma FeedbackFollowsStage(srv: Server.Server)
    requires srv.mode == "Push-Up" || srv.mode == "Squat"
    ensures var stage := if srv.mode == "Push-Up" then srv.stages.pushup else srv.stages.squat;
      var fb := Workout.FeedbackShown(srv.PoseData());
      && (fb == "Go lower" <==> stage == Some(Down))
      && (fb == (if srv.mode == "Push-Up" then "Push up" else "Stand up") <==> stage == Some(Up))
      && (fb == Workout.Idle <==> stage.None?)
  {
  }

  /** Each arm's curl hint names that arm's stage on the server. */
  lemma ArmHintFollowsStage(s: Option<Stage>)
    ensures var hint := Workout.ArmLabel(Server.StageLabel(s));
      && (hint == "Curl" <==> s == Some(Up))
      && (hint == "Slow down" <==> s == Some(Down))
      && (hint == Workout.Idle <==> s.None?)
  {
  }

  /** From the server's `/get_sessions` list the results page finds the open session as the
      current one, counts it as the one active session, and counts it among the sessions too. */
  lemma ClientFindsOpenSession(srv: Server.Server)
    requires srv.Valid()
    ensures var d := ClientSummary.Summarize(ClientSummary.Array(srv.GetSessions()));
      && d.currentSession == (if srv.sessionStart.Some? then Some(srv.Live()) else None)
      && d.activeSessions == (if srv.sessionStart.Some? then 1 else 0)
      && d.totalSessions == |srv.sessions| + d.activeSessions
  {
    var rows := srv.GetSessions();
    Server.GetSessionsNumbered(srv);
    if rows != [] {
      if srv.sessionStart.Some? {
        var n := |srv.sessions|;
        assert rows[..n] == srv.sessions;
        assert rows[n] == srv.Live();
        assert forall i :: 0 <= i < n ==> !IsTrue(srv.sessions[i].isActive);
        assert ClientSummary.CountActive(srv.sessions) == 0;
        assert ClientSummary.CountActive(rows) == 1;
        var r := ClientSummary.FirstActive(rows);
        var i :| 0 <= i < |rows| && rows[i] == r.value && IsTrue(rows[i].isActive);
        assert i == n;
      }
    }
  }

  /** The keys of a `/get_summary` reply: the empty reply has neither `active_sessions` nor
      `current_session`. */
  function SummaryReplyKeys(s: ServerSummary.Summary): (k: set<string>)
    ensures k <= ResultsView.DerivedKeys
    ensures s.Totals? <==> k == ResultsView.DerivedKeys
  {
    var common := {"total_sessions", "total_reps", "by_mode", "by_exercise", "average_reps"};
    if s.Totals? then common + {"active_sessions", "current_session"} else common
  }

  /** Every key of the server's summary is one the page derives itself, so once the fetch
      succeeds the page shows the derived summary only, whatever the server computed. */
  lemma PageShowsDerivedSummary(s: ServerSummary.Summary, reply: map<string, ResultsView.Json>,
                                d: ClientSummary.Derived)
    requires reply.Keys == SummaryReplyKeys(s)
    ensures ResultsView.Merge(Some(reply), ResultsView.DerivedObject(d)) == ResultsView.DerivedObject(d)
  {
    ResultsView.MergeIsDerived(Some(reply), d);
  }
}
