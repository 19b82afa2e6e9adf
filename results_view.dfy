/** The results page (frontend/src/pages/Results.jsx): the state `fetchData` keeps, the merge of
    the server's summary with the derived one, the duration text of a history entry and the
    posture shares of an exercise card. */
module ResultsView {
  import opened Optional
  import opened Records
  import opened Tables
  import opened Decimal
  import opened ClientSummary

  /** A JSON value as the page holds it; a session record stays a record. */
  datatype Json = Null | Num(n: real) | Text(s: string) | Record(r: SessionRecord) | Obj(fields: map<string, Json>)

  /** The keys of the derived summary. */
  const DerivedKeys: set<string> := {"total_sessions", "total_reps", "average_reps", "active_sessions",
                                     "current_session", "by_exercise", "by_mode"}

  function ModeObject(m: map<string, ModeStats>): map<string, Json> {
    map k | k in m :: Obj(map["total_reps" := Num(m[k].totalReps as real), "sessions" := Num(m[k].sessions as real)])
  }

  function ExerciseObject(m: map<string, ExerciseStats>): map<string, Json> {
    map k | k in m :: Obj(map["total_reps" := Num(m[k].totalReps as real),
                              "good_posture" := Num(m[k].goodPosture as real),
                              "bad_posture" := Num(m[k].badPosture as real)])
  }

  /** The derived summary as the JSON object the page stores. */
  function DerivedObject(d: Derived): (o: map<string, Json>)
    ensures o.Keys == DerivedKeys
    ensures o["current_session"] == (if d.currentSession.Some? then Record(d.currentSession.value) else Null)
  {
    map["total_sessions" := Num(d.totalSessions as real), "total_reps" := Num(d.totalReps as real),
        "average_reps" := Num(d.averageReps), "active_sessions" := Num(d.activeSessions as real),
        "current_session" := (if d.currentSession.Some? then Record(d.currentSession.value) else Null),
        "by_exercise" := Obj(ExerciseObject(d.byExercise)), "by_mode" := Obj(ModeObject(d.byMode))]
  }

  /** `Object.assign({}, summaryData || {}, derived)` (Results.jsx line 34): a null server summary
      counts as `{}`, and every derived key overrides the server's value. */
  function Merge(backend: Option<map<string, Json>>, derived: map<string, Json>): (r: map<string, Json>)
    ensures r.Keys == backend.GetOr(map[]).Keys + derived.Keys
    ensures forall k :: k in derived ==> r[k] == derived[k]
    ensures forall k :: k in backend.GetOr(map[]) && k !in derived ==> r[k] == backend.GetOr(map[])[k]
  {
    backend.GetOr(map[]) + derived
  }

  /** When the server's summary has no key the derived one lacks, the merge is the derived
      summary itself. */
  lemma MergeIsDerived(backend: Option<map<string, Json>>, d: Derived)
    requires backend.GetOr(map[]).Keys <= DerivedKeys
    ensures Merge(backend, DerivedObject(d)) == DerivedObject(d)
  {
  }

  /** `sessionsData.sessions || []` (Results.jsx line 27): an absent or null list is empty. */
  function SessionsOrEmpty(field: Option<Listing>): Listing {
    field.GetOr(Array([]))
  }

  /** What a successful `fetchData` reads: the parsed `/get_summary` body and the `sessions` field
      of the parsed `/get_sessions` body. */
  datatype Fetched = Fetched(summaryData: Option<map<string, Json>>, sessionsField: Option<Listing>)

  /** The page's state slots. */
  class ResultsPage {
    var summary: Option<map<string, Json>>
    var sessions: Listing
    var loading: bool

    /** `useState(null)`, `useState([])`, `useState(true)` (Results.jsx lines 6-8). */
    constructor()
      ensures summary.None? && sessions == Array([]) && loading
    {
      summary := None;
      sessions := Array([]);
      loading := true;
    }

    /** `fetchData` (Results.jsx lines 17-41); `reply` is None when a request or a parse failed. */
    method FetchData(reply: Option<Fetched>)
      modifies this
      ensures !loading
      ensures reply.None? ==> summary == old(summary) && sessions == old(sessions)
      ensures reply.Some? ==>
                && sessions == SessionsOrEmpty(reply.value.sessionsField)
                && summary == Some(Merge(reply.value.summaryData, DerivedObject(Summarize(sessions))))
    {
      if reply.None? {
        loading := false;
        return;
      }
      var sess := SessionsOrEmpty(reply.value.sessionsField);
      sessions := sess;
      var derived := ComputeSummaryFromSessions(sess);
      summary := Some(Merge(reply.value.summaryData, DerivedObject(derived)));
      loading := false;
    }
  }

  /** `Math.floor(ms / 1000)`, then `Math.floor(diff / 60)` and `diff % 60` with JavaScript's
      truncating remainder. */
  function SplitSeconds(diff: int): (r: (int, int))
    ensures diff >= 0 ==> r.0 * 60 + r.1 == diff && 0 <= r.1 < 60 && r.0 >= 0
    ensures diff < 0 ==> -60 < r.1 <= 0
    ensures diff < 0 ==> r.0 * 60 + r.1 == (if r.1 == 0 then diff else diff - 60)
  {
    var minutes := diff / 60;
    var seconds := if diff >= 0 then diff % 60 else -((-diff) % 60);
    (minutes, seconds)
  }

  /** `getDuration` (Results.jsx lines 104-113); `elapsedMs` is `end - start` of the parsed dates. */
  function GetDuration(startTime: Option<string>, endTime: Option<string>, elapsedMs: int): (r: string)
    ensures startTime.None? || startTime.value == "" <==> r == "Ongoing"
    ensures (startTime.Some? && startTime.value != "") && (endTime.None? || endTime.value == "") <==> r == "Active"
  {
    if startTime.None? || startTime.value == "" then "Ongoing"
    else if endTime.None? || endTime.value == "" then "Active"
    else
      var (m, s) := SplitSeconds(elapsedMs / 1000);
      var text := IntToString(m) + "m " + IntToString(s) + "s";
      assert text[|text| - 1] == 's';
      text
  }

  /** A printed number never contains the letter 'm'. */
  lemma NoLetterM(i: int)
    ensures 'm' !in IntToString(i)
  {
    var s := IntToString(i);
    if i < 0 {
      assert s == "-" + NatToString(-i);
      assert forall j :: 1 <= j < |s| ==> s[j] == NatToString(-i)[j - 1];
    }
  }

  /** In `A + "m " + B + "s"` with no 'm' in `A`, the first 'm' sits right after `A`. */
  lemma FirstM(a: string, b: string)
    requires 'm' !in a
    ensures var t := a + "m " + b + "s";
      t[|a|] == 'm' && forall j :: 0 <= j < |a| ==> t[j] != 'm'
  {
    var t := a + "m " + b + "s";
    forall j | 0 <= j < |a|
      ensures t[j] != 'm'
    {
      assert t[j] == a[j];
    }
  }

  /** `A + "m " + B + "s"` determines `A` and `B` when `A` has no 'm'. */
  lemma SplitAtM(a1: string, b1: string, a2: string, b2: string)
    requires 'm' !in a1 && 'm' !in a2
    requires a1 + "m " + b1 + "s" == a2 + "m " + b2 + "s"
    ensures a1 == a2 && b1 == b2
  {
    var t := a1 + "m " + b1 + "s";
    FirstM(a1, b1);
    FirstM(a2, b2);
    assert |a1| == |a2|;
    assert a1 == t[..|a1|] == a2;
    assert b1 == t[|a1| + 2..|t| - 1] == b2;
  }

  /** Two finished sessions of different whole-second lengths show different durations. */
  lemma DurationInjective(start: string, end: string, ms1: int, ms2: int)
    requires start != "" && end != "" && ms1 >= 0 && ms2 >= 0
    requires GetDuration(Some(start), Some(end), ms1) == GetDuration(Some(start), Some(end), ms2)
    ensures ms1 / 1000 == ms2 / 1000
  {
    var (m1, s1) := SplitSeconds(ms1 / 1000);
    var (m2, s2) := SplitSeconds(ms2 / 1000);
    NoLetterM(m1);
    NoLetterM(m2);
    SplitAtM(IntToString(m1), IntToString(s1), IntToString(m2), IntToString(s2));
    IntToStringInjective(m1, m2);
    IntToStringInjective(s1, s2);
  }

  /** `Math.round(part / whole * 100)` on the exact share: the percentage nearest to it, with a
      share exactly halfway between two percentages rounded up. */
  function RoundedShare(part: int, whole: int): (p: int)
    requires whole > 0
    ensures 2 * (p * whole) - whole <= 200 * part < 2 * (p * whole) + whole
    ensures 0 <= part <= whole ==> 0 <= p <= 100
  {
    var d := 2 * whole;
    var p := (200 * part + whole) / d;
    assert d * p + (200 * part + whole) % d == 200 * part + whole;
    assert d * p == 2 * (p * whole);
    PercentRange(p, part, whole);
    p
  }

  /** `goodPercentage` (Results.jsx line 238): the rounded share of good repetitions, 0 without
      repetitions. */
  function GoodPercentage(stats: ExerciseStats): (p: int)
    ensures stats.totalReps <= 0 ==> p == 0
    ensures 0 <= stats.goodPosture <= stats.totalReps ==> 0 <= p <= 100
    ensures stats.totalReps > 0 ==>
              2 * (p * stats.totalReps) - stats.totalReps <= 200 * stats.goodPosture
              < 2 * (p * stats.totalReps) + stats.totalReps
  {
    if stats.totalReps > 0 then RoundedShare(stats.goodPosture, stats.totalReps) else 0
  }

  lemma MulMono(a: int, b: int, w: int)
    requires a <= b && w > 0
    ensures a * w <= b * w
  {
  }

  /** A percentage whose lower bound lies below another's upper bound is not above it. */
  lemma NotAbove(a: int, b: int, part: int, whole: int)
    requires whole > 0
    requires 2 * (a * whole) - whole <= 200 * part < 2 * (b * whole) + whole
    ensures a <= b
  {
    if a > b {
      MulMono(b + 1, a, whole);
    }
  }

  /** A share of at most the whole rounds to a percentage in 0..100. */
  lemma PercentRange(p: int, part: int, whole: int)
    requires whole > 0
    requires 2 * (p * whole) - whole <= 200 * part < 2 * (p * whole) + whole
    ensures 0 <= part <= whole ==> 0 <= p <= 100
  {
    if 0 <= part <= whole {
      NotAbove(p, 100, part, whole);
      NotAbove(0, p, part, whole);
    }
  }

  /** Only one percentage lies within half a point of a share: the bounds determine it. */
  lemma RoundedShareUnique(part: int, whole: int, q: int)
    requires whole > 0
    requires 2 * (q * whole) - whole <= 200 * part < 2 * (q * whole) + whole
    ensures q == RoundedShare(part, whole)
  {
    var p := RoundedShare(part, whole);
    NotAbove(q, p, part, whole);
    NotAbove(p, q, part, whole);
  }

  /** The two shares a card shows (Results.jsx lines 261-282): the good one and `100 - good`; the
      bad share is the bad repetitions' share, rounded with halves going down. */
  lemma BadShare(stats: ExerciseStats)
    requires stats.totalReps > 0 && 0 <= stats.goodPosture <= stats.totalReps
    ensures var bad := 100 - GoodPercentage(stats);
      var b := stats.totalReps - stats.goodPosture;
      && 0 <= bad <= 100
      && 2 * (bad * stats.totalReps) - stats.totalReps < 200 * b <= 2 * (bad * stats.totalReps) + stats.totalReps
  {
  }

  /** On a tie the two shares cannot both be rounded up: one good repetition out of eight shows 13%
      good and 87% bad, although seven out of eight is 87.5%. */
  lemma TieGoesToGood()
    ensures GoodPercentage(ExerciseStats(8, 1, 7)) == 13
    ensures RoundedShare(7, 8) == 88
  {
  }
}
