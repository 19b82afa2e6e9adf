/** `computeSummaryFromSessions` in frontend/src/pages/Results.jsx: the summary the results page
    derives by itself from the `/get_sessions` list. */
module ClientSummary {
  import opened Optional
  import opened Records
  import opened Tables

  /** `sessionsData.sessions || []` as the function receives it: an array of records, or a value
      that is not an array. */
  datatype Listing = Array(rows: seq<SessionRecord>) | NotArray

  /** The `summaryOut` object. */
  datatype Derived = Derived(
    totalSessions: int, totalReps: int, averageReps: real, activeSessions: int,
    currentSession: Option<SessionRecord>,
    byExercise: map<string, ExerciseStats>, byMode: map<string, ModeStats>)

  /** The initial `summaryOut`, returned as is for a non-array or an empty array. */
  const EmptyDerived := Derived(0, 0, 0.0, 0, None, map[], map[])

  /** `s.mode || "Unknown"`: an absent, null or empty mode is "Unknown". */
  function ModeKey(s: SessionRecord): (k: string)
    ensures k == "Unknown" <==> s.mode.None? || s.mode.value in {"", "Unknown"}
    ensures s.mode.Some? && s.mode.value != "" ==> k == s.mode.value
  {
    if s.mode.None? || s.mode.value == "" then "Unknown" else s.mode.value
  }

  /** `sessionsArr.filter(s => s.is_active).length`. */
  function CountActive(rows: seq<SessionRecord>): (n: int)
    ensures 0 <= n <= |rows|
    ensures n == 0 <==> forall i :: 0 <= i < |rows| ==> !IsTrue(rows[i].isActive)
    decreases |rows|
  {
    if rows == [] then 0
    else CountActive(rows[..|rows| - 1]) + (if IsTrue(rows[|rows| - 1].isActive) then 1 else 0)
  }

  /** `sessionsArr.find(s => s.is_active) || null`: the first active record in list order. */
  function FirstActive(rows: seq<SessionRecord>): (r: Option<SessionRecord>)
    ensures r.None? <==> forall i :: 0 <= i < |rows| ==> !IsTrue(rows[i].isActive)
    ensures r.Some? ==> exists i :: 0 <= i < |rows| && rows[i] == r.value && IsTrue(rows[i].isActive)
                                    && forall j :: 0 <= j < i ==> !IsTrue(rows[j].isActive)
    decreases |rows|
  {
    if rows == [] then None
    else if IsTrue(rows[0].isActive) then Some(rows[0])
    else
      var rest := FirstActive(rows[1..]);
      assert forall i :: 1 <= i < |rows| ==> rows[i] == rows[1..][i - 1];
      if rest.Some? then
        ghost var i :| 0 <= i < |rows[1..]| && rows[1..][i] == rest.value && IsTrue(rows[1..][i].isActive)
                       && forall j :: 0 <= j < i ==> !IsTrue(rows[1..][j].isActive);
        assert rows[i + 1] == rest.value;
        rest
      else rest
  }

  /** The good-posture fields a record adds to its `by_exercise` entry, each only when truthy. */
  function Good(s: SessionRecord): int {
    AddIfTruthy(AddIfTruthy(AddIfTruthy(AddIfTruthy(AddIfTruthy(
      0, s.pushupGood), s.curlRGood), s.curlLGood), s.squatGood), s.plankGoodTime)
  }

  /** The bad-posture fields a record adds to its `by_exercise` entry, each only when truthy. */
  function Bad(s: SessionRecord): int {
    AddIfTruthy(AddIfTruthy(AddIfTruthy(AddIfTruthy(AddIfTruthy(
      0, s.pushupBad), s.curlRBad), s.curlLBad), s.squatBad), s.plankBadTime)
  }

  /** The client's `by_exercise` after the rows, in order: keyed by mode like `by_mode`. */
  function ExerciseTable(rows: seq<SessionRecord>): map<string, ExerciseStats>
    decreases |rows|
  {
    if rows == [] then map[]
    else
      var last := rows[|rows| - 1];
      Accrue(ExerciseTable(rows[..|rows| - 1]), ModeKey(last), Reps(last), Good(last), Bad(last))
  }

  /** The sum of `f` over the rows keyed `k`. */
  function KeyedSum(rows: seq<SessionRecord>, k: string, f: SessionRecord -> int): int
    decreases |rows|
  {
    if rows == [] then 0
    else
      var last := rows[|rows| - 1];
      KeyedSum(rows[..|rows| - 1], k, f) + (if ModeKey(last) == k then f(last) else 0)
  }

  /** Every record counts as one session. */
  function OneSession(s: SessionRecord): int {
    1
  }

  /** What `computeSummaryFromSessions` returns. */
  function Summarize(listing: Listing): Derived {
    if listing.NotArray? || listing.rows == [] then EmptyDerived
    else
      var rows := listing.rows;
      Derived(|rows|, TotalReps(rows), TotalReps(rows) as real / |rows| as real, CountActive(rows),
              FirstActive(rows), ExerciseTable(rows), ByModeOf(rows, ModeKey))
  }

  /** `computeSummaryFromSessions` (Results.jsx lines 44-96): totals by `reduce`/`filter`/`find`,
      then one pass that fills `by_mode` and `by_exercise` entry by entry. */
  method ComputeSummaryFromSessions(listing: Listing) returns (out: Derived)
    ensures out == Summarize(listing)
  {
    out := EmptyDerived;
    if listing.NotArray? || listing.rows == [] {
      return;
    }
    var rows := listing.rows;
    var totalReps := TotalReps(rows);
    var byMode: map<string, ModeStats> := map[];
    var byExercise: map<string, ExerciseStats> := map[];
    for j := 0 to |rows|
      invariant byMode == ByModeOf(rows[..j], ModeKey)
      invariant byExercise == ExerciseTable(rows[..j])
    {
      assert rows[..j + 1][..j] == rows[..j];
      byMode := CountRow(byMode, ModeKey(rows[j]), Reps(rows[j]));
      byExercise := AccruePosture(byExercise, rows[j]);
    }
    assert rows[..|rows|] == rows;
    out := Derived(|rows|, totalReps, totalReps as real / |rows| as real, CountActive(rows),
                   FirstActive(rows), byExercise, byMode);
  }

  /** The `by_exercise` part of one `forEach` step (Results.jsx lines 72-92): each posture field is
      added only when truthy. */
  method AccruePosture(byExercise: map<string, ExerciseStats>, s: SessionRecord)
    returns (m: map<string, ExerciseStats>)
    ensures m == Accrue(byExercise, ModeKey(s), Reps(s), Good(s), Bad(s))
  {
    var mode := ModeKey(s);
    m := byExercise;
    if mode !in m {
      m := m[mode := ExerciseStats(0, 0, 0)];
    }
    var e := m[mode];
    e := e.(totalReps := e.totalReps + Reps(s));
    e := e.(goodPosture := AddIfTruthy(e.goodPosture, s.pushupGood));
    e := e.(badPosture := AddIfTruthy(e.badPosture, s.pushupBad));
    e := e.(goodPosture := AddIfTruthy(e.goodPosture, s.curlRGood));
    e := e.(goodPosture := AddIfTruthy(e.goodPosture, s.curlLGood));
    e := e.(badPosture := AddIfTruthy(e.badPosture, s.curlRBad));
    e := e.(badPosture := AddIfTruthy(e.badPosture, s.curlLBad));
    e := e.(goodPosture := AddIfTruthy(e.goodPosture, s.squatGood));
    e := e.(badPosture := AddIfTruthy(e.badPosture, s.squatBad));
    e := e.(goodPosture := AddIfTruthy(e.goodPosture, s.plankGoodTime));
    e := e.(badPosture := AddIfTruthy(e.badPosture, s.plankBadTime));
    m := m[mode := e];
  }

  /** A non-array or an empty list gives zero totals, no current session and empty tables;
      otherwise the totals count every record and `average_reps` is their mean, with no division
      by zero. */
  lemma SummaryTotals(listing: Listing)
    ensures var d := Summarize(listing);
      if listing.NotArray? || listing.rows == [] then
        d.totalSessions == 0 && d.totalReps == 0 && d.averageReps == 0.0 && d.activeSessions == 0
        && d.currentSession.None? && d.byMode == map[] && d.byExercise == map[]
      else
        d.totalSessions == |listing.rows| > 0 && d.totalReps == TotalReps(listing.rows)
        && d.averageReps == d.totalReps as real / d.totalSessions as real
  {
  }

  /** `current_session` is null exactly when `active_sessions` is 0, and otherwise an active record
      of the list. */
  lemma CurrentSessionIffActive(listing: Listing)
    ensures var d := Summarize(listing);
      && (d.currentSession.None? <==> d.activeSessions == 0)
      && (d.currentSession.Some? ==> IsTrue(d.currentSession.value.isActive))
  {
  }

  /** Summed over its keys, `by_mode` holds every record once and all their repetitions, so it
      agrees with `total_sessions` and `total_reps`. */
  lemma ByModeAgrees(listing: Listing)
    ensures var d := Summarize(listing);
      && SumValues(SessionsColumn(d.byMode)) == d.totalSessions
      && SumValues(RepsColumn(d.byMode)) == d.totalReps
  {
    if listing.Array? && listing.rows != [] {
      ByModeTotals(listing.rows, ModeKey);
    } else {
      assert SessionsColumn(map[]) == map[];
      assert RepsColumn(map[]) == map[];
    }
  }

  /** A record without a mode (or with an empty one) is counted under "Unknown". */
  lemma ModelessCountedAsUnknown(rows: seq<SessionRecord>, i: int)
    requires 0 <= i < |rows| && (rows[i].mode.None? || rows[i].mode == Some(""))
    ensures "Unknown" in ByModeOf(rows, ModeKey) && "Unknown" in ExerciseTable(rows)
  {
    assert ModeKey(rows[i]) == "Unknown";
    ByModeKeys(rows, ModeKey);
    ExerciseMatchesMode(rows);
  }

  /** `by_exercise` and `by_mode` have the same keys and the same repetition totals per key. */
  lemma {:induction false} ExerciseMatchesMode(rows: seq<SessionRecord>)
    ensures ExerciseTable(rows).Keys == ByModeOf(rows, ModeKey).Keys
    ensures forall k :: k in ExerciseTable(rows) ==>
              ExerciseTable(rows)[k].totalReps == ByModeOf(rows, ModeKey)[k].totalReps
    decreases |rows|
  {
    if rows != [] {
      ExerciseMatchesMode(rows[..|rows| - 1]);
    }
  }

  /** Each `by_exercise` entry holds, for the records of its key, the sums of their repetitions
      and of their truthy good and bad posture fields. */
  lemma {:induction false} ExerciseEntries(rows: seq<SessionRecord>)
    ensures forall k :: k in ExerciseTable(rows) ==>
              ExerciseTable(rows)[k] == ExerciseStats(KeyedSum(rows, k, Reps), KeyedSum(rows, k, Good),
                                                      KeyedSum(rows, k, Bad))
    decreases |rows|
  {
    if rows != [] {
      var init := rows[..|rows| - 1];
      ExerciseEntries(init);
      forall k | k !in ExerciseTable(init)
        ensures KeyedSum(init, k, Reps) == 0 && KeyedSum(init, k, Good) == 0 && KeyedSum(init, k, Bad) == 0
      {
        ExerciseKeys(init);
        KeyedSumAbsent(init, k, Reps);
        KeyedSumAbsent(init, k, Good);
        KeyedSumAbsent(init, k, Bad);
      }
    }
  }

  /** Each `by_mode` entry holds, for the records of its key, their number and the sum of their
      repetitions. */
  lemma {:induction false} ByModeEntries(rows: seq<SessionRecord>)
    ensures forall k :: k in ByModeOf(rows, ModeKey) ==>
              ByModeOf(rows, ModeKey)[k] == ModeStats(KeyedSum(rows, k, Reps), KeyedSum(rows, k, OneSession))
    decreases |rows|
  {
    if rows != [] {
      var init := rows[..|rows| - 1];
      ByModeEntries(init);
      forall k | k !in ByModeOf(init, ModeKey)
        ensures KeyedSum(init, k, Reps) == 0 && KeyedSum(init, k, OneSession) == 0
      {
        ByModeKeys(init, ModeKey);
        KeyedSumAbsent(init, k, Reps);
        KeyedSumAbsent(init, k, OneSession);
      }
    }
  }

  /** The per-mode totals do not depend on the order of the records: two lists holding the same
      records give the same `by_mode` table. */
  lemma ByModeOrderFree(a: seq<SessionRecord>, b: seq<SessionRecord>)
    requires multiset(a) == multiset(b)
    ensures ByModeOf(a, ModeKey) == ByModeOf(b, ModeKey)
  {
    ExerciseTableOrderFree(a, b);
    ExerciseMatchesMode(a);
    ExerciseMatchesMode(b);
    ByModeEntries(a);
    ByModeEntries(b);
    forall k | k in ByModeOf(a, ModeKey)
      ensures ByModeOf(a, ModeKey)[k] == ByModeOf(b, ModeKey)[k]
    {
      KeyedSumPermutation(a, b, k, Reps);
      KeyedSumPermutation(a, b, k, OneSession);
    }
  }

  /** `by_exercise` has an entry exactly for the keys of the records. */
  lemma ExerciseKeys(rows: seq<SessionRecord>)
    ensures forall k :: k in ExerciseTable(rows) <==> exists i :: 0 <= i < |rows| && ModeKey(rows[i]) == k
  {
    ExerciseMatchesMode(rows);
    ByModeKeys(rows, ModeKey);
  }

  /** A key no row has sums to nothing. */
  lemma {:induction false} KeyedSumAbsent(rows: seq<SessionRecord>, k: string, f: SessionRecord -> int)
    requires forall i :: 0 <= i < |rows| ==> ModeKey(rows[i]) != k
    ensures KeyedSum(rows, k, f) == 0
    decreases |rows|
  {
    if rows != [] {
      KeyedSumAbsent(rows[..|rows| - 1], k, f);
    }
  }

  /** Keyed sums split over a concatenation. */
  lemma {:induction false} KeyedSumAppend(a: seq<SessionRecord>, b: seq<SessionRecord>, k: string,
                                          f: SessionRecord -> int)
    ensures KeyedSum(a + b, k, f) == KeyedSum(a, k, f) + KeyedSum(b, k, f)
    decreases |b|
  {
    if b == [] {
      assert a + b == a;
    } else {
      var b' := b[..|b| - 1];
      assert (a + b)[..|a + b| - 1] == a + b';
      KeyedSumAppend(a, b', k, f);
    }
  }

  /** Taking one record out of a list takes its contribution out of every keyed sum. */
  lemma KeyedSumRemove(b: seq<SessionRecord>, i: int, k: string, f: SessionRecord -> int)
    requires 0 <= i < |b|
    ensures KeyedSum(b, k, f)
            == KeyedSum(b[..i] + b[i + 1..], k, f) + (if ModeKey(b[i]) == k then f(b[i]) else 0)
  {
    assert b == b[..i] + [b[i]] + b[i + 1..];
    KeyedSumAppend(b[..i] + [b[i]], b[i + 1..], k, f);
    KeyedSumAppend(b[..i], [b[i]], k, f);
    KeyedSumAppend(b[..i], b[i + 1..], k, f);
    assert [b[i]][..0] == [];
  }

  /** Removing the same record from two lists with the same records leaves lists with the same
      records. */
  lemma MultisetRemove(a: seq<SessionRecord>, b: seq<SessionRecord>, i: int)
    requires |a| > 0 && 0 <= i < |b| && b[i] == a[|a| - 1]
    requires multiset(a) == multiset(b)
    ensures multiset(a[..|a| - 1]) == multiset(b[..i] + b[i + 1..])
  {
    var init, last, rest := a[..|a| - 1], a[|a| - 1], b[..i] + b[i + 1..];
    assert a == init + [last];
    assert b == b[..i] + [last] + b[i + 1..];
    assert multiset(b) == multiset(b[..i]) + multiset{last} + multiset(b[i + 1..]);
    assert multiset(rest) + multiset{last} == multiset(init) + multiset{last};
    forall y
      ensures multiset(init)[y] == multiset(rest)[y]
    {
      assert (multiset(rest) + multiset{last})[y] == (multiset(init) + multiset{last})[y];
    }
  }

  /** Keyed sums do not depend on the order of the records. */
  lemma {:induction false} KeyedSumPermutation(a: seq<SessionRecord>, b: seq<SessionRecord>, k: string,
                                               f: SessionRecord -> int)
    requires multiset(a) == multiset(b)
    ensures KeyedSum(a, k, f) == KeyedSum(b, k, f)
    decreases |a|
  {
    if a == [] {
      assert |b| == |multiset(b)| == 0;
    } else {
      var last := a[|a| - 1];
      assert last in multiset(b) by { assert a[|a| - 1] in a; }
      var i :| 0 <= i < |b| && b[i] == last;
      MultisetRemove(a, b, i);
      KeyedSumPermutation(a[..|a| - 1], b[..i] + b[i + 1..], k, f);
      KeyedSumRemove(b, i, k, f);
    }
  }

  /** The posture totals do not depend on the order of the records: two lists holding the same
      records give the same `by_exercise` table. */
  lemma ExerciseTableOrderFree(a: seq<SessionRecord>, b: seq<SessionRecord>)
    requires multiset(a) == multiset(b)
    ensures ExerciseTable(a) == ExerciseTable(b)
  {
    ExerciseEntries(a);
    ExerciseEntries(b);
    ExerciseKeys(a);
    ExerciseKeys(b);
    forall k
      ensures k in ExerciseTable(a) <==> k in ExerciseTable(b)
    {
      if k in ExerciseTable(a) {
        var i :| 0 <= i < |a| && ModeKey(a[i]) == k;
        assert a[i] in multiset(b);
        var j :| 0 <= j < |b| && b[j] == a[i];
      }
      if k in ExerciseTable(b) {
        var j :| 0 <= j < |b| && ModeKey(b[j]) == k;
        assert b[j] in multiset(a);
        var i :| 0 <= i < |a| && a[i] == b[j];
      }
    }
    forall k | k in ExerciseTable(a)
      ensures ExerciseTable(a)[k] == ExerciseTable(b)[k]
    {
      KeyedSumPermutation(a, b, k, Reps);
      KeyedSumPermutation(a, b, k, Good);
      KeyedSumPermutation(a, b, k, Bad);
    }
  }

  /** Guarding each addition by truthiness adds exactly the present posture fields: an absent,
      null or zero field adds nothing. */
  lemma PostureFieldSums(s: SessionRecord)
    ensures Good(s) == OrZero(s.pushupGood) + OrZero(s.curlRGood) + OrZero(s.curlLGood)
                       + OrZero(s.squatGood) + OrZero(s.plankGoodTime)
    ensures Bad(s) == OrZero(s.pushupBad) + OrZero(s.curlRBad) + OrZero(s.curlLBad)
                      + OrZero(s.squatBad) + OrZero(s.plankBadTime)
  {
  }
}
