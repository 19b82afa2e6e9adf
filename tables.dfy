/** The per-mode tables of a workout summary (`by_mode`, `by_exercise`) and sums over their rows. */
module Tables {
  import opened Records

  /** A `by_mode` entry. */
  datatype ModeStats = ModeStats(totalReps: int, sessions: int)

  /** A `by_exercise` entry. */
  datatype ExerciseStats = ExerciseStats(totalReps: int, goodPosture: int, badPosture: int)

  /** The sum of the values of a table, in no particular key order. */
  ghost function SumValues(m: map<string, int>): int
    decreases |m|
  {
    if |m| == 0 then 0
    else
      assert m.Keys != {} by { assert |m.Keys| == |m|; }
      var k :| k in m; m[k] + SumValues(m - {k})
  }

  lemma RemoveSize<V>(m: map<string, V>, k: string)
    requires k in m
    ensures |m - {k}| == |m| - 1
  {
    assert (m - {k}).Keys == m.Keys - {k};
  }

  /** The sum of a non-empty table is some entry plus the sum of the others. */
  lemma SumValuesUnfold(m: map<string, int>) returns (j: string)
    requires |m| > 0
    ensures j in m && SumValues(m) == m[j] + SumValues(m - {j})
  {
    j :| j in m && SumValues(m) == m[j] + SumValues(m - {j});
  }

  /** The sum does not depend on which key is taken first. */
  lemma {:induction false} SumValuesPick(m: map<string, int>, k: string)
    requires k in m
    ensures SumValues(m) == m[k] + SumValues(m - {k})
    decreases |m|, 1
  {
    assert |m| != 0 by { assert k in m.Keys; }
    var j := SumValuesUnfold(m);
    if j != k {
      SumValuesSwap(m, j, k);
    }
  }

  /** Taking out either of two keys first leaves the same sum. */
  lemma {:induction false} SumValuesSwap(m: map<string, int>, j: string, k: string)
    requires j in m && k in m && j != k
    ensures m[j] + SumValues(m - {j}) == m[k] + SumValues(m - {k})
    decreases |m|, 0
  {
    var mj, mk := m - {j}, m - {k};
    RemoveSize(m, j);
    RemoveSize(m, k);
    var rest := mj - {k};
    assert rest == mk - {j};
    var a, b, c := SumValues(mj), SumValues(mk), SumValues(rest);
    assert a == m[k] + c by { SumValuesPick(mj, k); }
    assert b == m[j] + c by { SumValuesPick(mk, j); }
  }

  /** Replacing or adding one entry changes the sum by exactly that entry. */
  lemma SumValuesUpdate(m: map<string, int>, k: string, v: int)
    ensures SumValues(m[k := v]) == SumValues(m) - (if k in m then m[k] else 0) + v
  {
    var u := m[k := v];
    SumValuesPick(u, k);
    assert u - {k} == m - {k};
    if k in m {
      SumValuesPick(m, k);
    } else {
      assert m - {k} == m;
    }
  }

  /** The `sessions` column of a `by_mode` table. */
  function SessionsColumn(m: map<string, ModeStats>): map<string, int> {
    map k | k in m :: m[k].sessions
  }

  /** The `total_reps` column of a `by_mode` table. */
  function RepsColumn(m: map<string, ModeStats>): map<string, int> {
    map k | k in m :: m[k].totalReps
  }

  /** `by_mode[key].sessions += 1; by_mode[key].total_reps += reps`, creating a zero entry first when
      the key is missing. */
  function Bump(m: map<string, ModeStats>, key: string, reps: int): (r: map<string, ModeStats>)
    ensures r.Keys == m.Keys + {key}
    ensures forall k :: k in m && k != key ==> r[k] == m[k]
  {
    var e := if key in m then m[key] else ModeStats(0, 0);
    m[key := ModeStats(e.totalReps + reps, e.sessions + 1)]
  }

  /** Adding `delta` to one entry (a missing entry reads as 0) adds `delta` to the sum. */
  lemma SumValuesAdd(c: map<string, int>, key: string, delta: int)
    ensures SumValues(c[key := (if key in c then c[key] else 0) + delta]) == SumValues(c) + delta
  {
    SumValuesUpdate(c, key, (if key in c then c[key] else 0) + delta);
  }

  lemma BumpColumns(m: map<string, ModeStats>, key: string, reps: int)
    ensures var c := SessionsColumn(m);
      SessionsColumn(Bump(m, key, reps)) == c[key := (if key in c then c[key] else 0) + 1]
    ensures var c := RepsColumn(m);
      RepsColumn(Bump(m, key, reps)) == c[key := (if key in c then c[key] else 0) + reps]
  {
  }

  /** A bump adds one session to the table. */
  lemma BumpSessions(m: map<string, ModeStats>, key: string, reps: int)
    ensures SumValues(SessionsColumn(Bump(m, key, reps))) == SumValues(SessionsColumn(m)) + 1
  {
    BumpColumns(m, key, reps);
    SumValuesAdd(SessionsColumn(m), key, 1);
  }

  /** A bump adds its repetitions to the table. */
  lemma BumpReps(m: map<string, ModeStats>, key: string, reps: int)
    ensures SumValues(RepsColumn(Bump(m, key, reps))) == SumValues(RepsColumn(m)) + reps
  {
    BumpColumns(m, key, reps);
    SumValuesAdd(RepsColumn(m), key, reps);
  }

  /** One record's `by_mode` update, in place (app.py lines 521-524, Results.jsx lines 67-69):
      a zero entry when the key is missing, then one more session and the record's repetitions. */
  method CountRow(byMode: map<string, ModeStats>, key: string, reps: int) returns (m: map<string, ModeStats>)
    ensures m == Bump(byMode, key, reps)
  {
    m := byMode;
    if key !in m {
      m := m[key := ModeStats(0, 0)];
    }
    m := m[key := m[key].(sessions := m[key].sessions + 1)];
    m := m[key := m[key].(totalReps := m[key].totalReps + reps)];
  }

  /** Add to a `by_exercise` entry, creating a zero entry first when the key is missing. */
  function Accrue(m: map<string, ExerciseStats>, key: string, reps: int, good: int, bad: int)
    : (r: map<string, ExerciseStats>)
    ensures r.Keys == m.Keys + {key}
    ensures forall k :: k in m && k != key ==> r[k] == m[k]
  {
    var e := if key in m then m[key] else ExerciseStats(0, 0, 0);
    m[key := ExerciseStats(e.totalReps + reps, e.goodPosture + good, e.badPosture + bad)]
  }

  /** The `by_mode` table after the rows, in order: each row bumps the entry under its `key`. */
  function ByModeOf(rows: seq<SessionRecord>, key: SessionRecord -> string): map<string, ModeStats>
    decreases |rows|
  {
    if rows == [] then map[]
    else
      var last := rows[|rows| - 1];
      Bump(ByModeOf(rows[..|rows| - 1], key), key(last), Reps(last))
  }

  /** Summed over its keys, `by_mode` counts every row once and all their repetitions. */
  lemma {:induction false} ByModeTotals(rows: seq<SessionRecord>, key: SessionRecord -> string)
    ensures SumValues(SessionsColumn(ByModeOf(rows, key))) == |rows|
    ensures SumValues(RepsColumn(ByModeOf(rows, key))) == TotalReps(rows)
    decreases |rows|
  {
    if rows == [] {
      assert SessionsColumn(map[]) == map[];
      assert RepsColumn(map[]) == map[];
    } else {
      var init, last := rows[..|rows| - 1], rows[|rows| - 1];
      ByModeTotals(init, key);
      BumpSessions(ByModeOf(init, key), key(last), Reps(last));
      BumpReps(ByModeOf(init, key), key(last), Reps(last));
    }
  }

  /** The table has an entry exactly for the keys of its rows. */
  lemma {:induction false} ByModeKeys(rows: seq<SessionRecord>, key: SessionRecord -> string)
    ensures forall k :: k in ByModeOf(rows, key) <==> exists i :: 0 <= i < |rows| && key(rows[i]) == k
    decreases |rows|
  {
    if rows != [] {
      var init := rows[..|rows| - 1];
      ByModeKeys(init, key);
      forall k
        ensures k in ByModeOf(rows, key) <==> exists i :: 0 <= i < |rows| && key(rows[i]) == k
      {
        if k in ByModeOf(init, key) {
          var i :| 0 <= i < |init| && key(init[i]) == k;
          assert rows[i] == init[i];
        }
        if exists i :: 0 <= i < |rows| && key(rows[i]) == k {
          var i :| 0 <= i < |rows| && key(rows[i]) == k;
          if i < |init| {
            assert init[i] == rows[i];
          }
        }
      }
    }
  }
}
