# AI Workout Pose Corrector: a verified model of its bookkeeping

The system is a Flask server (`app.py`) that watches a camera feed and counts exercise
repetitions, plus a React client that shows the counts live and summarises past sessions. This
project models the parts that are bookkeeping rather than geometry or I/O:

- **The server's state and its handlers** (`server.dfy`, `tracking.dfy`, `server_summary.dfy`,
  `tables.dfy`). The module-level globals of `app.py` become one `Server` object with these fields:
  - the mode;
  - the repetition counters with their good/bad posture tallies;
  - the stage machines and the eight-angle smoothing windows;
  - the displayed angles and the plank clock;
  - the saved-session list and the open session.

  `ProcessFrame` is one iteration of the `gen_frames` loop; it dispatches to one branch per
  exercise. `SetMode`, `SaveCurrentSession`, `StartSession` and `EndSession` change the state.
  `GetSessions`, `GetSummary` and `PoseData` read it. Each frame step is proved against a step
  function on values (`Tracking.FrameStep`). Each handler states the whole new state. The class
  invariant `Valid` carries three facts:
  - every counter equals good plus bad;
  - every window holds at most eight angles;
  - the saved list is numbered 1, 2, ….
- **The squat and plank branches as written** (`as_written.dfy`). `gen_frames` does not declare
  the squat and plank variables `global`, so they are locals of the generator. This module models
  that and proves the resulting `UnboundLocalError`s (see Findings). The server model uses the
  evidently intended module-level state.
- **The results page** (`client_summary.dfy`, `results_view.dfy`). It covers:
  - `computeSummaryFromSessions`, as a loop proved against a specification function;
  - the merge of the server's summary with the derived one, and the fetch's failure path;
  - `getDuration`;
  - the rounded posture percentages.
- **The live workout page** (`workout.dfy`). Each poll turns a `/pose_data` frame into the gauge
  value, the repetition count and the feedback line.
- **How the pieces fit** (`crosscheck.dfy`). The page shows what the server reports. The results
  page finds the server's open session as its current one. Once a fetch succeeds, the server's
  own summary is entirely overridden by the derived one.

`optional.dfy` holds absent-or-null JSON fields and the `x || 0` reading. `records.dfy` holds the
session record and the frame as datatypes. `decimal.dfy` holds the decimal printing of numbers
that the templates use, with its parser round trip.

Clock readings (`datetime.now().isoformat()`, `time.time()`) and elapsed milliseconds are
parameters. Joint angles and posture tests are inputs of a `Pose`.

## Model

| member | source | states |
|---|---|---|
| `Tracking.StageRule` | app.py:143-156 | The hysteresis rule shared by all exercises. A repetition counts exactly when the entering test fails, the reaching test holds and the stage is the first one. A count moves to the other stage and is good exactly when the posture test holds. The entering test always sets the first stage. Otherwise the stage is unchanged. |
| `Tracking.NoRecountWithoutEntry` | app.py:143-156 | The machine re-arms only through the entering test. Over any run of frames that never pass it, at most one repetition is counted, and none unless the run starts in the first stage. |
| `Tracking.PushUpRule` | app.py:143-156 | A push-up counts exactly when the stage is down, the smoothed elbow angle is at least 160 and the spine angle is above 150. A counted push-up is always good. An elbow angle of at most 70 with the spine above 150 sets the stage down. Any other frame that counts nothing leaves the stage unchanged. |
| `Tracking.CurlRule` | app.py:173-201 | A curl arm counts exactly when its stage is up and its smoothed angle is at least 160. The new stage is down, and the rep is good exactly when the elbow is tucked. An angle of at most 50 with the elbow tucked sets the stage up. Any other frame that counts nothing leaves the stage unchanged. |
| `Tracking.SquatRule` | app.py:230-243 | A squat counts exactly when the stage is down and the smoothed knee angle is at least 160. It is good exactly when the spine angle is above 140. A knee angle of at most 80 sets the stage down. Any other frame that counts nothing leaves the stage unchanged. |
| `Tracking.Tallied` | app.py:148-153 | A counted rep adds one to the count and one to exactly one of good/bad, and nothing otherwise. The split good + bad == count is preserved. |
| `Tracking.Trunc` | app.py:141 | Python's `int()` on a float truncates toward zero: the result is within one of the input, on the zero side. |
| `Tracking.Slide` | app.py:137-139 | Append, then drop the oldest angle past eight. The new angle is last, and a window of at most eight becomes the last eight of the extended sequence. |
| `Tracking.SlideKeepsRecent` | app.py:137-140 | After any sequence of arrivals, the window is the most recent eight angles in arrival order. |
| `Tracking.MeanWithin` | app.py:140 | The smoothed angle lies within the range of the angles in the window. |
| `Tracking.PushUpStep` | app.py:130-156 | The push-up branch takes one stage-machine step on the push-up counter. It never adds bad posture. It keeps the counters balanced and the windows bounded. |
| `Tracking.CurlStep` | app.py:158-201 | The curl branch takes one independent stage-machine step per arm. It keeps the counters balanced and the windows bounded. |
| `Tracking.SquatStep` | app.py:203-243 | The squat branch, on module-level state, takes one stage-machine step on the squat counter. It keeps the counters balanced and the windows bounded. |
| `Tracking.PlankStep` | app.py:245-281 | The plank branch starts the hold at the first frame and keeps the start after that. It adds exactly one half second of posture time, to good exactly when the alignment deviation is below 0.15. Plank time is non-negative once the clock has passed the start. |
| `Tracking.FrameStep` | app.py:103-281 | One frame raises each counter by at most one and never lowers it. It changes a stage only by entering the first stage or on the counting move. It keeps good + bad == count and the windows bounded. With no pose or an unknown mode it changes nothing. Only plank frames touch the plank clock. |
| `Server.Server.constructor` | app.py:45-92 | The initial state: Push-Up mode, zero counters, no stages, empty windows, no saved or open session. |
| `Server.Server.ProcessFrame` | app.py:103-281 | A frame updates the tracked state exactly as `FrameStep` does and keeps the server invariant. |
| `Server.Server.TrackPushUp` | app.py:130-156 | The push-up branch, executed in place, leaves the state `PushUpStep` gives. |
| `Server.Server.TrackCurl` | app.py:158-201 | The curl branch, executed in place, leaves the state `CurlStep` gives. |
| `Server.Server.TrackSquat` | app.py:203-243 | The squat branch, executed in place, leaves the state `SquatStep` gives. |
| `Server.Server.TrackPlank` | app.py:245-281 | The plank branch, executed in place, leaves the state `PlankStep` gives. |
| `Server.Push` | app.py:137-139 | `append` then `pop(0)` on a list gives `Slide`. |
| `Server.Seconds` | app.py:335-336 | `int()` of a time kept in half seconds gives the whole seconds, rounded down for a non-negative time. |
| `Server.SavedAndLiveTotals` | app.py:367-377 | The saved record and the live `/get_sessions` record agree on `total_reps` for the four modes. For any other mode the saved one is 0 and the live one is the plank time. |
| `Server.Server.Closing` | app.py:379-400 | The record saved at `now` has id = saved count + 1, the session's mode and start, end time `now`, and no `is_active`. |
| `Server.Server.SaveCurrentSession` | app.py:356-402 | With no open session it returns nothing and changes nothing. Otherwise it appends exactly that record and returns it. Counters and the open session are untouched. |
| `Server.Server.SetMode` | app.py:340-354 | Without a mode it returns 400 and changes nothing. Otherwise: the open session is saved first only when its mode is set and differs; the mode switches; a session opens only when none is open; an open session keeps its mode and start. |
| `Server.RepeatedSwitchSavesTwice` | app.py:346-352 | Switching the mode twice during one session saves that session twice, both times under its original mode and start. |
| `Server.Server.StartSession` | app.py:404-439 | Any open session is saved. Every counter is zeroed and the plank clock cleared. A new session opens in the current mode. |
| `Server.Server.EndSession` | app.py:441-449 | With no open session it returns 400 and changes nothing. Otherwise it appends exactly the closing record, returns it, and closes the session. |
| `Server.Server.GetSessions` | app.py:451-485 | The saved records unchanged, followed by exactly one record while a session is open. That record is numbered one past them, active, unended, and carries the session's start. |
| `Server.GetSessionsNumbered` | app.py:455-484 | Listed ids are 1, 2, … in order. While a session is open exactly the last record is active; otherwise none is. |
| `Server.Server.SummaryRows` | app.py:490-504 | The rows `get_summary` aggregates: the saved records unchanged, then one row while a session is open. That row has the session's mode and the push-up and curl counters. Its total is the push-up count in push-up mode and the curl total otherwise. It has no squat or plank field. |
| `Server.Server.GetSummary` | app.py:487-597 | The all-zero reply exactly when there are no rows. Otherwise: `total_sessions` counts saved records only; `active_sessions` is 0 or 1; `total_reps` sums every row; the average divides by every row; both tables cover every row; `current_session` is present exactly when a session is open. |
| `Server.SumReps` | app.py:515 | The loop sum equals the sum of `total_reps` over the rows, absent read as 0. |
| `Server.Tabulate` | app.py:519-577 | The loop builds exactly the `by_mode` and `by_exercise` tables of the rows. |
| `Server.SummaryByModeTotals` | app.py:519-525 | Summed over modes, `by_mode` counts `total_sessions + active_sessions` sessions and `total_reps` repetitions. |
| `ServerSummary.ByExerciseKeys` | app.py:527-577 | `by_exercise` has only the five exercise keys. The two curl-arm keys appear together, exactly when some row is a curl. |
| `Server.StageLabel` | app.py:314-320 | A stage is reported as "up"/"down", and null exactly when unset. |
| `Server.Server.PoseData` | app.py:297-338 | The frame reports the mode, the generic angle for the mode, and the plank posture times in whole seconds. |
| `Server.CurlAngleBetweenArms` | app.py:302-304 | In curl mode the generic angle lies between the two arms' displayed angles. |
| `Server.PoseDataBalanced` | app.py:312-337 | Every reported good/bad pair sums to its count, and push-up bad posture is 0. |
| `Tables.Bump` | app.py:522-525 | A table update adds the key, and every other entry is unchanged. |
| `Tables.ByModeTotals` | frontend/src/pages/Results.jsx:63-69 | Over any rows and mode key, the sessions column sums to the number of rows and the reps column to `total_reps`. |
| `Tables.ByModeKeys` | frontend/src/pages/Results.jsx:67 | The per-mode table has an entry exactly for the keys of its rows. |
| `Tables.CountRow` | app.py:521-524 | One record's in-place `by_mode` update, shared by the server and by the results page (Results.jsx lines 67-69). It creates a zero entry when the key is missing, then adds one session and the record's repetitions, as `Bump` does. |
| `Tables.Accrue` | frontend/src/pages/Results.jsx:72-73 | A `by_exercise` update adds the key, and every other entry is unchanged. |
| `Optional.OrZero` | frontend/src/pages/Results.jsx:58 | JavaScript's `x \|\| 0` on an optional integer equals Python's `get(k, 0)`: 0 when absent, otherwise the value, zero included. |
| `Optional.AddIfTruthy` | frontend/src/pages/Results.jsx:77 | `if (x) acc += x` adds exactly `x \|\| 0`, and nothing for a falsy field. |
| `ClientSummary.ModeKey` | frontend/src/pages/Results.jsx:64 | `s.mode \|\| "Unknown"` is "Unknown" exactly when the mode is absent, empty or "Unknown", and otherwise the mode. |
| `ClientSummary.CountActive` | frontend/src/pages/Results.jsx:60 | The active count is between 0 and the number of records, and 0 exactly when no record is active. |
| `ClientSummary.FirstActive` | frontend/src/pages/Results.jsx:61 | `find` returns null exactly when no record is active. Otherwise it returns an active record with no active record before it. |
| `ClientSummary.ComputeSummaryFromSessions` | frontend/src/pages/Results.jsx:44-96 | The `forEach` loop that fills both tables entry by entry returns exactly the specified summary. |
| `ClientSummary.AccruePosture` | frontend/src/pages/Results.jsx:72-92 | One record adds its repetitions and, for each posture field, only a truthy value. |
| `ClientSummary.SummaryTotals` | frontend/src/pages/Results.jsx:45-59 | A non-array or an empty list gives all zeros, no current session and empty tables. Otherwise `total_sessions` is the (positive) record count, `total_reps` the sum, and the average their quotient. |
| `ClientSummary.CurrentSessionIffActive` | frontend/src/pages/Results.jsx:60-61 | `current_session` is null exactly when `active_sessions` is 0, and otherwise an active record. |
| `ClientSummary.ByModeAgrees` | frontend/src/pages/Results.jsx:63-69 | Summed over keys, `by_mode` sessions equal `total_sessions` and its repetitions `total_reps`. |
| `ClientSummary.ModelessCountedAsUnknown` | frontend/src/pages/Results.jsx:64 | A record without a mode (or with an empty one) is counted under "Unknown" in both tables. |
| `ClientSummary.ExerciseMatchesMode` | frontend/src/pages/Results.jsx:67-73 | `by_exercise` and `by_mode` have the same keys and the same repetitions per key. |
| `ClientSummary.ExerciseEntries` | frontend/src/pages/Results.jsx:72-92 | Each `by_exercise` entry is the per-key sum of repetitions, good posture and bad posture over the records. |
| `ClientSummary.ByModeEntries` | frontend/src/pages/Results.jsx:63-69 | Each `by_mode` entry holds the number of records of its key and the sum of their repetitions. |
| `ClientSummary.ByModeOrderFree` | frontend/src/pages/Results.jsx:63-69 | Any reordering of the records gives the same `by_mode` table. |
| `ClientSummary.ExerciseKeys` | frontend/src/pages/Results.jsx:72 | `by_exercise` has an entry exactly for the keys of the records. |
| `ClientSummary.ExerciseTableOrderFree` | frontend/src/pages/Results.jsx:63-93 | Any reordering of the records gives the same `by_exercise` table. |
| `ClientSummary.PostureFieldSums` | frontend/src/pages/Results.jsx:77-92 | A record's good (bad) contribution is the sum of its five good (bad) posture fields, absent read as 0. |
| `ResultsView.DerivedObject` | frontend/src/pages/Results.jsx:45-53 | The derived summary object has exactly the seven summary keys, with `current_session` null or the record. |
| `ResultsView.Merge` | frontend/src/pages/Results.jsx:34 | `Object.assign({}, summaryData \|\| {}, derived)`: the union of keys. A derived value overrides, and a server-only key keeps its value. |
| `ResultsView.MergeIsDerived` | frontend/src/pages/Results.jsx:33-34 | When the server has no key of its own, the merge is the derived summary. |
| `ResultsView.ResultsPage.constructor` | frontend/src/pages/Results.jsx:6-8 | No summary, no sessions, loading. |
| `ResultsView.ResultsPage.FetchData` | frontend/src/pages/Results.jsx:17-41 | Loading ends either way. On failure summary and sessions keep their values. On success sessions become `sessions \|\| []` and the summary becomes the merge of the server's summary with the summary derived from them. |
| `ResultsView.SplitSeconds` | frontend/src/pages/Results.jsx:109-111 | For a non-negative diff, minutes·60 + seconds = diff with 0 ≤ seconds < 60. A negative diff gives JavaScript's non-positive remainder. |
| `ResultsView.GetDuration` | frontend/src/pages/Results.jsx:104-113 | "Ongoing" exactly when the start is falsy, and "Active" exactly when the start is set and the end falsy. |
| `ResultsView.DurationInjective` | frontend/src/pages/Results.jsx:109-112 | Two finished sessions show the same "Xm Ys" only when they last the same whole number of seconds. |
| `ResultsView.RoundedShare` | frontend/src/pages/Results.jsx:238 | `Math.round(part / whole * 100)`: the percentage within half a point of the share, with halves rounded up. It lies in 0..100 for 0 ≤ part ≤ whole. |
| `ResultsView.RoundedShareUnique` | frontend/src/pages/Results.jsx:238 | Only one percentage lies within half a point of a share. |
| `ResultsView.GoodPercentage` | frontend/src/pages/Results.jsx:235-238 | 0 without repetitions. Otherwise the rounded good share, which is in 0..100 when good ≤ total. |
| `ResultsView.BadShare` | frontend/src/pages/Results.jsx:277-282 | The bad bar `100 - goodPercentage` is in 0..100 and is the bad share rounded with halves going down. |
| `ResultsView.TieGoesToGood` | frontend/src/pages/Results.jsx:277-282 | With 1 good rep in 8 the card shows 13% and 87%, although the bad share 87.5% rounds to 88. |
| `Decimal.IntRoundTrip` | frontend/src/pages/Results.jsx:112 | A printed integer parses back to itself. |
| `Decimal.IntToStringInjective` | frontend/src/pages/Workout.jsx:98 | Distinct integers print differently. |
| `Workout.StageHint` | frontend/src/pages/Workout.jsx:49-55 | The hint is the down text exactly for stage "down", the up text exactly for "up", and otherwise "Good posture". |
| `Workout.ArmLabel` | frontend/src/pages/Workout.jsx:63-75 | An arm's hint is "Curl", "Slow down" or "Good posture". |
| `Workout.CurlFeedback` | frontend/src/pages/Workout.jsx:77-81 | The curl line holds a slash exactly when the arms' hints disagree. Reading it back around the first " / " (or whole, without a slash) gives both arms' hints. |
| `Workout.CurlFeedbackDetermines` | frontend/src/pages/Workout.jsx:58-81 | The curl line determines both arms' hints. |
| `Workout.PlankFeedbackDetermines` | frontend/src/pages/Workout.jsx:97-100 | A running plank's line determines the time it shows. |
| `Workout.PlankFeedbackStart` | frontend/src/pages/Workout.jsx:95-101 | "Start plank position" exactly when no positive plank time was reported, an absent one included. |
| `Workout.DisplayValue` | frontend/src/pages/Workout.jsx:38-44 | The gauge keeps its previous value exactly when the frame carries neither its mode's field nor `elbow_angle`. Otherwise it takes a value the frame carries. The mode's own field (knee angle for squat, plank time for plank) wins over `elbow_angle`. |
| `Workout.LiveView.constructor` | frontend/src/pages/Workout.jsx:11-14 | Gauge 0, 0 reps, "Ready to begin", empty frame. |
| `Workout.LiveView.Poll` | frontend/src/pages/Workout.jsx:31-107 | A failed poll only sets "Connecting to backend...". A frame is stored and moves the gauge as `DisplayValue` says. Reps and feedback follow the per-mode rule for the four modes and stay unchanged for any other mode. |
| `CrossCheck.GaugeFollowsServer` | frontend/src/pages/Workout.jsx:38-44 | For a server frame the gauge shows the server's generic angle in every mode but plank. In plank mode it shows the plank time, not the alignment reading sent as `elbow_angle`. |
| `CrossCheck.RepsFollowServer` | frontend/src/pages/Workout.jsx:47-101 | The page counts reps for exactly the server's four modes and then shows the total `/get_sessions` lists for that mode. |
| `CrossCheck.FeedbackFollowsStage` | frontend/src/pages/Workout.jsx:49-92 | Push-up and squat feedback names the server's stage: down, up, or not yet set. |
| `CrossCheck.ArmHintFollowsStage` | frontend/src/pages/Workout.jsx:63-75 | Each arm's hint names that arm's server stage. |
| `CrossCheck.ClientFindsOpenSession` | frontend/src/pages/Results.jsx:57-61 | From the server's session list, the page's `current_session` is exactly the open session's record, with one active session counted, and the open session counted among the sessions. |
| `CrossCheck.SummaryReplyKeys` | app.py:506-597 | The server's summary keys are always among the derived keys. The empty reply lacks `active_sessions` and `current_session`. |
| `CrossCheck.PageShowsDerivedSummary` | frontend/src/pages/Results.jsx:34 | Every server summary key is overridden, so after a successful fetch the page shows only the derived summary. |
| `AsWritten.SquatFrameAsWritten` | app.py:203-243 | As written, a squat frame changes no module-level state but the knee window. |
| `AsWritten.SquatLeavesGlobals` | app.py:96-101 | As written, a squat frame leaves the module-level counters, stages and displayed angles untouched. |
| `AsWritten.SquatCountStaysUnbound` | app.py:235 | `squat_count` is never bound, since it is only assigned by `+=`. |
| `AsWritten.SquatRepetitionRaises` | app.py:233-235 | Every frame that would complete a squat raises `UnboundLocalError`. |
| `AsWritten.StandingSquatFrameRaises` | app.py:230-233 | The first squat frame of a standing user raises, where the intended step just slides the window. |
| `AsWritten.SquatIntended` | app.py:233-241 | Where the as-written frame raises, the intended step counts the squat, good or bad by the spine angle. |
| `AsWritten.PlankAlwaysRaises` | app.py:263-265 | Every plank frame with a detected pose raises, and nothing ever binds the start time. |
| `AsWritten.PlankIntended` | app.py:262-281 | Where the as-written frame raises, the intended step starts the hold and books half a second. |

## Left out

- Camera capture, MediaPipe landmark detection, skeleton drawing and the JPEG stream are left out. So is `calculate_angle`, which is `atan2` geometry. A frame enters as a `Pose` of measured angles and posture tests.
- Floating point: angles, averages and clock readings are exact reals, so IEEE rounding is not modelled.
- ResultsView.RoundedShare: rounds the exact share `part / whole`, while the page rounds the floating-point value of `part / whole * 100`. That value can fall just below a half: 23 of 40 gives 57.49999999999999, shown as 57 where the model gives 58, and 29 of 200 shows 14 where the model gives 15.
- ResultsView.GoodPercentage: inherits the rounding of `RoundedShare`, so on such shares the page's percentage is one below the model's.
- Clocks are parameters: `datetime.now().isoformat()` as an opaque non-empty `Timestamp`, and `time.time()` as a real. In `getDuration`, `Date` parsing is left out: the elapsed milliseconds are an input, and an invalid date (`NaN`) is not modelled.
- JSON `null` and an absent field are both `None`. The server never sends `null` for the counters or angles the pages read, so `data.knee_angle !== undefined` is modelled as presence.
- Workout.LiveView.Poll: a reply is always an object. A `null` body, which would throw inside the callback and land in the catch branch, is not modelled.
- Server.Server.SetMode: the request's `mode` is a string or absent. A `null` or non-string mode value and a body that is not a JSON object are not modelled.
- ServerSummary.ModeName: reads a null mode as "Unknown", where Python's `get` would keep `None`. No reachable row has a null mode, because the server invariant keeps the open session's mode set whenever a session is open.
- Tracking.SlideKeepsRecent: the windows' "last eight arrivals" content is stated as a lemma on values, not as a class invariant of `Server`. The class invariant keeps only the length bound.
- Maps are Dafny maps. JavaScript's inherited object keys (a mode named `constructor` or `__proto__`) are not modelled.
- Concurrency: Flask serves requests while the generator runs. Each handler and each frame is modelled as atomic.
- Timing and lifecycle plumbing is left out: `setInterval`, `Promise.all`, `fetch`, and the start/end/set-mode effects of the workout page. Also left out are the per-frame feedback strings `gen_frames` computes but never sends, and the rest of the markup.
- Server.Server.GetSummary: the open-session row counts curl repetitions for a squat or plank session. This is modelled as written, since the intended total is not evident.

## Findings

| source | as written | input that shows it | evidently intended | confidence | as-written member | corrected member |
|---|---|---|---|---|---|---|
| app.py:203-243 | `gen_frames` declares `global` only for the push-up and curl state, so the squat stage, count, posture tallies and `current_knee_angle` are generator locals. Reading `squat_stage` or `squat_count` before assignment raises `UnboundLocalError` and ends the video stream. The module-level squat counters reported to the pages stay 0. | A first squat frame with both knees at 170 degrees: the smoothed angle is at least 160, so `squat_stage == "down"` reads an unbound local. Likewise any frame completing a squat after a down phase, at `squat_count += 1`. | The squat branch updates the module-level squat state and counts the repetition. | not executed | `AsWritten.StandingSquatFrameRaises` | `Tracking.SquatStep` |
| app.py:245-281 | `plank_start_time` is assigned inside `gen_frames` without `global`, so `plank_start_time is None` reads an unbound local on every plank frame. | Any plank-mode frame with a detected pose. | The first plank frame starts the hold at the current time. Each frame adds half a second of good or bad posture and updates the plank time. | not executed | `AsWritten.PlankAlwaysRaises` | `Tracking.PlankStep` |
