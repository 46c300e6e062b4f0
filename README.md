# Grasshopper, modelled in Dafny

Grasshopper measures how long a command keeps the CPU above a threshold. A
command-line client registers a test run with a tracking service. It then
reports CPU usage samples while the command runs, and it stops the run when
the command exits or the process receives SIGINT or SIGTERM. The tracking
service is a Flask application backed by SQLite. It keeps users, test runs
and samples, and it turns a run's samples into statistics. The main one is
the time spent above the run's threshold.

This project models the parts of that system that are decisions rather than
plumbing:

- `Analyzer` (`analyzer.dfy`): the threshold fold both tracker versions use.
  It sums the gap of every consecutive pair of samples whose first sample is
  above the threshold. The gap is measured by a parameter, so the same lemmas
  cover both duration functions.
- `LegacyTestRun` (`legacy_testrun.dfy`): the first tracker's `TestRun` record
  and `calculate_total_time_overpassing_threshold`.
- `TestRuns` (`testruns.dfy`): the service's run store. It holds the
  `test_run` and `cpu_usage` tables as the fields of a `RunStore`, and the
  `TestRun` object that `find_by_id` builds, with `finish`, `record_cpu_usage`,
  `has_passed_threshold` and the statistics.
- `Users` and `LegacyUsers` (`users.dfy`, `legacy_users.dfy`): both user
  stores. Lookups return the first matching row, as `fetchone` does.
- `Api` (`api.dfy`): the JSON routes. This covers token issue and the guard
  chains of the per-run routes, and their effect on the store.
- `Auth` (`auth.dfy`): the web registration and login views,
  `load_logged_in_user` and `login_required`.
- `Client` (`client.dfy`): the command-line client. This covers argument
  checking and defaults, the `TrackerClient`'s handling of the tracker's
  replies, the reporter's guard, and the save and restore of the signal
  handlers around a run.
- `Wrappers` (`wrappers.dfy`): `Option` and `Result`.

Environment inputs are parameters:

- the clock is `now`, in whole seconds;
- password hashing is a caller-supplied function `hash`;
- the random id of a new user is `newId`;
- the database's verdict on a test-run insert is `accepted`;
- an HTTP exchange is the reply it produced.

The model assumes the server clock never steps backwards: recording a
sample requires the clock to read no earlier than every recorded sample, so
a `RunStore` keeps its samples in clock order. The source does not enforce
this (see "Left out").

Some behaviour of the code worth knowing:

- `finish` overwrites the end time on every call. Stopping a run twice does
  not keep the first end time.
- A recorded usage sample is answered with status 200. The 201 in the route
  is passed to `jsonify` as a second value, not returned as the status.
- The service reads a run's samples newest first (`ORDER BY time DESC`).
- A run without samples, a missing time or a missing key ends in a Python
  exception (`ValueError`, `TypeError`, `KeyError`), which Flask answers
  with a 500.

## Model

| member | source | states |
|---|---|---|
| Analyzer.ElapsedSeconds | tracker/model/testrun.py:97 | the gap in seconds is non-negative iff the end is not before the start, and zero iff they coincide |
| Analyzer.CalculateDuration | grasshopper/tracker/model/testrun.py:12-16 | the server's duration always lies in [0, 86.4); for a gap of less than a day it is the elapsed seconds divided by 1000 |
| Analyzer.CalculateDurationMisreports | grasshopper/tracker/model/testrun.py:16 | a one-second gap measures 0.001 instead of 1, and a gap of minus one second measures 86.399 instead of -1 |
| Analyzer.TimeAboveFirstPair | tracker/model/testrun.py:94-100 | fewer than two samples give 0; otherwise the first pair contributes its gap exactly when its first sample is above the threshold, and the rest of the series follows |
| Analyzer.TimeAboveNoneAbove | tracker/model/testrun.py:98 | a threshold at or above every usage gives 0 |
| Analyzer.TimeAboveAllAbove | tracker/model/testrun.py:96-99 | a threshold below every usage counts every gap |
| Analyzer.TotalGapTelescopes | tracker/model/testrun.py:96-99 | in elapsed seconds the gaps sum to last timestamp minus first |
| Analyzer.TimeAboveBetweenZeroAndTotalGap | tracker/model/testrun.py:96-99 | with non-negative gaps, the time above lies between 0 and the total gap |
| Analyzer.TimeAboveAntitone | tracker/model/testrun.py:96-99 | with non-negative gaps, raising the threshold never increases the time above it |
| Analyzer.AscendingGapsNonNegative | tracker/model/testrun.py:97 | timestamps in capture order give non-negative elapsed gaps |
| Analyzer.CalculateDurationGapsNonNegative | grasshopper/tracker/model/testrun.py:16 | the server's duration makes every gap non-negative, whatever the order of the series |
| Analyzer.TimeAboveWithinRunSpan | tracker/model/testrun.py:94-100 | for ascending timestamps, 0 <= time above <= last timestamp minus first |
| Analyzer.TimeAboveAllAboveIsSpan | tracker/model/testrun.py:94-100 | when every usage is above the threshold, the time above is last timestamp minus first |
| Analyzer.TimeAboveNewestFirst | grasshopper/tracker/model/testrun.py:147-150 | folding the reversed series attributes each gap to the later sample of the pair and measures it backwards |
| LegacyTestRun.TestRun.ActiveRunHasNotEnded | tracker/model/testrun.py:36-48 | an active run has no end time, and a run with an end time is not active |
| LegacyTestRun.TestRun.Duration | tracker/model/testrun.py:50-56 | fails iff there is no start time; otherwise the elapsed seconds to the end time, or to now while the run has not ended |
| LegacyTestRun.TestRun.Finish | tracker/model/testrun.py:58-65 | the end time of the object and of the run's row (if the table has one) becomes now whatever it was, the run is no longer active, and its duration is the elapsed time from start to now |
| LegacyTestRun.TotalTimeOverpassingThreshold | tracker/model/testrun.py:94-100 | the loop over pairs computes the threshold fold in elapsed seconds |
| TestRuns.OfRunMembers | grasshopper/tracker/model/testrun.py:128-134 | a sample is selected for a run iff it is recorded and belongs to that run |
| TestRuns.OfRunOfOwnSamples | grasshopper/tracker/model/testrun.py:128-134 | a series whose samples all belong to the run is selected whole, in its order |
| TestRuns.NewestFirstMembers | grasshopper/tracker/model/testrun.py:128-134 | the fetched series holds exactly the run's recorded samples |
| TestRuns.MaxUsage | grasshopper/tracker/model/testrun.py:117-121 | the maximum is one of the usages and bounds them all |
| TestRuns.AppendTouchesOnlyOwner | grasshopper/tracker/model/testrun.py:101-111 | appending a sample extends its own run's series by that sample and leaves every other run's series unchanged |
| TestRuns.OfRunAscending | grasshopper/tracker/model/testrun.py:128-134 | a run's series taken from a store in clock order is in clock order |
| TestRuns.RunSeriesWithinSpan | tracker/model/testrun.py:94-100 | in a store kept in clock order, a run's time above lies between zero and the span of its samples, and equals the span when every sample is above |
| TestRuns.NewestFirstDescending | grasshopper/tracker/model/testrun.py:133 | the fetched series never increases in time |
| TestRuns.ScenarioInCaptureOrder | tracker/model/testrun.py:94-100 | usage 80, 80, 20, 20 at seconds 0 to 3 with threshold 50: 4 samples spanning 3 seconds, 2 of them above the threshold |
| TestRuns.ScenarioNewestFirst | grasshopper/tracker/model/testrun.py:141-150 | the same run fetched newest first gives -1 second in elapsed time and 86.399 under the server's duration |
| TestRuns.ScenarioReversed | grasshopper/tracker/model/testrun.py:147-150 | in the reversed example only the pair from second 1 back to second 0 counts |
| TestRuns.RunStore.Create | grasshopper/tracker/model/testrun.py:47-68 | a rejected insert fails with TestRunAlreadyExists and changes nothing; an accepted one adds a row under a new id with start time now and no end time, and returns that id and start time |
| TestRuns.RunStore.FindById | grasshopper/tracker/model/testrun.py:28-45 | None iff the id is unknown; otherwise a new object carrying the stored fields |
| TestRuns.TestRun.ActiveRunHasNotEnded | grasshopper/tracker/model/testrun.py:70-82 | an active run has no end time, and a run with an end time is not active |
| TestRuns.TestRun.Duration | grasshopper/tracker/model/testrun.py:84-90 | as written: fails iff the start or the end time is missing; otherwise the server's duration from start to end |
| TestRuns.TestRun.ActiveRunHasNoDuration | grasshopper/tracker/model/testrun.py:84-90 | every active run fails to report a duration |
| TestRuns.TestRun.IntendedDuration | grasshopper/tracker/model/testrun.py:84-90 | fails iff there is no start time; an active run measures to now, and a finished run to its end time |
| TestRuns.TestRun.Finish | grasshopper/tracker/model/testrun.py:92-99 | the end time of the object and of its row becomes now whatever it was, the run is no longer active, and samples are unchanged |
| TestRuns.TestRun.RecordCpuUsage | grasshopper/tracker/model/testrun.py:101-111 | exactly one sample is appended, stamped now and tagged with this run; other runs' series and all runs are unchanged |
| TestRuns.TestRun.HasPassedThreshold | grasshopper/tracker/model/testrun.py:113-122 | fails iff the run has no sample; otherwise true iff some sample of the run has usage strictly above the threshold |
| TestRuns.TestRun.FetchCurrentCpuUsage | grasshopper/tracker/model/testrun.py:124-139 | the copy loop returns the run's samples newest first |
| TestRuns.TestRun.GetTestExecutionStats | grasshopper/tracker/model/testrun.py:141-155 | fails with no data iff the run has no sample; with samples, succeeds iff the duration does, failing otherwise with a missing time; a success reports the sample count, the newest-first fold under the server's duration, and the duration |
| TestRuns.TestRun.IntendedExecutionStats | grasshopper/tracker/model/testrun.py:141-155 | fails with no data iff the run has no sample; otherwise the count, the capture-order fold in elapsed seconds, which lies between 0 and the run's sample span (equal to it when every sample is above), and the intended duration |
| Users.FirstWhere | grasshopper/tracker/model/user.py:25-29 | None iff no row matches; otherwise the first matching row |
| Users.FindsTheOnlyMatch | grasshopper/tracker/model/user.py:40-48 | when exactly one row matches, the lookup returns that row |
| Users.CheckPasswordAcceptsOnlyStored | grasshopper/tracker/model/user.py:72-73 | with a hash that does not collide, the check accepts exactly the password that was stored |
| Users.UserStore.FindById | grasshopper/tracker/model/user.py:20-33 | None iff no user has the id; otherwise a stored user with that id |
| Users.WithUsername | grasshopper/tracker/model/user.py:35-48 | None iff no row has the username; otherwise a stored row with that username, carrying exactly its fields |
| Users.UserStore.Create | grasshopper/tracker/model/user.py:50-70 | fails with UserAlreadyExists iff the id or username is taken, leaving the table unchanged; otherwise appends the user with the hash of the password, found afterwards by username and by id, and whose password checks |
| LegacyUsers.LegacyUserStore.Create | tracker/model/user.py:30-41 | fails iff the username is taken, changing nothing; otherwise appends a row with the next id and the hash of the password, found afterwards by username |
| Api.Auth | grasshopper/tracker/api.py:12-25 | 404 for an absent or unknown username, 401 for a wrong password, otherwise 200 with a token for that username; 200 only with a token |
| Api.AuthIgnoresPasswordOfUnknownUser | grasshopper/tracker/api.py:17-19 | for an unknown username the reply does not depend on the password or the hash |
| Api.OwnerGuard | grasshopper/tracker/api.py:47-53 | 404 for an unknown run before anything else, a 500 when the caller is no longer a user, then 403 for a non-owner; passes iff the run exists and the caller owns it |
| Api.RecordUsageReply | grasshopper/tracker/api.py:42-61 | the guard's reply, then 400 for an unparsable usage and a 500 for a missing one; 200 iff the guard passes and the usage is a number |
| Api.StopReply | grasshopper/tracker/api.py:64-80 | the guard's reply; 200 iff the guard passes |
| Api.GetReply | grasshopper/tracker/api.py:83-101 | as written: the guard's reply, otherwise a 500 |
| Api.TestrunGetNeverSucceeds | grasshopper/tracker/api.py:96-101 | no request to read a run is answered with 200 |
| Api.TestrunRecordUsage | grasshopper/tracker/api.py:42-61 | replies as RecordUsageReply; a 200 appends exactly one sample for the run, and any other reply records nothing; runs are unchanged |
| Api.TestrunStop | grasshopper/tracker/api.py:64-80 | replies as StopReply; a 200 sets only that run's end time to now, and any other reply leaves the runs unchanged |
| Api.TestrunGet | grasshopper/tracker/api.py:83-101 | replies as GetReply |
| Api.TestrunGetIntended | grasshopper/tracker/api.py:83-101 | the guard's reply; 200 iff the guard passes, the run has samples and a start time, carrying the run's id, times, its capture-order time above the threshold and, as duration, the elapsed seconds from the start to the end time or, while active, to now |
| Auth.RegisterError | grasshopper/tracker/auth.py:42-47 | a missing username is reported first, then a missing password, then a missing email; none iff all three are present |
| Auth.Register | grasshopper/tracker/auth.py:34-59 | GET renders the form; a missing field flashes its message; a taken id or username flashes the duplicate message; otherwise the user is added and the view redirects to login; a redirect only after a POST and with the user then found |
| Auth.LoginError | grasshopper/tracker/auth.py:69-73 | an unknown username is reported without a password check, then a wrong password; none iff the user exists and the password checks |
| Auth.Login | grasshopper/tracker/auth.py:62-84 | GET renders the form; a failed POST flashes the reason and leaves session and user alone; a successful one leaves only the user's id in the session, sets the user and redirects to the dashboard |
| Auth.LoadLoggedInUser | grasshopper/tracker/auth.py:15-20 | no user without a user_id in the session; otherwise the user found by that id |
| Auth.LoginRequired | grasshopper/tracker/auth.py:23-31 | a redirect to login without a user; otherwise the wrapped view's page |
| Auth.LoginThenLoadPassesLoginRequired | grasshopper/tracker/auth.py:15-31 | after a successful login, loading the user from the session finds the same user, so a protected view is shown |
| Client.PrepareArgs | grasshopper/grasshopper.py:160-176 | exit status 1 iff both or neither of --no-command and a command are given; otherwise a name is always set, a given name leaves everything unchanged, a command supplies the name and (for an empty description) the joined remaining words, and monitor-only mode uses "Unnamed testrun" and "No description" only when absent |
| Client.PrepareArgsIdempotent | grasshopper/grasshopper.py:168-176 | preparing prepared arguments changes nothing |
| Client.NewTrackerClient | grasshopper/grasshopper.py:18-29 | fails for a missing or empty token, then for an unreachable tracker; otherwise a new client with no run id |
| Client.TrackerClient.CreateTestrun | grasshopper/grasshopper.py:31-44 | any status but 201 fails with the reply's text and keeps the run id; a 201 stores and returns the reply's id and start time, so later requests target that id (or "None") |
| Client.TrackerClient.StopTestrun | grasshopper/grasshopper.py:52-57 | posts to the run's stop URL and never fails; warns iff the status is not 200 |
| Client.TrackerClient.GetTestrunStats | grasshopper/grasshopper.py:59-64 | reads the run's URL and returns the reply; warns iff the status is not 200 |
| Client.ReportGuard | grasshopper/grasshopper.py:86-93 | reporting fails iff no run is registered; otherwise it reports for that run |
| Client.InstallTerminateHandlers | grasshopper/grasshopper.py:104-108 | returns the SIGINT and SIGTERM handlers found, and installs the runner's handler for both |
| Client.RestoreHandlers | grasshopper/grasshopper.py:112-114 | puts each saved handler back on its signal |
| Client.TerminateRunnerOnSignal | grasshopper/grasshopper.py:102-114 | both signals go to the runner's handler during the body, and the handler table on exit equals the one on entry whatever the body left |

Both user stores look a username up in the same way: `find_by_username` in
tracker/model/user.py:19-28 is the same query as in the service's store, and
both stores' `FindByUsername` is `Users.WithUsername` on their rows.
`check_password` in tracker/model/user.py:43-44 is the same comparison as in
the service's store, and both stores use `Users.CheckPassword`.

## Left out

- Concurrency: the runner's asyncio tasks, the thread running the command, `os.system`, `psutil.cpu_percent`, the sleep loops and the delivery of signals to `terminate_runner` (grasshopper/grasshopper.py:81-100, 116-130) are not modelled. Only the sequential save and restore of the handler table is.
- `Runner.run` stores the namedtuple returned by `create_testrun`, which is always truthy. This is why `Client.ReportGuard` takes the registered run rather than its id.
- HTTP: `requests` calls and Flask routing, `jsonify`, `flash`, `redirect` and `render_template` are replaced by replies and page values. `Client.TrackerClient.GetTestrunStats`: returns the reply rather than decoding its JSON, so a body that is not JSON (which makes `r.json()` raise) is not modelled.
- `Client.NewTrackerClient`: the reachability probe is a boolean; only `ConnectionError` makes construction fail, as in the source, and other request errors are not modelled.
- `Client.Handler` has no value for a handler that `getsignal` reports as `None` (one not installed from Python). Restoring it with `signal(sig, None)` raises `TypeError` (grasshopper/grasshopper.py:107, 114), so the table is then not restored; `Client.TerminateRunnerOnSignal` covers only handlers Python can reinstall.
- `record_usage` in the client (grasshopper/grasshopper.py:46-50) ignores its reply, so there is no decision to model.
- The outer `try` of `grasshopper_cli` (grasshopper/grasshopper.py:178-193), which prints or re-raises and exits with 1, is not modelled beyond `Client.PrepareArgs`.
- Tokens: JWT issue and verification are reduced to the identity a token carries. The `jwt` and `logout` views (grasshopper/tracker/auth.py:87-110) are not modelled. Their `login_required` is applied above `@bp.route`, so the registered views are not wrapped; the model claims no protection for them.
- SQLite: SQL text, commits and the schema are not part of this model (the database module is not part of this model). Sample timestamps are taken as parsed timestamps, in whole seconds.
- `TestRuns.RunStore.Create`: the verdict of the table's constraints is the parameter `accepted`, and the default start time is `now`.
- `Users.UserStore.Create`: the random `uuid4` id is the parameter `newId`; uniqueness of ids and usernames is assumed to be the table's constraint.
- `TestRuns.TestRun.RecordCpuUsage` and `Api.TestrunRecordUsage` require the clock to read no earlier than every recorded sample. The source stamps a sample with whatever the database clock reads, so a clock that steps backwards is not modelled; in that case the samples would not be in clock order, and `ORDER BY time DESC` would no longer return the reverse of insertion order.
- Ties: two samples of one run with the same timestamp can come back from `ORDER BY time DESC` in any order. The model fixes the reverse of insertion order.
- Numbers: usage, threshold and durations are `real`. Python floating point rounding is not modelled, and timestamps are whole seconds.
- Hashing: werkzeug's salted hash and its check are modelled as a deterministic function `hash` and an equality test.
- The test-run creation route (grasshopper/tracker/api.py:28-39) is not modelled. Its reply formats the integer row id with `UUID(bytes=...)`, which is outside the store model.
- Api.Auth: the password is a string; a request without one makes werkzeug's check raise for a known user (a 500), which is not modelled.
- Missing form fields in `register` and `login`, and a missing JSON body, make Flask answer 400 before the view's own checks; the model starts from present fields.
- The first tracker's `create` and `record_cpu_usage` (tracker/model/testrun.py:23-34, 67-73) are not modelled: they are plain inserts into its `testrun` and `cpu_usage` tables, and of the first tracker's tables only the `end_time` column that `finish` writes is part of this model. The service's `RunStore.Create` and `RecordCpuUsage` model the same inserts.
- The first tracker's `has_passed_threshold` and `fetch_current_cpu_usage` (tracker/model/testrun.py:75-92) are not modelled. Their queries pass `(self.id)`, which is not a parameter tuple, and the fetch returns nothing; the service's working versions are modelled instead.
- grasshopper.py at the top of the repository is a stub that does not parse; it is not part of this model. tracker/__init__.py, tracker/api.py, tracker/index.py and both dashboard modules only wire the application and render templates.
- `TestRuns.TestRun.GetTestExecutionStats`: as written, the server's duration is computed on the newest-first series; this is the source's behaviour, and it is listed under Findings.

## Findings

| source | as written | input that shows it | evidently intended | confidence | as-written member | corrected member |
|---|---|---|---|---|---|---|
| grasshopper/tracker/model/testrun.py:16 | `calculate_duration` takes the `seconds` field of the difference, which drops whole days and wraps negative gaps into the previous day, and divides it by 1000 | start 0 and end 1 give 0.001 instead of 1; start 1 and end 0 give 86.399 instead of -1 | the elapsed seconds of the difference, as the first tracker computes with `total_seconds()` | not executed | Analyzer.CalculateDurationMisreports | Analyzer.ElapsedSeconds |
| grasshopper/tracker/model/testrun.py:90 | `duration` computes a local `ended_at` but passes `self.ended_at`, which is None for a run that has not ended | any run with a start time and no end time: the subtraction raises | measure an active run up to now | not executed | TestRuns.TestRun.ActiveRunHasNoDuration | TestRuns.TestRun.IntendedDuration |
| grasshopper/tracker/model/testrun.py:133 | the statistics fold the series fetched newest first, so each gap is measured backwards and charged to the later sample | usage 80, 80, 20, 20 at seconds 0 to 3 with threshold 50: -1 second in elapsed time, 86.399 under the server's duration, instead of 2 | fold the series in capture order | not executed | TestRuns.ScenarioNewestFirst | TestRuns.TestRun.IntendedExecutionStats |
| grasshopper/tracker/api.py:101 | `testrun_get` reads `stats["duration"]`, a key the statistics never hold (they hold `total_time`) | any request by the run's owner: the statistics either raise or lack the key, so the reply is a 500 | report the statistics' `total_time` as the duration | not executed | Api.TestrunGetNeverSucceeds | Api.TestrunGetIntended |
