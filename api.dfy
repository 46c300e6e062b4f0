/**
  The tracking service's JSON API (grasshopper/tracker/api.py): token issue
  and the guard chains of the per-run routes.

  The identity in the bearer token is the parameter `currentUser`; issuing
  and verifying tokens is not modelled beyond the identity a token carries.
  An exception a route does not catch becomes Flask's 500 reply.
*/
module Api {
  import opened Wrappers
  import opened Analyzer
  import opened Users
  import opened TestRuns

  /** What `create_access_token(identity=...)` encodes. */
  datatype AccessToken = AccessToken(identity: string)

  datatype Reply =
    | Json(status: nat, msg: string)
    | TokenIssued(token: AccessToken)
    | RunReport(id: nat, timeAboveThreshold: real, startTime: Option<int>, endTime: Option<int>, duration: real)
    | InternalError
  {
    /** The HTTP status Flask sends. */
    function Status(): nat
    {
      match this
      case Json(status, _) => status
      case TokenIssued(_) => 200
      case RunReport(_, _, _, _, _) => 200
      case InternalError => 500
    }
  }

  /**
    The `usage` field of a usage report, as `float(...)` sees it: a number,
    a value `float` rejects with `ValueError`, or a value it rejects with
    `TypeError`, an exception the route does not catch. `Missing` stands for
    every such value: an absent field or a JSON null (`None`), a list or an
    object.
  */
  datatype UsageField = Number(value: real) | Unparseable | Missing

  /**
    `auth`: an unknown (or absent) username gives 404 without looking at the
    password; a known user with a wrong password gives 401; otherwise 200
    with a token for that username.
  */
  function Auth(users: UserStore, username: Option<string>, password: string, hash: string -> string): (r: Reply)
    reads users
    ensures username.None? ==> r == Json(404, "No user found")
    ensures username.Some? && users.FindByUsername(username.value).None? ==> r == Json(404, "No user found")
    ensures username.Some? && users.FindByUsername(username.value).Some? ==>
      var user := users.FindByUsername(username.value).value;
      && (!CheckPassword(user, password, hash) ==> r == Json(401, "Bad username or password"))
      && (CheckPassword(user, password, hash) ==> r == TokenIssued(AccessToken(username.value)))
    ensures r.Status() == 200 <==> r.TokenIssued?
    ensures r.TokenIssued? ==> username.Some? && r.token.identity == username.value
  {
    // `WHERE username = NULL` matches no row
    var user := if username.None? then None else users.FindByUsername(username.value);
    if user.None? then Json(404, "No user found")
    else if !CheckPassword(user.value, password, hash) then Json(401, "Bad username or password")
    else TokenIssued(AccessToken(username.value))
  }

  /** For an unknown username the reply does not depend on the password or the hash. */
  lemma AuthIgnoresPasswordOfUnknownUser(users: UserStore, username: Option<string>,
                                         p1: string, p2: string, h1: string -> string, h2: string -> string)
    requires username.None? || users.FindByUsername(username.value).None?
    ensures Auth(users, username, p1, h1) == Auth(users, username, p2, h2)
  {
  }

  /** The row `find_by_id` reads. */
  function Lookup(runs: map<nat, TestRunRow>, testRunId: nat): (r: Option<TestRunRow>)
    ensures r.None? <==> testRunId !in runs
    ensures r.Some? ==> r.value == runs[testRunId]
  {
    if testRunId in runs then Some(runs[testRunId]) else None
  }

  /**
    The guard the per-run routes share: 404 for an unknown run, checked
    before ownership; then `user.id` fails when the token's identity is no
    longer a user; then 403 for a caller who does not own the run.
    None lets the request through.
  */
  function OwnerGuard(run: Option<TestRunRow>, caller: Option<User>): (r: Option<Reply>)
    ensures run.None? ==> r == Some(Json(404, "No testrun found"))
    ensures run.Some? && caller.None? ==> r == Some(InternalError)
    ensures run.Some? && caller.Some? && run.value.userId != caller.value.id ==> r == Some(Json(403, "Forbidden"))
    ensures r.None? <==> run.Some? && caller.Some? && run.value.userId == caller.value.id
  {
    if run.None? then Some(Json(404, "No testrun found"))
    else if caller.None? then Some(InternalError)
    else if run.value.userId != caller.value.id then Some(Json(403, "Forbidden"))
    else None
  }

  /**
    The reply of `testrun_record_usage`: the guard's, then 400 for a usage
    value that does not parse; a recorded sample is answered with status 200,
    because the 201 is passed to `jsonify` as a second value, not returned as
    the status.
  */
  function RecordUsageReply(run: Option<TestRunRow>, caller: Option<User>, usage: UsageField): (r: Reply)
    ensures OwnerGuard(run, caller).Some? ==> r == OwnerGuard(run, caller).value
    ensures OwnerGuard(run, caller).None? && usage.Unparseable? ==> r == Json(400, "Invalid usage value")
    ensures OwnerGuard(run, caller).None? && usage.Missing? ==> r == InternalError
    ensures r.Status() == 200 <==> OwnerGuard(run, caller).None? && usage.Number?
    ensures r.Status() == 200 ==> r == Json(200, "Usage recorded")
  {
    var guard := OwnerGuard(run, caller);
    if guard.Some? then guard.value
    else
      match usage
      case Unparseable => Json(400, "Invalid usage value")
      case Missing => InternalError
      case Number(_) => Json(200, "Usage recorded")
  }

  /** The reply of `testrun_stop`: the guard's, otherwise 200 once the run is finished. */
  function StopReply(run: Option<TestRunRow>, caller: Option<User>): (r: Reply)
    ensures OwnerGuard(run, caller).Some? ==> r == OwnerGuard(run, caller).value
    ensures r.Status() == 200 <==> OwnerGuard(run, caller).None?
    ensures r.Status() == 200 ==> r == Json(200, "Testrun finished")
  {
    var guard := OwnerGuard(run, caller);
    if guard.Some? then guard.value else Json(200, "Testrun finished")
  }

  /**
    The reply of `testrun_get` as written: the guard's, otherwise a 500,
    because the success path reads `stats["duration"]`, a key the statistics
    never have (and the statistics themselves fail on an empty series or a
    run that has not ended).
  */
  function GetReply(run: Option<TestRunRow>, caller: Option<User>): (r: Reply)
    ensures OwnerGuard(run, caller).Some? ==> r == OwnerGuard(run, caller).value
    ensures OwnerGuard(run, caller).None? ==> r == InternalError
  {
    var guard := OwnerGuard(run, caller);
    if guard.Some? then guard.value else InternalError
  }

  /** No request to `testrun_get` is ever answered with 200. */
  lemma TestrunGetNeverSucceeds(run: Option<TestRunRow>, caller: Option<User>)
    ensures GetReply(run, caller).Status() != 200
  {
  }

  /**
    `testrun_record_usage`: records exactly one sample, for the requested run,
    when the owner sends a parsable usage value, and nothing otherwise.
  */
  method TestrunRecordUsage(db: RunStore, users: UserStore, currentUser: string, testRunId: nat,
                            usage: UsageField, now: int) returns (reply: Reply)
    requires db.Valid() && db.ClockNotBefore(now)
    modifies db
    ensures db.Valid() && db.runs == old(db.runs)
    ensures reply == RecordUsageReply(Lookup(old(db.runs), testRunId), users.FindByUsername(currentUser), usage)
    ensures reply.Status() == 200 ==>
      db.samples == old(db.samples) + [CpuUsage(old(db.nextSampleId), testRunId, now, usage.value)]
    ensures reply.Status() != 200 ==> db.samples == old(db.samples)
  {
    var user := users.FindByUsername(currentUser);
    var testRun := db.FindById(testRunId);
    if testRun == null {
      return Json(404, "No testrun found");
    }
    if user.None? {
      return InternalError;
    }
    if testRun.userId != user.value.id {
      return Json(403, "Forbidden");
    }
    match usage {
      case Unparseable =>
        return Json(400, "Invalid usage value");
      case Missing =>
        return InternalError;
      case Number(value) =>
        testRun.RecordCpuUsage(db, value, now);
        return Json(200, "Usage recorded");
    }
  }

  /** `testrun_stop`: the owner's request finishes the run at `now`; any other leaves it alone. */
  method TestrunStop(db: RunStore, users: UserStore, currentUser: string, testRunId: nat, now: int)
    returns (reply: Reply)
    requires db.Valid()
    modifies db
    ensures db.Valid() && db.samples == old(db.samples)
    ensures reply == StopReply(Lookup(old(db.runs), testRunId), users.FindByUsername(currentUser))
    ensures reply.Status() == 200 ==>
      testRunId in old(db.runs) &&
      db.runs == old(db.runs)[testRunId := old(db.runs)[testRunId].(endTime := Some(now))]
    ensures reply.Status() != 200 ==> db.runs == old(db.runs)
  {
    var user := users.FindByUsername(currentUser);
    var testRun := db.FindById(testRunId);
    if testRun == null {
      return Json(404, "No testrun found");
    }
    if user.None? {
      return InternalError;
    }
    if testRun.userId != user.value.id {
      return Json(403, "Forbidden");
    }
    testRun.Finish(db, now);
    return Json(200, "Testrun finished");
  }

  /** `testrun_get` as written: past the guard, every request fails. */
  method TestrunGet(db: RunStore, users: UserStore, currentUser: string, testRunId: nat) returns (reply: Reply)
    ensures reply == GetReply(Lookup(db.runs, testRunId), users.FindByUsername(currentUser))
  {
    var user := users.FindByUsername(currentUser);
    var testRun := db.FindById(testRunId);
    if testRun == null {
      return Json(404, "No testrun found");
    }
    if user.None? {
      return InternalError;
    }
    if testRun.userId != user.value.id {
      return Json(403, "Forbidden");
    }
    var stats := testRun.GetTestExecutionStats(db);
    // a failure propagates, and a success has no "duration" key: both end in a 500
    reply := InternalError;
  }

  /**
    `testrun_get` as evidently intended: past the guard, the run's report
    with the intended statistics, which fail only for a run without samples
    or without a start time.
  */
  method TestrunGetIntended(db: RunStore, users: UserStore, currentUser: string, testRunId: nat, now: int)
    returns (reply: Reply)
    requires db.Valid()
    ensures OwnerGuard(Lookup(db.runs, testRunId), users.FindByUsername(currentUser)).Some? ==>
      reply == OwnerGuard(Lookup(db.runs, testRunId), users.FindByUsername(currentUser)).value
    ensures reply.Status() == 200 <==>
      && OwnerGuard(Lookup(db.runs, testRunId), users.FindByUsername(currentUser)).None?
      && OfRun(db.samples, testRunId) != []
      && db.runs[testRunId].startTime.Some?
    ensures reply.Status() == 200 ==>
      && reply.RunReport? && reply.id == testRunId
      && reply.timeAboveThreshold
           == TimeAbove(OfRun(db.samples, testRunId), db.runs[testRunId].threshold, ElapsedSeconds)
      && reply.startTime == db.runs[testRunId].startTime
      && reply.endTime == db.runs[testRunId].endTime
      && reply.duration == ElapsedSeconds(db.runs[testRunId].startTime.value,
                                          if db.runs[testRunId].endTime.Some? then db.runs[testRunId].endTime.value else now)
  {
    var user := users.FindByUsername(currentUser);
    var testRun := db.FindById(testRunId);
    if testRun == null {
      return Json(404, "No testrun found");
    }
    if user.None? {
      return InternalError;
    }
    if testRun.userId != user.value.id {
      return Json(403, "Forbidden");
    }
    var stats := testRun.IntendedExecutionStats(db, now);
    if stats.Failure? {
      return InternalError;
    }
    reply := RunReport(testRun.id, stats.value.timeAboveThreshold, testRun.startTime, testRun.endTime,
                       stats.value.totalTime);
  }
}
