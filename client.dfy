/**
  The command-line client (grasshopper/grasshopper.py): argument checking and
  defaulting, the `TrackerClient`'s handling of the tracker's replies, the
  guard of the usage reporter, and the save and restore of the SIGINT and
  SIGTERM handlers around a run.

  HTTP calls are not made: each one is replaced by the reply it gets (status,
  text and the JSON fields read from it), or, for the reachability probe, by
  whether it raised `ConnectionError`.
*/
module Client {
  import opened Wrappers

  const BasePath: string := "/v1/api/testrun"

  /** The parsed command line. */
  datatype CliArgs = CliArgs(jwt: Option<string>, name: Option<string>, description: Option<string>,
                             threshold: real, pollInterval: real, server: string,
                             noCommand: bool, debug: bool, command: seq<string>)

  /** `sep.join(words)`. */
  function Join(words: seq<string>, sep: string): string
    decreases |words|
  {
    if words == [] then ""
    else if |words| == 1 then words[0]
    else words[0] + sep + Join(words[1..], sep)
  }

  /** Python's falsiness for an optional string: None or empty. */
  predicate Falsy(s: Option<string>)
  {
    s.None? || s == Some("")
  }

  /**
    The checks and defaults `grasshopper_cli` applies before it connects:
    exit status 1 unless exactly one of `--no-command` and a command is given;
    then, without `--name`, the name and description default from the
    command, or to "Unnamed testrun" and "No description" in monitor-only mode.
  */
  function PrepareArgs(args: CliArgs): (r: Result<CliArgs, nat>)
    ensures r.Failure? <==> args.noCommand == (|args.command| > 0)
    ensures r.Failure? ==> r.error == 1
    ensures r.Success? ==> r.value.name.Some?
    ensures r.Success? ==> r.value == args.(name := r.value.name, description := r.value.description)
    ensures r.Success? && args.name.Some? ==> r.value == args
    ensures r.Success? && args.name.None? && !args.noCommand ==>
      && r.value.name == Some(args.command[0])
      && r.value.description == if Falsy(args.description) then Some(Join(args.command[1..], " "))
                                else args.description
    ensures r.Success? && args.name.None? && args.noCommand ==>
      && r.value.name == Some("Unnamed testrun")
      && r.value.description == if args.description.None? then Some("No description") else args.description
  {
    if args.noCommand && |args.command| > 0 then Failure(1)
    else if !args.noCommand && |args.command| == 0 then Failure(1)
    else if args.name.Some? then Success(args)
    else if !args.noCommand && |args.command| > 0 then
      var description := if Falsy(args.description) then Some(Join(args.command[1..], " ")) else args.description;
      Success(args.(name := Some(args.command[0]), description := description))
    else
      var description := if args.description.None? then Some("No description") else args.description;
      Success(args.(name := Some("Unnamed testrun"), description := description))
  }

  /** Prepared arguments carry a name, so preparing them again changes nothing. */
  lemma PrepareArgsIdempotent(args: CliArgs)
    requires PrepareArgs(args).Success?
    ensures PrepareArgs(PrepareArgs(args).value) == PrepareArgs(args)
  {
  }

  /** What the client gets from the tracker for one request. */
  datatype HttpReply = HttpReply(status: int, text: string, id: Option<string>, startTime: Option<string>)

  /** The namedtuple `create_testrun` returns. */
  datatype RegisteredRun = RegisteredRun(id: Option<string>, startTime: Option<string>)

  datatype ClientError = NoJwtToken | TrackerUnreachable(url: string) | CreateFailed(text: string)

  /** How an f-string renders an optional id: `None` for a missing one. */
  function IdText(id: Option<string>): string
  {
    if id.None? then "None" else id.value
  }

  class TrackerClient {
    const jwt: string
    const trackerUrl: string
    var testRunId: Option<string>

    constructor (jwt: string, serverUrl: string)
      ensures this.jwt == jwt && trackerUrl == serverUrl && testRunId == None
    {
      this.jwt := jwt;
      trackerUrl := serverUrl;
      testRunId := None;
    }

    /** The URL of this client's run, followed by `suffix`. */
    function RunUrl(suffix: string): string
      reads this
    {
      trackerUrl + BasePath + "/" + IdText(testRunId) + suffix
    }

    /**
      `create_testrun`: any status but 201 raises with the reply's text and
      keeps the run id; a 201 stores the reply's id and returns it with the
      start time.
    */
    method CreateTestrun(reply: HttpReply) returns (r: Result<RegisteredRun, ClientError>)
      modifies this`testRunId
      ensures reply.status != 201 ==> r == Failure(CreateFailed(reply.text)) && testRunId == old(testRunId)
      ensures reply.status == 201 ==> testRunId == reply.id && r == Success(RegisteredRun(reply.id, reply.startTime))
      ensures reply.status == 201 && reply.id.Some? ==>
        RunUrl("/stop") == trackerUrl + BasePath + "/" + reply.id.value + "/stop"
      ensures reply.status == 201 && reply.id.None? ==> RunUrl("/stop") == trackerUrl + BasePath + "/None/stop"
    {
      if reply.status != 201 {
        return Failure(CreateFailed(reply.text));
      }
      testRunId := reply.id;
      r := Success(RegisteredRun(testRunId, reply.startTime));
    }

    /** `stop_testrun`: posts to the run's stop URL; any status but 200 only warns. */
    method StopTestrun(reply: HttpReply) returns (url: string, warning: Option<string>)
      ensures url == RunUrl("/stop")
      ensures warning.Some? <==> reply.status != 200
      ensures warning.Some? ==> warning.value == "Could not stop testrun: " + reply.text
    {
      url := RunUrl("/stop");
      warning := if reply.status != 200 then Some("Could not stop testrun: " + reply.text) else None;
    }

    /** `get_testrun_stats`: reads the run's URL; any status but 200 only warns, and the reply is returned either way. */
    method GetTestrunStats(reply: HttpReply) returns (url: string, warning: Option<string>, body: HttpReply)
      ensures url == RunUrl("")
      ensures warning.Some? <==> reply.status != 200
      ensures warning.Some? ==> warning.value == "Could not get testrun stats: " + reply.text
      ensures body == reply
    {
      url := RunUrl("");
      warning := if reply.status != 200 then Some("Could not get testrun stats: " + reply.text) else None;
      body := reply;
    }
  }

  /**
    `TrackerClient(jwt, server_url)`: raises when the token is missing or
    empty, then when the probe of the tracker raises `ConnectionError`;
    otherwise a client with no run id.
  */
  method NewTrackerClient(jwt: Option<string>, serverUrl: string, reachable: bool)
    returns (r: Result<TrackerClient, ClientError>)
    ensures Falsy(jwt) ==> r == Failure(NoJwtToken)
    ensures !Falsy(jwt) && !reachable ==> r == Failure(TrackerUnreachable(serverUrl))
    ensures !Falsy(jwt) && reachable ==>
      r.Success? && fresh(r.value) && r.value.jwt == jwt.value && r.value.trackerUrl == serverUrl
      && r.value.testRunId == None
  {
    if Falsy(jwt) {
      return Failure(NoJwtToken);
    }
    if !reachable {
      return Failure(TrackerUnreachable(serverUrl));
    }
    var client := new TrackerClient(jwt.value, serverUrl);
    r := Success(client);
  }

  datatype RunnerError = NoTestrunId

  /**
    The guard of `report_cpu_usage`: reporting starts only when the runner
    holds a registered run. What `run` stores is the namedtuple of
    `create_testrun`, which is truthy even when the tracker sent no id.
  */
  function ReportGuard(testrunId: Option<RegisteredRun>): (r: Result<RegisteredRun, RunnerError>)
    ensures r.Failure? <==> testrunId.None?
    ensures r.Success? ==> r.value == testrunId.value
  {
    if testrunId.None? then Failure(NoTestrunId) else Success(testrunId.value)
  }

  datatype Signal = SIGINT | SIGTERM

  /** A signal disposition; `TerminateRunner` is the runner's own handler. */
  datatype Handler = DefaultAction | IgnoreSignal | TerminateRunner | Installed(tag: nat)

  /** The signals a run handles, in the order it installs them. */
  const Signals: seq<Signal> := [SIGINT, SIGTERM]

  /** The process's signal handler table. */
  class SignalTable {
    var handlers: map<Signal, Handler>

    ghost predicate Valid()
      reads this
    {
      SIGINT in handlers && SIGTERM in handlers
    }

    constructor (onInterrupt: Handler, onTerminate: Handler)
      ensures Valid() && handlers == map[SIGINT := onInterrupt, SIGTERM := onTerminate]
    {
      handlers := map[SIGINT := onInterrupt, SIGTERM := onTerminate];
    }
  }

  /** The first half of `terminate_runner_on_signal`: save each handler, then install the runner's. */
  method InstallTerminateHandlers(table: SignalTable) returns (original: seq<Handler>)
    requires table.Valid()
    modifies table
    ensures table.Valid()
    ensures original == [old(table.handlers[SIGINT]), old(table.handlers[SIGTERM])]
    ensures table.handlers == old(table.handlers)[SIGINT := TerminateRunner][SIGTERM := TerminateRunner]
  {
    original := [];
    for i := 0 to |Signals|
      invariant table.Valid()
      invariant |original| == i
      invariant forall j :: 0 <= j < i ==> original[j] == old(table.handlers[Signals[j]])
      invariant table.handlers.Keys == old(table.handlers.Keys)
      invariant forall s :: s in table.handlers ==>
        table.handlers[s] == if s in Signals[..i] then TerminateRunner else old(table.handlers[s])
    {
      var sig := Signals[i];
      original := original + [table.handlers[sig]];
      table.handlers := table.handlers[sig := TerminateRunner];
    }
    assert Signals[..|Signals|] == Signals;
  }

  /** The `finally` of `terminate_runner_on_signal`: put each saved handler back. */
  method RestoreHandlers(table: SignalTable, original: seq<Handler>)
    requires table.Valid() && |original| == |Signals|
    modifies table
    ensures table.Valid()
    ensures table.handlers == old(table.handlers)[SIGINT := original[0]][SIGTERM := original[1]]
  {
    for i := 0 to |Signals|
      invariant table.Valid()
      invariant table.handlers.Keys == old(table.handlers.Keys)
      invariant forall j :: 0 <= j < i ==> table.handlers[Signals[j]] == original[j]
      invariant forall s :: s in table.handlers && s !in Signals[..i] ==> table.handlers[s] == old(table.handlers[s])
    {
      table.handlers := table.handlers[Signals[i] := original[i]];
    }
    assert table.handlers[SIGINT] == original[0] && table.handlers[SIGTERM] == original[1];
  }

  /**
    `terminate_runner_on_signal` around a run: while the body runs both
    signals go to the runner's handler (`during`); whatever handlers the body
    leaves behind (`leftByBody`), the table on exit is the one on entry. The
    restore sits in a `finally`, so a body that raises leaves the same table.
  */
  method TerminateRunnerOnSignal(table: SignalTable, leftByBody: map<Signal, Handler>)
    returns (during: map<Signal, Handler>)
    requires table.Valid() && SIGINT in leftByBody && SIGTERM in leftByBody
    modifies table
    ensures during == old(table.handlers)[SIGINT := TerminateRunner][SIGTERM := TerminateRunner]
    ensures during[SIGINT] == TerminateRunner && during[SIGTERM] == TerminateRunner
    ensures table.Valid() && table.handlers == old(table.handlers)
  {
    var original := InstallTerminateHandlers(table);
    during := table.handlers;
    table.handlers := leftByBody;
    RestoreHandlers(table, original);
    forall s: Signal
      ensures s in table.handlers && s in old(table.handlers) && table.handlers[s] == old(table.handlers[s])
    {
      if s == SIGINT {} else { assert s == SIGTERM; }
    }
  }
}
