/**
  The tracking service's test run model (grasshopper/tracker/model/testrun.py).

  The `test_run` and `cpu_usage` tables are the fields of a `RunStore`: a map
  from run id to row, and the samples in insertion order. A `TestRun` object
  is the detached copy of a row that `find_by_id` builds; `finish` updates
  both the object and the row. The server clock is the parameter `now`; the
  store keeps its samples in clock order, so `ORDER BY time DESC` is the
  reverse of insertion order.
*/
module TestRuns {
  import opened Wrappers
  import opened Analyzer

  /** One row of the `test_run` table (its id is the map key). */
  datatype TestRunRow = TestRunRow(userId: nat, name: string, description: string, threshold: real,
                                   startTime: Option<int>, endTime: Option<int>)

  /** `TestRunAlreadyExistsError`, raised when the insert violates a table constraint. */
  datatype CreateError = TestRunAlreadyExists

  /** The dictionary `create` returns. */
  datatype Created = Created(id: nat, startTime: int)

  /**
    Why `get_test_execution_stats` raises: `ValueError` on an empty series,
    `TypeError` when the duration subtracts a missing time.
  */
  datatype StatsError = NoCpuUsageData | MissingTime

  /** The dictionary `get_test_execution_stats` returns. */
  datatype Stats = Stats(measurements: nat, timeAboveThreshold: real, totalTime: real)

  /** `has_passed_threshold` subscripts `None` when the run has no sample: a `TypeError`. */
  datatype ThresholdError = NoUsageRecorded

  /** The samples of one run, in insertion order. */
  function OfRun(samples: seq<CpuUsage>, runId: nat): (r: seq<CpuUsage>)
    ensures |r| <= |samples|
    decreases |samples|
  {
    if samples == [] then []
    else
      var last := samples[|samples| - 1];
      OfRun(samples[..|samples| - 1], runId) + (if last.testRunId == runId then [last] else [])
  }

  /** A sample is selected for a run iff it is recorded and belongs to that run. */
  lemma {:induction false} OfRunMembers(samples: seq<CpuUsage>, runId: nat)
    ensures forall x :: x in OfRun(samples, runId) <==> x in samples && x.testRunId == runId
    decreases |samples|
  {
    if samples != [] {
      var prefix, last := samples[..|samples| - 1], samples[|samples| - 1];
      OfRunMembers(prefix, runId);
      assert samples == prefix + [last];
    }
  }

  /** `SELECT ... WHERE test_run_id = ? ORDER BY time DESC`: the run's samples, newest first. */
  function NewestFirst(samples: seq<CpuUsage>, runId: nat): (r: seq<CpuUsage>)
    ensures |r| == |OfRun(samples, runId)|
    ensures forall i :: 0 <= i < |r| ==> r[i] == OfRun(samples, runId)[|r| - 1 - i]
  {
    Reverse(OfRun(samples, runId))
  }

  /** The newest-first series holds exactly the run's recorded samples. */
  lemma NewestFirstMembers(samples: seq<CpuUsage>, runId: nat)
    ensures forall x :: x in NewestFirst(samples, runId) <==> x in samples && x.testRunId == runId
  {
    var rows := OfRun(samples, runId);
    var r := NewestFirst(samples, runId);
    OfRunMembers(samples, runId);
    forall x ensures x in r <==> x in rows {
      if x in rows {
        var i :| 0 <= i < |rows| && rows[i] == x;
        assert r[|rows| - 1 - i] == x;
      }
      if x in r {
        var i :| 0 <= i < |r| && r[i] == x;
        assert rows[|r| - 1 - i] == x;
      }
    }
  }

  /** `MAX(usage)` over a non-empty series. */
  function MaxUsage(series: seq<CpuUsage>): (m: real)
    requires |series| >= 1
    ensures exists x :: x in series && x.usage == m
    ensures forall x :: x in series ==> x.usage <= m
    decreases |series|
  {
    if |series| == 1 then series[0].usage
    else
      var rest := MaxUsage(series[1..]);
      assert series == [series[0]] + series[1..];
      if series[0].usage > rest then series[0].usage else rest
  }

  /** Appending a sample extends its own run's series and leaves every other run's alone. */
  lemma {:induction false} AppendTouchesOnlyOwner(samples: seq<CpuUsage>, x: CpuUsage, runId: nat)
    ensures OfRun(samples + [x], runId)
            == OfRun(samples, runId) + (if x.testRunId == runId then [x] else [])
  {
    assert (samples + [x])[..|samples|] == samples;
  }

  /** A sub-series of an ascending series is ascending. */
  lemma {:induction false} OfRunAscending(samples: seq<CpuUsage>, runId: nat)
    requires Ascending(samples)
    ensures Ascending(OfRun(samples, runId))
    decreases |samples|
  {
    if samples != [] {
      var n := |samples|;
      var prefix := samples[..n - 1];
      OfRunAscending(prefix, runId);
      var rows := OfRun(prefix, runId);
      var last := samples[n - 1];
      OfRunMembers(prefix, runId);
      forall i | 0 <= i < |rows| ensures rows[i].timestamp <= last.timestamp {
        assert rows[i] in prefix;
        var k :| 0 <= k < |prefix| && prefix[k] == rows[i];
        assert samples[k] == rows[i];
      }
      var all := rows + (if last.testRunId == runId then [last] else []);
      assert OfRun(samples, runId) == all;
      forall i, j | 0 <= i < j < |all| ensures all[i].timestamp <= all[j].timestamp {
        if j < |rows| {
          assert all[i] == rows[i] && all[j] == rows[j];
        } else {
          assert all[i] == rows[i] && all[j] == last;
        }
      }
    }
  }

  /** Newest first means timestamps never increase along the series. */
  lemma NewestFirstDescending(samples: seq<CpuUsage>, runId: nat)
    requires Ascending(samples)
    ensures var r := NewestFirst(samples, runId);
            forall i, j :: 0 <= i < j < |r| ==> r[i].timestamp >= r[j].timestamp
  {
    OfRunAscending(samples, runId);
  }

  /** Every sample of the series is above the threshold. */
  predicate AllAbove(series: seq<CpuUsage>, threshold: real)
  {
    forall x :: x in series ==> x.usage > threshold
  }

  /** Elapsed seconds from the first sample of the series to its last. */
  function Span(series: seq<CpuUsage>): real
    requires series != []
  {
    ElapsedSeconds(series[0].timestamp, series[|series| - 1].timestamp)
  }

  /**
    In a store kept in clock order, a run's time above the threshold lies
    between zero and the span of its samples, and equals that span when every
    sample is above the threshold.
  */
  lemma RunSeriesWithinSpan(samples: seq<CpuUsage>, runId: nat, threshold: real)
    requires Ascending(samples) && OfRun(samples, runId) != []
    ensures 0.0 <= TimeAbove(OfRun(samples, runId), threshold, ElapsedSeconds) <= Span(OfRun(samples, runId))
    ensures AllAbove(OfRun(samples, runId), threshold) ==>
              TimeAbove(OfRun(samples, runId), threshold, ElapsedSeconds) == Span(OfRun(samples, runId))
  {
    var series := OfRun(samples, runId);
    OfRunAscending(samples, runId);
    TimeAboveWithinRunSpan(series, threshold);
    if AllAbove(series, threshold) {
      TimeAboveAllAboveIsSpan(series, threshold);
    }
  }

  /** An example run: (t, usage) = (0, 80), (1, 80), (2, 20), (3, 20). */
  const Scenario: seq<CpuUsage> :=
    [CpuUsage(1, 1, 0, 80.0), CpuUsage(2, 1, 1, 80.0), CpuUsage(3, 1, 2, 20.0), CpuUsage(4, 1, 3, 20.0)]

  /** A series whose samples all belong to the run is its own selection. */
  lemma {:induction false} OfRunOfOwnSamples(samples: seq<CpuUsage>, runId: nat)
    requires forall i :: 0 <= i < |samples| ==> samples[i].testRunId == runId
    ensures OfRun(samples, runId) == samples
    decreases |samples|
  {
    if samples != [] {
      var prefix, last := samples[..|samples| - 1], samples[|samples| - 1];
      forall i | 0 <= i < |prefix| ensures prefix[i].testRunId == runId {
        assert prefix[i] == samples[i];
      }
      OfRunOfOwnSamples(prefix, runId);
      assert last.testRunId == runId;
      assert samples == prefix + [last];
    }
  }

  /**
    Read in capture order with threshold 50, the example's 4 samples span 3
    seconds and spend 2 of them above the threshold.
  */
  lemma ScenarioInCaptureOrder()
    ensures OfRun(Scenario, 1) == Scenario
    ensures |OfRun(Scenario, 1)| == 4
    ensures Span(OfRun(Scenario, 1)) == 3.0
    ensures TimeAbove(Scenario, 50.0, ElapsedSeconds) == 2.0
  {
    OfRunOfOwnSamples(Scenario, 1);
    var s := Scenario;
    var a, b, c := s[0], s[1], s[2];
    assert s[..3] == [a, b, c];
    assert [a, b, c][..2] == [a, b];
    assert [a, b][..1] == [a];
    assert TimeAbove([a, b], 50.0, ElapsedSeconds) == 1.0;
    assert TimeAbove([a, b, c], 50.0, ElapsedSeconds) == 2.0;
  }

  /**
    Read newest first, as the server fetches it, the example counts only the
    gap from t=1 back to t=0: -1 second in elapsed time, and 86.399 under the
    server's duration.
  */
  lemma ScenarioNewestFirst()
    ensures TimeAbove(NewestFirst(Scenario, 1), 50.0, ElapsedSeconds) == -1.0
    ensures TimeAbove(NewestFirst(Scenario, 1), 50.0, CalculateDuration) == 86.399
  {
    OfRunOfOwnSamples(Scenario, 1);
    var s := Scenario;
    var a, b, c, d := s[0], s[1], s[2], s[3];
    var r := NewestFirst(s, 1);
    assert r == Reverse(s);
    assert r == [d, c, b, a];
    ScenarioReversed(r, ElapsedSeconds);
    ScenarioReversed(r, CalculateDuration);
    CalculateDurationMisreports();
  }

  /** In the reversed example only the last pair, from t=1 back to t=0, is above 50. */
  lemma ScenarioReversed(r: seq<CpuUsage>, dur: (int, int) -> real)
    requires r == [Scenario[3], Scenario[2], Scenario[1], Scenario[0]]
    ensures TimeAbove(r, 50.0, dur) == dur(1, 0)
  {
    var a, b, c, d := r[3], r[2], r[1], r[0];
    assert r[..3] == [d, c, b];
    assert [d, c, b][..2] == [d, c];
    assert [d, c][..1] == [d];
    assert TimeAbove([d, c], 50.0, dur) == 0.0;
    assert TimeAbove([d, c, b], 50.0, dur) == 0.0;
  }

  class RunStore {
    /** The `test_run` table, by id. */
    var runs: map<nat, TestRunRow>
    /** The `cpu_usage` table, in insertion order. */
    var samples: seq<CpuUsage>
    /** The next row ids SQLite will hand out. */
    var nextRunId: nat
    var nextSampleId: nat

    ghost predicate Valid()
      reads this
    {
      && 1 <= nextRunId
      && (forall id :: id in runs ==> 1 <= id < nextRunId)
      && (forall x :: x in samples ==> x.id < nextSampleId)
      && Ascending(samples)
    }

    /** The clock reads no earlier than every recorded sample. */
    predicate ClockNotBefore(now: int)
      reads this
    {
      forall x :: x in samples ==> x.timestamp <= now
    }

    constructor ()
      ensures Valid()
      ensures runs == map[] && samples == []
    {
      runs := map[];
      samples := [];
      nextRunId := 1;
      nextSampleId := 1;
    }

    /**
      `TestRun.create`: inserts a row with the table's default start time
      (`now`) and no end time, and returns its id and start time. `accepted`
      is the database's verdict on the insert; a constraint violation leaves
      the table unchanged and raises `TestRunAlreadyExistsError`.
    */
    method Create(userId: nat, name: string, description: string, threshold: real, now: int, accepted: bool)
      returns (r: Result<Created, CreateError>)
      requires Valid()
      modifies this`runs, this`nextRunId
      ensures Valid()
      ensures samples == old(samples)
      ensures !accepted ==> r == Failure(TestRunAlreadyExists) && runs == old(runs)
      ensures accepted ==> r.Success? && r.value.startTime == now
      ensures accepted ==> r.value.id !in old(runs)
      ensures accepted ==> runs == old(runs)[r.value.id := TestRunRow(userId, name, description, threshold, Some(now), None)]
    {
      if !accepted {
        return Failure(TestRunAlreadyExists);
      }
      var id := nextRunId;
      runs := runs[id := TestRunRow(userId, name, description, threshold, Some(now), None)];
      nextRunId := nextRunId + 1;
      r := Success(Created(id, now));
    }

    /** `TestRun.find_by_id`: None for an unknown id, otherwise a TestRun carrying the stored fields. */
    method FindById(testRunId: nat) returns (r: TestRun?)
      ensures r == null <==> testRunId !in runs
      ensures r != null ==> fresh(r) && r.id == testRunId && r.Row() == runs[testRunId]
    {
      if testRunId !in runs {
        return null;
      }
      var row := runs[testRunId];
      r := new TestRun(testRunId, row.userId, row.name, row.description, row.threshold,
                       row.startTime, row.endTime);
    }
  }

  class TestRun {
    const id: nat
    const userId: nat
    const name: string
    const description: string
    const threshold: real
    const startTime: Option<int>
    var endTime: Option<int>

    constructor (id: nat, userId: nat, name: string, description: string, threshold: real,
                 startTime: Option<int>, endTime: Option<int>)
      ensures this.id == id && Row() == TestRunRow(userId, name, description, threshold, startTime, endTime)
    {
      this.id := id;
      this.userId := userId;
      this.name := name;
      this.description := description;
      this.threshold := threshold;
      this.startTime := startTime;
      this.endTime := endTime;
    }

    /** The row this object mirrors. */
    function Row(): TestRunRow
      reads this
    {
      TestRunRow(userId, name, description, threshold, startTime, endTime)
    }

    /** A run is active while it has started and not yet ended. */
    predicate IsActive()
      reads this
    {
      startTime.Some? && endTime.None?
    }

    function StartedAt(): Option<int>
      reads this
    {
      startTime
    }

    /** The end time, or None while the run has not ended. */
    function EndedAt(): Option<int>
      reads this
    {
      endTime
    }

    /** An active run has no end time; a run with an end time is not active. */
    lemma ActiveRunHasNotEnded()
      ensures IsActive() ==> EndedAt() == None
      ensures EndedAt().Some? ==> !IsActive()
    {
    }

    /**
      The `duration` property as written: it picks `now` as the end of an
      unfinished run but then passes `self.ended_at` on, so the subtraction
      fails for every run that has not ended. A finished run gets the
      server's `CalculateDuration`.
    */
    function Duration(): (r: Result<real, StatsError>)
      reads this
      ensures r.Failure? <==> StartedAt().None? || EndedAt().None?
      ensures r.Success? ==> r.value == CalculateDuration(StartedAt().value, EndedAt().value)
    {
      if StartedAt().None? || EndedAt().None? then Failure(MissingTime)
      else Success(CalculateDuration(StartedAt().value, EndedAt().value))
    }

    /** Every active run fails to report a duration. */
    lemma ActiveRunHasNoDuration()
      ensures IsActive() ==> Duration() == Failure(MissingTime)
    {
    }

    /**
      The duration the property evidently means: elapsed seconds from the
      start to the end time, or to `now` while the run is active.
    */
    function IntendedDuration(now: int): (r: Result<real, StatsError>)
      reads this
      ensures r.Failure? <==> StartedAt().None?
      ensures IsActive() ==> r == Success(ElapsedSeconds(StartedAt().value, now))
      ensures r.Success? && EndedAt().Some? ==> r.value == ElapsedSeconds(StartedAt().value, EndedAt().value)
    {
      if StartedAt().None? then Failure(MissingTime)
      else
        var endedAt := if EndedAt().None? then now else EndedAt().value;
        Success(ElapsedSeconds(StartedAt().value, endedAt))
    }

    /**
      `finish`: sets the end time of the object and of its row, with no guard,
      so a second call overwrites the first end time.
    */
    method Finish(db: RunStore, now: int)
      requires db.Valid()
      modifies this`endTime, db`runs
      ensures db.Valid()
      ensures endTime == Some(now) && !IsActive() && EndedAt() == Some(now)
      ensures db.runs == if id in old(db.runs)
                         then old(db.runs)[id := old(db.runs)[id].(endTime := Some(now))]
                         else old(db.runs)
      ensures db.samples == old(db.samples)
    {
      endTime := Some(now);
      if id in db.runs {
        db.runs := db.runs[id := db.runs[id].(endTime := Some(now))];
      }
    }

    /** `record_cpu_usage`: inserts one sample for this run, stamped with the clock. */
    method RecordCpuUsage(db: RunStore, usage: real, now: int)
      requires db.Valid() && db.ClockNotBefore(now)
      modifies db`samples, db`nextSampleId
      ensures db.Valid()
      ensures db.runs == old(db.runs)
      ensures db.samples == old(db.samples) + [CpuUsage(old(db.nextSampleId), id, now, usage)]
      ensures OfRun(db.samples, id) == OfRun(old(db.samples), id) + [CpuUsage(old(db.nextSampleId), id, now, usage)]
      ensures forall other :: other != id ==> OfRun(db.samples, other) == OfRun(old(db.samples), other)
    {
      var sample := CpuUsage(db.nextSampleId, id, now, usage);
      forall other {
        AppendTouchesOnlyOwner(db.samples, sample, other);
      }
      db.samples := db.samples + [sample];
      db.nextSampleId := db.nextSampleId + 1;
    }

    /**
      `has_passed_threshold`: fails when the run has no sample, otherwise tells
      whether the largest usage recorded for this run exceeds the threshold.
    */
    function HasPassedThreshold(db: RunStore): (r: Result<bool, ThresholdError>)
      reads this, db
      ensures r.Failure? <==> OfRun(db.samples, id) == []
      ensures r.Success? ==>
        (r.value <==> exists x :: x in db.samples && x.testRunId == id && x.usage > threshold)
    {
      var series := OfRun(db.samples, id);
      OfRunMembers(db.samples, id);
      if series == [] then Failure(NoUsageRecorded)
      else Success(MaxUsage(series) > threshold)
    }

    /** `fetch_current_cpu_usage`: this run's samples, newest first. */
    method FetchCurrentCpuUsage(db: RunStore) returns (series: seq<CpuUsage>)
      ensures series == NewestFirst(db.samples, id)
    {
      var rows := NewestFirst(db.samples, id);
      series := [];
      for i := 0 to |rows|
        invariant series == rows[..i]
      {
        var entry := rows[i];
        series := series + [CpuUsage(entry.id, entry.testRunId, entry.timestamp, entry.usage)];
      }
    }

    /**
      `get_test_execution_stats`: fails on an empty series; otherwise folds
      the newest-first series with the server's duration and reports the
      number of samples and the run's duration, which fails for a run that
      has not ended.
    */
    method GetTestExecutionStats(db: RunStore) returns (r: Result<Stats, StatsError>)
      ensures r == Failure(NoCpuUsageData) <==> OfRun(db.samples, id) == []
      ensures OfRun(db.samples, id) != [] && Duration().Failure? ==> r == Failure(MissingTime)
      ensures OfRun(db.samples, id) != [] ==> (r.Success? <==> Duration().Success?)
      ensures r.Success? ==> Duration().Success? && r.value.totalTime == Duration().value
      ensures r.Success? ==> r.value.measurements == |OfRun(db.samples, id)|
      ensures r.Success? ==>
        r.value.timeAboveThreshold == TimeAbove(NewestFirst(db.samples, id), threshold, CalculateDuration)
      ensures r.Success? ==>
        r.value.timeAboveThreshold == TimeAboveTrailing(OfRun(db.samples, id), threshold, CalculateDuration)
    {
      var timeSeries := FetchCurrentCpuUsage(db);
      var totalTime := 0.0;
      if timeSeries == [] {
        return Failure(NoCpuUsageData);
      }
      for k := 0 to |timeSeries| - 1
        invariant totalTime == TimeAbove(timeSeries[..k + 1], threshold, CalculateDuration)
      {
        var periodDuration := CalculateDuration(timeSeries[k].timestamp, timeSeries[k + 1].timestamp);
        if timeSeries[k].usage > threshold {
          totalTime := totalTime + periodDuration;
        }
        assert timeSeries[..k + 2][..k + 1] == timeSeries[..k + 1];
      }
      assert timeSeries[..|timeSeries|] == timeSeries;
      TimeAboveNewestFirst(OfRun(db.samples, id), threshold, CalculateDuration);
      var duration := Duration();
      if duration.Failure? {
        return Failure(duration.error);
      }
      r := Success(Stats(|timeSeries|, totalTime, duration.value));
    }

    /**
      The statistics the tracker evidently means: the series in capture
      order, gaps in elapsed seconds, and the intended duration. For a store
      in clock order the time above the threshold lies between zero and the
      span of the series, and equals that span when every sample is above.
    */
    function IntendedExecutionStats(db: RunStore, now: int): (r: Result<Stats, StatsError>)
      requires db.Valid()
      reads this, db
      ensures r == Failure(NoCpuUsageData) <==> OfRun(db.samples, id) == []
      ensures r.Success? ==>
        && r.value.measurements == |OfRun(db.samples, id)|
        && r.value.timeAboveThreshold == TimeAbove(OfRun(db.samples, id), threshold, ElapsedSeconds)
        && 0.0 <= r.value.timeAboveThreshold <= Span(OfRun(db.samples, id))
        && (AllAbove(OfRun(db.samples, id), threshold) ==> r.value.timeAboveThreshold == Span(OfRun(db.samples, id)))
        && IntendedDuration(now).Success?
        && r.value.totalTime == IntendedDuration(now).value
    {
      var series := OfRun(db.samples, id);
      if series == [] then Failure(NoCpuUsageData)
      else
        RunSeriesWithinSpan(db.samples, id, threshold);
        var duration := IntendedDuration(now);
        if duration.Failure? then Failure(MissingTime)
        else Success(Stats(|series|, TimeAbove(series, threshold, ElapsedSeconds), duration.value))
    }
  }
}
