/**
  The first version of the tracker's test run model (tracker/model/testrun.py):
  the `TestRun` record with its activity, end time and duration, `finish`,
  and the threshold fold `calculate_total_time_overpassing_threshold`,
  which measures gaps with `timedelta.total_seconds()`.
  The clock (`datetime.now()`) is the parameter `now`.
*/
module LegacyTestRun {
  import opened Wrappers
  import opened Analyzer

  /** `datetime.fromisoformat(None)` raises: a run without a start time has no duration. */
  datatype DurationError = NoStartTime

  /** The `end_time` column of the `testrun` table, by run id. */
  class RunTable {
    var endTimes: map<nat, Option<int>>

    constructor (endTimes: map<nat, Option<int>>)
      ensures this.endTimes == endTimes
    {
      this.endTimes := endTimes;
    }
  }

  class TestRun {
    const id: nat
    const userId: nat
    const name: string
    const description: string
    const threshold: real
    const startTime: Option<int>
    var endTime: Option<int>

    constructor (id: nat, userId: nat, name: string, description: string, threshold: real,
                 startTime: Option<int>, endTime: Option<int>)
      ensures this.id == id && this.userId == userId && this.name == name
      ensures this.description == description && this.threshold == threshold
      ensures this.startTime == startTime && this.endTime == endTime
    {
      this.id := id;
      this.userId := userId;
      this.name := name;
      this.description := description;
      this.threshold := threshold;
      this.startTime := startTime;
      this.endTime := endTime;
    }

    /** A run is active while it has started and not yet ended. */
    predicate IsActive()
      reads this
    {
      startTime.Some? && endTime.None?
    }

    /** The end time, or None while the run has not ended. */
    function EndedAt(): Option<int>
      reads this
    {
      endTime
    }

    /** An active run has no end time; a run with an end time is not active. */
    lemma ActiveRunHasNotEnded()
      ensures IsActive() ==> EndedAt() == None
      ensures EndedAt().Some? ==> !IsActive()
    {
    }

    /**
      Seconds from the start to the end time, or to `now` while the run has
      not ended; fails when the run has no start time.
    */
    function Duration(now: int): (r: Result<real, DurationError>)
      reads this
      ensures r.Failure? <==> startTime.None?
      ensures r.Success? && endTime.Some? ==> r.value == ElapsedSeconds(startTime.value, endTime.value)
      ensures r.Success? && endTime.None? ==> r.value == ElapsedSeconds(startTime.value, now)
      ensures r.Success? && EndedAt().Some? && startTime.value <= EndedAt().value ==> r.value >= 0.0
    {
      if startTime.None? then Failure(NoStartTime)
      else
        var endedAt := if endTime.None? then now else EndedAt().value;
        Success(ElapsedSeconds(startTime.value, endedAt))
    }

    /**
      Marks the run finished at `now`, overwriting any earlier end time, and
      writes the same end time to the run's row; `UPDATE ... WHERE id = ?`
      changes nothing when the table has no row with this id.
    */
    method Finish(table: RunTable, now: int)
      modifies this`endTime, table
      ensures endTime == Some(now) && EndedAt() == Some(now)
      ensures !IsActive()
      ensures startTime.Some? ==> Duration(now) == Success(ElapsedSeconds(startTime.value, now))
      ensures table.endTimes == if id in old(table.endTimes)
                                then old(table.endTimes)[id := Some(now)]
                                else old(table.endTimes)
    {
      endTime := Some(now);
      if id in table.endTimes {
        table.endTimes := table.endTimes[id := endTime];
      }
    }
  }

  /**
    `calculate_total_time_overpassing_threshold`: walks the pairs of the
    series in order and adds each gap, in elapsed seconds, whose first sample
    is above the threshold.
  */
  method TotalTimeOverpassingThreshold(threshold: real, series: seq<CpuUsage>) returns (total: real)
    ensures total == TimeAbove(series, threshold, ElapsedSeconds)
  {
    total := 0.0;
    var pairs := if |series| == 0 then 0 else |series| - 1;
    for k := 0 to pairs
      invariant |series| == 0 ==> total == 0.0
      invariant |series| > 0 ==> total == TimeAbove(series[..k + 1], threshold, ElapsedSeconds)
    {
      var periodDuration := ElapsedSeconds(series[k].timestamp, series[k + 1].timestamp);
      if series[k].usage > threshold {
        total := total + periodDuration;
      }
      assert series[..k + 2][..k + 1] == series[..k + 1];
    }
    if |series| > 0 {
      assert series[..pairs + 1] == series;
    }
  }
}
