/**
  The threshold-crossing analysis shared by both versions of the tracker.

  A series of CPU usage samples is read pair by pair, as Python's
  `zip(series, series[1:])` does: pair k is (series[k], series[k + 1]).
  The gap of a pair is counted when the FIRST sample of the pair is above
  the threshold; the time after the last sample is never counted.

  How a gap is measured is a parameter `dur`, because the two versions of
  the tracker measure it differently: `ElapsedSeconds` is
  `timedelta.total_seconds()`, `CalculateDuration` is the server's
  `(end - start).seconds / 1000`. Timestamps are whole seconds.
*/
module Analyzer {

  /** One CPU usage sample (the `CPUUsage` record). */
  datatype CpuUsage = CpuUsage(id: nat, testRunId: nat, timestamp: int, usage: real)

  /** Signed elapsed time from `start` to `end`, in seconds. */
  function ElapsedSeconds(start: int, end: int): (d: real)
    ensures d >= 0.0 <==> start <= end
    ensures d == 0.0 <==> start == end
  {
    (end - start) as real
  }

  const SecondsPerDay: int := 86400

  /**
    The server's duration: the `seconds` field of a timedelta, which is the
    difference taken modulo one day (days are dropped, and a negative
    difference wraps to the previous day), then divided by 1000.
  */
  function CalculateDuration(start: int, end: int): (d: real)
    ensures 0.0 <= d < 86.4
    ensures 0 <= end - start < SecondsPerDay ==> d * 1000.0 == ElapsedSeconds(start, end)
  {
    ((end - start) % SecondsPerDay) as real / 1000.0
  }

  /** The server's duration disagrees with the elapsed time on one-second gaps, in both orders. */
  lemma CalculateDurationMisreports()
    ensures ElapsedSeconds(0, 1) == 1.0 && CalculateDuration(0, 1) == 0.001
    ensures ElapsedSeconds(1, 0) == -1.0 && CalculateDuration(1, 0) == 86.399
  {
    assert (0 - 1) % SecondsPerDay == 86399;
  }

  /** What pair (a, b) contributes: its gap, when a's usage is above the threshold. */
  function PairContribution(a: CpuUsage, b: CpuUsage, threshold: real, dur: (int, int) -> real): real
  {
    if a.usage > threshold then dur(a.timestamp, b.timestamp) else 0.0
  }

  /** Time above the threshold: the sum of every pair's contribution, in series order. */
  function TimeAbove(series: seq<CpuUsage>, threshold: real, dur: (int, int) -> real): real
    decreases |series|
  {
    if |series| < 2 then 0.0
    else TimeAbove(series[..|series| - 1], threshold, dur)
         + PairContribution(series[|series| - 2], series[|series| - 1], threshold, dur)
  }

  /** The sum of every consecutive gap, whatever the usage. */
  function TotalGap(series: seq<CpuUsage>, dur: (int, int) -> real): real
    decreases |series|
  {
    if |series| < 2 then 0.0
    else TotalGap(series[..|series| - 1], dur)
         + dur(series[|series| - 2].timestamp, series[|series| - 1].timestamp)
  }

  /** Samples in capture order: timestamps never decrease. */
  predicate Ascending(series: seq<CpuUsage>)
  {
    forall i, j :: 0 <= i < j < |series| ==> series[i].timestamp <= series[j].timestamp
  }

  /** Every consecutive gap of the series measures as non-negative under `dur`. */
  predicate GapsNonNegative(series: seq<CpuUsage>, dur: (int, int) -> real)
  {
    forall k :: 0 <= k < |series| - 1 ==> dur(series[k].timestamp, series[k + 1].timestamp) >= 0.0
  }

  function Reverse<T>(s: seq<T>): (r: seq<T>)
    ensures |r| == |s|
    ensures forall i :: 0 <= i < |s| ==> r[i] == s[|s| - 1 - i]
  {
    if s == [] then [] else Reverse(s[1..]) + [s[0]]
  }

  /**
    The zip view: a series of fewer than two samples has no pairs and yields 0;
    otherwise the first pair contributes and the rest of the series follows.
  */
  lemma {:induction false} TimeAboveFirstPair(series: seq<CpuUsage>, threshold: real, dur: (int, int) -> real)
    ensures |series| < 2 ==> TimeAbove(series, threshold, dur) == 0.0
    ensures |series| >= 2 ==>
      TimeAbove(series, threshold, dur)
        == PairContribution(series[0], series[1], threshold, dur) + TimeAbove(series[1..], threshold, dur)
    decreases |series|
  {
    var n := |series|;
    if n > 2 {
      var prefix := series[..n - 1];
      TimeAboveFirstPair(prefix, threshold, dur);
      assert prefix[1..] == series[1..][..n - 2];
      assert prefix[0] == series[0] && prefix[1] == series[1];
    }
  }

  /** A threshold at or above every usage yields 0. */
  lemma {:induction false} TimeAboveNoneAbove(series: seq<CpuUsage>, threshold: real, dur: (int, int) -> real)
    requires forall i :: 0 <= i < |series| ==> series[i].usage <= threshold
    ensures TimeAbove(series, threshold, dur) == 0.0
    decreases |series|
  {
    if |series| >= 2 {
      TimeAboveNoneAbove(series[..|series| - 1], threshold, dur);
    }
  }

  /** A threshold below every usage counts every gap. */
  lemma {:induction false} TimeAboveAllAbove(series: seq<CpuUsage>, threshold: real, dur: (int, int) -> real)
    requires forall i :: 0 <= i < |series| ==> series[i].usage > threshold
    ensures TimeAbove(series, threshold, dur) == TotalGap(series, dur)
    decreases |series|
  {
    if |series| >= 2 {
      TimeAboveAllAbove(series[..|series| - 1], threshold, dur);
    }
  }

  /** Measured in elapsed seconds, the gaps telescope to last minus first. */
  lemma {:induction false} TotalGapTelescopes(series: seq<CpuUsage>)
    requires |series| >= 1
    ensures TotalGap(series, ElapsedSeconds)
            == ElapsedSeconds(series[0].timestamp, series[|series| - 1].timestamp)
    decreases |series|
  {
    if |series| >= 2 {
      TotalGapTelescopes(series[..|series| - 1]);
    }
  }

  /** With non-negative gaps, the time above the threshold lies between 0 and the total gap. */
  lemma {:induction false} TimeAboveBetweenZeroAndTotalGap(series: seq<CpuUsage>, threshold: real, dur: (int, int) -> real)
    requires GapsNonNegative(series, dur)
    ensures 0.0 <= TimeAbove(series, threshold, dur) <= TotalGap(series, dur)
    decreases |series|
  {
    var n := |series|;
    if n >= 2 {
      var prefix := series[..n - 1];
      assert GapsNonNegative(prefix, dur) by {
        forall k | 0 <= k < |prefix| - 1
          ensures dur(prefix[k].timestamp, prefix[k + 1].timestamp) >= 0.0
        {
          assert prefix[k] == series[k] && prefix[k + 1] == series[k + 1];
        }
      }
      TimeAboveBetweenZeroAndTotalGap(prefix, threshold, dur);
      assert dur(series[n - 2].timestamp, series[n - 1].timestamp) >= 0.0;
    }
  }

  /** With non-negative gaps, raising the threshold never increases the time above it. */
  lemma {:induction false} TimeAboveAntitone(series: seq<CpuUsage>, lower: real, higher: real, dur: (int, int) -> real)
    requires lower <= higher
    requires GapsNonNegative(series, dur)
    ensures TimeAbove(series, higher, dur) <= TimeAbove(series, lower, dur)
    decreases |series|
  {
    var n := |series|;
    if n >= 2 {
      var prefix := series[..n - 1];
      assert GapsNonNegative(prefix, dur) by {
        forall k | 0 <= k < |prefix| - 1
          ensures dur(prefix[k].timestamp, prefix[k + 1].timestamp) >= 0.0
        {
          assert prefix[k] == series[k] && prefix[k + 1] == series[k + 1];
        }
      }
      TimeAboveAntitone(prefix, lower, higher, dur);
      assert dur(series[n - 2].timestamp, series[n - 1].timestamp) >= 0.0;
    }
  }

  /** An ascending series has non-negative gaps in elapsed seconds. */
  lemma AscendingGapsNonNegative(series: seq<CpuUsage>)
    requires Ascending(series)
    ensures GapsNonNegative(series, ElapsedSeconds)
  {
  }

  /** The server's duration is never negative, whatever the order of the series. */
  lemma CalculateDurationGapsNonNegative(series: seq<CpuUsage>)
    ensures GapsNonNegative(series, CalculateDuration)
  {
  }

  /**
    For an ascending series measured in elapsed seconds:
    0 <= time above <= last.timestamp - first.timestamp.
  */
  lemma {:induction false} TimeAboveWithinRunSpan(series: seq<CpuUsage>, threshold: real)
    requires |series| >= 1 && Ascending(series)
    ensures 0.0 <= TimeAbove(series, threshold, ElapsedSeconds)
                <= ElapsedSeconds(series[0].timestamp, series[|series| - 1].timestamp)
  {
    AscendingGapsNonNegative(series);
    TimeAboveBetweenZeroAndTotalGap(series, threshold, ElapsedSeconds);
    TotalGapTelescopes(series);
  }

  /** A threshold below every usage yields last.timestamp - first.timestamp. */
  lemma {:induction false} TimeAboveAllAboveIsSpan(series: seq<CpuUsage>, threshold: real)
    requires |series| >= 1
    requires forall i :: 0 <= i < |series| ==> series[i].usage > threshold
    ensures TimeAbove(series, threshold, ElapsedSeconds)
            == ElapsedSeconds(series[0].timestamp, series[|series| - 1].timestamp)
  {
    TimeAboveAllAbove(series, threshold, ElapsedSeconds);
    TotalGapTelescopes(series);
  }

  /**
    What a pair contributes when the series is read newest-first: the gap
    between the later sample b and the earlier sample a is measured from b
    to a, and it is counted when the LATER sample is above the threshold.
  */
  function TrailingContribution(a: CpuUsage, b: CpuUsage, threshold: real, dur: (int, int) -> real): real
  {
    if b.usage > threshold then dur(b.timestamp, a.timestamp) else 0.0
  }

  /** The sum of every pair's trailing contribution, in capture order. */
  function TimeAboveTrailing(series: seq<CpuUsage>, threshold: real, dur: (int, int) -> real): real
    decreases |series|
  {
    if |series| < 2 then 0.0
    else TrailingContribution(series[0], series[1], threshold, dur)
         + TimeAboveTrailing(series[1..], threshold, dur)
  }

  /**
    Folding a newest-first series (the reverse of capture order) attributes
    each gap to the later sample of the pair and measures it backwards.
  */
  lemma {:induction false} TimeAboveNewestFirst(series: seq<CpuUsage>, threshold: real, dur: (int, int) -> real)
    ensures TimeAbove(Reverse(series), threshold, dur) == TimeAboveTrailing(series, threshold, dur)
    decreases |series|
  {
    if |series| >= 2 {
      var r := Reverse(series);
      var n := |r|;
      assert r[..n - 1] == Reverse(series[1..]);
      assert r[n - 2] == series[1] && r[n - 1] == series[0];
      TimeAboveNewestFirst(series[1..], threshold, dur);
    }
  }
}
