/**
 * The X11 transformer's clock: the interval between an event and the
 * previous one, in the server's time units.
 */
module Intervals {
  import opened Wrappers

  /**
   * The interval reported for an event at `time` when the previous event was
   * at `previous`: none for the first event and for a clock that went back.
   */
  function IntervalOf(previous: Option<int>, time: int): (r: Option<int>)
    ensures r.Some? <==> previous.Some? && previous.value <= time
    ensures r.Some? ==> r.value >= 0 && previous.value + r.value == time
  {
    if previous.None? || time < previous.value then None else Some(time - previous.value)
  }

  /** `GetInterval`: remembers the last time it saw. */
  class IntervalTracker {
    var previous: Option<int>

    constructor()
      ensures previous == None
    {
      previous := None;
    }

    method GetInterval(time: int) returns (interval: Option<int>)
      modifies this
      ensures interval == IntervalOf(old(previous), time)
      ensures previous == Some(time)
    {
      if previous.None? || time < previous.value {
        previous := Some(time);
        return None;
      }
      interval := Some(time - previous.value);
      previous := Some(time);
    }
  }

  /** The intervals of a run of times: the first is none, each later one from its predecessor. */
  function Intervals(previous: Option<int>, times: seq<int>): (r: seq<Option<int>>)
    ensures |r| == |times|
    decreases times
  {
    if times == [] then []
    else [IntervalOf(previous, times[0])] + Intervals(Some(times[0]), times[1..])
  }

  function Sum(intervals: seq<Option<int>>): int
  {
    if intervals == [] then 0
    else (if intervals[0].Some? then intervals[0].value else 0) + Sum(intervals[1..])
  }

  predicate NonDecreasing(times: seq<int>)
  {
    forall j, k :: 0 <= j < k < |times| ==> times[j] <= times[k]
  }

  /**
   * For a clock that never goes back, every interval after the first event
   * is present and the intervals add up to the time between first and last.
   */
  lemma {:induction false} IntervalsTelescope(first: int, times: seq<int>)
    requires NonDecreasing([first] + times)
    ensures forall k :: 0 <= k < |times| ==> Intervals(Some(first), times)[k].Some?
    ensures Sum(Intervals(Some(first), times)) == (if times == [] then 0 else times[|times| - 1] - first)
    decreases times
  {
    if times != [] {
      assert first <= times[0] by { assert ([first] + times)[0] == first && ([first] + times)[1] == times[0]; }
      var rest := times[1..];
      assert NonDecreasing([times[0]] + rest) by {
        forall j, k | 0 <= j < k < |[times[0]] + rest|
          ensures ([times[0]] + rest)[j] <= ([times[0]] + rest)[k]
        {
          assert ([times[0]] + rest)[j] == ([first] + times)[j + 1];
          assert ([times[0]] + rest)[k] == ([first] + times)[k + 1];
        }
      }
      IntervalsTelescope(times[0], rest);
      var r := Intervals(Some(first), times);
      forall k | 0 <= k < |times|
        ensures r[k].Some?
      {
        if k > 0 {
          assert r[k] == Intervals(Some(times[0]), rest)[k - 1];
        }
      }
      if rest != [] {
        assert times[|times| - 1] == rest[|rest| - 1];
      }
    }
  }

  /** The first event, and any event after the clock went back, restarts the clock. */
  lemma ClockRestarts(previous: Option<int>, time: int, next: int)
    requires previous.None? || time < previous.value
    requires time <= next
    ensures IntervalOf(previous, time).None?
    ensures IntervalOf(Some(time), next) == Some(next - time)
  {
  }
}
