/**
 * RawFunctionExecutionStatusSink and FunctionExecutionMeteringOptions: the
 * queue of tracked function executions that metering drains, dropping what
 * is more than two minutes old, and the range-checked sampling interval.
 */
module Metering {
  import opened Common
  import MeshClients

  /** TimeSpan and DateTime count in ticks of 100 ns. */
  const TicksPerSecond := 10_000_000
  const StaleAfterTicks := 2 * 60 * TicksPerSecond

  /** FunctionExecutionActivity */
  datatype FunctionExecutionActivity = FunctionExecutionActivity(
    functionName: Option<string>,
    executionStage: MeshClients.ExecutionStage)

  /** A tracked activity with its TimeStamp (DateTime ticks). */
  datatype TrackedFunctionExecutionActivity = TrackedFunctionExecutionActivity(
    timeStamp: int,
    activity: FunctionExecutionActivity)

  predicate IsStale(a: TrackedFunctionExecutionActivity, cutoff: int)
  {
    a.timeStamp < cutoff
  }

  /** The activities that are not stale, in queue order. */
  function Fresh(xs: seq<TrackedFunctionExecutionActivity>, cutoff: int): (r: seq<TrackedFunctionExecutionActivity>)
    ensures |r| <= |xs|
    ensures forall i :: 0 <= i < |r| ==> r[i] in xs && !IsStale(r[i], cutoff)
    ensures forall a :: a in xs && !IsStale(a, cutoff) ==> a in r
  {
    if xs == [] then []
    else
      var init := xs[..|xs| - 1];
      var last := xs[|xs| - 1];
      assert xs == init + [last];
      Fresh(init, cutoff) + if IsStale(last, cutoff) then [] else [last]
  }

  function StaleCount(xs: seq<TrackedFunctionExecutionActivity>, cutoff: int): nat
  {
    if xs == [] then 0
    else StaleCount(xs[..|xs| - 1], cutoff) + if IsStale(xs[|xs| - 1], cutoff) then 1 else 0
  }

  /** Every drained activity is either returned or counted as stale. */
  lemma {:induction false} FreshPlusStale(xs: seq<TrackedFunctionExecutionActivity>, cutoff: int)
    ensures |Fresh(xs, cutoff)| + StaleCount(xs, cutoff) == |xs|
    decreases |xs|
  {
    if xs != [] {
      FreshPlusStale(xs[..|xs| - 1], cutoff);
    }
  }

  /** Nothing is dropped from a queue that holds no stale activity. */
  lemma {:induction false} FreshOfNoneStale(xs: seq<TrackedFunctionExecutionActivity>, cutoff: int)
    requires forall i :: 0 <= i < |xs| ==> !IsStale(xs[i], cutoff)
    ensures Fresh(xs, cutoff) == xs
    decreases |xs|
  {
    if xs != [] {
      var init := xs[..|xs| - 1];
      assert forall i :: 0 <= i < |init| ==> !IsStale(init[i], cutoff) by {
        forall i | 0 <= i < |init| ensures !IsStale(init[i], cutoff) { assert init[i] == xs[i]; }
      }
      FreshOfNoneStale(init, cutoff);
      assert xs == init + [xs[|xs| - 1]];
    }
  }

  /**
   * Filtering keeps queue order: the fresh part of two queues one after the
   * other is the fresh part of the first followed by that of the second.
   */
  lemma {:induction false} FreshAppend(xs: seq<TrackedFunctionExecutionActivity>, ys: seq<TrackedFunctionExecutionActivity>, cutoff: int)
    ensures Fresh(xs + ys, cutoff) == Fresh(xs, cutoff) + Fresh(ys, cutoff)
    decreases |ys|
  {
    if ys == [] {
      assert xs + ys == xs;
    } else {
      var init := ys[..|ys| - 1];
      var last := ys[|ys| - 1];
      assert (xs + ys)[..|xs + ys| - 1] == xs + init;
      assert (xs + ys)[|xs + ys| - 1] == last;
      FreshAppend(xs, init, cutoff);
    }
  }

  /** Each fresh activity is kept as often as it was queued, and a stale one never. */
  lemma {:induction false} FreshCounts(xs: seq<TrackedFunctionExecutionActivity>, cutoff: int, a: TrackedFunctionExecutionActivity)
    ensures multiset(Fresh(xs, cutoff))[a] == if IsStale(a, cutoff) then 0 else multiset(xs)[a]
    decreases |xs|
  {
    if xs != [] {
      var init := xs[..|xs| - 1];
      assert xs == init + [xs[|xs| - 1]];
      FreshCounts(init, cutoff, a);
    }
  }

  /** Filtering what was already filtered changes nothing. */
  lemma FreshIdempotent(xs: seq<TrackedFunctionExecutionActivity>, cutoff: int)
    ensures Fresh(Fresh(xs, cutoff), cutoff) == Fresh(xs, cutoff)
  {
    FreshOfNoneStale(Fresh(xs, cutoff), cutoff);
  }

  class RawFunctionExecutionStatusSink {
    var activities: seq<TrackedFunctionExecutionActivity>

    constructor ()
      ensures activities == []
    {
      activities := [];
    }

    /** TryAddFunctionActivityWithTime: always enqueues at the tail. */
    method TryAddFunctionActivityWithTime(activity: TrackedFunctionExecutionActivity)
      modifies this
      ensures activities == old(activities) + [activity]
    {
      activities := activities + [activity];
    }

    /**
     * GetActivities(), with DateTime.UtcNow passed in: drain the queue and
     * return, in order, what is not older than two minutes.
     */
    method GetActivities(utcNow: int) returns (r: seq<TrackedFunctionExecutionActivity>, staleCount: nat)
      modifies this
      ensures activities == []
      ensures r == Fresh(old(activities), utcNow - StaleAfterTicks)
      ensures staleCount == StaleCount(old(activities), utcNow - StaleAfterTicks)
      ensures |r| + staleCount == |old(activities)|
    {
      var twoMinutesBack := utcNow - StaleAfterTicks;
      ghost var drained := activities;
      ghost var k := 0;
      r := [];
      staleCount := 0;
      while activities != []
        invariant 0 <= k <= |drained| && activities == drained[k..]
        invariant r == Fresh(drained[..k], twoMinutesBack)
        invariant staleCount == StaleCount(drained[..k], twoMinutesBack)
        decreases |activities|
      {
        var activity := activities[0];
        activities := activities[1..];
        assert drained[..k + 1][..k] == drained[..k];
        assert drained[..k + 1][k] == activity;
        if activity.timeStamp < twoMinutesBack {
          staleCount := staleCount + 1;
        } else {
          r := r + [activity];
        }
        k := k + 1;
      }
      assert drained[..k] == drained;
      FreshPlusStale(drained, twoMinutesBack);
    }
  }

  const MinSamplingInterval := 1 * TicksPerSecond
  const MaxSamplingInterval := 30 * TicksPerSecond
  const DefaultSamplingInterval := 10 * TicksPerSecond

  class FunctionExecutionMeteringOptions {
    /** `_functionExecutionMetricsSamplingInterval`, in ticks. */
    var samplingInterval: int

    ghost predicate Valid()
      reads this
    {
      MinSamplingInterval <= samplingInterval <= MaxSamplingInterval
    }

    /** The default sampling interval is 10 seconds. */
    constructor ()
      ensures Valid() && samplingInterval == DefaultSamplingInterval
    {
      samplingInterval := DefaultSamplingInterval;
    }

    /** The getter. */
    function FunctionExecutionMetricsSamplingInterval(): int
      reads this
    {
      samplingInterval
    }

    /**
     * The setter: 1 s and 30 s and everything between are accepted; anything
     * else throws and leaves the stored value as it was.
     */
    method SetFunctionExecutionMetricsSamplingInterval(value: int) returns (r: Result<()>)
      requires Valid()
      modifies this
      ensures Valid()
      ensures r.Ok? <==> MinSamplingInterval <= value <= MaxSamplingInterval
      ensures r.Err? ==> r.error == ArgumentOutOfRange("FunctionExecutionMetricsSamplingInterval")
      ensures FunctionExecutionMetricsSamplingInterval() == if r.Ok? then value else old(FunctionExecutionMetricsSamplingInterval())
    {
      if value < MinSamplingInterval || value > MaxSamplingInterval {
        return Err(ArgumentOutOfRange("FunctionExecutionMetricsSamplingInterval"));
      }
      samplingInterval := value;
      r := Ok(());
    }
  }
}
