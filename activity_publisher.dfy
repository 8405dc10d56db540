/**
 * LinuxFunctionExecutionActivityPublisher: collects function execution
 * activities (only once the host is out of standby), and on each timer tick
 * drains them, drops duplicates and hands the rest to the mesh init client.
 */
module ActivityTelemetry {
  import opened Common
  import opened MeshClients

  const FlushIntervalMs := 5 * 1000

  /** The timer's schedule: stopped (Timeout.Infinite), or due after some milliseconds. */
  datatype TimerState = Stopped | Due(dueTimeMs: int)

  /**
   * A HashSet's view of the activities: `eq` is the element equality
   * (reference equality for ContainerFunctionExecutionActivity as written,
   * which defines no Equals of its own).
   */
  predicate HasEquivalent(d: seq<ContainerFunctionExecutionActivity>, x: ContainerFunctionExecutionActivity,
                          eq: (ContainerFunctionExecutionActivity, ContainerFunctionExecutionActivity) -> bool)
  {
    exists y :: y in d && eq(y, x)
  }

  /**
   * The set built by Add-ing the activities in order: an activity is kept
   * when no equal one is in the set already.
   */
  function Dedup(xs: seq<ContainerFunctionExecutionActivity>,
                 eq: (ContainerFunctionExecutionActivity, ContainerFunctionExecutionActivity) -> bool)
    : seq<ContainerFunctionExecutionActivity>
  {
    if xs == [] then []
    else
      var d := Dedup(xs[..|xs| - 1], eq);
      if HasEquivalent(d, xs[|xs| - 1], eq) then d else d + [xs[|xs| - 1]]
  }

  /**
   * The set holds only drained activities, holds each drained activity or an
   * equal one, and holds no two equal activities.
   */
  lemma {:induction false} DedupProperties(xs: seq<ContainerFunctionExecutionActivity>,
                                           eq: (ContainerFunctionExecutionActivity, ContainerFunctionExecutionActivity) -> bool)
    ensures var r := Dedup(xs, eq);
      |r| <= |xs|
      && (r == [] <==> xs == [])
      && (forall y :: y in r ==> y in xs)
      && (forall x :: x in xs ==> x in r || HasEquivalent(r, x, eq))
      && (forall i, j :: 0 <= i < j < |r| ==> !eq(r[i], r[j]))
    decreases |xs|
  {
    if xs != [] {
      var init := xs[..|xs| - 1];
      var last := xs[|xs| - 1];
      assert xs == init + [last];
      DedupProperties(init, eq);
      var d := Dedup(init, eq);
      var r := Dedup(xs, eq);
      forall x | x in xs ensures x in r || HasEquivalent(r, x, eq) {
        if x in init && !(x in d) {
          var y :| y in d && eq(y, x);
          assert y in r;
        }
      }
    }
  }

  /** The duplicates of the publisher tests: the same activity at two different times. */
  function SameExceptTime(a: ContainerFunctionExecutionActivity, b: ContainerFunctionExecutionActivity): bool
  {
    a.(eventTime := 0) == b.(eventTime := 0)
  }

  /** Adding one more activity to the drained sequence. */
  lemma DedupSnoc(xs: seq<ContainerFunctionExecutionActivity>, x: ContainerFunctionExecutionActivity,
                  eq: (ContainerFunctionExecutionActivity, ContainerFunctionExecutionActivity) -> bool)
    ensures Dedup(xs + [x], eq) == if HasEquivalent(Dedup(xs, eq), x, eq) then Dedup(xs, eq) else Dedup(xs, eq) + [x]
  {
    assert (xs + [x])[..|xs|] == xs;
  }

  /**
   * Four activities of which the first two differ only in their time: three
   * are published, one per distinct activity.
   */
  lemma UniqueActivitiesExample(a1: ContainerFunctionExecutionActivity)
    requires a1 == ContainerFunctionExecutionActivity(0, Some("func-1"), InProgress, Some("trigger-1"), false)
    ensures var a2 := a1.(eventTime := 1);
            var a3 := ContainerFunctionExecutionActivity(1, Some("func-1"), Finished, Some("trigger-1"), true);
            var a4 := a3.(success := false);
            Dedup([a1, a2, a3, a4], SameExceptTime) == [a1, a3, a4]
  {
    var a2 := a1.(eventTime := 1);
    var a3 := ContainerFunctionExecutionActivity(1, Some("func-1"), Finished, Some("trigger-1"), true);
    var a4 := a3.(success := false);
    DedupSnoc([], a1, SameExceptTime);
    assert [] + [a1] == [a1];
    assert Dedup([a1], SameExceptTime) == [a1];
    DedupSnoc([a1], a2, SameExceptTime);
    assert [a1] + [a2] == [a1, a2];
    assert SameExceptTime(a1, a2) && a1 in [a1];
    assert Dedup([a1, a2], SameExceptTime) == [a1];
    DedupSnoc([a1, a2], a3, SameExceptTime);
    assert [a1, a2] + [a3] == [a1, a2, a3];
    assert !HasEquivalent([a1], a3, SameExceptTime) by {
      forall y | y in [a1] ensures !SameExceptTime(y, a3) { assert y == a1; }
    }
    assert Dedup([a1, a2, a3], SameExceptTime) == [a1, a3];
    DedupSnoc([a1, a2, a3], a4, SameExceptTime);
    assert [a1, a2, a3] + [a4] == [a1, a2, a3, a4];
    assert !HasEquivalent([a1, a3], a4, SameExceptTime) by {
      forall y | y in [a1, a3] ensures !SameExceptTime(y, a4) { assert y == a1 || y == a3; }
    }
  }

  class LinuxFunctionExecutionActivityPublisher {
    const meshInitServiceClient: MeshInitServiceClient
    /** IEnvironment.IsLinuxConsumption() */
    const isLinuxConsumption: bool
    const flushIntervalMs: int
    const eq: (ContainerFunctionExecutionActivity, ContainerFunctionExecutionActivity) -> bool
    var queue: seq<ContainerFunctionExecutionActivity>
    var flushInProgress: int
    /** `_timer`; None once disposed. */
    var timer: Option<TimerState>
    /** The collections handed to the mesh init client so far. */
    ghost var published: seq<seq<ContainerFunctionExecutionActivity>>

    /**
     * Outside Linux consumption the timer is never armed and nothing is
     * ever published.
     */
    ghost predicate Valid()
      reads this
    {
      !isLinuxConsumption ==> published == [] && timer != Some(Due(flushIntervalMs))
    }

    /** The timer is created stopped. */
    constructor (meshInitServiceClient: MeshInitServiceClient, isLinuxConsumption: bool,
                 eq: (ContainerFunctionExecutionActivity, ContainerFunctionExecutionActivity) -> bool,
                 flushIntervalMs: int := FlushIntervalMs)
      ensures Valid()
      ensures this.meshInitServiceClient == meshInitServiceClient && this.isLinuxConsumption == isLinuxConsumption
      ensures this.eq == eq && this.flushIntervalMs == flushIntervalMs
      ensures queue == [] && flushInProgress == 0 && timer == Some(Stopped) && published == []
    {
      this.meshInitServiceClient := meshInitServiceClient;
      this.isLinuxConsumption := isLinuxConsumption;
      this.eq := eq;
      this.flushIntervalMs := flushIntervalMs;
      timer := Some(Stopped);
      queue := [];
      flushInProgress := 0;
      published := [];
    }

    /** StartAsync: arm the timer, but only for Linux consumption. */
    method StartAsync()
      requires Valid()
      modifies this`timer
      ensures Valid()
      ensures isLinuxConsumption ==> timer == if old(timer).Some? then Some(Due(flushIntervalMs)) else None
      ensures !isLinuxConsumption ==> timer == old(timer)
    {
      if isLinuxConsumption {
        SetTimerInterval(flushIntervalMs);
      }
    }

    /** StopAsync: stop the timer if there still is one. */
    method StopAsync()
      modifies this`timer
      ensures timer == if old(timer).Some? then Some(Stopped) else None
    {
      if timer.Some? {
        timer := Some(Stopped);
      }
    }

    /** SetTimerInterval (private): re-arm the timer unless it was disposed; only Linux consumption arms the flush interval. */
    method SetTimerInterval(dueTime: int)
      requires Valid() && (isLinuxConsumption || dueTime != flushIntervalMs)
      modifies this`timer
      ensures Valid()
      ensures timer == if old(timer).Some? then Some(Due(dueTime)) else None
    {
      if timer.Some? {
        timer := Some(Due(dueTime));
      }
    }

    /** Dispose: dispose the timer and drop it. */
    method Dispose()
      modifies this`timer
      ensures timer == None
    {
      timer := None;
    }

    /** PublishFunctionExecutionActivity: enqueue at the tail unless the host is in standby mode. */
    method PublishFunctionExecutionActivity(activity: ContainerFunctionExecutionActivity, inStandbyMode: bool)
      modifies this`queue
      ensures queue == if inStandbyMode then old(queue) else old(queue) + [activity]
    {
      if !inStandbyMode {
        queue := queue + [activity];
      }
    }

    /** OnTimer: the timer fired; flush, then re-arm it. */
    method OnTimer()
      requires Valid() && timer == Some(Due(flushIntervalMs))
      modifies this, meshInitServiceClient`sent
      ensures Valid()
      ensures old(flushInProgress) == 0 ==>
                queue == [] && flushInProgress == 0
                && published == old(published) + (if old(queue) == [] then [] else [Dedup(old(queue), eq)])
      ensures old(flushInProgress) != 0 ==> queue == old(queue) && published == old(published)
      ensures timer == Some(Due(flushIntervalMs))
    {
      FlushFunctionExecutionActivities();
      SetTimerInterval(flushIntervalMs);
    }

    /**
     * FlushFunctionExecutionActivities: a no-op while another flush is in
     * progress; otherwise drain the queue into a set, publish the set if it
     * is not empty, and clear the flag whatever happened.
     */
    method FlushFunctionExecutionActivities()
      modifies this`queue, this`flushInProgress, this`published, meshInitServiceClient`sent
      ensures old(flushInProgress) == 0 ==>
                queue == [] && flushInProgress == 0
                && published == old(published) + (if old(queue) == [] then [] else [Dedup(old(queue), eq)])
                && meshInitServiceClient.sent == old(meshInitServiceClient.sent)
                   + (if old(queue) == [] then []
                      else ActivityRequests(meshInitServiceClient.transport, meshInitServiceClient.Uri(), Dedup(old(queue), eq)))
      ensures old(flushInProgress) != 0 ==>
                queue == old(queue) && flushInProgress == old(flushInProgress) && published == old(published)
                && meshInitServiceClient.sent == old(meshInitServiceClient.sent)
    {
      if flushInProgress != 0 {
        return;
      }
      flushInProgress := 1;
      var uniqueActivities := DrainQueue();
      if uniqueActivities != [] {
        published := published + [uniqueActivities];
        var _ := meshInitServiceClient.PublishContainerFunctionExecutionActivities(uniqueActivities);
      }
      flushInProgress := 0;
    }

    /** The TryDequeue loop: every activity, in order, added to the set. */
    method DrainQueue() returns (uniqueActivities: seq<ContainerFunctionExecutionActivity>)
      modifies this`queue
      ensures queue == []
      ensures uniqueActivities == Dedup(old(queue), eq)
    {
      ghost var drained := queue;
      uniqueActivities := [];
      ghost var k := 0;
      while queue != []
        invariant 0 <= k <= |drained| && queue == drained[k..]
        invariant uniqueActivities == Dedup(drained[..k], eq)
        decreases |queue|
      {
        var a := queue[0];
        queue := queue[1..];
        assert drained[..k + 1] == drained[..k] + [a];
        assert drained[..k + 1][..k] == drained[..k];
        if !HasEquivalent(uniqueActivities, a, eq) {
          uniqueActivities := uniqueActivities + [a];
        }
        k := k + 1;
      }
      assert drained[..k] == drained;
    }
  }
}
