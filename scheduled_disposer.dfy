/**
 * ScheduledDisposer: holds at most one resource (the previous script host)
 * and disposes of it when a one-shot timer fires.
 */
module Disposal {
  import opened Common

  /**
   * The due time TryDisposeWithDelay passes to Timer.Change. Timer.Change
   * reads it as milliseconds, so the delay is 10.8 seconds.
   */
  const DelayedDisposeDueTimeMs := 3 * 60 * 60

  /** An IDisposable, by identity. */
  datatype Resource = Resource(id: int)

  datatype TimerState = Stopped | Due(dueTimeMs: int) | TimerDisposed

  class ScheduledDisposer {
    /** `_host`: the slot. */
    var host: Option<Resource>
    var timer: TimerState
    /** The Dispose calls made on resources so far, in order (including ones that threw). */
    ghost var disposeCalls: seq<Resource>

    /** The slot starts empty and the timer stopped. */
    constructor ()
      ensures host == None && timer == Stopped && disposeCalls == []
    {
      host := None;
      timer := Stopped;
      disposeCalls := [];
    }

    /** Timer.Change on a disposed timer throws ObjectDisposedException, which is caught. */
    method SetTimerInterval(dueTimeMs: int)
      modifies this`timer
      ensures timer == if old(timer) == TimerDisposed then TimerDisposed else Due(dueTimeMs)
    {
      if timer != TimerDisposed {
        timer := Due(dueTimeMs);
      }
    }

    /**
     * TryDisposeWithDelay(resource): `lockTaken` is whether Monitor.TryEnter
     * got the lock. Only an empty slot under the lock accepts the resource
     * and arms the timer; a rejected resource is left alone.
     */
    method TryDisposeWithDelay(resource: Option<Resource>, lockTaken: bool) returns (r: bool)
      modifies this`host, this`timer
      ensures r <==> lockTaken && old(host).None?
      ensures r ==> host == resource
                    && timer == if old(timer) == TimerDisposed then TimerDisposed else Due(DelayedDisposeDueTimeMs)
      ensures !r ==> host == old(host) && timer == old(timer)
      ensures disposeCalls == old(disposeCalls)
    {
      if lockTaken {
        if host.None? {
          host := resource;
          SetTimerInterval(DelayedDisposeDueTimeMs);
          return true;
        }
        return false;
      }
      r := false;
    }

    /**
     * OnTimer: the one-shot timer fired. The held resource, if any, is
     * disposed and the slot emptied; if its Dispose throws, the error is
     * logged and the slot keeps the resource.
     */
    method OnTimer(disposeThrows: bool)
      requires timer.Due?
      modifies this`host, this`timer, this`disposeCalls
      ensures timer == Stopped
      ensures old(host).None? ==> host == None && disposeCalls == old(disposeCalls)
      ensures old(host).Some? ==> disposeCalls == old(disposeCalls) + [old(host).value]
                                  && host == if disposeThrows then old(host) else None
    {
      timer := Stopped;
      if host.Some? {
        disposeCalls := disposeCalls + [host.value];
        if disposeThrows {
          return;
        }
      }
      host := None;
    }

    /**
     * Dispose: dispose the held resource, if any, then the timer. The slot
     * is not cleared; an exception from the resource leaves the timer as it was.
     */
    method Dispose(disposeThrows: bool) returns (r: Result<()>)
      modifies this`timer, this`disposeCalls
      ensures host == old(host)
      ensures old(host).Some? ==> disposeCalls == old(disposeCalls) + [old(host).value]
      ensures old(host).None? ==> disposeCalls == old(disposeCalls)
      ensures r.Err? <==> old(host).Some? && disposeThrows
      ensures timer == if r.Ok? then TimerDisposed else old(timer)
    {
      if host.Some? {
        disposeCalls := disposeCalls + [host.value];
        if disposeThrows {
          return Err(CollaboratorFailure);
        }
      }
      timer := TimerDisposed;
      r := Ok(());
    }
  }
}
