/**
 SessionJobPool: the mutable pool object.  Each method is one synchronous span
 between two awaits of the method it is named after, and changes the books
 exactly as the function of JobPool says.  A promise that is resolved or
 rejected is an out-parameter.
 */
module SessionJobPools {
  import opened JobPool

  class SessionJobPool {
    const limits: Limits
    var idle: seq<JobId>
    var leased: set<JobId>
    var all: set<JobId>
    var waiters: seq<SessionId>
    var creating: int
    var ending: bool

    constructor (limits: Limits)
      ensures Books() == Pool([], {}, {}, [], 0, false) && this.limits == limits
    {
      this.limits := limits;
      idle, leased, all, waiters := [], {}, {}, [];
      creating, ending := 0, false;
    }

    function Books(): Pool
      reads this
    {
      Pool(idle, leased, all, waiters, creating, ending)
    }

    /** acquire() up to its first await. */
    method AcquireStart(who: SessionId) returns (answer: LeaseAnswer)
      modifies this
      ensures (Books(), answer) == Acquire(old(Books()), limits, who)
    {
      if ending {
        return ShuttingDown;
      }
      if idle != [] {
        var job := idle[0];
        idle := idle[1..];
        leased := leased + {job};
        return Lease(job);
      }
      if |all| + creating < limits.maxSize {
        creating := creating + 1;
        return Connect;
      }
      waiters := waiters + [who];
      return Queued;
    }

    /** acquire() after createTrackedJob. */
    method AcquireConnected(job: JobId)
      modifies this
      ensures Books() == Connected(old(Books()), job)
    {
      creating := creating - 1;
      all := all + {job};
      leased := leased + {job};
    }

    /** The finally clause of createTrackedJob when the connection failed. */
    method CreationFailed()
      modifies this
      ensures Books() == ConnectFailed(old(Books()))
    {
      creating := creating - 1;
    }

    /** The timer of a waiter: find its entry, cut it out. */
    method WaiterTimeout(who: SessionId)
      modifies this
      ensures Books() == WaitTimedOut(old(Books()), who)
    {
      hide Without;
      var index := 0;
      while index < |waiters| && waiters[index] != who
        invariant 0 <= index <= |waiters|
        invariant waiters == old(waiters)
        invariant Books() == old(Books())
        invariant waiters[..index] + Without(waiters[index..], who) == Without(waiters, who)
      {
        WithoutNext(waiters, who, index);
        index := index + 1;
      }
      WithoutHere(waiters, who, index);
      if index < |waiters| {
        waiters := waiters[..index] + waiters[index + 1..];
      }
    }

    /** release() up to its ROLLBACK; `known` tells whether it goes on. */
    method ReleaseCall(job: JobId) returns (known: bool)
      modifies this
      ensures (Books(), known) == ReleaseStart(old(Books()), job)
    {
      if job !in all {
        return false;
      }
      leased := leased - {job};
      return true;
    }

    /** release() after the reset of the job. */
    method ReleaseReset(job: JobId) returns (handoff: Handoff)
      modifies this
      ensures (Books(), handoff) == ReleaseEnd(old(Books()), job)
    {
      if waiters != [] {
        var waiter := waiters[0];
        waiters := waiters[1..];
        leased := leased + {job};
        return ToWaiter(waiter);
      } else if !ending {
        idle := idle + [job];
        return ToIdle;
      } else {
        return ToClose;
      }
    }

    /** invalidate() up to closeJob: filter the idle list, strike the job off the books. */
    method InvalidateCall(job: JobId)
      modifies this
      ensures Books() == InvalidateStart(old(Books()), job)
    {
      var kept: seq<JobId> := [];
      var index := 0;
      while index < |idle|
        invariant 0 <= index <= |idle|
        invariant Books() == old(Books())
        invariant kept + Exclude(idle[index..], job) == Exclude(idle, job)
      {
        assert idle[index..][1..] == idle[index + 1..];
        if idle[index] != job {
          kept := kept + [idle[index]];
        }
        index := index + 1;
      }
      idle := kept;
      leased := leased - {job};
      all := all - {job};
    }

    /** invalidate() after closeJob; `refill` tells whether a replacement is being created. */
    method InvalidateClosed() returns (refill: bool)
      modifies this
      ensures (Books(), refill) == Refill(old(Books()), limits)
    {
      if !ending && |all| + creating < limits.startingSize {
        creating := creating + 1;
        return true;
      }
      return false;
    }

    /** invalidate() with its replacement connected. */
    method InvalidateReplaced(job: JobId) returns (handoff: Handoff)
      modifies this
      ensures (Books(), handoff) == Replaced(old(Books()), job)
    {
      creating := creating - 1;
      all := all + {job};
      if waiters != [] {
        var waiter := waiters[0];
        waiters := waiters[1..];
        leased := leased + {job};
        return ToWaiter(waiter);
      }
      idle := idle + [job];
      return ToIdle;
    }

    /** end() up to the closing of the jobs: all waiters are rejected, first to last. */
    method EndCall() returns (rejected: seq<SessionId>)
      modifies this
      ensures Books() == EndStart(old(Books()))
      ensures rejected == old(waiters)
    {
      ending := true;
      var taken := waiters;
      waiters := [];
      rejected := [];
      var index := 0;
      while index < |taken|
        invariant 0 <= index <= |taken|
        invariant rejected == taken[..index]
      {
        rejected := rejected + [taken[index]];
        index := index + 1;
      }
    }

    method EndClosed()
      modifies this
      ensures Books() == EndFinish(old(Books()))
    {
      idle, leased, all := [], {}, {};
    }
  }

  lemma WithoutNext<T>(queue: seq<T>, who: T, k: nat)
    requires k < |queue| && queue[k] != who
    ensures queue[..k] + Without(queue[k..], who) == queue[..k + 1] + Without(queue[k + 1..], who)
  {
    assert queue[k..][1..] == queue[k + 1..];
    assert queue[..k] + [queue[k]] == queue[..k + 1];
  }

  lemma WithoutHere<T>(queue: seq<T>, who: T, k: nat)
    requires k <= |queue| && (k < |queue| ==> queue[k] == who)
    ensures queue[..k] + Without(queue[k..], who) == if k < |queue| then queue[..k] + queue[k + 1..] else queue
  {
    if k < |queue| { assert queue[k..][1..] == queue[k + 1..]; } else { assert queue[k..] == []; }
  }
}
