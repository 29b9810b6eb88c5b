/**
 What each synchronous span of SessionJobPool does to the pool's bookkeeping.
 Jobs and waiting sessions are identified by numbers.  SessionJobPool.dfy holds
 the class whose methods are proved against these functions.
 */
module JobPool {
  type JobId = nat
  type SessionId = nat

  datatype Limits = Limits(startingSize: nat, maxSize: nat)

  datatype Pool = Pool(
    idle: seq<JobId>,
    leased: set<JobId>,
    all: set<JobId>,
    waiters: seq<SessionId>,
    creating: int,
    ending: bool
  )

  datatype LeaseAnswer = ShuttingDown | Lease(job: JobId) | Connect | Queued

  datatype Handoff = ToWaiter(who: SessionId) | ToIdle | ToClose

  /** The queue without the first entry of `who`. */
  function Without<T(==)>(queue: seq<T>, who: T): (rest: seq<T>) {
    if queue == [] then []
    else if queue[0] == who then queue[1..]
    else [queue[0]] + Without(queue[1..], who)
  }

  /** The idle list without any entry for `job`. */
  function Exclude<T(==)>(jobs: seq<T>, job: T): (rest: seq<T>) {
    if jobs == [] then []
    else if jobs[0] == job then Exclude(jobs[1..], job)
    else [jobs[0]] + Exclude(jobs[1..], job)
  }

  /** acquire() up to its first suspension. */
  function Acquire(p: Pool, limits: Limits, who: SessionId): (Pool, LeaseAnswer) {
    if p.ending then (p, ShuttingDown)
    else if p.idle != [] then
      (p.(idle := p.idle[1..], leased := p.leased + {p.idle[0]}), Lease(p.idle[0]))
    else if |p.all| + p.creating < limits.maxSize then
      (p.(creating := p.creating + 1), Connect)
    else (p.(waiters := p.waiters + [who]), Queued)
  }

  /** The connection opened by acquire() is up: reservation and registration are exchanged in one step. */
  function Connected(p: Pool, job: JobId): Pool {
    p.(creating := p.creating - 1, all := p.all + {job}, leased := p.leased + {job})
  }

  function ConnectFailed(p: Pool): Pool {
    p.(creating := p.creating - 1)
  }

  function WaitTimedOut(p: Pool, who: SessionId): Pool {
    p.(waiters := Without(p.waiters, who))
  }

  /** release() up to its ROLLBACK; a job that is not registered is ignored. */
  function ReleaseStart(p: Pool, job: JobId): (Pool, bool) {
    if job !in p.all then (p, false) else (p.(leased := p.leased - {job}), true)
  }

  /** release() once the job has been reset. */
  function ReleaseEnd(p: Pool, job: JobId): (Pool, Handoff) {
    if p.waiters != [] then
      (p.(waiters := p.waiters[1..], leased := p.leased + {job}), ToWaiter(p.waiters[0]))
    else if !p.ending then (p.(idle := p.idle + [job]), ToIdle)
    else (p, ToClose)
  }

  /** invalidate() up to the close of the job. */
  function InvalidateStart(p: Pool, job: JobId): Pool {
    p.(idle := Exclude(p.idle, job), leased := p.leased - {job}, all := p.all - {job})
  }

  /** invalidate() after the close: the pool is refilled up to its starting size. */
  function Refill(p: Pool, limits: Limits): (Pool, bool) {
    if !p.ending && |p.all| + p.creating < limits.startingSize
    then (p.(creating := p.creating + 1), true)
    else (p, false)
  }

  /** invalidate() once the replacement is connected. */
  function Replaced(p: Pool, job: JobId): (Pool, Handoff) {
    var q := p.(creating := p.creating - 1, all := p.all + {job});
    if q.waiters != [] then
      (q.(waiters := q.waiters[1..], leased := q.leased + {job}), ToWaiter(q.waiters[0]))
    else (q.(idle := q.idle + [job]), ToIdle)
  }

  /** end() up to the closing of the jobs: every waiter is rejected. */
  function EndStart(p: Pool): Pool {
    p.(ending := true, waiters := [])
  }

  function EndFinish(p: Pool): Pool {
    p.(idle := [], leased := {}, all := {})
  }

  ghost predicate Distinct<T>(s: seq<T>) {
    forall k, l :: 0 <= k < l < |s| ==> s[k] != s[l]
  }

  lemma {:induction false} WithoutMembers<T>(queue: seq<T>, who: T)
    requires Distinct(queue)
    ensures forall x :: x in Without(queue, who) <==> x in queue && x != who
    ensures Distinct(Without(queue, who))
  {
    if queue != [] {
      assert queue == [queue[0]] + queue[1..];
      assert queue[0] !in queue[1..];
      if queue[0] != who {
        WithoutMembers(queue[1..], who);
      }
    }
  }

  lemma {:induction false} ExcludeAbsent<T>(jobs: seq<T>, job: T)
    requires job !in jobs
    ensures Exclude(jobs, job) == jobs
  {
    if jobs != [] {
      ExcludeAbsent(jobs[1..], job);
    }
  }
}
