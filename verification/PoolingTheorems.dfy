/** What transaction pooling guarantees, over every run of every number of sessions. */
module PoolingTheorems {
  import opened Wrappers
  import opened JobPool
  import opened Sessions
  import opened SessionInvariant
  import opened LeaseProtocol
  import opened LeaseInvariant
  import opened Refinement
  import opened TransactionBlocks
  import PB = PrivateBackends
  import Db2

  // ---- exclusive lease, cap, queue ----

  /**
   No job serves two sessions, none is idle twice or idle while in use; before
   shutdown every registered job is idle or in the hands of exactly one session.
   */
  lemma ExclusiveLease(run: seq<System>, acts: seq<Action>, cfg: Config, k: nat)
    requires IsRun(run, acts, cfg) && k < |run|
    ensures var S := run[k];
      && (forall i, j :: 0 <= i < j < |S.sessions| && Uses(S.sessions[i]).Some? ==>
            Uses(S.sessions[i]) != Uses(S.sessions[j]))
      && Distinct(S.pool.idle)
      && (forall i :: 0 <= i < |S.sessions| && Uses(S.sessions[i]).Some? ==>
            Uses(S.sessions[i]).value !in S.pool.idle)
      && (!S.pool.ending ==> forall j :: j in S.pool.all ==>
            (j in S.pool.idle && j !in S.pool.leased)
            || exists i :: 0 <= i < |S.sessions| && Uses(S.sessions[i]) == Some(j))
  {
    RunInv(run, acts, cfg, k);
    var S := run[k];
    forall i | 0 <= i < |S.sessions| && Uses(S.sessions[i]).Some?
      ensures Uses(S.sessions[i]).value in S.place && S.place[Uses(S.sessions[i]).value] == With(i)
    {
      WantsNoJob(S, i);
    }
    hide SessionsOk, Uses, CapOk, QueueOk;
    if !S.pool.ending {
      forall j | j in S.pool.all
        ensures (j in S.pool.idle && j !in S.pool.leased)
                || exists i :: 0 <= i < |S.sessions| && Uses(S.sessions[i]) == Some(j)
      {
        assert Registered(S, j);
        if S.place[j].With? { assert Uses(S.sessions[S.place[j].who]) == Some(j); }
      }
    }
  }

  /** A lease begins only with a grant, and ends only through release or invalidate; it never changes to another job. */
  predicate LeaseStep(s: Session, t: Session) {
    || Uses(t) == Uses(s)
    || (Uses(s) == None && t.pc.Granted?)
    || (Uses(t) == None && (s.pc.Releasing? || s.pc.Resetting? || s.pc.Closing?))
  }

  lemma OwnLeaseStep(S: System, cfg: Config, a: Action)
    requires Inv(S, cfg) && Enabled(S, a) && (SessionAction(S, a) || a.OpSettled?)
    ensures LeaseStep(S.sessions[a.who], Next(S, cfg, a).sessions[a.who])
  {
    var s := S.sessions[a.who];
    if a.OpSettled? {
      assert SessionOk(S, a.who);
      hide Inv, Resume, OpAt, Fits, WellFormed;
      var job := S.jobs[s.job.value];
      if Db2.Perform(job, OpAt(s, a.who, s.pc.m, s.pc.at, a.creates)).Applied? {
        OpGood(a.who, s, a.creates, cfg.retries, job);
      }
      FailedOpGood(a.who, s, a.transport, cfg.retries, job);
    } else {
      hide Inv, Next, Shadow, Matches;
      SessionMatches(S, cfg, a);
    }
  }

  lemma SettleLetsGo(s: Session, m: Msg, ok: bool)
    requires s.job.None?
    ensures Uses(Settle(s, m, ok)) == None
  {
  }

  lemma ContinueLetsGo(s: Session, m: Msg, next: Then)
    requires s.job.None?
    ensures Uses(Continue(s, m, next)) == None
  {
    hide Settle;
    if next.Finish? { SettleLetsGo(s, m, next.ok); }
  }

  lemma OnwardLeaseStep(s: Session)
    requires Holding(s)
    ensures LeaseStep(s, Onward(s))
  {
    hide Settle, Continue;
    match s.pc {
      case Releasing(m, _, ok) => SettleLetsGo(s, m, ok);
      case Resetting(m, _, ok, _) => SettleLetsGo(s, m, ok);
      case Closing(m, _, next, _) => ContinueLetsGo(s, m, next);
      case Replacing(m, next) => ContinueLetsGo(s, m, next);
      case _ =>
    }
  }

  lemma PoolLeaseStep(s: Session, t: Session, caller: bool)
    requires PoolTurn(s, t, caller) && Holding(s)
    ensures LeaseStep(s, t)
  {
    hide Onward;
    if t == Onward(s) { OnwardLeaseStep(s); }
  }

  /** Every acquire is matched by one release or one invalidate: a lease is never dropped, doubled or exchanged. */
  lemma LeaseLifecycle(S: System, cfg: Config, a: Action, k: SessionId)
    requires Inv(S, cfg) && Enabled(S, a) && k < |S.sessions|
    ensures k < |Next(S, cfg, a).sessions| && LeaseStep(S.sessions[k], Next(S, cfg, a).sessions[k])
  {
    hide Next, LeaseStep, PoolTurn, Fits, Uses, PoolOk, PlacesOk, IdleOk;
    if SessionAction(S, a) || a.OpSettled? {
      OwnLeaseStep(S, cfg, a);
      BystanderStays(S, cfg, a, k);
    } else {
      NextTurns(S, cfg, a);
      assert SessionOk(S, k);
      PoolLeaseStep(S.sessions[k], Next(S, cfg, a).sessions[k], Caller(a, k));
    }
  }

  lemma BystanderStays(S: System, cfg: Config, a: Action, k: SessionId)
    requires Enabled(S, a) && (SessionAction(S, a) || a.OpSettled?) && k < |S.sessions|
    ensures |Next(S, cfg, a).sessions| == |S.sessions|
    ensures k != a.who ==> Next(S, cfg, a).sessions[k] == S.sessions[k]
    ensures LeaseStep(S.sessions[k], S.sessions[k])
  {
    hide Next, Uses;
    NextIsLocal(S, cfg, a);
  }

  /** The cap holds with connections in flight counted, and nobody waits beside an idle job. */
  lemma CapAndQueue(run: seq<System>, acts: seq<Action>, cfg: Config, k: nat)
    requires IsRun(run, acts, cfg) && k < |run|
    ensures var p := run[k].pool;
      && 0 <= p.creating && |p.all| + p.creating <= cfg.limits.maxSize
      && (p.waiters != [] ==> p.idle == [])
      && Distinct(p.waiters)
      && forall i: SessionId :: i in p.waiters <==> i < |run[k].sessions| && run[k].sessions[i].pc.Waiting?
  {
    RunInv(run, acts, cfg, k);
  }

  /** Nobody waits for nothing: acquire queues a session exactly when no job is idle and the pool is at its maximum. */
  lemma QueuedWhenFull(S: System, cfg: Config, i: SessionId)
    requires Inv(S, cfg) && Enabled(S, Acquiring(i)) && !S.pool.ending
    ensures var pc := DoAcquire(S, cfg, i).sessions[i].pc;
      && (pc.Waiting? <==> S.pool.idle == [] && |S.pool.all| + S.pool.creating == cfg.limits.maxSize)
      && (pc.Connecting? <==> S.pool.idle == [] && |S.pool.all| + S.pool.creating < cfg.limits.maxSize)
      && (pc.Granted? <==> S.pool.idle != [])
  {
    CapBound(S, cfg);
    hide Inv;
  }

  /** A discarded job is replaced exactly when the pool has fallen below its starting size and is not shutting down. */
  lemma RefilledBelowStart(S: System, cfg: Config, i: SessionId)
    requires Enabled(S, JobClosed(i)) && S.sessions[i].pc.refill
    ensures var T := DoClosed(S, cfg, i);
      var low := !S.pool.ending && |S.pool.all| + S.pool.creating < cfg.limits.startingSize;
      && (T.sessions[i].pc.Replacing? <==> low)
      && T.pool == S.pool.(creating := S.pool.creating + if low then 1 else 0)
  {
    var s := S.sessions[i];
    ContinuePlain(s, s.pc.m, s.pc.next);
    hide Continue;
  }

  /** createTrackedJob gives the reservation back one microtask before acquire registers the job. */
  function ReservationReturned(p: Pool): Pool { p.(creating := p.creating - 1) }

  function JobRegistered(p: Pool, job: JobId): Pool {
    p.(all := p.all + {job}, leased := p.leased + {job})
  }

  /**
   Why the hand-over of a new connection has to be one step: an acquire in the
   gap takes the pool over its maximum exactly when it stood at the maximum.
   */
  lemma GapBreaksCap(p: Pool, limits: Limits, job: JobId, who: SessionId)
    requires !p.ending && p.idle == [] && p.creating > 0 && job !in p.all
    requires |p.all| + p.creating <= limits.maxSize
    ensures var asked := Acquire(ReservationReturned(p), limits, who); var q := JobRegistered(asked.0, job);
      && asked.1.Connect?
      && (|q.all| + q.creating > limits.maxSize <==> |p.all| + p.creating == limits.maxSize)
    ensures Connected(p, job) == JobRegistered(ReservationReturned(p), job)
  {
  }

  /** How an action changes the queue. */
  predicate QueueStep(S: System, T: System, a: Action) {
    var q := S.pool.waiters; var r := T.pool.waiters;
    || r == q
    || (a.Acquiring? && r == q + [a.who] && a.who < |T.sessions| && T.sessions[a.who].pc.Waiting?)
    || (q != [] && r == q[1..] && q[0] < |T.sessions| && T.sessions[q[0]].pc.Granted?
        && (a.ResetSettled? || a.ReplacementConnected?))
    || (a.LeaseTimeout? && r == Without(q, a.who) && a.who in q && a.who < |T.sessions| && T.sessions[a.who].pc.Refused?)
    || (a.PoolEnding? && r == [] && forall i :: i in q ==> i < |T.sessions| && T.sessions[i].pc.Refused?)
  }

  lemma ResetQueueStep(S: System, cfg: Config, i: SessionId, ok: bool)
    requires Inv(S, cfg) && Enabled(S, ResetSettled(i, ok))
    ensures QueueStep(S, DoReset(S, cfg, i, ok), ResetSettled(i, ok))
  {
    hide Settle, Inv;
    if Resets(S, i) && ok && S.pool.waiters != [] {
      ResetForWaiter(S, cfg, i);
      hide DoReset;
    }
  }

  lemma ReplacedQueueStep(S: System, cfg: Config, i: SessionId)
    requires Inv(S, cfg) && Enabled(S, ReplacementConnected(i))
    ensures QueueStep(S, DoReplaced(S, cfg, i), ReplacementConnected(i))
  {
    hide Continue, Inv;
    if S.pool.waiters != [] {
      ReplacedForWaiter(S, cfg, i);
      hide DoReplaced;
    }
  }

  lemma AskQueueStep(S: System, cfg: Config, a: Action)
    requires Inv(S, cfg) && Enabled(S, a) && (a.Acquiring? || a.LeaseTimeout? || a.PoolEnding?)
    ensures QueueStep(S, Next(S, cfg, a), a)
  {
    hide JobsOk, CapOk, BooksOk;
  }

  lemma QueueStays(S: System, cfg: Config, a: Action)
    requires Enabled(S, a) && !a.Acquiring? && !a.LeaseTimeout? && !a.PoolEnding? && !a.ResetSettled? && !a.ReplacementConnected?
    ensures Next(S, cfg, a).pool.waiters == S.pool.waiters
  {
    hide Receive, Close, TakeLease, LeaseDenied, Begun, Resume, Settle, Continue;
  }

  /**
   A waiter leaves the queue in one of three ways, each settling it once: the
   head is granted a job, it times out, or the pool shuts down.  Nobody else
   moves.
   */
  lemma WaiterSettled(S: System, cfg: Config, a: Action)
    requires Inv(S, cfg) && Enabled(S, a)
    ensures QueueStep(S, Next(S, cfg, a), a)
  {
    hide QueueStep, Inv, Enabled, DoAcquire, DoConnected, DoOp, DoRelease, DoReset, DoInvalidate, DoClosed, DoReplaced;
    match a {
      case ResetSettled(i, ok) => ResetQueueStep(S, cfg, i, ok);
      case ReplacementConnected(i) => ReplacedQueueStep(S, cfg, i);
      case Acquiring(_) => AskQueueStep(S, cfg, a);
      case LeaseTimeout(_) => AskQueueStep(S, cfg, a);
      case PoolEnding => AskQueueStep(S, cfg, a);
      case _ => QueueStays(S, cfg, a); SameQueue(S, Next(S, cfg, a), a);
    }
  }

  lemma SameQueue(S: System, T: System, a: Action)
    requires T.pool.waiters == S.pool.waiters
    ensures QueueStep(S, T, a)
  {
  }

  ghost predicate Ahead(q: seq<SessionId>, x: SessionId, y: SessionId) {
    exists k, l :: 0 <= k < l < |q| && q[k] == x && q[l] == y
  }

  lemma {:induction false} AheadWithout(q: seq<SessionId>, who: SessionId, x: SessionId, y: SessionId)
    requires Distinct(q) && Ahead(q, x, y) && x != who && y != who
    ensures Ahead(Without(q, who), x, y)
  {
    var k, l :| 0 <= k < l < |q| && q[k] == x && q[l] == y;
    var r := Without(q, who);
    if q[0] == who {
      assert r[k - 1] == x && r[l - 1] == y;
    } else if k > 0 {
      assert q[1..][k - 1] == x && q[1..][l - 1] == y;
      AheadWithout(q[1..], who, x, y);
      var k', l' :| 0 <= k' < l' < |Without(q[1..], who)|
        && Without(q[1..], who)[k'] == x && Without(q[1..], who)[l'] == y;
      assert r[k' + 1] == x && r[l' + 1] == y;
    } else {
      WithoutMembers(q[1..], who);
      assert q[1..][l - 1] == y;
      assert y in q[1..] && y in Without(q[1..], who);
      var l' :| 0 <= l' < |Without(q[1..], who)| && Without(q[1..], who)[l'] == y;
      assert r[0] == x && r[l' + 1] == y;
    }
  }

  /** A queue of which the head left keeps its order. */
  lemma AheadRest(q: seq<SessionId>, x: SessionId, y: SessionId)
    requires Distinct(q) && Ahead(q, x, y)
    ensures x in q[1..] ==> Ahead(q[1..], x, y)
    ensures y in q && y != q[0]
  {
    var k, l :| 0 <= k < l < |q| && q[k] == x && q[l] == y;
    assert q[1..][l - 1] == y;
    if k > 0 { assert q[1..][k - 1] == x; }
  }

  lemma AheadJoined(q: seq<SessionId>, who: SessionId, x: SessionId, y: SessionId)
    requires Ahead(q, x, y)
    ensures Ahead(q + [who], x, y)
  {
    var k, l :| 0 <= k < l < |q| && q[k] == x && q[l] == y;
    assert (q + [who])[k] == x && (q + [who])[l] == y;
  }

  /** First come, first served: nobody is granted a job while someone ahead of them waits, and the order stays. */
  lemma NoOvertaking(S: System, cfg: Config, a: Action, x: SessionId, y: SessionId)
    requires Inv(S, cfg) && Enabled(S, a) && cfg.limits.startingSize <= cfg.limits.maxSize
    requires Ahead(S.pool.waiters, x, y)
    ensures var T := Next(S, cfg, a);
      && !(y < |T.sessions| && T.sessions[y].pc.Granted?)
      && (x in T.pool.waiters && y in T.pool.waiters ==> Ahead(T.pool.waiters, x, y))
  {
    hide Next, JobsOk, CapOk, BooksOk, Ahead;
    var T := Next(S, cfg, a);
    var q := S.pool.waiters;
    NextKeepsInv(S, cfg, a);
    WaiterSettled(S, cfg, a);
    AheadRest(q, x, y);
    if a.Acquiring? && T.pool.waiters == q + [a.who] {
      AheadJoined(q, a.who, x, y);
    } else if a.LeaseTimeout? {
      WithoutMembers(q, a.who);
      if x != a.who && y != a.who { AheadWithout(q, a.who, x, y); }
    }
  }

  // ---- refinement ----

  /** Before anything happened, every session has an empty backend of its own. */
  predicate Untried(b: PB.Backend) {
    b == PB.Backend(b.schema, PB.Idle, false, 0, [], [], None)
  }

  /** From S to T clients see one step of the acting session on its own backend, or nothing. */
  predicate PrivateStep(S: System, cfg: Config, a: Action, T: System)
    requires Enabled(S, a)
  {
    if SessionAction(S, a) || a.OpSettled? then
      && PB.CanAdvance(View(S), a.who, Shadow(S, cfg, a))
      && View(T) == PB.Advance(View(S), a.who, Shadow(S, cfg, a))
    else View(T) == View(S)
  }

  lemma StepRefines(run: seq<System>, acts: seq<Action>, cfg: Config, k: nat)
    requires IsRun(run, acts, cfg) && k < |acts|
    ensures PrivateStep(run[k], cfg, acts[k], run[k + 1])
  {
    RunInv(run, acts, cfg, k);
    hide Inv, Next, Shadow, PB.Advance, View;
    if SessionAction(run[k], acts[k]) {
      SessionRefines(run[k], cfg, acts[k]);
    } else if acts[k].OpSettled? {
      OpRefines(run[k], cfg, acts[k]);
    } else {
      PoolRefines(run[k], cfg, acts[k]);
    }
  }

  /**
   Every run over the shared pool is a run of private backends: each action is a
   step of its session on its own backend, or changes nothing a client can see.
   */
  lemma PoolingRefinesPrivateBackends(run: seq<System>, acts: seq<Action>, cfg: Config)
    requires IsRun(run, acts, cfg)
    ensures forall i :: 0 <= i < |run[0].sessions| ==> Untried(View(run[0]).backends[i])
    ensures View(run[0]).committed == []
    ensures forall k :: 0 <= k < |acts| ==> PrivateStep(run[k], cfg, acts[k], run[k + 1])
  {
    forall k | 0 <= k < |acts| ensures PrivateStep(run[k], cfg, acts[k], run[k + 1]) {
      StepRefines(run, acts, cfg, k);
    }
    forall i | 0 <= i < |run[0].sessions| ensures Untried(View(run[0]).backends[i]) {
      assert run[0].sessions[i] == Fresh(run[0].sessions[i].schema);
    }
  }

  lemma StepSound(S: System, cfg: Config, a: Action, T: System)
    requires Enabled(S, a) && PrivateStep(S, cfg, a, T) && PB.Sound(View(S))
    ensures PB.Sound(View(T))
  {
    hide View, Shadow, PB.Sound, PB.Advance, PB.CanAdvance;
    if SessionAction(S, a) || a.OpSettled? { PB.AdvanceSound(View(S), a.who, Shadow(S, cfg, a)); }
  }

  lemma StartsSound(run: seq<System>, acts: seq<Action>, cfg: Config)
    requires IsRun(run, acts, cfg)
    ensures PB.Sound(View(run[0]))
  {
    PoolingRefinesPrivateBackends(run, acts, cfg);
    hide IsRun, View, PrivateStep;
  }

  lemma {:induction false} RunSound(run: seq<System>, acts: seq<Action>, cfg: Config, k: nat)
    requires IsRun(run, acts, cfg) && k < |run|
    ensures PB.Sound(View(run[k]))
  {
    hide View, PB.Sound, PrivateStep, Next;
    if k == 0 {
      StartsSound(run, acts, cfg);
    } else {
      RunSound(run, acts, cfg, k - 1);
      StepRefines(run, acts, cfg, k - 1);
      StepSound(run[k - 1], cfg, acts[k - 1], run[k]);
    }
  }

  /**
   All or nothing: once any write of a transaction is durable, the durable part
   of that transaction never changes again.
   */
  lemma {:induction false} AtomicDurability(run: seq<System>, acts: seq<Action>, cfg: Config, k: nat, l: nat, who: SessionId, txn: nat)
    requires IsRun(run, acts, cfg) && k <= l < |run|
    requires PB.OfTxn(run[k].committed, who, txn) != []
    ensures PB.OfTxn(run[l].committed, who, txn) == PB.OfTxn(run[k].committed, who, txn)
    decreases l - k
  {
    if k < l {
      RunSound(run, acts, cfg, k);
      StepRefines(run, acts, cfg, k);
      assert View(run[k]).committed == run[k].committed && View(run[k + 1]).committed == run[k + 1].committed;
      hide View, Shadow, PB.Advance, PB.OfTxn, PB.Sound, IsRun;
      if View(run[k + 1]) != View(run[k]) {
        PB.DurableOnce(View(run[k]), acts[k].who, Shadow(run[k], cfg, acts[k]), who, txn);
      }
      AtomicDurability(run, acts, cfg, k + 1, l, who, txn);
    }
  }

  /** What becomes durable in one action is the whole unit of work of one session whose block has not failed. */
  lemma DurableTogether(run: seq<System>, acts: seq<Action>, cfg: Config, k: nat)
    requires IsRun(run, acts, cfg) && k < |acts|
    requires run[k + 1].committed != run[k].committed
    ensures acts[k].OpSettled? && acts[k].who < |run[k].sessions|
    ensures var b := View(run[k]).backends[acts[k].who];
      !b.failed && run[k + 1].committed == run[k].committed + b.pending
      && View(run[k + 1]).backends[acts[k].who].pending == []
  {
    StepRefines(run, acts, cfg, k);
    assert View(run[k]).committed == run[k].committed && View(run[k + 1]).committed == run[k + 1].committed;
    OnlyOpsCommit(run[k], cfg, acts[k]);
    hide View, Shadow, PB.Advance, Next;
    PB.DurableTogether(View(run[k]), acts[k].who, Shadow(run[k], cfg, acts[k]));
  }

  lemma OnlyOpsCommit(S: System, cfg: Config, a: Action)
    requires Enabled(S, a)
    ensures Next(S, cfg, a).committed == S.committed || a.OpSettled?
  {
    hide Next, PoolTurn;
    if OwnSpan(a) { SessionFrame(S, cfg, a); } else if !a.OpSettled? { NextTurns(S, cfg, a); }
  }
}
