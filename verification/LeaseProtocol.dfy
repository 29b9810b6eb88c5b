/**
 Many sessions over one pool of jobs and one committed store.  Every enabled
 action is one span between two awaits of some session, or one span of end().
 Sessions interleave freely; a session handles one message at a time and is
 closed only between messages.

 `place` is a history variable: it records for every job ever connected whether
 it is idle, with one session, or gone.
 */
module LeaseProtocol {
  import opened Wrappers
  import opened JobPool
  import opened Sessions
  import Db2

  datatype Config = Config(limits: Limits, defaultSchema: string, retries: nat)

  datatype Place = InIdle | With(who: SessionId) | Gone

  datatype System = System(
    sessions: seq<Session>,
    pool: Pool,
    jobs: map<JobId, Db2.Job>,
    place: map<JobId, Place>,
    nextJob: JobId,
    committed: seq<Db2.Write>
  )

  datatype Action =
    | Receiving(who: SessionId, msg: Msg)
    | SocketClosing(who: SessionId)
    | Acquiring(who: SessionId)
    | JobConnected(who: SessionId)
    | JobConnectFailed(who: SessionId)
    | LeaseTimeout(who: SessionId)
    | LeaseTaken(who: SessionId)
    | LeaseRefused(who: SessionId)
    | BodyStarting(who: SessionId)
    | OpSettled(who: SessionId, ok: bool, transport: bool, creates: bool)
    | ReleaseCalled(who: SessionId)
    | ResetSettled(who: SessionId, ok: bool)
    | InvalidateCalled(who: SessionId)
    | JobClosed(who: SessionId)
    | ReplacementConnected(who: SessionId)
    | ReplacementFailed(who: SessionId)
    | PoolEnding
    | PoolEnded

  predicate Enabled(S: System, a: Action) {
    match a
    case PoolEnding => !S.pool.ending
    case PoolEnded => S.pool.ending
    case _ =>
      a.who < |S.sessions| &&
      var pc := S.sessions[a.who].pc;
      match a
      case Receiving(_, _) => pc.Ready?
      case SocketClosing(_) => pc.Ready? && !S.sessions[a.who].closed
      case Acquiring(_) => pc.WantLease?
      case JobConnected(_) => pc.Connecting?
      case JobConnectFailed(_) => pc.Connecting?
      case LeaseTimeout(_) => pc.Waiting?
      case LeaseTaken(_) => pc.Granted?
      case LeaseRefused(_) => pc.Refused?
      case BodyStarting(_) => pc.Start?
      case OpSettled(_, _, _, _) => pc.Awaiting? && S.sessions[a.who].job.Some? && S.sessions[a.who].job.value in S.jobs
      case ReleaseCalled(_) => pc.Releasing?
      case ResetSettled(_, _) => pc.Resetting? && pc.lease in S.jobs
      case InvalidateCalled(_) => pc.Invalidating?
      case JobClosed(_) => pc.Closing?
      case ReplacementConnected(_) => pc.Replacing?
      case ReplacementFailed(_) => pc.Replacing?
  }

  function Put(S: System, who: SessionId, s: Session): System
    requires who < |S.sessions|
  {
    S.(sessions := S.sessions[who := s])
  }

  function Turn(S: System, who: SessionId, pc: Pc): System
    requires who < |S.sessions|
  {
    Put(S, who, S.sessions[who].(pc := pc))
  }

  /** A waiter is resolved with a job. */
  function Grant(S: System, who: SessionId, job: JobId): System {
    if who < |S.sessions| && S.sessions[who].pc.Waiting?
    then Turn(S, who, Granted(S.sessions[who].pc.m, S.sessions[who].pc.mode, job)).(place := S.place[job := With(who)])
    else S
  }

  function NewJob(cfg: Config): Db2.Job { Db2.Job(cfg.defaultSchema, [], []) }

  /** pool.acquire(), first span. */
  function DoAcquire(S: System, cfg: Config, who: SessionId): System
    requires who < |S.sessions| && S.sessions[who].pc.WantLease?
  {
    var pc := S.sessions[who].pc;
    var (pool, answer) := Acquire(S.pool, cfg.limits, who);
    var S1 := S.(pool := pool);
    match answer
    case ShuttingDown => Turn(S1, who, Refused(pc.m, pc.mode))
    case Lease(job) => Turn(S1, who, Granted(pc.m, pc.mode, job)).(place := S.place[job := With(who)])
    case Connect => Turn(S1, who, Connecting(pc.m, pc.mode))
    case Queued => Turn(S1, who, Waiting(pc.m, pc.mode))
  }

  function DoConnected(S: System, cfg: Config, who: SessionId): System
    requires who < |S.sessions| && S.sessions[who].pc.Connecting?
  {
    var pc := S.sessions[who].pc;
    var job := S.nextJob;
    Turn(S, who, Granted(pc.m, pc.mode, job)).(
      pool := Connected(S.pool, job),
      jobs := S.jobs[job := NewJob(cfg)],
      place := S.place[job := With(who)],
      nextJob := job + 1)
  }

  /** A Db2 operation of the session's own job settles; failure has no effect on the job. */
  function DoOp(S: System, cfg: Config, who: SessionId, ok: bool, transport: bool, creates: bool): System
    requires who < |S.sessions| && S.sessions[who].pc.Awaiting?
    requires S.sessions[who].job.Some? && S.sessions[who].job.value in S.jobs
  {
    var s := S.sessions[who];
    var job := s.job.value;
    var effect := Db2.Perform(S.jobs[job], OpAt(s, who, s.pc.m, s.pc.at, creates));
    if ok && effect.Applied? then
      Put(S, who, Resume(s, true, false, cfg.retries)).(
        jobs := S.jobs[job := effect.job], committed := S.committed + effect.durable)
    else Put(S, who, Resume(s, false, transport, cfg.retries))
  }

  function DoRelease(S: System, who: SessionId): System
    requires who < |S.sessions| && S.sessions[who].pc.Releasing?
  {
    var s := S.sessions[who];
    var (pool, known) := ReleaseStart(S.pool, s.pc.lease);
    if known then Turn(S.(pool := pool), who, Resetting(s.pc.m, s.pc.lease, s.pc.ok, RollingBack))
    else Put(S, who, Settle(s, s.pc.m, s.pc.ok)).(place := S.place[s.pc.lease := Gone])
  }

  /** release() between its operations: ROLLBACK, SET CURRENT SCHEMA, hand-over. */
  function DoReset(S: System, cfg: Config, who: SessionId, ok: bool): System
    requires who < |S.sessions| && S.sessions[who].pc.Resetting? && S.sessions[who].pc.lease in S.jobs
  {
    var s := S.sessions[who];
    var pc := s.pc;
    if !ok then Turn(S, who, Invalidating(pc.m, pc.lease, Finish(pc.ok)))
    else if pc.stage.RollingBack? then
      Turn(S, who, pc.(stage := ResettingSchema)).(
        jobs := S.jobs[pc.lease := S.jobs[pc.lease].(pending := [], marks := [])])
    else
      var S1 := S.(jobs := S.jobs[pc.lease := S.jobs[pc.lease].(schema := cfg.defaultSchema)]);
      var (pool, handoff) := ReleaseEnd(S.pool, pc.lease);
      var S2 := S1.(pool := pool);
      match handoff
      case ToWaiter(w) => Grant(Put(S2, who, Settle(s, pc.m, pc.ok)), w, pc.lease)
      case ToIdle => Put(S2, who, Settle(s, pc.m, pc.ok)).(place := S.place[pc.lease := InIdle])
      case ToClose => Turn(S2, who, Closing(pc.m, pc.lease, Finish(pc.ok), false))
  }

  function DoInvalidate(S: System, who: SessionId): System
    requires who < |S.sessions| && S.sessions[who].pc.Invalidating?
  {
    var pc := S.sessions[who].pc;
    Turn(S, who, Closing(pc.m, pc.lease, pc.next, true)).(pool := InvalidateStart(S.pool, pc.lease))
  }

  function DoClosed(S: System, cfg: Config, who: SessionId): System
    requires who < |S.sessions| && S.sessions[who].pc.Closing?
  {
    var s := S.sessions[who];
    var S1 := S.(place := S.place[s.pc.lease := Gone]);
    var (pool, refill) := Refill(S.pool, cfg.limits);
    if s.pc.refill && refill
    then Turn(S1.(pool := pool), who, Replacing(s.pc.m, s.pc.next))
    else Put(S1, who, Continue(s, s.pc.m, s.pc.next))
  }

  function DoReplaced(S: System, cfg: Config, who: SessionId): System
    requires who < |S.sessions| && S.sessions[who].pc.Replacing?
  {
    var s := S.sessions[who];
    var job := S.nextJob;
    var (pool, handoff) := Replaced(S.pool, job);
    var S1 := Put(S, who, Continue(s, s.pc.m, s.pc.next)).(
      pool := pool, jobs := S.jobs[job := NewJob(cfg)], nextJob := job + 1, place := S.place[job := InIdle]);
    match handoff
    case ToWaiter(w) => Grant(S1, w, job)
    case _ => S1
  }

  /** Every waiter is rejected with the shutdown error. */
  function Reject(ss: seq<Session>): (rs: seq<Session>)
    ensures |rs| == |ss|
    ensures forall i :: 0 <= i < |ss| ==>
      rs[i] == if ss[i].pc.Waiting? then ss[i].(pc := Refused(ss[i].pc.m, ss[i].pc.mode)) else ss[i]
  {
    if ss == [] then []
    else
      var s := ss[|ss| - 1];
      Reject(ss[..|ss| - 1]) + [if s.pc.Waiting? then s.(pc := Refused(s.pc.m, s.pc.mode)) else s]
  }

  function Next(S: System, cfg: Config, a: Action): System
    requires Enabled(S, a)
  {
    match a
    case Receiving(i, m) => Put(S, i, Receive(S.sessions[i], m))
    case SocketClosing(i) => Put(S, i, Close(S.sessions[i]))
    case Acquiring(i) => DoAcquire(S, cfg, i)
    case JobConnected(i) => DoConnected(S, cfg, i)
    case JobConnectFailed(i) => Turn(S, i, Refused(S.sessions[i].pc.m, S.sessions[i].pc.mode)).(pool := ConnectFailed(S.pool))
    case LeaseTimeout(i) => Turn(S, i, Refused(S.sessions[i].pc.m, S.sessions[i].pc.mode)).(pool := WaitTimedOut(S.pool, i))
    case LeaseTaken(i) => Put(S, i, TakeLease(S.sessions[i]))
    case LeaseRefused(i) => Put(S, i, LeaseDenied(S.sessions[i]))
    case BodyStarting(i) => Put(S, i, Begun(S.sessions[i]))
    case OpSettled(i, ok, transport, creates) => DoOp(S, cfg, i, ok, transport, creates)
    case ReleaseCalled(i) => DoRelease(S, i)
    case ResetSettled(i, ok) => DoReset(S, cfg, i, ok)
    case InvalidateCalled(i) => DoInvalidate(S, i)
    case JobClosed(i) => DoClosed(S, cfg, i)
    case ReplacementConnected(i) => DoReplaced(S, cfg, i)
    case ReplacementFailed(i) =>
      Put(S, i, Continue(S.sessions[i], S.sessions[i].pc.m, S.sessions[i].pc.next)).(pool := ConnectFailed(S.pool))
    case PoolEnding => S.(pool := EndStart(S.pool), sessions := Reject(S.sessions))
    case PoolEnded =>
      S.(pool := EndFinish(S.pool),
         place := map j | j in S.place :: if S.place[j].InIdle? then Gone else S.place[j])
  }

  // ---- what an action does to the sessions ----

  /** Spans of a session's own handler; the other actions are the pool's. */
  predicate OwnSpan(a: Action) {
    a.Receiving? || a.SocketClosing? || a.LeaseTaken? || a.LeaseRefused? || a.BodyStarting?
  }

  /** Whether session `k` called the pool function that the action is a span of. */
  predicate Caller(a: Action, k: SessionId) {
    !a.PoolEnding? && !a.PoolEnded? && a.who == k
  }

  /** A session that wants a job is answered. */
  predicate AskTurn(s: Session, t: Session) {
    && t == s.(pc := t.pc)
    && match s.pc
       case WantLease(m, mode) =>
         t.pc == Refused(m, mode) || t.pc == Connecting(m, mode) || t.pc == Waiting(m, mode)
         || (t.pc.Granted? && t.pc == Granted(m, mode, t.pc.lease))
       case Connecting(m, mode) => t.pc == Refused(m, mode) || (t.pc.Granted? && t.pc == Granted(m, mode, t.pc.lease))
       case Waiting(m, mode) => t.pc == Refused(m, mode) || (t.pc.Granted? && t.pc == Granted(m, mode, t.pc.lease))
       case _ => false
  }

  /** The pool's work on a job that was given back goes on. */
  predicate CallGoesOn(before: Pc, after: Pc) {
    match before
    case Releasing(m, lease, ok) => after == Resetting(m, lease, ok, RollingBack)
    case Resetting(m, lease, ok, _) =>
      after == Resetting(m, lease, ok, ResettingSchema)
      || after == Invalidating(m, lease, Finish(ok)) || after == Closing(m, lease, Finish(ok), false)
    case Invalidating(m, lease, next) => after == Closing(m, lease, next, true)
    case Closing(m, _, next, _) => after == Replacing(m, next)
    case _ => false
  }

  /** What a session goes on with when its pool call has returned. */
  function Onward(s: Session): Session {
    match s.pc
    case Releasing(m, _, ok) => Settle(s, m, ok)
    case Resetting(m, _, ok, _) => Settle(s, m, ok)
    case Closing(m, _, next, _) => Continue(s, m, next)
    case Replacing(m, next) => Continue(s, m, next)
    case _ => s
  }

  predicate ReturnTurn(s: Session, t: Session) {
    t == Onward(s) || (t == s.(pc := t.pc) && CallGoesOn(s.pc, t.pc))
  }

  /** A pool action turns the session that called, and answers waiting ones; the others stay. */
  predicate PoolTurn(s: Session, t: Session, caller: bool) {
    t == s || ((caller || s.pc.Waiting?) && AskTurn(s, t)) || (caller && ReturnTurn(s, t))
  }

  /** Every session is turned by the action as PoolTurn says, and nothing becomes durable. */
  ghost predicate PoolTurns(S: System, T: System, a: Action) {
    && |T.sessions| == |S.sessions| && T.committed == S.committed
    && forall k :: 0 <= k < |S.sessions| ==> PoolTurn(S.sessions[k], T.sessions[k], Caller(a, k))
  }

  lemma Answers(s: Session)
    ensures s.pc.WantLease? || s.pc.Connecting? || s.pc.Waiting? ==> AskTurn(s, s.(pc := Refused(s.pc.m, s.pc.mode)))
    ensures s.pc.WantLease? ==> AskTurn(s, s.(pc := Connecting(s.pc.m, s.pc.mode)))
    ensures s.pc.WantLease? ==> AskTurn(s, s.(pc := Waiting(s.pc.m, s.pc.mode)))
    ensures s.pc.WantLease? || s.pc.Connecting? || s.pc.Waiting? ==>
      forall j: JobId :: AskTurn(s, s.(pc := Granted(s.pc.m, s.pc.mode, j)))
  {
  }

  lemma AcquireTurns(S: System, cfg: Config, i: SessionId)
    requires Enabled(S, Acquiring(i))
    ensures PoolTurns(S, DoAcquire(S, cfg, i), Acquiring(i))
  {
    hide AskTurn, ReturnTurn;
    Answers(S.sessions[i]);
  }

  lemma AskTurns(S: System, cfg: Config, a: Action)
    requires Enabled(S, a) && (a.JobConnected? || a.JobConnectFailed? || a.LeaseTimeout?)
    ensures PoolTurns(S, Next(S, cfg, a), a)
  {
    hide AskTurn, ReturnTurn;
    Answers(S.sessions[a.who]);
  }

  lemma ReleaseTurns(S: System, cfg: Config, i: SessionId)
    requires Enabled(S, ReleaseCalled(i))
    ensures PoolTurns(S, DoRelease(S, i), ReleaseCalled(i))
  {
    hide Settle, AskTurn;
    assert ReturnTurn(S.sessions[i], DoRelease(S, i).sessions[i]);
    hide ReturnTurn;
  }

  lemma DiscardTurns(S: System, cfg: Config, a: Action)
    requires Enabled(S, a) && (a.InvalidateCalled? || a.ReplacementFailed?)
    ensures PoolTurns(S, Next(S, cfg, a), a)
  {
    hide Continue, AskTurn;
    assert ReturnTurn(S.sessions[a.who], Next(S, cfg, a).sessions[a.who]);
    hide ReturnTurn;
  }

  lemma ClosedTurns(S: System, cfg: Config, i: SessionId)
    requires Enabled(S, JobClosed(i))
    ensures PoolTurns(S, DoClosed(S, cfg, i), JobClosed(i))
  {
    hide Continue, AskTurn;
    assert ReturnTurn(S.sessions[i], DoClosed(S, cfg, i).sessions[i]);
    hide ReturnTurn;
  }

  lemma ResetTurns(S: System, cfg: Config, i: SessionId, ok: bool)
    requires Enabled(S, ResetSettled(i, ok)) && (!ok || S.sessions[i].pc.stage.RollingBack?)
    ensures PoolTurns(S, DoReset(S, cfg, i, ok), ResetSettled(i, ok))
  {
    hide AskTurn, Settle, Grant;
    assert ReturnTurn(S.sessions[i], DoReset(S, cfg, i, ok).sessions[i]);
    hide ReturnTurn;
  }

  /** The reset job goes to a waiter, to the idle list, or is closed. */
  lemma HandOverTurns(S: System, cfg: Config, i: SessionId)
    requires Enabled(S, ResetSettled(i, true)) && S.sessions[i].pc.stage.ResettingSchema?
    ensures PoolTurns(S, DoReset(S, cfg, i, true), ResetSettled(i, true))
  {
    hide AskTurn, ReturnTurn;
    var s := S.sessions[i];
    assert Settle(s, s.pc.m, s.pc.ok).pc == Ready;
    hide Settle;
    if S.pool.waiters != [] && S.pool.waiters[0] < |S.sessions| { Answers(S.sessions[S.pool.waiters[0]]); }
    HandedOver(s);
  }

  lemma HandedOver(s: Session)
    requires s.pc.Resetting?
    ensures ReturnTurn(s, Settle(s, s.pc.m, s.pc.ok))
    ensures ReturnTurn(s, s.(pc := Closing(s.pc.m, s.pc.lease, Finish(s.pc.ok), false)))
  {
    hide Settle;
  }

  lemma ReplacedTurns(S: System, cfg: Config, i: SessionId)
    requires Enabled(S, ReplacementConnected(i))
    ensures PoolTurns(S, DoReplaced(S, cfg, i), ReplacementConnected(i))
  {
    hide AskTurn;
    var s := S.sessions[i];
    assert !Continue(s, s.pc.m, s.pc.next).pc.Waiting?;
    hide Continue;
    if S.pool.waiters != [] && S.pool.waiters[0] < |S.sessions| { Answers(S.sessions[S.pool.waiters[0]]); }
    assert ReturnTurn(s, DoReplaced(S, cfg, i).sessions[i]);
    hide ReturnTurn;
  }

  lemma EndTurns(S: System, cfg: Config, a: Action)
    requires Enabled(S, a) && (a.PoolEnding? || a.PoolEnded?)
    ensures PoolTurns(S, Next(S, cfg, a), a)
  {
    hide ReturnTurn;
  }

  lemma NextTurns(S: System, cfg: Config, a: Action)
    requires Enabled(S, a) && !OwnSpan(a) && !a.OpSettled?
    ensures PoolTurns(S, Next(S, cfg, a), a)
  {
    hide PoolTurns, DoAcquire, DoConnected, DoOp, DoRelease, DoReset, DoInvalidate, DoClosed, DoReplaced;
    match a {
      case ResetSettled(i, ok) =>
        if !ok || S.sessions[i].pc.stage.RollingBack? { ResetTurns(S, cfg, i, ok); } else { HandOverTurns(S, cfg, i); }
      case ReplacementConnected(i) => ReplacedTurns(S, cfg, i);
      case PoolEnding => EndTurns(S, cfg, a);
      case PoolEnded => EndTurns(S, cfg, a);
      case Acquiring(i) => AcquireTurns(S, cfg, i);
      case ReleaseCalled(i) => ReleaseTurns(S, cfg, i);
      case InvalidateCalled(_) => DiscardTurns(S, cfg, a);
      case JobClosed(i) => ClosedTurns(S, cfg, i);
      case ReplacementFailed(_) => DiscardTurns(S, cfg, a);
      case _ => AskTurns(S, cfg, a);
    }
  }

  /** An action of one session leaves the others alone. */
  lemma NextIsLocal(S: System, cfg: Config, a: Action)
    requires Enabled(S, a) && (OwnSpan(a) || a.OpSettled?)
    ensures var T := Next(S, cfg, a);
      |T.sessions| == |S.sessions| && T.sessions == S.sessions[a.who := T.sessions[a.who]]
  {
    hide Receive, Close, TakeLease, LeaseDenied, Begun, Resume, OpAt, Db2.Perform;
  }

  lemma SizeKept(S: System, cfg: Config, a: Action)
    requires Enabled(S, a)
    ensures |Next(S, cfg, a).sessions| == |S.sessions|
  {
    hide Next, Enabled;
    if OwnSpan(a) || a.OpSettled? { NextIsLocal(S, cfg, a); } else { NextTurns(S, cfg, a); }
  }

  /** The state after SessionJobPool.init(): the starting jobs are idle, no session has a job. */
  ghost predicate Initial(S: System, cfg: Config) {
    && |S.pool.idle| == cfg.limits.startingSize <= cfg.limits.maxSize
    && (forall k :: 0 <= k < |S.pool.idle| ==> S.pool.idle[k] == k)
    && S.pool == Pool(S.pool.idle, {}, set j | j in S.pool.idle, [], 0, false)
    && S.nextJob == cfg.limits.startingSize
    && S.jobs == (map j | j in S.pool.idle :: NewJob(cfg))
    && S.place == (map j | j in S.pool.idle :: InIdle)
    && S.committed == []
    && forall i :: 0 <= i < |S.sessions| ==> S.sessions[i] == Fresh(S.sessions[i].schema)
  }

  /** A run: each state is followed by the result of one enabled action. */
  ghost predicate IsRun(run: seq<System>, acts: seq<Action>, cfg: Config) {
    && |run| == |acts| + 1
    && Initial(run[0], cfg)
    && forall k :: 0 <= k < |acts| ==> Enabled(run[k], acts[k]) && run[k + 1] == Next(run[k], cfg, acts[k])
  }
}
