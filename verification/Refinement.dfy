/**
 Transaction pooling refines private backends: whatever the interleaving of the
 sessions over the shared jobs, each action is a step of one session on a
 backend of its own, or no step at all.
 */
module Refinement {
  import opened Wrappers
  import opened JobPool
  import opened Sessions
  import opened SessionInvariant
  import opened LeaseProtocol
  import opened LeaseInvariant
  import PB = PrivateBackends
  import Db2

  predicate InAuto(pc: Pc) {
    pc.Awaiting? && (pc.at.AppRun? || pc.at.AutoCommit? || pc.at.AutoRollback?)
  }

  /** What the client of `s` sees, given the content of the job the session holds. */
  function Observe(s: Session, job: Option<Db2.Job>): PB.Backend {
    PB.Backend(
      s.schema,
      if s.inTxn && !s.closed then PB.Explicit else if InAuto(s.pc) then PB.Auto else PB.Idle,
      s.failed && !s.closed,
      s.txn,
      if job.Some? then job.value.pending else [],
      if job.Some? then job.value.marks else [],
      if s.closed then None
      else if s.pc.Awaiting? && s.pc.at.RestoreSchema? then Some(s.pc.at.saved)
      else if s.pc.Awaiting? && s.pc.at.RestoreCommit? then Some(s.pc.at.saved)
      else s.restore)
  }

  function HeldJob(s: Session, jobs: map<JobId, Db2.Job>): Option<Db2.Job> {
    if s.job.Some? && s.job.value in jobs then Some(jobs[s.job.value]) else None
  }

  function Backends(ss: seq<Session>, jobs: map<JobId, Db2.Job>): (bs: seq<PB.Backend>)
    ensures |bs| == |ss|
    ensures forall i :: 0 <= i < |ss| ==> bs[i] == Observe(ss[i], HeldJob(ss[i], jobs))
  {
    if ss == [] then []
    else Backends(ss[..|ss| - 1], jobs) + [Observe(ss[|ss| - 1], HeldJob(ss[|ss| - 1], jobs))]
  }

  function View(S: System): PB.World {
    PB.World(Backends(S.sessions, S.jobs), S.committed)
  }

  // ---- which private step an action is ----

  function SqlStep(s: Session, st: Stmt): PB.Step {
    match st
    case Begin => if s.failed || s.inTxn then PB.Stutter else PB.OpenBlock
    case CommitTxn =>
      if s.job.Some? || !s.inTxn then PB.Stutter
      else if s.failed then PB.Discard(s.restore.Some?)
      else PB.Commit(s.restore.Some?)
    case RollbackTxn =>
      if s.job.Some? || !s.inTxn then PB.Stutter else PB.Discard(s.restore.Some?)
    case SavepointCmd(action, _) =>
      if s.job.None? && s.inTxn && (!s.failed || action.RollbackToIt?) then PB.Poison else PB.Stutter
    case SetPath(_, local) =>
      if !s.failed && local && s.inTxn && s.restore.None? then PB.SaveSchema else PB.Stutter
    case CreateSchema(_, lookup) => if lookup.NoLookup? then AppStep(s) else PB.Stutter
    case App(_, _, lookup) => if !s.failed && lookup.NoLookup? then AppStep(s) else PB.Stutter
    case _ => PB.Stutter
  }

  function AppStep(s: Session): PB.Step {
    if !s.inTxn then PB.OpenAuto else if s.job.None? then PB.Poison else PB.Stutter
  }

  function BodyStep(s: Session, m: Msg): PB.Step {
    match m
    case Query(st) => SqlStep(s, st)
    case Execute(st) => SqlStep(s, st)
    case DescribePortal(st) => if RowsFromDb2(st) then AppStep(s) else PB.Stutter
    case Terminate => PB.Leave
    case _ => PB.Stutter
  }

  function ReceiveStep(s: Session, m: Msg): PB.Step {
    if s.closed || (s.skipping && !m.Sync? && !m.Terminate?) || (NeedsBackend(s, m) && s.job.None?)
    then PB.Stutter
    else BodyStep(s, m)
  }

  function BegunStep(s: Session): PB.Step
    requires s.pc.Start?
  {
    if s.pc.mode.First? then BodyStep(s, s.pc.m) else AppStep(s)
  }

  function DropStep(s: Session): PB.Step {
    if s.inTxn then PB.Stutter else PB.Discard(false)
  }

  function OpDone(s: Session, op: Db2.Op): PB.Step
    requires s.pc.Awaiting?
  {
    match s.pc.at
    case PrepareSchema(_) => if op.CreateMissingSchema? then PB.ProvideSchema(op.schema) else PB.Stutter
    case ReplayCommit(_) => if s.inTxn then PB.Stutter else PB.Commit(false)
    case Savepointing => PB.SavepointOp(op)
    case TxnCommit => if s.inTxn then PB.Commit(false) else PB.Stutter
    case TxnRollback => if s.inTxn then PB.Discard(false) else PB.Stutter
    case RestoreCommit(_) => PB.RestoreSaved
    case PathPrepare => if op.CreateMissingSchema? then PB.ProvideSchema(op.schema) else PB.Stutter
    case PathSet => if op.SetSchema? then PB.ChangeSchema(op.schema) else PB.Stutter
    case PathCommit => PB.Commit(false)
    case CatalogCommit =>
      var st := StmtOf(s.pc.m);
      if !s.pc.m.DescribePortal? && !s.pc.m.DescribeStatement?
         && (st.App? || (st.CreateSchema? && !st.lookup.LookupPresent?))
      then PB.OpenAuto else PB.Stutter
    case AppRun(_) => if op.Insert? then PB.Run(op.stmt) else PB.Stutter
    case AutoCommit => PB.Commit(false)
    case AutoRollback => PB.Discard(false)
    case _ => PB.Stutter
  }

  function OpFailed(s: Session, transport: bool, retries: nat): PB.Step
    requires s.pc.Awaiting? && s.job.Some?
  {
    match s.pc.at
    case ReplaySchema(_) => DropStep(s)
    case ReplayCommit(_) => DropStep(s)
    case Savepointing => PB.Poison
    case RestoreSchema(_) => PB.ForgetSaved
    case RestoreCommit(_) => PB.ForgetSaved
    case PathSet => DropStep(s)
    case PathCheck => DropStep(s)
    case PathCommit => DropStep(s)
    case AppRun(attempt) =>
      if s.inTxn then PB.Poison
      else if Resume(s, false, transport, retries).pc.Invalidating? then PB.Discard(false)
      else PB.Stutter
    case AutoRollback => PB.Discard(false)
    case _ => PB.Stutter
  }

  /** The private step of an action; actions of the pool alone are no step. */
  function Shadow(S: System, cfg: Config, a: Action): PB.Step
    requires Enabled(S, a)
  {
    match a
    case Receiving(i, m) => ReceiveStep(S.sessions[i], m)
    case SocketClosing(_) => PB.Leave
    case BodyStarting(i) => BegunStep(S.sessions[i])
    case OpSettled(i, ok, transport, creates) =>
      var s := S.sessions[i];
      var op := OpAt(s, i, s.pc.m, s.pc.at, creates);
      if ok && Db2.Perform(S.jobs[s.job.value], op).Applied?
      then OpDone(s, op)
      else OpFailed(s, transport, cfg.retries)
    case _ => PB.Stutter
  }

  // ---- one session ----

  /** `b` is what remains visible of a session whose own job holds `job`. */
  function Seen(s: Session, job: Db2.Job): PB.Backend {
    Observe(s, if s.job.Some? then Some(job) else None)
  }

  predicate Matches(
    who: SessionId, s: Session, before: Db2.Job, step: PB.Step, t: Session, after: Db2.Job, durable: seq<Db2.Write>)
  {
    PB.Allowed(Seen(s, before), step) && PB.Take(who, Seen(s, before), step) == (Seen(t, after), durable)
  }

  lemma StutterMatches(who: SessionId, s: Session, before: Db2.Job, t: Session, after: Db2.Job)
    requires Seen(t, after) == Seen(s, before)
    ensures Matches(who, s, before, PB.Stutter, t, after, [])
  {
  }

  lemma CommitMatches(who: SessionId, s: Session, before: Db2.Job, t: Session, after: Db2.Job)
    requires !Seen(s, before).failed
    requires Seen(t, after) == Seen(s, before).(phase := PB.Idle, pending := [], marks := [])
    ensures Matches(who, s, before, PB.Commit(false), t, after, Seen(s, before).pending)
  {
    hide Seen;
  }

  lemma DiscardMatches(who: SessionId, s: Session, before: Db2.Job, t: Session, after: Db2.Job)
    requires Seen(t, after) == Seen(s, before).(phase := PB.Idle, failed := false, pending := [], marks := [])
    ensures Matches(who, s, before, PB.Discard(false), t, after, [])
  {
    hide Seen;
  }

  lemma DoneSeen(s: Session, m: Msg, ok: bool, job: Db2.Job)
    requires Lockstep(s) && !s.closed
    requires s.job.Some? && !s.inTxn ==> Db2.Clean(job)
    ensures Seen(Done(s, m, ok), job) == Seen(s.(pc := Ready), job)
  {
    hide Done;
    DoneFrame(s, m, ok);
  }

  /** A session that has left its block, before it replies or restores its schema. */
  function Unblocked(s: Session, m: Msg): Session {
    if s.restore.None? then s.(pc := Ready)
    else if s.job.Some? then s.(restore := None, pc := Awaiting(m, RestoreSchema(s.restore.value)))
    else s.(restore := None, schema := s.restore.value, pc := Ready)
  }

  lemma RestoreLooks(s: Session, m: Msg, job: Db2.Job)
    requires !s.inTxn && !s.failed && s.snapshot.None? && !s.closed && (s.job.Some? ==> Db2.Clean(job))
    ensures Seen(RestorePath(s, m), job) == Seen(Unblocked(s, m), job)
  {
    hide Done;
    if s.restore.None? {
      DoneSeen(Send(s, Completion(m)), m, true, job);
    } else if s.job.None? {
      DoneSeen(Send(s.(restore := None, schema := s.restore.value), Completion(m)), m, true, job);
    }
  }

  lemma EndTxnLooks(s: Session, m: Msg, keep: bool, job: Db2.Job)
    requires Lockstep(s) && !s.closed && (s.job.Some? ==> Db2.Clean(job))
    ensures Seen(EndTxn(s, m, keep), job) == Seen(Unblocked(LeaveBlock(s, keep), m), job)
  {
    hide RestorePath, Seen, Unblocked;
    RestoreLooks(LeaveBlock(s, keep), m, job);
  }

  /** Control points at which a block may end: between spans, or with an operation on it settled. */
  predicate MayEnd(pc: Pc) {
    pc.Start? || pc.Ready? || (pc.Awaiting? && !InAuto(pc) && !pc.at.RestoreSchema? && !pc.at.RestoreCommit?)
  }

  /** `job` is what the session's job holds at the end of the block, `before` what it held when its end was awaited. */
  predicate Ending(s: Session, keep: bool, job: Db2.Job, before: Db2.Job) {
    && Lockstep(s) && !s.closed && MayEnd(s.pc) && (keep ==> !s.failed)
    && (s.job.Some? ==> Db2.Clean(job)) && (!s.inTxn && s.job.Some? ==> Db2.Clean(before))
  }

  /** The end of a block is one Commit or Discard on the private backend; outside a block it is nothing. */
  predicate EndsPrivately(who: SessionId, s: Session, m: Msg, keep: bool, job: Db2.Job, before: Db2.Job) {
    Matches(who, s, before,
            if !s.inTxn then PB.Stutter
            else if keep then PB.Commit(s.restore.Some? && s.job.None?)
            else PB.Discard(s.restore.Some? && s.job.None?),
            EndTxn(s, m, keep), job,
            if s.inTxn && keep && s.job.Some? then before.pending else [])
  }

  lemma EndTxnIdle(who: SessionId, s: Session, m: Msg, keep: bool, job: Db2.Job, before: Db2.Job)
    requires Ending(s, keep, job, before) && !s.inTxn
    ensures EndsPrivately(who, s, m, keep, job, before)
  {
    hide EndTxn, Matches, PB.Take, PB.Allowed;
    assert Seen(EndTxn(s, m, keep), job) == Seen(s, before) by { EndTxnLooks(s, m, keep, job); }
    StutterMatches(who, s, before, EndTxn(s, m, keep), job);
  }

  /** With no schema to restore. */
  lemma EndTxnSimply(who: SessionId, s: Session, m: Msg, keep: bool, job: Db2.Job, before: Db2.Job)
    requires Ending(s, keep, job, before) && s.inTxn && s.restore.None?
    ensures EndsPrivately(who, s, m, keep, job, before)
  {
    hide EndTxn, Matches, PB.Take, PB.Allowed;
    var t := EndTxn(s, m, keep);
    assert Seen(t, job) == Seen(s, before).(phase := PB.Idle, failed := false, pending := [], marks := []) by {
      EndTxnLooks(s, m, keep, job);
    }
    if keep { CommitMatches(who, s, before, t, job); } else { DiscardMatches(who, s, before, t, job); }
  }

  /** With a schema to restore and no job to restore it on. */
  lemma EndTxnAtOnce(who: SessionId, s: Session, m: Msg, keep: bool, job: Db2.Job, before: Db2.Job)
    requires Ending(s, keep, job, before) && s.inTxn && s.restore.Some? && s.job.None?
    ensures EndsPrivately(who, s, m, keep, job, before)
  {
    hide EndTxn;
    EndTxnLooks(s, m, keep, job);
  }

  /** With a schema to restore on the job. */
  lemma EndTxnLater(who: SessionId, s: Session, m: Msg, keep: bool, job: Db2.Job, before: Db2.Job)
    requires Ending(s, keep, job, before) && s.inTxn && s.restore.Some? && s.job.Some?
    ensures EndsPrivately(who, s, m, keep, job, before)
  {
    hide EndTxn;
    EndTxnLooks(s, m, keep, job);
  }

  lemma EndTxnSeen(who: SessionId, s: Session, m: Msg, keep: bool, job: Db2.Job, before: Db2.Job)
    requires Ending(s, keep, job, before)
    ensures EndsPrivately(who, s, m, keep, job, before)
  {
    hide EndTxn, EndsPrivately, Ending;
    if !s.inTxn {
      EndTxnIdle(who, s, m, keep, job, before);
    } else if s.restore.None? {
      EndTxnSimply(who, s, m, keep, job, before);
    } else if s.job.None? {
      EndTxnAtOnce(who, s, m, keep, job, before);
    } else {
      EndTxnLater(who, s, m, keep, job, before);
    }
  }

  /** A session between messages, or checked out and about to run its message. */
  predicate AtRest(who: SessionId, s: Session, job: Db2.Job) {
    && Lockstep(s) && !s.closed
    && (s.pc.Ready? || s.pc.Start?)
    && (s.job.Some? ==> Held(who, s, job))
  }

  lemma AppSeen(who: SessionId, s: Session, m: Msg, attempt: nat, job: Db2.Job)
    requires Lockstep(s) && !s.closed && (s.job.Some? ==> Held(who, s, job)) && (s.inTxn || s.job.Some?)
    requires !InAuto(s.pc) && !(s.pc.Awaiting? && (s.pc.at.RestoreSchema? || s.pc.at.RestoreCommit?))
    ensures Matches(who, s, job, AppStep(s), EnterApp(s, m, attempt), job, [])
  {
    hide Done;
    if s.job.None? {
      DoneSeen(s.(missing := s.missing + 1).(failed := true), m, false, job);
    }
  }

  lemma EnterSeen(s: Session, m: Msg, at: Label, job: Db2.Job)
    requires Lockstep(s) && !s.closed
    requires !at.AppRun? && !at.AutoCommit? && !at.AutoRollback? && !at.RestoreSchema? && !at.RestoreCommit?
    ensures Seen(Enter(s, m, at), job) ==
            Seen(s.(pc := Ready, failed := if s.job.None? && at.Savepointing? && s.inTxn then true else s.failed), job)
  {
    hide Done;
    if s.job.None? {
      DoneSeen(s.(missing := s.missing + 1), m, false, job);
      if s.inTxn { DoneSeen(s.(missing := s.missing + 1).(failed := true), m, false, job); }
    }
  }

  lemma EndingSeen(who: SessionId, s: Session, m: Msg, st: Stmt, job: Db2.Job)
    requires AtRest(who, s, job)
    requires st.CommitTxn? || st.RollbackTxn?
    ensures Matches(who, s, job, SqlStep(s, st), StartSql(s, m, st), job, [])
  {
    hide Enter, EndTxn;
    if s.job.None? {
      EndTxnSeen(who, s, m, st.CommitTxn? && !s.failed, job, job);
    } else {
      EnterSeen(s, m, if st.CommitTxn? && !s.failed then TxnCommit else TxnRollback, job);
    }
  }

  lemma BeginSeen(who: SessionId, s: Session, m: Msg, job: Db2.Job)
    requires AtRest(who, s, job)
    ensures Matches(who, s, job, SqlStep(s, Begin), StartSql(s, m, Begin), job, [])
  {
    hide Done;
    if s.failed || s.inTxn {
      hide Matches;
      DoneSeen(s, m, false, job);
      DoneSeen(Send(s, Completion(m)), m, true, job);
      StutterMatches(who, s, job, StartSql(s, m, Begin), job);
    } else {
      BlockOpens(who, s, m, job);
    }
  }

  lemma BlockOpens(who: SessionId, s: Session, m: Msg, job: Db2.Job)
    requires AtRest(who, s, job) && !s.inTxn
    ensures Matches(who, s, job, PB.OpenBlock, StartSql(s, m, Begin), job, [])
  {
    hide Done;
    var s1 := s.(inTxn := true, failed := false, snapshot := Some(s.registry), txn := s.txn + 1);
    DoneSeen(Send(s1, Completion(m)), m, true, job);
  }

  lemma SavepointSeen(who: SessionId, s: Session, m: Msg, st: Stmt, job: Db2.Job)
    requires AtRest(who, s, job) && st.SavepointCmd?
    ensures Matches(who, s, job, SqlStep(s, st), StartSql(s, m, st), job, [])
  {
    hide Done, Enter;
    DoneSeen(s, m, false, job);
    EnterSeen(s, m, Savepointing, job);
  }

  lemma PathSeen(who: SessionId, s: Session, m: Msg, st: Stmt, job: Db2.Job)
    requires AtRest(who, s, job) && st.SetPath?
    ensures Matches(who, s, job, SqlStep(s, st), StartSql(s, m, st), job, [])
  {
    hide Done, Enter;
    if s.failed || (st.local && !s.inTxn) {
      DoneSeen(s, m, false, job);
    } else {
      EnterSeen(if st.local && s.restore.None? then s.(restore := Some(s.schema)) else s, m, PathPrepare, job);
    }
  }

  predicate StartsApp(s: Session, st: Stmt) {
    (st.App? && !s.failed && st.lookup.NoLookup?) || (st.CreateSchema? && st.lookup.NoLookup?)
  }

  lemma AppWorkSeen(who: SessionId, s: Session, m: Msg, st: Stmt, job: Db2.Job)
    requires AtRest(who, s, job) && StartsApp(s, st)
    requires s.job.Some? || !NeedsBackend(s, m)
    requires m == Query(st) || m == Execute(st)
    ensures Matches(who, s, job, SqlStep(s, st), StartSql(s, m, st), job, [])
  {
    hide Done, Enter, EnterApp, Matches, EndTxn;
    AppSeen(who, s, m, 0, job);
  }

  lemma LookSeen(who: SessionId, s: Session, m: Msg, st: Stmt, job: Db2.Job)
    requires AtRest(who, s, job) && !StartsApp(s, st)
    requires st.CreateSchema? || st.LiveCatalog? || st.App?
    ensures Matches(who, s, job, SqlStep(s, st), StartSql(s, m, st), job, [])
  {
    hide Done, Enter, EnterApp, Matches, EndTxn, Seen, Reply;
    DoneSeen(s, m, false, job);
    EnterSeen(s, m, CatalogRead, job);
    RestingSeen(s, m, job);
    StutterMatches(who, s, job, StartSql(s, m, st), job);
  }

  lemma LocalSeen(who: SessionId, s: Session, m: Msg, st: Stmt, job: Db2.Job)
    requires AtRest(who, s, job) && st.Local?
    ensures Matches(who, s, job, SqlStep(s, st), StartSql(s, m, st), job, [])
  {
    hide Done, Enter, EnterApp, Matches, EndTxn, Seen;
    DoneSeen(s, m, false, job);
    DoneSeen(Send(s, Completion(m)), m, true, job);
    RestingSeen(s, m, job);
    StutterMatches(who, s, job, StartSql(s, m, st), job);
  }

  /** At rest, neither the control point nor the conversation shows. */
  lemma RestingSeen(s: Session, m: Msg, job: Db2.Job)
    requires s.pc.Ready? || s.pc.Start?
    ensures Seen(s.(pc := Ready), job) == Seen(s, job)
    ensures Seen(s.(pc := Ready, failed := s.failed), job) == Seen(s, job)
    ensures Seen(Send(s, Completion(m)).(pc := Ready), job) == Seen(s, job)
  {
  }

  lemma SqlSeen(who: SessionId, s: Session, m: Msg, st: Stmt, job: Db2.Job)
    requires AtRest(who, s, job)
    requires s.job.Some? || !NeedsBackend(s, m)
    requires m == Query(st) || m == Execute(st)
    ensures Matches(who, s, job, SqlStep(s, st), StartSql(s, m, st), job, [])
  {
    hide StartSql, SqlStep, Matches, NeedsBackend, AtRest, StartsApp;
    if st.CommitTxn? || st.RollbackTxn? {
      EndingSeen(who, s, m, st, job);
    } else if st.Begin? {
      BeginSeen(who, s, m, job);
    } else if st.SavepointCmd? {
      SavepointSeen(who, s, m, st, job);
    } else if st.SetPath? {
      PathSeen(who, s, m, st, job);
    } else if StartsApp(s, st) {
      AppWorkSeen(who, s, m, st, job);
    } else if st.Local? {
      LocalSeen(who, s, m, st, job);
    } else {
      LookSeen(who, s, m, st, job);
    }
  }

  lemma BodySeen(who: SessionId, s: Session, m: Msg, job: Db2.Job)
    requires AtRest(who, s, job)
    requires s.job.Some? || !NeedsBackend(s, m)
    ensures Matches(who, s, job, BodyStep(s, m), StartBody(s, m), job, [])
  {
    hide Done, Enter, EnterApp, StartSql, Matches, NeedsBackend, AtRest, SqlStep;
    match m {
      case Query(st) => SqlSeen(who, s, m, st, job);
      case Execute(st) => SqlSeen(who, s, m, st, job);
      case Terminate => CloseSeen(who, s, job);
      case DescribePortal(_) => DescribeSeen(who, s, m, job);
      case DescribeStatement(_) => DescribeSeen(who, s, m, job);
      case _ => LocalBodySeen(who, s, m, job);
    }
  }

  lemma CloseSeen(who: SessionId, s: Session, job: Db2.Job)
    requires AtRest(who, s, job)
    ensures Matches(who, s, job, PB.Leave, Close(s), job, [])
  {
  }

  lemma DescribeSeen(who: SessionId, s: Session, m: Msg, job: Db2.Job)
    requires AtRest(who, s, job)
    requires s.job.Some? || !NeedsBackend(s, m)
    requires m.DescribePortal? || m.DescribeStatement?
    ensures Matches(who, s, job, BodyStep(s, m), StartBody(s, m), job, [])
  {
    hide Done, Enter, EnterApp, Matches;
    if m.DescribePortal? && RowsFromDb2(m.stmt) {
      AppSeen(who, s, m, 0, job);
    } else {
      if m.DescribePortal? {
        EnterSeen(s, m, CatalogRead, job);
        DoneSeen(Send(s, Data), m, true, job);
      } else {
        EnterSeen(Send(s, Data), m, CatalogRead, job);
        DoneSeen(Send(s, Data), m, !RowsFromDb2(m.stmt), job);
      }
      StutterMatches(who, s, job, StartBody(s, m), job);
    }
  }

  lemma LocalBodySeen(who: SessionId, s: Session, m: Msg, job: Db2.Job)
    requires AtRest(who, s, job)
    requires !m.Query? && !m.Execute? && !m.Terminate? && !m.DescribePortal? && !m.DescribeStatement?
    ensures Matches(who, s, job, BodyStep(s, m), StartBody(s, m), job, [])
  {
    hide Done, Reply, Enter, EnterApp, Matches, StartSql, SqlStep, Seen;
    match m {
      case EmptyQuery => AnsweredSeen(who, s, Send(s, Data), m, true, job);
      case ExecuteStored => AnsweredSeen(who, s, Send(s, Completion(m)), m, true, job); ReplyIsDone(s, m);
      case Bookkeeping(accepted) => AnsweredSeen(who, s, if accepted then Send(s, Data) else s, m, accepted, job);
      case Sync => AnsweredSeen(who, s, Send(s.(skipping := false), ReadyForQuery(StatusOf(s))), m, true, job);
      case Flush => AnsweredSeen(who, s, s, m, true, job);
      case Unsupported => AnsweredSeen(who, s, Send(s, ErrorResponse), m, true, job);
    }
    StutterMatches(who, s, job, StartBody(s, m), job);
  }

  lemma ReplyIsDone(s: Session, m: Msg)
    ensures Reply(s, m) == Done(Send(s, Completion(m)), m, true)
  {
    hide Done;
  }

  /** A handler that returns after nothing but sending shows nothing. */
  lemma AnsweredSeen(who: SessionId, s: Session, s1: Session, m: Msg, ok: bool, job: Db2.Job)
    requires AtRest(who, s, job) && s1 == s.(trace := s1.trace, skipping := s1.skipping)
    ensures Seen(Done(s1, m, ok), job) == Seen(s, job)
  {
    hide Done;
    DoneSeen(s1, m, ok, job);
  }

  lemma ReceiveSeen(who: SessionId, s: Session, m: Msg, job: Db2.Job)
    requires s.pc.Ready? && Good(who, s, job)
    ensures Matches(who, s, job, ReceiveStep(s, m), Receive(s, m), job, [])
  {
    hide StartBody, Matches, Seen;
    var s1 := Note(s, Received(m));
    NotedSeen(s, m, job);
    if !s.closed && (s.job.Some? || !NeedsBackend(s, m)) {
      BodySeen(who, s1, m, job);
      NotedMatches(who, s, m, job, StartBody(s1, m));
    }
    if s.closed || (s.skipping && !m.Sync? && !m.Terminate?) || (s.job.None? && NeedsBackend(s, m)) {
      StutterMatches(who, s, job, Receive(s, m), job);
    }
  }

  /** What has been received does not show. */
  lemma NotedSeen(s: Session, m: Msg, job: Db2.Job)
    requires s.pc.Ready?
    ensures Seen(Note(s, Received(m)), job) == Seen(Note(s, Skipped(m)), job) == Seen(s, job)
    ensures Seen(Note(s, Received(m)).(pc := WantLease(m, First)), job) == Seen(s, job)
    ensures NeedsBackend(Note(s, Received(m)), m) == NeedsBackend(s, m)
  {
  }

  lemma NotedMatches(who: SessionId, s: Session, m: Msg, job: Db2.Job, t: Session)
    requires s.pc.Ready?
    requires var s1 := Note(s, Received(m)); Matches(who, s1, job, BodyStep(s1, m), t, job, [])
    ensures Matches(who, s, job, BodyStep(s, m), t, job, [])
  {
    hide NeedsBackend, PB.Allowed, PB.Take;
    NotedSeen(s, m, job);
    hide Seen;
  }

  lemma BegunSeen(who: SessionId, s: Session, job: Db2.Job)
    requires s.pc.Start? && Good(who, s, job)
    ensures Matches(who, s, job, BegunStep(s), Begun(s), job, [])
  {
    hide StartBody, EnterApp;
    if s.pc.mode.First? { BodySeen(who, s, s.pc.m, job); } else { AppSeen(who, s, s.pc.m, s.pc.mode.attempt, job); }
  }

  lemma FailedOpSeen(who: SessionId, s: Session, transport: bool, retries: nat, job: Db2.Job)
    requires s.pc.Awaiting? && Good(who, s, job)
    ensures Matches(who, s, job, OpFailed(s, transport, retries), Resume(s, false, transport, retries), job, [])
  {
    hide Resume, OpFailed, Matches, Good;
    if s.pc.at.PrepareSchema? || s.pc.at.ReplaySchema? || s.pc.at.ReplayCommit? {
      FailedReplaySeen(who, s, transport, retries, job);
    } else if s.pc.at.AppRun? || s.pc.at.AutoCommit? || s.pc.at.AutoRollback? {
      FailedAppSeen(who, s, transport, retries, job);
    } else {
      FailedControlSeen(who, s, transport, retries, job);
    }
  }

  lemma FailedReplaySeen(who: SessionId, s: Session, transport: bool, retries: nat, job: Db2.Job)
    requires s.pc.Awaiting? && Good(who, s, job)
    requires s.pc.at.PrepareSchema? || s.pc.at.ReplaySchema? || s.pc.at.ReplayCommit?
    ensures Matches(who, s, job, OpFailed(s, transport, retries), Resume(s, false, transport, retries), job, [])
  {
  }

  lemma FailedAppSeen(who: SessionId, s: Session, transport: bool, retries: nat, job: Db2.Job)
    requires s.pc.Awaiting? && Good(who, s, job)
    requires s.pc.at.AppRun? || s.pc.at.AutoCommit? || s.pc.at.AutoRollback?
    ensures Matches(who, s, job, OpFailed(s, transport, retries), Resume(s, false, transport, retries), job, [])
  {
  }

  lemma FailedControlSeen(who: SessionId, s: Session, transport: bool, retries: nat, job: Db2.Job)
    requires s.pc.Awaiting? && Good(who, s, job)
    requires !s.pc.at.PrepareSchema? && !s.pc.at.ReplaySchema? && !s.pc.at.ReplayCommit?
    requires !s.pc.at.AppRun? && !s.pc.at.AutoCommit? && !s.pc.at.AutoRollback?
    ensures Matches(who, s, job, OpFailed(s, transport, retries), Resume(s, false, transport, retries), job, [])
  {
  }

  /** `op` is the operation awaited by a session whose job holds `job`, and it can be applied. */
  predicate Settling(who: SessionId, s: Session, op: Db2.Op, creates: bool, job: Db2.Job) {
    s.pc.Awaiting? && Good(who, s, job) && op == OpAt(s, who, s.pc.m, s.pc.at, creates) && Db2.Perform(job, op).Applied?
  }

  /** Its success is the private step of OpDone. */
  predicate SettlesPrivately(who: SessionId, s: Session, op: Db2.Op, retries: nat, job: Db2.Job)
    requires s.pc.Awaiting? && s.job.Some? && Db2.Perform(job, op).Applied?
  {
    var effect := Db2.Perform(job, op);
    Matches(who, s, job, OpDone(s, op), Resume(s, true, false, retries), effect.job, effect.durable)
  }

  lemma ReplayOpSeen(who: SessionId, s: Session, op: Db2.Op, creates: bool, retries: nat, job: Db2.Job)
    requires Settling(who, s, op, creates, job)
    requires s.pc.at.PrepareSchema? || s.pc.at.ReplaySchema? || s.pc.at.ReplayCommit?
    ensures SettlesPrivately(who, s, op, retries, job)
  {
    hide Done, EndTxn, CatalogDone, AppDone, AppFailed, CheckoutFailed, Reply;
  }

  lemma SavepointOpSeen(who: SessionId, s: Session, op: Db2.Op, creates: bool, retries: nat, job: Db2.Job)
    requires Settling(who, s, op, creates, job) && s.pc.at.Savepointing?
    ensures SettlesPrivately(who, s, op, retries, job)
  {
    hide Reply, Db2.Perform, Seen;
    var s1 := if StmtOf(s.pc.m).action.RollbackToIt? then s.(failed := false) else s;
    ReplySeen(s1, s.pc.m, Db2.Perform(job, op).job);
    SavepointMatches(who, s, op, job);
  }

  /** A savepoint operation on the session's job is the same one on its own backend. */
  lemma SavepointMatches(who: SessionId, s: Session, op: Db2.Op, job: Db2.Job)
    requires s.pc.Awaiting? && s.pc.at.Savepointing? && s.inTxn && !s.closed && s.job.Some? && job.schema == s.schema
    requires op.SetSavepoint? || op.ReleaseSavepoint? || op.RollbackTo?
    requires Db2.Perform(job, op).Applied?
    ensures var after := Db2.Perform(job, op); var s1 := if op.RollbackTo? then s.(failed := false) else s;
      Matches(who, s, job, PB.SavepointOp(op), s1.(pc := Ready), after.job, after.durable)
  {
    hide Db2.Take, Db2.FindMark;
  }

  lemma EndingOpSeen(who: SessionId, s: Session, op: Db2.Op, creates: bool, retries: nat, job: Db2.Job)
    requires Settling(who, s, op, creates, job) && (s.pc.at.TxnCommit? || s.pc.at.TxnRollback?)
    ensures SettlesPrivately(who, s, op, retries, job)
  {
    hide Done, EndTxn, CatalogDone, AppDone, AppFailed, CheckoutFailed, Reply, Matches;
    EndTxnSeen(who, s, s.pc.m, s.pc.at.TxnCommit?, Db2.Perform(job, op).job, job);
  }

  lemma RestoreOpSeen(who: SessionId, s: Session, op: Db2.Op, creates: bool, retries: nat, job: Db2.Job)
    requires Settling(who, s, op, creates, job) && (s.pc.at.RestoreSchema? || s.pc.at.RestoreCheck?)
    ensures SettlesPrivately(who, s, op, retries, job)
  {
    hide Done, EndTxn, CatalogDone, AppDone, AppFailed, CheckoutFailed, Reply, Matches;
    var after := Db2.Perform(job, op).job;
    if s.pc.at.RestoreCheck? { ReplySeen(s, s.pc.m, after); }
    StutterMatches(who, s, job, Resume(s, true, false, retries), after);
  }

  lemma RestoreCommitSeen(who: SessionId, s: Session, op: Db2.Op, creates: bool, retries: nat, job: Db2.Job)
    requires Settling(who, s, op, creates, job) && s.pc.at.RestoreCommit?
    ensures SettlesPrivately(who, s, op, retries, job)
  {
    hide Done, EndTxn, CatalogDone, AppDone, AppFailed, CheckoutFailed, Reply;
  }

  lemma PathStartSeen(who: SessionId, s: Session, op: Db2.Op, creates: bool, retries: nat, job: Db2.Job)
    requires Settling(who, s, op, creates, job) && s.pc.at.PathPrepare?
    ensures SettlesPrivately(who, s, op, retries, job)
  {
    hide Done, EndTxn, CatalogDone, AppDone, AppFailed, CheckoutFailed, Reply;
  }

  lemma PathSetSeen(who: SessionId, s: Session, op: Db2.Op, creates: bool, retries: nat, job: Db2.Job)
    requires Settling(who, s, op, creates, job) && s.pc.at.PathSet?
    ensures SettlesPrivately(who, s, op, retries, job)
  {
    hide Done, EndTxn, CatalogDone, AppDone, AppFailed, CheckoutFailed, Reply;
  }

  lemma PathEndSeen(who: SessionId, s: Session, op: Db2.Op, creates: bool, retries: nat, job: Db2.Job)
    requires Settling(who, s, op, creates, job) && (s.pc.at.PathCheck? || s.pc.at.PathCommit?)
    ensures SettlesPrivately(who, s, op, retries, job)
  {
    hide Done, EndTxn, CatalogDone, AppDone, AppFailed, CheckoutFailed, Reply;
    if s.pc.at.PathCommit? || s.inTxn { ReplySeen(s, s.pc.m, Db2.Perform(job, op).job); }
  }

  lemma ReplySeen(s: Session, m: Msg, job: Db2.Job)
    requires Lockstep(s) && !s.closed && (s.job.Some? && !s.inTxn ==> Db2.Clean(job))
    ensures Seen(Reply(s, m), job) == Seen(s.(pc := Ready), job)
  {
    hide Done;
    DoneSeen(Send(s, Completion(m)), m, true, job);
  }

  predicate StartsWork(m: Msg) {
    !m.DescribePortal? && !m.DescribeStatement?
    && (StmtOf(m).App? || (StmtOf(m).CreateSchema? && !StmtOf(m).lookup.LookupPresent?))
  }

  lemma CatalogDoneSeen(who: SessionId, s: Session, m: Msg, job: Db2.Job)
    requires Lockstep(s) && !s.closed && s.job.Some? && Held(who, s, job)
    requires s.pc.Awaiting? && (s.pc.at.CatalogRead? || s.pc.at.CatalogCommit?)
    ensures Matches(who, s, job, if !s.inTxn && StartsWork(m) then PB.OpenAuto else PB.Stutter, CatalogDone(s, m), job, [])
  {
    hide Done, Reply, EnterApp, Matches;
    if StartsWork(m) {
      AppSeen(who, s, m, 0, job);
    } else {
      ReplySeen(s, m, job);
      StutterMatches(who, s, job, CatalogDone(s, m), job);
    }
  }

  lemma CatalogOpSeen(who: SessionId, s: Session, op: Db2.Op, creates: bool, retries: nat, job: Db2.Job)
    requires Settling(who, s, op, creates, job) && (s.pc.at.CatalogRead? || s.pc.at.CatalogCommit?)
    ensures SettlesPrivately(who, s, op, retries, job)
  {
    hide Done, EndTxn, CatalogDone, AppDone, AppFailed, CheckoutFailed, Reply, Matches;
    if s.pc.at.CatalogRead? && !s.inTxn {
      StutterMatches(who, s, job, s.(pc := Awaiting(s.pc.m, CatalogCommit)), job);
    } else {
      CatalogDoneSeen(who, s, s.pc.m, job);
    }
  }

  lemma AppOpSeen(who: SessionId, s: Session, op: Db2.Op, creates: bool, retries: nat, job: Db2.Job)
    requires Settling(who, s, op, creates, job) && s.pc.at.AppRun?
    ensures SettlesPrivately(who, s, op, retries, job)
  {
    hide Done, EndTxn, CatalogDone, AppDone, AppFailed, CheckoutFailed, Reply;
    AppDoneSeen(s, s.pc.m, Db2.Perform(job, op).job);
  }

  lemma AppDoneSeen(s: Session, m: Msg, job: Db2.Job)
    requires Lockstep(s) && !s.closed && s.job.Some? && s.pc.Awaiting? && s.pc.at.AppRun?
    ensures Seen(AppDone(s, m), job) == Seen(s, job)
  {
    hide Done;
    var st := StmtOf(m);
    var s1 := if st.App? && st.work.Defines? then s.(registry := s.registry + [st.work.entry]) else s;
    if s.inTxn { DoneSeen(Send(s1, Completion(m)), m, true, job); }
  }

  lemma AutoOpSeen(who: SessionId, s: Session, op: Db2.Op, creates: bool, retries: nat, job: Db2.Job)
    requires Settling(who, s, op, creates, job) && (s.pc.at.AutoCommit? || s.pc.at.AutoRollback?)
    ensures SettlesPrivately(who, s, op, retries, job)
  {
    hide Done, EndTxn, CatalogDone, AppDone, AppFailed, CheckoutFailed, Matches, PB.Take, PB.Allowed;
    var after := Db2.Perform(job, op).job;
    if s.pc.at.AutoCommit? {
      DoneSeen(Send(s, Completion(s.pc.m)), s.pc.m, true, after);
      CommitMatches(who, s, job, Resume(s, true, false, retries), after);
    } else {
      DoneSeen(s, s.pc.m, false, after);
      DiscardMatches(who, s, job, Resume(s, true, false, retries), after);
    }
  }

  lemma OpSeen(who: SessionId, s: Session, op: Db2.Op, creates: bool, retries: nat, job: Db2.Job)
    requires Settling(who, s, op, creates, job)
    ensures s.job.Some? && SettlesPrivately(who, s, op, retries, job)
  {
    assert s.job.Some?;
    hide SettlesPrivately, Settling, Good, OpAt, Db2.Perform;
    match s.pc.at {
      case Savepointing => SavepointOpSeen(who, s, op, creates, retries, job);
      case TxnCommit => EndingOpSeen(who, s, op, creates, retries, job);
      case TxnRollback => EndingOpSeen(who, s, op, creates, retries, job);
      case RestoreSchema(_) => RestoreOpSeen(who, s, op, creates, retries, job);
      case RestoreCommit(_) => RestoreCommitSeen(who, s, op, creates, retries, job);
      case RestoreCheck => RestoreOpSeen(who, s, op, creates, retries, job);
      case PathPrepare => PathStartSeen(who, s, op, creates, retries, job);
      case PathSet => PathSetSeen(who, s, op, creates, retries, job);
      case PathCheck => PathEndSeen(who, s, op, creates, retries, job);
      case PathCommit => PathEndSeen(who, s, op, creates, retries, job);
      case CatalogRead => CatalogOpSeen(who, s, op, creates, retries, job);
      case CatalogCommit => CatalogOpSeen(who, s, op, creates, retries, job);
      case AppRun(_) => AppOpSeen(who, s, op, creates, retries, job);
      case AutoCommit => AutoOpSeen(who, s, op, creates, retries, job);
      case AutoRollback => AutoOpSeen(who, s, op, creates, retries, job);
      case _ => ReplayOpSeen(who, s, op, creates, retries, job);
    }
  }

  // ---- the whole system ----

  /** Only session `i` and the job it uses change: everybody else sees what they saw. */
  lemma ViewOne(S: System, T: System, cfg: Config, i: SessionId, step: PB.Step, durable: seq<Db2.Write>)
    requires Inv(S, cfg) && i < |S.sessions| == |T.sessions|
    requires T.sessions == S.sessions[i := T.sessions[i]]
    requires S.jobs.Keys <= T.jobs.Keys
    requires forall j :: j in S.jobs && Uses(S.sessions[i]) != Some(j) ==> T.jobs[j] == S.jobs[j]
    requires T.committed == S.committed + durable
    requires PB.Allowed(View(S).backends[i], step)
    requires PB.Take(i, View(S).backends[i], step) ==
             (Observe(T.sessions[i], HeldJob(T.sessions[i], T.jobs)), durable)
    ensures PB.CanAdvance(View(S), i, step)
    ensures View(T) == PB.Advance(View(S), i, step)
  {
    hide Observe, WellFormed, Fits, PB.Allowed, PB.Take;
    forall k | 0 <= k < |T.sessions| && k != i
      ensures View(T).backends[k] == View(S).backends[k]
    {
      UsesOwnJob(S, k);
      UsesOwnJob(S, i);
    }
    assert View(T).backends == View(S).backends[i := View(T).backends[i]];
  }

  /** A job held is the job used, and it is with its session alone. */
  lemma UsesOwnJob(S: System, k: SessionId)
    requires SessionsOk(S) && k < |S.sessions|
    ensures S.sessions[k].job.Some? ==> Uses(S.sessions[k]) == S.sessions[k].job
    ensures Uses(S.sessions[k]).Some? ==>
      Uses(S.sessions[k]).value in S.jobs && Uses(S.sessions[k]).value in S.place
      && S.place[Uses(S.sessions[k]).value] == With(k)
  {
    assert SessionOk(S, k);
  }

  /** The content of the job a session uses, if it uses one. */
  function UsedJob(S: System, cfg: Config, i: SessionId): Db2.Job
    requires i < |S.sessions|
  {
    var u := Uses(S.sessions[i]);
    if u.Some? && u.value in S.jobs then S.jobs[u.value] else NewJob(cfg)
  }

  predicate SessionAction(S: System, a: Action) {
    Enabled(S, a) && OwnSpan(a)
  }

  lemma MessageMatches(S: System, cfg: Config, a: Action)
    requires Inv(S, cfg) && SessionAction(S, a)
    requires a.Receiving? || a.BodyStarting?
    ensures var t := Next(S, cfg, a).sessions[a.who];
      && Uses(t) == Uses(S.sessions[a.who])
      && (t.job.Some? ==> Uses(t) == t.job)
      && Matches(a.who, S.sessions[a.who], UsedJob(S, cfg, a.who), Shadow(S, cfg, a), t, UsedJob(S, cfg, a.who), [])
  {
    var i := a.who;
    var s := S.sessions[i];
    var job := UsedJob(S, cfg, i);
    assert SessionOk(S, i);
    hide PoolOk, SessionsOk, PlacesOk, IdleOk, Receive, Begun, ReceiveStep, BegunStep;
    if a.Receiving? {
      ReceiveSeen(i, s, a.msg, job);
      ReceiveGood(i, s, a.msg, job);
    } else {
      BegunSeen(i, s, job);
      BegunGood(i, s, job);
    }
    hide Matches;
  }

  lemma TakenMatches(S: System, cfg: Config, a: Action)
    requires Inv(S, cfg) && SessionAction(S, a) && (a.LeaseTaken? || a.LeaseRefused?)
    ensures var t := Next(S, cfg, a).sessions[a.who];
      && Uses(t) == Uses(S.sessions[a.who])
      && (t.job.Some? ==> Uses(t) == t.job)
      && Matches(a.who, S.sessions[a.who], UsedJob(S, cfg, a.who), Shadow(S, cfg, a), t, UsedJob(S, cfg, a.who), [])
  {
    hide Matches, Inv, UsedJob, TakeLease, LeaseDenied;
    var s := S.sessions[a.who];
    var job := UsedJob(S, cfg, a.who);
    WaitingSession(S, cfg, a.who);
    if a.LeaseTaken? { TakenSeen(s, job); } else { DeniedSeen(s, job); }
    StutterMatches(a.who, s, job, Next(S, cfg, a).sessions[a.who], job);
  }

  lemma WaitingSession(S: System, cfg: Config, i: SessionId)
    requires Inv(S, cfg) && i < |S.sessions| && (S.sessions[i].pc.Granted? || S.sessions[i].pc.Refused?)
    ensures S.sessions[i].job.None? && !S.sessions[i].closed
    ensures S.sessions[i].pc.Granted? ==> Db2.Clean(UsedJob(S, cfg, i))
  {
    assert SessionOk(S, i);
    hide Inv;
  }

  lemma TakenSeen(s: Session, job: Db2.Job)
    requires s.pc.Granted? && s.job.None? && !s.closed && Db2.Clean(job)
    ensures Uses(TakeLease(s)) == Uses(s) == TakeLease(s).job && Seen(TakeLease(s), job) == Seen(s, job)
  {
  }

  lemma DeniedSeen(s: Session, job: Db2.Job)
    requires s.pc.Refused? && s.job.None?
    ensures var t := LeaseDenied(s); Uses(t) == Uses(s) && t.job.None? && Seen(t, job) == Seen(s, job)
  {
    hide Settle;
    SettleShape(Abandoned(s, s.pc.mode), s.pc.m, false);
  }

  lemma ClosingMatches(S: System, cfg: Config, a: Action)
    requires Inv(S, cfg) && SessionAction(S, a) && a.SocketClosing?
    ensures var t := Next(S, cfg, a).sessions[a.who];
      && Uses(t) == Uses(S.sessions[a.who])
      && (t.job.Some? ==> Uses(t) == t.job)
      && Matches(a.who, S.sessions[a.who], UsedJob(S, cfg, a.who), Shadow(S, cfg, a), t, UsedJob(S, cfg, a.who), [])
  {
    hide PoolOk, PlacesOk, IdleOk, Fits;
    assert SessionOk(S, a.who);
  }

  lemma SessionMatches(S: System, cfg: Config, a: Action)
    requires Inv(S, cfg) && SessionAction(S, a)
    ensures var t := Next(S, cfg, a).sessions[a.who];
      && Uses(t) == Uses(S.sessions[a.who])
      && (t.job.Some? ==> Uses(t) == t.job)
      && Matches(a.who, S.sessions[a.who], UsedJob(S, cfg, a.who), Shadow(S, cfg, a), t, UsedJob(S, cfg, a.who), [])
  {
    hide Next, Shadow, Matches, Inv, UsedJob, Uses;
    if a.Receiving? || a.BodyStarting? {
      MessageMatches(S, cfg, a);
    } else if a.SocketClosing? {
      ClosingMatches(S, cfg, a);
    } else {
      TakenMatches(S, cfg, a);
    }
  }

  lemma SessionFrame(S: System, cfg: Config, a: Action)
    requires SessionAction(S, a)
    ensures var T := Next(S, cfg, a);
      && T.jobs == S.jobs && T.committed == S.committed && |T.sessions| == |S.sessions|
      && T.sessions == S.sessions[a.who := T.sessions[a.who]]
  {
  }

  lemma SessionRefines(S: System, cfg: Config, a: Action)
    requires Inv(S, cfg) && SessionAction(S, a)
    ensures PB.CanAdvance(View(S), a.who, Shadow(S, cfg, a))
    ensures View(Next(S, cfg, a)) == PB.Advance(View(S), a.who, Shadow(S, cfg, a))
  {
    hide Next, Shadow, Observe, PB.Allowed, PB.Take, PoolOk, PlacesOk, IdleOk, SessionsOk;
    var i := a.who;
    var T := Next(S, cfg, a);
    SessionFrame(S, cfg, a);
    SessionMatches(S, cfg, a);
    HeldIsUsed(S, cfg, i);
    HeldOf(T.sessions[i], S, cfg, i);
    hide Inv, Seen;
    ViewOne(S, T, cfg, i, Shadow(S, cfg, a), []);
  }

  /** Seen through its used job, a session shows what View shows. */
  lemma HeldIsUsed(S: System, cfg: Config, i: SessionId)
    requires SessionsOk(S) && i < |S.sessions|
    ensures Seen(S.sessions[i], UsedJob(S, cfg, i)) == View(S).backends[i]
  {
    UsesOwnJob(S, i);
  }

  lemma HeldOf(t: Session, S: System, cfg: Config, i: SessionId)
    requires SessionsOk(S) && i < |S.sessions| && Uses(t) == Uses(S.sessions[i])
    requires t.job.Some? ==> Uses(t) == t.job
    ensures Seen(t, UsedJob(S, cfg, i)) == Observe(t, HeldJob(t, S.jobs))
  {
    UsesOwnJob(S, i);
  }

  lemma OpRefines(S: System, cfg: Config, a: Action)
    requires Inv(S, cfg) && Enabled(S, a) && a.OpSettled?
    ensures PB.CanAdvance(View(S), a.who, Shadow(S, cfg, a))
    ensures View(Next(S, cfg, a)) == PB.Advance(View(S), a.who, Shadow(S, cfg, a))
  {
    hide Observe, PB.Allowed, PB.Take, PoolOk, PlacesOk, IdleOk, Resume, OpDone, OpFailed, Seen;
    var i := a.who;
    var s := S.sessions[i];
    var T := Next(S, cfg, a);
    assert SessionOk(S, i);
    UsesOwnJob(S, i);
    HeldIsUsed(S, cfg, i);
    var job := S.jobs[s.job.value];
    var op := OpAt(s, i, s.pc.m, s.pc.at, a.creates);
    hide SessionsOk, Fits, WellFormed, OpAt;
    assert UsedJob(S, cfg, i) == job;
    if a.ok && Db2.Perform(job, op).Applied? {
      var effect := Db2.Perform(job, op);
      OpSeen(i, s, op, a.creates, cfg.retries, job);
      OpGood(i, s, a.creates, cfg.retries, job);
      hide Db2.Perform;
      SeenAfter(T.sessions[i], s, T.jobs, effect.job);
      ViewOne(S, T, cfg, i, Shadow(S, cfg, a), effect.durable);
    } else {
      FailedOpSeen(i, s, a.transport, cfg.retries, job);
      FailedOpGood(i, s, a.transport, cfg.retries, job);
      SeenAfter(T.sessions[i], s, T.jobs, job);
      ViewOne(S, T, cfg, i, Shadow(S, cfg, a), []);
    }
  }

  lemma SeenAfter(t: Session, s: Session, jobs: map<JobId, Db2.Job>, job: Db2.Job)
    requires s.job.Some? && s.job.value in jobs && jobs[s.job.value] == job
    requires Uses(s) == s.job && Uses(t) == Uses(s) && WellFormed(t)
    ensures Seen(t, job) == Observe(t, HeldJob(t, jobs))
  {
  }

  // ---- actions of the pool ----

  /** The two states of a session look the same to its client. */
  predicate Quiet(s: Session, t: Session) {
    s == t ||
    (s.job.None? && !s.pc.Awaiting? && !t.pc.Awaiting?
     && t == s.(pc := t.pc, trace := t.trace, skipping := t.skipping))
  }

  lemma ViewSame(S: System, T: System)
    requires |T.sessions| == |S.sessions| && T.committed == S.committed
    requires forall k :: 0 <= k < |S.sessions| ==> Untouched(S, T, k)
    ensures View(T) == View(S)
  {
    forall k | 0 <= k < |S.sessions| ensures View(T).backends[k] == View(S).backends[k] {
      assert Untouched(S, T, k);
    }
  }

  lemma QuietSettle(s: Session, m: Msg, ok: bool)
    requires s.job.None? && !s.pc.Awaiting?
    ensures Quiet(s, Settle(s, m, ok))
  {
  }

  lemma QuietContinue(s: Session, m: Msg, next: Then)
    requires s.job.None? && !s.pc.Awaiting?
    ensures Quiet(s, Continue(s, m, next))
  {
    hide Settle;
    if next.Finish? { QuietSettle(s, m, next.ok); }
  }

  /** What a pool action leaves alone, for one session. */
  predicate Untouched(S: System, T: System, k: SessionId) {
    && k < |S.sessions| == |T.sessions|
    && Quiet(S.sessions[k], T.sessions[k])
    && (S.sessions[k].job.Some? ==> HeldJob(S.sessions[k], T.jobs) == HeldJob(S.sessions[k], S.jobs))
  }

  lemma OnwardQuiet(s: Session)
    requires Holding(s)
    ensures Quiet(s, Onward(s))
  {
    hide Settle, Continue;
    match s.pc {
      case Releasing(m, _, ok) => QuietSettle(s, m, ok);
      case Resetting(m, _, ok, _) => QuietSettle(s, m, ok);
      case Closing(m, _, next, _) => QuietContinue(s, m, next);
      case Replacing(m, next) => QuietContinue(s, m, next);
      case _ =>
    }
  }

  lemma TurnQuiet(s: Session, t: Session, caller: bool)
    requires PoolTurn(s, t, caller) && Holding(s)
    ensures Quiet(s, t)
  {
    hide Onward;
    if t == Onward(s) { OnwardQuiet(s); }
  }

  /** A pool action opens a job, resets the one that is being released, or leaves all jobs alone. */
  lemma PoolJobs(S: System, cfg: Config, a: Action)
    requires Enabled(S, a) && !OwnSpan(a) && !a.OpSettled?
    ensures var T := Next(S, cfg, a);
      || T.jobs == S.jobs
      || T.jobs == S.jobs[S.nextJob := NewJob(cfg)]
      || (a.ResetSettled? && S.sessions[a.who].pc.Resetting? && S.sessions[a.who].pc.lease in T.jobs
          && T.jobs == S.jobs[S.sessions[a.who].pc.lease := T.jobs[S.sessions[a.who].pc.lease]])
  {
    hide DoAcquire, DoRelease, DoInvalidate, DoClosed, DoReset, Settle, Continue;
    match a {
      case Acquiring(i) => OldJobs(S, cfg, i);
      case ReleaseCalled(i) => OldJobs(S, cfg, i);
      case InvalidateCalled(i) => OldJobs(S, cfg, i);
      case JobClosed(i) => OldJobs(S, cfg, i);
      case ResetSettled(i, ok) => ResetJob(S, cfg, i, ok);
      case _ =>
    }
  }

  lemma OldJobs(S: System, cfg: Config, i: SessionId)
    requires i < |S.sessions|
    ensures S.sessions[i].pc.WantLease? ==> DoAcquire(S, cfg, i).jobs == S.jobs
    ensures S.sessions[i].pc.Releasing? ==> DoRelease(S, i).jobs == S.jobs
    ensures S.sessions[i].pc.Invalidating? ==> DoInvalidate(S, i).jobs == S.jobs
    ensures S.sessions[i].pc.Closing? ==> DoClosed(S, cfg, i).jobs == S.jobs
  {
    hide Settle, Continue;
  }

  lemma ResetJob(S: System, cfg: Config, i: SessionId, ok: bool)
    requires Enabled(S, ResetSettled(i, ok))
    ensures var T := DoReset(S, cfg, i, ok); var lease := S.sessions[i].pc.lease;
      lease in T.jobs && T.jobs == S.jobs[lease := T.jobs[lease]]
  {
    hide Settle;
  }

  lemma PlacesBelow(S: System)
    requires PlacesOk(S)
    ensures S.nextJob !in S.place
  {
    hide Uses;
  }

  lemma PoolUntouched(S: System, cfg: Config, a: Action, k: SessionId)
    requires Inv(S, cfg) && Enabled(S, a) && !SessionAction(S, a) && !a.OpSettled? && k < |S.sessions|
    ensures Untouched(S, Next(S, cfg, a), k)
  {
    hide Next, PoolOk, IdleOk, Quiet, Fits, PoolTurn;
    var T := Next(S, cfg, a);
    NextTurns(S, cfg, a);
    PoolJobs(S, cfg, a);
    PlacesBelow(S);
    assert SessionOk(S, k);
    TurnQuiet(S.sessions[k], T.sessions[k], Caller(a, k));
    UsesOwnJob(S, k);
    if a.ResetSettled? { UsesOwnJob(S, a.who); }
    hide SessionsOk, PlacesOk;
  }

  lemma PoolRefines(S: System, cfg: Config, a: Action)
    requires Inv(S, cfg) && Enabled(S, a) && !SessionAction(S, a) && !a.OpSettled?
    ensures View(Next(S, cfg, a)) == View(S)
  {
    var T := Next(S, cfg, a);
    hide Next, Inv, PoolTurn;
    NextTurns(S, cfg, a);
    forall k | 0 <= k < |S.sessions| ensures Untouched(S, T, k) {
      PoolUntouched(S, cfg, a, k);
    }
    ViewSame(S, T);
  }}
