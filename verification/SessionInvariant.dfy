/**
 What holds of one session and of the job it uses, at every control point, and
 that each handler span keeps it.
 */
module SessionInvariant {
  import opened Wrappers
  import opened JobPool
  import opened Sessions
  import Db2

  /** The job a session has in hand: its own, or the one it is receiving or giving back. */
  function Uses(s: Session): Option<JobId> {
    match s.pc
    case Granted(_, _, lease) => Some(lease)
    case Releasing(_, lease, _) => Some(lease)
    case Resetting(_, lease, _, _) => Some(lease)
    case Invalidating(_, lease, _) => Some(lease)
    case Closing(_, lease, _, _) => Some(lease)
    case _ => s.job
  }

  /** Transaction-scoped proxy state goes in lockstep with the transaction. */
  predicate Lockstep(s: Session) {
    && (s.failed ==> s.inTxn)
    && (s.snapshot.Some? <==> s.inTxn)
    && (s.restore.Some? ==> s.inTxn)
  }

  /** Messages that Db2 has to work for: an application statement, CREATE SCHEMA, or the describing of a SELECT. */
  predicate Works(m: Msg) {
    || (IsStatement(m) && (StmtOf(m).App? || (StmtOf(m).CreateSchema? && !StmtOf(m).lookup.LookupPresent?)))
    || (m.DescribePortal? && RowsFromDb2(m.stmt))
  }

  /** Messages that look into the catalog, for their answer or before their work. */
  predicate Looks(m: Msg) {
    || (IsStatement(m) && (StmtOf(m).App? || StmtOf(m).CreateSchema? || StmtOf(m).LiveCatalog?))
    || ((m.DescribePortal? || m.DescribeStatement?) && m.stmt.LiveCatalog?)
  }

  /** Of these, what still reaches Db2 in a failed block: CREATE SCHEMA and the describing of results. */
  predicate Sober(s: Session, m: Msg) {
    s.failed ==> (IsStatement(m) && StmtOf(m).CreateSchema?) || m.DescribePortal? || m.DescribeStatement?
  }

  /** Only reads outside a block are repeated. */
  predicate ModeFits(s: Session, m: Msg, mode: Mode) {
    mode.Retry? ==> Works(m) && RowsFromDb2(StmtOf(m)) && !s.inTxn
  }

  predicate NextFits(s: Session, m: Msg, next: Then) {
    next.Reacquire? ==> ModeFits(s, m, Retry(next.attempt))
  }

  /** A search path is set in a session that has not failed; SET LOCAL has saved the schema before. */
  predicate PathFits(s: Session, m: Msg) {
    IsStatement(m) && StmtOf(m).SetPath? && !s.failed && (StmtOf(m).local ==> s.inTxn && s.restore.Some?)
  }

  /** The entry that a statement adds to the registries has been added. */
  predicate Recorded(s: Session, m: Msg) {
    IsStatement(m) && StmtOf(m).App? && StmtOf(m).work.Defines? ==> StmtOf(m).work.entry in s.registry
  }

  /** Where a message may be at work: what the label asks for is what the message is about. */
  predicate LabelFits(s: Session, m: Msg, at: Label) {
    var st := StmtOf(m);
    match at
    case PrepareSchema(mode) => ModeFits(s, m, mode)
    case ReplaySchema(mode) => ModeFits(s, m, mode)
    case ReplayCommit(mode) => ModeFits(s, m, mode)
    case Savepointing => s.inTxn && IsStatement(m) && st.SavepointCmd? && (s.failed ==> st.action.RollbackToIt?)
    case TxnCommit => IsStatement(m) && !s.failed && st.CommitTxn?
    case TxnRollback => IsStatement(m) && (st.RollbackTxn? || (st.CommitTxn? && s.failed))
    case RestoreSchema(_) => Restoring(s, m)
    case RestoreCommit(_) => Restoring(s, m)
    case RestoreCheck => Restoring(s, m)
    case PathPrepare => PathFits(s, m)
    case PathSet => PathFits(s, m)
    case PathCheck => PathFits(s, m) && s.schema == st.schema
    case PathCommit => PathFits(s, m) && s.schema == st.schema && !s.inTxn
    case CatalogRead => Looks(m) && Sober(s, m)
    case CatalogCommit => Looks(m) && !s.inTxn
    case AppRun(_) => Works(m) && Sober(s, m)
    case AutoCommit => Works(m) && !s.inTxn && Recorded(s, m)
    case AutoRollback => Works(m) && !s.inTxn
  }

  /** COMMIT, ROLLBACK, END and ABORT. */
  predicate EndsBlock(m: Msg) { IsStatement(m) && (StmtOf(m).CommitTxn? || StmtOf(m).RollbackTxn?) }

  /** The block is over; only the schema saved by SET LOCAL is still to come back. */
  predicate Restoring(s: Session, m: Msg) {
    !s.inTxn && s.restore.None? && EndsBlock(m)
  }

  /** Control points that lead to no further backend work. */
  predicate Winding(pc: Pc) {
    match pc
    case Ready => true
    case Releasing(_, _, _) => true
    case Resetting(_, _, _, _) => true
    case Invalidating(_, _, next) => next.Finish?
    case Closing(_, _, next, _) => next.Finish?
    case Replacing(_, next) => next.Finish?
    case _ => false
  }

  /** Where a session may hold a job: only while its message runs, or inside an open transaction. */
  predicate Holding(s: Session) {
    && (s.closed ==> s.job.None? && Winding(s.pc))
    && match s.pc
       case Awaiting(m, at) => s.job.Some? && LabelFits(s, m, at)
       case Start(m, mode) => s.job.Some? && ModeFits(s, m, mode)
       case Ready => s.job.Some? ==> s.inTxn
       case Releasing(_, _, _) => s.job.None?
       case Resetting(_, _, _, _) => s.job.None?
       case Invalidating(m, _, next) => s.job.None? && NextFits(s, m, next)
       case Closing(m, _, next, _) => s.job.None? && NextFits(s, m, next)
       case Replacing(m, next) => s.job.None? && NextFits(s, m, next)
       case _ => s.job.None? && ModeFits(s, s.pc.m, s.pc.mode)
  }

  predicate WellFormed(s: Session) {
    Lockstep(s) && Holding(s)
  }

  /** Everything not yet durable was written by this session in its current transaction. */
  predicate Own(who: SessionId, s: Session, job: Db2.Job) {
    forall k :: 0 <= k < |job.pending| ==>
      job.pending[k].AppWrite? && job.pending[k].session == who && job.pending[k].txn == s.txn
  }

  /** Only schemas provisioned by the proxy, and never inside a transaction. */
  predicate Provisioned(s: Session, job: Db2.Job) {
    && job.marks == []
    && (s.inTxn ==> job.pending == [])
    && forall k :: 0 <= k < |job.pending| ==> job.pending[k].SchemaCreated?
  }

  /** Between two spans of application work. */
  predicate Held(who: SessionId, s: Session, job: Db2.Job) {
    && job.schema == s.schema
    && if s.inTxn then Own(who, s, job) else Db2.Clean(job)
  }

  predicate Midway(who: SessionId, s: Session, job: Db2.Job) {
    && job.schema == s.schema
    && if s.inTxn then Own(who, s, job) else Provisioned(s, job)
  }

  /** What a statement outside a block has written once it has run: one write under its own number, or nothing. */
  function Written(who: SessionId, s: Session, m: Msg): seq<Db2.Write> {
    var st := StmtOf(m);
    if IsStatement(m) && (st.CreateSchema? || (st.App? && !st.work.Reads?))
    then [Db2.AppWrite(who, s.txn, s.schema, st.id)]
    else []
  }

  /** What the used job looks like at each control point. */
  predicate Fits(who: SessionId, s: Session, job: Db2.Job) {
    match s.pc
    case Ready => Held(who, s, job)
    case Granted(_, _, _) => Db2.Clean(job)
    case Start(_, _) => job.schema == s.schema && Db2.Clean(job)
    case Resetting(_, _, _, stage) => stage.ResettingSchema? ==> Db2.Clean(job)
    case Awaiting(_, at) =>
      (match at
       case PrepareSchema(_) => Db2.Clean(job)
       case ReplaySchema(_) => Provisioned(s, job)
       case ReplayCommit(_) => job.schema == s.schema && Provisioned(s, job)
       case RestoreSchema(_) => Db2.Clean(job)
       case RestoreCommit(_) => Db2.Clean(job)
       case RestoreCheck => Db2.Clean(job)
       case PathSet => Midway(who, s, job)
       case PathCheck => Midway(who, s, job)
       case PathCommit => Midway(who, s, job)
       case AutoCommit => job == Db2.Job(s.schema, Written(who, s, s.pc.m), [])
       case AutoRollback => job.schema == s.schema && Own(who, s, job)
       case _ => Held(who, s, job))
    case _ => true
  }

  predicate Good(who: SessionId, s: Session, job: Db2.Job) {
    WellFormed(s) && (Uses(s).Some? ==> Fits(who, s, job))
  }

  /** Control points at which the pool's books do not change: not queued, connecting, resetting or closing. */
  predicate Plain(pc: Pc) {
    pc.Ready? || pc.WantLease? || pc.Granted? || pc.Refused? || pc.Start? || pc.Awaiting?
    || pc.Releasing? || pc.Invalidating?
  }

  // ---- each span keeps it; `job` is the content of the used job, if any ----

  /** The end of a message touches only the control point and the conversation. */
  lemma SettleShape(s: Session, m: Msg, ok: bool)
    ensures var t := Settle(s, m, ok); t == s.(pc := Ready, trace := t.trace, skipping := t.skipping)
  {
    hide StatusOf, IsQuery;
  }

  /** So does the return from a handler, but for the job it gives back outside a block. */
  lemma DoneFrame(s: Session, m: Msg, ok: bool)
    ensures var t := Done(s, m, ok);
      && t == s.(job := t.job, pc := t.pc, trace := t.trace, skipping := t.skipping)
      && if s.job.Some? && !s.inTxn then t.job.None? && t.pc == Releasing(m, s.job.value, ok)
         else t.job == s.job && t.pc == Ready
  {
    hide Settle, StatusOf, IsQuery;
    var s1 := if ok && IsQuery(m) then Send(s, ReadyForQuery(StatusOf(s))) else s;
    if !(s1.job.Some? && !s1.inTxn) { SettleShape(s1, m, ok); }
  }

  lemma DoneGood(who: SessionId, s: Session, m: Msg, ok: bool, job: Db2.Job)
    requires Lockstep(s) && !s.closed
    requires s.job.Some? && s.inTxn ==> Held(who, s, job)
    ensures Good(who, Done(s, m, ok), job)
    ensures Uses(Done(s, m, ok)) == s.job
    ensures Plain(Done(s, m, ok).pc)
  {
    hide Done;
    DoneFrame(s, m, ok);
  }

  lemma RestoreGood(who: SessionId, s: Session, m: Msg, job: Db2.Job)
    requires !s.inTxn && !s.failed && s.snapshot.None? && !s.closed
    requires EndsBlock(m)
    requires s.job.Some? ==> Db2.Clean(job)
    ensures Good(who, RestorePath(s, m), job)
    ensures Uses(RestorePath(s, m)) == s.job
    ensures Plain(RestorePath(s, m).pc)
  {
    hide Done;
    if s.restore.None? {
      DoneGood(who, Send(s, Completion(m)), m, true, job);
    } else if s.job.None? {
      DoneGood(who, Send(s.(restore := None, schema := s.restore.value), Completion(m)), m, true, job);
    }
  }

  lemma EndTxnGood(who: SessionId, s: Session, m: Msg, keep: bool, job: Db2.Job)
    requires Lockstep(s) && !s.closed
    requires EndsBlock(m)
    requires s.job.Some? ==> Db2.Clean(job)
    ensures Good(who, EndTxn(s, m, keep), job)
    ensures Uses(EndTxn(s, m, keep)) == s.job
    ensures Plain(EndTxn(s, m, keep).pc)
  {
    hide RestorePath, Good, Uses, Plain;
    RestoreGood(who, LeaveBlock(s, keep), m, job);
  }

  lemma EnterGood(who: SessionId, s: Session, m: Msg, at: Label, job: Db2.Job)
    requires Lockstep(s) && !s.closed
    requires s.job.Some? ==> LabelFits(s, m, at) && Fits(who, s.(pc := Awaiting(m, at)), job)
    ensures Good(who, Enter(s, m, at), job)
    ensures Uses(Enter(s, m, at)) == s.job
    ensures Plain(Enter(s, m, at).pc)
  {
    hide Done;
    if s.job.None? {
      DoneGood(who, s.(missing := s.missing + 1), m, false, job);
      if s.inTxn { DoneGood(who, s.(missing := s.missing + 1).(failed := true), m, false, job); }
    }
  }

  lemma EnterAppGood(who: SessionId, s: Session, m: Msg, attempt: nat, job: Db2.Job)
    requires Lockstep(s) && !s.closed && Works(m) && Sober(s, m)
    requires s.job.Some? ==> Held(who, s, job)
    ensures Good(who, EnterApp(s, m, attempt), job)
    ensures Uses(EnterApp(s, m, attempt)) == s.job
    ensures Plain(EnterApp(s, m, attempt).pc)
  {
    EnterGood(who, if s.inTxn then s else s.(txn := s.txn + 1), m, AppRun(attempt), job);
  }

  lemma CatalogGood(who: SessionId, s: Session, m: Msg, job: Db2.Job)
    requires Lockstep(s) && !s.closed && Looks(m) && Sober(s, m)
    requires s.job.Some? ==> Held(who, s, job)
    ensures Good(who, Enter(s, m, CatalogRead), job)
    ensures Uses(Enter(s, m, CatalogRead)) == s.job
    ensures Plain(Enter(s, m, CatalogRead).pc)
  {
    EnterGood(who, s, m, CatalogRead, job);
  }

  lemma CloseGood(who: SessionId, s: Session, job: Db2.Job)
    requires Lockstep(s)
    ensures Good(who, Close(s), job)
    ensures Uses(Close(s)) == s.job
    ensures Plain(Close(s).pc)
  {
  }

  lemma BeginGood(who: SessionId, s: Session, m: Msg, job: Db2.Job)
    requires Lockstep(s) && !s.closed && (s.job.Some? ==> Held(who, s, job))
    ensures var s1 := if s.inTxn then s
        else s.(inTxn := true, failed := false, snapshot := Some(s.registry), txn := s.txn + 1);
      && Good(who, Reply(s1, m), job) && Uses(Reply(s1, m)) == s.job && Plain(Reply(s1, m).pc)
  {
    hide Done, Good, Plain, Uses;
    var s1 := if s.inTxn then s
        else s.(inTxn := true, failed := false, snapshot := Some(s.registry), txn := s.txn + 1);
    DoneGood(who, Send(s1, Completion(m)), m, true, job);
  }

  lemma PathGood(who: SessionId, s: Session, m: Msg, local: bool, job: Db2.Job)
    requires Lockstep(s) && !s.closed && (s.job.Some? ==> Held(who, s, job))
    requires IsStatement(m) && StmtOf(m).SetPath? && StmtOf(m).local == local && !s.failed && (local ==> s.inTxn)
    ensures var s1 := if local && s.restore.None? then s.(restore := Some(s.schema)) else s;
      && Good(who, Enter(s1, m, PathPrepare), job) && Uses(Enter(s1, m, PathPrepare)) == s.job
      && Plain(Enter(s1, m, PathPrepare).pc)
  {
    hide Enter, Good, Plain, Uses;
    EnterGood(who, if local && s.restore.None? then s.(restore := Some(s.schema)) else s, m, PathPrepare, job);
  }

  lemma SqlGood(who: SessionId, s: Session, m: Msg, st: Stmt, job: Db2.Job)
    requires Lockstep(s) && !s.closed
    requires s.job.Some? ==> Held(who, s, job)
    requires m == Query(st) || m == Execute(st)
    ensures Good(who, StartSql(s, m, st), job)
    ensures Uses(StartSql(s, m, st)) == s.job
    ensures Plain(StartSql(s, m, st).pc)
  {
    hide Done, Enter, EnterApp, EndTxn, Good, Uses, Plain;
    match st {
      case CreateSchema(_, lookup) =>
        if lookup.NoLookup? { EnterAppGood(who, s, m, 0, job); } else { CatalogGood(who, s, m, job); }
      case Local(_) => LocalGood(who, s, m, job);
      case SavepointCmd(_, _) => SavepointGood(who, s, m, job);
      case CommitTxn => EndingGood(who, s, m, job);
      case RollbackTxn => EndingGood(who, s, m, job);
      case Begin => BeginGood(who, s, m, job); LocalGood(who, s, m, job);
      case SetPath(_, local) =>
        LocalGood(who, s, m, job);
        if !s.failed && (!local || s.inTxn) { PathGood(who, s, m, local, job); }
      case LiveCatalog => LocalGood(who, s, m, job); if !s.failed { CatalogGood(who, s, m, job); }
      case App(_, _, _) =>
        LocalGood(who, s, m, job);
        if !s.failed { EnterAppGood(who, s, m, 0, job); CatalogGood(who, s, m, job); }
    }
  }

  lemma LocalGood(who: SessionId, s: Session, m: Msg, job: Db2.Job)
    requires Lockstep(s) && !s.closed && (s.job.Some? ==> Held(who, s, job))
    ensures Good(who, Done(s, m, false), job) && Uses(Done(s, m, false)) == s.job && Plain(Done(s, m, false).pc)
    ensures Good(who, Reply(s, m), job) && Uses(Reply(s, m)) == s.job && Plain(Reply(s, m).pc)
  {
    hide Done, Good, Uses, Plain;
    DoneGood(who, s, m, false, job);
    DoneGood(who, Send(s, Completion(m)), m, true, job);
  }

  lemma SavepointGood(who: SessionId, s: Session, m: Msg, job: Db2.Job)
    requires Lockstep(s) && !s.closed && (s.job.Some? ==> Held(who, s, job))
    requires IsStatement(m) && StmtOf(m).SavepointCmd?
    ensures var t := StartSql(s, m, StmtOf(m)); Good(who, t, job) && Uses(t) == s.job && Plain(t.pc)
  {
    hide Done, Enter, EnterApp, EndTxn, Good, Uses, Plain;
    DoneGood(who, s, m, false, job);
    if s.inTxn && (s.failed ==> StmtOf(m).action.RollbackToIt?) { EnterGood(who, s, m, Savepointing, job); }
  }

  lemma EndingGood(who: SessionId, s: Session, m: Msg, job: Db2.Job)
    requires Lockstep(s) && !s.closed && (s.job.Some? ==> Held(who, s, job))
    requires EndsBlock(m)
    ensures var t := StartSql(s, m, StmtOf(m)); Good(who, t, job) && Uses(t) == s.job && Plain(t.pc)
  {
    hide Done, Enter, EnterApp, EndTxn, Good, Uses, Plain;
    var keep := StmtOf(m).CommitTxn? && !s.failed;
    if s.job.None? {
      EndTxnGood(who, s, m, keep, job);
    } else {
      EnterGood(who, s, m, if keep then TxnCommit else TxnRollback, job);
    }
  }

  lemma BodyGood(who: SessionId, s: Session, m: Msg, job: Db2.Job)
    requires Lockstep(s) && !s.closed
    requires s.job.Some? ==> Held(who, s, job)
    ensures Good(who, StartBody(s, m), job)
    ensures Uses(StartBody(s, m)) == s.job
    ensures Plain(StartBody(s, m).pc)
  {
    hide Done, Enter, EnterApp, StartSql, Good, Fits;
    match m {
      case Query(st) => SqlGood(who, s, m, st, job);
      case Execute(st) => SqlGood(who, s, m, st, job);
      case EmptyQuery => DoneGood(who, Send(s, Data), m, true, job);
      case ExecuteStored => DoneGood(who, Send(s, Completion(m)), m, true, job);
      case DescribePortal(st) =>
        if st.LiveCatalog? { CatalogGood(who, s, m, job); }
        if RowsFromDb2(st) { EnterAppGood(who, s, m, 0, job); }
        DoneGood(who, Send(s, Data), m, true, job);
      case DescribeStatement(st) =>
        if st.LiveCatalog? { CatalogGood(who, Send(s, Data), m, job); }
        DoneGood(who, Send(s, Data), m, !RowsFromDb2(st), job);
      case Bookkeeping(accepted) => DoneGood(who, if accepted then Send(s, Data) else s, m, accepted, job);
      case Sync =>
        DoneGood(who, Send(s.(skipping := false), ReadyForQuery(StatusOf(s))), m, true, job);
      case Flush => DoneGood(who, s, m, true, job);
      case Unsupported => DoneGood(who, Send(s, ErrorResponse), m, true, job);
      case Terminate => CloseGood(who, s, job);
    }
  }

  lemma ReceiveGood(who: SessionId, s: Session, m: Msg, job: Db2.Job)
    requires s.pc.Ready? && Good(who, s, job)
    ensures Good(who, Receive(s, m), job)
    ensures Uses(Receive(s, m)) == Uses(s)
    ensures Plain(Receive(s, m).pc)
  {
    if !s.closed { BodyGood(who, Note(s, Received(m)), m, job); }
  }

  lemma BegunGood(who: SessionId, s: Session, job: Db2.Job)
    requires s.pc.Start? && Good(who, s, job)
    ensures Good(who, Begun(s), job)
    ensures Uses(Begun(s)) == Uses(s)
    ensures Plain(Begun(s).pc)
  {
    hide StartBody, EnterApp;
    if s.pc.mode.First? { BodyGood(who, s, s.pc.m, job); } else { EnterAppGood(who, s, s.pc.m, s.pc.mode.attempt, job); }
  }

  lemma SettleGood(who: SessionId, s: Session, m: Msg, ok: bool, job: Db2.Job)
    requires Lockstep(s) && s.job.None?
    ensures Good(who, Settle(s, m, ok), job)
    ensures Uses(Settle(s, m, ok)) == None
    ensures Plain(Settle(s, m, ok).pc)
  {
    SettleShape(s, m, ok);
    hide Settle;
  }

  lemma CatalogDoneGood(who: SessionId, s: Session, m: Msg, job: Db2.Job)
    requires Lockstep(s) && !s.closed && s.job.Some? && Held(who, s, job) && Looks(m) && Sober(s, m)
    ensures Good(who, CatalogDone(s, m), job)
    ensures Uses(CatalogDone(s, m)) == s.job
    ensures Plain(CatalogDone(s, m).pc)
  {
    hide Done, EnterApp, Good;
    if Works(m) { EnterAppGood(who, s, m, 0, job); }
    DoneGood(who, Send(s, Completion(m)), m, true, job);
  }

  /** A failed checkout, statement or COMMIT gives the job up, undoes it, or fails the block. */
  lemma FailedWorkGood(who: SessionId, s: Session, transport: bool, retries: nat, job: Db2.Job)
    requires s.pc.Awaiting? && Good(who, s, job)
    requires s.pc.at.PrepareSchema? || s.pc.at.ReplaySchema? || s.pc.at.ReplayCommit? || s.pc.at.AppRun?
      || s.pc.at.AutoCommit? || s.pc.at.AutoRollback?
    ensures Good(who, Resume(s, false, transport, retries), job)
    ensures Uses(Resume(s, false, transport, retries)) == Uses(s)
    ensures Plain(Resume(s, false, transport, retries).pc)
  {
    hide Done, EndTxn, CatalogDone, AppDone;
    if s.pc.at.AppRun? && s.inTxn { DoneGood(who, s.(failed := true), s.pc.m, false, job); }
    if s.pc.at.AutoRollback? { DoneGood(who, s, s.pc.m, false, job); }
  }

  lemma FailedControlGood(who: SessionId, s: Session, transport: bool, retries: nat, job: Db2.Job)
    requires s.pc.Awaiting? && Good(who, s, job)
    requires !s.pc.at.PrepareSchema? && !s.pc.at.ReplaySchema? && !s.pc.at.ReplayCommit? && !s.pc.at.AppRun?
    requires !s.pc.at.AutoCommit? && !s.pc.at.AutoRollback?
    ensures Good(who, Resume(s, false, transport, retries), job)
    ensures Uses(Resume(s, false, transport, retries)) == Uses(s)
    ensures Plain(Resume(s, false, transport, retries).pc)
  {
    hide Done, EndTxn, CatalogDone, AppDone, AppFailed, CheckoutFailed;
    assert s.inTxn ==> Held(who, s, job);
    if s.pc.at.Savepointing? {
      DoneGood(who, s.(failed := true), s.pc.m, false, job);
    } else {
      DoneGood(who, s, s.pc.m, false, job);
    }
  }

  /** A failed operation leaves the job as it was. */
  lemma FailedOpGood(who: SessionId, s: Session, transport: bool, retries: nat, job: Db2.Job)
    requires s.pc.Awaiting? && Good(who, s, job)
    ensures Good(who, Resume(s, false, transport, retries), job)
    ensures Uses(Resume(s, false, transport, retries)) == Uses(s)
    ensures Plain(Resume(s, false, transport, retries).pc)
  {
    hide Resume, Good, Uses, Plain;
    match s.pc.at {
      case PrepareSchema(_) => FailedWorkGood(who, s, transport, retries, job);
      case ReplaySchema(_) => FailedWorkGood(who, s, transport, retries, job);
      case ReplayCommit(_) => FailedWorkGood(who, s, transport, retries, job);
      case AppRun(_) => FailedWorkGood(who, s, transport, retries, job);
      case AutoCommit => FailedWorkGood(who, s, transport, retries, job);
      case AutoRollback => FailedWorkGood(who, s, transport, retries, job);
      case _ => FailedControlGood(who, s, transport, retries, job);
    }
  }

  /** The effect of the awaited operation on the session's job. */
  function After(who: SessionId, s: Session, creates: bool, job: Db2.Job): Db2.Effect
    requires s.pc.Awaiting?
  {
    Db2.Perform(job, OpAt(s, who, s.pc.m, s.pc.at, creates))
  }

  lemma ReplayOpGood(who: SessionId, s: Session, creates: bool, retries: nat, job: Db2.Job)
    requires s.pc.Awaiting? && Good(who, s, job)
    requires s.pc.at.PrepareSchema? || s.pc.at.ReplaySchema? || s.pc.at.ReplayCommit?
    requires After(who, s, creates, job).Applied?
    ensures Good(who, Resume(s, true, false, retries), After(who, s, creates, job).job)
    ensures Uses(Resume(s, true, false, retries)) == Uses(s)
    ensures Plain(Resume(s, true, false, retries).pc)
  {
    hide Done, EndTxn, CatalogDone;
    var m := s.pc.m;
    var st := StmtOf(m);
    var after := After(who, s, creates, job).job;
  }

  lemma EndingOpGood(who: SessionId, s: Session, creates: bool, retries: nat, job: Db2.Job)
    requires s.pc.Awaiting? && Good(who, s, job)
    requires s.pc.at.Savepointing? || s.pc.at.TxnCommit? || s.pc.at.TxnRollback?
    requires After(who, s, creates, job).Applied?
    ensures Good(who, Resume(s, true, false, retries), After(who, s, creates, job).job)
    ensures Uses(Resume(s, true, false, retries)) == Uses(s)
    ensures Plain(Resume(s, true, false, retries).pc)
  {
    hide Done, EndTxn, CatalogDone;
    var m := s.pc.m;
    var st := StmtOf(m);
    var after := After(who, s, creates, job).job;
    if s.pc.at.Savepointing? {
      var s1 := if st.action.RollbackToIt? then s.(failed := false) else s;
      DoneGood(who, Send(s1, Completion(m)), m, true, after);
    } else {
      EndTxnGood(who, s, m, s.pc.at.TxnCommit?, after);
    }
  }

  lemma RestoreOpGood(who: SessionId, s: Session, creates: bool, retries: nat, job: Db2.Job)
    requires s.pc.Awaiting? && Good(who, s, job)
    requires s.pc.at.RestoreSchema? || s.pc.at.RestoreCommit? || s.pc.at.RestoreCheck?
    requires After(who, s, creates, job).Applied?
    ensures Good(who, Resume(s, true, false, retries), After(who, s, creates, job).job)
    ensures Uses(Resume(s, true, false, retries)) == Uses(s)
    ensures Plain(Resume(s, true, false, retries).pc)
  {
    hide Done, EndTxn, CatalogDone, AppDone;
    var after := After(who, s, creates, job).job;
    if s.pc.at.RestoreCheck? { DoneGood(who, Send(s, Completion(s.pc.m)), s.pc.m, true, after); }
  }

  lemma PathOpGood(who: SessionId, s: Session, creates: bool, retries: nat, job: Db2.Job)
    requires s.pc.Awaiting? && Good(who, s, job) && (s.pc.at.PathPrepare? || s.pc.at.PathSet?)
    requires After(who, s, creates, job).Applied?
    ensures Good(who, Resume(s, true, false, retries), After(who, s, creates, job).job)
    ensures Uses(Resume(s, true, false, retries)) == Uses(s)
    ensures Plain(Resume(s, true, false, retries).pc)
  {
    hide Done, Reply, EndTxn, CatalogDone, AppDone;
  }

  lemma PathEndGood(who: SessionId, s: Session, creates: bool, retries: nat, job: Db2.Job)
    requires s.pc.Awaiting? && Good(who, s, job) && (s.pc.at.PathCheck? || s.pc.at.PathCommit?)
    requires After(who, s, creates, job).Applied?
    ensures Good(who, Resume(s, true, false, retries), After(who, s, creates, job).job)
    ensures Uses(Resume(s, true, false, retries)) == Uses(s)
    ensures Plain(Resume(s, true, false, retries).pc)
  {
    hide Done, EndTxn, CatalogDone, AppDone;
    var after := After(who, s, creates, job).job;
    if s.pc.at.PathCommit? || s.inTxn {
      DoneGood(who, Send(s, Completion(s.pc.m)), s.pc.m, true, after);
    }
  }

  lemma CatalogOpGood(who: SessionId, s: Session, creates: bool, retries: nat, job: Db2.Job)
    requires s.pc.Awaiting? && Good(who, s, job)
    requires s.pc.at.CatalogRead? || s.pc.at.CatalogCommit?
    requires After(who, s, creates, job).Applied?
    ensures Good(who, Resume(s, true, false, retries), After(who, s, creates, job).job)
    ensures Uses(Resume(s, true, false, retries)) == Uses(s)
    ensures Plain(Resume(s, true, false, retries).pc)
  {
    hide Done, EndTxn, CatalogDone, AppDone;
    CatalogDoneGood(who, s, s.pc.m, After(who, s, creates, job).job);
  }

  lemma WorkOpGood(who: SessionId, s: Session, creates: bool, retries: nat, job: Db2.Job)
    requires s.pc.Awaiting? && Good(who, s, job)
    requires s.pc.at.AppRun? || s.pc.at.AutoCommit? || s.pc.at.AutoRollback?
    requires After(who, s, creates, job).Applied?
    ensures Good(who, Resume(s, true, false, retries), After(who, s, creates, job).job)
    ensures Uses(Resume(s, true, false, retries)) == Uses(s)
    ensures Plain(Resume(s, true, false, retries).pc)
  {
    hide Done, EndTxn, CatalogDone;
    var m := s.pc.m;
    var st := StmtOf(m);
    var after := After(who, s, creates, job).job;
    match s.pc.at {
      case AppRun(_) =>
        var s1 := if st.App? && st.work.Defines? then s.(registry := s.registry + [st.work.entry]) else s;
        if s.inTxn { DoneGood(who, Send(s1, Completion(m)), m, true, after); }
      case AutoCommit => DoneGood(who, Send(s, Completion(m)), m, true, after);
      case _ => DoneGood(who, s, m, false, after);
    }
  }

  /** A successful operation changes the job as Db2.Perform says. */
  lemma OpGood(who: SessionId, s: Session, creates: bool, retries: nat, job: Db2.Job)
    requires s.pc.Awaiting? && Good(who, s, job)
    requires After(who, s, creates, job).Applied?
    ensures Good(who, Resume(s, true, false, retries), After(who, s, creates, job).job)
    ensures Uses(Resume(s, true, false, retries)) == Uses(s)
    ensures Plain(Resume(s, true, false, retries).pc)
  {
    hide Resume, After, Uses;
    match s.pc.at {
      case PrepareSchema(_) => ReplayOpGood(who, s, creates, retries, job);
      case ReplaySchema(_) => ReplayOpGood(who, s, creates, retries, job);
      case ReplayCommit(_) => ReplayOpGood(who, s, creates, retries, job);
      case Savepointing => EndingOpGood(who, s, creates, retries, job);
      case TxnCommit => EndingOpGood(who, s, creates, retries, job);
      case TxnRollback => EndingOpGood(who, s, creates, retries, job);
      case CatalogRead => CatalogOpGood(who, s, creates, retries, job);
      case CatalogCommit => CatalogOpGood(who, s, creates, retries, job);
      case AppRun(_) => WorkOpGood(who, s, creates, retries, job);
      case AutoCommit => WorkOpGood(who, s, creates, retries, job);
      case AutoRollback => WorkOpGood(who, s, creates, retries, job);
      case RestoreSchema(_) => RestoreOpGood(who, s, creates, retries, job);
      case RestoreCommit(_) => RestoreOpGood(who, s, creates, retries, job);
      case RestoreCheck => RestoreOpGood(who, s, creates, retries, job);
      case PathPrepare => PathOpGood(who, s, creates, retries, job);
      case PathSet => PathOpGood(who, s, creates, retries, job);
      case _ => PathEndGood(who, s, creates, retries, job);
    }
  }
}
