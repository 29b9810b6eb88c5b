/**
 ProxySession as a coroutine: one function per span of the handler between two
 awaits.  A span starts when a frontend message arrives, when the pool grants a
 job, or when an awaited Db2 operation settles, and ends by recording in `pc`
 what the handler awaits next.  The lease mode is "transaction".
 */
module Sessions {
  import opened Wrappers
  import opened JobPool
  import Db2

  // ---- frontend messages ----

  datatype SavepointAction = SetIt | ReleaseIt | RollbackToIt

  /** Statements that never need Db2, by how executeSql disposes of them. */
  datatype LocalKind =
    | TableOwner                // ALTER TABLE .. OWNER TO: acknowledged before anything else
    | SchemaMetadata            // COMMENT ON SCHEMA, schema privileges: refused before anything else
    | Deallocate(known: bool)
    | AdvisoryLock
    | Environment
    | UnknownSet                // refused
    | ConstantRows              // catalog SELECT answered with constant rows: a job is leased all the same
    | Firewalled                // unhandled PostgreSQL system SELECT: refused

  /** What the proxy does with an application statement on the backend. */
  datatype Work = Reads | Writes | Defines(entry: nat)

  datatype Lookup = NoLookup | LookupAbsent | LookupPresent

  datatype Stmt =
    | Begin
    | CommitTxn
    | RollbackTxn
    | SavepointCmd(action: SavepointAction, name: string)
    | SetPath(schema: string, local: bool)
    | Local(kind: LocalKind)
    | LiveCatalog
    | CreateSchema(id: nat, lookup: Lookup)
    | App(id: nat, work: Work, lookup: Lookup)

  datatype Msg =
    | Query(stmt: Stmt)
    | EmptyQuery
    | Execute(stmt: Stmt)             // portal without a stored result
    | ExecuteStored                   // portal holding a result from Describe
    | DescribePortal(stmt: Stmt)
    | DescribeStatement(stmt: Stmt)
    | Bookkeeping(accepted: bool)     // Parse, Bind, Close
    | Sync
    | Flush
    | Unsupported
    | Terminate

  predicate IsQuery(m: Msg) { m.Query? || m.EmptyQuery? }

  /** Messages that have a statement executed, by either protocol. */
  predicate IsStatement(m: Msg) { m.Query? || m.Execute? }

  // ---- responses and the conversation ----

  datatype TxStatus = I | T | E

  datatype Response = Data | CommandComplete | ErrorResponse | ReadyForQuery(status: TxStatus)

  datatype Event = Received(msg: Msg) | Skipped(msg: Msg) | Sent(response: Response)

  // ---- control points ----

  /** Why a job is being checked out: for the message, or to repeat a failed read. */
  datatype Mode = First | Retry(attempt: nat)

  datatype Label =
    | PrepareSchema(mode: Mode) | ReplaySchema(mode: Mode) | ReplayCommit(mode: Mode)
    | Savepointing
    | TxnCommit | TxnRollback
    | RestoreSchema(saved: string) | RestoreCommit(saved: string) | RestoreCheck
    | PathPrepare | PathSet | PathCheck | PathCommit
    | CatalogRead | CatalogCommit
    | AppRun(attempt: nat) | AutoCommit | AutoRollback

  /** What follows an invalidated job. */
  datatype Then = Finish(ok: bool) | Reacquire(attempt: nat)

  datatype ResetStage = RollingBack | ResettingSchema

  datatype Pc =
    | Ready
    | WantLease(m: Msg, mode: Mode)
    | Waiting(m: Msg, mode: Mode)
    | Connecting(m: Msg, mode: Mode)
    | Granted(m: Msg, mode: Mode, lease: JobId)
    | Refused(m: Msg, mode: Mode)
    | Start(m: Msg, mode: Mode)
    | Awaiting(m: Msg, at: Label)
    | Releasing(m: Msg, lease: JobId, ok: bool)
    | Resetting(m: Msg, lease: JobId, ok: bool, stage: ResetStage)
    | Invalidating(m: Msg, lease: JobId, next: Then)
    | Closing(m: Msg, lease: JobId, next: Then, refill: bool)
    | Replacing(m: Msg, next: Then)

  datatype Session = Session(
    job: Option<JobId>,
    inTxn: bool,
    failed: bool,
    closed: bool,
    skipping: bool,               // extendedError
    schema: string,               // currentSchema
    restore: Option<string>,      // localSchemaRestore
    registry: seq<nat>,           // DDL registries: the definitions recorded so far
    snapshot: Option<seq<nat>>,   // transactionSnapshot
    txn: nat,                     // history tag of the current transaction
    missing: nat,                 // history: how often currentJob() found no job
    pc: Pc,
    trace: seq<Event>
  )

  function Fresh(schema: string): Session {
    Session(None, false, false, false, false, schema, None, [], None, 0, 0, Ready, [])
  }

  function StatusOf(s: Session): TxStatus {
    if s.failed then E else if s.inTxn then T else I
  }

  function Note(s: Session, e: Event): Session { s.(trace := s.trace + [e]) }

  function Send(s: Session, r: Response): Session { Note(s, Sent(r)) }

  // ---- the end of a message ----

  /** The catch clause of handleRaw, after the finally clause of handleMessage. */
  function Settle(s: Session, m: Msg, ok: bool): Session {
    if ok then s.(pc := Ready)
    else
      var s1 := Send(s, ErrorResponse);
      if IsQuery(m) then Send(s1, ReadyForQuery(StatusOf(s1))).(pc := Ready)
      else if m.Terminate? then s1.(pc := Ready)
      else s1.(pc := Ready, skipping := true)
  }

  /** The handler returns (`ok`) or throws; the finally clause gives back an idle job. */
  function Done(s: Session, m: Msg, ok: bool): Session {
    var s1 := if ok && IsQuery(m) then Send(s, ReadyForQuery(StatusOf(s))) else s;
    if s1.job.Some? && !s1.inTxn
    then s1.(job := None, pc := Releasing(m, s1.job.value, ok))
    else Settle(s1, m, ok)
  }

  /** What reports success: Describe is answered by a description of the result. */
  function Completion(m: Msg): Response {
    if m.DescribePortal? || m.DescribeStatement? then Data else CommandComplete
  }

  function Reply(s: Session, m: Msg): Session {
    Done(Send(s, Completion(m)), m, true)
  }

  /** close(): run for Terminate, or by the socket between two messages. */
  function Close(s: Session): Session {
    var s1 := s.(closed := true);
    if s1.job.Some?
    then s1.(job := None, pc := Releasing(Terminate, s1.job.value, true))
    else s1.(pc := Ready)
  }

  // ---- reaching the backend ----

  /** Await a Db2 operation on the session's job; without a job currentJob() throws. */
  function Enter(s: Session, m: Msg, at: Label): Session {
    if s.job.Some? then s.(pc := Awaiting(m, at))
    else
      var s1 := s.(missing := s.missing + 1);
      Done(if (at.Savepointing? || at.AppRun?) && s1.inTxn then s1.(failed := true) else s1, m, false)
  }

  /** An application statement; outside a transaction block it opens an implicit transaction. */
  function EnterApp(s: Session, m: Msg, attempt: nat): Session {
    Enter(if s.inTxn then s else s.(txn := s.txn + 1), m, AppRun(attempt))
  }

  /** The block is over: flags and snapshots are cleared, the registries restored unless they are kept. */
  function LeaveBlock(s: Session, keep: bool): Session {
    s.(inTxn := false, failed := false, snapshot := None,
       registry := if keep || s.snapshot.None? then s.registry else s.snapshot.value)
  }

  /** restoreLocalSearchPath() up to its first await, and the reply when there is none. */
  function RestorePath(s: Session, m: Msg): Session {
    if s.restore.None? then Reply(s, m)
    else if s.job.Some? then s.(restore := None, pc := Awaiting(m, RestoreSchema(s.restore.value)))
    else Reply(s.(restore := None, schema := s.restore.value), m)
  }

  function EndTxn(s: Session, m: Msg, keep: bool): Session {
    RestorePath(LeaveBlock(s, keep), m)
  }

  /** A SELECT that executePortal's Describe would run on Db2 for its metadata. */
  predicate RowsFromDb2(st: Stmt) {
    (st.App? && st.work.Reads?) || st == Local(Firewalled)
  }

  /** executeSql up to its first suspension. */
  function StartSql(s: Session, m: Msg, st: Stmt): Session {
    match st
    case CreateSchema(id, lookup) =>
      if lookup.NoLookup? then EnterApp(s, m, 0) else Enter(s, m, CatalogRead)
    case Local(kind) =>
      if kind.TableOwner? then Reply(s, m)
      else if kind.SchemaMetadata? || s.failed then Done(s, m, false)
      else if kind.UnknownSet? || kind.Firewalled? || kind == Deallocate(false) then Done(s, m, false)
      else Reply(s, m)
    case SavepointCmd(action, name) =>
      if !s.inTxn || (s.failed && !action.RollbackToIt?) then Done(s, m, false)
      else Enter(s, m, Savepointing)
    case CommitTxn =>
      if s.job.None? then EndTxn(s, m, !s.failed)
      else Enter(s, m, if s.failed then TxnRollback else TxnCommit)
    case RollbackTxn =>
      if s.job.None? then EndTxn(s, m, false) else Enter(s, m, TxnRollback)
    case Begin =>
      if s.failed then Done(s, m, false)
      else
        Reply(if s.inTxn then s
              else s.(inTxn := true, failed := false, snapshot := Some(s.registry), txn := s.txn + 1), m)
    case SetPath(schema, local) =>
      if s.failed || (local && !s.inTxn) then Done(s, m, false)
      else
        Enter(if local && s.restore.None? then s.(restore := Some(s.schema)) else s, m, PathPrepare)
    case LiveCatalog =>
      if s.failed then Done(s, m, false) else Enter(s, m, CatalogRead)
    case App(id, work, lookup) =>
      if s.failed then Done(s, m, false)
      else if lookup.NoLookup? then EnterApp(s, m, 0)
      else Enter(s, m, CatalogRead)
  }

  /** The switch of handleMessage, up to its first suspension. */
  function StartBody(s: Session, m: Msg): Session {
    match m
    case Query(st) => StartSql(s, m, st)
    case Execute(st) => StartSql(s, m, st)
    case EmptyQuery => Done(Send(s, Data), m, true)
    case ExecuteStored => Reply(s, m)
    case DescribePortal(st) =>
      if st.LiveCatalog? then Enter(s, m, CatalogRead)
      else if RowsFromDb2(st) then EnterApp(s, m, 0)
      else Done(Send(s, Data), m, true)
    case DescribeStatement(st) =>
      var s1 := Send(s, Data);
      if st.LiveCatalog? then Enter(s1, m, CatalogRead)
      else Done(s1, m, !RowsFromDb2(st))
    case Bookkeeping(accepted) => if accepted then Done(Send(s, Data), m, true) else Done(s, m, false)
    case Sync => Done(Send(s.(skipping := false), ReadyForQuery(StatusOf(s))), m, true)
    case Flush => Done(s, m, true)
    case Unsupported => Done(Send(s, ErrorResponse), m, true)
    case Terminate => Close(s)
  }

  // ---- frontendMessageNeedsBackend ----

  predicate QueryNeedsBackend(s: Session, st: Stmt) {
    match st
    case Local(kind) => (kind.Firewalled? || kind.ConstantRows?) && !s.failed
    case Begin => false
    case CommitTxn => s.job.Some?
    case RollbackTxn => s.job.Some?
    case SavepointCmd(action, name) =>
      if action.RollbackToIt? then s.job.Some? && s.inTxn else !s.failed && s.inTxn
    case _ => !s.failed
  }

  predicate NeedsBackend(s: Session, m: Msg) {
    match m
    case Query(st) => QueryNeedsBackend(s, st)
    case Execute(st) => st != Local(AdvisoryLock) && st != Local(Environment)
    case DescribePortal(st) => st.LiveCatalog? || RowsFromDb2(st) || st == Local(ConstantRows)
    case _ => false
  }

  /** A message reaches the head of the session's chain. */
  function Receive(s: Session, m: Msg): Session {
    if s.skipping && !m.Sync? && !m.Terminate? then Note(s, Skipped(m))
    else if s.closed then s
    else
      var s1 := Note(s, Received(m));
      if NeedsBackend(s, m) && s.job.None? then s1.(pc := WantLease(m, First)) else StartBody(s1, m)
  }

  /** ensureBackendJob after acquire(): the job is the session's, its state is replayed. */
  function TakeLease(s: Session): Session
    requires s.pc.Granted?
  {
    s.(job := Some(s.pc.lease), pc := Awaiting(s.pc.m, PrepareSchema(s.pc.mode)))
  }

  /** After the checkout: run the message, or repeat the read that lost its job. */
  function Begun(s: Session): Session
    requires s.pc.Start?
  {
    match s.pc.mode
    case First => StartBody(s, s.pc.m)
    case Retry(attempt) => EnterApp(s, s.pc.m, attempt)
  }

  function StmtOf(m: Msg): Stmt {
    match m
    case Query(st) => st
    case Execute(st) => st
    case DescribePortal(st) => st
    case DescribeStatement(st) => st
    case _ => Local(Environment)
  }

  /** The Db2 operation awaited at a label.  `creates`: prepareSchema finds the
      schema missing and provisions it, which it may do outside transactions only. */
  function OpAt(s: Session, who: SessionId, m: Msg, at: Label, creates: bool): Db2.Op {
    var st := StmtOf(m);
    match at
    case PrepareSchema(_) => if creates && !s.inTxn then Db2.CreateMissingSchema(s.schema) else Db2.Query
    case ReplaySchema(_) => Db2.SetSchema(s.schema)
    case ReplayCommit(_) => Db2.Commit
    case Savepointing =>
      if !st.SavepointCmd? then Db2.Query
      else (match st.action
        case SetIt => Db2.SetSavepoint(st.name)
        case ReleaseIt => Db2.ReleaseSavepoint(st.name)
        case RollbackToIt => Db2.RollbackTo(st.name))
    case TxnCommit => Db2.Commit
    case TxnRollback => Db2.Rollback
    case RestoreSchema(saved) => Db2.SetSchema(saved)
    case RestoreCommit(_) => Db2.Commit
    case RestoreCheck => Db2.Query
    case PathPrepare =>
      if creates && !s.inTxn && st.SetPath? then Db2.CreateMissingSchema(st.schema) else Db2.Query
    case PathSet => if st.SetPath? then Db2.SetSchema(st.schema) else Db2.Query
    case PathCheck => Db2.Query
    case PathCommit => Db2.Commit
    case CatalogRead => Db2.Query
    case CatalogCommit => Db2.Commit
    case AppRun(_) =>
      if st.CreateSchema? || (st.App? && !st.work.Reads?) then Db2.Insert(who, s.txn, st.id) else Db2.Query
    case AutoCommit => Db2.Commit
    case AutoRollback => Db2.Rollback
  }

  function CatalogDone(s: Session, m: Msg): Session {
    var st := StmtOf(m);
    if !m.DescribePortal? && !m.DescribeStatement? && st.CreateSchema? then
      if st.lookup.LookupPresent? then Reply(s, m) else EnterApp(s, m, 0)
    else if !m.DescribePortal? && !m.DescribeStatement? && st.App? then EnterApp(s, m, 0)
    else Reply(s, m)
  }

  /** ensureBackendJob throws.  In a retry the catch clause around the read then
      calls currentJob() for a ROLLBACK, finds no job, and swallows that error. */
  function Abandoned(s: Session, mode: Mode): Session {
    if mode.Retry? then s.(missing := s.missing + 1) else s
  }

  /** The pool has refused a job. */
  function LeaseDenied(s: Session): Session
    requires s.pc.Refused?
  {
    Settle(Abandoned(s, s.pc.mode), s.pc.m, false)
  }

  function CheckoutFailed(s: Session, m: Msg, mode: Mode): Session
    requires s.job.Some?
  {
    Abandoned(s, mode).(job := None, pc := Invalidating(m, s.job.value, Finish(false)))
  }

  /** An application statement has succeeded on the backend. */
  function AppDone(s: Session, m: Msg): Session {
    var st := StmtOf(m);
    var s1 := if st.App? && st.work.Defines? then s.(registry := s.registry + [st.work.entry]) else s;
    if s1.inTxn then Reply(s1, m) else s1.(pc := Awaiting(m, AutoCommit))
  }

  /** An application statement has failed; only reads outside a transaction are repeated on a new job. */
  function AppFailed(s: Session, m: Msg, attempt: nat, transport: bool, retries: nat): Session
    requires s.job.Some?
  {
    if attempt < retries && !s.inTxn && RowsFromDb2(StmtOf(m)) && transport
    then s.(job := None, pc := Invalidating(m, s.job.value, Reacquire(attempt + 1)))
    else if s.inTxn then Done(s.(failed := true), m, false)
    else s.(pc := Awaiting(m, AutoRollback))
  }

  /** The awaited Db2 operation settles. */
  function Resume(s: Session, ok: bool, transport: bool, retries: nat): Session
    requires s.pc.Awaiting? && s.job.Some?
  {
    var m := s.pc.m;
    var st := StmtOf(m);
    match s.pc.at
    case PrepareSchema(mode) =>
      if ok then s.(pc := Awaiting(m, ReplaySchema(mode))) else CheckoutFailed(s, m, mode)
    case ReplaySchema(mode) =>
      if ok then s.(pc := Awaiting(m, ReplayCommit(mode))) else CheckoutFailed(s, m, mode)
    case ReplayCommit(mode) =>
      if ok then s.(pc := Start(m, mode)) else CheckoutFailed(s, m, mode)
    case Savepointing =>
      if ok then Reply(if st.SavepointCmd? && st.action.RollbackToIt? then s.(failed := false) else s, m)
      else Done(s.(failed := true), m, false)
    case TxnCommit => if ok then EndTxn(s, m, true) else Done(s, m, false)
    case TxnRollback => if ok then EndTxn(s, m, false) else Done(s, m, false)
    case RestoreSchema(saved) =>
      if ok then s.(pc := Awaiting(m, RestoreCommit(saved))) else Done(s, m, false)
    case RestoreCommit(saved) =>
      if ok then s.(schema := saved, pc := Awaiting(m, RestoreCheck)) else Done(s, m, false)
    case RestoreCheck => if ok then Reply(s, m) else Done(s, m, false)
    case PathPrepare => if ok then s.(pc := Awaiting(m, PathSet)) else Done(s, m, false)
    case PathSet =>
      if ok && st.SetPath? then s.(schema := st.schema, pc := Awaiting(m, PathCheck)) else Done(s, m, false)
    case PathCheck =>
      if !ok then Done(s, m, false)
      else if s.inTxn then Reply(s, m)
      else s.(pc := Awaiting(m, PathCommit))
    case PathCommit => if ok then Reply(s, m) else Done(s, m, false)
    case CatalogRead =>
      if !ok then Done(s, m, false)
      else if s.inTxn then CatalogDone(s, m)
      else s.(pc := Awaiting(m, CatalogCommit))
    case CatalogCommit => if ok then CatalogDone(s, m) else Done(s, m, false)
    case AppRun(attempt) =>
      if ok then AppDone(s, m) else AppFailed(s, m, attempt, transport, retries)
    case AutoCommit => if ok then Reply(s, m) else s.(pc := Awaiting(m, AutoRollback))
    case AutoRollback => Done(s, m, false)
  }

  /** The session's pool call has returned. */
  function Continue(s: Session, m: Msg, next: Then): Session {
    match next
    case Finish(ok) => Settle(s, m, ok)
    case Reacquire(attempt) => s.(pc := WantLease(m, Retry(attempt)))
  }
}
