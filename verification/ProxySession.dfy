/**
 ProxySession: the mutable session object.  Each method is one span of the
 message handler between two awaits; it updates the fields in place, leaves in
 `pc` what the handler awaits next, and does to them what the function of
 Sessions with the same role says.
 */
module ProxySessions {
  import opened Wrappers
  import opened JobPool
  import opened Sessions
  import opened SessionInvariant
  import LeaseInvariant
  import Db2

  /** What the session does when the pool call it waits for returns. */
  predicate Returns(pc: Pc, m: Msg, next: Then) {
    match pc
    case Releasing(n, _, ok) => m == n && next == Finish(ok)
    case Resetting(n, _, ok, _) => m == n && next == Finish(ok)
    case Invalidating(n, _, follows) => m == n && next == follows
    case Closing(n, _, follows, _) => m == n && next == follows
    case Replacing(n, follows) => m == n && next == follows
    case _ => false
  }

  class ProxySession {
    var job: Option<JobId>
    var inTransaction: bool
    var transactionFailed: bool
    var closed: bool
    var extendedError: bool
    var currentSchema: string
    var localSchemaRestore: Option<string>
    var registry: seq<nat>
    var transactionSnapshot: Option<seq<nat>>
    ghost var txn: nat
    ghost var missing: nat
    var pc: Pc
    var trace: seq<Event>

    constructor (schema: string)
      ensures Valid() && View() == Fresh(schema)
    {
      job := None;
      inTransaction, transactionFailed, closed, extendedError := false, false, false, false;
      currentSchema, localSchemaRestore := schema, None;
      registry, transactionSnapshot := [], None;
      txn, missing := 0, 0;
      pc, trace := Ready, [];
    }

    ghost function View(): Session
      reads this
    {
      Session(job, inTransaction, transactionFailed, closed, extendedError, currentSchema, localSchemaRestore,
              registry, transactionSnapshot, txn, missing, pc, trace)
    }

    /** Transaction state in lockstep, and a job held only where the control point has one. */
    ghost predicate Valid()
      reads this
    {
      WellFormed(View())
    }

    function TxStatus(): (r: TxStatus)
      reads this
      ensures r == StatusOf(View())
    {
      if transactionFailed then E else if inTransaction then T else I
    }

    method SendOne(r: Response)
      modifies this`trace
      ensures View() == Send(old(View()), r)
    {
      trace := trace + [Sent(r)];
    }

    /** The catch clause of handleRaw. */
    method SettleMessage(m: Msg, ok: bool)
      modifies this
      ensures View() == Settle(old(View()), m, ok)
    {
      pc := Ready;
      if !ok {
        SendOne(ErrorResponse);
        if IsQuery(m) {
          SendOne(ReadyForQuery(TxStatus()));
        } else if !m.Terminate? {
          extendedError := true;
        }
      }
    }

    /** Return or throw from the handler, through releaseBackendIfIdle. */
    method FinishMessage(m: Msg, ok: bool)
      modifies this
      ensures View() == Done(old(View()), m, ok)
    {
      if ok && IsQuery(m) {
        SendOne(ReadyForQuery(TxStatus()));
      }
      if job.Some? && !inTransaction {
        pc := Releasing(m, job.value, ok);
        job := None;
      } else {
        SettleMessage(m, ok);
      }
    }

    method ReplyComplete(m: Msg)
      modifies this
      ensures View() == Reply(old(View()), m)
    {
      SendOne(Completion(m));
      FinishMessage(m, true);
    }

    /** close(). */
    method CloseSession()
      modifies this
      ensures View() == Close(old(View()))
    {
      closed := true;
      if job.Some? {
        pc := Releasing(Terminate, job.value, true);
        job := None;
      } else {
        pc := Ready;
      }
    }

    /** Await an operation on currentJob(), which throws when there is none. */
    method EnterJob(m: Msg, at: Label)
      modifies this
      ensures View() == Enter(old(View()), m, at)
    {
      hide Done;
      if job.Some? {
        pc := Awaiting(m, at);
      } else {
        missing := missing + 1;
        if (at.Savepointing? || at.AppRun?) && inTransaction {
          transactionFailed := true;
        }
        FinishMessage(m, false);
      }
    }

    method EnterStatement(m: Msg, attempt: nat)
      modifies this
      ensures View() == EnterApp(old(View()), m, attempt)
    {
      hide Enter;
      if !inTransaction {
        txn := txn + 1;
      }
      EnterJob(m, AppRun(attempt));
    }

    /** restoreLocalSearchPath() up to its first await, and the reply when there is none. */
    method RestoreLocalSearchPath(m: Msg)
      modifies this
      ensures View() == RestorePath(old(View()), m)
    {
      hide Reply;
      if localSchemaRestore.None? {
        ReplyComplete(m);
      } else {
        var saved := localSchemaRestore.value;
        localSchemaRestore := None;
        if job.Some? {
          pc := Awaiting(m, RestoreSchema(saved));
        } else {
          currentSchema := saved;
          ReplyComplete(m);
        }
      }
    }

    /** The end of a block: flags, registries, and the schema saved by SET LOCAL. */
    method EndTransaction(m: Msg, keep: bool)
      modifies this
      ensures View() == EndTxn(old(View()), m, keep)
    {
      hide RestorePath;
      inTransaction := false;
      transactionFailed := false;
      if !keep && transactionSnapshot.Some? {
        registry := transactionSnapshot.value;
      }
      transactionSnapshot := None;
      RestoreLocalSearchPath(m);
    }

    method BeginTransaction(m: Msg)
      requires !transactionFailed
      modifies this
      ensures View() == StartSql(old(View()), m, Begin)
    {
      hide Reply;
      if !inTransaction {
        transactionSnapshot := Some(registry);
        txn := txn + 1;
      }
      inTransaction := true;
      transactionFailed := false;
      ReplyComplete(m);
    }

    /** The statements executeSql disposes of without Db2. */
    method ExecuteLocal(m: Msg, kind: LocalKind)
      modifies this
      ensures View() == StartSql(old(View()), m, Local(kind))
    {
      hide Reply, Done;
      if kind.TableOwner? {
        ReplyComplete(m);
      } else if kind.SchemaMetadata? || transactionFailed {
        FinishMessage(m, false);
      } else if kind.UnknownSet? || kind.Firewalled? || kind == Deallocate(false) {
        FinishMessage(m, false);
      } else {
        ReplyComplete(m);
      }
    }

    /** handleCommit and handleRollback up to their first await. */
    method ExecuteEnd(m: Msg, st: Stmt)
      requires st.CommitTxn? || st.RollbackTxn?
      modifies this
      ensures View() == StartSql(old(View()), m, st)
    {
      hide Enter, EndTxn;
      var keep := st.CommitTxn? && !transactionFailed;
      if job.None? {
        EndTransaction(m, keep);
      } else {
        EnterJob(m, if keep then TxnCommit else TxnRollback);
      }
    }

    /** setSearchPath up to its first await. */
    method ExecuteSetPath(m: Msg, st: Stmt)
      requires st.SetPath?
      modifies this
      ensures View() == StartSql(old(View()), m, st)
    {
      hide Done, Enter;
      if transactionFailed || (st.local && !inTransaction) {
        FinishMessage(m, false);
      } else {
        if st.local && localSchemaRestore.None? {
          localSchemaRestore := Some(currentSchema);
        }
        EnterJob(m, PathPrepare);
      }
    }

    method ExecuteSavepoint(m: Msg, st: Stmt)
      requires st.SavepointCmd?
      modifies this
      ensures View() == StartSql(old(View()), m, st)
    {
      hide Done, Enter;
      if !inTransaction || (transactionFailed && !st.action.RollbackToIt?) {
        FinishMessage(m, false);
      } else {
        EnterJob(m, Savepointing);
      }
    }

    /** Statements that Db2 executes, after a look into the catalog where they need one. */
    method ExecuteOnBackend(m: Msg, st: Stmt)
      requires st.CreateSchema? || st.LiveCatalog? || st.App?
      modifies this
      ensures View() == StartSql(old(View()), m, st)
    {
      hide Done, Enter, EnterApp;
      if transactionFailed && !st.CreateSchema? {
        FinishMessage(m, false);
      } else if st.LiveCatalog? || !st.lookup.NoLookup? {
        EnterJob(m, CatalogRead);
      } else {
        EnterStatement(m, 0);
      }
    }

    /** executeSql up to its first await. */
    method ExecuteSql(m: Msg, st: Stmt)
      modifies this
      ensures View() == StartSql(old(View()), m, st)
    {
      hide Reply, Done, Enter, EnterApp, EndTxn;
      match st {
        case Local(kind) => ExecuteLocal(m, kind);
        case SavepointCmd(_, _) => ExecuteSavepoint(m, st);
        case CommitTxn => ExecuteEnd(m, st);
        case RollbackTxn => ExecuteEnd(m, st);
        case Begin => if transactionFailed { FinishMessage(m, false); } else { BeginTransaction(m); }
        case SetPath(_, _) => ExecuteSetPath(m, st);
        case _ => ExecuteOnBackend(m, st);
      }
    }

    /** describePortal and describeStatement up to their first await. */
    method Describe(m: Msg)
      requires m.DescribePortal? || m.DescribeStatement?
      modifies this
      ensures View() == StartBody(old(View()), m)
    {
      hide StartSql, Reply, Done, Enter, EnterApp;
      var st := m.stmt;
      if m.DescribePortal? && st.LiveCatalog? {
        EnterJob(m, CatalogRead);
      } else if m.DescribePortal? && RowsFromDb2(st) {
        EnterStatement(m, 0);
      } else {
        SendOne(Data);
        if st.LiveCatalog? { EnterJob(m, CatalogRead); } else { FinishMessage(m, !RowsFromDb2(st)); }
      }
    }

    /** The switch of handleMessage, up to its first await. */
    method Dispatch(m: Msg)
      modifies this
      ensures View() == StartBody(old(View()), m)
    {
      hide StartSql, Reply, Done, Enter, EnterApp;
      match m {
        case Query(st) => ExecuteSql(m, st);
        case Execute(st) => ExecuteSql(m, st);
        case EmptyQuery => SendOne(Data); FinishMessage(m, true);
        case ExecuteStored => ReplyComplete(m);
        case DescribePortal(_) => Describe(m);
        case DescribeStatement(_) => Describe(m);
        case Bookkeeping(accepted) =>
          if accepted { SendOne(Data); }
          FinishMessage(m, accepted);
        case Sync =>
          extendedError := false;
          SendOne(ReadyForQuery(TxStatus()));
          FinishMessage(m, true);
        case Flush => FinishMessage(m, true);
        case Unsupported => SendOne(ErrorResponse); FinishMessage(m, true);
        case Terminate => CloseSession();
      }
    }

    function MessageNeedsBackend(m: Msg): (r: bool)
      reads this
      ensures r == NeedsBackend(View(), m)
    {
      match m
      case Query(Local(kind)) => (kind.Firewalled? || kind.ConstantRows?) && !transactionFailed
      case Query(Begin) => false
      case Query(CommitTxn) => job.Some?
      case Query(RollbackTxn) => job.Some?
      case Query(SavepointCmd(action, _)) =>
        if action.RollbackToIt? then job.Some? && inTransaction else !transactionFailed && inTransaction
      case Query(_) => !transactionFailed
      case Execute(st) => st != Local(AdvisoryLock) && st != Local(Environment)
      case DescribePortal(st) => st.LiveCatalog? || RowsFromDb2(st) || st == Local(ConstantRows)
      case _ => false
    }

    /** A message reaches the head of the chain: skip it, ask for a job, or handle it. */
    method HandleMessage(m: Msg)
      requires Valid() && pc.Ready?
      modifies this
      ensures Valid() && Uses(View()) == Uses(old(View()))
      ensures View() == Receive(old(View()), m)
    {
      ReceiveValid(View(), m);
      hide StartBody;
      if extendedError && !m.Sync? && !m.Terminate? {
        trace := trace + [Skipped(m)];
      } else if !closed {
        trace := trace + [Received(m)];
        if MessageNeedsBackend(m) && job.None? {
          pc := WantLease(m, First);
        } else {
          Dispatch(m);
        }
      }
    }

    /** The socket has closed between two messages. */
    method SocketClosed()
      requires Valid() && pc.Ready? && !closed
      modifies this
      ensures Valid() && Uses(View()) == Uses(old(View()))
      ensures View() == Close(old(View()))
    {
      CloseValid(View());
      CloseSession();
    }

    /** ensureBackendJob once the pool has answered. */
    method Leased()
      requires Valid() && pc.Granted?
      modifies this
      ensures Valid() && Uses(View()) == Uses(old(View()))
      ensures View() == TakeLease(old(View()))
    {
      job := Some(pc.lease);
      pc := Awaiting(pc.m, PrepareSchema(pc.mode));
    }

    /** After ensureBackendJob: the message, or the next attempt of the retry loop. */
    method CheckedOut()
      requires Valid() && pc.Start?
      modifies this
      ensures Valid() && Uses(View()) == Uses(old(View()))
      ensures View() == Begun(old(View()))
    {
      BegunValid(View());
      match pc.mode {
        case First => Dispatch(pc.m);
        case Retry(attempt) => EnterStatement(pc.m, attempt);
      }
    }

    method CatalogAnswered(m: Msg)
      modifies this
      ensures View() == CatalogDone(old(View()), m)
    {
      var st := StmtOf(m);
      var describing := m.DescribePortal? || m.DescribeStatement?;
      if !describing && st.CreateSchema? && !st.lookup.LookupPresent? {
        EnterStatement(m, 0);
      } else if !describing && st.App? {
        EnterStatement(m, 0);
      } else {
        ReplyComplete(m);
      }
    }

    /** The catch clause of ensureBackendJob. */
    method CheckoutFails(m: Msg, mode: Mode)
      requires job.Some?
      modifies this
      ensures View() == CheckoutFailed(old(View()), m, mode)
    {
      if mode.Retry? {
        missing := missing + 1;
      }
      pc := Invalidating(m, job.value, Finish(false));
      job := None;
    }

    /** The pool has refused a job: the message fails. */
    method LeaseFails()
      requires Valid() && pc.Refused?
      modifies this
      ensures Valid() && Uses(View()) == None
      ensures View() == LeaseDenied(old(View()))
    {
      ghost var s := Abandoned(View(), pc.mode);
      SettleValid(s, pc.m, false);
      hide WellFormed, Uses, Settle;
      if pc.mode.Retry? {
        missing := missing + 1;
      }
      assert View() == s;
      hide Abandoned;
      SettleMessage(pc.m, false);
    }

    method StatementDone(m: Msg)
      modifies this
      ensures View() == AppDone(old(View()), m)
    {
      hide Reply, StmtOf;
      var st := StmtOf(m);
      if st.App? && st.work.Defines? {
        registry := registry + [st.work.entry];
      }
      if inTransaction { ReplyComplete(m); } else { pc := Awaiting(m, AutoCommit); }
    }

    /** executeWithSafeRetry and the catch clause around it. */
    method StatementFailed(m: Msg, attempt: nat, transport: bool, retries: nat)
      requires job.Some?
      modifies this
      ensures View() == AppFailed(old(View()), m, attempt, transport, retries)
    {
      hide Done, RowsFromDb2, StmtOf;
      if attempt < retries && !inTransaction && RowsFromDb2(StmtOf(m)) && transport {
        pc := Invalidating(m, job.value, Reacquire(attempt + 1));
        job := None;
      } else if inTransaction {
        transactionFailed := true;
        FinishMessage(m, false);
      } else {
        pc := Awaiting(m, AutoRollback);
      }
    }

    /** The rejected operation throws inside the handler. */
    method OperationThrows(transport: bool, retries: nat)
      requires pc.Awaiting? && job.Some?
      modifies this
      ensures View() == Resume(old(View()), false, transport, retries)
    {
      hide Done, AppFailed, CheckoutFailed;
      var m := pc.m;
      if pc.at.PrepareSchema? || pc.at.ReplaySchema? || pc.at.ReplayCommit? {
        CheckoutFails(m, pc.at.mode);
      } else if pc.at.AppRun? {
        StatementFailed(m, pc.at.attempt, transport, retries);
      } else if pc.at.AutoCommit? {
        pc := Awaiting(m, AutoRollback);
      } else {
        if pc.at.Savepointing? { transactionFailed := true; }
        FinishMessage(m, false);
      }
    }

    /** An awaited operation has failed. */
    method OperationFailed(transport: bool, retries: nat)
      requires Valid() && pc.Awaiting? && job.Some?
      modifies this
      ensures Valid() && Uses(View()) == Uses(old(View()))
      ensures View() == Resume(old(View()), false, transport, retries)
    {
      FailureValid(View(), transport, retries);
      hide Resume, WellFormed, Uses;
      OperationThrows(transport, retries);
    }

    /** ensureBackendJob: the schema is prepared, set and committed on the new job. */
    method CheckoutGoesOn(retries: nat)
      requires pc.Awaiting? && job.Some? && (pc.at.PrepareSchema? || pc.at.ReplaySchema? || pc.at.ReplayCommit?)
      modifies this`pc
      ensures View() == Resume(old(View()), true, false, retries)
    {
      match pc.at {
        case PrepareSchema(mode) => pc := Awaiting(pc.m, ReplaySchema(mode));
        case ReplaySchema(mode) => pc := Awaiting(pc.m, ReplayCommit(mode));
        case ReplayCommit(mode) => pc := Start(pc.m, mode);
      }
    }

    /** restoreLocalSearchPath. */
    method RestoreGoesOn(retries: nat)
      requires pc.Awaiting? && job.Some? && (pc.at.RestoreSchema? || pc.at.RestoreCommit? || pc.at.RestoreCheck?)
      modifies this
      ensures View() == Resume(old(View()), true, false, retries)
    {
      hide Reply, Done, EndTxn, CatalogDone, AppDone;
      var m := pc.m;
      match pc.at {
        case RestoreSchema(saved) => pc := Awaiting(m, RestoreCommit(saved));
        case RestoreCommit(saved) => currentSchema := saved; pc := Awaiting(m, RestoreCheck);
        case RestoreCheck => ReplyComplete(m);
      }
    }

    /** setSearchPath. */
    method SetPathGoesOn(retries: nat)
      requires Valid() && pc.Awaiting? && job.Some?
      requires pc.at.PathPrepare? || pc.at.PathSet? || pc.at.PathCheck? || pc.at.PathCommit?
      modifies this
      ensures View() == Resume(old(View()), true, false, retries)
    {
      hide Reply, Done, EndTxn, CatalogDone, AppDone;
      var m := pc.m;
      match pc.at {
        case PathPrepare => pc := Awaiting(m, PathSet);
        case PathSet =>
          currentSchema := StmtOf(m).schema;
          pc := Awaiting(m, PathCheck);
        case PathCheck => if inTransaction { ReplyComplete(m); } else { pc := Awaiting(m, PathCommit); }
        case PathCommit => ReplyComplete(m);
      }
    }

    /** executeSql, or the describing of its result. */
    method StatementGoesOn(retries: nat)
      requires pc.Awaiting? && job.Some?
      requires pc.at.CatalogRead? || pc.at.CatalogCommit? || pc.at.AppRun? || pc.at.AutoCommit? || pc.at.AutoRollback?
      modifies this
      ensures View() == Resume(old(View()), true, false, retries)
    {
      hide Reply, Done, EndTxn, CatalogDone, AppDone;
      var m := pc.m;
      match pc.at {
        case CatalogRead => if inTransaction { CatalogAnswered(m); } else { pc := Awaiting(m, CatalogCommit); }
        case CatalogCommit => CatalogAnswered(m);
        case AppRun(_) => StatementDone(m);
        case AutoCommit => ReplyComplete(m);
        case AutoRollback => FinishMessage(m, false);
      }
    }

    /** COMMIT, ROLLBACK and savepoints. */
    method TransactionGoesOn(retries: nat)
      requires pc.Awaiting? && job.Some? && (pc.at.Savepointing? || pc.at.TxnCommit? || pc.at.TxnRollback?)
      modifies this
      ensures View() == Resume(old(View()), true, false, retries)
    {
      hide Reply, Done, EndTxn, CatalogDone, AppDone;
      var m := pc.m;
      match pc.at {
        case Savepointing =>
          var st := StmtOf(m);
          if st.SavepointCmd? && st.action.RollbackToIt? { transactionFailed := false; }
          ReplyComplete(m);
        case TxnCommit => EndTransaction(m, true);
        case TxnRollback => EndTransaction(m, false);
      }
    }

    /** An awaited operation has succeeded. */
    method OperationSucceeded(retries: nat)
      requires Valid() && pc.Awaiting? && job.Some?
      modifies this
      ensures Valid() && Uses(View()) == Uses(old(View()))
      ensures View() == Resume(old(View()), true, false, retries)
    {
      SuccessValid(View(), retries);
      hide Resume, WellFormed, Uses;
      match pc.at {
        case PrepareSchema(_) => CheckoutGoesOn(retries);
        case ReplaySchema(_) => CheckoutGoesOn(retries);
        case ReplayCommit(_) => CheckoutGoesOn(retries);
        case Savepointing => TransactionGoesOn(retries);
        case TxnCommit => TransactionGoesOn(retries);
        case TxnRollback => TransactionGoesOn(retries);
        case RestoreSchema(_) => RestoreGoesOn(retries);
        case RestoreCommit(_) => RestoreGoesOn(retries);
        case RestoreCheck => RestoreGoesOn(retries);
        case PathPrepare => SetPathGoesOn(retries);
        case PathSet => SetPathGoesOn(retries);
        case PathCheck => SetPathGoesOn(retries);
        case PathCommit => SetPathGoesOn(retries);
        case _ => StatementGoesOn(retries);
      }
    }

    /** A pool call awaited at the end of the message has returned. */
    method PoolReturned(m: Msg, next: Then)
      requires Valid() && Returns(pc, m, next)
      modifies this
      ensures Valid() && Uses(View()) == None
      ensures View() == Continue(old(View()), m, next)
    {
      ContinueValid(View(), m, next);
      match next {
        case Finish(ok) => SettleMessage(m, ok);
        case Reacquire(attempt) => pc := WantLease(m, Retry(attempt));
      }
    }
  }

  // ---- every span keeps a session valid, and the job in hand in hand ----

  /** A content that the job of a valid session may have. */
  function SomeJob(s: Session): Db2.Job {
    Db2.Job(s.schema,
            if s.pc.Awaiting? && s.pc.at.AutoCommit? then Written(0, s, s.pc.m) else [],
            if s.pc.Awaiting? && s.pc.at.Savepointing? && StmtOf(s.pc.m).SavepointCmd?
            then [Db2.Savepoint(StmtOf(s.pc.m).name, 0)] else [])
  }

  lemma SomeJobFits(s: Session)
    requires WellFormed(s)
    ensures Good(0, s, SomeJob(s))
  {
  }

  lemma ReceiveValid(s: Session, m: Msg)
    requires WellFormed(s) && s.pc.Ready?
    ensures WellFormed(Receive(s, m)) && Uses(Receive(s, m)) == Uses(s)
  {
    SomeJobFits(s);
    ReceiveGood(0, s, m, SomeJob(s));
    hide Receive, WellFormed, Uses, Fits;
  }

  lemma BegunValid(s: Session)
    requires WellFormed(s) && s.pc.Start?
    ensures WellFormed(Begun(s)) && Uses(Begun(s)) == Uses(s)
  {
    SomeJobFits(s);
    BegunGood(0, s, SomeJob(s));
    hide Begun, WellFormed, Uses, Fits;
  }

  lemma SomeOpApplies(s: Session)
    requires WellFormed(s) && s.pc.Awaiting?
    ensures After(0, s, false, SomeJob(s)).Applied?
  {
    hide Fits;
  }

  lemma SuccessValid(s: Session, retries: nat)
    requires WellFormed(s) && s.pc.Awaiting?
    ensures var t := Resume(s, true, false, retries); WellFormed(t) && Uses(t) == Uses(s)
  {
    SomeJobFits(s);
    SomeOpApplies(s);
    OpGood(0, s, false, retries, SomeJob(s));
    hide Resume, WellFormed, Uses, Fits;
  }

  lemma FailureValid(s: Session, transport: bool, retries: nat)
    requires WellFormed(s) && s.pc.Awaiting?
    ensures var t := Resume(s, false, transport, retries); WellFormed(t) && Uses(t) == Uses(s)
  {
    SomeJobFits(s);
    FailedOpGood(0, s, transport, retries, SomeJob(s));
    hide Resume, WellFormed, Uses, Fits;
  }

  lemma SettleValid(s: Session, m: Msg, ok: bool)
    requires Lockstep(s) && s.job.None?
    ensures WellFormed(Settle(s, m, ok)) && Uses(Settle(s, m, ok)) == None
  {
    SettleGood(0, s, m, ok, SomeJob(s));
    hide Settle, Fits;
  }

  lemma ContinueValid(s: Session, m: Msg, next: Then)
    requires WellFormed(s) && Returns(s.pc, m, next)
    ensures WellFormed(Continue(s, m, next)) && Uses(Continue(s, m, next)) == None
  {
    LeaseInvariant.ContinueGood(0, s, m, next, SomeJob(s));
    hide Continue, Fits;
  }

  lemma CloseValid(s: Session)
    requires WellFormed(s) && s.pc.Ready?
    ensures WellFormed(Close(s)) && Uses(Close(s)) == Uses(s)
  {
    CloseGood(0, s, SomeJob(s));
    hide Fits;
  }
}
