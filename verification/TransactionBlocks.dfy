/**
 How a session moves through a transaction block: the job it works on, the
 snapshots of the DDL registries, and the moment currentJob() can fail.
 */
module TransactionBlocks {
  import opened Wrappers
  import opened JobPool
  import opened Sessions
  import opened SessionInvariant
  import opened LeaseProtocol
  import opened LeaseInvariant
  import opened Refinement
  import PB = PrivateBackends
  import Db2

  /** The checkout of a job, before anything of the client's runs on it. */
  predicate Replaying(pc: Pc) {
    pc.Awaiting? && (pc.at.PrepareSchema? || pc.at.ReplaySchema? || pc.at.ReplayCommit?)
  }

  /** One span of a session, seen from its transaction block. */
  predicate BlockOk(s: Session, step: PB.Step, t: Session) {
    // inside the block: same transaction, same snapshot, same job once work has begun
    && (s.inTxn && t.inTxn ==> t.txn == s.txn && t.snapshot == s.snapshot)
    && (s.inTxn && t.inTxn && !t.closed && s.job.Some? && !Replaying(s.pc) ==> t.job == s.job && !Replaying(t.pc))
    // BEGIN snapshots the registries
    && (!s.inTxn && t.inTxn ==> step.OpenBlock? && t.snapshot == Some(s.registry) && t.txn == s.txn + 1)
    // the end of the block keeps them on commit and restores the snapshot otherwise
    && (s.inTxn && !t.inTxn ==>
          && (step.Commit? || step.Discard?) && s.snapshot.Some?
          && t.registry == if step.Commit? then s.registry else s.snapshot.value)
  }

  /** `t` is `s` with nothing of the block changed, except that a job may be let go outside one. */
  predicate SameBlock(s: Session, t: Session) {
    && t.inTxn == s.inTxn && t.snapshot == s.snapshot && t.closed == s.closed
    && (s.inTxn ==> t.job == s.job && t.txn == s.txn)
    && !Replaying(t.pc)
    && t.missing == s.missing && t.registry == s.registry
  }

  lemma DoneBlock(s: Session, m: Msg, ok: bool)
    ensures SameBlock(s, Done(s, m, ok))
  {
    hide Done;
    DoneFrame(s, m, ok);
  }

  /** When nothing of the block changes, any step will do. */
  lemma SameBlockOk(s: Session, u: Session, step: PB.Step, t: Session)
    requires SameBlock(u, t) && u.inTxn == s.inTxn && u.snapshot == s.snapshot && u.job == s.job
    requires s.inTxn ==> u.txn == s.txn
    ensures BlockOk(s, step, t)
  {
  }

  lemma AnswerBlock(s: Session, m: Msg, step: PB.Step)
    ensures BlockOk(s, step, Done(s, m, false)) && Done(s, m, false).missing == s.missing
    ensures BlockOk(s, step, Reply(s, m)) && Reply(s, m).missing == s.missing
  {
    hide Done, BlockOk;
    DoneBlock(s, m, false);
    DoneBlock(Send(s, Completion(m)), m, true);
    SameBlockOk(s, s, step, Done(s, m, false));
    SameBlockOk(s, Send(s, Completion(m)), step, Reply(s, m));
  }

  lemma BackendBlock(s: Session, m: Msg, at: Label, step: PB.Step)
    requires !at.PrepareSchema? && !at.ReplaySchema? && !at.ReplayCommit?
    ensures BlockOk(s, step, Enter(s, m, at))
    ensures Enter(s, m, at).missing == s.missing + if s.job.None? then 1 else 0
  {
    hide Done, BlockOk, SameBlock, Enter;
    EnterBlock(s, m, at);
    SameBlockOk(s, s.(missing := Enter(s, m, at).missing), step, Enter(s, m, at));
  }

  lemma AppBlock(s: Session, m: Msg, attempt: nat, step: PB.Step)
    ensures BlockOk(s, step, EnterApp(s, m, attempt))
    ensures EnterApp(s, m, attempt).missing == s.missing + if s.job.None? then 1 else 0
  {
    hide Done, BlockOk, SameBlock, Enter;
    var s1 := if s.inTxn then s else s.(txn := s.txn + 1);
    EnterBlock(s1, m, AppRun(attempt));
    SameBlockOk(s, s1.(missing := EnterApp(s, m, attempt).missing), step, EnterApp(s, m, attempt));
  }

  lemma BeginBlock(s: Session, m: Msg)
    requires Lockstep(s) && !s.inTxn
    ensures var t := Reply(s.(inTxn := true, failed := false, snapshot := Some(s.registry), txn := s.txn + 1), m);
      BlockOk(s, PB.OpenBlock, t) && t.missing == s.missing
  {
    hide Done;
    DoneBlock(Send(s.(inTxn := true, failed := false, snapshot := Some(s.registry), txn := s.txn + 1),
                   Completion(m)), m, true);
  }

  lemma PathBlock(s: Session, m: Msg, step: PB.Step)
    ensures var t := Enter(s.(restore := Some(s.schema)), m, PathPrepare);
      BlockOk(s, step, t) && t.missing == s.missing + if s.job.None? then 1 else 0
  {
    hide Done, BlockOk, SameBlock, Enter;
    var s1 := s.(restore := Some(s.schema));
    var t := Enter(s1, m, PathPrepare);
    EnterBlock(s1, m, PathPrepare);
    SameBlockOk(s, s1.(missing := t.missing), step, t);
  }

  lemma EnterBlock(s: Session, m: Msg, at: Label)
    requires !at.PrepareSchema? && !at.ReplaySchema? && !at.ReplayCommit?
    ensures var t := Enter(s, m, at); SameBlock(s.(missing := t.missing), t)
    ensures Enter(s, m, at).missing == s.missing + if s.job.None? then 1 else 0
  {
    hide Done;
    if s.job.None? {
      DoneBlock(s.(missing := s.missing + 1), m, false);
      DoneBlock(s.(missing := s.missing + 1, failed := true), m, false);
    }
  }

  lemma EndTxnBlock(s: Session, m: Msg, keep: bool)
    ensures var t := EndTxn(s, m, keep);
      && !t.inTxn && t.missing == s.missing && t.closed == s.closed && t.snapshot == None
    ensures EndTxn(s, m, keep).registry == if keep || s.snapshot.None? then s.registry else s.snapshot.value
  {
    hide RestorePath;
    RestoreBlock(LeaveBlock(s, keep), m);
  }

  lemma RestoreBlock(s: Session, m: Msg)
    requires !s.inTxn
    ensures var t := RestorePath(s, m);
      !t.inTxn && t.missing == s.missing && t.closed == s.closed && t.snapshot == s.snapshot && t.registry == s.registry
  {
    hide Done;
    if s.restore.None? {
      DoneBlock(Send(s, Completion(m)), m, true);
    } else {
      DoneBlock(Send(s.(restore := None, schema := s.restore.value), Completion(m)), m, true);
    }
  }

  /**
   The messages for which no lease is asked although their handler goes to the
   backend: ROLLBACK TO before any Db2 work of the block, CREATE SCHEMA in a
   failed block, and a statement Describe answered from the live catalog.
   */
  predicate Unforeseen(s: Session, m: Msg) {
    s.job.None? &&
    match m
    case Query(SavepointCmd(action, _)) => action.RollbackToIt? && s.inTxn
    case Query(CreateSchema(_, _)) => s.failed
    case DescribeStatement(st) => st.LiveCatalog?
    case _ => false
  }

  lemma EndingBlock(s: Session, m: Msg, st: Stmt)
    requires Lockstep(s) && (s.pc.Ready? || s.pc.Start?)
    requires st.CommitTxn? || st.RollbackTxn?
    ensures BlockOk(s, SqlStep(s, st), StartSql(s, m, st))
    ensures StartSql(s, m, st).missing == s.missing
  {
    hide Enter, EndTxn;
    if s.job.None? {
      EndTxnBlock(s, m, st.CommitTxn? && !s.failed);
    } else {
      EnterBlock(s, m, if st.CommitTxn? && !s.failed then TxnCommit else TxnRollback);
    }
  }

  lemma SqlBlock(s: Session, m: Msg, st: Stmt)
    requires Lockstep(s) && (s.pc.Ready? || s.pc.Start?)
    requires m == Query(st) || m == Execute(st)
    requires s.job.Some? || !NeedsBackend(s, m)
    ensures BlockOk(s, SqlStep(s, st), StartSql(s, m, st))
    ensures StartSql(s, m, st).missing == s.missing + if Unforeseen(s, m) then 1 else 0
  {
    hide Done, Reply, Enter, EnterApp, EndTxn, BlockOk;
    var step := SqlStep(s, st);
    AnswerBlock(s, m, step);
    match st {
      case CreateSchema(_, _) => AppBlock(s, m, 0, step); BackendBlock(s, m, CatalogRead, step);
      case Local(_) =>
      case SavepointCmd(_, _) => BackendBlock(s, m, Savepointing, step);
      case CommitTxn => EndingBlock(s, m, st);
      case RollbackTxn => EndingBlock(s, m, st);
      case Begin => if !s.inTxn { BeginBlock(s, m); }
      case SetPath(_, _) => PathBlock(s, m, step); BackendBlock(s, m, PathPrepare, step);
      case LiveCatalog => BackendBlock(s, m, CatalogRead, step);
      case App(_, _, _) => AppBlock(s, m, 0, step); BackendBlock(s, m, CatalogRead, step);
    }
  }

  lemma BodyBlock(s: Session, m: Msg)
    requires Lockstep(s) && (s.pc.Ready? || s.pc.Start?) && !s.closed
    requires s.job.Some? || !NeedsBackend(s, m)
    ensures BlockOk(s, BodyStep(s, m), StartBody(s, m))
    ensures StartBody(s, m).missing == s.missing + if Unforeseen(s, m) then 1 else 0
  {
    hide Done, Enter, StartSql, SqlStep;
    match m {
      case Query(st) => SqlBlock(s, m, st);
      case Execute(st) => SqlBlock(s, m, st);
      case EmptyQuery => DoneBlock(Send(s, Data), m, true);
      case ExecuteStored => DoneBlock(Send(s, Completion(m)), m, true);
      case DescribePortal(st) =>
        EnterBlock(s, m, CatalogRead);
        EnterBlock(if s.inTxn then s else s.(txn := s.txn + 1), m, AppRun(0));
        DoneBlock(Send(s, Data), m, true);
      case DescribeStatement(st) =>
        EnterBlock(Send(s, Data), m, CatalogRead);
        DoneBlock(Send(s, Data), m, !RowsFromDb2(st));
      case Bookkeeping(accepted) => DoneBlock(if accepted then Send(s, Data) else s, m, accepted);
      case Sync => DoneBlock(Send(s.(skipping := false), ReadyForQuery(StatusOf(s))), m, true);
      case Flush => DoneBlock(s, m, true);
      case Unsupported => DoneBlock(Send(s, ErrorResponse), m, true);
      case Terminate =>
    }
  }

  /** The message is handled, not skipped, and unforeseen. */
  predicate Missed(s: Session, m: Msg) {
    !s.closed && !(s.skipping && !m.Sync? && !m.Terminate?) && Unforeseen(s, m)
  }

  /** currentJob() fails for exactly the unforeseen messages of an open session. */
  lemma PredictionExact(s: Session, m: Msg)
    requires s.pc.Ready? && WellFormed(s)
    ensures Receive(s, m).missing == s.missing + if Missed(s, m) then 1 else 0
    ensures BlockOk(s, ReceiveStep(s, m), Receive(s, m))
  {
    var s1 := Note(s, Received(m));
    hide StartBody, BodyStep;
    if !s.closed && (s.job.Some? || !NeedsBackend(s, m)) {
      assert NeedsBackend(s1, m) == NeedsBackend(s, m);
      BodyBlock(s1, m);
      SameBodyStep(s, s1, m);
      assert Unforeseen(s1, m) == Unforeseen(s, m);
    }
  }

  lemma SameBodyStep(s: Session, s1: Session, m: Msg)
    requires s1 == s.(trace := s1.trace)
    ensures BodyStep(s1, m) == BodyStep(s, m)
  {
  }

  /** After a checkout the job is there. */
  lemma BegunBlock(s: Session)
    requires s.pc.Start? && WellFormed(s)
    ensures BlockOk(s, BegunStep(s), Begun(s)) && Begun(s).missing == s.missing
  {
    hide StartBody, BodyStep, Enter;
    if s.pc.mode.First? {
      BodyBlock(s, s.pc.m);
    } else {
      EnterBlock(if s.inTxn then s else s.(txn := s.txn + 1), s.pc.m, AppRun(s.pc.mode.attempt));
    }
  }

  lemma CatalogDoneBlock(s: Session, m: Msg)
    requires s.job.Some?
    ensures SameBlock(s, CatalogDone(s, m))
  {
    hide Done;
    DoneBlock(Send(s, Completion(m)), m, true);
    EnterBlock(if s.inTxn then s else s.(txn := s.txn + 1), m, AppRun(0));
  }

  lemma FailedOpBlock(s: Session, transport: bool, retries: nat)
    requires s.pc.Awaiting? && WellFormed(s)
    ensures BlockOk(s, OpFailed(s, transport, retries), Resume(s, false, transport, retries))
    ensures Resume(s, false, transport, retries).missing == s.missing + if Replaying(s.pc) && s.pc.at.mode.Retry? then 1 else 0
  {
    hide Done;
    DoneBlock(s, s.pc.m, false);
    DoneBlock(s.(failed := true), s.pc.m, false);
  }

  lemma OpBlock(s: Session, who: SessionId, creates: bool, retries: nat)
    requires s.pc.Awaiting? && WellFormed(s)
    ensures BlockOk(s, OpDone(s, OpAt(s, who, s.pc.m, s.pc.at, creates)), Resume(s, true, false, retries))
    ensures Resume(s, true, false, retries).missing == s.missing
  {
    hide Done, EndTxn, CatalogDone, OpAt;
    var m := s.pc.m;
    var st := StmtOf(m);
    DoneBlock(s, m, false);
    DoneBlock(Send(s, Completion(m)), m, true);
    match s.pc.at {
      case TxnCommit => EndTxnBlock(s, m, true);
      case TxnRollback => EndTxnBlock(s, m, false);
      case Savepointing => DoneBlock(Send(s.(failed := false), Completion(m)), m, true);
      case CatalogRead => CatalogDoneBlock(s, m);
      case CatalogCommit => CatalogDoneBlock(s, m);
      case AppRun(_) =>
        var s1 := if st.App? && st.work.Defines? then s.(registry := s.registry + [st.work.entry]) else s;
        DoneBlock(Send(s1, Completion(m)), m, true);
      case _ =>
    }
  }
}
