/**
 What becomes of one message: which statements a failed block refuses, what an
 application statement does to the unit of work, and how the failure of a Db2
 operation reaches the client.
 */
module Answers {
  import opened Wrappers
  import opened JobPool
  import opened Sessions
  import opened SessionInvariant
  import opened LeaseProtocol
  import opened LeaseInvariant
  import opened Conversation
  import opened ClientLedger
  import opened TransactionBlocks
  import opened TransactionTheorems
  import Db2

  // ---- refusals ----

  /** The error answer to `m`, with the status after it. */
  function ErrorsTo(s: Session, m: Msg): seq<Event> {
    [Sent(ErrorResponse)] + if IsQuery(m) then [Sent(ReadyForQuery(StatusOf(s)))] else []
  }

  /** The span ends the message with an error: sent already, or once the job is given back. */
  predicate Throws(before: seq<Event>, t: Session, m: Msg) {
    || (t.pc.Releasing? && t.pc.m == m && !t.pc.ok && t.trace == before)
    || (t.pc.Ready? && t.trace == before + ErrorsTo(t, m))
  }

  /** Everything of the session but the control point, the conversation and the job it may have given back. */
  predicate SameTransaction(s: Session, t: Session) {
    && t == s.(job := t.job, pc := t.pc, trace := t.trace, skipping := t.skipping)
    && (s.inTxn ==> t.job == s.job)
  }

  /**
   What is refused without asking Db2: in a failed block everything but its
   end, ROLLBACK TO, CREATE SCHEMA and table ownership (25P02); savepoints and
   SET LOCAL outside a block (25P01); and what has no equivalent on Db2 (0A000)
   or names no prepared statement (26000).
   */
  predicate Refusable(s: Session, st: Stmt) {
    match st
    case Begin => s.failed
    case CommitTxn => false
    case RollbackTxn => false
    case SavepointCmd(action, _) => !s.inTxn || (s.failed && !action.RollbackToIt?)
    case SetPath(_, local) => s.failed || (local && !s.inTxn)
    case Local(kind) =>
      kind.SchemaMetadata?
      || (!kind.TableOwner? && (s.failed || kind.UnknownSet? || kind.Firewalled? || kind == Deallocate(false)))
    case LiveCatalog => s.failed
    case CreateSchema(_, _) => false
    case App(_, _, _) => s.failed
  }

  lemma ThrownAway(s: Session, m: Msg)
    requires IsStatement(m)
    ensures var t := Done(s, m, false); Throws(s.trace, t, m) && SameTransaction(s, t)
  {
    hide StatusOf;
    if s.job.Some? && !s.inTxn { } else { SettledError(s, m); }
  }

  lemma SettledError(s: Session, m: Msg)
    requires !m.Terminate?
    ensures var t := Settle(s, m, false);
      && t.pc.Ready? && t.trace == s.trace + ErrorsTo(t, m)
      && t == s.(pc := t.pc, trace := t.trace, skipping := t.skipping)
  {
    assert StatusOf(Settle(s, m, false)) == StatusOf(s) == StatusOf(Send(s, ErrorResponse));
    hide StatusOf;
    assert s.trace + [Sent(ErrorResponse)] + [Sent(ReadyForQuery(StatusOf(s)))]
      == s.trace + ([Sent(ErrorResponse)] + [Sent(ReadyForQuery(StatusOf(s)))]);
  }

  lemma Acknowledged(s: Session, m: Msg)
    ensures var t := Reply(s, m); (t.pc.Ready? || t.pc.Releasing?) && !Throws(s.trace, t, m)
  {
    var t := Reply(s, m);
    var s1 := Send(s, Completion(m));
    assert t.trace == s1.trace + if IsQuery(m) then [Sent(ReadyForQuery(StatusOf(s1)))] else [];
    hide StatusOf;
    assert t.trace[|s.trace|] == Sent(Completion(m));
    assert (s.trace + ErrorsTo(t, m))[|s.trace|] == Sent(ErrorResponse);
  }

  lemma AcknowledgedEnd(s: Session, m: Msg, keep: bool)
    requires IsStatement(m)
    ensures !Throws(s.trace, EndTxn(s, m, keep), m)
  {
    hide Reply;
    var s1 := LeaveBlock(s, keep);
    Acknowledged(s1, m);
    if s.restore.Some? { Acknowledged(s1.(restore := None, schema := s.restore.value), m); }
  }

  /** What goes to Db2 is not refused. */
  lemma Asked(s: Session, m: Msg, at: Label)
    requires s.job.Some?
    ensures !Throws(s.trace, Enter(s, m, at), m) && !Throws(s.trace, EnterApp(s, m, 0), m)
  {
  }

  lemma BeginAcknowledged(s: Session, m: Msg)
    requires IsStatement(m)
    ensures !s.failed ==> !Throws(s.trace, StartSql(s, m, Begin), m)
  {
    hide Reply, Throws;
    Acknowledged(s, m);
    Acknowledged(s.(inTxn := true, failed := false, snapshot := Some(s.registry), txn := s.txn + 1), m);
  }

  /** Without Db2 a statement is refused for exactly these reasons, and a refusal leaves the transaction as it was. */
  lemma RefusedExactly(s: Session, m: Msg)
    requires IsStatement(m)
    ensures var t := StartSql(s, m, StmtOf(m));
      && (Refusable(s, StmtOf(m)) ==> Throws(s.trace, t, m) && SameTransaction(s, t))
      && (s.job.Some? ==> (Throws(s.trace, t, m) <==> Refusable(s, StmtOf(m))))
  {
    hide Done, Reply, Enter, EnterApp, EndTxn, Throws, SameTransaction;
    ThrownAway(s, m);
    match StmtOf(m) {
      case CommitTxn =>
        if s.job.None? { AcknowledgedEnd(s, m, !s.failed); } else { Asked(s, m, if s.failed then TxnRollback else TxnCommit); }
      case RollbackTxn => if s.job.None? { AcknowledgedEnd(s, m, false); } else { Asked(s, m, TxnRollback); }
      case Begin => BeginAcknowledged(s, m);
      case Local(_) => Acknowledged(s, m);
      case SavepointCmd(_, _) => if s.job.Some? { Asked(s, m, Savepointing); }
      case SetPath(_, local) =>
        if s.job.Some? { Asked(if local && s.restore.None? then s.(restore := Some(s.schema)) else s, m, PathPrepare); }
      case _ => if s.job.Some? { Asked(s, m, CatalogRead); }
    }
  }

  /** What a lease taken for the message is used for. */
  predicate UsesDb2(s: Session, m: Msg) {
    if IsStatement(m) then !Refusable(s, StmtOf(m)) && !StmtOf(m).Local? && !StmtOf(m).Begin?
    else m.DescribePortal? && m.stmt != Local(ConstantRows)
  }

  lemma SqlUses(t: Session, m: Msg)
    requires IsStatement(m) && t.job.Some?
    ensures StartSql(t, m, StmtOf(m)).pc.Awaiting? <==> !Refusable(t, StmtOf(m)) && !StmtOf(m).Local? && !StmtOf(m).Begin?
  {
    hide Done;
    NotAwaiting(t, m, false);
    match StmtOf(m) {
      case Local(_) => NotAwaiting(Send(t, Completion(m)), m, true);
      case Begin =>
        var s1 := if t.inTxn then t
                  else t.(inTxn := true, failed := false, snapshot := Some(t.registry), txn := t.txn + 1);
        NotAwaiting(Send(s1, Completion(m)), m, true);
      case _ =>
    }
  }

  lemma DescribeUses(t: Session, m: Msg)
    requires m.DescribePortal? && t.job.Some? && (m.stmt.LiveCatalog? || RowsFromDb2(m.stmt) || m.stmt == Local(ConstantRows))
    ensures StartBody(t, m).pc.Awaiting? <==> m.stmt != Local(ConstantRows)
  {
    hide Done;
    NotAwaiting(Send(t, Data), m, true);
  }

  /** Which leases are for nothing: the message is refused, or answered without Db2, all the same. */
  lemma LeaseUsedExactly(s: Session, m: Msg, lease: JobId)
    requires s.job.None? && NeedsBackend(s, m)
    ensures StartBody(s.(job := Some(lease)), m).pc.Awaiting? <==> UsesDb2(s, m)
  {
    hide StartSql, Refusable, RowsFromDb2;
    var t := s.(job := Some(lease));
    if IsStatement(m) {
      SqlUses(t, m);
      SameRefusals(s, t, StmtOf(m));
    } else {
      DescribeUses(t, m);
    }
  }

  /** At statement level a SELECT is refused, after its parameters have been described; anything else is described. */
  lemma DescribeRefusedExactly(s: Session, st: Stmt)
    requires s.job.Some? || !st.LiveCatalog?
    ensures var t := StartBody(s, DescribeStatement(st));
      Throws(s.trace + [Sent(Data)], t, DescribeStatement(st)) <==> RowsFromDb2(st)
  {
    var m := DescribeStatement(st);
    var s1 := Send(s, Data);
    hide StatusOf;
    SettledError(s1, m);
    assert s1.trace != s1.trace + ErrorsTo(s1, m);
  }

  /** Parse, Bind and Close are answered by an error exactly when they are not accepted. */
  lemma BookkeepingRefusedExactly(s: Session, accepted: bool)
    ensures var t := StartBody(s, Bookkeeping(accepted));
      && (Throws(s.trace, t, Bookkeeping(accepted)) <==> !accepted)
      && (accepted ==> t.trace == s.trace + [Sent(Data)])
  {
    hide StatusOf;
    SettledError(s, Bookkeeping(accepted));
    assert (s.trace + [Sent(Data)])[|s.trace|] != (s.trace + [Sent(ErrorResponse)])[|s.trace|];
  }

  lemma SameRefusals(s: Session, t: Session, st: Stmt)
    requires t.inTxn == s.inTxn && t.failed == s.failed
    ensures Refusable(t, st) == Refusable(s, st)
  {
  }

  lemma NotAwaiting(s: Session, m: Msg, ok: bool)
    ensures !Done(s, m, ok).pc.Awaiting?
  {
    DoneFrame(s, m, ok);
    hide Done;
  }

  // ---- success leads on ----

  function RankOf(at: Label): nat {
    match at
    case PrepareSchema(_) => 9
    case ReplaySchema(_) => 8
    case ReplayCommit(_) => 7
    case Savepointing => 5
    case TxnCommit => 5
    case TxnRollback => 5
    case RestoreSchema(_) => 4
    case RestoreCommit(_) => 3
    case RestoreCheck => 2
    case PathPrepare => 5
    case PathSet => 4
    case PathCheck => 3
    case PathCommit => 2
    case CatalogRead => 5
    case CatalogCommit => 4
    case AppRun(_) => 3
    case AutoCommit => 2
    case AutoRollback => 1
  }

  /** How many operations the message may still await, if all succeed. */
  function Rank(pc: Pc): nat {
    match pc
    case Start(_, _) => 6
    case Awaiting(_, at) => RankOf(at)
    case _ => 0
  }

  lemma ReplyEnds(s: Session, m: Msg)
    ensures Rank(Reply(s, m).pc) == 0 && !Throws(s.trace, Reply(s, m), m)
  {
    Acknowledged(s, m);
    hide Reply;
  }

  lemma CatalogLeads(s: Session, m: Msg)
    requires s.job.Some?
    ensures var t := CatalogDone(s, m); Rank(t.pc) <= 3 && !Throws(s.trace, t, m)
  {
    hide Reply;
    ReplyEnds(s, m);
  }

  lemma EndTxnLeads(s: Session, m: Msg, keep: bool)
    ensures var t := EndTxn(s, m, keep); Rank(t.pc) <= 4 && !Throws(s.trace, t, m)
  {
    hide RestorePath;
    RestoreLeads(LeaveBlock(s, keep), m);
  }

  lemma RestoreLeads(s: Session, m: Msg)
    ensures var t := RestorePath(s, m); Rank(t.pc) <= 4 && !Throws(s.trace, t, m)
  {
    hide Reply, Throws, ErrorsTo;
    if s.restore.None? {
      ReplyEnds(s, m);
    } else if s.job.Some? {
      AwaitingThrowsNothing(s.trace, RestorePath(s, m), m);
    } else {
      ReplyEnds(s.(restore := None, schema := s.restore.value), m);
    }
  }

  lemma AwaitingThrowsNothing(before: seq<Event>, t: Session, m: Msg)
    requires t.pc.Awaiting?
    ensures !Throws(before, t, m)
  {
  }

  lemma ControlLeadsOn(s: Session, retries: nat)
    requires s.pc.Awaiting? && WellFormed(s) && s.job.Some?
    requires s.pc.at.Savepointing? || s.pc.at.TxnCommit? || s.pc.at.TxnRollback? || s.pc.at.AutoRollback?
      || s.pc.at.CatalogRead? || s.pc.at.CatalogCommit?
    ensures var t := Resume(s, true, false, retries);
      Rank(t.pc) < Rank(s.pc) && (!s.pc.at.AutoRollback? ==> !Throws(s.trace, t, s.pc.m))
  {
    hide Done, Reply, EndTxn, CatalogDone;
    var m := s.pc.m;
    match s.pc.at {
      case TxnCommit => EndTxnLeads(s, m, true);
      case TxnRollback => EndTxnLeads(s, m, false);
      case Savepointing => ReplyEnds(if StmtOf(m).action.RollbackToIt? then s.(failed := false) else s, m);
      case AutoRollback => RestsOrReleases(s, m);
      case _ => CatalogLeads(s, m);
    }
  }

  lemma WorkLeadsOn(s: Session, retries: nat)
    requires s.pc.Awaiting? && WellFormed(s) && s.job.Some? && (s.pc.at.AppRun? || s.pc.at.AutoCommit?)
    ensures var t := Resume(s, true, false, retries); Rank(t.pc) < Rank(s.pc) && !Throws(s.trace, t, s.pc.m)
  {
    hide Done, Reply, EndTxn, CatalogDone;
    var m, st := s.pc.m, StmtOf(s.pc.m);
    ReplyEnds(if s.pc.at.AppRun? && st.App? && st.work.Defines? then s.(registry := s.registry + [st.work.entry]) else s, m);
  }

  lemma SchemaLeadsOn(s: Session, retries: nat)
    requires s.pc.Awaiting? && WellFormed(s) && s.job.Some?
    requires s.pc.at.RestoreSchema? || s.pc.at.RestoreCommit? || s.pc.at.RestoreCheck?
      || s.pc.at.PathPrepare? || s.pc.at.PathSet? || s.pc.at.PathCheck? || s.pc.at.PathCommit?
    ensures var t := Resume(s, true, false, retries); Rank(t.pc) < Rank(s.pc) && !Throws(s.trace, t, s.pc.m)
  {
    hide Done, Reply, EndTxn, CatalogDone;
    ReplyEnds(s, s.pc.m);
  }

  lemma ReplayLeadsOn(s: Session, retries: nat)
    requires s.pc.Awaiting? && s.job.Some? && (s.pc.at.PrepareSchema? || s.pc.at.ReplaySchema? || s.pc.at.ReplayCommit?)
    ensures var t := Resume(s, true, false, retries); Rank(t.pc) < Rank(s.pc) && !Throws(s.trace, t, s.pc.m)
  {
  }

  /**
   An operation that succeeds brings the message nearer to its end and is never
   answered by an error, but for the ROLLBACK of a statement that has failed.
   */
  lemma SuccessLeadsOn(s: Session, retries: nat)
    requires s.pc.Awaiting? && WellFormed(s) && s.job.Some?
    ensures var t := Resume(s, true, false, retries);
      Rank(t.pc) < Rank(s.pc) && (!s.pc.at.AutoRollback? ==> !Throws(s.trace, t, s.pc.m))
  {
    hide Resume, WellFormed, Throws, Rank;
    match s.pc.at {
      case PrepareSchema(_) => ReplayLeadsOn(s, retries);
      case ReplaySchema(_) => ReplayLeadsOn(s, retries);
      case ReplayCommit(_) => ReplayLeadsOn(s, retries);
      case AppRun(_) => WorkLeadsOn(s, retries);
      case AutoCommit => WorkLeadsOn(s, retries);
      case Savepointing => ControlLeadsOn(s, retries);
      case TxnCommit => ControlLeadsOn(s, retries);
      case TxnRollback => ControlLeadsOn(s, retries);
      case CatalogRead => ControlLeadsOn(s, retries);
      case CatalogCommit => ControlLeadsOn(s, retries);
      case AutoRollback => ControlLeadsOn(s, retries);
      case _ => SchemaLeadsOn(s, retries);
    }
  }

  lemma RestsOrReleases(s: Session, m: Msg)
    ensures Rank(Done(s, m, false).pc) == 0
  {
    DoneFrame(s, m, false);
    hide Done;
  }

  // ---- failed blocks ----

  /** Where in a failed block Db2 can be at work for a session: never for a statement that the block refuses. */
  lemma FailedBlockReaches(run: seq<System>, acts: seq<Action>, cfg: Config, k: nat, i: SessionId)
    requires IsRun(run, acts, cfg) && k < |run| && i < |run[k].sessions|
    requires run[k].sessions[i].pc.Awaiting? && run[k].sessions[i].failed
    ensures var s := run[k].sessions[i]; var m := s.pc.m;
      match s.pc.at
      case PrepareSchema(mode) => mode.First?
      case ReplaySchema(mode) => mode.First?
      case ReplayCommit(mode) => mode.First?
      case Savepointing => IsStatement(m) && StmtOf(m).SavepointCmd? && StmtOf(m).action.RollbackToIt?
      case TxnRollback => EndsBlock(m)
      case CatalogRead => (IsStatement(m) && StmtOf(m).CreateSchema?) || m.DescribePortal? || m.DescribeStatement?
      case AppRun(_) => (IsStatement(m) && StmtOf(m).CreateSchema?) || m.DescribePortal?
      case _ => false
  {
    RunInv(run, acts, cfg, k);
    WellFormedSession(run[k], cfg, i);
    hide IsRun, Inv;
  }

  /**
   A statement that a failed block refuses, when its turn comes: the error is
   the only answer, and block, job, unit of work and store stay as they were.
   */
  lemma FailedBlockRefuses(run: seq<System>, acts: seq<Action>, cfg: Config, k: nat, i: SessionId)
    requires IsRun(run, acts, cfg) && k < |acts| && i < |run[k].sessions| && run[k].sessions[i].failed
    requires acts[k].BodyStarting? && acts[k].who == i && run[k].sessions[i].pc.mode.First?
    requires IsStatement(run[k].sessions[i].pc.m) && Refusable(run[k].sessions[i], StmtOf(run[k].sessions[i].pc.m))
    ensures |run[k + 1].sessions| == |run[k].sessions|
    ensures var S := run[k]; var T := run[k + 1]; var s := S.sessions[i]; var t := T.sessions[i];
      && t.pc.Ready? && t.trace == s.trace + ErrorsTo(t, s.pc.m)
      && t.inTxn && t.failed && t.job == s.job && T.jobs == S.jobs && T.committed == S.committed
  {
    RunNext(run, acts, cfg, k);
    RunInv(run, acts, cfg, k);
    WellFormedSession(run[k], cfg, i);
    hide IsRun, Inv, StartSql, ErrorsTo, Refusable, Begun, WellFormed;
    RefusedBegun(run[k].sessions[i]);
  }

  lemma RefusedBegun(s: Session)
    requires s.pc.Start? && s.pc.mode.First? && IsStatement(s.pc.m) && s.failed && WellFormed(s)
    requires Refusable(s, StmtOf(s.pc.m))
    ensures var t := Begun(s);
      t.pc.Ready? && t.trace == s.trace + ErrorsTo(t, s.pc.m) && t.inTxn && t.failed && t.job == s.job
  {
    RefusedExactly(s, s.pc.m);
    hide StartSql, ErrorsTo, Refusable;
  }

  /** The same for a statement that arrives while the session has its job, or needs none. */
  lemma FailedBlockRefusesAtOnce(run: seq<System>, acts: seq<Action>, cfg: Config, k: nat, i: SessionId)
    requires IsRun(run, acts, cfg) && k < |acts| && i < |run[k].sessions| && run[k].sessions[i].failed
    requires acts[k].Receiving? && acts[k].who == i && IsStatement(acts[k].msg)
    requires Refusable(run[k].sessions[i], StmtOf(acts[k].msg))
    requires !run[k].sessions[i].closed && !run[k].sessions[i].skipping
    requires run[k].sessions[i].job.Some? || !NeedsBackend(run[k].sessions[i], acts[k].msg)
    ensures |run[k + 1].sessions| == |run[k].sessions|
    ensures var S := run[k]; var T := run[k + 1]; var s := S.sessions[i]; var t := T.sessions[i]; var m := acts[k].msg;
      && t.pc.Ready? && t.trace == s.trace + [Received(m)] + ErrorsTo(t, m)
      && t.inTxn && t.failed && t.job == s.job && T.jobs == S.jobs && T.committed == S.committed
  {
    RunNext(run, acts, cfg, k);
    RunInv(run, acts, cfg, k);
    WellFormedSession(run[k], cfg, i);
    var s1 := Note(run[k].sessions[i], Received(acts[k].msg));
    assert NeedsBackend(s1, acts[k].msg) == NeedsBackend(run[k].sessions[i], acts[k].msg);
    RefusedExactly(s1, acts[k].msg);
    hide IsRun, Inv, StartSql, ErrorsTo, NeedsBackend;
  }

  // ---- how a block ends ----

  /** If the span leaves the block, COMMIT or ROLLBACK was asked for; only the COMMIT of an unfailed block keeps the registries. */
  predicate EndsAs(s: Session, t: Session, m: Msg) {
    s.inTxn && !t.inTxn ==>
      && EndsBlock(m) && s.snapshot.Some?
      && t.registry == if StmtOf(m).CommitTxn? && !s.failed then s.registry else s.snapshot.value
  }

  lemma EndTxnEnds(s: Session, m: Msg, keep: bool)
    requires Lockstep(s) && EndsBlock(m) && keep == (StmtOf(m).CommitTxn? && !s.failed)
    ensures EndsAs(s, EndTxn(s, m, keep), m)
  {
    EndTxnBlock(s, m, keep);
    hide EndTxn;
  }

  lemma EnterStays(s: Session, m: Msg, at: Label)
    ensures Enter(s, m, at).inTxn == s.inTxn
  {
    hide Done;
    var s1 := s.(missing := s.missing + 1);
    DoneFrame(s1, m, false);
    DoneFrame(s1.(failed := true), m, false);
  }

  lemma StaysInBlock(s: Session, m: Msg)
    ensures Done(s, m, false).inTxn == s.inTxn && Done(s, m, true).inTxn == s.inTxn
    ensures forall at: Label :: Enter(s, m, at).inTxn == s.inTxn
    ensures forall attempt: nat :: EnterApp(s, m, attempt).inTxn == s.inTxn
  {
    hide Done, Enter;
    DoneFrame(s, m, false);
    DoneFrame(s, m, true);
    forall at: Label ensures Enter(s, m, at).inTxn == s.inTxn { EnterStays(s, m, at); }
    forall attempt: nat ensures EnterApp(s, m, attempt).inTxn == s.inTxn {
      EnterStays(if s.inTxn then s else s.(txn := s.txn + 1), m, AppRun(attempt));
    }
  }

  lemma SqlEnds(s: Session, m: Msg)
    requires Lockstep(s) && IsStatement(m)
    ensures EndsAs(s, StartSql(s, m, StmtOf(m)), m)
  {
    hide Done, Enter, EnterApp, EndTxn;
    StaysInBlock(s, m);
    StaysInBlock(Send(s, Completion(m)), m);
    match StmtOf(m) {
      case CommitTxn => EndTxnEnds(s, m, !s.failed);
      case RollbackTxn => EndTxnEnds(s, m, false);
      case Begin =>
        var s1 := s.(inTxn := true, failed := false, snapshot := Some(s.registry), txn := s.txn + 1);
        StaysInBlock(Send(s1, Completion(m)), m);
      case SetPath(_, _) => StaysInBlock(s.(restore := Some(s.schema)), m);
      case _ =>
    }
  }

  lemma BodyEnds(s: Session, m: Msg)
    requires Lockstep(s)
    ensures EndsAs(s, StartBody(s, m), m)
  {
    hide Done, Enter, EnterApp, StartSql;
    StaysInBlock(s, m);
    StaysInBlock(Send(s, Data), m);
    StaysInBlock(Send(s, Completion(m)), m);
    match m {
      case Query(_) => SqlEnds(s, m);
      case Execute(_) => SqlEnds(s, m);
      case Sync => StaysInBlock(Send(s.(skipping := false), ReadyForQuery(StatusOf(s))), m);
      case Unsupported => StaysInBlock(Send(s, ErrorResponse), m);
      case _ =>
    }
  }

  lemma ReceiveEnds(s: Session, m: Msg)
    requires Lockstep(s)
    ensures EndsAs(s, Receive(s, m), m)
  {
    hide StartBody, NeedsBackend;
    BodyEnds(Note(s, Received(m)), m);
  }

  lemma BegunEnds(s: Session)
    requires Lockstep(s) && s.pc.Start?
    ensures EndsAs(s, Begun(s), s.pc.m)
  {
    hide StartBody, EnterApp, Enter, Done;
    BodyEnds(s, s.pc.m);
    StaysInBlock(s, s.pc.m);
  }

  lemma WorkEnds(s: Session, m: Msg, attempt: nat, transport: bool, retries: nat)
    requires s.job.Some?
    ensures AppDone(s, m).inTxn == s.inTxn && AppFailed(s, m, attempt, transport, retries).inTxn == s.inTxn
    ensures CatalogDone(s, m).inTxn == s.inTxn
  {
    hide Done, Enter, EnterApp;
    StaysInBlock(s, m);
    StaysInBlock(s.(failed := true), m);
    StaysInBlock(Send(s, Completion(m)), m);
    var st := StmtOf(m);
    if st.App? && st.work.Defines? {
      StaysInBlock(Send(s.(registry := s.registry + [st.work.entry]), Completion(m)), m);
    }
  }

  lemma ResumeEnds(s: Session, ok: bool, transport: bool, retries: nat)
    requires s.pc.Awaiting? && WellFormed(s) && s.job.Some?
    ensures EndsAs(s, Resume(s, ok, transport, retries), s.pc.m)
  {
    hide Done, Enter, EnterApp, EndTxn, AppDone, AppFailed, CatalogDone;
    var m := s.pc.m;
    StaysInBlock(s, m);
    StaysInBlock(s.(failed := true), m);
    StaysInBlock(Send(s, Completion(m)), m);
    StaysInBlock(Send(s.(failed := false), Completion(m)), m);
    match s.pc.at {
      case TxnCommit => EndTxnEnds(s, m, true);
      case TxnRollback => EndTxnEnds(s, m, false);
      case AppRun(attempt) => WorkEnds(s, m, attempt, transport, retries);
      case CatalogRead => WorkEnds(s, m, 0, transport, retries);
      case CatalogCommit => WorkEnds(s, m, 0, transport, retries);
      case _ =>
    }
  }

  lemma OnwardStays(s: Session)
    ensures Onward(s).inTxn == s.inTxn
  {
    hide Settle;
    match s.pc {
      case Releasing(m, _, ok) => SettleShape(s, m, ok);
      case Resetting(m, _, ok, _) => SettleShape(s, m, ok);
      case Closing(m, _, next, _) => if next.Finish? { SettleShape(s, m, next.ok); }
      case Replacing(m, next) => if next.Finish? { SettleShape(s, m, next.ok); }
      case _ =>
    }
  }

  lemma TurnStays(s: Session, t: Session, caller: bool)
    requires PoolTurn(s, t, caller)
    ensures t.inTxn == s.inTxn
  {
    OnwardStays(s);
    assert AskTurn(s, t) ==> t == s.(pc := t.pc);
    hide Onward, AskTurn, CallGoesOn;
  }

  /** The message a session is at work on during an action. */
  function AtWorkOn(S: System, a: Action, i: SessionId): Msg
    requires i < |S.sessions|
  {
    if a.Receiving? && a.who == i then a.msg
    else if S.sessions[i].pc.Ready? then Terminate
    else S.sessions[i].pc.m
  }

  lemma ActionEnds(S: System, cfg: Config, a: Action, i: SessionId)
    requires Inv(S, cfg) && Enabled(S, a) && i < |S.sessions|
    ensures i < |Next(S, cfg, a).sessions|
    ensures EndsAs(S.sessions[i], Next(S, cfg, a).sessions[i], AtWorkOn(S, a, i))
  {
    hide Inv, EndsAs, PoolTurn, Receive, Begun, Resume, Settle, Db2.Perform, OpAt, WellFormed;
    var s := S.sessions[i];
    if OwnSpan(a) || a.OpSettled? {
      NextIsLocal(S, cfg, a);
      if a.who == i {
        WellFormedSession(S, cfg, i);
        OwnEnds(s, a, cfg.retries);
      } else {
        NothingEnds(s, s, AtWorkOn(S, a, i));
      }
    } else {
      NextTurns(S, cfg, a);
      hide Next;
      TurnStays(s, Next(S, cfg, a).sessions[i], Caller(a, i));
      NothingEnds(s, Next(S, cfg, a).sessions[i], AtWorkOn(S, a, i));
    }
  }

  lemma NothingEnds(s: Session, t: Session, m: Msg)
    requires t.inTxn == s.inTxn
    ensures EndsAs(s, t, m)
  {
  }

  lemma OwnEnds(s: Session, a: Action, retries: nat)
    requires WellFormed(s)
    ensures a.Receiving? ==> EndsAs(s, Receive(s, a.msg), a.msg)
    ensures forall m: Msg :: EndsAs(s, Close(s), m)
    ensures s.pc.Granted? ==> EndsAs(s, TakeLease(s), s.pc.m)
    ensures s.pc.Refused? ==> EndsAs(s, LeaseDenied(s), s.pc.m)
    ensures s.pc.Start? ==> EndsAs(s, Begun(s), s.pc.m)
    ensures s.pc.Awaiting? && s.job.Some? ==>
      forall ok: bool, transport: bool :: EndsAs(s, Resume(s, ok, transport, retries), s.pc.m)
  {
    hide Receive, Begun, Resume, Settle, StatusOf;
    if a.Receiving? { ReceiveEnds(s, a.msg); }
    if s.pc.Start? { BegunEnds(s); }
    if s.pc.Refused? { SettleShape(Abandoned(s, s.pc.mode), s.pc.m, false); }
    if s.pc.Awaiting? && s.job.Some? {
      forall ok: bool, transport: bool ensures EndsAs(s, Resume(s, ok, transport, retries), s.pc.m) {
        ResumeEnds(s, ok, transport, retries);
      }
    }
  }

  /**
   A block opened at step k and left at step l was left by COMMIT or ROLLBACK,
   and the DDL registries are as they were before BEGIN, unless it was a COMMIT
   and the block had not failed: then what the block recorded stays.
   */
  lemma BlockLeft(run: seq<System>, acts: seq<Action>, cfg: Config, i: SessionId, k: nat, l: nat)
    requires IsRun(run, acts, cfg) && k < l < |acts|
    requires !At(run[k], i).inTxn && At(run[k + 1], i).inTxn
    requires InBlock(At(run[l], i), At(run[k + 1], i).txn) && !At(run[l + 1], i).inTxn
    ensures i < |run[l].sessions|
    ensures var m := AtWorkOn(run[l], acts[l], i);
      && EndsBlock(m)
      && At(run[l + 1], i).registry ==
           if StmtOf(m).CommitTxn? && !At(run[l], i).failed then At(run[l], i).registry else At(run[k], i).registry
  {
    SameSize(run, acts, cfg, k + 1);
    SameSize(run, acts, cfg, l);
    BlockStep(run, acts, cfg, i, k);
    SnapshotStays(run, acts, cfg, i, k + 1, l);
    RunNext(run, acts, cfg, l);
    RunInv(run, acts, cfg, l);
    ActionEnds(run[l], cfg, acts[l], i);
    hide IsRun, Inv, Next, Enabled, EndsBlock;
  }

  /**
   An operation that fails inside a block leaves the session in it, with nothing
   given up and nothing done; a statement or a savepoint makes the block a
   failed one, anything else leaves that as it was.
   */
  lemma FailureMarksBlock(run: seq<System>, acts: seq<Action>, cfg: Config, i: SessionId, k: nat)
    requires IsRun(run, acts, cfg) && k < |acts| && OpFails(run[k], acts[k], i) && run[k].sessions[i].inTxn
    ensures |run[k + 1].sessions| == |run[k].sessions|
    ensures var S := run[k]; var T := run[k + 1]; var s := S.sessions[i]; var t := T.sessions[i];
      && t.inTxn && t.failed == (s.failed || s.pc.at.AppRun? || s.pc.at.Savepointing?)
      && t.txn == s.txn && t.schema == s.schema && t.restore == s.restore
      && t.registry == s.registry && t.snapshot == s.snapshot
      && T.jobs == S.jobs && T.committed == S.committed
  {
    RunNext(run, acts, cfg, k);
    RunInv(run, acts, cfg, k);
    WellFormedSession(run[k], cfg, i);
    hide IsRun, Inv, Resume, OpAt, Db2.Perform, WellFormed;
    FailureMarks(run[k].sessions[i], acts[k].transport, cfg.retries);
  }

  /**
   A message that goes to Db2 unforeseen, with no job to go to, fails: inside a
   block it leaves the session there, and a ROLLBACK TO makes the block a failed
   one.
   */
  lemma MissMarksBlock(s: Session, m: Msg)
    requires Unforeseen(s, m) && s.inTxn && Lockstep(s)
    ensures var t := StartBody(s, m); var before := if IsStatement(m) then s.trace else s.trace + [Sent(Data)];
      && Throws(before, t, m)
      && t.failed == (s.failed || (IsStatement(m) && StmtOf(m).SavepointCmd?))
      && t == s.(failed := t.failed, pc := t.pc, trace := t.trace, skipping := t.skipping, missing := s.missing + 1)
  {
    var s0 := if IsStatement(m) then s else Send(s, Data);
    var s1 := s0.(missing := s.missing + 1);
    DoneFrame(s1, m, false);
    DoneFrame(s1.(failed := true), m, false);
    MissThrows(s1, m);
    MissThrows(s1.(failed := true), m);
    hide Done, Throws;
  }

  lemma MissThrows(s: Session, m: Msg)
    requires s.job.None? && !m.Terminate?
    ensures Throws(s.trace, Done(s, m, false), m)
  {
    SettledError(s, m);
    hide Settle, ErrorsTo;
  }

  lemma FailureMarks(s: Session, transport: bool, retries: nat)
    requires s.pc.Awaiting? && WellFormed(s) && s.job.Some? && s.inTxn
    ensures var t := Resume(s, false, transport, retries);
      && t.failed == (s.failed || s.pc.at.AppRun? || s.pc.at.Savepointing?)
      && t == s.(failed := t.failed, job := t.job, pc := t.pc, trace := t.trace, skipping := t.skipping, missing := t.missing)
  {
    DoneFrame(s, s.pc.m, false);
    DoneFrame(s.(failed := true), s.pc.m, false);
    hide Done;
  }

  // ---- what a statement does on Db2 ----

  /**
   When an application statement or CREATE SCHEMA has succeeded, the unit of
   work of its session has grown by the write it asks for, under its number, in
   its transaction and schema, and by nothing else; a SELECT adds nothing.
   */
  lemma StatementTakesEffect(run: seq<System>, acts: seq<Action>, cfg: Config, k: nat, i: SessionId)
    requires IsRun(run, acts, cfg) && k < |acts| && i < |run[k].sessions|
    requires acts[k].OpSettled? && acts[k].who == i && acts[k].ok && run[k].sessions[i].pc.at.AppRun?
    ensures var S := run[k]; var T := run[k + 1]; var s := S.sessions[i];
      && s.job.Some? && s.job.value in S.jobs && T.committed == S.committed
      && T.jobs == S.jobs[s.job.value := S.jobs[s.job.value].(
           pending := S.jobs[s.job.value].pending + Written(i, s, s.pc.m))]
    ensures |run[k + 1].sessions| == |run[k].sessions|
    ensures run[k + 1].sessions[i].registry == run[k].sessions[i].registry + Entry(run[k].sessions[i].pc.m)
  {
    RunNext(run, acts, cfg, k);
    RunInv(run, acts, cfg, k);
    SessionGood(run[k], cfg, i);
    hide IsRun, Inv, Good, Resume, Written, Entry, OpAt, Db2.Perform, Uses;
    AtWork(i, run[k].sessions[i], JobOf(run[k], cfg, i));
    StatementEffect(i, run[k].sessions[i], acts[k].creates, JobOf(run[k], cfg, i));
    EntryRecorded(i, run[k].sessions[i], cfg.retries, JobOf(run[k], cfg, i));
  }

  /** What a message adds to the DDL registries. */
  function Entry(m: Msg): seq<nat> {
    if IsStatement(m) && StmtOf(m).App? && StmtOf(m).work.Defines? then [StmtOf(m).work.entry] else []
  }

  lemma EntryRecorded(who: SessionId, s: Session, retries: nat, job: Db2.Job)
    requires s.pc.Awaiting? && s.pc.at.AppRun? && s.job.Some? && Good(who, s, job)
    ensures Resume(s, true, false, retries).registry == s.registry + Entry(s.pc.m)
  {
    hide Fits, StatusOf;
    assert s.registry + [] == s.registry;
  }

  // ---- what the checkout and SET search_path do on Db2 ----

  /** Outside a block the schema asked for is created when it is missing. */
  function Provision(schema: string, missing: bool): seq<Db2.Write> {
    if missing then [Db2.SchemaCreated(schema)] else []
  }

  /**
   SET search_path first provisions the schema it names, then makes it the
   schema of the job, and with that of the session; nothing else changes and
   nothing becomes durable yet.
   */
  lemma PathTakesEffect(run: seq<System>, acts: seq<Action>, cfg: Config, k: nat, i: SessionId)
    requires IsRun(run, acts, cfg) && k < |acts| && i < |run[k].sessions|
    requires acts[k].OpSettled? && acts[k].who == i && acts[k].ok
    requires run[k].sessions[i].pc.at.PathPrepare? || run[k].sessions[i].pc.at.PathSet?
    ensures |run[k + 1].sessions| == |run[k].sessions|
    ensures var S := run[k]; var T := run[k + 1]; var s := S.sessions[i]; var t := T.sessions[i];
      && IsStatement(s.pc.m) && StmtOf(s.pc.m).SetPath? && s.job.Some? && s.job.value in S.jobs
      && var job := S.jobs[s.job.value]; var schema := StmtOf(s.pc.m).schema;
      && T.committed == S.committed
      && T.jobs == S.jobs[s.job.value :=
           if s.pc.at.PathSet? then job.(schema := schema)
           else job.(pending := job.pending + Provision(schema, acts[k].creates && !s.inTxn))]
      && t == s.(pc := t.pc, schema := if s.pc.at.PathSet? then schema else s.schema)
  {
    RunNext(run, acts, cfg, k);
    RunInv(run, acts, cfg, k);
    SessionGood(run[k], cfg, i);
    hide IsRun, Inv, Good, Resume, Provision, OpAt, Db2.Perform, Uses;
    AtWork(i, run[k].sessions[i], JobOf(run[k], cfg, i));
    PathEffect(i, run[k].sessions[i], acts[k].creates, cfg.retries, JobOf(run[k], cfg, i));
  }

  lemma PathEffect(who: SessionId, s: Session, creates: bool, retries: nat, job: Db2.Job)
    requires s.pc.Awaiting? && (s.pc.at.PathPrepare? || s.pc.at.PathSet?) && s.job.Some? && Good(who, s, job)
    ensures IsStatement(s.pc.m) && StmtOf(s.pc.m).SetPath?
    ensures var schema := StmtOf(s.pc.m).schema; var t := Resume(s, true, false, retries);
      && After(who, s, creates, job) == Db2.Applied(
           if s.pc.at.PathSet? then job.(schema := schema)
           else job.(pending := job.pending + Provision(schema, creates && !s.inTxn)), [])
      && t == s.(pc := t.pc, schema := if s.pc.at.PathSet? then schema else s.schema)
  {
    hide Fits;
    assert job.pending + [] == job.pending;
  }

  /**
   A checkout makes the job what the session expects: outside a block the
   session's schema is created when it is missing, then it is made the schema
   of the job; the session itself stays as it is.
   */
  lemma CheckoutTakesEffect(run: seq<System>, acts: seq<Action>, cfg: Config, k: nat, i: SessionId)
    requires IsRun(run, acts, cfg) && k < |acts| && i < |run[k].sessions|
    requires acts[k].OpSettled? && acts[k].who == i && acts[k].ok
    requires run[k].sessions[i].pc.at.PrepareSchema? || run[k].sessions[i].pc.at.ReplaySchema?
    ensures |run[k + 1].sessions| == |run[k].sessions|
    ensures var S := run[k]; var T := run[k + 1]; var s := S.sessions[i]; var t := T.sessions[i];
      && s.job.Some? && s.job.value in S.jobs
      && var job := S.jobs[s.job.value];
      && T.committed == S.committed
      && T.jobs == S.jobs[s.job.value :=
           if s.pc.at.ReplaySchema? then job.(schema := s.schema)
           else job.(pending := job.pending + Provision(s.schema, acts[k].creates && !s.inTxn))]
      && t == s.(pc := t.pc)
  {
    RunNext(run, acts, cfg, k);
    RunInv(run, acts, cfg, k);
    SessionGood(run[k], cfg, i);
    hide IsRun, Inv, Good, Resume, Provision, OpAt, Db2.Perform, Uses;
    AtWork(i, run[k].sessions[i], JobOf(run[k], cfg, i));
    CheckoutEffect(i, run[k].sessions[i], acts[k].creates, cfg.retries, JobOf(run[k], cfg, i));
  }

  lemma CheckoutEffect(who: SessionId, s: Session, creates: bool, retries: nat, job: Db2.Job)
    requires s.pc.Awaiting? && (s.pc.at.PrepareSchema? || s.pc.at.ReplaySchema?) && s.job.Some?
    ensures var t := Resume(s, true, false, retries);
      && After(who, s, creates, job) == Db2.Applied(
           if s.pc.at.ReplaySchema? then job.(schema := s.schema)
           else job.(pending := job.pending + Provision(s.schema, creates && !s.inTxn)), [])
      && t == s.(pc := t.pc)
  {
    assert job.pending + [] == job.pending;
  }

  /** The operation that a savepoint statement asks for. */
  function SavepointOf(st: Stmt): Db2.Op
    requires st.SavepointCmd?
  {
    match st.action
    case SetIt => Db2.SetSavepoint(st.name)
    case ReleaseIt => Db2.ReleaseSavepoint(st.name)
    case RollbackToIt => Db2.RollbackTo(st.name)
  }

  /** SAVEPOINT, RELEASE and ROLLBACK TO do on the job of the session what they say, under the name they give. */
  lemma SavepointTakesEffect(run: seq<System>, acts: seq<Action>, cfg: Config, k: nat, i: SessionId)
    requires IsRun(run, acts, cfg) && k < |acts| && i < |run[k].sessions|
    requires acts[k].OpSettled? && acts[k].who == i && acts[k].ok && run[k].sessions[i].pc.at.Savepointing?
    ensures var S := run[k]; var T := run[k + 1]; var s := S.sessions[i];
      && IsStatement(s.pc.m) && StmtOf(s.pc.m).SavepointCmd? && s.job.Some? && s.job.value in S.jobs
      && var effect := Db2.Perform(S.jobs[s.job.value], SavepointOf(StmtOf(s.pc.m)));
      && T.committed == S.committed
      && T.jobs == if effect.Applied? then S.jobs[s.job.value := effect.job] else S.jobs
  {
    RunNext(run, acts, cfg, k);
    RunInv(run, acts, cfg, k);
    SessionGood(run[k], cfg, i);
    hide IsRun, Inv, Good, Resume, Uses, OpAt, Db2.Perform;
    AtWork(i, run[k].sessions[i], JobOf(run[k], cfg, i));
    SavepointAsked(i, run[k].sessions[i], acts[k].creates, JobOf(run[k], cfg, i));
  }

  lemma SavepointAsked(who: SessionId, s: Session, creates: bool, job: Db2.Job)
    requires s.pc.Awaiting? && s.pc.at.Savepointing? && Good(who, s, job)
    ensures IsStatement(s.pc.m) && StmtOf(s.pc.m).SavepointCmd?
    ensures OpAt(s, who, s.pc.m, s.pc.at, creates) == SavepointOf(StmtOf(s.pc.m))
    ensures var effect := Db2.Perform(job, SavepointOf(StmtOf(s.pc.m))); effect.Applied? ==> effect.durable == []
  {
    hide Fits;
  }

  /** The conversation has gone on from `before` to `after`, and `r` was sent meanwhile. */
  predicate Adds(before: seq<Event>, after: seq<Event>, r: Response) {
    before <= after && Sent(r) in after[|before|..]
  }

  /** A statement outside a block is acknowledged in the span that makes its write durable, and only then. */
  lemma AutocommitTakesEffect(run: seq<System>, acts: seq<Action>, cfg: Config, k: nat, i: SessionId)
    requires IsRun(run, acts, cfg) && k < |acts| && i < |run[k].sessions|
    requires acts[k].OpSettled? && acts[k].who == i && run[k].sessions[i].pc.at.AutoCommit?
    ensures |run[k + 1].sessions| == |run[k].sessions|
    ensures var S := run[k]; var T := run[k + 1]; var s := S.sessions[i]; var t := T.sessions[i];
      if acts[k].ok then T.committed == S.committed + Written(i, s, s.pc.m) && Adds(s.trace, t.trace, Completion(s.pc.m))
      else T.committed == S.committed && t.trace == s.trace
  {
    RunNext(run, acts, cfg, k);
    RunInv(run, acts, cfg, k);
    SessionGood(run[k], cfg, i);
    hide IsRun, Inv, Good, Resume, Written, OpAt, Db2.Perform, Uses, Adds;
    AtWork(i, run[k].sessions[i], JobOf(run[k], cfg, i));
    AutoCommitSettles(i, run[k].sessions[i], acts[k].creates, acts[k].transport, cfg.retries, JobOf(run[k], cfg, i));
  }

  lemma AutoCommitSettles(who: SessionId, s: Session, creates: bool, transport: bool, retries: nat, job: Db2.Job)
    requires s.pc.Awaiting? && s.pc.at.AutoCommit? && Good(who, s, job) && s.job.Some?
    ensures After(who, s, creates, job) == Db2.Applied(job.(pending := [], marks := []), Written(who, s, s.pc.m))
    ensures Adds(s.trace, Resume(s, true, false, retries).trace, Completion(s.pc.m))
    ensures Resume(s, false, transport, retries).trace == s.trace
  {
    AnswersInTrace(s, s.pc.m);
    hide Reply;
  }

  lemma AnswersInTrace(s: Session, m: Msg)
    ensures Adds(s.trace, Reply(s, m).trace, Completion(m))
  {
    DoneGrows(Send(s, Completion(m)), m);
    hide Done;
    assert Reply(s, m).trace[|s.trace|] == Sent(Completion(m));
  }

  lemma DoneGrows(s: Session, m: Msg)
    ensures s.trace <= Done(s, m, true).trace
  {
    hide StatusOf;
  }

  // ---- how a failure is told ----

  /** The read will be repeated on another job. */
  predicate Repeats(s: Session, transport: bool, retries: nat) {
    s.pc.Awaiting? && s.pc.at.AppRun? && s.pc.at.attempt < retries && !s.inTxn && RowsFromDb2(StmtOf(s.pc.m)) && transport
  }

  /** Only an error can answer the message any more. */
  predicate Doomed(s: Session, m: Msg) {
    s.pc == Awaiting(m, AutoRollback) || StageOf(s.pc) == Stage.Ended(m, false)
  }

  predicate Fallible(m: Msg) { !m.Terminate? && !m.Sync? }

  /** Since the conversation stood at `before`, the message has failed: it is doomed, or has been told so. */
  predicate Failed(before: seq<Event>, t: Session, m: Msg) {
    (Doomed(t, m) && t.trace == before) || (t.pc.Ready? && t.trace == before + ErrorsTo(t, m))
  }

  /** The handler throws. */
  lemma ThrowFails(s: Session, m: Msg)
    requires Fallible(m)
    ensures Failed(s.trace, Done(s, m, false), m)
  {
    SettledError(s, m);
    hide Settle, ErrorsTo;
  }

  /** Whoever an operation fails for, the message is not acknowledged: it is repeated, or fails. */
  lemma FailureDooms(s: Session, transport: bool, retries: nat)
    requires s.pc.Awaiting? && WellFormed(s) && s.job.Some? && Fallible(s.pc.m)
    ensures var t := Resume(s, false, transport, retries);
      if Repeats(s, transport, retries)
      then t == s.(job := None, pc := Invalidating(s.pc.m, s.job.value, Reacquire(s.pc.at.attempt + 1)))
      else Failed(s.trace, t, s.pc.m)
  {
    ThrowFails(s, s.pc.m);
    ThrowFails(s.(failed := true), s.pc.m);
    hide Done, ErrorsTo, WellFormed;
  }

  lemma RollbackFails(s: Session, retries: nat)
    requires s.pc.Awaiting? && s.pc.at.AutoRollback? && s.job.Some? && Fallible(s.pc.m)
    ensures Failed(s.trace, Resume(s, true, false, retries), s.pc.m)
  {
    SettledError(s, s.pc.m);
    hide Settle, StatusOf, ErrorsTo;
  }

  lemma TurnFails(s: Session, t: Session, caller: bool, m: Msg)
    requires Doomed(s, m) && PoolTurn(s, t, caller) && !m.Terminate?
    ensures Failed(s.trace, t, m)
  {
    hide ErrorsTo, AskTurn, Onward;
    if s.pc.Awaiting? {
      AwaitingStays(s, t, caller);
    } else if t == Onward(s) {
      OnwardFails(s, m);
    } else {
      DoomedAsks(s, t, m);
    }
  }

  lemma OnwardFails(s: Session, m: Msg)
    requires Doomed(s, m) && !s.pc.Awaiting? && !m.Terminate?
    ensures Failed(s.trace, Onward(s), m)
  {
    SettledError(s, m);
    hide Settle, ErrorsTo;
  }

  lemma DoomedAsks(s: Session, t: Session, m: Msg)
    requires Doomed(s, m) && !s.pc.Awaiting?
    ensures !AskTurn(s, t)
  {
  }

  lemma AwaitingStays(s: Session, t: Session, caller: bool)
    requires s.pc.Awaiting? && PoolTurn(s, t, caller)
    ensures t == s
  {
  }

  lemma DoomedStep(S: System, cfg: Config, a: Action, i: SessionId, m: Msg)
    requires Inv(S, cfg) && Enabled(S, a) && i < |S.sessions| && Doomed(S.sessions[i], m)
    requires Fallible(m)
    ensures i < |Next(S, cfg, a).sessions| && Failed(S.sessions[i].trace, Next(S, cfg, a).sessions[i], m)
  {
    hide Inv, Doomed, Failed, Resume, PoolTurn, Receive, Close, TakeLease, LeaseDenied, Begun, Db2.Perform, OpAt;
    var s := S.sessions[i];
    if !OwnSpan(a) && !a.OpSettled? {
      hide Next;
      NextTurns(S, cfg, a);
      TurnFails(s, Next(S, cfg, a).sessions[i], Caller(a, i), m);
    } else {
      NextIsLocal(S, cfg, a);
      DoomedWaits(s, m);
      WellFormedSession(S, cfg, i);
      if a.OpSettled? && a.who == i {
        HoldingAwaits(s);
        RollbackFails(s, cfg.retries);
        FailureDooms(s, a.transport, cfg.retries);
      }
    }
  }

  lemma HoldingAwaits(s: Session)
    requires WellFormed(s) && s.pc.Awaiting?
    ensures s.job.Some?
  {
  }

  /** A doomed message waits for its ROLLBACK or for the pool; it does nothing else. */
  lemma DoomedWaits(s: Session, m: Msg)
    requires Doomed(s, m)
    ensures !s.pc.Ready? && !s.pc.Granted? && !s.pc.Refused? && !s.pc.Start?
    ensures s.pc.Awaiting? ==> s.pc == Awaiting(m, AutoRollback)
    ensures Failed(s.trace, s, m)
  {
  }

  /** The operation a session waited for has failed, or Db2 has refused it. */
  predicate OpFails(S: System, a: Action, i: SessionId) {
    Enabled(S, a) && a.OpSettled? && a.who == i
    && !(a.ok && Db2.Perform(S.jobs[S.sessions[i].job.value],
                             OpAt(S.sessions[i], i, S.sessions[i].pc.m, S.sessions[i].pc.at, a.creates)).Applied?)
  }

  lemma OpFailsNow(run: seq<System>, acts: seq<Action>, cfg: Config, i: SessionId, k: nat)
    requires IsRun(run, acts, cfg) && k < |acts| && OpFails(run[k], acts[k], i)
    requires !Repeats(run[k].sessions[i], acts[k].transport, cfg.retries)
    ensures i < |run[k + 1].sessions|
    ensures Fallible(run[k].sessions[i].pc.m)
    ensures Failed(run[k].sessions[i].trace, run[k + 1].sessions[i], run[k].sessions[i].pc.m)
  {
    RunNext(run, acts, cfg, k);
    RunInv(run, acts, cfg, k);
    RunTalk(run, acts, cfg, k);
    WellFormedSession(run[k], cfg, i);
    assert TalkOk(run[k].sessions[i]);
    HoldingAwaits(run[k].sessions[i]);
    WorkingMessage(run[k].sessions[i]);
    hide IsRun, Inv, TalkOk, Resume, Failed, Repeats, WellFormed, OpAt, Db2.Perform, AllTalkOk;
    FailureDooms(run[k].sessions[i], acts[k].transport, cfg.retries);
  }

  lemma WorkingMessage(s: Session)
    requires TalkOk(s) && s.pc.Awaiting? && WellFormed(s)
    ensures Fallible(s.pc.m)
  {
    hide Converse;
  }

  lemma {:induction false} FailureLasts(run: seq<System>, acts: seq<Action>, cfg: Config, i: SessionId, k: nat, l: nat)
    requires IsRun(run, acts, cfg) && k < l < |run| && OpFails(run[k], acts[k], i)
    requires !Repeats(run[k].sessions[i], acts[k].transport, cfg.retries)
    requires forall j :: k < j < l ==> i < |run[j].sessions| && !run[j].sessions[i].pc.Ready?
    ensures i < |run[l].sessions|
    ensures Fallible(run[k].sessions[i].pc.m)
    ensures Failed(run[k].sessions[i].trace, run[l].sessions[i], run[k].sessions[i].pc.m)
    decreases l
  {
    hide IsRun, Repeats, Next, Inv, Db2.Perform, OpAt;
    RunLength(run, acts, cfg);
    OpFailsNow(run, acts, cfg, i, k);
    if l > k + 1 {
      FailureLasts(run, acts, cfg, i, k, l - 1);
      RunNext(run, acts, cfg, l - 1);
      RunInv(run, acts, cfg, l - 1);
      DoomedStep(run[l - 1], cfg, acts[l - 1], i, run[k].sessions[i].pc.m);
    }
  }

  /**
   A Db2 operation that fails is never covered up: unless the read is repeated
   on another job, the next time the session is at rest the message has been
   answered by an ErrorResponse and by nothing else.
   */
  lemma FailureAnswered(run: seq<System>, acts: seq<Action>, cfg: Config, i: SessionId, k: nat, l: nat)
    requires IsRun(run, acts, cfg) && k < l < |run| && OpFails(run[k], acts[k], i)
    requires !Repeats(run[k].sessions[i], acts[k].transport, cfg.retries)
    requires forall j :: k < j < l ==> i < |run[j].sessions| && !run[j].sessions[i].pc.Ready?
    requires i < |run[l].sessions| && run[l].sessions[i].pc.Ready?
    ensures var s := run[k].sessions[i]; var t := run[l].sessions[i];
      t.trace == s.trace + ErrorsTo(t, s.pc.m)
  {
    FailureLasts(run, acts, cfg, i, k, l);
    hide IsRun, ErrorsTo, OpFails, Repeats;
  }

  /** A span in which an operation fails sends no CommandComplete. */
  lemma FailureSendsNoSuccess(run: seq<System>, acts: seq<Action>, cfg: Config, i: SessionId, k: nat)
    requires IsRun(run, acts, cfg) && k < |acts| && OpFails(run[k], acts[k], i)
    ensures i < |run[k + 1].sessions|
    ensures var before := run[k].sessions[i].trace; var after := run[k + 1].sessions[i].trace;
      before <= after && !Adds(before, after, CommandComplete)
  {
    RunNext(run, acts, cfg, k);
    var s := run[k].sessions[i];
    if Repeats(s, acts[k].transport, cfg.retries) {
      hide IsRun, Db2.Perform, OpAt;
    } else {
      OpFailsNow(run, acts, cfg, i, k);
      hide IsRun, OpFails, Repeats, Next;
    }
  }
}
