/** How often the statement of a message runs on Db2: a write once, a read once more than the proxy may repeat it. */
module Repetition {
  import opened Wrappers
  import opened JobPool
  import opened Sessions
  import opened SessionInvariant
  import opened LeaseProtocol
  import opened TransactionTheorems
  import Db2

  /** The message a session received last, and how often its statement has been run on Db2 since. */
  datatype Tally = Tally(m: Option<Msg>, runs: nat)

  function Count(S: System, a: Action, i: SessionId, t: Tally): Tally
    requires Enabled(S, a)
  {
    if a.Receiving? && a.who == i then Tally(Some(a.msg), 0)
    else if a.OpSettled? && a.who == i && S.sessions[i].pc.at.AppRun? then t.(runs := t.runs + 1)
    else t
  }

  ghost function TallyAt(run: seq<System>, acts: seq<Action>, cfg: Config, i: SessionId, k: nat): Tally
    requires IsRun(run, acts, cfg) && k < |run|
  {
    if k == 0 then Tally(None, 0)
    else Count(run[k - 1], acts[k - 1], i, TallyAt(run, acts, cfg, i, k - 1))
  }

  /** Only a SELECT may be run again. */
  function Limit(m: Option<Msg>, retries: nat): nat {
    if m.Some? && RowsFromDb2(StmtOf(m.value)) then retries + 1 else 1
  }

  function Tries(mode: Mode): nat {
    match mode
    case First => 0
    case Retry(attempt) => attempt
  }

  /** The session is about to run the statement of m, or to look into the catalog before, after n runs. */
  predicate Ahead(t: Tally, m: Msg, n: nat, retries: nat) {
    t.m == Some(m) && t.runs == n && n < Limit(t.m, retries)
  }

  predicate CountedAt(t: Tally, m: Msg, at: Label, retries: nat) {
    match at
    case PrepareSchema(mode) => Ahead(t, m, Tries(mode), retries)
    case ReplaySchema(mode) => Ahead(t, m, Tries(mode), retries)
    case ReplayCommit(mode) => Ahead(t, m, Tries(mode), retries)
    case AppRun(attempt) => Ahead(t, m, attempt, retries)
    case AutoCommit => true
    case AutoRollback => true
    case _ => Ahead(t, m, 0, retries)
  }

  predicate CountedNext(t: Tally, m: Msg, next: Then, retries: nat) {
    next.Reacquire? ==> Ahead(t, m, next.attempt, retries)
  }

  /** The attempt number a session carries along counts the runs. */
  predicate Counted(t: Tally, pc: Pc, retries: nat) {
    && t.runs <= Limit(t.m, retries)
    && match pc
       case Ready => true
       case Awaiting(m, at) => CountedAt(t, m, at, retries)
       case Releasing(_, _, _) => true
       case Resetting(_, _, _, _) => true
       case Invalidating(m, _, next) => CountedNext(t, m, next, retries)
       case Closing(m, _, next, _) => CountedNext(t, m, next, retries)
       case Replacing(m, next) => CountedNext(t, m, next, retries)
       case _ => Ahead(t, pc.m, Tries(pc.mode), retries)
  }

  /** Nothing is run any more once the message is answered or its job given back. */
  lemma RestCounted(t: Tally, pc: Pc, retries: nat)
    requires t.runs <= Limit(t.m, retries) && (pc.Ready? || pc.Releasing?)
    ensures Counted(t, pc, retries)
  {
    hide Limit;
  }

  lemma DoneCounted(s: Session, m: Msg, ok: bool, t: Tally, retries: nat)
    requires t.runs <= Limit(t.m, retries)
    ensures Counted(t, Done(s, m, ok).pc, retries)
    ensures Counted(t, Settle(s, m, ok).pc, retries)
  {
    DoneFrame(s, m, ok);
    SettleShape(s, m, ok);
    hide Done, Settle, Counted, Limit;
    RestCounted(t, Done(s, m, ok).pc, retries);
    RestCounted(t, Settle(s, m, ok).pc, retries);
  }

  lemma ReplyCounted(s: Session, m: Msg, t: Tally, retries: nat)
    requires t.runs <= Limit(t.m, retries)
    ensures Counted(t, Reply(s, m).pc, retries)
  {
    hide Limit, Done, Counted;
    DoneCounted(Send(s, Completion(m)), m, true, t, retries);
  }

  lemma EnterCounted(s: Session, m: Msg, at: Label, t: Tally, retries: nat)
    requires t.runs <= Limit(t.m, retries) && CountedAt(t, m, at, retries)
    ensures Counted(t, Enter(s, m, at).pc, retries)
  {
    hide Limit, Done, CountedAt;
    if s.job.None? {
      var s1 := s.(missing := s.missing + 1);
      DoneCounted(if (at.Savepointing? || at.AppRun?) && s1.inTxn then s1.(failed := true) else s1, m, false, t, retries);
    }
  }

  lemma EndTxnCounted(s: Session, m: Msg, keep: bool, t: Tally, retries: nat)
    requires Ahead(t, m, 0, retries)
    ensures Counted(t, EndTxn(s, m, keep).pc, retries)
  {
    hide Reply;
    var s1 := LeaveBlock(s, keep);
    ReplyCounted(s1, m, t, retries);
    if s.restore.Some? { ReplyCounted(s1.(restore := None, schema := s.restore.value), m, t, retries); }
  }

  lemma EnterAppCounted(s: Session, m: Msg, attempt: nat, t: Tally, retries: nat)
    requires Ahead(t, m, attempt, retries)
    ensures Counted(t, EnterApp(s, m, attempt).pc, retries)
  {
    hide Enter, Limit, Counted;
    EnterCounted(if s.inTxn then s else s.(txn := s.txn + 1), m, AppRun(attempt), t, retries);
  }

  lemma SqlCounted(s: Session, m: Msg, t: Tally, retries: nat)
    requires Ahead(t, m, 0, retries)
    ensures Counted(t, StartSql(s, m, StmtOf(m)).pc, retries)
  {
    hide Counted, Done, Reply, EnterApp, EndTxn, Enter;
    DoneCounted(s, m, false, t, retries);
    ReplyCounted(s, m, t, retries);
    EnterAppCounted(s, m, 0, t, retries);
    EnterCounted(s, m, CatalogRead, t, retries);
    match StmtOf(m) {
      case Begin =>
        ReplyCounted(s.(inTxn := true, failed := false, snapshot := Some(s.registry), txn := s.txn + 1), m, t, retries);
      case CommitTxn =>
        EndTxnCounted(s, m, !s.failed, t, retries);
        EnterCounted(s, m, if s.failed then TxnRollback else TxnCommit, t, retries);
      case RollbackTxn => EndTxnCounted(s, m, false, t, retries); EnterCounted(s, m, TxnRollback, t, retries);
      case SavepointCmd(_, _) => EnterCounted(s, m, Savepointing, t, retries);
      case SetPath(_, local) =>
        EnterCounted(if local && s.restore.None? then s.(restore := Some(s.schema)) else s, m, PathPrepare, t, retries);
      case _ =>
    }
  }

  lemma BodyCounted(s: Session, m: Msg, t: Tally, retries: nat)
    requires Ahead(t, m, 0, retries)
    ensures Counted(t, StartBody(s, m).pc, retries)
  {
    hide Counted, Done, Reply, EnterApp, StartSql, Enter, Close;
    DoneCounted(s, m, true, t, retries);
    DoneCounted(s, m, false, t, retries);
    DoneCounted(Send(s, Data), m, true, t, retries);
    match m {
      case Query(_) => SqlCounted(s, m, t, retries);
      case Execute(_) => SqlCounted(s, m, t, retries);
      case ExecuteStored => ReplyCounted(s, m, t, retries);
      case DescribePortal(_) => EnterCounted(s, m, CatalogRead, t, retries); EnterAppCounted(s, m, 0, t, retries);
      case DescribeStatement(st) =>
        EnterCounted(Send(s, Data), m, CatalogRead, t, retries);
        DoneCounted(Send(s, Data), m, !RowsFromDb2(st), t, retries);
      case Sync => DoneCounted(Send(s.(skipping := false), ReadyForQuery(StatusOf(s))), m, true, t, retries);
      case Unsupported => DoneCounted(Send(s, ErrorResponse), m, true, t, retries);
      case Terminate => CloseCounted(s, t, retries);
      case _ =>
    }
  }

  lemma CloseCounted(s: Session, t: Tally, retries: nat)
    requires t.runs <= Limit(t.m, retries)
    ensures Counted(t, Close(s).pc, retries)
  {
  }

  lemma ReceiveCounted(s: Session, m: Msg, retries: nat)
    requires s.pc.Ready?
    ensures Counted(Tally(Some(m), 0), Receive(s, m).pc, retries)
  {
    hide StartBody, NeedsBackend;
    BodyCounted(Note(s, Received(m)), m, Tally(Some(m), 0), retries);
  }

  lemma BegunCounted(s: Session, t: Tally, retries: nat)
    requires s.pc.Start? && Counted(t, s.pc, retries)
    ensures Counted(t, Begun(s).pc, retries)
  {
    hide StartBody, EnterApp;
    match s.pc.mode {
      case First => BodyCounted(s, s.pc.m, t, retries);
      case Retry(attempt) => EnterAppCounted(s, s.pc.m, attempt, t, retries);
    }
  }

  lemma CatalogCounted(s: Session, m: Msg, t: Tally, retries: nat)
    requires Ahead(t, m, 0, retries)
    ensures Counted(t, CatalogDone(s, m).pc, retries)
  {
    hide Reply, EnterApp, Counted;
    ReplyCounted(s, m, t, retries);
    EnterAppCounted(s, m, 0, t, retries);
  }

  /** The statement has been run once more. */
  lemma RunCountedOn(s: Session, ok: bool, transport: bool, retries: nat, t: Tally)
    requires s.pc.Awaiting? && s.pc.at.AppRun? && s.job.Some? && Counted(t, s.pc, retries)
    ensures Counted(t.(runs := t.runs + 1), Resume(s, ok, transport, retries).pc, retries)
  {
    hide Reply, Done, RowsFromDb2, AppDone, AppFailed;
    var u := t.(runs := t.runs + 1);
    if ok {
      AppDoneCounted(s, s.pc.m, u, retries);
    } else {
      AppFailedCounted(s, s.pc.m, s.pc.at.attempt, transport, u, retries);
    }
  }

  lemma AppDoneCounted(s: Session, m: Msg, t: Tally, retries: nat)
    requires t.runs <= Limit(t.m, retries)
    ensures Counted(t, AppDone(s, m).pc, retries)
  {
    hide Limit, Reply;
    assert Counted(t, Awaiting(m, AutoCommit), retries);
    hide Counted;
    var st := StmtOf(m);
    ReplyCounted(if st.App? && st.work.Defines? then s.(registry := s.registry + [st.work.entry]) else s, m, t, retries);
  }

  lemma AppFailedCounted(s: Session, m: Msg, attempt: nat, transport: bool, t: Tally, retries: nat)
    requires s.job.Some? && t.m == Some(m) && t.runs == attempt + 1 <= Limit(t.m, retries)
    ensures Counted(t, AppFailed(s, m, attempt, transport, retries).pc, retries)
  {
    hide Done, RowsFromDb2;
    DoneCounted(s.(failed := true), m, false, t, retries);
  }

  lemma TxnCounted(s: Session, ok: bool, transport: bool, retries: nat, t: Tally)
    requires s.pc.Awaiting? && s.job.Some? && Counted(t, s.pc, retries)
    requires s.pc.at.Savepointing? || s.pc.at.TxnCommit? || s.pc.at.TxnRollback?
    ensures Counted(t, Resume(s, ok, transport, retries).pc, retries)
  {
    var m := s.pc.m; var st := StmtOf(m);
    assert Ahead(t, m, 0, retries);
    hide Reply, Done, EndTxn, Limit, Counted, Ahead;
    DoneCounted(s, m, false, t, retries);
    DoneCounted(s.(failed := true), m, false, t, retries);
    ReplyCounted(if st.SavepointCmd? && st.action.RollbackToIt? then s.(failed := false) else s, m, t, retries);
    EndTxnCounted(s, m, true, t, retries);
    EndTxnCounted(s, m, false, t, retries);
  }

  lemma CatalogOpCounted(s: Session, ok: bool, transport: bool, retries: nat, t: Tally)
    requires s.pc.Awaiting? && s.job.Some? && Counted(t, s.pc, retries)
    requires s.pc.at.CatalogRead? || s.pc.at.CatalogCommit?
    ensures Counted(t, Resume(s, ok, transport, retries).pc, retries)
  {
    hide Done, CatalogDone, Limit;
    DoneCounted(s, s.pc.m, false, t, retries);
    CatalogCounted(s, s.pc.m, t, retries);
  }

  lemma CheckoutCounted(s: Session, ok: bool, transport: bool, retries: nat, t: Tally)
    requires s.pc.Awaiting? && s.job.Some? && Counted(t, s.pc, retries)
    requires s.pc.at.PrepareSchema? || s.pc.at.ReplaySchema? || s.pc.at.ReplayCommit?
    ensures Counted(t, Resume(s, ok, transport, retries).pc, retries)
  {
    hide Limit;
  }

  lemma PathCounted(s: Session, ok: bool, transport: bool, retries: nat, t: Tally)
    requires s.pc.Awaiting? && s.job.Some? && Counted(t, s.pc, retries)
    requires s.pc.at.PathPrepare? || s.pc.at.PathSet? || s.pc.at.PathCheck? || s.pc.at.PathCommit?
    ensures Counted(t, Resume(s, ok, transport, retries).pc, retries)
  {
    hide Reply, Done, Limit;
    DoneCounted(s, s.pc.m, false, t, retries);
    ReplyCounted(s, s.pc.m, t, retries);
  }

  lemma RestoreCounted(s: Session, ok: bool, transport: bool, retries: nat, t: Tally)
    requires s.pc.Awaiting? && s.job.Some? && Counted(t, s.pc, retries)
    requires s.pc.at.RestoreSchema? || s.pc.at.RestoreCommit? || s.pc.at.RestoreCheck?
    ensures Counted(t, Resume(s, ok, transport, retries).pc, retries)
  {
    hide Reply, Done, Limit;
    DoneCounted(s, s.pc.m, false, t, retries);
    ReplyCounted(s, s.pc.m, t, retries);
  }

  lemma AutoCounted(s: Session, ok: bool, transport: bool, retries: nat, t: Tally)
    requires s.pc.Awaiting? && s.job.Some? && Counted(t, s.pc, retries)
    requires s.pc.at.AutoCommit? || s.pc.at.AutoRollback?
    ensures Counted(t, Resume(s, ok, transport, retries).pc, retries)
  {
    hide Reply, Done, Limit;
    DoneCounted(s, s.pc.m, false, t, retries);
    ReplyCounted(s, s.pc.m, t, retries);
  }

  lemma ResumeCounted(s: Session, ok: bool, transport: bool, retries: nat, t: Tally)
    requires s.pc.Awaiting? && s.job.Some? && Counted(t, s.pc, retries)
    ensures Counted(if s.pc.at.AppRun? then t.(runs := t.runs + 1) else t, Resume(s, ok, transport, retries).pc, retries)
  {
    hide Resume, Counted;
    match s.pc.at {
      case AppRun(_) => RunCountedOn(s, ok, transport, retries, t);
      case Savepointing => TxnCounted(s, ok, transport, retries, t);
      case TxnCommit => TxnCounted(s, ok, transport, retries, t);
      case TxnRollback => TxnCounted(s, ok, transport, retries, t);
      case CatalogRead => CatalogOpCounted(s, ok, transport, retries, t);
      case CatalogCommit => CatalogOpCounted(s, ok, transport, retries, t);
      case PathPrepare => PathCounted(s, ok, transport, retries, t);
      case PathSet => PathCounted(s, ok, transport, retries, t);
      case PathCheck => PathCounted(s, ok, transport, retries, t);
      case PathCommit => PathCounted(s, ok, transport, retries, t);
      case RestoreSchema(_) => RestoreCounted(s, ok, transport, retries, t);
      case RestoreCommit(_) => RestoreCounted(s, ok, transport, retries, t);
      case RestoreCheck => RestoreCounted(s, ok, transport, retries, t);
      case AutoCommit => AutoCounted(s, ok, transport, retries, t);
      case AutoRollback => AutoCounted(s, ok, transport, retries, t);
      case _ => CheckoutCounted(s, ok, transport, retries, t);
    }
  }

  lemma OnwardCounted(s: Session, t: Tally, retries: nat)
    requires Counted(t, s.pc, retries)
    ensures Counted(t, Onward(s).pc, retries)
  {
    hide Settle, Limit;
    match s.pc {
      case Releasing(m, _, ok) => DoneCounted(s, m, ok, t, retries);
      case Resetting(m, _, ok, _) => DoneCounted(s, m, ok, t, retries);
      case Closing(m, _, next, _) => if next.Finish? { DoneCounted(s, m, next.ok, t, retries); }
      case Replacing(m, next) => if next.Finish? { DoneCounted(s, m, next.ok, t, retries); }
      case _ =>
    }
  }

  lemma TurnCounted(s: Session, u: Session, caller: bool, t: Tally, retries: nat)
    requires PoolTurn(s, u, caller) && Counted(t, s.pc, retries)
    ensures Counted(t, u.pc, retries)
  {
    hide Onward, Limit;
    OnwardCounted(s, t, retries);
  }

  lemma OwnCounted(S: System, cfg: Config, a: Action, i: SessionId, t: Tally)
    requires Enabled(S, a) && (OwnSpan(a) || a.OpSettled?) && a.who == i && Counted(t, S.sessions[i].pc, cfg.retries)
    ensures i < |Next(S, cfg, a).sessions|
    ensures Counted(Count(S, a, i, t), Next(S, cfg, a).sessions[i].pc, cfg.retries)
  {
    hide Counted, Receive, Close, Begun, Resume, Settle, Db2.Perform, OpAt;
    var s := S.sessions[i];
    match a {
      case Receiving(_, m) => ReceiveCounted(s, m, cfg.retries);
      case SocketClosing(_) => Bounded(t, s.pc, cfg.retries); CloseCounted(s, t, cfg.retries);
      case LeaseTaken(_) => TakenCounted(s, t, cfg.retries);
      case LeaseRefused(_) =>
        Bounded(t, s.pc, cfg.retries);
        DoneCounted(Abandoned(s, s.pc.mode), s.pc.m, false, t, cfg.retries);
      case BodyStarting(_) => BegunCounted(s, t, cfg.retries);
      case OpSettled(_, _, transport, _) =>
        ResumeCounted(s, true, false, cfg.retries, t);
        ResumeCounted(s, false, transport, cfg.retries, t);
    }
  }

  lemma Bounded(t: Tally, pc: Pc, retries: nat)
    requires Counted(t, pc, retries)
    ensures t.runs <= Limit(t.m, retries)
  {
  }

  lemma TakenCounted(s: Session, t: Tally, retries: nat)
    requires s.pc.Granted? && Counted(t, s.pc, retries)
    ensures Counted(t, TakeLease(s).pc, retries)
  {
  }

  lemma StepCounted(S: System, cfg: Config, a: Action, i: SessionId, t: Tally)
    requires Enabled(S, a) && i < |S.sessions| && Counted(t, S.sessions[i].pc, cfg.retries)
    ensures i < |Next(S, cfg, a).sessions|
    ensures Counted(Count(S, a, i, t), Next(S, cfg, a).sessions[i].pc, cfg.retries)
  {
    hide Counted, Next, PoolTurn;
    if OwnSpan(a) || a.OpSettled? {
      NextIsLocal(S, cfg, a);
      if a.who == i { OwnCounted(S, cfg, a, i, t); }
    } else {
      NextTurns(S, cfg, a);
      TurnCounted(S.sessions[i], Next(S, cfg, a).sessions[i], Caller(a, i), t, cfg.retries);
    }
  }

  lemma {:induction false} RunCounted(run: seq<System>, acts: seq<Action>, cfg: Config, k: nat, i: SessionId)
    requires IsRun(run, acts, cfg) && k < |run| && i < |run[k].sessions|
    ensures Counted(TallyAt(run, acts, cfg, i, k), run[k].sessions[i].pc, cfg.retries)
  {
    if k > 0 {
      RunNext(run, acts, cfg, k - 1);
      SizeKept(run[k - 1], cfg, acts[k - 1]);
      hide IsRun, Next, Counted, Enabled, Count;
      RunCounted(run, acts, cfg, k - 1, i);
      StepCounted(run[k - 1], cfg, acts[k - 1], i, TallyAt(run, acts, cfg, i, k - 1));
    }
  }

  /**
   Whatever fails meanwhile, the statement of a message is run on Db2 at most
   once; a SELECT that loses its connections outside a block, at most once more
   than the proxy is told to retry it.
   */
  lemma RunsAtMost(run: seq<System>, acts: seq<Action>, cfg: Config, k: nat, i: SessionId)
    requires IsRun(run, acts, cfg) && k < |run| && i < |run[k].sessions|
    ensures var t := TallyAt(run, acts, cfg, i, k);
      t.runs <= if t.m.Some? && RowsFromDb2(StmtOf(t.m.value)) then cfg.retries + 1 else 1
  {
    RunCounted(run, acts, cfg, k, i);
    hide IsRun, TallyAt;
  }
}
