/**
 The books a client could keep: from nothing but the messages it sent and the
 responses it got, what it has made durable and what its open block has written.
 They are the truth: in every state of every run they say what the job of the
 session holds and what of the session stands in the committed store.
 */
module ClientLedger {
  import opened Wrappers
  import opened JobPool
  import opened Sessions
  import opened SessionInvariant
  import opened LeaseProtocol
  import opened LeaseInvariant
  import opened Conversation
  import opened Refinement
  import opened TransactionTheorems
  import Db2

  // ---- the ledger ----

  /** The numbers of the statements whose writes are pending, and the savepoints set among them. */
  datatype Unit = Unit(writes: seq<nat>, marks: seq<Db2.Savepoint>)

  const NO_WORK := Unit([], [])

  /** `ending`: an error has answered the statement that was to end the block, and no status has come since. */
  datatype Ledger = Ledger(
    doing: Msg, open: bool, failed: bool, unit: Unit, durable: seq<nat>, ending: Option<Stmt>)

  const BLANK := Ledger(Sync, false, false, NO_WORK, [], None)

  function Wrote(g: Ledger, id: nat): Ledger {
    if g.open then g.(unit := g.unit.(writes := g.unit.writes + [id])) else g.(durable := g.durable + [id])
  }

  /** The block is over; COMMIT of a block that has not failed makes its writes durable. */
  function Ended(g: Ledger, st: Stmt): Ledger {
    g.(open := false, failed := false, unit := NO_WORK,
       durable := g.durable + if st.CommitTxn? && !g.failed then g.unit.writes else [])
  }

  function Prefix(ids: seq<nat>, n: nat): seq<nat> {
    if n <= |ids| then ids[..n] else ids
  }

  function Marked(u: Unit, action: SavepointAction, name: string): Unit {
    var k := Db2.FindMark(u.marks, name);
    match action
    case SetIt => u.(marks := u.marks + [Db2.Savepoint(name, |u.writes|)])
    case ReleaseIt => if k < 0 then u else u.(marks := u.marks[..k])
    case RollbackToIt => if k < 0 then u else Unit(Prefix(u.writes, u.marks[k].at), u.marks[..k + 1])
  }

  /** A statement has been acknowledged. */
  function Completed(g: Ledger, st: Stmt): Ledger {
    match st
    case Begin => g.(open := true)
    case CommitTxn => Ended(g, st)
    case RollbackTxn => Ended(g, st)
    case SavepointCmd(action, name) =>
      g.(unit := Marked(g.unit, action, name), failed := g.failed && !action.RollbackToIt?)
    case App(id, work, _) => if work.Reads? then g else Wrote(g, id)
    case CreateSchema(id, lookup) => if lookup.LookupPresent? then g else Wrote(g, id)
    case _ => g
  }

  function Answered(g: Ledger, m: Msg): Ledger {
    if IsStatement(m) then Completed(g, StmtOf(m)) else g
  }

  /** A status of I after an error on COMMIT or ROLLBACK says that the block is over all the same. */
  function Account(g: Ledger, e: Event): Ledger {
    match e
    case Received(m) => g.(doing := m)
    case Skipped(_) => g
    case Sent(r) =>
      match r
      case Data => g
      case CommandComplete => Answered(g, g.doing)
      case ErrorResponse => if EndsBlock(g.doing) then g.(ending := Some(StmtOf(g.doing))) else g
      case ReadyForQuery(status) =>
        var h := if status.I? && g.open && g.ending.Some? then Ended(g, g.ending.value) else g;
        h.(failed := status.E?, ending := None)
  }

  function Accounts(trace: seq<Event>): Ledger {
    if trace == [] then BLANK else Account(Accounts(trace[..|trace| - 1]), trace[|trace| - 1])
  }

  // ---- what it is compared with ----

  /** The statements of session `who` among the writes. */
  function Mine(ws: seq<Db2.Write>, who: SessionId): seq<nat> {
    if ws == [] then []
    else
      var last := ws[|ws| - 1];
      Mine(ws[..|ws| - 1], who) + if last.AppWrite? && last.session == who then [last.stmt] else []
  }

  /** The unit of work of the session's block, on the job it holds. */
  function UnitOf(who: SessionId, s: Session, job: Db2.Job): Unit {
    if s.inTxn && s.job.Some? then Unit(Mine(job.pending, who), job.marks) else NO_WORK
  }

  predicate Agrees(g: Ledger, s: Session, u: Unit, mine: seq<nat>) {
    g.open == s.inTxn && g.failed == s.failed && g.ending.None? && g.unit == u && g.durable == mine
  }

  /** The ledger once the present status is known. */
  function Settled(g: Ledger, s: Session): Ledger { Account(g, Sent(ReadyForQuery(StatusOf(s)))) }

  predicate Restores(at: Label) { at.RestoreSchema? || at.RestoreCommit? || at.RestoreCheck? }

  /** The message is at work and the ledger is up to date. */
  predicate Doing(who: SessionId, s: Session, m: Msg, job: Db2.Job, mine: seq<nat>) {
    var g := Accounts(s.trace);
    !s.closed && !s.skipping && !m.Terminate? && !m.Sync? && g.doing == m && Agrees(g, s, UnitOf(who, s, job), mine)
  }

  /** The block has been ended on Db2; the client will be told when its schema is back. */
  predicate Lagging(who: SessionId, s: Session, m: Msg, job: Db2.Job, mine: seq<nat>) {
    var g := Accounts(s.trace);
    !s.closed && !s.skipping && EndsBlock(m) && g.doing == m && g.open
    && Agrees(Completed(g, StmtOf(m)), s, UnitOf(who, s, job), mine)
  }

  /** The handler is over; an error may still have to be sent. */
  predicate Finished(who: SessionId, s: Session, m: Msg, ok: bool, job: Db2.Job, mine: seq<nat>) {
    var g := Accounts(s.trace);
    !s.closed && !s.skipping && !m.Terminate? && g.doing == m
    && Agrees(if ok then g else Settled(Account(g, Sent(ErrorResponse)), s), s, UnitOf(who, s, job), mine)
  }

  /** The ledger of session `who`, whose job holds `job`, against its writes that are durable. */
  predicate Kept(who: SessionId, s: Session, job: Db2.Job, mine: seq<nat>) {
    var g := Accounts(s.trace);
    if s.closed then Settled(g, s).durable == mine && (StageOf(s.pc).Ended? ==> StageOf(s.pc).ok)
    else
      match StageOf(s.pc)
      case Resting =>
        Agrees(Settled(g, s), s, UnitOf(who, s, job), mine)
        && (!s.skipping ==> Agrees(g, s, UnitOf(who, s, job), mine))
      case Running(m) =>
        if s.pc.Awaiting? && Restores(s.pc.at) then Lagging(who, s, m, job, mine) else Doing(who, s, m, job, mine)
      case Ended(m, ok) => Finished(who, s, m, ok, job, mine)
  }

  // ---- events and statuses ----

  lemma AccountNote(s: Session, e: Event)
    ensures Accounts(Note(s, e).trace) == Account(Accounts(s.trace), e)
  {
    assert (s.trace + [e])[..|s.trace|] == s.trace;
  }

  lemma SettledSame(g: Ledger, s: Session, u: Unit, mine: seq<nat>)
    requires Agrees(g, s, u, mine) && Lockstep(s)
    ensures Settled(g, s) == g
  {
  }

  /** An error on anything changes nothing, as far as the client's books go. */
  lemma ErrorSettles(g: Ledger, s: Session, u: Unit, mine: seq<nat>)
    requires g.open == s.inTxn && g.unit == u && g.durable == mine && Lockstep(s)
    ensures Agrees(Settled(Account(g, Sent(ErrorResponse)), s), s, u, mine)
  {
  }

  /** But an error after the block has been ended on Db2 is found out by the status. */
  lemma LateErrorSettles(g: Ledger, s: Session, u: Unit, mine: seq<nat>)
    requires EndsBlock(g.doing) && g.open && !s.inTxn && Lockstep(s)
    requires Agrees(Completed(g, StmtOf(g.doing)), s, u, mine)
    ensures Agrees(Settled(Account(g, Sent(ErrorResponse)), s), s, u, mine)
  {
  }

  // ---- the end of a message ----

  lemma SettleKept(who: SessionId, s: Session, m: Msg, ok: bool, job: Db2.Job, mine: seq<nat>)
    requires Finished(who, s, m, ok, job, mine) && Lockstep(s)
    ensures Kept(who, Settle(s, m, ok), job, mine)
  {
    hide Accounts, Account, Mine;
    var g := Accounts(s.trace);
    var s1 := Send(s, ErrorResponse);
    AccountNote(s, Sent(ErrorResponse));
    AccountNote(s1, Sent(ReadyForQuery(StatusOf(s1))));
    if ok {
      SettledSame(g, s, UnitOf(who, s, job), mine);
    } else {
      SettledSame(Settled(Account(g, Sent(ErrorResponse)), s), s, UnitOf(who, s, job), mine);
    }
  }

  lemma DoneKept(who: SessionId, s: Session, m: Msg, ok: bool, job: Db2.Job, mine: seq<nat>)
    requires Finished(who, s, m, ok, job, mine) && Lockstep(s)
    ensures Kept(who, Done(s, m, ok), job, mine)
  {
    hide Accounts, Account, Mine, Settle;
    var s1 := if ok && IsQuery(m) then Send(s, ReadyForQuery(StatusOf(s))) else s;
    AccountNote(s, Sent(ReadyForQuery(StatusOf(s))));
    if ok { SettledSame(Accounts(s.trace), s, UnitOf(who, s, job), mine); }
    if !(s1.job.Some? && !s1.inTxn) { SettleKept(who, s1, m, ok, job, mine); }
  }

  lemma ThrowKept(who: SessionId, s: Session, m: Msg, job: Db2.Job, mine: seq<nat>)
    requires Doing(who, s.(failed := Accounts(s.trace).failed), m, job, mine) && Lockstep(s)
    ensures Kept(who, Done(s, m, false), job, mine)
  {
    hide Accounts, Account, Mine, Done;
    ErrorSettles(Accounts(s.trace), s, UnitOf(who, s, job), mine);
    DoneKept(who, s, m, false, job, mine);
  }

  /** A statement is acknowledged when the ledger it gives agrees. */
  lemma ReplyKept(who: SessionId, s: Session, m: Msg, job: Db2.Job, mine: seq<nat>)
    requires !s.closed && !s.skipping && !m.Terminate? && Lockstep(s)
    requires Accounts(s.trace).doing == m
    requires Agrees(Answered(Accounts(s.trace), m), s, UnitOf(who, s, job), mine)
    ensures Kept(who, Reply(s, m), job, mine)
  {
    hide Accounts, Mine, Done;
    AccountNote(s, Sent(Completion(m)));
    DoneKept(who, Send(s, Completion(m)), m, true, job, mine);
  }

  lemma EnterKept(who: SessionId, s: Session, m: Msg, at: Label, job: Db2.Job, mine: seq<nat>)
    requires Doing(who, s, m, job, mine) && Lockstep(s) && !Restores(at)
    ensures Kept(who, Enter(s, m, at), job, mine)
  {
    hide Accounts, Mine, Done;
    if s.job.None? {
      ThrowKept(who, s.(missing := s.missing + 1), m, job, mine);
      if s.inTxn { ThrowKept(who, s.(missing := s.missing + 1).(failed := true), m, job, mine); }
    }
  }

  lemma EnterAppKept(who: SessionId, s: Session, m: Msg, attempt: nat, job: Db2.Job, mine: seq<nat>)
    requires Doing(who, s, m, job, mine) && Lockstep(s)
    ensures Kept(who, EnterApp(s, m, attempt), job, mine)
  {
    hide Accounts, Mine, Enter;
    EnterKept(who, if s.inTxn then s else s.(txn := s.txn + 1), m, AppRun(attempt), job, mine);
  }

  lemma RestorePathKept(who: SessionId, s: Session, m: Msg, job: Db2.Job, mine: seq<nat>)
    requires !s.closed && !s.skipping && !s.inTxn && !s.failed && s.snapshot.None? && EndsBlock(m)
    requires Accounts(s.trace).doing == m && (s.restore.Some? ==> Accounts(s.trace).open)
    requires Agrees(Completed(Accounts(s.trace), StmtOf(m)), s, UnitOf(who, s, job), mine)
    ensures Kept(who, RestorePath(s, m), job, mine)
  {
    hide Accounts, Mine, Reply, Completed;
    if s.restore.None? {
      ReplyKept(who, s, m, job, mine);
    } else if s.job.None? {
      ReplyKept(who, s.(restore := None, schema := s.restore.value), m, job, mine);
    }
  }

  /** The end of a block on Db2, or of a block that never reached it. */
  lemma EndTxnKept(who: SessionId, s: Session, m: Msg, keep: bool, before: Db2.Job, after: Db2.Job, mine: seq<nat>)
    requires Doing(who, s, m, before, mine) && Lockstep(s) && EndsBlock(m)
    ensures var g := Accounts(s.trace);
      Kept(who, EndTxn(s, m, keep), after, mine + if StmtOf(m).CommitTxn? && !g.failed then g.unit.writes else [])
  {
    hide Accounts, Mine, RestorePath;
    var g := Accounts(s.trace);
    RestorePathKept(who, LeaveBlock(s, keep), m, after,
                    mine + if StmtOf(m).CommitTxn? && !g.failed then g.unit.writes else []);
  }

  // ---- the spans that start a message ----

  lemma EndingKept(who: SessionId, s: Session, m: Msg, job: Db2.Job, mine: seq<nat>)
    requires Doing(who, s, m, job, mine) && Lockstep(s) && EndsBlock(m)
    ensures Kept(who, StartSql(s, m, StmtOf(m)), job, mine)
  {
    hide Accounts, Mine, Enter, EndTxn;
    var keep := StmtOf(m).CommitTxn? && !s.failed;
    if s.job.None? {
      EndTxnKept(who, s, m, keep, job, job, mine);
      assert mine + [] == mine;
    } else {
      EnterKept(who, s, m, if keep then TxnCommit else TxnRollback, job, mine);
    }
  }

  lemma BeginKept(who: SessionId, s: Session, m: Msg, job: Db2.Job, mine: seq<nat>)
    requires Doing(who, s, m, job, mine) && Lockstep(s) && IsStatement(m) && StmtOf(m).Begin?
    requires s.job.Some? && !s.inTxn ==> Db2.Clean(job)
    ensures Kept(who, StartSql(s, m, Begin), job, mine)
  {
    hide Accounts, Reply, Done;
    ThrowKept(who, s, m, job, mine);
    if !s.failed {
      ReplyKept(who, if s.inTxn then s
                     else s.(inTxn := true, failed := false, snapshot := Some(s.registry), txn := s.txn + 1), m, job, mine);
    }
  }

  lemma LocalKept(who: SessionId, s: Session, m: Msg, job: Db2.Job, mine: seq<nat>)
    requires Doing(who, s, m, job, mine) && Lockstep(s) && IsStatement(m) && StmtOf(m).Local?
    ensures Kept(who, StartSql(s, m, StmtOf(m)), job, mine)
  {
    hide Accounts, Mine, Reply, Done;
    ThrowKept(who, s, m, job, mine);
    ReplyKept(who, s, m, job, mine);
  }

  lemma SqlKept(who: SessionId, s: Session, m: Msg, st: Stmt, job: Db2.Job, mine: seq<nat>)
    requires Doing(who, s, m, job, mine) && Lockstep(s) && (m == Query(st) || m == Execute(st))
    requires s.job.Some? && !s.inTxn ==> Db2.Clean(job)
    ensures Kept(who, StartSql(s, m, st), job, mine)
  {
    hide Accounts, Mine, Reply, Done, Enter, EnterApp, EndTxn, Kept;
    match st {
      case Begin => BeginKept(who, s, m, job, mine);
      case CommitTxn => EndingKept(who, s, m, job, mine);
      case RollbackTxn => EndingKept(who, s, m, job, mine);
      case Local(_) => LocalKept(who, s, m, job, mine);
      case SavepointCmd(_, _) => ThrowKept(who, s, m, job, mine); EnterKept(who, s, m, Savepointing, job, mine);
      case SetPath(_, local) =>
        ThrowKept(who, s, m, job, mine);
        if !local || s.inTxn {
          EnterKept(who, if local && s.restore.None? then s.(restore := Some(s.schema)) else s, m, PathPrepare, job, mine);
        }
      case CreateSchema(_, _) => EnterAppKept(who, s, m, 0, job, mine); EnterKept(who, s, m, CatalogRead, job, mine);
      case LiveCatalog => ThrowKept(who, s, m, job, mine); EnterKept(who, s, m, CatalogRead, job, mine);
      case App(_, _, _) =>
        ThrowKept(who, s, m, job, mine);
        EnterAppKept(who, s, m, 0, job, mine);
        EnterKept(who, s, m, CatalogRead, job, mine);
    }
  }

  /** What is only sent does not touch the ledger. */
  lemma SentKept(who: SessionId, s: Session, m: Msg, r: Response, job: Db2.Job, mine: seq<nat>)
    requires Doing(who, s, m, job, mine) && (r.Data? || (r.ErrorResponse? && !EndsBlock(m)))
    ensures Doing(who, Send(s, r), m, job, mine)
  {
    hide Accounts, Mine;
    AccountNote(s, Sent(r));
  }

  lemma ReturnKept(who: SessionId, s: Session, m: Msg, job: Db2.Job, mine: seq<nat>)
    requires Doing(who, s, m, job, mine) && Lockstep(s)
    ensures Kept(who, Done(s, m, true), job, mine)
  {
    hide Accounts, Mine, Done;
    DoneKept(who, s, m, true, job, mine);
  }

  lemma DescribeKept(who: SessionId, s: Session, m: Msg, job: Db2.Job, mine: seq<nat>)
    requires Doing(who, s, m, job, mine) && Lockstep(s) && (m.DescribePortal? || m.DescribeStatement?)
    ensures Kept(who, StartBody(s, m), job, mine)
  {
    hide Accounts, Mine, Done, Enter, EnterApp, Kept;
    SentKept(who, s, m, Data, job, mine);
    if m.DescribePortal? {
      EnterKept(who, s, m, CatalogRead, job, mine);
      EnterAppKept(who, s, m, 0, job, mine);
      ReturnKept(who, Send(s, Data), m, job, mine);
    } else {
      EnterKept(who, Send(s, Data), m, CatalogRead, job, mine);
      ThrowKept(who, Send(s, Data), m, job, mine);
      ReturnKept(who, Send(s, Data), m, job, mine);
    }
  }

  lemma BodyKept(who: SessionId, s: Session, m: Msg, job: Db2.Job, mine: seq<nat>)
    requires Doing(who, s, m, job, mine) && Lockstep(s)
    requires s.job.Some? && !s.inTxn ==> Db2.Clean(job)
    ensures Kept(who, StartBody(s, m), job, mine)
  {
    hide Accounts, Mine, Reply, Done, Enter, EnterApp, StartSql, Kept;
    match m {
      case Query(st) => SqlKept(who, s, m, st, job, mine);
      case Execute(st) => SqlKept(who, s, m, st, job, mine);
      case EmptyQuery => SentKept(who, s, m, Data, job, mine); ReturnKept(who, Send(s, Data), m, job, mine);
      case ExecuteStored => ReplyKept(who, s, m, job, mine);
      case DescribePortal(_) => DescribeKept(who, s, m, job, mine);
      case DescribeStatement(_) => DescribeKept(who, s, m, job, mine);
      case Bookkeeping(_) =>
        ThrowKept(who, s, m, job, mine);
        SentKept(who, s, m, Data, job, mine);
        ReturnKept(who, Send(s, Data), m, job, mine);
      case Flush => ReturnKept(who, s, m, job, mine);
      case Unsupported =>
        SentKept(who, s, m, ErrorResponse, job, mine);
        ReturnKept(who, Send(s, ErrorResponse), m, job, mine);
    }
  }

  lemma SyncKept(who: SessionId, s: Session, job: Db2.Job, mine: seq<nat>)
    requires !s.closed && Lockstep(s) && Accounts(s.trace).doing == Sync
    requires Agrees(Settled(Accounts(s.trace), s), s, UnitOf(who, s, job), mine)
    ensures Kept(who, StartBody(s, Sync), job, mine)
  {
    hide Accounts, Mine, Done;
    var s1 := s.(skipping := false);
    AccountNote(s1, Sent(ReadyForQuery(StatusOf(s))));
    DoneKept(who, Send(s1, ReadyForQuery(StatusOf(s))), Sync, true, job, mine);
  }

  lemma CloseKept(who: SessionId, s: Session, job: Db2.Job, mine: seq<nat>)
    requires Agrees(Settled(Accounts(s.trace), s), s, UnitOf(who, s, job), mine)
    ensures Kept(who, Close(s), job, mine)
  {
    hide Accounts, Mine;
  }

  lemma ReceivedSettles(g: Ledger, s: Session, m: Msg, u: Unit, mine: seq<nat>)
    requires Agrees(Settled(g, s), s, u, mine)
    ensures Agrees(Settled(Account(g, Received(m)), s), s, u, mine)
  {
  }

  lemma ReceiveKept(who: SessionId, s: Session, m: Msg, job: Db2.Job, mine: seq<nat>)
    requires Kept(who, s, job, mine) && s.pc.Ready? && Good(who, s, job)
    ensures Kept(who, Receive(s, m), job, mine)
  {
    hide Accounts, Mine, StartBody, NeedsBackend, Fits;
    var s1 := Note(s, Received(m));
    AccountNote(s, Received(m));
    AccountNote(s, Skipped(m));
    if !s.closed && !(s.skipping && !m.Sync? && !m.Terminate?) {
      ReceivedSettles(Accounts(s.trace), s, m, UnitOf(who, s, job), mine);
      if m.Sync? {
        SyncNeedsNothing(s);
        SyncKept(who, s1, job, mine);
      } else if m.Terminate? {
        SyncNeedsNothing(s);
        CloseKept(who, s1, job, mine);
        TerminateCloses(s1);
      } else {
        BodyKept(who, s1, m, job, mine);
      }
    }
  }

  lemma TerminateCloses(s: Session)
    ensures StartBody(s, Terminate) == Close(s)
  {
  }

  lemma BegunKept(who: SessionId, s: Session, job: Db2.Job, mine: seq<nat>)
    requires Kept(who, s, job, mine) && s.pc.Start? && Good(who, s, job)
    ensures Kept(who, Begun(s), job, mine)
  {
    hide Accounts, Mine, StartBody, EnterApp;
    if s.pc.mode.First? { BodyKept(who, s, s.pc.m, job, mine); } else { EnterAppKept(who, s, s.pc.m, s.pc.mode.attempt, job, mine); }
  }

  // ---- the effect of an operation, in the numbers of the client ----

  lemma {:induction false} MineConcat(xs: seq<Db2.Write>, ys: seq<Db2.Write>, who: SessionId)
    ensures Mine(xs + ys, who) == Mine(xs, who) + Mine(ys, who)
  {
    if ys == [] {
      assert xs + ys == xs;
    } else {
      var front, last := ys[..|ys| - 1], ys[|ys| - 1];
      MineConcat(xs, front, who);
      assert (xs + ys)[..|xs + ys| - 1] == xs + front && (xs + ys)[|xs + ys| - 1] == last;
    }
  }

  lemma {:induction false} MineNone(ws: seq<Db2.Write>, who: SessionId)
    requires forall k :: 0 <= k < |ws| ==> ws[k].AppWrite? ==> ws[k].session != who
    ensures Mine(ws, who) == []
  {
    if ws != [] { MineNone(ws[..|ws| - 1], who); }
  }

  lemma {:induction false} MineAll(ws: seq<Db2.Write>, who: SessionId, n: nat)
    requires n <= |ws| && forall k :: 0 <= k < |ws| ==> ws[k].AppWrite? && ws[k].session == who
    ensures |Mine(ws, who)| == |ws| && Mine(ws[..n], who) == Mine(ws, who)[..n]
  {
    if ws == [] {
    } else if n == |ws| {
      MineAll(ws[..|ws| - 1], who, |ws| - 1);
      assert ws[..n] == ws;
    } else {
      MineAll(ws[..|ws| - 1], who, n);
      assert ws[..|ws| - 1][..n] == ws[..n];
    }
  }

  lemma MineOne(w: Db2.Write, who: SessionId)
    requires w.AppWrite? && w.session == who
    ensures Mine([w], who) == [w.stmt]
  {
    assert [w][..0] == [];
  }

  /** The job of a session that is handling a message, after the operation it awaits has succeeded. */
  predicate Succeeds(who: SessionId, s: Session, creates: bool, job: Db2.Job) {
    s.pc.Awaiting? && Good(who, s, job) && !s.closed && After(who, s, creates, job).Applied?
  }

  predicate SuccessKept(who: SessionId, s: Session, creates: bool, retries: nat, job: Db2.Job, mine: seq<nat>)
    requires s.pc.Awaiting? && s.job.Some? && After(who, s, creates, job).Applied?
  {
    var e := After(who, s, creates, job);
    Kept(who, Resume(s, true, false, retries), e.job, mine + Mine(e.durable, who))
  }

  lemma ReplayOpKept(who: SessionId, s: Session, creates: bool, retries: nat, job: Db2.Job, mine: seq<nat>)
    requires Succeeds(who, s, creates, job) && Kept(who, s, job, mine)
    requires s.pc.at.PrepareSchema? || s.pc.at.ReplaySchema? || s.pc.at.ReplayCommit?
    ensures SuccessKept(who, s, creates, retries, job, mine)
  {
    hide Accounts;
    var e := After(who, s, creates, job);
    MineNone(e.durable, who);
    assert mine + [] == mine;
  }

  lemma SavepointOpKept(who: SessionId, s: Session, creates: bool, retries: nat, job: Db2.Job, mine: seq<nat>)
    requires Succeeds(who, s, creates, job) && Kept(who, s, job, mine) && s.pc.at.Savepointing?
    ensures SuccessKept(who, s, creates, retries, job, mine)
  {
    hide Accounts, Account, Reply, Own, Marked;
    var e := After(who, s, creates, job);
    var st := StmtOf(s.pc.m);
    NothingDurable(who, mine);
    SavepointUnit(who, s, st, job, e.job);
    hide Mine, Db2.Perform;
    ReplyKept(who, if st.action.RollbackToIt? then s.(failed := false) else s, s.pc.m, e.job, mine);
  }

  /** A savepoint operation does to the unit of work what the client expects of the statement. */
  lemma SavepointUnit(who: SessionId, s: Session, st: Stmt, job: Db2.Job, after: Db2.Job)
    requires st.SavepointCmd? && Own(who, s, job)
    requires var op := (match st.action
        case SetIt => Db2.SetSavepoint(st.name)
        case ReleaseIt => Db2.ReleaseSavepoint(st.name)
        case RollbackToIt => Db2.RollbackTo(st.name));
      Db2.Perform(job, op).Applied? && after == Db2.Perform(job, op).job
    ensures Unit(Mine(after.pending, who), after.marks) == Marked(Unit(Mine(job.pending, who), job.marks), st.action, st.name)
  {
    MineAll(job.pending, who, |job.pending|);
    if st.action.RollbackToIt? {
      var at := job.marks[Db2.FindMark(job.marks, st.name)].at;
      if at <= |job.pending| { MineAll(job.pending, who, at); }
    }
  }

  lemma EndingOpKept(who: SessionId, s: Session, creates: bool, retries: nat, job: Db2.Job, mine: seq<nat>)
    requires Succeeds(who, s, creates, job) && Kept(who, s, job, mine) && (s.pc.at.TxnCommit? || s.pc.at.TxnRollback?)
    ensures SuccessKept(who, s, creates, retries, job, mine)
  {
    hide Accounts, EndTxn;
    var e := After(who, s, creates, job);
    EndTxnKept(who, s, s.pc.m, s.pc.at.TxnCommit?, job, e.job, mine);
  }

  lemma RestoreOpKept(who: SessionId, s: Session, creates: bool, retries: nat, job: Db2.Job, mine: seq<nat>)
    requires Succeeds(who, s, creates, job) && Kept(who, s, job, mine) && Restores(s.pc.at)
    ensures SuccessKept(who, s, creates, retries, job, mine)
  {
    hide Accounts, Reply, Completed;
    var e := After(who, s, creates, job);
    assert mine + Mine([], who) == mine;
    if s.pc.at.RestoreCheck? { ReplyKept(who, s, s.pc.m, e.job, mine); }
  }

  lemma PathOpKept(who: SessionId, s: Session, creates: bool, retries: nat, job: Db2.Job, mine: seq<nat>)
    requires Succeeds(who, s, creates, job) && Kept(who, s, job, mine) && (s.pc.at.PathPrepare? || s.pc.at.PathSet?)
    ensures SuccessKept(who, s, creates, retries, job, mine)
  {
    hide Accounts, Account, Reply, Own;
    NothingDurable(who, mine);
  }

  lemma PathEndKept(who: SessionId, s: Session, creates: bool, retries: nat, job: Db2.Job, mine: seq<nat>)
    requires Succeeds(who, s, creates, job) && Kept(who, s, job, mine) && (s.pc.at.PathCheck? || s.pc.at.PathCommit?)
    ensures SuccessKept(who, s, creates, retries, job, mine)
  {
    hide Accounts, Account, Reply, Own;
    var e := After(who, s, creates, job);
    MineNone(e.durable, who);
    assert mine + [] == mine;
    hide Mine;
    if s.pc.at.PathCommit? || s.inTxn { ReplyKept(who, s, s.pc.m, e.job, mine); }
  }

  lemma CatalogDoneKept(who: SessionId, s: Session, m: Msg, job: Db2.Job, mine: seq<nat>)
    requires Doing(who, s, m, job, mine) && Lockstep(s) && Looks(m)
    ensures Kept(who, CatalogDone(s, m), job, mine)
  {
    hide Accounts, Mine, Reply, EnterApp;
    if IsStatement(m) && (StmtOf(m).App? || (StmtOf(m).CreateSchema? && !StmtOf(m).lookup.LookupPresent?)) {
      EnterAppKept(who, s, m, 0, job, mine);
    } else {
      ReplyKept(who, s, m, job, mine);
    }
  }

  lemma CatalogOpKept(who: SessionId, s: Session, creates: bool, retries: nat, job: Db2.Job, mine: seq<nat>)
    requires Succeeds(who, s, creates, job) && Kept(who, s, job, mine) && (s.pc.at.CatalogRead? || s.pc.at.CatalogCommit?)
    ensures SuccessKept(who, s, creates, retries, job, mine)
  {
    hide Accounts, CatalogDone;
    var e := After(who, s, creates, job);
    assert mine + Mine([], who) == mine;
    if s.pc.at.CatalogCommit? || s.inTxn { CatalogDoneKept(who, s, s.pc.m, e.job, mine); }
  }

  /** An application statement that succeeds has added to the unit of work what it is to write, and nothing else. */
  lemma StatementEffect(who: SessionId, s: Session, creates: bool, job: Db2.Job)
    requires s.pc.Awaiting? && s.pc.at.AppRun? && Good(who, s, job)
    ensures After(who, s, creates, job) == Db2.Applied(job.(pending := job.pending + Written(who, s, s.pc.m)), [])
  {
    assert job.pending + [] == job.pending;
  }

  lemma WrittenCounts(who: SessionId, s: Session, m: Msg, g: Ledger, pending: seq<Db2.Write>)
    requires Works(m) && g.doing == m
    ensures Mine(Written(who, s, m), who) == if Written(who, s, m) == [] then [] else [StmtOf(m).id]
    ensures Mine(pending + Written(who, s, m), who) == Mine(pending, who) + Mine(Written(who, s, m), who)
    ensures Answered(g, m) == if Written(who, s, m) == [] then g else Wrote(g, StmtOf(m).id)
  {
    hide Wrote;
    if Written(who, s, m) != [] { MineOne(Written(who, s, m)[0], who); }
    MineConcat(pending, Written(who, s, m), who);
    hide Mine;
  }

  lemma AppInBlockKept(who: SessionId, s: Session, creates: bool, retries: nat, job: Db2.Job, mine: seq<nat>)
    requires Succeeds(who, s, creates, job) && Kept(who, s, job, mine) && s.pc.at.AppRun? && s.inTxn
    ensures SuccessKept(who, s, creates, retries, job, mine)
  {
    var m := s.pc.m;
    var g := Accounts(s.trace);
    StatementEffect(who, s, creates, job);
    WrittenCounts(who, s, m, g, job.pending);
    hide Accounts, Reply, After, Mine, Written, Answered, Own, Completed;
    var st := StmtOf(m);
    var s1 := if st.App? && st.work.Defines? then s.(registry := s.registry + [st.work.entry]) else s;
    var e := After(who, s, creates, job);
    NothingDurable(who, mine);
    ReplyKept(who, s1, m, e.job, mine);
  }

  lemma NothingDurable(who: SessionId, mine: seq<nat>)
    ensures mine + Mine([], who) == mine
  {
  }

  lemma AppAloneKept(who: SessionId, s: Session, creates: bool, retries: nat, job: Db2.Job, mine: seq<nat>)
    requires Succeeds(who, s, creates, job) && Kept(who, s, job, mine) && s.pc.at.AppRun? && !s.inTxn
    ensures SuccessKept(who, s, creates, retries, job, mine)
  {
    StatementEffect(who, s, creates, job);
    NothingDurable(who, mine);
    hide Accounts, Reply, After, Mine, Written, Answered, Fits, Completed;
  }

  lemma AppOpKept(who: SessionId, s: Session, creates: bool, retries: nat, job: Db2.Job, mine: seq<nat>)
    requires Succeeds(who, s, creates, job) && Kept(who, s, job, mine) && s.pc.at.AppRun?
    ensures SuccessKept(who, s, creates, retries, job, mine)
  {
    hide SuccessKept, Succeeds, Kept;
    if s.inTxn { AppInBlockKept(who, s, creates, retries, job, mine); } else { AppAloneKept(who, s, creates, retries, job, mine); }
  }

  lemma AutoCommitKept(who: SessionId, s: Session, creates: bool, retries: nat, job: Db2.Job, mine: seq<nat>)
    requires Succeeds(who, s, creates, job) && Kept(who, s, job, mine) && s.pc.at.AutoCommit?
    ensures SuccessKept(who, s, creates, retries, job, mine)
  {
    var e := After(who, s, creates, job);
    var m := s.pc.m;
    assert e == Db2.Applied(job.(pending := [], marks := []), Written(who, s, m));
    WrittenCounts(who, s, m, Accounts(s.trace), []);
    assert mine + [] == mine;
    hide Accounts, Reply, Mine, Written, After, Answered, Completed;
    ReplyKept(who, s, m, e.job, mine + Mine(e.durable, who));
  }

  lemma AutoRollbackKept(who: SessionId, s: Session, creates: bool, retries: nat, job: Db2.Job, mine: seq<nat>)
    requires Succeeds(who, s, creates, job) && Kept(who, s, job, mine) && s.pc.at.AutoRollback?
    ensures SuccessKept(who, s, creates, retries, job, mine)
  {
    hide Accounts, Done, Fits;
    var e := After(who, s, creates, job);
    NothingDurable(who, mine);
    hide Mine;
    ThrowKept(who, s, s.pc.m, e.job, mine);
  }

  lemma OpKept(who: SessionId, s: Session, creates: bool, retries: nat, job: Db2.Job, mine: seq<nat>)
    requires Succeeds(who, s, creates, job) && Kept(who, s, job, mine)
    ensures s.job.Some? && SuccessKept(who, s, creates, retries, job, mine)
  {
    assert s.job.Some?;
    hide SuccessKept, Succeeds, Kept, Good, After;
    match s.pc.at {
      case PrepareSchema(_) => ReplayOpKept(who, s, creates, retries, job, mine);
      case ReplaySchema(_) => ReplayOpKept(who, s, creates, retries, job, mine);
      case ReplayCommit(_) => ReplayOpKept(who, s, creates, retries, job, mine);
      case Savepointing => SavepointOpKept(who, s, creates, retries, job, mine);
      case TxnCommit => EndingOpKept(who, s, creates, retries, job, mine);
      case TxnRollback => EndingOpKept(who, s, creates, retries, job, mine);
      case RestoreSchema(_) => RestoreOpKept(who, s, creates, retries, job, mine);
      case RestoreCommit(_) => RestoreOpKept(who, s, creates, retries, job, mine);
      case RestoreCheck => RestoreOpKept(who, s, creates, retries, job, mine);
      case CatalogRead => CatalogOpKept(who, s, creates, retries, job, mine);
      case CatalogCommit => CatalogOpKept(who, s, creates, retries, job, mine);
      case AppRun(_) => AppOpKept(who, s, creates, retries, job, mine);
      case AutoCommit => AutoCommitKept(who, s, creates, retries, job, mine);
      case AutoRollback => AutoRollbackKept(who, s, creates, retries, job, mine);
      case PathPrepare => PathOpKept(who, s, creates, retries, job, mine);
      case PathSet => PathOpKept(who, s, creates, retries, job, mine);
      case _ => PathEndKept(who, s, creates, retries, job, mine);
    }
  }

  // ---- an operation that fails ----

  lemma FailedReplayKept(who: SessionId, s: Session, transport: bool, retries: nat, job: Db2.Job, mine: seq<nat>)
    requires s.pc.Awaiting? && Good(who, s, job) && !s.closed && Kept(who, s, job, mine)
    requires s.pc.at.PrepareSchema? || s.pc.at.ReplaySchema? || s.pc.at.ReplayCommit?
    ensures Kept(who, Resume(s, false, transport, retries), job, mine)
  {
    hide Accounts, Account;
    assert Unit(Mine([], who), []) == NO_WORK;
    ErrorSettles(Accounts(s.trace), s, NO_WORK, mine);
  }

  lemma FailedRestoreKept(who: SessionId, s: Session, transport: bool, retries: nat, job: Db2.Job, mine: seq<nat>)
    requires s.pc.Awaiting? && Good(who, s, job) && !s.closed && Kept(who, s, job, mine) && Restores(s.pc.at)
    ensures Kept(who, Resume(s, false, transport, retries), job, mine)
  {
    hide Accounts, Account, Mine, Done, Fits, Completed;
    LateErrorSettles(Accounts(s.trace), s, UnitOf(who, s, job), mine);
    DoneKept(who, s, s.pc.m, false, job, mine);
  }

  lemma FailedWorkKept(who: SessionId, s: Session, transport: bool, retries: nat, job: Db2.Job, mine: seq<nat>)
    requires s.pc.Awaiting? && Good(who, s, job) && !s.closed && Kept(who, s, job, mine) && !Restores(s.pc.at)
    requires !s.pc.at.PrepareSchema? && !s.pc.at.ReplaySchema? && !s.pc.at.ReplayCommit?
    ensures Kept(who, Resume(s, false, transport, retries), job, mine)
  {
    hide Accounts, Mine, Done, Fits;
    ThrowKept(who, s, s.pc.m, job, mine);
    if s.inTxn { ThrowKept(who, s.(failed := true), s.pc.m, job, mine); }
  }

  lemma FailedOpKept(who: SessionId, s: Session, transport: bool, retries: nat, job: Db2.Job, mine: seq<nat>)
    requires s.pc.Awaiting? && Good(who, s, job) && !s.closed && Kept(who, s, job, mine)
    ensures Kept(who, Resume(s, false, transport, retries), job, mine)
  {
    hide Kept, Good, Resume;
    if s.pc.at.PrepareSchema? || s.pc.at.ReplaySchema? || s.pc.at.ReplayCommit? {
      FailedReplayKept(who, s, transport, retries, job, mine);
    } else if Restores(s.pc.at) {
      FailedRestoreKept(who, s, transport, retries, job, mine);
    } else {
      FailedWorkKept(who, s, transport, retries, job, mine);
    }
  }

  // ---- the pool's work ----

  /** Without a job in hand, what a job holds does not matter. */
  lemma JoblessKept(who: SessionId, s: Session, job: Db2.Job, other: Db2.Job, mine: seq<nat>)
    requires s.job.None? || other == job
    ensures Kept(who, s, other, mine) == Kept(who, s, job, mine)
  {
    hide Accounts, Mine, Agrees;
  }

  lemma OnwardKept(who: SessionId, s: Session, job: Db2.Job, mine: seq<nat>)
    requires Kept(who, s, job, mine) && WellFormed(s)
    ensures Kept(who, Onward(s), job, mine)
  {
    hide Accounts, Account, Mine, Settle;
    if s.closed {
      ClosedOnward(s);
    } else {
      match s.pc {
        case Releasing(m, _, ok) => SettleKept(who, s, m, ok, job, mine);
        case Resetting(m, _, ok, _) => SettleKept(who, s, m, ok, job, mine);
        case Closing(m, _, next, _) => if next.Finish? { SettleKept(who, s, m, next.ok, job, mine); }
        case Replacing(m, next) => if next.Finish? { SettleKept(who, s, m, next.ok, job, mine); }
        case _ =>
      }
    }
  }

  lemma ClosedOnward(s: Session)
    requires s.closed && WellFormed(s) && (StageOf(s.pc).Ended? ==> StageOf(s.pc).ok)
    ensures Onward(s) == s || Onward(s) == s.(pc := Ready)
  {
  }

  lemma TurnKept(who: SessionId, s: Session, t: Session, caller: bool, job: Db2.Job, mine: seq<nat>)
    requires Kept(who, s, job, mine) && WellFormed(s) && PoolTurn(s, t, caller)
    ensures Kept(who, t, job, mine)
  {
    hide Accounts, Account, Mine, Onward;
    if t == Onward(s) { OnwardKept(who, s, job, mine); } else { TurnMoves(s, t, caller); }
  }

  // ---- in every run ----

  ghost predicate AllKept(S: System, cfg: Config) {
    forall i :: 0 <= i < |S.sessions| ==> Kept(i, S.sessions[i], JobOf(S, cfg, i), Mine(S.committed, i))
  }

  /** The job a session has in hand stays the same under the actions of the pool. */
  lemma PoolLeavesJob(S: System, cfg: Config, a: Action, i: SessionId)
    requires Inv(S, cfg) && Enabled(S, a) && !OwnSpan(a) && !a.OpSettled? && i < |S.sessions|
    ensures i < |Next(S, cfg, a).sessions|
    ensures S.sessions[i].job.Some? ==>
      Next(S, cfg, a).sessions[i].job == S.sessions[i].job && JobOf(Next(S, cfg, a), cfg, i) == JobOf(S, cfg, i)
    ensures S.sessions[i].job.None? ==> Next(S, cfg, a).sessions[i].job.None?
  {
    hide Next, Inv, HeldJob, Quiet;
    PoolUntouched(S, cfg, a, i);
    HeldThenUsed(S, cfg, i);
    NextKeepsHeld(S, Next(S, cfg, a), cfg, i);
  }

  lemma HeldThenUsed(S: System, cfg: Config, i: SessionId)
    requires Inv(S, cfg) && i < |S.sessions|
    ensures S.sessions[i].job.Some? ==> Uses(S.sessions[i]) == S.sessions[i].job && HeldJob(S.sessions[i], S.jobs).Some?
  {
    UsesOwnJob(S, i);
  }

  lemma NextKeepsHeld(S: System, T: System, cfg: Config, i: SessionId)
    requires Untouched(S, T, i)
    requires S.sessions[i].job.Some? ==> Uses(S.sessions[i]) == S.sessions[i].job && HeldJob(S.sessions[i], S.jobs).Some?
    ensures S.sessions[i].job.Some? ==> T.sessions[i].job == S.sessions[i].job && JobOf(T, cfg, i) == JobOf(S, cfg, i)
    ensures S.sessions[i].job.None? ==> T.sessions[i].job.None?
  {
  }

  lemma PoolKept(S: System, cfg: Config, a: Action, i: SessionId)
    requires Inv(S, cfg) && AllKept(S, cfg) && Enabled(S, a) && !OwnSpan(a) && !a.OpSettled? && i < |S.sessions|
    ensures var T := Next(S, cfg, a);
      i < |T.sessions| && Kept(i, T.sessions[i], JobOf(T, cfg, i), Mine(T.committed, i))
  {
    hide Next, Inv, Kept, PoolTurn, JobOf, Mine, WellFormed;
    var T := Next(S, cfg, a);
    NextTurns(S, cfg, a);
    WellFormedSession(S, cfg, i);
    PoolLeavesJob(S, cfg, a, i);
    TurnKept(i, S.sessions[i], T.sessions[i], Caller(a, i), JobOf(S, cfg, i), Mine(S.committed, i));
    JoblessKept(i, T.sessions[i], JobOf(S, cfg, i), JobOf(T, cfg, i), Mine(S.committed, i));
  }

  lemma TakenKept(who: SessionId, s: Session, job: Db2.Job, mine: seq<nat>)
    requires Kept(who, s, job, mine) && s.pc.Granted? && Good(who, s, job)
    ensures Kept(who, TakeLease(s), job, mine)
  {
    hide Accounts, Account;
  }

  lemma DeniedKept(who: SessionId, s: Session, job: Db2.Job, mine: seq<nat>)
    requires Kept(who, s, job, mine) && s.pc.Refused? && Good(who, s, job)
    ensures Kept(who, LeaseDenied(s), job, mine)
  {
    hide Accounts, Account, Mine, Settle;
    ErrorSettles(Accounts(s.trace), s, UnitOf(who, s, job), mine);
    SettleKept(who, Abandoned(s, s.pc.mode), s.pc.m, false, job, mine);
  }

  lemma SpanKept(S: System, cfg: Config, a: Action)
    requires Inv(S, cfg) && Enabled(S, a) && OwnSpan(a)
    requires Kept(a.who, S.sessions[a.who], JobOf(S, cfg, a.who), Mine(S.committed, a.who))
    ensures Kept(a.who, Next(S, cfg, a).sessions[a.who], JobOf(S, cfg, a.who), Mine(S.committed, a.who))
  {
    hide Inv, Receive, Close, TakeLease, LeaseDenied, Begun, Good, JobOf, Mine;
    var s, job, mine := S.sessions[a.who], JobOf(S, cfg, a.who), Mine(S.committed, a.who);
    SessionGood(S, cfg, a.who);
    match a {
      case Receiving(_, m) => ReceiveKept(a.who, s, m, job, mine);
      case SocketClosing(_) => CloseKept(a.who, s, job, mine);
      case LeaseTaken(_) => TakenKept(a.who, s, job, mine);
      case LeaseRefused(_) => DeniedKept(a.who, s, job, mine);
      case BodyStarting(_) => BegunKept(a.who, s, job, mine);
    }
  }

  /** What a session makes durable carries its own number. */
  lemma OwnDurable(who: SessionId, s: Session, creates: bool, job: Db2.Job)
    requires s.pc.Awaiting? && Good(who, s, job) && After(who, s, creates, job).Applied?
    ensures var ws := After(who, s, creates, job).durable;
      forall k :: 0 <= k < |ws| && ws[k].AppWrite? ==> ws[k].session == who
  {
  }

  lemma SettledKept(S: System, cfg: Config, a: Action)
    requires Inv(S, cfg) && Enabled(S, a) && a.OpSettled?
    requires Kept(a.who, S.sessions[a.who], JobOf(S, cfg, a.who), Mine(S.committed, a.who))
    ensures var T := Next(S, cfg, a);
      Kept(a.who, T.sessions[a.who], JobOf(T, cfg, a.who), Mine(T.committed, a.who))
  {
    hide Inv, Resume, Good, Mine, Kept, OpAt, Db2.Perform;
    var i, s := a.who, S.sessions[a.who];
    var job := JobOf(S, cfg, i);
    SessionGood(S, cfg, i);
    AtWork(i, s, job);
    var e := After(i, s, a.creates, job);
    if a.ok && e.Applied? {
      OpKept(i, s, a.creates, cfg.retries, job, Mine(S.committed, i));
      OpGood(i, s, a.creates, cfg.retries, job);
      MineConcat(S.committed, e.durable, i);
    } else {
      FailedOpKept(i, s, a.transport, cfg.retries, job, Mine(S.committed, i));
      FailedOpGood(i, s, a.transport, cfg.retries, job);
    }
    hide Uses;
  }

  lemma AtWork(who: SessionId, s: Session, job: Db2.Job)
    requires s.pc.Awaiting? && Good(who, s, job)
    ensures !s.closed && s.job.Some? && Uses(s) == s.job
  {
  }

  /** Another session's operation leaves this session and its job alone. */
  lemma OthersLeaveJob(S: System, cfg: Config, a: Action, i: SessionId)
    requires Inv(S, cfg) && Enabled(S, a) && (OwnSpan(a) || a.OpSettled?) && i < |S.sessions| && i != a.who
    ensures var T := Next(S, cfg, a);
      i < |T.sessions| && T.sessions[i] == S.sessions[i] && JobOf(T, cfg, i) == JobOf(S, cfg, i)
  {
    assert SessionsOk(S);
    hide Inv, SessionsOk, Receive, Close, TakeLease, LeaseDenied, Begun, Resume, OpAt, Db2.Perform, Uses;
    NextIsLocal(S, cfg, a);
    UsesOwnJob(S, i);
    UsesOwnJob(S, a.who);
  }

  /** And makes nothing of this session's durable. */
  lemma OthersLeaveStore(S: System, cfg: Config, a: Action, i: SessionId)
    requires Inv(S, cfg) && Enabled(S, a) && (OwnSpan(a) || a.OpSettled?) && i < |S.sessions| && i != a.who
    ensures Mine(Next(S, cfg, a).committed, i) == Mine(S.committed, i)
  {
    hide Inv, Mine, Receive, Close, TakeLease, LeaseDenied, Begun, Resume, OpAt, Db2.Perform, Good;
    if a.OpSettled? {
      var s, job := S.sessions[a.who], JobOf(S, cfg, a.who);
      SessionGood(S, cfg, a.who);
      AtWork(a.who, s, job);
      var e := After(a.who, s, a.creates, job);
      if a.ok && e.Applied? {
        OwnDurable(a.who, s, a.creates, job);
        MineNone(e.durable, i);
        MineConcat(S.committed, e.durable, i);
      }
    }
  }

  lemma OthersKept(S: System, cfg: Config, a: Action, i: SessionId)
    requires Inv(S, cfg) && AllKept(S, cfg) && Enabled(S, a) && (OwnSpan(a) || a.OpSettled?)
    requires i < |S.sessions| && i != a.who
    ensures var T := Next(S, cfg, a);
      i < |T.sessions| && Kept(i, T.sessions[i], JobOf(T, cfg, i), Mine(T.committed, i))
  {
    hide Inv, Kept, Mine, Next, JobOf;
    OthersLeaveJob(S, cfg, a, i);
    OthersLeaveStore(S, cfg, a, i);
  }

  lemma StepKept(S: System, cfg: Config, a: Action, i: SessionId)
    requires Inv(S, cfg) && AllKept(S, cfg) && Enabled(S, a) && i < |S.sessions|
    ensures var T := Next(S, cfg, a);
      i < |T.sessions| && Kept(i, T.sessions[i], JobOf(T, cfg, i), Mine(T.committed, i))
  {
    hide Inv, Kept, Mine, Next, JobOf;
    if !OwnSpan(a) && !a.OpSettled? {
      PoolKept(S, cfg, a, i);
    } else if i != a.who {
      OthersKept(S, cfg, a, i);
    } else if a.OpSettled? {
      NextIsLocal(S, cfg, a);
      SettledKept(S, cfg, a);
    } else {
      NextIsLocal(S, cfg, a);
      SpanKept(S, cfg, a);
      SpanLeavesJob(S, cfg, a);
    }
  }

  lemma SpanLeavesJob(S: System, cfg: Config, a: Action)
    requires Inv(S, cfg) && Enabled(S, a) && OwnSpan(a)
    ensures var T := Next(S, cfg, a);
      a.who < |T.sessions| && T.committed == S.committed && JobOf(T, cfg, a.who) == JobOf(S, cfg, a.who)
  {
    hide Inv, Receive, Close, TakeLease, LeaseDenied, Begun, Uses;
    SpanGood(S, cfg, a);
  }

  lemma InitialKept(S: System, cfg: Config, i: SessionId)
    requires Initial(S, cfg) && i < |S.sessions|
    ensures Kept(i, S.sessions[i], JobOf(S, cfg, i), Mine(S.committed, i))
  {
    assert S.sessions[i] == Fresh(S.sessions[i].schema);
    hide JobOf;
  }

  lemma {:induction false} RunKept(run: seq<System>, acts: seq<Action>, cfg: Config, k: nat)
    requires IsRun(run, acts, cfg) && k < |run|
    ensures AllKept(run[k], cfg)
  {
    hide Kept, JobOf, Mine, Next, Enabled, Inv;
    if k == 0 {
      forall i | 0 <= i < |run[0].sessions|
        ensures Kept(i, run[0].sessions[i], JobOf(run[0], cfg, i), Mine(run[0].committed, i))
      {
        InitialKept(run[0], cfg, i);
      }
    } else {
      RunKept(run, acts, cfg, k - 1);
      RunInv(run, acts, cfg, k - 1);
      SizeKept(run[k - 1], cfg, acts[k - 1]);
      forall i | 0 <= i < |run[k].sessions|
        ensures Kept(i, run[k].sessions[i], JobOf(run[k], cfg, i), Mine(run[k].committed, i))
      {
        StepKept(run[k - 1], cfg, acts[k - 1], i);
      }
    }
  }

  /**
   What the client was told is what there is.  Whenever a session is at rest,
   its ledger, brought up to its present status, says which of its statements
   are durable, in their order, and, while it is open, whether it is in a block,
   whether that block has failed, and exactly what the block has written and
   which savepoints stand in it.  What is durable is what the committed store
   holds of this session, whatever the other sessions did.
   */
  lemma LedgerExact(run: seq<System>, acts: seq<Action>, cfg: Config, k: nat, i: SessionId)
    requires IsRun(run, acts, cfg) && k < |run| && i < |run[k].sessions| && run[k].sessions[i].pc.Ready?
    ensures var s := run[k].sessions[i]; var g := Settled(Accounts(s.trace), s);
      && g.durable == Mine(run[k].committed, i)
      && (!s.closed ==>
            && g.open == s.inTxn && g.failed == s.failed
            && g.unit == UnitOf(i, s, JobOf(run[k], cfg, i)))
      && (!s.closed && !s.skipping ==> g == Accounts(s.trace))
  {
    RunKept(run, acts, cfg, k);
    RunInv(run, acts, cfg, k);
    assert Kept(i, run[k].sessions[i], JobOf(run[k], cfg, i), Mine(run[k].committed, i));
    WellFormedSession(run[k], cfg, i);
    hide Accounts, Mine, IsRun, Inv, JobOf;
    var s := run[k].sessions[i];
    if !s.closed && !s.skipping {
      SettledSame(Accounts(s.trace), s, UnitOf(i, s, JobOf(run[k], cfg, i)), Mine(run[k].committed, i));
    }
  }

  // ---- what an acknowledgement is worth ----

  lemma AccountGrows(g: Ledger, e: Event)
    ensures g.durable <= Account(g, e).durable
  {
  }

  /** What the books call durable stays so. */
  lemma {:induction false} DurableGrows(trace: seq<Event>, p: nat)
    requires p <= |trace|
    ensures Accounts(trace[..p]).durable <= Accounts(trace).durable
  {
    hide Account;
    if p == |trace| {
      assert trace[..p] == trace;
    } else {
      AccountGrows(Accounts(trace[..|trace| - 1]), trace[|trace| - 1]);
      DurableGrows(trace[..|trace| - 1], p);
      assert trace[..|trace| - 1][..p] == trace[..p];
    }
  }

  lemma KeptDurable(who: SessionId, s: Session, job: Db2.Job, mine: seq<nat>)
    requires Kept(who, s, job, mine)
    ensures Accounts(s.trace).durable <= mine
  {
    hide Accounts, Mine;
  }

  /** The statement a message brings writes, if it is acknowledged. */
  predicate Writes(m: Msg) {
    IsStatement(m)
    && ((StmtOf(m).App? && !StmtOf(m).work.Reads?) || (StmtOf(m).CreateSchema? && !StmtOf(m).lookup.LookupPresent?))
  }

  lemma AcknowledgedIn(trace: seq<Event>, p: nat)
    requires p < |trace| && trace[p] == Sent(CommandComplete)
    ensures var g := Accounts(trace[..p]);
      && (Writes(g.doing) && !g.open ==> StmtOf(g.doing).id in Accounts(trace).durable)
      && (IsStatement(g.doing) && StmtOf(g.doing).CommitTxn? && !g.failed ==>
            forall id :: id in g.unit.writes ==> id in Accounts(trace).durable)
  {
    var g := Accounts(trace[..p]);
    var h := Accounts(trace[..p + 1]);
    assert trace[..p + 1][..p] == trace[..p];
    DurableGrows(trace, p + 1);
    hide Accounts;
    forall id | id in h.durable ensures id in Accounts(trace).durable {
      var q :| 0 <= q < |h.durable| && h.durable[q] == id;
      assert Accounts(trace).durable[q] == id;
    }
    if Writes(g.doing) && !g.open { assert h.durable[|h.durable| - 1] == StmtOf(g.doing).id; }
    if IsStatement(g.doing) && StmtOf(g.doing).CommitTxn? && !g.failed {
      assert h.durable == g.durable + g.unit.writes;
    }
  }

  /**
   Nothing acknowledged is lost: wherever in the conversation a CommandComplete
   stands, the write of a statement outside a block, and every write that the
   books have in a block it commits, stands in the committed store under its
   own number, in that state and ever after.
   */
  lemma AcknowledgedStands(run: seq<System>, acts: seq<Action>, cfg: Config, k: nat, i: SessionId, p: nat)
    requires IsRun(run, acts, cfg) && k < |run| && i < |run[k].sessions|
    requires p < |run[k].sessions[i].trace| && run[k].sessions[i].trace[p] == Sent(CommandComplete)
    ensures var g := Accounts(run[k].sessions[i].trace[..p]); var mine := Mine(run[k].committed, i);
      && (Writes(g.doing) && !g.open ==> StmtOf(g.doing).id in mine)
      && (IsStatement(g.doing) && StmtOf(g.doing).CommitTxn? && !g.failed ==>
            forall id :: id in g.unit.writes ==> id in mine)
  {
    var s, mine := run[k].sessions[i], Mine(run[k].committed, i);
    RunKept(run, acts, cfg, k);
    assert Kept(i, s, JobOf(run[k], cfg, i), mine);
    KeptDurable(i, s, JobOf(run[k], cfg, i), mine);
    AcknowledgedIn(s.trace, p);
    hide Accounts, Mine, IsRun, JobOf, Kept;
    forall id | id in Accounts(s.trace).durable ensures id in mine {
      var q :| 0 <= q < |Accounts(s.trace).durable| && Accounts(s.trace).durable[q] == id;
      assert mine[q] == id;
    }
  }
}
