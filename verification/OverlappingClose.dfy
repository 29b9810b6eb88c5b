/**
 A close from the socket that overlaps a message: src/server.ts:120-128 calls
 close() outside the message chain, so it can come at any control point of the
 handler.  Without a job in the session it only sets a flag that the handler
 does not look at again; with one it gives the job back under the handler.
 */
module OverlappingClose {
  import opened Wrappers
  import opened JobPool
  import opened Sessions
  import opened SessionInvariant
  import opened LeaseProtocol
  import opened LeaseInvariant
  import opened TransactionBlocks
  import opened Conversation
  import Db2

  // ---- the handler of one session goes on ----

  datatype Event =
    | Grants(lease: JobId)                  // acquire() resolves
    | Denies                                // acquire() rejects
    | Settles(ok: bool, transport: bool)    // the awaited Db2 operation settles
    | Goes                                  // everything else the handler can wait for

  predicate Asking(pc: Pc) { pc.WantLease? || pc.Waiting? || pc.Connecting? }

  /** An event that does not fit the control point changes nothing; at Ready the handler is at rest. */
  function HandlerStep(s: Session, e: Event, retries: nat): Session {
    if Asking(s.pc) then
      if e.Grants? then s.(pc := Granted(s.pc.m, s.pc.mode, e.lease))
      else if e.Denies? then s.(pc := Refused(s.pc.m, s.pc.mode))
      else s
    else if s.pc.Awaiting? then
      if e.Settles? && s.job.Some? then Resume(s, e.ok, e.transport, retries) else s
    else if !e.Goes? then s
    else
      match s.pc
      case Granted(_, _, _) => TakeLease(s)
      case Refused(_, _) => LeaseDenied(s)
      case Start(_, _) => Begun(s)
      case Releasing(m, _, ok) => Settle(s, m, ok)
      case Resetting(m, _, ok, _) => Settle(s, m, ok)
      case Invalidating(m, _, next) => Continue(s, m, next)
      case Closing(m, _, next, _) => Continue(s, m, next)
      case Replacing(m, next) => Continue(s, m, next)
      case _ => s
  }

  /** The handler with what has happened: a checkout succeeded, the block was ended on Db2. */
  datatype Watch = Watch(s: Session, checkedOut: bool, ended: bool)

  function Watched(w: Watch, e: Event, retries: nat): Watch {
    var t := HandlerStep(w.s, e, retries);
    Watch(
      t,
      w.checkedOut || t.pc.Start?,
      w.ended || (e.Settles? && e.ok && w.s.job.Some? && w.s.pc.Awaiting? && (w.s.pc.at.TxnCommit? || w.s.pc.at.TxnRollback?)))
  }

  function Drive(s: Session, events: seq<Event>, retries: nat): Watch {
    if events == [] then Watch(s, s.pc.Start?, false)
    else Watched(Drive(s, events[..|events| - 1], retries), events[|events| - 1], retries)
  }

  // ---- what one span can do with the job ----

  /** COMMIT, ROLLBACK, END and ABORT. */
  predicate Ends(m: Msg) { StmtOf(m).CommitTxn? || StmtOf(m).RollbackTxn? }

  /** The part of the session invariant that a closed session's handler keeps. */
  predicate Sane(s: Session) {
    && (s.failed ==> s.inTxn)
    && (s.pc.Awaiting? && s.pc.at.Savepointing? ==> s.inTxn)
    && (s.pc.Awaiting? && (s.pc.at.TxnCommit? || s.pc.at.TxnRollback?) ==> Ends(s.pc.m))
  }

  predicate Opens(m: Msg) { m == Query(Begin) || m == Execute(Begin) }

  /** The span goes on with the job, gives it away outside a block, or rests with it inside one. */
  predicate KeepsOrGives(s: Session, t: Session, m: Msg) {
    && t.closed == s.closed && (Sane(s) ==> Sane(t))
    && (|| ((t.pc.Awaiting? || t.pc.Start?) && t.pc.m == m && t.job == s.job)
        || (t.pc.Releasing? && t.pc.m == m && t.job == None && !t.inTxn)
        || (t.pc.Invalidating? && t.pc.m == m && t.job == None && (t.pc.next.Reacquire? ==> !t.inTxn))
        || (t.pc.Ready? && t.job == s.job && t.inTxn))
  }

  lemma EnterShape(s: Session, m: Msg, at: Label)
    requires s.job.Some?
    ensures Enter(s, m, at) == s.(pc := Awaiting(m, at))
  {
  }

  lemma EnterAppShape(s: Session, m: Msg, attempt: nat)
    requires s.job.Some?
    ensures var t := EnterApp(s, m, attempt);
      t.pc == Awaiting(m, AppRun(attempt)) && t.job == s.job && t.inTxn == s.inTxn && t.failed == s.failed && t.closed == s.closed
  {
  }

  lemma ReplyShape(s: Session, m: Msg)
    ensures var t := Reply(s, m);
      && t.inTxn == s.inTxn && t.failed == s.failed && t.closed == s.closed
      && if s.job.Some? && !s.inTxn then t.pc == Releasing(m, s.job.value, true) && t.job == None
         else t.pc == Ready && t.job == s.job
  {
    DoneFrame(Send(s, Completion(m)), m, true);
    hide Done;
  }

  lemma RestoreShape(s: Session, m: Msg)
    requires s.job.Some? && !s.inTxn && !s.failed
    ensures var t := RestorePath(s, m);
      KeepsOrGives(s, t, m) && Sane(t) && !t.inTxn && (t.pc.Releasing? || (t.pc.Awaiting? && t.pc.at.RestoreSchema?))
  {
    hide Reply;
    if s.restore.None? { ReplyShape(s, m); }
  }

  lemma EndTxnShape(s: Session, m: Msg, keep: bool)
    requires s.job.Some?
    ensures var t := EndTxn(s, m, keep);
      KeepsOrGives(s, t, m) && !t.inTxn && (t.pc.Releasing? || (t.pc.Awaiting? && t.pc.at.RestoreSchema?))
  {
    hide RestorePath;
    RestoreShape(LeaveBlock(s, keep), m);
  }

  /** What the span that starts a statement or a message leads to, with a job. */
  predicate Starts(s: Session, t: Session, m: Msg, opens: bool) {
    && KeepsOrGives(s, t, m) && !t.pc.Invalidating? && !t.pc.Start? && !Replaying(t.pc)
    && (if opens then t.pc.Ready? && t.inTxn else t.inTxn == s.inTxn)
  }

  lemma BlockStarts(s: Session, m: Msg, st: Stmt)
    requires s.job.Some? && Sane(s) && StmtOf(m) == st
    requires st.Begin? || st.CommitTxn? || st.RollbackTxn? || st.SavepointCmd?
    ensures Starts(s, StartSql(s, m, st), m, st.Begin?)
  {
    hide Done, Reply, Enter, EnterApp, EndTxn;
    DoneFrame(s, m, false);
    if st.Begin? {
      ReplyShape(if s.inTxn then s
                 else s.(inTxn := true, failed := false, snapshot := Some(s.registry), txn := s.txn + 1), m);
    } else {
      EnterShape(s, m, if st.SavepointCmd? then Savepointing
                       else if st.CommitTxn? && !s.failed then TxnCommit else TxnRollback);
    }
  }

  lemma WorkStarts(s: Session, m: Msg, st: Stmt)
    requires s.job.Some? && Sane(s) && StmtOf(m) == st
    requires !st.Begin? && !st.CommitTxn? && !st.RollbackTxn? && !st.SavepointCmd?
    ensures Starts(s, StartSql(s, m, st), m, false)
  {
    hide Done, Reply, Enter, EnterApp, EndTxn;
    DoneFrame(s, m, false);
    if st.SetPath? {
      EnterShape(if st.local && s.restore.None? then s.(restore := Some(s.schema)) else s, m, PathPrepare);
    } else {
      ReplyShape(s, m);
      EnterAppShape(s, m, 0);
      EnterShape(s, m, CatalogRead);
    }
  }

  lemma SqlShape(s: Session, m: Msg, st: Stmt)
    requires s.job.Some? && Sane(s) && StmtOf(m) == st
    ensures Starts(s, StartSql(s, m, st), m, st.Begin?)
  {
    hide StartSql, Starts, Sane;
    if st.Begin? || st.CommitTxn? || st.RollbackTxn? || st.SavepointCmd? {
      BlockStarts(s, m, st);
    } else {
      WorkStarts(s, m, st);
    }
  }

  lemma DescribeStarts(s: Session, m: Msg)
    requires s.job.Some? && Sane(s) && (m.DescribePortal? || m.DescribeStatement?)
    ensures Starts(s, StartBody(s, m), m, false)
  {
    hide Done, Reply, Enter, EnterApp, StartSql;
    if m.DescribePortal? {
      EnterShape(s, m, CatalogRead);
      EnterAppShape(s, m, 0);
      DoneFrame(Send(s, Data), m, true);
    } else {
      EnterShape(Send(s, Data), m, CatalogRead);
      DoneFrame(Send(s, Data), m, !RowsFromDb2(m.stmt));
    }
  }

  lemma LocalStarts(s: Session, m: Msg)
    requires s.job.Some? && Sane(s) && !m.Terminate? && !m.Query? && !m.Execute?
    requires !m.DescribePortal? && !m.DescribeStatement?
    ensures Starts(s, StartBody(s, m), m, false)
  {
    hide Done, Reply, Enter, EnterApp, StartSql;
    match m {
      case EmptyQuery => DoneFrame(Send(s, Data), m, true);
      case ExecuteStored => ReplyShape(s, m);
      case Bookkeeping(accepted) => DoneFrame(if accepted then Send(s, Data) else s, m, accepted);
      case Sync => DoneFrame(Send(s.(skipping := false), ReadyForQuery(StatusOf(s))), m, true);
      case Flush => DoneFrame(s, m, true);
      case Unsupported => DoneFrame(Send(s, ErrorResponse), m, true);
    }
  }

  /** The body of a message, with a job. */
  lemma BodyShape(s: Session, m: Msg)
    requires s.job.Some? && Sane(s) && !m.Terminate?
    ensures Starts(s, StartBody(s, m), m, Opens(m))
  {
    if m.Query? || m.Execute? {
      hide StartSql, Starts, Sane;
      SqlShape(s, m, m.stmt);
    } else {
      hide StartBody, Starts, Sane;
      if m.DescribePortal? || m.DescribeStatement? { DescribeStarts(s, m); } else { LocalStarts(s, m); }
    }
  }

  lemma BegunShape(s: Session)
    requires s.pc.Start? && s.job.Some? && Sane(s) && !s.pc.m.Terminate?
    ensures Starts(s, Begun(s), s.pc.m, Opens(s.pc.m) && s.pc.mode.First?)
  {
    hide StartBody, EnterApp;
    if s.pc.mode.First? { BodyShape(s, s.pc.m); } else { EnterAppShape(s, s.pc.m, s.pc.mode.attempt); }
  }

  lemma CatalogShape(s: Session, m: Msg)
    requires s.job.Some?
    ensures var t := CatalogDone(s, m);
      && KeepsOrGives(s, t, m) && !t.pc.Invalidating? && !t.pc.Start? && !Replaying(t.pc) && t.inTxn == s.inTxn
  {
    hide Reply, EnterApp;
    ReplyShape(s, m);
    EnterAppShape(s, m, 0);
  }

  /** What a failed operation leads to. */
  predicate Fails(s: Session, t: Session)
    requires s.pc.Awaiting?
  {
    && KeepsOrGives(s, t, s.pc.m) && !t.pc.Start? && !Replaying(t.pc) && t.inTxn == s.inTxn
    && (Replaying(s.pc) <==> t.pc.Invalidating? && t.pc.next.Finish?)
  }

  lemma ReplayFails(s: Session, transport: bool, retries: nat)
    requires s.pc.Awaiting? && s.job.Some? && Replaying(s.pc)
    ensures Fails(s, Resume(s, false, transport, retries))
  {
    hide Done, AppFailed;
  }

  lemma StatementFails(s: Session, transport: bool, retries: nat)
    requires s.pc.Awaiting? && s.job.Some? && (s.pc.at.AppRun? || s.pc.at.AutoCommit?)
    ensures Fails(s, Resume(s, false, transport, retries))
  {
    hide Done;
    DoneFrame(s.(failed := true), s.pc.m, false);
  }

  lemma ControlFails(s: Session, transport: bool, retries: nat)
    requires s.pc.Awaiting? && s.job.Some? && !Replaying(s.pc) && !s.pc.at.AppRun? && !s.pc.at.AutoCommit?
    ensures Fails(s, Resume(s, false, transport, retries))
  {
    hide Done, AppFailed, CheckoutFailed;
    DoneFrame(s, s.pc.m, false);
    DoneFrame(s.(failed := true), s.pc.m, false);
  }

  lemma FailureShape(s: Session, transport: bool, retries: nat)
    requires s.pc.Awaiting? && s.job.Some?
    ensures Fails(s, Resume(s, false, transport, retries))
  {
    hide Resume, Fails;
    if Replaying(s.pc) {
      ReplayFails(s, transport, retries);
    } else if s.pc.at.AppRun? || s.pc.at.AutoCommit? {
      StatementFails(s, transport, retries);
    } else {
      ControlFails(s, transport, retries);
    }
  }

  /** What a successful operation leads to. */
  predicate Succeeds(s: Session, t: Session)
    requires s.pc.Awaiting?
  {
    && KeepsOrGives(s, t, s.pc.m) && !t.pc.Invalidating?
    && t.inTxn == (s.inTxn && !s.pc.at.TxnCommit? && !s.pc.at.TxnRollback?)
    && (if Replaying(s.pc) then (Replaying(t.pc) && t.pc.at.mode == s.pc.at.mode) || (t.pc.Start? && t.pc.mode == s.pc.at.mode)
        else !Replaying(t.pc) && !t.pc.Start?)
  }

  lemma ReplaySucceeds(s: Session, retries: nat)
    requires s.pc.Awaiting? && s.job.Some? && Replaying(s.pc)
    ensures Succeeds(s, Resume(s, true, false, retries))
  {
    hide Done, Reply, EndTxn, CatalogDone, AppDone, AppFailed, CheckoutFailed;
  }

  lemma ControlSucceeds(s: Session, retries: nat)
    requires s.pc.Awaiting? && s.job.Some?
    requires s.pc.at.Savepointing? || s.pc.at.TxnCommit? || s.pc.at.TxnRollback?
    ensures Succeeds(s, Resume(s, true, false, retries))
  {
    hide Done, Reply, EndTxn, CatalogDone, AppDone, AppFailed, CheckoutFailed;
    ReplyShape(s, s.pc.m);
    ReplyShape(s.(failed := false), s.pc.m);
    EndTxnShape(s, s.pc.m, s.pc.at.TxnCommit?);
  }

  lemma RestoreSucceeds(s: Session, retries: nat)
    requires s.pc.Awaiting? && s.job.Some?
    requires s.pc.at.RestoreSchema? || s.pc.at.RestoreCommit? || s.pc.at.RestoreCheck?
    ensures Succeeds(s, Resume(s, true, false, retries))
  {
    hide Done, Reply, EndTxn, CatalogDone, AppDone, AppFailed, CheckoutFailed;
    ReplyShape(s, s.pc.m);
  }

  lemma PathSucceeds(s: Session, retries: nat)
    requires s.pc.Awaiting? && s.job.Some?
    requires s.pc.at.PathPrepare? || s.pc.at.PathSet? || s.pc.at.PathCheck? || s.pc.at.PathCommit?
    ensures Succeeds(s, Resume(s, true, false, retries))
  {
    hide Done, Reply, EndTxn, CatalogDone, AppDone, AppFailed, CheckoutFailed;
    DoneFrame(s, s.pc.m, false);
    ReplyShape(s, s.pc.m);
  }

  lemma AppSucceeds(s: Session, retries: nat)
    requires s.pc.Awaiting? && s.job.Some? && s.pc.at.AppRun?
    ensures Succeeds(s, Resume(s, true, false, retries))
  {
    hide Done, Reply, EndTxn, CatalogDone, AppFailed, CheckoutFailed;
    var st := StmtOf(s.pc.m);
    ReplyShape(if st.App? && st.work.Defines? then s.(registry := s.registry + [st.work.entry]) else s, s.pc.m);
  }

  lemma WorkSucceeds(s: Session, retries: nat)
    requires s.pc.Awaiting? && s.job.Some?
    requires s.pc.at.CatalogRead? || s.pc.at.CatalogCommit? || s.pc.at.AutoCommit? || s.pc.at.AutoRollback?
    ensures Succeeds(s, Resume(s, true, false, retries))
  {
    hide Done, Reply, EndTxn, CatalogDone, AppDone, AppFailed, CheckoutFailed;
    var m := s.pc.m;
    match s.pc.at {
      case AutoRollback => DoneFrame(s, m, false);
      case AutoCommit => ReplyShape(s, m);
      case _ => CatalogShape(s, m);
    }
  }

  lemma SuccessShape(s: Session, retries: nat)
    requires s.pc.Awaiting? && s.job.Some?
    ensures Succeeds(s, Resume(s, true, false, retries))
  {
    hide Resume, Succeeds;
    if Replaying(s.pc) {
      ReplaySucceeds(s, retries);
    } else if s.pc.at.Savepointing? || s.pc.at.TxnCommit? || s.pc.at.TxnRollback? {
      ControlSucceeds(s, retries);
    } else if s.pc.at.AppRun? {
      AppSucceeds(s, retries);
    } else if s.pc.at.CatalogRead? || s.pc.at.CatalogCommit? || s.pc.at.AutoCommit? || s.pc.at.AutoRollback? {
      WorkSucceeds(s, retries);
    } else if s.pc.at.RestoreSchema? || s.pc.at.RestoreCommit? || s.pc.at.RestoreCheck? {
      RestoreSucceeds(s, retries);
    } else {
      PathSucceeds(s, retries);
    }
  }

  /**
   Whatever the outcome of an awaited operation, and whether or not the session
   has been closed meanwhile: the handler goes on with its job, or gives it
   away, or rests in a block with it.
   */
  lemma ResumeKeepsOrGives(s: Session, ok: bool, transport: bool, retries: nat)
    requires s.pc.Awaiting? && s.job.Some?
    ensures KeepsOrGives(s, Resume(s, ok, transport, retries), s.pc.m)
  {
    hide Resume;
    if ok { OkIgnoresTransport(s, transport, retries); SuccessShape(s, retries); } else { FailureShape(s, transport, retries); }
  }

  lemma OkIgnoresTransport(s: Session, transport: bool, retries: nat)
    requires s.pc.Awaiting? && s.job.Some?
    ensures Resume(s, true, transport, retries) == Resume(s, true, false, retries)
  {
    hide Done, Reply, EndTxn, CatalogDone, AppDone, AppFailed;
  }

  // ---- a close while the session has no job ----

  /** close() from the socket at a control point without a job: there is nothing to give back. */
  function ClosedMeanwhile(s: Session): Session { s.(closed := true) }

  /** The handler is on its way to a job, or away from one. */
  predicate Jobless(pc: Pc) { !pc.Ready? && !pc.Start? && !pc.Awaiting? }

  /** The message may still be started for the first time. */
  predicate FirstTime(pc: Pc) {
    (Asking(pc) || pc.Granted?) && pc.mode.First?
  }

  /** Past its checkout. */
  predicate InStatement(pc: Pc) { pc.Awaiting? && !Replaying(pc) }

  /** The mode in which the checkout under way, or the one to come, is done. */
  function ModeAt(pc: Pc): Option<Mode> {
    if Asking(pc) || pc.Granted? || pc.Start? then Some(pc.mode)
    else if Replaying(pc) then Some(pc.at.mode)
    else if (pc.Invalidating? || pc.Closing? || pc.Replacing?) && pc.next.Reacquire? then Some(Retry(pc.next.attempt))
    else None
  }

  /** Is the session in a block when the handler comes to rest, given that a checkout succeeded? */
  predicate InBlockAtRest(s: Session, ended: bool)
    requires Jobless(s.pc)
  {
    if Opens(s.pc.m) && FirstTime(s.pc) then true else s.inTxn && !ended
  }

  /** What holds of the closed session `w.s` while the handler that `s` was in goes on. */
  predicate Afterlife(s: Session, w: Watch)
    requires Jobless(s.pc)
  {
    var t := w.s;
    var opening := Opens(s.pc.m) && FirstTime(s.pc);
    && t.closed && Sane(t) && (w.ended ==> Ends(s.pc.m))
    && if t.pc.Ready? then
         && (t.job.Some? <==> w.checkedOut && InBlockAtRest(s, w.ended))
         && (t.job.Some? ==> t.inTxn)
       else
         && t.pc.m == s.pc.m && t.inTxn == (s.inTxn && !w.ended)
         && (if t.pc.Start? || t.pc.Awaiting? then t.job.Some? else t.job.None?)
         && (w.checkedOut ==> t.pc.Start? || (!opening && (InStatement(t.pc) || !t.inTxn)))
         && (!w.checkedOut ==> !t.pc.Start? && !InStatement(t.pc))
         && (!Winding(t.pc) ==> !s.pc.m.Terminate?)
         && match ModeAt(t.pc)
            case None => true
            case Some(mode) => if mode.First? then FirstTime(s.pc) else !opening
  }

  lemma AnswerKept(s: Session, w: Watch, e: Event, retries: nat)
    requires Jobless(s.pc) && Afterlife(s, w) && (Asking(w.s.pc) || w.s.pc.Granted?)
    ensures Afterlife(s, Watched(w, e, retries))
  {
    hide Settle, Resume, Begun, Continue;
  }

  lemma RefusalKept(s: Session, w: Watch, e: Event, retries: nat)
    requires Jobless(s.pc) && Afterlife(s, w) && w.s.pc.Refused?
    ensures Afterlife(s, Watched(w, e, retries))
  {
    hide Settle, Resume, Begun, Continue;
    SettleShape(Abandoned(w.s, w.s.pc.mode), w.s.pc.m, false);
  }

  lemma ReleaseKept(s: Session, w: Watch, e: Event, retries: nat)
    requires Jobless(s.pc) && Afterlife(s, w) && (w.s.pc.Releasing? || w.s.pc.Resetting?)
    ensures Afterlife(s, Watched(w, e, retries))
  {
    hide Settle, Resume, Begun, Continue;
    SettleShape(w.s, w.s.pc.m, w.s.pc.ok);
  }

  lemma InvalidationKept(s: Session, w: Watch, e: Event, retries: nat)
    requires Jobless(s.pc) && Afterlife(s, w) && (w.s.pc.Invalidating? || w.s.pc.Closing? || w.s.pc.Replacing?)
    ensures Afterlife(s, Watched(w, e, retries))
  {
    hide Settle, Resume, Begun;
    if w.s.pc.next.Finish? { SettleShape(w.s, w.s.pc.m, w.s.pc.next.ok); }
  }

  lemma PoolAnswerKept(s: Session, w: Watch, e: Event, retries: nat)
    requires Jobless(s.pc) && Afterlife(s, w) && Jobless(w.s.pc)
    ensures Afterlife(s, Watched(w, e, retries))
  {
    hide Watched, Afterlife;
    if Asking(w.s.pc) || w.s.pc.Granted? {
      AnswerKept(s, w, e, retries);
    } else if w.s.pc.Refused? {
      RefusalKept(s, w, e, retries);
    } else if w.s.pc.Releasing? || w.s.pc.Resetting? {
      ReleaseKept(s, w, e, retries);
    } else {
      InvalidationKept(s, w, e, retries);
    }
  }

  lemma BodyKept(s: Session, w: Watch, e: Event, retries: nat)
    requires Jobless(s.pc) && Afterlife(s, w) && w.s.pc.Start?
    ensures Afterlife(s, Watched(w, e, retries))
  {
    BegunShape(w.s);
    hide Begun;
  }

  lemma SuccessKept(s: Session, w: Watch, e: Event, retries: nat)
    requires Jobless(s.pc) && Afterlife(s, w) && w.s.pc.Awaiting? && e.Settles? && e.ok
    ensures Afterlife(s, Watched(w, e, retries))
  {
    hide Resume;
    OkIgnoresTransport(w.s, e.transport, retries);
    SuccessShape(w.s, retries);
  }

  lemma FailureKept(s: Session, w: Watch, e: Event, retries: nat)
    requires Jobless(s.pc) && Afterlife(s, w) && w.s.pc.Awaiting? && e.Settles? && !e.ok
    ensures Afterlife(s, Watched(w, e, retries))
  {
    hide Resume;
    FailureShape(w.s, e.transport, retries);
  }

  lemma OperationKept(s: Session, w: Watch, e: Event, retries: nat)
    requires Jobless(s.pc) && Afterlife(s, w) && w.s.pc.Awaiting?
    ensures Afterlife(s, Watched(w, e, retries))
  {
    hide Resume;
    if e.Settles? {
      hide Watched, Afterlife;
      if e.ok { SuccessKept(s, w, e, retries); } else { FailureKept(s, w, e, retries); }
    }
  }

  lemma {:induction false} AfterlifeKept(s: Session, events: seq<Event>, retries: nat)
    requires Jobless(s.pc) && s.job.None? && Sane(s) && (!Winding(s.pc) ==> !s.pc.m.Terminate?)
    ensures Afterlife(s, Drive(ClosedMeanwhile(s), events, retries))
  {
    hide HandlerStep;
    if events != [] {
      var front := Drive(ClosedMeanwhile(s), events[..|events| - 1], retries);
      var e := events[|events| - 1];
      AfterlifeKept(s, events[..|events| - 1], retries);
      hide Afterlife;
      if Jobless(front.s.pc) {
        PoolAnswerKept(s, front, e, retries);
      } else if front.s.pc.Start? {
        BodyKept(s, front, e, retries);
      } else if front.s.pc.Awaiting? {
        OperationKept(s, front, e, retries);
      } else {
        RestStays(s, front, e, retries);
      }
    }
  }

  lemma RestStays(s: Session, w: Watch, e: Event, retries: nat)
    requires w.s.pc.Ready? && Jobless(s.pc) && Afterlife(s, w)
    ensures Afterlife(s, Watched(w, e, retries))
  {
  }

  /**
   A close at a control point without a job, in any reachable state, whatever
   happens to the handler afterwards: when it comes to rest the job is with the
   closed session, for good, if and only if a lease was granted and checked out
   and the session is then in a block.
   */
  lemma OverlappingCloseExact(
    run: seq<System>, acts: seq<Action>, cfg: Config, k: nat, i: SessionId, events: seq<Event>, retries: nat)
    requires IsRun(run, acts, cfg) && k < |run| && i < |run[k].sessions|
    requires !run[k].sessions[i].closed && Jobless(run[k].sessions[i].pc)
    requires Drive(ClosedMeanwhile(run[k].sessions[i]), events, retries).s.pc.Ready?
    ensures var s := run[k].sessions[i]; var w := Drive(ClosedMeanwhile(s), events, retries);
      && (w.s.job.Some? <==> w.checkedOut && InBlockAtRest(s, w.ended))
      && (w.ended ==> Ends(s.pc.m))
      && w.s.closed && forall m :: Receive(w.s, m).job == w.s.job && Receive(w.s, m).pc.Ready?
  {
    var s := run[k].sessions[i];
    RunInv(run, acts, cfg, k);
    RunTalk(run, acts, cfg, k);
    assert SessionOk(run[k], i) && TalkOk(s);
    hide Inv, IsRun, Fits, Converse;
    AfterlifeKept(s, events, retries);
    hide Drive;
  }

  /** For a message that neither opens nor ends a block: the session is in a block at the close, and gets its job. */
  lemma StatementCloseExact(
    run: seq<System>, acts: seq<Action>, cfg: Config, k: nat, i: SessionId, events: seq<Event>, retries: nat)
    requires IsRun(run, acts, cfg) && k < |run| && i < |run[k].sessions|
    requires !run[k].sessions[i].closed && Jobless(run[k].sessions[i].pc)
    requires !Opens(run[k].sessions[i].pc.m) && !Ends(run[k].sessions[i].pc.m)
    requires Drive(ClosedMeanwhile(run[k].sessions[i]), events, retries).s.pc.Ready?
    ensures var s := run[k].sessions[i]; var w := Drive(ClosedMeanwhile(s), events, retries);
      w.s.job.Some? <==> s.inTxn && w.checkedOut
  {
    OverlappingCloseExact(run, acts, cfg, k, i, events, retries);
    hide IsRun, Drive, Receive, Ends, Opens;
  }

  /** The rest of the handler once a job is granted and every operation succeeds. */
  function RunOut(s: Session, lease: JobId, retries: nat): Option<Session>
    requires s.pc.Waiting? && s.pc.mode.First?
  {
    var s1 := TakeLease(s.(pc := Granted(s.pc.m, s.pc.mode, lease)));
    var s2 := Resume(s1, true, false, retries);
    if !s2.pc.Awaiting? || s2.job.None? then None
    else
      var s3 := Resume(s2, true, false, retries);
      if !s3.pc.Awaiting? || s3.job.None? then None
      else
        var s4 := Resume(s3, true, false, retries);
        if !s4.pc.Start? then None
        else
          var s5 := Begun(s4);
          if !s5.pc.Awaiting? || s5.job.None? then None else Some(Resume(s5, true, false, retries))
  }

  /**
   The simplest case: a statement of an open block waits for a job, the socket
   closes, and the job granted afterwards stays with the closed session, which
   ignores everything from then on.
   */
  lemma OverlappingCloseKeepsJob(s: Session, id: nat, lease: JobId, retries: nat)
    requires WellFormed(s) && s.inTxn && !s.failed && !s.closed && !s.skipping
    requires s.pc == Waiting(Query(App(id, Writes, NoLookup)), First)
    ensures var end := RunOut(ClosedMeanwhile(s), lease, retries);
      && end.Some?
      && end.value.pc.Ready? && end.value.closed && end.value.job == Some(lease)
      && (forall m :: Receive(end.value, m).job == Some(lease) && Receive(end.value, m).pc.Ready?)
  {
  }

  // ---- a close while an operation is awaited ----

  /** close() takes the job from the session while its operation is under way. */
  function TakenAway(S: System, i: SessionId): System
    requires i < |S.sessions|
  {
    Put(S, i, S.sessions[i].(closed := true, job := None))
  }

  /** The release that close() starts, run to its hand-over beside the operation. */
  function ReleasedBeside(S: System, cfg: Config, lease: JobId): System
    requires lease in S.jobs
  {
    var (started, known) := ReleaseStart(S.pool, lease);
    if !known then S
    else
      var (pool, handoff) := ReleaseEnd(started, lease);
      var S1 := S.(pool := pool, jobs := S.jobs[lease := NewJob(cfg)]);
      match handoff
      case ToWaiter(w) => Grant(S1, w, lease)
      case ToIdle => S1.(place := S.place[lease := InIdle])
      case ToClose => S1
  }

  /** The operation of `s`, which close() did not stop, takes effect on its job. */
  function SettledBeside(S: System, s: Session, i: SessionId, lease: JobId, creates: bool): System
    requires s.pc.Awaiting? && lease in S.jobs
  {
    var effect := Db2.Perform(S.jobs[lease], OpAt(s, i, s.pc.m, s.pc.at, creates));
    if effect.Applied? then S.(jobs := S.jobs[lease := effect.job], committed := S.committed + effect.durable) else S
  }

  /**
   In every reachable state before shutdown, a close while an operation is
   awaited hands the job of that very operation to the first waiter, or to the
   idle list when nobody waits.
   */
  lemma HandedOverInUse(run: seq<System>, acts: seq<Action>, cfg: Config, k: nat, i: SessionId)
    requires IsRun(run, acts, cfg) && k < |run| && i < |run[k].sessions|
    requires run[k].sessions[i].pc.Awaiting? && !run[k].pool.ending
    ensures var S := run[k]; var s := S.sessions[i];
      && s.job.Some? && s.job.value in S.jobs
      && var T := ReleasedBeside(TakenAway(S, i), cfg, s.job.value);
      && i < |T.sessions| && T.sessions[i].pc == s.pc
      && (if S.pool.waiters == [] then T.pool.idle == S.pool.idle + [s.job.value]
          else
            var w := S.pool.waiters[0];
            w < |T.sessions| && w != i && T.sessions[w].pc.Granted? && T.sessions[w].pc.lease == s.job.value)
  {
    hide IsRun, Inv;
    RunInv(run, acts, cfg, k);
    InUse(run[k], cfg, i);
  }

  lemma InUse(S: System, cfg: Config, i: SessionId)
    requires Inv(S, cfg) && i < |S.sessions| && S.sessions[i].pc.Awaiting? && !S.pool.ending
    ensures S.sessions[i].job.Some? && S.sessions[i].job.value in S.jobs && S.sessions[i].job.value in S.pool.all
    ensures S.pool.waiters != [] ==>
      S.pool.waiters[0] < |S.sessions| && S.pool.waiters[0] != i && S.sessions[S.pool.waiters[0]].pc.Waiting?
  {
    assert SessionOk(S, i);
    if S.pool.waiters != [] { WaiterWaits(S, cfg, S.pool.waiters[0]); }
    assert Registered(S, S.sessions[i].job.value);
    hide SessionsOk, CapOk, Fits;
  }

  lemma LeasedInUse(S: System, cfg: Config, i: SessionId, other: SessionId, lease: JobId)
    requires i < |S.sessions| && other < |S.sessions| && other != i
    requires lease in S.jobs && lease in S.pool.all && !S.pool.ending
    requires S.pool.waiters == [] && S.pool.idle == [] && S.sessions[other].pc.WantLease?
    ensures var T := ReleasedBeside(TakenAway(S, i), cfg, lease);
      && other < |T.sessions| && T.sessions[other].pc.WantLease?
      && var U := DoAcquire(T, cfg, other);
      && |U.sessions| == |S.sessions| && U.sessions[i].pc == S.sessions[i].pc
      && U.sessions[other].pc.Granted? && U.sessions[other].pc.lease == lease
      && lease in U.jobs && U.jobs[lease] == NewJob(cfg)
  {
  }

  lemma WriteLands(U: System, cfg: Config, s: Session, i: SessionId, other: SessionId, lease: JobId, creates: bool)
    requires s.pc.Awaiting? && OpAt(s, i, s.pc.m, s.pc.at, creates).Insert?
    requires lease in U.jobs && U.jobs[lease] == NewJob(cfg)
    requires other < |U.sessions| && U.sessions[other].pc.Granted? && U.sessions[other].pc.lease == lease
    ensures var V := SettledBeside(U, s, i, lease, creates);
      && lease in V.jobs && other < |V.sessions| && !SessionOk(V, other)
      && exists stmt, schema :: V.jobs[lease].pending == [Db2.AppWrite(i, s.txn, schema, stmt)]
  {
    var V := SettledBeside(U, s, i, lease, creates);
    var op := OpAt(s, i, s.pc.m, s.pc.at, creates);
    assert V.jobs[lease].pending == [Db2.AppWrite(i, s.txn, cfg.defaultSchema, op.stmt)];
  }

  /**
   Two sessions use one job: another session asks next, gets the job whose
   operation is still awaited, and when that operation is a write it lands in
   the other's unit of work, which was to start clean.
   */
  lemma TwoSessionsOneJob(
    run: seq<System>, acts: seq<Action>, cfg: Config, k: nat, i: SessionId, other: SessionId, creates: bool)
    requires IsRun(run, acts, cfg) && k < |run| && i < |run[k].sessions| && other < |run[k].sessions| && other != i
    requires run[k].sessions[i].pc.Awaiting? && !run[k].pool.ending
    requires run[k].pool.waiters == [] && run[k].pool.idle == [] && run[k].sessions[other].pc.WantLease?
    ensures var S := run[k]; var s := S.sessions[i];
      && s.job.Some? && s.job.value in S.jobs
      && var T := ReleasedBeside(TakenAway(S, i), cfg, s.job.value);
      && other < |T.sessions| && T.sessions[other].pc.WantLease?
      && var U := DoAcquire(T, cfg, other);
      && other < |U.sessions| && U.sessions[other].pc.Granted? && U.sessions[other].pc.lease == s.job.value
      && i < |U.sessions| && U.sessions[i].pc == s.pc && s.job.value in U.jobs
      && (OpAt(s, i, s.pc.m, s.pc.at, creates).Insert? ==>
            var V := SettledBeside(U, s, i, s.job.value, creates);
            && s.job.value in V.jobs && other < |V.sessions| && !SessionOk(V, other)
            && exists stmt, schema :: V.jobs[s.job.value].pending == [Db2.AppWrite(i, s.txn, schema, stmt)])
  {
    hide IsRun, Inv, DoAcquire, ReleasedBeside, SettledBeside, OpAt, SessionOk;
    RunInv(run, acts, cfg, k);
    InUse(run[k], cfg, i);
    var s := run[k].sessions[i];
    LeasedInUse(run[k], cfg, i, other, s.job.value);
    if OpAt(s, i, s.pc.m, s.pc.at, creates).Insert? {
      var U := DoAcquire(ReleasedBeside(TakenAway(run[k], i), cfg, s.job.value), cfg, other);
      WriteLands(U, cfg, s, i, other, s.job.value, creates);
    }
  }

  predicate Rests(t: Session) { t.job == None && t.pc.Ready? }

  lemma DoneRests(s: Session, m: Msg, ok: bool)
    requires s.job.None?
    ensures Rests(Done(s, m, ok)) && Rests(Reply(s, m))
  {
    DoneFrame(s, m, ok);
    ReplyShape(s, m);
    hide Done, Reply;
  }

  lemma EnterRests(s: Session, m: Msg, at: Label)
    requires s.job.None?
    ensures Rests(Enter(s, m, at))
  {
    hide Done;
    DoneRests(s.(missing := s.missing + 1), m, false);
    DoneRests(s.(missing := s.missing + 1, failed := true), m, false);
  }

  lemma EndTxnRests(s: Session, m: Msg, keep: bool)
    requires s.job.None?
    ensures Rests(EndTxn(s, m, keep))
  {
    hide Done, Rests;
    var s1 := LeaveBlock(s, keep);
    DoneRests(s1, m, true);
    if s.restore.Some? { DoneRests(s1.(restore := None, schema := s.restore.value), m, true); }
  }

  lemma SqlRests(s: Session, m: Msg, st: Stmt)
    requires s.job.None?
    ensures Rests(StartSql(s, m, st))
  {
    hide Done, Reply, Enter, EndTxn, Rests;
    DoneRests(s, m, false);
    match st {
      case Begin =>
        DoneRests(if s.inTxn then s
                  else s.(inTxn := true, failed := false, snapshot := Some(s.registry), txn := s.txn + 1), m, true);
      case CommitTxn => EndTxnRests(s, m, !s.failed);
      case RollbackTxn => EndTxnRests(s, m, false);
      case SavepointCmd(_, _) => EnterRests(s, m, Savepointing);
      case SetPath(_, local) =>
        EnterRests(if local && s.restore.None? then s.(restore := Some(s.schema)) else s, m, PathPrepare);
      case Local(_) =>
      case _ =>
        EnterRests(s, m, CatalogRead);
        EnterRests(if s.inTxn then s else s.(txn := s.txn + 1), m, AppRun(0));
    }
  }

  lemma BodyRests(s: Session, m: Msg)
    requires s.job.None?
    ensures Rests(StartBody(s, m))
  {
    hide Done, Reply, Enter, StartSql;
    match m {
      case Query(st) => SqlRests(s, m, st);
      case Execute(st) => SqlRests(s, m, st);
      case EmptyQuery => DoneRests(Send(s, Data), m, true);
      case ExecuteStored => DoneRests(s, m, true);
      case DescribePortal(_) =>
        EnterRests(s, m, CatalogRead);
        EnterRests(if s.inTxn then s else s.(txn := s.txn + 1), m, AppRun(0));
        DoneRests(Send(s, Data), m, true);
      case DescribeStatement(st) =>
        EnterRests(Send(s, Data), m, CatalogRead);
        DoneRests(Send(s, Data), m, !RowsFromDb2(st));
      case Bookkeeping(accepted) => DoneRests(if accepted then Send(s, Data) else s, m, accepted);
      case Sync => DoneRests(Send(s.(skipping := false), ReadyForQuery(StatusOf(s))), m, true);
      case Flush => DoneRests(s, m, true);
      case Unsupported => DoneRests(Send(s, ErrorResponse), m, true);
      case Terminate =>
    }
  }

  /** Between the checkout and the message's own work the handler is left without a job, and rests. */
  lemma CloseAtStart(s: Session)
    requires s.pc.Start?
    ensures Rests(Begun(s.(closed := true, job := None)))
  {
    hide StartBody, Enter;
    var t := s.(closed := true, job := None);
    if s.pc.mode.First? {
      BodyRests(t, s.pc.m);
    } else {
      EnterRests(if t.inTxn then t else t.(txn := t.txn + 1), s.pc.m, AppRun(s.pc.mode.attempt));
    }
  }
}
