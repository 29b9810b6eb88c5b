/**
 The conversation of one session with its client, against sections 53.2.2 and
 53.2.3 of the PostgreSQL 14 documentation: one ReadyForQuery for each Query and
 each Sync, as the last response to it and with the current transaction status,
 silence after an extended-query error until Sync or Terminate, exactly one
 final answer to each statement, and no CommandComplete for work not done.
 */
module Conversation {
  import opened Wrappers
  import opened JobPool
  import opened Sessions
  import opened SessionInvariant
  import opened LeaseProtocol
  import opened LeaseInvariant
  import Db2

  // ---- the protocol, as an automaton over what is received and sent ----

  /** Busy: with `m`, which has had the final answer `answer`, and its ReadyForQuery. */
  datatype Talk =
    | Opened
    | Busy(m: Msg, answer: Option<Response>, readied: Option<TxStatus>)
    | Mute
    | Broken

  /** Messages that are answered with ReadyForQuery. */
  predicate Readying(m: Msg) { IsQuery(m) || m.Sync? }

  /** Messages that get an answer of their own. */
  predicate Wants(m: Msg) { !m.Sync? && !m.Flush? && !m.Terminate? }

  /** Messages that get exactly one final answer: CommandComplete, EmptyQueryResponse or ErrorResponse. */
  predicate Single(m: Msg) { IsStatement(m) || m.ExecuteStored? || m.EmptyQuery? }

  function Heard(t: Talk, r: Response): Talk
    requires t.Busy?
  {
    var rows := IsStatement(t.m) || t.m.ExecuteStored?;
    if t.readied.Some? || (Single(t.m) && t.answer.Some? && !r.ReadyForQuery?) then Broken
    else
      match r
      case ReadyForQuery(status) =>
        if Readying(t.m) && (t.m.Sync? || t.answer.Some?) then t.(readied := Some(status)) else Broken
      case ErrorResponse => if Readying(t.m) || t.m.Unsupported? then t.(answer := Some(r)) else Mute
      case CommandComplete => if rows then t.(answer := Some(r)) else Broken
      case Data => if rows then t else if Wants(t.m) then t.(answer := Some(r)) else Broken
  }

  function Follow(t: Talk, e: Event): Talk {
    match e
    case Received(m) =>
      (match t
       case Opened => Busy(m, None, None)
       case Busy(previous, answer, readied) =>
         if (Readying(previous) && readied.None?) || (Wants(previous) && answer.None?) then Broken
         else Busy(m, None, None)
       case Mute => if m.Sync? || m.Terminate? then Busy(m, None, None) else Broken
       case Broken => Broken)
    case Skipped(m) =>
      if (t.Mute? || (t.Busy? && t.m.Terminate?)) && !m.Sync? && !m.Terminate? then t else Broken
    case Sent(r) => if t.Busy? then Heard(t, r) else Broken
  }

  function Converse(trace: seq<Event>): Talk {
    if trace == [] then Opened
    else Follow(Converse(trace[..|trace| - 1]), trace[|trace| - 1])
  }

  function CountReady(trace: seq<Event>): nat {
    if trace == [] then 0
    else
      var last := trace[|trace| - 1];
      CountReady(trace[..|trace| - 1]) + if last.Sent? && last.response.ReadyForQuery? then 1 else 0
  }

  /** Query and Sync messages that were not skipped. */
  function CountAsked(trace: seq<Event>): nat {
    if trace == [] then 0
    else
      var last := trace[|trace| - 1];
      CountAsked(trace[..|trace| - 1]) + if last.Received? && Readying(last.msg) then 1 else 0
  }

  function Owed(t: Talk): nat {
    if t.Busy? && Readying(t.m) && t.readied.None? then 1 else 0
  }

  /** An unbroken conversation has answered every Query and Sync but possibly the one at work. */
  lemma {:induction false} ReadyCount(trace: seq<Event>)
    requires !Converse(trace).Broken?
    ensures CountReady(trace) + Owed(Converse(trace)) == CountAsked(trace)
  {
    if trace != [] {
      ReadyCount(trace[..|trace| - 1]);
    }
  }

  /** A response that ends the handling of a statement. */
  predicate Final(m: Msg, r: Response) {
    Single(m) && (r.CommandComplete? || r.ErrorResponse? || (r.Data? && m.EmptyQuery?))
  }

  function CountFinal(trace: seq<Event>): nat {
    if trace == [] then 0
    else
      var last := trace[|trace| - 1];
      var t := Converse(trace[..|trace| - 1]);
      CountFinal(trace[..|trace| - 1]) + if last.Sent? && t.Busy? && Final(t.m, last.response) then 1 else 0
  }

  function CountSingle(trace: seq<Event>): nat {
    if trace == [] then 0
    else
      var last := trace[|trace| - 1];
      CountSingle(trace[..|trace| - 1]) + if last.Received? && Single(last.msg) then 1 else 0
  }

  function Unanswered(t: Talk): nat {
    if t.Busy? && Single(t.m) && t.answer.None? then 1 else 0
  }

  /** And has given exactly one final answer to every statement but possibly the one at work. */
  lemma {:induction false} AnswerCount(trace: seq<Event>)
    requires !Converse(trace).Broken?
    ensures CountFinal(trace) + Unanswered(Converse(trace)) == CountSingle(trace)
  {
    if trace != [] {
      AnswerCount(trace[..|trace| - 1]);
    }
  }

  // ---- the session follows the protocol ----

  datatype Stage = Resting | Running(m: Msg) | Ended(m: Msg, ok: bool)

  function AfterPool(m: Msg, next: Then): Stage {
    match next
    case Finish(ok) => Ended(m, ok)
    case Reacquire(_) => Running(m)
  }

  function StageOf(pc: Pc): Stage {
    match pc
    case Ready => Resting
    case Releasing(m, _, ok) => Ended(m, ok)
    case Resetting(m, _, ok, _) => Ended(m, ok)
    case Invalidating(m, _, next) => AfterPool(m, next)
    case Closing(m, _, next, _) => AfterPool(m, next)
    case Replacing(m, next) => AfterPool(m, next)
    case _ => Running(pc.m)
  }

  /** What a CommandComplete has told the client about the session. */
  predicate Promised(s: Session, m: Msg) {
    IsStatement(m) ==>
      match StmtOf(m)
      case Begin => s.inTxn && !s.failed
      case CommitTxn => !s.inTxn && s.restore.None?
      case RollbackTxn => !s.inTxn && s.restore.None?
      case SavepointCmd(_, _) => s.inTxn && !s.failed
      case SetPath(schema, local) => !s.failed && s.schema == schema && (local ==> s.inTxn && s.restore.Some?)
      case Local(kind) => s.failed ==> kind.TableOwner?
      case LiveCatalog => !s.failed
      case CreateSchema(_, _) => true
      case App(_, _, _) => !s.failed && Recorded(s, m)
  }

  predicate TalkOk(s: Session) {
    var t := Converse(s.trace);
    && !t.Broken?
    && if s.closed then
         (s.skipping ==> t.Mute? || (t.Busy? && t.m.Terminate?)) && (StageOf(s.pc).Ended? ==> StageOf(s.pc).ok)
       else
         match StageOf(s.pc)
         case Resting => (s.skipping <==> t.Mute?) && (t.Busy? ==> Told(s, t))
         case Running(m) => Working(s, m)
         case Ended(m, ok) => Over(s, m, ok)
  }

  /** The message has had what it is to get, and a success was no lie. */
  predicate Told(s: Session, t: Talk)
    requires t.Busy?
  {
    && (Readying(t.m) ==> t.readied == Some(StatusOf(s)))
    && (Wants(t.m) ==> t.answer.Some?)
    && (t.answer == Some(CommandComplete) ==> Promised(s, t.m))
  }

  /** A message is being handled and nothing final has been sent for it. */
  predicate Working(s: Session, m: Msg) {
    var t := Converse(s.trace);
    && !s.closed && !s.skipping && t.Busy? && t.m == m && t.readied.None? && Pending(t)
    && !m.Sync? && !m.Terminate? && !m.Unsupported?
  }

  predicate Pending(t: Talk)
    requires t.Busy?
  {
    t.answer == None || (!Single(t.m) && t.answer == Some(Data))
  }

  /** The handler has returned (`ok`) or thrown; only an error remains to be sent. */
  predicate Over(s: Session, m: Msg, ok: bool) {
    var t := Converse(s.trace);
    && !s.closed && !s.skipping && !m.Terminate? && t.Busy? && t.m == m
    && (if ok then Told(s, t) && (!Readying(m) ==> t.readied.None?) else t.readied.None? && Pending(t))
    && (m.Sync? || m.Unsupported? ==> ok)
  }

  lemma NoteTalk(s: Session, e: Event)
    ensures Converse(Note(s, e).trace) == Follow(Converse(s.trace), e)
  {
    assert (s.trace + [e])[..|s.trace|] == s.trace;
  }

  /** Rows, descriptions and the like go out while the message is at work. */
  lemma SendTalk(s: Session, m: Msg)
    requires Working(s, m) && Wants(m) && !m.EmptyQuery?
    ensures Working(Send(s, Data), m)
  {
    hide Converse;
    NoteTalk(s, Sent(Data));
  }

  lemma SettleTalk(s: Session, m: Msg, ok: bool)
    requires Over(s, m, ok)
    ensures TalkOk(Settle(s, m, ok)) && Settle(s, m, ok).pc.Ready?
  {
    hide Converse, Promised, StatusOf;
    NoteTalk(s, Sent(ErrorResponse));
    var s1 := Send(s, ErrorResponse);
    NoteTalk(s1, Sent(ReadyForQuery(StatusOf(s1))));
    SamePromise(s, s1, m);
    SamePromise(s, Settle(s, m, ok), m);
  }

  /** Promises are about the transaction, not about the job or the conversation. */
  lemma SamePromise(s: Session, t: Session, m: Msg)
    requires t == s.(job := t.job, pc := t.pc, trace := t.trace, skipping := t.skipping)
    ensures Promised(t, m) == Promised(s, m) && StatusOf(t) == StatusOf(s)
  {
  }

  /** The final answer has been sent, and ReadyForQuery has not. */
  predicate Answered(s: Session, m: Msg) {
    var t := Converse(s.trace);
    && !s.closed && !s.skipping && t.Busy? && t.m == m && t.readied.None? && t.answer.Some?
    && !m.Sync? && !m.Terminate? && !m.Unsupported?
    && (t.answer == Some(CommandComplete) ==> Promised(s, m))
  }

  lemma DoneTalk(s: Session, m: Msg, ok: bool)
    requires if ok && IsQuery(m) then Answered(s, m) else Over(s, m, ok)
    ensures TalkOk(Done(s, m, ok))
  {
    hide Converse, Settle, Promised, StatusOf;
    var s1 := if ok && IsQuery(m) then Send(s, ReadyForQuery(StatusOf(s))) else s;
    NoteTalk(s, Sent(ReadyForQuery(StatusOf(s))));
    SamePromise(s, s1, m);
    if s1.job.Some? && !s1.inTxn {
      SamePromise(s, s1.(job := None, pc := Releasing(m, s1.job.value, ok)), m);
    } else {
      SettleTalk(s1, m, ok);
    }
  }

  /** The handler throws. */
  lemma ThrowTalk(s: Session, m: Msg)
    requires Working(s, m)
    ensures TalkOk(Done(s, m, false))
  {
    hide Done, Converse;
    DoneTalk(s, m, false);
  }

  lemma ReplyTalk(s: Session, m: Msg)
    requires Working(s, m) && Promised(s, m) && Wants(m) && !m.EmptyQuery? && !m.Bookkeeping?
    ensures TalkOk(Reply(s, m))
  {
    hide Done, Converse, Promised;
    NoteTalk(s, Sent(Completion(m)));
    SamePromise(s, Send(s, Completion(m)), m);
    DoneTalk(Send(s, Completion(m)), m, true);
  }

  lemma EnterTalk(s: Session, m: Msg, at: Label)
    requires Working(s, m)
    ensures TalkOk(Enter(s, m, at))
  {
    hide Done, Converse;
    if s.job.None? {
      ThrowTalk(s.(missing := s.missing + 1), m);
      ThrowTalk(s.(missing := s.missing + 1, failed := true), m);
    }
  }

  lemma EnterAppTalk(s: Session, m: Msg, attempt: nat)
    requires Working(s, m)
    ensures TalkOk(EnterApp(s, m, attempt))
  {
    hide Enter, Converse, TalkOk;
    EnterTalk(if s.inTxn then s else s.(txn := s.txn + 1), m, AppRun(attempt));
  }

  lemma EndTxnTalk(s: Session, m: Msg, keep: bool)
    requires Working(s, m) && EndsBlock(m)
    ensures TalkOk(EndTxn(s, m, keep))
  {
    hide Reply, Converse;
    var s1 := LeaveBlock(s, keep);
    if s.restore.None? { ReplyTalk(s1, m); } else { ReplyTalk(s1.(restore := None, schema := s.restore.value), m); }
  }

  lemma EndingTalk(s: Session, m: Msg)
    requires Working(s, m) && EndsBlock(m)
    ensures TalkOk(StartSql(s, m, StmtOf(m)))
  {
    hide Enter, EndTxn, TalkOk, Converse;
    var keep := StmtOf(m).CommitTxn? && !s.failed;
    if s.job.None? { EndTxnTalk(s, m, keep); } else { EnterTalk(s, m, if keep then TxnCommit else TxnRollback); }
  }

  lemma LocalTalk(s: Session, m: Msg)
    requires Working(s, m) && IsStatement(m) && StmtOf(m).Local?
    ensures TalkOk(StartSql(s, m, StmtOf(m)))
  {
    hide Done, Reply, TalkOk, Converse;
    ThrowTalk(s, m);
    if Promised(s, m) { ReplyTalk(s, m); }
  }

  lemma BeginTalk(s: Session, m: Msg)
    requires Working(s, m) && IsStatement(m) && StmtOf(m).Begin?
    ensures TalkOk(StartSql(s, m, Begin))
  {
    hide Done, Reply, TalkOk, Converse;
    ThrowTalk(s, m);
    if !s.failed {
      ReplyTalk(if s.inTxn then s
                else s.(inTxn := true, failed := false, snapshot := Some(s.registry), txn := s.txn + 1), m);
    }
  }

  lemma SqlTalk(s: Session, m: Msg, st: Stmt)
    requires Working(s, m) && (m == Query(st) || m == Execute(st))
    ensures TalkOk(StartSql(s, m, st))
  {
    hide Done, Reply, Enter, EnterApp, EndTxn, TalkOk, Converse;
    match st {
      case CreateSchema(_, _) => EnterAppTalk(s, m, 0); EnterTalk(s, m, CatalogRead);
      case Local(_) => LocalTalk(s, m);
      case SavepointCmd(_, _) => ThrowTalk(s, m); EnterTalk(s, m, Savepointing);
      case CommitTxn => EndingTalk(s, m);
      case RollbackTxn => EndingTalk(s, m);
      case Begin => BeginTalk(s, m);
      case SetPath(_, local) =>
        ThrowTalk(s, m);
        EnterTalk(if local && s.restore.None? then s.(restore := Some(s.schema)) else s, m, PathPrepare);
      case LiveCatalog => ThrowTalk(s, m); EnterTalk(s, m, CatalogRead);
      case App(_, _, _) => ThrowTalk(s, m); EnterAppTalk(s, m, 0); EnterTalk(s, m, CatalogRead);
    }
  }

  lemma SyncTalk(s: Session)
    requires !s.closed && Converse(s.trace) == Busy(Sync, None, None)
    ensures TalkOk(StartBody(s, Sync))
  {
    hide Done, Converse;
    var s1 := s.(skipping := false);
    NoteTalk(s1, Sent(ReadyForQuery(StatusOf(s1))));
    DoneTalk(Send(s1, ReadyForQuery(StatusOf(s))), Sync, true);
  }

  lemma UnsupportedTalk(s: Session)
    requires !s.closed && !s.skipping && Converse(s.trace) == Busy(Unsupported, None, None)
    ensures TalkOk(StartBody(s, Unsupported))
  {
    hide Done, Converse;
    NoteTalk(s, Sent(ErrorResponse));
    DoneTalk(Send(s, ErrorResponse), Unsupported, true);
  }

  /** A message answered at once, by a description, an acknowledgement or nothing. */
  lemma DescribedTalk(s: Session, m: Msg, ok: bool)
    requires Working(s, m) && !Single(m)
    ensures Wants(m) ==> TalkOk(Done(Send(s, Data), m, ok))
    ensures m.Flush? ==> TalkOk(Done(s, m, true))
  {
    hide Done, Converse;
    NoteTalk(s, Sent(Data));
    if Wants(m) { DoneTalk(Send(s, Data), m, ok); }
    if m.Flush? { DoneTalk(s, m, true); }
  }

  lemma EmptyTalk(s: Session)
    requires Working(s, EmptyQuery)
    ensures TalkOk(StartBody(s, EmptyQuery))
  {
    hide Done, Converse;
    NoteTalk(s, Sent(Data));
    DoneTalk(Send(s, Data), EmptyQuery, true);
  }

  lemma DescribeTalk(s: Session, m: Msg)
    requires Working(s, m) && (m.DescribePortal? || m.DescribeStatement?)
    ensures TalkOk(StartBody(s, m))
  {
    hide Done, Enter, EnterApp, TalkOk, Converse;
    DescribedTalk(s, m, m.DescribePortal? || !RowsFromDb2(m.stmt));
    if m.DescribePortal? {
      EnterTalk(s, m, CatalogRead);
      EnterAppTalk(s, m, 0);
    } else {
      SendTalk(s, m);
      EnterTalk(Send(s, Data), m, CatalogRead);
    }
  }

  lemma BodyTalk(s: Session, m: Msg)
    requires Working(s, m)
    ensures TalkOk(StartBody(s, m))
  {
    hide Done, Reply, Enter, StartSql, TalkOk, Converse;
    match m {
      case Query(st) => SqlTalk(s, m, st);
      case Execute(st) => SqlTalk(s, m, st);
      case EmptyQuery => EmptyTalk(s);
      case ExecuteStored => ReplyTalk(s, m);
      case DescribePortal(_) => DescribeTalk(s, m);
      case DescribeStatement(_) => DescribeTalk(s, m);
      case Bookkeeping(accepted) => ThrowTalk(s, m); DescribedTalk(s, m, true);
      case Flush => DescribedTalk(s, m, true);
    }
  }

  lemma ReceiveTalk(s: Session, m: Msg)
    requires TalkOk(s) && s.pc.Ready?
    ensures TalkOk(Receive(s, m))
  {
    hide Converse, StartBody, NeedsBackend, Promised;
    NoteTalk(s, Received(m));
    NoteTalk(s, Skipped(m));
    var s1 := Note(s, Received(m));
    if !s.closed && !(s.skipping && !m.Sync? && !m.Terminate?) {
      if m.Sync? {
        SyncNeedsNothing(s);
        SyncTalk(s1);
      } else if m.Terminate? {
        SyncNeedsNothing(s);
        TerminateTalk(s1);
      } else if m.Unsupported? {
        SyncNeedsNothing(s);
        UnsupportedTalk(s1);
      } else {
        BodyTalk(s1, m);
      }
    } else if !s.closed {
      SamePromise(s, Note(s, Skipped(m)), m);
    }
  }

  lemma SyncNeedsNothing(s: Session)
    ensures !NeedsBackend(s, Sync) && !NeedsBackend(s, Terminate) && !NeedsBackend(s, Unsupported)
  {
  }

  lemma TerminateTalk(s: Session)
    requires Converse(s.trace) == Busy(Terminate, None, None)
    ensures TalkOk(StartBody(s, Terminate))
  {
    hide Converse;
  }

  /** The socket closes a session between two messages. */
  lemma CloseTalk(s: Session)
    requires TalkOk(s) && s.pc.Ready? && !s.closed
    ensures TalkOk(Close(s))
  {
    hide Converse;
  }

  lemma BegunTalk(s: Session)
    requires TalkOk(s) && s.pc.Start? && !s.closed
    ensures TalkOk(Begun(s))
  {
    hide Converse, StartBody, EnterApp;
    if s.pc.mode.First? { BodyTalk(s, s.pc.m); } else { EnterAppTalk(s, s.pc.m, s.pc.mode.attempt); }
  }

  lemma CatalogDoneTalk(s: Session, m: Msg)
    requires Working(s, m) && Looks(m) && Sober(s, m)
    ensures TalkOk(CatalogDone(s, m))
  {
    hide Converse, Reply, EnterApp, TalkOk;
    if Works(m) { EnterAppTalk(s, m, 0); }
    if Promised(s, m) { ReplyTalk(s, m); }
  }

  lemma FailedTalk(s: Session, transport: bool, retries: nat)
    requires TalkOk(s) && s.pc.Awaiting? && s.job.Some? && !s.closed
    ensures TalkOk(Resume(s, false, transport, retries))
  {
    hide Converse, Done;
    ThrowTalk(s, s.pc.m);
    ThrowTalk(s.(failed := true), s.pc.m);
  }

  lemma AppDoneTalk(s: Session, m: Msg)
    requires Working(s, m) && Lockstep(s) && Works(m) && Sober(s, m)
    ensures TalkOk(AppDone(s, m))
  {
    hide Converse, Reply;
    var st := StmtOf(m);
    var s1 := if st.App? && st.work.Defines? then s.(registry := s.registry + [st.work.entry]) else s;
    ReplyTalk(s1, m);
  }

  lemma ControlTalk(s: Session, retries: nat)
    requires TalkOk(s) && s.pc.Awaiting? && s.job.Some? && !s.closed && WellFormed(s)
    requires s.pc.at.Savepointing? || s.pc.at.TxnCommit? || s.pc.at.TxnRollback?
      || s.pc.at.RestoreSchema? || s.pc.at.RestoreCommit? || s.pc.at.RestoreCheck?
    ensures TalkOk(Resume(s, true, false, retries))
  {
    hide Converse, Reply, EndTxn, CatalogDone, AppDone;
    var m := s.pc.m;
    match s.pc.at {
      case Savepointing => ReplyTalk(if StmtOf(m).action.RollbackToIt? then s.(failed := false) else s, m);
      case TxnCommit => EndTxnTalk(s, m, true);
      case TxnRollback => EndTxnTalk(s, m, false);
      case RestoreCheck => ReplyTalk(s, m);
      case _ =>
    }
  }

  lemma PathTalk(s: Session, retries: nat)
    requires TalkOk(s) && s.pc.Awaiting? && s.job.Some? && !s.closed && WellFormed(s)
    requires s.pc.at.PathPrepare? || s.pc.at.PathSet? || s.pc.at.PathCheck? || s.pc.at.PathCommit?
    ensures TalkOk(Resume(s, true, false, retries))
  {
    hide Converse, Reply, EndTxn, CatalogDone, AppDone;
    if s.pc.at.PathCommit? || s.pc.at.PathCheck? { ReplyTalk(s, s.pc.m); }
  }

  lemma WorkTalk(s: Session, retries: nat)
    requires TalkOk(s) && s.pc.Awaiting? && s.job.Some? && !s.closed && WellFormed(s)
    requires s.pc.at.CatalogRead? || s.pc.at.CatalogCommit? || s.pc.at.AppRun? || s.pc.at.AutoCommit? || s.pc.at.AutoRollback?
    ensures TalkOk(Resume(s, true, false, retries))
  {
    hide Converse, Done, Reply, EndTxn, CatalogDone, AppDone;
    var m := s.pc.m;
    match s.pc.at {
      case CatalogRead => CatalogDoneTalk(s, m);
      case CatalogCommit => CatalogDoneTalk(s, m);
      case AppRun(_) => AppDoneTalk(s, m);
      case AutoCommit => ReplyTalk(s, m);
      case AutoRollback => ThrowTalk(s, m);
    }
  }

  lemma ResumeTalk(s: Session, retries: nat)
    requires TalkOk(s) && s.pc.Awaiting? && s.job.Some? && !s.closed && WellFormed(s)
    ensures TalkOk(Resume(s, true, false, retries))
  {
    hide TalkOk, WellFormed;
    match s.pc.at {
      case PrepareSchema(_) => ReplayTalk(s, retries);
      case ReplaySchema(_) => ReplayTalk(s, retries);
      case ReplayCommit(_) => ReplayTalk(s, retries);
      case PathPrepare => PathTalk(s, retries);
      case PathSet => PathTalk(s, retries);
      case PathCheck => PathTalk(s, retries);
      case PathCommit => PathTalk(s, retries);
      case CatalogRead => WorkTalk(s, retries);
      case CatalogCommit => WorkTalk(s, retries);
      case AppRun(_) => WorkTalk(s, retries);
      case AutoCommit => WorkTalk(s, retries);
      case AutoRollback => WorkTalk(s, retries);
      case _ => ControlTalk(s, retries);
    }
  }

  lemma ReplayTalk(s: Session, retries: nat)
    requires TalkOk(s) && s.pc.Awaiting? && s.job.Some? && !s.closed
    requires s.pc.at.PrepareSchema? || s.pc.at.ReplaySchema? || s.pc.at.ReplayCommit?
    ensures TalkOk(Resume(s, true, false, retries))
  {
    hide Converse;
  }

  lemma ContinueTalk(s: Session, m: Msg, next: Then)
    requires TalkOk(s) && (s.closed ==> next.Finish?) && StageOf(s.pc) == AfterPool(m, next)
    ensures TalkOk(Continue(s, m, next))
  {
    hide Converse, Settle;
    if next.Finish? {
      if s.closed { ClosedSettle(s, m, next.ok); } else { SettleTalk(s, m, next.ok); }
    }
  }

  lemma ClosedSettle(s: Session, m: Msg, ok: bool)
    requires TalkOk(s) && s.closed && StageOf(s.pc) == Ended(m, ok)
    ensures TalkOk(Settle(s, m, ok))
  {
    hide Converse;
  }

  // ---- in every run ----

  ghost predicate AllTalkOk(S: System) {
    forall k :: 0 <= k < |S.sessions| ==> TalkOk(S.sessions[k])
  }

  /** A turn of the control point that leaves the stage of the message alone. */
  predicate SameStage(s: Session, t: Session) {
    t == s.(pc := t.pc) && StageOf(t.pc) == StageOf(s.pc)
  }

  lemma SameStageTalk(s: Session, t: Session)
    requires TalkOk(s) && SameStage(s, t)
    ensures TalkOk(t)
  {
    hide Converse, Promised, StatusOf;
    var talk := Converse(s.trace);
    if talk.Busy? { SamePromise(s, t, talk.m); }
  }

  lemma OnwardTalk(s: Session)
    requires TalkOk(s) && Holding(s)
    ensures TalkOk(Onward(s))
  {
    hide Converse, Settle, Continue;
    match s.pc {
      case Releasing(m, _, ok) => if s.closed { ClosedSettle(s, m, ok); } else { SettleTalk(s, m, ok); }
      case Resetting(m, _, ok, _) => if s.closed { ClosedSettle(s, m, ok); } else { SettleTalk(s, m, ok); }
      case Closing(m, _, next, _) => ContinueTalk(s, m, next);
      case Replacing(m, next) => ContinueTalk(s, m, next);
      case _ =>
    }
  }

  /** A pool action leaves the stage of the message alone, or the session goes on now that its pool call has returned. */
  lemma TurnMoves(s: Session, t: Session, caller: bool)
    requires PoolTurn(s, t, caller)
    ensures SameStage(s, t) || t == Onward(s)
  {
    hide Onward;
  }

  lemma PoolTalk(S: System, cfg: Config, a: Action, k: SessionId)
    requires Inv(S, cfg) && Enabled(S, a) && k < |S.sessions| && AllTalkOk(S) && !OwnSpan(a) && !a.OpSettled?
    ensures k < |Next(S, cfg, a).sessions| && TalkOk(Next(S, cfg, a).sessions[k])
  {
    hide TalkOk, Onward, Next, SameStage, PoolTurn, Fits, PoolOk, PlacesOk, IdleOk;
    NextTurns(S, cfg, a);
    var s := S.sessions[k];
    var t := Next(S, cfg, a).sessions[k];
    assert SessionOk(S, k);
    TurnMoves(s, t, Caller(a, k));
    if SameStage(s, t) { SameStageTalk(s, t); } else { OnwardTalk(s); }
  }

  lemma CallerTalk(S: System, cfg: Config, a: Action)
    requires Inv(S, cfg) && Enabled(S, a) && (OwnSpan(a) || a.OpSettled?)
    requires TalkOk(S.sessions[a.who])
    ensures a.who < |Next(S, cfg, a).sessions| && TalkOk(Next(S, cfg, a).sessions[a.who])
  {
    hide TalkOk, Settle, Receive, Close, Begun, TakeLease, LeaseDenied, Resume, OpAt, Db2.Perform, Fits, PoolOk, PlacesOk, IdleOk;
    var s := S.sessions[a.who];
    assert SessionOk(S, a.who);
    match a {
      case Receiving(_, m) => ReceiveTalk(s, m);
      case SocketClosing(_) => CloseTalk(s);
      case LeaseTaken(_) => TakenTalk(s);
      case LeaseRefused(_) => RefusedTalk(s);
      case BodyStarting(_) => BegunTalk(s);
      case OpSettled(_, _, transport, _) => ResumeTalk(s, cfg.retries); FailedTalk(s, transport, cfg.retries);
    }
  }

  lemma OwnTalk(S: System, cfg: Config, a: Action, k: SessionId)
    requires Inv(S, cfg) && Enabled(S, a) && k < |S.sessions| && AllTalkOk(S) && (OwnSpan(a) || a.OpSettled?)
    ensures k < |Next(S, cfg, a).sessions| && TalkOk(Next(S, cfg, a).sessions[k])
  {
    hide Inv, TalkOk, Next;
    NextIsLocal(S, cfg, a);
    CallerTalk(S, cfg, a);
  }

  lemma StepTalk(S: System, cfg: Config, a: Action, k: SessionId)
    requires Inv(S, cfg) && Enabled(S, a) && k < |S.sessions| && AllTalkOk(S)
    ensures k < |Next(S, cfg, a).sessions| && TalkOk(Next(S, cfg, a).sessions[k])
  {
    hide Inv, TalkOk, Next;
    if OwnSpan(a) || a.OpSettled? {
      OwnTalk(S, cfg, a, k);
    } else {
      PoolTalk(S, cfg, a, k);
    }
  }

  lemma TakenTalk(s: Session)
    requires TalkOk(s) && s.pc.Granted?
    ensures TalkOk(TakeLease(s))
  {
    hide Converse;
  }

  lemma RefusedTalk(s: Session)
    requires TalkOk(s) && s.pc.Refused? && !s.closed
    ensures TalkOk(LeaseDenied(s))
  {
    SettleTalk(Abandoned(s, s.pc.mode), s.pc.m, false);
  }

  lemma {:induction false} RunTalk(run: seq<System>, acts: seq<Action>, cfg: Config, k: nat)
    requires IsRun(run, acts, cfg) && k < |run|
    ensures AllTalkOk(run[k])
  {
    if k > 0 {
      RunTalk(run, acts, cfg, k - 1);
      RunInv(run, acts, cfg, k - 1);
      forall i | 0 <= i < |run[k].sessions| ensures TalkOk(run[k].sessions[i]) {
        SizeKept(run[k - 1], cfg, acts[k - 1]);
        StepTalk(run[k - 1], cfg, acts[k - 1], i);
      }
    }
  }

  /**
   In every state of every run the conversation of every session keeps to the
   protocol; between messages of an open session, every Query and Sync received
   has had its ReadyForQuery, the last one with the present status, and every
   statement its one final answer.
   */
  lemma ReadyForQueryDiscipline(run: seq<System>, acts: seq<Action>, cfg: Config, k: nat, i: SessionId)
    requires IsRun(run, acts, cfg) && k < |run| && i < |run[k].sessions|
    ensures var s := run[k].sessions[i]; var t := Converse(s.trace);
      && !t.Broken?
      && (s.pc.Ready? && !s.closed ==>
            && CountReady(s.trace) == CountAsked(s.trace)
            && CountFinal(s.trace) == CountSingle(s.trace)
            && (t.Busy? && Readying(t.m) ==> t.readied == Some(StatusOf(s)))
            && (s.skipping <==> t.Mute?))
  {
    RunTalk(run, acts, cfg, k);
    assert TalkOk(run[k].sessions[i]);
    ReadyCount(run[k].sessions[i].trace);
    AnswerCount(run[k].sessions[i].trace);
    hide Converse, CountReady, CountAsked, CountFinal, CountSingle, IsRun;
  }

  /**
   A CommandComplete holds what it says: when a session is at rest after one,
   a COMMIT or ROLLBACK has left its block, SET search_path is in force and SET
   LOCAL has saved the schema before, and no application statement, SET, BEGIN
   or savepoint was acknowledged in a failed block.
   */
  lemma PromisesKept(run: seq<System>, acts: seq<Action>, cfg: Config, k: nat, i: SessionId)
    requires IsRun(run, acts, cfg) && k < |run| && i < |run[k].sessions|
    requires run[k].sessions[i].pc.Ready? && !run[k].sessions[i].closed
    ensures var s := run[k].sessions[i]; var t := Converse(s.trace);
      t.Busy? && t.answer == Some(CommandComplete) ==> Promised(s, t.m)
  {
    RunTalk(run, acts, cfg, k);
    assert TalkOk(run[k].sessions[i]);
    hide Converse, IsRun, Promised;
  }
}
