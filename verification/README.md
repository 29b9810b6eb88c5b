# A verified model of the PostgreSQL-to-IBM i proxy

The proxy lets many PostgreSQL sessions share a bounded pool of Mapepire jobs on
Db2 for i. These modules model its hard core and prove it correct in Dafny 4.11;
`dafny verify dfyconfig.toml` checks everything.

## Transaction pooling

`Db2` is what the proxy relies on in a job: a current schema, a unit of work
that is not yet durable, and savepoint marks in it. `JobPool` and `Sessions`
give each synchronous span of `SessionJobPool` and `ProxySession` as a function
on values; the classes in `SessionJobPool.dfy` and `ProxySession.dfy` update the
source's fields in place and are proved equal to these functions, span by span.
`LeaseProtocol` composes any number of sessions, one pool and one committed
store into a transition system in which every span between two awaits is one
action and actions interleave freely. SQL text is a datatype of statement kinds
as `executeSql` tells them apart; the lease mode is `transaction`.

- `LeaseInvariant` and `SessionInvariant`: one invariant, kept by every action.
- `PrivateBackends`: the specification. Each session owns a backend nobody else
  touches; only the committed store is shared.
- `Refinement`, `PoolingTheorems`: every pooled run is a run of private
  backends; exclusive leases, the cap, first-come-first-served waiting, and
  all-or-nothing durability follow.
- `TransactionBlocks`, `TransactionTheorems`: one job per block, registries and
  search path given back, currentJob() missing only where it is foreseen here,
  and each session observing exactly what it would observe alone.
- `Conversation`: the protocol of answers as an automaton: one ReadyForQuery per
  Query and Sync, exactly one final answer per statement, and what a
  CommandComplete promises.
- `ClientLedger`: what a client can work out from its conversation alone (which
  of its statements are durable, which are pending in the open block, which
  savepoints stand); the committed store and the session's job hold exactly that.
- `Answers`: which statements are refused, how a block ends, what a statement, SET
  search_path, a savepoint or a checkout does on Db2, and how the failure of an
  operation reaches the client.
- `Repetition`: how often the statement of a message can run on Db2.
- `OverlappingClose`: what becomes of the job when the socket closes a session
  while its handler is between two awaits, at every control point.

## Wire layer

`WireBytes`, `WireFrames` and `WireDecoders` work on bytes. The framer is a loop
proved against a recursive specification, and its results are proved independent
of how the stream is cut. Parse and Bind decode a body exactly when the body
starts with an encoding of the message.

## Scanners, registries, locks

`Scanners` and `ScannerTheorems` prove the hand-copied quote and parenthesis
loops against one reference: the quoting state when every quote toggles. What
may be joined with separators and split again is built up from characters,
quoted texts and parentheses.
`ArrayText` is the text-array printer and parser. `AdvisoryLocks` accounts the
lock table against the history of calls. `Identifiers`, `ColumnRename`,
`RenamePlans` and `DdlRegistry` cover column renames and the registry of stored
definitions with its mutable objects; `ForeignKeys` covers type alignment.

## Where the code falls short of a stronger claim

Each has a lemma that shows the case, and a theorem with the exact condition.

- The socket closes a session outside the message chain, so a close can overlap
  a message. Without a job in the session it only sets a flag: the job comes
  later and stays with the closed session if and only if it was granted, its
  checkout succeeded, and the session is then in a block
  (`OverlappingCloseExact`; for a message that neither opens nor ends a block
  `StatementCloseExact`; the simplest case `OverlappingCloseKeepsJob`). With an
  operation under way the close hands the job of that operation to the first
  waiter or to the idle list (`HandedOverInUse`), so that two sessions use one
  job and a write lands in a stranger's unit of work (`TwoSessionsOneJob`);
  whatever the outcome of the operation, the handler goes on with a job, gives
  it away, or rests in a block (`ResumeKeepsOrGives`). The transition system
  therefore closes a session only between messages.
- The backend-need predicate misses exactly the messages of `Unforeseen`;
  besides, the catch clause around a repeated read calls currentJob() in vain
  when the new lease is refused or not checked out (`LeasePredictionSound`
  counts both, and nothing else).
- createTrackedJob gives its reservation back one microtask before acquire
  registers the job; an acquire in between exceeds the maximum exactly when the
  pool stood at it (`GapBreaksCap`).
- With an open quote the multi-statement gate lets a batch pass; `GateExact`
  says exactly when (`GateFooled` shows one).
- The planner normalizes names twice. It renames the column asked for exactly
  when that changes nothing (`AskedColumnRenamed`, and `QuotedNameMissed` for
  one it misses); it keeps column names apart exactly when no other definition
  has the new name (`PlanKeeps`, and `DuplicateAccepted` for a duplicate it
  lets in); and renaming back restores the definitions exactly when both names
  are stable and `RestorableIn` holds of each (`RenameThereAndBack`).
- The foreign-key registry folds the name of a registered column twice. A name
  with a blank at an end of its quotes is stored where its own lookup does not
  find it (`BlankNameMislaid`); every column is found with its own type exactly
  as far as folding twice is folding once (`RegisteredLookup`, `StoredAsDefined`).
- With parents of different types a foreign-key column never settles
  (`AlignmentExact`, `ConflictNeverSettles`).
- Array elements lose surrounding white space (`PrintedExact`).

## Model

| member | source | states |
|---|---|---|
| `SessionJobPools.SessionJobPool.AcquireStart` | src/mapepire/session-pool.ts:202-236 | acquire up to its first await: refuse when ending, lease the oldest idle job, reserve a connection below the cap, or queue; all books as the specification function says |
| `SessionJobPools.SessionJobPool.AcquireConnected` | src/mapepire/session-pool.ts:186-217 | reservation and registration are exchanged in one step |
| `SessionJobPools.SessionJobPool.CreationFailed` | src/mapepire/session-pool.ts:186-193 | a failed connection gives its reservation back and touches nothing else |
| `SessionJobPools.SessionJobPool.WaiterTimeout` | src/mapepire/session-pool.ts:221-234 | the timed-out waiter, and only that one, leaves the queue |
| `SessionJobPools.SessionJobPool.ReleaseCall` | src/mapepire/session-pool.ts:238-241 | an unregistered job is ignored, a registered one stops being leased |
| `SessionJobPools.SessionJobPool.ReleaseReset` | src/mapepire/session-pool.ts:252-260 | a reset job goes to the first waiter, else to the idle list, else is to be closed |
| `SessionJobPools.SessionJobPool.InvalidateCall` | src/mapepire/session-pool.ts:263-267 | the job is struck off idle, leased and all by the filter loop |
| `SessionJobPools.SessionJobPool.InvalidateClosed` | src/mapepire/session-pool.ts:270-272 | a replacement is reserved only below the starting size and before shutdown |
| `SessionJobPools.SessionJobPool.InvalidateReplaced` | src/mapepire/session-pool.ts:272-281 | the replacement is registered and handed to the first waiter or the idle list |
| `SessionJobPools.SessionJobPool.EndCall` | src/mapepire/session-pool.ts:315-320 | every waiter is rejected once, in order, and the queue is empty |
| `SessionJobPools.SessionJobPool.EndClosed` | src/mapepire/session-pool.ts:321-324 | the books are empty |
| `ProxySessions.ProxySession.HandleMessage` | src/proxy/session.ts:201-239 | skip after an extended error, ignore when closed, ask for a job when the predicate says so, else handle |
| `ProxySessions.ProxySession.MessageNeedsBackend` | src/proxy/session.ts:260-337 | the backend-need predicate on the session's fields |
| `ProxySessions.ProxySession.Leased` | src/proxy/session.ts:339-350 | a granted job becomes the session's and its checkout begins |
| `ProxySessions.ProxySession.LeaseFails` | src/proxy/session.ts:342-345 | a refused lease fails the message; in a retry the catch clause finds no job |
| `ProxySessions.ProxySession.CheckoutFails` | src/proxy/session.ts:364-369 | the job is dropped before it is invalidated |
| `ProxySessions.ProxySession.CheckedOut` | src/proxy/session.ts:237-254 | after the checkout the message, or the next attempt of the read, goes on |
| `ProxySessions.ProxySession.Dispatch` | src/proxy/session.ts:240-252 | the switch over message types up to the first await |
| `ProxySessions.ProxySession.ExecuteSql` | src/proxy/session.ts:610-772 | the order of the checks in executeSql up to the first await |
| `ProxySessions.ProxySession.EndTransaction` | src/proxy/session.ts:683-711 | flags cleared, registries kept or restored, saved schema taken |
| `ProxySessions.ProxySession.RestoreLocalSearchPath` | src/proxy/session.ts:1039-1048 | with a job the schema is restored on Db2 first, without one at once |
| `ProxySessions.ProxySession.OperationSucceeded` | src/proxy/session.ts:346-359 | what follows each awaited operation that succeeded |
| `ProxySessions.ProxySession.OperationFailed` | src/proxy/session.ts:958-964 | what follows each awaited operation that failed |
| `ProxySessions.ProxySession.StatementFailed` | src/proxy/session.ts:1135-1152 | only reads outside a block are repeated, on a new job, after a transport failure |
| `ProxySessions.ProxySession.FinishMessage` | src/proxy/session.ts:253-257 | an idle session gives its job back, clearing it before the release |
| `ProxySessions.ProxySession.SettleMessage` | src/proxy/session.ts:205-213 | ErrorResponse, then ReadyForQuery for Query or the skipping state |
| `ProxySessions.ProxySession.PoolReturned` | src/proxy/session.ts:1144-1148 | after the pool call the message settles, or the read is repeated on a new job |
| `ProxySessions.ProxySession.CloseSession` | src/proxy/session.ts:2003-2017 | close gives the job back and marks the session closed |
| `ProxySessions.ProxySession.SocketClosed` | src/server.ts:120-128 | a close between messages keeps the session valid and its job in hand until the release |
| `LeaseInvariant.NextKeepsInv` | src/mapepire/session-pool.ts:202-286 | every action of every session and of the pool keeps the invariant |
| `LeaseInvariant.InitialInv` | src/mapepire/session-pool.ts:55-77 | the state after init satisfies the invariant |
| `LeaseInvariant.RunInv` | src/mapepire/session-pool.ts:202-325 | the invariant holds in every state of every run |
| `PoolingTheorems.ExclusiveLease` | src/mapepire/session-pool.ts:202-286 | no job serves two sessions, none is idle twice or idle while used, and each registered job is idle or with one session |
| `PoolingTheorems.LeaseLifecycle` | src/proxy/session.ts:364-377 | a lease begins only with a grant and ends only through release or invalidate, never by exchange |
| `PoolingTheorems.CapAndQueue` | src/mapepire/session-pool.ts:210-220 | jobs plus connections in flight stay within the maximum; a non-empty queue means no idle job; the queue is exactly the waiting sessions |
| `PoolingTheorems.RefilledBelowStart` | src/mapepire/session-pool.ts:270-272 | an invalidated job is replaced exactly below the starting size and before shutdown, and that is all that happens to the books |
| `PoolingTheorems.QueuedWhenFull` | src/mapepire/session-pool.ts:210-220 | before shutdown an acquire waits exactly when no job is idle and the maximum is reached, and connects exactly when none is idle below it |
| `PoolingTheorems.GapBreaksCap` | src/mapepire/session-pool.ts:186-217 | an acquire between the returned reservation and the registration exceeds the maximum exactly when the pool stood at it |
| `PoolingTheorems.WaiterSettled` | src/mapepire/session-pool.ts:219-286 | a waiter leaves the queue once: granted at the head, timed out, or rejected at shutdown |
| `PoolingTheorems.NoOvertaking` | src/mapepire/session-pool.ts:252-256 | nobody is granted a job while someone ahead waits, and the order never changes |
| `PoolingTheorems.PoolingRefinesPrivateBackends` | src/proxy/session.ts:339-383 | every run over the shared pool is a run of private backends |
| `PoolingTheorems.AtomicDurability` | src/proxy/session.ts:677-711 | once some write of a transaction is durable its durable part never changes |
| `PoolingTheorems.DurableTogether` | src/proxy/session.ts:677-711 | what one action makes durable is the whole unit of work of one unfailed session |
| `Refinement.SessionRefines` | src/proxy/session.ts:227-258 | each session span is the private step named for it |
| `Refinement.OpRefines` | src/proxy/session.ts:339-383 | each settled Db2 operation is the private step named for it |
| `Refinement.PoolRefines` | src/mapepire/session-pool.ts:202-286 | pool spans change nothing a client sees |
| `PrivateBackends.AdvanceSound` | src/proxy/session.ts:677-711 | pending writes are the owner's, and a transaction still writing has nothing durable |
| `TransactionTheorems.AsIfAlone` | src/proxy/session.ts:339-383 | what a session observes and has made durable is what its own steps give on a backend of its own |
| `TransactionTheorems.TransactionAffinity` | src/proxy/session.ts:234-257 | from the end of a checkout inside a block to the end of the block the session stays on that job |
| `TransactionTheorems.StatementsRunPrivately` | src/proxy/session.ts:339-359 | an application statement meets the session's schema and exactly its own pending writes, on a job nobody else uses |
| `TransactionTheorems.CommitDiscipline` | src/proxy/session.ts:683-701 | inside a block, writes are committed only by COMMIT of an unfailed block; a failed block's COMMIT is a ROLLBACK |
| `TransactionTheorems.SessionLockstep` | src/proxy/session.ts:677-711 | failed implies in a block, snapshots exist exactly in a block, a saved schema implies a block, a job held between messages implies an open block |
| `TransactionTheorems.RegistryFollowsBlock` | src/proxy/session.ts:677-711 | a block that is undone gives the registries back as before BEGIN, a committed one keeps them |
| `TransactionTheorems.SearchPathRestored` | src/proxy/session.ts:1003-1056 | the schema at the first SET LOCAL returns, unless the session closes or Db2 refuses |
| `TransactionTheorems.ForgottenOnlyOnFailure` | src/proxy/session.ts:1039-1047 | a saved schema is given up only when a restoring operation failed |
| `TransactionTheorems.LeasePredictionSound` | src/proxy/session.ts:260-337 | over every run, currentJob() fails exactly for an unforeseen message that is handled, and for a repeated read whose new lease is refused or not checked out |
| `TransactionBlocks.PredictionExact` | src/proxy/session.ts:260-337 | the same for one message, in both directions |
| `OverlappingClose.ResumeKeepsOrGives` | src/proxy/session.ts:339-383 | whatever an awaited operation's outcome, and closed or not, the handler goes on with the job, gives it away (to be released exactly outside a block), or rests with it inside one |
| `OverlappingClose.OverlappingCloseExact` | src/proxy/session.ts:2003-2017 | after a close at any control point without a job, in any reachable state and for any later events, the job is with the closed session for good if and only if a lease was checked out and the session is then in a block |
| `OverlappingClose.StatementCloseExact` | src/proxy/session.ts:2003-2017 | for a message that neither opens nor ends a block: if and only if the session was in a block at the close and the checkout succeeds |
| `OverlappingClose.OverlappingCloseKeepsJob` | src/proxy/session.ts:342-377 | the simplest case, run through: a statement of a block waits, the close comes, and the job granted later stays |
| `OverlappingClose.HandedOverInUse` | src/server.ts:120-128 | a close while an operation is awaited hands the job of that operation to the first waiter or the idle list, in every reachable state before shutdown |
| `OverlappingClose.TwoSessionsOneJob` | src/proxy/session.ts:2013-2016 | another session is then granted that job while the operation is awaited, and a write lands in its unit of work |
| `OverlappingClose.CloseAtStart` | src/proxy/session.ts:237-254 | a close between the checkout and the message's own work leaves the handler without a job, at rest |
| `Conversation.ReadyForQueryDiscipline` | src/proxy/session.ts:204-257 | one ReadyForQuery per handled Query and Sync, last and with the current status; one final answer per Query and Execute; silence after an extended-query error |
| `Conversation.ReadyCount` | src/proxy/session.ts:204-257 | an unbroken conversation owes at most the answer at work |
| `Conversation.AnswerCount` | src/proxy/session.ts:604-772 | in an unbroken conversation every statement has had exactly one final answer, the one at work at most one |
| `Conversation.PromisesKept` | src/proxy/session.ts:641-711 | at rest after a CommandComplete: a COMMIT or ROLLBACK has left its block, SET search_path is in force, SET LOCAL has saved the schema, and nothing of the kind was acknowledged in a failed block |
| `ClientLedger.LedgerExact` | src/proxy/session.ts:677-711 | in every run, whenever a session is at rest: what stands in the committed store for it, its open block, the pending statements and savepoints of that block, and its failed flag are exactly what its conversation alone says |
| `ClientLedger.AcknowledgedStands` | src/proxy/session.ts:950-958 | a write acknowledged outside a block, and every write of a block whose COMMIT was acknowledged, stands in the committed store from then on |
| `Answers.RefusedExactly` | src/proxy/session.ts:610-776 | without asking Db2 a statement is refused exactly for the listed reasons, and a refusal leaves the transaction as it was |
| `Answers.DescribeRefusedExactly` | src/proxy/session.ts:439-453 | a statement-level Describe is refused exactly for a SELECT that Db2 would answer |
| `Answers.BookkeepingRefusedExactly` | src/proxy/session.ts:386-405 | Parse, Bind and Close are answered by an error exactly when they are not accepted |
| `Answers.FailedBlockReaches` | src/proxy/session.ts:671-674 | in every state of every run, Db2 is at work in a failed block only for its end, for ROLLBACK TO, for CREATE SCHEMA, for describing results, and for checkouts |
| `Answers.FailedBlockRefuses` | src/proxy/session.ts:671-674 | in every run, what a failed block refuses is answered by an ErrorResponse and nothing else, and leaves block, job, unit of work and store as they were |
| `Answers.FailedBlockRefusesAtOnce` | src/proxy/session.ts:671-674 | the same in the span that receives the message, when the job is there or not needed |
| `Answers.BlockLeft` | src/proxy/session.ts:683-711 | a block is left by COMMIT or ROLLBACK only, and the registries are as before BEGIN unless it was the COMMIT of an unfailed block |
| `Answers.FailureMarksBlock` | src/proxy/session.ts:660-666 | an operation that fails inside a block leaves the session in it with nothing given up; a statement or savepoint makes the block a failed one, anything else does not |
| `Answers.MissMarksBlock` | src/proxy/session.ts:653-661 | a message that goes to Db2 unforeseen with no job fails; inside a block a ROLLBACK TO makes it a failed one |
| `Answers.LeaseUsedExactly` | src/proxy/session.ts:260-337 | of the messages a job is leased for, exactly these go on to Db2; the others are refused or answered without it |
| `Answers.SuccessLeadsOn` | src/proxy/session.ts:339-359 | an operation that succeeds leads to a later one or to the acknowledgement, never to an error |
| `Answers.StatementTakesEffect` | src/proxy/session.ts:907-949 | a statement that succeeded has added to its session's unit of work exactly the write it asks for, under its number, transaction and schema, and to the registries exactly its definition |
| `Answers.SavepointTakesEffect` | src/proxy/session.ts:641-668 | SAVEPOINT, RELEASE and ROLLBACK TO do on the job what they say, under the name they give |
| `Answers.PathTakesEffect` | src/proxy/session.ts:1018-1020 | SET search_path provisions the schema it names, outside blocks only, then makes it the schema of job and session, and does nothing else |
| `Answers.CheckoutTakesEffect` | src/proxy/session.ts:346-352 | a checkout provisions the session's schema, outside blocks only, and makes it the schema of the job; the session stays as it is |
| `Answers.AutocommitTakesEffect` | src/proxy/session.ts:954-958 | a statement outside a block is acknowledged in the span that makes its write durable, and only then |
| `Answers.FailureDooms` | src/proxy/session.ts:958-966 | a failed operation is repeated, under the stated condition and with the attempt counted, or fails the message |
| `Answers.FailureAnswered` | src/proxy/session.ts:204-213 | over every run: after a failed operation that is not repeated, the message's next and only answer is an ErrorResponse |
| `Answers.FailureSendsNoSuccess` | src/proxy/session.ts:694-711 | a span in which an operation fails sends no CommandComplete |
| `Repetition.RunsAtMost` | src/proxy/session.ts:1135-1152 | over every run, the statement of a message runs on Db2 at most once, a SELECT at most once more than the configured retries |
| `WireFrames.Frame` | src/postgres/wire.ts:17-23 | the buffer filled in place is the type, the length counting itself, and the payload |
| `WireFrames.EncodedBytes` | src/postgres/wire.ts:17-23 | the bytes of a frame by position, the length by the weight of each byte |
| `WireFrames.ConsumeFrontendMessages` | src/postgres/wire.ts:128-151 | the offset loop returns the recursive specification's messages, remainder or error |
| `WireFrames.FrontendStream.HandleRaw` | src/proxy/session.ts:189-194 | the buffer grows, and on an error keeps everything and delivers nothing of this event |
| `WireFrames.ChunkingIndependence` | src/postgres/wire.ts:122-151 | any cut gives the messages and remainder of one reading; an error stays an error after a prefix of the frames |
| `WireFrames.FramesExtend` | src/postgres/wire.ts:135-146 | reading more bytes goes on where reading stopped |
| `WireFrames.RemainderBound` | src/postgres/wire.ts:135-150 | the remainder is shorter than a header or than the limit |
| `WireFrames.FinalCheckReachable` | src/postgres/wire.ts:147-149 | the last size check can fire if and only if the limit is below 4 |
| `WireFrames.FrameRoundTrip` | src/postgres/wire.ts:17-23 | frames within the limit are read back exactly, in any cut |
| `WireBytes.ReadCString` | src/postgres/wire.ts:160-164 | a C string is the bytes up to the first zero, which is consumed |
| `WireDecoders.DecodeParse` | src/postgres/wire.ts:167-175 | the loop computes the specified decoding or its error |
| `WireDecoders.DecodeFormats` | src/postgres/wire.ts:189-191 | a counted list of 16-bit codes |
| `WireDecoders.DecodeParameters` | src/postgres/wire.ts:192-198 | values by length word, clamped slices, negative lengths as NULL |
| `WireDecoders.DecodeBind` | src/postgres/wire.ts:184-202 | the loops compute the specified decoding or its error |
| `WireDecoders.ParseExact` | src/postgres/wire.ts:167-175 | a body decodes to a message if and only if it starts with an encoding of it |
| `WireDecoders.BindExact` | src/postgres/wire.ts:184-202 | the same for Bind, for some negative length for each NULL |
| `WireDecoders.BindSlicesInBounds` | src/postgres/wire.ts:193-199 | in a Bind that decodes every parameter is the full slice its length word announces |
| `WireDecoders.DataRow` | src/postgres/wire.ts:56-70 | the row payload, or the writers' range error, exactly when a count or length is out of range |
| `WireDecoders.DataRowBack` | src/postgres/wire.ts:56-70 | a reader of the row gets the values back, NULLs included |
| `Scanners.MatchingParen` | src/sql/translator.ts:481-502 | the first closer that brings the depth back to zero outside quotes, or -1 |
| `Scanners.SplitDefinitionList` | src/sql/ddl-foreign-key.ts:383-411 | the pieces between top-level commas, excess closers ignored |
| `Scanners.SplitTrimmedDefinitions` | src/sql/column-rename.ts:567-592 | the trimmed non-blank pieces, depth not clamped |
| `Scanners.SplitSimpleStatements` | src/proxy/session.ts:2087-2109 | the trimmed non-blank pieces between semicolons outside quotes |
| `Scanners.TrimCuts` | src/sql/column-rename.ts:588-591 | trimming cuts white space off both ends, all of it and nothing else |
| `Scanners.PairSkip` | src/sql/translator.ts:488-497 | skipping a doubled quote leaves the state where toggling twice leaves it |
| `ScannerTheorems.ScannerAgreement` | src/sql/translator.ts:481-532 | inside a matched pair the depth never goes negative, both splitters cut alike, and joining gives the body back |
| `ScannerTheorems.SplitJoined` | src/sql/ddl-foreign-key.ts:383-411 | definitions, or statements, that stand alone are given back by splitting their join: every separator between them is cut and none inside |
| `ScannerTheorems.TrimmedJoined` | src/sql/column-rename.ts:567-592 | the same for the splitters that trim and drop blanks |
| `ScannerTheorems.MatchFound` | src/sql/translator.ts:481-502 | for every level text in parentheses the closer is found, whatever follows |
| `ScannerTheorems.ParenthesesProtect` | src/sql/column-rename.ts:577-585 | a level text in parentheses stands alone, whatever commas it holds |
| `ScannerTheorems.QuotesProtect` | src/sql/column-rename.ts:574-583 | a quoted text with its quotes doubled stands alone, whatever it holds |
| `ScannerTheorems.HasMultipleStatements` | src/sql/translator.ts:641-653 | the loop and final test compute the gate |
| `ScannerTheorems.GateSound` | src/sql/translator.ts:641-653 | with every quote closed, one statement means one statement |
| `ScannerTheorems.GateAdmits` | src/sql/translator.ts:641-653 | a statement that stands alone passes, with or without a semicolon and white space behind |
| `ScannerTheorems.GateExact` | src/sql/translator.ts:641-653 | the exact condition under which the gate is right |
| `ScannerTheorems.GateFooled` | src/sql/translator.ts:641-653 | an open quote lets two statements pass |
| `ScannerTheorems.UppercaseUnquoted` | src/sql/translator.ts:625-639 | letters outside quotes are folded in place, everything else stays |
| `ScannerTheorems.UpperedStable` | src/sql/translator.ts:625-639 | quoted text survives, no lower-case letter remains outside quotes, a second pass changes nothing |
| `ArrayText.ParsePgArrayText` | src/sql/sqlalchemy-reflection.ts:463-479 | the character loop computes the specified list |
| `ArrayText.ParsePrinted` | src/sql/sqlalchemy-reflection.ts:428-430 | parsing a printed list gives it back with each element trimmed |
| `ArrayText.PrintedExact` | src/sql/sqlalchemy-reflection.ts:463-479 | unchanged if and only if no element has surrounding white space |
| `ArrayText.ParseBare` | src/sql/sqlalchemy-reflection.ts:463-479 | a list without quotes is cut at its commas and nowhere else, each element trimmed |
| `AdvisoryLocks.AdvisoryLockTable.TryAdvisoryLock` | src/sql/advisory-lock.ts:79-90 | granted when free or already own, counted; otherwise refused without effect |
| `AdvisoryLocks.AdvisoryLockTable.AdvisoryUnlock` | src/sql/advisory-lock.ts:92-97 | one hold given back, the entry removed with the last |
| `AdvisoryLocks.AdvisoryLockTable.ReleaseAllLocks` | src/sql/advisory-lock.ts:100-108 | the caller's entries are removed and counted, the others stay |
| `AdvisoryLocks.Accounting` | src/sql/advisory-lock.ts:69-108 | for every interleaving the table records each session's balance |
| `AdvisoryLocks.OneOwner` | src/sql/advisory-lock.ts:69-108 | a key has one owner or is absent, absent exactly when all balances are zero |
| `AdvisoryLocks.TryLockExact` | src/sql/advisory-lock.ts:79-90 | a try-lock succeeds if and only if no other session has a balance on the key |
| `AdvisoryLocks.UnlockExact` | src/sql/advisory-lock.ts:92-97 | an unlock succeeds if and only if the session has a balance |
| `AdvisoryLocks.ReleaseAllIsOwn` | src/sql/advisory-lock.ts:100-108 | release-all takes nothing from others |
| `AdvisoryLocks.ClosedOwnsNothing` | src/proxy/session.ts:2003-2012 | a session that released all and calls no more owns nothing ever after |
| `ColumnRename.ReplaceIdentifierReferences` | src/sql/column-rename.ts:422-457 | exactly the identifiers that normalize to the old column are replaced, literals and the rest are copied |
| `ColumnRename.LexRender` | src/sql/column-rename.ts:422-457 | the scan passes over every character once |
| `ColumnRename.IdentifiersWhole` | src/sql/column-rename.ts:440-452 | an identifier stands outside literals and is whole: a quoted name, or a word with no word character behind it |
| `ColumnRename.WordsFound` | src/sql/column-rename.ts:446-452 | no word that begins outside literals and quoted names is missed |
| `Identifiers.UnquotedRegular` | src/sql/column-rename.ts:518-522 | names written without quotes fold to the same name however often they are normalized |
| `Identifiers.QuotedNotRegular` | src/sql/column-rename.ts:518-522 | a quoted lower-case name does not |
| `RenamePlans.PlanRename` | src/sql/column-rename.ts:241-283 | the two passes of the planner compute the specified plan or none |
| `RenamePlans.RenameAccepted` | src/sql/column-rename.ts:241-279 | a rename is accepted if and only if the table has the column and no other column the new name |
| `RenamePlans.SystemNameKept` | src/sql/column-rename.ts:260-268 | the renamed definition, read again, has the new SQL name; FOR COLUMN is absent if and only if that is the system name, and gives the system name where it stands |
| `RenamePlans.AskedColumnRenamed` | src/sql/column-rename.ts:241-283 | the definition rewritten is that of the column asked for if and only if its name is unchanged by a second normalization |
| `RenamePlans.PlanKeeps` | src/sql/column-rename.ts:241-283 | every plan keeps count and order; it changes one name, and it keeps names apart, each exactly under the stated condition on the other definitions |
| `RenamePlans.ProperPlanKeeps` | src/sql/column-rename.ts:241-283 | for stable names that are no keywords it renames the column asked for, nothing else, and keeps names apart |
| `RenamePlans.DuplicateAccepted` | src/sql/column-rename.ts:247-279 | a rename to a quoted lower-case name that another column has is accepted |
| `RenamePlans.RenameThereAndBack` | src/sql/column-rename.ts:241-291 | renaming back restores the definitions if and only if both names are stable under a second normalization and each definition is restorable |
| `RenamePlans.QuotedNameMissed` | src/sql/column-rename.ts:247-248 | asked for a quoted lower-case column the planner rewrites another |
| `DdlRegistry.DdlTableDefinitionRegistry.RegisterCreateTable` | src/sql/column-rename.ts:198-206 | the definition is stored under its key in a new object |
| `DdlRegistry.DdlTableDefinitionRegistry.RegisterAlterAddColumn` | src/sql/column-rename.ts:208-222 | the stored object is edited in place, before the first constraint, and the snapshot is not affected |
| `DdlRegistry.DdlTableDefinitionRegistry.InvalidateAlterSetDataType` | src/sql/column-rename.ts:224-239 | the definition is forgotten |
| `DdlRegistry.DdlTableDefinitionRegistry.CommitColumnRename` | src/sql/column-rename.ts:285-291 | the planned definition replaces the stored one |
| `DdlRegistry.DdlTableDefinitionRegistry.RenameStoredTable` | src/sql/column-rename.ts:293-308 | the definition moves to the new key; unknown tables are reported |
| `DdlRegistry.DdlTableDefinitionRegistry.CloneDefinitions` | src/sql/column-rename.ts:331-333 | every object of the copy is new, every value the same |
| `DdlRegistry.DdlTableDefinitionRegistry.BeginTransaction` | src/sql/column-rename.ts:315-318 | a deep copy is kept, once |
| `DdlRegistry.DdlTableDefinitionRegistry.RollbackTransaction` | src/sql/column-rename.ts:322-326 | the copy becomes the registry |
| `DdlRegistry.RollbackRestores` | src/sql/column-rename.ts:315-326 | whatever commands ran in between, ROLLBACK gives the definitions at BEGIN |
| `DdlRegistry.CommitKeeps` | src/sql/column-rename.ts:315-320 | COMMIT keeps exactly what the commands did |
| `DdlRegistry.TableKeyParts` | src/sql/column-rename.ts:524-526 | two tables have one key if and only if schemas and names agree, for schema names without dots |
| `DdlRegistry.DefinitionStays` | src/sql/column-rename.ts:198-308 | over any commands, a definition stays until its own table is spoken of |
| `DdlRegistry.LastDefinitionFound` | src/sql/column-rename.ts:198-206 | until then the last definition registered or committed is found |
| `DdlRegistry.AddedColumnFound` | src/sql/column-rename.ts:208-222 | an added column stands behind all columns and before all constraints, which stay as they were |
| `DdlRegistry.AlteredForgotten` | src/sql/column-rename.ts:224-239 | a table whose column types were altered is unknown until it is registered again |
| `DdlRegistry.RenamedTableFound` | src/sql/column-rename.ts:293-308 | a renamed table is found under its new name with the definitions it had, under the old one no more |
| `DdlRegistry.RegistryRenameBack` | src/sql/column-rename.ts:241-291 | rename, commit, rename back, commit leaves the whole registry as it was |
| `ForeignKeys.DdlForeignKeyTypeRegistry.AlignCreateTable` | src/sql/ddl-foreign-key.ts:49-89 | the nested loops compute the specified definitions and reports |
| `ForeignKeys.AlignGives` | src/sql/ddl-foreign-key.ts:56-81 | each column gets the first differing parent type in source order |
| `ForeignKeys.OnlyTypesChange` | src/sql/ddl-foreign-key.ts:251-262 | only the types of reported columns change, and the pairs stay the same |
| `ForeignKeys.AlignmentExact` | src/sql/ddl-foreign-key.ts:49-89 | all pairs equal afterwards, and a second alignment reports nothing, if and only if the parents of each column agree |
| `ForeignKeys.FirstParentWins` | src/sql/ddl-foreign-key.ts:58-70 | among conflicting parents the first that differs decides |
| `ForeignKeys.ConflictNeverSettles` | src/sql/ddl-foreign-key.ts:49-89 | with conflicting parents alignment never becomes idempotent |
| `ForeignKeys.ChildFollowsParent` | src/sql/ddl-foreign-key.ts:49-97 | a child column gets the type its referenced column was registered with, whatever was registered of other tables in between |
| `ForeignKeys.DifferentTypes` | src/sql/ddl-foreign-key.ts:308-314 | types in canonical form are equivalent only if they are equal |
| `ForeignKeys.NormalizedCanonical` | src/sql/ddl-foreign-key.ts:308-310 | a normalized type is in upper case, with single blanks inside and none at the ends |
| `ForeignKeys.FoldedMeans` | src/sql/ddl-foreign-key.ts:302-306 | a name means itself in upper case, quoted or not |
| `ForeignKeys.KeyParts` | src/sql/ddl-foreign-key.ts:298-300 | two keys are one if and only if schema, table and column are, for schema and table names without dots |
| `ForeignKeys.RegisteredLookup` | src/sql/ddl-foreign-key.ts:91-97 | after a table has been registered each of its columns is found with the type of its last definition, and no other column of it changes |
| `ForeignKeys.StoredAsDefined` | src/sql/ddl-foreign-key.ts:91-97 | for names that folding twice leaves as they are, that is the definition the parser keeps |
| `ForeignKeys.BlankNameMislaid` | src/sql/ddl-foreign-key.ts:91-97 | a name with a blank inside its quotes is stored under another name |
| `ForeignKeys.TypeStays` | src/sql/ddl-foreign-key.ts:91-111 | over any commands about other tables, a column keeps its registered type |
| `ForeignKeys.DdlForeignKeyTypeRegistry.RegisterCreateTable` | src/sql/ddl-foreign-key.ts:91-97 | every column's normalized type is recorded |
| `ForeignKeys.DdlForeignKeyTypeRegistry.RenameColumn` | src/sql/ddl-foreign-key.ts:104-111 | a known type moves to the new name |
| `ForeignKeys.RenamedColumnBack` | src/sql/ddl-foreign-key.ts:104-111 | renaming back restores the registry when the new name was unknown |
| `ForeignKeys.RenamedLookup` | src/sql/ddl-foreign-key.ts:104-111 | after a rename the type is found under the new name and no longer under the old one; other columns keep theirs |
| `ForeignKeys.DdlForeignKeyTypeRegistry.RollbackTransaction` | src/sql/ddl-foreign-key.ts:154-165 | the types at BEGIN come back |
| `ForeignKeys.RollbackRestores` | src/sql/ddl-foreign-key.ts:154-165 | whatever was registered or renamed in between, ROLLBACK gives the types at BEGIN |

## Left out

- Session lease mode, and the short lease of initialize(): only `transaction` mode and messages are modelled.
- Batches in one Simple Query: one statement per Query; what splits a batch is proved in `ScannerTheorems`.
- A Query body without terminator and other malformed message bodies inside a session: the decoders' errors are modelled, their effect on the session is that of any failing message.
- Prepared statement and portal names: a message carries the statement it resolves to, so a re-Parse that changes a bound portal is not modelled.
- PostgreSQL, pgAdmin and SQLAlchemy query recognition: statements arrive classified as answered locally, from the live catalog, or by Db2.
- Regex rewrites of the translator, LOB policies and result rendering: nothing in the repository says what they preserve.
- Db2 beyond schema, pending writes and savepoints: locks, isolation and row contents; an operation takes effect as a whole or not at all, and the object-stabilization retries count as one operation.
- The capability refresh after CREATE SCHEMA and the schema capability cache: they read, and decide only whether an operation fails.
- Socket, TLS, startup, HTTP health, logging, configuration: I/O; the starting size is taken to be at most the maximum, as configuration enforces.
- Timers as real time: a timeout is one possible action of a waiter.
- Liveness of waiters: a waiter is not woken when capacity frees without a hand-over, so none is claimed.
- UTF-8 decoding and Unicode case folding: C strings are bytes, folding is ASCII.
- Registry renames of whole tables in the foreign-key registry, and ALTER statements that record a column type there: easy members.
- Blanks between the tokens of a definition: dropped in `RenamePlans` and `ForeignKeys`; the character loop keeps them.
- SessionJobPools.SessionJobPool.AcquireConnected: leaves out the microtask between giving the reservation back and registering the job, because the cap needs the two to be one step.
- PoolingTheorems.ExclusiveLease: the clause that every registered job is idle or with one session is stated before shutdown only, because end() closes jobs that sessions still hold.
- TransactionTheorems.SearchPathRestored: says what the session's schema becomes; that the job's schema equals it at every statement is StatementsRunPrivately.
- TransactionTheorems.RegistryFollowsBlock: sees a registry as the list of definitions recorded; deep values and aliasing are in DdlRegistry.
- Repetition.RunsAtMost: counts the repetitions while Db2 stabilizes an object (src/proxy/session.ts:1154-1173) as one run, because they are one operation here.
- ClientLedger.LedgerExact: does not see that CREATE SCHEMA can be durable and still be answered by an error when the capability refresh after its COMMIT fails (src/proxy/session.ts:1866-1869), because that refresh is left out.
- ForeignKeys.KeyParts: needs schema and table names without dots, because the keys of the source do too: a dot inside a quoted name is not told from the one between names.
- ROLLBACK TO SAVEPOINT does not rewind the registries and DROP is not tracked: no claim equates a registry with the catalog.
- WireDecoders.BindExact: any negative length stands for NULL, as in the code; the documentation names only -1.
- Conversation.ReadyForQueryDiscipline: covers the answers to messages, because a framing error is answered outside every message (src/proxy/session.ts:216-220); that one ErrorResponse belongs to no message and can come while messages are skipped.
- PoolingTheorems.CapAndQueue: rests on the hand-over of a new connection being one step, because in the gap it is false (GapBreaksCap).
- OverlappingClose.TwoSessionsOneJob: follows the two sessions up to the write; afterwards no claim is made about either, because the invariant is broken.
- OverlappingClose.OverlappingCloseExact: follows the closed session's handler under any answers of the pool and of Db2, because the rest of the system cannot be seen from it.
- ProxySessions.ProxySession.MessageNeedsBackend: sees one statement per Query, because batches are left out.
- ProxySessions.ProxySession.ExecuteSql: has no kind of its own for an index that the LOB policy skips, because such a statement goes the way of one answered from the live catalog.
- ProxySessions.ProxySession.CloseSession: leaves the release of advisory locks to AdvisoryLocks.ClosedOwnsNothing, because the lock table is shared by all sessions.
- ProxySessions.ProxySession.OperationFailed: counts the catch clause's vain currentJob() of a repeated read when the checkout fails, because nothing between that and the call can avert it.
- WireBytes.ReadCString: returns bytes, because UTF-8 decoding is left out.
- WireDecoders.DataRow: takes values as bytes, because the rendering of values is left out.
- ColumnRename.ReplaceIdentifierReferences: folds ASCII letters only, because Unicode case folding is left out.
- RenamePlans.PlanRename: works on the token lists of the definitions, because the text before and after them and the blanks between tokens are only copied.
- DdlRegistry.DdlTableDefinitionRegistry.RenameStoredTable: does not rewrite the relation name inside the stored text, because a stored definition is its list of column definitions here.
- ForeignKeys.DdlForeignKeyTypeRegistry.AlignCreateTable: takes parsed definitions and reports index and type, because the rewritten text is a matter of the scanners.
