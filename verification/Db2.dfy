/**
 The part of a Db2 for i job that the proxy's session handling relies on: one
 CURRENT SCHEMA register, one unit of work that is not yet durable, and the
 savepoints set inside that unit of work.  Db2 itself is not modelled further:
 an operation either takes effect as a whole or fails and leaves the job alone.
 */
module Db2 {
  /** A row of the committed store.  `txn` is a history tag: it numbers the
      PostgreSQL transactions (explicit or implicit) of one session. */
  datatype Write =
    | AppWrite(session: nat, txn: nat, schema: string, stmt: nat)
    | SchemaCreated(schema: string)

  /** A savepoint remembers how much of the unit of work preceded it. */
  datatype Savepoint = Savepoint(name: string, at: nat)

  datatype Job = Job(schema: string, pending: seq<Write>, marks: seq<Savepoint>)

  datatype Op =
    | Query
    | SetSchema(schema: string)
    | Insert(session: nat, txn: nat, stmt: nat)
    | CreateMissingSchema(schema: string)
    | Commit
    | Rollback
    | SetSavepoint(name: string)
    | ReleaseSavepoint(name: string)
    | RollbackTo(name: string)

  datatype Effect = Rejected | Applied(job: Job, durable: seq<Write>)

  /** Position of the innermost savepoint called `name`, or -1. */
  function FindMark(marks: seq<Savepoint>, name: string): (k: int)
    ensures -1 <= k < |marks|
    ensures k >= 0 ==> marks[k].name == name
  {
    if marks == [] then -1
    else if marks[|marks| - 1].name == name then |marks| - 1
    else FindMark(marks[..|marks| - 1], name)
  }

  function Take(pending: seq<Write>, n: nat): seq<Write> {
    if n <= |pending| then pending[..n] else pending
  }

  predicate Clean(job: Job) {
    job.pending == [] && job.marks == []
  }

  function Perform(job: Job, op: Op): Effect {
    match op
    case Query => Applied(job, [])
    case SetSchema(schema) => Applied(job.(schema := schema), [])
    case Insert(session, txn, stmt) =>
      Applied(job.(pending := job.pending + [AppWrite(session, txn, job.schema, stmt)]), [])
    case CreateMissingSchema(schema) =>
      Applied(job.(pending := job.pending + [SchemaCreated(schema)]), [])
    case Commit => Applied(job.(pending := [], marks := []), job.pending)
    case Rollback => Applied(job.(pending := [], marks := []), [])
    case SetSavepoint(name) =>
      Applied(job.(marks := job.marks + [Savepoint(name, |job.pending|)]), [])
    case ReleaseSavepoint(name) =>
      var k := FindMark(job.marks, name);
      if k < 0 then Rejected else Applied(job.(marks := job.marks[..k]), [])
    case RollbackTo(name) =>
      var k := FindMark(job.marks, name);
      if k < 0 then Rejected
      else Applied(job.(pending := Take(job.pending, job.marks[k].at), marks := job.marks[..k + 1]), [])
  }
}
