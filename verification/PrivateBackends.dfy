/**
 The specification that transaction pooling has to meet: every session owns a
 backend of its own, which nobody else touches.  The only thing sessions share
 is the committed store.  A session is described by what its client can
 observe; where its unit of work lives is not said.
 */
module PrivateBackends {
  import opened Wrappers
  import opened JobPool
  import Db2

  /** Explicit: between BEGIN and the end of the block.  Auto: one autocommit statement. */
  datatype Phase = Idle | Auto | Explicit

  datatype Backend = Backend(
    schema: string,
    phase: Phase,
    failed: bool,
    txn: nat,
    pending: seq<Db2.Write>,
    marks: seq<Db2.Savepoint>,
    saved: Option<string>     // schema to return to at the end of the block
  )

  datatype World = World(backends: seq<Backend>, committed: seq<Db2.Write>)

  datatype Step =
    | Stutter
    | OpenBlock
    | OpenAuto
    | Run(stmt: nat)
    | ProvideSchema(name: string)
    | SavepointOp(op: Db2.Op)
    | Poison
    | Commit(restore: bool)
    | Discard(restore: bool)
    | SaveSchema
    | ChangeSchema(name: string)
    | RestoreSaved
    | ForgetSaved
    | Leave

  function AsJob(b: Backend): Db2.Job { Db2.Job(b.schema, b.pending, b.marks) }

  predicate Allowed(b: Backend, step: Step) {
    match step
    case Stutter => true
    case OpenBlock => b.phase.Idle? && b.pending == [] && b.marks == []
    case OpenAuto => b.phase.Idle? && b.pending == [] && b.marks == []
    case Run(_) => !b.phase.Idle?
    case ProvideSchema(_) => b.phase.Idle?
    case SavepointOp(op) =>
      b.phase.Explicit? && (op.SetSavepoint? || op.ReleaseSavepoint? || op.RollbackTo?)
      && Db2.Perform(AsJob(b), op).Applied?
    case Poison => b.phase.Explicit?
    case Commit(restore) => !b.failed && (restore ==> b.saved.Some?)
    case Discard(restore) => restore ==> b.saved.Some?
    case SaveSchema => b.phase.Explicit? && b.saved.None?
    case ChangeSchema(_) => !b.phase.Auto?
    case RestoreSaved => b.phase.Idle? && b.saved.Some?
    case ForgetSaved => b.phase.Idle?
    case Leave => true
  }

  function Restored(b: Backend, restore: bool): Backend
    requires restore ==> b.saved.Some?
  {
    if restore then b.(schema := b.saved.value, saved := None) else b
  }

  /** Session `who` steps on its own backend; the second result becomes durable. */
  function Take(who: SessionId, b: Backend, step: Step): (Backend, seq<Db2.Write>)
    requires Allowed(b, step)
  {
    match step
    case Stutter => (b, [])
    case OpenBlock => (b.(phase := Explicit, txn := b.txn + 1), [])
    case OpenAuto => (b.(phase := Auto, txn := b.txn + 1), [])
    case Run(stmt) => (b.(pending := b.pending + [Db2.AppWrite(who, b.txn, b.schema, stmt)]), [])
    case ProvideSchema(name) => (b.(pending := b.pending + [Db2.SchemaCreated(name)]), [])
    case SavepointOp(op) =>
      var job := Db2.Perform(AsJob(b), op).job;
      (b.(pending := job.pending, marks := job.marks, failed := b.failed && !op.RollbackTo?), [])
    case Poison => (b.(failed := true), [])
    case Commit(restore) => (Restored(b.(phase := Idle, pending := [], marks := []), restore), b.pending)
    case Discard(restore) => (Restored(b.(phase := Idle, failed := false, pending := [], marks := []), restore), [])
    case SaveSchema => (b.(saved := Some(b.schema)), [])
    case ChangeSchema(name) => (b.(schema := name), [])
    case RestoreSaved => (b.(schema := b.saved.value, saved := None), [])
    case ForgetSaved => (b.(saved := None), [])
    case Leave => (b.(phase := Idle, failed := false, pending := [], marks := [], saved := None), [])
  }

  predicate CanAdvance(w: World, who: SessionId, step: Step) {
    who < |w.backends| && Allowed(w.backends[who], step)
  }

  function Advance(w: World, who: SessionId, step: Step): World
    requires CanAdvance(w, who, step)
  {
    var (b, durable) := Take(who, w.backends[who], step);
    World(w.backends[who := b], w.committed + durable)
  }

  /** Transaction numbers only grow, and a block is entered only under a new number. */
  lemma TakeGrows(who: SessionId, b: Backend, step: Step)
    requires Allowed(b, step)
    ensures var c := Take(who, b, step).0;
      c.txn >= b.txn && (c.phase.Explicit? && c.txn == b.txn ==> b.phase.Explicit?)
  {
  }

  /** A saved schema stays until it is restored, given up or abandoned. */
  lemma TakeKeepsSaved(who: SessionId, b: Backend, step: Step)
    requires Allowed(b, step)
    ensures var c := Take(who, b, step).0;
      && (step.SaveSchema? ==> b.saved == None && c.saved == Some(b.schema) && c.schema == b.schema)
      && (b.saved.Some? ==>
            c.saved == b.saved
            || (c.saved == None && (c.schema == b.saved.value || step.ForgetSaved? || step.Leave?)))
  {
  }

  // ---- atomic durability, for the specification ----

  predicate BelongsTo(w: Db2.Write, who: SessionId, txn: nat) {
    w.AppWrite? && w.session == who && w.txn == txn
  }

  /** The writes of one transaction of one session. */
  function OfTxn(ws: seq<Db2.Write>, who: SessionId, txn: nat): (rs: seq<Db2.Write>)
    ensures rs != [] ==> exists k :: 0 <= k < |ws| && BelongsTo(ws[k], who, txn)
  {
    if ws == [] then []
    else
      OfTxn(ws[..|ws| - 1], who, txn) + if BelongsTo(ws[|ws| - 1], who, txn) then [ws[|ws| - 1]] else []
  }

  lemma {:induction false} OfTxnConcat(xs: seq<Db2.Write>, ys: seq<Db2.Write>, who: SessionId, txn: nat)
    ensures OfTxn(xs + ys, who, txn) == OfTxn(xs, who, txn) + OfTxn(ys, who, txn)
  {
    hide BelongsTo;
    if ys == [] {
      assert xs + ys == xs;
    } else {
      var front := ys[..|ys| - 1];
      OfTxnConcat(xs, front, who, txn);
      assert (xs + ys)[..|xs + ys| - 1] == xs + front;
      assert (xs + ys)[|xs + ys| - 1] == ys[|ys| - 1];
      assert OfTxn(xs + ys, who, txn) ==
        OfTxn(xs + front, who, txn) + if BelongsTo(ys[|ys| - 1], who, txn) then [ys[|ys| - 1]] else [];
    }
  }

  /** Pending writes are the owner's own, and a transaction that can still write has nothing durable. */
  ghost predicate Sound(w: World) {
    && (forall i, k :: 0 <= i < |w.backends| && 0 <= k < |w.backends[i].pending| && w.backends[i].pending[k].AppWrite? ==>
          w.backends[i].pending[k].session == i && w.backends[i].pending[k].txn == w.backends[i].txn
          && !w.backends[i].phase.Idle?)
    && (forall k :: 0 <= k < |w.committed| && w.committed[k].AppWrite? ==>
          var c := w.committed[k];
          c.session < |w.backends| &&
          var b := w.backends[c.session];
          c.txn < b.txn || (c.txn == b.txn && b.phase.Idle?))
  }

  lemma AdvanceSound(w: World, who: SessionId, step: Step)
    requires Sound(w) && CanAdvance(w, who, step)
    ensures Sound(Advance(w, who, step))
  {
    var b := w.backends[who];
    var (c, durable) := Take(who, b, step);
    var v := Advance(w, who, step);
    assert forall k :: 0 <= k < |c.pending| && c.pending[k].AppWrite? ==>
      c.pending[k].session == who && c.pending[k].txn == c.txn && !c.phase.Idle?;
    assert durable == [] || durable == b.pending;
    forall k | 0 <= k < |v.committed| && v.committed[k].AppWrite?
      ensures v.committed[k].session < |v.backends|
      ensures var d := v.backends[v.committed[k].session];
        v.committed[k].txn < d.txn || (v.committed[k].txn == d.txn && d.phase.Idle?)
    {
      if k < |w.committed| {
        assert v.committed[k] == w.committed[k];
      } else {
        assert v.committed[k] == b.pending[k - |w.committed|];
      }
    }
  }

  /** A transaction with something durable never gets anything more. */
  lemma DurableOnce(w: World, who: SessionId, step: Step, i: SessionId, txn: nat)
    requires Sound(w) && CanAdvance(w, who, step)
    requires OfTxn(w.committed, i, txn) != []
    ensures OfTxn(Advance(w, who, step).committed, i, txn) == OfTxn(w.committed, i, txn)
  {
    var durable := Take(who, w.backends[who], step).1;
    OfTxnConcat(w.committed, durable, i, txn);
    var k :| 0 <= k < |w.committed| && BelongsTo(w.committed[k], i, txn);
    assert OfTxn(durable, i, txn) == [];
  }

  /** What a session makes durable is nobody else's. */
  lemma DurableIsOwn(w: World, who: SessionId, step: Step, i: SessionId, txn: nat)
    requires Sound(w) && CanAdvance(w, who, step) && i != who
    ensures OfTxn(Take(who, w.backends[who], step).1, i, txn) == []
  {
    var durable := Take(who, w.backends[who], step).1;
    assert durable == [] || durable == w.backends[who].pending;
  }

  /** What becomes durable is the whole unit of work of an unfailed session. */
  lemma DurableTogether(w: World, who: SessionId, step: Step)
    requires CanAdvance(w, who, step)
    requires Advance(w, who, step).committed != w.committed
    ensures step.Commit? && !w.backends[who].failed
    ensures Advance(w, who, step).committed == w.committed + w.backends[who].pending
    ensures Advance(w, who, step).backends[who].pending == []
  {
  }
}
