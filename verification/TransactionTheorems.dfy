/**
 Transactions over whole runs: each session behaves as if it were alone, works
 on one job per block, and gets its proxy state back when the block is undone.
 */
module TransactionTheorems {
  import opened Wrappers
  import opened JobPool
  import opened Sessions
  import opened SessionInvariant
  import opened LeaseProtocol
  import opened LeaseInvariant
  import opened Refinement
  import opened TransactionBlocks
  import opened PoolingTheorems
  import PB = PrivateBackends
  import Db2

  // ---- as if alone ----

  /** What the first k actions are for session `i`. */
  ghost function OwnSteps(run: seq<System>, acts: seq<Action>, cfg: Config, i: SessionId, k: nat): seq<PB.Step>
    requires IsRun(run, acts, cfg) && k < |run|
  {
    if k == 0 then []
    else
      var S := run[k - 1]; var a := acts[k - 1];
      OwnSteps(run, acts, cfg, i, k - 1) + OwnStep(S, cfg, a, i)
  }

  function OwnStep(S: System, cfg: Config, a: Action, i: SessionId): seq<PB.Step>
    requires Enabled(S, a)
  {
    if (SessionAction(S, a) || a.OpSettled?) && a.who == i then [Shadow(S, cfg, a)] else []
  }

  datatype Solo = Stuck | Alone(backend: PB.Backend, durable: seq<Db2.Write>)

  /** One session, one backend, nobody else. */
  function Play(i: SessionId, b: PB.Backend, steps: seq<PB.Step>): Solo {
    if steps == [] then Alone(b, [])
    else
      var last := steps[|steps| - 1];
      match Play(i, b, steps[..|steps| - 1])
      case Stuck => Stuck
      case Alone(c, durable) =>
        if !PB.Allowed(c, last) then Stuck
        else
          var (d, more) := PB.Take(i, c, last);
          Alone(d, durable + more)
  }

  lemma PlayOne(i: SessionId, b: PB.Backend, steps: seq<PB.Step>, last: PB.Step)
    ensures Play(i, b, steps + [last]) ==
      match Play(i, b, steps)
      case Stuck => Stuck
      case Alone(c, durable) =>
        if !PB.Allowed(c, last) then Stuck
        else Alone(PB.Take(i, c, last).0, durable + PB.Take(i, c, last).1)
  {
    assert (steps + [last])[..|steps + [last]| - 1] == steps;
    hide PB.Take, PB.Allowed;
  }

  lemma SoloStep(w: PB.World, who: SessionId, step: PB.Step, i: SessionId, durable: seq<Db2.Write>, txn: nat)
    requires PB.Sound(w) && PB.CanAdvance(w, who, step) && i < |w.backends|
    requires PB.OfTxn(w.committed, i, txn) == PB.OfTxn(durable, i, txn)
    ensures var v := PB.Advance(w, who, step); var own := PB.Take(who, w.backends[who], step);
      && i < |v.backends|
      && v.backends[i] == (if who == i then own.0 else w.backends[i])
      && PB.OfTxn(v.committed, i, txn) == PB.OfTxn(if who == i then durable + own.1 else durable, i, txn)
  {
    var more := PB.Take(who, w.backends[who], step).1;
    PB.OfTxnConcat(w.committed, more, i, txn);
    PB.OfTxnConcat(durable, more, i, txn);
    if who != i { PB.DurableIsOwn(w, who, step, i, txn); }
    hide PB.Take, PB.Allowed, PB.OfTxn, PB.Sound;
  }

  /** `solo` is what `i` observes in `w` and what its transaction `txn` has made durable there. */
  ghost predicate SoloFits(w: PB.World, i: SessionId, solo: Solo, txn: nat) {
    && i < |w.backends| && solo.Alone? && solo.backend == w.backends[i]
    && PB.OfTxn(w.committed, i, txn) == PB.OfTxn(solo.durable, i, txn)
  }

  lemma SoloAction(S: System, cfg: Config, a: Action, T: System, i: SessionId, b: PB.Backend, steps: seq<PB.Step>, txn: nat)
    requires Enabled(S, a) && PrivateStep(S, cfg, a, T) && PB.Sound(View(S))
    requires SoloFits(View(S), i, Play(i, b, steps), txn)
    ensures SoloFits(View(T), i, Play(i, b, steps + OwnStep(S, cfg, a, i)), txn)
  {
    hide View, Shadow, PB.Take, PB.Allowed, PB.OfTxn, PB.Sound, PB.Advance, Play, Next;
    if SessionAction(S, a) || a.OpSettled? {
      SoloStep(View(S), a.who, Shadow(S, cfg, a), i, Play(i, b, steps).durable, txn);
      if a.who == i { PlayOne(i, b, steps, Shadow(S, cfg, a)); } else { assert steps + [] == steps; }
    } else {
      assert steps + [] == steps;
    }
  }

  lemma OwnStepsNext(run: seq<System>, acts: seq<Action>, cfg: Config, i: SessionId, k: nat)
    requires IsRun(run, acts, cfg) && 0 < k < |run|
    ensures |run| == |acts| + 1 && Enabled(run[k - 1], acts[k - 1])
    ensures OwnSteps(run, acts, cfg, i, k) ==
            OwnSteps(run, acts, cfg, i, k - 1) + OwnStep(run[k - 1], cfg, acts[k - 1], i)
  {
    hide Enabled, OwnStep, Next;
  }

  lemma StartsAlone(run: seq<System>, acts: seq<Action>, cfg: Config, i: SessionId, txn: nat)
    requires IsRun(run, acts, cfg) && i < |run[0].sessions|
    ensures SoloFits(View(run[0]), i, Play(i, View(run[0]).backends[i], OwnSteps(run, acts, cfg, i, 0)), txn)
  {
    StartsEmpty(run, acts, cfg);
    hide IsRun, View;
  }

  /**
   Whatever the others do meanwhile, what session `i` observes at any time, and
   what its transactions have made durable, is what its own steps give on a
   backend of its own.
   */
  lemma {:induction false} AsIfAlone(run: seq<System>, acts: seq<Action>, cfg: Config, i: SessionId, k: nat, txn: nat)
    requires IsRun(run, acts, cfg) && k < |run| && i < |run[0].sessions|
    ensures SoloFits(View(run[k]), i, Play(i, View(run[0]).backends[i], OwnSteps(run, acts, cfg, i, k)), txn)
  {
    hide IsRun, PB.Sound, PrivateStep, SoloFits, Play, OwnStep, OwnSteps, Enabled;
    if k == 0 {
      StartsAlone(run, acts, cfg, i, txn);
    } else {
      OwnStepsNext(run, acts, cfg, i, k);
      AsIfAlone(run, acts, cfg, i, k - 1, txn);
      RunSound(run, acts, cfg, k - 1);
      StepRefines(run, acts, cfg, k - 1);
      SoloAction(run[k - 1], cfg, acts[k - 1], run[k], i, View(run[0]).backends[i],
                 OwnSteps(run, acts, cfg, i, k - 1), txn);
    }
  }

  lemma StartsEmpty(run: seq<System>, acts: seq<Action>, cfg: Config)
    requires IsRun(run, acts, cfg)
    ensures View(run[0]).committed == []
  {
  }

  // ---- the block of a session through the actions of everybody ----

  function StepOf(S: System, cfg: Config, a: Action, i: SessionId): PB.Step
    requires Enabled(S, a)
  {
    if (SessionAction(S, a) || a.OpSettled?) && a.who == i then Shadow(S, cfg, a) else PB.Stutter
  }

  /**
   The action makes session `i` call currentJob() without a job: an unforeseen
   message, or the re-lease of a retried read that is refused or not checked out.
   (A failed checkout counts when it fails; the call follows once the job is
   invalidated, and nothing on the way can avert it.)
   */
  predicate JobMissed(S: System, a: Action, i: SessionId)
    requires Enabled(S, a) && i < |S.sessions|
  {
    var pc := S.sessions[i].pc;
    match a
    case Receiving(who, m) => who == i && Missed(S.sessions[i], m)
    case LeaseRefused(who) => who == i && pc.mode.Retry?
    case OpSettled(who, ok, _, _) => who == i && !ok && Replaying(pc) && pc.at.mode.Retry?
    case _ => false
  }

  lemma OwnSpanBlock(S: System, cfg: Config, a: Action)
    requires Inv(S, cfg) && SessionAction(S, a)
    ensures a.who < |Next(S, cfg, a).sessions|
    ensures var s := S.sessions[a.who]; var t := Next(S, cfg, a).sessions[a.who];
      && BlockOk(s, Shadow(S, cfg, a), t)
      && t.missing == s.missing + if JobMissed(S, a, a.who) then 1 else 0
  {
    hide Inv, Receive, ReceiveStep, Begun, BegunStep, Settle, Missed, WellFormed, BlockOk;
    var s := S.sessions[a.who];
    WellFormedSession(S, cfg, a.who);
    match a {
      case Receiving(_, m) => PredictionExact(s, m);
      case BodyStarting(_) => BegunBlock(s);
      case LeaseRefused(_) => DeniedBlock(s);
      case LeaseTaken(_) => TakenBlock(s);
      case SocketClosing(_) => CloseBlock(s);
    }
  }

  lemma WellFormedSession(S: System, cfg: Config, i: SessionId)
    requires Inv(S, cfg) && i < |S.sessions|
    ensures WellFormed(S.sessions[i])
  {
    assert SessionOk(S, i);
    hide WellFormed, Fits;
  }

  lemma DeniedBlock(s: Session)
    requires s.pc.Refused?
    ensures BlockOk(s, PB.Stutter, LeaseDenied(s))
    ensures LeaseDenied(s).missing == s.missing + if s.pc.mode.Retry? then 1 else 0
  {
    hide Settle;
    SettleShape(Abandoned(s, s.pc.mode), s.pc.m, false);
  }

  lemma TakenBlock(s: Session)
    requires s.pc.Granted? && WellFormed(s)
    ensures BlockOk(s, PB.Stutter, TakeLease(s)) && TakeLease(s).missing == s.missing
  {
  }

  lemma CloseBlock(s: Session)
    ensures BlockOk(s, PB.Leave, Close(s)) && Close(s).missing == s.missing
  {
  }

  lemma SettledBlock(S: System, cfg: Config, i: SessionId, ok: bool, transport: bool, creates: bool)
    requires Inv(S, cfg) && Enabled(S, OpSettled(i, ok, transport, creates))
    ensures i < |DoOp(S, cfg, i, ok, transport, creates).sessions|
    ensures var a := OpSettled(i, ok, transport, creates);
      var s := S.sessions[i]; var t := DoOp(S, cfg, i, ok, transport, creates).sessions[i];
      && BlockOk(s, Shadow(S, cfg, a), t)
      && t.missing == s.missing + if JobMissed(S, a, i) then 1 else 0
  {
    hide Inv, Resume, OpDone, OpFailed, OpAt, Db2.Perform, WellFormed, BlockOk;
    var s := S.sessions[i];
    WellFormedSession(S, cfg, i);
    if Replaying(s.pc) { CheckoutApplies(s, i, creates, S.jobs[s.job.value]); }
    OpBlock(s, i, creates, cfg.retries);
    FailedOpBlock(s, transport, cfg.retries);
  }

  /** Db2 refuses nothing that a checkout asks. */
  lemma CheckoutApplies(s: Session, who: SessionId, creates: bool, job: Db2.Job)
    requires Replaying(s.pc)
    ensures Db2.Perform(job, OpAt(s, who, s.pc.m, s.pc.at, creates)).Applied?
  {
  }

  lemma OwnActionBlock(S: System, cfg: Config, a: Action)
    requires Inv(S, cfg) && Enabled(S, a) && (SessionAction(S, a) || a.OpSettled?)
    ensures a.who < |Next(S, cfg, a).sessions|
    ensures var s := S.sessions[a.who]; var t := Next(S, cfg, a).sessions[a.who];
      && BlockOk(s, Shadow(S, cfg, a), t)
      && t.missing == s.missing + if JobMissed(S, a, a.who) then 1 else 0
  {
    hide Inv, DoOp, Shadow, JobMissed, BlockOk;
    if a.OpSettled? {
      SettledBlock(S, cfg, a.who, a.ok, a.transport, a.creates);
    } else {
      hide Next;
      OwnSpanBlock(S, cfg, a);
    }
  }

  lemma ActionBlock(S: System, cfg: Config, a: Action, i: SessionId)
    requires Inv(S, cfg) && Enabled(S, a) && i < |S.sessions|
    ensures i < |Next(S, cfg, a).sessions|
    ensures var s := S.sessions[i]; var t := Next(S, cfg, a).sessions[i];
      && BlockOk(s, StepOf(S, cfg, a, i), t)
      && t.missing == s.missing + if JobMissed(S, a, i) then 1 else 0
  {
    if SessionAction(S, a) || a.OpSettled? {
      OwnActionBlock(S, cfg, a);
      BystanderStays(S, cfg, a, i);
    } else {
      PoolUntouched(S, cfg, a, i);
    }
    hide Next, Inv, Shadow, Missed;
  }

  // ---- one job per block ----

  /** The session is open and inside its transaction block number `txn`. */
  predicate InBlock(s: Session, txn: nat) { s.inTxn && !s.closed && s.txn == txn }

  lemma RunNext(run: seq<System>, acts: seq<Action>, cfg: Config, k: nat)
    requires IsRun(run, acts, cfg) && k < |run| - 1
    ensures |run| == |acts| + 1 && Enabled(run[k], acts[k]) && run[k + 1] == Next(run[k], cfg, acts[k])
  {
    hide Enabled, Next, Initial;
  }

  lemma {:induction false} SameSize(run: seq<System>, acts: seq<Action>, cfg: Config, k: nat)
    requires IsRun(run, acts, cfg) && k < |run|
    ensures |run[k].sessions| == |run[0].sessions|
  {
    if k > 0 {
      SameSize(run, acts, cfg, k - 1);
      RunNext(run, acts, cfg, k - 1);
      hide IsRun, Next, Enabled;
      SizeKept(run[k - 1], cfg, acts[k - 1]);
    }
  }

  lemma SessionInView(S: System, i: SessionId)
    requires i < |S.sessions|
    ensures View(S).backends[i].txn == S.sessions[i].txn
    ensures View(S).backends[i].phase.Explicit? <==> S.sessions[i].inTxn && !S.sessions[i].closed
    ensures View(S).backends[i].schema == S.sessions[i].schema
  {
  }

  /** What any single action does to what session `i` observes. */
  lemma ObservedStep(run: seq<System>, acts: seq<Action>, cfg: Config, i: SessionId, k: nat)
    requires IsRun(run, acts, cfg) && k < |acts| && i < |run[0].sessions|
    ensures |run| == |acts| + 1 && Enabled(run[k], acts[k])
    ensures |run[k].sessions| == |run[k + 1].sessions| == |run[0].sessions|
    ensures i < |View(run[k]).backends| && i < |View(run[k + 1]).backends|
    ensures var b := View(run[k]).backends[i]; var step := StepOf(run[k], cfg, acts[k], i);
      PB.Allowed(b, step) && View(run[k + 1]).backends[i] == PB.Take(i, b, step).0
  {
    SameSize(run, acts, cfg, k);
    SameSize(run, acts, cfg, k + 1);
    StepRefines(run, acts, cfg, k);
    hide View, Shadow, Next, Initial, PB.Allowed;
  }

  /** Transaction numbers only grow, and a block is entered only under a new number. */
  lemma StepGrows(run: seq<System>, acts: seq<Action>, cfg: Config, i: SessionId, k: nat)
    requires IsRun(run, acts, cfg) && k < |acts| && i < |run[0].sessions|
    ensures |run[k].sessions| == |run[k + 1].sessions| == |run[0].sessions|
    ensures var s := run[k].sessions[i]; var t := run[k + 1].sessions[i];
      t.txn >= s.txn && (InBlock(t, s.txn) ==> InBlock(s, s.txn))
  {
    ObservedStep(run, acts, cfg, i, k);
    SessionInView(run[k], i);
    SessionInView(run[k + 1], i);
    hide View, IsRun, StepOf, PB.Allowed, PB.Take;
    PB.TakeGrows(i, View(run[k]).backends[i], StepOf(run[k], cfg, acts[k], i));
  }

  lemma BlockStep(run: seq<System>, acts: seq<Action>, cfg: Config, i: SessionId, k: nat)
    requires IsRun(run, acts, cfg) && k < |acts| && i < |run[0].sessions|
    ensures |run| == |acts| + 1 && Enabled(run[k], acts[k])
    ensures |run[k].sessions| == |run[k + 1].sessions| == |run[0].sessions|
    ensures BlockOk(run[k].sessions[i], StepOf(run[k], cfg, acts[k], i), run[k + 1].sessions[i])
    ensures run[k + 1].sessions[i].missing == run[k].sessions[i].missing
      + if JobMissed(run[k], acts[k], i) then 1 else 0
  {
    SameSize(run, acts, cfg, k);
    SameSize(run, acts, cfg, k + 1);
    RunInv(run, acts, cfg, k);
    ActionBlock(run[k], cfg, acts[k], i);
    hide Next, BlockOk, JobMissed, Inv, Initial, StepOf;
  }

  lemma RunLength(run: seq<System>, acts: seq<Action>, cfg: Config)
    requires IsRun(run, acts, cfg)
    ensures |run| == |acts| + 1
  {
  }

  lemma {:induction false} TxnMonotone(run: seq<System>, acts: seq<Action>, cfg: Config, i: SessionId, k: nat, l: nat)
    requires IsRun(run, acts, cfg) && k <= l < |run| && i < |run[0].sessions|
    ensures |run[k].sessions| == |run[l].sessions| == |run[0].sessions|
    ensures run[k].sessions[i].txn <= run[l].sessions[i].txn
  {
    hide IsRun;
    RunLength(run, acts, cfg);
    SameSize(run, acts, cfg, k);
    SameSize(run, acts, cfg, l);
    if k < l {
      TxnMonotone(run, acts, cfg, i, k, l - 1);
      StepGrows(run, acts, cfg, i, l - 1);
    }
  }

  /** A session in the same block at two times was in it all the time between. */
  lemma {:induction false} BlockThroughout(run: seq<System>, acts: seq<Action>, cfg: Config, i: SessionId, k: nat, m: nat, l: nat)
    requires IsRun(run, acts, cfg) && k <= m <= l < |run| && i < |run[0].sessions|
    requires |run[k].sessions| == |run[l].sessions| == |run[0].sessions|
    requires InBlock(run[l].sessions[i], run[k].sessions[i].txn)
    ensures |run[m].sessions| == |run[0].sessions|
    ensures InBlock(run[m].sessions[i], run[k].sessions[i].txn)
    decreases l - m
  {
    hide IsRun;
    RunLength(run, acts, cfg);
    SameSize(run, acts, cfg, m);
    if m < l {
      BlockThroughout(run, acts, cfg, i, k, m + 1, l);
      TxnMonotone(run, acts, cfg, i, k, m);
      StepGrows(run, acts, cfg, i, m);
    }
  }

  lemma {:induction false} StaysOnJob(run: seq<System>, acts: seq<Action>, cfg: Config, i: SessionId, k: nat, l: nat)
    requires IsRun(run, acts, cfg) && k <= l < |run| && i < |run[0].sessions|
    requires |run[k].sessions| == |run[l].sessions| == |run[0].sessions|
    requires InBlock(run[l].sessions[i], run[k].sessions[i].txn)
    requires run[k].sessions[i].job.Some? && !Replaying(run[k].sessions[i].pc)
    ensures run[l].sessions[i].job == run[k].sessions[i].job && !Replaying(run[l].sessions[i].pc)
  {
    hide IsRun;
    RunLength(run, acts, cfg);
    if k < l {
      BlockThroughout(run, acts, cfg, i, k, l - 1, l);
      StaysOnJob(run, acts, cfg, i, k, l - 1);
      BlockStep(run, acts, cfg, i, l - 1);
      hide StepOf;
    }
  }

  /** Session number i. */
  function At(S: System, i: SessionId): Session {
    if i < |S.sessions| then S.sessions[i] else Fresh("")
  }

  /**
   Once a job has been checked out inside a transaction block, every later
   moment of the block finds the session on that same job.
   */
  lemma TransactionAffinity(run: seq<System>, acts: seq<Action>, cfg: Config, i: SessionId, k: nat, l: nat)
    requires IsRun(run, acts, cfg) && k <= l < |run|
    requires InBlock(At(run[l], i), At(run[k], i).txn)
    requires At(run[k], i).job.Some? && !Replaying(At(run[k], i).pc)
    ensures At(run[l], i).job == At(run[k], i).job && !Replaying(At(run[l], i).pc)
  {
    SameSize(run, acts, cfg, k);
    SameSize(run, acts, cfg, l);
    hide IsRun;
    StaysOnJob(run, acts, cfg, i, k, l);
  }

  // ---- registries ----

  lemma {:induction false} SnapshotStays(run: seq<System>, acts: seq<Action>, cfg: Config, i: SessionId, k: nat, l: nat)
    requires IsRun(run, acts, cfg) && k <= l < |run| && i < |run[0].sessions|
    requires |run[k].sessions| == |run[l].sessions| == |run[0].sessions|
    requires InBlock(run[l].sessions[i], run[k].sessions[i].txn)
    ensures run[l].sessions[i].snapshot == run[k].sessions[i].snapshot
  {
    hide IsRun;
    RunLength(run, acts, cfg);
    if k < l {
      BlockThroughout(run, acts, cfg, i, k, l - 1, l);
      SnapshotStays(run, acts, cfg, i, k, l - 1);
      BlockStep(run, acts, cfg, i, l - 1);
      hide StepOf;
    }
  }

  /**
   A block opened at step k and ended at step l leaves the DDL registries as
   they were before BEGIN when it is undone, and keeps them when it is committed.
   */
  lemma RegistryFollowsBlock(run: seq<System>, acts: seq<Action>, cfg: Config, i: SessionId, k: nat, l: nat)
    requires IsRun(run, acts, cfg) && k < l < |acts|
    requires !At(run[k], i).inTxn && At(run[k + 1], i).inTxn
    requires InBlock(At(run[l], i), At(run[k + 1], i).txn)
    requires !At(run[l + 1], i).inTxn
    ensures var step := StepOf(run[l], cfg, acts[l], i);
      && (step.Commit? || step.Discard?)
      && At(run[l + 1], i).registry == if step.Commit? then At(run[l], i).registry else At(run[k], i).registry
  {
    SameSize(run, acts, cfg, k + 1);
    SameSize(run, acts, cfg, l);
    BlockStep(run, acts, cfg, i, k);
    SnapshotStays(run, acts, cfg, i, k + 1, l);
    BlockStep(run, acts, cfg, i, l);
    hide IsRun, StepOf;
  }

  // ---- SET LOCAL ----

  /** The schema session `i` is to return to at the end of its block. */
  function Saved(S: System, i: SessionId): Option<string> {
    if i < |S.sessions| then View(S).backends[i].saved else None
  }

  function SchemaOf(S: System, i: SessionId): string {
    if i < |S.sessions| then S.sessions[i].schema else ""
  }

  lemma SavedStep(run: seq<System>, acts: seq<Action>, cfg: Config, i: SessionId, k: nat)
    requires IsRun(run, acts, cfg) && k < |acts| && i < |run[0].sessions|
    ensures |run| == |acts| + 1 && Enabled(run[k], acts[k])
    ensures var step := StepOf(run[k], cfg, acts[k], i);
      && (step.SaveSchema? ==> Saved(run[k + 1], i) == Some(SchemaOf(run[k], i)))
      && (Saved(run[k], i).Some? ==>
            Saved(run[k + 1], i) == Saved(run[k], i)
            || (Saved(run[k + 1], i) == None
                && (SchemaOf(run[k + 1], i) == Saved(run[k], i).value || step.ForgetSaved? || step.Leave?)))
  {
    ObservedStep(run, acts, cfg, i, k);
    SessionInView(run[k], i);
    SessionInView(run[k + 1], i);
    hide View, IsRun, StepOf, PB.Allowed, PB.Take;
    PB.TakeKeepsSaved(i, View(run[k]).backends[i], StepOf(run[k], cfg, acts[k], i));
  }

  lemma {:induction false} SavedStays(run: seq<System>, acts: seq<Action>, cfg: Config, i: SessionId, k: nat, l: nat)
    requires IsRun(run, acts, cfg) && k <= l < |run| && i < |run[0].sessions|
    requires forall m :: k <= m <= l ==> Saved(run[m], i).Some?
    ensures Saved(run[l], i) == Saved(run[k], i)
  {
    hide IsRun, Saved;
    RunLength(run, acts, cfg);
    if k < l {
      SavedStays(run, acts, cfg, i, k, l - 1);
      SavedStep(run, acts, cfg, i, l - 1);
    }
  }

  /**
   The schema in force at the first SET LOCAL of a block comes back when it is
   next forgotten, unless the session closes or Db2 refuses to restore it.
   */
  lemma SearchPathRestored(run: seq<System>, acts: seq<Action>, cfg: Config, i: SessionId, k: nat, l: nat)
    requires IsRun(run, acts, cfg) && k < l < |acts| && i < |run[0].sessions|
    requires StepOf(run[k], cfg, acts[k], i).SaveSchema?
    requires forall m :: k < m <= l ==> Saved(run[m], i).Some?
    requires Saved(run[l + 1], i).None?
    ensures var step := StepOf(run[l], cfg, acts[l], i);
      step.ForgetSaved? || step.Leave? || SchemaOf(run[l + 1], i) == SchemaOf(run[k], i)
  {
    SavedStep(run, acts, cfg, i, k);
    SavedStays(run, acts, cfg, i, k + 1, l);
    SavedStep(run, acts, cfg, i, l);
    hide IsRun, Saved, StepOf, SchemaOf;
  }

  lemma ForgottenOnlyOnFailure(S: System, cfg: Config, a: Action, i: SessionId)
    requires Enabled(S, a) && StepOf(S, cfg, a, i).ForgetSaved?
    ensures a.OpSettled? && !a.ok
    ensures S.sessions[i].pc.at.RestoreSchema? || S.sessions[i].pc.at.RestoreCommit?
  {
  }

  // ---- what runs where ----

  /**
   An application statement reaches a job whose schema is the session's current
   schema and whose unit of work is exactly what the session's own backend has
   pending: nothing outside a block, inside it the session's own writes of it.
   */
  lemma StatementsRunPrivately(run: seq<System>, acts: seq<Action>, cfg: Config, i: SessionId, k: nat)
    requires IsRun(run, acts, cfg) && k < |run| && i < |run[k].sessions|
    requires run[k].sessions[i].pc.Awaiting? && run[k].sessions[i].pc.at.AppRun?
    ensures var s := run[k].sessions[i];
      && s.job.Some? && s.job.value in run[k].jobs
      && var job := run[k].jobs[s.job.value]; var own := View(run[k]).backends[i];
      && job == Db2.Job(s.schema, own.pending, own.marks)
      && (if s.inTxn then Own(i, s, job) else Db2.Clean(job))
      && (forall o :: 0 <= o < |run[k].sessions| && o != i ==> Uses(run[k].sessions[o]) != s.job)
  {
    RunInv(run, acts, cfg, k);
    var S := run[k];
    hide IsRun, SessionsOk, PlacesOk, IdleOk, PoolOk, View, Own;
    AppRunsOn(S, cfg, i);
    UsesOwnJob(S, i);
    forall o | 0 <= o < |S.sessions| && o != i ensures Uses(S.sessions[o]) != S.sessions[i].job {
      UsesOwnJob(S, o);
    }
  }

  lemma AppRunsOn(S: System, cfg: Config, i: SessionId)
    requires Inv(S, cfg) && i < |S.sessions| && S.sessions[i].pc.Awaiting? && S.sessions[i].pc.at.AppRun?
    ensures var s := S.sessions[i];
      && s.job.Some? && s.job.value in S.jobs
      && var job := S.jobs[s.job.value]; var own := View(S).backends[i];
      && job == Db2.Job(s.schema, own.pending, own.marks)
      && if s.inTxn then Own(i, s, job) else Db2.Clean(job)
  {
    assert SessionOk(S, i);
    hide Own, Inv, SessionsOk;
  }

  /**
   Inside a block, Db2 is told to COMMIT a job that carries writes only for a
   COMMIT of a block that has not failed; a failed block's COMMIT is a ROLLBACK.
   */
  lemma CommitDiscipline(run: seq<System>, acts: seq<Action>, cfg: Config, i: SessionId, k: nat, creates: bool)
    requires IsRun(run, acts, cfg) && k < |run| && i < |run[k].sessions|
    requires run[k].sessions[i].pc.Awaiting?
    ensures var s := run[k].sessions[i]; var m := s.pc.m; var at := s.pc.at;
      var op := OpAt(s, i, m, at, creates);
      && s.job.Some? && s.job.value in run[k].jobs
      && (op.Commit? && s.inTxn && run[k].jobs[s.job.value].pending != [] ==>
            at.TxnCommit? && StmtOf(m).CommitTxn? && !s.failed)
      && (StmtOf(m).CommitTxn? && s.failed && (at.TxnCommit? || at.TxnRollback?) ==> op.Rollback?)
  {
    RunInv(run, acts, cfg, k);
    assert SessionOk(run[k], i);
  }

  /** In every state of every run; after a message a held job means an open block. */
  lemma SessionLockstep(run: seq<System>, acts: seq<Action>, cfg: Config, i: SessionId, k: nat)
    requires IsRun(run, acts, cfg) && k < |run| && i < |run[k].sessions|
    ensures var s := run[k].sessions[i];
      && (s.failed ==> s.inTxn) && (s.snapshot.Some? <==> s.inTxn) && (s.restore.Some? ==> s.inTxn)
      && (s.pc.Ready? && s.job.Some? ==> s.inTxn && !s.closed)
      && (s.pc.Ready? && !s.inTxn ==> Saved(run[k], i) == None)
  {
    RunInv(run, acts, cfg, k);
    assert SessionOk(run[k], i);
  }

  /** Whatever the interleaving, currentJob() finds no job in exactly the cases of JobMissed. */
  lemma LeasePredictionSound(run: seq<System>, acts: seq<Action>, cfg: Config, i: SessionId, k: nat)
    requires IsRun(run, acts, cfg) && k < |acts| && i < |run[0].sessions|
    ensures |run| == |acts| + 1 && |run[k].sessions| == |run[k + 1].sessions| == |run[0].sessions|
    ensures Enabled(run[k], acts[k])
    ensures run[k + 1].sessions[i].missing == run[k].sessions[i].missing
      + if JobMissed(run[k], acts[k], i) then 1 else 0
  {
    BlockStep(run, acts, cfg, i, k);
    hide IsRun, JobMissed, StepOf, BlockOk;
  }
}
