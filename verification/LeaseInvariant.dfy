/** The invariant of the whole system, and its preservation by every action. */
module LeaseInvariant {
  import opened Wrappers
  import opened JobPool
  import opened Sessions
  import opened SessionInvariant
  import opened LeaseProtocol
  import Db2

  // ---- the parts of the invariant ----

  ghost predicate SessionOk(S: System, i: SessionId)
    requires i < |S.sessions|
  {
    var s := S.sessions[i];
    && WellFormed(s)
    && (Uses(s).Some? ==>
          var j := Uses(s).value;
          j in S.jobs && j in S.place && S.place[j] == With(i) && Fits(i, s, S.jobs[j]))
  }

  ghost predicate SessionsOk(S: System) {
    forall i :: 0 <= i < |S.sessions| ==> SessionOk(S, i)
  }

  /** Every job is where `place` says, and nowhere else. */
  ghost predicate PlacesOk(S: System) {
    && S.jobs.Keys == S.place.Keys
    && (forall j :: j in S.place ==> j < S.nextJob)
    && (forall j :: j in S.place && S.place[j].With? ==>
          S.place[j].who < |S.sessions| && Uses(S.sessions[S.place[j].who]) == Some(j))
  }

  ghost predicate IdleOk(S: System, cfg: Config) {
    && Distinct(S.pool.idle)
    && (forall j :: j in S.pool.idle <==> j in S.place && S.place[j].InIdle?)
    && (forall j :: j in S.pool.idle ==> j in S.jobs && S.jobs[j] == NewJob(cfg))
  }

  /** The jobs the pool counts as its own. */
  predicate Registered(S: System, j: JobId) {
    j in S.place &&
    match S.place[j]
    case InIdle => true
    case Gone => false
    case With(i) => i < |S.sessions| && !S.sessions[i].pc.Closing?
  }

  /** The jobs out on lease; between invalidate's call and its first span either is possible. */
  predicate OnLease(S: System, j: JobId) {
    j in S.place && S.place[j].With? && S.place[j].who < |S.sessions| &&
    var pc := S.sessions[S.place[j].who].pc;
    !pc.Resetting? && !pc.Invalidating? && !pc.Closing?
  }

  predicate BeingInvalidated(S: System, j: JobId) {
    j in S.place && S.place[j].With? && S.place[j].who < |S.sessions| && S.sessions[S.place[j].who].pc.Invalidating?
  }

  ghost predicate BooksOk(S: System) {
    && S.pool.all <= S.place.Keys
    && S.pool.leased <= S.place.Keys
    && (!S.pool.ending ==> forall j :: j in S.place ==>
          && (j in S.pool.all <==> Registered(S, j))
          && (BeingInvalidated(S, j) || (j in S.pool.leased <==> OnLease(S, j))))
  }

  ghost predicate QueueOk(S: System) {
    && Distinct(S.pool.waiters)
    && (forall i: SessionId :: i in S.pool.waiters <==> i < |S.sessions| && S.sessions[i].pc.Waiting?)
    && (S.pool.waiters != [] ==> S.pool.idle == [])
    && (S.pool.ending ==> S.pool.waiters == [])
  }

  predicate IsConnecting(s: Session) { s.pc.Connecting? || s.pc.Replacing? }

  function CountConnecting(ss: seq<Session>): (n: nat)
    ensures n <= |ss|
  {
    if ss == [] then 0
    else CountConnecting(ss[..|ss| - 1]) + if IsConnecting(ss[|ss| - 1]) then 1 else 0
  }

  ghost predicate CapOk(S: System, cfg: Config) {
    && S.pool.creating == CountConnecting(S.sessions)
    && |S.pool.all| + S.pool.creating <= cfg.limits.maxSize
  }

  ghost predicate JobsOk(S: System, cfg: Config) {
    SessionsOk(S) && PlacesOk(S) && IdleOk(S, cfg)
  }

  ghost predicate PoolOk(S: System, cfg: Config) {
    BooksOk(S) && QueueOk(S) && CapOk(S, cfg)
  }

  ghost predicate Inv(S: System, cfg: Config) {
    JobsOk(S, cfg) && PoolOk(S, cfg)
  }

  lemma {:induction false} CountUpdate(ss: seq<Session>, i: nat, s: Session)
    requires i < |ss|
    ensures CountConnecting(ss[i := s]) ==
            CountConnecting(ss) - (if IsConnecting(ss[i]) then 1 else 0) + (if IsConnecting(s) then 1 else 0)
  {
    var front := ss[..|ss| - 1];
    if i == |ss| - 1 {
      assert ss[i := s][..|ss| - 1] == front;
    } else {
      CountUpdate(front, i, s);
      assert ss[i := s][..|ss| - 1] == front[i := s];
    }
  }

  /** A session that connects is counted. */
  lemma {:induction false} CountPositive(ss: seq<Session>, i: nat)
    requires i < |ss| && IsConnecting(ss[i])
    ensures CountConnecting(ss) > 0
  {
    if i < |ss| - 1 {
      CountPositive(ss[..|ss| - 1], i);
    }
  }

  lemma {:induction false} CountReject(ss: seq<Session>)
    ensures CountConnecting(Reject(ss)) == CountConnecting(ss)
  {
    if ss != [] {
      CountReject(ss[..|ss| - 1]);
      assert Reject(ss)[..|ss| - 1] == Reject(ss[..|ss| - 1]);
    }
  }

  /** Sessions other than `i` are unaffected when their jobs and places are. */
  lemma OthersOk(S: System, T: System, i: SessionId)
    requires SessionsOk(S) && |T.sessions| == |S.sessions| && i < |S.sessions|
    requires forall k :: 0 <= k < |S.sessions| && k != i ==> T.sessions[k] == S.sessions[k]
    requires forall j :: j in S.place && S.place[j].With? && S.place[j].who != i ==>
      j in T.place && T.place[j] == S.place[j]
    requires forall j :: j in S.jobs && j in S.place && S.place[j].With? && S.place[j].who != i ==>
      j in T.jobs && T.jobs[j] == S.jobs[j]
    requires SessionOk(T, i)
    ensures SessionsOk(T)
  {
    hide WellFormed, Fits, Uses;
    forall k | 0 <= k < |T.sessions| ensures SessionOk(T, k) {
      assert SessionOk(S, k);
    }
  }

  /** The two sets differ in `job` at most. */
  ghost predicate AlikeBut(a: set<JobId>, b: set<JobId>, job: JobId) {
    a == b || a == b + {job} || a == b - {job}
  }

  /** The books stay right when they are right for the one job that moves. */
  lemma BooksMove(S: System, T: System, job: JobId)
    requires PlacesOk(S) && BooksOk(S)
    requires |T.sessions| == |S.sessions| && T.pool.ending == S.pool.ending
    requires T.place == S.place || (job in T.place && T.place == S.place[job := T.place[job]])
    requires forall j :: j in S.place && j != job && S.place[j].With? ==>
      T.sessions[S.place[j].who].pc == S.sessions[S.place[j].who].pc
    requires AlikeBut(T.pool.all, S.pool.all, job) && (job in T.pool.all ==> job in T.place)
    requires AlikeBut(T.pool.leased, S.pool.leased, job) && (job in T.pool.leased ==> job in T.place)
    requires !T.pool.ending && job in T.place ==>
      && (job in T.pool.all <==> Registered(T, job))
      && (BeingInvalidated(T, job) || (job in T.pool.leased <==> OnLease(T, job)))
    ensures BooksOk(T)
  {
    hide Uses;
    if !T.pool.ending {
      forall j | j in T.place && j != job
        ensures j in T.pool.all <==> Registered(T, j)
        ensures BeingInvalidated(T, j) || (j in T.pool.leased <==> OnLease(T, j))
      {
        assert j in S.place && T.place[j] == S.place[j];
      }
    }
  }

  /** Queue and cap when one session moves without entering or leaving the queue. */
  lemma QueueMove(S: System, T: System, cfg: Config, i: SessionId)
    requires QueueOk(S) && CapOk(S, cfg) && i < |S.sessions| == |T.sessions|
    requires T.sessions == S.sessions[i := T.sessions[i]]
    requires !S.sessions[i].pc.Waiting? && !T.sessions[i].pc.Waiting?
    requires T.pool.waiters == S.pool.waiters && T.pool.ending == S.pool.ending
    requires S.pool.idle == [] || S.pool.waiters == [] ==> T.pool.idle == [] || T.pool.waiters == []
    requires T.pool.creating == S.pool.creating - (if IsConnecting(S.sessions[i]) then 1 else 0)
                                + (if IsConnecting(T.sessions[i]) then 1 else 0)
    requires |T.pool.all| + T.pool.creating <= cfg.limits.maxSize
    ensures QueueOk(T) && CapOk(T, cfg)
  {
    hide CountConnecting;
    CountUpdate(S.sessions, i, T.sessions[i]);
  }

  /** Queue and cap when session `i` moves and the first waiter is given a job. */
  lemma QueueServed(S: System, T: System, cfg: Config, i: SessionId, w: SessionId)
    requires QueueOk(S) && CapOk(S, cfg) && i < |S.sessions| == |T.sessions|
    requires S.pool.waiters != [] && w == S.pool.waiters[0] && i != w && w < |S.sessions|
    requires T.sessions == S.sessions[i := T.sessions[i]][w := T.sessions[w]]
    requires !S.sessions[i].pc.Waiting? && !T.sessions[i].pc.Waiting? && T.sessions[w].pc.Granted?
    requires T.pool.waiters == S.pool.waiters[1..] && T.pool.idle == S.pool.idle && T.pool.ending == S.pool.ending
    requires T.pool.creating == S.pool.creating - (if IsConnecting(S.sessions[i]) then 1 else 0)
                                + (if IsConnecting(T.sessions[i]) then 1 else 0)
    requires |T.pool.all| + T.pool.creating <= cfg.limits.maxSize
    ensures QueueOk(T) && CapOk(T, cfg)
  {
    hide CountConnecting;
    var mid := S.sessions[i := T.sessions[i]];
    CountUpdate(S.sessions, i, T.sessions[i]);
    CountUpdate(mid, w, T.sessions[w]);
    assert S.pool.waiters == [w] + S.pool.waiters[1..];
    assert w !in S.pool.waiters[1..] && w in S.pool.waiters;
    assert forall k: SessionId :: k in S.pool.waiters <==> k == w || k in T.pool.waiters;
  }

  lemma QueueUnblocked(S: System)
    requires QueueOk(S)
    ensures S.pool.idle == [] || S.pool.waiters == []
  {
  }

  lemma CapBound(S: System, cfg: Config)
    requires CapOk(S, cfg)
    ensures |S.pool.all| + S.pool.creating <= cfg.limits.maxSize
    ensures S.pool.creating >= 0
  {
  }

  lemma PlacesOf(S: System, i: SessionId)
    requires PlacesOk(S) && i < |S.sessions|
    ensures forall j :: j in S.place && S.place[j] == With(i) ==> Uses(S.sessions[i]) == Some(j)
    ensures forall j :: j in S.place && S.place[j].With? ==> S.place[j].who < |S.sessions|
  {
  }

  lemma AllPlaced(S: System)
    requires BooksOk(S)
    ensures S.pool.all <= S.place.Keys && S.pool.leased <= S.place.Keys
  {
  }

  /** Where the job is that a session is giving back. */
  lemma HoldsLease(S: System, cfg: Config, i: SessionId)
    requires Inv(S, cfg) && i < |S.sessions|
    requires var pc := S.sessions[i].pc; pc.Releasing? || pc.Resetting? || pc.Invalidating? || pc.Closing?
    ensures var lease := S.sessions[i].pc.lease;
      && S.sessions[i].job.None? && Uses(S.sessions[i]) == Some(lease)
      && lease in S.place && S.place[lease] == With(i) && lease in S.jobs && lease !in S.pool.idle && lease != S.nextJob
      && forall j :: j in S.place && S.place[j] == With(i) ==> j == lease
    ensures forall j :: j in S.place && S.place[j].With? ==> S.place[j].who < |S.sessions|
    ensures S.pool.all <= S.place.Keys && S.pool.leased <= S.place.Keys
    ensures 0 <= S.pool.creating && |S.pool.all| + S.pool.creating <= cfg.limits.maxSize
  {
    assert SessionOk(S, i);
    hide WellFormed, Fits, SessionsOk, CountConnecting;
  }

  /** A session that waits for something else than Db2 and gives nothing back has no job. */
  lemma HoldsNothing(S: System, cfg: Config, i: SessionId)
    requires Inv(S, cfg) && i < |S.sessions|
    requires var pc := S.sessions[i].pc; pc.WantLease? || pc.Waiting? || pc.Connecting? || pc.Refused? || pc.Replacing?
    ensures S.sessions[i].job.None? && Uses(S.sessions[i]) == None && S.nextJob !in S.place
    ensures forall j :: j in S.place ==> S.place[j] != With(i)
    ensures forall j :: j in S.place && S.place[j].With? ==> S.place[j].who < |S.sessions|
    ensures S.pool.all <= S.place.Keys && S.pool.leased <= S.place.Keys
    ensures 0 <= S.pool.creating && |S.pool.all| + S.pool.creating <= cfg.limits.maxSize
  {
    assert SessionOk(S, i);
    hide WellFormed, Fits, SessionsOk, CountConnecting;
    assert Uses(S.sessions[i]) == None by { WantsNoJob(S, i); }
  }

  // ---- acquire ----

  /** Session `i` receives `job`, which no session had. */
  lemma GrantedOk(S: System, T: System, i: SessionId, pc: Pc, job: JobId)
    requires SessionsOk(S) && i < |S.sessions|
    requires S.sessions[i].job.None? && !S.sessions[i].closed
    requires var now := S.sessions[i].pc;
      (now.WantLease? || now.Waiting? || now.Connecting?) && pc == Granted(now.m, now.mode, job)
    requires T.sessions == S.sessions[i := S.sessions[i].(pc := pc)]
    requires T.place == S.place[job := With(i)]
    requires job in S.place ==> !S.place[job].With?
    requires forall j :: j in S.jobs ==> j in T.jobs && (j != job ==> T.jobs[j] == S.jobs[j])
    requires job in T.jobs && Db2.Clean(T.jobs[job])
    ensures SessionsOk(T)
  {
    assert SessionOk(S, i);
    assert SessionOk(T, i);
    OthersOk(S, T, i);
  }

  lemma WantsNoJob(S: System, i: SessionId)
    requires SessionsOk(S) && i < |S.sessions|
    ensures !S.sessions[i].pc.Ready? && !S.sessions[i].pc.Awaiting? && !S.sessions[i].pc.Start? ==>
      S.sessions[i].job.None?
    ensures !Winding(S.sessions[i].pc) ==> !S.sessions[i].closed
    ensures Uses(S.sessions[i]).Some? ==>
      Uses(S.sessions[i]).value in S.jobs && Uses(S.sessions[i]).value in S.place
      && S.place[Uses(S.sessions[i]).value] == With(i)
  {
    assert SessionOk(S, i);
  }

  lemma LeaseIdleJobs(S: System, cfg: Config, i: SessionId)
    requires Inv(S, cfg) && i < |S.sessions| && S.sessions[i].pc.WantLease?
    requires !S.pool.ending && S.pool.idle != []
    ensures JobsOk(DoAcquire(S, cfg, i), cfg)
  {
    hide WellFormed, Fits, SessionsOk, PoolOk;
    var T := DoAcquire(S, cfg, i);
    var job := S.pool.idle[0];
    WantsNoJob(S, i);
    GrantedOk(S, T, i, T.sessions[i].pc, job);
    assert S.pool.idle == [job] + S.pool.idle[1..];
  }

  lemma LeaseIdleBooks(S: System, cfg: Config, i: SessionId)
    requires Inv(S, cfg) && i < |S.sessions| && S.sessions[i].pc.WantLease?
    requires !S.pool.ending && S.pool.idle != []
    ensures PoolOk(DoAcquire(S, cfg, i), cfg)
  {
    hide BooksOk, QueueOk, CapOk, JobsOk;
    LeaseIdleBooksMove(S, cfg, i);
    LeaseIdleQueue(S, cfg, i);
  }

  lemma LeaseIdleBooksMove(S: System, cfg: Config, i: SessionId)
    requires Inv(S, cfg) && i < |S.sessions| && S.sessions[i].pc.WantLease?
    requires !S.pool.ending && S.pool.idle != []
    ensures BooksOk(DoAcquire(S, cfg, i))
  {
    hide SessionsOk, PlacesOk, BooksOk, QueueOk, CapOk, Uses;
    HoldsNothing(S, cfg, i);
    BookedAlready(S, S.pool.idle[0]);
    BooksMove(S, DoAcquire(S, cfg, i), S.pool.idle[0]);
  }

  lemma LeaseIdleQueue(S: System, cfg: Config, i: SessionId)
    requires Inv(S, cfg) && i < |S.sessions| && S.sessions[i].pc.WantLease?
    requires !S.pool.ending && S.pool.idle != []
    ensures QueueOk(DoAcquire(S, cfg, i)) && CapOk(DoAcquire(S, cfg, i), cfg)
  {
    hide SessionsOk, PlacesOk, IdleOk, BooksOk, Uses, CountConnecting;
    CountUpdate(S.sessions, i, DoAcquire(S, cfg, i).sessions[i]);
  }

  lemma AskJobs(S: System, cfg: Config, i: SessionId)
    requires Inv(S, cfg) && i < |S.sessions| && S.sessions[i].pc.WantLease?
    requires S.pool.ending || S.pool.idle == []
    ensures JobsOk(DoAcquire(S, cfg, i), cfg)
  {
    hide PoolOk;
    AskSessions(S, cfg, i);
    assert Uses(S.sessions[i]) == None by { WantsNoJob(S, i); }
    hide SessionsOk;
  }

  lemma AskSessions(S: System, cfg: Config, i: SessionId)
    requires Inv(S, cfg) && i < |S.sessions| && S.sessions[i].pc.WantLease?
    requires S.pool.ending || S.pool.idle == []
    ensures SessionsOk(DoAcquire(S, cfg, i))
  {
    hide PoolOk, PlacesOk, IdleOk, Fits;
    var T := DoAcquire(S, cfg, i);
    assert SessionOk(S, i);
    assert SessionOk(T, i);
    OthersOk(S, T, i);
  }

  lemma AskQueue(S: System, cfg: Config, i: SessionId)
    requires Inv(S, cfg) && i < |S.sessions| && S.sessions[i].pc.WantLease?
    requires S.pool.ending || S.pool.idle == []
    ensures QueueOk(DoAcquire(S, cfg, i)) && CapOk(DoAcquire(S, cfg, i), cfg)
  {
    hide CountConnecting, JobsOk, BooksOk, QueueOk, CapOk;
    var T := DoAcquire(S, cfg, i);
    CapBound(S, cfg);
    if T.sessions[i].pc.Waiting? {
      QueueJoined(S, T, cfg, i);
    } else {
      QueueMove(S, T, cfg, i);
    }
  }

  /** Queue and cap when a session joins the queue of a pool without idle jobs. */
  lemma QueueJoined(S: System, T: System, cfg: Config, i: SessionId)
    requires QueueOk(S) && CapOk(S, cfg) && i < |S.sessions| == |T.sessions|
    requires T.sessions == S.sessions[i := T.sessions[i]]
    requires S.sessions[i].pc.WantLease? && T.sessions[i].pc.Waiting?
    requires !S.pool.ending && S.pool.idle == [] && T.pool == S.pool.(waiters := S.pool.waiters + [i])
    ensures QueueOk(T) && CapOk(T, cfg)
  {
    hide CountConnecting;
    CountUpdate(S.sessions, i, T.sessions[i]);
  }

  lemma AskBooks(S: System, cfg: Config, i: SessionId)
    requires Inv(S, cfg) && i < |S.sessions| && S.sessions[i].pc.WantLease?
    requires S.pool.ending || S.pool.idle == []
    ensures PoolOk(DoAcquire(S, cfg, i), cfg)
  {
    hide SessionsOk, PlacesOk, IdleOk, BooksOk, QueueOk, CapOk, Uses, Settle, Continue;
    HoldsNothing(S, cfg, i);
    BooksMove(S, DoAcquire(S, cfg, i), S.nextJob);
    AskQueue(S, cfg, i);
  }

  lemma ConnectedJobs(S: System, cfg: Config, i: SessionId)
    requires Inv(S, cfg) && i < |S.sessions| && S.sessions[i].pc.Connecting?
    ensures JobsOk(DoConnected(S, cfg, i), cfg)
  {
    hide WellFormed, Fits, SessionsOk, PoolOk;
    WantsNoJob(S, i);
    GrantedOk(S, DoConnected(S, cfg, i), i, DoConnected(S, cfg, i).sessions[i].pc, S.nextJob);
  }

  lemma ConnectedQueue(S: System, cfg: Config, i: SessionId)
    requires Inv(S, cfg) && i < |S.sessions| && S.sessions[i].pc.Connecting?
    ensures QueueOk(DoConnected(S, cfg, i)) && CapOk(DoConnected(S, cfg, i), cfg)
  {
    CapBound(S, cfg);
    assert |S.pool.all + {S.nextJob}| <= |S.pool.all| + 1;
    hide JobsOk, BooksOk, QueueOk, CapOk;
    QueueMove(S, DoConnected(S, cfg, i), cfg, i);
  }

  lemma ConnectedBooks(S: System, cfg: Config, i: SessionId)
    requires Inv(S, cfg) && i < |S.sessions| && S.sessions[i].pc.Connecting?
    ensures BooksOk(DoConnected(S, cfg, i))
  {
    hide SessionsOk, PlacesOk, IdleOk, BooksOk, QueueOk, CapOk, Uses, Settle, Continue;
    HoldsNothing(S, cfg, i);
    BooksMove(S, DoConnected(S, cfg, i), S.nextJob);
  }

  lemma RefusedJobs(S: System, cfg: Config, a: Action)
    requires Inv(S, cfg) && Enabled(S, a)
    requires a.JobConnectFailed? || a.LeaseTimeout?
    ensures JobsOk(Next(S, cfg, a), cfg)
  {
    hide PoolOk;
    assert SessionOk(S, a.who);
    KeepsJob(S, Next(S, cfg, a), cfg, a.who);
  }

  lemma RefusedBooks(S: System, cfg: Config, a: Action)
    requires Inv(S, cfg) && Enabled(S, a)
    requires a.JobConnectFailed? || a.LeaseTimeout?
    ensures PoolOk(Next(S, cfg, a), cfg)
  {
    hide Next, BooksOk, QueueOk, CapOk, JobsOk;
    RefusedBooksMove(S, cfg, a);
    RefusedQueue(S, cfg, a);
  }

  lemma RefusedBooksMove(S: System, cfg: Config, a: Action)
    requires Inv(S, cfg) && Enabled(S, a)
    requires a.JobConnectFailed? || a.LeaseTimeout?
    ensures BooksOk(Next(S, cfg, a))
  {
    hide SessionsOk, PlacesOk, IdleOk, BooksOk, QueueOk, CapOk, Uses, Settle, Continue;
    HoldsNothing(S, cfg, a.who);
    BooksMove(S, Next(S, cfg, a), S.nextJob);
  }

  lemma RefusedQueue(S: System, cfg: Config, a: Action)
    requires Inv(S, cfg) && Enabled(S, a)
    requires a.JobConnectFailed? || a.LeaseTimeout?
    ensures QueueOk(Next(S, cfg, a)) && CapOk(Next(S, cfg, a), cfg)
  {
    hide CountConnecting, JobsOk, BooksOk;
    WithoutMembers(S.pool.waiters, a.who);
    CountUpdate(S.sessions, a.who, Next(S, cfg, a).sessions[a.who]);
  }

  // ---- release and invalidate ----

  /** Session `i` lets go of the job it used, which is then nowhere. */
  lemma LetGoJobs(S: System, T: System, cfg: Config, i: SessionId)
    requires JobsOk(S, cfg) && i < |S.sessions| == |T.sessions|
    requires T.sessions == S.sessions[i := T.sessions[i]]
    requires Uses(S.sessions[i]).Some?
    requires T.place == S.place[Uses(S.sessions[i]).value := Gone]
    requires T.pool.idle == S.pool.idle && T.nextJob == S.nextJob && T.jobs.Keys == S.jobs.Keys
    requires forall j :: j in S.jobs && Uses(S.sessions[i]) != Some(j) ==> T.jobs[j] == S.jobs[j]
    requires WellFormed(T.sessions[i]) && Uses(T.sessions[i]) == None
    ensures JobsOk(T, cfg)
  {
    hide WellFormed, Fits, Uses;
    assert SessionOk(S, i);
    forall k | 0 <= k < |T.sessions| ensures SessionOk(T, k) {
      assert SessionOk(S, k);
    }
  }

  /** Session `i` goes on using the same job, or none; nothing changes place. */
  lemma KeepsJob(S: System, T: System, cfg: Config, i: SessionId)
    requires JobsOk(S, cfg) && i < |S.sessions| == |T.sessions|
    requires T.sessions == S.sessions[i := T.sessions[i]]
    requires T.place == S.place && T.nextJob == S.nextJob && T.pool.idle == S.pool.idle
    requires Uses(T.sessions[i]) == Uses(S.sessions[i]) && WellFormed(T.sessions[i])
    requires T.jobs.Keys == S.jobs.Keys
    requires forall j :: j in S.jobs && Uses(S.sessions[i]) != Some(j) ==> T.jobs[j] == S.jobs[j]
    requires Uses(T.sessions[i]).Some? && Uses(T.sessions[i]).value in T.jobs ==>
      Fits(i, T.sessions[i], T.jobs[Uses(T.sessions[i]).value])
    ensures JobsOk(T, cfg)
  {
    hide WellFormed, Fits, Uses;
    assert SessionOk(S, i);
    forall k | 0 <= k < |T.sessions| ensures SessionOk(T, k) {
      assert SessionOk(S, k);
    }
  }

  lemma ReleaseKnownJobs(S: System, cfg: Config, i: SessionId)
    requires Inv(S, cfg) && Enabled(S, ReleaseCalled(i)) && S.sessions[i].pc.lease in S.pool.all
    ensures JobsOk(DoRelease(S, i), cfg)
  {
    hide PoolOk;
    assert SessionOk(S, i);
    KeepsJob(S, DoRelease(S, i), cfg, i);
  }

  /** After end() has emptied the pool, a released job is simply dropped. */
  lemma ReleaseUnknownJobs(S: System, cfg: Config, i: SessionId)
    requires Inv(S, cfg) && Enabled(S, ReleaseCalled(i)) && S.sessions[i].pc.lease !in S.pool.all
    ensures JobsOk(DoRelease(S, i), cfg)
  {
    hide PoolOk;
    var s := S.sessions[i];
    assert SessionOk(S, i);
    SettleGood(i, s, s.pc.m, s.pc.ok, NewJob(cfg));
    hide Settle, WellFormed, Fits, SessionsOk;
    LetGoJobs(S, DoRelease(S, i), cfg, i);
  }

  lemma ReleaseBooks(S: System, cfg: Config, i: SessionId)
    requires Inv(S, cfg) && Enabled(S, ReleaseCalled(i))
    ensures PoolOk(DoRelease(S, i), cfg)
  {
    hide DoRelease, BooksOk, QueueOk, CapOk, JobsOk;
    ReleaseBooksMove(S, cfg, i);
    ReleaseQueue(S, cfg, i);
  }

  lemma ReleaseBooksMove(S: System, cfg: Config, i: SessionId)
    requires Inv(S, cfg) && Enabled(S, ReleaseCalled(i))
    ensures BooksOk(DoRelease(S, i))
  {
    hide SessionsOk, PlacesOk, IdleOk, BooksOk, QueueOk, CapOk, Uses, Settle, Continue;
    var s := S.sessions[i];
    HoldsLease(S, cfg, i);
    SettlePlain(s, s.pc.m, s.pc.ok);
    BookedAlready(S, s.pc.lease);
    BooksMove(S, DoRelease(S, i), s.pc.lease);
  }

  lemma ReleaseQueue(S: System, cfg: Config, i: SessionId)
    requires Inv(S, cfg) && Enabled(S, ReleaseCalled(i))
    ensures QueueOk(DoRelease(S, i)) && CapOk(DoRelease(S, i), cfg)
  {
    hide JobsOk, BooksOk, Settle;
    CapBound(S, cfg);
    var s := S.sessions[i];
    SettlePlain(s, s.pc.m, s.pc.ok);
    hide QueueOk, CapOk;
    QueueMove(S, DoRelease(S, i), cfg, i);
  }

  predicate ResetGoesOn(S: System, i: SessionId, ok: bool) {
    Enabled(S, ResetSettled(i, ok)) && (!ok || S.sessions[i].pc.stage.RollingBack?)
  }

  /** release() goes on after its ROLLBACK, or turns to invalidate() after a failure. */
  lemma ResetGoesOnJobs(S: System, cfg: Config, i: SessionId, ok: bool)
    requires Inv(S, cfg) && ResetGoesOn(S, i, ok)
    ensures JobsOk(DoReset(S, cfg, i, ok), cfg)
  {
    hide PoolOk;
    assert SessionOk(S, i);
    KeepsJob(S, DoReset(S, cfg, i, ok), cfg, i);
  }

  lemma ResetGoesOnBooks(S: System, cfg: Config, i: SessionId, ok: bool)
    requires Inv(S, cfg) && ResetGoesOn(S, i, ok)
    ensures PoolOk(DoReset(S, cfg, i, ok), cfg)
  {
    hide SessionsOk, PlacesOk, IdleOk, BooksOk, QueueOk, CapOk, Uses, Settle, Continue;
    HoldsLease(S, cfg, i);
    var T := DoReset(S, cfg, i, ok);
    BookedAlready(S, S.sessions[i].pc.lease);
    BooksMove(S, T, S.sessions[i].pc.lease);
    QueueMove(S, T, cfg, i);
  }

  lemma InvalidateJobs(S: System, cfg: Config, i: SessionId)
    requires Inv(S, cfg) && Enabled(S, InvalidateCalled(i))
    ensures JobsOk(DoInvalidate(S, i), cfg)
  {
    hide PoolOk;
    assert SessionOk(S, i);
    ExcludeAbsent(S.pool.idle, S.sessions[i].pc.lease);
    KeepsJob(S, DoInvalidate(S, i), cfg, i);
  }

  lemma InvalidateBooks(S: System, cfg: Config, i: SessionId)
    requires Inv(S, cfg) && Enabled(S, InvalidateCalled(i))
    ensures PoolOk(DoInvalidate(S, i), cfg)
  {
    hide DoInvalidate, BooksOk, QueueOk, CapOk, JobsOk;
    InvalidateBooksMove(S, cfg, i);
    InvalidateQueue(S, cfg, i);
  }

  lemma InvalidateBooksMove(S: System, cfg: Config, i: SessionId)
    requires Inv(S, cfg) && Enabled(S, InvalidateCalled(i))
    ensures BooksOk(DoInvalidate(S, i))
  {
    hide SessionsOk, PlacesOk, IdleOk, BooksOk, QueueOk, CapOk, Uses, Settle, Continue;
    HoldsLease(S, cfg, i);
    BookedAlready(S, S.sessions[i].pc.lease);
    BooksMove(S, DoInvalidate(S, i), S.sessions[i].pc.lease);
  }

  lemma InvalidateQueue(S: System, cfg: Config, i: SessionId)
    requires Inv(S, cfg) && Enabled(S, InvalidateCalled(i))
    ensures QueueOk(DoInvalidate(S, i)) && CapOk(DoInvalidate(S, i), cfg)
  {
    hide SessionsOk, PlacesOk, IdleOk, BooksOk, QueueOk, CapOk, Uses, Settle, Continue;
    HoldsLease(S, cfg, i);
    ExcludeAbsent(S.pool.idle, S.sessions[i].pc.lease);
    QueueUnblocked(S);
    QueueMove(S, DoInvalidate(S, i), cfg, i);
  }

  // ---- the reset job, or a replacement, is handed over ----

  /** A waiter receives a job that no session has. */
  lemma GrantJobs(S: System, cfg: Config, w: SessionId, job: JobId)
    requires JobsOk(S, cfg) && w < |S.sessions| && S.sessions[w].pc.Waiting?
    requires job in S.place && S.place[job].Gone? && S.jobs[job] == NewJob(cfg)
    ensures JobsOk(Grant(S, w, job), cfg)
  {
    hide WellFormed, Fits, SessionsOk;
    WantsNoJob(S, w);
    GrantedOk(S, Grant(S, w, job), w, Grant(S, w, job).sessions[w].pc, job);
  }

  /** The job becomes idle. */
  lemma IdleJobs(S: System, cfg: Config, job: JobId)
    requires JobsOk(S, cfg) && job in S.place && S.place[job].Gone? && S.jobs[job] == NewJob(cfg)
    ensures JobsOk(S.(place := S.place[job := InIdle], pool := S.pool.(idle := S.pool.idle + [job])), cfg)
  {
    hide WellFormed, Fits;
    var T := S.(place := S.place[job := InIdle], pool := S.pool.(idle := S.pool.idle + [job]));
    forall k | 0 <= k < |T.sessions| ensures SessionOk(T, k) {
      assert SessionOk(S, k);
    }
  }

  /** The session that returned the job, before anyone else has it. */
  function Returned(S: System, cfg: Config, i: SessionId, pool: Pool): System
    requires i < |S.sessions| && S.sessions[i].pc.Resetting? && S.sessions[i].pc.lease in S.jobs
  {
    var s := S.sessions[i];
    Put(S, i, Settle(s, s.pc.m, s.pc.ok)).(
      jobs := S.jobs[s.pc.lease := S.jobs[s.pc.lease].(schema := cfg.defaultSchema)],
      place := S.place[s.pc.lease := Gone],
      pool := pool)
  }

  lemma ReturnedJobs(S: System, cfg: Config, i: SessionId, pool: Pool)
    requires JobsOk(S, cfg) && i < |S.sessions| && S.sessions[i].pc.Resetting?
    requires S.sessions[i].pc.lease in S.jobs && S.sessions[i].pc.stage.ResettingSchema?
    requires pool.idle == S.pool.idle
    ensures JobsOk(Returned(S, cfg, i, pool), cfg)
    ensures Returned(S, cfg, i, pool).jobs[S.sessions[i].pc.lease] == NewJob(cfg)
    ensures S.sessions[i].pc.lease in S.place
  {
    var s := S.sessions[i];
    assert SessionOk(S, i);
    SettleGood(i, s, s.pc.m, s.pc.ok, NewJob(cfg));
    hide Settle, WellFormed, Fits, SessionsOk;
    LetGoJobs(S, Returned(S, cfg, i, pool), cfg, i);
  }

  predicate Resets(S: System, i: SessionId) {
    Enabled(S, ResetSettled(i, true)) && S.sessions[i].pc.stage.ResettingSchema?
  }

  lemma HandOverJobs(S: System, cfg: Config, i: SessionId)
    requires Inv(S, cfg) && Resets(S, i) && S.pool.waiters != []
    ensures JobsOk(DoReset(S, cfg, i, true), cfg)
  {
    hide PoolOk, JobsOk, Settle;
    var lease := S.sessions[i].pc.lease;
    var pool := ReleaseEnd(S.pool, lease).0;
    var w := S.pool.waiters[0];
    WaiterWaits(S, cfg, w);
    ReturnedJobs(S, cfg, i, pool);
    var R := Returned(S, cfg, i, pool);
    GrantJobs(R, cfg, w, lease);
    assert R.place[lease := With(w)] == S.place[lease := With(w)];
  }

  lemma WaiterWaits(S: System, cfg: Config, w: SessionId)
    requires Inv(S, cfg) && w in S.pool.waiters
    ensures w < |S.sessions| && S.sessions[w].pc.Waiting? && S.sessions[w].job.None? && S.pool.idle == []
  {
    WantsNoJob(S, w);
  }

  lemma BackToIdleJobs(S: System, cfg: Config, i: SessionId)
    requires Inv(S, cfg) && Resets(S, i) && S.pool.waiters == [] && !S.pool.ending
    ensures JobsOk(DoReset(S, cfg, i, true), cfg)
  {
    hide PoolOk, JobsOk, Settle;
    var lease := S.sessions[i].pc.lease;
    ReturnedJobs(S, cfg, i, S.pool);
    var R := Returned(S, cfg, i, S.pool);
    IdleJobs(R, cfg, lease);
    assert R.place[lease := InIdle] == S.place[lease := InIdle];
  }

  lemma ShutJobs(S: System, cfg: Config, i: SessionId)
    requires Inv(S, cfg) && Resets(S, i) && S.pool.waiters == [] && S.pool.ending
    ensures JobsOk(DoReset(S, cfg, i, true), cfg)
  {
    hide PoolOk;
    assert SessionOk(S, i);
    KeepsJob(S, DoReset(S, cfg, i, true), cfg, i);
  }

  lemma SettlePlain(s: Session, m: Msg, ok: bool)
    ensures Settle(s, m, ok).pc == Ready
  {
  }

  /** The state after a reset job went to a waiter. */
  lemma ResetForWaiter(S: System, cfg: Config, i: SessionId)
    requires Inv(S, cfg) && Resets(S, i) && S.pool.waiters != []
    ensures
      var T := DoReset(S, cfg, i, true);
      var s := S.sessions[i];
      var lease := s.pc.lease;
      var w := S.pool.waiters[0];
      && w < |S.sessions| && w != i && S.sessions[w].pc.Waiting? && S.sessions[w].job.None?
      && T.sessions == S.sessions[i := T.sessions[i]][w := T.sessions[w]]
      && T.sessions[i] == Settle(s, s.pc.m, s.pc.ok)
      && T.sessions[w] == S.sessions[w].(pc := Granted(S.sessions[w].pc.m, S.sessions[w].pc.mode, lease))
      && T.place == S.place[lease := With(w)]
      && T.jobs == S.jobs[lease := S.jobs[lease].(schema := cfg.defaultSchema)]
      && T.pool == ReleaseEnd(S.pool, lease).0
      && T.nextJob == S.nextJob && T.committed == S.committed
  {
    hide Settle, Inv;
    WaiterWaits(S, cfg, S.pool.waiters[0]);
  }

  lemma HandOverQueue(S: System, cfg: Config, i: SessionId)
    requires Inv(S, cfg) && Resets(S, i) && S.pool.waiters != []
    ensures QueueOk(DoReset(S, cfg, i, true)) && CapOk(DoReset(S, cfg, i, true), cfg)
  {
    hide SessionsOk, PlacesOk, IdleOk, BooksOk, QueueOk, CapOk, Settle, DoReset;
    var s := S.sessions[i];
    ResetForWaiter(S, cfg, i);
    CapBound(S, cfg);
    SettlePlain(s, s.pc.m, s.pc.ok);
    QueueServed(S, DoReset(S, cfg, i, true), cfg, i, S.pool.waiters[0]);
  }

  lemma HandOverBooks(S: System, cfg: Config, i: SessionId)
    requires Inv(S, cfg) && Resets(S, i) && S.pool.waiters != []
    ensures BooksOk(DoReset(S, cfg, i, true))
  {
    hide SessionsOk, PlacesOk, IdleOk, BooksOk, QueueOk, CapOk, Uses, Settle, DoReset;
    var s := S.sessions[i];
    ResetForWaiter(S, cfg, i);
    HoldsLease(S, cfg, i);
    HoldsNothing(S, cfg, S.pool.waiters[0]);
    BookedAlready(S, s.pc.lease);
    BooksMove(S, DoReset(S, cfg, i, true), s.pc.lease);
  }

  lemma ResetBooks(S: System, cfg: Config, i: SessionId)
    requires Inv(S, cfg) && Resets(S, i) && S.pool.waiters == []
    ensures PoolOk(DoReset(S, cfg, i, true), cfg)
  {
    hide SessionsOk, PlacesOk, IdleOk, BooksOk, QueueOk, CapOk, Uses, Settle, Continue;
    var s := S.sessions[i];
    HoldsLease(S, cfg, i);
    SettlePlain(s, s.pc.m, s.pc.ok);
    var T := DoReset(S, cfg, i, true);
    BookedAlready(S, s.pc.lease);
    BooksMove(S, T, s.pc.lease);
    QueueMove(S, T, cfg, i);
  }

  lemma ResetStep(S: System, cfg: Config, i: SessionId, ok: bool)
    requires Inv(S, cfg) && Enabled(S, ResetSettled(i, ok))
    ensures Inv(DoReset(S, cfg, i, ok), cfg)
  {
    hide JobsOk, BooksOk, QueueOk, CapOk, DoReset;
    if !ok || S.sessions[i].pc.stage.RollingBack? {
      ResetGoesOnJobs(S, cfg, i, ok);
      ResetGoesOnBooks(S, cfg, i, ok);
    } else if S.pool.waiters != [] {
      HandOverJobs(S, cfg, i);
      HandOverBooks(S, cfg, i);
      HandOverQueue(S, cfg, i);
    } else {
      if S.pool.ending { ShutJobs(S, cfg, i); } else { BackToIdleJobs(S, cfg, i); }
      ResetBooks(S, cfg, i);
    }
  }

  // ---- a discarded job and its replacement ----

  lemma ContinueGood(who: SessionId, s: Session, m: Msg, next: Then, job: Db2.Job)
    requires Lockstep(s) && s.job.None? && (s.closed ==> next.Finish?) && NextFits(s, m, next)
    ensures Good(who, Continue(s, m, next), job)
    ensures Uses(Continue(s, m, next)) == None
    ensures Continue(s, m, next).pc.Ready? || Continue(s, m, next).pc.WantLease?
  {
    match next {
      case Finish(ok) => SettleGood(who, s, m, ok, job);
      case Reacquire(_) =>
    }
  }

  lemma ClosedJobs(S: System, cfg: Config, i: SessionId)
    requires Inv(S, cfg) && Enabled(S, JobClosed(i))
    ensures JobsOk(DoClosed(S, cfg, i), cfg)
  {
    hide SessionsOk, PlacesOk, IdleOk, PoolOk, Continue, Fits, Works, RowsFromDb2;
    var s := S.sessions[i];
    SessionShape(S, i);
    HoldsLease(S, cfg, i);
    ContinueGood(i, s, s.pc.m, s.pc.next, NewJob(cfg));
    GoodShape(i, Continue(s, s.pc.m, s.pc.next), NewJob(cfg));
    LetGoJobs(S, DoClosed(S, cfg, i), cfg, i);
  }

  lemma ClosedQueue(S: System, cfg: Config, i: SessionId)
    requires Inv(S, cfg) && Enabled(S, JobClosed(i))
    requires cfg.limits.startingSize <= cfg.limits.maxSize
    ensures QueueOk(DoClosed(S, cfg, i)) && CapOk(DoClosed(S, cfg, i), cfg)
  {
    hide CountConnecting, Continue, JobsOk, BooksOk;
    var s := S.sessions[i];
    ContinuePlain(s, s.pc.m, s.pc.next);
    CountUpdate(S.sessions, i, DoClosed(S, cfg, i).sessions[i]);
  }

  lemma ClosedBooks(S: System, cfg: Config, i: SessionId)
    requires Inv(S, cfg) && Enabled(S, JobClosed(i))
    ensures BooksOk(DoClosed(S, cfg, i))
  {
    hide SessionsOk, PlacesOk, IdleOk, BooksOk, QueueOk, CapOk, Uses, Settle, Continue;
    HoldsLease(S, cfg, i);
    ContinuePlain(S.sessions[i], S.sessions[i].pc.m, S.sessions[i].pc.next);
    BookedAlready(S, S.sessions[i].pc.lease);
    BooksMove(S, DoClosed(S, cfg, i), S.sessions[i].pc.lease);
  }

  /** A replacement is connected and its session goes on, before anyone has the new job. */
  function Refilled(S: System, cfg: Config, i: SessionId, pool: Pool): System
    requires i < |S.sessions| && S.sessions[i].pc.Replacing?
  {
    var s := S.sessions[i];
    Put(S, i, Continue(s, s.pc.m, s.pc.next)).(
      pool := pool, jobs := S.jobs[S.nextJob := NewJob(cfg)], nextJob := S.nextJob + 1,
      place := S.place[S.nextJob := Gone])
  }

  lemma RefilledSessions(S: System, cfg: Config, i: SessionId, pool: Pool)
    requires Inv(S, cfg) && i < |S.sessions| && S.sessions[i].pc.Replacing?
    ensures SessionsOk(Refilled(S, cfg, i, pool))
    ensures Uses(S.sessions[i]) == None && Uses(Refilled(S, cfg, i, pool).sessions[i]) == None
  {
    hide PoolOk, SessionsOk, PlacesOk, IdleOk, Continue, Fits, WellFormed, NextFits;
    var s := S.sessions[i];
    var T := Refilled(S, cfg, i, pool);
    SessionShape(S, i);
    ContinueGood(i, s, s.pc.m, s.pc.next, NewJob(cfg));
    GoodShape(i, Continue(s, s.pc.m, s.pc.next), NewJob(cfg));
    assert S.nextJob !in S.place by { HoldsNothing(S, cfg, i); }
    hide Uses;
    OthersOk(S, T, i);
  }

  lemma RefilledJobs(S: System, cfg: Config, i: SessionId, pool: Pool)
    requires Inv(S, cfg) && i < |S.sessions| && S.sessions[i].pc.Replacing?
    requires pool.idle == S.pool.idle
    ensures JobsOk(Refilled(S, cfg, i, pool), cfg)
  {
    hide PoolOk, SessionsOk, Continue, Uses;
    RefilledSessions(S, cfg, i, pool);
  }

  lemma ReplacedJobs(S: System, cfg: Config, i: SessionId)
    requires Inv(S, cfg) && Enabled(S, ReplacementConnected(i))
    ensures JobsOk(DoReplaced(S, cfg, i), cfg)
  {
    hide PoolOk, JobsOk, Continue;
    var job := S.nextJob;
    if S.pool.waiters != [] {
      var pool := Replaced(S.pool, job).0;
      var w := S.pool.waiters[0];
      WaiterWaits(S, cfg, w);
      RefilledJobs(S, cfg, i, pool);
      GrantJobs(Refilled(S, cfg, i, pool), cfg, w, job);
      assert Refilled(S, cfg, i, pool).place[job := With(w)] == S.place[job := InIdle][job := With(w)];
    } else {
      var pool := Replaced(S.pool, job).0.(idle := S.pool.idle);
      RefilledJobs(S, cfg, i, pool);
      IdleJobs(Refilled(S, cfg, i, pool), cfg, job);
      assert Refilled(S, cfg, i, pool).place[job := InIdle] == S.place[job := InIdle];
    }
  }

  lemma ContinuePlain(s: Session, m: Msg, next: Then)
    ensures Continue(s, m, next).pc.Ready? || Continue(s, m, next).pc.WantLease?
  {
  }

  lemma ReplacedBooks(S: System, cfg: Config, i: SessionId)
    requires Inv(S, cfg) && Enabled(S, ReplacementConnected(i))
    ensures BooksOk(DoReplaced(S, cfg, i))
  {
    hide DoReplaced, BooksOk, Inv;
    if S.pool.waiters != [] { ReplacedToWaiterBooks(S, cfg, i); } else { ReplacedToIdleBooks(S, cfg, i); }
  }

  /** The state after the replacement of a discarded job went to a waiter. */
  lemma ReplacedForWaiter(S: System, cfg: Config, i: SessionId)
    requires Inv(S, cfg) && Enabled(S, ReplacementConnected(i)) && S.pool.waiters != []
    ensures
      var T := DoReplaced(S, cfg, i);
      var s := S.sessions[i];
      var w := S.pool.waiters[0];
      && w < |S.sessions| && w != i && S.sessions[w].pc.Waiting? && S.sessions[w].job.None?
      && T.sessions == S.sessions[i := T.sessions[i]][w := T.sessions[w]]
      && T.sessions[i] == Continue(s, s.pc.m, s.pc.next)
      && T.sessions[w] == S.sessions[w].(pc := Granted(S.sessions[w].pc.m, S.sessions[w].pc.mode, S.nextJob))
      && T.place == S.place[S.nextJob := With(w)]
      && T.jobs == S.jobs[S.nextJob := NewJob(cfg)]
      && T.pool == Replaced(S.pool, S.nextJob).0
      && T.nextJob == S.nextJob + 1 && T.committed == S.committed
  {
    hide Continue, Inv;
    WaiterWaits(S, cfg, S.pool.waiters[0]);
    assert S.place[S.nextJob := InIdle][S.nextJob := With(S.pool.waiters[0])] == S.place[S.nextJob := With(S.pool.waiters[0])];
  }

  /** Whoever has a job is untouched when two sessions without one move. */
  lemma HoldersStay(S: System, T: System, cfg: Config, i: SessionId, w: SessionId)
    requires Inv(S, cfg) && i < |S.sessions| == |T.sessions| && w < |S.sessions|
    requires S.sessions[i].pc.Replacing? && S.sessions[w].pc.Waiting?
    requires T.sessions == S.sessions[i := T.sessions[i]][w := T.sessions[w]]
    ensures forall j :: j in S.place && S.place[j].With? ==>
      S.place[j].who < |S.sessions| && T.sessions[S.place[j].who] == S.sessions[S.place[j].who]
  {
    hide Inv, Uses;
    HoldsNothing(S, cfg, i);
    HoldsNothing(S, cfg, w);
  }

  lemma ReplacedToWaiterBooks(S: System, cfg: Config, i: SessionId)
    requires Inv(S, cfg) && Enabled(S, ReplacementConnected(i)) && S.pool.waiters != []
    ensures BooksOk(DoReplaced(S, cfg, i))
  {
    hide SessionsOk, PlacesOk, IdleOk, BooksOk, QueueOk, CapOk, Uses, Continue, DoReplaced;
    var T := DoReplaced(S, cfg, i);
    ReplacedForWaiter(S, cfg, i);
    HoldersStay(S, T, cfg, i, S.pool.waiters[0]);
    assert OnLease(T, S.nextJob) && Registered(T, S.nextJob);
    hide OnLease, Registered, BeingInvalidated, NewJob;
    BooksMove(S, T, S.nextJob);
  }

  lemma ReplacedToWaiterQueue(S: System, cfg: Config, i: SessionId)
    requires Inv(S, cfg) && Enabled(S, ReplacementConnected(i)) && S.pool.waiters != []
    ensures QueueOk(DoReplaced(S, cfg, i)) && CapOk(DoReplaced(S, cfg, i), cfg)
  {
    hide SessionsOk, PlacesOk, IdleOk, BooksOk, QueueOk, CapOk, Continue, DoReplaced;
    var s := S.sessions[i];
    ReplacedForWaiter(S, cfg, i);
    ContinuePlain(s, s.pc.m, s.pc.next);
    CapBound(S, cfg);
    assert |S.pool.all + {S.nextJob}| <= |S.pool.all| + 1;
    QueueServed(S, DoReplaced(S, cfg, i), cfg, i, S.pool.waiters[0]);
  }

  lemma ReplacedQueue(S: System, cfg: Config, i: SessionId)
    requires Inv(S, cfg) && Enabled(S, ReplacementConnected(i))
    ensures QueueOk(DoReplaced(S, cfg, i)) && CapOk(DoReplaced(S, cfg, i), cfg)
  {
    hide Continue, JobsOk, BooksOk, QueueOk;
    if S.pool.waiters != [] {
      ReplacedToWaiterQueue(S, cfg, i);
    } else {
      var s := S.sessions[i];
      ContinuePlain(s, s.pc.m, s.pc.next);
      CapBound(S, cfg);
      assert |S.pool.all + {S.nextJob}| <= |S.pool.all| + 1;
      hide CapOk;
      QueueMove(S, DoReplaced(S, cfg, i), cfg, i);
    }
  }

  lemma ReplacedToIdleBooks(S: System, cfg: Config, i: SessionId)
    requires Inv(S, cfg) && Enabled(S, ReplacementConnected(i)) && S.pool.waiters == []
    ensures BooksOk(DoReplaced(S, cfg, i))
  {
    hide SessionsOk, PlacesOk, IdleOk, BooksOk, QueueOk, CapOk, Uses, Settle, Continue, NewJob;
    var s := S.sessions[i];
    HoldsNothing(S, cfg, i);
    BooksMove(S, DoReplaced(S, cfg, i), S.nextJob);
  }

  lemma ReplacementFailedStep(S: System, cfg: Config, i: SessionId)
    requires Inv(S, cfg) && Enabled(S, ReplacementFailed(i))
    ensures Inv(Next(S, cfg, ReplacementFailed(i)), cfg)
  {
    hide JobsOk, BooksOk, QueueOk, CapOk, Next;
    ReplacementFailedJobs(S, cfg, i);
    ReplacementFailedBooks(S, cfg, i);
    ReplacementFailedQueue(S, cfg, i);
  }

  lemma ReplacementFailedJobs(S: System, cfg: Config, i: SessionId)
    requires Inv(S, cfg) && Enabled(S, ReplacementFailed(i))
    ensures JobsOk(Next(S, cfg, ReplacementFailed(i)), cfg)
  {
    hide SessionsOk, PlacesOk, IdleOk, PoolOk, Continue, Fits, WellFormed, Uses, NextFits;
    var s := S.sessions[i];
    SessionShape(S, i);
    ContinueGood(i, s, s.pc.m, s.pc.next, NewJob(cfg));
    HoldsNothing(S, cfg, i);
    GoodShape(i, Continue(s, s.pc.m, s.pc.next), NewJob(cfg));
    KeepsJob(S, Next(S, cfg, ReplacementFailed(i)), cfg, i);
  }

  lemma GoodShape(i: SessionId, s: Session, job: Db2.Job)
    requires Good(i, s, job)
    ensures WellFormed(s)
  {
    hide WellFormed, Fits;
  }

  /** What a session's own invariant says when it gives nothing back and is not at work. */
  lemma SessionShape(S: System, i: SessionId)
    requires SessionsOk(S) && i < |S.sessions|
    ensures Lockstep(S.sessions[i])
    ensures !S.sessions[i].pc.Ready? && !S.sessions[i].pc.Start? && !S.sessions[i].pc.Awaiting? ==> S.sessions[i].job.None?
    ensures S.sessions[i].closed ==> Winding(S.sessions[i].pc)
    ensures S.sessions[i].pc.Closing? || S.sessions[i].pc.Replacing? ==>
      NextFits(S.sessions[i], S.sessions[i].pc.m, S.sessions[i].pc.next)
  {
    assert SessionOk(S, i);
    hide Fits, ModeFits;
  }

  lemma ReplacementFailedBooks(S: System, cfg: Config, i: SessionId)
    requires Inv(S, cfg) && Enabled(S, ReplacementFailed(i))
    ensures BooksOk(Next(S, cfg, ReplacementFailed(i)))
  {
    hide SessionsOk, PlacesOk, IdleOk, BooksOk, QueueOk, CapOk, Uses, Continue;
    var s := S.sessions[i];
    HoldsNothing(S, cfg, i);
    ContinuePlain(s, s.pc.m, s.pc.next);
    BooksMove(S, Next(S, cfg, ReplacementFailed(i)), S.nextJob);
  }

  lemma ReplacementFailedQueue(S: System, cfg: Config, i: SessionId)
    requires Inv(S, cfg) && Enabled(S, ReplacementFailed(i))
    ensures QueueOk(Next(S, cfg, ReplacementFailed(i))) && CapOk(Next(S, cfg, ReplacementFailed(i)), cfg)
  {
    hide JobsOk, BooksOk, Continue, CountConnecting;
    var s := S.sessions[i];
    ContinuePlain(s, s.pc.m, s.pc.next);
    CountUpdate(S.sessions, i, Next(S, cfg, ReplacementFailed(i)).sessions[i]);
  }

  // ---- spans of one session ----

  lemma LocalStep(S: System, cfg: Config, i: SessionId, s: Session, jobs: map<JobId, Db2.Job>)
    requires Inv(S, cfg) && i < |S.sessions|
    requires Plain(S.sessions[i].pc) && Plain(s.pc) && !S.sessions[i].pc.Invalidating?
    requires Uses(s) == Uses(S.sessions[i]) && WellFormed(s)
    requires jobs.Keys == S.jobs.Keys
    requires forall j :: j in jobs && Uses(s) != Some(j) ==> jobs[j] == S.jobs[j]
    requires Uses(s).Some? && Uses(s).value in jobs ==> Fits(i, s, jobs[Uses(s).value])
    ensures Inv(Put(S, i, s).(jobs := jobs), cfg)
  {
    hide WellFormed, Fits, Uses, SessionsOk, PlacesOk, IdleOk, BooksOk, QueueOk, CapOk;
    var T := Put(S, i, s).(jobs := jobs);
    KeepsJob(S, T, cfg, i);
    CapBound(S, cfg);
    QueueMove(S, T, cfg, i);
    LocalBooks(S, T, i, s);
  }

  lemma LocalBooks(S: System, T: System, i: SessionId, s: Session)
    requires SessionsOk(S) && PlacesOk(S) && BooksOk(S) && i < |S.sessions|
    requires Plain(S.sessions[i].pc) && Plain(s.pc) && !S.sessions[i].pc.Invalidating?
    requires T == Put(S, i, s).(jobs := T.jobs)
    ensures BooksOk(T)
  {
    hide WellFormed, Fits, Uses, SessionsOk, PlacesOk, BooksOk;
    WantsNoJob(S, i);
    PlacesOf(S, i);
    var u := Uses(S.sessions[i]);
    var job := if u.Some? then u.value else S.nextJob;
    BookedAlready(S, job);
    BooksMove(S, T, job);
  }

  /** The books are right for every job to begin with. */
  lemma BookedAlready(S: System, job: JobId)
    requires BooksOk(S)
    ensures S.pool.all <= S.place.Keys && S.pool.leased <= S.place.Keys
    ensures !S.pool.ending && job in S.place ==>
      && (job in S.pool.all <==> Registered(S, job))
      && (BeingInvalidated(S, job) || (job in S.pool.leased <==> OnLease(S, job)))
  {
  }

  // ---- shutdown ----

  lemma EndingJobs(S: System, cfg: Config)
    requires Inv(S, cfg) && Enabled(S, PoolEnding)
    ensures JobsOk(Next(S, cfg, PoolEnding), cfg)
  {
    hide PoolOk, Fits;
    var T := Next(S, cfg, PoolEnding);
    forall k | 0 <= k < |T.sessions| ensures SessionOk(T, k) && Uses(T.sessions[k]) == Uses(S.sessions[k]) {
      assert SessionOk(S, k);
      if S.sessions[k].pc.Waiting? { RejectedKeeps(S.sessions[k]); }
    }
    hide WellFormed, Uses;
  }

  lemma RejectedKeeps(s: Session)
    requires WellFormed(s) && s.pc.Waiting?
    ensures var t := s.(pc := Refused(s.pc.m, s.pc.mode)); WellFormed(t) && Uses(t) == Uses(s) == None
  {
  }

  lemma EndingBooks(S: System, cfg: Config)
    requires Inv(S, cfg) && Enabled(S, PoolEnding)
    ensures PoolOk(Next(S, cfg, PoolEnding), cfg)
  {
    hide CountConnecting, JobsOk;
    CountReject(S.sessions);
  }

  lemma EndedStep(S: System, cfg: Config)
    requires Inv(S, cfg) && Enabled(S, PoolEnded)
    ensures Inv(Next(S, cfg, PoolEnded), cfg)
  {
    hide CountConnecting, WellFormed, Fits, Uses;
    var T := Next(S, cfg, PoolEnded);
    forall k | 0 <= k < |T.sessions| ensures SessionOk(T, k) {
      assert SessionOk(S, k);
    }
  }

  // ---- every action, every run ----

  /** What the job in a session's hands looks like, if it has one. */
  function JobOf(S: System, cfg: Config, i: SessionId): Db2.Job
    requires i < |S.sessions|
  {
    var u := Uses(S.sessions[i]);
    if u.Some? && u.value in S.jobs then S.jobs[u.value] else NewJob(cfg)
  }

  lemma SessionGood(S: System, cfg: Config, i: SessionId)
    requires Inv(S, cfg) && i < |S.sessions|
    ensures Good(i, S.sessions[i], JobOf(S, cfg, i))
    ensures S.sessions[i].closed ==> Winding(S.sessions[i].pc)
    ensures Lockstep(S.sessions[i])
  {
    assert SessionOk(S, i);
    hide Fits, Uses, SessionsOk, PoolOk, PlacesOk, IdleOk;
  }

  /** A span of the session's own: it keeps what holds of the session. */
  lemma SpanGood(S: System, cfg: Config, a: Action)
    requires Inv(S, cfg) && Enabled(S, a) && OwnSpan(a)
    ensures
      var t := Next(S, cfg, a).sessions[a.who];
      && Good(a.who, t, JobOf(S, cfg, a.who)) && Uses(t) == Uses(S.sessions[a.who]) && Plain(t.pc)
  {
    hide Inv, Receive, Close, Settle, StartBody, EnterApp, Fits;
    var i := a.who;
    var s := S.sessions[i];
    var job := JobOf(S, cfg, i);
    SessionGood(S, cfg, i);
    match a {
      case Receiving(_, m) => ReceiveGood(i, s, m, job);
      case SocketClosing(_) => CloseGood(i, s, job);
      case LeaseTaken(_) => TakenGood(i, s, job);
      case LeaseRefused(_) => SettleGood(i, Abandoned(s, s.pc.mode), s.pc.m, false, job);
      case BodyStarting(_) => BegunGood(i, s, job);
    }
  }

  lemma TakenGood(who: SessionId, s: Session, job: Db2.Job)
    requires s.pc.Granted? && Good(who, s, job)
    ensures Good(who, TakeLease(s), job) && Uses(TakeLease(s)) == Uses(s) && Plain(TakeLease(s).pc)
  {
  }

  lemma SessionStep(S: System, cfg: Config, a: Action)
    requires Inv(S, cfg) && Enabled(S, a) && OwnSpan(a)
    ensures Inv(Next(S, cfg, a), cfg)
  {
    hide Inv, Receive, Close, Settle, TakeLease, LeaseDenied, Begun, WellFormed, Fits, Uses;
    SpanGood(S, cfg, a);
    var t := Next(S, cfg, a).sessions[a.who];
    assert Next(S, cfg, a) == Put(S, a.who, t).(jobs := S.jobs);
    assert Plain(S.sessions[a.who].pc) && !S.sessions[a.who].pc.Invalidating?;
    hide Next, Enabled, Plain;
    LocalStep(S, cfg, a.who, t, S.jobs);
  }

  lemma OpStep(S: System, cfg: Config, i: SessionId, ok: bool, transport: bool, creates: bool)
    requires Inv(S, cfg) && Enabled(S, OpSettled(i, ok, transport, creates))
    ensures Inv(DoOp(S, cfg, i, ok, transport, creates), cfg)
  {
    var s := S.sessions[i];
    var j := s.job.value;
    var T := DoOp(S, cfg, i, ok, transport, creates);
    assert SessionOk(S, i);
    hide PoolOk, SessionsOk, PlacesOk, IdleOk, Resume, Fits, WellFormed;
    var effect := Db2.Perform(S.jobs[j], OpAt(s, i, s.pc.m, s.pc.at, creates));
    if ok && effect.Applied? {
      OpGood(i, s, creates, cfg.retries, S.jobs[j]);
    } else {
      FailedOpGood(i, s, transport, cfg.retries, S.jobs[j]);
    }
    hide Inv;
    LocalStep(S, cfg, i, T.sessions[i], T.jobs) by { assert Inv(S, cfg); }
    InvIgnoresCommitted(Put(S, i, T.sessions[i]).(jobs := T.jobs), T, cfg);
  }

  lemma InvIgnoresCommitted(S: System, T: System, cfg: Config)
    requires Inv(S, cfg) && T == S.(committed := T.committed)
    ensures Inv(T, cfg)
  {
    hide WellFormed, Fits, Uses, CountConnecting;
    forall k | 0 <= k < |T.sessions| ensures SessionOk(T, k) {
      assert SessionOk(S, k);
    }
  }

  lemma NextKeepsInv(S: System, cfg: Config, a: Action)
    requires Inv(S, cfg) && Enabled(S, a) && cfg.limits.startingSize <= cfg.limits.maxSize
    ensures Inv(Next(S, cfg, a), cfg)
  {
    hide JobsOk, BooksOk, QueueOk, CapOk, DoAcquire, DoConnected, DoOp, DoRelease, DoReset, DoInvalidate, DoClosed, DoReplaced;
    match a {
      case Receiving(_, _) => SessionStep(S, cfg, a);
      case SocketClosing(_) => SessionStep(S, cfg, a);
      case Acquiring(i) =>
        if !S.pool.ending && S.pool.idle != [] {
          LeaseIdleJobs(S, cfg, i); LeaseIdleBooks(S, cfg, i);
        } else {
          AskJobs(S, cfg, i); AskBooks(S, cfg, i);
        }
      case JobConnected(i) => ConnectedJobs(S, cfg, i); ConnectedBooks(S, cfg, i); ConnectedQueue(S, cfg, i);
      case JobConnectFailed(_) => RefusedJobs(S, cfg, a); RefusedBooks(S, cfg, a);
      case LeaseTimeout(_) => RefusedJobs(S, cfg, a); RefusedBooks(S, cfg, a);
      case LeaseTaken(_) => SessionStep(S, cfg, a);
      case LeaseRefused(_) => SessionStep(S, cfg, a);
      case BodyStarting(_) => SessionStep(S, cfg, a);
      case OpSettled(i, ok, transport, creates) => OpStep(S, cfg, i, ok, transport, creates);
      case ReleaseCalled(i) =>
        if S.sessions[i].pc.lease in S.pool.all { ReleaseKnownJobs(S, cfg, i); } else { ReleaseUnknownJobs(S, cfg, i); }
        ReleaseBooks(S, cfg, i);
      case ResetSettled(i, ok) => ResetStep(S, cfg, i, ok);
      case InvalidateCalled(i) => InvalidateJobs(S, cfg, i); InvalidateBooks(S, cfg, i);
      case JobClosed(i) => ClosedJobs(S, cfg, i); ClosedBooks(S, cfg, i); ClosedQueue(S, cfg, i);
      case ReplacementConnected(i) => ReplacedJobs(S, cfg, i); ReplacedBooks(S, cfg, i); ReplacedQueue(S, cfg, i);
      case ReplacementFailed(i) => ReplacementFailedStep(S, cfg, i);
      case PoolEnding => EndingJobs(S, cfg); EndingBooks(S, cfg);
      case PoolEnded => EndedStep(S, cfg);
    }
  }

  lemma {:induction false} NobodyConnects(ss: seq<Session>)
    requires forall k :: 0 <= k < |ss| ==> !IsConnecting(ss[k])
    ensures CountConnecting(ss) == 0
  {
    if ss != [] {
      NobodyConnects(ss[..|ss| - 1]);
    }
  }

  lemma {:induction false} DistinctCount<T>(xs: seq<T>)
    requires Distinct(xs)
    ensures |set x | x in xs| == |xs|
  {
    if xs != [] {
      var front := xs[..|xs| - 1];
      DistinctCount(front);
      assert (set x | x in xs) == (set x | x in front) + {xs[|xs| - 1]};
    }
  }

  lemma InitialInv(S: System, cfg: Config)
    requires Initial(S, cfg)
    ensures Inv(S, cfg)
  {
    NobodyConnects(S.sessions);
    DistinctCount(S.pool.idle);
    forall k | 0 <= k < |S.sessions| ensures SessionOk(S, k) {
      assert S.sessions[k] == Fresh(S.sessions[k].schema);
    }
  }

  /** The invariant holds in every state of every run. */
  lemma {:induction false} RunInv(run: seq<System>, acts: seq<Action>, cfg: Config, k: nat)
    requires IsRun(run, acts, cfg) && k < |run|
    ensures Inv(run[k], cfg)
  {
    if k == 0 {
      InitialInv(run[0], cfg);
    } else {
      RunInv(run, acts, cfg, k - 1);
      NextKeepsInv(run[k - 1], cfg, acts[k - 1]);
    }
  }
}
