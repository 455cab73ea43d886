/**
 When the environments of an attempt in use are left alone, and the run in which the cleanup of a failed
 try takes away the environment of the next.
 */
module ProtocolCleanup {
  import opened Wrappers
  import opened AttemptLifecycle
  import opened AttemptProtocol
  import opened ProtocolInvariant
  import opened ProtocolLedger
  import opened ProtocolNoStrand
  import opened ProtocolScenes

  // ----- who cleans up

  // A thread at work on a cleanup of its attempt, or about to enqueue one for it after a failure or after
  // the grading.
  predicate CleansPc(pc: Pc) {
    pc.Cleanup? || pc == Provision(FailCleanup) || pc == Grade(EnqueueCleanup)
  }

  predicate EnqueuesCleanup(op: Op, a: Id) {
    op.Enqueue? && op.kind == CleanupJob && op.attempt == a
  }

  // No sweep and no administrator enqueues a cleanup for the attempt.
  predicate Spares(s: State, act: Action, a: Id) {
    act.Step? && act.thread in s.threads ==>
      var th := s.threads[act.thread]; EnqueuesCleanup(Code(s, th, act.choice).op, a) ==> CleansPc(th.pc)
  }

  predicate SparedRun(s: State, acts: seq<Action>, a: Id)
    decreases |acts|
  {
    acts == [] || (Spares(s, acts[0], a) && SparedRun(Apply(s, acts[0]), acts[1..], a))
  }

  // The environment a cleanup has found.
  function Found(pc: Pc): Option<Id> {
    match pc
    case Cleanup(SetDestroying(e)) => Some(e)
    case Cleanup(DestroyVMs(e)) => Some(e)
    case Cleanup(SetFailed(e)) => Some(e)
    case Cleanup(SetDestroyed(e)) => Some(e)
    case _ => None
  }

  // What a call has to do with cleaning up.
  predicate CleansOn(s: State, th: Thread, e: Effect) {
    && (CleansPc(th.pc) && e.op.Enqueue? ==> e.op.attempt == th.attempt)
    && (CleansPc(e.pc) ==>
          && e.attempt == th.attempt
          && (CleansPc(th.pc)
              || e.op == SetStatus(th.attempt, MarkFailed) || e.op == SetStatus(th.attempt, FinishGrading)))
    && (e.op.SetEnvironmentStatus? ==> Found(th.pc) == Some(e.op.env))
    && (e.op.InsertEnvironment? ==> e.op.environment.status == EnvReady)
    && (Found(e.pc).Some? ==>
          && e.attempt == th.attempt
          && (Found(th.pc) == Found(e.pc) || EnvironmentOf(s, Found(e.pc).value, th.attempt)))
  }

  lemma ProvisionCleansOn(s: State, th: Thread, pc: ProvisionPc, c: Choice)
    requires th.pc == Provision(pc)
    ensures CleansOn(s, th, ProvisionCode(s, th, pc, c))
  {
  }

  lemma GradeCleansOn(s: State, th: Thread, pc: GradePc, c: Choice)
    requires th.pc == Grade(pc)
    ensures CleansOn(s, th, GradeCode(s, th, pc, c))
  {
  }

  lemma CleanupCleansOn(s: State, th: Thread, pc: CleanupPc, c: Choice)
    requires th.pc == Cleanup(pc)
    ensures CleansOn(s, th, CleanupCode(s, th, pc, c))
  {
  }

  lemma ClientCleansOn(s: State, th: Thread, pc: ClientPc, c: Choice)
    requires th.pc == Client(pc)
    ensures CleansOn(s, th, ClientCode(s, th, pc, c))
  {
  }

  lemma SweepCleansOn(s: State, th: Thread, pc: SweepPc, c: Choice)
    requires th.pc == Sweep(pc)
    ensures CleansOn(s, th, SweepCode(s, th, pc, c))
  {
  }

  lemma CallCleansOn(s: State, th: Thread, c: Choice)
    ensures CleansOn(s, th, Code(s, th, c))
  {
    match th.pc
    case Request(pc) => assert CleansOn(s, th, RequestCode(s, th, pc, c));
    case Provision(pc) => ProvisionCleansOn(s, th, pc, c);
    case Grade(pc) => GradeCleansOn(s, th, pc, c);
    case Cleanup(pc) => CleanupCleansOn(s, th, pc, c);
    case Client(pc) => ClientCleansOn(s, th, pc, c);
    case Sweep(pc) => SweepCleansOn(s, th, pc, c);
    case TransitionRead(_) =>
    case TransitionWrite(_, _) =>
    case Done(_) =>
  }

  // ----- what is kept

  // The environment found is one of the thread's attempt.
  predicate FindsOwn(s: State, th: Thread) {
    Found(th.pc).Some? ==> EnvironmentOf(s, Found(th.pc).value, th.attempt)
  }

  ghost predicate AllFindOwn(s: State) {
    forall t | t in s.threads :: FindsOwn(s, s.threads[t])
  }

  // No cleanup of the attempt is queued, under way or about to be enqueued, and its environments are ready.
  ghost predicate Untouched(s: State, a: Id) {
    && (forall j | j in s.jobs :: s.jobs[j] != Job(CleanupJob, a))
    && (forall t | t in s.threads && s.threads[t].attempt == a :: !CleansPc(s.threads[t].pc))
    && (forall e | EnvironmentOf(s, e, a) :: s.environments[e].status == EnvReady)
  }

  // On its first try, which has neither failed nor come to a score.
  predicate FirstTry(s: State, a: Id) {
    a in s.attempts ==>
      s.attempts[a].book.resets == 0 && s.attempts[a].status != ProvisionFailed && s.attempts[a].status != Scored
  }

  lemma WasFirstTry(s: State, t: Id, op: Op, a: Id)
    requires OpOk(s, t, op) && OpFresh(s, op, a) && FirstTry(Perform(s, t, op), a)
    ensures FirstTry(s, a) && op != SetStatus(a, MarkFailed) && op != SetStatus(a, FinishGrading)
  {
    if a in s.attempts { PerformAttempt(s, t, op, a); }
  }

  lemma OpJobs(s: State, t: Id, op: Op, a: Id)
    requires forall j | j in s.jobs :: s.jobs[j] != Job(CleanupJob, a)
    requires !EnqueuesCleanup(op, a)
    ensures forall j | j in Perform(s, t, op).jobs :: Perform(s, t, op).jobs[j] != Job(CleanupJob, a)
  {
  }

  lemma OpEnvironments(s: State, t: Id, op: Op, a: Id)
    requires OpOk(s, t, op) && (op.InsertEnvironment? ==> op.environment.status == EnvReady)
    requires op.SetEnvironmentStatus? ==> !EnvironmentOf(s, op.env, a)
    requires forall e | EnvironmentOf(s, e, a) :: s.environments[e].status == EnvReady
    ensures forall e | EnvironmentOf(Perform(s, t, op), e, a) :: Perform(s, t, op).environments[e].status == EnvReady
  {
    forall e | EnvironmentOf(Perform(s, t, op), e, a) ensures Perform(s, t, op).environments[e].status == EnvReady {
      assert e in s.environments && s.environments[e].attempt == a ==> EnvironmentOf(s, e, a);
    }
  }

  lemma OpKeepsFound(s: State, t: Id, op: Op, th: Thread)
    requires OpOk(s, t, op) && FindsOwn(s, th)
    ensures FindsOwn(Perform(s, t, op), th)
  {
  }

  lemma FoundIgnoresThreads(s: State, threads: map<Id, Thread>, born: set<Id>, th: Thread)
    requires FindsOwn(s, th)
    ensures FindsOwn(s.(threads := threads, born := born), th)
  {
  }

  lemma StepFindsOwn(s: State, t: Id, c: Choice)
    requires Inv(s) && AllFindOwn(s) && t in s.threads
    ensures AllFindOwn(StepState(s, t, c))
  {
    var e, s' := Code(s, s.threads[t], c), StepState(s, t, c);
    CallCleansOn(s, s.threads[t], c);
    StepEffect(s, t, c);
    hide Inv, Code, EffectOk;
    forall u | u in s'.threads ensures FindsOwn(s', s'.threads[u]) {
      var th := s'.threads[u];
      assert FindsOwn(s, s.threads[u]);
      OpKeepsFound(s, t, e.op, th);
      FoundIgnoresThreads(Perform(s, t, e.op), s'.threads, s'.born, th);
    }
  }

  lemma StepUntouched(s: State, t: Id, c: Choice, a: Id)
    requires Inv(s) && AllFindOwn(s) && t in s.threads && (FirstTry(s, a) ==> Untouched(s, a))
    requires Fresh(s, Step(t, c), a) && Spares(s, Step(t, c), a) && FirstTry(StepState(s, t, c), a)
    ensures Untouched(StepState(s, t, c), a)
  {
    var th := s.threads[t];
    var e, s' := Code(s, th, c), StepState(s, t, c);
    CallCleansOn(s, th, c);
    StepEffect(s, t, c);
    StepFresh(s, t, c, a);
    assert FindsOwn(s, th);
    hide Inv, Code, Fresh;
    WasFirstTry(s, t, e.op, a);
    if th.attempt == a { assert !CleansPc(th.pc); }
    OpJobs(s, t, e.op, a);
    OpEnvironments(s, t, e.op, a);
    hide Perform;
    assert s'.jobs == Perform(s, t, e.op).jobs && s'.environments == Perform(s, t, e.op).environments;
    forall x | EnvironmentOf(s', x, a) ensures s'.environments[x].status == EnvReady {
      assert EnvironmentOf(Perform(s, t, e.op), x, a);
    }
  }

  lemma CrashFindsOwn(s: State, t: Id)
    requires Inv(s) && AllFindOwn(s) && t in s.threads
    ensures AllFindOwn(CrashState(s, t))
  {
    var op, s' := CrashOp(s.threads[t]), CrashState(s, t);
    CrashEffect(s, t);
    hide Inv;
    forall u | u in s'.threads ensures FindsOwn(s', s'.threads[u]) {
      assert FindsOwn(s, s.threads[u]);
      OpKeepsFound(s, t, op, s'.threads[u]);
      FoundIgnoresThreads(Perform(s, t, op), s'.threads, s'.born, s'.threads[u]);
    }
  }

  lemma CrashUntouched(s: State, t: Id, a: Id)
    requires Inv(s) && t in s.threads && (FirstTry(s, a) ==> Untouched(s, a)) && FirstTry(CrashState(s, t), a)
    ensures Untouched(CrashState(s, t), a)
  {
    var op, s' := CrashOp(s.threads[t]), CrashState(s, t);
    CrashEffect(s, t);
    hide Inv;
    WasFirstTry(s, t, op, a);
    OpJobs(s, t, op, a);
    OpEnvironments(s, t, op, a);
    forall x | EnvironmentOf(s', x, a) ensures s'.environments[x].status == EnvReady {
      assert EnvironmentOf(Perform(s, t, op), x, a);
    }
  }

  // Threads that come in or go, and purchases, change nothing here.
  lemma RestUntouched(s: State, s': State, a: Id)
    requires s'.attempts == s.attempts && s'.environments == s.environments
    requires forall j | j in s'.jobs :: j in s.jobs && s'.jobs[j] == s.jobs[j]
    requires forall u | u in s'.threads ::
               (u in s.threads && s'.threads[u] == s.threads[u]) || StartsIn(s, s'.threads[u])
    ensures AllFindOwn(s) ==> AllFindOwn(s')
    ensures Untouched(s, a) ==> Untouched(s', a)
  {
    if AllFindOwn(s) {
      forall u | u in s'.threads ensures FindsOwn(s', s'.threads[u]) {
        if u in s.threads && s'.threads[u] == s.threads[u] { assert FindsOwn(s, s.threads[u]); }
      }
    }
    if Untouched(s, a) {
      forall x | EnvironmentOf(s', x, a) ensures s'.environments[x].status == EnvReady {
        assert EnvironmentOf(s, x, a);
      }
    }
  }

  // A new thread cleans only for a cleanup job that was queued for its attempt.
  predicate StartsIn(s: State, th: Thread) {
    Found(th.pc).None? && (CleansPc(th.pc) ==> exists j | j in s.jobs :: s.jobs[j] == Job(CleanupJob, th.attempt))
  }

  lemma DeliveredStartsIn(s: State, j: Id)
    requires j in s.jobs
    ensures StartsIn(s, Delivered(s, j))
  {
    assert s.jobs[j] == Job(s.jobs[j].kind, s.jobs[j].attempt);
  }

  lemma EntryStartsIn(s: State, call: ClientCall)
    ensures StartsIn(s, Entry(call))
  {
  }

  lemma StartUntouched(s: State, t: Id, th: Thread, a: Id)
    requires StartsIn(s, th)
    ensures AllFindOwn(s) ==> AllFindOwn(Start(s, t, th))
    ensures Untouched(s, a) ==> Untouched(Start(s, t, th), a)
  {
    hide StartsIn, AllFindOwn, Untouched;
    RestUntouched(s, Start(s, t, th), a);
  }

  lemma ReturnUntouched(s: State, t: Id, a: Id)
    requires t in s.threads && s.threads[t].pc.Done?
    ensures AllFindOwn(s) ==> AllFindOwn(ReturnState(s, t))
    ensures Untouched(s, a) ==> Untouched(ReturnState(s, t), a)
  {
    hide AllFindOwn, Untouched;
    RestUntouched(s, ReturnState(s, t), a);
  }

  lemma OtherUntouched(s: State, act: Action, a: Id)
    requires !act.Step? && !act.Crash?
    ensures AllFindOwn(s) ==> AllFindOwn(Apply(s, act))
    ensures Untouched(s, a) ==> Untouched(Apply(s, act), a)
  {
    hide Untouched, AllFindOwn, StepState, CrashState, ReturnState, Start, Entry, Delivered, StartsIn;
    match act
    case Buy(_, _, _) => RestUntouched(s, Apply(s, act), a);
    case Arrive(t, call) =>
      EntryStartsIn(s, call);
      StartUntouched(s, t, Entry(call), a);
    case Deliver(t, j) =>
      if j in s.jobs {
        DeliveredStartsIn(s, j);
        StartUntouched(s, t, Delivered(s, j), a);
      }
    case Return(t) => if t in s.threads && s.threads[t].pc.Done? { ReturnUntouched(s, t, a); }
  }

  lemma OtherKeepsTry(s: State, act: Action, a: Id)
    requires !act.Step? && !act.Crash?
    ensures FirstTry(Apply(s, act), a) == FirstTry(s, a)
  {
  }

  lemma ApplyUntouched(s: State, act: Action, a: Id)
    requires Inv(s) && AllFindOwn(s) && (FirstTry(s, a) ==> Untouched(s, a)) && Fresh(s, act, a) && Spares(s, act, a)
    ensures AllFindOwn(Apply(s, act)) && (FirstTry(Apply(s, act), a) ==> Untouched(Apply(s, act), a))
  {
    hide Inv, Fresh, Spares, Untouched, AllFindOwn, StepState, CrashState, FirstTry;
    match act
    case Step(t, c) =>
      if t in s.threads {
        StepFindsOwn(s, t, c);
        if FirstTry(StepState(s, t, c), a) { StepUntouched(s, t, c, a); }
      }
    case Crash(t) =>
      if t in s.threads {
        CrashFindsOwn(s, t);
        if FirstTry(CrashState(s, t), a) { CrashUntouched(s, t, a); }
      }
    case _ =>
      OtherUntouched(s, act, a);
      OtherKeepsTry(s, act, a);
  }

  lemma {:induction false} RunUntouched(s: State, acts: seq<Action>, a: Id)
    requires Inv(s) && AllFindOwn(s) && (FirstTry(s, a) ==> Untouched(s, a))
    requires FreshRun(s, acts, a) && SparedRun(s, acts, a)
    ensures FirstTry(Run(s, acts), a) ==> Untouched(Run(s, acts), a)
    decreases |acts|
  {
    if acts != [] {
      ApplyKeeps(s, acts[0]);
      ApplyUntouched(s, acts[0], a);
      hide Inv, AllFindOwn, FirstTry, Untouched, Fresh, Spares, Apply;
      RunUntouched(Apply(s, acts[0]), acts[1..], a);
    }
  }

  // While an attempt is in use on its first try, no cleanup of it is queued or under way and every one of
  // its environments is ready, provided that its status writes are fresh and that no sweep and no
  // administrator enqueues one.
  lemma FirstTryIsUntouched(acts: seq<Action>, a: Id)
    requires FreshRun(INITIAL, acts, a) && SparedRun(INITIAL, acts, a)
    requires var s := Run(INITIAL, acts); a in s.attempts && s.attempts[a].book.resets == 0
    requires var st := Run(INITIAL, acts).attempts[a].status; Late(st) && st != Scored
    ensures var s := Run(INITIAL, acts);
            && (forall j | j in s.jobs :: s.jobs[j] != Job(CleanupJob, a))
            && (forall e | EnvironmentOf(s, e, a) :: s.environments[e].status == EnvReady)
  {
    InitialOk();
    RunUntouched(INITIAL, acts, a);
  }

  // ----- the second try

  // The first try has failed, its cleanup is queued as job n, and its handler is gone with its own job.
  lemma FailsWithCleanup() returns (f: State)
    ensures Cleanly(INITIAL, f, 4) && Stage(f, 4, ProvisionFailed, 8) && f.threads == map[] && f.environments == map[]
    ensures f.jobs == map[7 := Job(CleanupJob, 4)]
  {
    hide Cleanly;
    var b := IsBuilding();
    AboutToFail(INITIAL, b, 6, OldJob(), 4, 7);
    var th0 := Thread(OldJob(), 4, TransitionWrite(MarkFailed, EnvironmentProvisioning));
    var th1 := Thread(OldJob(), 4, Provision(FailCleanup));
    var c := Setting(b, 6, 4, MarkFailed);
    Next(INITIAL, b, 6, th0, Works(0), c, th1, 4);
    StageAfterStatus(b, 6, 4, EnvironmentProvisioning, 7, MarkFailed);
    f := CleansFailure(c);
  }

  lemma CleansFailure(c: State) returns (f: State)
    requires Cleanly(INITIAL, With(c, 6, Thread(OldJob(), 4, Provision(FailCleanup))), 4) && c.environments == map[]
    requires Stage(c, 4, ProvisionFailed, 7) && c.threads == map[] && c.jobs == map[5 := Job(ProvisionJob, 4)]
    ensures Cleanly(INITIAL, f, 4) && Stage(f, 4, ProvisionFailed, 8) && f.threads == map[] && f.environments == map[]
    ensures f.jobs == map[7 := Job(CleanupJob, 4)]
  {
    hide Cleanly;
    var th1, th2 := Thread(OldJob(), 4, Provision(FailCleanup)), Thread(OldJob(), 4, Provision(FailRefund));
    var d := PutJob(c, 7, CleanupJob, 4);
    assert 7 !in c.epochs;
    Next(INITIAL, c, 6, th1, Works(7), d, th2, 4);
    StageEnqueued(c, 4, ProvisionFailed, 7, CleanupJob);
    assert d.jobs == map[5 := Job(ProvisionJob, 4), 7 := Job(CleanupJob, 4)];
    hide Stage, PutJob;
    f := RefundsAndReturns(d);
  }

  lemma RefundsAndReturns(d: State) returns (f: State)
    requires Cleanly(INITIAL, With(d, 6, Thread(OldJob(), 4, Provision(FailRefund))), 4) && d.environments == map[]
    requires Stage(d, 4, ProvisionFailed, 8) && d.threads == map[]
    requires d.jobs == map[5 := Job(ProvisionJob, 4), 7 := Job(CleanupJob, 4)]
    ensures Cleanly(INITIAL, f, 4) && Stage(f, 4, ProvisionFailed, 8) && f.threads == map[] && f.environments == map[]
    ensures f.jobs == map[7 := Job(CleanupJob, 4)]
  {
    hide Cleanly;
    var e, th2 := SettleOp(d, 6, 4, 1), Thread(OldJob(), 4, Provision(FailRefund));
    var th3 := Thread(OldJob(), 4, Done(true));
    Next(INITIAL, d, 6, th2, Works(0), e, th3, 4);
    assert Stage(e, 4, ProvisionFailed, 8) && e.threads == map[] && e.jobs == d.jobs && e.environments == map[];
    hide SettleOp, Stage;
    Returning(INITIAL, e, 6, th3, 4);
    f := Returned(e, 6, th3);
    StageReturned(e, 4, ProvisionFailed, 8, 6, th3);
    assert Remove(d.jobs, 5) == map[7 := Job(CleanupJob, 4)];
  }

  // The reset has enqueued provisioning job 8 beside cleanup job 7.
  lemma RetriesBesideCleanup() returns (g: State)
    ensures Cleanly(INITIAL, g, 4) && Stage(g, 4, AttemptRequested, 9) && g.environments == map[]
    ensures g.jobs == map[7 := Job(CleanupJob, 4), 8 := Job(ProvisionJob, 4)]
  {
    hide Cleanly;
    var f := FailsWithCleanup();
    assert 8 !in f.born && 8 !in f.epochs;
    Retries(INITIAL, f, 8, 4, 8);
    var c, th := Setting(f, 8, 4, Reset), Thread(None, 4, Done(true));
    StageAfterStatus(f, 8, 4, ProvisionFailed, 8, Reset);
    hide Setting;
    var d := PutJob(c, 8, ProvisionJob, 4);
    Next(INITIAL, c, 8, Thread(None, 4, Client(EnqueueProvision)), Works(8), d, th, 4);
    StageEnqueued(c, 4, AttemptRequested, 8, ProvisionJob);
    StageOn(d, 4, AttemptRequested, 9, 8, th);
    g := With(d, 8, th);
  }

  // The second try is running in environment 9 and cleanup job 7 is still queued.
  lemma RunsBesideCleanup() returns (h: State)
    ensures Cleanly(INITIAL, h, 4) && Stage(h, 4, Running, 11) && 7 in h.jobs && h.jobs[7] == Job(CleanupJob, 4)
    ensures h.environments == map[9 := Environment(4, EnvReady, Some(""), Some(""))]
  {
    hide Cleanly, Stage, Provisioned, Started;
    var g := RetriesBesideCleanup();
    Provisions(INITIAL, g, 9, 8, 4, 9);
    var e := Provisioned(g, 9, 8, 4, 9);
    Starts(INITIAL, e, 10, 4, 9, 10);
    h := Started(e, 10, 4, 9);
  }

  function EnvironmentSet(b: State, e: Id, st: EnvironmentStatus): State {
    if e in b.environments then b.(environments := b.environments[e := b.environments[e].(status := st)]) else b
  }

  // A cleanup that finds environment e destroys it.
  lemma CleansUp(s0: State, b: State, t: Id, j: Id, a: Id, e: Id)
    requires Cleanly(s0, b, a) && t !in b.born && j in b.jobs && b.jobs[j] == Job(CleanupJob, a)
    requires EnvironmentOf(b, e, a)
    ensures var b' := EnvironmentSet(EnvironmentSet(b, e, EnvDestroying), e, EnvDestroyed);
            Cleanly(s0, With(b', t, Handling(j, CleanupJob, a, TransitionRead(MarkDestroyed))), a)
  {
    hide Cleanly;
    var b1 := EnvironmentSet(b, e, EnvDestroying);
    Delivering(s0, b, t, j, CleanupJob, a);
    Next(s0, b, t, Handling(j, CleanupJob, a, Cleanup(FindEnvironment)), Finds(e), b,
         Handling(j, CleanupJob, a, Cleanup(SetDestroying(e))), a);
    Next(s0, b, t, Handling(j, CleanupJob, a, Cleanup(SetDestroying(e))), Works(0), b1,
         Handling(j, CleanupJob, a, Cleanup(DestroyVMs(e))), a);
    Next(s0, b1, t, Handling(j, CleanupJob, a, Cleanup(DestroyVMs(e))), Works(0), b1,
         Handling(j, CleanupJob, a, Cleanup(SetDestroyed(e))), a);
    Next(s0, b1, t, Handling(j, CleanupJob, a, Cleanup(SetDestroyed(e))), Works(0), EnvironmentSet(b1, e, EnvDestroyed),
         Handling(j, CleanupJob, a, TransitionRead(MarkDestroyed)), a);
  }

  // A cleanup enqueued when the first try failed and delivered late destroys the only environment of an
  // attempt that is running on its second try, without a stale write or a failing critical call.
  lemma LateCleanupHitsTheSecondTry()
    ensures exists s, e ::
              && Cleanly(INITIAL, s, 4) && 4 in s.attempts && s.attempts[4].status == Running
              && EnvironmentOf(s, e, 4) && s.environments[e].status == EnvDestroyed
              && forall x | EnvironmentOf(s, x, 4) :: x == e
  {
    hide Cleanly;
    var h := RunsBesideCleanup();
    CleansUp(INITIAL, h, 11, 7, 4, 9);
    var b := EnvironmentSet(EnvironmentSet(h, 9, EnvDestroying), 9, EnvDestroyed);
    var s := With(b, 11, Handling(7, CleanupJob, 4, TransitionRead(MarkDestroyed)));
    assert EnvironmentOf(s, 9, 4) && s.environments[9].status == EnvDestroyed;
  }
}
