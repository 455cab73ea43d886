/**
 What stands in the tables when a thread comes to a call that cannot be taken back, and when it returns a
 nil error. Both hold for every interleaving and every pattern of failing calls: a call that fails never
 counts as one that worked.
 */
module ProtocolGates {
  import opened Wrappers
  import opened AttemptLifecycle
  import opened AttemptProtocol
  import opened ProtocolInvariant
  import opened ProtocolTheorems

  predicate StatusIs(s: State, a: Id, allowed: set<Status>) {
    a in s.attempts && s.attempts[a].status in allowed
  }

  predicate HasJob(s: State, kind: JobKind, a: Id) {
    exists j | j in s.jobs :: s.jobs[j] == Job(kind, a)
  }

  // Rows never go away, so the row that a thread has found is there.
  predicate EnvironmentIs(s: State, e: Id, st: EnvironmentStatus) {
    e in s.environments ==> s.environments[e].status == st
  }

  // What the state shows to the thread that has just come to this point.
  predicate Shown(s: State, a: Id, pc: Pc) {
    match pc
    // machines are asked for, and a failed try is paid back
    case Provision(CreateVMs) => StatusIs(s, a, {EnvironmentProvisioning})
    case Provision(RunPlaybook(e)) => EnvironmentOf(s, e, a) && s.environments[e].status == EnvReady
    case TransitionRead(MarkReady) => HasSession(s, a)
    case Provision(FailCleanup) => StatusIs(s, a, {ProvisionFailed})
    // the student hands in or runs out of time, and a failed try starts over
    case TransitionRead(MarkExpired) => StatusIs(s, a, {Running})
    case Client(EnqueueGrade) => StatusIs(s, a, {Submitted, Expired})
    case TransitionRead(Reset) => StatusIs(s, a, {ProvisionFailed})
    case Client(EnqueueProvision) => StatusIs(s, a, {AttemptRequested})
    // grading
    case Grade(Fetch) => StatusIs(s, a, {Grading})
    case Grade(WriteScore) => HasEnvironment(s, a)
    case TransitionRead(FinishGrading) => a in s.attempts ==> s.attempts[a].score.Some?
    case Grade(EnqueueCleanup) => StatusIs(s, a, {Scored})
    // the terminal
    case Client(LoadEnvironment(_, _)) => StatusIs(s, a, {EnvironmentReady, TerminalOpened, Running})
    // machines are destroyed, and the attempt with them
    case Cleanup(DestroyVMs(e)) => EnvironmentIs(s, e, EnvDestroying)
    case _ => true
  }

  // Who returns a nil error, and what the state then shows, by the call that was made last.
  predicate Returned(s: State, s': State, a: Id, last: Pc, ok: bool) {
    match last
    case Request(_) => HasJob(s', ProvisionJob, a)
    case Client(EnqueueGrade) => HasJob(s', GradeJob, a)
    case Client(EnqueueRegrade) => HasJob(s', GradeJob, a)
    case Client(EnqueueProvision) => HasJob(s', ProvisionJob, a)
    case Client(EnqueueDestroy) => HasJob(s', CleanupJob, a)
    case Client(ExpireLoad) => a in s.attempts && s.attempts[a].status != Running
    case Client(LoadEnvironment(x, seen)) => ok && seen && x in s.sessions
    case Provision(LoadAttempt) =>
      a in s.attempts && s.attempts[a].status !in {AttemptRequested, EnvironmentProvisioning}
    case Provision(FailRefund) => true
    case Grade(EnqueueCleanup) => true
    case Cleanup(FindEnvironment) => !ok || !HasEnvironment(s, a)
    case Sweep(_) => true
    case TransitionRead(site) => site in {MarkFailed, StartRunning, MarkDestroyed}
    case TransitionWrite(MarkReady, _) => ok && StatusIs(s', a, {EnvironmentReady})
    case TransitionWrite(site, _) => site in {MarkFailed, StartRunning, MarkDestroyed}
    case _ => false
  }

  ghost predicate Says(s: State, t: Id, th: Thread, e: Effect, c: Choice) {
    var s' := Perform(s, t, e.op);
    && (e.pc != th.pc ==> Shown(s', e.attempt, e.pc))
    && (e.pc == Done(true) != th.pc ==> Returned(s, s', e.attempt, th.pc, c.ok))
    && (th.pc.Cleanup? && e.pc == TransitionRead(MarkDestroyed) ==>
          th.pc.cleanup.SetDestroyed? && EnvironmentIs(s', th.pc.cleanup.env, EnvDestroyed))
  }

  lemma RequestSays(s: State, t: Id, th: Thread, pc: RequestPc, c: Choice)
    requires th.pc == Request(pc) && RequestOk(s, t, th.attempt, pc)
    ensures Says(s, t, th, RequestCode(s, th, pc, c), c)
  {
    var e := RequestCode(s, th, pc, c);
    if e.op.Accept? { assert e.op.job in Perform(s, t, e.op).jobs; }
  }

  lemma ProvisionSays(s: State, t: Id, th: Thread, pc: ProvisionPc, c: Choice)
    requires th.pc == Provision(pc) && ProvisionOk(s, th.attempt, pc)
    ensures Says(s, t, th, ProvisionCode(s, th, pc, c), c)
  {
    var e := ProvisionCode(s, th, pc, c);
    if e.op.InsertSession? { assert SessionOf(Perform(s, t, e.op), e.op.session, th.attempt); }
  }

  lemma GradeSays(s: State, t: Id, th: Thread, pc: GradePc, c: Choice)
    requires th.pc == Grade(pc) && GradeOk(s, th.attempt, pc)
    ensures Says(s, t, th, GradeCode(s, th, pc, c), c)
  {
  }

  lemma CleanupSays(s: State, t: Id, th: Thread, pc: CleanupPc, c: Choice)
    requires th.pc == Cleanup(pc)
    ensures Says(s, t, th, CleanupCode(s, th, pc, c), c)
  {
  }

  lemma ClientSays(s: State, t: Id, th: Thread, pc: ClientPc, c: Choice)
    requires th.pc == Client(pc) && ClientOk(s, th.attempt, pc)
    ensures Says(s, t, th, ClientCode(s, th, pc, c), c)
  {
    var e := ClientCode(s, th, pc, c);
    if e.op.Enqueue? { assert e.op.job in Perform(s, t, e.op).jobs; }
  }

  lemma SweepSays(s: State, t: Id, th: Thread, pc: SweepPc, c: Choice)
    requires th.pc == Sweep(pc)
    ensures Says(s, t, th, SweepCode(s, th, pc, c), c)
  {
  }

  lemma ReadSays(s: State, t: Id, th: Thread, site: Site, c: Choice)
    requires th.pc == TransitionRead(site)
    ensures Says(s, t, th, ReadCode(s, th, site, c), c)
  {
  }

  lemma WriteSays(s: State, t: Id, th: Thread, site: Site, seen: Status, c: Choice)
    requires th.pc == TransitionWrite(site, seen) && WriteOk(s, th.attempt, site, seen)
    ensures Says(s, t, th, WriteCode(th, site, c), c)
  {
  }

  lemma StepSays(s: State, t: Id, c: Choice)
    requires Inv(s) && t in s.threads
    ensures Says(s, t, s.threads[t], Code(s, s.threads[t], c), c)
  {
    var th := s.threads[t];
    assert ThreadOk(s, t, th);
    match th.pc
    case Request(pc) => RequestSays(s, t, th, pc, c);
    case Provision(pc) => ProvisionSays(s, t, th, pc, c);
    case Grade(pc) => GradeSays(s, t, th, pc, c);
    case Cleanup(pc) => CleanupSays(s, t, th, pc, c);
    case Client(pc) => ClientSays(s, t, th, pc, c);
    case Sweep(pc) => SweepSays(s, t, th, pc, c);
    case TransitionRead(site) => ReadSays(s, t, th, site, c);
    case TransitionWrite(site, seen) => WriteSays(s, t, th, site, seen, c);
    case Done(_) =>
  }

  lemma ThreadsDoNotMatter(u: State, s: State, s': State, a: Id, pc: Pc, last: Pc, ok: bool)
    requires s' == s.(threads := s'.threads)
    ensures Shown(s, a, pc) ==> Shown(s', a, pc)
    ensures Returned(u, s, a, last, ok) ==> Returned(u, s', a, last, ok)
  {
    assert HasEnvironment(s', a) == HasEnvironment(s, a) && HasSession(s', a) == HasSession(s, a);
    assert forall kind :: HasJob(s', kind, a) == HasJob(s, kind, a);
  }

  // Whatever else runs and fails: a thread comes to one of these calls only in a state that shows what the
  // call is for.
  lemma CallsComeAfterTheirStatus(acts: seq<Action>, t: Id, c: Choice)
    requires t in Reach(acts).threads
    ensures var s := Reach(acts); var s' := StepState(s, t, c); var th := s'.threads[t];
            th.pc != s.threads[t].pc ==> Shown(s', th.attempt, th.pc)
  {
    var s := Reach(acts);
    var th, e := s.threads[t], Code(s, s.threads[t], c);
    ReachOk(acts);
    StepSays(s, t, c);
    hide Inv, Code, Shown, Returned, Perform, Reach;
    ThreadsDoNotMatter(s, Perform(s, t, e.op), StepState(s, t, c), e.attempt, e.pc, th.pc, c.ok);
  }

  // And it returns a nil error only when what was asked is done, or there was nothing to do.
  lemma NilErrorsAreEarned(acts: seq<Action>, t: Id, c: Choice)
    requires t in Reach(acts).threads
    ensures var s := Reach(acts); var s' := StepState(s, t, c); var th := s.threads[t];
            s'.threads[t].pc == Done(true) != th.pc ==> Returned(s, s', s'.threads[t].attempt, th.pc, c.ok)
  {
    var s := Reach(acts);
    var th, e := s.threads[t], Code(s, s.threads[t], c);
    ReachOk(acts);
    StepSays(s, t, c);
    hide Inv, Code, Shown, Returned, Perform, Reach;
    ThreadsDoNotMatter(s, Perform(s, t, e.op), StepState(s, t, c), e.attempt, e.pc, th.pc, c.ok);
  }
}
