/**
 An attempt is not stranded: as long as its own status writes are not stale and a short list of calls
 made for it does not fail, it has a provisioning job while it waits for its environment, and a grade
 job when it is finished, in the queue or about to be put there. A job stays queued until a handler
 returns nil. Nothing is asked of the calls made for other attempts.
 */
module ProtocolNoStrand {
  import opened Wrappers
  import opened AttemptLifecycle
  import opened AttemptProtocol
  import opened ProtocolInvariant
  import opened ProtocolLedger

  // The calls whose failure can strand an attempt: the enqueues that answer a request, and the two
  // halves of the transition that records a provisioning failure. All other calls may fail freely.
  predicate Critical(pc: Pc) {
    EnqueuePc(pc) || pc == TransitionRead(MarkFailed) || (pc.TransitionWrite? && pc.site == MarkFailed)
  }

  predicate EnqueuePc(pc: Pc) {
    || (pc.Request? && pc.request.EnqueueFirst?)
    || pc == Client(EnqueueProvision) || pc == Client(EnqueueGrade)
  }

  // A handler may crash anywhere except right before one of the enqueues: its job is still queued.
  predicate Benign(s: State, act: Action, a: Id) {
    (act.Step? || act.Crash?) && act.thread in s.threads && s.threads[act.thread].attempt == a ==>
      var pc := s.threads[act.thread].pc;
      if act.Step? then Critical(pc) ==> act.choice.ok else !EnqueuePc(pc)
  }

  predicate BenignRun(s: State, acts: seq<Action>, a: Id)
    decreases |acts|
  {
    acts == [] || (Benign(s, acts[0], a) && BenignRun(Apply(s, acts[0]), acts[1..], a))
  }

  lemma {:induction false} BenignAppend(s: State, acts: seq<Action>, more: seq<Action>, a: Id)
    requires BenignRun(s, acts, a) && BenignRun(Run(s, acts), more, a)
    ensures BenignRun(s, acts + more, a)
    decreases |acts|
  {
    if acts == [] {
      assert acts + more == more;
    } else {
      assert (acts + more)[1..] == acts[1..] + more;
      BenignAppend(Apply(s, acts[0]), acts[1..], more, a);
    }
  }

  // ----- the invariant

  predicate HandlerPc(kind: JobKind, pc: Pc) {
    match pc
    case Provision(_) => kind == ProvisionJob
    case Grade(_) => kind == GradeJob
    case Cleanup(_) => kind == CleanupJob
    case Client(c) => kind == ExpireJob && (c == ExpireLoad || c == EnqueueGrade)
    case TransitionRead(site) => HandlerSite(kind, site)
    case TransitionWrite(site, _) => HandlerSite(kind, site)
    case Done(_) => true
    case _ => false
  }

  predicate HandlerSite(kind: JobKind, site: Site) {
    match kind
    case ProvisionJob => site == BeginProvisioning || site == MarkReady || site == MarkFailed
    case GradeJob => site == BeginGrading || site == FinishGrading
    case CleanupJob => site == MarkDestroyed
    case ExpireJob => site == MarkExpired
  }

  // A provisioning handler on its way to completing its job.
  predicate NilBound(pc: Pc) {
    pc == Provision(FailCleanup) || pc == Provision(FailRefund) || pc == Done(true)
  }

  // A grade handler past its final transition.
  predicate PastGrading(pc: Pc) {
    pc == Grade(EnqueueCleanup) || pc == Done(true)
  }

  // The try that a job was enqueued for is over: the attempt moved on or was reset since.
  predicate Closed(row: Attempt, epoch: nat) {
    epoch <= row.book.resets && (epoch < row.book.resets || !Waiting(row.status))
  }

  // A thread with a job is the handler of that job, for the job's attempt.
  predicate HandlesOk(s: State, th: Thread) {
    th.job.Some? ==>
      var j, kind := th.job.value.id, th.job.value.kind;
      j in s.epochs && (j in s.jobs ==> s.jobs[j] == Job(kind, th.attempt)) && HandlerPc(kind, th.pc)
  }

  predicate HeldOk(s: State, th: Thread) {
    th.job.Some? ==>
      var j, kind, a := th.job.value.id, th.job.value.kind, th.attempt;
      && j in s.epochs
      && (kind == ProvisionJob ==>
            && a in s.attempts && s.epochs[j] <= s.attempts[a].book.resets
            && (NilBound(th.pc) ==> Closed(s.attempts[a], s.epochs[j])))
      && (kind == GradeJob && PastGrading(th.pc) ==> a in s.attempts && s.attempts[a].status == Scored)
  }

  predicate EpochOk(s: State, j: Id)
    requires j in s.jobs
  {
    s.jobs[j].kind == ProvisionJob ==>
      var a := s.jobs[j].attempt;
      a in s.attempts && j in s.epochs && s.epochs[j] <= s.attempts[a].book.resets
  }

  predicate CurrentJob(s: State, j: Id, a: Id) {
    j in s.jobs && s.jobs[j] == Job(ProvisionJob, a)
    && j in s.epochs && a in s.attempts && s.epochs[j] == s.attempts[a].book.resets
  }

  predicate AtPc(s: State, t: Id, a: Id, pc: Pc) {
    t in s.threads && s.threads[t].attempt == a && s.threads[t].pc == pc
  }

  ghost predicate Served(s: State, a: Id) {
    (exists j :: CurrentJob(s, j, a)) || (exists t :: AtPc(s, t, a, Client(EnqueueProvision)))
  }

  predicate GradeJobFor(s: State, j: Id, a: Id) {
    j in s.jobs && s.jobs[j] == Job(GradeJob, a)
  }

  ghost predicate GradeServed(s: State, a: Id) {
    (exists j :: GradeJobFor(s, j, a)) || (exists t :: AtPc(s, t, a, Client(EnqueueGrade)))
  }

  predicate BeingEnqueued(s: State, a: Id)
    requires a in s.attempts
  {
    var row := s.attempts[a];
    AtPc(s, row.book.creator, a, Request(EnqueueFirst(row.purchase, a)))
  }

  ghost predicate ServiceOk(s: State, a: Id)
    requires a in s.attempts
  {
    var row := s.attempts[a];
    && (!row.book.accepted ==> BeingEnqueued(s, a))
    && (row.book.accepted && Waiting(row.status) ==> Served(s, a))
    && (row.status in {Submitted, Expired} ==> GradeServed(s, a))
  }

  ghost predicate NotStranded(s: State, a: Id) {
    && (forall t | t in s.threads :: HandlesOk(s, s.threads[t]))
    && (forall t | t in s.threads && s.threads[t].attempt == a :: HeldOk(s, s.threads[t]))
    && (forall j | j in s.jobs && s.jobs[j].attempt == a :: EpochOk(s, j))
    && (a in s.attempts ==> ServiceOk(s, a))
  }

  // ----- one call: jobs and rows

  lemma PerformJobs(s: State, t: Id, op: Op)
    requires OpOk(s, t, op)
    ensures var s' := Perform(s, t, op);
            && s.epochs.Keys <= s'.epochs.Keys && s.jobs.Keys <= s'.jobs.Keys
            && (forall j | j in s.epochs :: s'.epochs[j] == s.epochs[j])
            && (forall j | j in s'.jobs && j in s.epochs :: j in s.jobs)
            && (forall j | j in s.jobs && j in s.epochs :: s'.jobs[j] == s.jobs[j])
  {
  }

  lemma ResetsGrow(row: Attempt, t: Id, op: Op, a: Id)
    ensures row.book.resets <= AttemptAfter(row, t, op, a).book.resets
    ensures op != SetStatus(a, Reset) ==> AttemptAfter(row, t, op, a).book.resets == row.book.resets
  {
  }

  lemma ClosedStays(s: State, t: Id, op: Op, a: Id, epoch: nat)
    requires OpFresh(s, op, a) && a in s.attempts && Closed(s.attempts[a], epoch)
    ensures Closed(AttemptAfter(s.attempts[a], t, op, a), epoch)
  {
  }

  lemma ScoredStays(s: State, t: Id, op: Op, a: Id)
    requires OpFresh(s, op, a) && a in s.attempts && s.attempts[a].status == Scored
    ensures AttemptAfter(s.attempts[a], t, op, a).status == Scored
  {
  }

  lemma OtherHeld(s: State, t: Id, op: Op, th: Thread)
    requires OpOk(s, t, op) && OpFresh(s, op, th.attempt) && HeldOk(s, th)
    ensures HeldOk(Perform(s, t, op), th)
  {
    if th.job.Some? {
      var a := th.attempt;
      PerformJobs(s, t, op);
      if a in s.attempts {
        PerformAttempt(s, t, op, a);
        ResetsGrow(s.attempts[a], t, op, a);
        var j := th.job.value.id;
        if Closed(s.attempts[a], s.epochs[j]) { ClosedStays(s, t, op, a, s.epochs[j]); }
        if s.attempts[a].status == Scored { ScoredStays(s, t, op, a); }
      }
    }
  }

  // ----- one call: the thread itself

  predicate SameHandler(th: Thread, kind: JobKind, e: Effect) {
    e.attempt == th.attempt && HandlerPc(kind, e.pc)
  }

  lemma ProvisionStays(s: State, th: Thread, pc: ProvisionPc, c: Choice)
    requires th.pc == Provision(pc)
    ensures SameHandler(th, ProvisionJob, ProvisionCode(s, th, pc, c))
  {
  }

  lemma GradeStays(s: State, th: Thread, pc: GradePc, c: Choice)
    requires th.pc == Grade(pc)
    ensures SameHandler(th, GradeJob, GradeCode(s, th, pc, c))
  {
  }

  lemma CleanupStays(s: State, th: Thread, pc: CleanupPc, c: Choice)
    requires th.pc == Cleanup(pc)
    ensures SameHandler(th, CleanupJob, CleanupCode(s, th, pc, c))
  {
  }

  lemma ExpireStays(s: State, th: Thread, pc: ClientPc, c: Choice)
    requires th.pc == Client(pc) && (pc == ExpireLoad || pc == EnqueueGrade)
    ensures SameHandler(th, ExpireJob, ClientCode(s, th, pc, c))
  {
  }

  lemma TransitionStays(s: State, th: Thread, kind: JobKind, site: Site, c: Choice)
    requires HandlerSite(kind, site)
    ensures SameHandler(th, kind, ReadCode(s, th, site, c)) && SameHandler(th, kind, WriteCode(th, site, c))
  {
  }

  lemma HandlerStays(s: State, th: Thread, kind: JobKind, c: Choice)
    requires HandlerPc(kind, th.pc)
    ensures SameHandler(th, kind, Code(s, th, c))
  {
    match th.pc
    case Provision(pc) => ProvisionStays(s, th, pc, c);
    case Grade(pc) => GradeStays(s, th, pc, c);
    case Cleanup(pc) => CleanupStays(s, th, pc, c);
    case Client(pc) => ExpireStays(s, th, pc, c);
    case TransitionRead(site) => TransitionStays(s, th, kind, site, c);
    case TransitionWrite(site, _) => TransitionStays(s, th, kind, site, c);
    case Done(_) =>
  }

  // A provisioning handler that decides to complete its job leaves the attempt not waiting.
  lemma ProvisionNilBound(s: State, t: Id, th: Thread, pc: ProvisionPc, c: Choice)
    requires th.pc == Provision(pc) && ProvisionOk(s, th.attempt, pc) && !NilBound(th.pc)
    requires NilBound(ProvisionCode(s, th, pc, c).pc)
    ensures ProvisionCode(s, th, pc, c).op == Noop && !Waiting(s.attempts[th.attempt].status)
  {
  }

  lemma BecomesNilBound(s: State, t: Id, th: Thread, c: Choice)
    requires HandlerPc(ProvisionJob, th.pc) && ThreadOk(s, t, th) && !NilBound(th.pc)
    requires Critical(th.pc) ==> c.ok
    requires NilBound(Code(s, th, c).pc)
    ensures th.attempt in s.attempts
    ensures !Waiting(AttemptAfter(s.attempts[th.attempt], t, Code(s, th, c).op, th.attempt).status)
  {
    match th.pc
    case Provision(pc) => ProvisionNilBound(s, t, th, pc, c);
    case TransitionRead(site) =>
    case TransitionWrite(site, seen) =>
    case Done(_) =>
  }

  lemma BecomesGraded(s: State, t: Id, th: Thread, c: Choice)
    requires HandlerPc(GradeJob, th.pc) && ThreadOk(s, t, th) && !PastGrading(th.pc) && PastGrading(Code(s, th, c).pc)
    ensures th.attempt in s.attempts
    ensures AttemptAfter(s.attempts[th.attempt], t, Code(s, th, c).op, th.attempt).status == Scored
  {
  }

  lemma HandlesAfter(s: State, t: Id, th: Thread, c: Choice)
    requires HandlesOk(s, th) && OpOk(s, t, Code(s, th, c).op)
    ensures var e := Code(s, th, c);
            && HandlesOk(Perform(s, t, e.op), Thread(th.job, e.attempt, e.pc))
            && (th.job.Some? ==> e.attempt == th.attempt)
  {
    if th.job.Some? { HandlerStays(s, th, th.job.value.kind, c); }
    hide Code;
    OtherHandles(s, t, Code(s, th, c).op, th);
  }

  lemma OtherHandles(s: State, t: Id, op: Op, th: Thread)
    requires HandlesOk(s, th) && OpOk(s, t, op)
    ensures HandlesOk(Perform(s, t, op), th)
  {
    PerformJobs(s, t, op);
  }

  lemma HandlesIgnoresThreads(s: State, threads: map<Id, Thread>, born: set<Id>, th: Thread)
    requires HandlesOk(s, th)
    ensures HandlesOk(s.(threads := threads, born := born), th)
  {
  }

  lemma HeldAfter(s: State, t: Id, c: Choice, a: Id)
    requires Inv(s) && NotStranded(s, a) && t in s.threads
    requires Fresh(s, Step(t, c), a) && Benign(s, Step(t, c), a) && Code(s, s.threads[t], c).attempt == a
    ensures var th := s.threads[t]; var e := Code(s, th, c);
            HeldOk(Perform(s, t, e.op), Thread(th.job, e.attempt, e.pc))
  {
    var th := s.threads[t];
    var e := Code(s, th, c);
    assert HandlesOk(s, th);
    if th.job.Some? {
      var kind := th.job.value.kind;
      StepEffect(s, t, c);
      HandlesAfter(s, t, th, c);
      assert ThreadOk(s, t, th) && HeldOk(s, th);
      StepFresh(s, t, c, a);
      assert OpOk(s, t, e.op) && OpFresh(s, e.op, a);
      hide Inv, NotStranded, EffectOk, ServiceOk, Code;
      HeldAfterOwnCall(s, t, th, c, e, kind);
    }
  }

  lemma HeldAfterOwnCall(s: State, t: Id, th: Thread, c: Choice, e: Effect, kind: JobKind)
    requires e == Code(s, th, c) && th.job.Some? && kind == th.job.value.kind && HandlerPc(kind, th.pc)
    requires e.attempt == th.attempt && ThreadOk(s, t, th) && HeldOk(s, th)
    requires OpOk(s, t, e.op) && OpFresh(s, e.op, th.attempt)
    requires Critical(th.pc) ==> c.ok
    ensures HeldOk(Perform(s, t, e.op), Thread(th.job, e.attempt, e.pc))
  {
    var a := th.attempt;
    OtherHeld(s, t, e.op, th);
    if a in s.attempts { PerformAttempt(s, t, e.op, a); }
    if kind == ProvisionJob && NilBound(e.pc) && !NilBound(th.pc) { BecomesNilBound(s, t, th, c); }
    if kind == GradeJob && PastGrading(e.pc) && !PastGrading(th.pc) { BecomesGraded(s, t, th, c); }
  }

  // ----- one call: every attempt stays served

  lemma RequestOrigin(s: State, th: Thread, pc: RequestPc, c: Choice)
    requires th.pc == Request(pc)
    ensures var e := RequestCode(s, th, pc, c);
            && (e.op.InsertAttempt? ==>
                  e.attempt == e.op.attempt && e.pc == Request(EnqueueFirst(e.op.purchase, e.op.attempt)))
            && (pc.EnqueueFirst? && c.ok ==>
                  e.attempt == th.attempt && (e.op == Accept(c.id, pc.attempt) || (e.op == Noop && e.pc == th.pc)))
  {
  }

  predicate NoInsert(e: Effect) {
    !e.op.InsertAttempt? && !e.op.Accept?
  }

  lemma OthersInsertNothing(s: State, th: Thread, c: Choice)
    requires !th.pc.Request?
    ensures NoInsert(Code(s, th, c))
  {
    match th.pc
    case Provision(pc) => assert NoInsert(ProvisionCode(s, th, pc, c));
    case Grade(pc) => assert NoInsert(GradeCode(s, th, pc, c));
    case Cleanup(pc) => assert NoInsert(CleanupCode(s, th, pc, c));
    case Client(pc) => assert NoInsert(ClientCode(s, th, pc, c));
    case Sweep(pc) => assert NoInsert(SweepCode(s, th, pc, c));
    case TransitionRead(site) =>
    case TransitionWrite(site, _) =>
    case Done(_) =>
  }

  lemma NewAttemptServed(s: State, t: Id, c: Choice, a: Id)
    requires t in s.threads && OpOk(s, t, Code(s, s.threads[t], c).op)
    requires a !in s.attempts && a in StepState(s, t, c).attempts
    ensures ServiceOk(StepState(s, t, c), a)
  {
    var th := s.threads[t];
    OnlyInsertAdds(s, t, Code(s, th, c).op, a);
    if !th.pc.Request? { OthersInsertNothing(s, th, c); } else { RequestOrigin(s, th, th.pc.request, c); }
  }

  // A thread other than the one that moves stays where it is.
  lemma AtPcStays(s: State, t: Id, e: Effect, u: Id, a: Id, pc: Pc)
    requires t in s.threads && u != t && AtPc(s, u, a, pc)
    ensures AtPc(AfterCall(s, t, e), u, a, pc)
  {
  }

  lemma BeingEnqueuedStays(s: State, t: Id, c: Choice, a: Id)
    requires t in s.threads && OpOk(s, t, Code(s, s.threads[t], c).op) && Benign(s, Step(t, c), a)
    requires a in s.attempts && BeingEnqueued(s, a) && a in StepState(s, t, c).attempts
    requires !StepState(s, t, c).attempts[a].book.accepted
    ensures BeingEnqueued(StepState(s, t, c), a)
  {
    var th := s.threads[t];
    var e := Code(s, th, c);
    PerformAttempt(s, t, e.op, a);
    if s.attempts[a].book.creator == t {
      RequestOrigin(s, th, th.pc.request, c);
    } else {
      AtPcStays(s, t, e, s.attempts[a].book.creator, a, Request(EnqueueFirst(s.attempts[a].purchase, a)));
    }
  }

  lemma CurrentJobStays(s: State, t: Id, e: Effect, j: Id, a: Id)
    requires t in s.threads && OpOk(s, t, e.op) && OpFresh(s, e.op, a)
    requires CurrentJob(s, j, a) && Waiting(s.attempts[a].status)
    ensures CurrentJob(AfterCall(s, t, e), j, a)
  {
    PerformAttempt(s, t, e.op, a);
    PerformJobs(s, t, e.op);
    ResetsGrow(s.attempts[a], t, e.op, a);
  }

  lemma EnqueueServes(s: State, t: Id, kind: JobKind, c: Choice)
    requires t in s.threads && c.ok
    requires s.threads[t].pc == Client(EnqueueProvision) || s.threads[t].pc == Client(EnqueueGrade)
    requires kind == if s.threads[t].pc == Client(EnqueueProvision) then ProvisionJob else GradeJob
    ensures var th := s.threads[t]; var e := Code(s, th, c);
            || e == Stay(th)
            || e.op == Enqueue(c.id, kind, th.attempt)
  {
  }

  lemma ServedStays(s: State, t: Id, c: Choice, a: Id)
    requires t in s.threads && Benign(s, Step(t, c), a)
    requires var op := Code(s, s.threads[t], c).op; OpOk(s, t, op) && OpFresh(s, op, a)
    requires a in s.attempts && Served(s, a) && Waiting(s.attempts[a].status)
    ensures Served(StepState(s, t, c), a)
  {
    var th := s.threads[t];
    var e := Code(s, th, c);
    var s' := StepState(s, t, c);
    if j :| CurrentJob(s, j, a) {
      CurrentJobStays(s, t, e, j, a);
    } else {
      var u :| AtPc(s, u, a, Client(EnqueueProvision));
      if u != t {
        AtPcStays(s, t, e, u, a, Client(EnqueueProvision));
      } else {
        EnqueueServes(s, t, ProvisionJob, c);
        if e == Stay(th) { assert AtPc(s', t, a, Client(EnqueueProvision)); } else { assert CurrentJob(s', c.id, a); }
      }
    }
  }

  lemma GradeServedStays(s: State, t: Id, c: Choice, a: Id)
    requires t in s.threads && Benign(s, Step(t, c), a) && OpOk(s, t, Code(s, s.threads[t], c).op)
    requires GradeServed(s, a) && s.jobs.Keys <= s.epochs.Keys
    ensures GradeServed(StepState(s, t, c), a)
  {
    var th := s.threads[t];
    var e := Code(s, th, c);
    var s' := StepState(s, t, c);
    if j :| GradeJobFor(s, j, a) {
      PerformJobs(s, t, e.op);
      assert GradeJobFor(s', j, a);
    } else {
      var u :| AtPc(s, u, a, Client(EnqueueGrade));
      if u != t {
        AtPcStays(s, t, e, u, a, Client(EnqueueGrade));
      } else {
        EnqueueServes(s, t, GradeJob, c);
        if e == Stay(th) { assert AtPc(s', t, a, Client(EnqueueGrade)); } else { assert GradeJobFor(s', c.id, a); }
      }
    }
  }

  // A call that makes an attempt wait, or finishes it, puts its thread right before the enqueue.
  lemma NewlyWaiting(s: State, t: Id, c: Choice, a: Id)
    requires t in s.threads && a in s.attempts && s.attempts[a].book.accepted
    requires var op := Code(s, s.threads[t], c).op; OpOk(s, t, op) && OpFresh(s, op, a)
    requires !Waiting(s.attempts[a].status)
    requires Waiting(AttemptAfter(s.attempts[a], t, Code(s, s.threads[t], c).op, a).status)
    ensures Served(StepState(s, t, c), a)
  {
    StatusOrigin(s, s.threads[t], c);
    assert AtPc(StepState(s, t, c), t, a, Client(EnqueueProvision));
  }

  lemma NewlyAccepted(s: State, t: Id, c: Choice, a: Id)
    requires t in s.threads && a in s.attempts && !s.attempts[a].book.accepted
    requires OpOk(s, t, Code(s, s.threads[t], c).op)
    requires AttemptAfter(s.attempts[a], t, Code(s, s.threads[t], c).op, a).book.accepted
    ensures Served(StepState(s, t, c), a)
  {
    var e := Code(s, s.threads[t], c);
    PerformAttempt(s, t, e.op, a);
    assert e.op.Accept? && e.op.attempt == a;
    assert CurrentJob(StepState(s, t, c), e.op.job, a);
  }

  lemma NewlyFinished(s: State, t: Id, c: Choice, a: Id)
    requires t in s.threads && a in s.attempts
    requires OpOk(s, t, Code(s, s.threads[t], c).op)
    requires s.attempts[a].status !in {Submitted, Expired}
    requires AttemptAfter(s.attempts[a], t, Code(s, s.threads[t], c).op, a).status in {Submitted, Expired}
    ensures GradeServed(StepState(s, t, c), a)
  {
    StatusOrigin(s, s.threads[t], c);
    assert AtPc(StepState(s, t, c), t, a, Client(EnqueueGrade));
  }

  lemma ServiceAfter(s: State, t: Id, c: Choice, a: Id)
    requires Inv(s) && NotStranded(s, a) && t in s.threads
    requires Fresh(s, Step(t, c), a) && Benign(s, Step(t, c), a) && a in StepState(s, t, c).attempts
    ensures ServiceOk(StepState(s, t, c), a)
  {
    var e := Code(s, s.threads[t], c);
    StepEffect(s, t, c);
    StepFresh(s, t, c, a);
    assert OpOk(s, t, e.op) && OpFresh(s, e.op, a) && s.jobs.Keys <= s.epochs.Keys;
    if a !in s.attempts {
      NewAttemptServed(s, t, c, a);
    } else {
      assert ServiceOk(s, a);
      hide Inv, NotStranded, EffectOk;
      ServiceStays(s, t, c, a);
    }
  }

  lemma ServiceStays(s: State, t: Id, c: Choice, a: Id)
    requires t in s.threads && Benign(s, Step(t, c), a) && a in s.attempts && ServiceOk(s, a)
    requires var op := Code(s, s.threads[t], c).op; OpOk(s, t, op) && OpFresh(s, op, a)
    requires s.jobs.Keys <= s.epochs.Keys && a in StepState(s, t, c).attempts
    ensures ServiceOk(StepState(s, t, c), a)
  {
    var e := Code(s, s.threads[t], c);
    var s' := StepState(s, t, c);
    PerformAttempt(s, t, e.op, a);
    var row, row' := s.attempts[a], s'.attempts[a];
    assert row' == AttemptAfter(row, t, e.op, a);
    hide StepState, Code, AttemptAfter, OpOk, OpFresh, Benign, AfterCall, Perform;
    if !row'.book.accepted {
      if row.book.accepted { AcceptedStays(row, t, e.op, a); }
      BeingEnqueuedStays(s, t, c, a);
    }
    if row'.book.accepted && Waiting(row'.status) {
      if !row.book.accepted { NewlyAccepted(s, t, c, a); }
      else if Waiting(row.status) { ServedStays(s, t, c, a); }
      else { NewlyWaiting(s, t, c, a); }
    }
    if row'.status in {Submitted, Expired} {
      if row.status in {Submitted, Expired} { GradeServedStays(s, t, c, a); } else { NewlyFinished(s, t, c, a); }
    }
  }

  lemma AcceptedStays(row: Attempt, t: Id, op: Op, a: Id)
    requires row.book.accepted
    ensures AttemptAfter(row, t, op, a).book.accepted
  {
  }

  lemma EpochAfter(s: State, t: Id, op: Op, j: Id, a: Id)
    requires Rows(s) && OpOk(s, t, op) && j in Perform(s, t, op).jobs && Perform(s, t, op).jobs[j].attempt == a
    requires forall k | k in s.jobs && s.jobs[k].attempt == a :: EpochOk(s, k)
    ensures EpochOk(Perform(s, t, op), j)
  {
    if j in s.jobs {
      PerformJobs(s, t, op);
      assert EpochOk(s, j);
      if a in s.attempts {
        PerformAttempt(s, t, op, a);
        ResetsGrow(s.attempts[a], t, op, a);
      }
    }
  }

  lemma HeldIgnoresThreads(s: State, threads: map<Id, Thread>, born: set<Id>, th: Thread)
    requires HeldOk(s, th)
    ensures HeldOk(s.(threads := threads, born := born), th)
  {
  }

  lemma StepKeepsHeld(s: State, t: Id, c: Choice, a: Id, u: Id)
    requires Inv(s) && NotStranded(s, a) && t in s.threads
    requires Fresh(s, Step(t, c), a) && Benign(s, Step(t, c), a)
    requires u in StepState(s, t, c).threads && StepState(s, t, c).threads[u].attempt == a
    ensures HeldOk(StepState(s, t, c), StepState(s, t, c).threads[u])
  {
    var e := Code(s, s.threads[t], c);
    var s1, s' := Perform(s, t, e.op), StepState(s, t, c);
    StepEffect(s, t, c);
    StepFresh(s, t, c, a);
    assert OpOk(s, t, e.op) && OpFresh(s, e.op, a);
    if u == t {
      HeldAfter(s, t, c, a);
    } else {
      assert HeldOk(s, s.threads[u]);
      hide Inv, NotStranded, EffectOk, Code;
      OtherHeld(s, t, e.op, s.threads[u]);
    }
    HeldIgnoresThreads(s1, s'.threads, s'.born, s'.threads[u]);
  }

  lemma StepKeepsNotStranded(s: State, t: Id, c: Choice, a: Id)
    requires Inv(s) && NotStranded(s, a) && t in s.threads
    requires Fresh(s, Step(t, c), a) && Benign(s, Step(t, c), a)
    ensures NotStranded(StepState(s, t, c), a)
  {
    var e := Code(s, s.threads[t], c);
    var s' := StepState(s, t, c);
    StepEffect(s, t, c);
    assert OpOk(s, t, e.op) && Rows(s);
    hide Fresh, Benign, EffectOk, Code, HandlesOk, HeldOk, Inv, Rows;
    forall u | u in s'.threads ensures HandlesOk(s', s'.threads[u]) {
      assert HandlesOk(s, s.threads[u]);
      if u == t { HandlesAfter(s, t, s.threads[t], c); } else { OtherHandles(s, t, e.op, s.threads[u]); }
      HandlesIgnoresThreads(Perform(s, t, e.op), s'.threads, s'.born, s'.threads[u]);
    }
    forall u | u in s'.threads && s'.threads[u].attempt == a ensures HeldOk(s', s'.threads[u]) {
      StepKeepsHeld(s, t, c, a, u);
    }
    forall j | j in s'.jobs && s'.jobs[j].attempt == a ensures EpochOk(s', j) {
      EpochAfter(s, t, e.op, j, a);
    }
    if a in s'.attempts { ServiceAfter(s, t, c, a); }
  }

  // ----- the other actions

  // A thread that is not about to enqueue anything can go without anybody missing it.
  lemma ServiceWithout(s: State, t: Id, s': State, a: Id)
    requires t in s.threads && !(EnqueuePc(s.threads[t].pc) && s.threads[t].attempt == a)
    requires s'.threads == Remove(s.threads, t)
    requires s'.jobs == s.jobs && s'.epochs == s.epochs
    requires a in s.attempts && ServiceOk(s, a)
    requires a in s'.attempts && s'.attempts[a].purchase == s.attempts[a].purchase
    requires s'.attempts[a].status == s.attempts[a].status
    requires s'.attempts[a].book.accepted == s.attempts[a].book.accepted
    requires s'.attempts[a].book.resets == s.attempts[a].book.resets
    requires s'.attempts[a].book.creator == s.attempts[a].book.creator
    ensures ServiceOk(s', a)
  {
    if Served(s, a) {
      if j :| CurrentJob(s, j, a) { assert CurrentJob(s', j, a); }
      else { var u :| AtPc(s, u, a, Client(EnqueueProvision)); assert AtPc(s', u, a, Client(EnqueueProvision)); }
    }
    if GradeServed(s, a) {
      if j :| GradeJobFor(s, j, a) { assert GradeJobFor(s', j, a); }
      else { var u :| AtPc(s, u, a, Client(EnqueueGrade)); assert AtPc(s', u, a, Client(EnqueueGrade)); }
    }
  }

  lemma CrashOpHarmless(s: State, t: Id, th: Thread, a: Id)
    requires !EnqueuePc(th.pc) && OpOk(s, t, CrashOp(th)) && a in s.attempts
    ensures var row := AttemptAfter(s.attempts[a], t, CrashOp(th), a);
            && row.purchase == s.attempts[a].purchase && row.status == s.attempts[a].status
            && row.book.accepted == s.attempts[a].book.accepted && row.book.resets == s.attempts[a].book.resets
            && row.book.creator == s.attempts[a].book.creator
    ensures var s' := Perform(s, t, CrashOp(th));
            s'.jobs == s.jobs && s'.epochs == s.epochs && s'.attempts.Keys == s.attempts.Keys
  {
  }

  lemma CrashAddsNoAttempt(s: State, t: Id)
    requires Inv(s) && t in s.threads
    ensures CrashState(s, t).attempts.Keys == s.attempts.Keys
  {
    CrashEffect(s, t);
  }

  lemma CrashLeaves(s: State, t: Id, a: Id)
    requires Inv(s) && t in s.threads && !EnqueuePc(s.threads[t].pc) && a in s.attempts
    ensures var s', row := CrashState(s, t), s.attempts[a];
            && s'.threads == Remove(s.threads, t) && s'.jobs == s.jobs && s'.epochs == s.epochs
            && a in s'.attempts && s'.attempts[a].purchase == row.purchase && s'.attempts[a].status == row.status
            && s'.attempts[a].book.accepted == row.book.accepted && s'.attempts[a].book.resets == row.book.resets
            && s'.attempts[a].book.creator == row.book.creator
  {
    var th := s.threads[t];
    CrashEffect(s, t);
    hide Inv, CrashOp;
    PerformAddsNoPurchase(s, t, CrashOp(th));
    CrashOpHarmless(s, t, th, a);
    PerformAttempt(s, t, CrashOp(th), a);
  }

  lemma CrashKeepsService(s: State, t: Id, a: Id)
    requires Inv(s) && NotStranded(s, a) && t in s.threads && a in s.attempts
    requires s.threads[t].attempt == a ==> !EnqueuePc(s.threads[t].pc)
    ensures a in CrashState(s, t).attempts ==> ServiceOk(CrashState(s, t), a)
  {
    assert ServiceOk(s, a);
    if !EnqueuePc(s.threads[t].pc) {
      hide Inv, NotStranded, ServiceOk, CrashState;
      CrashLeaves(s, t, a);
      ServiceWithout(s, t, CrashState(s, t), a);
    } else {
      assert ThreadOk(s, t, s.threads[t]);
      CrashElsewhere(s, t, a);
      hide Inv, NotStranded, ServiceOk, CrashState;
      ServiceWithout(s, t, CrashState(s, t), a);
    }
  }

  // A crash before an enqueue for another attempt.
  lemma CrashElsewhere(s: State, t: Id, a: Id)
    requires Inv(s) && t in s.threads && EnqueuePc(s.threads[t].pc) && s.threads[t].attempt != a && a in s.attempts
    ensures var s', row := CrashState(s, t), s.attempts[a];
            && s'.threads == Remove(s.threads, t) && s'.jobs == s.jobs && s'.epochs == s.epochs
            && a in s'.attempts && s'.attempts[a] == row
  {
    CrashEffect(s, t);
  }

  lemma CrashKeepsHeld(s: State, t: Id, u: Id, a: Id)
    requires Inv(s) && NotStranded(s, a) && t in s.threads && u in CrashState(s, t).threads
    requires CrashState(s, t).threads[u].attempt == a
    ensures HeldOk(CrashState(s, t), CrashState(s, t).threads[u])
  {
    var th, s' := s.threads[t], CrashState(s, t);
    CrashEffect(s, t);
    PerformAddsNoPurchase(s, t, CrashOp(th));
    assert HeldOk(s, s.threads[u]);
    hide Inv, NotStranded;
    OtherHeld(s, t, CrashOp(th), s.threads[u]);
    HeldIgnoresThreads(Perform(s, t, CrashOp(th)), s'.threads, s'.born, s.threads[u]);
  }

  lemma CrashKeepsHandles(s: State, t: Id, u: Id, a: Id)
    requires Inv(s) && NotStranded(s, a) && t in s.threads && u in CrashState(s, t).threads
    ensures HandlesOk(CrashState(s, t), CrashState(s, t).threads[u])
  {
    var th, s' := s.threads[t], CrashState(s, t);
    CrashEffect(s, t);
    PerformAddsNoPurchase(s, t, CrashOp(th));
    assert HandlesOk(s, s.threads[u]);
    hide Inv, NotStranded;
    OtherHandles(s, t, CrashOp(th), s.threads[u]);
    HandlesIgnoresThreads(Perform(s, t, CrashOp(th)), s'.threads, s'.born, s.threads[u]);
  }

  lemma CrashKeepsEpoch(s: State, t: Id, j: Id, a: Id)
    requires Inv(s) && NotStranded(s, a) && t in s.threads && j in CrashState(s, t).jobs
    requires CrashState(s, t).jobs[j].attempt == a
    ensures EpochOk(CrashState(s, t), j)
  {
    CrashEffect(s, t);
    EpochAfter(s, t, CrashOp(s.threads[t]), j, a);
  }

  lemma CrashKeepsNotStranded(s: State, t: Id, a: Id)
    requires Inv(s) && NotStranded(s, a) && t in s.threads && Benign(s, Crash(t), a)
    ensures NotStranded(CrashState(s, t), a)
  {
    CrashAddsNoAttempt(s, t);
    assert s.threads[t].attempt == a ==> !EnqueuePc(s.threads[t].pc);
    hide Inv, Benign, CrashState;
    var s' := CrashState(s, t);
    forall u | u in s'.threads ensures HandlesOk(s', s'.threads[u]) { CrashKeepsHandles(s, t, u, a); }
    if a in s'.attempts { CrashKeepsService(s, t, a); }
    forall u | u in s'.threads && s'.threads[u].attempt == a ensures HeldOk(s', s'.threads[u]) {
      CrashKeepsHeld(s, t, u, a);
    }
    forall j | j in s'.jobs && s'.jobs[j].attempt == a ensures EpochOk(s', j) { CrashKeepsEpoch(s, t, j, a); }
  }

  lemma ReturnServes(s: State, t: Id, a: Id)
    requires t in s.threads && s.threads[t].pc.Done? && (s.threads[t].attempt == a ==> HeldOk(s, s.threads[t]))
    requires HandlesOk(s, s.threads[t])
    requires a in s.attempts && ServiceOk(s, a)
    ensures ServiceOk(ReturnState(s, t), a)
  {
    var th := s.threads[t];
    var s' := ReturnState(s, t);
    var row := s.attempts[a];
    if row.book.accepted && Waiting(row.status) {
      if j :| CurrentJob(s, j, a) {
        assert CurrentJob(s', j, a);
      } else {
        var u :| AtPc(s, u, a, Client(EnqueueProvision));
        assert AtPc(s', u, a, Client(EnqueueProvision));
      }
    }
    if row.status in {Submitted, Expired} {
      if j :| GradeJobFor(s, j, a) {
        assert GradeJobFor(s', j, a);
      } else {
        var u :| AtPc(s, u, a, Client(EnqueueGrade));
        assert AtPc(s', u, a, Client(EnqueueGrade));
      }
    }
  }

  lemma ReturnKeepsNotStranded(s: State, t: Id, a: Id)
    requires NotStranded(s, a) && t in s.threads && s.threads[t].pc.Done?
    ensures NotStranded(ReturnState(s, t), a)
  {
    var s' := ReturnState(s, t);
    if a in s'.attempts {
      assert ServiceOk(s, a);
      ReturnServes(s, t, a);
    }
    forall u | u in s'.threads ensures HandlesOk(s', s'.threads[u]) { assert HandlesOk(s, s.threads[u]); }
    forall u | u in s'.threads && s'.threads[u].attempt == a ensures HeldOk(s', s'.threads[u]) {
      assert HeldOk(s, s.threads[u]);
    }
    forall j | j in s'.jobs && s'.jobs[j].attempt == a ensures EpochOk(s', j) { assert EpochOk(s, j); }
  }

  // Nothing that only adds a thread or a purchase matters.
  lemma ServiceGrows(s: State, s': State, a: Id)
    requires s'.jobs == s.jobs && s'.epochs == s.epochs && s'.attempts == s.attempts
    requires forall t | t in s.threads :: t in s'.threads && s'.threads[t] == s.threads[t]
    requires a in s.attempts && ServiceOk(s, a)
    ensures ServiceOk(s', a)
  {
    if Served(s, a) {
      if j :| CurrentJob(s, j, a) { assert CurrentJob(s', j, a); }
      else { var u :| AtPc(s, u, a, Client(EnqueueProvision)); assert AtPc(s', u, a, Client(EnqueueProvision)); }
    }
    if GradeServed(s, a) {
      if j :| GradeJobFor(s, j, a) { assert GradeJobFor(s', j, a); }
      else { var u :| AtPc(s, u, a, Client(EnqueueGrade)); assert AtPc(s', u, a, Client(EnqueueGrade)); }
    }
  }

  lemma StartKeepsNotStranded(s: State, t: Id, th: Thread, a: Id)
    requires Inv(s) && NotStranded(s, a) && t !in s.born && HandlesOk(s, th) && (th.attempt == a ==> HeldOk(s, th))
    ensures NotStranded(Start(s, t, th), a)
  {
    var s' := Start(s, t, th);
    if a in s'.attempts {
      assert ServiceOk(s, a);
      ServiceGrows(s, s', a);
    }
    forall u | u in s'.threads ensures HandlesOk(s', s'.threads[u]) {
      if u != t { assert HandlesOk(s, s.threads[u]); }
    }
    forall u | u in s'.threads && s'.threads[u].attempt == a ensures HeldOk(s', s'.threads[u]) {
      if u != t { assert HeldOk(s, s.threads[u]); }
      HeldIgnoresThreads(s, s'.threads, s'.born, s'.threads[u]);
    }
    forall j | j in s'.jobs && s'.jobs[j].attempt == a ensures EpochOk(s', j) { assert EpochOk(s, j); }
  }

  lemma BuyKeepsNotStranded(s: State, p: Id, user: Id, grant: nat, a: Id)
    requires NotStranded(s, a)
    ensures NotStranded(Apply(s, Buy(p, user, grant)), a)
  {
    var s' := Apply(s, Buy(p, user, grant));
    if a in s'.attempts {
      assert ServiceOk(s, a);
      ServiceGrows(s, s', a);
    }
    forall u | u in s'.threads ensures HandlesOk(s', s'.threads[u]) { assert HandlesOk(s, s.threads[u]); }
    forall u | u in s'.threads && s'.threads[u].attempt == a ensures HeldOk(s', s'.threads[u]) {
      assert HeldOk(s, s.threads[u]);
    }
    forall j | j in s'.jobs && s'.jobs[j].attempt == a ensures EpochOk(s', j) { assert EpochOk(s, j); }
  }

  lemma DeliveredHeld(s: State, j: Id, a: Id)
    requires Rows(s) && NotStranded(s, a) && j in s.jobs
    ensures HandlesOk(s, Delivered(s, j)) && (s.jobs[j].attempt == a ==> HeldOk(s, Delivered(s, j)))
  {
    if s.jobs[j].attempt == a { assert EpochOk(s, j); }
  }

  lemma ApplyKeepsNotStranded(s: State, act: Action, a: Id)
    requires Inv(s) && NotStranded(s, a)
    requires Fresh(s, act, a) && Benign(s, act, a)
    ensures NotStranded(Apply(s, act), a)
  {
    match act
    case Buy(p, user, grant) => BuyKeepsNotStranded(s, p, user, grant, a);
    case Arrive(t, call) => if t !in s.born { StartKeepsNotStranded(s, t, Entry(call), a); }
    case Deliver(t, j) =>
      if t !in s.born && j in s.jobs {
        DeliveredHeld(s, j, a);
        StartKeepsNotStranded(s, t, Delivered(s, j), a);
      }
    case Step(t, c) => if t in s.threads { StepKeepsNotStranded(s, t, c, a); }
    case Crash(t) => if t in s.threads { CrashKeepsNotStranded(s, t, a); }
    case Return(t) => if t in s.threads && s.threads[t].pc.Done? { ReturnKeepsNotStranded(s, t, a); }
  }

  lemma {:induction false} RunKeepsNotStranded(s: State, acts: seq<Action>, a: Id)
    requires Inv(s) && NotStranded(s, a) && FreshRun(s, acts, a) && BenignRun(s, acts, a)
    ensures Inv(Run(s, acts)) && NotStranded(Run(s, acts), a)
    decreases |acts|
  {
    if acts != [] {
      ApplyKeeps(s, acts[0]);
      ApplyKeepsNotStranded(s, acts[0], a);
      RunKeepsNotStranded(Apply(s, acts[0]), acts[1..], a);
    }
  }

  lemma ReachedNotStranded(acts: seq<Action>, a: Id)
    requires FreshRun(INITIAL, acts, a) && BenignRun(INITIAL, acts, a)
    ensures Inv(Run(INITIAL, acts)) && NotStranded(Run(INITIAL, acts), a)
  {
    InitialOk();
    RunKeepsNotStranded(INITIAL, acts, a);
  }

  // ----- theorems

  // An attempt that waits for its environment has a provisioning job in the queue, or a request or an
  // admin retry is about to put one there.
  lemma WaitingAttemptHasJob(acts: seq<Action>, a: Id)
    requires FreshRun(INITIAL, acts, a) && BenignRun(INITIAL, acts, a)
    requires var s := Run(INITIAL, acts); a in s.attempts && Waiting(s.attempts[a].status)
    ensures ProvisionServed(Run(INITIAL, acts), a)
  {
    ReachedNotStranded(acts, a);
    WaitingIsServed(Run(INITIAL, acts), a);
  }

  // A provisioning job of the attempt is queued, or some thread is about to enqueue one.
  ghost predicate ProvisionServed(s: State, a: Id) {
    || (exists j :: j in s.jobs && s.jobs[j] == Job(ProvisionJob, a))
    || (exists t :: AtPc(s, t, a, Client(EnqueueProvision)))
    || (exists t, p :: AtPc(s, t, a, Request(EnqueueFirst(p, a))))
  }

  lemma WaitingIsServed(s: State, a: Id)
    requires a in s.attempts && ServiceOk(s, a) && Waiting(s.attempts[a].status)
    ensures ProvisionServed(s, a)
  {
    if s.attempts[a].book.accepted {
      if j :| CurrentJob(s, j, a) {} else { var t :| AtPc(s, t, a, Client(EnqueueProvision)); }
    } else {
      assert BeingEnqueued(s, a);
    }
  }

  // A finished attempt has a grade job in the queue, or whoever finished it is about to put one there.
  lemma FinishedAttemptHasJob(acts: seq<Action>, a: Id)
    requires FreshRun(INITIAL, acts, a) && BenignRun(INITIAL, acts, a)
    requires var s := Run(INITIAL, acts); a in s.attempts && s.attempts[a].status in {Submitted, Expired}
    ensures GradeServed(Run(INITIAL, acts), a)
  {
    ReachedNotStranded(acts, a);
    assert ServiceOk(Run(INITIAL, acts), a);
  }

  // When a handler returns nil and its job is dropped, a waiting attempt is still served by another job
  // of its current try, or by a retry about to enqueue one, and a finished one by another grade job.
  lemma CompletedJobUnneeded(acts: seq<Action>, t: Id, a: Id)
    requires FreshRun(INITIAL, acts, a) && BenignRun(INITIAL, acts, a)
    requires var s := Run(INITIAL, acts);
             && t in s.threads && s.threads[t].job.Some? && s.threads[t].pc == Done(true) && s.threads[t].attempt == a
             && a in s.attempts
    ensures var s := Run(INITIAL, acts); var s' := ReturnState(s, t); var row := s.attempts[a];
            && s.threads[t].job.value.id !in s'.jobs
            && (row.book.accepted && Waiting(row.status) ==> Served(s', a))
            && (row.status in {Submitted, Expired} ==> GradeServed(s', a))
  {
    ReachedNotStranded(acts, a);
    var s := Run(INITIAL, acts);
    assert ServiceOk(s, a) && HeldOk(s, s.threads[t]) && HandlesOk(s, s.threads[t]);
    hide Run, FreshRun, BenignRun, Inv, NotStranded;
    ReturnServes(s, t, a);
  }
}
