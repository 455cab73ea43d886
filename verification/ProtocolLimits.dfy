/**
 Which calls strand an attempt and when exactly, and a run for each of them that strands one by that call
 alone.
 */
module ProtocolLimits {
  import opened Wrappers
  import opened AttemptLifecycle
  import opened AttemptProtocol
  import opened ProtocolInvariant
  import opened ProtocolLedger
  import opened ProtocolNoStrand
  import opened ProtocolScenes

  // ----- exactly when a failing critical call leaves an attempt unserved

  // Another job of the current try, or another retry about to enqueue one.
  ghost predicate OtherProvision(s: State, t: Id, dropped: Option<Id>, a: Id) {
    || (exists j: Id :: Some(j) != dropped && CurrentJob(s, j, a))
    || (exists u :: u != t && AtPc(s, u, a, Client(EnqueueProvision)))
  }

  ghost predicate OtherGrade(s: State, t: Id, a: Id) {
    (exists j :: GradeJobFor(s, j, a)) || (exists u :: u != t && AtPc(s, u, a, Client(EnqueueGrade)))
  }

  // The thread t gone, its job dropped or not.
  predicate Left(s: State, t: Id, dropped: Option<Id>, s': State) {
    && s'.threads == Remove(s.threads, t) && s'.attempts == s.attempts && s'.epochs == s.epochs
    && s'.jobs == if dropped.Some? then Remove(s.jobs, dropped.value) else s.jobs
  }

  lemma ServedAfterLeaving(s: State, t: Id, dropped: Option<Id>, s': State, a: Id)
    requires Left(s, t, dropped, s')
    ensures Served(s', a) <==> OtherProvision(s, t, dropped, a)
    ensures dropped.None? ==> (GradeServed(s', a) <==> OtherGrade(s, t, a))
  {
    if j :| CurrentJob(s', j, a) { assert CurrentJob(s, j, a); }
    if u :| AtPc(s', u, a, Client(EnqueueProvision)) { assert u != t && AtPc(s, u, a, Client(EnqueueProvision)); }
    if j: Id :| Some(j) != dropped && CurrentJob(s, j, a) { assert CurrentJob(s', j, a); }
    if u :| u != t && AtPc(s, u, a, Client(EnqueueProvision)) { assert AtPc(s', u, a, Client(EnqueueProvision)); }
    if dropped.None? {
      if j :| GradeJobFor(s', j, a) { assert GradeJobFor(s, j, a); }
      if u :| AtPc(s', u, a, Client(EnqueueGrade)) { assert u != t && AtPc(s, u, a, Client(EnqueueGrade)); }
      if j :| GradeJobFor(s, j, a) { assert GradeJobFor(s', j, a); }
      if u :| u != t && AtPc(s, u, a, Client(EnqueueGrade)) { assert AtPc(s', u, a, Client(EnqueueGrade)); }
    }
  }

  // The call fails and the handler returns.
  function Failing(s: State, t: Id): State
    requires t in s.threads
  {
    Apply(Apply(s, Step(t, Fails())), Return(t))
  }

  // The enqueue of a retry or of a grade job, failing or never made: served exactly if by another.
  lemma FailedEnqueueStrands(s: State, t: Id, a: Id)
    requires t in s.threads && s.threads[t].attempt == a
    requires s.threads[t].pc == Client(EnqueueProvision) || s.threads[t].pc == Client(EnqueueGrade)
    ensures s.threads[t].pc == Client(EnqueueProvision) ==>
              && (Served(Failing(s, t), a) <==> OtherProvision(s, t, None, a))
              && (Served(CrashState(s, t), a) <==> OtherProvision(s, t, None, a))
    ensures s.threads[t].pc == Client(EnqueueGrade) ==>
              && (GradeServed(Failing(s, t), a) <==> OtherGrade(s, t, a))
              && (GradeServed(CrashState(s, t), a) <==> OtherGrade(s, t, a))
  {
    var th := s.threads[t];
    assert Remove(s.threads[t := Thread(th.job, a, Done(false))], t) == Remove(s.threads, t);
    ServedAfterLeaving(s, t, None, Failing(s, t), a);
    ServedAfterLeaving(s, t, None, CrashState(s, t), a);
  }

  // Either half of the transition that records a provisioning failure: the handler drops its job all the
  // same, so the attempt is served exactly if by something other than this handler's job.
  lemma FailedMarkStrands(s: State, t: Id, j: Id, a: Id)
    requires t in s.threads && s.threads[t].attempt == a && s.threads[t].job == Some(Held(j, ProvisionJob))
    requires s.threads[t].pc == TransitionRead(MarkFailed)
          || (s.threads[t].pc.TransitionWrite? && s.threads[t].pc.site == MarkFailed)
    ensures Failing(s, t).attempts == s.attempts
    ensures Served(Failing(s, t), a) <==> OtherProvision(s, t, Some(j), a)
  {
    var th := s.threads[t];
    assert Remove(s.threads[t := Thread(th.job, a, Done(true))], t) == Remove(s.threads, t);
    ServedAfterLeaving(s, t, Some(j), Failing(s, t), a);
  }

  // A start of provisioning whose handler dies right after: the attempt waits, and is served exactly if by
  // a current job, the handler's own included as long as it is queued, or by another retry.
  lemma AbortedStartStrands(s: State, t: Id, a: Id, seen: Status)
    requires t in s.threads && s.threads[t].attempt == a && Owned(s, a)
    requires s.threads[t].pc == TransitionWrite(BeginProvisioning, seen)
    ensures var s' := CrashState(StepState(s, t, Works(0)), t);
            && a in s'.attempts && Waiting(s'.attempts[a].status)
            && (Served(s', a) <==> OtherProvision(s, t, None, a))
  {
    var s1 := StepState(s, t, Works(0));
    ServedAfterLeaving(s1, t, None, CrashState(s1, t), a);
    forall j: Id ensures CurrentJob(s1, j, a) <==> CurrentJob(s, j, a) {}
    forall u | u != t ensures AtPc(s1, u, a, Client(EnqueueProvision)) <==> AtPc(s, u, a, Client(EnqueueProvision)) {}
    if j: Id :| CurrentJob(s, j, a) { assert CurrentJob(s1, j, a); }
    if j: Id :| CurrentJob(s1, j, a) { assert CurrentJob(s, j, a); }
  }

  // The first enqueue of a request, failing or never made: in every run the attempt stays requested with
  // no provisioning job and nobody about to enqueue one.
  lemma FailedFirstEnqueueStrands(acts: seq<Action>, t: Id, p: Id, a: Id)
    requires var s := Run(INITIAL, acts); t in s.threads && s.threads[t].pc == Request(EnqueueFirst(p, a))
    ensures var s := Run(INITIAL, acts);
            && Unserved(StepState(s, t, Fails()), a)
            && Unserved(CrashState(s, t), a)
  {
    InitialOk();
    RunKeeps(INITIAL, acts);
    var s := Run(INITIAL, acts);
    assert ThreadOk(s, t, s.threads[t]);
    hide Run, Inv, Unserved;
    FirstEnqueueGone(s, t, p, a, StepState(s, t, Fails()));
    FirstEnqueueGone(s, t, p, a, CrashState(s, t));
  }

  ghost predicate Unserved(s: State, a: Id) {
    a in s.attempts && s.attempts[a].status == AttemptRequested && !ProvisionServed(s, a)
  }

  lemma FirstEnqueueGone(s: State, t: Id, p: Id, a: Id, s': State)
    requires Inv(s) && t in s.threads && RequestOk(s, t, a, EnqueueFirst(p, a))
    requires s'.jobs == s.jobs && a in s'.attempts && s'.attempts[a].status == s.attempts[a].status
    requires forall u | u in s'.threads && u != t :: u in s.threads && s'.threads[u] == s.threads[u]
    requires t in s'.threads ==> s'.threads[t].pc == Request(Compensate(p))
    ensures Unserved(s', a)
  {
    assert AttemptOk(s, a);
    forall u | u in s'.threads && u != t
      ensures !AtPc(s', u, a, Client(EnqueueProvision)) && forall q :: !AtPc(s', u, a, Request(EnqueueFirst(q, a)))
    {
      assert ThreadOk(s, u, s.threads[u]);
    }
  }

  // ----- runs that strand the attempt, clean up to the one call

  lemma RunTwo(s: State, act: Action, next: Action)
    ensures Run(s, [act, next]) == Apply(Apply(s, act), next)
  {
    assert [act, next][1..] == [next];
    RunOne(Apply(s, act), next);
  }

  // The attempt is left with no job and no thread.
  predicate Stranded(s: State, a: Id, st: Status) {
    a in s.attempts && s.attempts[a].status == st && s.jobs == map[] && s.threads == map[]
  }

  lemma FailsAway(b: State, t: Id, th: Thread, th': Thread, st: Status)
    requires th' == ThreadAfter(b, th, Fails()) && Code(b, th, Fails()).op == Noop && th'.pc.Done?
    requires 4 in b.attempts && b.attempts[4].status == st && b.threads == map[]
    requires map[] == if th'.pc == Done(true) && th'.job.Some? then Remove(b.jobs, th'.job.value.id) else b.jobs
    ensures Stranded(Run(With(b, t, th), [Step(t, Fails()), Return(t)]), 4, st)
  {
    var s := With(b, t, th);
    RunTwo(s, Step(t, Fails()), Return(t));
    Moves(b, t, th, Fails());
    hide Code;
    assert Apply(s, Step(t, Fails())) == With(b, t, th');
    assert Remove(With(b, t, th').threads, t) == map[];
  }

  // A failing read while a provisioning failure is recorded.
  lemma FailedReadStrands()
    ensures exists s, t ::
              && Cleanly(INITIAL, s, 4) && t in s.threads && s.threads[t].pc == TransitionRead(MarkFailed)
              && Stranded(Run(s, [Step(t, Fails()), Return(t)]), 4, EnvironmentProvisioning)
  {
    hide Cleanly;
    var b := IsBuilding();
    IsRefused(INITIAL, b, 6, OldJob(), 4);
    var th := Thread(OldJob(), 4, TransitionRead(MarkFailed));
    assert Remove(b.jobs, 5) == map[];
    FailsAway(b, 6, th, Thread(OldJob(), 4, Done(true)), EnvironmentProvisioning);
    assert With(b, 6, th).threads[6] == th;
  }

  // A failing write while it is recorded.
  lemma FailedWriteStrands()
    ensures exists s, t ::
              && Cleanly(INITIAL, s, 4) && t in s.threads
              && s.threads[t].pc == TransitionWrite(MarkFailed, EnvironmentProvisioning)
              && Stranded(Run(s, [Step(t, Fails()), Return(t)]), 4, EnvironmentProvisioning)
  {
    hide Cleanly;
    var b := IsBuilding();
    AboutToFail(INITIAL, b, 6, OldJob(), 4, 7);
    var th := Thread(OldJob(), 4, TransitionWrite(MarkFailed, EnvironmentProvisioning));
    assert Remove(b.jobs, 5) == map[];
    FailsAway(b, 6, th, Thread(OldJob(), 4, Done(true)), EnvironmentProvisioning);
    assert With(b, 6, th).threads[6] == th;
  }

  lemma CrashesAway(b: State, t: Id, th: Thread, st: Status)
    requires CrashOp(th) == Noop && 4 in b.attempts && b.attempts[4].status == st && b.threads == map[]
    requires b.jobs == map[]
    ensures Stranded(Run(With(b, t, th), [Crash(t)]), 4, st)
  {
    var s := With(b, t, th);
    RunOne(s, Crash(t));
    assert Remove(s.threads, t) == map[];
  }

  // The first enqueue of a request: whether the compensation is made or cut off, the attempt stays requested.
  lemma FailedFirstEnqueueRun()
    ensures exists s, t ::
              && Cleanly(INITIAL, s, 4) && t in s.threads && s.threads[t].pc == Request(EnqueueFirst(1, 4))
              && Stranded(Run(s, [Step(t, Fails()), Step(t, Works(0)), Return(t)]), 4, AttemptRequested)
              && Stranded(Run(s, [Crash(t)]), 4, AttemptRequested)
  {
    hide Cleanly;
    var s := AboutToEnqueue();
    assert s.threads[1].pc == Request(EnqueueFirst(1, 4));
    Creates();
    Unanswered();
    Uncompensated();
  }

  function AboutToEnqueue(): State {
    With(Created(), 1, Thread(None, 4, Request(EnqueueFirst(1, 4))))
  }

  lemma Uncompensated()
    ensures Stranded(Run(AboutToEnqueue(), [Crash(1)]), 4, AttemptRequested)
  {
    RunOne(AboutToEnqueue(), Crash(1));
    assert Remove(AboutToEnqueue().threads, 1) == map[];
  }

  lemma Unanswered()
    ensures Stranded(Run(AboutToEnqueue(), [Step(1, Fails()), Step(1, Works(0)), Return(1)]), 4, AttemptRequested)
  {
    var th, th1 := Thread(None, 4, Request(EnqueueFirst(1, 4))), Thread(None, 4, Request(Compensate(1)));
    var th2 := Thread(None, 4, Done(false));
    var b, b1 := Created(), Perform(Created(), 1, MarkOrphan(4));
    Moves(b, 1, th, Fails());
    Moves(b1, 1, th1, Works(0));
    assert [Step(1, Fails()), Step(1, Works(0)), Return(1)][1..] == [Step(1, Works(0)), Return(1)];
    RunTwo(With(b1, 1, th1), Step(1, Works(0)), Return(1));
    GivesBack(b1);
  }

  lemma GivesBack(b: State)
    requires 4 in b.attempts && b.attempts[4].status == AttemptRequested && b.threads == map[] && b.jobs == map[]
    ensures var b' := Perform(b, 1, GiveBack(1));
            && b'.attempts == b.attempts && b'.threads == map[] && b'.jobs == map[]
            && Stranded(Apply(With(b', 1, Thread(None, 4, Done(false))), Return(1)), 4, AttemptRequested)
  {
    var b' := Perform(b, 1, GiveBack(1));
    assert Remove(With(b', 1, Thread(None, 4, Done(false))).threads, 1) == map[];
  }

  // The enqueue of a retry, failing or cut off by a crash.
  lemma FailedRetryEnqueueStrands()
    ensures exists s, t ::
              && Cleanly(INITIAL, s, 4) && t in s.threads && s.threads[t].pc == Client(EnqueueProvision)
              && Stranded(Run(s, [Step(t, Fails()), Return(t)]), 4, AttemptRequested)
              && Stranded(Run(s, [Crash(t)]), 4, AttemptRequested)
  {
    hide Cleanly;
    var b := IsRetried();
    var th := Thread(None, 4, Client(EnqueueProvision));
    FailsAway(b, 7, th, Thread(None, 4, Done(false)), AttemptRequested);
    CrashesAway(b, 7, th, AttemptRequested);
    assert With(b, 7, th).threads[7] == th;
  }

  lemma IsRetried() returns (b: State)
    ensures Cleanly(INITIAL, With(b, 7, Thread(None, 4, Client(EnqueueProvision))), 4)
    ensures Stage(b, 4, AttemptRequested, 7) && b.threads == map[] && b.jobs == map[]
  {
    hide Cleanly;
    var f := IsFailed();
    Retries(INITIAL, f, 7, 4, 7);
    b := Setting(f, 7, 4, Reset);
    StageAfterStatus(f, 7, 4, ProvisionFailed, 7, Reset);
  }

  // The first try has failed and its refund is made.
  lemma IsFailed() returns (f: State)
    ensures Cleanly(INITIAL, f, 4) && Stage(f, 4, ProvisionFailed, 7) && f.threads == map[] && f.jobs == map[]
  {
    hide Cleanly;
    var b := IsBuilding();
    AboutToFail(INITIAL, b, 6, OldJob(), 4, 7);
    RefundsCleanly(INITIAL, b, 6, OldJob(), 4, 7);
    StageRefunded(b, 6, 4, 7);
    var r, th := Refunded(b, 6, 4), Thread(OldJob(), 4, Done(true));
    RefundedRows(b, 6, 4);
    Returning(INITIAL, r, 6, th, 4);
    f := Returned(r, 6, th);
    hide Refunded;
    StageReturned(r, 4, ProvisionFailed, 7, 6, th);
    assert Remove(r.jobs, 5) == map[];
  }

  // A stale write: a second delivery that read `requested` writes after the first has finished, and dies.
  lemma StaleWriteStrands()
    ensures exists s, t ::
              && Cleanly(INITIAL, s, 4) && t in s.threads
              && s.threads[t].pc == TransitionWrite(BeginProvisioning, AttemptRequested)
              && 4 in s.attempts && s.attempts[4].status == EnvironmentReady
              && Stranded(Run(s, [Step(t, Works(0)), Crash(t)]), 4, EnvironmentProvisioning)
  {
    hide Cleanly, Run, Stranded, Provisioned;
    var w, th := IsAboutToBegin();
    Provisions(INITIAL, w, 7, 5, 4, 7);
    var e := Provisioned(w, 7, 5, 4, 7);
    assert Remove(w.jobs, 5) == map[];
    WritesLate(e, th);
    assert e.threads[6] == th;
  }

  lemma IsAboutToBegin() returns (w: State, th: Thread)
    ensures th == Handling(5, ProvisionJob, 4, TransitionWrite(BeginProvisioning, AttemptRequested))
    ensures Cleanly(INITIAL, w, 4) && Stage(w, 4, AttemptRequested, 7)
    ensures w.threads == map[6 := th] && w.jobs == map[5 := Job(ProvisionJob, 4)]
  {
    hide Cleanly;
    Requests();
    RequestedStage();
    var r := Requested();
    th := Handling(5, ProvisionJob, 4, TransitionWrite(BeginProvisioning, AttemptRequested));
    w := With(r, 6, th);
    hide Requested;
    Begins(INITIAL, r, 6, 5, 4, 6);
  }

  lemma WritesLate(e: State, th: Thread)
    requires Stage(e, 4, EnvironmentReady, 8) && e.threads == map[6 := th] && e.jobs == map[]
    requires th == Handling(5, ProvisionJob, 4, TransitionWrite(BeginProvisioning, AttemptRequested))
    ensures Stranded(Run(e, [Step(6, Works(0)), Crash(6)]), 4, EnvironmentProvisioning)
  {
    var b, th' := e.(threads := map[]), Handling(5, ProvisionJob, 4, Provision(CreateVMs));
    assert 6 in e.threads.Keys;
    assert e == With(b, 6, th);
    var b' := Setting(b, 6, 4, BeginProvisioning);
    StageAfterStatus(b, 6, 4, EnvironmentReady, 8, BeginProvisioning);
    WriteIsLate(b, th, th');
    hide Setting, With;
    Moves(b, 6, th, Works(0));
    RunTwo(e, Step(6, Works(0)), Crash(6));
    RunOne(With(b', 6, th'), Crash(6));
    CrashesAway(b', 6, th', EnvironmentProvisioning);
  }

  lemma WriteIsLate(b: State, th: Thread, th': Thread)
    requires th == Handling(5, ProvisionJob, 4, TransitionWrite(BeginProvisioning, AttemptRequested))
    requires th' == Handling(5, ProvisionJob, 4, Provision(CreateVMs))
    ensures Below(b, 6, th, Works(0)) == Setting(b, 6, 4, BeginProvisioning) && ThreadAfter(b, th, Works(0)) == th'
  {
  }

  // The enqueue of the grade job, failing or cut off by a crash.
  lemma FailedGradeEnqueueStrands()
    ensures exists s, t ::
              && Cleanly(INITIAL, s, 4) && t in s.threads && s.threads[t].pc == Client(EnqueueGrade)
              && Stranded(Run(s, [Step(t, Fails()), Return(t)]), 4, Submitted)
              && Stranded(Run(s, [Crash(t)]), 4, Submitted)
  {
    hide Cleanly;
    var r := Runs();
    Hands(INITIAL, r, 8, 4, 8);
    StageAfterStatus(r, 8, 4, Running, 8, MarkSubmitted);
    var b, th := Setting(r, 8, 4, MarkSubmitted), Thread(None, 4, Client(EnqueueGrade));
    FailsAway(b, 8, th, Thread(None, 4, Done(false)), Submitted);
    CrashesAway(b, 8, th, Submitted);
    assert With(b, 8, th).threads[8] == th;
  }
}
