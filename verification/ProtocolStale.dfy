/**
 What a stale status write does: the refund law is met with equality for every number of resets and of
 stale writes, an attempt leaves `running` twice, two handlers grade it, and a score is overwritten.
 */
module ProtocolStale {
  import opened Wrappers
  import opened AttemptLifecycle
  import opened AttemptProtocol
  import opened ProtocolLedger
  import opened ProtocolGrading
  import opened ProtocolNoStrand
  import opened ProtocolScenes

  // A handler that is about to record the failure does so, fails to enqueue the cleanup, and refunds.
  lemma Refunds(b: State, t: Id, job: Option<Held>, a: Id)
    requires Owned(b, a)
    ensures Reaches(With(b, t, Thread(job, a, TransitionWrite(MarkFailed, EnvironmentProvisioning))),
                    With(Refunded(b, t, a), t, Thread(job, a, Done(true))))
  {
    var th0 := Thread(job, a, TransitionWrite(MarkFailed, EnvironmentProvisioning));
    var th1 := Thread(job, a, Provision(FailCleanup));
    var th2, b1 := Thread(job, a, Provision(FailRefund)), Setting(b, t, a, MarkFailed);
    var s0 := With(b, t, th0);
    ReachesItself(s0);
    Further(s0, b, t, th0, Works(0), b1, th1);
    Further(s0, b1, t, th1, Fails(), b1, th2);
    Further(s0, b1, t, th2, Works(0), Refunded(b, t, a), Thread(job, a, Done(true)));
  }

  // One more call of a thread, whether it is clean or not.
  lemma Further(s0: State, b: State, t: Id, th: Thread, c: Choice, b': State, th': Thread)
    requires Reaches(s0, With(b, t, th)) && b' == Below(b, t, th, c) && th' == ThreadAfter(b, th, c)
    ensures Reaches(s0, With(b', t, th'))
  {
    Moves(b, t, th, c);
    hide Below, ThreadAfter;
    ReachesOn(s0, With(b, t, th), Step(t, c));
  }

  // ----- attempt 4 after r resets, one refund each, with the next try in progress

  // The books of attempt 4 and of its purchase 1, with every refund in the counter.
  predicate Booked(b: State, st: Status, resets: nat, stale: nat, refunds: nat) {
    && Owned(b, 4) && b.attempts[4].purchase == 1
    && AttemptBooked(b.attempts[4], st, resets, stale, refunds)
    && PurchaseBooked(b.purchases[1], st, resets, stale, refunds)
  }

  predicate AttemptBooked(row: Attempt, st: Status, resets: nat, stale: nat, refunds: nat) {
    && row.status == st && row.book.accepted
    && row.book.resets == resets && row.book.stale == stale && row.book.refunds == refunds
  }

  predicate PurchaseBooked(row: Purchase, st: Status, resets: nat, stale: nat, refunds: nat) {
    && row.remaining == refunds && row.book.grant == 1
    && row.book.resets == resets && row.book.stale == stale && row.book.refunds == refunds
    && (4 in row.book.live <==> Waiting(st))
  }

  lemma SettingBooked(b: State, t: Id, site: Site, st: Status, resets: nat, stale: nat, refunds: nat)
    requires Booked(b, st, resets, stale, refunds)
    ensures Booked(Setting(b, t, 4, site), Target(site), resets + One(site == Reset),
                   stale + One(ForWaiting(site) && !Waiting(st)), refunds)
  {
  }

  lemma RefundedBooked(b: State, t: Id, st: Status, resets: nat, stale: nat, refunds: nat)
    requires Booked(b, st, resets, stale, refunds)
    ensures Booked(Refunded(b, t, 4), ProvisionFailed, resets, stale + One(!Waiting(st)), refunds + 1)
  {
    SettingBooked(b, t, MarkFailed, st, resets, stale, refunds);
  }

  // The r-th retry is being provisioned, its job j is queued and the handler that began has crashed.
  ghost predicate Trying(b: State, j: Id, n: Id, r: nat) {
    && Cleanly(INITIAL, b, 4) && Stage(b, 4, EnvironmentProvisioning, n) && Booked(b, EnvironmentProvisioning, r, 0, r)
    && b.threads == map[] && j in b.jobs && b.jobs[j] == Job(ProvisionJob, 4)
  }

  lemma Crashing(s0: State, b: State, t: Id, th: Thread, a: Id)
    requires Cleanly(s0, With(b, t, th), a) && t !in b.threads
    requires th.pc == Provision(CreateVMs) || th.pc == Grade(Fetch)
    ensures Cleanly(s0, Returned(b, t, Thread(None, a, Done(false))), a)
  {
    hide Cleanly;
    var s := With(b, t, th);
    CleanlyOnce(s, Crash(t), a);
    assert Remove(s.threads, t) == b.threads;
    CleanlyTwice(s0, s, Apply(s, Crash(t)), a);
  }

  // A handler of job j begins the try and crashes.
  lemma BeginsTry(b: State, j: Id, n: Id, r: nat) returns (b': State)
    requires Cleanly(INITIAL, b, 4) && Stage(b, 4, AttemptRequested, n) && Booked(b, AttemptRequested, r, 0, r)
    requires b.threads == map[] && j in b.jobs && b.jobs[j] == Job(ProvisionJob, 4)
    ensures Trying(b', j, n + 1, r)
  {
    hide Cleanly;
    var c, th := Setting(b, n, 4, BeginProvisioning), Thread(None, 4, Done(false));
    Builds(INITIAL, b, n, j, 4, n);
    StageAfterStatus(b, n, 4, AttemptRequested, n, BeginProvisioning);
    SettingBooked(b, n, BeginProvisioning, AttemptRequested, r, 0, r);
    hide Setting;
    Crashing(INITIAL, c, n, Handling(j, ProvisionJob, 4, Provision(CreateVMs)), 4);
    b' := Returned(c, n, th);
    StageLater(c, 4, EnvironmentProvisioning, n, n + 1);
    StageReturned(c, 4, EnvironmentProvisioning, n + 1, n, th);
  }

  lemma FirstTry() returns (b: State)
    ensures Trying(b, 5, 7, 0)
  {
    hide Cleanly;
    Requests();
    RequestedStage();
    var r := Requested();
    hide Requested;
    b := BeginsTry(r, 5, 6, 0);
  }

  // The handler of a redelivery fails, refunds and drops the job.
  lemma TryFails(b: State, j: Id, n: Id, r: nat) returns (f: State)
    requires Trying(b, j, n, r)
    ensures Cleanly(INITIAL, f, 4) && Stage(f, 4, ProvisionFailed, n + 1) && Booked(f, ProvisionFailed, r, 0, r + 1)
    ensures f.threads == map[]
  {
    hide Cleanly;
    var job := Some(Held(j, ProvisionJob));
    AboutToFailToo(b, n, j, 4, n);
    RefundsCleanly(INITIAL, b, n, job, 4, n);
    StageRefunded(b, n, 4, n);
    RefundedBooked(b, n, EnvironmentProvisioning, r, 0, r);
    var c, th := Refunded(b, n, 4), Thread(job, 4, Done(true));
    assert c.threads == map[];
    hide Refunded;
    Returning(INITIAL, c, n, th, 4);
    f := Returned(c, n, th);
    StageLater(c, 4, ProvisionFailed, n, n + 1);
    StageReturned(c, 4, ProvisionFailed, n + 1, n, th);
  }

  // A redelivered job whose handler finds the attempt provisioning gets as far as the write of its failure.
  lemma AboutToFailToo(b: State, t: Id, j: Id, a: Id, n: Id)
    requires Cleanly(INITIAL, b, a) && Stage(b, a, EnvironmentProvisioning, n) && t !in b.born
    requires j in b.jobs && b.jobs[j] == Job(ProvisionJob, a)
    ensures var th := Handling(j, ProvisionJob, a, TransitionWrite(MarkFailed, EnvironmentProvisioning));
            Cleanly(INITIAL, With(b, t, th), a)
  {
    hide Cleanly;
    Delivering(INITIAL, b, t, j, ProvisionJob, a);
    Next(INITIAL, b, t, Handling(j, ProvisionJob, a, Provision(LoadAttempt)), Works(0), b,
         Handling(j, ProvisionJob, a, Provision(CreateVMs)), a);
    AboutToFail(INITIAL, b, t, Some(Held(j, ProvisionJob)), a, n);
  }

  // An admin resets the attempt and enqueues job n.
  lemma TriesAgain(f: State, n: Id, r: nat) returns (b: State)
    requires Cleanly(INITIAL, f, 4) && Stage(f, 4, ProvisionFailed, n) && Booked(f, ProvisionFailed, r, 0, r + 1)
    requires f.threads == map[]
    ensures Cleanly(INITIAL, b, 4) && Stage(b, 4, AttemptRequested, n + 1)
    ensures Booked(b, AttemptRequested, r + 1, 0, r + 1)
    ensures b.threads == map[] && n in b.jobs && b.jobs[n] == Job(ProvisionJob, 4)
  {
    hide Cleanly;
    var c := Setting(f, n, 4, Reset);
    Retries(INITIAL, f, n, 4, n);
    SettingBooked(f, n, Reset, ProvisionFailed, r, 0, r + 1);
    var d, th := PutJob(c, n, ProvisionJob, 4), Thread(None, 4, Done(true));
    EnqueuesRetry(c, n, n);
    StageEnqueued(c, 4, AttemptRequested, n, ProvisionJob);
    assert c.threads == map[];
    hide Setting;
    Returning(INITIAL, d, n, th, 4);
    StageReturned(d, 4, AttemptRequested, n + 1, n, th);
    b := Returned(d, n, th);
  }

  lemma EnqueuesRetry(b: State, t: Id, n: Id)
    requires Cleanly(INITIAL, With(b, t, Thread(None, 4, Client(EnqueueProvision))), 4) && n !in b.epochs
    ensures Cleanly(INITIAL, With(PutJob(b, n, ProvisionJob, 4), t, Thread(None, 4, Done(true))), 4)
  {
    hide Cleanly;
    Next(INITIAL, b, t, Thread(None, 4, Client(EnqueueProvision)), Works(n), PutJob(b, n, ProvisionJob, 4),
         Thread(None, 4, Done(true)), 4);
  }

  lemma NextTry(b: State, j: Id, n: Id, r: nat) returns (b': State)
    requires Trying(b, j, n, r)
    ensures Trying(b', n + 1, n + 3, r + 1)
  {
    hide Cleanly;
    hide Stage, Booked;
    var f := TryFails(b, j, n, r);
    var c := TriesAgain(f, n + 1, r);
    b' := BeginsTry(c, n + 1, n + 2, r + 1);
  }

  lemma {:induction false} Tries(r: nat) returns (b: State, j: Id, n: Id)
    ensures Trying(b, j, n, r)
  {
    if r == 0 {
      b := FirstTry();
      j, n := 5, 7;
    } else {
      var c, i, m := Tries(r - 1);
      b := NextTry(c, i, m, r - 1);
      j, n := m + 1, m + 3;
    }
  }

  // ----- one try recorded as failed any number of times

  function Recorder(j: Id): Thread {
    Handling(j, ProvisionJob, 4, TransitionWrite(MarkFailed, EnvironmentProvisioning))
  }

  // The threads from m to n all stand at the same place.
  predicate Poised(s: State, th: Thread, m: Id, n: Id) {
    forall t: Id | m <= t < n :: t in s.threads && s.threads[t] == th && t in s.born
  }

  // Job j is redelivered k times, and each handler reads before the first one writes.
  lemma {:induction false} Gathers(b: State, j: Id, n: Id, r: nat, k: nat) returns (s: State)
    requires Trying(b, j, n, r)
    ensures Cleanly(INITIAL, s, 4) && Stage(s, 4, EnvironmentProvisioning, n + k) && Poised(s, Recorder(j), n, n + k)
    ensures Booked(s, EnvironmentProvisioning, r, 0, r) && s.jobs == b.jobs
  {
    hide Cleanly;
    if k == 0 {
      s := b;
    } else {
      var c := Gathers(b, j, n, r, k - 1);
      AboutToFailToo(c, n + k - 1, j, 4, n + k - 1);
      s := With(c, n + k - 1, Recorder(j));
    }
  }

  // They all write and refund, one after the other.
  lemma {:induction false} Records(s: State, j: Id, m: Id, k: nat, r: nat, stale: nat, refunds: nat) returns (s': State)
    requires Reaches(INITIAL, s) && Poised(s, Recorder(j), m, m + k) && Booked(s, ProvisionFailed, r, stale, refunds)
    ensures Reaches(INITIAL, s') && Booked(s', ProvisionFailed, r, stale + k, refunds + k)
    decreases k
  {
    if k == 0 {
      s' := s;
    } else {
      var c := RecordsOnce(s, j, m, m + k, ProvisionFailed, r, stale, refunds);
      s' := Records(c, j, m + 1, k - 1, r, stale + 1, refunds + 1);
    }
  }

  lemma RecordsOnce(s: State, j: Id, t: Id, n: Id, st: Status, r: nat, stale: nat, refunds: nat) returns (s': State)
    requires Reaches(INITIAL, s) && t < n && Poised(s, Recorder(j), t, n) && Booked(s, st, r, stale, refunds)
    ensures Reaches(INITIAL, s') && Poised(s', Recorder(j), t + 1, n)
    ensures Booked(s', ProvisionFailed, r, stale + One(!Waiting(st)), refunds + 1)
  {
    assert s == With(s, t, Recorder(j));
    Refunds(s, t, Some(Held(j, ProvisionJob)), 4);
    var c := Refunded(s, t, 4);
    s' := With(c, t, Handling(j, ProvisionJob, 4, Done(true)));
    ReachesTwice(INITIAL, s, s');
    RefundedBooked(s, t, st, r, stale, refunds);
    RefundedRows(s, t, 4);
  }

  // Attempt a has had so many resets and stale writes, each was refunded and so was the first try, and the
  // counter of its purchase exceeds the grant by all of them.
  predicate MetWithEquality(s: State, a: Id, resets: nat, stale: nat) {
    && Owned(s, a)
    && var row, pur := s.attempts[a], s.purchases[s.attempts[a].purchase];
       && row.book.resets == resets && row.book.stale == stale && row.book.refunds == 1 + resets + stale
       && pur.book.resets == resets && pur.book.stale == stale
       && pur.remaining == pur.book.grant + resets + stale
  }

  // The refund law, and with it the law of the counter, is met with equality for every number of resets
  // and every number of stale writes.
  lemma RefundLawIsTight(resets: nat, stale: nat)
    ensures exists s, a :: Reaches(INITIAL, s) && MetWithEquality(s, a, resets, stale)
  {
    hide Cleanly;
    hide Trying, Stage, Reaches, Poised, Booked, MetWithEquality;
    var b, j, n := Tries(resets);
    var s := Gathers(b, j, n, resets, stale + 1);
    CleanlyReaches(INITIAL, s, 4);
    var c := RecordsOnce(s, j, n, n + (stale + 1), EnvironmentProvisioning, resets, 0, resets);
    assert n + (stale + 1) == n + 1 + stale;
    var d := Records(c, j, n + 1, stale, resets, 0, resets + 1);
    BookedIsEquality(d, resets, stale);
  }

  lemma BookedIsEquality(s: State, resets: nat, stale: nat)
    requires Booked(s, ProvisionFailed, resets, stale, resets + 1 + stale)
    ensures MetWithEquality(s, 4, resets, stale)
  {
  }

  // Two overlapping handlers of one failed provisioning pay two refunds for one reset-free attempt.
  lemma StaleWriteRefundsTwice()
    ensures exists s, a ::
              && Reaches(INITIAL, s) && Owned(s, a) && s.attempts[a].book.resets == 0 && s.attempts[a].book.refunds == 2
              && s.purchases[s.attempts[a].purchase].remaining == s.purchases[s.attempts[a].purchase].book.grant + 1
  {
    RefundLawIsTight(0, 1);
    var s, a :| Reaches(INITIAL, s) && MetWithEquality(s, a, 0, 1);
    assert s.attempts[a].book.refunds == 2;
  }

  // ----- any number of exits and of gradings

  function Submitter(): Thread { Thread(None, 4, TransitionWrite(MarkSubmitted, Running)) }

  function Grader(j: Id): Thread { Handling(j, GradeJob, 4, TransitionWrite(BeginGrading, Submitted)) }

  // k submissions read before the first one writes.
  lemma {:induction false} GathersSubmitters(b: State, n: Id, k: nat) returns (s: State)
    requires Cleanly(INITIAL, b, 4) && Stage(b, 4, Running, n)
    ensures Cleanly(INITIAL, s, 4) && Stage(s, 4, Running, n + k) && Poised(s, Submitter(), n, n + k)
    ensures s.attempts == b.attempts
  {
    hide Cleanly;
    if k == 0 {
      s := b;
    } else {
      var t := n + k - 1;
      var c := GathersSubmitters(b, n, k - 1);
      assert t !in c.born;
      Submits(INITIAL, c, t, 4, t);
      Reads(INITIAL, c, t, None, 4, MarkSubmitted, Running, t);
      StageWith(c, 4, Running, t, Submitter());
      s := With(c, t, Submitter());
    }
  }

  // k deliveries of grade job j read before the first one writes.
  lemma {:induction false} GathersGraders(s0: State, b: State, j: Id, n: Id, k: nat) returns (s: State)
    requires Cleanly(s0, b, 4) && Stage(b, 4, Submitted, n) && j in b.jobs && b.jobs[j] == Job(GradeJob, 4)
    ensures Cleanly(s0, s, 4) && Stage(s, 4, Submitted, n + k) && Poised(s, Grader(j), n, n + k)
    ensures s.attempts == b.attempts && s.jobs == b.jobs
  {
    hide Cleanly;
    if k == 0 {
      s := b;
    } else {
      var t := n + k - 1;
      var c := GathersGraders(s0, b, j, n, k - 1);
      assert t !in c.born;
      ReadsForGrading(s0, c, t, j, 4, t);
      StageWith(c, 4, Submitted, t, Grader(j));
      s := With(c, t, Grader(j));
    }
  }

  // How often attempt 4 has left `running` and gone into grading, and how often late.
  predicate Passed(s: State, exits: nat, lateExits: nat, gradings: nat, lateGradings: nat) {
    && 4 in s.attempts && s.attempts[4].book.exits == exits && s.attempts[4].book.lateExits == lateExits
    && s.attempts[4].book.gradings == gradings && s.attempts[4].book.lateGradings == lateGradings
  }

  // The first of the poised threads writes.
  lemma WritesOnce(s: State, th: Thread, site: Site, seen: Status, t: Id, n: Id, st: Status, m: Id) returns (s': State)
    requires Reaches(INITIAL, s) && t < n && Poised(s, th, t, n) && Stage(s, 4, st, m) && t < m
    requires th.attempt == 4 && th.pc == TransitionWrite(site, seen)
    ensures Reaches(INITIAL, s') && Poised(s', th, t + 1, n) && Stage(s', 4, Target(site), m)
    ensures s'.attempts[4] == WithStatus(s.attempts[4], t, site)
  {
    var b, th' := Setting(s, t, 4, site), Thread(th.job, 4, AfterSuccess(site));
    OnTop(s, t);
    Moves(s, t, th, Works(0));
    assert Below(s, t, th, Works(0)) == b && ThreadAfter(s, th, Works(0)) == th';
    s' := With(b, t, th');
    ReachesOn(INITIAL, s, Step(t, Works(0)));
    StageAfterStatus(s, t, 4, st, m, site);
    hide Reaches, Below, ThreadAfter, Setting, SetStatusOp;
    StageOn(b, 4, Target(site), m, t, th');
  }

  // They all write, one after the other: the first in time, the others late.
  lemma {:induction false} WriteAll(s: State, th: Thread, site: Site, seen: Status, t: Id, k: nat, st: Status, m: Id)
      returns (s': State)
    requires Reaches(INITIAL, s) && Poised(s, th, t, t + k) && Stage(s, 4, st, m) && t + k <= m
    requires th.attempt == 4 && th.pc == TransitionWrite(site, seen) && k > 0
    requires site == MarkSubmitted || site == BeginGrading
    requires Phase(st) <= Phase(Target(site)) && (site == BeginGrading ==> Phase(st) >= 4)
    ensures Reaches(INITIAL, s') && Stage(s', 4, Target(site), m)
    ensures var b, b' := s.attempts[4].book, s'.attempts[4].book;
            var late := k - One(Phase(st) < Phase(Target(site)));
            && b'.exits == b.exits + (if site == MarkSubmitted then k else 0)
            && b'.lateExits == b.lateExits + (if site == MarkSubmitted then late else 0)
            && b'.gradings == b.gradings + (if site == BeginGrading then k else 0)
            && b'.lateGradings == b.lateGradings + (if site == BeginGrading then late else 0)
    decreases k
  {
    var c := WritesOnce(s, th, site, seen, t, t + k, st, m);
    hide Stage, Reaches;
    if k == 1 {
      s' := c;
    } else {
      s' := WriteAll(c, th, site, seen, t + 1, k - 1, Target(site), m);
    }
  }

  // A grade job for whoever asks.
  lemma WithGradeJob(s: State, n: Id) returns (b: State)
    requires Stage(s, 4, Submitted, n)
    ensures Cleanly(s, b, 4) && Stage(b, 4, Submitted, n + 1) && n in b.jobs && b.jobs[n] == Job(GradeJob, 4)
    ensures b.attempts == s.attempts
  {
    hide Cleanly;
    CleanlyItself(s, 4);
    assert n !in s.born && n !in s.epochs;
    Regrades(s, s, n, 4);
    StageEnqueued(s, 4, Submitted, n, GradeJob);
    StageOn(PutJob(s, n, GradeJob, 4), 4, Submitted, n + 1, n, Thread(None, 4, Done(true)));
    b := With(PutJob(s, n, GradeJob, 4), n, Thread(None, 4, Done(true)));
  }

  lemma ExitsTimes(late: nat) returns (s: State, m: Id)
    ensures Reaches(INITIAL, s) && Stage(s, 4, Submitted, m) && Passed(s, 1 + late, late, 0, 0)
  {
    hide Cleanly, Reaches;
    var r := Runs();
    CleanlyPasses(r);
    var b := GathersSubmitters(r, 8, late + 1);
    CleanlyReaches(INITIAL, b, 4);
    m := 8 + (late + 1);
    s := WriteAll(b, Submitter(), MarkSubmitted, Running, 8, late + 1, Running, m);
  }

  // Both laws of the way through grading are met with equality, for every number of late exits and every
  // number of late gradings.
  lemma GradingLawsAreTight(lateExits: nat, lateGradings: nat)
    ensures exists s :: Reaches(INITIAL, s) && Passed(s, 1 + lateExits, lateExits, 1 + lateGradings, lateGradings)
  {
    hide Cleanly, Reaches;
    var s, m := ExitsTimes(lateExits);
    var b := WithGradeJob(s, m);
    var c := GathersGraders(s, b, m, m + 1, lateGradings + 1);
    CleanlyReaches(s, c, 4);
    ReachesTwice(INITIAL, s, c);
    var d := WriteAll(c, Grader(m), BeginGrading, Submitted, m + 1, lateGradings + 1, Submitted,
                      m + 1 + (lateGradings + 1));
    assert Passed(d, 1 + lateExits, lateExits, 1 + lateGradings, lateGradings);
  }

  // ----- two moves out of running

  lemma WithCommutes(b: State, t: Id, th: Thread, u: Id, th': Thread)
    requires t != u
    ensures With(With(b, t, th), u, th') == With(With(b, u, th'), t, th)
  {
  }

  // An expiry that read `running` before the submission was written takes the attempt out of it again.
  lemma StaleWriteLeavesRunningTwice()
    ensures exists s, t ::
              && Cleanly(INITIAL, s, 4) && t in s.threads && s.threads[t].pc == TransitionWrite(MarkExpired, Running)
              && 4 in s.attempts && s.attempts[4].status == Submitted && s.attempts[4].book.exits == 1
              && var s' := StepState(s, t, Works(0));
                 4 in s'.attempts && s'.attempts[4].status == Expired && s'.attempts[4].book.exits == 2
  {
    hide Cleanly;
    var b, x := IsSubmittedLate();
    var c, th := Setting(b, 8, 4, MarkSubmitted), Thread(None, 4, Client(EnqueueGrade));
    var s := With(c, 8, th);
    LeavesAgain(b, x, s);
  }

  lemma LeavesAgain(b: State, x: Thread, s: State)
    requires Stage(b, 4, Running, 10) && b.attempts[4].book.exits == 0 && 9 in b.threads && b.threads[9] == x
    requires x == Thread(None, 4, TransitionWrite(MarkExpired, Running))
    requires s == With(Setting(b, 8, 4, MarkSubmitted), 8, Thread(None, 4, Client(EnqueueGrade)))
    ensures 9 in s.threads && s.threads[9] == x && 4 in s.attempts && s.attempts[4].status == Submitted
    ensures s.attempts[4].book.exits == 1
    ensures var s' := StepState(s, 9, Works(0));
            4 in s'.attempts && s'.attempts[4].status == Expired && s'.attempts[4].book.exits == 2
  {
  }

  // The submission has written and the expiry is about to.
  lemma IsSubmittedLate() returns (b: State, x: Thread)
    ensures Cleanly(INITIAL, With(Setting(b, 8, 4, MarkSubmitted), 8, Thread(None, 4, Client(EnqueueGrade))), 4)
    ensures Stage(b, 4, Running, 10) && b.attempts[4].book.exits == 0 && 9 in b.threads && b.threads[9] == x
    ensures x == Thread(None, 4, TransitionWrite(MarkExpired, Running))
  {
    hide Cleanly;
    var r := Runs();
    CleanlyPasses(r);
    var y := Thread(None, 4, TransitionWrite(MarkSubmitted, Running));
    x := Thread(None, 4, TransitionWrite(MarkExpired, Running));
    BothLeave(r, y, x);
    b := With(r, 9, x);
    NextWrites(b, y);
  }

  lemma CleanlyPasses(s: State)
    requires Cleanly(INITIAL, s, 4) && 4 in s.attempts
    ensures var row := s.attempts[4];
            && row.book.exits + One(Phase(row.status) < 4) <= 1 && row.book.gradings + One(Phase(row.status) < 5) <= 1
            && row.book.scoreWrites <= row.book.gradings && NotLate(row)
  {
    var acts: seq<Action> :| Run(INITIAL, acts) == s && FreshRun(INITIAL, acts, 4) && BenignRun(INITIAL, acts, 4);
    FreshRunIsNotLate(acts, 4);
    ExitLaw(acts, 4);
    GradingLaw(acts, 4);
  }

  // Both have read `running`.
  lemma BothLeave(r: State, y: Thread, x: Thread)
    requires Cleanly(INITIAL, r, 4) && Stage(r, 4, Running, 8)
    requires y == Thread(None, 4, TransitionWrite(MarkSubmitted, Running))
    requires x == Thread(None, 4, TransitionWrite(MarkExpired, Running))
    ensures Cleanly(INITIAL, With(With(r, 9, x), 8, y), 4) && Stage(With(r, 9, x), 4, Running, 10)
  {
    hide Cleanly;
    Submits(INITIAL, r, 8, 4, 8);
    Reads(INITIAL, r, 8, None, 4, MarkSubmitted, Running, 8);
    var c := With(r, 8, y);
    StageWith(r, 4, Running, 8, y);
    Expires(INITIAL, c, 9, 4, 9);
    Reads(INITIAL, c, 9, None, 4, MarkExpired, Running, 9);
    WithCommutes(r, 8, y, 9, x);
    StageLater(r, 4, Running, 8, 9);
    StageWith(r, 4, Running, 9, x);
  }

  lemma NextWrites(b: State, y: Thread)
    requires y == Thread(None, 4, TransitionWrite(MarkSubmitted, Running))
    requires Cleanly(INITIAL, With(b, 8, y), 4) && 4 in b.attempts && b.attempts[4].status == Running
    ensures Cleanly(INITIAL, With(Setting(b, 8, 4, MarkSubmitted), 8, Thread(None, 4, Client(EnqueueGrade))), 4)
  {
    hide Cleanly;
    Next(INITIAL, b, 8, y, Works(0), Setting(b, 8, 4, MarkSubmitted), Thread(None, 4, Client(EnqueueGrade)), 4);
  }

  // ----- two graders

  function AboutToGrade(): Thread {
    Handling(8, GradeJob, 4, TransitionWrite(BeginGrading, Submitted))
  }

  // Thread 9 is grading and thread 10, which read `submitted` too, is about to begin.
  lemma IsGradedLate() returns (b: State)
    ensures Cleanly(INITIAL, With(b, 9, Handling(8, GradeJob, 4, Grade(Fetch))), 4) && Stage(b, 4, Grading, 11)
    ensures EnvironmentOf(b, 6, 4) && b.environments[6].workstationIP.Some?
    ensures b.threads == map[10 := AboutToGrade()] && 10 in b.born && b.attempts[4].book.gradings == 1
    ensures b.attempts[4].book.scoreWrites == 0
  {
    hide Cleanly;
    var h := IsHandedIn();
    CleanlyPasses(h);
    BothReadForGrading(h);
    var d := With(h, 10, AboutToGrade());
    b := Setting(d, 9, 4, BeginGrading);
    StageAfterStatus(d, 9, 4, Submitted, 11, BeginGrading);
    BeginsGrading(d);
  }

  lemma BothReadForGrading(h: State)
    requires Cleanly(INITIAL, h, 4) && Stage(h, 4, Submitted, 9) && 8 in h.jobs && h.jobs[8] == Job(GradeJob, 4)
    ensures var d := With(h, 10, AboutToGrade());
            Cleanly(INITIAL, With(d, 9, AboutToGrade()), 4) && Stage(d, 4, Submitted, 11)
  {
    hide Cleanly;
    var w := AboutToGrade();
    ReadsForGrading(INITIAL, h, 9, 8, 4, 9);
    StageWith(h, 4, Submitted, 9, w);
    ReadsForGrading(INITIAL, With(h, 9, w), 10, 8, 4, 10);
    WithCommutes(h, 9, w, 10, w);
    StageLater(h, 4, Submitted, 9, 10);
    StageWith(h, 4, Submitted, 10, w);
  }

  lemma BeginsGrading(b: State)
    requires Cleanly(INITIAL, With(b, 9, AboutToGrade()), 4) && 4 in b.attempts && b.attempts[4].status == Submitted
    ensures Cleanly(INITIAL, With(Setting(b, 9, 4, BeginGrading), 9, Handling(8, GradeJob, 4, Grade(Fetch))), 4)
  {
    hide Cleanly;
    Next(INITIAL, b, 9, AboutToGrade(), Works(0), Setting(b, 9, 4, BeginGrading),
         Handling(8, GradeJob, 4, Grade(Fetch)), 4);
  }

  // Two handlers grade the same attempt.
  lemma StaleWriteGradesTwice()
    ensures exists s, t, u ::
              && Cleanly(INITIAL, s, 4) && t in s.threads && s.threads[t].pc == TransitionWrite(BeginGrading, Submitted)
              && t != u && AtPc(s, u, 4, Grade(Fetch))
              && AtPc(StepState(s, t, Works(0)), t, 4, Grade(Fetch))
              && AtPc(StepState(s, t, Works(0)), u, 4, Grade(Fetch))
  {
    hide Cleanly;
    var b := IsGradedLate();
    var s := With(b, 9, Handling(8, GradeJob, 4, Grade(Fetch)));
    assert s.threads[10] == AboutToGrade();
    assert AtPc(s, 9, 4, Grade(Fetch)) && AtPc(StepState(s, 10, Works(0)), 9, 4, Grade(Fetch));
  }

  // A score of 10 out of 10 is final until one stale write: all that follows it is clean, and the score is
  // 0 out of 10.
  lemma StaleWriteOverwritesScore()
    ensures exists s, t, s' ::
              && Cleanly(INITIAL, s, 4) && ScoredAs(s, 4, Score(10, 10), 1)
              && t in s.threads && s.threads[t].pc == TransitionWrite(BeginGrading, Submitted)
              && Cleanly(StepState(s, t, Works(0)), s', 4) && ScoredAs(s', 4, Score(0, 10), 2)
  {
    hide Cleanly;
    var b := IsGradedLate();
    var s, c := ScoredOnce(b);
    var s' := ScoredAgain(s, c);
    assert s.threads[10] == AboutToGrade();
  }

  predicate ScoredAs(s: State, a: Id, score: Score, gradings: nat) {
    && a in s.attempts && s.attempts[a].status == Scored && s.attempts[a].score == Some(score)
    && s.attempts[a].book.gradings == gradings && s.attempts[a].book.scoreWrites == gradings
  }

  lemma ScoredOnce(b: State) returns (s: State, c: State)
    requires Cleanly(INITIAL, With(b, 9, Handling(8, GradeJob, 4, Grade(Fetch))), 4) && Stage(b, 4, Grading, 11)
    requires EnvironmentOf(b, 6, 4) && b.environments[6].workstationIP.Some?
    requires b.threads == map[10 := AboutToGrade()] && 10 in b.born && b.attempts[4].book.gradings == 1
    requires b.attempts[4].book.scoreWrites == 0
    ensures Cleanly(INITIAL, s, 4) && ScoredAs(s, 4, Score(10, 10), 1) && s == With(c, 10, AboutToGrade())
    ensures Stage(c, 4, Scored, 11) && EnvironmentOf(c, 6, 4) && c.environments[6].workstationIP.Some?
  {
    hide Cleanly;
    var g, th := Marked(b, 9, 4, Score(10, 10)), Handling(8, GradeJob, 4, Grade(EnqueueCleanup));
    Fetches(INITIAL, b, 9, th.job, 4, 6);
    Marks(INITIAL, b, 9, th.job, 4, Score(10, 10), 11);
    s := With(g, 9, th);
    c := s.(threads := map[9 := th]);
    assert s.threads == map[9 := th, 10 := AboutToGrade()];
    assert s == With(c, 10, AboutToGrade());
  }

  lemma ScoredAgain(s: State, c: State) returns (s': State)
    requires s == With(c, 10, AboutToGrade()) && ScoredAs(c, 4, Score(10, 10), 1)
    requires Stage(c, 4, Scored, 11) && EnvironmentOf(c, 6, 4) && c.environments[6].workstationIP.Some?
    ensures Cleanly(StepState(s, 10, Works(0)), s', 4) && ScoredAs(s', 4, Score(0, 10), 2)
  {
    hide Cleanly;
    var d, th := Setting(c, 10, 4, BeginGrading), Handling(8, GradeJob, 4, Grade(Fetch));
    Moves(c, 10, AboutToGrade(), Works(0));
    assert StepState(s, 10, Works(0)) == With(d, 10, th);
    CleanlyItself(With(d, 10, th), 4);
    StageAfterStatus(c, 10, 4, Scored, 11, BeginGrading);
    hide StepState, Setting;
    Fetches(With(d, 10, th), d, 10, th.job, 4, 6);
    Marks(With(d, 10, th), d, 10, th.job, 4, Score(0, 10), 11);
    s' := With(Marked(d, 10, 4, Score(0, 10)), 10, Handling(8, GradeJob, 4, Grade(EnqueueCleanup)));
  }

  // ----- a grading that is given up

  // A handler that crashes while it grades leaves the attempt in `grading` with nobody at work on it.
  lemma GradingCanBeAbandoned()
    ensures exists s ::
              && Cleanly(INITIAL, s, 4) && 4 in s.attempts && s.attempts[4].status == Grading && s.threads == map[]
  {
    hide Cleanly;
    var h := IsHandedIn();
    var b, th := Setting(h, 9, 4, BeginGrading), Handling(8, GradeJob, 4, Grade(Fetch));
    ReadsForGrading(INITIAL, h, 9, 8, 4, 9);
    BeginsGrading(h);
    Crashing(INITIAL, b, 9, th, 4);
    StageAfterStatus(h, 9, 4, Submitted, 9, BeginGrading);
  }
}
