/**
 Building runs from the initial state: one thread at a time on top of a state in which others may stand
 still, and the stages that one attempt goes through when nothing goes wrong.
 */
module ProtocolScenes {
  import opened Wrappers
  import opened AttemptLifecycle
  import opened AttemptProtocol
  import opened ProtocolLedger
  import opened ProtocolNoStrand

  // ----- clean runs: fresh for the attempt and without the failures that can strand it

  ghost predicate Cleanly(s: State, s': State, a: Id) {
    exists acts: seq<Action> :: Run(s, acts) == s' && FreshRun(s, acts, a) && BenignRun(s, acts, a)
  }

  lemma CleanlyItself(s: State, a: Id)
    ensures Cleanly(s, s, a)
  {
    assert Run(s, []) == s && FreshRun(s, [], a) && BenignRun(s, [], a);
  }

  lemma CleanlyOnce(s: State, act: Action, a: Id)
    requires Fresh(s, act, a) && Benign(s, act, a)
    ensures Cleanly(s, Apply(s, act), a)
  {
    RunOne(s, act);
    assert [act][1..] == [];
    assert FreshRun(s, [act], a) && BenignRun(s, [act], a);
  }

  lemma CleanlyTwice(s: State, s': State, s'': State, a: Id)
    requires Cleanly(s, s', a) && Cleanly(s', s'', a)
    ensures Cleanly(s, s'', a)
  {
    var acts: seq<Action> :| Run(s, acts) == s' && FreshRun(s, acts, a) && BenignRun(s, acts, a);
    var more: seq<Action> :| Run(s', more) == s'' && FreshRun(s', more, a) && BenignRun(s', more, a);
    RunAppend(s, acts, more);
    FreshAppend(s, acts, more, a);
    BenignAppend(s, acts, more, a);
  }

  lemma CleanlyReaches(s: State, s': State, a: Id)
    requires Cleanly(s, s', a)
    ensures Reaches(s, s')
  {
  }

  // ----- one thread on top of a state

  function With(b: State, t: Id, th: Thread): State {
    b.(threads := b.threads[t := th], born := b.born + {t})
  }

  lemma OnTop(s: State, t: Id)
    requires t in s.threads && t in s.born
    ensures s == With(s, t, s.threads[t])
  {
  }

  lemma CodeIgnoresThreads(b: State, t: Id, th: Thread, th': Thread, c: Choice)
    ensures Code(With(b, t, th), th', c) == Code(b, th', c)
  {
    var s := With(b, t, th);
    match th'.pc
    case Request(pc) => assert RequestCode(s, th', pc, c) == RequestCode(b, th', pc, c);
    case Provision(pc) => assert ProvisionCode(s, th', pc, c) == ProvisionCode(b, th', pc, c);
    case Grade(pc) => assert GradeCode(s, th', pc, c) == GradeCode(b, th', pc, c);
    case Cleanup(pc) => assert CleanupCode(s, th', pc, c) == CleanupCode(b, th', pc, c);
    case Client(pc) => assert ClientCode(s, th', pc, c) == ClientCode(b, th', pc, c);
    case Sweep(pc) => assert SweepCode(s, th', pc, c) == SweepCode(b, th', pc, c);
    case TransitionRead(site) =>
    case TransitionWrite(site, _) =>
    case Done(_) =>
  }

  lemma AcceptIgnoresThreads(b: State, t: Id, th: Thread, j: Id, a: Id)
    ensures AcceptOp(With(b, t, th), t, j, a) == With(AcceptOp(b, t, j, a), t, th)
  {
    hide AcceptedOn, AcceptedRow;
  }

  lemma SettingIgnoresThreads(b: State, t: Id, th: Thread, a: Id, site: Site)
    ensures SetStatusOp(With(b, t, th), t, a, site) == With(SetStatusOp(b, t, a, site), t, th)
  {
    hide WithStatus, StatusOn;
  }

  lemma SettlingIgnoresThreads(b: State, t: Id, th: Thread, a: Id, paid: nat)
    ensures SettleOp(With(b, t, th), t, a, paid) == With(SettleOp(b, t, a, paid), t, th)
  {
    hide Settled, SettledOn;
  }

  lemma PurchaseIgnoresThreads(b: State, t: Id, th: Thread, op: Op)
    requires op.TakeCharge? || op.GiveBack? || op.LoseCharge?
    ensures Perform(With(b, t, th), t, op) == With(Perform(b, t, op), t, th)
  {
    hide Charged, GivenBack, ChargeLost, AcceptOp, SetStatusOp, SettleOp;
  }

  lemma AttemptIgnoresThreads(b: State, t: Id, th: Thread, op: Op)
    requires op.InsertAttempt? || op.MarkOrphan? || op.SetScore?
    ensures Perform(With(b, t, th), t, op) == With(Perform(b, t, op), t, th)
  {
    hide NewAttempt, Orphaned, ScoreWritten, AcceptOp, SetStatusOp, SettleOp;
  }

  lemma PerformIgnoresThreads(b: State, t: Id, th: Thread, op: Op)
    ensures Perform(With(b, t, th), t, op) == With(Perform(b, t, op), t, th)
  {
    hide Perform, With;
    if op.TakeCharge? || op.GiveBack? || op.LoseCharge? {
      PurchaseIgnoresThreads(b, t, th, op);
    } else if op.InsertAttempt? || op.MarkOrphan? || op.SetScore? {
      AttemptIgnoresThreads(b, t, th, op);
    } else {
      OtherIgnoresThreads(b, t, th, op);
    }
  }

  lemma OtherIgnoresThreads(b: State, t: Id, th: Thread, op: Op)
    requires !op.TakeCharge? && !op.GiveBack? && !op.LoseCharge?
    requires !op.InsertAttempt? && !op.MarkOrphan? && !op.SetScore?
    ensures Perform(With(b, t, th), t, op) == With(Perform(b, t, op), t, th)
  {
    hide AcceptOp, SetStatusOp, SettleOp, PutPurchase, PutAttempt;
    match op
    case Accept(j, a) => AcceptIgnoresThreads(b, t, th, j, a);
    case SetStatus(a, site) => SettingIgnoresThreads(b, t, th, a, site);
    case Refund(a) => SettlingIgnoresThreads(b, t, th, a, 1);
    case Forgo(a) => SettlingIgnoresThreads(b, t, th, a, 0);
    case _ =>
  }

  lemma WithTwice(b: State, t: Id, th: Thread, th': Thread)
    ensures With(With(b, t, th), t, th') == With(b, t, th')
  {
  }

  function ThreadAfter(b: State, th: Thread, c: Choice): Thread {
    var e := Code(b, th, c);
    Thread(th.job, e.attempt, e.pc)
  }

  function Below(b: State, t: Id, th: Thread, c: Choice): State {
    Perform(b, t, Code(b, th, c).op)
  }

  // A call of the thread changes the state below and the thread on top.
  lemma Moves(b: State, t: Id, th: Thread, c: Choice)
    ensures Apply(With(b, t, th), Step(t, c)) == With(Below(b, t, th, c), t, ThreadAfter(b, th, c))
  {
    CodeIgnoresThreads(b, t, th, th, c);
    PerformIgnoresThreads(b, t, th, Code(b, th, c).op);
    hide Code, Perform;
    var b' := Below(b, t, th, c);
    assert With(b', t, th).threads[t := ThreadAfter(b, th, c)] == b'.threads[t := ThreadAfter(b, th, c)] by {
      WithTwice(b', t, th, ThreadAfter(b, th, c));
    }
    PerformLeavesThreads(b, t, Code(b, th, c).op);
  }

  lemma PerformLeavesThreads(b: State, t: Id, op: Op)
    ensures Perform(b, t, op).threads == b.threads && Perform(b, t, op).born == b.born
  {
  }

  // The same for one attempt, cleanly.
  lemma MovesCleanly(b: State, t: Id, th: Thread, c: Choice, a: Id)
    requires th.pc.TransitionWrite? && c.ok && th.attempt == a ==> a in b.attempts && b.attempts[a].status == th.pc.seen
    requires Critical(th.pc) ==> c.ok
    ensures Cleanly(With(b, t, th), With(Below(b, t, th, c), t, ThreadAfter(b, th, c)), a)
  {
    hide Cleanly;
    Moves(b, t, th, c);
    CleanlyOnce(With(b, t, th), Step(t, c), a);
  }

  // One more call after a clean run.
  lemma Next(s0: State, b: State, t: Id, th: Thread, c: Choice, b': State, th': Thread, a: Id)
    requires Cleanly(s0, With(b, t, th), a)
    requires th.pc.TransitionWrite? && c.ok && th.attempt == a ==> a in b.attempts && b.attempts[a].status == th.pc.seen
    requires Critical(th.pc) ==> c.ok
    requires b' == Below(b, t, th, c) && th' == ThreadAfter(b, th, c)
    ensures Cleanly(s0, With(b', t, th'), a)
  {
    hide Cleanly;
    MovesCleanly(b, t, th, c, a);
    hide Below, ThreadAfter, With, Critical;
    CleanlyTwice(s0, With(b, t, th), With(b', t, th'), a);
  }

  function Works(id: Id): Choice { Choice(true, id, 0, [], false, "", "", Score(0, 0)) }

  function Finds(row: Id): Choice { Choice(true, 0, row, [], false, "", "", Score(0, 0)) }

  function Fails(): Choice { Choice(false, 0, 0, [], false, "", "", Score(0, 0)) }

  // ----- the stages of one attempt

  // Attempt a has the status, and identifiers from n on have not been used.
  ghost predicate Stage(b: State, a: Id, st: Status, n: Id) {
    && Owned(b, a) && b.attempts[a].status == st
    && b.threads.Keys <= b.born
    && (forall k | k in b.born :: k < n) && (forall k | k in b.environments :: k < n)
    && (forall k | k in b.sessions :: k < n) && (forall k | k in b.epochs :: k < n)
  }

  function Handling(j: Id, kind: JobKind, a: Id, pc: Pc): Thread {
    Thread(Some(Held(j, kind)), a, pc)
  }

  function Setting(b: State, t: Id, a: Id, site: Site): State {
    SetStatusOp(b, t, a, site)
  }

  lemma StageAfterStatus(b: State, t: Id, a: Id, st: Status, n: Id, site: Site)
    requires Stage(b, a, st, n)
    ensures Stage(Setting(b, t, a, site), a, Target(site), n)
    ensures var b' := Setting(b, t, a, site);
            && b'.threads == b.threads && b'.born == b.born && b'.jobs == b.jobs && b'.epochs == b.epochs
            && b'.environments == b.environments && b'.sessions == b.sessions
            && b'.attempts[a] == WithStatus(b.attempts[a], t, site)
  {
  }

  lemma StageWith(b: State, a: Id, st: Status, n: Id, th: Thread)
    requires Stage(b, a, st, n)
    ensures Stage(With(b, n, th), a, st, n + 1)
  {
  }

  lemma StageOn(b: State, a: Id, st: Status, n: Id, t: Id, th: Thread)
    requires Stage(b, a, st, n) && t < n
    ensures Stage(With(b, t, th), a, st, n)
  {
  }

  // A delivery of a job by a new thread.
  lemma Delivering(s0: State, b: State, t: Id, j: Id, kind: JobKind, a: Id)
    requires Cleanly(s0, b, a) && t !in b.born && j in b.jobs && b.jobs[j] == Job(kind, a)
    ensures Cleanly(s0, With(b, t, Handling(j, kind, a, HandlerEntry(kind))), a)
  {
    hide Cleanly;
    CleanlyOnce(b, Deliver(t, j), a);
    CleanlyTwice(s0, b, Apply(b, Deliver(t, j)), a);
  }

  lemma Arriving(s0: State, b: State, t: Id, call: ClientCall, a: Id)
    requires Cleanly(s0, b, a) && t !in b.born
    ensures Cleanly(s0, With(b, t, Entry(call)), a)
  {
    hide Cleanly;
    CleanlyOnce(b, Arrive(t, call), a);
    CleanlyTwice(s0, b, Apply(b, Arrive(t, call)), a);
  }

  // What is below a thread that has returned; a nil error drops its job.
  function Returned(b: State, t: Id, th: Thread): State {
    b.(born := b.born + {t},
       jobs := if th.job.Some? && th.pc == Done(true) then Remove(b.jobs, th.job.value.id) else b.jobs)
  }

  lemma Returning(s0: State, b: State, t: Id, th: Thread, a: Id)
    requires Cleanly(s0, With(b, t, th), a) && t !in b.threads && th.pc.Done?
    ensures Cleanly(s0, Returned(b, t, th), a)
  {
    hide Cleanly;
    var s := With(b, t, th);
    CleanlyOnce(s, Return(t), a);
    assert Remove(s.threads, t) == b.threads;
    CleanlyTwice(s0, s, Apply(s, Return(t)), a);
  }

  // ----- provisioning

  // A handler that has seen the attempt requested and is about to write.
  lemma Begins(s0: State, b: State, t: Id, j: Id, a: Id, n: Id)
    requires Cleanly(s0, b, a) && Stage(b, a, AttemptRequested, n) && t !in b.born
    requires j in b.jobs && b.jobs[j] == Job(ProvisionJob, a)
    ensures var th := Handling(j, ProvisionJob, a, TransitionWrite(BeginProvisioning, AttemptRequested));
            Cleanly(s0, With(b, t, th), a)
  {
    hide Cleanly;
    var th1 := Handling(j, ProvisionJob, a, Provision(LoadAttempt));
    var th2 := Handling(j, ProvisionJob, a, TransitionRead(BeginProvisioning));
    Delivering(s0, b, t, j, ProvisionJob, a);
    Next(s0, b, t, th1, Works(0), b, th2, a);
    Next(s0, b, t, th2, Works(0), b,
         Handling(j, ProvisionJob, a, TransitionWrite(BeginProvisioning, AttemptRequested)), a);
  }

  // ... and writes.
  lemma Builds(s0: State, b: State, t: Id, j: Id, a: Id, n: Id)
    requires Cleanly(s0, b, a) && Stage(b, a, AttemptRequested, n) && t !in b.born
    requires j in b.jobs && b.jobs[j] == Job(ProvisionJob, a)
    ensures var b' := Setting(b, t, a, BeginProvisioning);
            Cleanly(s0, With(b', t, Handling(j, ProvisionJob, a, Provision(CreateVMs))), a)
  {
    hide Cleanly;
    var th := Handling(j, ProvisionJob, a, TransitionWrite(BeginProvisioning, AttemptRequested));
    var b' := Setting(b, t, a, BeginProvisioning);
    Begins(s0, b, t, j, a, n);
    Next(s0, b, t, th, Works(0), b', Handling(j, ProvisionJob, a, Provision(CreateVMs)), a);
  }

  // A handler of an attempt that is provisioning already is refused by the provider.
  lemma IsRefused(s0: State, b: State, t: Id, job: Option<Held>, a: Id)
    requires Cleanly(s0, With(b, t, Thread(job, a, Provision(CreateVMs))), a)
    ensures Cleanly(s0, With(b, t, Thread(job, a, TransitionRead(MarkFailed))), a)
  {
    hide Cleanly;
    Next(s0, b, t, Thread(job, a, Provision(CreateVMs)), Fails(), b, Thread(job, a, TransitionRead(MarkFailed)), a);
  }

  lemma AboutToFail(s0: State, b: State, t: Id, job: Option<Held>, a: Id, n: Id)
    requires Cleanly(s0, With(b, t, Thread(job, a, Provision(CreateVMs))), a) && Stage(b, a, EnvironmentProvisioning, n)
    ensures Cleanly(s0, With(b, t, Thread(job, a, TransitionWrite(MarkFailed, EnvironmentProvisioning))), a)
  {
    hide Cleanly;
    IsRefused(s0, b, t, job, a);
    Next(s0, b, t, Thread(job, a, TransitionRead(MarkFailed)), Works(0), b,
         Thread(job, a, TransitionWrite(MarkFailed, EnvironmentProvisioning)), a);
  }

  function Equipping(b: State, n: Id, a: Id): State {
    b.(environments := b.environments[n := Environment(a, EnvReady, Some(""), Some(""))],
       sessions := b.sessions[n := Session(a, n, n, false)])
  }

  function WithEnvironment(b: State, n: Id, a: Id): State {
    b.(environments := b.environments[n := Environment(a, EnvReady, Some(""), Some(""))])
  }

  lemma SavesEnvironment(s0: State, b: State, t: Id, job: Option<Held>, a: Id, n: Id)
    requires Cleanly(s0, With(b, t, Thread(job, a, Provision(CreateVMs))), a) && n !in b.environments
    ensures Cleanly(s0, With(WithEnvironment(b, n, a), t, Thread(job, a, Provision(RunPlaybook(n)))), a)
  {
    hide Cleanly;
    Next(s0, b, t, Thread(job, a, Provision(CreateVMs)), Works(0), b,
         Thread(job, a, Provision(SaveEnvironment("", ""))), a);
    Next(s0, b, t, Thread(job, a, Provision(SaveEnvironment("", ""))), Works(n), WithEnvironment(b, n, a),
         Thread(job, a, Provision(RunPlaybook(n))), a);
  }

  function WithSession(b: State, x: Id, e: Id, a: Id): State {
    b.(sessions := b.sessions[x := Session(a, e, x, false)])
  }

  lemma SavesSession(s0: State, b: State, t: Id, job: Option<Held>, a: Id, e: Id, x: Id)
    requires Cleanly(s0, With(b, t, Thread(job, a, Provision(RunPlaybook(e)))), a) && x !in b.sessions
    ensures Cleanly(s0, With(WithSession(b, x, e, a), t, Thread(job, a, TransitionRead(MarkReady))), a)
  {
    hide Cleanly;
    Next(s0, b, t, Thread(job, a, Provision(RunPlaybook(e))), Works(0), b, Thread(job, a, Provision(SaveSession(e))),
         a);
    Next(s0, b, t, Thread(job, a, Provision(SaveSession(e))), Works(x), WithSession(b, x, e, a),
         Thread(job, a, TransitionRead(MarkReady)), a);
  }

  lemma Equips(s0: State, b: State, t: Id, job: Option<Held>, a: Id, n: Id)
    requires Cleanly(s0, With(b, t, Thread(job, a, Provision(CreateVMs))), a) && Stage(b, a, EnvironmentProvisioning, n)
    ensures Cleanly(s0, With(Equipping(b, n, a), t, Thread(job, a, TransitionRead(MarkReady))), a)
  {
    hide Cleanly;
    SavesEnvironment(s0, b, t, job, a, n);
    SavesSession(s0, WithEnvironment(b, n, a), t, job, a, n, n);
  }

  // What a successful provisioning by thread t leaves.
  function Provisioned(b: State, t: Id, j: Id, a: Id, n: Id): State {
    Returned(Setting(Equipping(Setting(b, t, a, BeginProvisioning), n, a), t, a, MarkReady), t,
             Handling(j, ProvisionJob, a, Done(true)))
  }

  lemma StageEquipped(b: State, a: Id, st: Status, n: Id)
    requires Stage(b, a, st, n)
    ensures Stage(Equipping(b, n, a), a, st, n + 1)
  {
  }

  lemma StageReturned(b: State, a: Id, st: Status, n: Id, t: Id, th: Thread)
    requires Stage(b, a, st, n) && t < n
    ensures Stage(Returned(b, t, th), a, st, n)
  {
  }

  lemma Provisions(s0: State, b: State, t: Id, j: Id, a: Id, n: Id)
    requires Cleanly(s0, b, a) && Stage(b, a, AttemptRequested, n) && t == n
    requires j in b.jobs && b.jobs[j] == Job(ProvisionJob, a)
    ensures Cleanly(s0, Provisioned(b, t, j, a, n), a)
    ensures var b' := Provisioned(b, t, j, a, n);
            && Stage(b', a, EnvironmentReady, n + 1) && b'.threads == b.threads && b'.jobs == Remove(b.jobs, j)
            && b'.environments == b.environments[n := Environment(a, EnvReady, Some(""), Some(""))]
            && n in b'.sessions && b'.sessions[n] == Session(a, n, n, false)
  {
    hide Cleanly;
    var job := Some(Held(j, ProvisionJob));
    var b1 := Setting(b, t, a, BeginProvisioning);
    var b2 := Equipping(b1, n, a);
    var b3 := Setting(b2, t, a, MarkReady);
    Builds(s0, b, t, j, a, n);
    StageAfterStatus(b, t, a, AttemptRequested, n, BeginProvisioning);
    Equips(s0, b1, t, job, a, n);
    StageEquipped(b1, a, EnvironmentProvisioning, n);
    StageAfterStatus(b2, t, a, EnvironmentProvisioning, n + 1, MarkReady);
    MarksReady(s0, b2, t, job, a, n + 1);
    Returning(s0, b3, t, Thread(job, a, Done(true)), a);
    StageReturned(b3, a, EnvironmentReady, n + 1, t, Thread(job, a, Done(true)));
  }

  lemma MarksReady(s0: State, b: State, t: Id, job: Option<Held>, a: Id, n: Id)
    requires Cleanly(s0, With(b, t, Thread(job, a, TransitionRead(MarkReady))), a)
    requires Stage(b, a, EnvironmentProvisioning, n)
    ensures Cleanly(s0, With(Setting(b, t, a, MarkReady), t, Thread(job, a, Done(true))), a)
  {
    hide Cleanly;
    var th := Thread(job, a, TransitionWrite(MarkReady, EnvironmentProvisioning));
    Next(s0, b, t, Thread(job, a, TransitionRead(MarkReady)), Works(0), b, th, a);
    Next(s0, b, t, th, Works(0), Setting(b, t, a, MarkReady), Thread(job, a, Done(true)), a);
  }

  // ----- the student at work

  function Opened(b: State, x: Id): State {
    if x in b.sessions then b.(sessions := b.sessions[x := b.sessions[x].(firstOpened := true)]) else b
  }

  // What the first opening of session x by thread t leaves: the attempt is running.
  function Started(b: State, t: Id, a: Id, x: Id): State {
    Returned(Starting(b, t, a, x), t, Thread(None, a, Done(true)))
  }

  // The attempt has a session whose terminal was never opened, with its environment in place.
  predicate Unopened(b: State, a: Id, x: Id) {
    SessionOf(b, x, a) && !b.sessions[x].firstOpened && b.sessions[x].environment in b.environments
  }

  lemma FindsSession(s0: State, b: State, t: Id, a: Id, x: Id)
    requires Cleanly(s0, b, a) && t !in b.born && Unopened(b, a, x)
    ensures Cleanly(s0, With(b, t, Thread(None, a, Client(GateStatus(x, false)))), a)
  {
    hide Cleanly;
    var call := CallOpenTerminal(b.sessions[x].token);
    Arriving(s0, b, t, call, a);
    Next(s0, b, t, Entry(call), Finds(x), b, Thread(None, a, Client(GateStatus(x, false))), a);
  }

  lemma GatePasses(s0: State, b: State, t: Id, job: Option<Held>, a: Id, x: Id)
    requires Cleanly(s0, With(b, t, Thread(job, a, Client(GateStatus(x, false)))), a)
    requires a in b.attempts && b.attempts[a].status == EnvironmentReady
    ensures Cleanly(s0, With(b, t, Thread(job, a, Client(LoadEnvironment(x, false)))), a)
  {
    hide Cleanly;
    Next(s0, b, t, Thread(job, a, Client(GateStatus(x, false))), Works(0), b,
         Thread(job, a, Client(LoadEnvironment(x, false))), a);
  }

  lemma LoadsEnvironment(s0: State, b: State, t: Id, job: Option<Held>, a: Id, x: Id)
    requires Cleanly(s0, With(b, t, Thread(job, a, Client(LoadEnvironment(x, false)))), a)
    requires x in b.sessions && b.sessions[x].environment in b.environments
    ensures Cleanly(s0, With(b, t, Thread(job, a, Client(StampOpened(x)))), a)
  {
    hide Cleanly;
    Next(s0, b, t, Thread(job, a, Client(LoadEnvironment(x, false))), Works(0), b,
         Thread(job, a, Client(StampOpened(x))), a);
  }

  lemma Stamps(s0: State, b: State, t: Id, job: Option<Held>, a: Id, x: Id)
    requires Cleanly(s0, With(b, t, Thread(job, a, Client(StampOpened(x)))), a)
    ensures Cleanly(s0, With(Opened(b, x), t, Thread(job, a, TransitionRead(OpenTerminal))), a)
  {
    hide Cleanly;
    Next(s0, b, t, Thread(job, a, Client(StampOpened(x))), Works(0), Opened(b, x),
         Thread(job, a, TransitionRead(OpenTerminal)), a);
  }

  // Both halves of a transition by a thread that is to go on at pc.
  lemma Transitions(s0: State, b: State, t: Id, job: Option<Held>, a: Id, site: Site, st: Status, n: Id)
    requires Cleanly(s0, With(b, t, Thread(job, a, TransitionRead(site))), a) && Stage(b, a, st, n)
    requires ValidTransition(st, Target(site))
    ensures Cleanly(s0, With(Setting(b, t, a, site), t, Thread(job, a, AfterSuccess(site))), a)
    ensures Stage(Setting(b, t, a, site), a, Target(site), n)
  {
    hide Cleanly;
    var th := Thread(job, a, TransitionWrite(site, st));
    Reads(s0, b, t, job, a, site, st, n);
    Next(s0, b, t, th, Works(0), Setting(b, t, a, site), Thread(job, a, AfterSuccess(site)), a);
    StageAfterStatus(b, t, a, st, n, site);
  }

  lemma Reads(s0: State, b: State, t: Id, job: Option<Held>, a: Id, site: Site, st: Status, n: Id)
    requires Cleanly(s0, With(b, t, Thread(job, a, TransitionRead(site))), a) && Stage(b, a, st, n)
    requires ValidTransition(st, Target(site))
    ensures Cleanly(s0, With(b, t, Thread(job, a, TransitionWrite(site, st))), a)
  {
    hide Cleanly;
    Next(s0, b, t, Thread(job, a, TransitionRead(site)), Works(0), b, Thread(job, a, TransitionWrite(site, st)), a);
  }

  lemma StageOpened(b: State, a: Id, st: Status, n: Id, x: Id)
    requires Stage(b, a, st, n)
    ensures Stage(Opened(b, x), a, st, n)
  {
  }

  // The first opening up to its two transitions.
  lemma Opens(s0: State, b: State, t: Id, a: Id, x: Id, n: Id)
    requires Cleanly(s0, b, a) && Stage(b, a, EnvironmentReady, n) && t == n
    requires Unopened(b, a, x)
    ensures Cleanly(s0, With(Opened(b, x), t, Thread(None, a, TransitionRead(OpenTerminal))), a)
    ensures Stage(Opened(b, x), a, EnvironmentReady, n)
  {
    hide Cleanly, With;
    FindsSession(s0, b, t, a, x);
    GatePasses(s0, b, t, None, a, x);
    LoadsEnvironment(s0, b, t, None, a, x);
    Stamps(s0, b, t, None, a, x);
    StageOpened(b, a, EnvironmentReady, n, x);
  }

  // What the two transitions leave below the thread.
  function Starting(b: State, t: Id, a: Id, x: Id): State {
    Setting(Setting(Opened(b, x), t, a, OpenTerminal), t, a, StartRunning)
  }

  // What a status write leaves alone.
  predicate SameButRows(b: State, b': State) {
    b'.threads == b.threads && b'.born == b.born && b'.jobs == b.jobs && b'.environments == b.environments
  }

  lemma SettingLeaves(b: State, t: Id, a: Id, site: Site)
    ensures SameButRows(b, Setting(b, t, a, site))
  {
  }

  lemma StageSet(b: State, t: Id, a: Id, st: Status, n: Id, site: Site)
    requires Stage(b, a, st, n)
    ensures Stage(Setting(b, t, a, site), a, Target(site), n)
  {
    StageAfterStatus(b, t, a, st, n, site);
  }

  lemma StageStarting(b: State, t: Id, a: Id, x: Id, n: Id)
    requires Stage(b, a, EnvironmentReady, n)
    ensures Stage(Starting(b, t, a, x), a, Running, n)
  {
    hide Stage, Opened, Setting;
    StageOpened(b, a, EnvironmentReady, n, x);
    StageSet(Opened(b, x), t, a, EnvironmentReady, n, OpenTerminal);
    StageSet(Setting(Opened(b, x), t, a, OpenTerminal), t, a, TerminalOpened, n, StartRunning);
  }

  lemma StartingLeaves(b: State, t: Id, a: Id, x: Id)
    ensures SameButRows(b, Starting(b, t, a, x))
  {
    assert SameButRows(b, Opened(b, x));
    hide Opened, Setting;
    SettingLeaves(Opened(b, x), t, a, OpenTerminal);
    SettingLeaves(Setting(Opened(b, x), t, a, OpenTerminal), t, a, StartRunning);
  }

  lemma RunsOn(s0: State, b: State, t: Id, a: Id, x: Id, n: Id)
    requires Cleanly(s0, With(Opened(b, x), t, Thread(None, a, TransitionRead(OpenTerminal))), a)
    requires Stage(Opened(b, x), a, EnvironmentReady, n)
    ensures Cleanly(s0, With(Starting(b, t, a, x), t, Thread(None, a, Done(true))), a)
  {
    hide Cleanly, With, Opened, Stage, Setting;
    Transitions(s0, Opened(b, x), t, None, a, OpenTerminal, EnvironmentReady, n);
    Transitions(s0, Setting(Opened(b, x), t, a, OpenTerminal), t, None, a, StartRunning, TerminalOpened, n);
  }

  lemma StageStarted(b: State, t: Id, a: Id, x: Id, n: Id)
    requires Stage(b, a, EnvironmentReady, n) && x in b.sessions && t == n
    ensures var b' := Started(b, t, a, x);
            && Stage(b', a, Running, n + 1)
            && b'.threads == b.threads && b'.jobs == b.jobs && b'.environments == b.environments
  {
    hide Stage, Starting;
    StageStarting(b, t, a, x, n);
    StartingLeaves(b, t, a, x);
    StageLater(Starting(b, t, a, x), a, Running, n, n + 1);
    StageReturned(Starting(b, t, a, x), a, Running, n + 1, t, Thread(None, a, Done(true)));
  }

  lemma StartsCleanly(s0: State, b: State, t: Id, a: Id, x: Id, n: Id)
    requires Cleanly(s0, b, a) && Stage(b, a, EnvironmentReady, n) && t == n && Unopened(b, a, x)
    ensures Cleanly(s0, Started(b, t, a, x), a)
  {
    assert t !in b.threads;
    StartingLeaves(b, t, a, x);
    hide Cleanly, With, Starting, Opened, Stage, Returned;
    Opens(s0, b, t, a, x, n);
    RunsOn(s0, b, t, a, x, n);
    Returning(s0, Starting(b, t, a, x), t, Thread(None, a, Done(true)), a);
  }

  lemma Starts(s0: State, b: State, t: Id, a: Id, x: Id, n: Id)
    requires Cleanly(s0, b, a) && Stage(b, a, EnvironmentReady, n) && t == n
    requires Unopened(b, a, x)
    ensures var b' := Started(b, t, a, x);
            && Cleanly(s0, b', a) && Stage(b', a, Running, n + 1)
            && b'.threads == b.threads && b'.jobs == b.jobs && b'.environments == b.environments
  {
    hide Cleanly, Stage, Started;
    assert x in b.sessions;
    StartsCleanly(s0, b, t, a, x, n);
    StageStarted(b, t, a, x, n);
  }

  lemma StageLater(b: State, a: Id, st: Status, n: Id, m: Id)
    requires Stage(b, a, st, n) && n <= m
    ensures Stage(b, a, st, m)
  {
  }

  // A submission that has seen the attempt running and is about to write.
  lemma Submits(s0: State, b: State, t: Id, a: Id, n: Id)
    requires Cleanly(s0, b, a) && Stage(b, a, Running, n) && t !in b.born
    ensures Cleanly(s0, With(b, t, Thread(None, a, TransitionRead(MarkSubmitted))), a)
  {
    hide Cleanly;
    var user := b.purchases[b.attempts[a].purchase].user;
    var th := Thread(None, a, Client(SubmitOwner(user, Running)));
    Arriving(s0, b, t, CallSubmit(user, a), a);
    Next(s0, b, t, Entry(CallSubmit(user, a)), Works(0), b, th, a);
    Next(s0, b, t, th, Works(0), b, Thread(None, a, TransitionRead(MarkSubmitted)), a);
  }

  lemma Expires(s0: State, b: State, t: Id, a: Id, n: Id)
    requires Cleanly(s0, b, a) && Stage(b, a, Running, n) && t !in b.born
    ensures Cleanly(s0, With(b, t, Thread(None, a, TransitionRead(MarkExpired))), a)
  {
    hide Cleanly;
    Arriving(s0, b, t, CallExpire(a), a);
    Next(s0, b, t, Entry(CallExpire(a)), Works(0), b, Thread(None, a, TransitionRead(MarkExpired)), a);
  }

  // The submission has written and is about to enqueue the grade job.
  lemma Hands(s0: State, b: State, t: Id, a: Id, n: Id)
    requires Cleanly(s0, b, a) && Stage(b, a, Running, n) && t !in b.born
    ensures var b' := Setting(b, t, a, MarkSubmitted);
            Cleanly(s0, With(b', t, Thread(None, a, Client(EnqueueGrade))), a) && Stage(b', a, Submitted, n)
  {
    hide Cleanly;
    Submits(s0, b, t, a, n);
    Transitions(s0, b, t, None, a, MarkSubmitted, Running, n);
  }

  function HandedIn(b: State, t: Id, a: Id, n: Id): State {
    Returned(PutJob(Setting(b, t, a, MarkSubmitted), n, GradeJob, a), t, Thread(None, a, Done(true)))
  }

  lemma HandsIn(s0: State, b: State, t: Id, a: Id, n: Id)
    requires Cleanly(s0, b, a) && Stage(b, a, Running, n) && t == n
    ensures var b' := HandedIn(b, t, a, n);
            && Cleanly(s0, b', a) && Stage(b', a, Submitted, n + 1)
            && b'.threads == b.threads && b'.jobs == b.jobs[n := Job(GradeJob, a)] && b'.environments == b.environments
  {
    hide Cleanly;
    var b1 := Setting(b, t, a, MarkSubmitted);
    var b2 := PutJob(b1, n, GradeJob, a);
    Hands(s0, b, t, a, n);
    EnqueuesGrade(s0, b1, t, a, n);
    Returning(s0, b2, t, Thread(None, a, Done(true)), a);
    StageEnqueued(b1, a, Submitted, n, GradeJob);
    StageReturned(b2, a, Submitted, n + 1, t, Thread(None, a, Done(true)));
  }

  lemma StageEnqueued(b: State, a: Id, st: Status, n: Id, kind: JobKind)
    requires Stage(b, a, st, n)
    ensures Stage(PutJob(b, n, kind, a), a, st, n + 1)
  {
  }

  lemma EnqueuesGrade(s0: State, b: State, t: Id, a: Id, n: Id)
    requires Cleanly(s0, With(b, t, Thread(None, a, Client(EnqueueGrade))), a) && n !in b.epochs
    ensures Cleanly(s0, With(PutJob(b, n, GradeJob, a), t, Thread(None, a, Done(true))), a)
  {
    hide Cleanly;
    Next(s0, b, t, Thread(None, a, Client(EnqueueGrade)), Works(n), PutJob(b, n, GradeJob, a),
         Thread(None, a, Done(true)), a);
  }

  // ----- grading

  // A grade handler that has seen the attempt submitted and is about to write.
  lemma ReadsForGrading(s0: State, b: State, t: Id, j: Id, a: Id, n: Id)
    requires Cleanly(s0, b, a) && Stage(b, a, Submitted, n) && t !in b.born
    requires j in b.jobs && b.jobs[j] == Job(GradeJob, a)
    ensures Cleanly(s0, With(b, t, Handling(j, GradeJob, a, TransitionWrite(BeginGrading, Submitted))), a)
  {
    hide Cleanly;
    Delivering(s0, b, t, j, GradeJob, a);
    Next(s0, b, t, Handling(j, GradeJob, a, Grade(LoadForGrading)), Works(0), b,
         Handling(j, GradeJob, a, TransitionRead(BeginGrading)), a);
    Reads(s0, b, t, Some(Held(j, GradeJob)), a, BeginGrading, Submitted, n);
  }

  lemma Regrades(s0: State, b: State, n: Id, a: Id)
    requires Cleanly(s0, b, a) && n !in b.born && n !in b.epochs
    ensures Cleanly(s0, With(PutJob(b, n, GradeJob, a), n, Thread(None, a, Done(true))), a)
  {
    hide Cleanly;
    Arriving(s0, b, n, CallRetryGrade(a), a);
    Next(s0, b, n, Entry(CallRetryGrade(a)), Works(n), PutJob(b, n, GradeJob, a), Thread(None, a, Done(true)), a);
  }

  function Scoring(b: State, t: Id, a: Id, score: Score): State {
    if a in b.attempts then PutAttempt(b, a, ScoreWritten(b.attempts[a], t, score)) else b
  }

  // What a grade handler leaves from the write of the score on.
  function Marked(b: State, t: Id, a: Id, score: Score): State {
    Setting(Scoring(b, t, a, score), t, a, FinishGrading)
  }

  lemma Fetches(s0: State, b: State, t: Id, job: Option<Held>, a: Id, e: Id)
    requires Cleanly(s0, With(b, t, Thread(job, a, Grade(Fetch))), a)
    requires EnvironmentOf(b, e, a) && b.environments[e].workstationIP.Some?
    ensures Cleanly(s0, With(b, t, Thread(job, a, Grade(WriteScore))), a)
  {
    hide Cleanly;
    Next(s0, b, t, Thread(job, a, Grade(Fetch)), Finds(e), b, Thread(job, a, Grade(WriteScore)), a);
  }

  lemma WritesScore(s0: State, b: State, t: Id, job: Option<Held>, a: Id, score: Score)
    requires Cleanly(s0, With(b, t, Thread(job, a, Grade(WriteScore))), a)
    ensures Cleanly(s0, With(Scoring(b, t, a, score), t, Thread(job, a, TransitionRead(FinishGrading))), a)
  {
    hide Cleanly;
    Next(s0, b, t, Thread(job, a, Grade(WriteScore)), Works(0).(score := score), Scoring(b, t, a, score),
         Thread(job, a, TransitionRead(FinishGrading)), a);
  }

  lemma StageScoring(b: State, t: Id, a: Id, score: Score, st: Status, n: Id)
    requires Stage(b, a, st, n)
    ensures Stage(Scoring(b, t, a, score), a, st, n)
  {
  }

  lemma Marks(s0: State, b: State, t: Id, job: Option<Held>, a: Id, score: Score, n: Id)
    requires Cleanly(s0, With(b, t, Thread(job, a, Grade(WriteScore))), a) && Stage(b, a, Grading, n)
    ensures Cleanly(s0, With(Marked(b, t, a, score), t, Thread(job, a, Grade(EnqueueCleanup))), a)
    ensures Stage(Marked(b, t, a, score), a, Scored, n)
  {
    hide Cleanly;
    WritesScore(s0, b, t, job, a, score);
    StageScoring(b, t, a, score, Grading, n);
    hide Scoring, Stage;
    Transitions(s0, Scoring(b, t, a, score), t, job, a, FinishGrading, Grading, n);
  }

  // ----- a failed try and its refund

  function Refunded(b: State, t: Id, a: Id): State {
    SettleOp(Setting(b, t, a, MarkFailed), t, a, 1)
  }

  lemma RefundedRows(b: State, t: Id, a: Id)
    requires Owned(b, a)
    ensures var b' := Refunded(b, t, a); var p := b.attempts[a].purchase;
            var row, row', pur, pur' := b.attempts[a], b'.attempts[a], b.purchases[p], b'.purchases[p];
            && Owned(b', a) && row'.purchase == p && row'.status == ProvisionFailed
            && row'.book.refunds == row.book.refunds + 1 && row'.book.resets == row.book.resets
            && row'.book.stale == row.book.stale + One(!Waiting(row.status))
            && pur'.user == pur.user && pur'.remaining == pur.remaining + 1
            && pur'.book.grant == pur.book.grant && pur'.book.resets == pur.book.resets
            && pur'.book.stale == pur.book.stale + One(a !in pur.book.live) && a !in pur'.book.live
    ensures var b' := Refunded(b, t, a);
            && b'.threads == b.threads && b'.born == b.born && b'.jobs == b.jobs && b'.epochs == b.epochs
            && b'.environments == b.environments && b'.sessions == b.sessions
  {
  }

  lemma StageRefunded(b: State, t: Id, a: Id, n: Id)
    requires Stage(b, a, EnvironmentProvisioning, n)
    ensures Stage(Refunded(b, t, a), a, ProvisionFailed, n)
  {
    RefundedRows(b, t, a);
    hide Refunded;
  }

  lemma RefundsCleanly(s0: State, b: State, t: Id, job: Option<Held>, a: Id, n: Id)
    requires Cleanly(s0, With(b, t, Thread(job, a, TransitionWrite(MarkFailed, EnvironmentProvisioning))), a)
    requires Stage(b, a, EnvironmentProvisioning, n)
    ensures Cleanly(s0, With(Refunded(b, t, a), t, Thread(job, a, Done(true))), a)
  {
    hide Cleanly;
    var th0 := Thread(job, a, TransitionWrite(MarkFailed, EnvironmentProvisioning));
    var th1 := Thread(job, a, Provision(FailCleanup));
    var b1 := Setting(b, t, a, MarkFailed);
    Next(s0, b, t, th0, Works(0), b1, th1, a);
    RefundsAfterMark(s0, b, t, job, a);
  }

  lemma RefundsAfterMark(s0: State, b: State, t: Id, job: Option<Held>, a: Id)
    requires Cleanly(s0, With(Setting(b, t, a, MarkFailed), t, Thread(job, a, Provision(FailCleanup))), a)
    ensures Cleanly(s0, With(Refunded(b, t, a), t, Thread(job, a, Done(true))), a)
  {
    hide Cleanly;
    var th1, th2 := Thread(job, a, Provision(FailCleanup)), Thread(job, a, Provision(FailRefund));
    var b1 := Setting(b, t, a, MarkFailed);
    Next(s0, b1, t, th1, Fails(), b1, th2, a);
    Next(s0, b1, t, th2, Works(0), Refunded(b, t, a), Thread(job, a, Done(true)), a);
  }

  // The retry has reset the attempt and is about to enqueue its job.
  lemma Retries(s0: State, b: State, t: Id, a: Id, n: Id)
    requires Cleanly(s0, b, a) && Stage(b, a, ProvisionFailed, n) && t !in b.born
    ensures var b' := Setting(b, t, a, Reset);
            Cleanly(s0, With(b', t, Thread(None, a, Client(EnqueueProvision))), a) && Stage(b', a, AttemptRequested, n)
  {
    hide Cleanly;
    LoadsForRetry(s0, b, t, a, n);
    Transitions(s0, b, t, None, a, Reset, ProvisionFailed, n);
  }

  lemma LoadsForRetry(s0: State, b: State, t: Id, a: Id, n: Id)
    requires Cleanly(s0, b, a) && Stage(b, a, ProvisionFailed, n) && t !in b.born
    ensures Cleanly(s0, With(b, t, Thread(None, a, TransitionRead(Reset))), a)
  {
    hide Cleanly;
    Arriving(s0, b, t, CallRetryProvision(a), a);
    Next(s0, b, t, Entry(CallRetryProvision(a)), Works(0), b, Thread(None, a, TransitionRead(Reset)), a);
  }

  // ----- the first request of a purchase of one attempt

  function Bought(): State {
    Apply(INITIAL, Buy(1, 7, 1))
  }

  function Asked(): State {
    PutPurchase(Bought(), 1, Charged(Bought().purchases[1], 1))
  }

  function Created(): State {
    PutAttempt(Asked(), 4, NewAttempt(1, 1))
  }

  lemma Asks()
    ensures Cleanly(INITIAL, With(Asked(), 1, Thread(None, 0, Request(CreateAttempt(1)))), 4)
  {
    hide Cleanly;
    var b := Bought();
    CleanlyItself(INITIAL, 4);
    CleanlyOnce(INITIAL, Buy(1, 7, 1), 4);
    Arriving(INITIAL, b, 1, CallRequest(7, 1), 4);
    Next(INITIAL, b, 1, Entry(CallRequest(7, 1)), Works(0), b, Thread(None, 0, Request(Charge(1))), 4);
    Next(INITIAL, b, 1, Thread(None, 0, Request(Charge(1))), Works(0), Asked(),
         Thread(None, 0, Request(CreateAttempt(1))), 4);
  }

  // The attempt is stored and its job is not.
  lemma Creates()
    ensures Cleanly(INITIAL, With(Created(), 1, Thread(None, 4, Request(EnqueueFirst(1, 4)))), 4)
  {
    hide Cleanly;
    Asks();
    Next(INITIAL, Asked(), 1, Thread(None, 0, Request(CreateAttempt(1))), Works(4), Created(),
         Thread(None, 4, Request(EnqueueFirst(1, 4))), 4);
  }

  // Attempt 4 is accepted and its job is number 5.
  function Requested(): State {
    Returned(AcceptOp(Created(), 1, 5, 4), 1, Thread(None, 4, Done(true)))
  }

  lemma Requests()
    ensures Cleanly(INITIAL, Requested(), 4)
  {
    hide Cleanly;
    Creates();
    Next(INITIAL, Created(), 1, Thread(None, 4, Request(EnqueueFirst(1, 4))), Works(5), AcceptOp(Created(), 1, 5, 4),
         Thread(None, 4, Done(true)), 4);
    Returning(INITIAL, AcceptOp(Created(), 1, 5, 4), 1, Thread(None, 4, Done(true)), 4);
  }

  lemma RequestedStage()
    ensures Stage(Requested(), 4, AttemptRequested, 6)
    ensures var s := Requested();
            && s.jobs == map[5 := Job(ProvisionJob, 4)] && s.threads == map[] && s.environments == map[]
            && s.attempts[4].purchase == 1 && s.attempts[4].score.None?
            && s.attempts[4].book == AttemptBook(1, true, false, 0, 0, 0, {}, 0, 0, 0, 0, {}, 0, {})
            && s.purchases[1].remaining == 0 && s.purchases[1].book.grant == 1
            && s.purchases[1].book.resets == 0 && s.purchases[1].book.stale == 0
            && s.purchases[1].book.refunds == 0 && s.purchases[1].book.live == {4}
  {
  }

  // ... and its environment is being built.
  function OldJob(): Option<Held> { Some(Held(5, ProvisionJob)) }

  lemma IsBuilding() returns (b: State)
    ensures Cleanly(INITIAL, With(b, 6, Thread(OldJob(), 4, Provision(CreateVMs))), 4)
    ensures Stage(b, 4, EnvironmentProvisioning, 7) && b.threads == map[] && b.jobs == map[5 := Job(ProvisionJob, 4)]
    ensures b.attempts[4].book == AttemptBook(1, true, false, 0, 0, 0, {}, 0, 0, 0, 0, {}, 0, {})
    ensures b.attempts[4].purchase == 1
    ensures b.purchases[1].remaining == 0 && b.purchases[1].book.grant == 1
    ensures b.purchases[1].book.resets == 0 && b.purchases[1].book.stale == 0 && b.purchases[1].book.refunds == 0
    ensures b.purchases[1].book.live == {4} && b.environments == map[]
  {
    hide Cleanly;
    var r := Requested();
    Requests();
    RequestedStage();
    hide Requested;
    Builds(INITIAL, r, 6, 5, 4, 6);
    b := Setting(r, 6, 4, BeginProvisioning);
    StageAfterStatus(r, 6, 4, AttemptRequested, 6, BeginProvisioning);
    StageLater(b, 4, EnvironmentProvisioning, 6, 7);
    assert {4} + {4} == {4};
  }

  // ... and running, with no job left and nobody at work.
  lemma Runs() returns (b: State)
    ensures Cleanly(INITIAL, b, 4) && Stage(b, 4, Running, 8) && b.threads == map[] && b.jobs == map[]
    ensures 6 in b.environments && b.environments[6] == Environment(4, EnvReady, Some(""), Some(""))
  {
    hide Cleanly, Stage, Requested, Provisioned, Started;
    Requests();
    RequestedStage();
    var r := Requested();
    Provisions(INITIAL, r, 6, 5, 4, 6);
    var e := Provisioned(r, 6, 5, 4, 6);
    Starts(INITIAL, e, 7, 4, 6, 7);
    b := Started(e, 7, 4, 6);
    assert Remove(map[5 := Job(ProvisionJob, 4)], 5) == map[];
  }

  // ... and handed in, with grade job 8.
  lemma IsHandedIn() returns (b: State)
    ensures Cleanly(INITIAL, b, 4) && Stage(b, 4, Submitted, 9) && b.threads == map[]
    ensures b.jobs == map[8 := Job(GradeJob, 4)]
    ensures 6 in b.environments && b.environments[6] == Environment(4, EnvReady, Some(""), Some(""))
  {
    hide Cleanly;
    var r := Runs();
    HandsIn(INITIAL, r, 8, 4, 8);
    b := HandedIn(r, 8, 4, 8);
  }
}
