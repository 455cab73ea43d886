/**
 From every place at which something can still change, a run that changes it; and with it the exact
 conditions for a score and for an attempt in `grading` to stay.
 */
module ProtocolReopening {
  import opened Wrappers
  import opened AttemptLifecycle
  import opened AttemptProtocol
  import opened ProtocolInvariant
  import opened ProtocolLedger
  import opened ProtocolGrading
  import opened ProtocolNoStrand
  import opened ProtocolScenes
  import opened ProtocolFinality

  lemma CleanlyKeepsInv(s0: State, s: State, a: Id)
    requires Inv(s0) && Cleanly(s0, s, a)
    ensures Inv(s)
  {
    var acts: seq<Action> :| Run(s0, acts) == s && FreshRun(s0, acts, a) && BenignRun(s0, acts, a);
    hide FreshRun, BenignRun, Inv;
    RunKeeps(s0, acts);
  }

  // What a thread on top may rely on.
  lemma TopOk(s0: State, b: State, t: Id, th: Thread, a: Id)
    requires Inv(s0) && Cleanly(s0, With(b, t, th), a)
    ensures ThreadOk(With(b, t, th), t, th)
    ensures forall e | e in b.environments :: EnvironmentOk(b.environments[e])
    ensures forall x | x in b.sessions :: b.sessions[x].environment in b.environments
  {
    hide Cleanly;
    CleanlyKeepsInv(s0, With(b, t, th), a);
    var s := With(b, t, th);
    assert s.threads[t] == th && ThreadOk(s, t, s.threads[t]);
    forall x | x in b.sessions ensures b.sessions[x].environment in b.environments {
      assert SessionOk(s, s.sessions[x]);
    }
  }

  function ScoreOf(s: State, a: Id): Option<Score> {
    if a in s.attempts then s.attempts[a].score else None
  }

  // A clean run from here on gives the attempt this score.
  ghost predicate Scorable(s0: State, a: Id, score: Score) {
    exists s :: Cleanly(s0, s, a) && ScoreOf(s, a) == Some(score)
  }

  // ----- from further and further back

  lemma FromWriteScore(s0: State, b: State, t: Id, job: Option<Held>, a: Id, score: Score)
    requires Cleanly(s0, With(b, t, Thread(job, a, Grade(WriteScore))), a) && a in b.attempts
    ensures Scorable(s0, a, score)
  {
    hide Cleanly;
    WritesScore(s0, b, t, job, a, score);
    assert ScoreOf(With(Scoring(b, t, a, score), t, Thread(job, a, TransitionRead(FinishGrading))), a) == Some(score);
  }

  lemma FromFetch(s0: State, b: State, t: Id, job: Option<Held>, a: Id, score: Score)
    requires Inv(s0) && Cleanly(s0, With(b, t, Thread(job, a, Grade(Fetch))), a) && a in b.attempts
    ensures Scorable(s0, a, score)
  {
    hide Cleanly;
    TopOk(s0, b, t, Thread(job, a, Grade(Fetch)), a);
    var e :| e in b.environments && EnvironmentOf(b, e, a);
    Fetches(s0, b, t, job, a, e);
    FromWriteScore(s0, b, t, job, a, score);
  }

  lemma FromBeginRead(s0: State, b: State, t: Id, job: Option<Held>, a: Id, st: Status, n: Id, score: Score)
    requires Inv(s0) && Cleanly(s0, With(b, t, Thread(job, a, TransitionRead(BeginGrading))), a) && Stage(b, a, st, n)
    requires ValidTransition(st, Grading)
    ensures Scorable(s0, a, score)
  {
    hide Cleanly;
    Transitions(s0, b, t, job, a, BeginGrading, st, n);
    FromFetch(s0, Setting(b, t, a, BeginGrading), t, job, a, score);
  }

  // A grade job n in the queue.
  lemma FromGradeJob(s0: State, b: State, j: Id, a: Id, st: Status, n: Id, score: Score)
    requires Inv(s0) && Cleanly(s0, b, a) && Stage(b, a, st, n) && ValidTransition(st, Grading)
    requires j in b.jobs && b.jobs[j] == Job(GradeJob, a)
    ensures Scorable(s0, a, score)
  {
    hide Cleanly;
    var job := Some(Held(j, GradeJob));
    assert n !in b.born;
    Delivering(s0, b, n, j, GradeJob, a);
    Next(s0, b, n, Thread(job, a, Grade(LoadForGrading)), Works(0), b, Thread(job, a, TransitionRead(BeginGrading)), a);
    hide Stage;
    FromBeginRead(s0, b, n, job, a, st, n, score);
  }

  // An administrator asks for grading.
  lemma FromFinished(s0: State, b: State, a: Id, st: Status, n: Id, score: Score)
    requires Inv(s0) && Cleanly(s0, b, a) && Stage(b, a, st, n) && ValidTransition(st, Grading)
    ensures Scorable(s0, a, score)
  {
    hide Cleanly;
    var c, th := PutJob(b, n, GradeJob, a), Thread(None, a, Done(true));
    assert n !in b.born && n !in b.epochs;
    Regrades(s0, b, n, a);
    StageEnqueued(b, a, st, n, GradeJob);
    assert n in c.jobs && c.jobs[n] == Job(GradeJob, a);
    hide Stage, PutJob;
    StageOn(c, a, st, n + 1, n, th);
    FromGradeJob(s0, With(c, n, th), n, a, st, n + 1, score);
  }

  lemma FromRunning(s0: State, b: State, a: Id, n: Id, score: Score)
    requires Inv(s0) && Cleanly(s0, b, a) && Stage(b, a, Running, n)
    ensures Scorable(s0, a, score)
  {
    hide Cleanly;
    assert n !in b.born;
    Hands(s0, b, n, a, n);
    var c, th := Setting(b, n, a, MarkSubmitted), Thread(None, a, Client(EnqueueGrade));
    StageLater(c, a, Submitted, n, n + 1);
    StageOn(c, a, Submitted, n + 1, n, th);
    hide Stage, Setting;
    FromFinished(s0, With(c, n, th), a, Submitted, n + 1, score);
  }

  lemma FromStarting(s0: State, b: State, t: Id, job: Option<Held>, a: Id, n: Id, score: Score)
    requires Inv(s0) && Cleanly(s0, With(b, t, Thread(job, a, TransitionRead(StartRunning))), a)
    requires Stage(b, a, TerminalOpened, n) && t < n
    ensures Scorable(s0, a, score)
  {
    hide Cleanly;
    Transitions(s0, b, t, job, a, StartRunning, TerminalOpened, n);
    StageOn(Setting(b, t, a, StartRunning), a, Running, n, t, Thread(job, a, Done(true)));
    hide Stage, Setting;
    FromRunning(s0, With(Setting(b, t, a, StartRunning), t, Thread(job, a, Done(true))), a, n, score);
  }

  lemma FromOpening(s0: State, b: State, t: Id, job: Option<Held>, a: Id, n: Id, score: Score)
    requires Inv(s0) && Cleanly(s0, With(b, t, Thread(job, a, TransitionRead(OpenTerminal))), a)
    requires Stage(b, a, EnvironmentReady, n) && t < n
    ensures Scorable(s0, a, score)
  {
    hide Cleanly, Stage;
    Transitions(s0, b, t, job, a, OpenTerminal, EnvironmentReady, n);
    FromStarting(s0, Setting(b, t, a, OpenTerminal), t, job, a, n, score);
  }

  lemma FromStamp(s0: State, b: State, t: Id, job: Option<Held>, a: Id, x: Id, n: Id, score: Score)
    requires Inv(s0) && Cleanly(s0, With(b, t, Thread(job, a, Client(StampOpened(x)))), a)
    requires Stage(b, a, EnvironmentReady, n) && t < n
    ensures Scorable(s0, a, score)
  {
    hide Cleanly, Stage;
    Stamps(s0, b, t, job, a, x);
    StageOpened(b, a, EnvironmentReady, n, x);
    FromOpening(s0, Opened(b, x), t, job, a, n, score);
  }

  lemma FromLoad(s0: State, b: State, t: Id, job: Option<Held>, a: Id, x: Id, n: Id, score: Score)
    requires Inv(s0) && Cleanly(s0, With(b, t, Thread(job, a, Client(LoadEnvironment(x, false)))), a)
    requires Stage(b, a, EnvironmentReady, n) && t < n
    ensures Scorable(s0, a, score)
  {
    hide Cleanly, Stage;
    TopOk(s0, b, t, Thread(job, a, Client(LoadEnvironment(x, false))), a);
    LoadsEnvironment(s0, b, t, job, a, x);
    FromStamp(s0, b, t, job, a, x, n, score);
  }

  lemma FromGate(s0: State, b: State, t: Id, job: Option<Held>, a: Id, x: Id, n: Id, score: Score)
    requires Inv(s0) && Cleanly(s0, With(b, t, Thread(job, a, Client(GateStatus(x, false)))), a)
    requires Stage(b, a, EnvironmentReady, n) && t < n
    ensures Scorable(s0, a, score)
  {
    hide Cleanly;
    GatePasses(s0, b, t, job, a, x);
    hide Stage;
    FromLoad(s0, b, t, job, a, x, n, score);
  }

  // A session that was never opened.
  lemma FromReady(s0: State, b: State, a: Id, x: Id, n: Id, score: Score)
    requires Inv(s0) && Cleanly(s0, b, a) && Stage(b, a, EnvironmentReady, n) && Unopened(b, a, x)
    ensures Scorable(s0, a, score)
  {
    hide Cleanly;
    assert n !in b.born;
    FindsSession(s0, b, n, a, x);
    StageLater(b, a, EnvironmentReady, n, n + 1);
    hide Stage;
    FromGate(s0, b, n, None, a, x, n + 1, score);
  }

  // A provisioning handler that has just saved session x.
  lemma FromNewSession(s0: State, b: State, t: Id, th: Thread, a: Id, x: Id, e: Id, n: Id, score: Score)
    requires Inv(s0) && Cleanly(s0, With(WithSession(b, x, e, a), t, th), a) && Stage(b, a, EnvironmentReady, n)
    requires t < n && x < n && e in b.environments
    ensures Scorable(s0, a, score)
  {
    hide Cleanly;
    var c := With(WithSession(b, x, e, a), t, th);
    assert Stage(c, a, EnvironmentReady, n) && Unopened(c, a, x);
    hide Stage, Unopened;
    FromReady(s0, c, a, x, n, score);
  }

  lemma FromSaveSession(s0: State, b: State, t: Id, job: Option<Held>, a: Id, e: Id, n: Id, score: Score)
    requires Inv(s0) && Cleanly(s0, With(b, t, Thread(job, a, Provision(SaveSession(e)))), a)
    requires Stage(b, a, EnvironmentReady, n) && t < n
    ensures Scorable(s0, a, score)
  {
    hide Cleanly;
    TopOk(s0, b, t, Thread(job, a, Provision(SaveSession(e))), a);
    assert n !in b.sessions;
    Next(s0, b, t, Thread(job, a, Provision(SaveSession(e))), Works(n), WithSession(b, n, e, a),
         Thread(job, a, TransitionRead(MarkReady)), a);
    StageLater(b, a, EnvironmentReady, n, n + 1);
    hide Stage;
    FromNewSession(s0, b, t, Thread(job, a, TransitionRead(MarkReady)), a, n, e, n + 1, score);
  }

  lemma FromPlaybook(s0: State, b: State, t: Id, job: Option<Held>, a: Id, e: Id, n: Id, score: Score)
    requires Inv(s0) && Cleanly(s0, With(b, t, Thread(job, a, Provision(RunPlaybook(e)))), a)
    requires Stage(b, a, EnvironmentReady, n) && t < n
    ensures Scorable(s0, a, score)
  {
    hide Cleanly, Stage;
    Next(s0, b, t, Thread(job, a, Provision(RunPlaybook(e))), Works(0), b, Thread(job, a, Provision(SaveSession(e))),
         a);
    FromSaveSession(s0, b, t, job, a, e, n, score);
  }

  lemma FromSaveEnvironment(s0: State, b: State, t: Id, job: Option<Held>, a: Id, ip: string, key: string, n: Id,
                            score: Score)
    requires Inv(s0) && Cleanly(s0, With(b, t, Thread(job, a, Provision(SaveEnvironment(ip, key)))), a)
    requires Stage(b, a, EnvironmentReady, n) && t < n
    ensures Scorable(s0, a, score)
  {
    hide Cleanly;
    var c := b.(environments := b.environments[n := Environment(a, EnvReady, Some(ip), Some(key))]);
    assert n !in b.environments && Stage(c, a, EnvironmentReady, n + 1);
    hide Stage;
    Next(s0, b, t, Thread(job, a, Provision(SaveEnvironment(ip, key))), Works(n), c,
         Thread(job, a, Provision(RunPlaybook(n))), a);
    FromPlaybook(s0, c, t, job, a, n, n + 1, score);
  }

  lemma FromCreateVMs(s0: State, b: State, t: Id, job: Option<Held>, a: Id, n: Id, score: Score)
    requires Inv(s0) && Cleanly(s0, With(b, t, Thread(job, a, Provision(CreateVMs))), a)
    requires Stage(b, a, EnvironmentReady, n) && t < n
    ensures Scorable(s0, a, score)
  {
    hide Cleanly, Stage;
    Next(s0, b, t, Thread(job, a, Provision(CreateVMs)), Works(0), b,
         Thread(job, a, Provision(SaveEnvironment("", ""))), a);
    FromSaveEnvironment(s0, b, t, job, a, "", "", n, score);
  }

  // The whole of provisioning, by a handler that has begun it.
  lemma FromBuilding(s0: State, b: State, t: Id, job: Option<Held>, a: Id, n: Id, score: Score)
    requires Inv(s0) && Cleanly(s0, With(b, t, Thread(job, a, Provision(CreateVMs))), a)
    requires Stage(b, a, EnvironmentProvisioning, n) && t < n
    ensures Scorable(s0, a, score)
  {
    hide Cleanly;
    Equips(s0, b, t, job, a, n);
    StageEquipped(b, a, EnvironmentProvisioning, n);
    var c, th := Setting(Equipping(b, n, a), t, a, MarkReady), Thread(job, a, Done(true));
    StageAfterStatus(Equipping(b, n, a), t, a, EnvironmentProvisioning, n + 1, MarkReady);
    MarksReady(s0, Equipping(b, n, a), t, job, a, n + 1);
    StageOn(c, a, EnvironmentReady, n + 1, t, th);
    assert Unopened(With(c, t, th), a, n);
    hide Stage, Setting, Unopened;
    FromReady(s0, With(c, t, th), a, n, n + 1, score);
  }

  lemma FromProvisionJob(s0: State, b: State, j: Id, a: Id, n: Id, score: Score)
    requires Inv(s0) && Cleanly(s0, b, a) && Stage(b, a, AttemptRequested, n)
    requires j in b.jobs && b.jobs[j] == Job(ProvisionJob, a)
    ensures Scorable(s0, a, score)
  {
    hide Cleanly;
    assert n !in b.born;
    Builds(s0, b, n, j, a, n);
    StageAfterStatus(b, n, a, AttemptRequested, n, BeginProvisioning);
    hide Setting;
    StageLater(Setting(b, n, a, BeginProvisioning), a, EnvironmentProvisioning, n, n + 1);
    FromBuilding(s0, Setting(b, n, a, BeginProvisioning), n, Some(Held(j, ProvisionJob)), a, n + 1, score);
  }

  lemma FromReset(s0: State, b: State, t: Id, job: Option<Held>, a: Id, n: Id, score: Score)
    requires Inv(s0) && Cleanly(s0, With(b, t, Thread(job, a, Client(EnqueueProvision))), a)
    requires Stage(b, a, AttemptRequested, n) && t < n
    ensures Scorable(s0, a, score)
  {
    hide Cleanly;
    var c, th := PutJob(b, n, ProvisionJob, a), Thread(job, a, Done(true));
    assert n !in b.epochs;
    Next(s0, b, t, Thread(job, a, Client(EnqueueProvision)), Works(n), c, th, a);
    StageEnqueued(b, a, AttemptRequested, n, ProvisionJob);
    StageOn(c, a, AttemptRequested, n + 1, t, th);
    hide Stage;
    FromProvisionJob(s0, With(c, t, th), n, a, n + 1, score);
  }

  lemma FromFailed(s0: State, b: State, a: Id, n: Id, score: Score)
    requires Inv(s0) && Cleanly(s0, b, a) && Stage(b, a, ProvisionFailed, n)
    ensures Scorable(s0, a, score)
  {
    hide Cleanly;
    assert n !in b.born;
    Retries(s0, b, n, a, n);
    hide Setting;
    StageLater(Setting(b, n, a, Reset), a, AttemptRequested, n, n + 1);
    FromReset(s0, Setting(b, n, a, Reset), n, None, a, n + 1, score);
  }

  // ----- from any reachable state

  lemma {:induction false} Bound(ids: set<Id>) returns (n: Id)
    ensures forall k | k in ids :: k < n
    decreases |ids|
  {
    n := 0;
    if ids != {} {
      var k :| k in ids;
      var m := Bound(ids - {k});
      n := if k < m then m else k + 1;
      forall j | j in ids ensures j < n {
        if j != k { assert j in ids - {k}; }
      }
    }
  }

  lemma IsAtStage(s: State, a: Id) returns (n: Id)
    requires Inv(s) && Owned(s, a)
    ensures Stage(s, a, s.attempts[a].status, n)
  {
    n := Bound(s.born + s.environments.Keys + s.sessions.Keys + s.epochs.Keys);
    assert forall k | k in s.environments :: k in s.environments.Keys;
    assert forall k | k in s.sessions :: k in s.sessions.Keys;
    assert forall k | k in s.epochs :: k in s.epochs.Keys;
  }

  // The state after a status write by a thread of the state.
  lemma WriteMoves(s: State, t: Id, a: Id, site: Site, seen: Status)
    requires ThreadAt(s, a, t) && s.threads[t].pc == TransitionWrite(site, seen) && t in s.born
    ensures StepState(s, t, Works(0))
         == With(Setting(s, t, a, site), t, Thread(s.threads[t].job, a, AfterSuccess(site)))
  {
    var th := s.threads[t];
    OnTop(s, t);
    Moves(s, t, th, Works(0));
    assert Below(s, t, th, Works(0)) == Setting(s, t, a, site);
    hide Below, Setting, SetStatusOp;
  }

  lemma WriterOk(s: State, t: Id, a: Id, n: Id)
    requires Inv(s) && ThreadAt(s, a, t) && s.threads[t].pc.TransitionWrite? && a in s.attempts
    requires Stage(s, a, s.attempts[a].status, n)
    ensures t in s.born && t < n && Reached(Target(s.threads[t].pc.site)) && Inv(StepState(s, t, Works(0)))
  {
    assert ThreadOk(s, t, s.threads[t]);
    ApplyKeeps(s, Step(t, Works(0)));
  }

  // What is as before.
  predicate Elsewhere(s: State, t: Id, s1: State) {
    && s1.sessions == s.sessions && s1.environments == s.environments
    && (forall u | u in s.threads && u != t :: u in s1.threads && s1.threads[u] == s.threads[u])
  }

  lemma WritesOver(s: State, t: Id, a: Id, site: Site, seen: Status, n: Id)
    requires Inv(s) && ThreadAt(s, a, t) && s.threads[t].pc == TransitionWrite(site, seen)
    requires a in s.attempts && Stage(s, a, s.attempts[a].status, n)
    ensures var s1, b := StepState(s, t, Works(0)), Setting(s, t, a, site);
            && Inv(s1) && s1 == With(b, t, Thread(s.threads[t].job, a, AfterSuccess(site)))
            && Stage(b, a, Target(site), n) && Stage(s1, a, Target(site), n) && t < n && Reached(Target(site))
            && Elsewhere(s, t, s1)
  {
    hide Inv, StepState, Stage, Setting, SetStatusOp;
    WriterOk(s, t, a, n);
    WriteMoves(s, t, a, site, seen);
    StageAfterStatus(s, t, a, s.attempts[a].status, n, site);
    StageOn(Setting(s, t, a, site), a, Target(site), n, t, Thread(s.threads[t].job, a, AfterSuccess(site)));
  }

  // A write by t put the attempt anywhere but on `environment_ready`: first the sites up to `running` ...
  lemma FromEarlyWrite(s0: State, b: State, t: Id, job: Option<Held>, a: Id, site: Site, n: Id, score: Score)
    requires Inv(s0) && Cleanly(s0, s0, a) && s0 == With(b, t, Thread(job, a, AfterSuccess(site)))
    requires Stage(b, a, Target(site), n) && Stage(s0, a, Target(site), n) && t < n
    requires Waiting(Target(site)) || Target(site) == ProvisionFailed || Target(site) == TerminalOpened
    ensures Scorable(s0, a, score)
  {
    hide Inv, Cleanly, With, Stage, Scorable;
    match site
    case BeginProvisioning => FromBuilding(s0, b, t, job, a, n, score);
    case MarkFailed => FromFailed(s0, s0, a, n, score);
    case MarkStale(_) => FromFailed(s0, s0, a, n, score);
    case OpenTerminal => FromStarting(s0, b, t, job, a, n, score);
    case Reset => FromReset(s0, b, t, job, a, n, score);
  }

  // ... then those past it ...
  lemma FromLateWrite(s0: State, a: Id, site: Site, n: Id, score: Score)
    requires Inv(s0) && Cleanly(s0, s0, a) && Stage(s0, a, Target(site), n)
    requires site == StartRunning || site == MarkSubmitted || site == MarkExpired
    ensures Scorable(s0, a, score)
  {
    hide Inv, Cleanly, Stage, Scorable;
    match site
    case StartRunning => FromRunning(s0, s0, a, n, score);
    case MarkSubmitted => FromFinished(s0, s0, a, Submitted, n, score);
    case MarkExpired => FromFinished(s0, s0, a, Expired, n, score);
  }

  // ... and all together.
  lemma FromWrite(s0: State, b: State, t: Id, job: Option<Held>, a: Id, site: Site, n: Id, score: Score)
    requires Inv(s0) && s0 == With(b, t, Thread(job, a, AfterSuccess(site)))
    requires Stage(b, a, Target(site), n) && Stage(s0, a, Target(site), n) && t < n
    requires site != MarkReady && site != FinishGrading && site != MarkDestroyed
    ensures Scorable(s0, a, score)
  {
    CleanlyItself(s0, a);
    assert a in b.attempts;
    hide Inv, Cleanly, With, Stage, Scorable;
    match site
    case BeginGrading => FromFetch(s0, b, t, job, a, score);
    case StartRunning => FromLateWrite(s0, a, site, n, score);
    case MarkSubmitted => FromLateWrite(s0, a, site, n, score);
    case MarkExpired => FromLateWrite(s0, a, site, n, score);
    case _ => FromEarlyWrite(s0, b, t, job, a, site, n, score);
  }

  // The attempt is on `environment_ready` and thread u can open it.
  lemma FromOpener(s: State, u: Id, a: Id, n: Id, score: Score)
    requires Inv(s) && ThreadAt(s, a, u) && OpenerPc(s.threads[u].pc) && Stage(s, a, EnvironmentReady, n)
    ensures Scorable(s, a, score)
  {
    var th := s.threads[u];
    assert u in s.born && u < n;
    OnTop(s, u);
    CleanlyItself(s, a);
    assert th == Thread(th.job, a, th.pc);
    hide Inv, Cleanly, With, Stage, Scorable;
    match th.pc
    case Provision(CreateVMs) => FromCreateVMs(s, s, u, th.job, a, n, score);
    case Provision(SaveEnvironment(ip, key)) => FromSaveEnvironment(s, s, u, th.job, a, ip, key, n, score);
    case Provision(RunPlaybook(e)) => FromPlaybook(s, s, u, th.job, a, e, n, score);
    case Provision(SaveSession(e)) => FromSaveSession(s, s, u, th.job, a, e, n, score);
    case Client(GateStatus(x, _)) => FromGate(s, s, u, th.job, a, x, n, score);
    case Client(LoadEnvironment(x, _)) => FromLoad(s, s, u, th.job, a, x, n, score);
    case Client(StampOpened(x)) => FromStamp(s, s, u, th.job, a, x, n, score);
    case TransitionRead(_) => FromOpening(s, s, u, th.job, a, n, score);
  }

  lemma FromCanOpen(s: State, a: Id, n: Id, score: Score)
    requires Inv(s) && CanOpen(s, a) && Stage(s, a, EnvironmentReady, n)
    ensures Scorable(s, a, score)
  {
    if x :| SessionOf(s, x, a) && !s.sessions[x].firstOpened {
      assert SessionOk(s, s.sessions[x]);
      hide Inv, Stage;
      CleanlyItself(s, a);
      FromReady(s, s, a, x, n, score);
    } else {
      var u :| ThreadAt(s, a, u) && OpenerPc(s.threads[u].pc);
      FromOpener(s, u, a, n, score);
    }
  }

  // The same opener or session is there after the write that makes the attempt ready.
  lemma CanOpenStays(s: State, t: Id, a: Id, s': State)
    requires CanOpen(s, a) && ThreadAt(s, a, t) && MarksReadyPc(s.threads[t].pc) && Elsewhere(s, t, s')
    ensures CanOpen(s', a)
  {
    if x :| SessionOf(s, x, a) && !s.sessions[x].firstOpened {
      assert SessionOf(s', x, a);
    } else {
      var u :| ThreadAt(s, a, u) && OpenerPc(s.threads[u].pc);
      assert ThreadAt(s', a, u);
    }
  }

  // Where a score is not final, one call of some thread or none leads to a state from which a clean run
  // gives the attempt any score.
  lemma NotFinalReopens(s: State, a: Id, score: Score) returns (t: Id)
    requires Inv(s) && Owned(s, a) && !Final(s, a)
    ensures Scorable(s, a, score) || (t in s.threads && Scorable(StepState(s, t, Works(0)), a, score))
  {
    var n := IsAtStage(s, a);
    if u :| ThreadAt(s, a, u) && Unsettles(s.threads[u].pc) {
      t := u;
      assert t in s.born && t < n;
      if s.threads[t].pc.TransitionWrite? {
        UnsettlingWrite(s, t, a, n, score);
      } else {
        UnsettlingGrader(s, t, a, score);
      }
    } else {
      t :| ThreadAt(s, a, t) && MarksReadyPc(s.threads[t].pc);
      WritesOver(s, t, a, MarkReady, s.threads[t].pc.seen, n);
      var s1 := StepState(s, t, Works(0));
      hide Inv, Stage, StepState;
      CanOpenStays(s, t, a, s1);
      FromCanOpen(s1, a, n, score);
    }
  }

  lemma UnsettlingWrite(s: State, t: Id, a: Id, n: Id, score: Score)
    requires Inv(s) && ThreadAt(s, a, t) && Unsettles(s.threads[t].pc) && s.threads[t].pc.TransitionWrite?
    requires a in s.attempts && Stage(s, a, s.attempts[a].status, n) && t < n
    ensures Scorable(StepState(s, t, Works(0)), a, score)
  {
    hide Inv, Stage, StepState, Setting, SetStatusOp, With, Scorable;
    var site := s.threads[t].pc.site;
    WritesOver(s, t, a, site, s.threads[t].pc.seen, n);
    FromWrite(StepState(s, t, Works(0)), Setting(s, t, a, site), t, s.threads[t].job, a, site, n, score);
  }

  lemma UnsettlingGrader(s: State, t: Id, a: Id, score: Score)
    requires Inv(s) && ThreadAt(s, a, t) && Scores(s.threads[t].pc) && a in s.attempts
    ensures Scorable(s, a, score)
  {
    var th := s.threads[t];
    assert t in s.born && th == Thread(th.job, a, th.pc);
    OnTop(s, t);
    CleanlyItself(s, a);
    hide Inv, With, Scorable;
    if th.pc == Grade(Fetch) {
      FromFetch(s, s, t, th.job, a, score);
    } else {
      FromWriteScore(s, s, t, th.job, a, score);
    }
  }

  // ----- theorems

  function Other(score: Option<Score>): Score {
    if score == Some(Score(0, 0)) then Score(1, 1) else Score(0, 0)
  }

  lemma ScorableChanges(s: State, acts: seq<Action>, a: Id)
    requires Scorable(Run(s, acts), a, Other(ScoreOf(s, a)))
    ensures exists more: seq<Action> :: ScoreOf(Run(s, more), a) != ScoreOf(s, a)
  {
    var s' :| Cleanly(Run(s, acts), s', a) && ScoreOf(s', a) == Some(Other(ScoreOf(s, a)));
    CleanlyReaches(Run(s, acts), s', a);
    hide Cleanly;
    var more: seq<Action> :| Run(Run(s, acts), more) == s';
    RunAppend(s, acts, more);
    hide Run;
    assert ScoreOf(Run(s, acts + more), a) != ScoreOf(s, a);
  }

  lemma NotFinalChanges(s: State, a: Id)
    requires Inv(s) && Owned(s, a) && !Final(s, a)
    ensures exists more: seq<Action> :: ScoreOf(Run(s, more), a) != ScoreOf(s, a)
  {
    hide Inv, Final, Scorable, StepState;
    var t := NotFinalReopens(s, a, Other(ScoreOf(s, a)));
    if Scorable(s, a, Other(ScoreOf(s, a))) {
      ScorableChanges(s, [], a);
    } else {
      RunOne(s, Step(t, Works(0)));
      ScorableChanges(s, [Step(t, Works(0))], a);
    }
  }

  // Whatever comes, stale writes included: the score of a scored attempt stays exactly when no handler of it
  // is before the write of a score and none is before a write of its status other than the final one. One
  // that makes the attempt ready matters only where something can still open it for a first time.
  lemma ScoreStaysExactlyWhen(acts: seq<Action>, a: Id)
    requires HasStatus(Run(INITIAL, acts), a, Scored)
    ensures var s := Run(INITIAL, acts);
            (forall more: seq<Action> :: ScoreOf(Run(s, more), a) == ScoreOf(s, a)) <==> Final(s, a)
  {
    InitialOk();
    RunKeeps(INITIAL, acts);
    var s := Run(INITIAL, acts);
    assert AttemptOk(s, a);
    hide Inv, Run;
    if Final(s, a) {
      forall more: seq<Action> ensures ScoreOf(Run(s, more), a) == ScoreOf(s, a) { RunKeepsFinal(s, more, a); }
    } else {
      hide Final;
      NotFinalChanges(s, a);
    }
  }

  // As long as its status writes are fresh: the score of a scored attempt stays exactly when no handler of
  // it is before the write of a score. Its past may have been as stale as it likes.
  lemma FreshScoreStaysExactlyWhen(acts: seq<Action>, a: Id)
    requires HasStatus(Run(INITIAL, acts), a, Scored)
    ensures var s := Run(INITIAL, acts);
            (forall more: seq<Action> | FreshRun(s, more, a) :: ScoreOf(Run(s, more), a) == ScoreOf(s, a)) <==>
              NobodyScores(s, a)
  {
    InitialOk();
    RunKeeps(INITIAL, acts);
    var s := Run(INITIAL, acts);
    hide Inv, Run, FreshRun;
    if NobodyScores(s, a) {
      forall more: seq<Action> | FreshRun(s, more, a) ensures ScoreOf(Run(s, more), a) == ScoreOf(s, a) {
        RunKeepsFreshScore(s, more, a);
      }
    } else {
      var t :| t in s.threads && s.threads[t].attempt == a && Scores(s.threads[t].pc);
      UnsettlingGrader(s, t, a, Other(ScoreOf(s, a)));
      ScorableFreshly(s, a);
    }
  }

  lemma ScorableFreshly(s: State, a: Id)
    requires Scorable(s, a, Other(ScoreOf(s, a)))
    ensures exists more: seq<Action> :: FreshRun(s, more, a) && ScoreOf(Run(s, more), a) != ScoreOf(s, a)
  {
    var s' :| Cleanly(s, s', a) && ScoreOf(s', a) == Some(Other(ScoreOf(s, a)));
    var more: seq<Action> :| Run(s, more) == s' && FreshRun(s, more, a) && BenignRun(s, more, a);
    hide Run, FreshRun, BenignRun;
    assert FreshRun(s, more, a) && ScoreOf(Run(s, more), a) != ScoreOf(s, a);
  }

  // A scored attempt that no late write ever put back before grading keeps its score for as long as its
  // status writes are fresh: a retry-grade job is refused by the table.
  lemma ScoreIsFinal(acts: seq<Action>, more: seq<Action>, a: Id)
    requires HasStatus(Run(INITIAL, acts), a, Scored) && Run(INITIAL, acts).attempts[a].book.lateGradings == 0
    requires FreshRun(Run(INITIAL, acts), more, a)
    ensures ScoreOf(Run(Run(INITIAL, acts), more), a) == ScoreOf(Run(INITIAL, acts), a)
  {
    var s := Run(INITIAL, acts);
    FreshScoreStaysExactlyWhen(acts, a);
    ReachedGraded(acts, a);
    hide Run, FreshRun;
    NobodyScoresAgain(s, a);
  }

  lemma NobodyScoresAgain(s: State, a: Id)
    requires Graded(s, a) && HasStatus(s, a, Scored) && s.attempts[a].book.lateGradings == 0
    ensures NobodyScores(s, a)
  {
    var b := s.attempts[a].book;
    forall t | t in s.threads && s.threads[t].attempt == a ensures !Scores(s.threads[t].pc) {
      assert ThreadGraded(s, t, s.threads[t]);
      if t in b.graders && t !in b.scorers { Counted(b.scorers + {t}, b.graders); }
    }
  }

  // ----- an attempt in grading

  ghost predicate Leaves(s0: State, a: Id) {
    exists s :: Cleanly(s0, s, a) && !HasStatus(s, a, Grading)
  }

  lemma LeavesFromWriteScore(s0: State, b: State, t: Id, job: Option<Held>, a: Id, n: Id)
    requires Cleanly(s0, With(b, t, Thread(job, a, Grade(WriteScore))), a) && Stage(b, a, Grading, n)
    ensures Leaves(s0, a)
  {
    hide Cleanly;
    Marks(s0, b, t, job, a, Score(0, 0), n);
    assert !HasStatus(With(Marked(b, t, a, Score(0, 0)), t, Thread(job, a, Grade(EnqueueCleanup))), a, Grading);
  }

  lemma LeavesFromFetch(s0: State, b: State, t: Id, job: Option<Held>, a: Id, n: Id)
    requires Inv(s0) && Cleanly(s0, With(b, t, Thread(job, a, Grade(Fetch))), a) && Stage(b, a, Grading, n)
    ensures Leaves(s0, a)
  {
    hide Cleanly, Stage;
    TopOk(s0, b, t, Thread(job, a, Grade(Fetch)), a);
    var e :| e in b.environments && EnvironmentOf(b, e, a);
    Fetches(s0, b, t, job, a, e);
    LeavesFromWriteScore(s0, b, t, job, a, n);
  }

  lemma LeavesFromRead(s0: State, b: State, t: Id, job: Option<Held>, a: Id, n: Id)
    requires Cleanly(s0, With(b, t, Thread(job, a, TransitionRead(FinishGrading))), a) && Stage(b, a, Grading, n)
    ensures Leaves(s0, a)
  {
    hide Cleanly;
    Transitions(s0, b, t, job, a, FinishGrading, Grading, n);
    assert !HasStatus(With(Setting(b, t, a, FinishGrading), t, Thread(job, a, Grade(EnqueueCleanup))), a, Grading);
  }

  lemma FinishesLeaves(s: State, a: Id, t: Id) returns (acts: seq<Action>)
    requires Inv(s) && HasStatus(s, a, Grading) && ThreadAt(s, a, t) && Finishes(s.threads[t].pc)
    ensures Leaves(Run(s, acts), a)
  {
    var th := s.threads[t];
    assert t in s.born && th == Thread(th.job, a, th.pc) && AttemptOk(s, a);
    var n := IsAtStage(s, a);
    acts := [];
    if th.pc.TransitionWrite? {
      acts := [Step(t, Works(0))];
      RunOne(s, Step(t, Works(0)));
      WriteLeaves(s, t, a, n);
    } else {
      OnTop(s, t);
      CleanlyItself(s, a);
      hide Inv, With, Stage, Leaves, Cleanly;
      match th.pc
      case Grade(Fetch) => LeavesFromFetch(s, s, t, th.job, a, n);
      case Grade(WriteScore) => LeavesFromWriteScore(s, s, t, th.job, a, n);
      case TransitionRead(_) => LeavesFromRead(s, s, t, th.job, a, n);
    }
  }

  lemma WriteLeaves(s: State, t: Id, a: Id, n: Id)
    requires Inv(s) && ThreadAt(s, a, t) && s.threads[t].pc.TransitionWrite? && a in s.attempts
    requires Stage(s, a, s.attempts[a].status, n)
    ensures Leaves(StepState(s, t, Works(0)), a)
  {
    hide Inv, StepState, Setting, SetStatusOp, With, Cleanly;
    var site := s.threads[t].pc.site;
    WritesOver(s, t, a, site, s.threads[t].pc.seen, n);
    var s1 := StepState(s, t, Works(0));
    CleanlyItself(s1, a);
    if site == BeginGrading {
      hide Stage, Leaves;
      LeavesFromFetch(s1, Setting(s, t, a, site), t, s.threads[t].job, a, n);
    } else {
      assert !HasStatus(s1, a, Grading);
    }
  }

  // An attempt in `grading` stays there for ever, whatever comes and however stale, exactly when no thread
  // of it is between the lookups and the final transition or before a status write.
  lemma AbandonedGradingIsStuck(acts: seq<Action>, a: Id)
    requires HasStatus(Run(INITIAL, acts), a, Grading)
    ensures var s := Run(INITIAL, acts);
            (forall more: seq<Action> :: HasStatus(Run(s, more), a, Grading)) <==> NobodyFinishes(s, a)
  {
    InitialOk();
    RunKeeps(INITIAL, acts);
    var s := Run(INITIAL, acts);
    hide Inv, Run, Leaves;
    if NobodyFinishes(s, a) {
      forall more: seq<Action> ensures HasStatus(Run(s, more), a, Grading) { RunKeepsGrading(s, more, a); }
    } else {
      var t :| t in s.threads && s.threads[t].attempt == a && Finishes(s.threads[t].pc);
      var first := FinishesLeaves(s, a, t);
      LeavesByRun(s, first, a);
    }
  }

  lemma LeavesByRun(s: State, acts: seq<Action>, a: Id)
    requires Leaves(Run(s, acts), a)
    ensures exists more: seq<Action> :: !HasStatus(Run(s, more), a, Grading)
  {
    var s' :| Cleanly(Run(s, acts), s', a) && !HasStatus(s', a, Grading);
    CleanlyReaches(Run(s, acts), s', a);
    hide Cleanly;
    var more: seq<Action> :| Run(Run(s, acts), more) == s';
    RunAppend(s, acts, more);
    hide Run;
    assert !HasStatus(Run(s, acts + more), a, Grading);
  }
}
