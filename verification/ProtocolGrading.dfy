/**
 What holds of the ways out of `running`, of grading and of the score in every reachable state, however
 stale the status writes are, and what follows where none of them comes late.
 */
module ProtocolGrading {
  import opened Wrappers
  import opened AttemptLifecycle
  import opened AttemptProtocol
  import opened ProtocolInvariant
  import opened ProtocolLedger

  // ----- where a thread comes from

  // A thread that may open the terminal of its attempt for the first time, or is making a new session.
  predicate OpenerPc(pc: Pc) {
    match pc
    case Provision(p) => p == CreateVMs || p.SaveEnvironment? || p.RunPlaybook? || p.SaveSession?
    case Client(p) => (p.GateStatus? && !p.seenOpen) || (p.LoadEnvironment? && !p.seenOpen) || p.StampOpened?
    case TransitionRead(site) => site == OpenTerminal
    case _ => false
  }

  // The status has been read and the transition found in the table.
  predicate HasRead(s: State, th: Thread, site: Site, seen: Status) {
    && th.pc == TransitionRead(site) && th.attempt in s.attempts
    && seen == s.attempts[th.attempt].status && ValidTransition(seen, Target(site))
  }

  predicate HasWritten(th: Thread, c: Choice, site: Site) {
    th.pc.TransitionWrite? && th.pc.site == site && c.ok
  }

  // How a call of a thread can have brought it to the program counter it is at.
  predicate GradesOn(s: State, th: Thread, c: Choice, e: Effect) {
    match e.pc
    case Grade(LoadForGrading) => false
    case Grade(Fetch) =>
      th.pc == Grade(Fetch) || (HasWritten(th, c, BeginGrading) && e.op == SetStatus(th.attempt, BeginGrading))
    case Grade(WriteScore) => th.pc == Grade(Fetch)
    case Grade(EnqueueCleanup) => th.pc == Grade(EnqueueCleanup) || HasWritten(th, c, FinishGrading)
    case TransitionRead(site) =>
      && (site == BeginGrading ==> th.pc == Grade(LoadForGrading) && th.attempt in s.attempts)
      && (site == FinishGrading ==> th.pc == Grade(WriteScore) && e.op.SetScore?)
    case TransitionWrite(site, seen) => HasRead(s, th, site, seen)
    case _ => true
  }

  predicate OpensOn(s: State, th: Thread, c: Choice, e: Effect) {
    OpenerPc(e.pc) ==>
      || (OpenerPc(th.pc) && e.attempt == th.attempt)
      || (HasWritten(th, c, BeginProvisioning) && e.attempt == th.attempt)
      || (th.pc == Provision(LoadAttempt) && e.attempt == th.attempt && th.attempt in s.attempts
          && s.attempts[th.attempt].status == EnvironmentProvisioning)
      || (e.pc.Client? && e.pc.client.GateStatus? && e.pc.client.session in s.sessions
          && s.sessions[e.pc.client.session].attempt == e.attempt && !s.sessions[e.pc.client.session].firstOpened)
  }

  predicate ComesFrom(s: State, th: Thread, c: Choice, e: Effect) {
    && GradesOn(s, th, c, e) && OpensOn(s, th, c, e)
    && (GradingPc(e.pc) ==> e.attempt == th.attempt)
    && (e.op.SetStatus? ==> th.pc.TransitionWrite?)
    && (e.op.SetScore? ==> th.pc == Grade(WriteScore) && e.op.attempt == th.attempt)
    && (e.op.InsertSession? ==> OpenerPc(th.pc) && e.op.row.attempt == th.attempt)
  }

  // The program counters of grading and of the writes to a status.
  predicate GradingPc(pc: Pc) {
    pc.Grade? || pc.TransitionWrite? || pc == TransitionRead(BeginGrading) || pc == TransitionRead(FinishGrading)
  }

  lemma RequestFrom(s: State, th: Thread, pc: RequestPc, c: Choice)
    requires th.pc == Request(pc)
    ensures ComesFrom(s, th, c, RequestCode(s, th, pc, c))
  {
  }

  lemma ProvisionFrom(s: State, th: Thread, pc: ProvisionPc, c: Choice)
    requires th.pc == Provision(pc)
    ensures ComesFrom(s, th, c, ProvisionCode(s, th, pc, c))
  {
  }

  lemma GradeFrom(s: State, th: Thread, pc: GradePc, c: Choice)
    requires th.pc == Grade(pc)
    ensures ComesFrom(s, th, c, GradeCode(s, th, pc, c))
  {
  }

  lemma CleanupFrom(s: State, th: Thread, pc: CleanupPc, c: Choice)
    requires th.pc == Cleanup(pc)
    ensures ComesFrom(s, th, c, CleanupCode(s, th, pc, c))
  {
  }

  lemma ClientFrom(s: State, th: Thread, pc: ClientPc, c: Choice)
    requires th.pc == Client(pc)
    ensures ComesFrom(s, th, c, ClientCode(s, th, pc, c))
  {
  }

  lemma SweepFrom(s: State, th: Thread, pc: SweepPc, c: Choice)
    requires th.pc == Sweep(pc)
    ensures ComesFrom(s, th, c, SweepCode(s, th, pc, c))
  {
  }

  lemma Origin(s: State, th: Thread, c: Choice)
    ensures ComesFrom(s, th, c, Code(s, th, c))
  {
    match th.pc
    case Request(pc) => RequestFrom(s, th, pc, c);
    case Provision(pc) => ProvisionFrom(s, th, pc, c);
    case Grade(pc) => GradeFrom(s, th, pc, c);
    case Cleanup(pc) => CleanupFrom(s, th, pc, c);
    case Client(pc) => ClientFrom(s, th, pc, c);
    case Sweep(pc) => SweepFrom(s, th, pc, c);
    case TransitionRead(_) =>
    case TransitionWrite(_, _) =>
    case Done(_) =>
  }

  // ----- the laws of one row

  predicate RowGraded(row: Attempt) {
    var b := row.book;
    && b.exits + One(Phase(row.status) < 4) <= 1 + b.lateExits
    && b.gradings + One(Phase(row.status) < 5) <= 1 + b.lateGradings
    && |b.graders| <= b.gradings && b.scorers <= b.graders && |b.scorers| == b.scoreWrites
    && (Phase(row.status) == 4 ==> b.exits >= 1) && (b.gradings >= 1 ==> b.exits >= 1)
    && (row.status == Grading ==> b.gradings >= 1)
    && (row.status == Scored ==> b.scoreWrites >= 1) && (row.score.Some? <==> b.scoreWrites >= 1)
  }

  // What a grade handler at this program counter has done to the attempt in its hands.
  predicate HandlerGraded(row: Attempt, t: Id, pc: Pc) {
    match pc
    case Grade(LoadForGrading) => t !in row.book.graders
    case TransitionRead(BeginGrading) => t !in row.book.graders
    case TransitionWrite(BeginGrading, _) => t !in row.book.graders && row.book.exits >= 1
    case Grade(Fetch) => t in row.book.graders && t !in row.book.scorers
    case Grade(WriteScore) => t in row.book.graders && t !in row.book.scorers
    case Grade(EnqueueCleanup) => t in row.book.scorers
    case TransitionRead(FinishGrading) => t in row.book.scorers
    case TransitionWrite(FinishGrading, _) => t in row.book.scorers
    case _ => true
  }

  // Only an attempt that exists gets past its loading.
  predicate ThreadGraded(s: State, t: Id, th: Thread) {
    if th.attempt in s.attempts then HandlerGraded(s.attempts[th.attempt], t, th.pc)
    else GradingPc(th.pc) ==> th.pc == Grade(LoadForGrading)
  }

  ghost predicate Graded(s: State, a: Id) {
    && (a in s.attempts ==> RowGraded(s.attempts[a]) && s.attempts[a].book.graders <= s.born)
    && forall t | t in s.threads && s.threads[t].attempt == a :: ThreadGraded(s, t, s.threads[t])
  }

  // ----- one call keeps them

  predicate OpGrades(row: Attempt, t: Id, op: Op, a: Id) {
    match op
    case SetStatus(b, site) => a == b ==>
      && Reached(Target(site))
      && (site == BeginGrading ==> t !in row.book.graders && row.book.exits >= 1)
      && (site == FinishGrading ==> t in row.book.scorers)
    case SetScore(b, _) => a == b ==> t in row.book.graders && t !in row.book.scorers
    case _ => true
  }

  lemma MemberCounts(t: Id, ids: set<Id>)
    ensures t in ids ==> |ids| >= 1
  {
  }

  lemma StatusKeepsRow(row: Attempt, t: Id, site: Site)
    requires RowGraded(row) && Reached(Target(site))
    requires site == BeginGrading ==> t !in row.book.graders && row.book.exits >= 1
    requires site == FinishGrading ==> t in row.book.scorers
    ensures RowGraded(WithStatus(row, t, site))
  {
    MemberCounts(t, row.book.scorers);
  }

  lemma OpKeepsRow(row: Attempt, t: Id, op: Op, a: Id)
    requires RowGraded(row) && OpGrades(row, t, op, a)
    ensures RowGraded(AttemptAfter(row, t, op, a))
    ensures AttemptAfter(row, t, op, a).book.graders <= row.book.graders + {t}
  {
    match op
    case SetStatus(b, site) => if a == b { StatusKeepsRow(row, t, site); }
    case _ =>
  }

  // Another handler's part in the grading is not touched.
  lemma OpKeepsHandler(row: Attempt, t: Id, op: Op, a: Id, u: Id, pc: Pc)
    requires u != t && HandlerGraded(row, u, pc)
    ensures HandlerGraded(AttemptAfter(row, t, op, a), u, pc)
  {
  }

  lemma OwnOpGrades(s: State, t: Id, th: Thread, c: Choice, a: Id)
    requires a in s.attempts && ThreadGraded(s, t, th) && ThreadOk(s, t, th)
    ensures OpGrades(s.attempts[a], t, Code(s, th, c).op, a)
  {
    Origin(s, th, c);
    if Code(s, th, c).op.SetStatus? { StatusOrigin(s, th, c); }
  }

  lemma OwnCallKeeps(s: State, t: Id, th: Thread, c: Choice, e: Effect, row: Attempt)
    requires ComesFrom(s, th, c, e) && e.attempt == th.attempt
    requires th.attempt in s.attempts && row == s.attempts[th.attempt] && HandlerGraded(row, t, th.pc)
    requires RowGraded(row) && Reached(row.status)
    ensures HandlerGraded(AttemptAfter(row, t, e.op, th.attempt), t, e.pc)
  {
  }

  lemma NewRowGraded(s: State, t: Id, op: Op, a: Id)
    requires OpOk(s, t, op) && a !in s.attempts && a in Perform(s, t, op).attempts
    ensures RowGraded(Perform(s, t, op).attempts[a]) && Perform(s, t, op).attempts[a].book.graders == {}
  {
  }

  lemma RowAfterOp(s: State, t: Id, op: Op, a: Id)
    requires OpOk(s, t, op) && t in s.born && Graded(s, a) && (a in s.attempts ==> OpGrades(s.attempts[a], t, op, a))
    ensures var s' := Perform(s, t, op);
            a in s'.attempts ==> RowGraded(s'.attempts[a]) && s'.attempts[a].book.graders <= s.born
  {
    if a in s.attempts {
      PerformAttempt(s, t, op, a);
      OpKeepsRow(s.attempts[a], t, op, a);
    } else if a in Perform(s, t, op).attempts {
      NewRowGraded(s, t, op, a);
    }
  }

  lemma OtherAfterOp(s: State, t: Id, op: Op, u: Id, th: Thread)
    requires OpOk(s, t, op) && u != t && ThreadGraded(s, u, th)
    ensures ThreadGraded(Perform(s, t, op), u, th)
  {
    var a := th.attempt;
    if a in s.attempts {
      PerformAttempt(s, t, op, a);
      OpKeepsHandler(s.attempts[a], t, op, a, u, th.pc);
    } else if a in Perform(s, t, op).attempts {
      NewRowGraded(s, t, op, a);
    }
  }

  lemma OwnAfterCall(s: State, t: Id, th: Thread, c: Choice)
    requires var e := Code(s, th, c); OpOk(s, t, e.op) && ThreadGraded(s, t, th) && ThreadOk(s, t, th)
    requires var a := th.attempt; a in s.attempts ==> RowGraded(s.attempts[a]) && Reached(s.attempts[a].status)
    ensures var e := Code(s, th, c); ThreadGraded(Perform(s, t, e.op), t, Thread(th.job, e.attempt, e.pc))
  {
    var e, a := Code(s, th, c), th.attempt;
    Origin(s, th, c);
    hide Code;
    if GradingPc(e.pc) {
      PerformAttempt(s, t, e.op, a);
      OwnCallKeeps(s, t, th, c, e, s.attempts[a]);
    }
  }

  lemma GradedIgnoresThreads(s: State, threads: map<Id, Thread>, born: set<Id>, u: Id, th: Thread)
    requires ThreadGraded(s, u, th)
    ensures ThreadGraded(s.(threads := threads, born := born), u, th)
  {
  }

  lemma StepKeepsGraded(s: State, t: Id, c: Choice, a: Id)
    requires Inv(s) && (forall b :: Graded(s, b)) && t in s.threads
    ensures Graded(StepState(s, t, c), a)
  {
    var th := s.threads[t];
    var e := Code(s, th, c);
    var s1, s' := Perform(s, t, e.op), StepState(s, t, c);
    assert ThreadOk(s, t, th) && Graded(s, a) && Graded(s, th.attempt);
    assert th.attempt in s.attempts ==> AttemptOk(s, th.attempt);
    StepEffect(s, t, c);
    OwnOp(s, t, th, c, a);
    OwnAfterCall(s, t, th, c);
    PerformAddsNoPurchase(s, t, e.op);
    RowAfterOp(s, t, e.op, a);
    hide Inv, EffectOk, Code, ThreadOk, RowGraded;
    forall u | u in s'.threads && s'.threads[u].attempt == a ensures ThreadGraded(s', u, s'.threads[u]) {
      if u != t { OtherAfterOp(s, t, e.op, u, s.threads[u]); }
      GradedIgnoresThreads(s1, s'.threads, s'.born, u, s'.threads[u]);
    }
  }

  lemma OwnOp(s: State, t: Id, th: Thread, c: Choice, a: Id)
    requires ThreadGraded(s, t, th) && ThreadOk(s, t, th)
    ensures a in s.attempts ==> OpGrades(s.attempts[a], t, Code(s, th, c).op, a)
  {
    if a in s.attempts { OwnOpGrades(s, t, th, c, a); }
  }

  lemma CrashKeepsThread(s: State, t: Id, u: Id)
    requires Inv(s) && t in s.threads && u in CrashState(s, t).threads && ThreadGraded(s, u, s.threads[u])
    ensures ThreadGraded(CrashState(s, t), u, CrashState(s, t).threads[u])
  {
    var op, s' := CrashOp(s.threads[t]), CrashState(s, t);
    CrashEffect(s, t);
    hide Inv, EffectOk, ThreadGraded;
    OtherAfterOp(s, t, op, u, s.threads[u]);
    GradedIgnoresThreads(Perform(s, t, op), s'.threads, s'.born, u, s.threads[u]);
  }

  lemma CrashKeepsGraded(s: State, t: Id, a: Id)
    requires Inv(s) && Graded(s, a) && t in s.threads
    ensures Graded(CrashState(s, t), a)
  {
    var op, s' := CrashOp(s.threads[t]), CrashState(s, t);
    CrashEffect(s, t);
    PerformAddsNoPurchase(s, t, op);
    RowAfterOp(s, t, op, a);
    hide Inv, EffectOk, RowGraded, ThreadGraded;
    forall u | u in s'.threads && s'.threads[u].attempt == a ensures ThreadGraded(s', u, s'.threads[u]) {
      CrashKeepsThread(s, t, u);
    }
  }

  lemma StartKeepsGraded(s: State, t: Id, th: Thread, a: Id)
    requires Inv(s) && Graded(s, a) && t !in s.born && (GradingPc(th.pc) ==> th.pc == Grade(LoadForGrading))
    ensures Graded(Start(s, t, th), a)
  {
    var s' := Start(s, t, th);
    hide Inv, RowGraded;
    forall u | u in s'.threads && s'.threads[u].attempt == a ensures ThreadGraded(s', u, s'.threads[u]) {
      if u != t { assert ThreadGraded(s, u, s.threads[u]); }
    }
  }

  // Jobs, purchases and threads that leave do not matter.
  lemma GradedIgnores(s: State, s': State, a: Id)
    requires Graded(s, a) && s'.attempts == s.attempts && s'.born == s.born
    requires forall t | t in s'.threads :: t in s.threads && s'.threads[t] == s.threads[t]
    ensures Graded(s', a)
  {
    forall u | u in s'.threads && s'.threads[u].attempt == a ensures ThreadGraded(s', u, s'.threads[u]) {
      assert ThreadGraded(s, u, s.threads[u]);
    }
  }

  lemma ApplyKeepsGraded(s: State, act: Action, a: Id)
    requires Inv(s) && forall b :: Graded(s, b)
    ensures Graded(Apply(s, act), a)
  {
    hide Inv, Graded, StepState, CrashState, Start;
    match act
    case Buy(_, _, _) => GradedIgnores(s, Apply(s, act), a);
    case Arrive(t, call) => if t !in s.born { StartKeepsGraded(s, t, Entry(call), a); }
    case Deliver(t, j) => if t !in s.born && j in s.jobs { StartKeepsGraded(s, t, Delivered(s, j), a); }
    case Step(t, c) => if t in s.threads { StepKeepsGraded(s, t, c, a); }
    case Crash(t) => if t in s.threads { CrashKeepsGraded(s, t, a); }
    case Return(t) => GradedIgnores(s, Apply(s, act), a);
  }

  lemma {:induction false} RunKeepsGraded(s: State, acts: seq<Action>)
    requires Inv(s) && forall b :: Graded(s, b)
    ensures Inv(Run(s, acts)) && forall b :: Graded(Run(s, acts), b)
    decreases |acts|
  {
    if acts != [] {
      ApplyKeeps(s, acts[0]);
      forall b ensures Graded(Apply(s, acts[0]), b) { ApplyKeepsGraded(s, acts[0], b); }
      RunKeepsGraded(Apply(s, acts[0]), acts[1..]);
    }
  }

  lemma ReachedGraded(acts: seq<Action>, a: Id)
    ensures Inv(Run(INITIAL, acts)) && Graded(Run(INITIAL, acts), a)
  {
    InitialOk();
    RunKeepsGraded(INITIAL, acts);
  }

  // ----- theorems about every run

  // The moves out of `running`, and the one an attempt that has not left it may still make, are covered by
  // the first and the late ones.
  lemma ExitLaw(acts: seq<Action>, a: Id)
    requires a in Run(INITIAL, acts).attempts
    ensures var row := Run(INITIAL, acts).attempts[a];
            row.book.exits + One(Phase(row.status) < 4) <= 1 + row.book.lateExits
  {
    ReachedGraded(acts, a);
  }

  // The moves into `grading` likewise; no more handlers grade than made such a move, and each of them
  // writes the score at most once.
  lemma GradingLaw(acts: seq<Action>, a: Id)
    requires a in Run(INITIAL, acts).attempts
    ensures var s := Run(INITIAL, acts); var row := s.attempts[a];
            && row.book.gradings + One(Phase(row.status) < 5) <= 1 + row.book.lateGradings
            && |GradersAt(s, a)| <= row.book.gradings && row.book.scoreWrites <= row.book.gradings
  {
    ReachedGraded(acts, a);
    var s := Run(INITIAL, acts);
    var b := s.attempts[a].book;
    assert GradersAt(s, a) <= b.graders;
    Counted(GradersAt(s, a), b.graders);
    Counted(b.scorers, b.graders);
  }

  // A handler past its first transition and not past its last.
  predicate GradingAttempt(pc: Pc) {
    || pc == Grade(Fetch) || pc == Grade(WriteScore) || pc == TransitionRead(FinishGrading)
    || (pc.TransitionWrite? && pc.site == FinishGrading)
  }

  function GradersAt(s: State, a: Id): set<Id> {
    set t | t in s.threads && s.threads[t].attempt == a && GradingAttempt(s.threads[t].pc)
  }

  lemma {:induction false} Counted(few: set<Id>, many: set<Id>)
    requires few <= many
    ensures |few| <= |many|
    decreases |few|
  {
    if few != {} {
      var t :| t in few;
      Counted(few - {t}, many - {t});
    }
  }

  // However submissions, expiries and grade jobs race: where no write of the status came late, one of them
  // leaves `running`, one handler gets into grading, and the score is written once.
  lemma OneWayThroughGrading(acts: seq<Action>, a: Id)
    requires a in Run(INITIAL, acts).attempts
    requires var b := Run(INITIAL, acts).attempts[a].book; b.lateExits == 0 && b.lateGradings == 0
    ensures var row := Run(INITIAL, acts).attempts[a];
            && row.book.exits <= 1 && row.book.gradings <= 1 && row.book.scoreWrites <= 1
            && (row.status == Scored ==>
                  row.score.Some? && row.book.exits == row.book.gradings == row.book.scoreWrites == 1)
            && (row.status in {Submitted, Expired} ==>
                  row.book.exits == 1 && row.book.gradings == 0 && row.score.None?)
  {
    ReachedGraded(acts, a);
    ExitLaw(acts, a);
    GradingLaw(acts, a);
    assert RowGraded(Run(INITIAL, acts).attempts[a]);
  }

  // Two handlers grade the attempt at once only after a late write of its status.
  lemma NoTwoGraders(acts: seq<Action>, a: Id, t: Id, u: Id)
    requires a in Run(INITIAL, acts).attempts && Run(INITIAL, acts).attempts[a].book.lateGradings == 0
    requires var s := Run(INITIAL, acts); t in GradersAt(s, a) && u in GradersAt(s, a)
    ensures t == u
  {
    GradingLaw(acts, a);
    if t != u { Counted({t, u}, GradersAt(Run(INITIAL, acts), a)); }
  }
}
