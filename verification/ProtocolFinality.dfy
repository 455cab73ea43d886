/**
 Exactly when an attempt can no longer move: when an attempt in `grading` stays there for ever, and when a
 score can still change, with and without stale writes of the status.
 */
module ProtocolFinality {
  import opened Wrappers
  import opened AttemptLifecycle
  import opened AttemptProtocol
  import opened ProtocolInvariant
  import opened ProtocolLedger
  import opened ProtocolGrading

  // ----- what one action does to a row, a thread and a session

  // The operation on the row, and the thread it comes from where it sets the status or the score.
  predicate Sets(s: State, t: Id, op: Op) {
    && (op.SetStatus? ==>
          && t in s.threads && s.threads[t].attempt == op.attempt && Reached(Target(op.site))
          && s.threads[t].pc.TransitionWrite? && s.threads[t].pc.site == op.site)
    && (op.SetScore? ==> t in s.threads && s.threads[t].attempt == op.attempt && s.threads[t].pc == Grade(WriteScore))
  }

  lemma StepSets(s: State, t: Id, c: Choice)
    requires Inv(s) && t in s.threads
    ensures OpOk(s, t, Code(s, s.threads[t], c).op) && Sets(s, t, Code(s, s.threads[t], c).op)
  {
    var th := s.threads[t];
    StepEffect(s, t, c);
    hide Inv;
    Origin(s, th, c);
    if Code(s, th, c).op.SetStatus? { StatusOrigin(s, th, c); }
  }

  lemma StepRow(s: State, t: Id, c: Choice, a: Id)
    requires Inv(s) && t in s.threads && a in s.attempts
    ensures var op, s' := Code(s, s.threads[t], c).op, StepState(s, t, c);
            && Sets(s, t, op) && (Fresh(s, Step(t, c), a) ==> OpFresh(s, op, a))
            && a in s'.attempts && s'.attempts[a] == AttemptAfter(s.attempts[a], t, op, a)
  {
    var op := Code(s, s.threads[t], c).op;
    StepSets(s, t, c);
    if Fresh(s, Step(t, c), a) { StepFresh(s, t, c, a); }
    hide Inv, Fresh, Code;
    PerformAttempt(s, t, op, a);
  }

  lemma CrashRow(s: State, t: Id, a: Id)
    requires Inv(s) && t in s.threads && a in s.attempts
    ensures var op, s' := CrashOp(s.threads[t]), CrashState(s, t);
            a in s'.attempts && s'.attempts[a] == AttemptAfter(s.attempts[a], t, op, a)
  {
    CrashEffect(s, t);
    hide Inv;
    PerformAttempt(s, t, CrashOp(s.threads[t]), a);
  }

  lemma RowAfter(s: State, act: Action, a: Id) returns (t: Id, op: Op)
    requires Inv(s) && a in s.attempts
    ensures a in Apply(s, act).attempts && Apply(s, act).attempts[a] == AttemptAfter(s.attempts[a], t, op, a)
    ensures Sets(s, t, op) && (Fresh(s, act, a) ==> OpFresh(s, op, a))
  {
    t, op := 0, Noop;
    hide Inv, Fresh, StepState, CrashState, Code;
    match act
    case Step(u, c) =>
      if u in s.threads {
        t, op := u, Code(s, s.threads[u], c).op;
        StepRow(s, u, c, a);
      }
    case Crash(u) =>
      if u in s.threads {
        t, op := u, CrashOp(s.threads[u]);
        CrashRow(s, u, a);
      }
    case _ =>
  }

  // A thread that is there afterwards was there before, has just come in, or has made the call.
  predicate Stood(s: State, u: Id, th: Thread) {
    u in s.threads && s.threads[u] == th
  }

  predicate CameIn(th: Thread) {
    (GradingPc(th.pc) ==> th.pc == Grade(LoadForGrading)) && !OpenerPc(th.pc)
  }

  predicate Called(s: State, act: Action, u: Id, th: Thread) {
    && act.Step? && u == act.thread && u in s.threads
    && var e := Code(s, s.threads[u], act.choice);
       th == Thread(s.threads[u].job, e.attempt, e.pc) && ComesFrom(s, s.threads[u], act.choice, e)
  }

  predicate Placed(s: State, act: Action, u: Id, th: Thread) {
    Stood(s, u, th) || CameIn(th) || Called(s, act, u, th)
  }

  lemma StepPlace(s: State, t: Id, c: Choice, u: Id)
    requires t in s.threads && u in StepState(s, t, c).threads
    ensures Placed(s, Step(t, c), u, StepState(s, t, c).threads[u])
  {
    Origin(s, s.threads[t], c);
    hide Code, ComesFrom, CameIn;
  }

  lemma PlaceAfter(s: State, act: Action, u: Id)
    requires u in Apply(s, act).threads
    ensures Placed(s, act, u, Apply(s, act).threads[u])
  {
    hide StepState, Called;
    match act
    case Step(t, c) => if t in s.threads { StepPlace(s, t, c, u); }
    case _ =>
  }

  predicate SessionFrom(s: State, x: Id, row: Session, t: Id) {
    || (x in s.sessions && row.attempt == s.sessions[x].attempt && (s.sessions[x].firstOpened ==> row.firstOpened))
    || (t in s.threads && s.threads[t].attempt == row.attempt && OpenerPc(s.threads[t].pc))
  }

  lemma StepSession(s: State, t: Id, c: Choice, x: Id)
    requires Inv(s) && t in s.threads && x in StepState(s, t, c).sessions
    ensures SessionFrom(s, x, StepState(s, t, c).sessions[x], t)
  {
    var e := Code(s, s.threads[t], c);
    Origin(s, s.threads[t], c);
    StepEffect(s, t, c);
    hide Inv, Code, OpOk;
    assert StepState(s, t, c).sessions == Perform(s, t, e.op).sessions;
    OpSession(s, t, e.op, x);
  }

  lemma CrashSession(s: State, t: Id, x: Id)
    requires Inv(s) && t in s.threads && x in CrashState(s, t).sessions
    ensures SessionFrom(s, x, CrashState(s, t).sessions[x], t)
  {
    CrashEffect(s, t);
    hide Inv;
    OpSession(s, t, CrashOp(s.threads[t]), x);
  }

  lemma SessionAfter(s: State, act: Action, x: Id) returns (t: Id)
    requires Inv(s) && x in Apply(s, act).sessions
    ensures SessionFrom(s, x, Apply(s, act).sessions[x], t)
  {
    t := 0;
    hide Inv, StepState, CrashState;
    match act
    case Step(u, c) =>
      if u in s.threads {
        t := u;
        StepSession(s, u, c, x);
      }
    case Crash(u) =>
      if u in s.threads {
        t := u;
        CrashSession(s, u, x);
      }
    case _ =>
  }

  lemma OpSession(s: State, t: Id, op: Op, x: Id)
    requires OpOk(s, t, op) && x in Perform(s, t, op).sessions
    ensures var row := Perform(s, t, op).sessions[x];
            || (x in s.sessions && row.attempt == s.sessions[x].attempt
                && (s.sessions[x].firstOpened ==> row.firstOpened))
            || (op.InsertSession? && op.row == row)
  {
  }

  // ----- an attempt that is being graded and stays so

  // A thread at work that may still take the attempt out of `grading`.
  predicate Finishes(pc: Pc) {
    pc == Grade(Fetch) || pc == Grade(WriteScore) || pc == TransitionRead(FinishGrading) || pc.TransitionWrite?
  }

  ghost predicate NobodyFinishes(s: State, a: Id) {
    forall t | t in s.threads && s.threads[t].attempt == a :: !Finishes(s.threads[t].pc)
  }

  predicate HasStatus(s: State, a: Id, st: Status) {
    a in s.attempts && s.attempts[a].status == st
  }

  lemma FinishesFrom(s: State, act: Action, a: Id, u: Id, th: Thread)
    requires HasStatus(s, a, Grading) && NobodyFinishes(s, a) && th.attempt == a && Placed(s, act, u, th)
    ensures !Finishes(th.pc)
  {
    hide Code;
  }

  lemma ApplyKeepsGrading(s: State, act: Action, a: Id)
    requires Inv(s) && HasStatus(s, a, Grading) && NobodyFinishes(s, a)
    ensures HasStatus(Apply(s, act), a, Grading) && NobodyFinishes(Apply(s, act), a)
  {
    hide Inv, Fresh, Apply, Placed;
    var t, op := RowAfter(s, act, a);
    var s' := Apply(s, act);
    forall u | u in s'.threads && s'.threads[u].attempt == a ensures !Finishes(s'.threads[u].pc) {
      PlaceAfter(s, act, u);
      FinishesFrom(s, act, a, u, s'.threads[u]);
    }
  }

  lemma {:induction false} RunKeepsGrading(s: State, acts: seq<Action>, a: Id)
    requires Inv(s) && HasStatus(s, a, Grading) && NobodyFinishes(s, a)
    ensures HasStatus(Run(s, acts), a, Grading)
    decreases |acts|
  {
    if acts != [] {
      ApplyKeeps(s, acts[0]);
      ApplyKeepsGrading(s, acts[0], a);
      RunKeepsGrading(Apply(s, acts[0]), acts[1..], a);
    }
  }

  // ----- a score that stays under fresh writes

  predicate Scores(pc: Pc) {
    pc == Grade(Fetch) || pc == Grade(WriteScore)
  }

  ghost predicate NobodyScores(s: State, a: Id) {
    forall t | t in s.threads && s.threads[t].attempt == a :: !Scores(s.threads[t].pc)
  }

  lemma ScoresFrom(s: State, act: Action, a: Id, u: Id, th: Thread)
    requires HasStatus(s, a, Scored) && NobodyScores(s, a) && th.attempt == a && Placed(s, act, u, th)
    requires Called(s, act, u, th) ==> OpFresh(s, Code(s, s.threads[u], act.choice).op, a)
    ensures !Scores(th.pc)
  {
    hide Code;
  }

  lemma ScoresFromFresh(s: State, act: Action, a: Id, u: Id)
    requires Inv(s) && Fresh(s, act, a) && HasStatus(s, a, Scored) && NobodyScores(s, a)
    requires u in Apply(s, act).threads && Apply(s, act).threads[u].attempt == a
    ensures !Scores(Apply(s, act).threads[u].pc)
  {
    hide Inv, Apply, Placed;
    var th := Apply(s, act).threads[u];
    PlaceAfter(s, act, u);
    if Called(s, act, u, th) { StepFresh(s, u, act.choice, a); }
    hide Fresh, Called, Code;
    ScoresFrom(s, act, a, u, th);
  }

  lemma ApplyKeepsFreshScore(s: State, act: Action, a: Id)
    requires Inv(s) && Fresh(s, act, a) && HasStatus(s, a, Scored) && NobodyScores(s, a)
    ensures HasStatus(Apply(s, act), a, Scored) && NobodyScores(Apply(s, act), a)
    ensures Apply(s, act).attempts[a].score == s.attempts[a].score
  {
    hide Inv, Fresh, Apply, Placed;
    var t, op := RowAfter(s, act, a);
    var s' := Apply(s, act);
    forall u | u in s'.threads && s'.threads[u].attempt == a ensures !Scores(s'.threads[u].pc) {
      ScoresFromFresh(s, act, a, u);
    }
  }

  lemma {:induction false} RunKeepsFreshScore(s: State, acts: seq<Action>, a: Id)
    requires Inv(s) && FreshRun(s, acts, a) && HasStatus(s, a, Scored) && NobodyScores(s, a)
    ensures HasStatus(Run(s, acts), a, Scored) && Run(s, acts).attempts[a].score == s.attempts[a].score
    decreases |acts|
  {
    if acts != [] {
      ApplyKeeps(s, acts[0]);
      ApplyKeepsFreshScore(s, acts[0], a);
      RunKeepsFreshScore(Apply(s, acts[0]), acts[1..], a);
    }
  }

  // ----- a score that stays whatever happens

  // A thread whose next steps can lead to another score of a scored attempt, alone.
  predicate Unsettles(pc: Pc) {
    Scores(pc) || (pc.TransitionWrite? && pc.site != FinishGrading && pc.site != MarkReady)
  }

  predicate MarksReadyPc(pc: Pc) {
    pc.TransitionWrite? && pc.site == MarkReady
  }

  ghost predicate ThreadAt(s: State, a: Id, t: Id) {
    t in s.threads && s.threads[t].attempt == a
  }

  // The attempt can still be opened for a first time.
  ghost predicate CanOpen(s: State, a: Id) {
    || (exists x :: SessionOf(s, x, a) && !s.sessions[x].firstOpened)
    || (exists t :: ThreadAt(s, a, t) && OpenerPc(s.threads[t].pc))
  }

  ghost predicate SomeMarksReady(s: State, a: Id) {
    exists t :: ThreadAt(s, a, t) && MarksReadyPc(s.threads[t].pc)
  }

  // No thread unsettles the attempt, and none is about to put it back to `environment_ready` where it could
  // be opened again.
  ghost predicate Final(s: State, a: Id) {
    && (forall t | ThreadAt(s, a, t) :: !Unsettles(s.threads[t].pc))
    && (SomeMarksReady(s, a) ==> !CanOpen(s, a))
  }

  // ... which holds on when the status is scored, or ready and not to be opened.
  ghost predicate StaysFinal(s: State, a: Id) {
    && Final(s, a) && a in s.attempts
    && (s.attempts[a].status == Scored || (s.attempts[a].status == EnvironmentReady && !CanOpen(s, a)))
  }

  lemma FinalFrom(s: State, act: Action, a: Id, u: Id, th: Thread)
    requires StaysFinal(s, a) && th.attempt == a && Placed(s, act, u, th)
    ensures !Unsettles(th.pc) && (MarksReadyPc(th.pc) ==> SomeMarksReady(s, a)) && (!CanOpen(s, a) ==> !OpenerPc(th.pc))
  {
    hide Code;
    if u in s.threads && s.threads[u].attempt == a { assert ThreadAt(s, a, u); }
    if th.pc.Client? && th.pc.client.GateStatus? && SessionOf(s, th.pc.client.session, a) {
      assert s.sessions[th.pc.client.session].attempt == a;
    }
  }

  lemma ThreadStaysFinal(s: State, act: Action, a: Id, u: Id)
    requires StaysFinal(s, a) && ThreadAt(Apply(s, act), a, u)
    ensures var pc := Apply(s, act).threads[u].pc;
            && !Unsettles(pc) && (MarksReadyPc(pc) ==> SomeMarksReady(s, a))
            && (!CanOpen(s, a) ==> !OpenerPc(pc))
  {
    hide Apply, Placed, StaysFinal;
    PlaceAfter(s, act, u);
    FinalFrom(s, act, a, u, Apply(s, act).threads[u]);
  }

  lemma CannotOpenStays(s: State, act: Action, a: Id)
    requires Inv(s) && StaysFinal(s, a) && !CanOpen(s, a)
    ensures !CanOpen(Apply(s, act), a)
  {
    var s' := Apply(s, act);
    forall x | SessionOf(s', x, a) ensures s'.sessions[x].firstOpened {
      var t := SessionAfter(s, act, x);
      hide Inv, Apply;
      if t in s.threads && s.threads[t].attempt == a { assert ThreadAt(s, a, t); }
      if x in s.sessions && s.sessions[x].attempt == a { assert SessionOf(s, x, a); }
    }
    forall u | ThreadAt(s', a, u) ensures !OpenerPc(s'.threads[u].pc) { ThreadStaysFinal(s, act, a, u); }
  }

  lemma RowStaysFinal(s: State, t: Id, op: Op, a: Id)
    requires StaysFinal(s, a)
    requires Sets(s, t, op)
    ensures var row := AttemptAfter(s.attempts[a], t, op, a);
            && row.score == s.attempts[a].score
            && (row.status == Scored || (row.status == EnvironmentReady && !CanOpen(s, a)))
  {
    if t in s.threads && s.threads[t].attempt == a { assert ThreadAt(s, a, t); }
    hide CanOpen;
  }

  lemma ApplyKeepsFinal(s: State, act: Action, a: Id)
    requires Inv(s) && StaysFinal(s, a)
    ensures StaysFinal(Apply(s, act), a) && Apply(s, act).attempts[a].score == s.attempts[a].score
  {
    hide Inv, Fresh, Apply, CanOpen, AttemptAfter;
    var s' := Apply(s, act);
    var t, op := RowAfter(s, act, a);
    RowStaysFinal(s, t, op, a);
    forall u | ThreadAt(s', a, u)
      ensures !Unsettles(s'.threads[u].pc) && (MarksReadyPc(s'.threads[u].pc) ==> SomeMarksReady(s, a))
    {
      ThreadStaysFinal(s, act, a, u);
    }
    if !CanOpen(s, a) { CannotOpenStays(s, act, a); }
  }

  lemma {:induction false} RunKeepsFinal(s: State, acts: seq<Action>, a: Id)
    requires Inv(s) && StaysFinal(s, a)
    ensures StaysFinal(Run(s, acts), a) && Run(s, acts).attempts[a].score == s.attempts[a].score
    decreases |acts|
  {
    if acts != [] {
      ApplyKeeps(s, acts[0]);
      ApplyKeepsFinal(s, acts[0], a);
      RunKeepsFinal(Apply(s, acts[0]), acts[1..], a);
    }
  }
}
