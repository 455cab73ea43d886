/**
 The tables and the job queue as the running program sees them, without any history, and how the
 handlers' calls on them follow the step relation of AttemptProtocol.
 */
module Platform {
  import opened Wrappers
  import opened AttemptLifecycle
  import opened AttemptProtocol
  import opened ProtocolInvariant

  datatype PurchaseRow = PurchaseRow(user: Id, remaining: int)
  datatype AttemptRow = AttemptRow(purchase: Id, status: Status, score: Option<Score>)

  datatype Tables = Tables(
    purchases: map<Id, PurchaseRow>, attempts: map<Id, AttemptRow>,
    environments: map<Id, Environment>, sessions: map<Id, Session>, jobs: map<Id, Job>)

  // What is left of a protocol state when its history is forgotten.
  ghost function TablesOf(s: State): Tables {
    Tables(map p | p in s.purchases :: PurchaseRow(s.purchases[p].user, s.purchases[p].remaining),
           map a | a in s.attempts :: AttemptRow(s.attempts[a].purchase, s.attempts[a].status, s.attempts[a].score),
           s.environments, s.sessions, s.jobs)
  }

  function AddToCounter(d: Tables, p: Id, n: int): Tables {
    if p in d.purchases then
      d.(purchases := d.purchases[p := d.purchases[p].(remaining := d.purchases[p].remaining + n)])
    else d
  }

  // What an operation of the protocol does to the tables.
  function TableOp(d: Tables, op: Op): Tables {
    match op
    case Noop => d
    case TakeCharge(p) => AddToCounter(d, p, -1)
    case InsertAttempt(a, p) => d.(attempts := d.attempts[a := AttemptRow(p, AttemptRequested, None)])
    case GiveBack(p) => AddToCounter(d, p, 1)
    case LoseCharge(p) => d
    case MarkOrphan(a) => d
    case Accept(j, a) => d.(jobs := d.jobs[j := Job(ProvisionJob, a)])
    case Enqueue(j, kind, a) => d.(jobs := d.jobs[j := Job(kind, a)])
    case SetStatus(a, site) =>
      if a in d.attempts then d.(attempts := d.attempts[a := d.attempts[a].(status := Target(site))]) else d
    case Refund(a) => if a in d.attempts then AddToCounter(d, d.attempts[a].purchase, 1) else d
    case Forgo(a) => d
    case SetScore(a, score) =>
      if a in d.attempts then d.(attempts := d.attempts[a := d.attempts[a].(score := Some(score))]) else d
    case InsertEnvironment(e, row) => d.(environments := d.environments[e := row])
    case SetEnvironmentStatus(e, st) =>
      if e in d.environments then
        d.(environments := d.environments[e := d.environments[e].(status := st)])
      else d
    case InsertSession(x, row) => d.(sessions := d.sessions[x := row])
    case SetOpened(x) =>
      if x in d.sessions then d.(sessions := d.sessions[x := d.sessions[x].(firstOpened := true)]) else d
  }

  function ShownPurchase(row: Purchase): PurchaseRow { PurchaseRow(row.user, row.remaining) }

  function ShownAttempt(row: Attempt): AttemptRow { AttemptRow(row.purchase, row.status, row.score) }

  lemma PutPurchaseTables(s: State, p: Id, row: Purchase)
    ensures TablesOf(PutPurchase(s, p, row))
         == TablesOf(s).(purchases := TablesOf(s).purchases[p := ShownPurchase(row)])
  {
  }

  lemma PutAttemptTables(s: State, a: Id, row: Attempt)
    ensures TablesOf(PutAttempt(s, a, row))
         == TablesOf(s).(attempts := TablesOf(s).attempts[a := ShownAttempt(row)])
  {
  }

  lemma PutBothTables(s: State, p: Id, purchase: Purchase, a: Id, attempt: Attempt)
    ensures TablesOf(PutBoth(s, p, purchase, a, attempt))
         == TablesOf(s).(purchases := TablesOf(s).purchases[p := ShownPurchase(purchase)],
                         attempts := TablesOf(s).attempts[a := ShownAttempt(attempt)])
  {
    PutPurchaseTables(s, p, purchase);
    PutAttemptTables(PutPurchase(s, p, purchase), a, attempt);
  }

  lemma SameRow<V>(m: map<Id, V>, k: Id)
    requires k in m
    ensures m[k := m[k]] == m
  {
  }

  lemma AcceptTables(s: State, t: Id, j: Id, a: Id)
    requires Owned(s, a)
    ensures TablesOf(AcceptOp(s, t, j, a)) == TableOp(TablesOf(s), Accept(j, a))
  {
    var row := s.attempts[a];
    PutBothTables(s, row.purchase, AcceptedOn(s.purchases[row.purchase], t, a), a, AcceptedRow(row));
    SameRow(TablesOf(s).purchases, row.purchase);
    SameRow(TablesOf(s).attempts, a);
  }

  lemma SetStatusTables(s: State, t: Id, a: Id, site: Site)
    requires Owned(s, a)
    ensures TablesOf(SetStatusOp(s, t, a, site)) == TableOp(TablesOf(s), SetStatus(a, site))
  {
    var row := s.attempts[a];
    PutBothTables(s, row.purchase, StatusOn(s.purchases[row.purchase], t, a, row.book.accepted, site), a,
                  WithStatus(row, t, site));
    SameRow(TablesOf(s).purchases, row.purchase);
  }

  lemma SettleTables(s: State, t: Id, a: Id, paid: nat)
    requires Owned(s, a)
    ensures TablesOf(SettleOp(s, t, a, paid)) == AddToCounter(TablesOf(s), s.attempts[a].purchase, paid)
  {
    var row := s.attempts[a];
    PutBothTables(s, row.purchase, SettledOn(s.purchases[row.purchase], t, paid), a, Settled(row, t, paid));
    SameRow(TablesOf(s).attempts, a);
  }

  lemma PerformTables(s: State, t: Id, op: Op)
    requires OpOk(s, t, op)
    ensures TablesOf(Perform(s, t, op)) == TableOp(TablesOf(s), op)
  {
    match op
    case TakeCharge(p) => PutPurchaseTables(s, p, Charged(s.purchases[p], t));
    case InsertAttempt(a, p) => PutAttemptTables(s, a, NewAttempt(t, p));
    case GiveBack(p) => PutPurchaseTables(s, p, GivenBack(s.purchases[p], t));
    case LoseCharge(p) =>
      PutPurchaseTables(s, p, ChargeLost(s.purchases[p], t));
      SameRow(TablesOf(s).purchases, p);
    case MarkOrphan(a) =>
      PutAttemptTables(s, a, Orphaned(s.attempts[a]));
      SameRow(TablesOf(s).attempts, a);
    case Accept(j, a) => AcceptTables(s, t, j, a);
    case SetStatus(a, site) => SetStatusTables(s, t, a, site);
    case Refund(a) => SettleTables(s, t, a, 1);
    case Forgo(a) =>
      SettleTables(s, t, a, 0);
      SameRow(TablesOf(s).purchases, s.attempts[a].purchase);
    case SetScore(a, score) =>
      if a in s.attempts { PutAttemptTables(s, a, ScoreWritten(s.attempts[a], t, score)); }
    case _ =>
  }

  // ----- runs

  lemma ReachedOk(s: State, s': State)
    requires Reaches(INITIAL, s) && Reaches(s, s')
    ensures Inv(s')
  {
    InitialOk();
    var acts: seq<Action> :| Run(INITIAL, acts) == s;
    RunKeeps(INITIAL, acts);
    var more: seq<Action> :| Run(s, more) == s';
    RunKeeps(s, more);
  }

  // ----- what no call ever changes about a row

  predicate PurchasesStay(s: State, s': State) {
    forall p | p in s.purchases :: p in s'.purchases && s'.purchases[p].user == s.purchases[p].user
  }

  predicate AttemptsStay(s: State, s': State) {
    forall a | a in s.attempts ::
      && a in s'.attempts && s'.attempts[a].purchase == s.attempts[a].purchase
      && s'.attempts[a].book.creator == s.attempts[a].book.creator
  }

  predicate EnvironmentsStay(s: State, s': State) {
    forall e | e in s.environments ::
      && e in s'.environments && s'.environments[e] == s.environments[e].(status := s'.environments[e].status)
  }

  predicate SessionsStay(s: State, s': State) {
    forall x | x in s.sessions ::
      && x in s'.sessions && s'.sessions[x] == s.sessions[x].(firstOpened := s'.sessions[x].firstOpened)
      && (s.sessions[x].firstOpened ==> s'.sessions[x].firstOpened)
  }

  // Who bought a purchase, whose an attempt is, the address and the key of an environment and the token of a
  // session stay as they were first stored.
  predicate RowsStay(s: State, s': State) {
    PurchasesStay(s, s') && AttemptsStay(s, s') && EnvironmentsStay(s, s') && SessionsStay(s, s')
  }

  lemma PerformPurchasesStay(s: State, t: Id, op: Op)
    requires OpOk(s, t, op)
    ensures PurchasesStay(s, Perform(s, t, op))
  {
    hide WithStatus, AcceptedRow, Settled;
  }

  lemma PerformAttemptsStay(s: State, t: Id, op: Op)
    requires OpOk(s, t, op)
    ensures AttemptsStay(s, Perform(s, t, op))
  {
    forall a | a in s.attempts ensures a in Perform(s, t, op).attempts {
      PerformAttempt(s, t, op, a);
    }
    hide Perform, OpOk;
    forall a | a in s.attempts
      ensures AttemptAfter(s.attempts[a], t, op, a).purchase == s.attempts[a].purchase
      ensures AttemptAfter(s.attempts[a], t, op, a).book.creator == s.attempts[a].book.creator
    {
    }
    forall a | a in s.attempts ensures Perform(s, t, op).attempts[a] == AttemptAfter(s.attempts[a], t, op, a) {
      PerformAttempt(s, t, op, a);
    }
  }

  predicate OnMachines(op: Op) {
    op.InsertEnvironment? || op.SetEnvironmentStatus? || op.InsertSession? || op.SetOpened?
  }

  lemma PerformElsewhere(s: State, t: Id, op: Op)
    requires !OnMachines(op)
    ensures Perform(s, t, op).environments == s.environments && Perform(s, t, op).sessions == s.sessions
  {
    hide WithStatus, StatusOn, Settled, SettledOn, AcceptedOn, AcceptedRow, Charged, GivenBack, ChargeLost;
  }

  lemma MachinesAfter(s: State, t: Id, op: Op)
    requires OnMachines(op)
    ensures Perform(s, t, op).environments ==
            match op
            case InsertEnvironment(e, row) => s.environments[e := row]
            case SetEnvironmentStatus(e, st) =>
              if e in s.environments then s.environments[e := s.environments[e].(status := st)] else s.environments
            case _ => s.environments
    ensures Perform(s, t, op).sessions ==
            match op
            case InsertSession(x, row) => s.sessions[x := row]
            case SetOpened(x) =>
              if x in s.sessions then s.sessions[x := s.sessions[x].(firstOpened := true)] else s.sessions
            case _ => s.sessions
  {
    hide AcceptOp, SetStatusOp, SettleOp, PutPurchase, PutAttempt, PutJob;
  }

  lemma PerformEnvironmentsStay(s: State, t: Id, op: Op)
    requires OpOk(s, t, op)
    ensures EnvironmentsStay(s, Perform(s, t, op)) && SessionsStay(s, Perform(s, t, op))
  {
    if OnMachines(op) {
      MachinesAfter(s, t, op);
      hide Perform;
      match op
      case InsertEnvironment(_, _) =>
      case SetEnvironmentStatus(_, _) =>
      case InsertSession(_, _) =>
      case SetOpened(_) =>
    } else {
      PerformElsewhere(s, t, op);
      hide Perform;
    }
  }

  lemma PerformRowsStay(s: State, t: Id, op: Op)
    requires OpOk(s, t, op)
    ensures RowsStay(s, Perform(s, t, op))
  {
    hide Perform, OpOk, PurchasesStay, AttemptsStay, EnvironmentsStay, SessionsStay;
    PerformPurchasesStay(s, t, op);
    PerformAttemptsStay(s, t, op);
    PerformEnvironmentsStay(s, t, op);
  }

  lemma ApplyRowsStay(s: State, act: Action)
    requires Inv(s)
    ensures RowsStay(s, Apply(s, act))
  {
    hide Inv, StepState, CrashState, ReturnState, Start;
    match act
    case Step(t, c) => if t in s.threads { StepRowsStay(s, t, c); }
    case Crash(t) => if t in s.threads { CrashRowsStay(s, t); }
    case _ => OtherRowsStay(s, act);
  }

  lemma OtherRowsStay(s: State, act: Action)
    requires !act.Step? && !act.Crash?
    ensures RowsStay(s, Apply(s, act))
  {
    hide StepState, CrashState, RowsStay;
    var s' := Apply(s, act);
    assert PurchasesStay(s, s') && s'.attempts == s.attempts;
    assert s'.environments == s.environments && s'.sessions == s.sessions;
    hide Apply;
    SameRowsStay(s, s');
  }

  lemma SameRowsStay(s: State, s': State)
    requires PurchasesStay(s, s')
    requires s'.attempts == s.attempts && s'.environments == s.environments && s'.sessions == s.sessions
    ensures RowsStay(s, s')
  {
  }

  lemma StepRowsStay(s: State, t: Id, c: Choice)
    requires Inv(s) && t in s.threads
    ensures RowsStay(s, StepState(s, t, c))
  {
    StepEffect(s, t, c);
    hide Inv, Code;
    PerformRowsStay(s, t, Code(s, s.threads[t], c).op);
  }

  lemma CrashRowsStay(s: State, t: Id)
    requires Inv(s) && t in s.threads
    ensures RowsStay(s, CrashState(s, t))
  {
    CrashEffect(s, t);
    hide Inv;
    PerformRowsStay(s, t, CrashOp(s.threads[t]));
  }

  lemma {:induction false} RunRowsStay(s: State, acts: seq<Action>)
    requires Inv(s)
    ensures RowsStay(s, Run(s, acts))
    decreases |acts|
  {
    if acts != [] {
      ApplyKeeps(s, acts[0]);
      ApplyRowsStay(s, acts[0]);
      RunRowsStay(Apply(s, acts[0]), acts[1..]);
    }
  }

  lemma ReachedRowsStay(s: State, s': State)
    requires Reaches(INITIAL, s) && Reaches(s, s')
    ensures RowsStay(s, s')
  {
    ReachesItself(s);
    ReachedOk(s, s);
    var acts: seq<Action> :| Run(s, acts) == s';
    RunRowsStay(s, acts);
  }

  lemma AttemptRowStays(s: State, s': State, a: Id)
    requires Reaches(INITIAL, s) && Reaches(s, s') && a in s.attempts
    ensures a in s'.attempts && s'.attempts[a].purchase == s.attempts[a].purchase
  {
    ReachedRowsStay(s, s');
  }

  // Every row ID in use is below n, so n is a fresh one.
  ghost predicate IdsBelow(s: State, n: Id) {
    && (forall k | k in s.attempts :: k < n) && (forall k | k in s.environments :: k < n)
    && (forall k | k in s.sessions :: k < n) && (forall k | k in s.epochs :: k < n)
  }

  predicate NewIdBelow(op: Op, n: Id) {
    match op
    case InsertAttempt(a, _) => a < n
    case Accept(j, _) => j < n
    case Enqueue(j, _, _) => j < n
    case InsertEnvironment(e, _) => e < n
    case InsertSession(x, _) => x < n
    case _ => true
  }

  lemma PerformBelow(s: State, t: Id, op: Op, n: Id)
    requires IdsBelow(s, n) && NewIdBelow(op, n) && OpOk(s, t, op)
    ensures IdsBelow(Perform(s, t, op), n)
  {
  }

  // One call of a thread, seen from the tables.
  lemma CallShown(start: State, now: State, t: Id, c: Choice, n: Id)
    requires Reaches(INITIAL, start) && Reaches(start, now) && t in now.threads
    requires IdsBelow(now, n) && NewIdBelow(Code(now, now.threads[t], c).op, n)
    ensures var s' := StepState(now, t, c);
            && Reaches(start, s') && IdsBelow(s', n)
            && TablesOf(s') == TableOp(TablesOf(now), Code(now, now.threads[t], c).op)
  {
    var op := Code(now, now.threads[t], c).op;
    ReachedOk(start, now);
    StepEffect(now, t, c);
    PerformTables(now, t, op);
    PerformBelow(now, t, op, n);
    ReachesOn(start, now, Step(t, c));
  }
}
