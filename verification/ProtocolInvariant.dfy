/**
 What every action keeps, whatever fails and however handlers overlap. Status writes may be stale
 here: TransitionAttempt is cut between its read and its write.
 */
module ProtocolInvariant {
  import opened Wrappers
  import opened AttemptLifecycle
  import opened AttemptProtocol

  // The statuses an attempt has once its environment is up.
  predicate Late(st: Status) {
    st in {EnvironmentReady, TerminalOpened, Running, Submitted, Expired, Grading, Scored}
  }

  // The statuses the handlers ever write.
  predicate Reached(st: Status) {
    Waiting(st) || st == ProvisionFailed || Late(st)
  }

  predicate Accepted(s: State, a: Id) {
    Owned(s, a) && s.attempts[a].book.accepted
  }

  predicate Equipped(s: State, a: Id) {
    HasEnvironment(s, a) && HasSession(s, a)
  }

  // ----- rows

  predicate PurchaseOk(row: Purchase) {
    var b := row.book;
    && row.remaining >= 0
    && row.remaining == b.grant - b.charges + b.returned + b.refunds
    && b.charges == b.accepted + b.returned + b.lost + |b.open|
  }

  predicate AttemptRowOk(s: State, a: Id, row: Attempt) {
    && row.purchase in s.purchases
    && Reached(row.status)
    && (!row.book.accepted ==> row.status == AttemptRequested && row.book.refunds == 0)
    && (row.book.orphan ==> !row.book.accepted)
    && (Late(row.status) ==> Equipped(s, a))
  }

  predicate AttemptOk(s: State, a: Id)
    requires a in s.attempts
  {
    AttemptRowOk(s, a, s.attempts[a])
  }

  predicate EnvironmentOk(row: Environment) {
    row.workstationIP.Some? && row.privateKey.Some?
  }

  predicate SessionOk(s: State, row: Session) {
    EnvironmentOf(s, row.environment, row.attempt)
  }

  predicate LiveOk(s: State, p: Id, a: Id)
    requires p in s.purchases
  {
    a in s.purchases[p].book.live <==>
      a in s.attempts && s.attempts[a].purchase == p && s.attempts[a].book.accepted && Waiting(s.attempts[a].status)
  }

  ghost predicate Rows(s: State) {
    && (forall p | p in s.purchases :: PurchaseOk(s.purchases[p]))
    && (forall a | a in s.attempts :: AttemptOk(s, a))
    && (forall p, a | p in s.purchases :: LiveOk(s, p, a))
    && (forall e | e in s.environments :: EnvironmentOk(s.environments[e]))
    && (forall x | x in s.sessions :: SessionOk(s, s.sessions[x]))
    && s.jobs.Keys <= s.epochs.Keys
    && (forall j | j in s.jobs && s.jobs[j].kind == ProvisionJob :: Accepted(s, s.jobs[j].attempt))
  }

  // ----- threads

  // The purchase whose charge this thread still has to settle.
  function OpenOf(pc: Pc): Option<Id> {
    match pc
    case Request(CreateAttempt(p)) => Some(p)
    case Request(EnqueueFirst(p, _)) => Some(p)
    case Request(Compensate(p)) => Some(p)
    case _ => None
  }

  predicate OwedPc(pc: Pc) {
    pc == Provision(FailCleanup) || pc == Provision(FailRefund)
  }

  predicate AllAccepted(s: State, todo: seq<Id>) {
    forall a | a in todo :: Accepted(s, a)
  }

  predicate WaitingSite(site: Site) {
    site == BeginProvisioning || site == MarkReady || site == MarkFailed || site.MarkStale?
  }

  // What a thread may rely on at its program counter.
  predicate RequestOk(s: State, t: Id, a: Id, pc: RequestPc) {
    match pc
    case CheckPurchase(_, _) => true
    case Charge(p) => p in s.purchases
    case CreateAttempt(p) => p in s.purchases
    case Compensate(p) => p in s.purchases
    case EnqueueFirst(p, b) =>
      && a == b && Owned(s, b) && s.attempts[b].purchase == p
      && s.attempts[b].book.creator == t && !s.attempts[b].book.accepted && !s.attempts[b].book.orphan
  }

  predicate ProvisionOk(s: State, a: Id, pc: ProvisionPc) {
    && Accepted(s, a)
    && (pc.RunPlaybook? ==> EnvironmentOf(s, pc.env, a))
    && (pc.SaveSession? ==> EnvironmentOf(s, pc.env, a))
  }

  predicate GradeOk(s: State, a: Id, pc: GradePc) {
    pc == LoadForGrading || Equipped(s, a)
  }

  predicate ClientOk(s: State, a: Id, pc: ClientPc) {
    match pc
    case EnqueueProvision => Accepted(s, a)
    case GateStatus(x, _) => SessionOf(s, x, a)
    case LoadEnvironment(x, _) => SessionOf(s, x, a)
    case StampOpened(x) => SessionOf(s, x, a)
    case _ => true
  }

  predicate SweepOk(s: State, pc: SweepPc) {
    match pc
    case Stale(todo) => AllAccepted(s, todo)
    case StaleEnqueue(todo) => AllAccepted(s, todo)
    case _ => true
  }

  predicate ReadOk(s: State, a: Id, site: Site) {
    && (WaitingSite(site) ==> Accepted(s, a))
    && (site == MarkReady ==> Equipped(s, a))
    && (site.MarkStale? ==> AllAccepted(s, site.rest))
  }

  predicate WriteOk(s: State, a: Id, site: Site, seen: Status) {
    && ValidTransition(seen, Target(site))
    && Accepted(s, a) && Reached(Target(site))
    && (Late(Target(site)) ==> Equipped(s, a))
    && (site.MarkStale? ==> AllAccepted(s, site.rest))
  }

  predicate ThreadOk(s: State, t: Id, th: Thread) {
    match th.pc
    case Request(pc) => RequestOk(s, t, th.attempt, pc)
    case Provision(pc) => ProvisionOk(s, th.attempt, pc)
    case Grade(pc) => GradeOk(s, th.attempt, pc)
    case Cleanup(_) => true
    case Client(pc) => ClientOk(s, th.attempt, pc)
    case Sweep(pc) => SweepOk(s, pc)
    case TransitionRead(site) => ReadOk(s, th.attempt, site)
    case TransitionWrite(site, seen) => WriteOk(s, th.attempt, site, seen)
    case Done(_) => true
  }

  predicate OpenOk(s: State, p: Id, t: Id)
    requires p in s.purchases
  {
    t in s.purchases[p].book.open <==> t in s.threads && OpenOf(s.threads[t].pc) == Some(p)
  }

  predicate OwedOk(s: State, a: Id, t: Id)
    requires a in s.attempts
  {
    t in s.attempts[a].book.owed <==> t in s.threads && OwedPc(s.threads[t].pc) && s.threads[t].attempt == a
  }

  predicate PurchaseOwedOk(s: State, p: Id, t: Id)
    requires p in s.purchases
  {
    t in s.purchases[p].book.owed <==>
      && t in s.threads && OwedPc(s.threads[t].pc)
      && s.threads[t].attempt in s.attempts && s.attempts[s.threads[t].attempt].purchase == p
  }

  ghost predicate Threads(s: State) {
    && s.threads.Keys <= s.born
    && (forall t | t in s.threads :: ThreadOk(s, t, s.threads[t]))
    && (forall p, t | p in s.purchases :: OpenOk(s, p, t))
    && (forall a, t | a in s.attempts :: OwedOk(s, a, t))
    && (forall p, t | p in s.purchases :: PurchaseOwedOk(s, p, t))
  }

  ghost predicate Inv(s: State) {
    Rows(s) && Threads(s)
  }

  // ----- what a thread may do to the rows

  ghost predicate OpOk(s: State, t: Id, op: Op) {
    match op
    case TakeCharge(p) => p in s.purchases && s.purchases[p].remaining > 0 && t !in s.purchases[p].book.open
    case InsertAttempt(a, p) => a !in s.attempts && p in s.purchases
    case GiveBack(p) => p in s.purchases && t in s.purchases[p].book.open
    case LoseCharge(p) => p in s.purchases && t in s.purchases[p].book.open
    case MarkOrphan(a) => Owned(s, a) && s.attempts[a].book.creator == t && !s.attempts[a].book.accepted
    case Accept(j, a) =>
      && j !in s.epochs && Owned(s, a) && s.attempts[a].book.creator == t
      && !s.attempts[a].book.accepted && !s.attempts[a].book.orphan
      && t in s.purchases[s.attempts[a].purchase].book.open
    case Enqueue(j, kind, a) => j !in s.epochs && (kind == ProvisionJob ==> Accepted(s, a))
    case SetStatus(a, site) =>
      Accepted(s, a) && Reached(Target(site)) && (Late(Target(site)) ==> Equipped(s, a))
    case Refund(a) => Accepted(s, a)
    case Forgo(a) => Accepted(s, a)
    case InsertEnvironment(e, row) => e !in s.environments && EnvironmentOk(row)
    case InsertSession(x, row) => x !in s.sessions && SessionOk(s, row)
    case _ => true
  }

  // Rows stay, keep their keys and owners, and only their own creator accepts or orphans an attempt.
  ghost predicate Grows(s: State, s': State, t: Id) {
    && s.purchases.Keys <= s'.purchases.Keys
    && s.attempts.Keys <= s'.attempts.Keys
    && s.environments.Keys <= s'.environments.Keys
    && s.sessions.Keys <= s'.sessions.Keys
    && (forall a | a in s.attempts :: AttemptGrows(s.attempts[a], s'.attempts[a], t))
    && (forall e | e in s.environments :: s'.environments[e].attempt == s.environments[e].attempt)
    && (forall x | x in s.sessions ::
          s'.sessions[x].attempt == s.sessions[x].attempt && s'.sessions[x].environment == s.sessions[x].environment)
  }

  predicate AttemptGrows(row: Attempt, row': Attempt, t: Id) {
    && row'.purchase == row.purchase && row'.book.creator == row.book.creator
    && (row.book.accepted ==> row'.book.accepted)
    && (row.book.creator != t ==>
          row'.book.accepted == row.book.accepted && row'.book.orphan == row.book.orphan)
  }

  lemma EquippedStays(s: State, s': State, t: Id, a: Id)
    requires Grows(s, s', t)
    ensures HasEnvironment(s, a) ==> HasEnvironment(s', a)
    ensures HasSession(s, a) ==> HasSession(s', a)
  {
    if HasEnvironment(s, a) {
      var e :| e in s.environments && EnvironmentOf(s, e, a);
      assert EnvironmentOf(s', e, a);
    }
    if HasSession(s, a) {
      var x :| x in s.sessions && SessionOf(s, x, a);
      assert SessionOf(s', x, a);
    }
  }

  lemma ThreadStays(s: State, s': State, t: Id, u: Id, th: Thread)
    requires Grows(s, s', t) && ThreadOk(s, u, th) && u != t
    ensures ThreadOk(s', u, th)
  {
    EquippedStays(s, s', t, th.attempt);
  }

  // ----- one lemma for each way a row can change

  lemma UntouchedAttempt(s: State, s': State, t: Id, a: Id)
    requires Grows(s, s', t) && a in s.attempts && AttemptOk(s, a) && s'.attempts[a] == s.attempts[a]
    ensures AttemptOk(s', a)
  {
    EquippedStays(s, s', t, a);
  }

  lemma UntouchedAttempts(s: State, s': State, t: Id)
    requires Rows(s) && Grows(s, s', t)
    ensures forall a | a in s.attempts && s'.attempts[a] == s.attempts[a] :: AttemptOk(s', a)
  {
    forall a | a in s.attempts && s'.attempts[a] == s.attempts[a] ensures AttemptOk(s', a) {
      UntouchedAttempt(s, s', t, a);
    }
  }

  lemma PutPurchaseKeeps(s: State, t: Id, p: Id, row: Purchase)
    requires Rows(s) && p in s.purchases && PurchaseOk(row)
    requires row.book.live == s.purchases[p].book.live
    ensures Rows(PutPurchase(s, p, row)) && Grows(s, PutPurchase(s, p, row), t)
  {
    var s' := PutPurchase(s, p, row);
    UntouchedAttempts(s, s', t);
    forall q, a | q in s'.purchases ensures LiveOk(s', q, a) {
      assert LiveOk(s, q, a);
    }
  }

  predicate IsLive(row: Attempt) {
    row.book.accepted && Waiting(row.status)
  }

  lemma PutAttemptGrows(s: State, t: Id, a: Id, row: Attempt)
    requires a in s.attempts ==> AttemptGrows(s.attempts[a], row, t)
    ensures Grows(s, PutAttempt(s, a, row), t)
  {
  }

  lemma PutAttemptKeeps(s: State, t: Id, a: Id, row: Attempt)
    requires Rows(s) && AttemptRowOk(s, a, row)
    requires a in s.attempts ==> AttemptGrows(s.attempts[a], row, t) && IsLive(row) == IsLive(s.attempts[a])
    requires a !in s.attempts ==> !IsLive(row)
    ensures Rows(PutAttempt(s, a, row)) && Grows(s, PutAttempt(s, a, row), t)
  {
    var s' := PutAttempt(s, a, row);
    PutAttemptGrows(s, t, a, row);
    UntouchedAttempts(s, s', t);
    EquippedStays(s, s', t, a);
    assert AttemptOk(s', a);
    forall q, b | q in s'.purchases ensures LiveOk(s', q, b) {
      assert LiveOk(s, q, b);
    }
  }

  lemma PutBothGrows(s: State, t: Id, p: Id, purchase: Purchase, a: Id, attempt: Attempt)
    requires Owned(s, a) && AttemptGrows(s.attempts[a], attempt, t)
    ensures Grows(s, PutBoth(s, p, purchase, a, attempt), t)
  {
  }

  lemma PutBothLive(s: State, p: Id, purchase: Purchase, a: Id, attempt: Attempt, q: Id, b: Id)
    requires Owned(s, a) && p == s.attempts[a].purchase && attempt.purchase == p
    requires q in s.purchases && LiveOk(s, q, b)
    requires purchase.book.live
          == if IsLive(attempt) then s.purchases[p].book.live + {a} else s.purchases[p].book.live - {a}
    ensures LiveOk(PutBoth(s, p, purchase, a, attempt), q, b)
  {
  }

  lemma PutBothKeeps(s: State, t: Id, p: Id, purchase: Purchase, a: Id, attempt: Attempt)
    requires Rows(s) && Owned(s, a) && p == s.attempts[a].purchase
    requires PurchaseOk(purchase) && AttemptRowOk(s, a, attempt) && AttemptGrows(s.attempts[a], attempt, t)
    requires purchase.book.live
          == if IsLive(attempt) then s.purchases[p].book.live + {a} else s.purchases[p].book.live - {a}
    ensures Rows(PutBoth(s, p, purchase, a, attempt)) && Grows(s, PutBoth(s, p, purchase, a, attempt), t)
  {
    var s' := PutBoth(s, p, purchase, a, attempt);
    PutBothGrows(s, t, p, purchase, a, attempt);
    UntouchedAttempts(s, s', t);
    EquippedStays(s, s', t, a);
    assert AttemptOk(s', a);
    hide Grows, AttemptRowOk, PurchaseOk;
    forall q, b | q in s'.purchases ensures LiveOk(s', q, b) {
      PutBothLive(s, p, purchase, a, attempt, q, b);
    }
  }

  lemma PutJobKeeps(s: State, t: Id, j: Id, kind: JobKind, a: Id)
    requires Rows(s) && j !in s.epochs && (kind == ProvisionJob ==> Accepted(s, a))
    ensures Rows(PutJob(s, j, kind, a)) && Grows(s, PutJob(s, j, kind, a), t)
  {
    var s' := PutJob(s, j, kind, a);
    UntouchedAttempts(s, s', t);
    forall q, b | q in s'.purchases ensures LiveOk(s', q, b) {
      assert LiveOk(s, q, b);
    }
  }

  lemma PutEnvironmentKeeps(s: State, t: Id, e: Id, row: Environment)
    requires Rows(s) && EnvironmentOk(row)
    requires e in s.environments ==> row.attempt == s.environments[e].attempt
    ensures var s' := s.(environments := s.environments[e := row]); Rows(s') && Grows(s, s', t)
  {
    var s' := s.(environments := s.environments[e := row]);
    UntouchedAttempts(s, s', t);
    forall q, b | q in s'.purchases ensures LiveOk(s', q, b) {
      assert LiveOk(s, q, b);
    }
  }

  lemma PutSessionKeeps(s: State, t: Id, x: Id, row: Session)
    requires Rows(s) && SessionOk(s, row)
    requires x in s.sessions ==> row.attempt == s.sessions[x].attempt && row.environment == s.sessions[x].environment
    ensures var s' := s.(sessions := s.sessions[x := row]); Rows(s') && Grows(s, s', t)
  {
    var s' := s.(sessions := s.sessions[x := row]);
    UntouchedAttempts(s, s', t);
    forall q, b | q in s'.purchases ensures LiveOk(s', q, b) {
      assert LiveOk(s, q, b);
    }
  }

  lemma AcceptKeeps(s: State, t: Id, j: Id, a: Id)
    requires Rows(s) && OpOk(s, t, Accept(j, a))
    ensures Rows(AcceptOp(s, t, j, a)) && Grows(s, AcceptOp(s, t, j, a), t)
  {
    var row := s.attempts[a];
    var p := row.purchase;
    assert AttemptOk(s, a) && PurchaseOk(s.purchases[p]);
    var s1 := PutBoth(s, p, AcceptedOn(s.purchases[p], t, a), a, AcceptedRow(row));
    PutBothKeeps(s, t, p, AcceptedOn(s.purchases[p], t, a), a, AcceptedRow(row));
    PutJobKeeps(s1, t, j, ProvisionJob, a);
  }

  lemma SetStatusKeeps(s: State, t: Id, a: Id, site: Site)
    requires Rows(s) && OpOk(s, t, SetStatus(a, site))
    ensures Rows(SetStatusOp(s, t, a, site)) && Grows(s, SetStatusOp(s, t, a, site), t)
  {
    var row := s.attempts[a];
    var p := row.purchase;
    assert AttemptOk(s, a) && PurchaseOk(s.purchases[p]);
    PutBothKeeps(s, t, p, StatusOn(s.purchases[p], t, a, true, site), a, WithStatus(row, t, site));
  }

  lemma SettleKeeps(s: State, t: Id, a: Id, paid: nat)
    requires Rows(s) && Accepted(s, a)
    ensures Rows(SettleOp(s, t, a, paid)) && Grows(s, SettleOp(s, t, a, paid), t)
  {
    var row := s.attempts[a];
    var p := row.purchase;
    assert AttemptOk(s, a) && PurchaseOk(s.purchases[p]) && LiveOk(s, p, a);
    PutBothKeeps(s, t, p, SettledOn(s.purchases[p], t, paid), a, Settled(row, t, paid));
  }

  lemma InsertKeeps(s: State, t: Id, a: Id, p: Id)
    requires Rows(s) && OpOk(s, t, InsertAttempt(a, p))
    ensures Rows(PutAttempt(s, a, NewAttempt(t, p))) && Grows(s, PutAttempt(s, a, NewAttempt(t, p)), t)
  {
    PutAttemptKeeps(s, t, a, NewAttempt(t, p));
  }

  lemma OrphanKeeps(s: State, t: Id, a: Id)
    requires Rows(s) && OpOk(s, t, MarkOrphan(a))
    ensures Rows(PutAttempt(s, a, Orphaned(s.attempts[a]))) && Grows(s, PutAttempt(s, a, Orphaned(s.attempts[a])), t)
  {
    assert AttemptOk(s, a);
    PutAttemptKeeps(s, t, a, Orphaned(s.attempts[a]));
  }

  lemma ScoreKeeps(s: State, t: Id, a: Id, score: Score)
    requires Rows(s) && a in s.attempts
    ensures var s' := PutAttempt(s, a, ScoreWritten(s.attempts[a], t, score)); Rows(s') && Grows(s, s', t)
  {
    assert AttemptOk(s, a);
    PutAttemptKeeps(s, t, a, ScoreWritten(s.attempts[a], t, score));
  }

  lemma NothingGrows(s: State, t: Id)
    ensures Grows(s, s, t)
  {
  }

  lemma RowsHold(s: State)
    requires Rows(s)
    ensures forall p | p in s.purchases :: PurchaseOk(s.purchases[p])
    ensures forall e | e in s.environments :: EnvironmentOk(s.environments[e])
    ensures forall x | x in s.sessions :: SessionOk(s, s.sessions[x])
  {
  }

  // The operations that change a purchase.
  predicate OnPurchases(op: Op) {
    op.TakeCharge? || op.GiveBack? || op.LoseCharge? || op.Accept? || op.SetStatus? || op.Refund? || op.Forgo?
  }

  lemma PurchaseOpKeeps(s: State, t: Id, op: Op)
    requires Rows(s) && OpOk(s, t, op) && OnPurchases(op)
    ensures Rows(Perform(s, t, op)) && Grows(s, Perform(s, t, op), t)
  {
    RowsHold(s);
    hide Rows, Grows, AttemptRowOk;
    match op
    case TakeCharge(p) => PutPurchaseKeeps(s, t, p, Charged(s.purchases[p], t));
    case GiveBack(p) => PutPurchaseKeeps(s, t, p, GivenBack(s.purchases[p], t));
    case LoseCharge(p) => PutPurchaseKeeps(s, t, p, ChargeLost(s.purchases[p], t));
    case Accept(j, a) => AcceptKeeps(s, t, j, a);
    case SetStatus(a, site) => SetStatusKeeps(s, t, a, site);
    case Refund(a) => SettleKeeps(s, t, a, 1);
    case Forgo(a) => SettleKeeps(s, t, a, 0);
  }

  lemma OtherOpKeeps(s: State, t: Id, op: Op)
    requires Rows(s) && OpOk(s, t, op) && !OnPurchases(op)
    ensures Rows(Perform(s, t, op)) && Grows(s, Perform(s, t, op), t)
  {
    RowsHold(s);
    NothingGrows(s, t);
    hide Rows, Grows, AttemptRowOk;
    match op
    case Noop =>
    case InsertAttempt(a, p) => InsertKeeps(s, t, a, p);
    case MarkOrphan(a) => OrphanKeeps(s, t, a);
    case Enqueue(j, kind, a) => PutJobKeeps(s, t, j, kind, a);
    case SetScore(a, score) => if a in s.attempts { ScoreKeeps(s, t, a, score); }
    case InsertEnvironment(e, row) => PutEnvironmentKeeps(s, t, e, row);
    case SetEnvironmentStatus(e, st) =>
      if e in s.environments { PutEnvironmentKeeps(s, t, e, s.environments[e].(status := st)); }
    case InsertSession(x, row) => PutSessionKeeps(s, t, x, row);
    case SetOpened(x) =>
      if x in s.sessions { PutSessionKeeps(s, t, x, s.sessions[x].(firstOpened := true)); }
  }

  lemma PerformKeeps(s: State, t: Id, op: Op)
    requires Rows(s) && OpOk(s, t, op)
    ensures Rows(Perform(s, t, op)) && Grows(s, Perform(s, t, op), t)
  {
    hide *;
    if OnPurchases(op) { PurchaseOpKeeps(s, t, op); } else { OtherOpKeeps(s, t, op); }
  }

  // ----- one call of one thread

  // The books of open charges follow the thread's program counter.
  predicate OpenShift(s: State, th: Thread, e: Effect) {
    match e.op
    case TakeCharge(p) => OpenOf(th.pc) == None && OpenOf(e.pc) == Some(p)
    case GiveBack(p) => OpenOf(th.pc) == Some(p) && OpenOf(e.pc) == None
    case LoseCharge(p) => OpenOf(th.pc) == Some(p) && OpenOf(e.pc) == None
    case Accept(_, a) => Owned(s, a) && OpenOf(th.pc) == Some(s.attempts[a].purchase) && OpenOf(e.pc) == None
    case _ => OpenOf(th.pc) == OpenOf(e.pc)
  }

  // ... and so do the books of owed refunds.
  predicate OwedShift(th: Thread, e: Effect) {
    match e.op
    case SetStatus(a, site) =>
      !OwedPc(th.pc) && OwedPc(e.pc) == (site == MarkFailed) && (site == MarkFailed ==> a == e.attempt)
    case Refund(a) => OwedPc(th.pc) && !OwedPc(e.pc) && a == th.attempt
    case Forgo(a) => OwedPc(th.pc) && !OwedPc(e.pc) && a == th.attempt
    case _ => OwedPc(th.pc) == OwedPc(e.pc) && (OwedPc(e.pc) ==> e.attempt == th.attempt)
  }

  ghost predicate EffectOk(s: State, t: Id, th: Thread, e: Effect) {
    && OpOk(s, t, e.op)
    && OpenShift(s, th, e)
    && OwedShift(th, e)
    && ThreadOk(Perform(s, t, e.op), t, Thread(th.job, e.attempt, e.pc))
  }

  lemma RequestEffect(s: State, t: Id, th: Thread, pc: RequestPc, c: Choice)
    requires th.pc == Request(pc) && RequestOk(s, t, th.attempt, pc)
    requires forall p | p in s.purchases :: t in s.purchases[p].book.open <==> OpenOf(th.pc) == Some(p)
    ensures EffectOk(s, t, th, RequestCode(s, th, pc, c))
  {
  }

  lemma ProvisionEffect(s: State, t: Id, th: Thread, pc: ProvisionPc, c: Choice)
    requires th.pc == Provision(pc) && ProvisionOk(s, th.attempt, pc)
    ensures EffectOk(s, t, th, ProvisionCode(s, th, pc, c))
  {
    var e := ProvisionCode(s, th, pc, c);
    if e.op.InsertSession? {
      var s' := Perform(s, t, e.op);
      assert SessionOf(s', c.id, th.attempt) && EnvironmentOf(s', pc.env, th.attempt);
    }
  }

  lemma ClientEffect(s: State, t: Id, th: Thread, pc: ClientPc, c: Choice)
    requires th.pc == Client(pc) && ClientOk(s, th.attempt, pc)
    ensures EffectOk(s, t, th, ClientCode(s, th, pc, c))
  {
  }

  lemma GradeEffect(s: State, t: Id, th: Thread, pc: GradePc, c: Choice)
    requires th.pc == Grade(pc) && GradeOk(s, th.attempt, pc)
    ensures EffectOk(s, t, th, GradeCode(s, th, pc, c))
  {
  }

  lemma CleanupEffect(s: State, t: Id, th: Thread, pc: CleanupPc, c: Choice)
    requires th.pc == Cleanup(pc)
    ensures EffectOk(s, t, th, CleanupCode(s, th, pc, c))
  {
  }

  lemma SweepEffect(s: State, t: Id, th: Thread, pc: SweepPc, c: Choice)
    requires th.pc == Sweep(pc) && SweepOk(s, pc)
    requires forall a | a in s.attempts :: AttemptOk(s, a)
    ensures EffectOk(s, t, th, SweepCode(s, th, pc, c))
  {
  }

  lemma ReadEnablesWrite(s: State, a: Id, site: Site)
    requires ReadOk(s, a, site) && a in s.attempts && AttemptOk(s, a)
    requires ValidTransition(s.attempts[a].status, Target(site))
    ensures WriteOk(s, a, site, s.attempts[a].status)
  {
  }

  lemma ReadEffect(s: State, t: Id, th: Thread, site: Site, c: Choice)
    requires th.pc == TransitionRead(site) && ReadOk(s, th.attempt, site)
    requires th.attempt in s.attempts ==> AttemptOk(s, th.attempt)
    ensures EffectOk(s, t, th, ReadCode(s, th, site, c))
  {
    if th.attempt in s.attempts && ValidTransition(s.attempts[th.attempt].status, Target(site)) {
      ReadEnablesWrite(s, th.attempt, site);
    }
  }

  lemma SetStatusLeavesFacts(s: State, t: Id, a: Id, site: Site)
    requires Accepted(s, a)
    ensures forall b | Accepted(s, b) :: Accepted(SetStatusOp(s, t, a, site), b)
    ensures Equipped(s, a) ==> Equipped(SetStatusOp(s, t, a, site), a)
  {
    var s' := SetStatusOp(s, t, a, site);
    if Equipped(s, a) {
      var e :| e in s.environments && EnvironmentOf(s, e, a);
      var x :| x in s.sessions && SessionOf(s, x, a);
      assert EnvironmentOf(s', e, a) && SessionOf(s', x, a);
    }
  }

  lemma AfterOk(s: State, t: Id, th: Thread, site: Site, pc: Pc)
    requires pc == AfterSuccess(site) || pc == AfterFailure(site)
    requires Accepted(s, th.attempt)
    requires pc.Grade? ==> Equipped(s, th.attempt)
    requires site.MarkStale? ==> AllAccepted(s, site.rest)
    ensures ThreadOk(s, t, Thread(th.job, th.attempt, pc))
  {
  }

  lemma WriteShifts(th: Thread, site: Site, seen: Status, s: State)
    requires th.pc == TransitionWrite(site, seen)
    ensures OpenShift(s, th, Do(th, SetStatus(th.attempt, site), AfterSuccess(site)))
    ensures OwedShift(th, Do(th, SetStatus(th.attempt, site), AfterSuccess(site)))
  {
  }

  lemma WriteLeadsOn(s: State, t: Id, th: Thread, site: Site, seen: Status)
    requires WriteOk(s, th.attempt, site, seen)
    ensures ThreadOk(SetStatusOp(s, t, th.attempt, site), t, Thread(th.job, th.attempt, AfterSuccess(site)))
  {
    SetStatusLeavesFacts(s, t, th.attempt, site);
    hide SetStatusOp, Accepted, Equipped, ThreadOk;
    assert AfterSuccess(site).Grade? ==> Late(Target(site));
    AfterOk(SetStatusOp(s, t, th.attempt, site), t, th, site, AfterSuccess(site));
  }

  lemma WriteEffect(s: State, t: Id, th: Thread, site: Site, seen: Status, c: Choice)
    requires th.pc == TransitionWrite(site, seen) && WriteOk(s, th.attempt, site, seen)
    ensures EffectOk(s, t, th, WriteCode(th, site, c))
  {
    if c.ok {
      WriteShifts(th, site, seen, s);
      WriteLeadsOn(s, t, th, site, seen);
      hide OpenShift, OwedShift, ThreadOk, SetStatusOp, AfterSuccess;
      assert OpOk(s, t, SetStatus(th.attempt, site));
    } else {
      AfterOk(s, t, th, site, AfterFailure(site));
    }
  }

  lemma StepEffect(s: State, t: Id, c: Choice)
    requires Inv(s) && t in s.threads
    ensures EffectOk(s, t, s.threads[t], Code(s, s.threads[t], c))
  {
    var th := s.threads[t];
    assert ThreadOk(s, t, th);
    match th.pc
    case Request(pc) =>
      forall p | p in s.purchases ensures t in s.purchases[p].book.open <==> OpenOf(th.pc) == Some(p) {
        assert OpenOk(s, p, t);
      }
      RequestEffect(s, t, th, pc, c);
    case Provision(pc) => ProvisionEffect(s, t, th, pc, c);
    case Grade(pc) => GradeEffect(s, t, th, pc, c);
    case Cleanup(pc) => CleanupEffect(s, t, th, pc, c);
    case Client(pc) => ClientEffect(s, t, th, pc, c);
    case Sweep(pc) => SweepEffect(s, t, th, pc, c);
    case TransitionRead(site) => ReadEffect(s, t, th, site, c);
    case TransitionWrite(site, seen) => WriteEffect(s, t, th, site, seen, c);
    case Done(_) =>
  }

  // ----- one row after one call

  function AttemptAfter(row: Attempt, t: Id, op: Op, a: Id): Attempt {
    match op
    case MarkOrphan(b) => if a == b then Orphaned(row) else row
    case Accept(_, b) => if a == b then AcceptedRow(row) else row
    case SetStatus(b, site) => if a == b then WithStatus(row, t, site) else row
    case Refund(b) => if a == b then Settled(row, t, 1) else row
    case Forgo(b) => if a == b then Settled(row, t, 0) else row
    case SetScore(b, score) => if a == b then ScoreWritten(row, t, score) else row
    case _ => row
  }

  lemma PerformAttempt(s: State, t: Id, op: Op, a: Id)
    requires OpOk(s, t, op) && a in s.attempts
    ensures a in Perform(s, t, op).attempts
    ensures Perform(s, t, op).attempts[a] == AttemptAfter(s.attempts[a], t, op, a)
  {
  }

  // The attempt a call works on, if it belongs to the purchase.
  predicate OnPurchase(s: State, a: Id, p: Id) {
    a in s.attempts && s.attempts[a].purchase == p
  }

  function PurchaseAfter(s: State, t: Id, op: Op, p: Id): Purchase
    requires p in s.purchases
  {
    var row := s.purchases[p];
    match op
    case TakeCharge(q) => if p == q then Charged(row, t) else row
    case GiveBack(q) => if p == q then GivenBack(row, t) else row
    case LoseCharge(q) => if p == q then ChargeLost(row, t) else row
    case Accept(_, a) => if OnPurchase(s, a, p) then AcceptedOn(row, t, a) else row
    case SetStatus(a, site) => if OnPurchase(s, a, p) then StatusOn(row, t, a, true, site) else row
    case Refund(a) => if OnPurchase(s, a, p) then SettledOn(row, t, 1) else row
    case Forgo(a) => if OnPurchase(s, a, p) then SettledOn(row, t, 0) else row
    case _ => row
  }

  lemma PerformPurchase(s: State, t: Id, op: Op, p: Id)
    requires OpOk(s, t, op) && p in s.purchases
    ensures p in Perform(s, t, op).purchases
    ensures Perform(s, t, op).purchases[p] == PurchaseAfter(s, t, op, p)
  {
  }

  // ----- the books after one call, given the books before

  lemma OpenAfterCall(s: State, t: Id, th: Thread, e: Effect, p: Id, u: Id)
    requires OpenShift(s, th, e) && p in s.purchases
    requires u in s.purchases[p].book.open <==> (u in s.threads && OpenOf(s.threads[u].pc) == Some(p))
    requires t in s.threads && th == s.threads[t]
    ensures u in PurchaseAfter(s, t, e.op, p).book.open <==>
              if u == t then OpenOf(e.pc) == Some(p) else u in s.threads && OpenOf(s.threads[u].pc) == Some(p)
  {
  }

  lemma OwedAfterCall(s: State, t: Id, th: Thread, e: Effect, a: Id, u: Id)
    requires OwedShift(th, e) && a in s.attempts
    requires u in s.attempts[a].book.owed <==>
               (u in s.threads && OwedPc(s.threads[u].pc) && s.threads[u].attempt == a)
    requires t in s.threads && th == s.threads[t]
    ensures u in AttemptAfter(s.attempts[a], t, e.op, a).book.owed <==>
              if u == t then OwedPc(e.pc) && e.attempt == a
              else u in s.threads && OwedPc(s.threads[u].pc) && s.threads[u].attempt == a
  {
  }

  predicate OwesFor(s: State, pc: Pc, a: Id, p: Id) {
    OwedPc(pc) && a in s.attempts && s.attempts[a].purchase == p
  }

  lemma PurchaseOwedAfterCall(s: State, t: Id, th: Thread, e: Effect, p: Id, u: Id)
    requires OwedShift(th, e) && OpOk(s, t, e.op) && p in s.purchases
    requires u in s.purchases[p].book.owed <==>
               (u in s.threads && OwesFor(s, s.threads[u].pc, s.threads[u].attempt, p))
    requires t in s.threads && th == s.threads[t]
    ensures u in PurchaseAfter(s, t, e.op, p).book.owed <==>
              if u == t then OwesFor(s, e.pc, e.attempt, p)
              else u in s.threads && OwesFor(s, s.threads[u].pc, s.threads[u].attempt, p)
  {
  }

  // ----- every action keeps the invariant

  // Rows do not look at threads.
  lemma RowsIgnoreThreads(s: State, threads: map<Id, Thread>, born: set<Id>)
    requires Rows(s)
    ensures Rows(s.(threads := threads, born := born))
  {
    var s' := s.(threads := threads, born := born);
    UntouchedAttempts(s, s', 0);
    forall q, a | q in s'.purchases ensures LiveOk(s', q, a) {
      assert LiveOk(s, q, a);
    }
  }

  lemma OpenAfterEffect(s: State, t: Id, e: Effect, p: Id, u: Id)
    requires Inv(s) && t in s.threads && EffectOk(s, t, s.threads[t], e) && p in s.purchases
    ensures p in AfterCall(s, t, e).purchases && OpenOk(AfterCall(s, t, e), p, u)
  {
    assert OpenOk(s, p, u);
    PerformPurchase(s, t, e.op, p);
    OpenAfterCall(s, t, s.threads[t], e, p, u);
  }

  lemma OwedAfterEffect(s: State, t: Id, e: Effect, a: Id, u: Id)
    requires Inv(s) && t in s.threads && EffectOk(s, t, s.threads[t], e) && a in s.attempts
    ensures a in AfterCall(s, t, e).attempts && OwedOk(AfterCall(s, t, e), a, u)
  {
    assert OwedOk(s, a, u);
    PerformAttempt(s, t, e.op, a);
    OwedAfterCall(s, t, s.threads[t], e, a, u);
  }

  lemma PurchaseOwedAfterEffect(s: State, t: Id, e: Effect, p: Id, u: Id)
    requires Inv(s) && t in s.threads && EffectOk(s, t, s.threads[t], e) && p in s.purchases
    requires Grows(s, Perform(s, t, e.op), t)
    ensures p in AfterCall(s, t, e).purchases && PurchaseOwedOk(AfterCall(s, t, e), p, u)
  {
    assert PurchaseOwedOk(s, p, u);
    if u in s.threads && OwedPc(s.threads[u].pc) {
      assert ThreadOk(s, u, s.threads[u]);
      assert s.threads[u].attempt in s.attempts;
    }
    hide Inv, Rows, Threads, ThreadOk, PurchaseAfter;
    PerformPurchase(s, t, e.op, p);
    PurchaseOwedAfterCall(s, t, s.threads[t], e, p, u);
  }

  lemma OnlyInsertAdds(s: State, t: Id, op: Op, a: Id)
    requires OpOk(s, t, op) && a !in s.attempts && a in Perform(s, t, op).attempts
    ensures op.InsertAttempt? && Perform(s, t, op).attempts[a].book.owed == {}
  {
  }

  lemma NobodyOwes(s: State, a: Id, u: Id)
    requires Inv(s) && a !in s.attempts && u in s.threads && s.threads[u].attempt == a
    ensures !OwedPc(s.threads[u].pc)
  {
    assert ThreadOk(s, u, s.threads[u]);
  }

  // An inserted attempt starts without owed refunds.
  lemma NewAttemptOwesNothing(s: State, t: Id, e: Effect, a: Id, u: Id)
    requires Inv(s) && t in s.threads && EffectOk(s, t, s.threads[t], e)
    requires a !in s.attempts && a in AfterCall(s, t, e).attempts
    ensures OwedOk(AfterCall(s, t, e), a, u)
  {
    OnlyInsertAdds(s, t, e.op, a);
    if u in s.threads && s.threads[u].attempt == a { NobodyOwes(s, a, u); }
    if s.threads[t].attempt == a { NobodyOwes(s, a, t); }
  }

  // No call adds a purchase.
  lemma PerformAddsNoPurchase(s: State, t: Id, op: Op)
    requires OpOk(s, t, op)
    ensures Perform(s, t, op).purchases.Keys == s.purchases.Keys
    ensures Perform(s, t, op).threads == s.threads && Perform(s, t, op).born == s.born
  {
  }

  lemma CallKeepsThreads(s: State, t: Id, e: Effect)
    requires Inv(s) && t in s.threads && EffectOk(s, t, s.threads[t], e)
    requires Rows(Perform(s, t, e.op)) && Grows(s, Perform(s, t, e.op), t)
    ensures forall u | u in AfterCall(s, t, e).threads :: ThreadOk(AfterCall(s, t, e), u, AfterCall(s, t, e).threads[u])
  {
    var s1, s' := Perform(s, t, e.op), AfterCall(s, t, e);
    forall u | u in s'.threads ensures ThreadOk(s', u, s'.threads[u]) {
      if u != t {
        assert ThreadOk(s, u, s.threads[u]);
        ThreadStays(s, s1, t, u, s.threads[u]);
      }
      ThreadIgnoresThreads(s1, s'.threads, s'.born, u, s'.threads[u]);
    }
  }

  lemma ThreadIgnoresThreads(s: State, threads: map<Id, Thread>, born: set<Id>, u: Id, th: Thread)
    requires ThreadOk(s, u, th)
    ensures ThreadOk(s.(threads := threads, born := born), u, th)
  {
  }

  lemma CallKeepsBooks(s: State, t: Id, e: Effect)
    requires Inv(s) && t in s.threads && EffectOk(s, t, s.threads[t], e)
    requires Grows(s, Perform(s, t, e.op), t)
    ensures var s' := AfterCall(s, t, e);
            && (forall p, u | p in s'.purchases :: OpenOk(s', p, u))
            && (forall a, u | a in s'.attempts :: OwedOk(s', a, u))
            && (forall p, u | p in s'.purchases :: PurchaseOwedOk(s', p, u))
  {
    var s' := AfterCall(s, t, e);
    PerformAddsNoPurchase(s, t, e.op);
    forall p, u | p in s'.purchases ensures OpenOk(s', p, u) {
      OpenAfterEffect(s, t, e, p, u);
    }
    forall p, u | p in s'.purchases ensures PurchaseOwedOk(s', p, u) {
      PurchaseOwedAfterEffect(s, t, e, p, u);
    }
    forall a, u | a in s'.attempts ensures OwedOk(s', a, u) {
      if a in s.attempts { OwedAfterEffect(s, t, e, a, u); } else { NewAttemptOwesNothing(s, t, e, a, u); }
    }
  }

  lemma CallKeeps(s: State, t: Id, e: Effect)
    requires Inv(s) && t in s.threads && EffectOk(s, t, s.threads[t], e)
    ensures Inv(AfterCall(s, t, e)) && Grows(s, AfterCall(s, t, e), t)
  {
    var s1, s' := Perform(s, t, e.op), AfterCall(s, t, e);
    PerformKeeps(s, t, e.op);
    PerformAddsNoPurchase(s, t, e.op);
    RowsIgnoreThreads(s1, s'.threads, s'.born);
    CallKeepsThreads(s, t, e);
    CallKeepsBooks(s, t, e);
  }

  lemma StepKeeps(s: State, t: Id, c: Choice)
    requires Inv(s) && t in s.threads
    ensures Inv(StepState(s, t, c)) && Grows(s, StepState(s, t, c), t)
  {
    StepEffect(s, t, c);
    CallKeeps(s, t, Code(s, s.threads[t], c));
  }

  // A thread that is about to disappear owes nothing.
  lemma RemoveKeeps(s: State, t: Id)
    requires Inv(s) && t in s.threads && s.threads[t].pc.Done?
    ensures Inv(s.(threads := Remove(s.threads, t)))
  {
    var s' := s.(threads := Remove(s.threads, t));
    RowsIgnoreThreads(s, s'.threads, s'.born);
    forall u | u in s'.threads ensures ThreadOk(s', u, s'.threads[u]) {
      assert ThreadOk(s, u, s.threads[u]);
      ThreadIgnoresThreads(s, s'.threads, s'.born, u, s.threads[u]);
    }
    forall p, u | p in s'.purchases ensures OpenOk(s', p, u) { assert OpenOk(s, p, u); }
    forall a, u | a in s'.attempts ensures OwedOk(s', a, u) { assert OwedOk(s, a, u); }
    forall p, u | p in s'.purchases ensures PurchaseOwedOk(s', p, u) { assert PurchaseOwedOk(s, p, u); }
  }

  lemma CrashEffect(s: State, t: Id)
    requires Inv(s) && t in s.threads
    ensures EffectOk(s, t, s.threads[t], Do(s.threads[t], CrashOp(s.threads[t]), Done(false)))
  {
    var th := s.threads[t];
    assert ThreadOk(s, t, th);
    forall p | p in s.purchases ensures t in s.purchases[p].book.open <==> OpenOf(th.pc) == Some(p) {
      assert OpenOk(s, p, t);
    }
  }

  lemma CrashKeeps(s: State, t: Id)
    requires Inv(s) && t in s.threads
    ensures Inv(CrashState(s, t)) && Grows(s, CrashState(s, t), t)
  {
    var e := Do(s.threads[t], CrashOp(s.threads[t]), Done(false));
    CrashEffect(s, t);
    CallKeeps(s, t, e);
    var s1 := AfterCall(s, t, e);
    RemoveKeeps(s1, t);
    assert Remove(s1.threads, t) == Remove(s.threads, t);
  }

  lemma DropJobKeepsRows(s: State, j: Id)
    requires Rows(s)
    ensures Rows(s.(jobs := Remove(s.jobs, j)))
  {
    var s' := s.(jobs := Remove(s.jobs, j));
    UntouchedAttempts(s, s', 0);
    forall q, a | q in s'.purchases ensures LiveOk(s', q, a) { assert LiveOk(s, q, a); }
  }

  lemma DropJobKeeps(s: State, j: Id)
    requires Inv(s)
    ensures Inv(s.(jobs := Remove(s.jobs, j)))
  {
    var s' := s.(jobs := Remove(s.jobs, j));
    DropJobKeepsRows(s, j);
    forall u | u in s'.threads ensures ThreadOk(s', u, s'.threads[u]) { assert ThreadOk(s, u, s.threads[u]); }
    forall p, u | p in s'.purchases ensures OpenOk(s', p, u) { assert OpenOk(s, p, u); }
    forall a, u | a in s'.attempts ensures OwedOk(s', a, u) { assert OwedOk(s, a, u); }
    forall p, u | p in s'.purchases ensures PurchaseOwedOk(s', p, u) { assert PurchaseOwedOk(s, p, u); }
  }

  lemma ReturnKeeps(s: State, t: Id)
    requires Inv(s) && t in s.threads && s.threads[t].pc.Done?
    ensures Inv(ReturnState(s, t))
  {
    RemoveKeeps(s, t);
    var th := s.threads[t];
    if th.job.Some? && th.pc.ok {
      DropJobKeeps(s.(threads := Remove(s.threads, t)), th.job.value.id);
    }
  }

  lemma StartKeeps(s: State, t: Id, th: Thread)
    requires Inv(s) && t !in s.born && OpenOf(th.pc) == None && !OwedPc(th.pc) && ThreadOk(s, t, th)
    ensures Inv(Start(s, t, th))
  {
    var s' := Start(s, t, th);
    RowsIgnoreThreads(s, s'.threads, s'.born);
    forall u | u in s'.threads ensures ThreadOk(s', u, s'.threads[u]) {
      if u != t { assert ThreadOk(s, u, s.threads[u]); }
      ThreadIgnoresThreads(s, s'.threads, s'.born, u, s'.threads[u]);
    }
    forall p, u | p in s'.purchases ensures OpenOk(s', p, u) { assert OpenOk(s, p, u); }
    forall a, u | a in s'.attempts ensures OwedOk(s', a, u) { assert OwedOk(s, a, u); }
    forall p, u | p in s'.purchases ensures PurchaseOwedOk(s', p, u) { assert PurchaseOwedOk(s, p, u); }
  }

  lemma BuyKeepsRows(s: State, p: Id, user: Id, grant: nat)
    requires Inv(s) && p !in s.purchases
    ensures Rows(Apply(s, Buy(p, user, grant)))
  {
    var s' := Apply(s, Buy(p, user, grant));
    UntouchedAttempts(s, s', 0);
    forall q, a | q in s'.purchases ensures LiveOk(s', q, a) {
      if q in s.purchases { assert LiveOk(s, q, a); }
      if a in s.attempts { assert AttemptOk(s, a); }
    }
  }

  lemma BuyKeeps(s: State, p: Id, user: Id, grant: nat)
    requires Inv(s)
    ensures Inv(Apply(s, Buy(p, user, grant)))
  {
    if p !in s.purchases {
      var s' := Apply(s, Buy(p, user, grant));
      BuyKeepsRows(s, p, user, grant);
      forall u | u in s'.threads ensures ThreadOk(s', u, s'.threads[u]) {
        assert ThreadOk(s, u, s.threads[u]);
        EquippedStays(s, s', 0, s.threads[u].attempt);
      }
      forall q, u | q in s'.purchases ensures OpenOk(s', q, u) && PurchaseOwedOk(s', q, u) {
        if q in s.purchases { assert OpenOk(s, q, u) && PurchaseOwedOk(s, q, u); }
        if u in s.threads { assert ThreadOk(s, u, s.threads[u]); }
      }
      forall a, u | a in s'.attempts ensures OwedOk(s', a, u) { assert OwedOk(s, a, u); }
    }
  }

  lemma ApplyKeeps(s: State, act: Action)
    requires Inv(s)
    ensures Inv(Apply(s, act))
  {
    match act
    case Buy(p, user, grant) => BuyKeeps(s, p, user, grant);
    case Arrive(t, call) => if t !in s.born { StartKeeps(s, t, Entry(call)); }
    case Deliver(t, j) =>
      if t !in s.born && j in s.jobs {
        StartKeeps(s, t, Delivered(s, j));
      }
    case Step(t, c) => if t in s.threads { StepKeeps(s, t, c); }
    case Crash(t) => if t in s.threads { CrashKeeps(s, t); }
    case Return(t) => if t in s.threads && s.threads[t].pc.Done? { ReturnKeeps(s, t); }
  }

  lemma {:induction false} RunKeeps(s: State, acts: seq<Action>)
    requires Inv(s)
    ensures Inv(Run(s, acts))
    decreases |acts|
  {
    if acts != [] {
      ApplyKeeps(s, acts[0]);
      RunKeeps(Apply(s, acts[0]), acts[1..]);
    }
  }

  lemma InitialOk()
    ensures Inv(INITIAL)
  {
  }
}
