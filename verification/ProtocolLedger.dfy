/**
 What the books of purchases and attempts add up to in every reachable state, whatever fails, however
 handlers overlap and however stale a status write is.
 */
module ProtocolLedger {
  import opened Wrappers
  import opened AttemptLifecycle
  import opened AttemptProtocol
  import opened ProtocolInvariant

  function One(b: bool): nat { if b then 1 else 0 }

  // One refund for the first try, one for each reset and one for each stale write of a provisioning
  // handler, of which a try in progress keeps one back.
  predicate RefundsOk(row: Attempt) {
    row.book.refunds + |row.book.owed| + One(Waiting(row.status)) <= 1 + row.book.resets + row.book.stale
  }

  predicate PurchaseRefundsOk(row: Purchase) {
    row.book.refunds + |row.book.owed| + |row.book.live| <= row.book.accepted + row.book.resets + row.book.stale
  }

  // The accepted attempts of a purchase.
  ghost function AcceptedOf(s: State, p: Id): set<Id> {
    set a | a in s.attempts && s.attempts[a].purchase == p && s.attempts[a].book.accepted
  }

  ghost predicate CountOk(s: State, p: Id)
    requires p in s.purchases
  {
    |AcceptedOf(s, p)| == s.purchases[p].book.accepted
  }

  ghost predicate Ledger(s: State) {
    && (forall a | a in s.attempts :: RefundsOk(s.attempts[a]))
    && (forall p | p in s.purchases :: PurchaseRefundsOk(s.purchases[p]))
    && (forall p | p in s.purchases :: CountOk(s, p))
  }

  // A refund, paid or forgone, is owed.
  predicate Owes(s: State, t: Id, a: Id) {
    Owned(s, a) && t in s.attempts[a].book.owed && t in s.purchases[s.attempts[a].purchase].book.owed
  }

  predicate OpPays(s: State, t: Id, op: Op) {
    match op
    case Refund(a) => Owes(s, t, a)
    case Forgo(a) => Owes(s, t, a)
    case _ => true
  }

  lemma AttemptPays(s: State, t: Id, op: Op, a: Id)
    requires a in s.attempts && OpPays(s, t, op) && RefundsOk(s.attempts[a])
    ensures RefundsOk(AttemptAfter(s.attempts[a], t, op, a))
  {
  }

  lemma StatusPays(row: Purchase, t: Id, a: Id, site: Site)
    requires PurchaseRefundsOk(row)
    ensures PurchaseRefundsOk(StatusOn(row, t, a, true, site))
  {
  }

  lemma PurchasePays(s: State, t: Id, op: Op, p: Id)
    requires OpOk(s, t, op) && OpPays(s, t, op)
    requires forall a | a in s.attempts :: AttemptOk(s, a)
    requires forall a | p in s.purchases :: LiveOk(s, p, a)
    requires p in s.purchases && PurchaseRefundsOk(s.purchases[p])
    ensures PurchaseRefundsOk(PurchaseAfter(s, t, op, p))
  {
    match op
    case SetStatus(a, site) => if OnPurchase(s, a, p) { StatusPays(s.purchases[p], t, a, site); }
    case Accept(j, a) => assert LiveOk(s, p, a);
    case _ =>
  }

  // ----- the number of accepted attempts

  predicate AcceptsOn(s: State, op: Op, p: Id) {
    op.Accept? && OnPurchase(s, op.attempt, p)
  }

  lemma AcceptedAfter(s: State, t: Id, op: Op, p: Id)
    requires OpOk(s, t, op)
    ensures AcceptedOf(Perform(s, t, op), p) == AcceptedOf(s, p) + if AcceptsOn(s, op, p) then {op.attempt} else {}
  {
    var s' := Perform(s, t, op);
    forall a ensures a in AcceptedOf(s', p) <==> a in AcceptedOf(s, p) || (AcceptsOn(s, op, p) && a == op.attempt) {
      if a in s.attempts { PerformAttempt(s, t, op, a); }
      else if a in s'.attempts { OnlyInsertAdds(s, t, op, a); }
    }
  }

  lemma CountAfter(s: State, t: Id, op: Op, p: Id)
    requires OpOk(s, t, op) && p in s.purchases && CountOk(s, p)
    ensures p in Perform(s, t, op).purchases && CountOk(Perform(s, t, op), p)
  {
    AcceptedAfter(s, t, op, p);
    PerformPurchase(s, t, op, p);
    if AcceptsOn(s, op, p) { assert op.attempt !in AcceptedOf(s, p); }
  }

  // ----- every action keeps the ledger

  lemma OwedThreadOwes(s: State, t: Id)
    requires Inv(s) && t in s.threads && OwedPc(s.threads[t].pc)
    ensures Owes(s, t, s.threads[t].attempt)
  {
    var a := s.threads[t].attempt;
    assert ThreadOk(s, t, s.threads[t]);
    assert OwedOk(s, a, t) && PurchaseOwedOk(s, s.attempts[a].purchase, t);
  }

  lemma EffectPays(s: State, t: Id, e: Effect)
    requires Inv(s) && t in s.threads && EffectOk(s, t, s.threads[t], e)
    ensures OpPays(s, t, e.op)
  {
    if OwedPc(s.threads[t].pc) { OwedThreadOwes(s, t); }
  }

  lemma NewAttemptPays(s: State, t: Id, op: Op, a: Id)
    requires OpOk(s, t, op) && a !in s.attempts && a in Perform(s, t, op).attempts
    ensures RefundsOk(Perform(s, t, op).attempts[a])
  {
  }

  lemma CallKeepsLedger(s: State, t: Id, e: Effect)
    requires Inv(s) && Ledger(s) && t in s.threads && EffectOk(s, t, s.threads[t], e)
    ensures Ledger(AfterCall(s, t, e))
  {
    var s1, s' := Perform(s, t, e.op), AfterCall(s, t, e);
    EffectPays(s, t, e);
    PerformAddsNoPurchase(s, t, e.op);
    forall a | a in s'.attempts ensures RefundsOk(s'.attempts[a]) {
      if a in s.attempts {
        PerformAttempt(s, t, e.op, a);
        AttemptPays(s, t, e.op, a);
      } else {
        NewAttemptPays(s, t, e.op, a);
      }
    }
    forall p | p in s'.purchases ensures PurchaseRefundsOk(s'.purchases[p]) && CountOk(s', p) {
      PerformPurchase(s, t, e.op, p);
      PurchasePays(s, t, e.op, p);
      CountAfter(s, t, e.op, p);
      assert AcceptedOf(s', p) == AcceptedOf(s1, p);
    }
  }

  // The ledger looks at purchases and attempts only.
  lemma LedgerIgnores(s: State, s': State)
    requires Ledger(s) && s'.purchases == s.purchases && s'.attempts == s.attempts
    ensures Ledger(s')
  {
    forall p | p in s'.purchases ensures CountOk(s', p) {
      assert CountOk(s, p) && AcceptedOf(s', p) == AcceptedOf(s, p);
    }
  }

  lemma NobodyAccepted(s: State, p: Id)
    requires Rows(s) && p !in s.purchases
    ensures AcceptedOf(s, p) == {}
  {
    forall a | a in s.attempts ensures s.attempts[a].purchase != p { assert AttemptOk(s, a); }
  }

  lemma BuyKeepsLedger(s: State, p: Id, user: Id, grant: nat)
    requires Inv(s) && Ledger(s)
    ensures Ledger(Apply(s, Buy(p, user, grant)))
  {
    if p !in s.purchases {
      NobodyAccepted(s, p);
      hide Inv, PurchaseRefundsOk, RefundsOk;
      var s' := Apply(s, Buy(p, user, grant));
      assert PurchaseRefundsOk(s'.purchases[p]) by { NewPurchasePays(user, grant); }
      forall q | q in s'.purchases ensures CountOk(s', q) {
        assert AcceptedOf(s', q) == AcceptedOf(s, q);
        if q in s.purchases { assert CountOk(s, q); }
      }
    }
  }

  lemma NewPurchasePays(user: Id, grant: nat)
    ensures PurchaseRefundsOk(Purchase(user, grant, PurchaseBook(grant, 0, 0, 0, 0, 0, 0, 0, {}, {}, {})))
  {
  }

  lemma CrashKeepsLedger(s: State, t: Id)
    requires Inv(s) && Ledger(s) && t in s.threads
    ensures Ledger(CrashState(s, t))
  {
    var e := Do(s.threads[t], CrashOp(s.threads[t]), Done(false));
    CrashEffect(s, t);
    CallKeepsLedger(s, t, e);
    LedgerIgnores(AfterCall(s, t, e), CrashState(s, t));
  }

  lemma StepKeepsLedger(s: State, t: Id, c: Choice)
    requires Inv(s) && Ledger(s) && t in s.threads
    ensures Ledger(StepState(s, t, c))
  {
    StepEffect(s, t, c);
    hide Inv, Ledger, EffectOk, Code, AfterCall;
    CallKeepsLedger(s, t, Code(s, s.threads[t], c));
  }

  lemma ApplyKeepsLedger(s: State, act: Action)
    requires Inv(s) && Ledger(s)
    ensures Ledger(Apply(s, act))
  {
    hide Inv, Ledger, StepState, CrashState;
    match act
    case Buy(p, user, grant) => BuyKeepsLedger(s, p, user, grant);
    case Step(t, c) => if t in s.threads { StepKeepsLedger(s, t, c); }
    case Crash(t) => if t in s.threads { CrashKeepsLedger(s, t); }
    case _ => LedgerIgnores(s, Apply(s, act));
  }

  lemma {:induction false} RunKeepsLedger(s: State, acts: seq<Action>)
    requires Inv(s) && Ledger(s)
    ensures Inv(Run(s, acts)) && Ledger(Run(s, acts))
    decreases |acts|
  {
    if acts != [] {
      ApplyKeeps(s, acts[0]);
      ApplyKeepsLedger(s, acts[0]);
      RunKeepsLedger(Apply(s, acts[0]), acts[1..]);
    }
  }

  lemma ReachedLedger(acts: seq<Action>)
    ensures Inv(Run(INITIAL, acts)) && Ledger(Run(INITIAL, acts))
  {
    InitialOk();
    RunKeepsLedger(INITIAL, acts);
  }

  // ----- theorems about every run

  // Refunds paid and owed, and the one a try in progress may still cost, are covered by the first try,
  // the resets and the stale writes.
  lemma RefundLaw(acts: seq<Action>, a: Id)
    requires a in Run(INITIAL, acts).attempts
    ensures var row := Run(INITIAL, acts).attempts[a];
            row.book.refunds + |row.book.owed| + One(Waiting(row.status)) <= 1 + row.book.resets + row.book.stale
  {
    ReachedLedger(acts);
    assert RefundsOk(Run(INITIAL, acts).attempts[a]);
  }

  // The counter exceeds the grant by no more than the resets and the stale writes.
  lemma CounterLaw(acts: seq<Action>, p: Id)
    requires p in Run(INITIAL, acts).purchases
    ensures var row := Run(INITIAL, acts).purchases[p];
            row.remaining + row.book.lost + |row.book.open| + |row.book.owed| + |row.book.live|
              <= row.book.grant + row.book.resets + row.book.stale
  {
    ReachedLedger(acts);
    var row := Run(INITIAL, acts).purchases[p];
    assert PurchaseOk(row) && PurchaseRefundsOk(row);
  }

  // An attempt that no stale write hit is refunded at most once and once more for each admin reset.
  lemma RefundsBounded(acts: seq<Action>, a: Id)
    requires a in Run(INITIAL, acts).attempts && Run(INITIAL, acts).attempts[a].book.stale == 0
    ensures var b := Run(INITIAL, acts).attempts[a].book; b.refunds <= 1 + b.resets
  {
    RefundLaw(acts, a);
  }

  // Without stale writes the counter exceeds the grant by no more than the admin resets.
  lemma CounterWithinGrant(acts: seq<Action>, p: Id)
    requires p in Run(INITIAL, acts).purchases && Run(INITIAL, acts).purchases[p].book.stale == 0
    ensures var row := Run(INITIAL, acts).purchases[p];
            0 <= row.remaining <= row.book.grant + row.book.resets
  {
    CounterLaw(acts, p);
    ReachedLedger(acts);
    assert PurchaseOk(Run(INITIAL, acts).purchases[p]);
  }

  // ----- what makes a write stale

  // Only the write half of TransitionAttempt sets a status.
  lemma StatusOrigin(s: State, th: Thread, c: Choice)
    requires Code(s, th, c).op.SetStatus?
    ensures var e := Code(s, th, c);
            && th.pc.TransitionWrite? && c.ok && e.op == SetStatus(th.attempt, th.pc.site)
            && e.pc == AfterSuccess(th.pc.site) && e.attempt == th.attempt
  {
    match th.pc
    case Request(_) =>
    case Provision(_) =>
    case Grade(_) =>
    case Cleanup(_) =>
    case Client(_) =>
    case Sweep(_) =>
    case TransitionRead(_) =>
    case TransitionWrite(_, _) =>
    case Done(_) =>
  }

  // An operation that, if it sets the status of the attempt, follows the table.
  predicate OpFresh(s: State, op: Op, a: Id) {
    op.SetStatus? && op.attempt == a ==>
      a in s.attempts && ValidTransition(s.attempts[a].status, Target(op.site)) && Reached(Target(op.site))
  }

  lemma StepFresh(s: State, t: Id, c: Choice, a: Id)
    requires Inv(s) && t in s.threads && Fresh(s, Step(t, c), a)
    ensures OpFresh(s, Code(s, s.threads[t], c).op, a)
  {
    var th := s.threads[t];
    assert ThreadOk(s, t, th);
    hide Inv;
    if Code(s, th, c).op.SetStatus? { StatusOrigin(s, th, c); }
  }

  // None of the writes of its status came too late.
  predicate NotLate(row: Attempt) {
    row.book.stale == 0 && row.book.lateExits == 0 && row.book.lateGradings == 0
  }

  lemma ValidWriteIsNotLate(row: Attempt, t: Id, site: Site)
    requires ValidTransition(row.status, Target(site)) && Reached(Target(site)) && NotLate(row)
    ensures NotLate(WithStatus(row, t, site))
  {
  }

  lemma OpIsNotLate(s: State, t: Id, op: Op, a: Id)
    requires OpOk(s, t, op) && OpFresh(s, op, a) && (a in s.attempts ==> NotLate(s.attempts[a]))
    ensures a in Perform(s, t, op).attempts ==> NotLate(Perform(s, t, op).attempts[a])
  {
    if a in s.attempts {
      PerformAttempt(s, t, op, a);
      if op.SetStatus? && op.attempt == a { ValidWriteIsNotLate(s.attempts[a], t, op.site); }
    }
  }

  lemma StepStaysFresh(s: State, t: Id, c: Choice, a: Id)
    requires Inv(s) && t in s.threads && Fresh(s, Step(t, c), a) && (a in s.attempts ==> NotLate(s.attempts[a]))
    ensures a in StepState(s, t, c).attempts ==> NotLate(StepState(s, t, c).attempts[a])
  {
    StepEffect(s, t, c);
    StepFresh(s, t, c, a);
    hide Inv, Fresh, Code;
    OpIsNotLate(s, t, Code(s, s.threads[t], c).op, a);
  }

  lemma CrashStaysFresh(s: State, t: Id, a: Id)
    requires Inv(s) && t in s.threads && (a in s.attempts ==> NotLate(s.attempts[a]))
    ensures a in CrashState(s, t).attempts ==> NotLate(CrashState(s, t).attempts[a])
  {
    CrashEffect(s, t);
    hide Inv;
    OpIsNotLate(s, t, CrashOp(s.threads[t]), a);
  }

  lemma ApplyStaysFresh(s: State, act: Action, a: Id)
    requires Inv(s) && Fresh(s, act, a) && (a in s.attempts ==> NotLate(s.attempts[a]))
    ensures a in Apply(s, act).attempts ==> NotLate(Apply(s, act).attempts[a])
  {
    hide Inv, Fresh, NotLate, StepState, CrashState;
    match act
    case Step(t, c) => if t in s.threads { StepStaysFresh(s, t, c, a); }
    case Crash(t) => if t in s.threads { CrashStaysFresh(s, t, a); }
    case _ =>
  }

  lemma {:induction false} RunStaysFresh(s: State, acts: seq<Action>, a: Id)
    requires Inv(s) && FreshRun(s, acts, a) && (a in s.attempts ==> NotLate(s.attempts[a]))
    ensures a in Run(s, acts).attempts ==> NotLate(Run(s, acts).attempts[a])
    decreases |acts|
  {
    if acts != [] {
      ApplyKeeps(s, acts[0]);
      ApplyStaysFresh(s, acts[0], a);
      RunStaysFresh(Apply(s, acts[0]), acts[1..], a);
    }
  }

  // Where every status write of an attempt finds the status that was read, none is stale or late.
  lemma FreshRunIsNotLate(acts: seq<Action>, a: Id)
    requires FreshRun(INITIAL, acts, a) && a in Run(INITIAL, acts).attempts
    ensures NotLate(Run(INITIAL, acts).attempts[a])
  {
    InitialOk();
    RunStaysFresh(INITIAL, acts, a);
  }
}
