/**
 Who may charge a purchase and whose attempt a request makes: a request thread from its arrival on, in every
 run, and the requests that are granted.
 */
module ProtocolRequests {
  import opened Wrappers
  import opened AttemptLifecycle
  import opened AttemptProtocol
  import opened ProtocolInvariant
  import opened Platform
  import opened ProtocolScenes

  predicate OwnedBy(s: State, p: Id, user: Id) {
    p in s.purchases && s.purchases[p].user == user
  }

  // ----- how a request goes on

  // The purchase that a request has been let through to.
  function Entered(pc: Pc): Option<Id> {
    match pc
    case Request(Charge(p)) => Some(p)
    case Request(CreateAttempt(p)) => Some(p)
    case Request(EnqueueFirst(p, _)) => Some(p)
    case Request(Compensate(p)) => Some(p)
    case _ => None
  }

  // A request that has not made its attempt.
  predicate MadeNothing(pc: Pc) {
    pc.Request? && (pc.request.CheckPurchase? || pc.request.Charge? || pc.request.CreateAttempt?)
  }

  predicate GoesOn(s: State, th: Thread, e: Effect) {
    && (e.pc.Request? ==> th.pc.Request? && !e.pc.request.CheckPurchase?)
    && (e.op.InsertAttempt? ==>
          && th.pc == Request(CreateAttempt(e.op.purchase)) && e.attempt == e.op.attempt
          && e.pc == Request(EnqueueFirst(e.op.purchase, e.op.attempt)))
    && (th.pc.Request? ==> e.pc.Request? || e.pc.Done?)
    && (th.pc.Request? && e.pc == Done(true) ==> th.pc.request.EnqueueFirst? && e.attempt == th.attempt)
    && (MadeNothing(e.pc) ==> MadeNothing(th.pc))
    && (Entered(e.pc).Some? ==> Entered(th.pc) == Entered(e.pc) || MayEnter(s, th, Entered(e.pc).value))
  }

  // It was asked for by the user who bought it.
  predicate MayEnter(s: State, th: Thread, p: Id) {
    th.pc.Request? && th.pc.request.CheckPurchase? && th.pc.request.purchase == p && OwnedBy(s, p, th.pc.request.user)
  }

  lemma RequestGoesOn(s: State, th: Thread, pc: RequestPc, c: Choice)
    requires th.pc == Request(pc)
    ensures GoesOn(s, th, RequestCode(s, th, pc, c))
  {
  }

  // A call that has nothing to do with requests.
  predicate NoRequest(e: Effect) {
    !e.pc.Request? && !e.op.InsertAttempt?
  }

  lemma ClientIsNoRequest(s: State, th: Thread, pc: ClientPc, c: Choice)
    requires th.pc == Client(pc)
    ensures NoRequest(ClientCode(s, th, pc, c))
  {
  }

  lemma SweepIsNoRequest(s: State, th: Thread, pc: SweepPc, c: Choice)
    requires th.pc == Sweep(pc)
    ensures NoRequest(SweepCode(s, th, pc, c))
  {
  }

  lemma CallGoesOn(s: State, th: Thread, c: Choice)
    ensures GoesOn(s, th, Code(s, th, c))
  {
    match th.pc
    case Request(pc) => RequestGoesOn(s, th, pc, c);
    case Provision(pc) => assert NoRequest(ProvisionCode(s, th, pc, c));
    case Grade(pc) => assert NoRequest(GradeCode(s, th, pc, c));
    case Cleanup(pc) => assert NoRequest(CleanupCode(s, th, pc, c));
    case Client(pc) => ClientIsNoRequest(s, th, pc, c);
    case Sweep(pc) => SweepIsNoRequest(s, th, pc, c);
    case TransitionRead(_) =>
    case TransitionWrite(_, _) =>
    case Done(_) =>
  }

  // ----- attempts and their makers

  // Every attempt was made by a thread that was there, and a request makes no more than one.
  ghost predicate Makers(s: State) {
    forall a | a in s.attempts :: MakerOk(s, a)
  }

  predicate MakerOk(s: State, a: Id)
    requires a in s.attempts
  {
    var t := s.attempts[a].book.creator;
    t in s.born && (t in s.threads ==> !MadeNothing(s.threads[t].pc))
  }

  lemma StepKeepsMakers(s: State, t: Id, c: Choice)
    requires Inv(s) && Makers(s) && t in s.threads
    ensures Makers(StepState(s, t, c))
  {
    var e, s' := Code(s, s.threads[t], c), StepState(s, t, c);
    CallGoesOn(s, s.threads[t], c);
    StepEffect(s, t, c);
    StepRowsStay(s, t, c);
    PerformAddsNoPurchase(s, t, e.op);
    assert t in s.born;
    hide Inv, Code, EffectOk;
    forall a | a in s'.attempts ensures MakerOk(s', a) {
      if a in s.attempts { assert MakerOk(s, a); } else { OnlyInsertAdds(s, t, e.op, a); }
    }
  }

  lemma CrashKeepsMakers(s: State, t: Id)
    requires Inv(s) && Makers(s) && t in s.threads
    ensures Makers(CrashState(s, t))
  {
    var s' := CrashState(s, t);
    CrashEffect(s, t);
    CrashRowsStay(s, t);
    PerformAddsNoPurchase(s, t, CrashOp(s.threads[t]));
    hide Inv;
    forall a | a in s'.attempts ensures MakerOk(s', a) {
      if a in s.attempts { assert MakerOk(s, a); } else { OnlyInsertAdds(s, t, CrashOp(s.threads[t]), a); }
    }
  }

  lemma OtherKeepsMakers(s: State, act: Action)
    requires Inv(s) && Makers(s) && !act.Step? && !act.Crash?
    ensures Makers(Apply(s, act))
  {
    var s' := Apply(s, act);
    hide Inv, StepState, CrashState;
    forall a | a in s'.attempts ensures MakerOk(s', a) { assert MakerOk(s, a); }
  }

  lemma ApplyKeepsMakers(s: State, act: Action)
    requires Inv(s) && Makers(s)
    ensures Makers(Apply(s, act))
  {
    hide Inv, Makers, StepState, CrashState;
    match act
    case Step(t, c) => if t in s.threads { StepKeepsMakers(s, t, c); }
    case Crash(t) => if t in s.threads { CrashKeepsMakers(s, t); }
    case _ => OtherKeepsMakers(s, act);
  }

  lemma {:induction false} RunKeepsMakers(s: State, acts: seq<Action>)
    requires Inv(s) && Makers(s)
    ensures Inv(Run(s, acts)) && Makers(Run(s, acts))
    decreases |acts|
  {
    if acts != [] {
      ApplyKeeps(s, acts[0]);
      ApplyKeepsMakers(s, acts[0]);
      hide Inv, Makers, Apply;
      RunKeepsMakers(Apply(s, acts[0]), acts[1..]);
    }
  }

  // ----- one request from its arrival on

  // Thread t, which came in as the request of this user for this purchase, is past the check only if the
  // user bought the purchase; and whatever it has made or holds open belongs to that purchase.
  ghost predicate Asks(s: State, t: Id, user: Id, p: Id) {
    && t in s.born
    && (t in s.threads ==> AsksAt(s, s.threads[t], user, p))
    && (forall a | a in s.attempts && s.attempts[a].book.creator == t ::
          s.attempts[a].purchase == p && OwnedBy(s, p, user))
  }

  predicate AsksAt(s: State, th: Thread, user: Id, p: Id) {
    && th.job == None
    && match th.pc
       case Request(CheckPurchase(u, q)) => u == user && q == p
       case Request(EnqueueFirst(q, a)) => q == p && OwnedBy(s, p, user) && a == th.attempt && MadeFor(s, a, p)
       case Request(_) => Entered(th.pc) == Some(p) && OwnedBy(s, p, user)
       case Done(ok) => ok ==> OwnedBy(s, p, user) && MadeFor(s, th.attempt, p)
       case _ => false
  }

  predicate MadeFor(s: State, a: Id, p: Id) {
    a in s.attempts && s.attempts[a].purchase == p
  }

  lemma AsksStays(s: State, s': State, th: Thread, user: Id, p: Id)
    requires RowsStay(s, s') && AsksAt(s, th, user, p)
    ensures AsksAt(s', th, user, p)
  {
  }

  lemma AsksOn(s: State, t: Id, th: Thread, c: Choice, user: Id, p: Id)
    requires OpOk(s, t, Code(s, th, c).op) && AsksAt(s, th, user, p)
    ensures var e := Code(s, th, c); AsksAt(Perform(s, t, e.op), Thread(th.job, e.attempt, e.pc), user, p)
  {
    var e := Code(s, th, c);
    PerformRowsStay(s, t, e.op);
    match th.pc
    case Request(pc) =>
    case Done(_) =>
  }

  lemma AsksIgnoresThreads(s: State, threads: map<Id, Thread>, born: set<Id>, th: Thread, user: Id, p: Id)
    requires AsksAt(s, th, user, p)
    ensures AsksAt(s.(threads := threads, born := born), th, user, p)
  {
  }

  // The rows made by t afterwards are those made before, or the one it has just made for p.
  lemma MadeAfter(s: State, u: Id, op: Op, t: Id, user: Id, p: Id)
    requires OpOk(s, u, op) && (u == t && op.InsertAttempt? ==> op.purchase == p && OwnedBy(s, p, user))
    requires forall a | a in s.attempts && s.attempts[a].book.creator == t ::
               s.attempts[a].purchase == p && OwnedBy(s, p, user)
    ensures var s' := Perform(s, u, op);
            forall a | a in s'.attempts && s'.attempts[a].book.creator == t ::
              s'.attempts[a].purchase == p && OwnedBy(s', p, user)
  {
    var s' := Perform(s, u, op);
    PerformRowsStay(s, u, op);
    forall a | a in s'.attempts && s'.attempts[a].book.creator == t
      ensures s'.attempts[a].purchase == p && OwnedBy(s', p, user)
    {
      if a !in s.attempts { OnlyInsertAdds(s, u, op, a); }
    }
  }

  lemma StepKeepsAsks(s: State, u: Id, c: Choice, t: Id, user: Id, p: Id)
    requires Inv(s) && Asks(s, t, user, p) && u in s.threads
    ensures Asks(StepState(s, u, c), t, user, p)
  {
    var e, s' := Code(s, s.threads[u], c), StepState(s, u, c);
    StepEffect(s, u, c);
    CallGoesOn(s, s.threads[u], c);
    PerformRowsStay(s, u, e.op);
    PerformAddsNoPurchase(s, u, e.op);
    hide Inv, EffectOk;
    if u == t { AsksOn(s, t, s.threads[t], c, user, p); }
    hide Code, RowsStay;
    MadeAfter(s, u, e.op, t, user, p);
    if t in s.threads {
      if u != t { AsksStays(s, Perform(s, u, e.op), s.threads[t], user, p); }
      AsksIgnoresThreads(Perform(s, u, e.op), s'.threads, s'.born, s'.threads[t], user, p);
    }
  }

  lemma CrashKeepsAsks(s: State, u: Id, t: Id, user: Id, p: Id)
    requires Inv(s) && Asks(s, t, user, p) && u in s.threads
    ensures Asks(CrashState(s, u), t, user, p)
  {
    var op, s' := CrashOp(s.threads[u]), CrashState(s, u);
    CrashEffect(s, u);
    PerformRowsStay(s, u, op);
    PerformAddsNoPurchase(s, u, op);
    hide Inv, RowsStay;
    MadeAfter(s, u, op, t, user, p);
    if t in s.threads && u != t {
      AsksStays(s, Perform(s, u, op), s.threads[t], user, p);
      AsksIgnoresThreads(Perform(s, u, op), s'.threads, s'.born, s.threads[t], user, p);
    }
  }

  lemma OtherLeaves(s: State, act: Action, t: Id)
    requires t in s.born && !act.Step? && !act.Crash?
    ensures var s' := Apply(s, act);
            && s'.attempts == s.attempts && t in s'.born
            && (t in s'.threads ==> t in s.threads && s'.threads[t] == s.threads[t])
  {
    hide StepState, CrashState;
  }

  lemma OtherKeepsAsks(s: State, act: Action, t: Id, user: Id, p: Id)
    requires Asks(s, t, user, p) && !act.Step? && !act.Crash?
    ensures Asks(Apply(s, act), t, user, p)
  {
    var s' := Apply(s, act);
    OtherRowsStay(s, act);
    OtherLeaves(s, act, t);
    hide Apply;
    if t in s'.threads { AsksStays(s, s', s.threads[t], user, p); }
  }

  lemma ApplyKeepsAsks(s: State, act: Action, t: Id, user: Id, p: Id)
    requires Inv(s) && Asks(s, t, user, p)
    ensures Asks(Apply(s, act), t, user, p)
  {
    hide Inv, Asks, StepState, CrashState;
    match act
    case Step(u, c) => if u in s.threads { StepKeepsAsks(s, u, c, t, user, p); }
    case Crash(u) => if u in s.threads { CrashKeepsAsks(s, u, t, user, p); }
    case _ => OtherKeepsAsks(s, act, t, user, p);
  }

  lemma {:induction false} RunKeepsAsks(s: State, acts: seq<Action>, t: Id, user: Id, p: Id)
    requires Inv(s) && Asks(s, t, user, p)
    ensures Asks(Run(s, acts), t, user, p)
    decreases |acts|
  {
    if acts != [] {
      ApplyKeeps(s, acts[0]);
      ApplyKeepsAsks(s, acts[0], t, user, p);
      hide Inv, Asks, Apply;
      RunKeepsAsks(Apply(s, acts[0]), acts[1..], t, user, p);
    }
  }

  lemma ReachedMakers(acts: seq<Action>)
    ensures Inv(Run(INITIAL, acts)) && Makers(Run(INITIAL, acts))
  {
    InitialOk();
    RunKeepsMakers(INITIAL, acts);
  }

  // A request that stands at its entry has made nothing.
  lemma EntryAsks(s: State, t: Id, user: Id, p: Id)
    requires Inv(s) && Makers(s) && t in s.threads && s.threads[t] == Entry(CallRequest(user, p))
    ensures Asks(s, t, user, p)
  {
    forall a | a in s.attempts ensures s.attempts[a].book.creator != t { assert MakerOk(s, a); }
  }

  // ----- theorems

  // Whatever else happens after it came in: a request is let through to the charge, the attempt and the
  // compensation of a purchase only for the user who bought it, and what it makes is an attempt of that
  // purchase.
  lemma OnlyTheBuyerCharges(acts: seq<Action>, t: Id, user: Id, p: Id, more: seq<Action>)
    requires t !in Run(INITIAL, acts).born
    ensures var s := Run(Apply(Run(INITIAL, acts), Arrive(t, CallRequest(user, p))), more);
            && (t in s.threads && Entered(s.threads[t].pc).Some? ==>
                  Entered(s.threads[t].pc) == Some(p) && OwnedBy(s, p, user))
            && (forall a | a in s.attempts && s.attempts[a].book.creator == t ::
                  s.attempts[a].purchase == p && OwnedBy(s, p, user))
  {
    ReachedMakers(acts);
    var s0 := Run(INITIAL, acts);
    var s1 := Apply(s0, Arrive(t, CallRequest(user, p)));
    ApplyKeeps(s0, Arrive(t, CallRequest(user, p)));
    ApplyKeepsMakers(s0, Arrive(t, CallRequest(user, p)));
    EntryAsks(s1, t, user, p);
    hide Inv, Makers, Apply;
    RunKeepsAsks(s1, more, t, user, p);
  }

  // Another user's request takes nothing, makes nothing and is refused: in every run its thread stands
  // before the check or has returned an error.
  lemma StrangersAreRefused(acts: seq<Action>, t: Id, user: Id, p: Id, more: seq<Action>)
    requires t !in Run(INITIAL, acts).born
    requires p in Run(INITIAL, acts).purchases && Run(INITIAL, acts).purchases[p].user != user
    ensures var s := Run(Apply(Run(INITIAL, acts), Arrive(t, CallRequest(user, p))), more);
            && (t in s.threads ==> s.threads[t].pc == Request(CheckPurchase(user, p)) || s.threads[t].pc == Done(false))
            && (forall a | a in s.attempts :: s.attempts[a].book.creator != t)
            && (forall q | q in s.purchases :: t !in s.purchases[q].book.open)
  {
    ReachedMakers(acts);
    var s0 := Run(INITIAL, acts);
    var s1 := Apply(s0, Arrive(t, CallRequest(user, p)));
    ApplyKeeps(s0, Arrive(t, CallRequest(user, p)));
    ApplyKeepsMakers(s0, Arrive(t, CallRequest(user, p)));
    EntryAsks(s1, t, user, p);
    assert p in s1.purchases && s1.purchases[p].user != user;
    hide Makers, Apply;
    RunKeepsAsks(s1, more, t, user, p);
    RunRowsStay(s1, more);
    RunKeeps(s1, more);
    StrangerAt(Run(s1, more), t, user, p);
  }

  lemma StrangerAt(s: State, t: Id, user: Id, p: Id)
    requires Inv(s) && Asks(s, t, user, p) && !OwnedBy(s, p, user)
    ensures t in s.threads ==> s.threads[t].pc == Request(CheckPurchase(user, p)) || s.threads[t].pc == Done(false)
    ensures forall a | a in s.attempts :: s.attempts[a].book.creator != t
    ensures forall q | q in s.purchases :: t !in s.purchases[q].book.open
  {
    forall q | q in s.purchases ensures t !in s.purchases[q].book.open { assert OpenOk(s, q, t); }
  }

  // The buyer's own request is granted while something is left: from any reachable state, with every call
  // working and nobody in between, it ends well with an attempt of that purchase and its job.
  lemma OwnRequestIsGranted(acts: seq<Action>, t: Id, user: Id, p: Id, a: Id, j: Id)
    requires var s := Run(INITIAL, acts);
             && t !in s.born && OwnedBy(s, p, user) && s.purchases[p].remaining > 0
             && a !in s.attempts && j !in s.epochs
    ensures exists s' :: Cleanly(Run(INITIAL, acts), s', a) && Granted(Run(INITIAL, acts), s', t, p, a, j)
  {
    hide Cleanly, Run;
    var s := Run(INITIAL, acts);
    var b := PutPurchase(s, p, Charged(s.purchases[p], t));
    var c := PutAttempt(b, a, NewAttempt(t, p));
    CleanlyItself(s, a);
    Arriving(s, s, t, CallRequest(user, p), a);
    Next(s, s, t, Entry(CallRequest(user, p)), Works(0), s, Thread(None, 0, Request(Charge(p))), a);
    Next(s, s, t, Thread(None, 0, Request(Charge(p))), Works(0), b, Thread(None, 0, Request(CreateAttempt(p))), a);
    Next(s, b, t, Thread(None, 0, Request(CreateAttempt(p))), Works(a), c,
         Thread(None, a, Request(EnqueueFirst(p, a))), a);
    GrantsFrom(s, c, t, p, a, j);
  }

  predicate Granted(s: State, s': State, t: Id, p: Id, a: Id, j: Id)
    requires p in s.purchases
  {
    && t in s'.threads && s'.threads[t] == Thread(None, a, Done(true))
    && MadeFor(s', a, p) && s'.attempts[a].status == AttemptRequested
    && p in s'.purchases && s'.purchases[p].remaining == s.purchases[p].remaining - 1
    && s'.jobs == s.jobs[j := Job(ProvisionJob, a)]
  }

  lemma GrantsFrom(s: State, c: State, t: Id, p: Id, a: Id, j: Id)
    requires Cleanly(s, With(c, t, Thread(None, a, Request(EnqueueFirst(p, a)))), a)
    requires j !in c.epochs && c.jobs == s.jobs
    requires MadeFor(c, a, p) && p in c.purchases && c.attempts[a].status == AttemptRequested
    requires p in s.purchases && c.purchases[p].remaining == s.purchases[p].remaining - 1
    ensures exists s' :: Cleanly(s, s', a) && Granted(s, s', t, p, a, j)
  {
    hide Cleanly;
    var d := AcceptOp(c, t, j, a);
    Next(s, c, t, Thread(None, a, Request(EnqueueFirst(p, a))), Works(j), d, Thread(None, a, Done(true)), a);
    assert Granted(s, With(d, t, Thread(None, a, Done(true))), t, p, a, j);
  }

  // What a request that has come to its end leaves, whatever ran beside it.
  lemma RequestEnds(s: State, s': State, t: Id, user: Id, p: Id)
    requires Reaches(INITIAL, s) && Reaches(s, s') && t in s.threads && s.threads[t] == Entry(CallRequest(user, p))
    requires t in s'.threads && s'.threads[t].pc.Done?
    ensures s'.threads[t].pc.ok ==> OwnedBy(s', p, user) && MadeFor(s', s'.threads[t].attempt, p)
    ensures p in s.purchases && s.purchases[p].user != user ==>
              && !s'.threads[t].pc.ok
              && (forall a | a in s'.attempts :: s'.attempts[a].book.creator != t)
              && (forall q | q in s'.purchases :: t !in s'.purchases[q].book.open)
  {
    var acts: seq<Action> :| Run(INITIAL, acts) == s;
    var more: seq<Action> :| Run(s, more) == s';
    ReachedMakers(acts);
    EntryAsks(s, t, user, p);
    hide Makers;
    RunKeepsAsks(s, more, t, user, p);
    RunRowsStay(s, more);
    RunKeeps(s, more);
    if !OwnedBy(s', p, user) { StrangerAt(s', t, user, p); }
  }
}
