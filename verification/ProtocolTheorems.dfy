/**
 What holds in every reachable state, for every interleaving, every pattern of failing calls and
 crashes, and with TransitionAttempt cut between its read and its write.
 */
module ProtocolTheorems {
  import opened Wrappers
  import opened AttemptLifecycle
  import opened AttemptProtocol
  import opened ProtocolInvariant
  import opened ProtocolLedger

  ghost function Reach(acts: seq<Action>): State {
    Run(INITIAL, acts)
  }

  lemma ReachOk(acts: seq<Action>)
    ensures Inv(Reach(acts))
  {
    InitialOk();
    RunKeeps(INITIAL, acts);
  }

  // The counter is never negative, and every charge is an accepted attempt, given back, lost with its
  // compensation, or still open.
  lemma CounterConserved(acts: seq<Action>, p: Id)
    requires p in Reach(acts).purchases
    ensures var row := Reach(acts).purchases[p]; var b := row.book;
            && row.remaining >= 0
            && row.remaining == b.grant - b.charges + b.returned + b.refunds
            && b.charges == b.accepted + b.returned + b.lost + |b.open|
  {
    ReachOk(acts);
    assert PurchaseOk(Reach(acts).purchases[p]);
  }

  // However many requests race past a stale check of the counter, the purchase never has more accepted
  // attempts than were granted or refunded. Nothing but the counter, open and lost charges separates the
  // two sides.
  lemma AcceptedWithinGrant(acts: seq<Action>, p: Id)
    requires p in Reach(acts).purchases
    ensures var row := Reach(acts).purchases[p]; var b := row.book;
            && row.remaining + b.accepted + b.lost + |b.open| == b.grant + b.refunds
            && |AcceptedOf(Reach(acts), p)| == b.accepted <= b.grant + b.refunds
  {
    CounterConserved(acts, p);
    ReachedLedger(acts);
    assert CountOk(Reach(acts), p);
  }

  // A request that fails and manages to compensate leaves no trace in the counter: once nothing is
  // open or lost, only accepted attempts and refunds have moved it.
  lemma FailedRequestsCostNothing(acts: seq<Action>, p: Id)
    requires p in Reach(acts).purchases
    requires Reach(acts).purchases[p].book.open == {} && Reach(acts).purchases[p].book.lost == 0
    ensures var row := Reach(acts).purchases[p];
            row.remaining == row.book.grant - |AcceptedOf(Reach(acts), p)| + row.book.refunds
  {
    AcceptedWithinGrant(acts, p);
  }

  // The open charges are exactly the requests between a charge and its settlement.
  lemma OpenChargesAreRequests(acts: seq<Action>, p: Id, t: Id)
    requires p in Reach(acts).purchases
    ensures t in Reach(acts).purchases[p].book.open <==>
              t in Reach(acts).threads && OpenOf(Reach(acts).threads[t].pc) == Some(p)
  {
    ReachOk(acts);
    assert OpenOk(Reach(acts), p, t);
  }

  // The handlers only ever write ten of the statuses: nothing reaches cleanup_pending, destroyed,
  // cleanup_failed, expired_running or expired_before_start.
  lemma StatusesReached(acts: seq<Action>, a: Id)
    requires a in Reach(acts).attempts
    ensures Reach(acts).attempts[a].status in
              {AttemptRequested, EnvironmentProvisioning, ProvisionFailed, EnvironmentReady,
               TerminalOpened, Running, Submitted, Expired, Grading, Scored}
  {
    ReachOk(acts);
    assert AttemptOk(Reach(acts), a);
  }

  // An attempt whose environment is said to be up has an environment row with an address and a key,
  // and a session whose environment row is one of its own.
  lemma LateAttemptIsEquipped(acts: seq<Action>, a: Id)
    requires a in Reach(acts).attempts && Late(Reach(acts).attempts[a].status)
    ensures var s := Reach(acts);
            && (exists e | e in s.environments ::
                  EnvironmentOf(s, e, a) && s.environments[e].workstationIP.Some? && s.environments[e].privateKey.Some?)
            && (exists x | x in s.sessions ::
                  SessionOf(s, x, a) && EnvironmentOf(s, s.sessions[x].environment, a))
  {
    ReachOk(acts);
    var s := Reach(acts);
    assert AttemptOk(s, a);
    var e :| e in s.environments && EnvironmentOf(s, e, a);
    assert EnvironmentOk(s.environments[e]);
    var x :| x in s.sessions && SessionOf(s, x, a);
    assert SessionOk(s, s.sessions[x]);
  }

  // The statuses at which an attempt is sure to have an environment and is still to be handed in.
  lemma AtWorkExactlyWhen(st: Status)
    ensures Late(st) && StillToHandIn(st) <==> st in {EnvironmentReady, TerminalOpened, Running}
  {
    StillToHandInExactlyWhen(st);
  }

  // Grading, once started, finds an environment with an address unless the store itself fails:
  // the lookup is never empty and the address is never missing.
  lemma GradingFindsEnvironment(acts: seq<Action>, t: Id, c: Choice)
    requires t in Reach(acts).threads && Reach(acts).threads[t].pc == Grade(Fetch) && c.ok
    ensures var s := Reach(acts); var th := s.threads[t];
            && HasEnvironment(s, th.attempt)
            && (EnvironmentOf(s, c.row, th.attempt) ==> Code(s, th, c).pc == Grade(WriteScore))
  {
    ReachOk(acts);
    var s := Reach(acts);
    assert ThreadOk(s, t, s.threads[t]);
    assert forall e | e in s.environments :: EnvironmentOk(s.environments[e]);
  }

  // The terminal gateway, past its status gate, finds the session's environment with an address, and
  // it is the environment of the attempt whose status was checked.
  lemma GatewayFindsEnvironment(acts: seq<Action>, t: Id, x: Id, firstOpened: bool)
    requires t in Reach(acts).threads
    requires Reach(acts).threads[t].pc == Client(LoadEnvironment(x, firstOpened))
    ensures var s := Reach(acts);
            && x in s.sessions
            && EnvironmentOf(s, s.sessions[x].environment, s.threads[t].attempt)
            && s.environments[s.sessions[x].environment].workstationIP.Some?
  {
    ReachOk(acts);
    var s := Reach(acts);
    assert ThreadOk(s, t, s.threads[t]);
    assert SessionOk(s, s.sessions[x]);
    assert EnvironmentOk(s.environments[s.sessions[x].environment]);
  }

  // ----- an attempt whose first enqueue failed

  lemma PerformKeepsOrphan(s: State, t: Id, op: Op, a: Id)
    requires OpOk(s, t, op) && a in s.attempts && s.attempts[a].book.orphan
    ensures a in Perform(s, t, op).attempts && Perform(s, t, op).attempts[a].book.orphan
  {
  }

  lemma ApplyKeepsOrphan(s: State, act: Action, a: Id)
    requires Inv(s) && a in s.attempts && s.attempts[a].book.orphan
    ensures a in Apply(s, act).attempts && Apply(s, act).attempts[a].book.orphan
  {
    if act.Step? && act.thread in s.threads {
      StepEffect(s, act.thread, act.choice);
      PerformKeepsOrphan(s, act.thread, Code(s, s.threads[act.thread], act.choice).op, a);
    } else if act.Crash? && act.thread in s.threads {
      CrashEffect(s, act.thread);
      PerformKeepsOrphan(s, act.thread, CrashOp(s.threads[act.thread]), a);
    }
  }

  lemma {:induction false} RunKeepsOrphan(s: State, acts: seq<Action>, a: Id)
    requires Inv(s) && a in s.attempts && s.attempts[a].book.orphan
    ensures a in Run(s, acts).attempts && Run(s, acts).attempts[a].book.orphan
    decreases |acts|
  {
    if acts != [] {
      ApplyKeeps(s, acts[0]);
      ApplyKeepsOrphan(s, acts[0], a);
      RunKeepsOrphan(Apply(s, acts[0]), acts[1..], a);
    }
  }

  // An attempt given back because its provisioning job could not be enqueued stays requested for
  // ever, is never refunded again and never gets a provisioning job, whatever happens later.
  lemma OrphanNeverRefunded(acts: seq<Action>, later: seq<Action>, a: Id)
    requires a in Reach(acts).attempts && Reach(acts).attempts[a].book.orphan
    ensures var s := Run(Reach(acts), later);
            && a in s.attempts
            && s.attempts[a].status == AttemptRequested
            && s.attempts[a].book.refunds == 0 && s.attempts[a].book.owed == {}
            && (forall j | j in s.jobs :: s.jobs[j] != Job(ProvisionJob, a))
  {
    ReachOk(acts);
    RunKeepsOrphan(Reach(acts), later, a);
    RunKeeps(Reach(acts), later);
    var s := Run(Reach(acts), later);
    assert AttemptOk(s, a);
    forall u ensures u !in s.attempts[a].book.owed {
      assert OwedOk(s, a, u);
      if u in s.threads { assert ThreadOk(s, u, s.threads[u]); }
    }
  }
}
