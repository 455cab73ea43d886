/**
 What the handlers make of the tables when no call fails and nobody else runs. It is said on the tables
 alone, apart from the protocol's own table operations, so that neither can be wrong unnoticed.
 */
module TableEffects {
  import opened Wrappers
  import opened AttemptLifecycle
  import opened AttemptProtocol
  import opened ProtocolInvariant
  import opened Platform
  import G = Grading

  // The outcome of asking the provider for machines: an error before it is asked, its refusal, or
  // the workstation's address and the generated key.
  datatype Built = NotAsked | Refused | Up(ip: string, key: string)

  // ----- one row at a time

  function Moved(d: Tables, a: Id, st: Status): Tables {
    if a in d.attempts then d.(attempts := d.attempts[a := d.attempts[a].(status := st)]) else d
  }

  function Queued(d: Tables, j: Id, kind: JobKind, a: Id): Tables {
    d.(jobs := d.jobs[j := Job(kind, a)])
  }

  function Counted(d: Tables, p: Id, n: int): Tables {
    if p in d.purchases
    then d.(purchases := d.purchases[p := d.purchases[p].(remaining := d.purchases[p].remaining + n)])
    else d
  }

  function WithScore(d: Tables, a: Id, score: Score): Tables {
    if a in d.attempts then d.(attempts := d.attempts[a := d.attempts[a].(score := Some(score))]) else d
  }

  function EnvironmentMoved(d: Tables, e: Id, st: EnvironmentStatus): Tables {
    if e in d.environments then d.(environments := d.environments[e := d.environments[e].(status := st)]) else d
  }

  function SessionOpened(d: Tables, x: Id): Tables {
    if x in d.sessions then d.(sessions := d.sessions[x := d.sessions[x].(firstOpened := true)]) else d
  }

  // ----- what a request or a handler makes of the tables

  predicate HasStatus(d: Tables, a: Id, st: Status) {
    a in d.attempts && d.attempts[a].status == st
  }

  predicate BoughtBy(d: Tables, p: Id, user: Id) {
    p in d.purchases && d.purchases[p].user == user
  }

  predicate MayRequest(d: Tables, user: Id, p: Id, expired: bool) {
    BoughtBy(d, p, user) && !expired && d.purchases[p].remaining > 0
  }

  function WithAttempt(d: Tables, n: Id, p: Id): Tables {
    d.(attempts := d.attempts[n := AttemptRow(p, AttemptRequested, None)])
  }

  // One less on the counter, a requested attempt n and its provisioning job.
  function Requested(d: Tables, n: Id, p: Id): Tables {
    Queued(WithAttempt(Counted(d, p, -1), n, p), n + 1, ProvisionJob, n)
  }

  // A failed try: the cleanup is queued and the attempt is given back.
  function GivenUp(d: Tables, n: Id, a: Id): Tables
    requires a in d.attempts
  {
    Counted(Queued(Moved(d, a, ProvisionFailed), n, CleanupJob, a), d.attempts[a].purchase, 1)
  }

  function WithEnvironment(d: Tables, n: Id, a: Id, ip: string, key: string): Tables {
    d.(environments := d.environments[n := Environment(a, EnvReady, Some(ip), Some(key))])
  }

  // What provisioning leads to, by the provider's answer and the playbook's.
  function Provisioned(d: Tables, n: Id, a: Id, answer: Built, plays: bool): Tables
    requires a in d.attempts
  {
    match answer
    case NotAsked => d
    case Refused => GivenUp(d, n, a)
    case Up(ip, key) =>
      var e := WithEnvironment(d, n, a, ip, key);
      if plays then Moved(e.(sessions := e.sessions[n + 1 := Session(a, n, n + 1, false)]), a, EnvironmentReady)
      else GivenUp(e, n + 1, a)
  }

  predicate Finished(st: Status) {
    st == Submitted || st == Expired || st == ExpiredRunning
  }

  predicate IsFinished(d: Tables, a: Id) {
    a in d.attempts && Finished(d.attempts[a].status)
  }

  // The attempt is scored with these items and its cleanup is queued.
  function GradedTables(d: Tables, n: Id, a: Id, items: seq<G.Item>): Tables
    requires a in d.attempts
  {
    var score := Score(G.Points(G.PassedOnes(items)), G.Points(items));
    Queued(d.(attempts := d.attempts[a := AttemptRow(d.attempts[a].purchase, Scored, Some(score))]), n, CleanupJob, a)
  }

  function CleanedUp(d: Tables, e: Id, a: Id, destroyed: bool): Tables {
    if !destroyed then EnvironmentMoved(d, e, EnvFailed)
    else
      var done := EnvironmentMoved(d, e, EnvDestroyed);
      if HasStatus(d, a, CleanupPending) then Moved(done, a, Destroyed) else done
  }

  lemma EnvironmentMovedTwice(d: Tables, e: Id, st: EnvironmentStatus, to: EnvironmentStatus)
    ensures EnvironmentMoved(EnvironmentMoved(d, e, st), e, to) == EnvironmentMoved(d, e, to)
  {
  }

  // The student may be at work: the environment is up, and the attempt neither submitted nor expired.
  predicate Active(st: Status) {
    st == EnvironmentReady || st == TerminalOpened || st == Running
  }

  predicate ActiveSession(d: Tables, x: Id) {
    x in d.sessions && d.sessions[x].attempt in d.attempts && Active(d.attempts[d.sessions[x].attempt].status)
  }

  // A first opening leaves the attempt running.
  function OpenedFirst(d: Tables, x: Id, a: Id): Tables {
    if HasStatus(d, a, EnvironmentReady) || HasStatus(d, a, TerminalOpened)
    then Moved(SessionOpened(d, x), a, Running) else SessionOpened(d, x)
  }

  function TerminalGiven(d: Tables, x: Id): Tables
    requires x in d.sessions
  {
    if d.sessions[x].firstOpened then d else OpenedFirst(d, x, d.sessions[x].attempt)
  }

  lemma MovedToWhereItIs(d: Tables, a: Id)
    ensures a in d.attempts ==> Moved(d, a, d.attempts[a].status) == d
  {
    if a in d.attempts { assert d.attempts[a := d.attempts[a]] == d.attempts; }
  }

  lemma MovedTwice(d: Tables, a: Id, st: Status, to: Status)
    ensures Moved(Moved(d, a, st), a, to) == Moved(d, a, to)
  {
  }

  lemma OpenedInSteps(d: Tables, x: Id, a: Id)
    ensures SessionOpened(d, x).attempts == d.attempts
    ensures OpenedFirst(d, x, a) ==
            if HasStatus(d, a, EnvironmentReady) || HasStatus(d, a, TerminalOpened)
            then Moved(SessionOpened(d, x), a, Running) else SessionOpened(d, x)
  {
  }

  lemma OpeningTransitions(d: Tables, a: Id)
    ensures forall st :: ValidTransition(st, TerminalOpened) <==> st == EnvironmentReady
    ensures forall st :: ValidTransition(st, Running) <==> st == TerminalOpened
    ensures Moved(Moved(d, a, TerminalOpened), a, Running) == Moved(d, a, Running)
    ensures a in d.attempts ==>
              && a in Moved(d, a, TerminalOpened).attempts
              && Moved(d, a, TerminalOpened).attempts[a].status == TerminalOpened
  {
    MovedTwice(d, a, TerminalOpened, Running);
  }

  lemma OnlyFinishedIsGraded()
    ensures forall st :: ValidTransition(st, Grading) <==> Finished(st)
  {
  }

  lemma OnlyWaitingFails()
    ensures forall st ::
              ValidTransition(st, ProvisionFailed) <==> st == AttemptRequested || st == EnvironmentProvisioning
  {
  }

  lemma OnlyPendingIsDestroyed()
    ensures forall st :: ValidTransition(st, Destroyed) <==> st == CleanupPending
  {
  }

  lemma GradedInSteps(d: Tables, n: Id, a: Id, items: seq<G.Item>)
    ensures a in d.attempts ==>
              var scored := WithScore(d, a, Score(G.Points(G.PassedOnes(items)), G.Points(items)));
              && a in scored.attempts && scored.attempts[a].status == d.attempts[a].status
              && GradedTables(d, n, a, items) == Queued(Moved(scored, a, Scored), n, CleanupJob, a)
  {
  }

  lemma GradedFromGrading(d: Tables, n: Id, a: Id, items: seq<G.Item>)
    ensures a in d.attempts ==>
              && a in Moved(d, a, Grading).attempts && Moved(d, a, Grading).attempts[a].status == Grading
              && GradedTables(Moved(d, a, Grading), n, a, items) == GradedTables(d, n, a, items)
  {
  }

  // ----- a terminal, in a state of the protocol

  function SessionAddress(s: State, x: Id): Option<string> {
    if x in s.sessions && s.sessions[x].environment in s.environments
    then s.environments[s.sessions[x].environment].workstationIP else None
  }

  // In this state a session carries the token, its attempt is active, and the address is that of its
  // environment, which is one of the attempt.
  ghost predicate TerminalOf(s: State, token: Id, ip: string) {
    exists x | x in s.sessions ::
      && s.sessions[x].token == token
      && s.sessions[x].attempt in s.attempts
      && s.attempts[s.sessions[x].attempt].status in {EnvironmentReady, TerminalOpened, Running}
      && EnvironmentOf(s, s.sessions[x].environment, s.sessions[x].attempt)
      && SessionAddress(s, x) == Some(ip)
  }

  // The session carries the token and its attempt is active.
  predicate Gated(s: State, x: Id, token: Id, a: Id) {
    && x in s.sessions && s.sessions[x].token == token && s.sessions[x].attempt == a
    && a in s.attempts && s.attempts[a].status in {EnvironmentReady, TerminalOpened, Running}
  }

  lemma GatedTerminal(s: State, s': State, x: Id, token: Id, a: Id, ip: string)
    requires Reaches(INITIAL, s) && Reaches(s, s') && Gated(s, x, token, a) && SessionAddress(s', x) == Some(ip)
    ensures TerminalOf(s, token, ip)
  {
    ReachesItself(s);
    ReachedOk(s, s);
    ReachedRowsStay(s, s');
    assert SessionOk(s, s.sessions[x]);
    hide Reaches, Inv;
  }

  // ----- what a sweep makes of the tables

  // A cleanup has been queued for each of these attempts and for no other; nothing else has changed, save
  // rows of attempts.
  ghost predicate Swept(d: Tables, d': Tables, wanted: set<Id>) {
    && d'.purchases == d.purchases && d'.environments == d.environments && d'.sessions == d.sessions
    && (forall j | j in d.jobs :: j in d'.jobs && d'.jobs[j] == d.jobs[j])
    && (forall j | j in d'.jobs && j !in d.jobs :: d'.jobs[j].kind == CleanupJob && d'.jobs[j].attempt in wanted)
    && (forall a | a in wanted :: exists j :: j in d'.jobs && j !in d.jobs && d'.jobs[j] == Job(CleanupJob, a))
  }

  function GivenUpOf(attempts: map<Id, AttemptRow>, done: set<Id>): map<Id, AttemptRow> {
    map a | a in attempts :: if a in done then attempts[a].(status := ProvisionFailed) else attempts[a]
  }

  predicate LiveOf(d: Tables, e: Id, a: Id) {
    e in d.environments && d.environments[e].attempt == a && d.environments[e].status != EnvDestroyed
  }

  ghost predicate SomeLive(d: Tables, a: Id) {
    exists e :: LiveOf(d, e, a)
  }

  // Whichever environment the lookup finds, it is not destroyed.
  ghost predicate AllLive(d: Tables, a: Id) {
    SomeLive(d, a) && forall e | e in d.environments && d.environments[e].attempt == a :: LiveOf(d, e, a)
  }

  // These are attempts with the status whose environment, as a lookup finds it, is not destroyed.
  ghost predicate CleanedOf(d: Tables, st: Status, done: set<Id>) {
    && (forall a | a in done :: HasStatus(d, a, st) && SomeLive(d, a))
    && (forall a | HasStatus(d, a, st) && AllLive(d, a) :: a in done)
  }

  lemma SweptNone(d: Tables)
    ensures Swept(d, d, {}) && GivenUpOf(d.attempts, {}) == d.attempts
  {
  }

  lemma SweptMore(d: Tables, d': Tables, wanted: set<Id>, n: Id, a: Id)
    ensures Swept(d, d', wanted) && n !in d'.jobs ==>
              && Swept(d, Queued(d', n, CleanupJob, a), wanted + {a})
              && Swept(d, Queued(Moved(d', a, ProvisionFailed), n, CleanupJob, a), wanted + {a})
  {
    if Swept(d, d', wanted) && n !in d'.jobs {
      var jobs := d'.jobs[n := Job(CleanupJob, a)];
      forall b | b in wanted + {a} ensures exists j :: j in jobs && j !in d.jobs && jobs[j] == Job(CleanupJob, b) {
        if b == a {
          assert n in jobs && n !in d.jobs && jobs[n] == Job(CleanupJob, b);
        } else {
          var j :| j in d'.jobs && j !in d.jobs && d'.jobs[j] == Job(CleanupJob, b);
          assert j in jobs && j !in d.jobs && jobs[j] == Job(CleanupJob, b);
        }
      }
    }
  }

  lemma GivenUpMore(attempts: map<Id, AttemptRow>, d: Tables, done: set<Id>, a: Id)
    requires d.attempts == GivenUpOf(attempts, done) && a in attempts && attempts[a].status == EnvironmentProvisioning
    ensures GivenUpOf(attempts, done + {a}) ==
            (if HasStatus(d, a, AttemptRequested) || HasStatus(d, a, EnvironmentProvisioning)
             then Moved(d, a, ProvisionFailed) else d).attempts
  {
  }

  lemma SweptTwice(d: Tables, d1: Tables, d2: Tables, a: set<Id>, b: set<Id>)
    requires Swept(d, d1, a) && Swept(d1, d2, b)
    ensures Swept(d, d2, a + b)
  {
    forall x | x in a + b ensures exists j :: j in d2.jobs && j !in d.jobs && d2.jobs[j] == Job(CleanupJob, x) {
      if x in a {
        var j :| j in d1.jobs && j !in d.jobs && d1.jobs[j] == Job(CleanupJob, x);
        assert j in d2.jobs;
      } else {
        var j :| j in d2.jobs && j !in d1.jobs && d2.jobs[j] == Job(CleanupJob, x);
        assert j !in d.jobs;
      }
    }
  }

  lemma GivingUpElsewhere(d: Tables, d': Tables, done: set<Id>, st: Status)
    requires d'.attempts == GivenUpOf(d.attempts, done)
    requires forall a | a in done :: a in d.attempts && d.attempts[a].status == EnvironmentProvisioning
    requires st != EnvironmentProvisioning && st != ProvisionFailed
    ensures forall a :: HasStatus(d', a, st) <==> HasStatus(d, a, st)
  {
  }

  lemma SameLive(d: Tables, d': Tables, a: Id)
    requires d'.environments == d.environments
    ensures SomeLive(d, a) == SomeLive(d', a) && AllLive(d, a) == AllLive(d', a)
  {
    if e :| LiveOf(d, e, a) { assert LiveOf(d', e, a); }
    if e :| LiveOf(d', e, a) { assert LiveOf(d, e, a); }
    forall e ensures LiveOf(d, e, a) == LiveOf(d', e, a) {}
  }

  lemma CleanedElsewhere(d: Tables, d': Tables, st: Status, done: set<Id>)
    requires CleanedOf(d', st, done) && d'.environments == d.environments
    requires forall a :: HasStatus(d', a, st) <==> HasStatus(d, a, st)
    ensures CleanedOf(d, st, done)
  {
    forall a ensures SomeLive(d, a) == SomeLive(d', a) && AllLive(d, a) == AllLive(d', a) {
      SameLive(d, d', a);
    }
  }

  // The work list of a sweep: `done` holds only attempts it may take, and all it must take but those still
  // to come.
  ghost predicate Took(rows: seq<Id>, todo: seq<Id>, done: set<Id>, may: iset<Id>, must: iset<Id>) {
    && (forall a | a in todo :: a in rows)
    && (forall a | a in done :: a in rows && a in may)
    && (forall a | a in rows && a in must :: a in done || a in todo)
  }

  lemma TookNone(rows: seq<Id>, may: iset<Id>, must: iset<Id>)
    ensures Took(rows, rows, {}, may, must)
  {
  }

  lemma TookNext(rows: seq<Id>, todo: seq<Id>, done: set<Id>, may: iset<Id>, must: iset<Id>)
    requires todo != [] && Took(rows, todo, done, may, must)
    ensures todo[0] in rows
    ensures todo[0] in may ==> Took(rows, todo[1..], done + {todo[0]}, may, must)
    ensures todo[0] !in must ==> Took(rows, todo[1..], done, may, must)
  {
    assert todo == [todo[0]] + todo[1..];
  }

  lemma TookAll(rows: seq<Id>, done: set<Id>, may: iset<Id>, must: iset<Id>)
    requires Took(rows, [], done, may, must)
    ensures forall a | a in done :: a in rows && a in may
    ensures forall a | a in rows && a in must :: a in done
  {
  }

  ghost function MayClean(d: Tables): iset<Id> { iset a | SomeLive(d, a) }

  ghost function MustClean(d: Tables): iset<Id> { iset a | AllLive(d, a) }

  lemma TookTheLive(d: Tables, st: Status, rows: seq<Id>, done: set<Id>)
    requires Took(rows, [], done, MayClean(d), MustClean(d))
    requires forall a :: a in rows <==> HasStatus(d, a, st)
    ensures CleanedOf(d, st, done)
  {
    TookAll(rows, done, MayClean(d), MustClean(d));
  }

  // One turn of the loop, which found the attempt live or not.
  lemma TookIfLive(d: Tables, now: Tables, rows: seq<Id>, todo: seq<Id>, done: set<Id>, live: bool)
    requires todo != [] && Took(rows, todo, done, MayClean(d), MustClean(d)) && now.environments == d.environments
    requires (live ==> SomeLive(now, todo[0])) && (AllLive(now, todo[0]) ==> live)
    ensures Took(rows, todo[1..], if live then done + {todo[0]} else done, MayClean(d), MustClean(d))
  {
    TookNext(rows, todo, done, MayClean(d), MustClean(d));
    SameLive(d, now, todo[0]);
  }
}
