/**
 The attempt lifecycle as interleaved handlers over one store and one job queue.

 A running request or job handler is a Thread with a program counter that is cut at every store,
 queue and provider call. One Action is either something arriving (a purchase, a client request, a
 job delivery), one call of one thread, a crash, or a handler returning. The caller of Run picks the
 actions, so a theorem about Run for all action sequences is about every interleaving, every job
 redelivery and every pattern of failing calls. An action that makes no sense in a state (a reused
 ID, an unknown thread) changes nothing.

 The two fields called `book` and the map `epochs` are history: no handler reads them.
 */
module AttemptProtocol {
  import opened Wrappers
  import opened AttemptLifecycle

  type Id = nat

  // ----- rows

  // What happened to one purchase. `open` holds the requests that charged and are not settled yet,
  // `owed` the provisioning failures whose refund is still to come, `live` the accepted attempts
  // that are waiting for their environment. `stale` counts as in AttemptBook.
  datatype PurchaseBook = PurchaseBook(
    grant: nat, charges: nat, returned: nat, lost: nat, accepted: nat, refunds: nat, resets: nat, stale: nat,
    open: set<Id>, owed: set<Id>, live: set<Id>)

  datatype Purchase = Purchase(user: Id, remaining: int, book: PurchaseBook)

  datatype Score = Score(total: int, max: int)

  // What happened to one attempt: `creator` is the request that made it, `exits` counts the moves out of
  // `running` and `gradings` the moves into `grading`, `graders` are the threads that made them,
  // `scoreWrites` counts the writes of a score and `scorers` are the threads that made these. `stale`
  // counts the writes of the provisioning handlers, its start and its failure, that found the attempt no
  // longer waiting for its environment. `lateExits` counts the writes that found it out of `running`
  // already and put it no further than that, `lateGradings` those that found it in `grading` or scored and
  // put it no further than `grading`.
  datatype AttemptBook = AttemptBook(
    creator: Id, accepted: bool, orphan: bool, resets: nat, refunds: nat, stale: nat, owed: set<Id>,
    exits: nat, lateExits: nat, gradings: nat, lateGradings: nat, graders: set<Id>,
    scoreWrites: nat, scorers: set<Id>)

  datatype Attempt = Attempt(purchase: Id, status: Status, score: Option<Score>, book: AttemptBook)

  datatype EnvironmentStatus =
    | EnvProvisioning | EnvReady | EnvActive | EnvDestroying | EnvDestroyed | EnvFailed

  datatype Environment = Environment(
    attempt: Id, status: EnvironmentStatus, workstationIP: Option<string>, privateKey: Option<string>)

  datatype Session = Session(attempt: Id, environment: Id, token: Id, firstOpened: bool)

  datatype JobKind = ProvisionJob | GradeJob | CleanupJob | ExpireJob

  datatype Job = Job(kind: JobKind, attempt: Id)

  // ----- threads

  // Where TransitionAttempt is called from, which fixes its target and what its caller does next.
  datatype Site =
    | BeginProvisioning | MarkReady | MarkFailed | MarkSubmitted | MarkExpired | BeginGrading
    | FinishGrading | OpenTerminal | StartRunning | Reset | MarkStale(rest: seq<Id>) | MarkDestroyed

  function Target(site: Site): Status {
    match site
    case BeginProvisioning => EnvironmentProvisioning
    case MarkReady => EnvironmentReady
    case MarkFailed => ProvisionFailed
    case MarkSubmitted => Submitted
    case MarkExpired => Expired
    case BeginGrading => Grading
    case FinishGrading => Scored
    case OpenTerminal => TerminalOpened
    case StartRunning => Running
    case Reset => AttemptRequested
    case MarkStale(_) => ProvisionFailed
    case MarkDestroyed => Destroyed
  }

  datatype RequestPc =
    | CheckPurchase(user: Id, purchase: Id)
    | Charge(purchase: Id)
    | CreateAttempt(purchase: Id)
    | EnqueueFirst(purchase: Id, attempt: Id)
    | Compensate(purchase: Id)

  datatype ProvisionPc =
    | LoadAttempt
    | CreateVMs
    | SaveEnvironment(ip: string, key: string)
    | RunPlaybook(env: Id)
    | SaveSession(env: Id)
    | FailCleanup
    | FailRefund

  datatype GradePc = LoadForGrading | Fetch | WriteScore | EnqueueCleanup

  datatype CleanupPc =
    | FindEnvironment
    | SetDestroying(env: Id)
    | DestroyVMs(env: Id)
    | SetFailed(env: Id)
    | SetDestroyed(env: Id)

  datatype ClientPc =
    | SubmitLoad(user: Id)
    | SubmitOwner(user: Id, seen: Status)
    | ExpireLoad
    | EnqueueGrade
    | RetryLoad
    | EnqueueProvision
    | EnqueueRegrade
    | DestroyLoad(env: Id)
    | EnqueueDestroy
    | FindSession(token: Id)
    | GateStatus(session: Id, seenOpen: bool)
    | LoadEnvironment(session: Id, seenOpen: bool)
    | StampOpened(session: Id)

  datatype SweepPc =
    | ListStale
    | Stale(todo: seq<Id>)
    | StaleEnqueue(todo: seq<Id>)
    | ListPending
    | Pending(todo: seq<Id>)
    | ListTerminal(last: bool)
    | Terminal(todo: seq<Id>, last: bool)
    | TerminalEnqueue(todo: seq<Id>, last: bool)

  datatype Pc =
    | Request(request: RequestPc)
    | Provision(provision: ProvisionPc)
    | Grade(grade: GradePc)
    | Cleanup(cleanup: CleanupPc)
    | Client(client: ClientPc)
    | Sweep(sweep: SweepPc)
    | TransitionRead(site: Site)                 // TransitionAttempt: read and check
    | TransitionWrite(site: Site, seen: Status)  // ... and write
    | Done(ok: bool)                             // returned; ok is a nil error

  datatype Held = Held(id: Id, kind: JobKind)

  // `job` is the delivery this thread works on; `attempt` is the attempt in its hands.
  datatype Thread = Thread(job: Option<Held>, attempt: Id, pc: Pc)

  datatype State = State(
    purchases: map<Id, Purchase>, attempts: map<Id, Attempt>, environments: map<Id, Environment>,
    sessions: map<Id, Session>, jobs: map<Id, Job>, epochs: map<Id, nat>,
    threads: map<Id, Thread>, born: set<Id>)

  const INITIAL := State(map[], map[], map[], map[], map[], map[], map[], {})

  // What the environment picks for one call: whether it works, a fresh ID, which of several matching
  // rows is returned, a listing, whether the listed attempt is older than the threshold, and values.
  datatype Choice = Choice(
    ok: bool, id: Id, row: Id, rows: seq<Id>, stale: bool, ip: string, key: string, score: Score)

  // ----- effects of single calls on the shared state

  datatype Op =
    | Noop
    | TakeCharge(purchase: Id)
    | InsertAttempt(attempt: Id, purchase: Id)
    | GiveBack(purchase: Id)
    | LoseCharge(purchase: Id)
    | MarkOrphan(attempt: Id)
    | Accept(job: Id, attempt: Id)
    | Enqueue(job: Id, kind: JobKind, attempt: Id)
    | SetStatus(attempt: Id, site: Site)
    | Refund(attempt: Id)
    | Forgo(attempt: Id)
    | SetScore(attempt: Id, score: Score)
    | InsertEnvironment(env: Id, environment: Environment)
    | SetEnvironmentStatus(env: Id, envStatus: EnvironmentStatus)
    | InsertSession(session: Id, row: Session)
    | SetOpened(session: Id)

  predicate Waiting(st: Status) {
    st == AttemptRequested || st == EnvironmentProvisioning
  }

  predicate Owned(s: State, a: Id) {
    a in s.attempts && s.attempts[a].purchase in s.purchases
  }

  function PutPurchase(s: State, p: Id, row: Purchase): State {
    s.(purchases := s.purchases[p := row])
  }

  function PutAttempt(s: State, a: Id, row: Attempt): State {
    s.(attempts := s.attempts[a := row])
  }

  function PutBoth(s: State, p: Id, purchase: Purchase, a: Id, attempt: Attempt): State {
    s.(purchases := s.purchases[p := purchase], attempts := s.attempts[a := attempt])
  }

  // The decrement of the counter, which the store makes only while the counter is positive.
  function Charged(row: Purchase, t: Id): Purchase {
    var b := row.book;
    row.(remaining := row.remaining - 1, book := b.(charges := b.charges + 1, open := b.open + {t}))
  }

  function GivenBack(row: Purchase, t: Id): Purchase {
    var b := row.book;
    row.(remaining := row.remaining + 1, book := b.(returned := b.returned + 1, open := b.open - {t}))
  }

  function ChargeLost(row: Purchase, t: Id): Purchase {
    var b := row.book;
    row.(book := b.(lost := b.lost + 1, open := b.open - {t}))
  }

  function AcceptedOn(row: Purchase, t: Id, a: Id): Purchase {
    var b := row.book;
    row.(book := b.(accepted := b.accepted + 1, open := b.open - {t}, live := b.live + {a}))
  }

  function NewAttempt(t: Id, p: Id): Attempt {
    Attempt(p, AttemptRequested, None, AttemptBook(t, false, false, 0, 0, 0, {}, 0, 0, 0, 0, {}, 0, {}))
  }

  function Orphaned(row: Attempt): Attempt {
    row.(book := row.book.(orphan := true))
  }

  function AcceptedRow(row: Attempt): Attempt {
    row.(book := row.book.(accepted := true))
  }

  // The writes that only a waiting attempt should see.
  predicate ForWaiting(site: Site) {
    site == BeginProvisioning || site == MarkFailed
  }

  // How far an attempt has come on its way to a score.
  function Phase(st: Status): nat {
    match st
    case EnvironmentReady => 1
    case TerminalOpened => 2
    case Running => 3
    case Submitted => 4
    case Expired => 4
    case Grading => 5
    case Scored => 6
    case _ => 0
  }

  function WithStatus(row: Attempt, t: Id, site: Site): Attempt {
    var to := Target(site);
    var b := row.book;
    row.(status := to, book := b.(
      resets := if site == Reset then b.resets + 1 else b.resets,
      stale := if ForWaiting(site) && !Waiting(row.status) then b.stale + 1 else b.stale,
      exits := if to == Submitted || to == Expired then b.exits + 1 else b.exits,
      lateExits := if Phase(row.status) >= 4 >= Phase(to) then b.lateExits + 1 else b.lateExits,
      gradings := if to == Grading then b.gradings + 1 else b.gradings,
      lateGradings := if Phase(row.status) >= 5 >= Phase(to) then b.lateGradings + 1 else b.lateGradings,
      graders := if to == Grading then b.graders + {t} else b.graders,
      owed := if site == MarkFailed then b.owed + {t} else b.owed))
  }

  function StatusOn(row: Purchase, t: Id, a: Id, accepted: bool, site: Site): Purchase {
    var b := row.book;
    row.(book := b.(
      resets := if site == Reset then b.resets + 1 else b.resets,
      stale := if ForWaiting(site) && a !in b.live then b.stale + 1 else b.stale,
      owed := if site == MarkFailed then b.owed + {t} else b.owed,
      live := if accepted && Waiting(Target(site)) then b.live + {a} else b.live - {a}))
  }

  // RestoreAttemptCount when paid is 1; the refund not happening when it is 0.
  function Settled(row: Attempt, t: Id, paid: nat): Attempt {
    var b := row.book;
    row.(book := b.(refunds := b.refunds + paid, owed := b.owed - {t}))
  }

  function SettledOn(row: Purchase, t: Id, paid: nat): Purchase {
    var b := row.book;
    row.(remaining := row.remaining + paid, book := b.(refunds := b.refunds + paid, owed := b.owed - {t}))
  }

  function ScoreWritten(row: Attempt, t: Id, score: Score): Attempt {
    var b := row.book;
    row.(score := Some(score), book := b.(scoreWrites := b.scoreWrites + 1, scorers := b.scorers + {t}))
  }

  function PutJob(s: State, j: Id, kind: JobKind, a: Id): State {
    s.(jobs := s.jobs[j := Job(kind, a)],
       epochs := s.epochs[j := if a in s.attempts then s.attempts[a].book.resets else 0])
  }

  function AcceptOp(s: State, t: Id, j: Id, a: Id): State {
    if Owned(s, a) then
      var row := s.attempts[a];
      var p := row.purchase;
      PutJob(PutBoth(s, p, AcceptedOn(s.purchases[p], t, a), a, AcceptedRow(row)), j, ProvisionJob, a)
    else s
  }

  function SetStatusOp(s: State, t: Id, a: Id, site: Site): State {
    if Owned(s, a) then
      var row := s.attempts[a];
      var p := row.purchase;
      PutBoth(s, p, StatusOn(s.purchases[p], t, a, row.book.accepted, site), a, WithStatus(row, t, site))
    else s
  }

  function SettleOp(s: State, t: Id, a: Id, paid: nat): State {
    if Owned(s, a) then
      var row := s.attempts[a];
      var p := row.purchase;
      PutBoth(s, p, SettledOn(s.purchases[p], t, paid), a, Settled(row, t, paid))
    else s
  }

  function Perform(s: State, t: Id, op: Op): State {
    match op
    case Noop => s
    case TakeCharge(p) =>
      if p in s.purchases && s.purchases[p].remaining > 0 then PutPurchase(s, p, Charged(s.purchases[p], t)) else s
    case InsertAttempt(a, p) => PutAttempt(s, a, NewAttempt(t, p))
    case GiveBack(p) => if p in s.purchases then PutPurchase(s, p, GivenBack(s.purchases[p], t)) else s
    case LoseCharge(p) => if p in s.purchases then PutPurchase(s, p, ChargeLost(s.purchases[p], t)) else s
    case MarkOrphan(a) => if a in s.attempts then PutAttempt(s, a, Orphaned(s.attempts[a])) else s
    case Accept(j, a) => AcceptOp(s, t, j, a)
    case Enqueue(j, kind, a) => PutJob(s, j, kind, a)
    case SetStatus(a, site) => SetStatusOp(s, t, a, site)
    case Refund(a) => SettleOp(s, t, a, 1)
    case Forgo(a) => SettleOp(s, t, a, 0)
    case SetScore(a, score) =>
      if a in s.attempts then PutAttempt(s, a, ScoreWritten(s.attempts[a], t, score)) else s
    case InsertEnvironment(e, env) => s.(environments := s.environments[e := env])
    case SetEnvironmentStatus(e, st) =>
      if e in s.environments then
        s.(environments := s.environments[e := s.environments[e].(status := st)])
      else s
    case InsertSession(x, row) => s.(sessions := s.sessions[x := row])
    case SetOpened(x) =>
      if x in s.sessions then s.(sessions := s.sessions[x := s.sessions[x].(firstOpened := true)]) else s
  }

  // ----- handler code: what one call of a thread does and where it continues

  datatype Effect = Effect(op: Op, pc: Pc, attempt: Id)

  function Stay(th: Thread): Effect { Effect(Noop, th.pc, th.attempt) }

  function Goto(th: Thread, pc: Pc): Effect { Effect(Noop, pc, th.attempt) }

  function Do(th: Thread, op: Op, pc: Pc): Effect { Effect(op, pc, th.attempt) }

  function RequestCode(s: State, th: Thread, pc: RequestPc, c: Choice): Effect {
    match pc
    case CheckPurchase(user, p) =>
      // not found, another user's, expired, or nothing left
      if !c.ok || p !in s.purchases || s.purchases[p].user != user || s.purchases[p].remaining <= 0
      then Goto(th, Done(false))
      else Goto(th, Request(Charge(p)))
    case Charge(p) =>
      if !c.ok || p !in s.purchases || s.purchases[p].remaining <= 0 then Goto(th, Done(false))
      else Do(th, TakeCharge(p), Request(CreateAttempt(p)))
    case CreateAttempt(p) =>
      if !c.ok then Goto(th, Request(Compensate(p)))
      else if c.id in s.attempts then Stay(th)
      else Effect(InsertAttempt(c.id, p), Request(EnqueueFirst(p, c.id)), c.id)
    case EnqueueFirst(p, a) =>
      if !c.ok then Do(th, MarkOrphan(a), Request(Compensate(p)))
      else if c.id in s.epochs then Stay(th)
      else Do(th, Accept(c.id, a), Done(true))
    case Compensate(p) =>
      Do(th, if c.ok then GiveBack(p) else LoseCharge(p), Done(false))
  }

  predicate EnvironmentOf(s: State, e: Id, a: Id) {
    e in s.environments && s.environments[e].attempt == a
  }

  predicate HasEnvironment(s: State, a: Id) {
    exists e | e in s.environments :: EnvironmentOf(s, e, a)
  }

  predicate SessionOf(s: State, x: Id, a: Id) {
    x in s.sessions && s.sessions[x].attempt == a
  }

  predicate HasSession(s: State, a: Id) {
    exists x | x in s.sessions :: SessionOf(s, x, a)
  }

  function ProvisionCode(s: State, th: Thread, pc: ProvisionPc, c: Choice): Effect {
    var a := th.attempt;
    match pc
    case LoadAttempt =>
      if !c.ok || a !in s.attempts then Goto(th, Done(false))
      else if s.attempts[a].status == AttemptRequested then Goto(th, TransitionRead(BeginProvisioning))
      else if s.attempts[a].status == EnvironmentProvisioning then Goto(th, Provision(CreateVMs))
      else Goto(th, Done(true))
    case CreateVMs =>
      // `stale` stands for an error before the provider is reached: key generation or a missing row
      if c.stale then Goto(th, Done(false))
      else if !c.ok then Goto(th, TransitionRead(MarkFailed))
      else Goto(th, Provision(SaveEnvironment(c.ip, c.key)))
    case SaveEnvironment(ip, key) =>
      if !c.ok then Goto(th, TransitionRead(MarkFailed))
      else if c.id in s.environments then Stay(th)
      else Do(th, InsertEnvironment(c.id, Environment(a, EnvReady, Some(ip), Some(key))), Provision(RunPlaybook(c.id)))
    case RunPlaybook(e) =>
      Goto(th, if c.ok then Provision(SaveSession(e)) else TransitionRead(MarkFailed))
    case SaveSession(e) =>
      if !c.ok then Goto(th, TransitionRead(MarkFailed))
      else if c.id in s.sessions then Stay(th)
      else Do(th, InsertSession(c.id, Session(a, e, c.id, false)), TransitionRead(MarkReady))
    case FailCleanup =>
      if !c.ok then Goto(th, Provision(FailRefund))
      else if c.id in s.epochs then Stay(th)
      else Do(th, Enqueue(c.id, CleanupJob, a), Provision(FailRefund))
    case FailRefund =>
      Do(th, if c.ok then Refund(a) else Forgo(a), Done(true))
  }

  function GradeCode(s: State, th: Thread, pc: GradePc, c: Choice): Effect {
    var a := th.attempt;
    match pc
    case LoadForGrading =>
      Goto(th, if c.ok && a in s.attempts then TransitionRead(BeginGrading) else Done(false))
    case Fetch =>
      if !c.ok then Goto(th, Done(false))
      else if !HasEnvironment(s, a) then Goto(th, Done(false))
      else if !EnvironmentOf(s, c.row, a) then Stay(th)
      else if s.environments[c.row].workstationIP.None? then Goto(th, Done(false))  // nil dereference
      else Goto(th, Grade(WriteScore))
    case WriteScore =>
      if c.ok then Do(th, SetScore(a, c.score), TransitionRead(FinishGrading)) else Goto(th, Done(false))
    case EnqueueCleanup =>
      if !c.ok then Goto(th, Done(true))
      else if c.id in s.epochs then Stay(th)
      else Do(th, Enqueue(c.id, CleanupJob, a), Done(true))
  }

  function CleanupCode(s: State, th: Thread, pc: CleanupPc, c: Choice): Effect {
    var a := th.attempt;
    match pc
    case FindEnvironment =>
      if !c.ok || !HasEnvironment(s, a) then Goto(th, Done(true))
      else if !EnvironmentOf(s, c.row, a) then Stay(th)
      else Goto(th, Cleanup(SetDestroying(c.row)))
    case SetDestroying(e) =>
      if c.ok then Do(th, SetEnvironmentStatus(e, EnvDestroying), Cleanup(DestroyVMs(e)))
      else Goto(th, Done(false))
    case DestroyVMs(e) =>
      Goto(th, Cleanup(if c.ok then SetDestroyed(e) else SetFailed(e)))
    case SetFailed(e) =>
      Do(th, if c.ok then SetEnvironmentStatus(e, EnvFailed) else Noop, Done(false))
    case SetDestroyed(e) =>
      if c.ok then Do(th, SetEnvironmentStatus(e, EnvDestroyed), TransitionRead(MarkDestroyed))
      else Goto(th, Done(false))
  }

  // An enqueue whose error is returned to the caller.
  function EnqueueCode(s: State, th: Thread, kind: JobKind, c: Choice): Effect {
    if !c.ok then Goto(th, Done(false))
    else if c.id in s.epochs then Stay(th)
    else Do(th, Enqueue(c.id, kind, th.attempt), Done(true))
  }

  predicate GateOpen(st: Status) {
    st == EnvironmentReady || st == Running || st == TerminalOpened
  }

  function ClientCode(s: State, th: Thread, pc: ClientPc, c: Choice): Effect {
    var a := th.attempt;
    match pc
    case SubmitLoad(user) =>
      if !c.ok || a !in s.attempts then Goto(th, Done(false))
      else Goto(th, Client(SubmitOwner(user, s.attempts[a].status)))
    case SubmitOwner(user, seen) =>
      if !c.ok || !Owned(s, a) || s.purchases[s.attempts[a].purchase].user != user || seen != Running
      then Goto(th, Done(false))
      else Goto(th, TransitionRead(MarkSubmitted))
    case ExpireLoad =>
      if !c.ok || a !in s.attempts then Goto(th, Done(false))
      else if s.attempts[a].status != Running then Goto(th, Done(true))
      else Goto(th, TransitionRead(MarkExpired))
    case EnqueueGrade => EnqueueCode(s, th, GradeJob, c)
    case RetryLoad =>
      if !c.ok || a !in s.attempts || s.attempts[a].status != ProvisionFailed then Goto(th, Done(false))
      else Goto(th, TransitionRead(Reset))
    case EnqueueProvision => EnqueueCode(s, th, ProvisionJob, c)
    case EnqueueRegrade => EnqueueCode(s, th, GradeJob, c)
    case DestroyLoad(e) =>
      if !c.ok || e !in s.environments then Goto(th, Done(false))
      else Effect(Noop, Client(EnqueueDestroy), s.environments[e].attempt)
    case EnqueueDestroy => EnqueueCode(s, th, CleanupJob, c)
    case FindSession(token) =>
      if !c.ok then Goto(th, Done(false))
      else if c.row in s.sessions && s.sessions[c.row].token == token then
        Effect(Noop, Client(GateStatus(c.row, s.sessions[c.row].firstOpened)), s.sessions[c.row].attempt)
      else if exists x | x in s.sessions :: s.sessions[x].token == token then Stay(th)
      else Goto(th, Done(false))
    case GateStatus(x, seenOpen) =>
      if !c.ok || a !in s.attempts || !GateOpen(s.attempts[a].status) then Goto(th, Done(false))
      else Goto(th, Client(LoadEnvironment(x, seenOpen)))
    case LoadEnvironment(x, seenOpen) =>
      if !c.ok || x !in s.sessions || s.sessions[x].environment !in s.environments then Goto(th, Done(false))
      else if seenOpen then Goto(th, Done(true))
      else Goto(th, Client(StampOpened(x)))
    case StampOpened(x) =>
      Do(th, if c.ok then SetOpened(x) else Noop, TransitionRead(OpenTerminal))
  }

  // ListByStatus returns every attempt with the status once; the order is the environment's.
  predicate Lists(s: State, rows: seq<Id>, st: Status) {
    && (forall i, j | 0 <= i < j < |rows| :: rows[i] != rows[j])
    && (forall a | a in rows :: a in s.attempts && s.attempts[a].status == st)
    && (forall a | a in s.attempts && s.attempts[a].status == st :: a in rows)
  }

  function ListCode(s: State, th: Thread, st: Status, found: SweepPc, failed: Pc, c: Choice): Effect {
    if !c.ok then Goto(th, failed)
    else if !Lists(s, c.rows, st) then Stay(th)
    else Goto(th, Sweep(found))
  }

  // An enqueue whose error is only logged, for the attempt a.
  function LoggedEnqueue(s: State, th: Thread, a: Id, next: SweepPc, c: Choice): Effect {
    if !c.ok then Effect(Noop, Sweep(next), a)
    else if c.id in s.epochs then Stay(th)
    else Effect(Enqueue(c.id, CleanupJob, a), Sweep(next), a)
  }

  function SweepCode(s: State, th: Thread, pc: SweepPc, c: Choice): Effect {
    match pc
    case ListStale => ListCode(s, th, EnvironmentProvisioning, Stale(c.rows), Sweep(ListPending), c)
    case Stale(todo) =>
      if todo == [] then Goto(th, Sweep(ListPending))
      else if c.stale then Effect(Noop, TransitionRead(MarkStale(todo[1..])), todo[0])
      else Goto(th, Sweep(Stale(todo[1..])))
    case StaleEnqueue(todo) => LoggedEnqueue(s, th, th.attempt, Stale(todo), c)
    case ListPending => ListCode(s, th, CleanupPending, Pending(c.rows), Sweep(ListTerminal(false)), c)
    case Pending(todo) =>
      if todo == [] then Goto(th, Sweep(ListTerminal(false)))
      else LoggedEnqueue(s, th, todo[0], Pending(todo[1..]), c)
    case ListTerminal(last) =>
      ListCode(s, th, if last then ExpiredBeforeStart else Scored, Terminal(c.rows, last),
               if last then Done(true) else Sweep(ListTerminal(true)), c)
    case Terminal(todo, last) =>
      if todo == [] then Goto(th, if last then Done(true) else Sweep(ListTerminal(true)))
      else if !c.ok || !HasEnvironment(s, todo[0]) then Goto(th, Sweep(Terminal(todo[1..], last)))
      else if !EnvironmentOf(s, c.row, todo[0]) then Stay(th)
      else if s.environments[c.row].status == EnvDestroyed then Goto(th, Sweep(Terminal(todo[1..], last)))
      else Effect(Noop, Sweep(TerminalEnqueue(todo[1..], last)), todo[0])
    case TerminalEnqueue(todo, last) => LoggedEnqueue(s, th, th.attempt, Terminal(todo, last), c)
  }

  // Where the caller of TransitionAttempt goes after a nil error ...
  function AfterSuccess(site: Site): Pc {
    match site
    case BeginProvisioning => Provision(CreateVMs)
    case MarkReady => Done(true)
    case MarkFailed => Provision(FailCleanup)
    case MarkSubmitted => Client(EnqueueGrade)
    case MarkExpired => Client(EnqueueGrade)
    case BeginGrading => Grade(Fetch)
    case FinishGrading => Grade(EnqueueCleanup)
    case OpenTerminal => TransitionRead(StartRunning)
    case StartRunning => Done(true)
    case Reset => Client(EnqueueProvision)
    case MarkStale(rest) => Sweep(StaleEnqueue(rest))
    case MarkDestroyed => Done(true)
  }

  // ... and after an error.
  function AfterFailure(site: Site): Pc {
    match site
    case MarkFailed => Done(true)
    case OpenTerminal => TransitionRead(StartRunning)
    case StartRunning => Done(true)
    case MarkStale(rest) => Sweep(StaleEnqueue(rest))
    case MarkDestroyed => Done(true)
    case _ => Done(false)
  }

  function ReadCode(s: State, th: Thread, site: Site, c: Choice): Effect {
    if !c.ok || th.attempt !in s.attempts || !ValidTransition(s.attempts[th.attempt].status, Target(site))
    then Goto(th, AfterFailure(site))
    else Goto(th, TransitionWrite(site, s.attempts[th.attempt].status))
  }

  function WriteCode(th: Thread, site: Site, c: Choice): Effect {
    if c.ok then Do(th, SetStatus(th.attempt, site), AfterSuccess(site)) else Goto(th, AfterFailure(site))
  }

  function Code(s: State, th: Thread, c: Choice): Effect {
    match th.pc
    case Request(pc) => RequestCode(s, th, pc, c)
    case Provision(pc) => ProvisionCode(s, th, pc, c)
    case Grade(pc) => GradeCode(s, th, pc, c)
    case Cleanup(pc) => CleanupCode(s, th, pc, c)
    case Client(pc) => ClientCode(s, th, pc, c)
    case Sweep(pc) => SweepCode(s, th, pc, c)
    case TransitionRead(site) => ReadCode(s, th, site, c)
    case TransitionWrite(site, _) => WriteCode(th, site, c)
    case Done(_) => Stay(th)
  }

  // ----- actions and runs

  datatype ClientCall =
    | CallRequest(user: Id, purchase: Id)
    | CallSubmit(user: Id, attempt: Id)
    | CallExpire(attempt: Id)
    | CallRetryProvision(attempt: Id)
    | CallRetryGrade(attempt: Id)
    | CallForceDestroy(env: Id)
    | CallOpenTerminal(token: Id)
    | CallReconcile

  function Entry(call: ClientCall): Thread {
    match call
    case CallRequest(user, p) => Thread(None, 0, Request(CheckPurchase(user, p)))
    case CallSubmit(user, a) => Thread(None, a, Client(SubmitLoad(user)))
    case CallExpire(a) => Thread(None, a, Client(ExpireLoad))
    case CallRetryProvision(a) => Thread(None, a, Client(RetryLoad))
    case CallRetryGrade(a) => Thread(None, a, Client(EnqueueRegrade))
    case CallForceDestroy(e) => Thread(None, 0, Client(DestroyLoad(e)))
    case CallOpenTerminal(token) => Thread(None, 0, Client(FindSession(token)))
    case CallReconcile => Thread(None, 0, Sweep(ListStale))
  }

  function HandlerEntry(kind: JobKind): Pc {
    match kind
    case ProvisionJob => Provision(LoadAttempt)
    case GradeJob => Grade(LoadForGrading)
    case CleanupJob => Cleanup(FindEnvironment)
    case ExpireJob => Client(ExpireLoad)
  }

  datatype Action =
    | Buy(purchase: Id, user: Id, grant: nat)
    | Arrive(thread: Id, call: ClientCall)
    | Deliver(thread: Id, job: Id)   // any pending job, any number of times
    | Step(thread: Id, choice: Choice)
    | Crash(thread: Id)
    | Return(thread: Id)             // a nil error completes the job

  function Start(s: State, t: Id, th: Thread): State {
    s.(threads := s.threads[t := th], born := s.born + {t})
  }

  function AfterCall(s: State, t: Id, e: Effect): State
    requires t in s.threads
  {
    Perform(s, t, e.op).(threads := s.threads[t := Thread(s.threads[t].job, e.attempt, e.pc)])
  }

  function StepState(s: State, t: Id, c: Choice): State
    requires t in s.threads
  {
    AfterCall(s, t, Code(s, s.threads[t], c))
  }

  function Remove<V>(m: map<Id, V>, k: Id): map<Id, V> {
    m - {k}
  }

  // What a crash leaves undone.
  function CrashOp(th: Thread): Op {
    match th.pc
    case Request(CreateAttempt(p)) => LoseCharge(p)
    case Request(EnqueueFirst(p, _)) => LoseCharge(p)
    case Request(Compensate(p)) => LoseCharge(p)
    case Provision(FailCleanup) => Forgo(th.attempt)
    case Provision(FailRefund) => Forgo(th.attempt)
    case _ => Noop
  }

  function CrashState(s: State, t: Id): State
    requires t in s.threads
  {
    Perform(s, t, CrashOp(s.threads[t])).(threads := Remove(s.threads, t))
  }

  function ReturnState(s: State, t: Id): State
    requires t in s.threads && s.threads[t].pc.Done?
  {
    var th := s.threads[t];
    s.(threads := Remove(s.threads, t),
       jobs := if th.job.Some? && th.pc.ok then Remove(s.jobs, th.job.value.id) else s.jobs)
  }

  // The thread that a delivery of a job starts.
  function Delivered(s: State, j: Id): Thread
    requires j in s.jobs
  {
    Thread(Some(Held(j, s.jobs[j].kind)), s.jobs[j].attempt, HandlerEntry(s.jobs[j].kind))
  }

  function Apply(s: State, act: Action): State {
    match act
    case Buy(p, user, grant) =>
      if p in s.purchases then s
      else s.(purchases := s.purchases[p := Purchase(user, grant,
                PurchaseBook(grant, 0, 0, 0, 0, 0, 0, 0, {}, {}, {}))])
    case Arrive(t, call) => if t in s.born then s else Start(s, t, Entry(call))
    case Deliver(t, j) =>
      if t in s.born || j !in s.jobs then s
      else Start(s, t, Delivered(s, j))
    case Step(t, c) => if t in s.threads then StepState(s, t, c) else s
    case Crash(t) => if t in s.threads then CrashState(s, t) else s
    case Return(t) => if t in s.threads && s.threads[t].pc.Done? then ReturnState(s, t) else s
  }

  function Run(s: State, acts: seq<Action>): State
    decreases |acts|
  {
    if acts == [] then s else Run(Apply(s, acts[0]), acts[1..])
  }

  lemma {:induction false} RunAppend(s: State, acts: seq<Action>, more: seq<Action>)
    ensures Run(s, acts + more) == Run(Run(s, acts), more)
    decreases |acts|
  {
    if acts == [] {
      assert acts + more == more;
    } else {
      assert (acts + more)[1..] == acts[1..] + more;
      RunAppend(Apply(s, acts[0]), acts[1..], more);
    }
  }

  // Some actions lead from one state to the other.
  ghost predicate Reaches(s: State, s': State) {
    exists acts: seq<Action> :: Run(s, acts) == s'
  }

  lemma ReachesItself(s: State)
    ensures Reaches(s, s)
  {
    assert Run(s, []) == s;
  }

  lemma RunOne(s: State, act: Action)
    ensures Run(s, [act]) == Apply(s, act)
  {
    assert [act][1..] == [];
  }

  lemma ReachesOn(s: State, s': State, act: Action)
    requires Reaches(s, s')
    ensures Reaches(s, Apply(s', act))
  {
    var acts: seq<Action> :| Run(s, acts) == s';
    RunAppend(s, acts, [act]);
    RunOne(s', act);
  }

  lemma ReachesTwice(s: State, s': State, s'': State)
    requires Reaches(s, s') && Reaches(s', s'')
    ensures Reaches(s, s'')
  {
    var acts: seq<Action> :| Run(s, acts) == s';
    var more: seq<Action> :| Run(s', more) == s'';
    RunAppend(s, acts, more);
  }

  // A step that writes the status of an attempt is fresh when the status is still the one that was
  // read. Fresh for an attempt is every action that is not a stale write of its status.
  predicate Fresh(s: State, act: Action, a: Id) {
    (act.Step? && act.thread in s.threads && s.threads[act.thread].pc.TransitionWrite? && act.choice.ok
     && s.threads[act.thread].attempt == a) ==>
      a in s.attempts && s.attempts[a].status == s.threads[act.thread].pc.seen
  }

  // No status write of this attempt is stale, whatever happens to others. For runs with this property
  // TransitionAttempt acts on the attempt as one atomic step.
  predicate FreshRun(s: State, acts: seq<Action>, a: Id)
    decreases |acts|
  {
    acts == [] || (Fresh(s, acts[0], a) && FreshRun(Apply(s, acts[0]), acts[1..], a))
  }

  lemma {:induction false} FreshAppend(s: State, acts: seq<Action>, more: seq<Action>, a: Id)
    requires FreshRun(s, acts, a) && FreshRun(Run(s, acts), more, a)
    ensures FreshRun(s, acts + more, a)
    decreases |acts|
  {
    if acts == [] {
      assert acts + more == more;
    } else {
      assert (acts + more)[1..] == acts[1..] + more;
      FreshAppend(Apply(s, acts[0]), acts[1..], more, a);
    }
  }
}
