/**
 The handlers as the program writes them: sequential code over mutable tables and a job queue, in
 which any other handler may run between two calls and any call may fail. Each handler is shown to
 be a run of AttemptProtocol, so the theorems about runs are theorems about this code.
 */
module Server {
  import opened Wrappers
  import opened AttemptLifecycle
  import opened AttemptProtocol
  import opened ProtocolInvariant
  import opened Platform
  import opened ProtocolRequests
  import opened ScenarioTables
  import opened TableEffects
  import G = Grading

  class Server {
    var purchases: map<Id, PurchaseRow>
    var attempts: map<Id, AttemptRow>
    var environments: map<Id, Environment>
    var sessions: map<Id, Session>
    var jobs: map<Id, Job>
    var nextId: Id                 // stands for fresh UUIDs
    const versionOf: map<Id, nat>  // the scenario version of a purchase's test
    const tasks: seq<TaskRow>
    const checks: seq<CheckRow>
    ghost var start: State
    ghost var now: State
    ghost var troubles: nat        // calls that failed, and calls before which others ran

    constructor (versionOf: map<Id, nat>, tasks: seq<TaskRow>, checks: seq<CheckRow>)
      ensures Valid() && start == now == INITIAL
      ensures this.versionOf == versionOf && this.tasks == tasks && this.checks == checks
      ensures View() == Tables(map[], map[], map[], map[], map[])
    {
      purchases, attempts, environments, sessions, jobs, nextId := map[], map[], map[], map[], map[], 0;
      this.versionOf, this.tasks, this.checks := versionOf, tasks, checks;
      start, now, troubles := INITIAL, INITIAL, 0;
      new;
      ReachesItself(INITIAL);
    }

    function View(): Tables
      reads this
    {
      Tables(purchases, attempts, environments, sessions, jobs)
    }

    // The tables are those of a protocol state that the initial one reaches.
    ghost predicate Valid()
      reads this
    {
      TablesOf(now) == View() && IdsBelow(now, nextId) && Reaches(INITIAL, start) && Reaches(start, now)
    }

    ghost predicate On(t: Id, th: Thread)
      reads this`now
    {
      t in now.threads && now.threads[t] == th
    }

    // ----- what arrives

    method Buy(p: Id, user: Id, grant: nat)
      requires Valid()
      modifies this
      ensures Valid() && start == old(start) && now == Apply(old(now), Action.Buy(p, user, grant))
      ensures purchases == if p in old(purchases) then old(purchases) else old(purchases)[p := PurchaseRow(user, grant)]
    {
      ReachesOn(start, now, Action.Buy(p, user, grant));
      now := Apply(now, Action.Buy(p, user, grant));
      if p !in purchases {
        purchases := purchases[p := PurchaseRow(user, grant)];
      }
    }

    // A client request gets a thread of its own.
    ghost method Arrive(t: Id, call: ClientCall)
      requires Valid() && t !in now.born
      modifies this`now
      ensures Valid() && On(t, Entry(call))
    {
      ReachesOn(start, now, Action.Arrive(t, call));
      now := Apply(now, Action.Arrive(t, call));
    }

    // A queued job is delivered to a worker.
    ghost method StartDelivery(t: Id, j: Id)
      requires Valid() && j in jobs && t !in now.born
      modifies this`now
      ensures Valid()
      ensures On(t, Thread(Some(Held(j, jobs[j].kind)), jobs[j].attempt, HandlerEntry(jobs[j].kind)))
    {
      ReachesOn(start, now, Deliver(t, j));
      now := Apply(now, Deliver(t, j));
    }

    // From here on `start` is the present state.
    ghost method Mark()
      requires Valid()
      modifies this`start
      ensures Valid() && start == now && Reaches(old(start), start)
    {
      ReachesTwice(INITIAL, start, now);
      ReachesItself(now);
      start := now;
    }

    // `start` is an earlier state again.
    ghost method Unmark(s: State)
      requires Valid() && Reaches(INITIAL, s) && Reaches(s, start)
      modifies this`start
      ensures Valid() && start == s && Reaches(old(start), now)
    {
      ReachesTwice(s, start, now);
      start := s;
    }

    // Any number of actions of other threads, and crashes of everything but this one.
    method Others(ghost t: Id, ghost th: Thread)
      requires Valid() && On(t, th)
      modifies this
      ensures Valid() && On(t, th) && start == old(start) && old(troubles) <= troubles
      ensures troubles == old(troubles) ==> now == old(now) && View() == old(View()) && nextId == old(nextId)
    {
    }

    // A call of the store or the queue.
    method Call() returns (works: bool)
      modifies this`troubles
      ensures old(troubles) <= troubles && (works <==> troubles == old(troubles))
    {
      works := *;
      if !works {
        troubles := troubles + 1;
      }
    }

    // The call just made is one step of the thread.
    ghost method Advance(t: Id, th: Thread, c: Choice)
      requires IdsBelow(now, nextId) && Reaches(INITIAL, start) && Reaches(start, now) && On(t, th)
      requires NewIdBelow(Code(now, th, c).op, nextId)
      requires View() == TableOp(TablesOf(now), Code(now, th, c).op)
      modifies this`now
      ensures Valid()
      ensures On(t, Thread(th.job, old(Code(now, th, c)).attempt, old(Code(now, th, c)).pc))
    {
      CallShown(start, now, t, c, nextId);
      now := StepState(now, t, c);
    }

    // ----- TransitionAttempt

    method ReadStatus(ghost t: Id, ghost job: Option<Held>, a: Id, site: Site) returns (seen: Option<Status>)
      requires Valid() && On(t, Thread(job, a, TransitionRead(site)))
      modifies this
      ensures Valid() && start == old(start)
      ensures seen.Some? ==> ValidTransition(seen.value, Target(site))
      ensures On(t, Thread(job, a, if seen.Some? then TransitionWrite(site, seen.value) else AfterFailure(site)))
      ensures old(troubles) <= troubles
      ensures troubles == old(troubles) ==>
                View() == old(View()) && nextId == old(nextId)
                && seen == if a in old(attempts) && ValidTransition(old(attempts)[a].status, Target(site))
                           then Some(old(attempts)[a].status) else None
    {
      hide Reaches, IdsBelow;
      ghost var th := Thread(job, a, TransitionRead(site));
      Others(t, th);
      var works := Call();
      seen := None;
      if works && a in attempts && ValidTransition(attempts[a].status, Target(site)) {
        seen := Some(attempts[a].status);
      }
      Advance(t, th, Answer(works));
    }

    method WriteStatus(ghost t: Id, ghost job: Option<Held>, a: Id, site: Site, ghost seen: Status) returns (ok: bool)
      requires Valid() && On(t, Thread(job, a, TransitionWrite(site, seen)))
      modifies this
      ensures Valid() && start == old(start)
      ensures On(t, Thread(job, a, if ok then AfterSuccess(site) else AfterFailure(site)))
      ensures ok && a in attempts ==> attempts[a].status == Target(site)
      ensures old(troubles) <= troubles
      ensures troubles == old(troubles) ==>
                ok && View() == Moved(old(View()), a, Target(site)) && nextId == old(nextId)
    {
      hide TablesOf, Reaches, IdsBelow, Code, TableOp, AfterSuccess, AfterFailure;
      ghost var th := Thread(job, a, TransitionWrite(site, seen));
      Others(t, th);
      ok := Call();
      if ok && a in attempts {
        attempts := attempts[a := attempts[a].(status := Target(site))];
      }
      WriteStep(now, th, site, seen, ok);
      TableOpOnStatus(TablesOf(now), a, site);
      Advance(t, th, Answer(ok));
    }

    method TransitionAttempt(ghost t: Id, ghost job: Option<Held>, a: Id, site: Site) returns (ok: bool)
      requires Valid() && On(t, Thread(job, a, TransitionRead(site)))
      modifies this
      ensures Valid() && start == old(start)
      ensures On(t, Thread(job, a, if ok then AfterSuccess(site) else AfterFailure(site)))
      ensures old(troubles) <= troubles
      ensures troubles == old(troubles) ==>
                nextId == old(nextId)
                && (ok <==> a in old(attempts) && ValidTransition(old(attempts)[a].status, Target(site)))
                && View() == if ok then Moved(old(View()), a, Target(site)) else old(View())
    {
      hide TablesOf, IdsBelow, Reaches;
      var seen := ReadStatus(t, job, a, site);
      if seen.None? {
        return false;
      }
      ok := WriteStatus(t, job, a, site, seen.value);
    }

    // ----- calls that enqueue

    method EnqueueAnswered(ghost t: Id, ghost job: Option<Held>, a: Id, kind: JobKind, ghost pc: ClientPc)
        returns (ok: bool)
      requires Valid() && On(t, Thread(job, a, Client(pc)))
      requires (pc == EnqueueGrade && kind == GradeJob) || (pc == EnqueueProvision && kind == ProvisionJob)
            || (pc == EnqueueRegrade && kind == GradeJob) || (pc == EnqueueDestroy && kind == CleanupJob)
      modifies this
      ensures Valid() && start == old(start) && On(t, Thread(job, a, Done(ok)))
      ensures ok ==> exists j :: j in jobs && jobs[j] == Job(kind, a)
      ensures old(troubles) <= troubles
      ensures troubles == old(troubles) ==>
                ok && View() == Queued(old(View()), old(nextId), kind, a) && nextId == old(nextId) + 1
    {
      hide Reaches, Code;
      ghost var th := Thread(job, a, Client(pc));
      Others(t, th);
      ok := Call();
      var j := nextId;
      if ok {
        jobs, nextId := jobs[j := Job(kind, a)], nextId + 1;
        assert j in jobs && jobs[j] == Job(kind, a);
      }
      EnqueueStep(now, th, pc, kind, ok, j);
      Advance(t, th, AnswerWith(ok, j));
    }

    // ----- RequestAttempt

    method GetPurchase(ghost t: Id, user: Id, p: Id, expired: bool) returns (allowed: bool)
      requires Valid() && On(t, Thread(None, 0, Request(CheckPurchase(user, p))))
      modifies this
      ensures Valid() && start == old(start)
      ensures On(t, Thread(None, 0, if allowed then Request(Charge(p)) else Done(false)))
      ensures old(troubles) <= troubles
      ensures troubles == old(troubles) ==>
                && View() == old(View()) && nextId == old(nextId)
                && (allowed <==> p in old(purchases) && old(purchases)[p].user == user && !expired
                                 && old(purchases)[p].remaining > 0)
    {
      hide Reaches, IdsBelow;
      ghost var th := Thread(None, 0, Request(CheckPurchase(user, p)));
      Others(t, th);
      var works := Call();
      allowed := works && p in purchases && purchases[p].user == user && !expired && purchases[p].remaining > 0;
      Advance(t, th, Answer(works && !expired));
    }

    // The store decrements the counter only while it is positive, and an unchanged row is an error.
    method DecrementAttemptsRemaining(ghost t: Id, p: Id) returns (ok: bool)
      requires Valid() && On(t, Thread(None, 0, Request(Charge(p))))
      modifies this
      ensures Valid() && start == old(start)
      ensures On(t, Thread(None, 0, if ok then Request(CreateAttempt(p)) else Done(false)))
      ensures old(troubles) <= troubles
      ensures troubles == old(troubles) ==>
                nextId == old(nextId) && (ok <==> p in old(purchases) && old(purchases)[p].remaining > 0)
                && View() == if ok then Counted(old(View()), p, -1) else old(View())
    {
      hide Reaches, IdsBelow;
      ghost var th := Thread(None, 0, Request(Charge(p)));
      Others(t, th);
      var works := Call();
      ok := works && p in purchases && purchases[p].remaining > 0;
      if ok {
        purchases := purchases[p := purchases[p].(remaining := purchases[p].remaining - 1)];
      }
      Advance(t, th, Answer(works));
    }

    method InsertAttemptRow(ghost t: Id, p: Id) returns (a: Option<Id>)
      requires Valid() && On(t, Thread(None, 0, Request(CreateAttempt(p))))
      modifies this
      ensures Valid() && start == old(start)
      ensures On(t, match a
                    case Some(id) => Thread(None, id, Request(EnqueueFirst(p, id)))
                    case None => Thread(None, 0, Request(Compensate(p))))
      ensures a.Some? ==> a.value in attempts && attempts[a.value] == AttemptRow(p, AttemptRequested, None)
      ensures old(troubles) <= troubles
      ensures troubles == old(troubles) ==>
                a == Some(old(nextId)) && nextId == old(nextId) + 1
                && View() == WithAttempt(old(View()), old(nextId), p)
    {
      hide Reaches;
      ghost var th := Thread(None, 0, Request(CreateAttempt(p)));
      Others(t, th);
      var works := Call();
      var id := nextId;
      a := None;
      if works {
        attempts, nextId := attempts[id := AttemptRow(p, AttemptRequested, None)], nextId + 1;
        a := Some(id);
      }
      Advance(t, th, AnswerWith(works, id));
    }

    method EnqueueFirstJob(ghost t: Id, p: Id, a: Id) returns (ok: bool)
      requires Valid() && On(t, Thread(None, a, Request(EnqueueFirst(p, a))))
      modifies this
      ensures Valid() && start == old(start)
      ensures On(t, Thread(None, a, if ok then Done(true) else Request(Compensate(p))))
      ensures ok ==> exists j :: j in jobs && jobs[j] == Job(ProvisionJob, a)
      ensures old(troubles) <= troubles
      ensures troubles == old(troubles) ==>
                ok && View() == Queued(old(View()), old(nextId), ProvisionJob, a) && nextId == old(nextId) + 1
    {
      hide Reaches;
      ghost var th := Thread(None, a, Request(EnqueueFirst(p, a)));
      Others(t, th);
      ok := Call();
      var j := nextId;
      if ok {
        jobs, nextId := jobs[j := Job(ProvisionJob, a)], nextId + 1;
        assert j in jobs && jobs[j] == Job(ProvisionJob, a);
      }
      Advance(t, th, AnswerWith(ok, j));
    }

    method IncrementAttemptsRemaining(ghost t: Id, p: Id, ghost a: Id)
      requires Valid() && On(t, Thread(None, a, Request(Compensate(p))))
      modifies this
      ensures Valid() && start == old(start) && On(t, Thread(None, a, Done(false)))
      ensures old(troubles) <= troubles
      ensures troubles == old(troubles) ==> View() == Counted(old(View()), p, 1) && nextId == old(nextId)
    {
      hide Reaches, IdsBelow;
      ghost var th := Thread(None, a, Request(Compensate(p)));
      Others(t, th);
      var works := Call();
      if works && p in purchases {
        purchases := purchases[p := purchases[p].(remaining := purchases[p].remaining + 1)];
      }
      Advance(t, th, Answer(works));
    }

    method RequestSteps(ghost t: Id, user: Id, p: Id, expired: bool) returns (attempt: Option<Id>)
      requires Valid() && On(t, Entry(CallRequest(user, p)))
      modifies this
      ensures Valid() && start == old(start)
      ensures t in now.threads && now.threads[t].job == None && now.threads[t].pc == Done(attempt.Some?)
      ensures attempt.Some? ==> now.threads[t].attempt == attempt.value
      ensures old(troubles) <= troubles
      ensures troubles == old(troubles) ==>
                && attempt == (if MayRequest(old(View()), user, p, expired) then Some(old(nextId)) else None)
                && View() == (if attempt.Some? then Requested(old(View()), old(nextId), p) else old(View()))
    {
      hide TablesOf, IdsBelow, Reaches;
      var ok := GetPurchase(t, user, p, expired);
      if !ok {
        return None;
      }
      ok := DecrementAttemptsRemaining(t, p);
      if !ok {
        return None;
      }
      var a := InsertAttemptRow(t, p);
      if a.None? {
        IncrementAttemptsRemaining(t, p, 0);
        return None;
      }
      ok := EnqueueFirstJob(t, p, a.value);
      if !ok {
        IncrementAttemptsRemaining(t, p, a.value);
        return None;
      }
      return a;
    }

    // Whatever else runs: an attempt is of the purchase asked for and the purchase is the caller's own, and
    // another user's request leaves no attempt and no charge behind. Undisturbed, it is granted exactly while
    // the caller's purchase has not expired and has something left, and takes one of it.
    method RequestAttempt(ghost t: Id, user: Id, p: Id, expired: bool) returns (attempt: Option<Id>)
      requires Valid() && On(t, Entry(CallRequest(user, p)))
      modifies this
      ensures Valid() && start == old(start)
      ensures t in now.threads && now.threads[t].job == None && now.threads[t].pc == Done(attempt.Some?)
      ensures attempt.Some? ==>
                && now.threads[t].attempt == attempt.value
                && p in now.purchases && now.purchases[p].user == user
                && attempt.value in now.attempts && now.attempts[attempt.value].purchase == p
      ensures p in old(now.purchases) && old(now.purchases[p].user) != user ==>
                && attempt.None?
                && (forall a | a in now.attempts :: now.attempts[a].book.creator != t)
                && (forall q | q in now.purchases :: t !in now.purchases[q].book.open)
      ensures old(troubles) <= troubles
      ensures troubles == old(troubles) ==>
                && attempt == (if MayRequest(old(View()), user, p, expired) then Some(old(nextId)) else None)
                && View() == (if attempt.Some? then Requested(old(View()), old(nextId), p) else old(View()))
    {
      ghost var s := start;
      Mark();
      attempt := RequestSteps(t, user, p, expired);
      RequestEnds(start, now, t, user, p);
      Unmark(s);
    }

    // ----- SubmitAttempt, HandleExpireAttempt, retryProvision, retryGrade

    method LoadForSubmit(ghost t: Id, user: Id, a: Id) returns (status: Option<Status>)
      requires Valid() && On(t, Thread(None, a, Client(SubmitLoad(user))))
      modifies this
      ensures Valid() && start == old(start)
      ensures On(t, Thread(None, a, if status.Some? then Client(SubmitOwner(user, status.value)) else Done(false)))
      ensures old(troubles) <= troubles
      ensures troubles == old(troubles) ==>
                View() == old(View()) && nextId == old(nextId)
                && status == if a in old(attempts) then Some(old(attempts)[a].status) else None
    {
      hide Reaches, IdsBelow;
      ghost var th := Thread(None, a, Client(SubmitLoad(user)));
      Others(t, th);
      var works := Call();
      status := if works && a in attempts then Some(attempts[a].status) else None;
      Advance(t, th, Answer(works));
    }

    method CheckOwner(ghost t: Id, user: Id, a: Id, seen: Status) returns (allowed: bool)
      requires Valid() && On(t, Thread(None, a, Client(SubmitOwner(user, seen))))
      modifies this
      ensures Valid() && start == old(start)
      ensures On(t, Thread(None, a, if allowed then TransitionRead(MarkSubmitted) else Done(false)))
      ensures old(troubles) <= troubles
      ensures troubles == old(troubles) ==>
                && View() == old(View()) && nextId == old(nextId)
                && (allowed <==> a in old(attempts) && BoughtBy(old(View()), old(attempts)[a].purchase, user)
                                 && seen == Running)
      ensures allowed ==> a in now.attempts && OwnedBy(now, now.attempts[a].purchase, user)
    {
      hide Reaches, IdsBelow;
      ghost var th := Thread(None, a, Client(SubmitOwner(user, seen)));
      Others(t, th);
      var works := Call();
      allowed := works && a in attempts && attempts[a].purchase in purchases
        && purchases[attempts[a].purchase].user == user && seen == Running;
      Advance(t, th, Answer(works));
    }

    method SubmitAttempt(ghost t: Id, user: Id, a: Id) returns (ok: bool)
      requires Valid() && On(t, Entry(CallSubmit(user, a)))
      modifies this
      ensures Valid() && start == old(start) && On(t, Thread(None, a, Done(ok)))
      ensures old(troubles) <= troubles
      ensures troubles == old(troubles) ==>
                && (ok <==> HasStatus(old(View()), a, Running)
                            && BoughtBy(old(View()), old(attempts)[a].purchase, user))
                && View() == if ok then Queued(Moved(old(View()), a, Submitted), old(nextId), GradeJob, a)
                             else old(View())
      ensures ok ==> a in now.attempts && OwnedBy(now, now.attempts[a].purchase, user)
    {
      hide TablesOf, IdsBelow, Reaches;
      var status := LoadForSubmit(t, user, a);
      if status.None? {
        return false;
      }
      ok := CheckOwner(t, user, a, status.value);
      if !ok {
        return false;
      }
      ghost var s := start;
      Mark();
      ok := Submit(t, a);
      ReachedRowsStay(start, now);
      Unmark(s);
    }

    method Submit(ghost t: Id, a: Id) returns (ok: bool)
      requires Valid() && On(t, Thread(None, a, TransitionRead(MarkSubmitted)))
      modifies this
      ensures Valid() && start == old(start) && On(t, Thread(None, a, Done(ok)))
      ensures old(troubles) <= troubles
      ensures troubles == old(troubles) && a in old(attempts) && old(attempts)[a].status == Running ==>
                ok && View() == Queued(Moved(old(View()), a, Submitted), old(nextId), GradeJob, a)
    {
      hide TablesOf, IdsBelow, Reaches, Moved;
      ok := TransitionAttempt(t, None, a, MarkSubmitted);
      if ok {
        ok := EnqueueAnswered(t, None, a, GradeJob, EnqueueGrade);
      }
    }

    method LoadForExpire(ghost t: Id, ghost job: Option<Held>, a: Id) returns (status: Option<Status>)
      requires Valid() && On(t, Thread(job, a, Client(ExpireLoad)))
      modifies this
      ensures Valid() && start == old(start)
      ensures On(t, Thread(job, a, if status == None then Done(false)
                                   else if status == Some(Running) then TransitionRead(MarkExpired) else Done(true)))
      ensures old(troubles) <= troubles
      ensures troubles == old(troubles) ==>
                View() == old(View()) && nextId == old(nextId)
                && status == if a in old(attempts) then Some(old(attempts)[a].status) else None
    {
      hide Reaches, IdsBelow;
      ghost var th := Thread(job, a, Client(ExpireLoad));
      Others(t, th);
      var works := Call();
      status := if works && a in attempts then Some(attempts[a].status) else None;
      Advance(t, th, Answer(works));
    }

    method HandleExpireAttempt(ghost t: Id, ghost job: Option<Held>, a: Id) returns (ok: bool)
      requires Valid() && On(t, Thread(job, a, Client(ExpireLoad)))
      modifies this
      ensures Valid() && start == old(start) && On(t, Thread(job, a, Done(ok)))
      ensures old(troubles) <= troubles
      ensures troubles == old(troubles) ==>
                (ok <==> a in old(attempts))
                && View() == if ok && old(attempts)[a].status == Running
                             then Queued(Moved(old(View()), a, Expired), old(nextId), GradeJob, a) else old(View())
    {
      hide TablesOf, IdsBelow, Reaches;
      var status := LoadForExpire(t, job, a);
      if status == None {
        return false;
      }
      if status != Some(Running) {
        return true;
      }
      ok := TransitionAttempt(t, job, a, MarkExpired);
      if !ok {
        return false;
      }
      ok := EnqueueAnswered(t, job, a, GradeJob, EnqueueGrade);
    }

    method LoadFailed(ghost t: Id, a: Id) returns (failed: bool)
      requires Valid() && On(t, Thread(None, a, Client(RetryLoad)))
      modifies this
      ensures Valid() && start == old(start)
      ensures On(t, Thread(None, a, if failed then TransitionRead(Reset) else Done(false)))
      ensures old(troubles) <= troubles
      ensures troubles == old(troubles) ==>
                View() == old(View()) && nextId == old(nextId)
                && (failed <==> a in old(attempts) && old(attempts)[a].status == ProvisionFailed)
    {
      hide Reaches, IdsBelow;
      ghost var th := Thread(None, a, Client(RetryLoad));
      Others(t, th);
      var works := Call();
      failed := works && a in attempts && attempts[a].status == ProvisionFailed;
      Advance(t, th, Answer(works));
    }

    method RetryProvision(ghost t: Id, a: Id) returns (ok: bool)
      requires Valid() && On(t, Entry(CallRetryProvision(a)))
      modifies this
      ensures Valid() && start == old(start) && On(t, Thread(None, a, Done(ok)))
      ensures old(troubles) <= troubles
      ensures troubles == old(troubles) ==>
                && (ok <==> HasStatus(old(View()), a, ProvisionFailed))
                && View() == if ok then Queued(Moved(old(View()), a, AttemptRequested), old(nextId), ProvisionJob, a)
                             else old(View())
    {
      hide TablesOf, IdsBelow, Reaches;
      ok := LoadFailed(t, a);
      if !ok {
        return false;
      }
      ok := TransitionAttempt(t, None, a, Reset);
      if !ok {
        return false;
      }
      ok := EnqueueAnswered(t, None, a, ProvisionJob, EnqueueProvision);
    }

    method RetryGrade(ghost t: Id, a: Id) returns (ok: bool)
      requires Valid() && On(t, Entry(CallRetryGrade(a)))
      modifies this
      ensures Valid() && start == old(start) && On(t, Thread(None, a, Done(ok)))
      ensures old(troubles) <= troubles
      ensures troubles == old(troubles) ==> ok && View() == Queued(old(View()), old(nextId), GradeJob, a)
    {
      ok := EnqueueAnswered(t, None, a, GradeJob, EnqueueRegrade);
    }

    method LoadForDestroy(ghost t: Id, e: Id) returns (attempt: Option<Id>)
      requires Valid() && On(t, Entry(CallForceDestroy(e)))
      modifies this
      ensures Valid() && start == old(start)
      ensures On(t, match attempt
                    case Some(a) => Thread(None, a, Client(EnqueueDestroy))
                    case None => Thread(None, 0, Done(false)))
      ensures attempt.Some? ==> e in environments && environments[e].attempt == attempt.value
      ensures old(troubles) <= troubles
      ensures troubles == old(troubles) ==>
                View() == old(View()) && nextId == old(nextId)
                && attempt == if e in old(environments) then Some(old(environments)[e].attempt) else None
    {
      hide Reaches, IdsBelow;
      ghost var th := Entry(CallForceDestroy(e));
      Others(t, th);
      var works := Call();
      attempt := if works && e in environments then Some(environments[e].attempt) else None;
      Advance(t, th, Answer(works));
    }

    method ForceDestroy(ghost t: Id, e: Id) returns (ok: bool)
      requires Valid() && On(t, Entry(CallForceDestroy(e)))
      modifies this
      ensures Valid() && start == old(start)
      ensures t in now.threads && now.threads[t].job == None && now.threads[t].pc == Done(ok)
      ensures ok ==> exists j :: j in jobs && jobs[j] == Job(CleanupJob, now.threads[t].attempt)
      ensures old(troubles) <= troubles
      ensures troubles == old(troubles) ==>
                && (ok <==> e in old(environments))
                && View() == if ok then Queued(old(View()), old(nextId), CleanupJob, old(environments)[e].attempt)
                             else old(View())
    {
      hide TablesOf, IdsBelow, Reaches;
      var attempt := LoadForDestroy(t, e);
      if attempt.None? {
        return false;
      }
      ok := EnqueueAnswered(t, None, attempt.value, CleanupJob, EnqueueDestroy);
    }

    // ----- handleProvisionEnvironment

    method GetAttempt(ghost t: Id, ghost job: Option<Held>, a: Id) returns (status: Option<Status>)
      requires Valid() && On(t, Thread(job, a, Provision(LoadAttempt)))
      modifies this
      ensures Valid() && start == old(start)
      ensures On(t, Thread(job, a, match status
                                   case None => Done(false)
                                   case Some(st) =>
                                     if st == AttemptRequested then TransitionRead(BeginProvisioning)
                                     else if st == EnvironmentProvisioning then Provision(CreateVMs)
                                     else Done(true)))
      ensures old(troubles) <= troubles
      ensures troubles == old(troubles) ==>
                View() == old(View()) && nextId == old(nextId)
                && status == if a in old(attempts) then Some(old(attempts)[a].status) else None
    {
      hide Reaches, IdsBelow;
      ghost var th := Thread(job, a, Provision(LoadAttempt));
      Others(t, th);
      var works := Call();
      status := if works && a in attempts then Some(attempts[a].status) else None;
      Advance(t, th, Answer(works));
    }

    method BuildMachines(ghost t: Id, ghost job: Option<Held>, a: Id, answer: Built) returns (built: Built)
      requires Valid() && On(t, Thread(job, a, Provision(CreateVMs)))
      modifies this
      ensures Valid() && start == old(start)
      ensures On(t, Thread(job, a, match built
                                   case NotAsked => Done(false)
                                   case Refused => TransitionRead(MarkFailed)
                                   case Up(ip, key) => Provision(SaveEnvironment(ip, key))))
      ensures old(troubles) <= troubles
      ensures troubles == old(troubles) ==> built == answer && View() == old(View()) && nextId == old(nextId)
    {
      hide Reaches, IdsBelow;
      ghost var th := Thread(job, a, Provision(CreateVMs));
      Others(t, th);
      built := answer;
      match built
      case NotAsked => Advance(t, th, Choice(false, 0, 0, [], true, "", "", Score(0, 0)));
      case Refused => Advance(t, th, Answer(false));
      case Up(ip, key) => Advance(t, th, Choice(true, 0, 0, [], false, ip, key, Score(0, 0)));
    }

    method CreateEnvironmentRow(ghost t: Id, ghost job: Option<Held>, a: Id, ip: string, key: string)
        returns (env: Option<Id>)
      requires Valid() && On(t, Thread(job, a, Provision(SaveEnvironment(ip, key))))
      modifies this
      ensures Valid() && start == old(start)
      ensures On(t, Thread(job, a, if env.Some? then Provision(RunPlaybook(env.value)) else TransitionRead(MarkFailed)))
      ensures env.Some? ==>
                env.value in environments && environments[env.value] == Environment(a, EnvReady, Some(ip), Some(key))
      ensures old(troubles) <= troubles
      ensures troubles == old(troubles) ==>
                && env == Some(old(nextId)) && nextId == old(nextId) + 1
                && View() == WithEnvironment(old(View()), old(nextId), a, ip, key)
    {
      hide Reaches;
      ghost var th := Thread(job, a, Provision(SaveEnvironment(ip, key)));
      Others(t, th);
      var works := Call();
      var e := nextId;
      env := None;
      if works {
        environments, nextId := environments[e := Environment(a, EnvReady, Some(ip), Some(key))], nextId + 1;
        env := Some(e);
      }
      Advance(t, th, AnswerWith(works, e));
    }

    method RunPlaybookOn(ghost t: Id, ghost job: Option<Held>, a: Id, e: Id, plays: bool) returns (ok: bool)
      requires Valid() && On(t, Thread(job, a, Provision(RunPlaybook(e))))
      modifies this
      ensures Valid() && start == old(start)
      ensures On(t, Thread(job, a, if ok then Provision(SaveSession(e)) else TransitionRead(MarkFailed)))
      ensures old(troubles) <= troubles
      ensures troubles == old(troubles) ==> ok == plays && View() == old(View()) && nextId == old(nextId)
    {
      hide Reaches, IdsBelow;
      ghost var th := Thread(job, a, Provision(RunPlaybook(e)));
      Others(t, th);
      ok := plays;
      Advance(t, th, Answer(ok));
    }

    method CreateSessionRow(ghost t: Id, ghost job: Option<Held>, a: Id, e: Id) returns (ok: bool)
      requires Valid() && On(t, Thread(job, a, Provision(SaveSession(e))))
      modifies this
      ensures Valid() && start == old(start)
      ensures On(t, Thread(job, a, if ok then TransitionRead(MarkReady) else TransitionRead(MarkFailed)))
      ensures ok ==> exists x :: x in sessions && sessions[x] == Session(a, e, x, false)
      ensures old(troubles) <= troubles
      ensures troubles == old(troubles) ==>
                ok && nextId == old(nextId) + 1
                && View() == old(View()).(sessions := old(sessions)[old(nextId) := Session(a, e, old(nextId), false)])
    {
      hide Reaches;
      ghost var th := Thread(job, a, Provision(SaveSession(e)));
      Others(t, th);
      ok := Call();
      var x := nextId;
      if ok {
        sessions, nextId := sessions[x := Session(a, e, x, false)], nextId + 1;
        assert x in sessions && sessions[x] == Session(a, e, x, false);
      }
      Advance(t, th, AnswerWith(ok, x));
    }

    method EnqueueCleanupIgnoringErrors(ghost t: Id, ghost job: Option<Held>, a: Id)
      requires Valid() && On(t, Thread(job, a, Provision(FailCleanup)))
      modifies this
      ensures Valid() && start == old(start) && On(t, Thread(job, a, Provision(FailRefund)))
      ensures old(troubles) <= troubles
      ensures troubles == old(troubles) ==>
                View() == Queued(old(View()), old(nextId), CleanupJob, a) && nextId == old(nextId) + 1
    {
      hide Reaches;
      ghost var th := Thread(job, a, Provision(FailCleanup));
      Others(t, th);
      var works := Call();
      var j := nextId;
      if works {
        jobs, nextId := jobs[j := Job(CleanupJob, a)], nextId + 1;
      }
      Advance(t, th, AnswerWith(works, j));
    }

    method RestoreAttemptCount(ghost t: Id, ghost job: Option<Held>, a: Id)
      requires Valid() && On(t, Thread(job, a, Provision(FailRefund)))
      modifies this
      ensures Valid() && start == old(start) && On(t, Thread(job, a, Done(true)))
      ensures old(troubles) <= troubles
      ensures troubles == old(troubles) ==>
                && nextId == old(nextId)
                && View() == if a in old(attempts) then Counted(old(View()), old(attempts)[a].purchase, 1)
                             else old(View())
    {
      hide TablesOf, Reaches, IdsBelow, Code;
      ghost var th := Thread(job, a, Provision(FailRefund));
      Others(t, th);
      var works := Call();
      if works && a in attempts && attempts[a].purchase in purchases {
        var p := attempts[a].purchase;
        purchases := purchases[p := purchases[p].(remaining := purchases[p].remaining + 1)];
      }
      RefundStep(now, th, works);
      Advance(t, th, Answer(works));
    }

    method HandleProvisionFailure(ghost t: Id, ghost job: Option<Held>, a: Id)
      requires Valid() && On(t, Thread(job, a, TransitionRead(MarkFailed)))
      modifies this
      ensures Valid() && start == old(start) && On(t, Thread(job, a, Done(true)))
      ensures old(troubles) <= troubles
      ensures troubles == old(troubles) ==>
                View() == if HasStatus(old(View()), a, AttemptRequested)
                             || HasStatus(old(View()), a, EnvironmentProvisioning)
                          then GivenUp(old(View()), old(nextId), a) else old(View())
    {
      hide TablesOf, IdsBelow, Reaches, ValidTransition;
      OnlyWaitingFails();
      var ok := TransitionAttempt(t, job, a, MarkFailed);
      if !ok {
        return;
      }
      EnqueueCleanupIgnoringErrors(t, job, a);
      RestoreAttemptCount(t, job, a);
    }

    method BuildEnvironment(ghost t: Id, ghost job: Option<Held>, a: Id, answer: Built, plays: bool)
        returns (ok: bool)
      requires Valid() && On(t, Thread(job, a, Provision(CreateVMs)))
      modifies this
      ensures Valid() && start == old(start) && On(t, Thread(job, a, Done(ok)))
      ensures old(troubles) <= troubles
      ensures troubles == old(troubles) ==>
                a in old(attempts) && old(attempts)[a].status == EnvironmentProvisioning ==>
                  View() == Provisioned(old(View()), old(nextId), a, answer, plays) && (ok <==> !answer.NotAsked?)
    {
      hide TablesOf, IdsBelow, Reaches, GivenUp, Moved;
      var built := BuildMachines(t, job, a, answer);
      if built.NotAsked? {
        return false;
      }
      if built.Refused? {
        HandleProvisionFailure(t, job, a);
        return true;
      }
      var env := CreateEnvironmentRow(t, job, a, built.ip, built.key);
      if env.None? {
        HandleProvisionFailure(t, job, a);
        return true;
      }
      ok := RunPlaybookOn(t, job, a, env.value, plays);
      if !ok {
        HandleProvisionFailure(t, job, a);
        return true;
      }
      ok := CreateSessionRow(t, job, a, env.value);
      if !ok {
        HandleProvisionFailure(t, job, a);
        return true;
      }
      ok := TransitionAttempt(t, job, a, MarkReady);
    }

    method HandleProvisionEnvironment(ghost t: Id, ghost job: Option<Held>, a: Id, answer: Built, plays: bool)
        returns (ok: bool)
      requires Valid() && On(t, Thread(job, a, HandlerEntry(ProvisionJob)))
      modifies this
      ensures Valid() && start == old(start) && On(t, Thread(job, a, Done(ok)))
      ensures old(troubles) <= troubles
      ensures troubles == old(troubles) ==>
                if HasStatus(old(View()), a, AttemptRequested) || HasStatus(old(View()), a, EnvironmentProvisioning)
                then
                  && (ok <==> !answer.NotAsked?)
                  && View() ==
                     Provisioned(Moved(old(View()), a, EnvironmentProvisioning), old(nextId), a, answer, plays)
                else (ok <==> a in old(attempts)) && View() == old(View())
    {
      hide TablesOf, IdsBelow, Reaches, Provisioned;
      ghost var d := View();
      MovedToWhereItIs(d, a);
      var status := GetAttempt(t, job, a);
      if status.None? {
        return false;
      }
      if status.value != AttemptRequested && status.value != EnvironmentProvisioning {
        return true;
      }
      if status.value == AttemptRequested {
        ok := TransitionAttempt(t, job, a, BeginProvisioning);
        if !ok {
          return false;
        }
      }
      ok := BuildEnvironment(t, job, a, answer, plays);
    }

    // ----- GradeAttempt

    method LoadGradedAttempt(ghost t: Id, ghost job: Option<Held>, a: Id) returns (purchase: Option<Id>)
      requires Valid() && On(t, Thread(job, a, Grade(LoadForGrading)))
      modifies this
      ensures Valid() && start == old(start)
      ensures On(t, Thread(job, a, if purchase.Some? then TransitionRead(BeginGrading) else Done(false)))
      ensures purchase.Some? ==> a in now.attempts && now.attempts[a].purchase == purchase.value
      ensures old(troubles) <= troubles
      ensures troubles == old(troubles) ==>
                View() == old(View()) && nextId == old(nextId)
                && purchase == if a in old(attempts) then Some(old(attempts)[a].purchase) else None
    {
      hide Reaches, IdsBelow;
      ghost var th := Thread(job, a, Grade(LoadForGrading));
      Others(t, th);
      var works := Call();
      purchase := if works && a in attempts then Some(attempts[a].purchase) else None;
      Advance(t, th, Answer(works));
    }

    // The lookups between the two transitions: the purchase, its test, the checks of the version and the
    // environment. The environment is always found and has an address, unless the store fails.
    method FetchForGrading(ghost t: Id, ghost job: Option<Held>, a: Id, p: Id)
      returns (env: Option<Id>, listed: seq<CheckRow>)
      requires Valid() && On(t, Thread(job, a, Grade(Fetch)))
      modifies this
      ensures Valid() && start == old(start)
      ensures On(t, Thread(job, a, if env.Some? then Grade(WriteScore) else Done(false)))
      ensures env.Some? ==> env.value in environments && environments[env.value].workstationIP.Some?
      ensures env.Some? ==> p in versionOf && multiset(listed) == multiset(Listed(checks, tasks, versionOf[p]))
      ensures old(troubles) <= troubles
      ensures troubles == old(troubles) ==>
                View() == old(View()) && nextId == old(nextId) && (env.Some? <==> p in versionOf)
    {
      hide Reaches, IdsBelow;
      ghost var th := Thread(job, a, Grade(Fetch));
      Others(t, th);
      var works := Call();
      env, listed := None, [];
      works := works && p in versionOf;
      if works {
        listed := InAnyOrder(Listed(checks, tasks, versionOf[p]));
        ReachedOk(start, now);
        assert ThreadOk(now, t, th);
        assert HasEnvironment(now, a);
        var e :| e in environments && environments[e].attempt == a;
        assert EnvironmentOf(now, e, a) && EnvironmentOk(now.environments[e]);
        env := Some(e);
      }
      Advance(t, th, Choice(works, 0, if env.Some? then env.value else 0, [], false, "", "", Score(0, 0)));
    }

    method UpdateScore(ghost t: Id, ghost job: Option<Held>, a: Id, total: int, max: int) returns (ok: bool)
      requires Valid() && On(t, Thread(job, a, Grade(WriteScore)))
      modifies this
      ensures Valid() && start == old(start)
      ensures On(t, Thread(job, a, if ok then TransitionRead(FinishGrading) else Done(false)))
      ensures ok && a in attempts ==> attempts[a].score == Some(Score(total, max))
      ensures ok && a in now.attempts ==> now.attempts[a].score == Some(Score(total, max))
      ensures old(troubles) <= troubles
      ensures troubles == old(troubles) ==>
                ok && nextId == old(nextId)
                && View() == if a in old(attempts) then WithScore(old(View()), a, Score(total, max)) else old(View())
    {
      hide Reaches, IdsBelow;
      ghost var th := Thread(job, a, Grade(WriteScore));
      Others(t, th);
      ok := Call();
      if ok && a in attempts {
        attempts := attempts[a := attempts[a].(score := Some(Score(total, max)))];
      }
      Advance(t, th, Choice(ok, 0, 0, [], false, "", "", Score(total, max)));
    }

    method EnqueueCleanupLogged(ghost t: Id, ghost job: Option<Held>, a: Id)
      requires Valid() && On(t, Thread(job, a, Grade(EnqueueCleanup)))
      modifies this
      ensures Valid() && start == old(start) && On(t, Thread(job, a, Done(true)))
      ensures old(troubles) <= troubles
      ensures troubles == old(troubles) ==>
                View() == Queued(old(View()), old(nextId), CleanupJob, a) && nextId == old(nextId) + 1
    {
      hide Reaches;
      ghost var th := Thread(job, a, Grade(EnqueueCleanup));
      Others(t, th);
      var works := Call();
      var j := nextId;
      if works {
        jobs, nextId := jobs[j := Job(CleanupJob, a)], nextId + 1;
      }
      Advance(t, th, AnswerWith(works, j));
    }

    // In state s the attempt has the score of these items, and their checks are those of its version.
    ghost predicate ScoredBy(s: State, a: Id, items: seq<G.Item>) {
      && a in s.attempts && s.attempts[a].purchase in versionOf
      && multiset(G.Checks(items)) == multiset(Listed(checks, tasks, versionOf[s.attempts[a].purchase]))
      && s.attempts[a].score == Some(Score(G.Points(G.PassedOnes(items)), G.Points(items)))
      && G.Earned(items, s.attempts[a].score.value.total, s.attempts[a].score.value.max)
    }

    // A nil error means that the score of all checks of the attempt's version was stored on the way.
    method GradeAttempt(ghost t: Id, ghost job: Option<Held>, a: Id)
      returns (ok: bool, ghost stored: State, ghost items: seq<G.Item>)
      requires Valid() && On(t, Thread(job, a, HandlerEntry(GradeJob)))
      modifies this
      ensures Valid() && start == old(start) && On(t, Thread(job, a, Done(ok)))
      ensures ok ==> Reaches(start, stored) && Reaches(stored, now) && ScoredBy(stored, a, items)
      ensures old(troubles) <= troubles
      ensures troubles == old(troubles) ==>
                && (ok <==> IsFinished(old(View()), a) && old(attempts)[a].purchase in versionOf)
                && View() == if ok then GradedTables(old(View()), old(nextId), a, items)
                             else if IsFinished(old(View()), a) then Moved(old(View()), a, Grading)
                             else old(View())
    {
      hide TablesOf, IdsBelow, Reaches, GradedTables, ScoredBy, ValidTransition, Moved;
      OnlyFinishedIsGraded();
      ok, stored, items := false, now, [];
      ghost var d, n := View(), nextId;
      var p := LoadGradedAttempt(t, job, a);
      if p.None? {
        return;
      }
      ghost var s := start;
      Mark();
      ok := TransitionAttempt(t, job, a, BeginGrading);
      if ok {
        ok, stored, items := GradeStarted(t, job, a, p.value);
        GradedFromGrading(d, n, a, items);
      }
      if ok {
        ReachesTwice(s, start, stored);
      }
      Unmark(s);
    }

    method GradeStarted(ghost t: Id, ghost job: Option<Held>, a: Id, p: Id)
      returns (ok: bool, ghost stored: State, ghost items: seq<G.Item>)
      requires Valid() && On(t, Thread(job, a, Grade(Fetch))) && a in start.attempts && start.attempts[a].purchase == p
      modifies this
      ensures Valid() && start == old(start) && On(t, Thread(job, a, Done(ok)))
      ensures ok ==> Reaches(start, stored) && Reaches(stored, now) && ScoredBy(stored, a, items)
      ensures old(troubles) <= troubles
      ensures troubles == old(troubles) ==>
                a in old(attempts) && old(attempts)[a].status == Grading ==>
                  && (ok <==> p in versionOf)
                  && View() == if ok then GradedTables(old(View()), old(nextId), a, items) else old(View())
    {
      hide TablesOf, IdsBelow, Reaches, GradedTables, Moved, Queued, WithScore, G.Earned;
      ok, stored, items := false, now, [];
      ghost var d, n := View(), nextId;
      var env, listed := FetchForGrading(t, job, a, p);
      if env.None? {
        return;
      }
      var run := RunChecks(listed);
      items := run;
      var total, max := G.GradeChecks(run);
      GradedInSteps(d, n, a, items);
      ok := UpdateScore(t, job, a, total, max);
      if !ok {
        return;
      }
      AttemptRowStays(start, now, a);
      stored := now;
      ghost var s := start;
      Mark();
      ok := FinishGrade(t, job, a);
      Unmark(s);
    }

    method FinishGrade(ghost t: Id, ghost job: Option<Held>, a: Id) returns (ok: bool)
      requires Valid() && On(t, Thread(job, a, TransitionRead(FinishGrading)))
      modifies this
      ensures Valid() && start == old(start) && On(t, Thread(job, a, Done(ok)))
      ensures old(troubles) <= troubles
      ensures troubles == old(troubles) ==>
                a in old(attempts) && old(attempts)[a].status == Grading ==>
                  ok && View() == Queued(Moved(old(View()), a, Scored), old(nextId), CleanupJob, a)
    {
      hide TablesOf, IdsBelow, Reaches;
      ok := TransitionAttempt(t, job, a, FinishGrading);
      if !ok {
        return false;
      }
      EnqueueCleanupLogged(t, job, a);
      return true;
    }

    // ----- handleCleanupEnvironment

    method FindEnvironmentOf(ghost t: Id, ghost job: Option<Held>, a: Id) returns (env: Option<Id>)
      requires Valid() && On(t, Thread(job, a, Cleanup(FindEnvironment)))
      modifies this
      ensures Valid() && start == old(start)
      ensures On(t, Thread(job, a, if env.Some? then Cleanup(SetDestroying(env.value)) else Done(true)))
      ensures old(troubles) <= troubles
      ensures troubles == old(troubles) ==>
                View() == old(View()) && nextId == old(nextId)
                && (env.Some? <==> exists e | e in old(environments) :: old(environments)[e].attempt == a)
                && (env.Some? ==> env.value in old(environments) && old(environments)[env.value].attempt == a)
    {
      hide Reaches, IdsBelow;
      ghost var th := Thread(job, a, Cleanup(FindEnvironment));
      Others(t, th);
      var works := Call();
      env := None;
      if works && exists e | e in environments :: environments[e].attempt == a {
        var e :| e in environments && environments[e].attempt == a;
        assert EnvironmentOf(now, e, a);
        env := Some(e);
      }
      Advance(t, th, Choice(works, 0, if env.Some? then env.value else 0, [], false, "", "", Score(0, 0)));
    }

    method SetEnvironmentStatus(ghost t: Id, ghost job: Option<Held>, ghost a: Id, ghost pc: CleanupPc, e: Id,
                                to: EnvironmentStatus)
      returns (ok: bool)
      requires Valid() && On(t, Thread(job, a, Cleanup(pc))) && SetsStatus(pc, e, to)
      modifies this
      ensures Valid() && start == old(start) && On(t, Thread(job, a, AfterSetting(pc, ok)))
      ensures old(troubles) <= troubles
      ensures troubles == old(troubles) ==>
                ok && View() == EnvironmentMoved(old(View()), e, to) && nextId == old(nextId)
    {
      hide TablesOf, Reaches, IdsBelow, Code, TableOp, SetsStatus, AfterSetting;
      ghost var th := Thread(job, a, Cleanup(pc));
      Others(t, th);
      ok := Call();
      SettingStep(now, th, pc, e, to, ok);
      if ok && e in environments {
        environments := environments[e := environments[e].(status := to)];
      }
      TableOpOnEnvironment(TablesOf(now), e, to);
      Advance(t, th, Answer(ok));
    }

    method AskProvider(ghost t: Id, ghost job: Option<Held>, ghost a: Id, ghost e: Id, destroyed: bool)
      requires Valid() && On(t, Thread(job, a, Cleanup(DestroyVMs(e))))
      modifies this
      ensures Valid() && start == old(start)
      ensures On(t, Thread(job, a, Cleanup(if destroyed then SetDestroyed(e) else SetFailed(e))))
      ensures old(troubles) <= troubles
      ensures troubles == old(troubles) ==> View() == old(View()) && nextId == old(nextId)
    {
      hide Reaches, IdsBelow;
      ghost var th := Thread(job, a, Cleanup(DestroyVMs(e)));
      Others(t, th);
      Advance(t, th, Answer(destroyed));
    }

    // `destroyed` is what the provider answers.
    method HandleCleanupEnvironment(ghost t: Id, ghost job: Option<Held>, a: Id, destroyed: bool) returns (ok: bool)
      requires Valid() && On(t, Thread(job, a, HandlerEntry(CleanupJob)))
      modifies this
      ensures Valid() && start == old(start) && On(t, Thread(job, a, Done(ok)))
      ensures old(troubles) <= troubles
      ensures troubles == old(troubles) ==>
                if exists e | e in old(environments) :: old(environments)[e].attempt == a
                then ok == destroyed && exists e | e in old(environments) && old(environments)[e].attempt == a ::
                       View() == CleanedUp(old(View()), e, a, destroyed)
                else ok && View() == old(View())
    {
      hide TablesOf, IdsBelow, Reaches;
      var env := FindEnvironmentOf(t, job, a);
      if env.None? {
        return true;
      }
      ghost var d := View();
      ok := SetEnvironmentStatus(t, job, a, SetDestroying(env.value), env.value, EnvDestroying);
      if !ok {
        return false;
      }
      ok := DestroyEnvironment(t, job, a, env.value, destroyed);
      EnvironmentMovedTwice(d, env.value, EnvDestroying, if destroyed then EnvDestroyed else EnvFailed);
    }

    method DestroyEnvironment(ghost t: Id, ghost job: Option<Held>, a: Id, e: Id, destroyed: bool) returns (ok: bool)
      requires Valid() && On(t, Thread(job, a, Cleanup(DestroyVMs(e))))
      modifies this
      ensures Valid() && start == old(start) && On(t, Thread(job, a, Done(ok)))
      ensures old(troubles) <= troubles
      ensures troubles == old(troubles) ==> ok == destroyed && View() == CleanedUp(old(View()), e, a, destroyed)
    {
      hide TablesOf, IdsBelow, Reaches, ValidTransition, Moved;
      OnlyPendingIsDestroyed();
      AskProvider(t, job, a, e, destroyed);
      if !destroyed {
        var marked := SetEnvironmentStatus(t, job, a, SetFailed(e), e, EnvFailed);
        return false;
      }
      ok := SetEnvironmentStatus(t, job, a, SetDestroyed(e), e, EnvDestroyed);
      if !ok {
        return false;
      }
      var moved := TransitionAttempt(t, job, a, MarkDestroyed);
      return true;
    }

    // ----- the reconciler's tick

    method ListByStatus(ghost t: Id, ghost a0: Id, ghost pc: SweepPc, st: Status) returns (rows: Option<seq<Id>>)
      requires Valid() && On(t, Thread(None, a0, Sweep(pc)))
      requires match pc
               case ListStale => st == EnvironmentProvisioning
               case ListPending => st == CleanupPending
               case ListTerminal(last) => st == if last then ExpiredBeforeStart else Scored
               case _ => false
      modifies this
      ensures Valid() && start == old(start)
      ensures On(t, Thread(None, a0, AfterListing(pc, rows)))
      ensures old(troubles) <= troubles
      ensures troubles == old(troubles) ==>
                View() == old(View()) && nextId == old(nextId) && rows.Some?
                && (forall a :: a in rows.value <==> HasStatus(old(View()), a, st))
    {
      hide Reaches, IdsBelow, Code, TablesOf, Lists, AfterListing;
      ghost var th := Thread(None, a0, Sweep(pc));
      Others(t, th);
      var works := Call();
      rows := None;
      if works {
        var found := InSomeOrder(set a | a in attempts && attempts[a].status == st);
        ListsShown(now, found, st);
        rows := Some(found);
      }
      ghost var c := Choice(works, 0, 0, if rows.Some? then rows.value else [], false, "", "", Score(0, 0));
      ListingStep(now, th, pc, st, c);
      Advance(t, th, c);
    }

    // An enqueue whose error is only logged.
    method EnqueueCleanupOf(ghost t: Id, ghost a0: Id, ghost pc: SweepPc, a: Id)
      requires Valid() && On(t, Thread(None, a0, Sweep(pc)))
      requires match pc
               case StaleEnqueue(_) => a == a0
               case Pending(todo) => todo != [] && a == todo[0]
               case TerminalEnqueue(_, _) => a == a0
               case _ => false
      modifies this
      ensures Valid() && start == old(start) && On(t, Thread(None, a, Sweep(AfterEnqueue(pc))))
      ensures old(troubles) <= troubles
      ensures troubles == old(troubles) ==>
                View() == Queued(old(View()), old(nextId), CleanupJob, a) && nextId == old(nextId) + 1
    {
      hide Reaches;
      ghost var th := Thread(None, a0, Sweep(pc));
      Others(t, th);
      var works := Call();
      var j := nextId;
      if works {
        jobs, nextId := jobs[j := Job(CleanupJob, a)], nextId + 1;
      }
      Advance(t, th, AnswerWith(works, j));
    }

    // Whether the listed attempt was created longer ago than the threshold.
    method IsStale(ghost t: Id, ghost a0: Id, todo: seq<Id>, aged: set<Id>) returns (stale: bool)
      requires Valid() && On(t, Thread(None, a0, Sweep(Stale(todo)))) && todo != []
      modifies this
      ensures Valid() && start == old(start)
      ensures On(t, if stale then Thread(None, todo[0], TransitionRead(MarkStale(todo[1..])))
                    else Thread(None, a0, Sweep(Stale(todo[1..]))))
      ensures stale == (todo[0] in aged)
      ensures old(troubles) <= troubles
      ensures troubles == old(troubles) ==> View() == old(View()) && nextId == old(nextId)
    {
      hide Reaches, IdsBelow;
      ghost var th := Thread(None, a0, Sweep(Stale(todo)));
      Others(t, th);
      stale := todo[0] in aged;
      Advance(t, th, Choice(true, 0, 0, [], stale, "", "", Score(0, 0)));
    }

    method GiveUp(ghost t: Id, todo: seq<Id>)
      requires todo != [] && Valid() && On(t, Thread(None, todo[0], TransitionRead(MarkStale(todo[1..]))))
      modifies this
      ensures Valid() && start == old(start) && On(t, Thread(None, todo[0], Sweep(Stale(todo[1..]))))
      ensures old(troubles) <= troubles
      ensures troubles == old(troubles) ==>
                var d, a := old(View()), todo[0];
                View() == Queued(if HasStatus(d, a, AttemptRequested) || HasStatus(d, a, EnvironmentProvisioning)
                                 then Moved(d, a, ProvisionFailed) else d,
                                 old(nextId), CleanupJob, a)
    {
      hide TablesOf, IdsBelow, Reaches, ValidTransition, Moved;
      OnlyWaitingFails();
      var moved := TransitionAttempt(t, None, todo[0], MarkStale(todo[1..]));
      EnqueueCleanupOf(t, todo[0], StaleEnqueue(todo[1..]), todo[0]);
    }

    // The end of one of the loops.
    method EndLoop(ghost t: Id, ghost a0: Id, ghost pc: SweepPc)
      requires Valid() && On(t, Thread(None, a0, Sweep(pc)))
      requires pc == Stale([]) || pc == Pending([]) || (pc.Terminal? && pc.todo == [])
      modifies this`now
      ensures Valid()
      ensures On(t, Thread(None, a0, match pc
                                     case Stale(_) => Sweep(ListPending)
                                     case Pending(_) => Sweep(ListTerminal(false))
                                     case Terminal(_, last) => if last then Done(true) else Sweep(ListTerminal(true))
                                     case _ => Sweep(pc)))
    {
      Advance(t, Thread(None, a0, Sweep(pc)), Answer(true));
    }

    lemma JobsAreBelow()
      requires Valid()
      ensures forall j | j in jobs :: j < nextId
    {
      ReachedOk(start, now);
    }

    // `aged` are the attempts created longer ago than the threshold.
    method CleanupStaleProvisioning(ghost t: Id, ghost a0: Id, aged: set<Id>)
      returns (ghost last: Id, ghost done: set<Id>)
      requires Valid() && On(t, Thread(None, a0, Sweep(ListStale)))
      modifies this
      ensures Valid() && start == old(start) && On(t, Thread(None, last, Sweep(ListPending)))
      ensures old(troubles) <= troubles
      ensures troubles == old(troubles) ==>
                && (forall a :: a in done <==> a in aged && HasStatus(old(View()), a, EnvironmentProvisioning))
                && Swept(old(View()), View(), done) && attempts == GivenUpOf(old(attempts), done)
    {
      hide TablesOf, IdsBelow, Reaches, Swept, GivenUpOf, Took;
      last, done := a0, {};
      ghost var chosen := iset a | a in aged;
      SweptNone(View());
      var rows := ListByStatus(t, a0, ListStale, EnvironmentProvisioning);
      if rows.None? {
        return;
      }
      var todo := rows.value;
      ghost var heard := troubles;
      TookNone(todo, chosen, chosen);
      while todo != []
        invariant Valid() && start == old(start) && On(t, Thread(None, last, Sweep(Stale(todo))))
        invariant heard <= troubles
        invariant troubles == old(troubles) ==>
                    && Took(rows.value, todo, done, chosen, chosen)
                    && Swept(old(View()), View(), done) && attempts == GivenUpOf(old(attempts), done)
        decreases |todo|
      {
        JobsAreBelow();
        ghost var d, n, a := View(), nextId, todo[0];
        if troubles == old(troubles) {
          TookNext(rows.value, todo, done, chosen, chosen);
        }
        var stale := IsStale(t, last, todo, aged);
        if stale {
          GiveUp(t, todo);
          SweptMore(old(View()), d, done, n, a);
          if troubles == old(troubles) {
            GivenUpMore(old(attempts), d, done, a);
          }
          last, done := a, done + {a};
        }
        todo := todo[1..];
      }
      if troubles == old(troubles) {
        TookAll(rows.value, done, chosen, chosen);
      }
      EndLoop(t, last, Stale([]));
    }

    method CleanupPendingAttempts(ghost t: Id, ghost a0: Id) returns (ghost last: Id, ghost done: set<Id>)
      requires Valid() && On(t, Thread(None, a0, Sweep(ListPending)))
      modifies this
      ensures Valid() && start == old(start) && On(t, Thread(None, last, Sweep(ListTerminal(false))))
      ensures old(troubles) <= troubles
      ensures troubles == old(troubles) ==>
                && (forall a :: a in done <==> HasStatus(old(View()), a, CleanupPending))
                && Swept(old(View()), View(), done) && attempts == old(attempts)
    {
      hide TablesOf, IdsBelow, Reaches, Swept, Took;
      last, done := a0, {};
      SweptNone(View());
      var rows := ListByStatus(t, a0, ListPending, CleanupPending);
      if rows.None? {
        return;
      }
      var todo := rows.value;
      ghost var heard := troubles;
      ghost var all := iset a | a in rows.value;
      TookNone(todo, all, all);
      while todo != []
        invariant Valid() && start == old(start) && On(t, Thread(None, last, Sweep(Pending(todo))))
        invariant heard <= troubles
        invariant troubles == old(troubles) ==>
                    && Took(rows.value, todo, done, all, all)
                    && Swept(old(View()), View(), done) && attempts == old(attempts)
        decreases |todo|
      {
        JobsAreBelow();
        ghost var d, n, a := View(), nextId, todo[0];
        if troubles == old(troubles) {
          TookNext(rows.value, todo, done, all, all);
        }
        EnqueueCleanupOf(t, last, Pending(todo), todo[0]);
        SweptMore(old(View()), d, done, n, a);
        last, done := a, done + {a};
        todo := todo[1..];
      }
      if troubles == old(troubles) {
        TookAll(rows.value, done, all, all);
      }
      EndLoop(t, last, Pending([]));
    }

    // Whether the attempt has an environment that is not destroyed yet.
    method HasLiveEnvironment(ghost t: Id, ghost a0: Id, todo: seq<Id>, ghost final: bool) returns (live: bool)
      requires Valid() && On(t, Thread(None, a0, Sweep(Terminal(todo, final)))) && todo != []
      modifies this
      ensures Valid() && start == old(start)
      ensures On(t, if live then Thread(None, todo[0], Sweep(TerminalEnqueue(todo[1..], final)))
                    else Thread(None, a0, Sweep(Terminal(todo[1..], final))))
      ensures old(troubles) <= troubles
      ensures troubles == old(troubles) ==>
                View() == old(View()) && nextId == old(nextId)
                && (live ==> SomeLive(old(View()), todo[0])) && (AllLive(old(View()), todo[0]) ==> live)
    {
      hide Reaches, IdsBelow;
      ghost var th := Thread(None, a0, Sweep(Terminal(todo, final)));
      Others(t, th);
      var works := Call();
      live := false;
      ghost var row := 0;
      if works && exists e | e in environments :: environments[e].attempt == todo[0] {
        var e :| e in environments && environments[e].attempt == todo[0];
        assert EnvironmentOf(now, e, todo[0]);
        live := environments[e].status != EnvDestroyed;
        assert live == LiveOf(View(), e, todo[0]);
        row := e;
      }
      Advance(t, th, Choice(works, 0, row, [], false, "", "", Score(0, 0)));
    }

    method CleanupIfLive(ghost t: Id, ghost a0: Id, todo: seq<Id>, ghost final: bool)
      returns (ghost last: Id, ghost live: bool)
      requires Valid() && On(t, Thread(None, a0, Sweep(Terminal(todo, final)))) && todo != []
      modifies this
      ensures Valid() && start == old(start) && On(t, Thread(None, last, Sweep(Terminal(todo[1..], final))))
      ensures old(troubles) <= troubles
      ensures troubles == old(troubles) ==>
                && (live ==> SomeLive(old(View()), todo[0])) && (AllLive(old(View()), todo[0]) ==> live)
                && View() == if live then Queued(old(View()), old(nextId), CleanupJob, todo[0]) else old(View())
    {
      hide TablesOf, IdsBelow, Reaches, SomeLive, AllLive;
      last := a0;
      var found := HasLiveEnvironment(t, a0, todo, final);
      live := found;
      if found {
        EnqueueCleanupOf(t, todo[0], TerminalEnqueue(todo[1..], final), todo[0]);
        last := todo[0];
      }
    }

    method CleanupTerminalStatus(ghost t: Id, ghost a0: Id, final: bool) returns (ghost last: Id, ghost done: set<Id>)
      requires Valid() && On(t, Thread(None, a0, Sweep(ListTerminal(final))))
      modifies this
      ensures Valid() && start == old(start)
      ensures On(t, Thread(None, last, if final then Done(true) else Sweep(ListTerminal(true))))
      ensures old(troubles) <= troubles
      ensures troubles == old(troubles) ==>
                && Swept(old(View()), View(), done) && attempts == old(attempts)
                && CleanedOf(old(View()), if final then ExpiredBeforeStart else Scored, done)
    {
      hide TablesOf, IdsBelow, Reaches, Swept, Took, SomeLive, AllLive, CleanedOf, MayClean, MustClean;
      last, done := a0, {};
      ghost var d0, st := View(), if final then ExpiredBeforeStart else Scored;
      SweptNone(d0);
      var rows := ListByStatus(t, a0, ListTerminal(final), if final then ExpiredBeforeStart else Scored);
      if rows.None? {
        return;
      }
      var todo := rows.value;
      TookNone(todo, MayClean(d0), MustClean(d0));
      ghost var heard := troubles;
      while todo != []
        invariant Valid() && start == old(start) && On(t, Thread(None, last, Sweep(Terminal(todo, final))))
        invariant heard <= troubles
        invariant troubles == old(troubles) ==>
                    && Took(rows.value, todo, done, MayClean(d0), MustClean(d0))
                    && Swept(d0, View(), done) && attempts == d0.attempts && environments == d0.environments
        decreases |todo|
      {
        JobsAreBelow();
        ghost var d, n, a := View(), nextId, todo[0];
        ghost var live;
        last, live := CleanupIfLive(t, last, todo, final);
        if troubles == old(troubles) {
          TookIfLive(d0, d, rows.value, todo, done, live);
          SweptMore(d0, d, done, n, a);
        }
        todo, done := todo[1..], if live then done + {a} else done;
      }
      if troubles == old(troubles) {
        TookTheLive(d0, st, rows.value, done);
      }
      EndLoop(t, last, Terminal([], final));
    }

    // A tick never fails. Undisturbed, it gives up the aged attempts that are still provisioning, and queues
    // a cleanup for each of them, for each attempt pending cleanup, and for the scored and the never started
    // ones that have an environment that is not destroyed.
    method Reconcile(ghost t: Id, aged: set<Id>)
        returns (ghost stale: set<Id>, ghost pending: set<Id>, ghost scored: set<Id>, ghost unstarted: set<Id>)
      requires Valid() && On(t, Entry(CallReconcile))
      modifies this
      ensures Valid() && start == old(start)
      ensures t in now.threads && now.threads[t].job == None && now.threads[t].pc == Done(true)
      ensures old(troubles) <= troubles
      ensures troubles == old(troubles) ==>
                && (forall a :: a in stale <==> a in aged && HasStatus(old(View()), a, EnvironmentProvisioning))
                && (forall a :: a in pending <==> HasStatus(old(View()), a, CleanupPending))
                && CleanedOf(old(View()), Scored, scored) && CleanedOf(old(View()), ExpiredBeforeStart, unstarted)
                && Swept(old(View()), View(), stale + pending + scored + unstarted)
                && attempts == GivenUpOf(old(attempts), stale)
    {
      hide TablesOf, IdsBelow, Reaches, Swept, CleanedOf, GivenUpOf;
      ghost var d0 := View();
      ghost var last;
      last, stale := CleanupStaleProvisioning(t, 0, aged);
      ghost var d1 := View();
      last, pending := CleanupPendingAttempts(t, last);
      ghost var d2 := View();
      last, scored := CleanupTerminalStatus(t, last, false);
      ghost var d3 := View();
      last, unstarted := CleanupTerminalStatus(t, last, true);
      if troubles == old(troubles) {
        GivingUpElsewhere(d0, d1, stale, CleanupPending);
        GivingUpElsewhere(d0, d1, stale, Scored);
        GivingUpElsewhere(d0, d1, stale, ExpiredBeforeStart);
        SweptTwice(d0, d1, d2, stale, pending);
        SweptTwice(d0, d2, d3, stale + pending, scored);
        SweptTwice(d0, d3, View(), stale + pending + scored, unstarted);
        CleanedElsewhere(d0, d2, Scored, scored);
        CleanedElsewhere(d0, d3, ExpiredBeforeStart, unstarted);
      }
    }

    // ----- the first opening of the terminal, from the token to the dial

    ghost predicate AtGate(t: Id, x: Id, row: Session)
      reads this`now
    {
      On(t, Thread(None, row.attempt, Client(GateStatus(x, row.firstOpened))))
    }

    method LookUpSession(ghost t: Id, token: Id) returns (session: Option<Id>)
      requires Valid() && On(t, Entry(CallOpenTerminal(token)))
      modifies this
      ensures Valid() && start == old(start)
      ensures session.None? ==> On(t, Thread(None, 0, Done(false)))
      ensures session.Some? ==> session.value in sessions && AtGate(t, session.value, sessions[session.value])
      ensures old(troubles) <= troubles
      ensures troubles == old(troubles) ==>
                View() == old(View()) && nextId == old(nextId)
                && (session.Some? <==> exists x | x in old(sessions) :: old(sessions)[x].token == token)
      ensures session.Some? ==> sessions[session.value].token == token
      ensures session.Some? ==>
                session.value in now.sessions && now.sessions[session.value] == sessions[session.value]
    {
      hide Reaches, IdsBelow;
      ghost var th := Entry(CallOpenTerminal(token));
      Others(t, th);
      var works := Call();
      session := None;
      if works && exists x | x in sessions :: sessions[x].token == token {
        var x :| x in sessions && sessions[x].token == token;
        session := Some(x);
      }
      Advance(t, th,
              Choice(session.Some?, 0, if session.Some? then session.value else 0, [], false, "", "", Score(0, 0)));
    }

    method CheckGate(ghost t: Id, a: Id, x: Id, ghost seen: bool) returns (ok: bool)
      requires Valid() && On(t, Thread(None, a, Client(GateStatus(x, seen))))
      modifies this
      ensures Valid() && start == old(start)
      ensures On(t, Thread(None, a, if ok then Client(LoadEnvironment(x, seen)) else Done(false)))
      ensures old(troubles) <= troubles
      ensures troubles == old(troubles) ==>
                && View() == old(View()) && nextId == old(nextId)
                && (ok <==> a in old(attempts) && Active(old(attempts)[a].status))
      ensures ok ==> a in now.attempts && Active(now.attempts[a].status)
    {
      hide Reaches, IdsBelow;
      ghost var th := Thread(None, a, Client(GateStatus(x, seen)));
      Others(t, th);
      var works := Call();
      ok := works && a in attempts && GateOpen(attempts[a].status);
      Advance(t, th, Answer(works));
    }

    // The session's environment row, which exists and has an address.
    method LoadSessionEnvironment(ghost t: Id, ghost a: Id, x: Id, seen: bool) returns (ip: Option<string>)
      requires Valid() && On(t, Thread(None, a, Client(LoadEnvironment(x, seen))))
      modifies this
      ensures Valid() && start == old(start)
      ensures On(t, Thread(None, a, if ip.None? then Done(false) else if seen then Done(true)
                                    else Client(StampOpened(x))))
      ensures ip.Some? ==> SessionAddress(now, x) == ip
      ensures old(troubles) <= troubles
      ensures troubles == old(troubles) ==>
                && View() == old(View()) && nextId == old(nextId) && ip.Some?
    {
      hide Reaches, IdsBelow;
      ghost var th := Thread(None, a, Client(LoadEnvironment(x, seen)));
      Others(t, th);
      ReachedOk(start, now);
      assert ThreadOk(now, t, th) && SessionOk(now, now.sessions[x]);
      assert EnvironmentOk(now.environments[now.sessions[x].environment]);
      var works := Call();
      ip := if works then environments[sessions[x].environment].workstationIP else None;
      Advance(t, th, Answer(works));
    }

    method StampFirstOpened(ghost t: Id, ghost a: Id, x: Id)
      requires Valid() && On(t, Thread(None, a, Client(StampOpened(x))))
      modifies this
      ensures Valid() && start == old(start) && On(t, Thread(None, a, TransitionRead(OpenTerminal)))
      ensures old(troubles) <= troubles
      ensures troubles == old(troubles) ==> nextId == old(nextId) && View() == SessionOpened(old(View()), x)
    {
      hide TablesOf, Reaches, IdsBelow, Code;
      ghost var th := Thread(None, a, Client(StampOpened(x)));
      Others(t, th);
      var works := Call();
      if works && x in sessions {
        sessions := sessions[x := sessions[x].(firstOpened := true)];
      }
      StampStep(now, th, x, works);
      Advance(t, th, Answer(works));
    }

    method FirstOpening(ghost t: Id, a: Id, x: Id)
      requires Valid() && On(t, Thread(None, a, Client(StampOpened(x))))
      modifies this
      ensures Valid() && start == old(start) && On(t, Thread(None, a, Done(true)))
      ensures old(troubles) <= troubles
      ensures troubles == old(troubles) ==> View() == OpenedFirst(old(View()), x, a)
    {
      hide TablesOf, IdsBelow, Reaches, SessionOpened, Moved;
      OpenedInSteps(View(), x, a);
      StampFirstOpened(t, a, x);
      StartRunning(t, a);
    }

    // The two transitions of a first opening; both errors are ignored.
    method StartRunning(ghost t: Id, a: Id)
      requires Valid() && On(t, Thread(None, a, TransitionRead(OpenTerminal)))
      modifies this
      ensures Valid() && start == old(start) && On(t, Thread(None, a, Done(true)))
      ensures old(troubles) <= troubles
      ensures troubles == old(troubles) ==>
                View() == if HasStatus(old(View()), a, EnvironmentReady) || HasStatus(old(View()), a, TerminalOpened)
                          then Moved(old(View()), a, Running) else old(View())
    {
      hide TablesOf, IdsBelow, Reaches, Moved, ValidTransition;
      OpeningTransitions(View(), a);
      var moved := TransitionAttempt(t, None, a, OpenTerminal);
      moved := TransitionAttempt(t, None, a, AttemptProtocol.StartRunning);
    }

    // The token's session and the status gate. `stored` is the state in which the gate was passed.
    method PassGate(ghost t: Id, token: Id) returns (session: Option<Id>, a: Id, seen: bool, ghost stored: State)
      requires Valid() && On(t, Entry(CallOpenTerminal(token)))
      modifies this
      ensures Valid() && start == old(start)
      ensures session.None? ==> t in now.threads && now.threads[t].pc == Done(false)
      ensures session.Some? ==>
                && On(t, Thread(None, a, Client(LoadEnvironment(session.value, seen))))
                && stored == now && Gated(now, session.value, token, a)
      ensures old(troubles) <= troubles
      ensures troubles == old(troubles) ==> View() == old(View()) && nextId == old(nextId)
      ensures troubles == old(troubles) && (forall x | x in old(sessions) :: old(sessions)[x].token != token) ==>
                session.None?
      ensures troubles == old(troubles) && (exists x | x in old(sessions) :: old(sessions)[x].token == token) ==>
                exists x | x in old(sessions) && old(sessions)[x].token == token ::
                  && (session.Some? <==> ActiveSession(old(View()), x))
                  && (session.Some? ==>
                        session.value == x && a == old(sessions)[x].attempt && seen == old(sessions)[x].firstOpened)
    {
      hide TablesOf, IdsBelow, Reaches;
      stored, a, seen := now, 0, false;
      session := LookUpSession(t, token);
      if session.None? {
        return;
      }
      var x := session.value;
      var b := sessions[x].attempt;
      a, seen := b, sessions[x].firstOpened;
      ghost var s := start;
      Mark();
      var ok := CheckGate(t, b, x, seen);
      ReachedRowsStay(start, now);
      stored := now;
      if !ok {
        session := None;
      }
      Unmark(s);
    }

    // The address to dial, after the status gate and the two transitions of the first opening. It is given
    // only after a state in which the attempt of the session with this token was active, and it is that of
    // the session's environment. Undisturbed, it is given exactly then.
    method HandleWebSocket(ghost t: Id, token: Id) returns (ip: Option<string>, ghost stored: State)
      requires Valid() && On(t, Entry(CallOpenTerminal(token)))
      modifies this
      ensures Valid() && start == old(start)
      ensures t in now.threads && now.threads[t].pc == Done(ip.Some?)
      ensures ip.Some? ==> Reaches(start, stored) && Reaches(stored, now) && TerminalOf(stored, token, ip.value)
      ensures old(troubles) <= troubles
      ensures troubles == old(troubles) && (forall x | x in old(sessions) :: old(sessions)[x].token != token) ==>
                ip.None? && View() == old(View())
      ensures troubles == old(troubles) && (exists x | x in old(sessions) :: old(sessions)[x].token == token) ==>
                exists x | x in old(sessions) && old(sessions)[x].token == token ::
                  && (ip.Some? <==> ActiveSession(old(View()), x))
                  && View() == (if ip.Some? then TerminalGiven(old(View()), x) else old(View()))
    {
      hide TablesOf, IdsBelow, Reaches, OpenedFirst, Gated, TerminalOf;
      ip := None;
      var session, a, seen;
      session, a, seen, stored := PassGate(t, token);
      if session.None? {
        return;
      }
      ghost var s := start;
      Mark();
      ip := Dial(t, a, session.value, seen, token);
      Unmark(s);
    }

    method Dial(ghost t: Id, a: Id, x: Id, seen: bool, ghost token: Id) returns (ip: Option<string>)
      requires Valid() && On(t, Thread(None, a, Client(LoadEnvironment(x, seen))))
      requires start == now && Gated(now, x, token, a)
      modifies this
      ensures Valid() && start == old(start)
      ensures t in now.threads && now.threads[t].pc == Done(ip.Some?)
      ensures ip.Some? ==> TerminalOf(start, token, ip.value)
      ensures old(troubles) <= troubles
      ensures troubles == old(troubles) ==>
                ip.Some? && View() == if seen then old(View()) else OpenedFirst(old(View()), x, a)
    {
      hide TablesOf, IdsBelow, Reaches, OpenedFirst, Gated, TerminalOf;
      ip := LoadSessionEnvironment(t, a, x, seen);
      if ip.Some? {
        GatedTerminal(start, now, x, token, a, ip.value);
        if !seen {
          FirstOpening(t, a, x);
        }
      }
    }

    // ----- GenericWorker.Work on a delivered job, and the queue completing it when it returns nil

    method Dispatch(ghost t: Id, ghost held: Option<Held>, job: Job) returns (ok: bool)
      requires Valid() && On(t, Thread(held, job.attempt, HandlerEntry(job.kind)))
      modifies this
      ensures Valid() && start == old(start) && On(t, Thread(held, job.attempt, Done(ok)))
    {
      match job.kind {
        case ProvisionJob =>
          var answer: Built := *;
          var plays: bool := *;
          ok := HandleProvisionEnvironment(t, held, job.attempt, answer, plays);
        case GradeJob =>
          ghost var stored, items;
          ok, stored, items := GradeAttempt(t, held, job.attempt);
        case CleanupJob =>
          var destroyed: bool := *;
          ok := HandleCleanupEnvironment(t, held, job.attempt, destroyed);
        case ExpireJob => ok := HandleExpireAttempt(t, held, job.attempt);
      }
    }

    method Complete(ghost t: Id, ghost held: Held, j: Id, ghost a: Id, ok: bool)
      requires Valid() && On(t, Thread(Some(held), a, Done(ok))) && held.id == j
      modifies this
      ensures Valid() && start == old(start) && now == ReturnState(old(now), t)
      ensures jobs == if ok then Remove(old(jobs), j) else old(jobs)
    {
      ReachesOn(start, now, Return(t));
      now := Apply(now, Return(t));
      if ok {
        jobs := Remove(jobs, j);
      }
    }

    // The job is dropped when its handler returns nil and at no other time: the last thing that happens is
    // the return of the handler from the state `end`.
    method Work(ghost t: Id, j: Id) returns (ok: bool, ghost end: State)
      requires Valid() && j in jobs && t !in now.born
      modifies this
      ensures Valid() && start == old(start) && Reaches(start, end)
      ensures t in end.threads
      ensures end.threads[t] == Thread(Some(Held(j, old(jobs[j].kind))), old(jobs[j].attempt), Done(ok))
      ensures now == ReturnState(end, t) && jobs == if ok then Remove(end.jobs, j) else end.jobs
    {
      var job := jobs[j];
      StartDelivery(t, j);
      ok := Dispatch(t, Some(Held(j, job.kind)), job);
      end := now;
      Complete(t, Held(j, job.kind), j, job.attempt, ok);
    }
  }

  // Every check is run, whatever comes of it.
  method RunChecks(listed: seq<CheckRow>) returns (items: seq<G.Item>)
    ensures G.Checks(items) == listed
  {
    items := [];
    for i := 0 to |listed|
      invariant |items| == i && forall k | 0 <= k < i :: items[k].check == listed[k]
    {
      var run: G.Run := *;
      items := items + [G.Item(listed[i], run)];
    }
  }

  // Rows with equal time stamps come in any order.
  method InAnyOrder(rows: seq<CheckRow>) returns (r: seq<CheckRow>)
    ensures multiset(r) == multiset(rows)
  {
    r := [];
    var rest := rows;
    while rest != []
      invariant multiset(r) + multiset(rest) == multiset(rows)
      decreases |rest|
    {
      var k :| 0 <= k < |rest|;
      assert rest == rest[..k] + [rest[k]] + rest[k + 1..];
      r, rest := r + [rest[k]], rest[..k] + rest[k + 1..];
    }
  }

  // The calls of a cleanup and of a listing, one by one.
  predicate SetsStatus(pc: CleanupPc, e: Id, to: EnvironmentStatus) {
    match pc
    case SetDestroying(x) => x == e && to == EnvDestroying
    case SetFailed(x) => x == e && to == EnvFailed
    case SetDestroyed(x) => x == e && to == EnvDestroyed
    case _ => false
  }

  function AfterSetting(pc: CleanupPc, ok: bool): Pc {
    match pc
    case SetDestroying(e) => if ok then Cleanup(DestroyVMs(e)) else Done(false)
    case SetDestroyed(_) => if ok then TransitionRead(MarkDestroyed) else Done(false)
    case _ => Done(false)
  }

  lemma TableOpOnStatus(d: Tables, a: Id, site: Site)
    ensures TableOp(d, SetStatus(a, site)) == Moved(d, a, Target(site)) && TableOp(d, Noop) == d
  {
  }

  lemma TableOpOnEnvironment(d: Tables, e: Id, to: EnvironmentStatus)
    ensures TableOp(d, SetEnvironmentStatus(e, to)) == EnvironmentMoved(d, e, to) && TableOp(d, Noop) == d
  {
  }

  lemma SettingStep(s: State, th: Thread, pc: CleanupPc, e: Id, to: EnvironmentStatus, ok: bool)
    requires th.pc == Cleanup(pc) && SetsStatus(pc, e, to)
    ensures Code(s, th, Answer(ok)) ==
            Do(th, if ok then SetEnvironmentStatus(e, to) else Noop, AfterSetting(pc, ok))
  {
  }

  lemma EnqueueStep(s: State, th: Thread, pc: ClientPc, kind: JobKind, ok: bool, j: Id)
    requires th.pc == Client(pc) && (ok ==> j !in s.epochs)
    requires (pc == EnqueueGrade && kind == GradeJob) || (pc == EnqueueProvision && kind == ProvisionJob)
          || (pc == EnqueueRegrade && kind == GradeJob) || (pc == EnqueueDestroy && kind == CleanupJob)
    ensures Code(s, th, AnswerWith(ok, j)) == Do(th, if ok then Enqueue(j, kind, th.attempt) else Noop, Done(ok))
  {
  }

  lemma RefundStep(s: State, th: Thread, ok: bool)
    requires th.pc == Provision(FailRefund)
    ensures Code(s, th, Answer(ok)) == Do(th, if ok then Refund(th.attempt) else Forgo(th.attempt), Done(true))
  {
  }

  lemma StampStep(s: State, th: Thread, x: Id, ok: bool)
    requires th.pc == Client(StampOpened(x))
    ensures Code(s, th, Answer(ok)) == Do(th, if ok then SetOpened(x) else Noop, TransitionRead(OpenTerminal))
  {
  }

  lemma WriteStep(s: State, th: Thread, site: Site, seen: Status, ok: bool)
    requires th.pc == TransitionWrite(site, seen)
    ensures Code(s, th, Answer(ok)) ==
            if ok then Do(th, SetStatus(th.attempt, site), AfterSuccess(site)) else Goto(th, AfterFailure(site))
  {
  }

  lemma ListsShown(s: State, found: seq<Id>, st: Status)
    requires forall i, j | 0 <= i < j < |found| :: found[i] != found[j]
    requires forall a :: a in found <==> a in TablesOf(s).attempts && TablesOf(s).attempts[a].status == st
    ensures Lists(s, found, st)
  {
  }

  lemma ListingStep(s: State, th: Thread, pc: SweepPc, st: Status, c: Choice)
    requires th.pc == Sweep(pc) && (c.ok ==> Lists(s, c.rows, st))
    requires match pc
             case ListStale => st == EnvironmentProvisioning
             case ListPending => st == CleanupPending
             case ListTerminal(last) => st == if last then ExpiredBeforeStart else Scored
             case _ => false
    ensures Code(s, th, c) == Effect(Noop, AfterListing(pc, if c.ok then Some(c.rows) else None), th.attempt)
  {
  }

  // Where a sweep goes after a listing, and after an enqueue.
  function AfterListing(pc: SweepPc, rows: Option<seq<Id>>): Pc {
    match pc
    case ListStale => Sweep(if rows.Some? then Stale(rows.value) else ListPending)
    case ListPending => Sweep(if rows.Some? then Pending(rows.value) else ListTerminal(false))
    case ListTerminal(last) =>
      if rows.Some? then Sweep(Terminal(rows.value, last)) else if last then Done(true) else Sweep(ListTerminal(true))
    case _ => Sweep(pc)
  }

  function AfterEnqueue(pc: SweepPc): SweepPc {
    match pc
    case StaleEnqueue(todo) => Stale(todo)
    case Pending(todo) => if todo == [] then pc else Pending(todo[1..])
    case TerminalEnqueue(todo, last) => Terminal(todo, last)
    case _ => pc
  }

  method InSomeOrder(ids: set<Id>) returns (rows: seq<Id>)
    ensures (forall i, j | 0 <= i < j < |rows| :: rows[i] != rows[j]) && forall a :: a in rows <==> a in ids
  {
    rows := [];
    var rest := ids;
    while rest != {}
      invariant forall i, j | 0 <= i < j < |rows| :: rows[i] != rows[j]
      invariant rest <= ids && forall a :: a in rows <==> a in ids && a !in rest
    {
      var a :| a in rest;
      rows, rest := rows + [a], rest - {a};
    }
  }

  function Answer(ok: bool): Choice { Choice(ok, 0, 0, [], false, "", "", Score(0, 0)) }

  function AnswerWith(ok: bool, id: Id): Choice { Choice(ok, id, 0, [], false, "", "", Score(0, 0)) }
}
