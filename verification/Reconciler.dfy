/**
 The periodic sweeps and the cleanup jobs they enqueue. Here nothing runs in between: the question is
 where one tick and the jobs it leaves behind take the tables.
 */
module Reconciler {
  import opened Wrappers
  import opened AttemptLifecycle
  import P = AttemptProtocol

  datatype Attempt = Attempt(id: nat, status: Status, created: int)

  // machines are those listed in the provider metadata.
  datatype Environment = Environment(attempt: nat, status: P.EnvironmentStatus, machines: set<string>)

  datatype Store = Store(attempts: seq<Attempt>, environments: seq<Environment>, live: set<string>)

  // ----- one cleanup job

  // The row that a lookup by attempt gives: of several, the first.
  predicate IsFirst(envs: seq<Environment>, i: int) {
    0 <= i < |envs| && forall k | 0 <= k < i :: envs[k].attempt != envs[i].attempt
  }

  ghost predicate HasEnvironment(envs: seq<Environment>, a: nat) {
    exists i :: 0 <= i < |envs| && envs[i].attempt == a
  }

  function Destroy(row: Environment): Environment {
    row.(status := P.EnvDestroyed)
  }

  function Finish(row: Attempt): Attempt {
    if ValidTransition(row.status, Destroyed) then row.(status := Destroyed) else row
  }

  // The machines of the environments that cleanup jobs for these attempts find.
  function Doomed(envs: seq<Environment>, jobs: set<nat>): set<string> {
    set i, m | 0 <= i < |envs| && IsFirst(envs, i) && envs[i].attempt in jobs && m in envs[i].machines :: m
  }

  // The tables after a cleanup for each of the given attempts, in whatever order and however often, when the
  // provider got these machines deleted. It drops the errors of the other deletions.
  ghost function Cleaned(s: Store, jobs: set<nat>, gone: set<string>): Store {
    Store(seq(|s.attempts|, k requires 0 <= k < |s.attempts| =>
                if s.attempts[k].id in jobs && HasEnvironment(s.environments, s.attempts[k].id)
                then Finish(s.attempts[k]) else s.attempts[k]),
          seq(|s.environments|, i requires 0 <= i < |s.environments| =>
                if IsFirst(s.environments, i) && s.environments[i].attempt in jobs
                then Destroy(s.environments[i]) else s.environments[i]),
          s.live - gone)
  }

  lemma SameRows(s: Store, jobs: set<nat>, gone: set<string>)
    ensures var t := Cleaned(s, jobs, gone);
            && |t.environments| == |s.environments| && |t.attempts| == |s.attempts|
            && (forall i | 0 <= i < |s.environments| ::
                  && t.environments[i].attempt == s.environments[i].attempt
                  && t.environments[i].machines == s.environments[i].machines
                  && IsFirst(t.environments, i) == IsFirst(s.environments, i))
            && (forall k | 0 <= k < |s.attempts| :: t.attempts[k].id == s.attempts[k].id)
            && (forall a :: HasEnvironment(t.environments, a) == HasEnvironment(s.environments, a))
  {
    var t := Cleaned(s, jobs, gone);
    forall i | 0 <= i < |s.environments| ensures t.environments[i].attempt == s.environments[i].attempt {
    }
    forall a ensures HasEnvironment(t.environments, a) == HasEnvironment(s.environments, a) {
      if i :| 0 <= i < |s.environments| && s.environments[i].attempt == a {
        assert t.environments[i].attempt == a;
      }
    }
  }

  // Doing some cleanups and then others is doing all of them: order and repetition do not matter.
  lemma CleanedTwice(s: Store, a: set<nat>, g: set<string>, b: set<nat>, h: set<string>)
    ensures Cleaned(Cleaned(s, a, g), b, h) == Cleaned(s, a + b, g + h)
  {
    SameRows(s, a, g);
    var u, v := Cleaned(Cleaned(s, a, g), b, h), Cleaned(s, a + b, g + h);
    forall k | 0 <= k < |s.attempts| ensures u.attempts[k] == v.attempts[k] {
      FinishTwice(s.attempts[k]);
    }
    forall i | 0 <= i < |s.environments| ensures u.environments[i] == v.environments[i] {
    }
    assert s.live - g - h == s.live - (g + h);
  }

  lemma FinishTwice(row: Attempt)
    ensures Finish(Finish(row)) == Finish(row)
  {
  }

  lemma DoomedLater(envs: seq<Environment>, later: seq<Environment>, jobs: set<nat>)
    requires |later| == |envs|
    requires forall i | 0 <= i < |envs| ::
               && later[i].attempt == envs[i].attempt && later[i].machines == envs[i].machines
               && IsFirst(later, i) == IsFirst(envs, i)
    ensures Doomed(later, jobs) == Doomed(envs, jobs)
  {
  }

  lemma DoomedMore(envs: seq<Environment>, a: set<nat>, b: set<nat>)
    ensures Doomed(envs, a) + Doomed(envs, b) == Doomed(envs, a + b)
  {
  }

  // What a repeated cleanup does: the rows stay as they are, and so do the machines it does not delete.
  lemma RepeatTakes(s: Store, a: nat, gone: set<string>, started: set<string>, again: set<string>)
    ensures var t := Cleaned(s, {a}, gone); var u := t.(live := t.live + started);
            Cleaned(u, {a}, again) == u.(live := u.live - again)
  {
    var t := Cleaned(s, {a}, gone);
    var u := t.(live := t.live + started);
    CleanedTwice(s, {a}, gone, {a}, again);
    assert {a} + {a} == {a};
    SameRows(s, {a}, gone);
    assert Cleaned(u, {a}, again).attempts == Cleaned(t, {a}, again).attempts;
    assert Cleaned(u, {a}, again).environments == Cleaned(t, {a}, again).environments;
  }

  // A repeated cleanup takes nothing away, whatever of it succeeds, exactly when none of the machines
  // listed has been started again under its name since or was left over by the first.
  lemma RepeatIsHarmlessExactlyWhen(s: Store, a: nat, gone: set<string>, started: set<string>)
    ensures var t, listed := Cleaned(s, {a}, gone), Doomed(s.environments, {a});
            var u := t.(live := t.live + started);
            (forall again | again <= listed :: Cleaned(u, {a}, again) == u) <==>
              listed !! started && listed !! s.live - gone
  {
    var t, listed := Cleaned(s, {a}, gone), Doomed(s.environments, {a});
    var u := t.(live := t.live + started);
    forall again | again <= listed ensures Cleaned(u, {a}, again) == u.(live := u.live - again) {
      RepeatTakes(s, a, gone, started, again);
    }
    if listed !! started && listed !! s.live - gone {
      forall again | again <= listed ensures u.live - again == u.live {
        assert u.live == s.live - gone + started;
      }
    } else {
      assert listed <= listed;
      var m :| m in listed && (m in started || m in s.live - gone);
      assert m in u.live && m !in u.live - listed;
    }
  }

  // ----- one tick

  ghost predicate Stale(row: Attempt, threshold: int) {
    row.status == EnvironmentProvisioning && row.created < threshold
  }

  // A scored or never started attempt whose environment, as the lookup finds it, is not destroyed.
  ghost predicate NeedsCleanup(envs: seq<Environment>, a: nat) {
    exists i :: 0 <= i < |envs| && IsFirst(envs, i) && envs[i].attempt == a && envs[i].status != P.EnvDestroyed
  }

  predicate Terminal(st: Status) {
    st == Scored || st == ExpiredBeforeStart
  }

  ghost function StaleIds(attempts: seq<Attempt>, threshold: int): set<nat> {
    set k | 0 <= k < |attempts| && Stale(attempts[k], threshold) :: attempts[k].id
  }

  ghost function PendingIds(attempts: seq<Attempt>): set<nat> {
    set k | 0 <= k < |attempts| && attempts[k].status == CleanupPending :: attempts[k].id
  }

  ghost function TerminalIds(s: Store): set<nat> {
    set k | 0 <= k < |s.attempts| && Terminal(s.attempts[k].status) && NeedsCleanup(s.environments, s.attempts[k].id)
      :: s.attempts[k].id
  }

  // The attempts for which a tick enqueues a cleanup job.
  ghost function Wanted(s: Store, threshold: int): set<nat> {
    StaleIds(s.attempts, threshold) + PendingIds(s.attempts) + TerminalIds(s)
  }

  function GiveUp(row: Attempt): Attempt {
    row.(status := ProvisionFailed)
  }

  ghost function GivenUp(attempts: seq<Attempt>, threshold: int): seq<Attempt> {
    seq(|attempts|, k requires 0 <= k < |attempts| =>
          if Stale(attempts[k], threshold) then GiveUp(attempts[k]) else attempts[k])
  }

  ghost function Ticked(s: Store, threshold: int): Store {
    s.(attempts := GivenUp(s.attempts, threshold))
  }

  // ----- where a tick and its jobs lead

  ghost predicate UniqueIds(attempts: seq<Attempt>) {
    forall i, j | 0 <= i < j < |attempts| :: attempts[i].id != attempts[j].id
  }

  // The tables after a tick and a drain of all jobs, those already queued included.
  ghost function Settled(s: Store, threshold: int, queued: set<nat>, gone: set<string>): Store {
    Cleaned(Ticked(s, threshold), queued + Wanted(s, threshold), gone)
  }

  lemma SettledRows(s: Store, threshold: int, queued: set<nat>, gone: set<string>)
    ensures var t := Settled(s, threshold, queued, gone);
            && |t.environments| == |s.environments| && |t.attempts| == |s.attempts|
            && (forall i | 0 <= i < |s.environments| ::
                  && t.environments[i].attempt == s.environments[i].attempt
                  && IsFirst(t.environments, i) == IsFirst(s.environments, i))
            && (forall k | 0 <= k < |s.attempts| :: t.attempts[k].id == s.attempts[k].id)
            && (forall a :: HasEnvironment(t.environments, a) == HasEnvironment(s.environments, a))
  {
    SameRows(Ticked(s, threshold), queued + Wanted(s, threshold), gone);
  }

  // Every attempt that is scored or never started ends up with its environment destroyed.
  lemma TerminalSettled(s: Store, threshold: int, queued: set<nat>, gone: set<string>, k: nat)
    requires k < |s.attempts| && s.attempts[k].status in {Scored, ExpiredBeforeStart}
    ensures var envs := Settled(s, threshold, queued, gone).environments;
            forall i | 0 <= i < |envs| && IsFirst(envs, i) && envs[i].attempt == s.attempts[k].id ::
              envs[i].status == P.EnvDestroyed
  {
    var t := Settled(s, threshold, queued, gone);
    SettledRows(s, threshold, queued, gone);
    var a := s.attempts[k].id;
    if NeedsCleanup(s.environments, a) {
      assert a in TerminalIds(s);
    }
    forall i | 0 <= i < |t.environments| && IsFirst(t.environments, i) && t.environments[i].attempt == a
      ensures t.environments[i].status == P.EnvDestroyed
    {
      assert s.environments[i].status != P.EnvDestroyed ==> NeedsCleanup(s.environments, a);
    }
  }

  // An attempt's status changes only from provisioning to failed and from cleanup_pending to destroyed.
  lemma StatusSettled(s: Store, threshold: int, queued: set<nat>, gone: set<string>, k: nat)
    requires k < |s.attempts|
    ensures var st, a := s.attempts[k].status, s.attempts[k].id;
            Settled(s, threshold, queued, gone).attempts[k].status ==
              if st == EnvironmentProvisioning && s.attempts[k].created < threshold then ProvisionFailed
              else if st == CleanupPending && HasEnvironment(s.environments, a) then Destroyed
              else st
  {
    if s.attempts[k].status == CleanupPending {
      assert s.attempts[k].id in PendingIds(s.attempts);
    }
  }

  // With one environment for the attempt the row is destroyed, exactly the machines stay whose deletion
  // failed, and no later tick asks for a cleanup of this attempt again.
  lemma OneEnvironmentIsGone(s: Store, threshold: int, queued: set<nat>, gone: set<string>, k: nat, i: nat, later: int)
    requires UniqueIds(s.attempts) && k < |s.attempts| && s.attempts[k].status in {Scored, ExpiredBeforeStart}
    requires i < |s.environments| && s.environments[i].attempt == s.attempts[k].id
    requires s.environments[i].status != P.EnvDestroyed
    requires forall j | 0 <= j < |s.environments| && s.environments[j].attempt == s.attempts[k].id :: j == i
    ensures var t, machines := Settled(s, threshold, queued, gone), s.environments[i].machines;
            && t.environments[i].status == P.EnvDestroyed
            && t.live * machines == s.live * machines - gone
            && s.attempts[k].id !in Wanted(t, later)
  {
    var a, t := s.attempts[k].id, Settled(s, threshold, queued, gone);
    assert IsFirst(s.environments, i) && NeedsCleanup(s.environments, a);
    assert a in TerminalIds(s);
    SettledRows(s, threshold, queued, gone);
    TerminalSettled(s, threshold, queued, gone, k);
    StatusSettled(s, threshold, queued, gone, k);
    forall j | 0 <= j < |t.attempts| && t.attempts[j].id == a ensures j == k {
      assert s.attempts[j].id == s.attempts[k].id;
    }
    MachinesSettled(s, threshold, queued, gone, i);
    hide Settled;
    NeverWanted(t, later, k);
  }

  // A row found by a cleanup that is asked for is destroyed.
  lemma MachinesSettled(s: Store, threshold: int, queued: set<nat>, gone: set<string>, i: nat)
    requires i < |s.environments| && IsFirst(s.environments, i)
    requires s.environments[i].attempt in Wanted(s, threshold)
    ensures Settled(s, threshold, queued, gone).environments[i].status == P.EnvDestroyed
    ensures Settled(s, threshold, queued, gone).live == s.live - gone
  {
  }

  lemma NeverWanted(t: Store, later: int, k: nat)
    requires k < |t.attempts| && Terminal(t.attempts[k].status) && !NeedsCleanup(t.environments, t.attempts[k].id)
    requires forall j | 0 <= j < |t.attempts| && t.attempts[j].id == t.attempts[k].id :: j == k
    ensures t.attempts[k].id !in Wanted(t, later)
  {
  }

  // With several, a row other than the first stays as it is; so all of them are destroyed exactly when
  // the others already were.
  lemma OnlyTheFirstEnvironmentGoes(s: Store, threshold: int, queued: set<nat>, gone: set<string>, k: nat)
    requires k < |s.attempts| && s.attempts[k].status in {Scored, ExpiredBeforeStart}
    ensures var t, a := Settled(s, threshold, queued, gone), s.attempts[k].id;
            AllDestroyed(t.environments, a) <==> OthersDestroyed(s.environments, a)
  {
    var t, a := Settled(s, threshold, queued, gone), s.attempts[k].id;
    SettledRows(s, threshold, queued, gone);
    TerminalSettled(s, threshold, queued, gone, k);
    if AllDestroyed(t.environments, a) {
      forall i | 0 <= i < |s.environments| && s.environments[i].attempt == a && !IsFirst(s.environments, i)
        ensures s.environments[i].status == P.EnvDestroyed
      {
        assert t.environments[i] == s.environments[i];
      }
    }
    if OthersDestroyed(s.environments, a) {
      forall i | 0 <= i < |t.environments| && t.environments[i].attempt == a
        ensures t.environments[i].status == P.EnvDestroyed
      {
        if !IsFirst(s.environments, i) {
          assert t.environments[i] == s.environments[i];
        }
      }
    }
  }

  ghost predicate AllDestroyed(envs: seq<Environment>, a: nat) {
    forall i | 0 <= i < |envs| && envs[i].attempt == a :: envs[i].status == P.EnvDestroyed
  }

  ghost predicate OthersDestroyed(envs: seq<Environment>, a: nat) {
    forall i | 0 <= i < |envs| && envs[i].attempt == a && !IsFirst(envs, i) :: envs[i].status == P.EnvDestroyed
  }

  // The next tick has work for exactly the attempts that wait for cleanup without an environment: for
  // those no cleanup job ever moves the attempt on.
  lemma NextTickWants(s: Store, threshold: int, queued: set<nat>, gone: set<string>)
    ensures forall a :: a in Wanted(Settled(s, threshold, queued, gone), threshold) <==>
              a in PendingIds(s.attempts) && !HasEnvironment(s.environments, a)
    ensures Ticked(Settled(s, threshold, queued, gone), threshold) == Settled(s, threshold, queued, gone)
  {
    var t := Settled(s, threshold, queued, gone);
    SettledRows(s, threshold, queued, gone);
    forall k | 0 <= k < |s.attempts|
      ensures !Stale(t.attempts[k], threshold)
      ensures Terminal(t.attempts[k].status) ==> !NeedsCleanup(t.environments, t.attempts[k].id)
      ensures t.attempts[k].status == CleanupPending <==>
              s.attempts[k].status == CleanupPending && !HasEnvironment(s.environments, s.attempts[k].id)
    {
      StatusSettled(s, threshold, queued, gone, k);
      if Terminal(t.attempts[k].status) {
        TerminalSettled(s, threshold, queued, gone, k);
      }
    }
    assert StaleIds(t.attempts, threshold) == {} && GivenUp(t.attempts, threshold) == t.attempts;
    assert TerminalIds(t) == {};
    forall a
      ensures a in PendingIds(t.attempts) <==> a in PendingIds(s.attempts) && !HasEnvironment(s.environments, a)
    {
      if a in PendingIds(t.attempts) {
        var k :| 0 <= k < |t.attempts| && t.attempts[k].status == CleanupPending && t.attempts[k].id == a;
        assert s.attempts[k].id == a;
      }
      if a in PendingIds(s.attempts) && !HasEnvironment(s.environments, a) {
        var k :| 0 <= k < |s.attempts| && s.attempts[k].status == CleanupPending && s.attempts[k].id == a;
        assert t.attempts[k].id == a;
      }
    }
  }

  // ----- the code

  function WithStatus(attempts: seq<Attempt>, st: Status): (r: seq<Attempt>)
    ensures forall row :: row in r <==> row in attempts && row.status == st
  {
    if attempts == [] then []
    else
      var last := attempts[|attempts| - 1];
      WithStatus(attempts[..|attempts| - 1], st) + if last.status == st then [last] else []
  }

  // The attempts with the row of the given id moved, if the table of transitions allows it.
  function Moved(attempts: seq<Attempt>, a: nat, to: Status): seq<Attempt> {
    seq(|attempts|, k requires 0 <= k < |attempts| =>
          if attempts[k].id == a && ValidTransition(attempts[k].status, to) then attempts[k].(status := to)
          else attempts[k])
  }

  function Ids(jobs: seq<nat>): set<nat> {
    set j | j in jobs
  }

  // Whatever fails, cleanups leave every row alone but those they find, and keep what a row is about.
  ghost predicate OnlyTouches(was: seq<Environment>, now: seq<Environment>, jobs: set<nat>) {
    && |now| == |was|
    && (forall i | 0 <= i < |was| :: now[i].attempt == was[i].attempt && now[i].machines == was[i].machines)
    && (forall i | 0 <= i < |was| && !(was[i].attempt in jobs && IsFirst(was, i)) :: now[i] == was[i])
  }

  // Each of these cleanups left the row it found destroyed, or did not find it because the lookup failed.
  ghost predicate DoneOrMissed(was: seq<Environment>, now: seq<Environment>, jobs: set<nat>)
    requires |now| == |was|
  {
    forall i | 0 <= i < |was| && IsFirst(was, i) && was[i].attempt in jobs ::
      now[i].status == P.EnvDestroyed || now[i] == was[i]
  }

  lemma DoneMore(a: seq<Environment>, b: seq<Environment>, c: seq<Environment>, done: set<nat>, more: set<nat>)
    requires OnlyTouches(a, b, done) && OnlyTouches(b, c, more) && DoneOrMissed(a, b, done) && DoneOrMissed(b, c, more)
    ensures DoneOrMissed(a, c, done + more)
  {
    assert forall i | 0 <= i < |a| :: IsFirst(b, i) == IsFirst(a, i);
  }

  lemma DoneElsewhere(a: seq<Environment>, b: seq<Environment>, c: seq<Environment>, done: set<nat>, more: set<nat>)
    requires OnlyTouches(a, b, done) && OnlyTouches(b, c, more) && DoneOrMissed(a, b, done)
    ensures DoneOrMissed(a, c, done - more)
  {
    assert forall i | 0 <= i < |a| :: IsFirst(b, i) == IsFirst(a, i);
  }

  lemma TouchesTwice(a: seq<Environment>, b: seq<Environment>, c: seq<Environment>, jobs: set<nat>, more: set<nat>)
    requires OnlyTouches(a, b, jobs) && OnlyTouches(b, c, more)
    ensures OnlyTouches(a, c, jobs + more)
    ensures forall any :: Doomed(b, any) == Doomed(a, any)
  {
    assert forall i | 0 <= i < |a| :: IsFirst(b, i) == IsFirst(a, i);
    forall any ensures Doomed(b, any) == Doomed(a, any) {
      DoomedLater(a, b, any);
    }
  }

  class Orchestrator {
    var attempts: seq<Attempt>
    var environments: seq<Environment>
    var live: set<string>
    var queue: seq<nat>       // cleanup jobs, by attempt
    ghost var faults: nat     // calls that failed

    ghost predicate Valid()
      reads this
    {
      UniqueIds(attempts)
    }

    ghost function Tables(): Store
      reads this
    {
      Store(attempts, environments, live)
    }

    constructor (attempts: seq<Attempt>, environments: seq<Environment>, live: set<string>)
      requires UniqueIds(attempts)
      ensures Valid() && Tables() == Store(attempts, environments, live) && queue == [] && faults == 0
    {
      this.attempts, this.environments, this.live, queue, faults := attempts, environments, live, [], 0;
    }

    method Call() returns (ok: bool)
      modifies `faults
      ensures old(faults) <= faults && (ok <==> faults == old(faults))
    {
      ok := *;
      if !ok {
        faults := faults + 1;
      }
    }

    method TransitionAttempt(a: nat, to: Status) returns (ok: bool)
      requires Valid()
      modifies `attempts, `faults
      ensures Valid() && old(faults) <= faults
      ensures faults == old(faults) ==> attempts == Moved(old(attempts), a, to)
      ensures attempts == old(attempts) || attempts == Moved(old(attempts), a, to)
    {
      ok := Call();
      for k := 0 to |attempts|
        invariant attempts == old(attempts) && old(faults) <= faults
        invariant forall j | 0 <= j < k :: attempts[j].id != a
      {
        if attempts[k].id == a {
          if !ok || !ValidTransition(attempts[k].status, to) {
            assert faults == old(faults) ==> attempts == Moved(attempts, a, to);
            return false;
          }
          var written := Call();
          if !written {
            return false;
          }
          attempts := attempts[k := attempts[k].(status := to)];
          assert attempts == Moved(old(attempts), a, to);
          return true;
        }
      }
      assert attempts == Moved(attempts, a, to);
      return false;
    }

    method GetEnvironmentByAttempt(a: nat) returns (r: Option<nat>)
      modifies `faults
      ensures old(faults) <= faults
      ensures r.Some? ==>
                r.value < |environments| && IsFirst(environments, r.value) && environments[r.value].attempt == a
      ensures faults == old(faults) ==> (r.Some? <==> HasEnvironment(environments, a))
    {
      var ok := Call();
      if !ok {
        return None;
      }
      for i := 0 to |environments|
        invariant forall k | 0 <= k < i :: environments[k].attempt != a
      {
        if environments[i].attempt == a {
          return Some(i);
        }
      }
      return None;
    }

    method SetEnvironmentStatus(i: nat, st: P.EnvironmentStatus) returns (ok: bool)
      requires i < |environments|
      modifies `environments, `faults
      ensures old(faults) <= faults && (ok <==> faults == old(faults))
      ensures environments ==
              if ok then old(environments)[i := old(environments)[i].(status := st)] else old(environments)
    {
      ok := Call();
      if ok {
        environments := environments[i := environments[i].(status := st)];
      }
    }

    // The provider's loop over the listed machines. It fails only when the metadata cannot be read: the
    // error of a failing deletion is dropped.
    method DestroyMachines(machines: set<string>) returns (ok: bool, ghost gone: set<string>)
      modifies `live, `faults
      ensures old(faults) <= faults && (ok <==> faults == old(faults))
      ensures gone <= machines && live == old(live) - gone && (!ok ==> gone == {})
    {
      gone := {};
      ok := Call();
      if !ok {
        return;
      }
      var todo := machines;
      while todo != {}
        invariant todo <= machines && gone <= machines && live == old(live) - gone && faults == old(faults)
      {
        var m :| m in todo;
        var deleted: bool := *;
        if deleted {
          live, gone := live - {m}, gone + {m};
        }
        todo := todo - {m};
      }
    }

    // handleCleanupEnvironment. When no reported call fails it is Cleaned for the one attempt.
    method HandleCleanup(a: nat) returns (ok: bool, ghost gone: set<string>)
      requires Valid()
      modifies `attempts, `environments, `live, `faults
      ensures Valid() && old(faults) <= faults
      ensures faults == old(faults) ==> ok && Tables() == Cleaned(old(Tables()), {a}, gone)
      ensures OnlyTouches(old(environments), environments, {a})
      ensures ok ==> DoneOrMissed(old(environments), environments, {a})
      ensures !ok ==> forall i | 0 <= i < |environments| && environments[i].status == P.EnvDestroyed ::
                environments[i] == old(environments)[i]
      ensures gone <= Doomed(old(environments), {a}) && live == old(live) - gone
    {
      gone := {};
      var found := GetEnvironmentByAttempt(a);
      if found.None? {
        return true, gone;
      }
      var i := found.value;
      ok := SetEnvironmentStatus(i, P.EnvDestroying);
      if !ok {
        return;
      }
      assert environments[i].machines <= Doomed(old(environments), {a});
      ok, gone := DestroyMachines(environments[i].machines);
      if !ok {
        var ignored := SetEnvironmentStatus(i, P.EnvFailed);
        return;
      }
      ok := SetEnvironmentStatus(i, P.EnvDestroyed);
      if !ok {
        return;
      }
      var moved := TransitionAttempt(a, Destroyed);
      return true, gone;
    }

    method ListByStatus(st: Status) returns (r: Option<seq<Attempt>>)
      modifies `faults
      ensures old(faults) <= faults && (r.Some? <==> faults == old(faults))
      ensures r.Some? ==> r.value == WithStatus(attempts, st)
    {
      var ok := Call();
      r := if ok then Some(WithStatus(attempts, st)) else None;
    }

    // Errors are logged and otherwise ignored.
    method EnqueueCleanup(a: nat)
      modifies `queue, `faults
      ensures old(faults) <= faults
      ensures queue == if faults == old(faults) then old(queue) + [a] else old(queue)
    {
      var ok := Call();
      if ok {
        queue := queue + [a];
      }
    }

    method CleanupStaleProvisioning(threshold: int)
      requires Valid()
      modifies `attempts, `queue, `faults
      ensures Valid() && old(faults) <= faults
      ensures faults == old(faults) ==>
                && attempts == GivenUp(old(attempts), threshold)
                && Ids(queue) == Ids(old(queue)) + StaleIds(old(attempts), threshold)
    {
      var listed := ListByStatus(EnvironmentProvisioning);
      if listed.None? {
        return;
      }
      ghost var done: set<nat> := {};
      GivenUpNone(attempts, threshold);
      for k := 0 to |listed.value|
        invariant Valid() && old(faults) <= faults
        invariant done == StaleOf(listed.value[..k], threshold)
        invariant faults == old(faults) ==> attempts == GivenUpOf(old(attempts), done, threshold)
        invariant faults == old(faults) ==> Ids(queue) == Ids(old(queue)) + done
      {
        var row := listed.value[k];
        StaleOfMore(listed.value, k, threshold);
        if row.created < threshold {
          assert row in old(attempts) && row.status == EnvironmentProvisioning;
          GivenUpOneMore(old(attempts), done, row.id, threshold);
          var moved := TransitionAttempt(row.id, ProvisionFailed);
          ghost var before := queue;
          EnqueueCleanup(row.id);
          IdsMore(before, row.id);
          done := done + {row.id};
        }
      }
      assert listed.value[..|listed.value|] == listed.value;
      StaleOfListed(old(attempts), threshold);
    }

    method CleanupPendingAttempts()
      modifies `queue, `faults
      ensures old(faults) <= faults
      ensures faults == old(faults) ==> Ids(queue) == Ids(old(queue)) + PendingIds(attempts)
    {
      hide WithStatus, PendingIds, Ids, IdsOf;
      var listed := ListByStatus(CleanupPending);
      if listed.None? {
        return;
      }
      IdsOfNone(listed.value);
      for k := 0 to |listed.value|
        invariant old(faults) <= faults
        invariant faults == old(faults) ==> Ids(queue) == Ids(old(queue)) + IdsOf(listed.value[..k])
      {
        ghost var before := queue;
        EnqueueCleanup(listed.value[k].id);
        IdsMore(before, listed.value[k].id);
        IdsOfMore(listed.value, k);
      }
      assert listed.value[..|listed.value|] == listed.value;
      PendingListed(attempts);
    }

    // The loop over one status of cleanupTerminalStates.
    method CleanupTerminal(st: Status)
      modifies `queue, `faults
      ensures old(faults) <= faults
      ensures faults == old(faults) ==> Ids(queue) == Ids(old(queue)) + NeedyIds(WithStatus(attempts, st), environments)
    {
      var listed := ListByStatus(st);
      if listed.None? {
        return;
      }
      for k := 0 to |listed.value|
        invariant old(faults) <= faults
        invariant faults == old(faults) ==> Ids(queue) == Ids(old(queue)) + NeedyIds(listed.value[..k], environments)
      {
        var a := listed.value[k].id;
        NeedyMore(listed.value, k, environments);
        var found := GetEnvironmentByAttempt(a);
        if found.None? {
          continue;
        }
        OnlyFirstCounts(environments, found.value);
        if environments[found.value].status == P.EnvDestroyed {
          continue;
        }
        ghost var before := queue;
        EnqueueCleanup(a);
        IdsMore(before, a);
      }
      assert listed.value[..|listed.value|] == listed.value;
    }

    method CleanupTerminalStates()
      modifies `queue, `faults
      ensures old(faults) <= faults
      ensures faults == old(faults) ==> Ids(queue) == Ids(old(queue)) + TerminalIds(Tables())
    {
      CleanupTerminal(Scored);
      CleanupTerminal(ExpiredBeforeStart);
      NeedyOfBoth(Tables());
    }

    // One tick. When no call fails it leaves the queue with a job for exactly the attempts that want one.
    method Reconcile(threshold: int)
      requires Valid()
      modifies `attempts, `queue, `faults
      ensures Valid() && old(faults) <= faults
      ensures faults == old(faults) ==>
                && Tables() == Ticked(old(Tables()), threshold)
                && Ids(queue) == Ids(old(queue)) + Wanted(old(Tables()), threshold)
    {
      CleanupStaleProvisioning(threshold);
      CleanupPendingAttempts();
      CleanupTerminalStates();
      if faults == old(faults) {
        GivingUpIsNoCleanup(old(Tables()), threshold);
      }
    }

    // The worker takes jobs in any order, up to the first whose handler fails: that one and those not taken
    // yet stay queued, and what was done of the others is done.
    method Drain() returns (ghost gone: set<string>, ghost done: set<nat>)
      requires Valid()
      modifies `attempts, `environments, `live, `queue, `faults
      ensures Valid() && old(faults) <= faults
      ensures faults == old(faults) ==> queue == [] && Tables() == Cleaned(old(Tables()), Ids(old(queue)), gone)
      ensures done + Ids(queue) == Ids(old(queue)) && OnlyTouches(old(environments), environments, Ids(old(queue)))
      ensures DoneOrMissed(old(environments), environments, done - Ids(queue))
      ensures gone <= Doomed(old(environments), Ids(old(queue))) && live == old(live) - gone
    {
      done := {};
      gone := {};
      CleanedNone(Tables());
      while queue != []
        invariant Valid() && old(faults) <= faults
        invariant done + Ids(queue) == Ids(old(queue))
        invariant faults == old(faults) ==> Tables() == Cleaned(old(Tables()), done, gone)
        invariant OnlyTouches(old(environments), environments, done)
        invariant DoneOrMissed(old(environments), environments, done)
        invariant gone <= Doomed(old(environments), done) && live == old(live) - gone
        decreases |queue|
      {
        var k: nat :| k < |queue|;
        var a := queue[k];
        ghost var before := environments;
        ghost var g;
        var ok;
        ok, g := HandleCleanup(a);
        DrainedMore(old(environments), before, environments, done, gone, a, g);
        CleanedTwice(old(Tables()), done, gone, {a}, g);
        IdsLess(queue, k);
        gone := gone + g;
        if !ok {
          TouchesMore(old(environments), environments, done + {a}, Ids(old(queue)));
          DoneElsewhere(old(environments), before, environments, done, {a});
          return;
        }
        DoneMore(old(environments), before, environments, done, {a});
        done := done + {a};
        queue := queue[..k] + queue[k + 1..];
      }
      assert Ids([]) == {};
    }

    // Two ticks with a drain in between. When no reported call fails, the tables settle, and the second tick
    // has work only for attempts that wait for cleanup and have no environment.
    method TickDrainTick(threshold: int) returns (ghost gone: set<string>)
      requires Valid()
      modifies this
      ensures Valid() && old(faults) <= faults
      ensures faults == old(faults) ==> Tables() == Settled(old(Tables()), threshold, Ids(old(queue)), gone)
      ensures faults == old(faults) ==>
                gone <= Doomed(old(environments), Ids(old(queue)) + Wanted(old(Tables()), threshold))
      ensures faults == old(faults) ==>
                forall a :: a in queue <==> a in PendingIds(old(attempts)) && !HasEnvironment(old(environments), a)
    {
      Reconcile(threshold);
      ghost var done;
      gone, done := Drain();
      NextTickWants(old(Tables()), threshold, Ids(old(queue)), gone);
      Reconcile(threshold);
      assert Ids([]) == {};
      assert forall a :: a in Ids(queue) <==> a in queue;
    }
  }

  lemma TouchesMore(was: seq<Environment>, now: seq<Environment>, jobs: set<nat>, all: set<nat>)
    requires OnlyTouches(was, now, jobs) && jobs <= all
    ensures OnlyTouches(was, now, all)
    ensures Doomed(was, jobs) <= Doomed(was, all)
  {
  }

  lemma DrainedMore(was: seq<Environment>, before: seq<Environment>, now: seq<Environment>, done: set<nat>,
                    gone: set<string>, a: nat, g: set<string>)
    requires OnlyTouches(was, before, done) && OnlyTouches(before, now, {a})
    requires gone <= Doomed(was, done) && g <= Doomed(before, {a})
    ensures OnlyTouches(was, now, done + {a}) && gone + g <= Doomed(was, done + {a})
  {
    TouchesTwice(was, before, now, done, {a});
    DoomedMore(was, done, {a});
  }

  ghost function IdsOf(rows: seq<Attempt>): set<nat> {
    set k | 0 <= k < |rows| :: rows[k].id
  }

  lemma IdsOfNone(rows: seq<Attempt>)
    ensures IdsOf(rows[..0]) == {}
  {
  }

  lemma IdsOfMore(rows: seq<Attempt>, k: nat)
    requires k < |rows|
    ensures IdsOf(rows[..k + 1]) == IdsOf(rows[..k]) + {rows[k].id}
  {
    assert forall j | 0 <= j < k :: rows[..k + 1][j] == rows[..k][j];
    assert rows[..k + 1][k] == rows[k];
  }

  lemma PendingListed(attempts: seq<Attempt>)
    ensures IdsOf(WithStatus(attempts, CleanupPending)) == PendingIds(attempts)
  {
    var rows := WithStatus(attempts, CleanupPending);
    forall a | a in IdsOf(rows) ensures a in PendingIds(attempts) {
      var k :| 0 <= k < |rows| && rows[k].id == a;
      assert rows[k] in rows;
      var j :| 0 <= j < |attempts| && attempts[j] == rows[k];
    }
    forall a | a in PendingIds(attempts) ensures a in IdsOf(rows) {
      var j :| 0 <= j < |attempts| && attempts[j].status == CleanupPending && attempts[j].id == a;
      assert attempts[j] in rows;
      var k :| 0 <= k < |rows| && rows[k] == attempts[j];
    }
  }

  ghost function NeedyIds(rows: seq<Attempt>, envs: seq<Environment>): set<nat> {
    set k | 0 <= k < |rows| && NeedsCleanup(envs, rows[k].id) :: rows[k].id
  }

  lemma NeedyMore(rows: seq<Attempt>, k: nat, envs: seq<Environment>)
    requires k < |rows|
    ensures NeedyIds(rows[..k + 1], envs) ==
            NeedyIds(rows[..k], envs) + if NeedsCleanup(envs, rows[k].id) then {rows[k].id} else {}
  {
    assert forall j | 0 <= j < k :: rows[..k + 1][j] == rows[..k][j];
    assert rows[..k + 1][k] == rows[k];
  }

  lemma OnlyFirstCounts(envs: seq<Environment>, i: nat)
    requires IsFirst(envs, i)
    ensures NeedsCleanup(envs, envs[i].attempt) <==> envs[i].status != P.EnvDestroyed
  {
  }

  // The attempts with this status that need a cleanup.
  ghost function NeedyWith(s: Store, st: Status): set<nat> {
    set k | 0 <= k < |s.attempts| && s.attempts[k].status == st && NeedsCleanup(s.environments, s.attempts[k].id)
      :: s.attempts[k].id
  }

  lemma NeedyOfBoth(s: Store)
    ensures NeedyIds(WithStatus(s.attempts, Scored), s.environments)
            + NeedyIds(WithStatus(s.attempts, ExpiredBeforeStart), s.environments) == TerminalIds(s)
  {
    NeedyListed(s, Scored);
    NeedyListed(s, ExpiredBeforeStart);
    hide WithStatus, NeedyIds, NeedsCleanup;
  }

  lemma NeedyListed(s: Store, st: Status)
    ensures NeedyIds(WithStatus(s.attempts, st), s.environments) == NeedyWith(s, st)
  {
    forall a ensures a in NeedyIds(WithStatus(s.attempts, st), s.environments) <==> a in NeedyWith(s, st) {
      NeedyRow(s, st, a);
    }
    hide WithStatus, NeedyIds, NeedyWith;
  }

  lemma NeedyRow(s: Store, st: Status, a: nat)
    ensures a in NeedyIds(WithStatus(s.attempts, st), s.environments) <==> a in NeedyWith(s, st)
  {
    hide NeedsCleanup, WithStatus;
    var rows := WithStatus(s.attempts, st);
    if a in NeedyIds(rows, s.environments) {
      var k :| 0 <= k < |rows| && NeedsCleanup(s.environments, rows[k].id) && rows[k].id == a;
      assert rows[k] in rows;
      var j :| 0 <= j < |s.attempts| && s.attempts[j] == rows[k];
    }
    if a in NeedyWith(s, st) {
      NeedyRowIsListed(s, st, a);
    }
  }

  lemma NeedyRowIsListed(s: Store, st: Status, a: nat)
    requires a in NeedyWith(s, st)
    ensures a in NeedyIds(WithStatus(s.attempts, st), s.environments)
  {
    hide NeedsCleanup, WithStatus;
    var rows := WithStatus(s.attempts, st);
    var j :| 0 <= j < |s.attempts| && s.attempts[j].status == st && NeedsCleanup(s.environments, s.attempts[j].id)
             && s.attempts[j].id == a;
    assert s.attempts[j] in rows;
    var k :| 0 <= k < |rows| && rows[k] == s.attempts[j];
  }

  // Giving up on an attempt makes it neither pending nor terminal.
  lemma GivingUpIsNoCleanup(s: Store, threshold: int)
    ensures PendingIds(GivenUp(s.attempts, threshold)) == PendingIds(s.attempts)
    ensures TerminalIds(Ticked(s, threshold)) == TerminalIds(s)
  {
    var later := GivenUp(s.attempts, threshold);
    forall k | 0 <= k < |s.attempts|
      ensures later[k].id == s.attempts[k].id
      ensures later[k].status == CleanupPending <==> s.attempts[k].status == CleanupPending
      ensures Terminal(later[k].status) <==> Terminal(s.attempts[k].status)
    {
    }
    assert PendingIds(later) == PendingIds(s.attempts);
    assert TerminalIds(Ticked(s, threshold)) == TerminalIds(s);
  }

  lemma CleanedNone(s: Store)
    ensures Cleaned(s, {}, {}) == s
  {
    var t := Cleaned(s, {}, {});
    assert t.attempts == s.attempts && t.environments == s.environments;
  }

  lemma IdsLess(jobs: seq<nat>, k: nat)
    requires k < |jobs|
    ensures Ids(jobs) == Ids(jobs[..k] + jobs[k + 1..]) + {jobs[k]}
  {
    assert jobs == jobs[..k] + [jobs[k]] + jobs[k + 1..];
  }

  ghost function StaleOf(rows: seq<Attempt>, threshold: int): set<nat> {
    set k | 0 <= k < |rows| && rows[k].created < threshold :: rows[k].id
  }

  lemma StaleOfMore(rows: seq<Attempt>, k: nat, threshold: int)
    requires k < |rows|
    ensures StaleOf(rows[..k + 1], threshold) ==
            StaleOf(rows[..k], threshold) + if rows[k].created < threshold then {rows[k].id} else {}
  {
    assert forall j | 0 <= j < k :: rows[..k + 1][j] == rows[..k][j];
    assert rows[..k + 1][k] == rows[k];
  }

  lemma StaleOfListed(attempts: seq<Attempt>, threshold: int)
    ensures StaleOf(WithStatus(attempts, EnvironmentProvisioning), threshold) == StaleIds(attempts, threshold)
    ensures GivenUpOf(attempts, StaleIds(attempts, threshold), threshold) == GivenUp(attempts, threshold)
  {
    var rows := WithStatus(attempts, EnvironmentProvisioning);
    forall a | a in StaleOf(rows, threshold) ensures a in StaleIds(attempts, threshold) {
      var k :| 0 <= k < |rows| && rows[k].created < threshold && rows[k].id == a;
      assert rows[k] in rows;
      var j :| 0 <= j < |attempts| && attempts[j] == rows[k];
      assert Stale(attempts[j], threshold);
    }
    forall a | a in StaleIds(attempts, threshold) ensures a in StaleOf(rows, threshold) {
      var j :| 0 <= j < |attempts| && Stale(attempts[j], threshold) && attempts[j].id == a;
      assert attempts[j] in rows;
      var k :| 0 <= k < |rows| && rows[k] == attempts[j];
    }
    forall k | 0 <= k < |attempts| && Stale(attempts[k], threshold)
      ensures attempts[k].id in StaleIds(attempts, threshold)
    {
    }
  }

  // As GivenUp, for those of the given attempts only.
  ghost function GivenUpOf(attempts: seq<Attempt>, done: set<nat>, threshold: int): seq<Attempt> {
    seq(|attempts|, k requires 0 <= k < |attempts| =>
          if attempts[k].id in done && Stale(attempts[k], threshold) then GiveUp(attempts[k]) else attempts[k])
  }

  lemma GivenUpNone(attempts: seq<Attempt>, threshold: int)
    ensures GivenUpOf(attempts, {}, threshold) == attempts
  {
  }

  lemma GivenUpOneMore(attempts: seq<Attempt>, done: set<nat>, a: nat, threshold: int)
    requires UniqueIds(attempts)
    requires exists row :: row in attempts && row.id == a && Stale(row, threshold)
    ensures Moved(GivenUpOf(attempts, done, threshold), a, ProvisionFailed)
         == GivenUpOf(attempts, done + {a}, threshold)
  {
    var u := Moved(GivenUpOf(attempts, done, threshold), a, ProvisionFailed);
    var v := GivenUpOf(attempts, done + {a}, threshold);
    var row :| row in attempts && row.id == a && Stale(row, threshold);
    forall k | 0 <= k < |attempts| ensures u[k] == v[k] {
      assert attempts[k].id == a ==> attempts[k] == row;
    }
  }

  lemma IdsMore(jobs: seq<nat>, a: nat)
    ensures Ids(jobs + [a]) == Ids(jobs) + {a}
  {
  }
}
