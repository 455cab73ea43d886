/** The attempt status table and what every path through it looks like. */
module AttemptLifecycle {
  // Unknown stands for any text in the status column that is not one of the declared constants.
  datatype Status =
    | Purchased | Available | AttemptRequested | EnvironmentProvisioning | EnvironmentReady
    | TerminalOpened | Running | Submitted | Expired | Grading | Scored | CleanupPending
    | Destroyed | ProvisionFailed | ExpiredBeforeStart | ExpiredRunning | CleanupFailed
    | Unknown(name: string)

  function Targets(from: Status): seq<Status> {
    match from
    case Purchased => [Available, ExpiredBeforeStart]
    case Available => [AttemptRequested, ExpiredBeforeStart]
    case AttemptRequested => [EnvironmentProvisioning, ProvisionFailed]
    case EnvironmentProvisioning => [EnvironmentReady, ProvisionFailed]
    case EnvironmentReady => [TerminalOpened, ExpiredBeforeStart]
    case TerminalOpened => [Running]
    case Running => [Submitted, Expired, ExpiredRunning]
    case Submitted => [Grading]
    case Expired => [Grading]
    case ExpiredRunning => [Grading]
    case Grading => [Scored]
    case Scored => [CleanupPending]
    case CleanupPending => [Destroyed, CleanupFailed]
    case ProvisionFailed => [CleanupPending, AttemptRequested]
    case ExpiredBeforeStart => [CleanupPending]
    case CleanupFailed => [CleanupPending]
    case Destroyed => []
    case Unknown(_) => []
  }

  predicate ValidTransition(from: Status, to: Status) {
    to in Targets(from)
  }

  // ----- paths

  ghost predicate IsPath(p: seq<Status>) {
    p != [] && forall i | 0 <= i < |p| - 1 :: ValidTransition(p[i], p[i + 1])
  }

  // How often a path takes the edge from -> to.
  ghost function EdgeCount(p: seq<Status>, from: Status, to: Status): nat {
    if |p| < 2 then 0
    else (if p[0] == from && p[1] == to then 1 else 0) + EdgeCount(p[1..], from, to)
  }

  lemma EdgeCountCons(st: Status, p: seq<Status>, from: Status, to: Status)
    requires p != []
    ensures EdgeCount([st] + p, from, to) == (if st == from && p[0] == to then 1 else 0) + EdgeCount(p, from, to)
  {
    assert ([st] + p)[1..] == p;
  }

  // Putting a status in front adds a retry only when the new edge is a retry edge.
  lemma RetriesCons(st: Status, p: seq<Status>)
    requires p != []
    ensures ProvisionRetries([st] + p)
         == (if st == ProvisionFailed && p[0] == AttemptRequested then 1 else 0) + ProvisionRetries(p)
    ensures CleanupRetries([st] + p)
         == (if st == CleanupFailed && p[0] == CleanupPending then 1 else 0) + CleanupRetries(p)
  {
    EdgeCountCons(st, p, ProvisionFailed, AttemptRequested);
    EdgeCountCons(st, p, CleanupFailed, CleanupPending);
  }

  ghost function ProvisionRetries(p: seq<Status>): nat {
    EdgeCount(p, ProvisionFailed, AttemptRequested)
  }

  ghost function CleanupRetries(p: seq<Status>): nat {
    EdgeCount(p, CleanupFailed, CleanupPending)
  }

  // The longest path from a status that takes at most the given numbers of retry edges.
  ghost function Budget(from: Status, provisionRetries: nat, cleanupRetries: nat): nat {
    match from
    case Purchased => 11 + 3 * provisionRetries + 2 * cleanupRetries
    case Available => 10 + 3 * provisionRetries + 2 * cleanupRetries
    case AttemptRequested => 9 + 3 * provisionRetries + 2 * cleanupRetries
    case EnvironmentProvisioning => 8 + 3 * provisionRetries + 2 * cleanupRetries
    case ProvisionFailed => (if provisionRetries == 0 then 2 else 7 + 3 * provisionRetries) + 2 * cleanupRetries
    case EnvironmentReady => 7 + 2 * cleanupRetries
    case TerminalOpened => 6 + 2 * cleanupRetries
    case Running => 5 + 2 * cleanupRetries
    case Submitted => 4 + 2 * cleanupRetries
    case Expired => 4 + 2 * cleanupRetries
    case ExpiredRunning => 4 + 2 * cleanupRetries
    case Grading => 3 + 2 * cleanupRetries
    case Scored => 2 + 2 * cleanupRetries
    case ExpiredBeforeStart => 2 + 2 * cleanupRetries
    case CleanupPending => 1 + 2 * cleanupRetries
    case CleanupFailed => 2 * cleanupRetries
    case Destroyed => 0
    case Unknown(_) => 0
  }

  lemma {:induction false} PathWithinBudget(p: seq<Status>)
    requires IsPath(p)
    ensures |p| - 1 <= Budget(p[0], ProvisionRetries(p), CleanupRetries(p))
  {
    if |p| > 1 {
      var q := p[1..];
      assert forall i | 0 <= i < |q| :: q[i] == p[i + 1];
      assert ValidTransition(p[0], p[1]);
      PathWithinBudget(q);
    }
  }

  // No path is longer than 11 plus 3 edges a provisioning retry and 2 edges a cleanup retry,
  // so an endless run of the table takes retry edges without end.
  lemma {:induction false} PathLengthBound(p: seq<Status>)
    requires IsPath(p)
    ensures |p| - 1 <= 11 + 3 * ProvisionRetries(p) + 2 * CleanupRetries(p)
  {
    PathWithinBudget(p);
  }

  // ... and the bound is met for every number of retries of either kind.
  lemma {:induction false} PathLengthBoundIsTight(provisionRetries: nat, cleanupRetries: nat)
    ensures exists p ::
              && IsPath(p)
              && ProvisionRetries(p) == provisionRetries && CleanupRetries(p) == cleanupRetries
              && |p| - 1 == 11 + 3 * provisionRetries + 2 * cleanupRetries
  {
    var tail := CleanupTail(cleanupRetries);
    var late := [EnvironmentProvisioning, EnvironmentReady, TerminalOpened, Running, Submitted, Grading, Scored];
    var mid := Prepend(late, tail);
    var loops := ProvisionLoops(provisionRetries, mid);
    var p := Prepend([Purchased, Available], loops);
    assert IsPath(p) && |p| - 1 == 11 + 3 * provisionRetries + 2 * cleanupRetries;
  }

  // Puts a retry-free prefix in front of a path.
  lemma {:induction false} Prepend(prefix: seq<Status>, p: seq<Status>) returns (r: seq<Status>)
    requires IsPath(p)
    requires prefix == [] || IsPath(prefix + [p[0]])
    requires CleanupFailed !in prefix && ProvisionFailed !in prefix
    ensures r == prefix + p && IsPath(r)
    ensures ProvisionRetries(r) == ProvisionRetries(p) && CleanupRetries(r) == CleanupRetries(p)
  {
    hide ValidTransition, ProvisionRetries, CleanupRetries;
    r := prefix + p;
    if prefix != [] {
      var chain := prefix + [p[0]];
      assert forall i | 0 <= i < |chain| - 1 :: ValidTransition(chain[i], chain[i + 1]);
      var rest := prefix[1..];
      assert (rest + [p[0]]) == chain[1..];
      if rest != [] {
        assert forall i | 0 <= i < |rest| :: (rest + [p[0]])[i] == chain[i + 1];
      }
      var q := Prepend(rest, p);
      assert r == [prefix[0]] + q;
      assert ValidTransition(chain[0], chain[0 + 1]) && chain[1] == q[0];
      RetriesCons(prefix[0], q);
    } else {
      assert r == p;
    }
  }

  lemma {:induction false} CleanupTail(retries: nat) returns (p: seq<Status>)
    ensures IsPath(p) && p[0] == CleanupPending && |p| == 2 + 2 * retries
    ensures ProvisionRetries(p) == 0 && CleanupRetries(p) == retries
  {
    if retries == 0 {
      p := [CleanupPending, Destroyed];
    } else {
      var q := CleanupTail(retries - 1);
      p := [CleanupPending] + ([CleanupFailed] + q);
      RetriesCons(CleanupFailed, q);
      RetriesCons(CleanupPending, [CleanupFailed] + q);
    }
  }

  lemma {:induction false} ProvisionLoops(retries: nat, rest: seq<Status>) returns (p: seq<Status>)
    requires IsPath(rest) && rest[0] == EnvironmentProvisioning
    ensures IsPath(p) && p[0] == AttemptRequested && |p| == 1 + |rest| + 3 * retries
    ensures ProvisionRetries(p) == ProvisionRetries(rest) + retries
    ensures CleanupRetries(p) == CleanupRetries(rest)
  {
    if retries == 0 {
      p := [AttemptRequested] + rest;
      RetriesCons(AttemptRequested, rest);
    } else {
      var q := ProvisionLoops(retries - 1, rest);
      p := [AttemptRequested] + ([EnvironmentProvisioning] + ([ProvisionFailed] + q));
      RetriesCons(ProvisionFailed, q);
      RetriesCons(EnvironmentProvisioning, [ProvisionFailed] + q);
      RetriesCons(AttemptRequested, [EnvironmentProvisioning] + ([ProvisionFailed] + q));
    }
  }

  // ----- milestones

  ghost predicate PastRunning(st: Status) {
    st in {Submitted, Expired, ExpiredRunning, Grading, Scored, CleanupPending, CleanupFailed, Destroyed}
  }

  lemma {:induction false} NeverBackToRunning(p: seq<Status>, i: nat)
    requires IsPath(p) && PastRunning(p[0]) && i < |p|
    ensures PastRunning(p[i])
  {
    if i > 0 {
      NeverBackToRunning(p[..i], i - 1);
      assert p[..i][i - 1] == p[i - 1];
      assert ValidTransition(p[i - 1], p[(i - 1) + 1]);
    }
  }

  lemma {:induction false} RunningAtMostOnce(p: seq<Status>, i: nat, j: nat)
    requires IsPath(p) && i < j < |p| && p[i] == Running
    ensures PastRunning(p[j])
  {
    var q := p[i + 1..];
    assert ValidTransition(p[i], p[i + 1]);
    assert forall k | 0 <= k < |q| :: q[k] == p[i + 1 + k];
    NeverBackToRunning(q, j - i - 1);
  }

  lemma {:induction false} StaysInside(p: seq<Status>, inside: set<Status>, i: nat)
    requires IsPath(p) && p[0] in inside && i < |p|
    requires forall x, y | x in inside && ValidTransition(x, y) :: y in inside
    ensures p[i] in inside
  {
    if i > 0 {
      StaysInside(p, inside, i - 1);
      assert ValidTransition(p[i - 1], p[(i - 1) + 1]);
    }
  }

  // The table still leads from here to a hand-in or an expiry.
  ghost predicate StillToHandIn(st: Status) {
    exists p :: IsPath(p) && |p| > 1 && p[0] == st && p[|p| - 1] in {Submitted, Expired}
  }

  lemma WayToHandIn(st: Status)
    requires st in {Purchased, Available, AttemptRequested, EnvironmentProvisioning, EnvironmentReady, TerminalOpened,
                    Running}
    ensures StillToHandIn(st)
  {
    var way := [Purchased, Available, AttemptRequested, EnvironmentProvisioning, EnvironmentReady, TerminalOpened,
                Running, Submitted];
    assert forall i | 0 <= i < |way| - 1 :: ValidTransition(way[i], way[i + 1]);
    var k :=
      if st == Purchased then 0 else if st == Available then 1 else if st == AttemptRequested then 2
      else if st == EnvironmentProvisioning then 3 else if st == EnvironmentReady then 4
      else if st == TerminalOpened then 5 else 6;
    SuffixIsPath(way, k);
    assert way[k..][0] == way[k] && way[k..][7 - k] == way[7];
  }

  lemma {:induction false} NoWayBackToHandIn(p: seq<Status>)
    requires IsPath(p) && |p| > 1 && p[|p| - 1] in {Submitted, Expired}
    ensures p[0] in {Purchased, Available, AttemptRequested, ProvisionFailed, EnvironmentProvisioning,
                     EnvironmentReady, TerminalOpened, Running}
  {
    var after := {Grading, Scored, CleanupPending, CleanupFailed, Destroyed, ExpiredBeforeStart};
    assert ValidTransition(p[0], p[0 + 1]);
    if p[1] in after {
      SuffixIsPath(p, 1);
      StaysInside(p[1..], after, |p| - 2);
    }
  }

  lemma StillToHandInExactlyWhen(st: Status)
    ensures StillToHandIn(st) <==>
            st in {Purchased, Available, AttemptRequested, ProvisionFailed, EnvironmentProvisioning, EnvironmentReady,
                   TerminalOpened, Running}
  {
    hide IsPath;
    if p :| IsPath(p) && |p| > 1 && p[0] == st && p[|p| - 1] in {Submitted, Expired} {
      NoWayBackToHandIn(p);
    }
    if st == ProvisionFailed {
      FailedMayRetry();
    } else if st in {Purchased, Available, AttemptRequested, EnvironmentProvisioning, EnvironmentReady, TerminalOpened,
                     Running} {
      WayToHandIn(st);
    }
  }

  lemma FailedMayRetry()
    ensures StillToHandIn(ProvisionFailed)
  {
    WayToHandIn(AttemptRequested);
    var p :| IsPath(p) && |p| > 1 && p[0] == AttemptRequested && p[|p| - 1] in {Submitted, Expired};
    var q := [ProvisionFailed] + p;
    forall i | 0 <= i < |q| - 1 ensures ValidTransition(q[i], q[i + 1]) {
      if i > 0 { assert ValidTransition(p[i - 1], p[i - 1 + 1]); }
    }
    assert IsPath(q);
  }

  // A path that leaves a set of statuses whose only way out is one gate passes that gate.
  lemma {:induction false} PassesGate(p: seq<Status>, inside: set<Status>, gate: Status) returns (k: nat)
    requires IsPath(p) && p[0] in inside && p[|p| - 1] !in inside
    requires forall x, y | x in inside && ValidTransition(x, y) && y !in inside :: y == gate
    ensures 0 < k < |p| && p[k] == gate
  {
    assert ValidTransition(p[0], p[0 + 1]);
    if p[1] !in inside {
      k := 1;
    } else {
      var q := p[1..];
      assert forall i | 0 <= i < |q| :: q[i] == p[i + 1];
      k := PassesGate(q, inside, gate);
      k := k + 1;
    }
  }

  lemma {:induction false} ScoredPathMilestones(p: seq<Status>)
    requires IsPath(p) && p[0] == AttemptRequested && p[|p| - 1] == Scored
    ensures exists i, j, k ::
              && 0 < i < j < k < |p|
              && p[i] == EnvironmentReady && p[j] == Running && p[k] == Grading
  {
    var i := PassesReady(p);
    SuffixIsPath(p, i);
    var j := PassesRunning(p[i..]);
    SuffixIsPath(p[i..], j);
    var k := PassesGrading(p[i..][j..]);
    hide ValidTransition;
    assert p[i + j] == Running && p[i + j + k] == Grading;
  }

  lemma PassesReady(p: seq<Status>) returns (k: nat)
    requires IsPath(p) && p[0] == AttemptRequested && p[|p| - 1] == Scored
    ensures 0 < k < |p| && p[k] == EnvironmentReady
  {
    k := PassesGate(p, {AttemptRequested, EnvironmentProvisioning, ProvisionFailed, CleanupPending, CleanupFailed,
                        Destroyed},
                    EnvironmentReady);
  }

  lemma PassesRunning(p: seq<Status>) returns (k: nat)
    requires IsPath(p) && p[0] == EnvironmentReady && p[|p| - 1] == Scored
    ensures 0 < k < |p| && p[k] == Running
  {
    k := PassesGate(p, {EnvironmentReady, TerminalOpened, ExpiredBeforeStart, CleanupPending, CleanupFailed, Destroyed},
                    Running);
  }

  lemma PassesGrading(p: seq<Status>) returns (k: nat)
    requires IsPath(p) && p[0] == Running && p[|p| - 1] == Scored
    ensures 0 < k < |p| && p[k] == Grading
  {
    k := PassesGate(p, {Running, Submitted, Expired, ExpiredRunning, CleanupPending, CleanupFailed, Destroyed},
                    Grading);
  }

  lemma SuffixIsPath(p: seq<Status>, i: nat)
    requires IsPath(p) && i < |p|
    ensures IsPath(p[i..])
  {
    var q := p[i..];
    forall x | 0 <= x < |q| - 1 ensures ValidTransition(q[x], q[x + 1]) {
      assert q[x] == p[i + x] && q[x + 1] == p[(i + x) + 1];
    }
  }
}
