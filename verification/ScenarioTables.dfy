/** The rows the importer writes, and the join by which a version's checks are listed. */
module ScenarioTables {
  import opened Wrappers
  import opened Scenarios

  datatype VersionRow = VersionRow(id: nat, externalID: string, gitCommit: string, title: string,
                                   durationMinutes: int, accessWindowHours: int, attemptsAllowed: int,
                                   topology: seq<Cluster>)
  datatype TaskRow = TaskRow(id: nat, versionID: nat, externalID: string, clusterID: string, kubeContext: string,
                             points: int, prompt: string)
  datatype CheckRow = CheckRow(id: nat, taskID: nat, externalID: string, clusterID: string, kind: string,
                               command: string, points: int)
  datatype ProductRow = ProductRow(id: nat, title: string, description: string)
  datatype TestRow = TestRow(id: nat, productID: nat, versionID: nat, durationMinutes: int,
                             accessWindowHours: int, attemptsAllowed: int)

  // ----- the join in ListChecksByScenarioVersion: one result for every pair that matches

  function Matches(c: CheckRow, tasks: seq<TaskRow>, version: nat): seq<CheckRow> {
    if tasks == [] then []
    else
      var t := tasks[|tasks| - 1];
      Matches(c, tasks[..|tasks| - 1], version) + if t.id == c.taskID && t.versionID == version then [c] else []
  }

  function Listed(checks: seq<CheckRow>, tasks: seq<TaskRow>, version: nat): seq<CheckRow> {
    if checks == [] then []
    else Listed(checks[..|checks| - 1], tasks, version) + Matches(checks[|checks| - 1], tasks, version)
  }

  // ListTasksByScenarioVersion, and what the two lists say of a version.
  function TasksOf(tasks: seq<TaskRow>, version: nat): seq<TaskRow> {
    if tasks == [] then []
    else
      var t := tasks[|tasks| - 1];
      TasksOf(tasks[..|tasks| - 1], version) + if t.versionID == version then [t] else []
  }

  function Content(checks: seq<CheckRow>, tasks: seq<TaskRow>, version: nat): (seq<TaskRow>, seq<CheckRow>) {
    (TasksOf(tasks, version), Listed(checks, tasks, version))
  }

  // ----- what always holds of the tables

  // Identifiers at or above next have not been given out.
  ghost predicate TasksOk(tasks: seq<TaskRow>, next: nat) {
    && (forall i | 0 <= i < |tasks| :: tasks[i].id < next && tasks[i].versionID < next)
    && forall i, j | 0 <= i < j < |tasks| :: tasks[i].id != tasks[j].id
  }

  ghost predicate HasTask(tasks: seq<TaskRow>, id: nat) {
    exists i :: 0 <= i < |tasks| && tasks[i].id == id
  }

  // Every stored check belongs to a stored task.
  ghost predicate ChecksOk(checks: seq<CheckRow>, tasks: seq<TaskRow>, next: nat) {
    forall i | 0 <= i < |checks| :: checks[i].taskID < next && HasTask(tasks, checks[i].taskID)
  }

  // One version per external identifier and commit.
  ghost predicate VersionsOk(versions: seq<VersionRow>, next: nat) {
    && (forall i | 0 <= i < |versions| :: versions[i].id < next)
    && forall i, j | 0 <= i < j < |versions| ::
         versions[i].externalID != versions[j].externalID || versions[i].gitCommit != versions[j].gitCommit
  }

  ghost predicate UniqueTitles(products: seq<ProductRow>) {
    forall i, j | 0 <= i < j < |products| :: products[i].title != products[j].title
  }

  ghost predicate HasTitle(products: seq<ProductRow>, title: string) {
    exists i :: 0 <= i < |products| && products[i].title == title
  }

  ghost predicate HasVersion(versions: seq<VersionRow>, externalID: string, gitCommit: string) {
    exists i :: 0 <= i < |versions| && versions[i].externalID == externalID && versions[i].gitCommit == gitCommit
  }

  // ----- the join over tables to which an import has been added

  lemma {:induction false} MatchesNone(c: CheckRow, tasks: seq<TaskRow>, version: nat)
    requires forall i | 0 <= i < |tasks| :: tasks[i].id != c.taskID || tasks[i].versionID != version
    ensures Matches(c, tasks, version) == []
  {
    if tasks != [] {
      MatchesNone(c, tasks[..|tasks| - 1], version);
    }
  }

  lemma {:induction false} MatchesOne(c: CheckRow, tasks: seq<TaskRow>, version: nat, k: nat, next: nat)
    requires TasksOk(tasks, next) && k < |tasks| && tasks[k].id == c.taskID && tasks[k].versionID == version
    ensures Matches(c, tasks, version) == [c]
  {
    var init := tasks[..|tasks| - 1];
    if k < |init| {
      MatchesOne(c, init, version, k, next);
    } else {
      MatchesNone(c, init, version);
    }
  }

  lemma {:induction false} MatchesOlder(c: CheckRow, old_: seq<TaskRow>, new_: seq<TaskRow>, version: nat)
    requires forall i | 0 <= i < |new_| :: new_[i].id != c.taskID || new_[i].versionID != version
    ensures Matches(c, old_ + new_, version) == Matches(c, old_, version)
  {
    if new_ == [] {
      assert old_ + new_ == old_;
    } else {
      var init := new_[..|new_| - 1];
      assert (old_ + new_)[..|old_ + new_| - 1] == old_ + init;
      MatchesOlder(c, old_, init, version);
    }
  }

  lemma {:induction false} ListedAppend(a: seq<CheckRow>, b: seq<CheckRow>, tasks: seq<TaskRow>, version: nat)
    ensures Listed(a + b, tasks, version) == Listed(a, tasks, version) + Listed(b, tasks, version)
  {
    if b == [] {
      assert a + b == a;
    } else {
      var init := b[..|b| - 1];
      assert (a + b)[..|a + b| - 1] == a + init;
      ListedAppend(a, init, tasks, version);
    }
  }

  lemma {:induction false} ListedNone(checks: seq<CheckRow>, tasks: seq<TaskRow>, version: nat)
    requires forall i, j | 0 <= i < |checks| && 0 <= j < |tasks| ::
               tasks[j].id != checks[i].taskID || tasks[j].versionID != version
    ensures Listed(checks, tasks, version) == []
  {
    if checks != [] {
      ListedNone(checks[..|checks| - 1], tasks, version);
      MatchesNone(checks[|checks| - 1], tasks, version);
    }
  }

  ghost predicate MatchesOnce(c: CheckRow, tasks: seq<TaskRow>, version: nat) {
    Matches(c, tasks, version) == [c]
  }

  lemma {:induction false} ListedAll(checks: seq<CheckRow>, tasks: seq<TaskRow>, version: nat)
    requires forall i | 0 <= i < |checks| :: MatchesOnce(checks[i], tasks, version)
    ensures Listed(checks, tasks, version) == checks
  {
    if checks != [] {
      var init, last := checks[..|checks| - 1], checks[|checks| - 1];
      ListedAll(init, tasks, version);
      assert MatchesOnce(last, tasks, version);
      AppendLast(checks, init, last);
    }
  }

  lemma AppendLast(checks: seq<CheckRow>, init: seq<CheckRow>, last: CheckRow)
    requires checks != [] && init == checks[..|checks| - 1] && last == checks[|checks| - 1]
    ensures checks == init + [last]
  {
  }

  lemma {:induction false} ListedOlder(checks: seq<CheckRow>, old_: seq<TaskRow>, new_: seq<TaskRow>, version: nat)
    requires forall i, j | 0 <= i < |checks| && 0 <= j < |new_| ::
               new_[j].id != checks[i].taskID || new_[j].versionID != version
    ensures Listed(checks, old_ + new_, version) == Listed(checks, old_, version)
  {
    if checks != [] {
      ListedOlder(checks[..|checks| - 1], old_, new_, version);
      MatchesOlder(checks[|checks| - 1], old_, new_, version);
    }
  }

  // New rows: their identifiers, and the version they belong to, were not in use before.
  ghost predicate Added(tasks: seq<TaskRow>, checks: seq<CheckRow>, version: nat, from: nat, next: nat) {
    && from <= version < next
    && (forall j | 0 <= j < |tasks| :: from <= tasks[j].id < next && tasks[j].versionID == version)
    && forall i | 0 <= i < |checks| :: from <= checks[i].taskID < next && HasTask(tasks, checks[i].taskID)
  }

  // Listing the new version gives exactly the new checks, each once and in order.
  lemma ListedIsWhatWasAdded(checks: seq<CheckRow>, tasks: seq<TaskRow>, newChecks: seq<CheckRow>,
                             newTasks: seq<TaskRow>, version: nat, from: nat, next: nat)
    requires TasksOk(tasks, from) && ChecksOk(checks, tasks, from)
    requires TasksOk(tasks + newTasks, next) && Added(newTasks, newChecks, version, from, next)
    ensures Listed(checks + newChecks, tasks + newTasks, version) == newChecks
  {
    var all := tasks + newTasks;
    ListedAppend(checks, newChecks, all, version);
    ListedNone(checks, all, version);
    forall i | 0 <= i < |newChecks| ensures MatchesOnce(newChecks[i], all, version) {
      var k :| 0 <= k < |newTasks| && newTasks[k].id == newChecks[i].taskID;
      assert all[|tasks| + k] == newTasks[k];
      MatchesOne(newChecks[i], all, version, |tasks| + k, next);
    }
    ListedAll(newChecks, all, version);
  }

  // Listing any other version gives what it gave before.
  lemma ListedElsewhereIsUnchanged(checks: seq<CheckRow>, tasks: seq<TaskRow>, newChecks: seq<CheckRow>,
                                   newTasks: seq<TaskRow>, version: nat, from: nat, next: nat, other: nat)
    requires TasksOk(tasks, from) && ChecksOk(checks, tasks, from)
    requires Added(newTasks, newChecks, version, from, next) && other != version
    ensures Listed(checks + newChecks, tasks + newTasks, other) == Listed(checks, tasks, other)
  {
    var all := tasks + newTasks;
    ListedAppend(checks, newChecks, all, other);
    ListedNone(newChecks, all, other);
    ListedOlder(checks, tasks, newTasks, other);
  }

  lemma {:induction false} TasksOfMore(old_: seq<TaskRow>, new_: seq<TaskRow>, version: nat)
    requires forall i | 0 <= i < |new_| :: new_[i].versionID == version
    ensures TasksOf(old_ + new_, version) == TasksOf(old_, version) + new_
    ensures forall w: nat | w != version :: TasksOf(old_ + new_, w) == TasksOf(old_, w)
  {
    if new_ == [] {
      assert old_ + new_ == old_;
    } else {
      var init, last := new_[..|new_| - 1], new_[|new_| - 1];
      assert (old_ + new_)[..|old_ + new_| - 1] == old_ + init && new_ == init + [last];
      TasksOfMore(old_, init, version);
    }
  }

  lemma {:induction false} TasksOfNone(tasks: seq<TaskRow>, version: nat)
    requires forall i | 0 <= i < |tasks| :: tasks[i].versionID != version
    ensures TasksOf(tasks, version) == []
  {
    if tasks != [] {
      TasksOfNone(tasks[..|tasks| - 1], version);
    }
  }

  // ----- points

  function CheckPoints(checks: seq<Check>): int {
    if checks == [] then 0 else CheckPoints(checks[..|checks| - 1]) + checks[|checks| - 1].points
  }

  function RowPoints(checks: seq<CheckRow>): int {
    if checks == [] then 0 else RowPoints(checks[..|checks| - 1]) + checks[|checks| - 1].points
  }

  ghost predicate Describes(row: CheckRow, ch: Check) {
    && row.externalID == ch.id && row.clusterID == ch.clusterID && row.kind == ch.kind
    && row.command == ch.command && row.points == ch.points
  }

  lemma {:induction false} PointsConserved(rows: seq<CheckRow>, checks: seq<Check>)
    requires |rows| == |checks| && forall i | 0 <= i < |rows| :: Describes(rows[i], checks[i])
    ensures RowPoints(rows) == CheckPoints(checks)
  {
    if rows != [] {
      assert Describes(rows[|rows| - 1], checks[|rows| - 1]);
      PointsConserved(rows[..|rows| - 1], checks[..|rows| - 1]);
    }
  }
}
