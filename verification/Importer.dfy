/** Importing scenarios into the store. Any store call may fail; a call that fails changes nothing. */
module Importer {
  import opened Wrappers
  import opened Text
  import opened Scenarios
  import opened ScenarioTables
  import E = Environments

  datatype ParsedScenario = ParsedScenario(scenario: Scenario, checks: seq<Check>, prompts: map<string, string>)

  datatype LookupError = NoRows | Broken

  datatype ImportError =
    | LookingUpVersion
    | CreatingVersion
    | CreatingTask(task: string)
    | UnknownTask(check: string, task: string)
    | CreatingCheck(check: string)
    | CreatingProduct
    | LookingUpProduct
    | CreatingTest

  // What parsing has made sure of before anything is imported.
  ghost predicate Sound(ps: ParsedScenario) {
    WellFormed(ps.scenario) && WellFormedChecks(ps.checks, ps.scenario)
  }

  method ParseScenario(ps: ParsedScenario) returns (flaw: Option<Flaw>)
    ensures flaw.None? <==> Sound(ps)
  {
    flaw := Validate(ps.scenario);
    if flaw.None? {
      flaw := ValidateChecks(ps.checks, ps.scenario);
    }
  }

  // Parses file after file and gives up at the first that does not pass.
  method DiscoverScenarios(files: seq<ParsedScenario>) returns (flaw: Option<Flaw>)
    ensures flaw.None? <==> forall k | 0 <= k < |files| :: Sound(files[k])
  {
    for i := 0 to |files|
      invariant forall k | 0 <= k < i :: Sound(files[k])
    {
      flaw := ParseScenario(files[i]);
      if flaw.Some? {
        return;
      }
    }
    return None;
  }

  function Prompt(prompts: map<string, string>, task: string): string {
    if task in prompts then prompts[task] else ""
  }

  ghost predicate DescribesTask(row: TaskRow, t: Task, prompts: map<string, string>) {
    && row.externalID == t.id && row.clusterID == t.clusterID && row.kubeContext == t.kubeContext
    && row.points == t.points && row.prompt == if t.id in prompts then prompts[t.id] else ""
  }

  // Rows for the first tasks of a file, all of one version and under new identifiers.
  ghost predicate TaskRows(rows: seq<TaskRow>, tasks: seq<Task>, prompts: map<string, string>,
                           version: nat, from: nat, next: nat) {
    && |rows| <= |tasks|
    && forall k | 0 <= k < |rows| ::
         && DescribesTask(rows[k], tasks[k], prompts)
         && rows[k].versionID == version && from <= rows[k].id < next
  }

  // The identifiers handed from the task loop to the check loop.
  ghost predicate Handed(uuids: map<string, nat>, rows: seq<TaskRow>, tasks: seq<Task>) {
    && |rows| <= |tasks|
    && (forall k | 0 <= k < |rows| :: tasks[k].id in uuids && uuids[tasks[k].id] == rows[k].id)
    && forall id | id in uuids :: HasTask(rows, uuids[id])
  }

  // Rows for the first checks of a file, each pointing at the task it names.
  ghost predicate CheckRows(rows: seq<CheckRow>, checks: seq<Check>, uuids: map<string, nat>) {
    && |rows| <= |checks|
    && forall k | 0 <= k < |rows| ::
         Describes(rows[k], checks[k]) && checks[k].taskID in uuids && rows[k].taskID == uuids[checks[k].taskID]
  }

  lemma HandedCoversTheFile(uuids: map<string, nat>, rows: seq<TaskRow>, ps: ParsedScenario)
    requires Sound(ps) && Handed(uuids, rows, ps.scenario.tasks) && |rows| == |ps.scenario.tasks|
    ensures forall k | 0 <= k < |ps.checks| :: ps.checks[k].taskID in uuids
  {
    forall k | 0 <= k < |ps.checks| ensures ps.checks[k].taskID in uuids {
      assert CheckOk(ps.checks[k], ps.scenario);
      var i :| 0 <= i < |ps.scenario.tasks| && TaskIDs(ps.scenario.tasks)[i] == ps.checks[k].taskID;
      assert ps.scenario.tasks[i].id in uuids;
    }
  }

  lemma AddTask(tasks: seq<TaskRow>, row: TaskRow, from: nat, next: nat)
    requires TasksOk(tasks, from) && from <= row.id < next && row.versionID < next
    ensures TasksOk(tasks + [row], next)
  {
  }

  lemma MoreTaskRows(rows: seq<TaskRow>, file: seq<Task>, prompts: map<string, string>, version: nat,
                     from: nat, before: nat, next: nat, row: TaskRow)
    requires TaskRows(rows, file, prompts, version, from, before) && |rows| < |file| && from <= before <= next
    requires DescribesTask(row, file[|rows|], prompts) && row.versionID == version && before <= row.id < next
    ensures TaskRows(rows + [row], file, prompts, version, from, next)
  {
  }

  lemma RowsLater(tasks: seq<TaskRow>, rows: seq<TaskRow>, file: seq<Task>, prompts: map<string, string>,
                  version: nat, from: nat, before: nat, next: nat)
    requires TasksOk(tasks + rows, before) && TaskRows(rows, file, prompts, version, from, before) && before <= next
    ensures TasksOk(tasks + rows, next) && TaskRows(rows, file, prompts, version, from, next)
  {
  }

  lemma AddCheck(checks: seq<CheckRow>, tasks: seq<TaskRow>, row: CheckRow, next: nat)
    requires ChecksOk(checks, tasks, next) && row.taskID < next && HasTask(tasks, row.taskID)
    ensures ChecksOk(checks + [row], tasks, next)
  {
  }

  lemma HasTaskInMore(tasks: seq<TaskRow>, more: seq<TaskRow>, id: nat)
    requires HasTask(tasks, id)
    ensures HasTask(tasks + more, id)
  {
    var i :| 0 <= i < |tasks| && tasks[i].id == id;
    assert (tasks + more)[i].id == id;
  }

  lemma HasTaskBefore(more: seq<TaskRow>, tasks: seq<TaskRow>, id: nat)
    requires HasTask(tasks, id)
    ensures HasTask(more + tasks, id)
  {
    var i :| 0 <= i < |tasks| && tasks[i].id == id;
    assert (more + tasks)[|more| + i].id == id;
  }

  lemma ChecksOkInMore(checks: seq<CheckRow>, tasks: seq<TaskRow>, more: seq<TaskRow>, from: nat, next: nat)
    requires ChecksOk(checks, tasks, from) && from <= next
    ensures ChecksOk(checks, tasks + more, next)
  {
    forall i | 0 <= i < |checks| ensures HasTask(tasks + more, checks[i].taskID) {
      HasTaskInMore(tasks, more, checks[i].taskID);
    }
  }

  // ----- the product step

  // The lookup returns no product on any error, so an error counts as "not there".
  function ProductsAfter(products: seq<ProductRow>, title: string, lookupFails: bool, id: nat): seq<ProductRow> {
    if !lookupFails && (exists p :: p in products && p.title == title) then products
    else products + [ProductRow(id, title, title)]
  }

  // When the product can be created at all, a second one for the title appears exactly when the lookup
  // failed and there was one already.
  lemma SecondProductExactlyWhen(products: seq<ProductRow>, title: string, lookupFails: bool, id: nat)
    requires UniqueTitles(products)
    ensures UniqueTitles(ProductsAfter(products, title, lookupFails, id)) <==>
            !(lookupFails && HasTitle(products, title))
  {
    var after := ProductsAfter(products, title, lookupFails, id);
    if lookupFails && HasTitle(products, title) {
      var i :| 0 <= i < |products| && products[i].title == title;
      assert after[i].title == after[|products|].title;
    }
  }

  // So the promise that a title has one product fails for one failing lookup.
  lemma FailedLookupDuplicatesProduct()
    ensures exists products, title, id ::
              UniqueTitles(products) && !UniqueTitles(ProductsAfter(products, title, true, id))
  {
    var products := [ProductRow(0, "Debug a cluster", "Debug a cluster")];
    assert products[0].title == "Debug a cluster";
    SecondProductExactlyWhen(products, "Debug a cluster", true, 1);
    assert !UniqueTitles(ProductsAfter(products, "Debug a cluster", true, 1));
  }

  // The first n discovered scenarios have a version at this commit.
  ghost predicate AllThere(versions: seq<VersionRow>, discovered: seq<ParsedScenario>, n: int, gitCommit: string) {
    n <= |discovered| && forall k | 0 <= k < n :: HasVersion(versions, discovered[k].scenario.id, gitCommit)
  }

  lemma AllThereMore(before: seq<VersionRow>, versions: seq<VersionRow>, discovered: seq<ParsedScenario>, n: nat,
                     gitCommit: string)
    requires n < |discovered| && AllThere(before, discovered, n, gitCommit) && before <= versions
    requires HasVersion(versions, discovered[n].scenario.id, gitCommit)
    ensures AllThere(versions, discovered, n + 1, gitCommit)
  {
    forall k | 0 <= k < n ensures HasVersion(versions, discovered[k].scenario.id, gitCommit) {
      assert HasVersion(before, discovered[k].scenario.id, gitCommit);
    }
  }

  // The same, save for some.
  ghost predicate AllThereBut(versions: seq<VersionRow>, discovered: seq<ParsedScenario>, n: int, gitCommit: string,
                              failed: set<nat>) {
    && n <= |discovered|
    && forall k: nat | k < n && k !in failed :: HasVersion(versions, discovered[k].scenario.id, gitCommit)
  }

  lemma AllThereButMore(before: seq<VersionRow>, versions: seq<VersionRow>, discovered: seq<ParsedScenario>, n: nat,
                        gitCommit: string, failed: set<nat>, imported: bool)
    requires n < |discovered| && AllThereBut(before, discovered, n, gitCommit, failed) && before <= versions
    requires imported ==> HasVersion(versions, discovered[n].scenario.id, gitCommit)
    ensures AllThereBut(versions, discovered, n + 1, gitCommit, if imported then failed else failed + {n})
  {
    forall k: nat | k < n && k !in failed ensures HasVersion(versions, discovered[k].scenario.id, gitCommit) {
      assert HasVersion(before, discovered[k].scenario.id, gitCommit);
    }
  }

  datatype Tables = Tables(versions: seq<VersionRow>, tasks: seq<TaskRow>, checks: seq<CheckRow>,
                           products: seq<ProductRow>, tests: seq<TestRow>)

  class ScenarioStore {
    var versions: seq<VersionRow>
    var tasks: seq<TaskRow>
    var checks: seq<CheckRow>
    var products: seq<ProductRow>
    var tests: seq<TestRow>

    // Identifiers below next have been given out. The number of store calls that failed is kept for the
    // statements below only.
    var next: nat
    ghost var faults: nat

    ghost predicate Valid()
      reads this
    {
      VersionsOk(versions, next) && TasksOk(tasks, next) && ChecksOk(checks, tasks, next)
    }

    ghost function Contents(): Tables
      reads this
    {
      Tables(versions, tasks, checks, products, tests)
    }

    constructor ()
      ensures Valid() && versions == [] && tasks == [] && checks == [] && products == [] && tests == []
    {
      versions, tasks, checks, products, tests, next, faults := [], [], [], [], [], 0, 0;
    }

    method Call() returns (ok: bool)
      modifies `faults
      ensures old(faults) <= faults && (ok <==> faults == old(faults))
    {
      ok := *;
      if !ok {
        faults := faults + 1;
      }
    }

    method NewID() returns (id: nat)
      modifies `next
      ensures id == old(next) && next == old(next) + 1
    {
      id, next := next, next + 1;
    }

    method GetVersionByExternalID(externalID: string, gitCommit: string) returns (r: Result<VersionRow, LookupError>)
      modifies `faults
      ensures old(faults) <= faults
      ensures r == Err(Broken) <==> faults != old(faults)
      ensures faults == old(faults) ==> (r.Ok? <==> HasVersion(versions, externalID, gitCommit))
    {
      var ok := Call();
      if !ok {
        return Err(Broken);
      }
      for i := 0 to |versions|
        invariant forall k | 0 <= k < i :: versions[k].externalID != externalID || versions[k].gitCommit != gitCommit
      {
        if versions[i].externalID == externalID && versions[i].gitCommit == gitCommit {
          return Ok(versions[i]);
        }
      }
      return Err(NoRows);
    }

    method GetProductByTitle(title: string) returns (r: Result<ProductRow, LookupError>)
      modifies `faults
      ensures old(faults) <= faults
      ensures r == Err(Broken) <==> faults != old(faults)
      ensures faults == old(faults) ==> (r.Ok? <==> HasTitle(products, title))
      ensures r.Ok? ==> r.value in products && r.value.title == title
    {
      var ok := Call();
      if !ok {
        return Err(Broken);
      }
      for i := 0 to |products|
        invariant forall k | 0 <= k < i :: products[k].title != title
      {
        if products[i].title == title {
          return Ok(products[i]);
        }
      }
      return Err(NoRows);
    }

    // ----- the loops of importParsedScenario

    method ImportTasks(s: Scenario, prompts: map<string, string>, svID: nat)
        returns (err: Option<ImportError>, taskUUIDs: map<string, nat>, ghost rows: seq<TaskRow>)
      requires TasksOk(tasks, next) && svID < next && Unique(TaskIDs(s.tasks))
      modifies `tasks, `next, `faults
      ensures old(next) <= next && old(faults) <= faults
      ensures TasksOk(tasks, next) && tasks == old(tasks) + rows
      ensures TaskRows(rows, s.tasks, prompts, svID, old(next), next)
      ensures Handed(taskUUIDs, rows, s.tasks)
      ensures err.None? <==> faults == old(faults)
      ensures err.None? ==> |rows| == |s.tasks|
      ensures err.Some? ==> err.value.CreatingTask?
    {
      taskUUIDs, rows := map[], [];
      assert TaskRows(rows, s.tasks, prompts, svID, next, next) && Handed(taskUUIDs, rows, s.tasks);
      hide TasksOk, Handed, TaskRows;
      for i := 0 to |s.tasks|
        invariant old(next) <= next && faults == old(faults) && |rows| == i
        invariant TasksOk(tasks, next) && tasks == old(tasks) + rows
        invariant TaskRows(rows, s.tasks, prompts, svID, old(next), next)
        invariant Handed(taskUUIDs, rows, s.tasks)
      {
        var t := s.tasks[i];
        ghost var before := next;
        var tID := NewID();
        var row := TaskRow(tID, svID, t.id, t.clusterID, t.kubeContext, t.points, Prompt(prompts, t.id));
        AddTask(tasks, row, before, next);
        HandOver(taskUUIDs, rows, s.tasks, row);
        MoreTaskRows(rows, s.tasks, prompts, svID, old(next), before, next, row);
        var ok := Call();
        if !ok {
          RowsLater(old(tasks), rows, s.tasks, prompts, svID, old(next), before, next);
          return Some(CreatingTask(t.id)), taskUUIDs, rows;
        }
        taskUUIDs := taskUUIDs[t.id := tID];
        tasks := tasks + [row];
        rows := rows + [row];
      }
      err := None;
    }

    method ImportChecks(file: seq<Check>, taskUUIDs: map<string, nat>)
        returns (err: Option<ImportError>, ghost rows: seq<CheckRow>)
      requires ChecksOk(checks, tasks, next)
      requires forall id | id in taskUUIDs :: taskUUIDs[id] < next && HasTask(tasks, taskUUIDs[id])
      modifies `checks, `next, `faults
      ensures old(next) <= next && old(faults) <= faults
      ensures ChecksOk(checks, tasks, next) && checks == old(checks) + rows && CheckRows(rows, file, taskUUIDs)
      ensures err.None? ==> |rows| == |file|
      ensures faults == old(faults) ==>
                (err.None? <==> forall k | 0 <= k < |file| :: file[k].taskID in taskUUIDs)
      ensures err.Some? ==> err.value.UnknownTask? || err.value.CreatingCheck?
      ensures err.Some? && err.value.UnknownTask? ==>
                exists k :: 0 <= k < |file| && file[k].taskID !in taskUUIDs
      ensures err.None? ==> faults == old(faults)
    {
      rows := [];
      for i := 0 to |file|
        invariant old(next) <= next && faults == old(faults) && |rows| == i
        invariant ChecksOk(checks, tasks, next) && checks == old(checks) + rows && CheckRows(rows, file, taskUUIDs)
        invariant forall k | 0 <= k < i :: file[k].taskID in taskUUIDs
      {
        var c := file[i];
        if c.taskID !in taskUUIDs {
          return Some(UnknownTask(c.id, c.taskID)), rows;
        }
        var id := NewID();
        var row := CheckRow(id, taskUUIDs[c.taskID], c.id, c.clusterID, c.kind, c.command, c.points);
        var ok := Call();
        if !ok {
          return Some(CreatingCheck(c.id)), rows;
        }
        AddCheck(checks, tasks, row, next);
        checks := checks + [row];
        rows := rows + [row];
      }
      err := None;
    }

    // ----- the product and the test

    // An error of the lookup leaves no product in hand, so it leads to a new one; the branch that would
    // report the error is never reached.
    method FindOrCreateProduct(title: string) returns (r: Result<ProductRow, ImportError>, ghost lookupFails: bool)
      modifies `products, `next, `faults
      ensures old(next) <= next && old(faults) <= faults
      ensures r.Ok? ==> products == ProductsAfter(old(products), title, lookupFails, old(next))
      ensures products == old(products) || products == old(products) + [ProductRow(old(next), title, title)]
      ensures r.Ok? ==> r.value in products && r.value.title == title
      ensures r.Err? ==> products == old(products) && r.error == CreatingProduct && faults > old(faults)
      ensures faults == old(faults) ==> !lookupFails
    {
      var found := GetProductByTitle(title);
      lookupFails := found == Err(Broken);
      if found.Ok? {
        return Ok(found.value), lookupFails;
      }
      if !lookupFails {
        forall p | p in products ensures p.title != title {
          var i :| 0 <= i < |products| && products[i] == p;
        }
      }
      var id := NewID();
      var ok := Call();
      if !ok {
        return Err(CreatingProduct), lookupFails;
      }
      var product := ProductRow(id, title, title);
      products := products + [product];
      assert products[|products| - 1] == product;
      return Ok(product), lookupFails;
    }

    // The test by which the version is sold.
    ghost predicate Sells(test: TestRow, s: Scenario, version: nat)
      reads this
    {
      && test.versionID == version
      && test.durationMinutes == s.durationMinutes && test.accessWindowHours == s.accessWindowHours
      && test.attemptsAllowed == s.attemptsAllowed
      && exists p :: p in products && p.id == test.productID && p.title == s.title
    }

    method Publish(s: Scenario, svID: nat) returns (err: Option<ImportError>, ghost lookupFails: bool)
      modifies `products, `tests, `next, `faults
      ensures old(next) <= next && old(faults) <= faults
      ensures products == old(products) || products == ProductsAfter(old(products), s.title, lookupFails, old(next))
      ensures err.None? ==> |tests| == |old(tests)| + 1 && tests[..|old(tests)|] == old(tests)
      ensures err.None? ==> Sells(tests[|old(tests)|], s, svID)
      ensures err.Some? ==> tests == old(tests) && faults > old(faults)
      ensures err.Some? ==> err.value == CreatingProduct || err.value == CreatingTest
      ensures faults == old(faults) ==> !lookupFails
    {
      var product;
      product, lookupFails := FindOrCreateProduct(s.title);
      if product.Err? {
        return Some(product.error), lookupFails;
      }
      var id := NewID();
      var ok := Call();
      if !ok {
        return Some(CreatingTest), lookupFails;
      }
      tests := tests + [TestRow(id, product.value.id, svID, s.durationMinutes, s.accessWindowHours, s.attemptsAllowed)];
      return None, lookupFails;
    }

    // ----- one scenario

    // The two loops, one after the other.
    method ImportRows(ps: ParsedScenario, svID: nat)
        returns (err: Option<ImportError>, ghost taskRows: seq<TaskRow>, ghost checkRows: seq<CheckRow>)
      requires Sound(ps)
      requires TasksOk(tasks, next) && ChecksOk(checks, tasks, next) && svID < next
      modifies `tasks, `checks, `next, `faults
      ensures old(next) <= next && old(faults) <= faults
      ensures TasksOk(tasks, next) && ChecksOk(checks, tasks, next)
      ensures tasks == old(tasks) + taskRows && checks == old(checks) + checkRows
      ensures Added(taskRows, checkRows, svID, svID, next)
      ensures err.None? <==> faults == old(faults)
      ensures err.Some? ==> err.value.CreatingTask? || err.value.CreatingCheck?
      ensures err.None? ==> Complete((taskRows, checkRows), ps)
    {
      checkRows := [];
      var uuids;
      err, uuids, taskRows := ImportTasks(ps.scenario, ps.prompts, svID);
      ChecksOkInMore(checks, old(tasks), taskRows, old(next), next);
      if err.None? {
        HandedCoversTheFile(uuids, taskRows, ps);
        HandedIsStored(uuids, old(tasks), taskRows, ps.scenario.tasks, next);
        ghost var from := next;
        err, checkRows := ImportChecks(ps.checks, uuids);
        TasksOkLater(tasks, from, next);
        if err.None? {
          RowsAreComplete(uuids, taskRows, checkRows, ps, svID, old(next), next);
        }
      }
      RowsAreAdded(uuids, taskRows, checkRows, ps, svID, old(next), next);
    }

    // Tasks and checks of a new version. Whatever fails on the way, the other versions list what they did.
    method ImportContents(ps: ParsedScenario, svID: nat) returns (err: Option<ImportError>)
      requires Sound(ps)
      requires TasksOk(tasks, svID) && ChecksOk(checks, tasks, svID) && svID < next
      modifies `tasks, `checks, `next, `faults
      ensures old(next) <= next && old(faults) <= faults
      ensures TasksOk(tasks, next) && ChecksOk(checks, tasks, next)
      ensures err.None? <==> faults == old(faults)
      ensures err.Some? ==> err.value.CreatingTask? || err.value.CreatingCheck?
      ensures err.None? ==> Complete(Content(checks, tasks, svID), ps)
      ensures forall w: nat | w != svID :: Content(checks, tasks, w) == Content(old(checks), old(tasks), w)
    {
      TasksOkLater(tasks, svID, next);
      ChecksOkLater(checks, tasks, svID, next);
      ghost var taskRows, checkRows;
      err, taskRows, checkRows := ImportRows(ps, svID);
      ListedAfter(old(checks), old(tasks), checkRows, taskRows, svID, next);
    }

    // Stores a version, unless there is one of the same file and commit, which the table does not take.
    method CreateVersion(row: VersionRow) returns (ok: bool)
      requires VersionsOk(versions, row.id)
      modifies `versions, `faults
      ensures old(faults) <= faults
      ensures versions == if ok then old(versions) + [row] else old(versions)
      ensures VersionsOk(versions, row.id + 1)
      ensures !HasVersion(old(versions), row.externalID, row.gitCommit) ==> (ok <==> faults == old(faults))
    {
      ok := Call();
      for i := 0 to |versions|
        invariant ok ==> forall k | 0 <= k < i ::
                    versions[k].externalID != row.externalID || versions[k].gitCommit != row.gitCommit
        invariant !HasVersion(versions, row.externalID, row.gitCommit) ==> (ok <==> faults == old(faults))
      {
        if versions[i].externalID == row.externalID && versions[i].gitCommit == row.gitCommit {
          ok := false;
        }
      }
      if ok {
        versions := versions + [row];
      }
    }

    method ImportParsedScenario(ps: ParsedScenario, gitCommit: string)
        returns (err: Option<ImportError>, ghost svID: nat, ghost lookupFails: bool)
      requires Valid() && Sound(ps)
      modifies this
      ensures Valid() && old(next) <= next && old(faults) <= faults
      // The check loop's own error cannot happen.
      ensures err.Some? ==> !err.value.UnknownTask?
      // A version that is there, complete or not, stops everything.
      ensures HasVersion(old(versions), ps.scenario.id, gitCommit) ==> Contents() == old(Contents())
      // Otherwise one version at most is added.
      ensures versions == old(versions)
           || (|versions| == |old(versions)| + 1 && versions[..|old(versions)|] == old(versions))
      ensures faults == old(faults) ==> err.None? && HasVersion(versions, ps.scenario.id, gitCommit)
      // And a success means that the version lists the checks of the file, and is on sale.
      ensures err.None? && !HasVersion(old(versions), ps.scenario.id, gitCommit) ==>
                && |versions| == |old(versions)| + 1 && versions[|old(versions)|].id == svID
                && VersionOf(versions[|old(versions)|], ps.scenario, gitCommit)
                && Complete(Content(checks, tasks, svID), ps)
                && |tests| == |old(tests)| + 1 && Sells(tests[|old(tests)|], ps.scenario, svID)
      // Whatever happens, no other version lists anything else than before.
      ensures svID >= old(next)
      ensures forall w: nat | w != svID :: Content(checks, tasks, w) == Content(old(checks), old(tasks), w)
      ensures products == old(products)
           || exists id :: products == ProductsAfter(old(products), ps.scenario.title, lookupFails, id)
      ensures faults == old(faults) ==> !lookupFails
    {
      svID, lookupFails := next, false;
      var existing := GetVersionByExternalID(ps.scenario.id, gitCommit);
      if existing.Ok? {
        return None, svID, lookupFails;
      }
      if existing.error != NoRows {
        return Some(LookingUpVersion), svID, lookupFails;
      }
      err, lookupFails := ImportNewVersion(ps, gitCommit);
    }

    method ImportNewVersion(ps: ParsedScenario, gitCommit: string)
        returns (err: Option<ImportError>, ghost lookupFails: bool)
      requires Valid() && Sound(ps) && !HasVersion(versions, ps.scenario.id, gitCommit)
      modifies this
      ensures Valid() && old(next) <= next && old(faults) <= faults
      ensures err.Some? ==> !err.value.UnknownTask?
      ensures versions == old(versions)
           || (|versions| == |old(versions)| + 1 && versions[..|old(versions)|] == old(versions))
      ensures faults == old(faults) ==> err.None?
      ensures err.None? ==>
                && |versions| == |old(versions)| + 1 && versions[|old(versions)|].id == old(next)
                && VersionOf(versions[|old(versions)|], ps.scenario, gitCommit)
                && Complete(Content(checks, tasks, old(next)), ps)
                && |tests| == |old(tests)| + 1 && Sells(tests[|old(tests)|], ps.scenario, old(next))
      ensures forall w: nat | w != old(next) :: Content(checks, tasks, w) == Content(old(checks), old(tasks), w)
      ensures products == old(products)
           || exists id :: products == ProductsAfter(old(products), ps.scenario.title, lookupFails, id)
      ensures faults == old(faults) ==> !lookupFails
    {
      hide Content, Complete, Sound;
      lookupFails := false;
      var s := ps.scenario;
      var svID := NewID();
      var row := VersionRow(svID, s.id, gitCommit, s.title, s.durationMinutes, s.accessWindowHours,
                            s.attemptsAllowed, s.clusters);
      TasksOkLater(tasks, svID, next);
      ChecksOkLater(checks, tasks, svID, next);
      var ok := CreateVersion(row);
      if !ok {
        return Some(CreatingVersion), lookupFails;
      }
      err := ImportContents(ps, svID);
      if err.Some? {
        return;
      }
      ghost var before := next;
      err, lookupFails := Publish(s, svID);
      TasksOkLater(tasks, before, next);
      ChecksOkLater(checks, tasks, before, next);
    }

    // ----- all scenarios

    // The version is that of one of the first n discovered scenarios and holds exactly its tasks and checks.
    ghost predicate Holds(v: VersionRow, discovered: seq<ParsedScenario>, n: int, gitCommit: string)
      reads this
    {
      exists j :: 0 <= j < n <= |discovered| && VersionOf(v, discovered[j].scenario, gitCommit)
                  && Complete(Content(checks, tasks, v.id), discovered[j])
    }

    ghost predicate AllHeld(base: nat, discovered: seq<ParsedScenario>, n: int, gitCommit: string)
      reads this
    {
      forall i | base <= i < |versions| :: Holds(versions[i], discovered, n, gitCommit)
    }

    // An error in one scenario does not stop the others: a scenario is missing only if a call failed in its own
    // turn.
    method ImportDiscovered(discovered: seq<ParsedScenario>, gitCommit: string) returns (ghost failed: set<nat>)
      requires Valid() && forall k | 0 <= k < |discovered| :: Sound(discovered[k])
      modifies this
      ensures Valid() && old(faults) <= faults
      ensures old(versions) <= versions
      ensures forall w: nat | w < old(next) :: Content(checks, tasks, w) == Content(old(checks), old(tasks), w)
      // Nothing is done for scenarios that are there already.
      ensures AllThere(old(versions), discovered, |discovered|, gitCommit) ==>
                Contents() == old(Contents())
      // A run in which no store call fails imports everything, wholly, and adds no title twice.
      ensures |failed| <= faults - old(faults)
      ensures forall k: nat | k < |discovered| && k !in failed ::
                HasVersion(versions, discovered[k].scenario.id, gitCommit)
      ensures faults == old(faults) ==> AllThere(versions, discovered, |discovered|, gitCommit)
      ensures faults == old(faults) ==> AllHeld(|old(versions)|, discovered, |discovered|, gitCommit)
      ensures faults == old(faults) && UniqueTitles(old(products)) ==> UniqueTitles(products)
    {
      hide Content, HasVersion, Holds, UniqueTitles, Sound;
      failed := {};
      for n := 0 to |discovered|
        invariant Valid() && old(next) <= next && old(faults) <= faults
        invariant old(versions) <= versions
        invariant forall w: nat | w < old(next) :: Content(checks, tasks, w) == Content(old(checks), old(tasks), w)
        invariant AllThere(old(versions), discovered, |discovered|, gitCommit) ==>
                    Contents() == old(Contents())
        invariant |failed| <= faults - old(faults) && forall k | k in failed :: k < n
        invariant AllThereBut(versions, discovered, n, gitCommit, failed)
        invariant faults == old(faults) ==> AllThere(versions, discovered, n, gitCommit)
        invariant faults == old(faults) ==> AllHeld(|old(versions)|, discovered, n, gitCommit)
        invariant faults == old(faults) && UniqueTitles(old(products)) ==> UniqueTitles(products)
      {
        ghost var before := versions;
        ghost var imported := ImportOne(discovered, n, |old(versions)|, gitCommit);
        AllThereButMore(before, versions, discovered, n, gitCommit, failed, imported);
        if !imported {
          failed := failed + {n};
        }
        if faults == old(faults) {
          AllThereMore(before, versions, discovered, n, gitCommit);
        }
      }
    }

    // One turn of that loop.
    method ImportOne(discovered: seq<ParsedScenario>, n: nat, ghost base: nat, gitCommit: string)
      returns (ghost imported: bool)
      requires Valid() && n < |discovered| && Sound(discovered[n]) && base <= |versions|
      modifies this
      ensures Valid() && old(next) <= next && old(faults) <= faults
      ensures old(versions) <= versions
      ensures forall w: nat | w < old(next) :: Content(checks, tasks, w) == Content(old(checks), old(tasks), w)
      ensures HasVersion(old(versions), discovered[n].scenario.id, gitCommit) ==> Contents() == old(Contents())
      ensures if imported then HasVersion(versions, discovered[n].scenario.id, gitCommit) else faults > old(faults)
      ensures faults == old(faults) && old(AllHeld(base, discovered, n, gitCommit)) ==>
                AllHeld(base, discovered, n + 1, gitCommit)
      ensures faults == old(faults) && UniqueTitles(old(products)) ==> UniqueTitles(products)
    {
      ghost var svID, lookupFails;
      var err;
      err, svID, lookupFails := ImportParsedScenario(discovered[n], gitCommit);
      imported := err.None?;
      if faults == old(faults) && UniqueTitles(old(products)) && products != old(products) {
        ghost var id :| products == ProductsAfter(old(products), discovered[n].scenario.title, lookupFails, id);
        SecondProductExactlyWhen(old(products), discovered[n].scenario.title, lookupFails, id);
      }
    }

    // The whole run. One file that does not pass validation stops it before anything is stored.
    method ImportAll(files: seq<ParsedScenario>, gitCommit: string) returns (flaw: Option<Flaw>, ghost failed: set<nat>)
      requires Valid()
      modifies this
      ensures Valid() && old(faults) <= faults
      ensures flaw.None? <==> forall k | 0 <= k < |files| :: Sound(files[k])
      ensures flaw.Some? ==> Contents() == old(Contents()) && faults == old(faults)
      ensures old(versions) <= versions
      ensures forall w: nat | w < old(next) :: Content(checks, tasks, w) == Content(old(checks), old(tasks), w)
      ensures AllThere(old(versions), files, |files|, gitCommit) ==> Contents() == old(Contents())
      ensures |failed| <= faults - old(faults)
      ensures flaw.None? ==>
                forall k: nat | k < |files| && k !in failed :: HasVersion(versions, files[k].scenario.id, gitCommit)
      ensures flaw.None? && faults == old(faults) ==> AllThere(versions, files, |files|, gitCommit)
      ensures flaw.None? && faults == old(faults) ==> AllHeld(|old(versions)|, files, |files|, gitCommit)
      ensures faults == old(faults) && UniqueTitles(old(products)) ==> UniqueTitles(products)
    {
      failed := {};
      flaw := DiscoverScenarios(files);
      if flaw.None? {
        failed := ImportDiscovered(files, gitCommit);
      }
    }

    // From the files to the machines: what is asked for an attempt at a version of this import is the
    // workstation and the nodes of the version's file.
    method ImportAndAsk(files: seq<ParsedScenario>, gitCommit: string, i: nat, attempt: string, environment: string,
                        key: string)
      returns (spec: Option<E.EnvironmentSpec>, ghost file: nat)
      requires Valid() && |attempt| >= 8
      modifies this
      ensures Valid() && old(versions) <= versions
      ensures spec.Some? <==> i < |versions|
      ensures faults == old(faults) && |old(versions)| <= i < |versions| ==>
                && file < |files| && VersionOf(versions[i], files[file].scenario, gitCommit)
                && AsksForNodes(files[file].scenario.clusters, attempt, key, spec.value.clusters)
    {
      ghost var failed;
      var flaw;
      flaw, failed := ImportAll(files, gitCommit);
      spec, file := None, 0;
      if i < |versions| {
        var asked := E.BuildEnvironmentSpec(versions[i].topology, attempt, environment, key);
        spec := Some(asked);
        if flaw.None? && faults == old(faults) && |old(versions)| <= i {
          assert Holds(versions[i], files, |files|, gitCommit);
          file :| 0 <= file < |files| && VersionOf(versions[i], files[file].scenario, gitCommit);
        }
      }
    }

    // Importing again what was imported without a failing call changes nothing, whatever fails then.
    method ImportTwice(files: seq<ParsedScenario>, gitCommit: string)
        returns (ghost clean: bool, ghost first: Tables)
      requires Valid()
      modifies this
      ensures Valid()
      ensures faults == old(faults) ==> clean
      ensures clean ==> Contents() == first
    {
      ghost var failed;
      var flaw;
      flaw, failed := ImportAll(files, gitCommit);
      first, clean := Contents(), faults == old(faults);
      flaw, failed := ImportAll(files, gitCommit);
    }
  }

  // Every cluster of the file with every node of it once, under the cluster's name and with the node's own
  // role and template, each with the key and the tags of the attempt.
  ghost predicate AsksForNodes(clusters: seq<Cluster>, attempt: string, key: string, asked: seq<E.ClusterRequest>) {
    && |asked| == |clusters|
    && forall i | 0 <= i < |clusters| ::
         asked[i].name == clusters[i].id && E.AsksFor(clusters[i], attempt, key, asked[i])
  }

  lemma RowsAreAdded(uuids: map<string, nat>, taskRows: seq<TaskRow>, checkRows: seq<CheckRow>, ps: ParsedScenario,
                     svID: nat, from: nat, next: nat)
    requires svID < from <= next
    requires TaskRows(taskRows, ps.scenario.tasks, ps.prompts, svID, from, next)
    requires Handed(uuids, taskRows, ps.scenario.tasks) && CheckRows(checkRows, ps.checks, uuids)
    ensures Added(taskRows, checkRows, svID, svID, next)
  {
    forall i | 0 <= i < |checkRows|
      ensures svID <= checkRows[i].taskID < next && HasTask(taskRows, checkRows[i].taskID)
    {
      assert HasTask(taskRows, uuids[ps.checks[i].taskID]);
    }
  }

  lemma ListedAfter(checks: seq<CheckRow>, tasks: seq<TaskRow>, newChecks: seq<CheckRow>, newTasks: seq<TaskRow>,
                    version: nat, next: nat)
    requires TasksOk(tasks, version) && ChecksOk(checks, tasks, version)
    requires TasksOk(tasks + newTasks, next) && Added(newTasks, newChecks, version, version, next)
    ensures Content(checks + newChecks, tasks + newTasks, version) == (newTasks, newChecks)
    ensures forall w: nat | w != version ::
              Content(checks + newChecks, tasks + newTasks, w) == Content(checks, tasks, w)
  {
    TasksOfNone(tasks, version);
    TasksOfMore(tasks, newTasks, version);
    assert [] + newTasks == newTasks;
    ListedIsWhatWasAdded(checks, tasks, newChecks, newTasks, version, version, next);
    forall w: nat | w != version
      ensures Content(checks + newChecks, tasks + newTasks, w) == Content(checks, tasks, w)
    {
      ListedElsewhereIsUnchanged(checks, tasks, newChecks, newTasks, version, version, next, w);
    }
  }

  // The check hangs at the task of this name.
  ghost predicate HangsAt(row: CheckRow, tasks: seq<TaskRow>, name: string) {
    exists i :: 0 <= i < |tasks| && tasks[i].id == row.taskID && tasks[i].externalID == name
  }

  // The rows are the tasks and the checks of the file, in its order, and every check hangs at the task that
  // it names.
  ghost predicate Complete(rows: (seq<TaskRow>, seq<CheckRow>), ps: ParsedScenario) {
    && |rows.0| == |ps.scenario.tasks| && |rows.1| == |ps.checks|
    && (forall k | 0 <= k < |rows.0| :: DescribesTask(rows.0[k], ps.scenario.tasks[k], ps.prompts))
    && forall k | 0 <= k < |rows.1| ::
         Describes(rows.1[k], ps.checks[k]) && HangsAt(rows.1[k], rows.0, ps.checks[k].taskID)
  }

  lemma RowsAreComplete(uuids: map<string, nat>, taskRows: seq<TaskRow>, checkRows: seq<CheckRow>, ps: ParsedScenario,
                        svID: nat, from: nat, next: nat)
    requires Sound(ps) && |taskRows| == |ps.scenario.tasks| && |checkRows| == |ps.checks|
    requires TaskRows(taskRows, ps.scenario.tasks, ps.prompts, svID, from, next)
    requires Handed(uuids, taskRows, ps.scenario.tasks) && CheckRows(checkRows, ps.checks, uuids)
    ensures Complete((taskRows, checkRows), ps)
  {
    forall k | 0 <= k < |checkRows| ensures HangsAt(checkRows[k], taskRows, ps.checks[k].taskID) {
      assert CheckOk(ps.checks[k], ps.scenario);
      var i :| 0 <= i < |ps.scenario.tasks| && TaskIDs(ps.scenario.tasks)[i] == ps.checks[k].taskID;
      assert DescribesTask(taskRows[i], ps.scenario.tasks[i], ps.prompts);
      assert taskRows[i].id == uuids[ps.scenario.tasks[i].id];
    }
  }

  // The version of this file at this commit.
  ghost predicate VersionOf(v: VersionRow, s: Scenario, gitCommit: string) {
    && v.externalID == s.id && v.gitCommit == gitCommit && v.title == s.title && v.topology == s.clusters
    && v.durationMinutes == s.durationMinutes && v.accessWindowHours == s.accessWindowHours
    && v.attemptsAllowed == s.attemptsAllowed
  }

  lemma TasksOkLater(tasks: seq<TaskRow>, from: nat, next: nat)
    requires TasksOk(tasks, from) && from <= next
    ensures TasksOk(tasks, next)
  {
  }

  lemma ChecksOkLater(checks: seq<CheckRow>, tasks: seq<TaskRow>, from: nat, next: nat)
    requires ChecksOk(checks, tasks, from) && from <= next
    ensures ChecksOk(checks, tasks, next)
  {
  }

  lemma HandedIsStored(uuids: map<string, nat>, tasks: seq<TaskRow>, rows: seq<TaskRow>, file: seq<Task>, next: nat)
    requires Handed(uuids, rows, file) && TasksOk(tasks + rows, next)
    ensures forall id | id in uuids :: uuids[id] < next && HasTask(tasks + rows, uuids[id])
  {
    forall id | id in uuids ensures uuids[id] < next && HasTask(tasks + rows, uuids[id]) {
      HasTaskBefore(tasks, rows, uuids[id]);
    }
  }

  lemma HandOver(uuids: map<string, nat>, rows: seq<TaskRow>, tasks: seq<Task>, row: TaskRow)
    requires Handed(uuids, rows, tasks) && Unique(TaskIDs(tasks)) && |rows| < |tasks|
    ensures Handed(uuids[tasks[|rows|].id := row.id], rows + [row], tasks)
  {
    var more, uuids' := rows + [row], uuids[tasks[|rows|].id := row.id];
    forall k | 0 <= k < |more| ensures tasks[k].id in uuids' && uuids'[tasks[k].id] == more[k].id {
      assert k < |rows| ==> TaskIDs(tasks)[k] != TaskIDs(tasks)[|rows|];
    }
    forall id | id in uuids' ensures HasTask(more, uuids'[id]) {
      if id == tasks[|rows|].id {
        assert more[|rows|].id == row.id;
      } else {
        HasTaskInMore(rows, [row], uuids[id]);
      }
    }
  }
}
