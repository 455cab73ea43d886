/** Scenario and checks files, and the two validators that decide which of them are imported. */
module Scenarios {
  import opened Wrappers
  import opened Text

  datatype Node = Node(name: string, role: string, template: string)
  datatype Cluster = Cluster(id: string, kubeContext: string, nodes: seq<Node>)
  datatype Task = Task(id: string, clusterID: string, kubeContext: string, points: int, promptFile: string)
  datatype Scenario = Scenario(id: string, title: string, durationMinutes: int, accessWindowHours: int,
                               attemptsAllowed: int, clusters: seq<Cluster>, tasks: seq<Task>)

  datatype Check = Check(id: string, taskID: string, clusterID: string, kind: string, command: string, points: int)

  datatype Flaw =
    | NoID
    | NoTitle
    | BadDuration
    | BadAccessWindow
    | BadAttempts
    | NoClusters
    | NoClusterID
    | DuplicateCluster(cluster: string)
    | NoNodes(cluster: string)
    | NoNodeName(cluster: string)
    | DuplicateNode(node: string, cluster: string)
    | BadRole(node: string, cluster: string, role: string)
    | NoTemplate(node: string, cluster: string)
    | NoTasks
    | NoTaskID
    | DuplicateTask(task: string)
    | TaskOfUnknownCluster(task: string, cluster: string)
    | BadTaskPoints(task: string)
    | NoPrompt(task: string)
    | NoChecks
    | NoCheckID
    | DuplicateCheck(check: string)
    | CheckOfUnknownTask(check: string, task: string)
    | CheckOfUnknownCluster(check: string, cluster: string)
    | NoType(check: string)
    | NoCommand(check: string)
    | BadCheckPoints(check: string)

  // ----- what the files must be like

  function NodeNames(nodes: seq<Node>): seq<string> {
    seq(|nodes|, i requires 0 <= i < |nodes| => nodes[i].name)
  }

  function ClusterIDs(clusters: seq<Cluster>): seq<string> {
    seq(|clusters|, i requires 0 <= i < |clusters| => clusters[i].id)
  }

  function TaskIDs(tasks: seq<Task>): seq<string> {
    seq(|tasks|, i requires 0 <= i < |tasks| => tasks[i].id)
  }

  function CheckIDs(checks: seq<Check>): seq<string> {
    seq(|checks|, i requires 0 <= i < |checks| => checks[i].id)
  }

  ghost predicate Unique(names: seq<string>) {
    forall i, j | 0 <= i < j < |names| :: names[i] != names[j]
  }

  ghost predicate Repeated(names: seq<string>, name: string) {
    exists i, j :: 0 <= i < j < |names| && names[i] == name == names[j]
  }

  ghost predicate NodeOk(n: Node) {
    n.name != "" && ToLower(n.role) in {"control-plane", "worker"} && n.template != ""
  }

  ghost predicate ClusterOk(c: Cluster) {
    && c.id != "" && c.nodes != []
    && (forall n | n in c.nodes :: NodeOk(n))
    && Unique(NodeNames(c.nodes))
  }

  ghost predicate TaskOk(t: Task, clusters: seq<Cluster>) {
    t.id != "" && t.clusterID in ClusterIDs(clusters) && t.points > 0 && t.promptFile != ""
  }

  ghost predicate WellFormed(s: Scenario) {
    && s.id != "" && s.title != "" && s.durationMinutes > 0 && s.accessWindowHours > 0 && s.attemptsAllowed > 0
    && s.clusters != [] && (forall c | c in s.clusters :: ClusterOk(c)) && Unique(ClusterIDs(s.clusters))
    && s.tasks != [] && (forall t | t in s.tasks :: TaskOk(t, s.clusters)) && Unique(TaskIDs(s.tasks))
  }

  ghost predicate CheckOk(ch: Check, s: Scenario) {
    && ch.id != "" && ch.taskID in TaskIDs(s.tasks) && ch.clusterID in ClusterIDs(s.clusters)
    && ch.kind != "" && ch.command != "" && ch.points > 0
  }

  ghost predicate WellFormedChecks(checks: seq<Check>, s: Scenario) {
    checks != [] && (forall ch | ch in checks :: CheckOk(ch, s)) && Unique(CheckIDs(checks))
  }

  // ----- what a refusal says

  ghost predicate ClusterFlaw(clusters: seq<Cluster>, f: Flaw) {
    match f
    case NoClusters => clusters == []
    case NoClusterID => exists c :: c in clusters && c.id == ""
    case DuplicateCluster(id) => Repeated(ClusterIDs(clusters), id)
    case NoNodes(id) => exists c :: c in clusters && c.id == id && c.nodes == []
    case NoNodeName(id) => exists c :: c in clusters && c.id == id && NodeFlaw(c, f)
    case DuplicateNode(_, id) => exists c :: c in clusters && c.id == id && NodeFlaw(c, f)
    case BadRole(_, id, _) => exists c :: c in clusters && c.id == id && NodeFlaw(c, f)
    case NoTemplate(_, id) => exists c :: c in clusters && c.id == id && NodeFlaw(c, f)
    case _ => false
  }

  ghost predicate NodeFlaw(c: Cluster, f: Flaw) {
    match f
    case NoNodeName(id) => id == c.id && exists n :: n in c.nodes && n.name == ""
    case DuplicateNode(name, id) => id == c.id && Repeated(NodeNames(c.nodes), name)
    case BadRole(name, id, role) =>
      && id == c.id && ToLower(role) !in {"control-plane", "worker"}
      && exists n :: n in c.nodes && n.name == name && n.role == role
    case NoTemplate(name, id) => id == c.id && exists n :: n in c.nodes && n.name == name && n.template == ""
    case _ => false
  }

  ghost predicate TaskFlaw(tasks: seq<Task>, clusters: seq<Cluster>, f: Flaw) {
    match f
    case NoTasks => tasks == []
    case NoTaskID => exists t :: t in tasks && t.id == ""
    case DuplicateTask(id) => Repeated(TaskIDs(tasks), id)
    case TaskOfUnknownCluster(id, cluster) =>
      cluster !in ClusterIDs(clusters) && exists t :: t in tasks && t.id == id && t.clusterID == cluster
    case BadTaskPoints(id) => exists t :: t in tasks && t.id == id && t.points <= 0
    case NoPrompt(id) => exists t :: t in tasks && t.id == id && t.promptFile == ""
    case _ => false
  }

  ghost predicate ScenarioFlaw(s: Scenario, f: Flaw) {
    match f
    case NoID => s.id == ""
    case NoTitle => s.title == ""
    case BadDuration => s.durationMinutes <= 0
    case BadAccessWindow => s.accessWindowHours <= 0
    case BadAttempts => s.attemptsAllowed <= 0
    case _ => ClusterFlaw(s.clusters, f) || TaskFlaw(s.tasks, s.clusters, f)
  }

  ghost predicate CheckFlaw(checks: seq<Check>, s: Scenario, f: Flaw) {
    match f
    case NoChecks => checks == []
    case NoCheckID => exists ch :: ch in checks && ch.id == ""
    case DuplicateCheck(id) => Repeated(CheckIDs(checks), id)
    case CheckOfUnknownTask(id, task) =>
      task !in TaskIDs(s.tasks) && exists ch :: ch in checks && ch.id == id && ch.taskID == task
    case CheckOfUnknownCluster(id, cluster) =>
      cluster !in ClusterIDs(s.clusters) && exists ch :: ch in checks && ch.id == id && ch.clusterID == cluster
    case NoType(id) => exists ch :: ch in checks && ch.id == id && ch.kind == ""
    case NoCommand(id) => exists ch :: ch in checks && ch.id == id && ch.command == ""
    case BadCheckPoints(id) => exists ch :: ch in checks && ch.id == id && ch.points <= 0
    case _ => false
  }

  // ----- names seen so far

  // seen holds exactly the first n names, and no name came twice among them.
  ghost predicate Seen(seen: set<string>, names: seq<string>, n: int) {
    && 0 <= n <= |names|
    && (forall name :: name in seen <==> name in names[..n])
    && Unique(names[..n])
  }

  lemma SeeNew(seen: set<string>, names: seq<string>, n: nat)
    requires Seen(seen, names, n) && n < |names| && names[n] !in seen
    ensures Seen(seen + {names[n]}, names, n + 1)
  {
    assert names[..n + 1] == names[..n] + [names[n]];
  }

  lemma SeeAgain(seen: set<string>, names: seq<string>, n: nat)
    requires Seen(seen, names, n) && n < |names| && names[n] in seen
    ensures Repeated(names, names[n])
  {
    var i :| 0 <= i < n && names[..n][i] == names[n];
    assert names[i] == names[n];
  }

  lemma SeenAll(seen: set<string>, names: seq<string>)
    requires Seen(seen, names, |names|)
    ensures Unique(names) && forall name :: name in seen <==> name in names
  {
    assert names[..|names|] == names;
  }

  // ----- the validators

  method ValidateNodes(c: Cluster) returns (flaw: Option<Flaw>)
    ensures flaw.None? <==> (forall n | n in c.nodes :: NodeOk(n)) && Unique(NodeNames(c.nodes))
    ensures flaw.Some? ==> NodeFlaw(c, flaw.value)
  {
    var nodeNames: set<string> := {};
    ghost var names := NodeNames(c.nodes);
    for i := 0 to |c.nodes|
      invariant Seen(nodeNames, names, i)
      invariant forall k | 0 <= k < i :: NodeOk(c.nodes[k])
    {
      var n := c.nodes[i];
      assert n in c.nodes && names[i] == n.name;
      if n.name == "" {
        return Some(NoNodeName(c.id));
      }
      if n.name in nodeNames {
        SeeAgain(nodeNames, names, i);
        return Some(DuplicateNode(n.name, c.id));
      }
      SeeNew(nodeNames, names, i);
      nodeNames := nodeNames + {n.name};
      var role := ToLower(n.role);
      if role != "control-plane" && role != "worker" {
        return Some(BadRole(n.name, c.id, n.role));
      }
      if n.template == "" {
        return Some(NoTemplate(n.name, c.id));
      }
    }
    SeenAll(nodeNames, names);
    return None;
  }

  method ValidateClusters(clusters: seq<Cluster>) returns (flaw: Option<Flaw>, clusterIDs: set<string>)
    ensures flaw.None? <==>
              clusters != [] && (forall c | c in clusters :: ClusterOk(c)) && Unique(ClusterIDs(clusters))
    ensures flaw.Some? ==> ClusterFlaw(clusters, flaw.value)
    ensures flaw.None? ==> forall id :: id in clusterIDs <==> id in ClusterIDs(clusters)
  {
    clusterIDs := {};
    if |clusters| == 0 {
      return Some(NoClusters), {};
    }
    ghost var ids := ClusterIDs(clusters);
    for i := 0 to |clusters|
      invariant Seen(clusterIDs, ids, i)
      invariant forall k | 0 <= k < i :: ClusterOk(clusters[k])
    {
      var c := clusters[i];
      assert c in clusters && ids[i] == c.id;
      if c.id == "" {
        return Some(NoClusterID), {};
      }
      if c.id in clusterIDs {
        SeeAgain(clusterIDs, ids, i);
        return Some(DuplicateCluster(c.id)), {};
      }
      SeeNew(clusterIDs, ids, i);
      clusterIDs := clusterIDs + {c.id};
      if |c.nodes| == 0 {
        return Some(NoNodes(c.id)), {};
      }
      flaw := ValidateNodes(c);
      if flaw.Some? {
        return flaw, {};
      }
    }
    SeenAll(clusterIDs, ids);
    flaw := None;
  }

  method ValidateTasks(tasks: seq<Task>, clusters: seq<Cluster>, clusterIDs: set<string>) returns (flaw: Option<Flaw>)
    requires forall id :: id in clusterIDs <==> id in ClusterIDs(clusters)
    ensures flaw.None? <==>
              tasks != [] && (forall t | t in tasks :: TaskOk(t, clusters)) && Unique(TaskIDs(tasks))
    ensures flaw.Some? ==> TaskFlaw(tasks, clusters, flaw.value)
  {
    if |tasks| == 0 {
      return Some(NoTasks);
    }
    var taskIDs: set<string> := {};
    ghost var ids := TaskIDs(tasks);
    for i := 0 to |tasks|
      invariant Seen(taskIDs, ids, i)
      invariant forall k | 0 <= k < i :: TaskOk(tasks[k], clusters)
    {
      var t := tasks[i];
      assert t in tasks && ids[i] == t.id;
      if t.id == "" {
        return Some(NoTaskID);
      }
      if t.id in taskIDs {
        SeeAgain(taskIDs, ids, i);
        return Some(DuplicateTask(t.id));
      }
      SeeNew(taskIDs, ids, i);
      taskIDs := taskIDs + {t.id};
      if t.clusterID !in clusterIDs {
        return Some(TaskOfUnknownCluster(t.id, t.clusterID));
      }
      if t.points <= 0 {
        return Some(BadTaskPoints(t.id));
      }
      if t.promptFile == "" {
        return Some(NoPrompt(t.id));
      }
    }
    SeenAll(taskIDs, ids);
    return None;
  }

  // Accepts exactly the well-formed scenarios, and otherwise names something that is wrong.
  method Validate(s: Scenario) returns (flaw: Option<Flaw>)
    ensures flaw.None? <==> WellFormed(s)
    ensures flaw.Some? ==> ScenarioFlaw(s, flaw.value)
  {
    if s.id == "" {
      return Some(NoID);
    }
    if s.title == "" {
      return Some(NoTitle);
    }
    if s.durationMinutes <= 0 {
      return Some(BadDuration);
    }
    if s.accessWindowHours <= 0 {
      return Some(BadAccessWindow);
    }
    if s.attemptsAllowed <= 0 {
      return Some(BadAttempts);
    }
    var clusterIDs;
    flaw, clusterIDs := ValidateClusters(s.clusters);
    if flaw.Some? {
      return;
    }
    flaw := ValidateTasks(s.tasks, s.clusters, clusterIDs);
  }

  method ValidateChecks(checks: seq<Check>, s: Scenario) returns (flaw: Option<Flaw>)
    ensures flaw.None? <==> WellFormedChecks(checks, s)
    ensures flaw.Some? ==> CheckFlaw(checks, s, flaw.value)
  {
    if |checks| == 0 {
      return Some(NoChecks);
    }
    var taskIDs: set<string> := {};
    for i := 0 to |s.tasks|
      invariant forall id :: id in taskIDs <==> id in TaskIDs(s.tasks)[..i]
    {
      assert TaskIDs(s.tasks)[..i + 1] == TaskIDs(s.tasks)[..i] + [s.tasks[i].id];
      taskIDs := taskIDs + {s.tasks[i].id};
    }
    assert TaskIDs(s.tasks)[..|s.tasks|] == TaskIDs(s.tasks);
    var clusterIDs: set<string> := {};
    for i := 0 to |s.clusters|
      invariant forall id :: id in clusterIDs <==> id in ClusterIDs(s.clusters)[..i]
    {
      assert ClusterIDs(s.clusters)[..i + 1] == ClusterIDs(s.clusters)[..i] + [s.clusters[i].id];
      clusterIDs := clusterIDs + {s.clusters[i].id};
    }
    assert ClusterIDs(s.clusters)[..|s.clusters|] == ClusterIDs(s.clusters);
    flaw := ValidateEachCheck(checks, s, taskIDs, clusterIDs);
  }

  method ValidateEachCheck(checks: seq<Check>, s: Scenario, taskIDs: set<string>, clusterIDs: set<string>)
      returns (flaw: Option<Flaw>)
    requires checks != []
    requires forall id :: id in taskIDs <==> id in TaskIDs(s.tasks)
    requires forall id :: id in clusterIDs <==> id in ClusterIDs(s.clusters)
    ensures flaw.None? <==> WellFormedChecks(checks, s)
    ensures flaw.Some? ==> CheckFlaw(checks, s, flaw.value)
  {
    var checkIDs: set<string> := {};
    ghost var ids := CheckIDs(checks);
    for i := 0 to |checks|
      invariant Seen(checkIDs, ids, i)
      invariant forall k | 0 <= k < i :: CheckOk(checks[k], s)
    {
      var ch := checks[i];
      assert ch in checks && ids[i] == ch.id;
      if ch.id == "" {
        return Some(NoCheckID);
      }
      if ch.id in checkIDs {
        SeeAgain(checkIDs, ids, i);
        return Some(DuplicateCheck(ch.id));
      }
      SeeNew(checkIDs, ids, i);
      checkIDs := checkIDs + {ch.id};
      if ch.taskID !in taskIDs {
        return Some(CheckOfUnknownTask(ch.id, ch.taskID));
      }
      if ch.clusterID !in clusterIDs {
        return Some(CheckOfUnknownCluster(ch.id, ch.clusterID));
      }
      if ch.kind == "" {
        return Some(NoType(ch.id));
      }
      if ch.command == "" {
        return Some(NoCommand(ch.id));
      }
      if ch.points <= 0 {
        return Some(BadCheckPoints(ch.id));
      }
    }
    SeenAll(checkIDs, ids);
    return None;
  }
}
