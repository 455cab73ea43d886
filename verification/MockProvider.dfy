/** The in-memory provider: its identifiers come from a counter and are never given out twice. */
module MockProvider {
  import opened Decimals
  import opened Environments

  function MockID(k: nat): string {
    "mock-vm-" + Decimal(k)
  }

  function MockVM(k: nat, hostname: string): VMResult {
    VMResult(MockID(k), "127.0.0." + Decimal(k), hostname)
  }

  // The machines numbered from first on, for the given requests.
  function Numbered(first: nat, reqs: seq<VMRequest>): seq<VMResult> {
    seq(|reqs|, k requires 0 <= k < |reqs| => MockVM(first + k, reqs[k].hostname))
  }

  lemma MockIDIsInjective(a: nat, b: nat)
    requires MockID(a) == MockID(b)
    ensures a == b
  {
    assert MockID(a)[8..] == Decimal(a) && MockID(b)[8..] == Decimal(b);
    DecimalIsInjective(a, b);
  }

  lemma NumberedIdsDiffer(first: nat, reqs: seq<VMRequest>)
    ensures forall i, j | 0 <= i < j < |reqs| :: VMIDs(Numbered(first, reqs))[i] != VMIDs(Numbered(first, reqs))[j]
  {
    forall i, j | 0 <= i < j < |reqs| ensures VMIDs(Numbered(first, reqs))[i] != VMIDs(Numbered(first, reqs))[j] {
      if MockID(first + i) == MockID(first + j) {
        MockIDIsInjective(first + i, first + j);
      }
    }
  }

  lemma NumberedAppend(first: nat, a: seq<VMRequest>, b: seq<VMRequest>)
    ensures Numbered(first, a + b) == Numbered(first, a) + Numbered(first + |a|, b)
  {
  }

  lemma MoreClusters(first: nat, asked: seq<ClusterRequest>, i: nat, made: seq<ClusterResult>, nodes: seq<VMResult>)
    requires i < |asked| && SameClusters(asked[..i], made)
    requires NodeResults(made) == Numbered(first, NodeRequests(asked[..i]))
    requires nodes == Numbered(first + |NodeRequests(asked[..i])|, asked[i].nodes)
    ensures var more := made + [ClusterResult(asked[i].name, nodes)];
            && SameClusters(asked[..i + 1], more)
            && NodeResults(more) == Numbered(first, NodeRequests(asked[..i + 1]))
    ensures |NodeRequests(asked[..i + 1])| == |NodeRequests(asked[..i])| + |asked[i].nodes|
  {
    var more := made + [ClusterResult(asked[i].name, nodes)];
    assert more[..|made|] == made && asked[..i + 1][..i] == asked[..i];
    NumberedAppend(first, NodeRequests(asked[..i]), asked[i].nodes);
    assert SameNodes(asked[i], more[i]);
  }

  class MockProvider {
    var nextIP: nat
    var environments: map<string, EnvironmentResult>

    // Only identifiers already given out are in use.
    ghost predicate Valid()
      reads this
    {
      forall k: nat | MockID(k) in environments :: k < nextIP
    }

    constructor ()
      ensures Valid() && nextIP == 1 && environments == map[]
    {
      nextIP, environments := 1, map[];
    }

    method CreateNodes(cluster: ClusterRequest) returns (nodes: seq<VMResult>)
      modifies `nextIP
      ensures nodes == Numbered(old(nextIP), cluster.nodes) && nextIP == old(nextIP) + |cluster.nodes|
    {
      nodes := [];
      for j := 0 to |cluster.nodes|
        invariant nextIP == old(nextIP) + j
        invariant nodes == Numbered(old(nextIP), cluster.nodes[..j])
      {
        nodes := nodes + [MockVM(nextIP, cluster.nodes[j].hostname)];
        nextIP := nextIP + 1;
      }
      assert cluster.nodes[..|cluster.nodes|] == cluster.nodes;
    }

    // The shape asked for, the next identifiers in order, all of them different and new.
    method CreateEnvironment(spec: EnvironmentSpec) returns (result: EnvironmentResult)
      requires Valid()
      modifies this
      ensures Valid() && SameShape(spec, result)
      ensures Results(result) == Numbered(old(nextIP), Requests(spec))
      ensures forall k | 0 <= k < |Requests(spec)| ::
                Results(result)[k] == VMResult("mock-vm-" + Decimal(old(nextIP) + k),
                                               "127.0.0." + Decimal(old(nextIP) + k), Requests(spec)[k].hostname)
      ensures nextIP == old(nextIP) + |Requests(spec)|
      ensures forall i, j | 0 <= i < j < |Results(result)| ::
                VMIDs(Results(result))[i] != VMIDs(Results(result))[j]
      ensures result.workstation.providerVMID !in old(environments)
      ensures environments == old(environments)[result.workstation.providerVMID := result]
      ensures forall k: nat | k < old(nextIP) :: MockID(k) in environments <==> MockID(k) in old(environments)
    {
      hide Decimal;
      var clusters := [];
      var workstation := MockVM(nextIP, spec.workstation.hostname);
      nextIP := nextIP + 1;
      for i := 0 to |spec.clusters|
        invariant environments == old(environments)
        invariant nextIP == old(nextIP) + 1 + |NodeRequests(spec.clusters[..i])|
        invariant SameClusters(spec.clusters[..i], clusters)
        invariant NodeResults(clusters) == Numbered(old(nextIP) + 1, NodeRequests(spec.clusters[..i]))
      {
        var cluster := spec.clusters[i];
        var nodes := CreateNodes(cluster);
        MoreClusters(old(nextIP) + 1, spec.clusters, i, clusters, nodes);
        clusters := clusters + [ClusterResult(cluster.name, nodes)];
      }
      assert spec.clusters[..|spec.clusters|] == spec.clusters;
      result := EnvironmentResult(workstation, clusters);
      NumberedAppend(old(nextIP), [spec.workstation], NodeRequests(spec.clusters));
      NumberedIdsDiffer(old(nextIP), Requests(spec));
      Register(result.workstation.providerVMID, result, old(nextIP));
    }

    method Register(id: string, result: EnvironmentResult, ghost k: nat)
      requires id == MockID(k) && k < nextIP
      requires forall j: nat | MockID(j) in environments :: j < k
      modifies `environments
      ensures Valid() && id !in old(environments) && environments == old(environments)[id := result]
      ensures forall j: nat | j < k :: MockID(j) in environments <==> MockID(j) in old(environments)
    {
      forall j: nat | MockID(j) == id ensures j == k {
        MockIDIsInjective(j, k);
      }
      environments := environments[id := result];
    }

    method DestroyEnvironment(m: Metadata)
      requires Valid()
      modifies `environments
      ensures Valid() && environments == old(environments) - {m.workstationVMID}
    {
      environments := environments - {m.workstationVMID};
    }

    // Destroying what was created restores the table, and destroying it again, even after another
    // environment has been created, takes nothing more away.
    method CreateThenDestroy(spec: EnvironmentSpec, next: EnvironmentSpec)
      requires Valid()
      modifies this
      ensures Valid()
      ensures exists e: EnvironmentResult ::
                environments == old(environments)[e.workstation.providerVMID := e] && SameShape(next, e)
    {
      var env := CreateEnvironment(spec);
      var m := BuildMetadata(env);
      assert Ids(m)[0] == VMIDs(Results(env))[0];
      ghost var k := old(nextIP);
      assert Results(env)[0].providerVMID == MockID(k);
      DestroyEnvironment(m);
      assert environments == old(environments);
      var other := CreateEnvironment(next);
      assert MockID(k) !in environments;
      DestroyEnvironment(m);
    }
  }
}
