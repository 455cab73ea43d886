/** What the orchestrator asks a provider for, what it gets back, and what it keeps of that. */
module Environments {
  import Scenarios

  datatype VMRequest = VMRequest(hostname: string, role: string, template: string, sshPublicKey: string,
                                 tags: map<string, string>)
  datatype ClusterRequest = ClusterRequest(name: string, nodes: seq<VMRequest>)
  datatype EnvironmentSpec = EnvironmentSpec(workstation: VMRequest, clusters: seq<ClusterRequest>)

  datatype VMResult = VMResult(providerVMID: string, ipAddress: string, hostname: string)
  datatype ClusterResult = ClusterResult(name: string, nodes: seq<VMResult>)
  datatype EnvironmentResult = EnvironmentResult(workstation: VMResult, clusters: seq<ClusterResult>)

  datatype Metadata = Metadata(workstationVMID: string, nodeVMIDs: seq<string>)

  // ----- the machines of a specification and of a result, workstation first, in order

  function NodeRequests(clusters: seq<ClusterRequest>): seq<VMRequest> {
    if clusters == [] then []
    else NodeRequests(clusters[..|clusters| - 1]) + clusters[|clusters| - 1].nodes
  }

  function Requests(spec: EnvironmentSpec): seq<VMRequest> {
    [spec.workstation] + NodeRequests(spec.clusters)
  }

  function NodeResults(clusters: seq<ClusterResult>): seq<VMResult> {
    if clusters == [] then []
    else NodeResults(clusters[..|clusters| - 1]) + clusters[|clusters| - 1].nodes
  }

  function Results(env: EnvironmentResult): seq<VMResult> {
    [env.workstation] + NodeResults(env.clusters)
  }

  // The result has the clusters that were asked for, in order, each with its nodes, in order.
  ghost predicate SameNodes(asked: ClusterRequest, got: ClusterResult) {
    && got.name == asked.name
    && |got.nodes| == |asked.nodes|
    && forall k | 0 <= k < |asked.nodes| :: got.nodes[k].hostname == asked.nodes[k].hostname
  }

  ghost predicate SameClusters(asked: seq<ClusterRequest>, got: seq<ClusterResult>) {
    |got| == |asked| && forall k | 0 <= k < |asked| :: SameNodes(asked[k], got[k])
  }

  ghost predicate SameShape(spec: EnvironmentSpec, env: EnvironmentResult) {
    env.workstation.hostname == spec.workstation.hostname && SameClusters(spec.clusters, env.clusters)
  }

  // ----- the metadata kept with the environment

  function VMIDs(vms: seq<VMResult>): seq<string> {
    seq(|vms|, k requires 0 <= k < |vms| => vms[k].providerVMID)
  }

  function Ids(m: Metadata): seq<string> {
    [m.workstationVMID] + m.nodeVMIDs
  }

  lemma VMIDsAppend(a: seq<VMResult>, b: seq<VMResult>)
    ensures VMIDs(a + b) == VMIDs(a) + VMIDs(b)
  {
  }

  // Flattening loses no machine and mixes none up: the metadata lists the ids of the result in order.
  method BuildMetadata(env: EnvironmentResult) returns (m: Metadata)
    ensures Ids(m) == VMIDs(Results(env))
  {
    m := Metadata(env.workstation.providerVMID, []);
    for i := 0 to |env.clusters|
      invariant m.workstationVMID == env.workstation.providerVMID
      invariant m.nodeVMIDs == VMIDs(NodeResults(env.clusters[..i]))
    {
      var nodes := env.clusters[i].nodes;
      ghost var before := m.nodeVMIDs;
      for j := 0 to |nodes|
        invariant m.workstationVMID == env.workstation.providerVMID
        invariant m.nodeVMIDs == before + VMIDs(nodes[..j])
      {
        assert nodes[..j + 1] == nodes[..j] + [nodes[j]];
        VMIDsAppend(nodes[..j], [nodes[j]]);
        m := m.(nodeVMIDs := m.nodeVMIDs + [nodes[j].providerVMID]);
      }
      assert nodes[..|nodes|] == nodes;
      assert env.clusters[..i + 1][..i] == env.clusters[..i];
      VMIDsAppend(NodeResults(env.clusters[..i]), nodes);
    }
    assert env.clusters[..|env.clusters|] == env.clusters;
    VMIDsAppend([env.workstation], NodeResults(env.clusters));
  }

  // ----- from the scenario's topology to the request, and on to what the provisioner is told

  datatype NodeSpec = NodeSpec(hostname: string, ip: string)
  datatype ProvisionCluster = ProvisionCluster(name: string, kubeContext: string, nodes: seq<NodeSpec>)

  function WorkstationRequest(attempt: string, environment: string, key: string): VMRequest
    requires |attempt| >= 8
  {
    VMRequest("workstation-" + attempt[..8], "workstation", "workstation", key,
              map["attempt_id" := attempt, "environment_id" := environment])
  }

  function NodeRequest(cluster: string, n: Scenarios.Node, attempt: string, key: string): VMRequest {
    VMRequest(cluster + "-" + n.name, n.role, n.template, key, map["attempt_id" := attempt, "cluster_id" := cluster])
  }

  // A machine for this node of the cluster, with the node's own role and template.
  ghost predicate IsNodeOf(r: VMRequest, c: Scenarios.Cluster, n: Scenarios.Node, attempt: string, key: string) {
    && r.hostname == c.id + "-" + n.name && r.role == n.role && r.template == n.template && r.sshPublicKey == key
    && r.tags.Keys == {"attempt_id", "cluster_id"}
    && r.tags["attempt_id"] == attempt && r.tags["cluster_id"] == c.id
  }

  ghost predicate AsksFor(c: Scenarios.Cluster, attempt: string, key: string, r: ClusterRequest) {
    && r.name == c.id && |r.nodes| == |c.nodes|
    && forall k | 0 <= k < |c.nodes| :: IsNodeOf(r.nodes[k], c, c.nodes[k], attempt, key)
  }

  // The attempt's own machine, named after the first eight characters of its identifier.
  ghost predicate IsWorkstation(r: VMRequest, attempt: string, environment: string, key: string)
    requires |attempt| >= 8
  {
    && r.hostname == "workstation-" + attempt[..8] && r.role == "workstation" && r.template == "workstation"
    && r.sshPublicKey == key
    && r.tags.Keys == {"attempt_id", "environment_id"}
    && r.tags["attempt_id"] == attempt && r.tags["environment_id"] == environment
  }

  // One request for the workstation and one for every node of the topology, in order, with its own
  // cluster's name, role, template and tags. Attempt identifiers are printed UUIDs.
  method BuildEnvironmentSpec(topology: seq<Scenarios.Cluster>, attempt: string, environment: string, key: string)
      returns (spec: EnvironmentSpec)
    requires |attempt| >= 8
    ensures IsWorkstation(spec.workstation, attempt, environment, key)
    ensures |spec.clusters| == |topology|
    ensures forall i | 0 <= i < |topology| :: AsksFor(topology[i], attempt, key, spec.clusters[i])
  {
    spec := EnvironmentSpec(WorkstationRequest(attempt, environment, key), []);
    for i := 0 to |topology|
      invariant IsWorkstation(spec.workstation, attempt, environment, key)
      invariant |spec.clusters| == i
      invariant forall h | 0 <= h < i :: AsksFor(topology[h], attempt, key, spec.clusters[h])
    {
      var c := topology[i];
      var nodes := [];
      for j := 0 to |c.nodes|
        invariant |nodes| == j
        invariant forall k | 0 <= k < j :: IsNodeOf(nodes[k], c, c.nodes[k], attempt, key)
      {
        nodes := nodes + [NodeRequest(c.id, c.nodes[j], attempt, key)];
      }
      spec := spec.(clusters := spec.clusters + [ClusterRequest(c.id, nodes)]);
    }
  }

  ghost predicate Provisions(c: Scenarios.Cluster, made: ClusterResult, p: ProvisionCluster) {
    && p.name == c.id && p.kubeContext == c.kubeContext && |p.nodes| == |c.nodes| == |made.nodes|
    && forall k | 0 <= k < |c.nodes| ::
         p.nodes[k] == NodeSpec(c.id + "-" + c.nodes[k].name, made.nodes[k].ipAddress)
  }

  // The clusters of the result are read together with those of the topology, by position. That stays in
  // bounds, and pairs every cluster and node with its own context and address, because a provider
  // returns the shape it was asked for.
  method BuildProvisionSpec(topology: seq<Scenarios.Cluster>, ghost attempt: string, ghost key: string,
                            ghost asked: seq<ClusterRequest>, clusters: seq<ClusterResult>)
      returns (out: seq<ProvisionCluster>)
    requires |asked| == |topology|
    requires forall i | 0 <= i < |topology| :: AsksFor(topology[i], attempt, key, asked[i])
    requires SameClusters(asked, clusters)
    ensures |out| == |topology|
    ensures forall i | 0 <= i < |topology| :: Provisions(topology[i], clusters[i], out[i])
  {
    out := [];
    for i := 0 to |clusters|
      invariant |out| == i
      invariant forall h | 0 <= h < i :: Provisions(topology[h], clusters[h], out[h])
    {
      var made := clusters[i];
      assert SameNodes(asked[i], made) && AsksFor(topology[i], attempt, key, asked[i]);
      var nodes := [];
      for j := 0 to |made.nodes|
        invariant |nodes| == j
        invariant forall k | 0 <= k < j :: nodes[k] == NodeSpec(made.nodes[k].hostname, made.nodes[k].ipAddress)
      {
        nodes := nodes + [NodeSpec(made.nodes[j].hostname, made.nodes[j].ipAddress)];
      }
      out := out + [ProvisionCluster(made.name, topology[i].kubeContext, nodes)];
    }
  }
}
