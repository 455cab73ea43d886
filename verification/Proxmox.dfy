/**
 The Proxmox provider: machines are cloned under identifiers that other clients of the same cluster
 compete for, and destroyed again from the identifiers kept in an environment's metadata.
 */
module Proxmox {
  import opened Wrappers
  import opened Decimals
  import opened Environments
  import opened ProfileTemplates
  import opened ProfileScanners
  import opened ProfileConfig
  import opened ProxmoxMachines

  class ProxmoxProvider {
    const profiles: map<string, CloneProfile>

    // The machines of the cluster: those this provider made, and the identifiers in use by others.
    var ours: map<int, Vm>
    var others: set<int>

    // Every clone request sent, with its answer, and every identifier of another client deleted here.
    ghost var calls: seq<CloneCall>
    ghost var trespasses: set<int>

    ghost predicate Valid()
      reads this
    {
      ours.Keys !! others && forall id | id in ours :: LegalID(id)
    }

    constructor (profiles: map<string, CloneProfile>)
      ensures Valid() && this.profiles == profiles && ours == map[] && calls == [] && trespasses == {}
    {
      this.profiles, ours, others, calls, trespasses := profiles, map[], {}, [], {};
    }

    // ----- the cluster

    // Between any two requests other clients may create and delete machines of their own.
    method Interleave()
      requires Valid()
      modifies `others
      ensures Valid()
    {
      assert ours.Keys !! others;
      var next: set<int> :| ours.Keys !! next;
      others := next;
    }

    // Any answer at all: by the time it is used it may be out of date.
    method NextVMID() returns (r: Result<int, Failure>)
      requires Valid()
      modifies `others
      ensures Valid()
    {
      Interleave();
      r := *;
    }

    // The cluster refuses an identifier in use. A request it accepts makes the machine, even if waiting
    // for the task to end then fails; such a failure is taken not to speak of a conflict.
    method CloneVMWithID(templateVMID: int, id: int, name: string, full: bool) returns (error: Option<Failure>)
      requires Valid()
      modifies `ours, `others, `calls
      ensures Valid() && calls == old(calls) + [CloneCall(id, error)]
      ensures ours != old(ours) ==>
                && id !in old(ours) && id !in others && LegalID(id)
                && ours == old(ours)[id := Vm(name, templateVMID, full, map[], false)]
      ensures error.None? ==> ours != old(ours)
      ensures error.Some? && ours != old(ours) ==> !SaysTaken(error.value)
    {
      Interleave();
      var failure: Failure := *;
      error := Some(failure);
      var accepted: bool := *;
      if accepted && id !in ours && id !in others && LegalID(id) {
        var finished: bool := *;
        if finished {
          error := None;
        }
        if finished || !IsVMIDConflict(failure) {
          ours := ours[id := Vm(name, templateVMID, full, map[], false)];
          assert id in ours;
        }
      }
      calls := calls + [CloneCall(id, error)];
    }

    method ConfigureVM(id: int, config: map<string, string>) returns (error: Option<Failure>)
      requires Valid() && id in ours
      modifies `ours, `others
      ensures Valid() && ChangesOnly(old(ours), ours, id)
      ensures ours[id] == old(ours)[id] || ours[id] == old(ours)[id].(config := old(ours)[id].config + config)
      ensures error.None? ==> ours[id] == old(ours)[id].(config := old(ours)[id].config + config)
    {
      Interleave();
      error := *;
      var applied: bool := *;
      if applied || error.None? {
        ours := ours[id := ours[id].(config := ours[id].config + config)];
      }
    }

    method StartVM(id: int) returns (error: Option<Failure>)
      requires Valid() && id in ours
      modifies `ours, `others
      ensures Valid() && ChangesOnly(old(ours), ours, id)
      ensures ours[id] == old(ours)[id] || ours[id] == old(ours)[id].(running := true)
      ensures error.None? ==> ours[id] == old(ours)[id].(running := true)
    {
      Interleave();
      error := *;
      var applied: bool := *;
      if applied || error.None? {
        ours := ours[id := ours[id].(running := true)];
      }
    }

    // Polls until an address appears.
    method WaitForIP(id: int) returns (r: Result<string, Failure>)
      requires Valid()
      modifies `others
      ensures Valid()
      ensures r.Ok? ==> r.value != ""
    {
      Interleave();
      r := *;
      if r == Ok("") {
        r := Err(Failure(None, "timed out waiting for IP"));
      }
    }

    // ----- the client

    // At most five requests, another one only after a conflict; a success adds exactly one machine,
    // under an identifier no machine had; conflicts add none.
    method CloneVM(templateVMID: int, name: string, full: bool) returns (r: Result<int, CloneError>)
      requires Valid()
      modifies `ours, `others, `calls
      ensures Valid()
      ensures old(calls) <= calls && |calls| <= |old(calls)| + 5
      ensures forall k | |old(calls)| <= k < |calls| - 1 :: ConflictCall(calls[k])
      ensures r.Ok? ==> |calls| > |old(calls)| && calls[|calls| - 1] == CloneCall(r.value, None)
      ensures r.Ok? ==>
                && r.value !in old(ours) && r.value !in others && LegalID(r.value)
                && ours == old(ours)[r.value := Vm(name, templateVMID, full, map[], false)]
      ensures r.Err? ==>
                match r.error
                case NoNextID(_) =>
                  && ours == old(ours)
                  && (forall k | |old(calls)| <= k < |calls| :: ConflictCall(calls[k]))
                case CloneFailed(e) =>
                  && |calls| > |old(calls)| && calls[|calls| - 1].error == Some(e) && !SaysTaken(e)
                  && Keeps(old(ours), ours)
                case OutOfAttempts(e) =>
                  && ours == old(ours) && |calls| == |old(calls)| + 5
                  && calls[|calls| - 1].error == Some(e)
                  && (forall k | |old(calls)| <= k < |calls| :: ConflictCall(calls[k]))
    {
      hide IsVMIDConflict, SaysTaken;
      var last := Failure(None, "");
      for attempt := 0 to CLONE_VMID_ATTEMPTS
        invariant Valid() && ours == old(ours)
        invariant old(calls) <= calls && |calls| == |old(calls)| + attempt
        invariant forall k | |old(calls)| <= k < |calls| :: ConflictCall(calls[k])
        invariant attempt > 0 ==> calls[|calls| - 1].error == Some(last)
      {
        var next := NextVMID();
        if next.Err? {
          return Err(NoNextID(next.error));
        }
        var error := CloneVMWithID(templateVMID, next.value, name, full);
        if error.Some? {
          if !IsVMIDConflict(error.value) {
            return Err(CloneFailed(error.value));
          }
          last := error.value;
          continue;
        }
        return Ok(next.value);
      }
      return Err(OutOfAttempts(last));
    }

    // Configuring, starting and waiting for a machine just cloned.
    method SetUp(id: int, req: VMRequest) returns (r: Result<string, Failure>)
      requires Valid() && id in ours && req.template in profiles
      requires ours[id] == Cloned(profiles, req)
      modifies `ours, `others
      ensures Valid() && ChangesOnly(old(ours), ours, id)
      ensures r.Ok? ==> ours[id] == Wanted(profiles, req) && r.value != ""
    {
      var profile := profiles[req.template];
      var config := RenderProfileConfig(Entries(profile), MachineOf(req));
      var error := ConfigureVM(id, config);
      if error.Some? {
        return Err(error.value);
      }
      assert map[] + config == config;
      error := StartVM(id);
      if error.Some? {
        return Err(error.value);
      }
      r := WaitForIP(id);
    }

    // One machine from clone to address, as CreateEnvironment does for the workstation and every node.
    method CreateVM(req: VMRequest) returns (r: Result<VMResult, CreateError>, ghost id: int)
      requires Valid() && req.template in profiles
      modifies `ours, `others, `calls
      ensures Valid() && Keeps(old(ours), ours)
      ensures |calls| <= |old(calls)| + CLONE_VMID_ATTEMPTS
      ensures r.Err? ==> !r.error.UnknownProfile?
      ensures r.Ok? ==>
                && id !in old(ours) && LegalID(id) && ours == old(ours)[id := Wanted(profiles, req)]
                && r.value.providerVMID == Decimal(id) && r.value.hostname == req.hostname && r.value.ipAddress != ""
                && SetUpFor(ours[id], profiles[req.template], req)
    {
      id := 0;
      var profile := profiles[req.template];
      var cloned := CloneVM(profile.templateVMID, req.hostname, profile.cloneMode == "full");
      if cloned.Err? {
        return Err(Clone(cloned.error)), id;
      }
      id := cloned.value;
      ghost var cloning := ours;
      var ip := SetUp(cloned.value, req);
      if ip.Err? {
        return Err(Setup(ip.error)), id;
      }
      AddsOne(old(ours), cloning, ours, id, Cloned(profiles, req));
      WantedIsSetUp(profiles, req);
      return Ok(VMResult(Decimal(cloned.value), ip.value, req.hostname)), id;
    }

    // The templates are looked up before anything is cloned.
    method CheckTemplates(spec: EnvironmentSpec) returns (unknown: Option<CreateError>)
      ensures unknown.None? <==> Known(profiles, Requests(spec))
      ensures unknown.Some? ==> unknown.value.UnknownProfile? && unknown.value.template !in profiles
    {
      if spec.workstation.template !in profiles {
        assert Requests(spec)[0] == spec.workstation;
        return Some(UnknownProfile(spec.workstation.template));
      }
      for i := 0 to |spec.clusters|
        invariant Known(profiles, NodeRequests(spec.clusters[..i]))
      {
        var nodes := spec.clusters[i].nodes;
        for j := 0 to |nodes|
          invariant forall k | 0 <= k < j :: nodes[k].template in profiles
        {
          if nodes[j].template !in profiles {
            NodeIn(spec.clusters, i, j);
            assert nodes[j] in Requests(spec);
            return Some(UnknownProfile(nodes[j].template));
          }
        }
        assert spec.clusters[..i + 1][..i] == spec.clusters[..i];
      }
      assert spec.clusters[..|spec.clusters|] == spec.clusters;
      return None;
    }

    // One more node of a cluster, on top of what was made before.
    method CreateNode(nodes: seq<VMRequest>, j: nat, ghost was: map<int, Vm>, ghost ids0: seq<int>,
                      ghost reqs: seq<VMRequest>, ghost ress: seq<VMResult>, ghost made: seq<VMResult>)
        returns (r: Result<VMResult, CreateError>, ghost ids: seq<int>)
      requires Valid() && j < |nodes| && nodes[j].template in profiles
      requires Made(profiles, was, ours, ids0, reqs + nodes[..j], ress + made)
      modifies `ours, `others, `calls
      ensures Valid() && Keeps(old(ours), ours)
      ensures |calls| <= |old(calls)| + CLONE_VMID_ATTEMPTS
      ensures r.Err? ==> !r.error.UnknownProfile?
      ensures r.Ok? ==> r.value.hostname == nodes[j].hostname
      ensures r.Ok? ==> Made(profiles, was, ours, ids, reqs + nodes[..j + 1], ress + (made + [r.value]))
    {
      ghost var id := 0;
      r, id := CreateVM(nodes[j]);
      ids := ids0 + [id];
      if r.Ok? {
        MadeOneNode(profiles, was, old(ours), ids0, reqs, nodes, j, ress, made, id, r.value);
      }
    }

    // All nodes of one cluster.
    method CreateCluster(cluster: ClusterRequest, ghost was: map<int, Vm>, ghost ids0: seq<int>,
                         ghost reqs: seq<VMRequest>, ghost ress: seq<VMResult>)
        returns (r: Result<ClusterResult, CreateError>, ghost ids: seq<int>)
      requires Valid() && Made(profiles, was, ours, ids0, reqs, ress)
      requires forall k | 0 <= k < |cluster.nodes| :: cluster.nodes[k].template in profiles
      modifies `ours, `others, `calls
      ensures Valid() && Keeps(old(ours), ours)
      ensures |calls| <= |old(calls)| + CLONE_VMID_ATTEMPTS * |cluster.nodes|
      ensures r.Err? ==> !r.error.UnknownProfile?
      ensures r.Ok? ==> SameNodes(cluster, r.value)
      ensures r.Ok? ==> Made(profiles, was, ours, ids, reqs + cluster.nodes, ress + r.value.nodes)
    {
      hide Made;
      var made: seq<VMResult> := [];
      ids := ids0;
      assert reqs + cluster.nodes[..0] == reqs && ress + made == ress;
      for j := 0 to |cluster.nodes|
        invariant Valid() && Keeps(old(ours), ours)
        invariant |calls| <= |old(calls)| + CLONE_VMID_ATTEMPTS * j
        invariant |made| == j && forall k | 0 <= k < j :: made[k].hostname == cluster.nodes[k].hostname
        invariant Made(profiles, was, ours, ids, reqs + cluster.nodes[..j], ress + made)
      {
        var vm;
        vm, ids := CreateNode(cluster.nodes, j, was, ids, reqs, ress, made);
        if vm.Err? {
          return Err(vm.error), ids;
        }
        made := made + [vm.value];
      }
      assert cluster.nodes[..|cluster.nodes|] == cluster.nodes;
      return Ok(ClusterResult(cluster.name, made)), ids;
    }

    // The workstation and then cluster after cluster.
    method CreateMachines(spec: EnvironmentSpec)
        returns (r: Result<EnvironmentResult, CreateError>, ghost ids: seq<int>)
      requires Valid() && Known(profiles, Requests(spec))
      modifies `ours, `others, `calls
      ensures Valid() && Keeps(old(ours), ours)
      ensures r.Err? ==> !r.error.UnknownProfile?
      ensures |calls| <= |old(calls)| + CLONE_VMID_ATTEMPTS * |Requests(spec)|
      ensures r.Ok? ==> SameShape(spec, r.value)
      ensures r.Ok? ==> Made(profiles, old(ours), ours, ids, Requests(spec), Results(r.value))
    {
      hide Made, Decimal, Wanted;
      ids := [];
      ghost var id := 0;
      var workstation;
      assert Requests(spec)[0] == spec.workstation;
      workstation, id := CreateVM(spec.workstation);
      if workstation.Err? {
        return Err(workstation.error), ids;
      }
      MadeWorkstation(profiles, old(ours), spec, id, workstation.value);
      ids := [id];
      var result := EnvironmentResult(workstation.value, []);
      for i := 0 to |spec.clusters|
        invariant Valid() && Keeps(old(ours), ours)
        invariant |calls| <= |old(calls)| + CLONE_VMID_ATTEMPTS * |FirstRequests(spec, i)|
        invariant result.workstation == workstation.value && SameClusters(spec.clusters[..i], result.clusters)
        invariant Made(profiles, old(ours), ours, ids, FirstRequests(spec, i), Results(result))
      {
        KnownNodes(profiles, spec, i);
        NodesOf(spec, i);
        NodesFit(spec, i + 1);
        var cr;
        cr, ids := CreateCluster(spec.clusters[i], old(ours), ids, FirstRequests(spec, i), Results(result));
        if cr.Err? {
          return Err(cr.error), ids;
        }
        result := AddCluster(result, cr.value);
      }
      assert spec.clusters[..|spec.clusters|] == spec.clusters;
      return Ok(result), ids;
    }

    // An unknown template anywhere stops everything before the first clone. A success returns the shape
    // that was asked for and adds exactly one machine for every request, each under an identifier of its
    // own that was free; whatever happens, no machine that was there is touched.
    method CreateEnvironment(spec: EnvironmentSpec)
        returns (r: Result<EnvironmentResult, CreateError>, ghost ids: seq<int>)
      requires Valid()
      modifies `ours, `others, `calls
      ensures Valid() && Keeps(old(ours), ours)
      ensures (r.Err? && r.error.UnknownProfile?) <==> !Known(profiles, Requests(spec))
      ensures !Known(profiles, Requests(spec)) ==> calls == old(calls) && ours == old(ours) && others == old(others)
      ensures |calls| <= |old(calls)| + CLONE_VMID_ATTEMPTS * |Requests(spec)|
      ensures r.Ok? ==> SameShape(spec, r.value)
      ensures r.Ok? ==> Made(profiles, old(ours), ours, ids, Requests(spec), Results(r.value))
      ensures r.Ok? ==> AllSetUp(profiles, ours, ids, Requests(spec))
    {
      var unknown := CheckTemplates(spec);
      if unknown.Some? {
        return Err(unknown.value), [];
      }
      r, ids := CreateMachines(spec);
      if r.Ok? {
        MadeIsSetUp(profiles, old(ours), ours, ids, Requests(spec), Results(r.value));
      }
    }

    // ----- teardown

    method StopVM(id: int) returns (error: Option<Failure>)
      requires Valid()
      modifies `ours, `others
      ensures Valid() && ours.Keys == old(ours.Keys)
      ensures forall other | other in ours && other != id :: ours[other] == old(ours)[other]
    {
      Interleave();
      error := *;
      var applied: bool := *;
      if applied && id in ours {
        ours := ours[id := ours[id].(running := false)];
      }
    }

    // A request that succeeds removes whatever machine has the identifier, whoever made it. One that
    // fails may have removed it all the same.
    method DeleteVM(id: int) returns (error: Option<Failure>)
      requires Valid()
      modifies `ours, `others, `trespasses
      ensures Valid()
      ensures ours == old(ours) || ours == old(ours) - {id}
      ensures error.None? ==> id !in ours
      ensures old(trespasses) <= trespasses <= old(trespasses) + {id}
      ensures id in old(ours) ==> trespasses == old(trespasses)
    {
      Interleave();
      error := *;
      var applied: bool := *;
      if applied || error.None? {
        if id in others {
          trespasses := trespasses + {id};
        }
        ours, others := ours - {id}, others - {id};
      }
    }

    // Both requests for one entry of the metadata; their errors are dropped.
    method DestroyVM(vmIDStr: string, ghost failed0: set<int>) returns (ghost failed: set<int>)
      requires Valid()
      modifies `ours, `others, `trespasses
      ensures Valid()
      ensures failed0 <= failed <= failed0 + Target(Scan(vmIDStr))
      ensures Survive(old(ours), ours, Target(Scan(vmIDStr)))
      ensures forall id | id in ours && id in Target(Scan(vmIDStr)) :: id in failed
      ensures old(trespasses) <= trespasses <= old(trespasses) + Target(Scan(vmIDStr))
      ensures Target(Scan(vmIDStr)) <= old(ours.Keys) ==> trespasses == old(trespasses)
    {
      failed := failed0;
      var vmID := Scan(vmIDStr);
      if vmID > 0 {
        var error := StopVM(vmID);
        error := DeleteVM(vmID);
        if error.Some? {
          failed := failed + {vmID};
        }
      }
    }

    // Of the machines of this provider exactly those listed in the metadata are gone, save those whose
    // deletion failed: the failure is not reported. Another client's machine is hit only if an entry is
    // no longer this provider's, or is listed twice.
    method DestroyEnvironment(m: Metadata) returns (ghost failed: set<int>)
      requires Valid()
      modifies `ours, `others, `trespasses
      ensures Valid()
      ensures failed <= Targets(DestroyOrder(m))
      ensures Survive(old(ours), ours, Targets(DestroyOrder(m)))
      ensures forall id | id in ours && id in Targets(DestroyOrder(m)) :: id in failed
      ensures old(trespasses) <= trespasses <= old(trespasses) + Targets(DestroyOrder(m))
      ensures OwnsEach(old(ours.Keys), DestroyOrder(m)) ==> trespasses == old(trespasses)
    {
      failed := {};
      ghost var order := DestroyOrder(m);
      for i := 0 to |m.nodeVMIDs|
        invariant Valid()
        invariant Progress(old(ours), ours, old(trespasses), trespasses, failed, order, i)
      {
        ghost var before, fell, failed0 := ours, trespasses, failed;
        failed := DestroyVM(m.nodeVMIDs[i], failed);
        ProgressMore(old(ours), before, ours, old(trespasses), fell, trespasses, failed0, failed, order, i);
      }
      if m.workstationVMID != "" {
        ghost var before, fell, failed0 := ours, trespasses, failed;
        failed := DestroyVM(m.workstationVMID, failed);
        ProgressMore(old(ours), before, ours, old(trespasses), fell, trespasses, failed0, failed, order, |m.nodeVMIDs|);
      } else {
        TargetsOfMore(order, |m.nodeVMIDs|);
      }
      assert order[..|order|] == order;
    }

    // What creating adds, destroying from the flattened and printed metadata takes away: when every
    // request of the two succeeds, the provider has exactly the machines it had, as they were; and no
    // other client ever loses one.
    method CreateThenDestroy(spec: EnvironmentSpec)
        returns (r: Result<EnvironmentResult, CreateError>, ghost failed: set<int>)
      requires Valid()
      modifies `ours, `others, `calls, `trespasses
      ensures Valid() && Keeps(old(ours), ours)
      ensures r.Ok? ==> ours.Keys <= old(ours.Keys) + failed
      ensures r.Ok? && failed == {} ==> ours == old(ours)
      ensures trespasses == old(trespasses)
    {
      failed := {};
      ghost var ids;
      r, ids := CreateEnvironment(spec);
      if r.Err? {
        return;
      }
      var m := BuildMetadata(r.value);
      TargetsOfMade(profiles, old(ours), ours, ids, Requests(spec), Results(r.value), m);
      ghost var made := ours;
      failed := DestroyEnvironment(m);
      DestroyUndoes(profiles, old(ours), made, ours, ids, Requests(spec), Results(r.value), failed);
    }
  }
}
