/**
 The machines of a Proxmox cluster as one provider accounts for them: what creating an environment has
 to leave behind, and what its metadata makes teardown take away.
 */
module ProxmoxMachines {
  import opened Wrappers
  import opened Text
  import opened Decimals
  import opened Environments
  import opened ProfileTemplates
  import opened ProfileScanners
  import opened ProfileConfig

  datatype Vm = Vm(name: string, templateVMID: int, full: bool, config: map<string, string>, running: bool)

  // An error of the client. When it wraps an API error, apiBody is that error's body.
  datatype Failure = Failure(apiBody: Option<string>, text: string)

  datatype CloneCall = CloneCall(id: int, error: Option<Failure>)

  datatype CloneError =
    | NoNextID(cause: Failure)
    | CloneFailed(cause: Failure)
    | OutOfAttempts(last: Failure)

  datatype CreateError =
    | UnknownProfile(template: string)
    | Clone(error: CloneError)
    | Setup(cause: Failure)

  const CLONE_VMID_ATTEMPTS := 5

  // The text says so in some case of its letters.
  ghost predicate Says(message: string, words: string) {
    Contains(ToLower(message), words)
  }

  // The client's only sign that an identifier was taken: the API's own words, or the error's where there are
  // none.
  ghost predicate SaysTaken(e: Failure) {
    var message := if e.apiBody.Some? then e.apiBody.value else e.text;
    Says(message, "already exists") || (Says(message, "vmid") && Says(message, "exists"))
  }

  predicate LooksLikeVMIDConflict(message: string) {
    var m := ToLower(message);
    Index(m, "already exists") != -1 || (Index(m, "vmid") != -1 && Index(m, "exists") != -1)
  }

  predicate IsVMIDConflict(e: Failure)
    ensures IsVMIDConflict(e) <==> SaysTaken(e)
  {
    LooksLikeVMIDConflict(if e.apiBody.Some? then e.apiBody.value else e.text)
  }

  ghost predicate ConflictCall(c: CloneCall) {
    c.error.Some? && SaysTaken(c.error.value)
  }

  // The identifiers a Proxmox cluster gives to machines.
  predicate LegalID(id: int) {
    100 <= id <= 999_999_999
  }

  // ----- what a successful CreateEnvironment leaves behind

  function Entries(profile: CloneProfile): map<string, string> {
    if profile.config.Some? then profile.config.value else map[]
  }

  function MachineOf(req: VMRequest): Machine {
    Machine(req.hostname, req.sshPublicKey)
  }

  // The machine a request describes: cloned from its profile's template in its profile's mode, with the
  // rendered configuration, and started.
  function Wanted(profiles: map<string, CloneProfile>, req: VMRequest): Vm
    requires req.template in profiles
  {
    var p := profiles[req.template];
    Vm(req.hostname, p.templateVMID, p.cloneMode == "full", Rendered(Entries(p), MachineOf(req)), true)
  }

  // The machine has the request's name, its profile's template and mode and the entries of the profile's
  // section, filled in with the request's key and hostname, and runs.
  ghost predicate SetUpFor(vm: Vm, profile: CloneProfile, req: VMRequest) {
    && vm.name == req.hostname && vm.templateVMID == profile.templateVMID
    && (vm.full <==> profile.cloneMode == "full") && vm.running
    && match profile.config
       case Some(cfg) => AllFilled(cfg, vm.config, req.sshPublicKey, req.hostname)
       case None => vm.config == map[]
  }

  lemma WantedIsSetUp(profiles: map<string, CloneProfile>, req: VMRequest)
    requires req.template in profiles
    ensures SetUpFor(Wanted(profiles, req), profiles[req.template], req)
  {
    RenderedIsFilled(Entries(profiles[req.template]), req.sshPublicKey, req.hostname);
    hide AllFilled;
  }

  ghost predicate AllSetUp(profiles: map<string, CloneProfile>, now: map<int, Vm>, ids: seq<int>,
                           reqs: seq<VMRequest>) {
    && |ids| == |reqs|
    && forall k | 0 <= k < |reqs| ::
         && ids[k] in now && reqs[k].template in profiles
         && SetUpFor(now[ids[k]], profiles[reqs[k].template], reqs[k])
  }

  lemma MadeIsSetUp(profiles: map<string, CloneProfile>, was: map<int, Vm>, now: map<int, Vm>,
                    ids: seq<int>, reqs: seq<VMRequest>, ress: seq<VMResult>)
    requires Made(profiles, was, now, ids, reqs, ress)
    ensures AllSetUp(profiles, now, ids, reqs)
  {
    forall k | 0 <= k < |reqs|
      ensures ids[k] in now && reqs[k].template in profiles
      ensures SetUpFor(now[ids[k]], profiles[reqs[k].template], reqs[k])
    {
      assert Serves(profiles, now, ids[k], reqs[k], ress[k]);
      WantedIsSetUp(profiles, reqs[k]);
    }
  }

  // The same machine as it is when the clone ends.
  function Cloned(profiles: map<string, CloneProfile>, req: VMRequest): Vm
    requires req.template in profiles
  {
    var p := profiles[req.template];
    Vm(req.hostname, p.templateVMID, p.cloneMode == "full", map[], false)
  }

  ghost predicate Known(profiles: map<string, CloneProfile>, reqs: seq<VMRequest>) {
    forall k | 0 <= k < |reqs| :: reqs[k].template in profiles
  }

  function IdSet(ids: seq<int>): set<int> {
    set k | 0 <= k < |ids| :: ids[k]
  }

  ghost predicate Distinct(ids: seq<int>) {
    forall i, j | 0 <= i < j < |ids| :: ids[i] != ids[j]
  }

  // Machine k is the one request k describes, and result k names it.
  ghost predicate Serves(profiles: map<string, CloneProfile>, now: map<int, Vm>, id: int, req: VMRequest,
                         res: VMResult) {
    && id in now && LegalID(id) && req.template in profiles && now[id] == Wanted(profiles, req)
    && res.providerVMID == Decimal(id) && res.hostname == req.hostname && res.ipAddress != ""
  }

  // now is was plus one machine for each request, under different identifiers that was did not use.
  ghost predicate Made(profiles: map<string, CloneProfile>, was: map<int, Vm>, now: map<int, Vm>,
                       ids: seq<int>, reqs: seq<VMRequest>, ress: seq<VMResult>) {
    && |ids| == |reqs| == |ress|
    && Distinct(ids)
    && (forall k | 0 <= k < |ids| :: ids[k] !in was && Serves(profiles, now, ids[k], reqs[k], ress[k]))
    && now.Keys == was.Keys + IdSet(ids)
    && forall id | id in was :: id in now && now[id] == was[id]
  }

  ghost predicate Keeps(was: map<int, Vm>, now: map<int, Vm>) {
    forall id | id in was :: id in now && now[id] == was[id]
  }

  lemma MadeNothing(profiles: map<string, CloneProfile>, was: map<int, Vm>)
    ensures Made(profiles, was, was, [], [], [])
  {
    assert IdSet([]) == {};
  }

  // Nothing differs but the machine called id.
  ghost predicate ChangesOnly(was: map<int, Vm>, now: map<int, Vm>, id: int) {
    && id in now && now.Keys == was.Keys
    && forall other | other in was && other != id :: now[other] == was[other]
  }

  lemma AddsOne(was: map<int, Vm>, cloned: map<int, Vm>, now: map<int, Vm>, id: int, vm: Vm)
    requires cloned == was[id := vm] && ChangesOnly(cloned, now, id)
    ensures now == was[id := now[id]]
  {
    assert cloned.Keys == was.Keys + {id};
    forall other | other in now ensures now[other] == was[id := now[id]][other] {
      assert other != id ==> now[other] == cloned[other];
    }
  }

  lemma OneMoreID(ids: seq<int>, id: int)
    requires Distinct(ids) && id !in IdSet(ids)
    ensures Distinct(ids + [id]) && IdSet(ids + [id]) == IdSet(ids) + {id}
  {
    var ids' := ids + [id];
    assert forall k | 0 <= k < |ids| :: ids[k] in IdSet(ids) && ids'[k] == ids[k];
    assert ids'[|ids|] == id;
  }

  lemma StillServes(profiles: map<string, CloneProfile>, now: map<int, Vm>, at: int, vm: Vm,
                    id: int, req: VMRequest, res: VMResult)
    requires Serves(profiles, now, id, req, res) && at !in now
    ensures Serves(profiles, now[at := vm], id, req, res)
  {
  }

  lemma MadeOneMore(profiles: map<string, CloneProfile>, was: map<int, Vm>, now: map<int, Vm>,
                    ids: seq<int>, reqs: seq<VMRequest>, ress: seq<VMResult>, id: int, req: VMRequest, res: VMResult)
    requires Made(profiles, was, now, ids, reqs, ress)
    requires id !in now && LegalID(id) && req.template in profiles
    requires res.providerVMID == Decimal(id) && res.hostname == req.hostname && res.ipAddress != ""
    ensures Made(profiles, was, now[id := Wanted(profiles, req)], ids + [id], reqs + [req], ress + [res])
  {
    hide Decimal;
    var vm := Wanted(profiles, req);
    OneMoreID(ids, id);
    forall k | 0 <= k < |ids| + 1
      ensures (ids + [id])[k] !in was
      ensures Serves(profiles, now[id := vm], (ids + [id])[k], (reqs + [req])[k], (ress + [res])[k])
    {
      if k < |ids| {
        StillServes(profiles, now, id, vm, ids[k], reqs[k], ress[k]);
      }
    }
    forall old_ | old_ in was ensures old_ in now[id := vm] && now[id := vm][old_] == was[old_] {
    }
  }

  lemma MadeOneNode(profiles: map<string, CloneProfile>, was: map<int, Vm>, now: map<int, Vm>, ids: seq<int>,
                    reqs: seq<VMRequest>, nodes: seq<VMRequest>, j: nat, ress: seq<VMResult>, made: seq<VMResult>,
                    id: int, res: VMResult)
    requires j < |nodes| && Made(profiles, was, now, ids, reqs + nodes[..j], ress + made)
    requires id !in now && LegalID(id) && nodes[j].template in profiles
    requires res.providerVMID == Decimal(id) && res.hostname == nodes[j].hostname && res.ipAddress != ""
    ensures Made(profiles, was, now[id := Wanted(profiles, nodes[j])], ids + [id], reqs + nodes[..j + 1],
                 ress + (made + [res]))
  {
    MadeOneMore(profiles, was, now, ids, reqs + nodes[..j], ress + made, id, nodes[j], res);
    assert reqs + nodes[..j] + [nodes[j]] == reqs + nodes[..j + 1];
    assert ress + made + [res] == ress + (made + [res]);
  }

  function FirstRequests(spec: EnvironmentSpec, i: nat): seq<VMRequest>
    requires i <= |spec.clusters|
  {
    [spec.workstation] + NodeRequests(spec.clusters[..i])
  }

  lemma MadeWorkstation(profiles: map<string, CloneProfile>, was: map<int, Vm>, spec: EnvironmentSpec, id: int,
                        res: VMResult)
    requires id !in was && LegalID(id) && spec.workstation.template in profiles
    requires res.providerVMID == Decimal(id) && res.hostname == spec.workstation.hostname && res.ipAddress != ""
    ensures Made(profiles, was, was[id := Wanted(profiles, spec.workstation)], [id], FirstRequests(spec, 0),
                 Results(EnvironmentResult(res, [])))
  {
    MadeNothing(profiles, was);
    hide Decimal, Wanted, Made;
    MadeOneMore(profiles, was, was, [], [], [], id, spec.workstation, res);
    assert [] + [id] == [id] && [] + [spec.workstation] == FirstRequests(spec, 0);
    assert [] + [res] == Results(EnvironmentResult(res, []));
  }

  // ----- destroying from metadata

  // What one entry makes the provider stop and delete, and what a list of them does.
  function Target(id: int): set<int> {
    if id > 0 then {id} else {}
  }

  function Targets(ids: seq<int>): set<int> {
    if ids == [] then {} else Targets(ids[..|ids| - 1]) + Target(ids[|ids| - 1])
  }

  function Scanned(ids: seq<string>): seq<int> {
    seq(|ids|, k requires 0 <= k < |ids| => Scan(ids[k]))
  }

  // The identifiers read back from the metadata: the nodes first and the workstation last.
  function DestroyOrder(m: Metadata): seq<int> {
    Scanned(m.nodeVMIDs) + [Scan(m.workstationVMID)]
  }

  // Every entry is one of the given machines, and no two entries are the same.
  ghost predicate OwnsEach(owned: set<int>, ids: seq<int>) {
    ids == [] ||
      var last := Target(ids[|ids| - 1]);
      last <= owned && last !! Targets(ids[..|ids| - 1]) && OwnsEach(owned, ids[..|ids| - 1])
  }

  lemma {:induction false} TargetsHas(ids: seq<int>, k: nat)
    requires k < |ids| && ids[k] > 0
    ensures ids[k] in Targets(ids)
  {
    var init := ids[..|ids| - 1];
    if k < |init| {
      assert init[k] == ids[k];
      TargetsHas(init, k);
    }
  }

  lemma {:induction false} TargetsFrom(ids: seq<int>, x: int) returns (k: nat)
    requires x in Targets(ids)
    ensures k < |ids| && ids[k] == x > 0
  {
    var init := ids[..|ids| - 1];
    k := |init|;
    if x in Targets(init) {
      k := TargetsFrom(init, x);
      assert init[k] == ids[k];
    }
  }

  lemma {:induction false} OwnsDistinct(owned: set<int>, ids: seq<int>)
    requires forall k | 0 <= k < |ids| :: ids[k] > 0 ==> ids[k] in owned
    requires forall j, k | 0 <= j < k < |ids| :: ids[j] != ids[k]
    ensures OwnsEach(owned, ids)
  {
    if ids != [] {
      var init := ids[..|ids| - 1];
      OwnsDistinct(owned, init);
      if ids[|ids| - 1] in Targets(init) {
        var k := TargetsFrom(init, ids[|ids| - 1]);
      }
    }
  }

  lemma {:induction false} OwnsFirst(owned: set<int>, ids: seq<int>, i: nat)
    requires OwnsEach(owned, ids) && i < |ids|
    ensures Target(ids[i]) <= owned && Target(ids[i]) !! Targets(ids[..i])
  {
    var init := ids[..|ids| - 1];
    if i < |init| {
      OwnsFirst(owned, init, i);
      assert init[..i] == ids[..i];
    }
  }

  lemma TargetsOfMore(ids: seq<int>, i: nat)
    requires i < |ids|
    ensures Targets(ids[..i + 1]) == Targets(ids[..i]) + Target(ids[i])
  {
    assert ids[..i + 1][..i] == ids[..i];
  }

  lemma ScansBack(profiles: map<string, CloneProfile>, now: map<int, Vm>, id: int, req: VMRequest, res: VMResult)
    requires Serves(profiles, now, id, req, res)
    ensures Scan(res.providerVMID) == id > 0
  {
    ScanDecimal(id);
  }

  lemma SameIdsInOrder(ids: seq<int>, m: Metadata)
    requires Scanned(Ids(m)) == ids && forall k | 0 <= k < |ids| :: ids[k] > 0
    ensures SameInOrder(ids, DestroyOrder(m))
  {
    ScannedIds(m);
    TurnedRound(ids, Scan(m.workstationVMID), Scanned(m.nodeVMIDs));
  }

  lemma ScannedIds(m: Metadata)
    ensures Scanned(Ids(m)) == [Scan(m.workstationVMID)] + Scanned(m.nodeVMIDs)
  {
    hide Scan;
  }

  lemma TurnedRound(ids: seq<int>, first: int, rest: seq<int>)
    requires ids == [first] + rest && forall k | 0 <= k < |ids| :: ids[k] > 0
    ensures SameInOrder(ids, rest + [first])
  {
  }

  lemma OwnsMade(owned: set<int>, ids: seq<int>, order: seq<int>)
    requires SameInOrder(ids, order) && Distinct(ids) && forall k | 0 <= k < |ids| :: ids[k] in owned
    ensures OwnsEach(owned, order)
  {
    forall j, k | 0 <= j < k < |order| ensures order[j] != order[k] {
      assert ids[j + 1] != ids[if k == |order| - 1 then 0 else k + 1];
    }
    OwnsDistinct(owned, order);
  }

  // Scanning back the printed identifiers of a result gives the machines that were made, and no others.
  lemma TargetsOfMade(profiles: map<string, CloneProfile>, was: map<int, Vm>, now: map<int, Vm>,
                      ids: seq<int>, reqs: seq<VMRequest>, ress: seq<VMResult>, m: Metadata)
    requires Made(profiles, was, now, ids, reqs, ress) && Ids(m) == VMIDs(ress)
    ensures Targets(DestroyOrder(m)) == IdSet(ids) && OwnsEach(now.Keys, DestroyOrder(m))
  {
    forall k | 0 <= k < |ids| ensures Scan(Ids(m)[k]) == ids[k] > 0 && ids[k] in now {
      ScansBack(profiles, now, ids[k], reqs[k], ress[k]);
    }
    assert Scanned(Ids(m)) == ids;
    SameIdsInOrder(ids, m);
    OrderTargets(ids, DestroyOrder(m));
    OwnsMade(now.Keys, ids, DestroyOrder(m));
  }

  lemma OrderTargets(ids: seq<int>, order: seq<int>)
    requires SameInOrder(ids, order)
    ensures Targets(order) == IdSet(ids)
  {
    forall x | x in IdSet(ids) ensures x in Targets(order) {
      MadeIsTarget(ids, order, x);
    }
    forall x | x in Targets(order) ensures x in IdSet(ids) {
      TargetIsMade(ids, order, x);
    }
  }

  ghost predicate SameInOrder(ids: seq<int>, order: seq<int>) {
    && |ids| == |order| > 0
    && (forall k | 0 <= k < |ids| :: ids[k] > 0)
    && order[|order| - 1] == ids[0]
    && forall k | 0 <= k < |order| - 1 :: order[k] == ids[k + 1]
  }

  lemma MadeIsTarget(ids: seq<int>, order: seq<int>, x: int)
    requires SameInOrder(ids, order) && x in IdSet(ids)
    ensures x in Targets(order)
  {
    var k :| 0 <= k < |ids| && ids[k] == x;
    var at := if k == 0 then |order| - 1 else k - 1;
    assert order[at] == x;
    TargetsHas(order, at);
  }

  lemma TargetIsMade(ids: seq<int>, order: seq<int>, x: int)
    requires SameInOrder(ids, order) && x in Targets(order)
    ensures x in IdSet(ids)
  {
    var k := TargetsFrom(order, x);
    assert ids[if k == |order| - 1 then 0 else k + 1] == x;
  }

  // Machines only go, and none but the targets is touched.
  ghost predicate Survive(was: map<int, Vm>, now: map<int, Vm>, targets: set<int>) {
    now.Keys <= was.Keys && forall id | id in was && id !in targets :: id in now && now[id] == was[id]
  }

  lemma SurviveTwice(a: map<int, Vm>, b: map<int, Vm>, c: map<int, Vm>, s: set<int>, t: set<int>)
    requires Survive(a, b, s) && Survive(b, c, t)
    ensures Survive(a, c, s + t)
  {
  }

  lemma DestroyUndoes(profiles: map<string, CloneProfile>, was: map<int, Vm>, made: map<int, Vm>, now: map<int, Vm>,
                      ids: seq<int>, reqs: seq<VMRequest>, ress: seq<VMResult>, failed: set<int>)
    requires Made(profiles, was, made, ids, reqs, ress)
    requires Survive(made, now, IdSet(ids)) && forall id | id in now && id in IdSet(ids) :: id in failed
    ensures Keeps(was, now) && now.Keys <= was.Keys + failed
    ensures failed == {} ==> now == was
  {
    forall id | id in was ensures id in now && now[id] == was[id] {
      assert id !in IdSet(ids) && id in made;
    }
    forall id | id in now ensures id in was || id in failed {
      assert id in made;
    }
    if failed == {} {
      assert now.Keys == was.Keys;
    }
  }

  // Where teardown stands after the first i entries.
  ghost predicate Progress(was: map<int, Vm>, now: map<int, Vm>, fell0: set<int>, fell: set<int>,
                           failed: set<int>, order: seq<int>, i: int) {
    && 0 <= i <= |order|
    && failed <= Targets(order[..i])
    && Survive(was, now, Targets(order[..i]))
    && (forall id | id in now && id in Targets(order[..i]) :: id in failed)
    && fell0 <= fell <= fell0 + Targets(order[..i])
    && (OwnsEach(was.Keys, order) ==> fell == fell0)
  }

  lemma ProgressMore(was: map<int, Vm>, before: map<int, Vm>, now: map<int, Vm>,
                     fell0: set<int>, fell: set<int>, fell': set<int>,
                     failed: set<int>, failed': set<int>, order: seq<int>, i: int)
    requires Progress(was, before, fell0, fell, failed, order, i) && i < |order|
    requires failed <= failed' <= failed + Target(order[i])
    requires Survive(before, now, Target(order[i]))
    requires forall id | id in now && id in Target(order[i]) :: id in failed'
    requires fell <= fell' <= fell + Target(order[i])
    requires Target(order[i]) <= before.Keys ==> fell' == fell
    ensures Progress(was, now, fell0, fell', failed', order, i + 1)
  {
    TargetsOfMore(order, i);
    SurviveTwice(was, before, now, Targets(order[..i]), Target(order[i]));
    if OwnsEach(was.Keys, order) {
      OwnsFirst(was.Keys, order, i);
    }
  }

  lemma KnownNodes(profiles: map<string, CloneProfile>, spec: EnvironmentSpec, i: nat)
    requires i < |spec.clusters| && Known(profiles, Requests(spec))
    ensures forall j | 0 <= j < |spec.clusters[i].nodes| :: spec.clusters[i].nodes[j].template in profiles
  {
    forall j | 0 <= j < |spec.clusters[i].nodes| ensures spec.clusters[i].nodes[j].template in profiles {
      NodeIn(spec.clusters, i, j);
      assert spec.clusters[i].nodes[j] in Requests(spec);
    }
  }

  function AddCluster(env: EnvironmentResult, cr: ClusterResult): (r: EnvironmentResult)
    ensures Results(r) == Results(env) + cr.nodes
    ensures r.workstation == env.workstation && r.clusters == env.clusters + [cr]
  {
    assert (env.clusters + [cr])[..|env.clusters|] == env.clusters;
    env.(clusters := env.clusters + [cr])
  }

  lemma NodesOf(spec: EnvironmentSpec, i: nat)
    requires i < |spec.clusters|
    ensures FirstRequests(spec, i + 1) == FirstRequests(spec, i) + spec.clusters[i].nodes
  {
    assert spec.clusters[..i + 1][..i] == spec.clusters[..i];
  }

  lemma {:induction false} NodesFit(spec: EnvironmentSpec, i: nat)
    requires i <= |spec.clusters|
    ensures |FirstRequests(spec, i)| <= |Requests(spec)|
    decreases |spec.clusters| - i
  {
    if i < |spec.clusters| {
      NodesOf(spec, i);
      NodesFit(spec, i + 1);
    } else {
      assert spec.clusters[..i] == spec.clusters;
    }
  }

  lemma {:induction false} NodeIn(clusters: seq<ClusterRequest>, i: nat, j: nat)
    requires i < |clusters| && j < |clusters[i].nodes|
    ensures clusters[i].nodes[j] in NodeRequests(clusters)
  {
    var n := |clusters| - 1;
    if i < n {
      NodeIn(clusters[..n], i, j);
    }
  }
}
