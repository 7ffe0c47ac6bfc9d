/** The CoxCluster reconciler and its load-balancer helper as they are written: backend slices
    that grow in loops, are sorted in place through every alias, compared, and joined into the
    environment of a workload. Every method is tied to the functions of LoadBalancer and
    ClusterPass, about which the properties are proved. */
module ClusterController {
  import opened Wrappers
  import opened Strings
  import opened Sorting
  import opened Naming
  import opened Numbers
  import opened Cloud
  import opened LoadBalancer
  import opened ClusterPass
  import ClusterRuns

  // ----- objects -----

  /** A load-balancer spec. `backends` is the slice the sort reorders, shared with whoever else
      holds it. */
  class LoadBalancerSpec {
    var name: string
    const port: seq<string>
    const image: string
    const backends: array<string>
    const pop: seq<string>
    var instances: nat

    constructor (name: string, port: seq<string>, image: string, backends: array<string>, pop: seq<string>,
                 instances: nat)
      ensures this.name == name && this.port == port && this.image == image
      ensures this.backends == backends && this.pop == pop && this.instances == instances
    {
      this.name, this.port, this.image := name, port, image;
      this.backends, this.pop, this.instances := backends, pop, instances;
    }

    function Value(): LbSpec
      reads this, backends
    {
      LbSpec(name, port, image, backends[..], pop, instances)
    }
  }

  /** A load balancer as it was read from the cloud. */
  class StoredLoadBalancer {
    const spec: LoadBalancerSpec
    var publicIP: string

    constructor (spec: LoadBalancerSpec, publicIP: string)
      ensures this.spec == spec && this.publicIP == publicIP
    {
      this.spec, this.publicIP := spec, publicIP;
    }

    function Value(): Lb
      reads this, spec, spec.backends
    {
      Lb(spec.Value(), publicIP)
    }
  }

  /** The CoxCluster of one pass. */
  class CoxCluster {
    var finalizer: bool
    var endpoint: Endpoint
    var ready: bool
    var lbPublicIP: string

    constructor (c: ClusterState)
      ensures Value() == c
    {
      finalizer, endpoint, ready, lbPublicIP := c.finalizer, c.endpoint, c.ready, c.lbPublicIP;
    }

    function Value(): ClusterState
      reads this
    {
      ClusterState(finalizer, endpoint, ready, lbPublicIP)
    }
  }

  // ----- parsing -----

  /** strings.Split: a new slice, never nil. */
  method SplitSlice(s: string, sep: char) returns (r: array<string>)
    ensures fresh(r) && r[..] == Split(s, sep)
  {
    var parts := Split(s, sep);
    r := new string[|parts|](i requires 0 <= i < |parts| => parts[i]);
  }

  /** parseLoadBalancerSpecFromWorkload: later variables overwrite earlier ones. */
  method ParseLoadBalancerSpec(w: Workload) returns (r: Result<LoadBalancerSpec, Error>)
    ensures r.Ok? ==> fresh(r.value) && fresh(r.value.backends) && ParseSpec(w) == Ok(r.value.Value())
    ensures r.Err? ==> ParseSpec(w) == Err(r.error)
    ensures r.Panic? ==> ParseSpec(w) == Panic
  {
    hide Split;
    var backends: array?<string> := null;
    var port: seq<string> := [];
    for i := 0 to |w.env|
      invariant backends != null ==> fresh(backends)
      invariant backends == null <==> LookupEnv(w.env[..i], ENV_BACKENDS).None?
      invariant backends != null ==> backends[..] == Pieces(LookupEnv(w.env[..i], ENV_BACKENDS), ';')
      invariant port == Pieces(LookupEnv(w.env[..i], ENV_PORT), ',')
    {
      assert w.env[..i + 1][..i] == w.env[..i];
      var kv := w.env[i];
      match kv.key {
        case "LB_BACKENDS" => backends := SplitSlice(kv.value, ';');
        case "LB_PORT" => port := Split(kv.value, ',');
        case _ =>
      }
    }
    assert w.env[..|w.env|] == w.env;
    if backends == null {
      return Err(NotALoadBalancer);
    }
    if |w.deployments| == 0 {
      return Panic;
    }
    var spec := new LoadBalancerSpec(w.name, port, w.image, backends, w.deployments[0].pops, 0);
    r := Ok(spec);
  }

  /** parseLoadBalancerStatusFromWorkload and the counting loop of parseLoadBalancerFromWorkload. */
  method ParseInstances(instances: seq<Instance>) returns (publicIP: string, running: nat)
    ensures publicIP == RunningIP(instances)
    ensures running == RunningCount(instances)
  {
    publicIP, running := "", 0;
    for i := 0 to |instances|
      invariant publicIP == RunningIP(instances[..i])
      invariant running == RunningCount(instances[..i])
    {
      assert instances[..i + 1][..i] == instances[..i];
      if instances[i].status == RUNNING {
        publicIP := instances[i].publicIP;
        running := running + 1;
      }
    }
    assert instances[..|instances|] == instances;
  }

  // ----- the cloud client and the helper -----

  /** The client. GetWorkloadByName is the scan of Cloud; the calls below change the cloud. */
  class Client {
    var cloud: CloudState

    constructor (k: CloudState)
      ensures cloud == k
    {
      cloud := k;
    }

    method GetWorkloadByName(name: string, fault: Option<Failure>) returns (r: Result<Workload, Error>)
      ensures r == Lookup(cloud.workloads, name, fault)
    {
      if fault.Some? {
        return Err(Request(fault.value));
      }
      r := ScanByName(cloud.workloads, name);
    }

    /** GetLoadBalancer. */
    method GetLoadBalancer(name: string, find: Option<Failure>, inst: Option<Failure>)
      returns (r: Result<StoredLoadBalancer, Error>)
      ensures r.Ok? ==> && fresh(r.value) && fresh(r.value.spec) && fresh(r.value.spec.backends)
                        && Get(cloud, name, find, inst) == Ok(r.value.Value())
      ensures r.Err? ==> Get(cloud, name, find, inst) == Err(r.error)
      ensures r.Panic? ==> Get(cloud, name, find, inst) == Panic
    {
      hide ParseSpec, RunningIP, RunningCount, Lookup;
      var workload := GetWorkloadByName(name, find);
      match workload
      case Err(e) => return Err(e);
      case Panic => return Panic;
      case Ok(w) =>
        if inst.Some? {
          return Err(Request(inst.value));
        }
        var parsed := ParseLoadBalancerSpec(w);
        match parsed
        case Err(e) => return Err(e);
        case Panic => return Panic;
        case Ok(spec) =>
          var publicIP, running := ParseInstances(InstancesOf(cloud.instances, w.id));
          spec.instances := running;
          var lb := new StoredLoadBalancer(spec, publicIP);
          r := Ok(lb);
    }

    /** CreateLoadBalancer, down to the shortened name the request goes out with. */
    method CreateLoadBalancer(payload: LoadBalancerSpec, reply: CreateReply) returns (r: Result<(), Error>)
      modifies this
      ensures (cloud, r) == Create(old(cloud), old(payload.Value()), reply)
    {
      hide ShortenName, Join;
      var short := ShortenName(payload.name, NAME_LIMIT);
      if short.None? {
        return Panic;
      }
      if reply.Refused? {
        return Err(Request(reply.failure));
      }
      if reply.id in cloud.used {
        return Err(Request(Wire));
      }
      var env := [EnvVar(ENV_PORT, Join(payload.port, ',')), EnvVar(ENV_BACKENDS, Join(payload.backends[..], ';'))];
      var w := Workload(reply.id, short.value, payload.image, env, [Deployment(payload.pop)]);
      cloud := cloud.(workloads := cloud.workloads + [w], used := cloud.used + {w.id},
                      born := cloud.born[reply.id := payload.port]);
      r := Ok(());
    }

    /** UpdateLoadBalancer: new backends, the stored ports. */
    method UpdateLoadBalancer(payload: LoadBalancerSpec, find: Option<Failure>, put: Option<Failure>)
      returns (r: Result<(), Error>)
      modifies this
      ensures (cloud, r) == Update(old(cloud), old(payload.Value()), find, put)
    {
      hide ShortenName, Join, Lookup, ParseSpec;
      var found := GetWorkloadByName(payload.name, find);
      match found
      case Err(e) => return Err(e);
      case Panic => return Panic;
      case Ok(workload) =>
        var parsed := ParseLoadBalancerSpec(workload);
        match parsed
        case Err(e) => return Err(e);
        case Panic => return Panic;
        case Ok(existing) =>
          var env := [EnvVar(ENV_BACKENDS, Join(payload.backends[..], ';')),
                      EnvVar(ENV_PORT, Join(existing.port, ','))];
          var short := ShortenName(workload.name, NAME_LIMIT);
          if short.None? {
            return Panic;
          }
          if put.Some? {
            return Err(Request(put.value));
          }
          cloud := cloud.(workloads := Replace(cloud.workloads, workload.(name := short.value, env := env)),
                          updates := cloud.updates + [workload.id]);
          r := Ok(());
    }

    /** DeleteLoadBalancer. */
    method DeleteLoadBalancer(name: string, find: Option<Failure>, read: Option<Failure>, post: Option<Failure>)
      returns (r: Result<(), Error>)
      modifies this
      ensures (cloud, r) == Delete(old(cloud), name, find, read, post)
    {
      hide Lookup;
      var found := GetWorkloadByName(name, find);
      match found
      case Err(e) => return Err(e);
      case Panic => return Panic;
      case Ok(w) =>
        if read.Some? {
          return Err(Request(read.value));
        }
        if w.id !in Ids(cloud.workloads) {
          return Err(Request(Http(404)));
        }
        if post.Some? {
          return Err(Request(post.value));
        }
        cloud := cloud.(doomed := cloud.doomed + {w.id});
        r := Ok(());
    }
  }

  // ----- the reconciler -----

  lemma FlatMapNext(f: MachineInfo -> seq<string>, machines: seq<MachineInfo>, i: nat)
    requires i < |machines|
    ensures FlatMap(f, machines[..i + 1]) == FlatMap(f, machines[..i]) + f(machines[i])
  {
    assert machines[..i + 1][..i] == machines[..i];
  }

  /** The first control-plane address loop of reconcileNormal, and its placeholder. */
  method ControlPlaneSlice(spec: ClusterSpec, machines: seq<MachineInfo>) returns (r: array<string>)
    ensures fresh(r) && r[..] == OrPlaceholder(ControlPlaneBackends(spec, machines))
  {
    var apiserverAddresses: seq<string> := [];
    ghost var f := m => ControlPlaneOf(spec, m);
    for i := 0 to |machines|
      invariant apiserverAddresses == FlatMap(f, machines[..i])
    {
      FlatMapNext(f, machines, i);
      var m := machines[i];
      if Label(m.labels, CLUSTER_LABEL) != spec.name {
        continue;
      }
      if CONTROL_PLANE_LABEL !in m.labels {
        continue;
      }
      ghost var before := apiserverAddresses;
      var j := 0;
      while j < |m.addresses|
        invariant j <= |m.addresses|
        invariant apiserverAddresses == before
        invariant FirstOf(ExternalIP, m.addresses) == FirstOf(ExternalIP, m.addresses[j..])
      {
        if m.addresses[j].kind != ExternalIP {
          j := j + 1;
          continue;
        }
        apiserverAddresses := apiserverAddresses + [m.addresses[j].address + ":6443"];
        break;
      }
    }
    assert machines[..|machines|] == machines;
    if |apiserverAddresses| == 0 {
      apiserverAddresses := [PLACEHOLDER];
    }
    r := new string[|apiserverAddresses|](i requires 0 <= i < |apiserverAddresses| => apiserverAddresses[i]);
  }

  /** The worker address loop of reconcileNormal, and its placeholder. */
  method WorkerSlice(spec: ClusterSpec, machines: seq<MachineInfo>) returns (r: array<string>)
    ensures fresh(r) && r[..] == OrPlaceholder(WorkerBackends(spec, machines))
  {
    var workerAddresses: seq<string> := [];
    ghost var f := m => WorkersOf(spec, m);
    for i := 0 to |machines|
      invariant workerAddresses == FlatMap(f, machines[..i])
    {
      FlatMapNext(f, machines, i);
      var m := machines[i];
      if Label(m.labels, CLUSTER_LABEL) != spec.name {
        continue;
      }
      if DEPLOYMENT_LABEL !in m.labels {
        continue;
      }
      ghost var before := workerAddresses;
      var j := 0;
      while j < |m.addresses|
        invariant j <= |m.addresses|
        invariant workerAddresses == before
        invariant FirstOf(InternalIP, m.addresses) == FirstOf(InternalIP, m.addresses[j..])
      {
        if m.addresses[j].kind != InternalIP {
          j := j + 1;
          continue;
        }
        var address := m.addresses[j].address;
        if |spec.workerPorts| == 0 {
          workerAddresses := workerAddresses + [address + ":" + "80"];
        } else {
          for p := 0 to |spec.workerPorts|
            invariant workerAddresses == before + WithPorts(address, spec.workerPorts)[..p]
          {
            workerAddresses := workerAddresses + [address + ":" + spec.workerPorts[p]];
          }
        }
        assert workerAddresses == before + WithPorts(address, WorkerPorts(spec));
        break;
      }
    }
    assert machines[..|machines|] == machines;
    if |workerAddresses| == 0 {
      workerAddresses := [PLACEHOLDER];
    }
    r := new string[|workerAddresses|](i requires 0 <= i < |workerAddresses| => workerAddresses[i]);
  }

  /** Sort both slices in place, and update the stored load balancer when they differ. The
      desired slice stays sorted, for every alias of it. */
  method AlignLoadBalancer(client: Client, existing: StoredLoadBalancer, desired: LoadBalancerSpec,
                           find: Option<Failure>, put: Option<Failure>)
    returns (r: Result<bool, Error>)
    requires existing.spec.backends != desired.backends && existing.spec != desired
    modifies client, desired`name, desired.backends, existing`publicIP, existing.spec.backends
    ensures (client.cloud, r) == Align(old(client.cloud), old(existing.Value()), old(desired.Value()), find, put)
    ensures desired.backends[..] == Sorted(old(desired.backends[..]))
    ensures existing.spec.name == old(existing.spec.name)
    ensures r.Ok? ==> existing.publicIP == if r.value then "" else old(existing.publicIP)
  {
    hide Update, Sorted;
    desired.name := existing.spec.name;
    SortStrings(desired.backends);
    SortStrings(existing.spec.backends);
    if existing.spec.backends[..] == desired.backends[..] {
      return Ok(false);
    }
    existing.publicIP := "";
    var updated := client.UpdateLoadBalancer(desired, find, put);
    match updated
    case Err(e) => r := Err(e);
    case Panic => r := Panic;
    case Ok(_) => r := Ok(true);
  }

  /** The publishing tail of reconcileNormal. `apiserverAddresses` and `workerAddresses` are the
      slices the two specs were built from, and `read` the load balancer as this pass knows it. */
  method PublishEndpoint(c: CoxCluster, ghost k: CloudState, ghost read: Lb, lb: StoredLoadBalancer,
                         apiserverAddresses: array<string>, workerAddresses: array<string>)
    returns (o: Outcome)
    requires lb.publicIP == read.publicIP && lb.spec.port == read.spec.port
    requires apiserverAddresses.Length > 0 && workerAddresses.Length > 0
    modifies c
    ensures Pass(k, c.Value(), o) == Publish(k, old(c.Value()), read, apiserverAddresses[..], workerAddresses[..])
  {
    hide Atoi;
    if |lb.publicIP| == 0 {
      return NotReady;
    }
    if |lb.spec.port| == 0 {
      return Panicked;
    }
    var port := Atoi(lb.spec.port[0]);
    if port.None? {
      return BadPort;
    }
    c.endpoint := Endpoint(lb.publicIP, Int32(port.value));
    c.ready := true;
    c.lbPublicIP := lb.publicIP;
    if apiserverAddresses[0] == PLACEHOLDER {
      return NoControlPlane;
    }
    if workerAddresses[0] == PLACEHOLDER {
      return NoWorkers;
    }
    o := Reconciled;
  }

  method CreateLoadBalancers(client: Client, c: CoxCluster, cp: LoadBalancerSpec, wk: LoadBalancerSpec, a: Calls)
    returns (o: Outcome)
    modifies client
    ensures Pass(client.cloud, c.Value(), o)
         == CreateBoth(old(client.cloud), c.Value(), old(cp.Value()), old(wk.Value()), a)
  {
    hide Create;
    var first := client.CreateLoadBalancer(cp, a.cpCreate);
    if first.Panic? {
      return Panicked;
    }
    var second := client.CreateLoadBalancer(wk, a.wkCreate);
    if second.Panic? {
      return Panicked;
    }
    if first.Err? {
      return CreateFailed(first.error);
    }
    if second.Err? {
      return Panicked;
    }
    o := Created;
  }

  /** The part of reconcileNormal after the control-plane load balancer has been found. */
  method AlignLoadBalancers(client: Client, c: CoxCluster, existing: StoredLoadBalancer,
                            worker: Result<StoredLoadBalancer, Error>, ghost was: Result<Lb, Error>,
                            cp: LoadBalancerSpec, wk: LoadBalancerSpec, a: Calls,
                            apiserverAddresses: array<string>, workerAddresses: array<string>)
    returns (o: Outcome)
    requires cp.backends == apiserverAddresses && wk.backends == workerAddresses
    requires apiserverAddresses.Length > 0 && workerAddresses.Length > 0
    requires apiserverAddresses != workerAddresses && cp != wk
    requires existing.spec !in {cp, wk} && existing.spec.backends !in {apiserverAddresses, workerAddresses}
    requires !worker.Panic?
    requires worker.Ok? ==> && worker.value != existing && worker.value.spec !in {existing.spec, cp, wk}
                            && worker.value.spec.backends !in
                                 {existing.spec.backends, apiserverAddresses, workerAddresses}
                            && was == Ok(worker.value.Value())
    requires worker.Err? ==> was == Err(worker.error)
    modifies client, c, cp, wk, apiserverAddresses, workerAddresses, existing, existing.spec.backends
    modifies if worker.Ok? then {worker.value} else {}
    modifies if worker.Ok? then {worker.value.spec.backends} else {}
    ensures Pass(client.cloud, c.Value(), o)
         == AlignBoth(old(client.cloud), old(c.Value()), old(existing.Value()), was,
                      old(cp.Value()), old(wk.Value()), a)
  {
    hide Align, Publish, Sorted;
    var first := AlignLoadBalancer(client, existing, cp, a.cpRefind, a.cpPut);
    if first.Panic? {
      return Panicked;
    }
    if first.Err? {
      return UpdateFailed(first.error);
    }
    if worker.Err? {
      return Panicked;
    }
    assert wk.Value() == old(wk.Value());
    assert worker.value.Value() == old(worker.value.Value());
    var second := AlignLoadBalancer(client, worker.value, wk, a.wkRefind, a.wkPut);
    if second.Panic? {
      return Panicked;
    }
    if second.Err? {
      return UpdateFailed(second.error);
    }
    assert apiserverAddresses[..] == Sorted(old(apiserverAddresses[..]));
    ghost var read := if first.value then old(existing.Value()).(publicIP := "") else old(existing.Value());
    o := PublishEndpoint(c, client.cloud, read, existing, apiserverAddresses, workerAddresses);
  }

  /** Look both load balancers up, and create, update or publish. The two specs hold the very
      slices the caller reads its placeholder check from. */
  method EnsureLoadBalancers(client: Client, c: CoxCluster, cp: LoadBalancerSpec, wk: LoadBalancerSpec, a: Calls,
                             apiserverAddresses: array<string>, workerAddresses: array<string>)
    returns (o: Outcome)
    requires cp.backends == apiserverAddresses && wk.backends == workerAddresses
    requires apiserverAddresses.Length > 0 && workerAddresses.Length > 0
    requires apiserverAddresses != workerAddresses && cp != wk
    modifies client, c, cp, wk, apiserverAddresses, workerAddresses
    ensures Pass(client.cloud, c.Value(), o)
         == Ensure(old(client.cloud), old(c.Value()), old(cp.Value()), old(wk.Value()), a)
  {
    hide Get, CreateBoth, AlignBoth;
    var existing := client.GetLoadBalancer(cp.name, a.cpFind, a.cpInst);
    if existing.Panic? {
      return Panicked;
    }
    var worker := client.GetLoadBalancer(wk.name, a.wkFind, a.wkInst);
    if worker.Panic? {
      return Panicked;
    }
    if existing.Err? && worker.Err? {
      if existing.error != WorkloadNotFound {
        return LookupFailed(existing.error);
      }
      if worker.error != WorkloadNotFound {
        return LookupFailed(existing.error);
      }
      o := CreateLoadBalancers(client, c, cp, wk, a);
      return;
    }
    if existing.Err? {
      return Panicked;
    }
    ghost var was := Get(client.cloud, wk.name, a.wkFind, a.wkInst);
    o := AlignLoadBalancers(client, c, existing.value, worker, was, cp, wk, a, apiserverAddresses, workerAddresses);
  }

  /** reconcileNormal. */
  method ReconcileNormal(client: Client, c: CoxCluster, spec: ClusterSpec, listed: seq<MachineInfo>, a: Calls)
    returns (o: Outcome)
    modifies client, c
    ensures Pass(client.cloud, c.Value(), o) == Reconcile(old(client.cloud), old(c.Value()), spec, listed, a)
  {
    hide Get, CreateBoth, AlignBoth, ControlPlaneBackends, WorkerBackends, ClusterLoadBalancerName,
         WorkerLoadBalancerName;
    c.finalizer := true;
    if a.machines.Some? {
      return ListFailed;
    }
    var apiserverAddresses := ControlPlaneSlice(spec, listed);
    var workerAddresses := WorkerSlice(spec, listed);
    var clusterPorts := if |spec.ports| == 0 then ["6443"] else spec.ports;
    var image := if |spec.image| == 0 then DEFAULT_IMAGE else spec.image;
    var cp := new LoadBalancerSpec(ClusterLoadBalancerName(spec.lbName, spec.name), clusterPorts, image,
                                   apiserverAddresses, spec.pop, 0);
    var wk := new LoadBalancerSpec(WorkerLoadBalancerName(spec.lbName, spec.name), ["80"], image,
                                   workerAddresses, spec.workerPop, 0);
    assert cp.Value() == CpSpec(spec, listed) && wk.Value() == WkSpec(spec, listed);
    o := EnsureLoadBalancers(client, c, cp, wk, a, apiserverAddresses, workerAddresses);
  }

  /** reconcileDelete. */
  method ReconcileDeletion(client: Client, c: CoxCluster, spec: ClusterSpec, a: DeleteCalls)
    returns (o: DeleteOutcome)
    modifies client, c
    ensures (client.cloud, c.Value(), o) == ReconcileDelete(old(client.cloud), old(c.Value()), spec, a)
  {
    hide Delete;
    var first := client.DeleteLoadBalancer(ClusterLoadBalancerName(spec.lbName, spec.name),
                                           a.cpFind, a.cpRead, a.cpPost);
    if first.Panic? {
      return DeletePanicked;
    }
    var second := client.DeleteLoadBalancer(WorkerLoadBalancerName(spec.lbName, spec.name),
                                            a.wkFind, a.wkRead, a.wkPost);
    if second.Panic? {
      return DeletePanicked;
    }
    if first.Err? {
      return DeleteFailed(first.error);
    }
    if second.Err? {
      return DeleteFailed(second.error);
    }
    c.finalizer := false;
    o := Removed;
  }

  /** Between passes the cloud moves on its own. */
  method Advance(client: Client, e: ClusterRuns.Event)
    requires !e.Normal? && !e.Deletion?
    modifies client
    ensures forall c, published ::
              ClusterRuns.Apply(ClusterRuns.System(old(client.cloud), c, published), e)
              == ClusterRuns.System(client.cloud, c, published)
  {
    match e
    case InstancesChange(id, instances) =>
      client.cloud := client.cloud.(instances := client.cloud.instances[id := instances]);
    case Appears(w) =>
      if w.id !in client.cloud.used {
        client.cloud := client.cloud.(workloads := client.cloud.workloads + [w], used := client.cloud.used + {w.id});
      }
    case Vanishes(id) =>
      client.cloud := client.cloud.(workloads := Remove(client.cloud.workloads, id));
  }

  /** The API server's copy of the CoxCluster. */
  class ClusterStore {
    var stored: ClusterState

    constructor (c: ClusterState)
      ensures stored == c
    {
      stored := c;
    }

    /** Close of the cluster scope: a failed patch persists nothing. */
    method Patch(c: CoxCluster, fault: Option<Failure>)
      modifies this
      ensures stored == if fault.Some? then old(stored) else c.Value()
    {
      if fault.None? {
        stored := c.Value();
      }
    }
  }

  /** Reconcile: read the CoxCluster, branch on the deletion of its Cluster, and always close the
      scope. */
  method ReconcileCluster(client: Client, api: ClusterStore, e: ClusterRuns.Event)
    requires e.Normal? || e.Deletion?
    modifies client, api
    ensures forall published ::
              var r := ClusterRuns.Apply(ClusterRuns.System(old(client.cloud), old(api.stored), published), e);
              r.cloud == client.cloud && r.cluster == api.stored
  {
    hide Reconcile, ReconcileDelete;
    var c := new CoxCluster(api.stored);
    match e {
      case Normal(spec, machines, calls, close) =>
        var _ := ReconcileNormal(client, c, spec, machines, calls);
        api.Patch(c, close);
      case Deletion(spec, calls, close) =>
        var _ := ReconcileDeletion(client, c, spec, calls);
        api.Patch(c, close);
    }
  }

  /** The control loop from an untouched cluster, over any sequence of passes, with any answers to
      their calls and closing patches, and of cloud events. The endpoint a ready cluster ends with
      is the last one published, at the port its load balancer was created with. */
  method ControlLoop(client: Client, api: ClusterStore, events: seq<ClusterRuns.Event>)
    returns (ghost r: ClusterRuns.System)
    requires ClusterRuns.Initial(ClusterRuns.System(client.cloud, api.stored, []))
    modifies client, api
    ensures r == ClusterRuns.Run(ClusterRuns.System(old(client.cloud), old(api.stored), []), events)
    ensures r.cloud == client.cloud && r.cluster == api.stored
    ensures api.stored.ready ==>
              && |r.published| > 0
              && var p := r.published[|r.published| - 1];
              && api.stored.endpoint == p.endpoint
              && api.stored.lbPublicIP == api.stored.endpoint.host != ""
              && forall q | q in r.published && q.id == p.id && p.id in client.cloud.born ::
                   q.endpoint.port == api.stored.endpoint.port
  {
    ghost var start := ClusterRuns.System(client.cloud, api.stored, []);
    r := start;
    for i := 0 to |events|
      invariant r == ClusterRuns.Run(start, events[..i])
      invariant r.cloud == client.cloud && r.cluster == api.stored
    {
      assert events[..i + 1][..i] == events[..i];
      ghost var next := ClusterRuns.Apply(r, events[i]);
      assert next == ClusterRuns.Run(start, events[..i + 1]);
      hide ClusterRuns.Run, ClusterRuns.Apply;
      assert r == ClusterRuns.System(client.cloud, api.stored, r.published);
      if events[i].Normal? || events[i].Deletion? {
        ReconcileCluster(client, api, events[i]);
      } else {
        Advance(client, events[i]);
      }
      r := next;
    }
    assert events[..|events|] == events;
    ClusterRuns.EndpointPortStable(start, events);
    if api.stored.ready {
      ClusterRuns.ReadyMeaning(start, events);
    }
  }
}
