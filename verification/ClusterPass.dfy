/** One pass of the CoxCluster reconciler as a function: what it computes from the machines,
    which calls it makes on the cloud, and what it leaves in the CoxCluster. The calls of a
    pass are answered by `Calls`, so every failure of every call is one value of it. */
module ClusterPass {
  import opened Wrappers
  import opened Sorting
  import opened Naming
  import opened Numbers
  import opened Cloud
  import opened LoadBalancer

  const CLUSTER_LABEL := "cluster.x-k8s.io/cluster-name"
  const CONTROL_PLANE_LABEL := "cluster.x-k8s.io/control-plane"
  const DEPLOYMENT_LABEL := "cluster.x-k8s.io/deployment-name"
  const PLACEHOLDER := "example.com:80"
  const DEFAULT_IMAGE := "erwinvaneyk/nginx-lb:latest"

  /** A CoxMachine as the cluster reconciler reads it. */
  datatype MachineInfo = MachineInfo(labels: map<string, string>, addresses: seq<NodeAddress>)

  /** The spec fields of a CoxCluster (and the name of its Cluster) the pass reads. */
  datatype ClusterSpec = ClusterSpec(name: string, lbName: string, image: string, ports: seq<string>,
                                     pop: seq<string>, workerPorts: seq<string>, workerPop: seq<string>)

  datatype Endpoint = Endpoint(host: string, port: int)

  /** What passes write into a CoxCluster. */
  datatype ClusterState = ClusterState(finalizer: bool, endpoint: Endpoint, ready: bool, lbPublicIP: string)

  /** The answers of the API calls of one pass, in call order. */
  datatype Calls = Calls(machines: Option<Failure>,
                         cpFind: Option<Failure>, cpInst: Option<Failure>,
                         wkFind: Option<Failure>, wkInst: Option<Failure>,
                         cpCreate: CreateReply, wkCreate: CreateReply,
                         cpRefind: Option<Failure>, cpPut: Option<Failure>,
                         wkRefind: Option<Failure>, wkPut: Option<Failure>)

  datatype Outcome =
    | ListFailed | LookupFailed(error: Error) | CreateFailed(error: Error) | Created
    | UpdateFailed(error: Error) | NotReady | BadPort
    | NoControlPlane | NoWorkers | Reconciled | Panicked

  datatype Pass = Pass(cloud: CloudState, cluster: ClusterState, outcome: Outcome)

  // ----- desired backends -----

  /** The name a cluster's load balancers are called after. */
  function BaseName(spec: ClusterSpec): string {
    if |spec.lbName| == 0 then spec.name else spec.lbName
  }

  function Label(labels: map<string, string>, key: string): string {
    if key in labels then labels[key] else ""
  }

  predicate Selected(m: MachineInfo, cluster: string, role: string) {
    Label(m.labels, CLUSTER_LABEL) == cluster && role in m.labels
  }

  function FirstOf(kind: AddressType, addresses: seq<NodeAddress>): Option<string> {
    if |addresses| == 0 then None
    else if addresses[0].kind == kind then Some(addresses[0].address)
    else FirstOf(kind, addresses[1..])
  }

  function WithPorts(address: string, ports: seq<string>): (r: seq<string>)
    ensures |r| == |ports|
    ensures forall i | 0 <= i < |ports| :: r[i] == address + ":" + ports[i]
  {
    seq(|ports|, i requires 0 <= i < |ports| => address + ":" + ports[i])
  }

  /** The worker ports, or the default one. */
  function WorkerPorts(spec: ClusterSpec): seq<string> {
    if |spec.workerPorts| == 0 then ["80"] else spec.workerPorts
  }

  function ControlPlaneOf(spec: ClusterSpec, m: MachineInfo): seq<string> {
    if !Selected(m, spec.name, CONTROL_PLANE_LABEL) then []
    else match FirstOf(ExternalIP, m.addresses)
      case None => []
      case Some(a) => [a + ":6443"]
  }

  function WorkersOf(spec: ClusterSpec, m: MachineInfo): seq<string> {
    if !Selected(m, spec.name, DEPLOYMENT_LABEL) then []
    else match FirstOf(InternalIP, m.addresses)
      case None => []
      case Some(a) => WithPorts(a, WorkerPorts(spec))
  }

  /** Appending, in list order, what each machine contributes. */
  function FlatMap(f: MachineInfo -> seq<string>, machines: seq<MachineInfo>): seq<string> {
    if |machines| == 0 then []
    else FlatMap(f, machines[..|machines| - 1]) + f(machines[|machines| - 1])
  }

  function ControlPlaneBackends(spec: ClusterSpec, machines: seq<MachineInfo>): seq<string> {
    FlatMap(m => ControlPlaneOf(spec, m), machines)
  }

  function WorkerBackends(spec: ClusterSpec, machines: seq<MachineInfo>): seq<string> {
    FlatMap(m => WorkersOf(spec, m), machines)
  }

  function OrPlaceholder(backends: seq<string>): (r: seq<string>)
    ensures |r| > 0
  {
    if |backends| == 0 then [PLACEHOLDER] else backends
  }

  function CpSpec(spec: ClusterSpec, machines: seq<MachineInfo>): (r: LbSpec)
    ensures |r.backends| > 0
    ensures r.name == ClusterLoadBalancerName(spec.lbName, spec.name)
  {
    LbSpec(ClusterLoadBalancerName(spec.lbName, spec.name),
           if |spec.ports| == 0 then ["6443"] else spec.ports,
           if |spec.image| == 0 then DEFAULT_IMAGE else spec.image,
           OrPlaceholder(ControlPlaneBackends(spec, machines)), spec.pop, 0)
  }

  function WkSpec(spec: ClusterSpec, machines: seq<MachineInfo>): (r: LbSpec)
    ensures |r.backends| > 0
    ensures r.name == WorkerLoadBalancerName(spec.lbName, spec.name)
  {
    LbSpec(WorkerLoadBalancerName(spec.lbName, spec.name),
           ["80"],
           if |spec.image| == 0 then DEFAULT_IMAGE else spec.image,
           OrPlaceholder(WorkerBackends(spec, machines)), spec.workerPop, 0)
  }

  // ----- the pass -----

  /** Sort both lists; when they differ, look the load balancer up again and update it. */
  function Align(k: CloudState, existing: Lb, desired: LbSpec, find: Option<Failure>, put: Option<Failure>)
    : (CloudState, Result<bool, Error>)
  {
    if Sorted(existing.spec.backends) == Sorted(desired.backends) then (k, Ok(false))
    else
      var (k', r) := Update(k, desired.(name := existing.spec.name, backends := Sorted(desired.backends)), find, put);
      (k', match r case Ok(_) => Ok(true) case Err(e) => Err(e) case Panic => Panic)
  }

  function CreateBoth(k: CloudState, c: ClusterState, cp: LbSpec, wk: LbSpec, a: Calls): Pass {
    var (k1, r1) := Create(k, cp, a.cpCreate);
    if r1.Panic? then Pass(k1, c, Panicked)
    else
      var (k2, r2) := Create(k1, wk, a.wkCreate);
      if r2.Panic? then Pass(k2, c, Panicked)
      else if r1.Err? then Pass(k2, c, CreateFailed(r1.error))
      else if r2.Err? then Pass(k2, c, Panicked)  // the message is read off the nil first error
      else Pass(k2, c, Created)
  }

  /** The tail of the pass, after both load balancers have been aligned. The first backend is
      read through the slice the sort reordered. */
  function Publish(k: CloudState, c: ClusterState, lb: Lb, cp: seq<string>, wk: seq<string>): (p: Pass)
    requires |cp| > 0 && |wk| > 0
    ensures p.cloud == k
    ensures p.cluster == c || p.cluster == c.(endpoint := p.cluster.endpoint, ready := true, lbPublicIP := lb.publicIP)
  {
    if |lb.publicIP| == 0 then Pass(k, c, NotReady)
    else if |lb.spec.port| == 0 then Pass(k, c, Panicked)
    else match Atoi(lb.spec.port[0])
      case None => Pass(k, c, BadPort)
      case Some(port) =>
        var c' := c.(endpoint := Endpoint(lb.publicIP, Int32(port)), ready := true, lbPublicIP := lb.publicIP);
        if cp[0] == PLACEHOLDER then Pass(k, c', NoControlPlane)
        else if wk[0] == PLACEHOLDER then Pass(k, c', NoWorkers)
        else Pass(k, c', Reconciled)
  }

  function AlignBoth(k: CloudState, c: ClusterState, existing: Lb, worker: Result<Lb, Error>,
                     cp: LbSpec, wk: LbSpec, a: Calls): Pass
    requires |cp.backends| > 0 && |wk.backends| > 0 && !worker.Panic?
  {
    var (k1, r1) := Align(k, existing, cp, a.cpRefind, a.cpPut);
    if r1.Panic? then Pass(k1, c, Panicked)
    else if r1.Err? then Pass(k1, c, UpdateFailed(r1.error))
    else if worker.Err? then Pass(k1, c, Panicked)  // the worker load balancer is nil
    else
      var (k2, r2) := Align(k1, worker.value, wk, a.wkRefind, a.wkPut);
      if r2.Panic? then Pass(k2, c, Panicked)
      else if r2.Err? then Pass(k2, c, UpdateFailed(r2.error))
      else
        // an update blanks the status that was read before it
        var lb := if r1.value then existing.(publicIP := "") else existing;
        Publish(k2, c, lb, Sorted(cp.backends), Sorted(wk.backends))
  }

  /** The pass from the first lookup on, for given desired load balancers. */
  function Ensure(k: CloudState, c: ClusterState, cp: LbSpec, wk: LbSpec, a: Calls): Pass
    requires |cp.backends| > 0 && |wk.backends| > 0
  {
    var existing := Get(k, cp.name, a.cpFind, a.cpInst);
    var worker := Get(k, wk.name, a.wkFind, a.wkInst);
    if existing.Panic? || worker.Panic? then Pass(k, c, Panicked)
    else if existing.Err? && worker.Err? then
      if existing.error != WorkloadNotFound then Pass(k, c, LookupFailed(existing.error))
      else if worker.error != WorkloadNotFound then Pass(k, c, LookupFailed(existing.error))
      else CreateBoth(k, c, cp, wk, a)
    else if existing.Err? then Pass(k, c, Panicked)  // the control-plane load balancer is nil
    else AlignBoth(k, c, existing.value, worker, cp, wk, a)
  }

  function Reconcile(k: CloudState, c: ClusterState, spec: ClusterSpec, machines: seq<MachineInfo>, a: Calls): Pass {
    if a.machines.Some? then Pass(k, c.(finalizer := true), ListFailed)
    else Ensure(k, c.(finalizer := true), CpSpec(spec, machines), WkSpec(spec, machines), a)
  }

  /** The answers of the calls of a delete pass. */
  datatype DeleteCalls = DeleteCalls(cpFind: Option<Failure>, cpRead: Option<Failure>, cpPost: Option<Failure>,
                                     wkFind: Option<Failure>, wkRead: Option<Failure>, wkPost: Option<Failure>)

  datatype DeleteOutcome = Removed | DeleteFailed(error: Error) | DeletePanicked

  function ReconcileDelete(k: CloudState, c: ClusterState, spec: ClusterSpec, a: DeleteCalls)
    : (CloudState, ClusterState, DeleteOutcome)
  {
    var (k1, r1) := Delete(k, ClusterLoadBalancerName(spec.lbName, spec.name), a.cpFind, a.cpRead, a.cpPost);
    if r1.Panic? then (k1, c, DeletePanicked)
    else
      var (k2, r2) := Delete(k1, WorkerLoadBalancerName(spec.lbName, spec.name), a.wkFind, a.wkRead, a.wkPost);
      if r2.Panic? then (k2, c, DeletePanicked)
      else if r1.Err? then (k2, c, DeleteFailed(r1.error))
      else if r2.Err? then (k2, c, DeleteFailed(r2.error))
      else (k2, c.(finalizer := false), Removed)
  }
}
