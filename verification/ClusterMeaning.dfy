/** What a pass of the CoxCluster reconciler does, in terms of the spec, the machines, the stored
    load balancers and the answers of the calls. */
module ClusterMeaning {
  import opened Wrappers
  import opened Strings
  import opened Sorting
  import opened Naming
  import opened Numbers
  import opened Cloud
  import opened LoadBalancer
  import opened ClusterPass
  import opened Backends
  import opened ClusterRuns
  import opened Alignment
  import opened ClusterDeletion
  import opened ClusterCreation
  import opened ClusterPanics

  // ----- what is created -----

  function LbName(prefix: string, spec: ClusterSpec): string {
    prefix + if spec.lbName == "" then spec.name else spec.lbName
  }

  function ImageOf(spec: ClusterSpec): string {
    if spec.image == "" then "erwinvaneyk/nginx-lb:latest" else spec.image
  }

  /** What a creating pass leaves to be read back: under "lb-..." the control-plane load balancer, in
      its own placement and with the configured ports (6443 if there are none), under "lbworker-..."
      the workers', in theirs and with port 80; both with the configured image or the default one,
      and with the backends of the machines or the placeholder. */
  lemma CreatedReadback(k: CloudState, c: ClusterState, spec: ClusterSpec, machines: seq<MachineInfo>, a: Calls)
    requires Creatable(k, spec, a) && LookupsServed(a) && a.cpCreate.Accepted? && a.wkCreate.Accepted?
    ensures var k' := Reconcile(k, c, spec, machines, a).cloud;
            var cp, wk := Get(k', LbName("lb-", spec), None, None), Get(k', LbName("lbworker-", spec), None, None);
            && cp.Ok? && wk.Ok?
            && Some(cp.value.spec.name) == ShortenName(LbName("lb-", spec), 18)
            && Some(wk.value.spec.name) == ShortenName(LbName("lbworker-", spec), 18)
            && cp.value.spec.pop == spec.pop && wk.value.spec.pop == spec.workerPop
            && cp.value.spec.image == wk.value.spec.image == ImageOf(spec)
            && (spec.ports == [] ==> cp.value.spec.port == ["6443"])
            && (spec.ports != [] && (forall p | p in spec.ports :: ',' !in p) ==> cp.value.spec.port == spec.ports)
            && wk.value.spec.port == ["80"]
            && (var b := ControlPlaneBackends(spec, machines);
                && (b == [] ==> cp.value.spec.backends == ["example.com:80"])
                && (b != [] && (forall x | x in b :: ';' !in x) ==> cp.value.spec.backends == b))
            && (var b := WorkerBackends(spec, machines);
                && (b == [] ==> wk.value.spec.backends == ["example.com:80"])
                && (b != [] && (forall x | x in b :: ';' !in x) ==> wk.value.spec.backends == b))
  {
    var cp, wk := CpSpec(spec, machines), WkSpec(spec, machines);
    LoadBalancerNamesSeparated(spec.lbName, spec.name);
    DesiredSpecs(spec, machines);
    hide CpSpec, WkSpec, Ensure, ShortenName, ClusterLoadBalancerName, WorkerLoadBalancerName, Get, LastSegment;
    hide ControlPlaneBackends, WorkerBackends, Lookup, ReadsBack, LbName, ImageOf;
    BothReadBack(k, c.(finalizer := true), cp, wk, a);
    var k' := Reconcile(k, c, spec, machines, a).cloud;
    ReadsBackMeaning(k', cp);
    ReadsBackMeaning(k', wk);
  }

  /** The load balancer d is stored under its shortened name, and every field is read back, the two
      lists exactly when they can be. */
  predicate ReadsBack(k: CloudState, d: LbSpec) {
    var r := Get(k, d.name, None, None);
    && r.Ok?
    && Some(r.value.spec.name) == ShortenName(d.name, NAME_LIMIT)
    && r.value.spec.image == d.image && r.value.spec.pop == d.pop
    && (r.value.spec.port == d.port <==> Plain(d.port, ','))
    && (r.value.spec.backends == d.backends <==> Plain(d.backends, ';'))
  }

  lemma ReadsBackMeaning(k: CloudState, d: LbSpec)
    requires ReadsBack(k, d)
    ensures var r := Get(k, d.name, None, None);
            && r.Ok? && Some(r.value.spec.name) == ShortenName(d.name, 18)
            && r.value.spec.image == d.image && r.value.spec.pop == d.pop
            && (d.port != [] && (forall p | p in d.port :: ',' !in p) ==> r.value.spec.port == d.port)
            && (d.backends != [] && (forall x | x in d.backends :: ';' !in x) ==> r.value.spec.backends == d.backends)
  {
    hide Get, ShortenName;
  }

  lemma BothReadBack(k: CloudState, c: ClusterState, cp: LbSpec, wk: LbSpec, a: Calls)
    requires |cp.backends| > 0 && |wk.backends| > 0
    requires ShortenName(cp.name, NAME_LIMIT) != ShortenName(wk.name, NAME_LIMIT)
    requires Lookup(k.workloads, cp.name, None) == Lookup(k.workloads, wk.name, None) == Err(WorkloadNotFound)
    requires LookupsServed(a) && FreshReplies(k, a) && a.cpCreate.Accepted? && a.wkCreate.Accepted?
    ensures ReadsBack(Ensure(k, c, cp, wk, a).cloud, cp) && ReadsBack(Ensure(k, c, cp, wk, a).cloud, wk)
  {
    CreationSteps(k, c, cp, wk, a);
    var k1 := Create(k, cp, a.cpCreate).0;
    hide Ensure, ShortenName, Get, Create, Lookup, Plain;
    GetAfterCreate(k, cp, a.cpCreate);
    GetOtherAfterCreate(k, cp, a.cpCreate, wk.name);
    GetAfterCreate(k1, wk, a.wkCreate);
    GetOtherAfterCreate(k1, wk, a.wkCreate, cp.name);
  }

  /** The two desired load balancers, field by field. */
  lemma DesiredSpecs(spec: ClusterSpec, machines: seq<MachineInfo>)
    ensures var cp, wk := CpSpec(spec, machines), WkSpec(spec, machines);
            var cpb, wkb := ControlPlaneBackends(spec, machines), WorkerBackends(spec, machines);
            && cp.name == ClusterLoadBalancerName(spec.lbName, spec.name) == LbName("lb-", spec)
            && wk.name == WorkerLoadBalancerName(spec.lbName, spec.name) == LbName("lbworker-", spec)
            && cp.image == wk.image == ImageOf(spec) && cp.pop == spec.pop && wk.pop == spec.workerPop
            && cp.port == (if spec.ports == [] then ["6443"] else spec.ports) && wk.port == ["80"]
            && cp.backends == (if cpb == [] then ["example.com:80"] else cpb)
            && wk.backends == (if wkb == [] then ["example.com:80"] else wkb)
  {
    hide ControlPlaneBackends, WorkerBackends;
  }

  // ----- how a pass ends -----

  /** A machine of the cluster's control plane that has an external address. */
  predicate IsApiserver(spec: ClusterSpec, m: MachineInfo) {
    && Labelled(m, spec.name) && "cluster.x-k8s.io/control-plane" in m.labels
    && exists i | 0 <= i < |m.addresses| :: m.addresses[i].kind == ExternalIP
  }

  /** The placeholder string is a worker backend, and none is smaller. */
  predicate PlaceholderFirst(backends: seq<string>) {
    "example.com:80" in backends && forall x | x in backends :: Leq("example.com:80", x)
  }

  lemma ApiserverMeaning(spec: ClusterSpec, m: MachineInfo)
    ensures IsControlPlane(spec, m) <==> IsApiserver(spec, m)
  {
    FirstOfMeaning(ExternalIP, m.addresses);
    hide FirstOf;
  }

  /** A pass that publishes answers that there is no apiserver exactly when no control-plane machine of
      the cluster has an external address; otherwise that there is no worker exactly when there is
      no worker backend, or the placeholder string is one and the least; otherwise success. */
  lemma PublishedOutcome(k: CloudState, c: ClusterState, spec: ClusterSpec, machines: seq<MachineInfo>, a: Calls)
    requires Publishes(Reconcile(k, c, spec, machines, a).outcome)
    ensures Reconcile(k, c, spec, machines, a).outcome ==
            if forall m | m in machines :: !IsApiserver(spec, m) then NoControlPlane
            else if WorkerBackends(spec, machines) == [] || PlaceholderFirst(WorkerBackends(spec, machines))
            then NoWorkers
            else Reconciled
  {
    var cp, wk := CpSpec(spec, machines), WkSpec(spec, machines);
    ControlPlanePlaceholder(spec, machines);
    WorkerPlaceholder(spec, machines);
    forall m ensures IsControlPlane(spec, m) <==> IsApiserver(spec, m) {
      ApiserverMeaning(spec, m);
    }
    assert |cp.backends| > 0 && |wk.backends| > 0;
    hide CpSpec, WkSpec, Ensure, Sorted, IsControlPlane, IsApiserver, Publishes, Leq, WorkerBackends;
    FirstBackends(k, c.(finalizer := true), cp, wk, a);
  }

  /** The three publishing outcomes are told apart by the first backends after the sort. */
  lemma FirstBackends(k: CloudState, c: ClusterState, cp: LbSpec, wk: LbSpec, a: Calls)
    requires |cp.backends| > 0 && |wk.backends| > 0
    requires Publishes(Ensure(k, c, cp, wk, a).outcome)
    ensures Ensure(k, c, cp, wk, a).outcome ==
            if Sorted(cp.backends)[0] == "example.com:80" then NoControlPlane
            else if Sorted(wk.backends)[0] == "example.com:80" then NoWorkers
            else Reconciled
  {
    hide Get, Align, Create, Sorted, Atoi;
  }

  /** The answer of updating a load balancer whose stored backends are, or are not, the desired ones. */
  function UpdateFault(same: bool, find: Option<Failure>, put: Option<Failure>): Option<Failure> {
    if same then None else if find.Some? then find else put
  }

  /** How a pass ends that could read both load balancers, completely: an update is only attempted for
      differing lists, the first failing call decides the error, an update of the control plane
      makes the pass wait, and so does a missing address. */
  lemma ServedOutcomes(k: CloudState, c: ClusterState, cp: LbSpec, wk: LbSpec, a: Calls)
    requires UniqueIds(k.workloads) && |cp.backends| > 0 && |wk.backends| > 0
    requires Get(k, cp.name, a.cpFind, a.cpInst).Ok? && Get(k, wk.name, a.wkFind, a.wkInst).Ok?
    ensures var p := Ensure(k, c, cp, wk, a);
            var lb, worker := Get(k, cp.name, None, None).value, Get(k, wk.name, None, None).value;
            var first := UpdateFault(SameBackends(lb, cp), a.cpRefind, a.cpPut);
            var second := UpdateFault(SameBackends(worker, wk), a.wkRefind, a.wkPut);
            if first.Some? then p.outcome == UpdateFailed(Request(first.value))
            else if second.Some? then p.outcome == UpdateFailed(Request(second.value))
            else if !SameBackends(lb, cp) || lb.publicIP == "" then p.outcome == NotReady
            else if lb.spec.port == [] then p.outcome == Panicked
            else if Atoi(lb.spec.port[0]).None? then p.outcome == BadPort
            else && Publishes(p.outcome)
                 && p.cluster == c.(endpoint := Endpoint(lb.publicIP, Int32(Atoi(lb.spec.port[0]).value)),
                                    ready := true, lbPublicIP := lb.publicIP)
  {
    hide Get, Align, CreateBoth, Sorted, Atoi, SameBackends, UniqueIds;
    OkMeaning(k, cp.name, a.cpFind, a.cpInst);
    OkMeaning(k, wk.name, a.wkFind, a.wkInst);
    var lb, worker := Get(k, cp.name, None, None).value, Get(k, wk.name, None, None).value;
    AlignAnswer(k, cp.name, lb, cp, a.cpRefind, a.cpPut);
    var first := Align(k, lb, cp, a.cpRefind, a.cpPut);
    if first.1.Ok? {
      WorkerStillThere(k, cp, wk, a.cpRefind, a.cpPut);
      AlignAnswer(first.0, wk.name, worker, wk, a.wkRefind, a.wkPut);
    }
  }

  lemma AlignAnswer(k: CloudState, name: string, read: Lb, desired: LbSpec, find: Option<Failure>, put: Option<Failure>)
    requires Get(k, name, None, None).Ok? && Get(k, name, None, None).value.spec.name == read.spec.name
    ensures var fault := UpdateFault(SameBackends(read, desired), find, put);
            Align(k, read, desired, find, put).1 ==
            if fault.Some? then Err(Request(fault.value)) else Ok(!SameBackends(read, desired))
  {
    SortedEqualIffSameMultiset(read.spec.backends, desired.backends);
    UpdateAnswer(k, name, desired.(name := read.spec.name, backends := Sorted(desired.backends)), find, put);
    hide Get, Sorted, Update;
  }

  lemma UpdateAnswer(k: CloudState, name: string, spec: LbSpec, find: Option<Failure>, put: Option<Failure>)
    requires Get(k, name, None, None).Ok? && spec.name == Get(k, name, None, None).value.spec.name
    ensures Update(k, spec, find, put).1 ==
            if find.Some? then Err(Request(find.value)) else if put.Some? then Err(Request(put.value)) else Ok(())
  {
    UpdateOutcome(k, name, spec, find, put);
    GetMeaning(k, name, None, None);
    LookupMeaning(k.workloads, name, None);
    LookupAgain(k.workloads, name, None);
    ShortenIdempotent(name, NAME_LIMIT);
    hide ShortenName, FindByName, Split, RunningIP, RunningCount, LookupEnv, UpdatedEnv;
  }

  /** What a lookup of a load balancer answers: the failure of a call, the missing workload, the
      workload that is no load balancer, or the load balancer. */
  lemma GetAnswer(k: CloudState, name: string, find: Option<Failure>, inst: Option<Failure>)
    requires ShortenName(name, NAME_LIMIT).Some?
    ensures var r, short := Get(k, name, find, inst), ShortenName(name, NAME_LIMIT).value;
            if find.Some? then r == Err(Request(find.value))
            else if forall w | w in k.workloads :: w.name != short then r == Err(WorkloadNotFound)
            else if inst.Some? then r == Err(Request(inst.value))
            else && Lookup(k.workloads, name, None).Ok?
                 && (r == Err(NotALoadBalancer) <==>
                       LookupEnv(Lookup(k.workloads, name, None).value.env, "LB_BACKENDS").None?)
  {
    LookupMeaning(k.workloads, name, None);
    LookupClass(k, name);
    hide ShortenName, FindByName, Split, RunningIP, RunningCount, LookupEnv;
  }

  /** A pass that can read neither load balancer creates both if both are missing, and otherwise
      reports the failure of the first lookup; a failed list of machines ends it before. */
  lemma UnreadOutcomes(k: CloudState, c: ClusterState, spec: ClusterSpec, machines: seq<MachineInfo>, a: Calls)
    ensures var p := Reconcile(k, c, spec, machines, a);
            && (a.machines.Some? <==> p.outcome == ListFailed)
            && (a.machines.Some? ==> p.cloud == k && p.cluster == c.(finalizer := true))
            && p.cluster.finalizer
            && var cp := Get(k, LbName("lb-", spec), a.cpFind, a.cpInst);
            && var wk := Get(k, LbName("lbworker-", spec), a.wkFind, a.wkInst);
            && (a.machines.None? && cp.Err? && wk.Err? && !(cp == wk == Err(WorkloadNotFound)) ==>
                  p.outcome == LookupFailed(cp.error) && p.cloud == k)
            && (p.outcome.LookupFailed? ==> cp.Err? && wk.Err? && !(cp == wk == Err(WorkloadNotFound)))
  {
    var cp, wk := CpSpec(spec, machines), WkSpec(spec, machines);
    DesiredSpecs(spec, machines);
    assert |cp.backends| > 0 && |wk.backends| > 0;
    hide CpSpec, WkSpec, Get, Ensure, LbName, ImageOf, ControlPlaneBackends, WorkerBackends;
    hide ClusterLoadBalancerName, WorkerLoadBalancerName;
    UnreadEnsure(k, c.(finalizer := true), cp, wk, a);
    EnsureKeepsFinalizer(k, c.(finalizer := true), cp, wk, a);
  }

  lemma UnreadEnsure(k: CloudState, c: ClusterState, cp: LbSpec, wk: LbSpec, a: Calls)
    requires |cp.backends| > 0 && |wk.backends| > 0
    ensures var p := Ensure(k, c, cp, wk, a);
            var x, y := Get(k, cp.name, a.cpFind, a.cpInst), Get(k, wk.name, a.wkFind, a.wkInst);
            && p.outcome != ListFailed
            && (x.Err? && y.Err? && !(x == y == Err(WorkloadNotFound)) ==>
                  p.outcome == LookupFailed(x.error) && p.cloud == k)
            && (p.outcome.LookupFailed? ==> x.Err? && y.Err? && !(x == y == Err(WorkloadNotFound)))
  {
    hide Get, Align, Create, Sorted, Atoi;
  }

  /** What a create answers; only an accepted one changes the cloud. */
  lemma CreateAnswer(k: CloudState, spec: LbSpec, reply: CreateReply)
    ensures var r := Create(k, spec, reply);
            && (ShortenName(spec.name, 18).None? ==> r == (k, Panic))
            && (ShortenName(spec.name, 18).Some? && reply.Refused? ==> r == (k, Err(Request(reply.failure))))
            && (ShortenName(spec.name, 18).Some? && reply.Accepted? && reply.id in k.used ==>
                  r == (k, Err(Request(Wire))))
            && (ShortenName(spec.name, 18).Some? && reply.Accepted? && reply.id !in k.used ==>
                  && r.1 == Ok(()) && |r.0.workloads| == |k.workloads| + 1
                  && r.0.workloads[..|k.workloads|] == k.workloads)
  {
    hide ShortenName, CreatedEnv;
  }

  /** A refused first create is what a creating pass reports, whatever becomes of the second. */
  lemma CreateFailure(k: CloudState, c: ClusterState, cp: LbSpec, wk: LbSpec, a: Calls)
    requires |cp.backends| > 0 && |wk.backends| > 0
    requires Lookup(k.workloads, cp.name, None) == Lookup(k.workloads, wk.name, None) == Err(WorkloadNotFound)
    requires LookupsServed(a) && FreshReplies(k, a)
    ensures a.cpCreate.Refused? ==> Ensure(k, c, cp, wk, a).outcome == CreateFailed(Request(a.cpCreate.failure))
  {
    LookupClass(k, cp.name);
    LookupClass(k, wk.name);
    CreateAnswer(k, cp, a.cpCreate);
    CreateAnswer(k, wk, a.wkCreate);
    hide ShortenName, FindByName, AlignBoth, ParseSpec, Create;
  }

  // ----- how a deletion ends -----

  /** What the delete of one load balancer answers. */
  lemma DeleteAnswer(k: CloudState, name: string, find: Option<Failure>, read: Option<Failure>, post: Option<Failure>)
    ensures var r, short := Delete(k, name, find, read, post).1, ShortenName(name, NAME_LIMIT);
            r == if find.Some? then Err(Request(find.value))
                 else if short.None? then Panic
                 else if forall w | w in k.workloads :: w.name != short.value then Err(WorkloadNotFound)
                 else if read.Some? then Err(Request(read.value))
                 else if post.Some? then Err(Request(post.value))
                 else Ok(())
  {
    LookupMeaning(k.workloads, name, find);
    hide ShortenName, FindByName;
  }

  /** DeleteWorkload reads the workload first: one that is not listed is a 404, and nothing is posted. */
  lemma DeleteWorkloadAnswer(k: CloudState, id: string, read: Option<Failure>, post: Option<Failure>)
    ensures DeleteWorkload(k, id, read, post) ==
            if read.Some? then (k, Err(Request(read.value)))
            else if forall w | w in k.workloads :: w.id != id then (k, Err(Request(Http(404))))
            else if post.Some? then (k, Err(Request(post.value)))
            else (k.(doomed := k.doomed + {id}), Ok(()))
  {
    assert id in Ids(k.workloads) <==> exists w | w in k.workloads :: w.id == id;
    hide Ids;
  }

  /** A delete pass sends both deletes, in order, and reports the first that failed. */
  lemma DeletionOutcome(k: CloudState, c: ClusterState, spec: ClusterSpec, a: DeleteCalls)
    ensures var o := ReconcileDelete(k, c, spec, a).2;
            var cp := Delete(k, LbName("lb-", spec), a.cpFind, a.cpRead, a.cpPost);
            var wk := Delete(cp.0, LbName("lbworker-", spec), a.wkFind, a.wkRead, a.wkPost);
            o == if cp.1.Panic? || wk.1.Panic? then DeletePanicked
                 else if cp.1.Err? then DeleteFailed(cp.1.error)
                 else if wk.1.Err? then DeleteFailed(wk.1.error)
                 else Removed
  {
    DesiredSpecs(spec, []);
    hide Delete, ClusterLoadBalancerName, WorkerLoadBalancerName, LbName, ImageOf, CpSpec, WkSpec;
  }
}
