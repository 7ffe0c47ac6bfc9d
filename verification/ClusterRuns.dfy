/** Runs of the CoxCluster reconciler: passes with any machines, any spec edits and any failing
    calls, between which instances change and workloads come and go. */
module ClusterRuns {
  import opened Wrappers
  import opened Strings
  import opened Sorting
  import opened Naming
  import opened Numbers
  import opened Cloud
  import opened LoadBalancer
  import opened ClusterPass

  /** One write of the control-plane endpoint: which load balancer it came from, what was
      written, and the instances that load balancer had when it was read. */
  datatype Publication = Publication(id: string, endpoint: Endpoint, instances: seq<Instance>)

  datatype System = System(cloud: CloudState, cluster: ClusterState, published: seq<Publication>)

  /** `close` is the answer to the patch that ends a pass; a failed one persists nothing. */
  datatype Event =
    | Normal(spec: ClusterSpec, machines: seq<MachineInfo>, calls: Calls, close: Option<Failure>)
    | Deletion(spec: ClusterSpec, deleteCalls: DeleteCalls, close: Option<Failure>)
    | InstancesChange(id: string, instances: seq<Instance>)
    | Appears(w: Workload)
    | Vanishes(id: string)

  predicate Publishes(o: Outcome) {
    o == NoControlPlane || o == NoWorkers || o == Reconciled
  }

  function Apply(s: System, e: Event): System {
    match e
    case Normal(spec, machines, calls, close) =>
      var p := Reconcile(s.cloud, s.cluster, spec, machines, calls);
      var found := Lookup(s.cloud.workloads, ClusterLoadBalancerName(spec.lbName, spec.name), None);
      if close.Some? then s.(cloud := p.cloud)
      else
        System(p.cloud, p.cluster,
               if Publishes(p.outcome) && found.Ok?
               then s.published + [Publication(found.value.id, p.cluster.endpoint,
                                               InstancesOf(s.cloud.instances, found.value.id))]
               else s.published)
    case Deletion(spec, calls, close) =>
      var (k, c, _) := ReconcileDelete(s.cloud, s.cluster, spec, calls);
      if close.Some? then s.(cloud := k) else s.(cloud := k, cluster := c)
    case InstancesChange(id, instances) =>
      s.(cloud := s.cloud.(instances := s.cloud.instances[id := instances]))
    case Appears(w) =>
      if w.id in s.cloud.used then s
      else s.(cloud := s.cloud.(workloads := s.cloud.workloads + [w], used := s.cloud.used + {w.id}))
    case Vanishes(id) =>
      s.(cloud := s.cloud.(workloads := Remove(s.cloud.workloads, id)))
  }

  function Run(s: System, events: seq<Event>): System {
    if |events| == 0 then s else Apply(Run(s, events[..|events| - 1]), events[|events| - 1])
  }

  /** A CoxCluster no pass has touched, over a cloud this provider has created nothing in. */
  predicate Initial(s: System) {
    && UniqueIds(s.cloud.workloads)
    && Ids(s.cloud.workloads) <= s.cloud.used
    && s.cloud.born == map[]
    && s.cluster == ClusterState(false, Endpoint("", 0), false, "")
    && s.published == []
  }

  // ----- what every pass keeps -----

  /** Ids are never shared, and every load balancer of this provider still stores the ports it
      was created with. */
  predicate PortsKept(k: CloudState) {
    && UniqueIds(k.workloads)
    && (forall w | w in k.workloads :: w.id in k.used)
    && (forall id | id in k.born :: id in k.used)
    && (forall w | w in k.workloads && w.id in k.born ::
          LookupEnv(w.env, ENV_PORT) == Some(Join(k.born[w.id], ',')))
  }

  lemma PortsKeptMeaning(k: CloudState)
    requires PortsKept(k)
    ensures forall w | w in k.workloads ::
              w.id in k.used && (w.id in k.born ==> LookupEnv(w.env, ENV_PORT) == Some(Join(k.born[w.id], ',')))
  {
  }

  /** The port number a list of configured ports publishes. */
  function PublishedPort(ports: seq<string>): Option<int> {
    match Atoi(Split(Join(ports, ','), ',')[0])
    case None => None
    case Some(v) => Some(Int32(v))
  }

  /** Later clouds remember what earlier ones gave out. */
  predicate Remembers(k: CloudState, k': CloudState) {
    && k.used <= k'.used
    && (forall id | id in k.born :: id in k'.born && k'.born[id] == k.born[id])
    && (forall id | id in k'.born && id !in k.born :: id !in k.used)
  }

  lemma CreateKeepsPorts(k: CloudState, spec: LbSpec, reply: CreateReply)
    requires PortsKept(k)
    ensures PortsKept(Create(k, spec, reply).0) && Remembers(k, Create(k, spec, reply).0)
  {
    if Create(k, spec, reply).1.Ok? {
      LookupEnvPair(EnvVar(ENV_PORT, Join(spec.port, ',')), EnvVar(ENV_BACKENDS, Join(spec.backends, ';')));
    }
  }

  lemma UpdateKeepsPorts(k: CloudState, spec: LbSpec, find: Option<Failure>, put: Option<Failure>)
    requires PortsKept(k)
    ensures PortsKept(Update(k, spec, find, put).0) && Remembers(k, Update(k, spec, find, put).0)
    ensures Update(k, spec, find, put).0.born == k.born
  {
    hide ShortenName, LookupEnv, FindByName, PortsKept, CreatedEnv;
    var (k', r) := Update(k, spec, find, put);
    if r.Ok? {
      var w := Lookup(k.workloads, spec.name, find).value;
      LookupMeaning(k.workloads, spec.name, find);
      var port := ParseSpec(w).value.port;
      LookupEnvPair(EnvVar(ENV_BACKENDS, Join(spec.backends, ';')), EnvVar(ENV_PORT, Join(port, ',')));
      if |port| > 0 { PortsReencode(w); }
      var short := ShortenName(w.name, NAME_LIMIT).value;
      ReplaceKeepsPorts(k, w, w.(name := short, env := UpdatedEnv(spec.backends, port)), k.updates + [w.id]);
    }
  }

  lemma ReplaceKeepsPorts(k: CloudState, w: Workload, w': Workload, updates: seq<string>)
    requires PortsKept(k) && w in k.workloads && w'.id == w.id
    requires LookupEnv(w.env, ENV_PORT).Some? ==> LookupEnv(w'.env, ENV_PORT) == LookupEnv(w.env, ENV_PORT)
    ensures PortsKept(k.(workloads := Replace(k.workloads, w'), updates := updates))
  {
    hide LookupEnv, Replace;
    ReplaceMeaning(k.workloads, w');
  }

  lemma AlignKeepsPorts(k: CloudState, existing: Lb, desired: LbSpec, find: Option<Failure>, put: Option<Failure>)
    requires PortsKept(k)
    ensures var k' := Align(k, existing, desired, find, put).0;
            PortsKept(k') && Remembers(k, k') && k'.born == k.born
  {
    UpdateKeepsPorts(k, desired.(name := existing.spec.name, backends := Sorted(desired.backends)), find, put);
  }

  lemma EnsureKeepsPorts(k: CloudState, c: ClusterState, cp: LbSpec, wk: LbSpec, a: Calls)
    requires |cp.backends| > 0 && |wk.backends| > 0
    requires PortsKept(k)
    ensures var p := Ensure(k, c, cp, wk, a);
            PortsKept(p.cloud) && Remembers(k, p.cloud)
  {
    hide Get, Create, Align, Sorted, Atoi, PortsKept;
    var existing := Get(k, cp.name, a.cpFind, a.cpInst);
    var worker := Get(k, wk.name, a.wkFind, a.wkInst);
    if existing.Ok? && !worker.Panic? {
      var k1 := Align(k, existing.value, cp, a.cpRefind, a.cpPut).0;
      AlignKeepsPorts(k, existing.value, cp, a.cpRefind, a.cpPut);
      if worker.Ok? {
        AlignKeepsPorts(k1, worker.value, wk, a.wkRefind, a.wkPut);
      }
    } else {
      CreateKeepsPorts(k, cp, a.cpCreate);
      CreateKeepsPorts(Create(k, cp, a.cpCreate).0, wk, a.wkCreate);
    }
  }

  /** What a publishing pass writes: the address of the last RUNNING instance and the first
      port stored in the control-plane load balancer it looked up. */
  lemma PublicationMeaning(k: CloudState, c: ClusterState, cp: LbSpec, wk: LbSpec, a: Calls)
    requires |cp.backends| > 0 && |wk.backends| > 0
    requires PortsKept(k)
    requires Publishes(Ensure(k, c, cp, wk, a).outcome)
    ensures var p, found := Ensure(k, c, cp, wk, a), Lookup(k.workloads, cp.name, None);
            && found.Ok? && found.value.id in k.used
            && p.cluster.ready && p.cluster.lbPublicIP == p.cluster.endpoint.host
            && p.cluster.endpoint.host == RunningIP(InstancesOf(k.instances, found.value.id))
            && p.cluster.endpoint.host != ""
            && (found.value.id in k.born ==> Some(p.cluster.endpoint.port) == PublishedPort(k.born[found.value.id]))
  {
    hide Create, Align, Sorted, Atoi, Get, Split, Join, RunningIP, LookupEnv, Lookup, PortsKept;
    PortsKeptMeaning(k);
    LookupMeaning(k.workloads, cp.name, None);
    GetMeaning(k, cp.name, a.cpFind, a.cpInst);
  }

  lemma GetMeaning(k: CloudState, name: string, find: Option<Failure>, inst: Option<Failure>)
    requires Get(k, name, find, inst).Ok?
    ensures var r, found := Get(k, name, find, inst), Lookup(k.workloads, name, None);
            && found.Ok?
            && find == inst == None
            && r.value.publicIP == RunningIP(InstancesOf(k.instances, found.value.id))
            && r.value.spec.name == found.value.name
            && r.value.spec.port == Pieces(LookupEnv(found.value.env, ENV_PORT), ',')
            && LookupEnv(found.value.env, ENV_BACKENDS).Some?
            && r.value.spec.backends == Pieces(LookupEnv(found.value.env, ENV_BACKENDS), ';')
  {
  }

  /** A pass that publishes nothing leaves the endpoint and the ready flag as they were. */
  lemma SilenceMeaning(k: CloudState, c: ClusterState, cp: LbSpec, wk: LbSpec, a: Calls)
    requires |cp.backends| > 0 && |wk.backends| > 0
    requires !Publishes(Ensure(k, c, cp, wk, a).outcome)
    ensures Ensure(k, c, cp, wk, a).cluster == c
  {
    hide Get, Create, Align, Sorted, Atoi;
  }

  predicate Invariant(s: System) {
    && PortsKept(s.cloud)
    && (forall p | p in s.published ::
          && p.endpoint.host == RunningIP(p.instances)
          && p.endpoint.host != ""
          && p.id in s.cloud.used
          && (p.id in s.cloud.born ==> Some(p.endpoint.port) == PublishedPort(s.cloud.born[p.id])))
    && (s.cluster.ready ==>
          && |s.published| > 0
          && s.cluster.endpoint == s.published[|s.published| - 1].endpoint
          && s.cluster.lbPublicIP == s.cluster.endpoint.host)
  }

  lemma NormalKeepsInvariant(s: System, e: Event)
    requires Invariant(s) && e.Normal?
    ensures Invariant(Apply(s, e))
  {
    hide Ensure, PortsKept, PublishedPort, RunningIP, Lookup;
    var c := s.cluster.(finalizer := true);
    var cp, wk := CpSpec(e.spec, e.machines), WkSpec(e.spec, e.machines);
    assert cp.name == ClusterLoadBalancerName(e.spec.lbName, e.spec.name) && |cp.backends| > 0 && |wk.backends| > 0;
    hide CpSpec, WkSpec, ClusterLoadBalancerName;
    if e.calls.machines.None? {
      EnsureKeepsPorts(s.cloud, c, cp, wk, e.calls);
      if Publishes(Ensure(s.cloud, c, cp, wk, e.calls).outcome) {
        PublicationMeaning(s.cloud, c, cp, wk, e.calls);
      } else {
        SilenceMeaning(s.cloud, c, cp, wk, e.calls);
      }
    }
  }

  /** A delete pass changes nothing but the finalizer and the accepted deletes. */
  lemma DeletionMeaning(k: CloudState, c: ClusterState, spec: ClusterSpec, a: DeleteCalls)
    ensures var (k', c', o) := ReconcileDelete(k, c, spec, a);
            && k' == k.(doomed := k'.doomed) && k.doomed <= k'.doomed
            && c' == c.(finalizer := c'.finalizer)
            && (o != Removed ==> c' == c)
  {
    hide Lookup, Ids, ClusterLoadBalancerName, WorkerLoadBalancerName;
  }

  lemma ApplyKeepsInvariant(s: System, e: Event)
    requires Invariant(s)
    ensures Invariant(Apply(s, e))
  {
    match e
    case Normal(_, _, _, _) =>
      hide Invariant, Apply;
      NormalKeepsInvariant(s, e);
    case Deletion(spec, calls, _) =>
      hide RunningIP, PublishedPort, LookupEnv, UniqueIds, ReconcileDelete;
      DeletionMeaning(s.cloud, s.cluster, spec, calls);
    case _ =>
      hide RunningIP, PublishedPort, LookupEnv, Join;
  }

  lemma {:induction false} RunKeepsInvariant(s: System, events: seq<Event>)
    requires Initial(s)
    ensures Invariant(Run(s, events))
  {
    if |events| > 0 {
      RunKeepsInvariant(s, events[..|events| - 1]);
      ApplyKeepsInvariant(Run(s, events[..|events| - 1]), events[|events| - 1]);
    }
  }

  /** A spec without ports asks for the default port list, which is published as 6443. */
  lemma DefaultPort()
    ensures PublishedPort(["6443"]) == Some(6443)
    ensures forall spec: ClusterSpec, machines :: |spec.ports| == 0 ==> CpSpec(spec, machines).port == ["6443"]
  {
    SplitJoinHead(["6443"], ',');
    SplitPlain("6443", ',');
    ParsedDefault();
  }

  /** Over every run, with arbitrary later edits of the spec's ports and of the machines: two
      publications from one load balancer of this provider carry the same port, the first one
      it was created with (as Atoi and a 32-bit port read it), and 6443 if that list
      was the default one. */
  lemma {:induction false} EndpointPortStable(s: System, events: seq<Event>)
    requires Initial(s)
    ensures var r := Run(s, events);
            && (forall p, q | p in r.published && q in r.published && p.id == q.id && p.id in r.cloud.born ::
                  p.endpoint.port == q.endpoint.port)
            && (forall p | p in r.published && p.id in r.cloud.born ::
                  var ports := r.cloud.born[p.id];
                  |ports| > 0 && ',' !in ports[0] ==>
                    Atoi(ports[0]).Some? && p.endpoint.port == Int32(Atoi(ports[0]).value))
            && (forall p | p in r.published && p.id in r.cloud.born ::
                  r.cloud.born[p.id] == ["6443"] ==> p.endpoint.port == 6443)
  {
    RunKeepsInvariant(s, events);
    var r := Run(s, events);
    DefaultPort();
    forall p | p in r.published && p.id in r.cloud.born && |r.cloud.born[p.id]| > 0 && ',' !in r.cloud.born[p.id][0]
      ensures Atoi(r.cloud.born[p.id][0]).Some? && p.endpoint.port == Int32(Atoi(r.cloud.born[p.id][0]).value)
    {
      SplitJoinHead(r.cloud.born[p.id], ',');
      SplitPlain(r.cloud.born[p.id][0], ',');
    }
  }

  /** Over every run: a ready cluster has the endpoint of the last publication, and its host was
      the public address of the last RUNNING instance of that load balancer when it was read. */
  lemma {:induction false} ReadyMeaning(s: System, events: seq<Event>)
    requires Initial(s) && Run(s, events).cluster.ready
    ensures var r := Run(s, events);
            && |r.published| > 0
            && var p := r.published[|r.published| - 1];
            && r.cluster.endpoint == p.endpoint
            && r.cluster.lbPublicIP == p.endpoint.host != ""
            && exists i | 0 <= i < |p.instances| ::
                 && p.instances[i].status == RUNNING
                 && p.endpoint.host == p.instances[i].publicIP
                 && forall j | i < j < |p.instances| :: p.instances[j].status != RUNNING
  {
    RunKeepsInvariant(s, events);
    var r := Run(s, events);
    RunningIPMeaning(r.published[|r.published| - 1].instances);
  }

  /** Readiness is never withdrawn: along every continuation a ready cluster stays ready. */
  lemma {:induction false} ReadyStays(s: System, events: seq<Event>)
    requires s.cluster.ready
    ensures Run(s, events).cluster.ready
  {
    if |events| > 0 {
      ReadyStaysStep(Run(s, events[..|events| - 1]), events[|events| - 1]);
      ReadyStays(s, events[..|events| - 1]);
    }
  }

  lemma ReadyStaysStep(s: System, e: Event)
    ensures s.cluster.ready ==> Apply(s, e).cluster.ready
  {
    hide Get, Create, Align, Sorted, Atoi, Delete, CpSpec, WkSpec, Lookup, ClusterLoadBalancerName,
         WorkerLoadBalancerName;
  }
}
