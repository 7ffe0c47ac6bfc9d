/** How a cluster's load balancers come to be, how half a creation wedges the cluster, and when
    a cluster becomes ready. */
module ClusterCreation {
  import opened Wrappers
  import opened Strings
  import opened Sorting
  import opened Naming
  import opened Numbers
  import opened Cloud
  import opened LoadBalancer
  import opened ClusterPass
  import opened ClusterRuns
  import opened Alignment
  import opened ClusterDeletion

  // ----- creation -----

  /** Neither load balancer exists, the names are kept apart, and the cloud gives out fresh ids. */
  predicate Creatable(k: CloudState, spec: ClusterSpec, a: Calls) {
    && |LastSegment(BaseName(spec))| <= 14
    && Lookup(k.workloads, ClusterLoadBalancerName(spec.lbName, spec.name), None) == Err(WorkloadNotFound)
    && Lookup(k.workloads, WorkerLoadBalancerName(spec.lbName, spec.name), None) == Err(WorkloadNotFound)
    && FreshReplies(k, a)
  }

  predicate FreshReplies(k: CloudState, a: Calls) {
    && (a.cpCreate.Accepted? ==> a.cpCreate.id !in k.used)
    && (a.wkCreate.Accepted? ==> a.wkCreate.id !in k.used)
    && (a.cpCreate.Accepted? && a.wkCreate.Accepted? ==> a.cpCreate.id != a.wkCreate.id)
  }

  /** No call before the creates fails. */
  predicate LookupsServed(a: Calls) {
    a.machines == a.cpFind == a.cpInst == a.wkFind == a.wkInst == None
  }

  /** A pass that finds neither load balancer sends both creates, whatever the first returns. */
  lemma CreationSteps(k: CloudState, c: ClusterState, cp: LbSpec, wk: LbSpec, a: Calls)
    requires |cp.backends| > 0 && |wk.backends| > 0
    requires Lookup(k.workloads, cp.name, None) == Lookup(k.workloads, wk.name, None) == Err(WorkloadNotFound)
    requires LookupsServed(a) && FreshReplies(k, a)
    ensures var p, k1 := Ensure(k, c, cp, wk, a), Create(k, cp, a.cpCreate);
            var k2 := Create(k1.0, wk, a.wkCreate);
            && p.cloud == k2.0 && p.cluster == c
            && (a.cpCreate.Accepted? <==> k1.1.Ok?) && (a.cpCreate.Refused? ==> k1.0 == k)
            && (a.wkCreate.Accepted? <==> k2.1.Ok?) && (a.wkCreate.Refused? ==> k2.0 == k1.0)
            && (p.outcome == Created <==> a.cpCreate.Accepted? && a.wkCreate.Accepted?)
            && (p.outcome.CreateFailed? <==> a.cpCreate.Refused?)
            && (p.outcome == Panicked <==> a.cpCreate.Accepted? && a.wkCreate.Refused?)
  {
    hide ShortenName, FindByName, AlignBoth, ParseSpec, CreatedEnv;
    LookupClass(k, cp.name);
    LookupClass(k, wk.name);
  }

  /** What an accepted create does to the lookup of a name that was not there: it is found under
      the id given, with the ports asked for, and no other name is touched. */
  lemma CreateMeaning(k: CloudState, spec: LbSpec, reply: CreateReply)
    requires Create(k, spec, reply).1.Ok?
    requires Lookup(k.workloads, spec.name, None) == Err(WorkloadNotFound)
    ensures reply.Accepted?
    ensures var k' := Create(k, spec, reply).0;
            && Lookup(k'.workloads, spec.name, None).Ok?
            && var w := Lookup(k'.workloads, spec.name, None).value;
            && w.id == reply.id
            && LookupEnv(w.env, ENV_PORT) == Some(Join(spec.port, ','))
            && LookupEnv(w.env, ENV_BACKENDS) == Some(Join(spec.backends, ';'))
  {
    var k' := Create(k, spec, reply).0;
    var short := ShortenName(spec.name, NAME_LIMIT).value;
    LookupMeaning(k.workloads, spec.name, None);
    FindByNameAt(k'.workloads, short, |k.workloads|);
    LookupEnvPair(EnvVar(ENV_PORT, Join(spec.port, ',')), EnvVar(ENV_BACKENDS, Join(spec.backends, ';')));
    hide ShortenName, FindByName, Join;
  }

  /** Exactly one of the two load balancers exists. */
  predicate OneSided(k: CloudState, cpName: string, wkName: string) {
    || (Lookup(k.workloads, cpName, None).Ok? && Lookup(k.workloads, wkName, None) == Err(WorkloadNotFound))
    || (Lookup(k.workloads, cpName, None) == Err(WorkloadNotFound) && Lookup(k.workloads, wkName, None).Ok?)
  }

  /** Creation of both load balancers, exactly: the pass succeeds when both creates are accepted,
      fails when the first is refused, and panics when only the second is. It leaves half a
      cluster behind, panic or not, exactly when one create was accepted and the other refused. */
  lemma HalfCreation(k: CloudState, c: ClusterState, cp: LbSpec, wk: LbSpec, a: Calls)
    requires |cp.backends| > 0 && |wk.backends| > 0
    requires ShortenName(cp.name, NAME_LIMIT) != ShortenName(wk.name, NAME_LIMIT)
    requires Lookup(k.workloads, cp.name, None) == Lookup(k.workloads, wk.name, None) == Err(WorkloadNotFound)
    requires LookupsServed(a) && FreshReplies(k, a)
    ensures var p := Ensure(k, c, cp, wk, a);
            && (p.outcome == Created <==> a.cpCreate.Accepted? && a.wkCreate.Accepted?)
            && (p.outcome.CreateFailed? <==> a.cpCreate.Refused?)
            && (p.outcome == Panicked <==> a.cpCreate.Accepted? && a.wkCreate.Refused?)
            && (OneSided(p.cloud, cp.name, wk.name) <==> a.cpCreate.Accepted? != a.wkCreate.Accepted?)
  {
    CreationSteps(k, c, cp, wk, a);
    var k1 := Create(k, cp, a.cpCreate).0;
    GetOtherAfterCreate(k, cp, a.cpCreate, wk.name);
    GetOtherAfterCreate(k1, wk, a.wkCreate, cp.name);
    hide Ensure, Lookup, Create, ShortenName;
    if a.cpCreate.Accepted? { CreateMeaning(k, cp, a.cpCreate); }
    if a.wkCreate.Accepted? { CreateMeaning(k1, wk, a.wkCreate); }
  }

  /** The first pass over a cloud with neither load balancer, in which both creates are accepted,
      settles the cloud at once iff no desired backend contains ';'. Both load balancers are then
      found under the ids given and with the ports asked for. */
  lemma FirstPassCreates(k: CloudState, c: ClusterState, spec: ClusterSpec, machines: seq<MachineInfo>, a: Calls)
    requires UniqueIds(k.workloads) && Creatable(k, spec, a) && LookupsServed(a)
    requires a.cpCreate.Accepted? && a.wkCreate.Accepted?
    ensures var p, cp, wk := Reconcile(k, c, spec, machines, a), CpSpec(spec, machines), WkSpec(spec, machines);
            && p.outcome == Created && p.cluster == c.(finalizer := true)
            && (Settled(p.cloud, cp, wk) <==> Plain(cp.backends, ';') && Plain(wk.backends, ';'))
            && Lookup(p.cloud.workloads, cp.name, None).Ok?
            && Lookup(p.cloud.workloads, cp.name, None).value.id == a.cpCreate.id
            && LookupEnv(Lookup(p.cloud.workloads, cp.name, None).value.env, ENV_PORT) == Some(Join(cp.port, ','))
  {
    var cp, wk := CpSpec(spec, machines), WkSpec(spec, machines);
    var k1 := Create(k, cp, a.cpCreate).0;
    LoadBalancerNamesSeparated(spec.lbName, spec.name);
    CreationSteps(k, c.(finalizer := true), cp, wk, a);
    hide CpSpec, WkSpec, Ensure, Settled, Plain, ShortenName, ClusterLoadBalancerName, WorkerLoadBalancerName;
    hide Lookup, Create, LookupEnv, LastSegment, UniqueIds;
    EnsureSettles(k, c.(finalizer := true), cp, wk, a);
    CreateMeaning(k, cp, a.cpCreate);
    GetOtherAfterCreate(k1, wk, a.wkCreate, cp.name);
  }

  // ----- half a creation -----

  /** No update makes a workload name appear or disappear. */
  lemma AlignKeepsNames(k: CloudState, existing: Lb, desired: LbSpec, find: Option<Failure>,
                        put: Option<Failure>, name: string)
    requires UniqueIds(k.workloads)
    ensures var k' := Align(k, existing, desired, find, put).0;
            && UniqueIds(k'.workloads) && k'.born == k.born
            && (Lookup(k'.workloads, name, None).Ok? <==> Lookup(k.workloads, name, None).Ok?)
            && (Lookup(k'.workloads, name, None) == Err(WorkloadNotFound) <==>
                Lookup(k.workloads, name, None) == Err(WorkloadNotFound))
  {
    var spec := desired.(name := existing.spec.name, backends := Sorted(desired.backends));
    hide Sorted, ParseSpec, FindByName, UpdatedEnv;
    var w := Lookup(k.workloads, spec.name, find);
    if w.Ok? && ParseSpec(w.value).Ok? && put.None? {
      LookupMeaning(k.workloads, spec.name, find);
      ShortenIdempotent(spec.name, NAME_LIMIT);
      hide ShortenName;
      var w' := w.value.(env := UpdatedEnv(spec.backends, ParseSpec(w.value).value.port));
      LookupAfterReplace(k.workloads, w.value, w', name);
      ReplaceMeaning(k.workloads, w');
    }
  }

  lemma OneSidedPass(k: CloudState, c: ClusterState, cp: LbSpec, wk: LbSpec, a: Calls)
    requires |cp.backends| > 0 && |wk.backends| > 0 && UniqueIds(k.workloads)
    requires OneSided(k, cp.name, wk.name)
    ensures var p := Ensure(k, c, cp, wk, a);
            && OneSided(p.cloud, cp.name, wk.name) && UniqueIds(p.cloud.workloads)
            && p.cloud.born == k.born && p.cluster == c
            && (p.outcome == Panicked || p.outcome.LookupFailed? || p.outcome.UpdateFailed?)
  {
    hide Get, Lookup, Ensure, Align, UniqueIds;
    GetClass(k, cp.name, a.cpFind, a.cpInst);
    GetClass(k, wk.name, a.wkFind, a.wkInst);
    var existing := Get(k, cp.name, a.cpFind, a.cpInst);
    if existing.Ok? {
      AlignKeepsNames(k, existing.value, cp, a.cpRefind, a.cpPut, cp.name);
      AlignKeepsNames(k, existing.value, cp, a.cpRefind, a.cpPut, wk.name);
    }
    EnsureOneSided(k, c, cp, wk, a);
  }

  lemma GetClass(k: CloudState, name: string, find: Option<Failure>, inst: Option<Failure>)
    ensures Get(k, name, find, inst).Ok? ==> Lookup(k.workloads, name, None).Ok?
    ensures Lookup(k.workloads, name, None).Ok? ==> Get(k, name, find, inst) != Err(WorkloadNotFound)
    ensures Lookup(k.workloads, name, None) == Err(WorkloadNotFound) ==> Get(k, name, find, inst).Err?
  {
    hide ShortenName, FindByName, RunningIP, RunningCount;
  }

  /** With one load balancer missing a pass gets no further than the first alignment. */
  lemma EnsureOneSided(k: CloudState, c: ClusterState, cp: LbSpec, wk: LbSpec, a: Calls)
    requires |cp.backends| > 0 && |wk.backends| > 0
    requires var existing, worker := Get(k, cp.name, a.cpFind, a.cpInst), Get(k, wk.name, a.wkFind, a.wkInst);
             && !(existing == worker == Err(WorkloadNotFound))
             && !(existing.Ok? && worker.Ok?)
    ensures var existing := Get(k, cp.name, a.cpFind, a.cpInst);
            var p := Ensure(k, c, cp, wk, a);
            && p.cluster == c
            && (p.outcome == Panicked || p.outcome.LookupFailed? || p.outcome.UpdateFailed?)
            && (p.cloud == k || (existing.Ok? && p.cloud == Align(k, existing.value, cp, a.cpRefind, a.cpPut).0))
  {
    hide Get, Align, CreateBoth, Publish;
  }

  /** From half a cluster no pass gets away: over every run of passes and delete passes for it,
      with any machines, spec edits that keep the names, failures and instance changes, no load
      balancer is ever created, nothing is published, readiness does not change, and the
      finalizer stays. */
  lemma {:induction false} HalfCreationWedges(s: System, spec: ClusterSpec, events: seq<Event>)
    requires Wedged(s, s, spec)
    requires forall e | e in events :: OfCluster(e, spec)
    ensures Wedged(s, Run(s, events), spec)
  {
    if |events| > 0 {
      var n := |events| - 1;
      HalfCreationWedges(s, spec, events[..n]);
      assert events[n] in events;
      WedgedStep(s, Run(s, events[..n]), spec, events[n]);
    }
  }

  /** A pass or delete pass of that cluster, or a change of instances. */
  predicate OfCluster(e: Event, spec: ClusterSpec) {
    || e.InstancesChange?
    || ((e.Normal? || e.Deletion?) && e.spec.lbName == spec.lbName && e.spec.name == spec.name)
  }

  predicate Wedged(s: System, r: System, spec: ClusterSpec) {
    && UniqueIds(r.cloud.workloads)
    && OneSided(r.cloud, ClusterLoadBalancerName(spec.lbName, spec.name),
                WorkerLoadBalancerName(spec.lbName, spec.name))
    && r.cloud.born == s.cloud.born && r.published == s.published
    && r.cluster == s.cluster.(finalizer := r.cluster.finalizer)
    && (s.cluster.finalizer ==> r.cluster.finalizer)
  }

  lemma WedgedStep(s: System, r: System, spec: ClusterSpec, e: Event)
    requires Wedged(s, r, spec) && OfCluster(e, spec)
    ensures Wedged(s, Apply(r, e), spec)
  {
    hide Lookup, UniqueIds, CpSpec, WkSpec, Ensure, ClusterLoadBalancerName, WorkerLoadBalancerName, ReconcileDelete;
    if e.Normal? {
      OneSidedPass(r.cloud, r.cluster.(finalizer := true),
                   CpSpec(e.spec, e.machines), WkSpec(e.spec, e.machines), e.calls);
    }
    if e.Deletion? {
      RemovedMeaning(r.cloud, r.cluster, e.spec, e.deleteCalls);
      DeletionMeaning(r.cloud, r.cluster, e.spec, e.deleteCalls);
    }
  }

  /** From an untouched cluster, after any run: a creating pass in which exactly one of the two
      creates is accepted is the last thing that ever happens to the cluster. No later run of
      its passes creates, publishes, changes readiness or takes the finalizer off. */
  lemma {:induction false} HalfCreationForever(s0: System, before: seq<Event>, e: Event, after: seq<Event>)
    requires Initial(s0) && e.Normal? && LookupsServed(e.calls)
    requires Creatable(Run(s0, before).cloud, e.spec, e.calls)
    requires e.calls.cpCreate.Accepted? != e.calls.wkCreate.Accepted?
    requires forall x | x in after :: OfCluster(x, e.spec)
    ensures var s := Run(s0, before);
            var t := Apply(s, e);
            var r := Run(t, after);
            && t.published == s.published && t.cluster == s.cluster.(finalizer := t.cluster.finalizer)
            && Wedged(t, r, e.spec)
  {
    RunKeepsInvariant(s0, before);
    var s := Run(s0, before);
    var c, cp, wk := s.cluster.(finalizer := true), CpSpec(e.spec, e.machines), WkSpec(e.spec, e.machines);
    LoadBalancerNamesSeparated(e.spec.lbName, e.spec.name);
    assert PortsKept(s.cloud) && cp.name == ClusterLoadBalancerName(e.spec.lbName, e.spec.name)
        && wk.name == WorkerLoadBalancerName(e.spec.lbName, e.spec.name);
    CreationSteps(s.cloud, c, cp, wk, e.calls);
    hide CpSpec, WkSpec, Lookup, Ensure, ShortenName, LastSegment, ClusterLoadBalancerName, WorkerLoadBalancerName;
    hide PortsKept, OneSided, OfCluster;
    HalfCreation(s.cloud, c, cp, wk, e.calls);
    EnsureKeepsPorts(s.cloud, c, cp, wk, e.calls);
    PortsKeptIds(Apply(s, e).cloud);
    HalfCreationWedges(Apply(s, e), e.spec, after);
  }

  lemma PortsKeptIds(k: CloudState)
    requires PortsKept(k)
    ensures UniqueIds(k.workloads)
  {
    hide UniqueIds;
  }

  // ----- readiness -----

  /** What a served pass over a settled cloud publishes, exactly: it touches nothing, and it makes
      the cluster ready, with that address and port, iff the control-plane load balancer has a
      RUNNING instance with an address and its first stored port is a number. */
  lemma SettledPublishes(k: CloudState, c: ClusterState, cp: LbSpec, wk: LbSpec, a: Calls)
    requires |cp.backends| > 0 && |wk.backends| > 0
    requires Settled(k, cp, wk) && NoFaults(a)
    ensures var p, lb := Ensure(k, c, cp, wk, a), Get(k, cp.name, None, None).value;
            && p.cloud == k
            && (Publishes(p.outcome) <==> lb.publicIP != "" && |lb.spec.port| > 0 && Atoi(lb.spec.port[0]).Some?)
            && (Publishes(p.outcome) ==>
                  p.cluster == c.(endpoint := Endpoint(lb.publicIP, Int32(Atoi(lb.spec.port[0]).value)),
                                  ready := true, lbPublicIP := lb.publicIP))
  {
    hide Get, CreateBoth, Align, Sorted, Atoi;
    StoredNeedsNoUpdate(k, cp, None, None);
    StoredNeedsNoUpdate(k, wk, None, None);
  }

  /** What Get reads of a stored load balancer. */
  lemma StoredIsRead(k: CloudState, d: LbSpec)
    requires Stores(k, d)
    ensures Lookup(k.workloads, d.name, None).Ok?
    ensures var w, lb := Lookup(k.workloads, d.name, None).value, Get(k, d.name, None, None).value;
            && lb.publicIP == RunningIP(InstancesOf(k.instances, w.id))
            && lb.spec.port == Pieces(LookupEnv(w.env, ENV_PORT), ',')
  {
    hide Get, Lookup;
    GetMeaning(k, d.name, None, None);
  }

  /** New instances, and another order of the machines, leave what is stored as it is. */
  lemma ReorderedStores(k: CloudState, k': CloudState, spec: ClusterSpec, machines: seq<MachineInfo>,
                        machines': seq<MachineInfo>)
    requires Settled(k, CpSpec(spec, machines), WkSpec(spec, machines))
    requires k'.workloads == k.workloads && multiset(machines') == multiset(machines)
    ensures Settled(k', CpSpec(spec, machines'), WkSpec(spec, machines'))
    ensures CpSpec(spec, machines').name == CpSpec(spec, machines).name
  {
    SameDesired(spec, spec, machines, machines');
    hide CpSpec, WkSpec, Stores, Lookup;
    StoresFrame(k, k', CpSpec(spec, machines), CpSpec(spec, machines'));
    StoresFrame(k, k', WkSpec(spec, machines), WkSpec(spec, machines'));
  }

  lemma ReadyPass(s: System, spec: ClusterSpec, machines: seq<MachineInfo>, b: Calls, port: seq<string>)
    requires Settled(s.cloud, CpSpec(spec, machines), WkSpec(spec, machines)) && NoFaults(b)
    requires var found := Lookup(s.cloud.workloads, CpSpec(spec, machines).name, None);
             && found.Ok? && LookupEnv(found.value.env, ENV_PORT) == Some(Join(port, ','))
             && RunningIP(InstancesOf(s.cloud.instances, found.value.id)) != ""
    requires PublishedPort(port).Some?
    ensures var found := Lookup(s.cloud.workloads, CpSpec(spec, machines).name, None).value;
            var host := RunningIP(InstancesOf(s.cloud.instances, found.id));
            Apply(s, Normal(spec, machines, b, None)).cluster ==
            ClusterState(true, Endpoint(host, PublishedPort(port).value), true, host)
  {
    var cp, wk := CpSpec(spec, machines), WkSpec(spec, machines);
    assert |cp.backends| > 0 && |wk.backends| > 0;
    hide CpSpec, WkSpec, Ensure, Stores, Lookup, Get, RunningIP, Atoi, Split, Join, LookupEnv, ClusterLoadBalancerName;
    SettledPublishes(s.cloud, s.cluster.(finalizer := true), cp, wk, b);
    StoredIsRead(s.cloud, cp);
  }

  /** Cluster progress. Over an untouched cluster with neither load balancer, no ';' in a desired
      backend and a port that parses: a creating pass, instances of the control-plane load
      balancer of which the last RUNNING one has an address, and one served pass over the same
      machines in any order make the cluster ready at that address and port. */
  lemma ReadyInTwoPasses(s0: System, spec: ClusterSpec, machines: seq<MachineInfo>, a: Calls,
                         instances: seq<Instance>, machines': seq<MachineInfo>, b: Calls)
    requires Initial(s0) && Creatable(s0.cloud, spec, a) && LookupsServed(a)
    requires a.cpCreate.Accepted? && a.wkCreate.Accepted?
    requires Plain(CpSpec(spec, machines).backends, ';') && Plain(WkSpec(spec, machines).backends, ';')
    requires PublishedPort(CpSpec(spec, machines).port).Some? && RunningIP(instances) != ""
    requires multiset(machines') == multiset(machines) && NoFaults(b)
    ensures var r := Apply(Apply(Apply(s0, Normal(spec, machines, a, None)), InstancesChange(a.cpCreate.id, instances)),
                           Normal(spec, machines', b, None));
            && r.cluster.ready && r.cluster.finalizer
            && r.cluster.endpoint == Endpoint(RunningIP(instances), PublishedPort(CpSpec(spec, machines).port).value)
  {
    FirstPassCreates(s0.cloud, s0.cluster, spec, machines, a);
    var s1 := Apply(s0, Normal(spec, machines, a, None));
    var s2 := Apply(s1, InstancesChange(a.cpCreate.id, instances));
    assert s1.cluster == s0.cluster.(finalizer := true);
    hide CpSpec, WkSpec, Reconcile, Stores, Lookup, Plain, RunningIP, PublishedPort, Join, LookupEnv, Creatable;
    ReorderedStores(s1.cloud, s2.cloud, spec, machines, machines');
    ReadyPass(s2, spec, machines', b, CpSpec(spec, machines).port);
  }
}
