/** The load-balancer loop settles: once a pass has brought both load balancers to the desired
    backends, later passes over the same machines leave the cloud alone. */
module Alignment {
  import opened Wrappers
  import opened Strings
  import opened Sorting
  import opened Naming
  import opened Cloud
  import opened LoadBalancer
  import opened ClusterPass
  import opened Backends
  import opened ClusterRuns

  /** An update is issued exactly when the stored and the desired backends differ as multisets;
      it then hits the workload that was compared, and otherwise nothing changes. */
  lemma UpdateDecision(k: CloudState, name: string, desired: LbSpec)
    requires Get(k, name, None, None).Ok?
    ensures var existing := Get(k, name, None, None).value;
            var (k', r) := Align(k, existing, desired, None, None);
            var w := Lookup(k.workloads, name, None).value;
            var w' := Updated(w, Sorted(desired.backends), existing.spec.port);
            && r == Ok(multiset(existing.spec.backends) != multiset(desired.backends))
            && k' == if multiset(existing.spec.backends) == multiset(desired.backends) then k
                     else k.(workloads := Replace(k.workloads, w'), updates := k.updates + [w.id])
  {
    hide Get, Update, Lookup, ShortenName;
    var existing := Get(k, name, None, None).value;
    SortedEqualIffSameMultiset(existing.spec.backends, desired.backends);
    hide Sorted;
    UpdateMeaning(k, name, desired.(name := existing.spec.name, backends := Sorted(desired.backends)));
  }

  /** A call that succeeded answers as it would have without failures. */
  lemma AlignServed(k: CloudState, existing: Lb, desired: LbSpec, find: Option<Failure>, put: Option<Failure>)
    requires Align(k, existing, desired, find, put).1.Ok?
    ensures Align(k, existing, desired, find, put) == Align(k, existing, desired, None, None)
  {
    hide Sorted, ShortenName, ParseSpec, FindByName, UpdatedEnv;
  }

  lemma PlainSorted(parts: seq<string>, sep: char)
    ensures Plain(Sorted(parts), sep) <==> Plain(parts, sep)
  {
    SortedMeaning(parts);
    hide Sorted;
    assert forall p :: p in parts <==> p in multiset(Sorted(parts));
  }

  lemma BackendsArePlain(k: CloudState, name: string, find: Option<Failure>, inst: Option<Failure>)
    requires Get(k, name, find, inst).Ok?
    ensures Plain(Get(k, name, find, inst).value.spec.backends, ';')
  {
    hide ShortenName, FindByName;
    GetMeaning(k, name, find, inst);
    var w := Lookup(k.workloads, name, None).value;
    SplitPieces(LookupEnv(w.env, ENV_BACKENDS).value, ';');
  }

  lemma PlainAsMultiset(a: seq<string>, b: seq<string>, sep: char)
    requires multiset(a) == multiset(b) && Plain(a, sep)
    ensures Plain(b, sep)
  {
    SameLength(a, b);
    assert forall p :: p in b <==> p in multiset(a);
  }

  /** What an update under the stored name leaves behind: the load balancer is found as before,
      under the same name, and reads back the desired backends exactly when they are ';'-free. */
  lemma UpdateStores(k: CloudState, name: string, desired: LbSpec)
    requires UniqueIds(k.workloads) && |desired.backends| > 0
    requires Get(k, name, None, None).Ok?
    ensures var stored := Get(k, name, None, None).value.spec.name;
            var k' := Update(k, desired.(name := stored, backends := Sorted(desired.backends)), None, None).0;
            && UniqueIds(k'.workloads)
            && Get(k', name, None, None).Ok?
            && Get(k', name, None, None).value.spec.name == stored
            && (multiset(Get(k', name, None, None).value.spec.backends) == multiset(desired.backends)
                <==> Plain(desired.backends, ';'))
  {
    var existing := Get(k, name, None, None).value;
    var spec := desired.(name := existing.spec.name, backends := Sorted(desired.backends));
    var w := Lookup(k.workloads, name, None).value;
    var w' := Updated(w, spec.backends, existing.spec.port);
    var k' := Update(k, spec, None, None).0;
    UpdateMeaning(k, name, spec);
    GetAfterUpdate(k, name, spec);
    LookupMeaning(k.workloads, name, None);
    ReplaceMeaning(k.workloads, w');
    LookupAfterReplace(k.workloads, w, w', name);
    GetMeaning(k, name, None, None);
    GetMeaning(k', name, None, None);
    PlainSorted(desired.backends, ';');
    SortedMeaning(desired.backends);
    BackendsArePlain(k', name, None, None);
    var stored := Get(k', name, None, None).value.spec.backends;
    hide Plain, Get, Sorted, Lookup, Update, ParseSpec, Replace, LookupEnv, RunningIP;
    if multiset(stored) == multiset(desired.backends) {
      PlainAsMultiset(stored, desired.backends, ';');
    }
  }

  /** After a successful alignment the load balancer is still there and stores the desired
      backends exactly when none of them contains the separator. */
  lemma AlignedStores(k: CloudState, name: string, desired: LbSpec, find: Option<Failure>, put: Option<Failure>)
    requires UniqueIds(k.workloads) && |desired.backends| > 0
    requires Get(k, name, None, None).Ok?
    requires Align(k, Get(k, name, None, None).value, desired, find, put).1.Ok?
    ensures var k' := Align(k, Get(k, name, None, None).value, desired, find, put).0;
            && UniqueIds(k'.workloads)
            && Get(k', name, None, None).Ok?
            && Get(k', name, None, None).value.spec.name == Get(k, name, None, None).value.spec.name
            && (multiset(Get(k', name, None, None).value.spec.backends) == multiset(desired.backends)
                <==> Plain(desired.backends, ';'))
  {
    var existing := Get(k, name, None, None).value;
    AlignServed(k, existing, desired, find, put);
    BackendsArePlain(k, name, None, None);
    SortedEqualIffSameMultiset(existing.spec.backends, desired.backends);
    UpdateStores(k, name, desired);
    hide Plain, UniqueIds, Get, Sorted, Update;
    if multiset(existing.spec.backends) == multiset(desired.backends) {
      PlainAsMultiset(existing.spec.backends, desired.backends, ';');
    }
  }

  predicate Stores(k: CloudState, desired: LbSpec) {
    && Get(k, desired.name, None, None).Ok?
    && multiset(Get(k, desired.name, None, None).value.spec.backends) == multiset(desired.backends)
  }

  /** Both load balancers exist and store the desired backends, in whatever order. */
  predicate Settled(k: CloudState, cp: LbSpec, wk: LbSpec) {
    Stores(k, cp) && Stores(k, wk)
  }

  lemma GetUnderFaults(k: CloudState, name: string, find: Option<Failure>, inst: Option<Failure>)
    requires Get(k, name, None, None).Ok?
    ensures || Get(k, name, find, inst) == Get(k, name, None, None)
            || (Get(k, name, find, inst).Err? && Get(k, name, find, inst).error.Request?)
  {
    hide ParseSpec, ShortenName, FindByName, RunningIP, RunningCount;
  }

  lemma StoredNeedsNoUpdate(k: CloudState, desired: LbSpec, find: Option<Failure>, put: Option<Failure>)
    requires Stores(k, desired)
    ensures Align(k, Get(k, desired.name, None, None).value, desired, find, put) == (k, Ok(false))
  {
    SortedEqualIffSameMultiset(Get(k, desired.name, None, None).value.spec.backends, desired.backends);
  }

  /** A settled cloud is left alone by every pass, whichever of its calls fail. */
  lemma {:induction false} SettledIsQuiet(k: CloudState, c: ClusterState, cp: LbSpec, wk: LbSpec, a: Calls)
    requires |cp.backends| > 0 && |wk.backends| > 0
    requires Settled(k, cp, wk)
    ensures Ensure(k, c, cp, wk, a).cloud == k
  {
    hide Publish, CreateBoth;
    GetUnderFaults(k, cp.name, a.cpFind, a.cpInst);
    GetUnderFaults(k, wk.name, a.wkFind, a.wkInst);
    StoredNeedsNoUpdate(k, cp, a.cpRefind, a.cpPut);
    StoredNeedsNoUpdate(k, wk, a.wkRefind, a.wkPut);
    hide Get, Align, Sorted;
  }

  /** The pass got through creation, or through both alignments. */
  predicate Aligned(o: Outcome) {
    o == Created || o == NotReady || o == BadPort || Publishes(o)
  }

  lemma AlignedOther(k: CloudState, name: string, desired: LbSpec, find: Option<Failure>, put: Option<Failure>,
                     other: string)
    requires UniqueIds(k.workloads)
    requires Get(k, name, None, None).Ok?
    requires Align(k, Get(k, name, None, None).value, desired, find, put).1.Ok?
    requires ShortenName(name, NAME_LIMIT) != ShortenName(other, NAME_LIMIT)
    ensures Get(Align(k, Get(k, name, None, None).value, desired, find, put).0, other, None, None)
            == Get(k, other, None, None)
  {
    var existing := Get(k, name, None, None).value;
    AlignServed(k, existing, desired, find, put);
    UpdateDecision(k, name, desired);
    var spec := desired.(name := existing.spec.name, backends := Sorted(desired.backends));
    UpdateMeaning(k, name, spec);
    GetOtherAfterUpdate(k, name, spec, other);
    hide Get, Align, Sorted, Lookup, Update, ParseSpec, ShortenName;
  }

  /** A pass that aligned two load balancers with separate names leaves a settled cloud exactly
      when no desired backend contains the separator of the stored list. */
  lemma AlignBothSettles(k: CloudState, c: ClusterState, cp: LbSpec, wk: LbSpec, a: Calls)
    requires UniqueIds(k.workloads) && |cp.backends| > 0 && |wk.backends| > 0
    requires ShortenName(cp.name, NAME_LIMIT) != ShortenName(wk.name, NAME_LIMIT)
    requires Get(k, cp.name, None, None).Ok? && Get(k, wk.name, None, None).Ok?
    requires Aligned(AlignBoth(k, c, Get(k, cp.name, None, None).value, Get(k, wk.name, None, None), cp, wk, a).outcome)
    ensures var k' := AlignBoth(k, c, Get(k, cp.name, None, None).value, Get(k, wk.name, None, None), cp, wk, a).cloud;
            && Get(k', cp.name, None, None).Ok? && Get(k', wk.name, None, None).Ok?
            && (Settled(k', cp, wk) <==> Plain(cp.backends, ';') && Plain(wk.backends, ';'))
  {
    var existing, worker := Get(k, cp.name, None, None).value, Get(k, wk.name, None, None).value;
    AlignedSteps(k, c, existing, worker, cp, wk, a);
    hide Get, Align, AlignBoth, Plain, ShortenName, UniqueIds, Aligned;
    var k1 := Align(k, existing, cp, a.cpRefind, a.cpPut).0;
    AlignedStores(k, cp.name, cp, a.cpRefind, a.cpPut);
    AlignedOther(k, cp.name, cp, a.cpRefind, a.cpPut, wk.name);
    AlignedStores(k1, wk.name, wk, a.wkRefind, a.wkPut);
    AlignedOther(k1, wk.name, wk, a.wkRefind, a.wkPut, cp.name);
  }

  lemma AlignedSteps(k: CloudState, c: ClusterState, existing: Lb, worker: Lb, cp: LbSpec, wk: LbSpec, a: Calls)
    requires |cp.backends| > 0 && |wk.backends| > 0
    requires Aligned(AlignBoth(k, c, existing, Ok(worker), cp, wk, a).outcome)
    ensures var first := Align(k, existing, cp, a.cpRefind, a.cpPut);
            var second := Align(first.0, worker, wk, a.wkRefind, a.wkPut);
            first.1.Ok? && second.1.Ok? && AlignBoth(k, c, existing, Ok(worker), cp, wk, a).cloud == second.0
  {
    hide Align;
  }

  lemma CreatedStores(k: CloudState, spec: LbSpec, reply: CreateReply)
    requires Create(k, spec, reply).1.Ok?
    requires Lookup(k.workloads, spec.name, None) == Err(WorkloadNotFound)
    ensures Get(Create(k, spec, reply).0, spec.name, None, None).Ok?
    ensures Stores(Create(k, spec, reply).0, spec) <==> Plain(spec.backends, ';')
  {
    var k' := Create(k, spec, reply).0;
    GetAfterCreate(k, spec, reply);
    BackendsArePlain(k', spec.name, None, None);
    hide Get, Create, Lookup, Plain;
    if Stores(k', spec) {
      PlainAsMultiset(Get(k', spec.name, None, None).value.spec.backends, spec.backends, ';');
    }
  }

  lemma {:induction false} FindAfterAppend(list: seq<Workload>, name: string, w: Workload)
    ensures FindByName(list + [w], name) ==
            if FindByName(list, name).Some? then FindByName(list, name)
            else if w.name == name then Some(w) else None
  {
    if |list| > 0 {
      assert (list + [w])[1..] == list[1..] + [w];
      FindAfterAppend(list[1..], name, w);
    }
  }

  /** A create leaves lookups of every other name as they were. */
  lemma GetOtherAfterCreate(k: CloudState, spec: LbSpec, reply: CreateReply, other: string)
    requires ShortenName(spec.name, NAME_LIMIT) != ShortenName(other, NAME_LIMIT)
    ensures Lookup(Create(k, spec, reply).0.workloads, other, None) == Lookup(k.workloads, other, None)
    ensures Get(Create(k, spec, reply).0, other, None, None) == Get(k, other, None, None)
  {
    hide ParseSpec, RunningIP, RunningCount, CreatedEnv, ShortenName;
    var (k', r) := Create(k, spec, reply);
    if r.Ok? && ShortenName(other, NAME_LIMIT).Some? {
      FindAfterAppend(k.workloads, ShortenName(other, NAME_LIMIT).value, k'.workloads[|k.workloads|]);
    }
  }

  lemma CreateBothSettles(k: CloudState, c: ClusterState, cp: LbSpec, wk: LbSpec, a: Calls)
    requires ShortenName(cp.name, NAME_LIMIT) != ShortenName(wk.name, NAME_LIMIT)
    requires Lookup(k.workloads, cp.name, None) == Lookup(k.workloads, wk.name, None) == Err(WorkloadNotFound)
    requires CreateBoth(k, c, cp, wk, a).outcome == Created
    ensures var k' := CreateBoth(k, c, cp, wk, a).cloud;
            && Get(k', cp.name, None, None).Ok? && Get(k', wk.name, None, None).Ok?
            && (Settled(k', cp, wk) <==> Plain(cp.backends, ';') && Plain(wk.backends, ';'))
  {
    hide Get, Create, Lookup, Plain, ShortenName;
    var k1 := Create(k, cp, a.cpCreate).0;
    CreatedStores(k, cp, a.cpCreate);
    GetOtherAfterCreate(k, cp, a.cpCreate, wk.name);
    CreatedStores(k1, wk, a.wkCreate);
    GetOtherAfterCreate(k1, wk, a.wkCreate, cp.name);
  }

  lemma NotFoundMeaning(k: CloudState, name: string, find: Option<Failure>, inst: Option<Failure>)
    requires Get(k, name, find, inst) == Err(WorkloadNotFound)
    ensures Lookup(k.workloads, name, None) == Err(WorkloadNotFound)
  {
    hide ShortenName, FindByName, RunningIP, RunningCount;
  }

  lemma OkMeaning(k: CloudState, name: string, find: Option<Failure>, inst: Option<Failure>)
    requires Get(k, name, find, inst).Ok?
    ensures Get(k, name, find, inst) == Get(k, name, None, None)
  {
    hide ParseSpec, ShortenName, FindByName, RunningIP, RunningCount;
  }

  lemma {:induction false} EnsureSettles(k: CloudState, c: ClusterState, cp: LbSpec, wk: LbSpec, a: Calls)
    requires UniqueIds(k.workloads) && |cp.backends| > 0 && |wk.backends| > 0
    requires ShortenName(cp.name, NAME_LIMIT) != ShortenName(wk.name, NAME_LIMIT)
    requires Aligned(Ensure(k, c, cp, wk, a).outcome)
    ensures var k' := Ensure(k, c, cp, wk, a).cloud;
            && Get(k', cp.name, None, None).Ok? && Get(k', wk.name, None, None).Ok?
            && (Settled(k', cp, wk) <==> Plain(cp.backends, ';') && Plain(wk.backends, ';'))
  {
    hide Get, Create, Lookup, Plain, ShortenName, Align, UniqueIds, Sorted, Publish, Settled;
    if Get(k, cp.name, a.cpFind, a.cpInst).Ok? {
      OkMeaning(k, cp.name, a.cpFind, a.cpInst);
      OkMeaning(k, wk.name, a.wkFind, a.wkInst);
      AlignBothSettles(k, c, cp, wk, a);
    } else {
      NotFoundMeaning(k, cp.name, a.cpFind, a.cpInst);
      NotFoundMeaning(k, wk.name, a.wkFind, a.wkInst);
      CreateBothSettles(k, c, cp, wk, a);
    }
  }

  predicate NoFaults(a: Calls) {
    && a.machines == a.cpFind == a.cpInst == a.wkFind == a.wkInst == None
    && a.cpRefind == a.cpPut == a.wkRefind == a.wkPut == None
  }

  /** With both load balancers there and every call served, a pass issues no update exactly when
      the cloud is settled already. */
  lemma {:induction false} PassUpdatesUnlessSettled(k: CloudState, c: ClusterState, cp: LbSpec, wk: LbSpec, a: Calls)
    requires |cp.backends| > 0 && |wk.backends| > 0
    requires Get(k, cp.name, None, None).Ok? && Get(k, wk.name, None, None).Ok?
    requires NoFaults(a)
    ensures !Settled(k, cp, wk) ==> |Ensure(k, c, cp, wk, a).cloud.updates| > |k.updates|
    ensures Ensure(k, c, cp, wk, a).cloud.updates == k.updates <==> Settled(k, cp, wk)
  {
    hide Get, Align, Ensure, Stores, NoFaults;
    var existing, worker := Get(k, cp.name, None, None).value, Get(k, wk.name, None, None).value;
    AlignEffect(k, cp);
    AlignEffect(k, wk);
    var first := Align(k, existing, cp, None, None);
    AlignGrows(first.0, worker, wk, None, None);
    ServedSteps(k, c, cp, wk, a);
    if first.0 == k {
      assert Ensure(k, c, cp, wk, a).cloud == Align(k, worker, wk, None, None).0;
    }
  }

  lemma ServedSteps(k: CloudState, c: ClusterState, cp: LbSpec, wk: LbSpec, a: Calls)
    requires |cp.backends| > 0 && |wk.backends| > 0
    requires Get(k, cp.name, None, None).Ok? && Get(k, wk.name, None, None).Ok?
    requires NoFaults(a)
    requires Align(k, Get(k, cp.name, None, None).value, cp, None, None).1.Ok?
    ensures var first := Align(k, Get(k, cp.name, None, None).value, cp, None, None);
            Ensure(k, c, cp, wk, a).cloud == Align(first.0, Get(k, wk.name, None, None).value, wk, None, None).0
  {
    hide Get, Align, Publish, CreateBoth;
  }

  lemma AlignEffect(k: CloudState, desired: LbSpec)
    requires Get(k, desired.name, None, None).Ok?
    ensures var step := Align(k, Get(k, desired.name, None, None).value, desired, None, None);
            && step.1.Ok?
            && (Stores(k, desired) ==> step.0 == k)
            && (!Stores(k, desired) ==> |step.0.updates| > |k.updates|)
  {
    UpdateDecision(k, desired.name, desired);
    hide Get, Align, Sorted;
  }

  lemma AlignGrows(k: CloudState, existing: Lb, desired: LbSpec, find: Option<Failure>, put: Option<Failure>)
    ensures |k.updates| <= |Align(k, existing, desired, find, put).0.updates|
  {
    hide Sorted, Lookup, ParseSpec, ShortenName;
  }

  // ----- the settled cloud over a run -----

  lemma StoresFrame(k: CloudState, k': CloudState, d: LbSpec, d': LbSpec)
    requires Lookup(k'.workloads, d.name, None) == Lookup(k.workloads, d.name, None)
    requires d'.name == d.name && multiset(d'.backends) == multiset(d.backends)
    requires Stores(k, d)
    ensures Stores(k', d')
  {
    hide ParseSpec, Lookup, RunningIP, RunningCount;
  }

  lemma {:induction false} FindAfterRemove(list: seq<Workload>, name: string, id: string)
    requires FindByName(list, name).Some? && FindByName(list, name).value.id != id
    ensures FindByName(Remove(list, id), name) == FindByName(list, name)
  {
    if list[0].name != name {
      FindAfterRemove(list[1..], name, id);
    }
  }

  /** An event that leaves the load balancers of this cluster and its machines (up to their
      order in the list) alone. Ports, image and placement may be edited, calls may fail. */
  predicate Harmless(e: Event, spec: ClusterSpec, machines: seq<MachineInfo>, k: CloudState) {
    match e
    case Normal(spec', machines', _, _) =>
      && spec'.name == spec.name && spec'.lbName == spec.lbName && spec'.workerPorts == spec.workerPorts
      && multiset(machines') == multiset(machines)
    case Deletion(_, _, _) => true
    case InstancesChange(_, _) => true
    case Appears(w) => true
    case Vanishes(id) =>
      && Lookup(k.workloads, CpSpec(spec, machines).name, None).Ok?
      && Lookup(k.workloads, WkSpec(spec, machines).name, None).Ok?
      && id != Lookup(k.workloads, CpSpec(spec, machines).name, None).value.id
      && id != Lookup(k.workloads, WkSpec(spec, machines).name, None).value.id
  }

  lemma SameDesired(spec: ClusterSpec, spec': ClusterSpec, machines: seq<MachineInfo>, machines': seq<MachineInfo>)
    requires spec'.name == spec.name && spec'.lbName == spec.lbName && spec'.workerPorts == spec.workerPorts
    requires multiset(machines') == multiset(machines)
    ensures CpSpec(spec', machines').name == CpSpec(spec, machines).name
    ensures WkSpec(spec', machines').name == WkSpec(spec, machines).name
    ensures multiset(CpSpec(spec', machines').backends) == multiset(CpSpec(spec, machines).backends)
    ensures multiset(WkSpec(spec', machines').backends) == multiset(WkSpec(spec, machines).backends)
  {
    DesiredPermutation(spec, machines, machines');
    BackendsFrame(spec, spec', machines');
  }

  lemma {:induction false} BackendsFrame(spec: ClusterSpec, spec': ClusterSpec, machines: seq<MachineInfo>)
    requires spec'.name == spec.name && spec'.workerPorts == spec.workerPorts
    ensures ControlPlaneBackends(spec, machines) == ControlPlaneBackends(spec', machines)
    ensures WorkerBackends(spec, machines) == WorkerBackends(spec', machines)
  {
    hide Selected, FirstOf;
    if |machines| > 0 {
      var m := machines[|machines| - 1];
      BackendsFrame(spec, spec', machines[..|machines| - 1]);
      assert ControlPlaneOf(spec, m) == ControlPlaneOf(spec', m) && WorkersOf(spec, m) == WorkersOf(spec', m);
    }
  }

  lemma HarmlessLookups(s: System, e: Event, name: string)
    requires !e.Normal?
    requires Lookup(s.cloud.workloads, name, None).Ok?
    requires e.Vanishes? ==> e.id != Lookup(s.cloud.workloads, name, None).value.id
    ensures Lookup(Apply(s, e).cloud.workloads, name, None) == Lookup(s.cloud.workloads, name, None)
  {
    var short := ShortenName(name, NAME_LIMIT).value;
    match e
    case Deletion(spec, calls, _) => DeletionMeaning(s.cloud, s.cluster, spec, calls);
    case Appears(w) => FindAfterAppend(s.cloud.workloads, short, w);
    case Vanishes(id) => FindAfterRemove(s.cloud.workloads, short, id);
    case InstancesChange(_, _) =>
  }

  /** What a run of harmless events keeps from a settled start `k`. */
  predicate Quiet(k: CloudState, k': CloudState, spec: ClusterSpec, machines: seq<MachineInfo>) {
    var cp, wk := CpSpec(spec, machines), WkSpec(spec, machines);
    && Settled(k', cp, wk)
    && k'.updates == k.updates && k'.born == k.born
    && Lookup(k'.workloads, cp.name, None) == Lookup(k.workloads, cp.name, None)
    && Lookup(k'.workloads, wk.name, None) == Lookup(k.workloads, wk.name, None)
  }

  lemma HarmlessStep(k: CloudState, s: System, e: Event, spec: ClusterSpec, machines: seq<MachineInfo>)
    requires Quiet(k, s.cloud, spec, machines) && Harmless(e, spec, machines, k)
    ensures Quiet(k, Apply(s, e).cloud, spec, machines)
  {
    var cp, wk := CpSpec(spec, machines), WkSpec(spec, machines);
    if e.Normal? {
      var cp', wk' := CpSpec(e.spec, e.machines), WkSpec(e.spec, e.machines);
      assert |cp'.backends| > 0 && |wk'.backends| > 0;
      SameDesired(spec, e.spec, machines, e.machines);
      hide CpSpec, WkSpec, Stores, Lookup, Ensure, RunningIP;
      StoresFrame(s.cloud, s.cloud, cp, cp');
      StoresFrame(s.cloud, s.cloud, wk, wk');
      SettledIsQuiet(s.cloud, s.cluster.(finalizer := true), cp', wk', e.calls);
    } else {
      StoredIsThere(s.cloud, cp);
      StoredIsThere(s.cloud, wk);
      hide CpSpec, WkSpec, Stores, Lookup;
      HarmlessLookups(s, e, cp.name);
      HarmlessLookups(s, e, wk.name);
      StoresFrame(s.cloud, Apply(s, e).cloud, cp, cp);
      StoresFrame(s.cloud, Apply(s, e).cloud, wk, wk);
      if e.Deletion? { DeletionMeaning(s.cloud, s.cluster, e.spec, e.deleteCalls); }
      hide ReconcileDelete;
    }
  }

  lemma StoredIsThere(k: CloudState, d: LbSpec)
    requires Stores(k, d)
    ensures Lookup(k.workloads, d.name, None).Ok?
  {
    hide ParseSpec, Lookup, RunningIP, RunningCount;
  }

  lemma {:induction false} QuietForever(s: System, spec: ClusterSpec, machines: seq<MachineInfo>, events: seq<Event>)
    requires Settled(s.cloud, CpSpec(spec, machines), WkSpec(spec, machines))
    requires forall e | e in events :: Harmless(e, spec, machines, s.cloud)
    ensures Quiet(s.cloud, Run(s, events).cloud, spec, machines)
  {
    hide CpSpec, WkSpec, Settled, Lookup, Harmless, Apply;
    if |events| > 0 {
      QuietForever(s, spec, machines, events[..|events| - 1]);
      HarmlessStep(s.cloud, Run(s, events[..|events| - 1]), events[|events| - 1], spec, machines);
    }
  }

  lemma UnsettledPassUpdates(k: CloudState, c: ClusterState, spec: ClusterSpec, machines: seq<MachineInfo>, a: Calls)
    requires var cp, wk := CpSpec(spec, machines), WkSpec(spec, machines);
             && Get(k, cp.name, None, None).Ok? && Get(k, wk.name, None, None).Ok?
             && !Settled(k, cp, wk)
    requires NoFaults(a)
    ensures |Reconcile(k, c, spec, machines, a).cloud.updates| > |k.updates|
  {
    hide CpSpec, WkSpec, Settled, Ensure, Get, ClusterLoadBalancerName, WorkerLoadBalancerName;
    PassUpdatesUnlessSettled(k, c.(finalizer := true), CpSpec(spec, machines), WkSpec(spec, machines), a);
  }
}
