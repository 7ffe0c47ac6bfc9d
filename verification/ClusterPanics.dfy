/** When a pass of the CoxCluster reconciler panics: exactly when, over what is stored, what is
    wanted and how the calls are answered. */
module ClusterPanics {
  import opened Wrappers
  import opened Strings
  import opened Sorting
  import opened Naming
  import opened Numbers
  import opened Cloud
  import opened LoadBalancer
  import opened ClusterPass
  import opened ClusterRuns
  import opened Alignment
  import opened ClusterDeletion
  import opened Collision

  /** GetLoadBalancer panics on a name that cannot be shortened, and on a load-balancer workload
      without a deployment. */
  lemma GetPanics(k: CloudState, name: string, find: Option<Failure>, inst: Option<Failure>)
    ensures Get(k, name, find, inst).Panic? <==>
              && find.None?
              && (|| (|name| > NAME_LIMIT && '-' in name && |LastSegment(name)| >= NAME_LIMIT)
                  || (&& inst.None? && Lookup(k.workloads, name, None).Ok?
                      && LookupEnv(Lookup(k.workloads, name, None).value.env, ENV_BACKENDS).Some?
                      && Lookup(k.workloads, name, None).value.deployments == []))
  {
    ShortenNameMeaning(name, NAME_LIMIT);
    hide ShortenName, FindByName, Split, RunningIP, RunningCount, LookupEnv, LastSegment;
  }

  predicate SameBackends(lb: Lb, desired: LbSpec) {
    multiset(lb.spec.backends) == multiset(desired.backends)
  }

  /** Aligning a load balancer that was read never panics, and fails only when there is something
      to update and one of the two calls of the update is refused. */
  lemma AlignOutcome(k: CloudState, name: string, desired: LbSpec, find: Option<Failure>, put: Option<Failure>)
    requires UniqueIds(k.workloads) && Get(k, name, None, None).Ok?
    ensures var lb := Get(k, name, None, None).value;
            var (k', r) := Align(k, lb, desired, find, put);
            && (r.Ok? <==> SameBackends(lb, desired) || find == put == None)
            && !r.Panic?
            && (r.Ok? ==> r.value == !SameBackends(lb, desired))
  {
    var lb := Get(k, name, None, None).value;
    SortedEqualIffSameMultiset(lb.spec.backends, desired.backends);
    UpdateOutcome(k, name, desired.(name := lb.spec.name, backends := Sorted(desired.backends)), find, put);
    hide Get, Sorted, Update;
  }

  lemma UpdateOutcome(k: CloudState, name: string, spec: LbSpec, find: Option<Failure>, put: Option<Failure>)
    requires Get(k, name, None, None).Ok?
    requires spec.name == Get(k, name, None, None).value.spec.name
    ensures var r := Update(k, spec, find, put).1;
            !r.Panic? && (r.Ok? <==> find == put == None)
  {
    var w := Lookup(k.workloads, name, None).value;
    GetMeaning(k, name, None, None);
    LookupMeaning(k.workloads, name, None);
    LookupAgain(k.workloads, name, None);
    ShortenIdempotent(name, NAME_LIMIT);
    hide ShortenName, FindByName, Split, RunningIP, RunningCount, LookupEnv, UpdatedEnv;
  }

  /** After the first alignment the worker load balancer is still found under the name it was read
      with, also when the two names lead to one workload. */
  lemma WorkerStillThere(k: CloudState, cp: LbSpec, wk: LbSpec, find: Option<Failure>, put: Option<Failure>)
    requires UniqueIds(k.workloads) && |cp.backends| > 0
    requires Get(k, cp.name, None, None).Ok? && Get(k, wk.name, None, None).Ok?
    requires Align(k, Get(k, cp.name, None, None).value, cp, find, put).1.Ok?
    ensures var k1 := Align(k, Get(k, cp.name, None, None).value, cp, find, put).0;
            && UniqueIds(k1.workloads) && Get(k1, wk.name, None, None).Ok?
            && Get(k1, wk.name, None, None).value.spec.name == Get(k, wk.name, None, None).value.spec.name
  {
    var k1 := Align(k, Get(k, cp.name, None, None).value, cp, find, put).0;
    AlignedStores(k, cp.name, cp, find, put);
    if ShortenName(cp.name, NAME_LIMIT) == ShortenName(wk.name, NAME_LIMIT) {
      CollisionNeverSettles(k, cp, wk);
      CollisionNeverSettles(k1, cp, wk);
    } else {
      AlignedOther(k, cp.name, cp, find, put, wk.name);
    }
    hide Get, Align, UniqueIds, ShortenName;
  }

  lemma AlignmentPanics(k: CloudState, c: ClusterState, cp: LbSpec, wk: LbSpec, a: Calls)
    requires UniqueIds(k.workloads) && |cp.backends| > 0 && |wk.backends| > 0
    requires Get(k, cp.name, a.cpFind, a.cpInst).Ok? && !Get(k, wk.name, a.wkFind, a.wkInst).Panic?
    ensures var existing, worker := Get(k, cp.name, a.cpFind, a.cpInst), Get(k, wk.name, a.wkFind, a.wkInst);
            Ensure(k, c, cp, wk, a).outcome == Panicked <==>
              && (SameBackends(existing.value, cp) || a.cpRefind == a.cpPut == None)
              && (|| worker.Err?
                  || (&& SameBackends(existing.value, cp)
                      && (SameBackends(worker.value, wk) || a.wkRefind == a.wkPut == None)
                      && existing.value.publicIP != "" && existing.value.spec.port == []))
  {
    hide Get, Align, CreateBoth, Sorted, Atoi, SameBackends, UniqueIds;
    var existing, worker := Get(k, cp.name, a.cpFind, a.cpInst), Get(k, wk.name, a.wkFind, a.wkInst);
    OkMeaning(k, cp.name, a.cpFind, a.cpInst);
    AlignOutcome(k, cp.name, cp, a.cpRefind, a.cpPut);
    var first := Align(k, existing.value, cp, a.cpRefind, a.cpPut);
    if worker.Ok? && first.1.Ok? {
      OkMeaning(k, wk.name, a.wkFind, a.wkInst);
      WorkerStillThere(k, cp, wk, a.cpRefind, a.cpPut);
      SecondOutcome(first.0, wk.name, worker.value, wk, a.wkRefind, a.wkPut);
    }
  }

  /** A pass over what two lookups answered panics exactly
      - when a lookup does;
      - when only the worker load balancer could be read: the other is nil;
      - when both are missing, the first create is accepted and the second is not: the message is
        read off a nil error;
      - when only the control-plane load balancer could be read, and aligning it succeeds;
      - when both could be read, nothing had to be updated for the control plane, the workers were
        aligned, there is an address to publish, and no port is stored. */
  lemma PanicMeaning(k: CloudState, c: ClusterState, cp: LbSpec, wk: LbSpec, a: Calls)
    requires UniqueIds(k.workloads) && |cp.backends| > 0 && |wk.backends| > 0
    ensures var existing, worker := Get(k, cp.name, a.cpFind, a.cpInst), Get(k, wk.name, a.wkFind, a.wkInst);
            Ensure(k, c, cp, wk, a).outcome == Panicked <==>
              || existing.Panic? || worker.Panic?
              || (existing.Err? && worker.Ok?)
              || (&& existing == worker == Err(WorkloadNotFound)
                  && Granted(k.used, a.cpCreate)
                  && !Granted(k.used + {a.cpCreate.id}, a.wkCreate))
              || (&& existing.Ok? && worker.Err?
                  && (SameBackends(existing.value, cp) || a.cpRefind == a.cpPut == None))
              || (&& existing.Ok? && worker.Ok?
                  && SameBackends(existing.value, cp)
                  && (SameBackends(worker.value, wk) || a.wkRefind == a.wkPut == None)
                  && existing.value.publicIP != "" && existing.value.spec.port == [])
  {
    var existing, worker := Get(k, cp.name, a.cpFind, a.cpInst), Get(k, wk.name, a.wkFind, a.wkInst);
    if existing == worker == Err(WorkloadNotFound) {
      CreationPanics(k, c, cp, wk, a);
    } else if existing.Ok? && !worker.Panic? {
      hide Get, Ensure, SameBackends, UniqueIds;
      AlignmentPanics(k, c, cp, wk, a);
    } else {
      hide Get, Align, CreateBoth, AlignBoth, Sorted, SameBackends, UniqueIds;
    }
  }

  predicate Granted(used: set<string>, reply: CreateReply) {
    reply.Accepted? && reply.id !in used
  }

  lemma CreationPanics(k: CloudState, c: ClusterState, cp: LbSpec, wk: LbSpec, a: Calls)
    requires |cp.backends| > 0 && |wk.backends| > 0
    requires Get(k, cp.name, a.cpFind, a.cpInst) == Get(k, wk.name, a.wkFind, a.wkInst) == Err(WorkloadNotFound)
    ensures Ensure(k, c, cp, wk, a).outcome == Panicked <==>
              Granted(k.used, a.cpCreate) && !Granted(k.used + {a.cpCreate.id}, a.wkCreate)
  {
    NotFoundMeaning(k, cp.name, a.cpFind, a.cpInst);
    NotFoundMeaning(k, wk.name, a.wkFind, a.wkInst);
    LookupClass(k, cp.name);
    LookupClass(k, wk.name);
    hide Get, Lookup, ShortenName, AlignBoth, CreatedEnv;
  }

  /** Aligning what was read before the cloud changed under it. */
  lemma SecondOutcome(k: CloudState, name: string, read: Lb, desired: LbSpec, find: Option<Failure>,
                      put: Option<Failure>)
    requires Get(k, name, None, None).Ok? && Get(k, name, None, None).value.spec.name == read.spec.name
    ensures var r := Align(k, read, desired, find, put).1;
            && (r.Ok? <==> SameBackends(read, desired) || find == put == None)
            && !r.Panic?
  {
    SortedEqualIffSameMultiset(read.spec.backends, desired.backends);
    UpdateOutcome(k, name, desired.(name := read.spec.name, backends := Sorted(desired.backends)), find, put);
    hide Get, Sorted, Update;
  }

  /** So one failed call is enough: with both load balancers there, a pass whose lookup of the
      control-plane load balancer fails panics whenever it gets the worker one. */
  lemma FailedLookupPanics(k: CloudState, c: ClusterState, cp: LbSpec, wk: LbSpec, a: Calls)
    requires UniqueIds(k.workloads) && |cp.backends| > 0 && |wk.backends| > 0
    requires Get(k, wk.name, a.wkFind, a.wkInst).Ok? && a.cpFind.Some?
    ensures Ensure(k, c, cp, wk, a).outcome == Panicked
  {
    GetPanics(k, cp.name, a.cpFind, a.cpInst);
    PanicMeaning(k, c, cp, wk, a);
    hide ParseSpec, ShortenName, FindByName;
  }
}
