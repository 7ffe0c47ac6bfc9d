/** The load-balancer loop converges, exactly when: which passes leave a settled cloud, and what
    every later run makes of it. */
module Convergence {
  import opened Wrappers
  import opened Strings
  import opened Naming
  import opened Cloud
  import opened LoadBalancer
  import opened ClusterPass
  import opened ClusterRuns
  import opened Alignment
  import opened Sorting
  import opened ClusterDeletion
  import opened Collision

  /** No desired backend contains the separator, and the two roles either have load balancers of
      different names or want the same backends. */
  predicate Convergent(cp: LbSpec, wk: LbSpec) {
    && Plain(cp.backends, ';') && Plain(wk.backends, ';')
    && (ShortenName(cp.name, NAME_LIMIT) != ShortenName(wk.name, NAME_LIMIT)
        || multiset(cp.backends) == multiset(wk.backends))
  }

  lemma GetFrame(k: CloudState, k': CloudState, name: string)
    requires Lookup(k'.workloads, name, None) == Lookup(k.workloads, name, None) && k'.instances == k.instances
    ensures Get(k', name, None, None) == Get(k, name, None, None)
  {
    hide Lookup, ParseSpec, RunningIP, RunningCount;
  }

  /** Colliding names that want the same backends: creation. */
  lemma EqualCreation(k: CloudState, c: ClusterState, cp: LbSpec, wk: LbSpec, a: Calls)
    requires ShortenName(cp.name, NAME_LIMIT) == ShortenName(wk.name, NAME_LIMIT)
    requires Lookup(k.workloads, cp.name, None) == Err(WorkloadNotFound)
    requires CreateBoth(k, c, cp, wk, a).outcome == Created
    ensures var k' := CreateBoth(k, c, cp, wk, a).cloud;
            && Get(k', cp.name, None, None).Ok?
            && (Stores(k', cp) <==> Plain(cp.backends, ';'))
  {
    var k1 := Create(k, cp, a.cpCreate).0;
    var k2 := Create(k1, wk, a.wkCreate).0;
    CreatedStores(k, cp, a.cpCreate);
    GetMeaning(k1, cp.name, None, None);
    CreateKeepsFound(k1, wk, a.wkCreate, cp.name);
    assert k2.instances == k1.instances by { hide ShortenName, CreatedEnv; }
    GetFrame(k1, k2, cp.name);
    hide Create, Get, Plain, Lookup, ShortenName;
  }

  /** And alignment: both comparisons are made with what was read first. */
  lemma EqualAlignment(k: CloudState, cp: LbSpec, wk: LbSpec, a: Calls)
    requires UniqueIds(k.workloads) && |cp.backends| > 0 && |wk.backends| > 0
    requires ShortenName(cp.name, NAME_LIMIT) == ShortenName(wk.name, NAME_LIMIT)
    requires multiset(cp.backends) == multiset(wk.backends)
    requires Get(k, cp.name, None, None).Ok?
    requires var lb := Get(k, cp.name, None, None).value;
             var first := Align(k, lb, cp, a.cpRefind, a.cpPut);
             first.1.Ok? && Align(first.0, lb, wk, a.wkRefind, a.wkPut).1.Ok?
    ensures var lb := Get(k, cp.name, None, None).value;
            var k' := Align(Align(k, lb, cp, a.cpRefind, a.cpPut).0, lb, wk, a.wkRefind, a.wkPut).0;
            && Get(k', cp.name, None, None).Ok?
            && (Stores(k', cp) <==> Plain(cp.backends, ';'))
  {
    var lb := Get(k, cp.name, None, None).value;
    var k1 := Align(k, lb, cp, a.cpRefind, a.cpPut).0;
    AlignedStores(k, cp.name, cp, a.cpRefind, a.cpPut);
    AlignServed(k, lb, cp, a.cpRefind, a.cpPut);
    AlignServed(k1, lb, wk, a.wkRefind, a.wkPut);
    SortedEqualIffSameMultiset(lb.spec.backends, cp.backends);
    SortedEqualIffSameMultiset(lb.spec.backends, wk.backends);
    UpdateStores(k1, cp.name, wk);
    SamePlain(cp.backends, wk.backends);
    hide Get, Update, Sorted, Plain, UniqueIds, ShortenName;
  }

  lemma SamePlain(a: seq<string>, b: seq<string>)
    requires multiset(a) == multiset(b)
    ensures Plain(a, ';') <==> Plain(b, ';')
  {
    if Plain(a, ';') { PlainAsMultiset(a, b, ';'); }
    if Plain(b, ';') { PlainAsMultiset(b, a, ';'); }
  }

  /** A pass over a colliding cluster that wants the same backends for both roles. */
  lemma CollidingSettles(k: CloudState, c: ClusterState, cp: LbSpec, wk: LbSpec, a: Calls)
    requires UniqueIds(k.workloads) && |cp.backends| > 0 && |wk.backends| > 0
    requires ShortenName(cp.name, NAME_LIMIT) == ShortenName(wk.name, NAME_LIMIT)
    requires Aligned(Ensure(k, c, cp, wk, a).outcome)
    ensures var k' := Ensure(k, c, cp, wk, a).cloud;
            && Get(k', cp.name, None, None).Ok?
            && (multiset(cp.backends) == multiset(wk.backends) ==> (Stores(k', cp) <==> Plain(cp.backends, ';')))
  {
    var existing, worker := Get(k, cp.name, a.cpFind, a.cpInst), Get(k, wk.name, a.wkFind, a.wkInst);
    hide Get, Align, Create, Plain, ShortenName, UniqueIds, Stores, Publish;
    if existing.Ok? {
      OkMeaning(k, cp.name, a.cpFind, a.cpInst);
      OkMeaning(k, wk.name, a.wkFind, a.wkInst);
      CollisionNeverSettles(k, cp, wk);
      AlignedSteps(k, c, existing.value, worker.value, cp, wk, a);
      StaysThere(k, cp, wk, a);
      if multiset(cp.backends) == multiset(wk.backends) {
        EqualAlignment(k, cp, wk, a);
      }
    } else {
      NotFoundMeaning(k, cp.name, a.cpFind, a.cpInst);
      EqualCreation(k, c, cp, wk, a);
    }
  }

  /** Two successful alignments of one load balancer leave it there. */
  lemma StaysThere(k: CloudState, cp: LbSpec, wk: LbSpec, a: Calls)
    requires UniqueIds(k.workloads) && |cp.backends| > 0 && |wk.backends| > 0
    requires Get(k, cp.name, None, None).Ok?
    requires var lb := Get(k, cp.name, None, None).value;
             var first := Align(k, lb, cp, a.cpRefind, a.cpPut);
             first.1.Ok? && Align(first.0, lb, wk, a.wkRefind, a.wkPut).1.Ok?
    ensures var lb := Get(k, cp.name, None, None).value;
            Get(Align(Align(k, lb, cp, a.cpRefind, a.cpPut).0, lb, wk, a.wkRefind, a.wkPut).0, cp.name, None, None).Ok?
  {
    var lb := Get(k, cp.name, None, None).value;
    var k1 := Align(k, lb, cp, a.cpRefind, a.cpPut).0;
    AlignedStores(k, cp.name, cp, a.cpRefind, a.cpPut);
    AlignServed(k1, lb, wk, a.wkRefind, a.wkPut);
    UpdateStores(k1, cp.name, wk);
    hide Get, Update, Sorted, Plain, UniqueIds;
  }

  /** A pass that got through creation or alignment leaves a settled cloud exactly then. */
  lemma AlignedSettles(k: CloudState, c: ClusterState, cp: LbSpec, wk: LbSpec, a: Calls)
    requires UniqueIds(k.workloads) && |cp.backends| > 0 && |wk.backends| > 0
    requires Aligned(Ensure(k, c, cp, wk, a).outcome)
    ensures var k' := Ensure(k, c, cp, wk, a).cloud;
            && Get(k', cp.name, None, None).Ok? && Get(k', wk.name, None, None).Ok?
            && (Settled(k', cp, wk) <==> Convergent(cp, wk))
  {
    hide Get, Ensure, Plain, ShortenName, UniqueIds, Stores, Aligned;
    var k' := Ensure(k, c, cp, wk, a).cloud;
    if ShortenName(cp.name, NAME_LIMIT) != ShortenName(wk.name, NAME_LIMIT) {
      EnsureSettles(k, c, cp, wk, a);
    } else {
      CollidingSettles(k, c, cp, wk, a);
      SameStores(k', cp, wk);
    }
  }

  lemma SameStores(k: CloudState, cp: LbSpec, wk: LbSpec)
    requires ShortenName(cp.name, NAME_LIMIT) == ShortenName(wk.name, NAME_LIMIT)
    ensures Get(k, cp.name, None, None) == Get(k, wk.name, None, None)
    ensures multiset(cp.backends) == multiset(wk.backends) ==>
              && (Stores(k, cp) <==> Stores(k, wk))
              && (Plain(cp.backends, ';') <==> Plain(wk.backends, ';'))
    ensures multiset(cp.backends) != multiset(wk.backends) ==> !Settled(k, cp, wk)
  {
    hide ShortenName, Get, Plain;
    CollisionNeverSettles(k, cp, wk);
    if multiset(cp.backends) == multiset(wk.backends) {
      SamePlain(cp.backends, wk.backends);
    }
  }

  /** Convergence, exactly. Take any reachable state and any pass that gets through creating or
      aligning the load balancers. If no desired backend contains ';', and the base name ends in a
      segment of at most 14 bytes or both roles want the same backends, then no later run of
      passes over these machines in any order, with any failing calls, any instance changes and
      any foreign workloads, issues an update or a create again. Otherwise the very next fully
      served pass updates again. */
  lemma {:induction false} Convergence(s0: System, before: seq<Event>, e: Event, after: seq<Event>)
    requires Initial(s0) && e.Normal? && e.calls.machines.None?
    requires var s := Run(s0, before);
             Aligned(Reconcile(s.cloud, s.cluster, e.spec, e.machines, e.calls).outcome)
    requires forall x | x in after :: Harmless(x, e.spec, e.machines, Apply(Run(s0, before), e).cloud)
    ensures var s := Apply(Run(s0, before), e);
            var cp, wk := CpSpec(e.spec, e.machines), WkSpec(e.spec, e.machines);
            var converges := && Plain(cp.backends, ';') && Plain(wk.backends, ';')
                             && (|| |LastSegment(BaseName(e.spec))| <= 14
                                 || multiset(cp.backends) == multiset(wk.backends));
            && (converges ==>
                  Run(s, after).cloud.updates == s.cloud.updates && Run(s, after).cloud.born == s.cloud.born)
            && (!converges ==>
                  forall c, a | NoFaults(a) ::
                    |Reconcile(s.cloud, c, e.spec, e.machines, a).cloud.updates| > |s.cloud.updates|)
  {
    RunKeepsInvariant(s0, before);
    var s := Run(s0, before);
    var cp, wk := CpSpec(e.spec, e.machines), WkSpec(e.spec, e.machines);
    assert UniqueIds(s.cloud.workloads) && |cp.backends| > 0 && |wk.backends| > 0;
    assert cp.name == ClusterLoadBalancerName(e.spec.lbName, e.spec.name);
    assert wk.name == WorkerLoadBalancerName(e.spec.lbName, e.spec.name);
    hide CpSpec, WkSpec, Plain, LastSegment, Settled, Ensure, Harmless, Invariant, UniqueIds, Get;
    AlignedSettles(s.cloud, s.cluster.(finalizer := true), cp, wk, e.calls);
    NamesDefined(Apply(s, e).cloud, cp.name);
    LoadBalancerNamesSeparated(e.spec.lbName, e.spec.name);
    hide ShortenName;
    if Convergent(cp, wk) {
      QuietForever(Apply(s, e), e.spec, e.machines, after);
    } else {
      var k := Apply(s, e).cloud;
      forall c, a | NoFaults(a)
        ensures |Reconcile(k, c, e.spec, e.machines, a).cloud.updates| > |k.updates|
      {
        UnsettledPassUpdates(k, c, e.spec, e.machines, a);
      }
    }
  }

  lemma NamesDefined(k: CloudState, name: string)
    requires Get(k, name, None, None).Ok?
    ensures ShortenName(name, NAME_LIMIT).Some?
  {
    GetMeaning(k, name, None, None);
    LookupClass(k, name);
    hide Get, Lookup, ShortenName;
  }
}
