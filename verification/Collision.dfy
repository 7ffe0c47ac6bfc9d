/** A cluster whose two load-balancer names fall together: both passes over it and its deletion
    treat one workload as two. */
module Collision {
  import opened Wrappers
  import opened Strings
  import opened Sorting
  import opened Naming
  import opened Numbers
  import opened Cloud
  import opened LoadBalancer
  import opened ClusterPass
  import opened ClusterRuns
  import opened Alignment
  import opened ClusterDeletion
  import opened ClusterCreation

  /** The base name ends in a segment of 15 to 17 bytes. */
  predicate Collides(spec: ClusterSpec) {
    15 <= |LastSegment(BaseName(spec))| <= 17
  }

  predicate Differ(cp: LbSpec, wk: LbSpec) {
    && |cp.backends| > 0 && |wk.backends| > 0
    && ShortenName(cp.name, NAME_LIMIT) == ShortenName(wk.name, NAME_LIMIT)
    && multiset(cp.backends) != multiset(wk.backends)
  }

  /** Both names lead to one workload, which can never store both of two different lists. */
  lemma CollisionNeverSettles(k: CloudState, cp: LbSpec, wk: LbSpec)
    requires ShortenName(cp.name, NAME_LIMIT) == ShortenName(wk.name, NAME_LIMIT)
    ensures Get(k, cp.name, None, None) == Get(k, wk.name, None, None)
    ensures multiset(cp.backends) != multiset(wk.backends) ==> !Settled(k, cp, wk)
  {
    hide ShortenName, ParseSpec, FindByName, RunningIP, RunningCount;
  }

  // ----- one pass -----

  /** The two alignments of a served pass when both names lead to one workload: the control plane's
      backends go in unless they are there already, then the workers' unless the pass had read
      them there. So it ends with the control plane's backends exactly when it started with the
      workers', and it gets to publish only if it started with the control plane's. */
  lemma CollidingAligns(k: CloudState, c: ClusterState, cp: LbSpec, wk: LbSpec, a: Calls)
    requires Differ(cp, wk) && UniqueIds(k.workloads) && NoFaults(a)
    requires Get(k, cp.name, None, None).Ok?
    ensures var p, lb := Ensure(k, c, cp, wk, a), Get(k, cp.name, None, None).value;
            && |p.cloud.updates| > |k.updates| && UniqueIds(p.cloud.workloads)
            && Get(p.cloud, cp.name, None, None).Ok?
            && (Plain(cp.backends, ';') && Plain(wk.backends, ';') ==>
                  && (Stores(k, wk) ==> Stores(p.cloud, cp))
                  && (!Stores(k, wk) ==> Stores(p.cloud, wk)))
            && (Publishes(p.outcome) <==>
                  Stores(k, cp) && lb.publicIP != "" && |lb.spec.port| > 0 && Atoi(lb.spec.port[0]).Some?)
  {
    var lb := Get(k, cp.name, None, None).value;
    CollisionNeverSettles(k, cp, wk);
    var first := Align(k, lb, cp, None, None);
    FirstAlign(k, cp, wk);
    SecondAlign(k, first.0, cp, wk);
    CollisionNeverSettles(Align(first.0, lb, wk, None, None).0, cp, wk);
    PassUpdatesUnlessSettled(k, c, cp, wk, a);
    ServedOutcome(k, c, cp, wk, a);
    hide Get, Align, Ensure, Plain, UniqueIds, ShortenName, Atoi, NoFaults, Publishes;
  }

  /** The cloud after the first alignment. */
  lemma FirstAlign(k: CloudState, cp: LbSpec, wk: LbSpec)
    requires Differ(cp, wk) && UniqueIds(k.workloads) && Get(k, cp.name, None, None).Ok?
    ensures var first := Align(k, Get(k, cp.name, None, None).value, cp, None, None);
            && first.1 == Ok(!Stores(k, cp))
            && (Stores(k, cp) ==> first.0 == k)
            && UniqueIds(first.0.workloads) && Get(first.0, cp.name, None, None).Ok?
            && Get(first.0, cp.name, None, None).value.spec.name == Get(k, cp.name, None, None).value.spec.name
            && (Stores(first.0, cp) <==> Plain(cp.backends, ';'))
  {
    UpdateDecision(k, cp.name, cp);
    AlignedStores(k, cp.name, cp, None, None);
    hide Get, Align, Sorted, Plain, UniqueIds, Replace;
  }

  /** The cloud after the second, which compares what was read before the first. */
  lemma SecondAlign(k: CloudState, k1: CloudState, cp: LbSpec, wk: LbSpec)
    requires Differ(cp, wk) && Get(k, cp.name, None, None).Ok?
    requires k1 == Align(k, Get(k, cp.name, None, None).value, cp, None, None).0
    requires UniqueIds(k1.workloads) && Get(k1, cp.name, None, None).Ok?
    requires Get(k1, cp.name, None, None).value.spec.name == Get(k, cp.name, None, None).value.spec.name
    ensures var second := Align(k1, Get(k, cp.name, None, None).value, wk, None, None);
            && second.1 == Ok(!Stores(k, wk))
            && (Stores(k, wk) ==> second.0 == k1)
            && UniqueIds(second.0.workloads) && Get(second.0, cp.name, None, None).Ok?
            && (!Stores(k, wk) && Plain(wk.backends, ';') ==> Stores(second.0, wk))
  {
    var lb := Get(k, cp.name, None, None).value;
    CollisionNeverSettles(k, cp, wk);
    SortedEqualIffSameMultiset(lb.spec.backends, wk.backends);
    UpdateSteps(k1, cp.name, wk);
    UpdateStores(k1, cp.name, wk);
    CollisionNeverSettles(Align(k1, lb, wk, None, None).0, cp, wk);
    hide Get, Sorted, Plain, UniqueIds, Update, Settled, ShortenName;
  }

  lemma UpdateSteps(k: CloudState, name: string, desired: LbSpec)
    requires Get(k, name, None, None).Ok?
    ensures var stored := Get(k, name, None, None).value.spec.name;
            Update(k, desired.(name := stored, backends := Sorted(desired.backends)), None, None).1 == Ok(())
  {
    hide Get, Update, Sorted, Lookup, ParseSpec;
    var stored := Get(k, name, None, None).value.spec.name;
    UpdateMeaning(k, name, desired.(name := stored, backends := Sorted(desired.backends)));
  }

  /** A served pass with both load balancers there: two alignments, then the publication of what
      was read before them, blanked if the first issued an update. */
  lemma ServedOutcome(k: CloudState, c: ClusterState, cp: LbSpec, wk: LbSpec, a: Calls)
    requires |cp.backends| > 0 && |wk.backends| > 0 && NoFaults(a)
    requires Get(k, cp.name, None, None).Ok? && Get(k, wk.name, None, None).Ok?
    requires Align(k, Get(k, cp.name, None, None).value, cp, None, None).1.Ok?
    requires var k1 := Align(k, Get(k, cp.name, None, None).value, cp, None, None).0;
             Align(k1, Get(k, wk.name, None, None).value, wk, None, None).1.Ok?
    ensures var p, lb := Ensure(k, c, cp, wk, a), Get(k, cp.name, None, None).value;
            var first := Align(k, lb, cp, None, None);
            && p.cloud == Align(first.0, Get(k, wk.name, None, None).value, wk, None, None).0
            && (Publishes(p.outcome) <==>
                  first.1 == Ok(false) && lb.publicIP != "" && |lb.spec.port| > 0 && Atoi(lb.spec.port[0]).Some?)
  {
    hide Get, Align, CreateBoth, Sorted, Atoi;
  }

  // ----- runs -----

  /** A served pass over a colliding cluster that wants different backends for its two roles. */
  predicate CollidingPass(e: Event, lbName: string, name: string) {
    && e.Normal? && NoFaults(e.calls)
    && e.spec.lbName == lbName && e.spec.name == name && Collides(e.spec)
    && multiset(CpSpec(e.spec, e.machines).backends) != multiset(WkSpec(e.spec, e.machines).backends)
  }

  lemma PassDiffers(e: Event, lbName: string, name: string)
    requires CollidingPass(e, lbName, name)
    ensures Differ(CpSpec(e.spec, e.machines), WkSpec(e.spec, e.machines))
    ensures CpSpec(e.spec, e.machines).name == ClusterLoadBalancerName(lbName, name)
  {
    LoadBalancerNamesSeparated(lbName, name);
    hide ShortenName, LastSegment;
  }

  /** Over every run of served passes over such a cluster, with any machines, ports and failing
      closing patches, from any state in which its load balancer is there: every single pass
      issues an update. The complement of convergence. */
  lemma {:induction false} CollisionChurns(s: System, lbName: string, name: string, events: seq<Event>)
    requires UniqueIds(s.cloud.workloads) && Get(s.cloud, ClusterLoadBalancerName(lbName, name), None, None).Ok?
    requires forall e | e in events :: CollidingPass(e, lbName, name)
    ensures var r := Run(s, events);
            && UniqueIds(r.cloud.workloads) && Get(r.cloud, ClusterLoadBalancerName(lbName, name), None, None).Ok?
            && |r.cloud.updates| >= |s.cloud.updates| + |events|
  {
    hide CollidingPass, Get, UniqueIds, Apply, ClusterLoadBalancerName;
    if |events| > 0 {
      var n := |events| - 1;
      CollisionChurns(s, lbName, name, events[..n]);
      assert events[n] in events;
      CollidingStep(Run(s, events[..n]), lbName, name, events[n]);
    }
  }

  lemma CollidingStep(s: System, lbName: string, name: string, e: Event)
    requires UniqueIds(s.cloud.workloads) && Get(s.cloud, ClusterLoadBalancerName(lbName, name), None, None).Ok?
    requires CollidingPass(e, lbName, name)
    ensures var r := Apply(s, e);
            && UniqueIds(r.cloud.workloads) && Get(r.cloud, ClusterLoadBalancerName(lbName, name), None, None).Ok?
            && |r.cloud.updates| > |s.cloud.updates|
  {
    var cp, wk := CpSpec(e.spec, e.machines), WkSpec(e.spec, e.machines);
    PassDiffers(e, lbName, name);
    hide CpSpec, WkSpec, Get, UniqueIds, Ensure, ClusterLoadBalancerName, Differ, Publishes, Plain, Stores;
    CollidingAligns(s.cloud, s.cluster.(finalizer := true), cp, wk, e.calls);
  }

  /** Such a pass over the same two desired backend lists, none of them with a ';'. */
  predicate SamePass(e: Event, spec: ClusterSpec, machines: seq<MachineInfo>) {
    && CollidingPass(e, spec.lbName, spec.name)
    && e.spec.workerPorts == spec.workerPorts && multiset(e.machines) == multiset(machines)
    && Plain(CpSpec(spec, machines).backends, ';') && Plain(WkSpec(spec, machines).backends, ';')
  }

  /** And it never settles down to being published either: with the machines left alone, of any n
      passes at most half, rounded up, publish an endpoint, for after one that did, the stored
      backends are the workers' and the next pass blanks what it read. */
  lemma {:induction false} CollisionPublishesHalf(s: System, spec: ClusterSpec, machines: seq<MachineInfo>,
                                                  events: seq<Event>)
    requires UniqueIds(s.cloud.workloads)
    requires Get(s.cloud, ClusterLoadBalancerName(spec.lbName, spec.name), None, None).Ok?
    requires forall e | e in events :: SamePass(e, spec, machines)
    ensures var r := Run(s, events);
            var owed := if Stores(r.cloud, CpSpec(spec, machines)) then 0 else 1;
            && UniqueIds(r.cloud.workloads)
            && Get(r.cloud, ClusterLoadBalancerName(spec.lbName, spec.name), None, None).Ok?
            && 2 * (|r.published| - |s.published|) <= |events| + owed
  {
    hide SamePass, Get, UniqueIds, Apply, ClusterLoadBalancerName, Stores, CpSpec;
    if |events| > 0 {
      var n := |events| - 1;
      CollisionPublishesHalf(s, spec, machines, events[..n]);
      assert events[n] in events;
      AlternatingStep(Run(s, events[..n]), spec, machines, events[n]);
    }
  }

  lemma AlternatingStep(s: System, spec: ClusterSpec, machines: seq<MachineInfo>, e: Event)
    requires UniqueIds(s.cloud.workloads)
    requires Get(s.cloud, ClusterLoadBalancerName(spec.lbName, spec.name), None, None).Ok?
    requires SamePass(e, spec, machines)
    ensures var r, cp := Apply(s, e), CpSpec(spec, machines);
            && UniqueIds(r.cloud.workloads)
            && Get(r.cloud, ClusterLoadBalancerName(spec.lbName, spec.name), None, None).Ok?
            && |s.published| <= |r.published| <= |s.published| + 1
            && (|r.published| > |s.published| ==> Stores(s.cloud, cp))
            && (Stores(s.cloud, cp) ==> !Stores(r.cloud, cp))
  {
    var cp, wk := CpSpec(e.spec, e.machines), WkSpec(e.spec, e.machines);
    PassDiffers(e, spec.lbName, spec.name);
    SameDesired(spec, e.spec, machines, e.machines);
    PlainAsMultiset(CpSpec(spec, machines).backends, cp.backends, ';');
    PlainAsMultiset(WkSpec(spec, machines).backends, wk.backends, ';');
    var r := Apply(s, e);
    hide CpSpec, WkSpec, Get, UniqueIds, Ensure, ClusterLoadBalancerName, Plain, Publishes, Lookup, ShortenName, Atoi;
    CollidingAligns(s.cloud, s.cluster.(finalizer := true), cp, wk, e.calls);
    CollisionNeverSettles(s.cloud, cp, wk);
    CollisionNeverSettles(r.cloud, cp, wk);
  }

  // ----- creation and deletion -----

  /** A create never hides a workload that is found already. */
  lemma CreateKeepsFound(k: CloudState, spec: LbSpec, reply: CreateReply, name: string)
    requires Lookup(k.workloads, name, None).Ok?
    ensures Lookup(Create(k, spec, reply).0.workloads, name, None) == Lookup(k.workloads, name, None)
  {
    hide ShortenName, CreatedEnv;
    var k' := Create(k, spec, reply).0;
    if k' != k {
      FindAfterAppend(k.workloads, ShortenName(name, NAME_LIMIT).value, k'.workloads[|k.workloads|]);
    }
  }

  /** The first pass still creates two workloads; both names lead to the first one from then on,
      and it stores the control plane's backends, so the second pass can publish. */
  lemma CollidingCreation(k: CloudState, c: ClusterState, cp: LbSpec, wk: LbSpec, a: Calls)
    requires |cp.backends| > 0 && |wk.backends| > 0
    requires ShortenName(cp.name, NAME_LIMIT) == ShortenName(wk.name, NAME_LIMIT)
    requires Lookup(k.workloads, cp.name, None) == Err(WorkloadNotFound)
    requires LookupsServed(a) && FreshReplies(k, a) && a.cpCreate.Accepted? && a.wkCreate.Accepted?
    ensures var p := Ensure(k, c, cp, wk, a);
            && p.outcome == Created && p.cluster == c
            && Lookup(p.cloud.workloads, cp.name, None).Ok?
            && Lookup(p.cloud.workloads, cp.name, None).value.id == a.cpCreate.id
            && Lookup(p.cloud.workloads, wk.name, None) == Lookup(p.cloud.workloads, cp.name, None)
            && a.wkCreate.id in Ids(p.cloud.workloads) && a.wkCreate.id in p.cloud.born
            && p.cloud.doomed == k.doomed
            && (Plain(cp.backends, ';') ==> Stores(p.cloud, cp))
  {
    SameNameSameLookup(k, cp.name, wk.name);
    CreationSteps(k, c, cp, wk, a);
    var k1 := Create(k, cp, a.cpCreate).0;
    var k2 := Create(k1, wk, a.wkCreate).0;
    CreateMeaning(k, cp, a.cpCreate);
    CreateKeepsFound(k1, wk, a.wkCreate, cp.name);
    SameNameSameLookup(k2, cp.name, wk.name);
    CreatedStores(k, cp, a.cpCreate);
    hide Ensure, Lookup, ShortenName, CreatedEnv, LookupEnv, Stores, Plain;
    if Stores(k1, cp) { StoresFrame(k1, k2, cp, cp); }
    assert k2.workloads[|k1.workloads|] in k2.workloads;
  }

  /** Deletion leaks one of them. From an untouched colliding cluster, a creating pass and a fully
      served delete pass take the finalizer off, while the worker load balancer is still
      there, created by this provider and never asked to be deleted. */
  lemma DeletionLeaks(s0: System, spec: ClusterSpec, machines: seq<MachineInfo>, a: Calls, d: DeleteCalls)
    requires Initial(s0) && Collides(spec) && s0.cloud.doomed == {}
    requires Lookup(s0.cloud.workloads, ClusterLoadBalancerName(spec.lbName, spec.name), None) == Err(WorkloadNotFound)
    requires LookupsServed(a) && FreshReplies(s0.cloud, a) && a.cpCreate.Accepted? && a.wkCreate.Accepted?
    requires AllServed(d)
    ensures var r := Apply(Apply(s0, Normal(spec, machines, a, None)), Deletion(spec, d, None));
            && !r.cluster.finalizer
            && a.wkCreate.id in Ids(r.cloud.workloads) && a.wkCreate.id in r.cloud.born
            && r.cloud.doomed == {a.cpCreate.id} && a.wkCreate.id != a.cpCreate.id
  {
    var cp, wk := CpSpec(spec, machines), WkSpec(spec, machines);
    LoadBalancerNamesSeparated(spec.lbName, spec.name);
    assert |cp.backends| > 0 && |wk.backends| > 0;
    assert cp.name == ClusterLoadBalancerName(spec.lbName, spec.name)
      && wk.name == WorkerLoadBalancerName(spec.lbName, spec.name);
    hide CpSpec, WkSpec, Ensure, ShortenName, LastSegment, ClusterLoadBalancerName, WorkerLoadBalancerName,
         Lookup, UniqueIds, ReconcileDelete;
    CollidingCreation(s0.cloud, s0.cluster.(finalizer := true), cp, wk, a);
    var s := Apply(s0, Normal(spec, machines, a, None));
    RemovedMeaning(s.cloud, s.cluster, spec, d);
  }
}
