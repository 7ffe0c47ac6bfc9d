/** The end of a cluster: when the finalizer comes off, when it never does, and what is left. */
module ClusterDeletion {
  import opened Wrappers
  import opened Strings
  import opened Naming
  import opened Cloud
  import opened LoadBalancer
  import opened ClusterPass
  import opened ClusterRuns

  predicate AllServed(a: DeleteCalls) {
    && a.cpFind == a.cpRead == a.cpPost == None
    && a.wkFind == a.wkRead == a.wkPost == None
  }

  /** A delete pass drops the finalizer exactly when every call was served and both load
      balancers were found; both then have an accepted delete. A load balancer that is not
      there is an error, not a finished deletion. */
  lemma RemovedMeaning(k: CloudState, c: ClusterState, spec: ClusterSpec, a: DeleteCalls)
    ensures var r := ReconcileDelete(k, c, spec, a);
            var cp := Lookup(k.workloads, ClusterLoadBalancerName(spec.lbName, spec.name), None);
            var wk := Lookup(k.workloads, WorkerLoadBalancerName(spec.lbName, spec.name), None);
            && (r.2 == Removed <==> AllServed(a) && cp.Ok? && wk.Ok?)
            && (r.1 == if r.2 == Removed then c.(finalizer := false) else c)
            && (r.2 == Removed ==> r.0 == k.(doomed := k.doomed + {cp.value.id} + {wk.value.id}))
  {
    var n1, n2 := ClusterLoadBalancerName(spec.lbName, spec.name), WorkerLoadBalancerName(spec.lbName, spec.name);
    DeleteOk(k, n1, a.cpFind, a.cpRead, a.cpPost);
    DeleteOk(Delete(k, n1, a.cpFind, a.cpRead, a.cpPost).0, n2, a.wkFind, a.wkRead, a.wkPost);
    hide Delete, Lookup, ClusterLoadBalancerName, WorkerLoadBalancerName;
  }

  lemma DeleteOk(k: CloudState, name: string, find: Option<Failure>, read: Option<Failure>, post: Option<Failure>)
    ensures var r := Delete(k, name, find, read, post);
            && (r.1.Ok? <==> find == read == post == None && Lookup(k.workloads, name, None).Ok?)
            && (r.0 == if r.1.Ok? then k.(doomed := k.doomed + {Lookup(k.workloads, name, None).value.id}) else k)
  {
    hide FindByName, ShortenName;
    LookupMeaning(k.workloads, name, find);
  }

  /** Over every run: a step takes the finalizer off a cluster exactly when it is a delete pass,
      with every call and the closing patch served, that finds both load balancers. The pass
      itself has both deletes accepted and changes nothing else, and they are deletes of two
      different workloads exactly when the base name keeps the two names apart. */
  lemma {:induction false} FinalizerSafety(s0: System, events: seq<Event>, e: Event)
    requires Initial(s0)
    requires Run(s0, events).cluster.finalizer
    ensures !Apply(Run(s0, events), e).cluster.finalizer <==>
              && e.Deletion? && e.close.None? && AllServed(e.deleteCalls)
              && !OneMissing(Run(s0, events).cloud, e.spec)
              && |LastSegment(BaseName(e.spec))| <= 17
    ensures var s, s' := Run(s0, events), Apply(Run(s0, events), e);
            !s'.cluster.finalizer ==>
              && var cp := Lookup(s.cloud.workloads, ClusterLoadBalancerName(e.spec.lbName, e.spec.name), None);
              && var wk := Lookup(s.cloud.workloads, WorkerLoadBalancerName(e.spec.lbName, e.spec.name), None);
              && cp.Ok? && wk.Ok?
              && s'.cloud == s.cloud.(doomed := s.cloud.doomed + {cp.value.id} + {wk.value.id})
              && (cp.value.id != wk.value.id <==> |LastSegment(BaseName(e.spec))| <= 14)
  {
    var s := Run(s0, events);
    if e.Deletion? {
      RemovedMeaning(s.cloud, s.cluster, e.spec, e.deleteCalls);
      LoadBalancerNamesSeparated(e.spec.lbName, e.spec.name);
      RunKeepsInvariant(s0, events);
      assert UniqueIds(s.cloud.workloads);
      var cp := ClusterLoadBalancerName(e.spec.lbName, e.spec.name);
      var wk := WorkerLoadBalancerName(e.spec.lbName, e.spec.name);
      LookupMeaning(s.cloud.workloads, cp, None);
      LookupMeaning(s.cloud.workloads, wk, None);
      LookupClass(s.cloud, cp);
      LookupClass(s.cloud, wk);
      SameNameSameLookup(s.cloud, cp, wk);
      hide Lookup, LastSegment, ShortenName, ClusterLoadBalancerName, WorkerLoadBalancerName, ReconcileDelete;
    } else {
      hide Lookup, LastSegment, ShortenName, ClusterLoadBalancerName, WorkerLoadBalancerName, ReconcileDelete,
           Reconcile;
      if e.Normal? { NormalKeepsFinalizer(s, e); }
    }
  }

  lemma LookupClass(k: CloudState, name: string)
    ensures Lookup(k.workloads, name, None).Ok? <==>
            ShortenName(name, NAME_LIMIT).Some? && Lookup(k.workloads, name, None) != Err(WorkloadNotFound)
  {
    hide ShortenName, FindByName;
  }

  lemma SameNameSameLookup(k: CloudState, a: string, b: string)
    ensures ShortenName(a, NAME_LIMIT) == ShortenName(b, NAME_LIMIT) ==>
              Lookup(k.workloads, a, None) == Lookup(k.workloads, b, None)
  {
    hide ShortenName, FindByName;
  }

  lemma NormalKeepsFinalizer(s: System, e: Event)
    requires e.Normal? && s.cluster.finalizer
    ensures Apply(s, e).cluster.finalizer
  {
    hide CpSpec, WkSpec, Ensure, ClusterLoadBalancerName, WorkerLoadBalancerName, Lookup;
    EnsureKeepsFinalizer(s.cloud, s.cluster.(finalizer := true),
                         CpSpec(e.spec, e.machines), WkSpec(e.spec, e.machines), e.calls);
  }

  lemma EnsureKeepsFinalizer(k: CloudState, c: ClusterState, cp: LbSpec, wk: LbSpec, a: Calls)
    requires |cp.backends| > 0 && |wk.backends| > 0
    ensures Ensure(k, c, cp, wk, a).cluster.finalizer == c.finalizer
  {
    hide Get, Align, Create, Publish;
  }

  /** Once one of the two load balancers is missing, deletion never finishes: no run of delete
      passes takes the finalizer off, whatever else disappears or changes meanwhile. */
  lemma {:induction false} DeletionStuck(s: System, spec: ClusterSpec, events: seq<Event>)
    requires s.cluster.finalizer
    requires OneMissing(s.cloud, spec)
    requires forall e | e in events :: e.Vanishes? || e.InstancesChange?
               || (e.Deletion? && e.spec.lbName == spec.lbName && e.spec.name == spec.name)
    ensures Run(s, events).cluster.finalizer && OneMissing(Run(s, events).cloud, spec)
  {
    if |events| > 0 {
      var n := |events| - 1;
      DeletionStuck(s, spec, events[..n]);
      assert events[n] in events;
      DeletionStuckStep(Run(s, events[..n]), spec, events[n]);
    }
  }

  predicate OneMissing(k: CloudState, spec: ClusterSpec) {
    || Lookup(k.workloads, ClusterLoadBalancerName(spec.lbName, spec.name), None) == Err(WorkloadNotFound)
    || Lookup(k.workloads, WorkerLoadBalancerName(spec.lbName, spec.name), None) == Err(WorkloadNotFound)
  }

  lemma MissingAfterRemove(k: CloudState, name: string, id: string)
    requires Lookup(k.workloads, name, None) == Err(WorkloadNotFound)
    ensures Lookup(Remove(k.workloads, id), name, None) == Err(WorkloadNotFound)
  {
    var short := ShortenName(name, NAME_LIMIT).value;
    FindByNameMeaning(k.workloads, short);
    FindByNameMeaning(Remove(k.workloads, id), short);
  }

  lemma DeletionStuckStep(s: System, spec: ClusterSpec, e: Event)
    requires s.cluster.finalizer && OneMissing(s.cloud, spec)
    requires e.Vanishes? || e.InstancesChange?
             || (e.Deletion? && e.spec.lbName == spec.lbName && e.spec.name == spec.name)
    ensures Apply(s, e).cluster.finalizer && OneMissing(Apply(s, e).cloud, spec)
  {
    hide ClusterLoadBalancerName, WorkerLoadBalancerName, ShortenName, ReconcileDelete;
    if e.Deletion? {
      RemovedMeaning(s.cloud, s.cluster, e.spec, e.deleteCalls);
      DeletionMeaning(s.cloud, s.cluster, e.spec, e.deleteCalls);
    }
    if e.Vanishes? {
      hide Lookup;
      var cp, wk := ClusterLoadBalancerName(spec.lbName, spec.name), WorkerLoadBalancerName(spec.lbName, spec.name);
      if Lookup(s.cloud.workloads, cp, None) == Err(WorkloadNotFound) {
        MissingAfterRemove(s.cloud, cp, e.id);
      } else {
        MissingAfterRemove(s.cloud, wk, e.id);
      }
    }
  }

  predicate CpServed(a: DeleteCalls) {
    a.cpFind == a.cpRead == a.cpPost == None
  }

  predicate WkServed(a: DeleteCalls) {
    a.wkFind == a.wkRead == a.wkPost == None
  }

  /** Both deletes are sent whatever the first returns, and each is accepted on its own. */
  lemma DeletesMeaning(k: CloudState, c: ClusterState, spec: ClusterSpec, a: DeleteCalls)
    requires Lookup(k.workloads, ClusterLoadBalancerName(spec.lbName, spec.name), None).Ok?
    requires Lookup(k.workloads, WorkerLoadBalancerName(spec.lbName, spec.name), None).Ok?
    ensures var cp := Lookup(k.workloads, ClusterLoadBalancerName(spec.lbName, spec.name), None).value;
            var wk := Lookup(k.workloads, WorkerLoadBalancerName(spec.lbName, spec.name), None).value;
            ReconcileDelete(k, c, spec, a).0 ==
            k.(doomed := k.doomed + (if CpServed(a) then {cp.id} else {}) + (if WkServed(a) then {wk.id} else {}))
  {
    var n1, n2 := ClusterLoadBalancerName(spec.lbName, spec.name), WorkerLoadBalancerName(spec.lbName, spec.name);
    DeleteNoPanic(k, n1, a.cpFind, a.cpRead, a.cpPost);
    DeleteNoPanic(Delete(k, n1, a.cpFind, a.cpRead, a.cpPost).0, n2, a.wkFind, a.wkRead, a.wkPost);
    hide Delete, Lookup, ClusterLoadBalancerName, WorkerLoadBalancerName;
    DeleteOk(k, n1, a.cpFind, a.cpRead, a.cpPost);
    DeleteOk(Delete(k, n1, a.cpFind, a.cpRead, a.cpPost).0, n2, a.wkFind, a.wkRead, a.wkPost);
  }

  lemma DeleteNoPanic(k: CloudState, name: string, find: Option<Failure>, read: Option<Failure>, post: Option<Failure>)
    requires Lookup(k.workloads, name, None).Ok?
    ensures !Delete(k, name, find, read, post).1.Panic?
  {
    hide FindByName, ShortenName, Ids;
  }

  /** Half a deletion sticks. After any run, a delete pass in which exactly one of the two deletes is
      accepted, and whose workload then vanishes as it should, is never followed by a release:
      the load balancer that has been deleted is the one that is missing. */
  lemma {:induction false} HalfDeletionSticks(s0: System, before: seq<Event>, e: Event, after: seq<Event>)
    requires Initial(s0) && Run(s0, before).cluster.finalizer && e.Deletion?
    requires CpServed(e.deleteCalls) != WkServed(e.deleteCalls)
    requires !OneMissing(Run(s0, before).cloud, e.spec) && |LastSegment(BaseName(e.spec))| <= 14
    requires OnlyOneNamed(Run(s0, before).cloud, Accepted(Run(s0, before).cloud, e))
    requires forall x | x in after :: x.Vanishes? || x.InstancesChange?
               || (x.Deletion? && x.spec.lbName == e.spec.lbName && x.spec.name == e.spec.name)
    ensures var s := Run(s0, before);
            var t := Apply(Apply(s, e), Vanishes(Accepted(s.cloud, e).id));
            && Accepted(s.cloud, e).id in t.cloud.doomed
            && Run(t, after).cluster.finalizer
  {
    var s := Run(s0, before);
    var cp := ClusterLoadBalancerName(e.spec.lbName, e.spec.name);
    var wk := WorkerLoadBalancerName(e.spec.lbName, e.spec.name);
    LoadBalancerNamesSeparated(e.spec.lbName, e.spec.name);
    LookupClass(s.cloud, cp);
    LookupClass(s.cloud, wk);
    DeletesMeaning(s.cloud, s.cluster, e.spec, e.deleteCalls);
    RemovedMeaning(s.cloud, s.cluster, e.spec, e.deleteCalls);
    var gone := Accepted(s.cloud, e);
    var t := Apply(Apply(s, e), Vanishes(gone.id));
    OnlyOneRemoved(s.cloud, if CpServed(e.deleteCalls) then cp else wk, gone);
    hide ReconcileDelete, Lookup, ShortenName, LastSegment, ClusterLoadBalancerName, WorkerLoadBalancerName,
         OnlyOneNamed;
    DeletionStuck(t, e.spec, after);
  }

  /** The workload whose delete was accepted. */
  function Accepted(k: CloudState, e: Event): Workload
    requires e.Deletion? && !OneMissing(k, e.spec) && |LastSegment(BaseName(e.spec))| <= 14
  {
    LoadBalancerNamesSeparated(e.spec.lbName, e.spec.name);
    LookupClass(k, ClusterLoadBalancerName(e.spec.lbName, e.spec.name));
    LookupClass(k, WorkerLoadBalancerName(e.spec.lbName, e.spec.name));
    if CpServed(e.deleteCalls)
    then Lookup(k.workloads, ClusterLoadBalancerName(e.spec.lbName, e.spec.name), None).value
    else Lookup(k.workloads, WorkerLoadBalancerName(e.spec.lbName, e.spec.name), None).value
  }

  predicate OnlyOneNamed(k: CloudState, w: Workload) {
    forall x | x in k.workloads && x.name == w.name :: x.id == w.id
  }

  lemma OnlyOneRemoved(k: CloudState, name: string, w: Workload)
    requires Lookup(k.workloads, name, None) == Ok(w) && OnlyOneNamed(k, w)
    ensures Lookup(Remove(k.workloads, w.id), name, None) == Err(WorkloadNotFound)
  {
    LookupMeaning(k.workloads, name, None);
    FindByNameMeaning(Remove(k.workloads, w.id), ShortenName(name, NAME_LIMIT).value);
    hide ShortenName, FindByName;
  }
}
