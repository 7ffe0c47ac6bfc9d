/** What the desired backend lists are, as functions of the machines of the cluster. */
module Backends {
  import opened Wrappers
  import opened Sorting
  import opened Cloud
  import opened ClusterPass

  lemma {:induction false} FlatMapSplit(f: MachineInfo -> seq<string>, a: seq<MachineInfo>, b: seq<MachineInfo>)
    ensures FlatMap(f, a + b) == FlatMap(f, a) + FlatMap(f, b)
  {
    if |b| == 0 {
      assert a + b == a;
    } else {
      var n := |b| - 1;
      FlatMapSplit(f, a, b[..n]);
      assert (a + b)[..|a + b| - 1] == a + b[..n];
    }
  }

  lemma {:induction false} FlatMapMember(f: MachineInfo -> seq<string>, machines: seq<MachineInfo>, x: string)
    ensures x in FlatMap(f, machines) <==> exists m | m in machines :: x in f(m)
  {
    if |machines| > 0 {
      var n := |machines| - 1;
      FlatMapMember(f, machines[..n], x);
      assert machines == machines[..n] + [machines[n]];
    }
  }

  lemma {:induction false} FlatMapWithout(f: MachineInfo -> seq<string>, machines: seq<MachineInfo>, i: nat)
    requires i < |machines|
    ensures multiset(FlatMap(f, machines))
         == multiset(FlatMap(f, machines[..i] + machines[i + 1..])) + multiset(f(machines[i]))
  {
    var a, m, b := machines[..i], machines[i], machines[i + 1..];
    assert machines == a + ([m] + b);
    FlatMapSplit(f, a, [m] + b);
    FlatMapSplit(f, [m], b);
    FlatMapSplit(f, a, b);
    FlatMapOne(f, m);
  }

  lemma MultisetWithout<T>(s: seq<T>, i: nat)
    requires i < |s|
    ensures multiset(s[..i] + s[i + 1..]) == multiset(s) - multiset{s[i]}
  {
    assert s == s[..i] + ([s[i]] + s[i + 1..]);
  }

  lemma IndexIn<T>(a: seq<T>, b: seq<T>) returns (i: nat)
    requires multiset(a) == multiset(b) && |a| > 0
    ensures i < |b| && b[i] == a[0]
  {
    assert a[0] in multiset(b);
    i :| 0 <= i < |b| && b[i] == a[0];
  }

  /** Listing the machines in another order permutes the backends and nothing else. */
  lemma {:induction false} FlatMapPermutation(f: MachineInfo -> seq<string>, a: seq<MachineInfo>, b: seq<MachineInfo>)
    requires multiset(a) == multiset(b)
    ensures multiset(FlatMap(f, a)) == multiset(FlatMap(f, b))
    decreases |a|
  {
    hide FlatMap;
    SameLength(a, b);
    if |a| > 0 {
      var i := IndexIn(a, b);
      MultisetWithout(a, 0);
      MultisetWithout(b, i);
      FlatMapPermutation(f, a[..0] + a[0 + 1..], b[..i] + b[i + 1..]);
      FlatMapWithout(f, a, 0);
      FlatMapWithout(f, b, i);
    }
  }

  lemma FlatMapOne(f: MachineInfo -> seq<string>, m: MachineInfo)
    ensures FlatMap(f, [m]) == f(m)
  {
    assert [m][..0] == [] && FlatMap(f, []) == [];
  }

  lemma DesiredPermutation(spec: ClusterSpec, a: seq<MachineInfo>, b: seq<MachineInfo>)
    requires multiset(a) == multiset(b)
    ensures multiset(CpSpec(spec, a).backends) == multiset(CpSpec(spec, b).backends)
    ensures multiset(WkSpec(spec, a).backends) == multiset(WkSpec(spec, b).backends)
  {
    FlatMapPermutation(m => ControlPlaneOf(spec, m), a, b);
    FlatMapPermutation(m => WorkersOf(spec, m), a, b);
    var ca, cb := ControlPlaneBackends(spec, a), ControlPlaneBackends(spec, b);
    var wa, wb := WorkerBackends(spec, a), WorkerBackends(spec, b);
    assert |multiset(ca)| == |ca| && |multiset(cb)| == |cb|;
    assert |multiset(wa)| == |wa| && |multiset(wb)| == |wb|;
  }

  predicate IsControlPlane(spec: ClusterSpec, m: MachineInfo) {
    Selected(m, spec.name, CONTROL_PLANE_LABEL) && FirstOf(ExternalIP, m.addresses).Some?
  }

  predicate IsWorker(spec: ClusterSpec, m: MachineInfo) {
    Selected(m, spec.name, DEPLOYMENT_LABEL) && FirstOf(InternalIP, m.addresses).Some?
  }

  function CountWorkers(spec: ClusterSpec, machines: seq<MachineInfo>): nat {
    if |machines| == 0 then 0
    else CountWorkers(spec, machines[..|machines| - 1]) + if IsWorker(spec, machines[|machines| - 1]) then 1 else 0
  }

  /** Every worker with an internal address appears once per configured port (or once). */
  lemma {:induction false} WorkerBackendCount(spec: ClusterSpec, machines: seq<MachineInfo>)
    ensures |WorkerBackends(spec, machines)| ==
            CountWorkers(spec, machines) * (if |spec.workerPorts| == 0 then 1 else |spec.workerPorts|)
  {
    if |machines| > 0 {
      var n := |machines| - 1;
      WorkerBackendCount(spec, machines[..n]);
      var p := if |spec.workerPorts| == 0 then 1 else |spec.workerPorts|;
      assert |WorkersOf(spec, machines[n])| == if IsWorker(spec, machines[n]) then p else 0;
    }
  }

  lemma WorkersOfMembers(spec: ClusterSpec, m: MachineInfo, x: string)
    ensures x in WorkersOf(spec, m) <==>
            exists p | p in WorkerPorts(spec) ::
              IsWorker(spec, m) && x == FirstOf(InternalIP, m.addresses).value + ":" + p
  {
    if IsWorker(spec, m) {
      var a, ports := FirstOf(InternalIP, m.addresses).value, WorkerPorts(spec);
      var backends := WithPorts(a, ports);
      assert WorkersOf(spec, m) == backends;
      if p :| p in ports && x == a + ":" + p {
        var i :| 0 <= i < |ports| && ports[i] == p;
        assert backends[i] == x;
      }
      if x in backends {
        var i :| 0 <= i < |backends| && backends[i] == x;
        assert ports[i] in ports;
      }
    }
  }

  /** A worker backend is exactly the first internal address of a selected machine with one of
      the worker ports; a control-plane backend the first external one with port 6443. */
  lemma BackendMembers(spec: ClusterSpec, machines: seq<MachineInfo>, x: string)
    ensures x in WorkerBackends(spec, machines) <==>
            exists m, p | m in machines && p in WorkerPorts(spec) ::
              IsWorker(spec, m) && x == FirstOf(InternalIP, m.addresses).value + ":" + p
    ensures x in ControlPlaneBackends(spec, machines) <==>
            exists m | m in machines ::
              IsControlPlane(spec, m) && x == FirstOf(ExternalIP, m.addresses).value + ":6443"
  {
    FlatMapMember(m => WorkersOf(spec, m), machines, x);
    FlatMapMember(m => ControlPlaneOf(spec, m), machines, x);
    forall m | m in machines {
      WorkersOfMembers(spec, m, x);
    }
  }

  // ----- the same lists in terms of labels and addresses -----

  lemma {:induction false} FirstOfMeaning(kind: AddressType, addresses: seq<NodeAddress>)
    ensures FirstOf(kind, addresses).None? <==> forall i | 0 <= i < |addresses| :: addresses[i].kind != kind
    ensures forall i | 0 <= i < |addresses| && addresses[i].kind == kind
                       && (forall j | 0 <= j < i :: addresses[j].kind != kind) ::
              FirstOf(kind, addresses) == Some(addresses[i].address)
  {
    if |addresses| > 0 && addresses[0].kind != kind {
      var rest := addresses[1..];
      FirstOfMeaning(kind, rest);
      assert forall i | 0 < i < |addresses| :: rest[i - 1] == addresses[i];
      forall i | 0 <= i < |addresses| && addresses[i].kind == kind
                 && (forall j | 0 <= j < i :: addresses[j].kind != kind)
        ensures FirstOf(kind, rest) == Some(addresses[i].address)
      {
        assert rest[i - 1].kind == kind && forall j | 0 <= j < i - 1 :: rest[j].kind != kind;
      }
    }
  }

  /** m.addresses[i] is the first address of that kind. */
  predicate FirstAt(addresses: seq<NodeAddress>, kind: AddressType, i: nat) {
    i < |addresses| && addresses[i].kind == kind && forall j | 0 <= j < i :: addresses[j].kind != kind
  }

  lemma {:induction false} FirstExists(addresses: seq<NodeAddress>, kind: AddressType) returns (i: nat)
    requires exists j | 0 <= j < |addresses| :: addresses[j].kind == kind
    ensures FirstAt(addresses, kind, i)
  {
    if addresses[0].kind == kind {
      i := 0;
    } else {
      var rest := addresses[1..];
      var j :| 0 <= j < |addresses| && addresses[j].kind == kind;
      assert rest[j - 1].kind == kind;
      i := FirstExists(rest, kind);
      i := i + 1;
      assert forall j | 0 < j < |addresses| :: addresses[j] == rest[j - 1];
    }
  }

  /** The machine carries the cluster's name as its cluster label; a missing label reads as "". */
  predicate Labelled(m: MachineInfo, name: string) {
    if "cluster.x-k8s.io/cluster-name" in m.labels then m.labels["cluster.x-k8s.io/cluster-name"] == name
    else name == ""
  }

  /** What one machine contributes to the control plane: its first external address with port 6443,
      when it is labelled for this cluster and as a control-plane machine; otherwise nothing. */
  lemma ControlPlaneContribution(spec: ClusterSpec, m: MachineInfo)
    ensures forall i: nat | FirstAt(m.addresses, ExternalIP, i) ::
              Labelled(m, spec.name) && "cluster.x-k8s.io/control-plane" in m.labels ==>
                ControlPlaneOf(spec, m) == [m.addresses[i].address + ":6443"]
    ensures !(&& Labelled(m, spec.name) && "cluster.x-k8s.io/control-plane" in m.labels
              && exists j | 0 <= j < |m.addresses| :: m.addresses[j].kind == ExternalIP) ==>
              ControlPlaneOf(spec, m) == []
  {
    FirstOfMeaning(ExternalIP, m.addresses);
  }

  /** What one machine contributes to the workers: its first internal address with each configured
      port, in their order, or with port 80, when it is labelled for this cluster and with a
      deployment; otherwise nothing. */
  lemma WorkerContribution(spec: ClusterSpec, m: MachineInfo)
    ensures forall i: nat | FirstAt(m.addresses, InternalIP, i) ::
              Labelled(m, spec.name) && "cluster.x-k8s.io/deployment-name" in m.labels ==>
                && (spec.workerPorts == [] ==> WorkersOf(spec, m) == [m.addresses[i].address + ":80"])
                && (spec.workerPorts != [] ==>
                      && |WorkersOf(spec, m)| == |spec.workerPorts|
                      && forall p | 0 <= p < |spec.workerPorts| ::
                           WorkersOf(spec, m)[p] == m.addresses[i].address + ":" + spec.workerPorts[p])
    ensures !(&& Labelled(m, spec.name) && "cluster.x-k8s.io/deployment-name" in m.labels
              && exists j | 0 <= j < |m.addresses| :: m.addresses[j].kind == InternalIP) ==>
              WorkersOf(spec, m) == []
  {
    FirstOfMeaning(InternalIP, m.addresses);
    forall i: nat | FirstAt(m.addresses, InternalIP, i) && spec.workerPorts == []
      ensures WithPorts(m.addresses[i].address, ["80"]) == [m.addresses[i].address + ":80"]
    {
      assert m.addresses[i].address + ":" + "80" == m.addresses[i].address + ":80";
    }
  }

  /** Both lists are the contributions of the machines, in list order, and nothing else. */
  lemma InListOrder(spec: ClusterSpec, machines: seq<MachineInfo>, m: MachineInfo)
    ensures ControlPlaneBackends(spec, []) == [] && WorkerBackends(spec, []) == []
    ensures ControlPlaneBackends(spec, machines + [m]) == ControlPlaneBackends(spec, machines) + ControlPlaneOf(spec, m)
    ensures WorkerBackends(spec, machines + [m]) == WorkerBackends(spec, machines) + WorkersOf(spec, m)
  {
    assert (machines + [m])[..|machines|] == machines;
  }

  /** Who is a control-plane backend: exactly the first external address, with port 6443, of a machine
      labelled for this cluster and as a control-plane machine. */
  lemma ControlPlaneMembers(spec: ClusterSpec, machines: seq<MachineInfo>, x: string)
    ensures x in ControlPlaneBackends(spec, machines) <==>
            exists m, i: nat | m in machines && FirstAt(m.addresses, ExternalIP, i) ::
              && Labelled(m, spec.name) && "cluster.x-k8s.io/control-plane" in m.labels
              && x == m.addresses[i].address + ":6443"
  {
    FlatMapMember(m => ControlPlaneOf(spec, m), machines, x);
    forall m | m in machines {
      ControlPlaneMember(spec, m, x);
    }
  }

  lemma ControlPlaneMember(spec: ClusterSpec, m: MachineInfo, x: string)
    ensures x in ControlPlaneOf(spec, m) <==>
            exists i: nat | FirstAt(m.addresses, ExternalIP, i) ::
              && Labelled(m, spec.name) && "cluster.x-k8s.io/control-plane" in m.labels
              && x == m.addresses[i].address + ":6443"
  {
    ControlPlaneContribution(spec, m);
    if exists j | 0 <= j < |m.addresses| :: m.addresses[j].kind == ExternalIP {
      var i := FirstExists(m.addresses, ExternalIP);
      forall j: nat | FirstAt(m.addresses, ExternalIP, j) ensures j == i {
      }
    }
    hide ControlPlaneOf, Labelled;
  }

  /** Who is a worker backend: exactly the first internal address, with a configured port or port 80,
      of a machine labelled for this cluster and with a deployment. */
  lemma WorkerMembers(spec: ClusterSpec, machines: seq<MachineInfo>, x: string)
    ensures x in WorkerBackends(spec, machines) <==>
            exists m, i: nat | m in machines && FirstAt(m.addresses, InternalIP, i) ::
              && Labelled(m, spec.name) && "cluster.x-k8s.io/deployment-name" in m.labels
              && (if spec.workerPorts == [] then x == m.addresses[i].address + ":80"
                  else exists p | p in spec.workerPorts :: x == m.addresses[i].address + ":" + p)
  {
    FlatMapMember(m => WorkersOf(spec, m), machines, x);
    forall m | m in machines {
      WorkerMember(spec, m, x);
    }
  }

  lemma WorkerMember(spec: ClusterSpec, m: MachineInfo, x: string)
    ensures x in WorkersOf(spec, m) <==>
            exists i: nat | FirstAt(m.addresses, InternalIP, i) ::
              && Labelled(m, spec.name) && "cluster.x-k8s.io/deployment-name" in m.labels
              && (if spec.workerPorts == [] then x == m.addresses[i].address + ":80"
                  else exists p | p in spec.workerPorts :: x == m.addresses[i].address + ":" + p)
  {
    WorkerContribution(spec, m);
    if exists j | 0 <= j < |m.addresses| :: m.addresses[j].kind == InternalIP {
      var i := FirstExists(m.addresses, InternalIP);
      forall j: nat | FirstAt(m.addresses, InternalIP, j) ensures j == i {
      }
      if p :| p in spec.workerPorts && x == m.addresses[i].address + ":" + p {
        var n :| 0 <= n < |spec.workerPorts| && spec.workerPorts[n] == p;
        if Labelled(m, spec.name) && "cluster.x-k8s.io/deployment-name" in m.labels {
          assert WorkersOf(spec, m)[n] == x;
        }
      }
      if x in WorkersOf(spec, m) {
        var n :| 0 <= n < |WorkersOf(spec, m)| && WorkersOf(spec, m)[n] == x;
      }
    }
    hide WorkersOf, Labelled;
  }

  lemma SortedFirst(s: seq<string>, x: string)
    requires |s| > 0
    ensures Sorted(s)[0] == x <==> x in s && forall y | y in s :: Leq(x, y)
  {
    var t := Sorted(s);
    SortedMeaning(s);
    hide Sorted;
    assert forall y :: y in s <==> y in multiset(t);
    assert t[0] in multiset(s);
    forall y | y in s ensures Leq(t[0], y) {
      SortedHead(t, y);
    }
    if x in s && forall y | y in s :: Leq(x, y) {
      LeqTotal(x, t[0]);
    }
  }

  lemma NoControlPlaneBackends(spec: ClusterSpec, machines: seq<MachineInfo>)
    ensures ControlPlaneBackends(spec, machines) == [] <==> forall m | m in machines :: !IsControlPlane(spec, m)
  {
    var b := ControlPlaneBackends(spec, machines);
    if b != [] {
      BackendMembers(spec, machines, b[0]);
    }
    forall m | m in machines && IsControlPlane(spec, m) ensures b != [] {
      BackendMembers(spec, machines, FirstOf(ExternalIP, m.addresses).value + ":6443");
    }
  }

  lemma PlaceholderIsNoApiserver(spec: ClusterSpec, machines: seq<MachineInfo>)
    ensures PLACEHOLDER !in ControlPlaneBackends(spec, machines)
  {
    BackendMembers(spec, machines, PLACEHOLDER);
    forall a: string ensures PLACEHOLDER != a + ":6443" {
      assert |a + ":6443"| == |a| + 5 && (a + ":6443")[|a| + 4] == '3';
      assert |PLACEHOLDER| == 14 && PLACEHOLDER[13] == '0';
    }
  }

  /** The check on the first control-plane backend, made after the sort has reordered the list,
      holds exactly when no control-plane machine of the cluster has an external address. */
  lemma {:induction false} ControlPlanePlaceholder(spec: ClusterSpec, machines: seq<MachineInfo>)
    ensures Sorted(CpSpec(spec, machines).backends)[0] == PLACEHOLDER
       <==> forall m | m in machines :: !IsControlPlane(spec, m)
  {
    var b := ControlPlaneBackends(spec, machines);
    NoControlPlaneBackends(spec, machines);
    PlaceholderIsNoApiserver(spec, machines);
    SortedFirst(OrPlaceholder(b), PLACEHOLDER);
    LeqTotal(PLACEHOLDER, PLACEHOLDER);
    assert CpSpec(spec, machines).backends == OrPlaceholder(b);
    hide Sorted, Leq, CpSpec, ControlPlaneBackends, IsControlPlane;
  }

  /** The same check on the workers can also be met by a genuine backend: it holds exactly when
      there is no worker backend, or the placeholder's own string is one and is the least. */
  lemma {:induction false} WorkerPlaceholder(spec: ClusterSpec, machines: seq<MachineInfo>)
    ensures Sorted(WkSpec(spec, machines).backends)[0] == PLACEHOLDER
       <==> var b := WorkerBackends(spec, machines);
            |b| == 0 || (PLACEHOLDER in b && forall y | y in b :: Leq(PLACEHOLDER, y))
  {
    SortedFirst(OrPlaceholder(WorkerBackends(spec, machines)), PLACEHOLDER);
    LeqTotal(PLACEHOLDER, PLACEHOLDER);
    assert WkSpec(spec, machines).backends == OrPlaceholder(WorkerBackends(spec, machines));
    hide Sorted, Leq, WkSpec, WorkerBackends;
  }
}
