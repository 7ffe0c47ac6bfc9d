/** What a pass of the CoxMachine reconciler does, in terms of the stored machine, the cloud and the
    answers of the calls, when the environment stands still. */
module MachineMeaning {
  import opened Wrappers
  import opened Strings
  import opened Naming
  import opened Cloud
  import opened ProviderID
  import opened MachinePass
  import opened MachineFrames

  /** No environment event during the pass. */
  predicate Still(s: Schedule) {
    && s.list.drift == s.task.drift == s.create.drift == s.inst.drift == s.node.drift == s.close.drift == []
    && s.get.drift == s.read.drift == s.post.drift == []
  }

  /** A pass over a live machine with its gates open and its closing patch stored. */
  predicate Open(w: World, s: Schedule) {
    w.store.Some? && !w.store.value.deleting && s.gates && s.close.reply != Refused && Still(s)
  }

  /** The workload at index i is the first whose name is the machine's, cut to 18 bytes. */
  predicate ListedFirst(w: World, i: nat) {
    && i < |w.workloads| && ShortenName(w.name, 18) == Some(w.workloads[i].name)
    && forall j | 0 <= j < i :: w.workloads[j].name != w.workloads[i].name
  }

  /** No workload has the machine's name, cut to 18 bytes. */
  predicate NotListed(w: World) {
    ShortenName(w.name, 18).Some? && forall x | x in w.workloads :: ShortenName(w.name, 18) != Some(x.name)
  }

  function InstancesAt(w: World, id: string): seq<Instance> {
    if id in w.instances then w.instances[id] else []
  }

  /** The node has that internal address. */
  predicate HasInternal(n: Node, ip: string) {
    exists a | a in n.addresses :: a.kind == InternalIP && a.address == ip
  }

  /** The first node with that internal address carries the provider id, and all others are as before. */
  predicate NodePatched(before: seq<Node>, after: seq<Node>, ip: string, providerID: string) {
    && |after| == |before|
    && forall k | 0 <= k < |before| ::
         after[k] == if HasInternal(before[k], ip) && (forall j | 0 <= j < k :: !HasInternal(before[j], ip))
                     then before[k].(providerID := providerID) else before[k]
  }

  /** What the pass does once the workload id is known: `m` is the stored machine as located. It is
      closed as it is when the instances cannot be listed, when there is none, when the first is
      not RUNNING, or has no internal address; else the two addresses of the first instance are
      written, the first node with its internal address gets the provider id, and the machine is
      ready exactly when that call was answered. */
  predicate Brought(w: World, s: Schedule, id: string, m: Machine, v: World, o: Outcome) {
    var instances := InstancesAt(w, id);
    if s.inst.reply != Served then o == InstancesFailed && v == w.(store := Some(m))
    else if instances == [] || instances[0].status != "RUNNING" then o == InstanceWaits && v == w.(store := Some(m))
    else if instances[0].ips == [] then o == NoInternalIP && v == w.(store := Some(m))
    else
      var i := instances[0];
      var addressed := m.(addresses := [NodeAddress(ExternalIP, i.publicIP), NodeAddress(InternalIP, i.ips[0])]);
      && v == w.(store := Some(addressed.(ready := m.ready || s.node.reply == Served)), nodes := v.nodes,
                 observed := w.observed + [i])
      && (if s.node.reply == Refused then v.nodes == w.nodes
          else NodePatched(w.nodes, v.nodes, i.ips[0], "coxedge://" + id))
      && o == if s.node.reply == Served then BecameReady else NodeFailed
  }

  lemma StillDrift(w: World)
    ensures Drift(w, []) == w
  {
  }

  lemma PatchedMeaning(nodes: seq<Node>, external: string, ip: string, providerID: string)
    ensures var addresses := [NodeAddress(ExternalIP, external), NodeAddress(InternalIP, ip)];
            NodePatched(nodes, PatchNodes(nodes, addresses, providerID), ip, providerID)
  {
    var addresses := [NodeAddress(ExternalIP, external), NodeAddress(InternalIP, ip)];
    assert InternalIPs(addresses) == {ip} by {
      assert NodeAddress(InternalIP, ip) in addresses;
    }
    forall n: Node ensures Matches(n, {ip}) <==> HasInternal(n, ip) {
    }
    PatchNodesMeaning(nodes, addresses, providerID);
    hide PatchNodes, InternalIPs, Matches, HasInternal;
  }

  /** Bringing up leaves exactly that, for a workload id that does not contain the scheme. */
  lemma BringUpMeaning(w: World, m: Machine, s: Schedule, id: string)
    requires w.store.Some? && !w.store.value.deleting && s.close.reply != Refused && Still(s)
    requires !m.deleting && m.finalizer
    requires m.providerID == "coxedge://" + id && !Contains(id, "coxedge://")
    ensures var (v, o) := BringUp(w, m, s); Brought(w, s, id, m, v, o)
  {
    ProviderIDRoundTrip(id);
    var instances := InstancesAt(w, id);
    if |instances| > 0 && |instances[0].ips| > 0 {
      PatchedMeaning(w.nodes, instances[0].publicIP, instances[0].ips[0], m.providerID);
    }
    forall u: World ensures Drift(u, []) == u {
      StillDrift(u);
    }
    hide Drift, WorkloadIDOf, PatchNodes, NodePatched, Contains;
  }

  // ----- passes over a live machine -----

  /** Gates shut, or no answer from the list, or a name that cannot be cut: the finalizer is stored,
      and nothing else happens. */
  lemma StoppedMeaning(w: World, s: Schedule)
    requires w.store.Some? && !w.store.value.deleting && s.close.reply != Refused && Still(s)
    ensures var (v, o) := Pass(w, s);
            var stopped := w.(store := Some(w.store.value.(finalizer := true)));
            && (!s.gates ==> v == stopped && o == Gated)
            && (s.gates && s.list.reply != Served ==> v == stopped && o == Broken)
            && (s.gates && s.list.reply == Served && ShortenName(w.name, 18).None? ==> v == stopped && o == NameTooLong)
  {
    StillDrift(w);
    hide ShortenName, FindByName, BringUp, CreateAndClose;
  }

  /** A listed workload is found by name, whatever the machine knew: its provider id is rewritten, and
      the machine is brought up from it. */
  lemma ByNameMeaning(w: World, s: Schedule, i: nat)
    requires Open(w, s) && s.list.reply == Served && ListedFirst(w, i) && !Contains(w.workloads[i].id, "coxedge://")
    ensures var (v, o) := Pass(w, s);
            var id := w.workloads[i].id;
            Brought(w, s, id, w.store.value.(finalizer := true, providerID := "coxedge://" + id), v, o)
  {
    var id := w.workloads[i].id;
    StillDrift(w);
    FindByNameAt(w.workloads, w.workloads[i].name, i);
    BringUpMeaning(w, w.store.value.(finalizer := true, providerID := "coxedge://" + id), s, id);
    hide ShortenName, FindByName, BringUp, CreateAndClose, Brought, Contains;
  }

  /** Otherwise a machine that has a task and no provider id polls it and stores the status it read:
      SUCCESS locates the workload, FAILURE is an error, anything else waits. A poll without an
      answer, or for a task the cloud does not know, is an error too. */
  lemma ByTaskMeaning(w: World, s: Schedule)
    requires Open(w, s) && s.list.reply == Served && NotListed(w)
    requires w.store.value.providerID == "" && w.store.value.taskID != ""
    ensures var (v, o) := Pass(w, s);
            var m := w.store.value.(finalizer := true);
            if s.task.reply != Served || m.taskID !in w.tasks then v == w.(store := Some(m)) && o == Broken
            else
              var t := w.tasks[m.taskID];
              var polled := m.(taskStatus := t.status);
              if t.status == "SUCCESS" then
                !Contains(t.workloadID, "coxedge://") ==>
                  Brought(w, s, t.workloadID, polled.(providerID := "coxedge://" + t.workloadID), v, o)
              else v == w.(store := Some(polled)) && o == if t.status == "FAILURE" then Broken else InProgress
  {
    var m := w.store.value.(finalizer := true);
    StillDrift(w);
    NotFound(w);
    if m.taskID in w.tasks {
      var t := w.tasks[m.taskID];
      if t.status == "SUCCESS" && !Contains(t.workloadID, "coxedge://") {
        BringUpMeaning(w, m.(taskStatus := t.status, providerID := "coxedge://" + t.workloadID), s, t.workloadID);
      }
    }
    hide ShortenName, FindByName, BringUp, CreateAndClose, Brought, Contains;
  }

  lemma NotFound(w: World)
    requires NotListed(w)
    ensures FindByName(w.workloads, ShortenName(w.name, NAME_LIMIT).value).None?
  {
    FindByNameMeaning(w.workloads, ShortenName(w.name, NAME_LIMIT).value);
  }

  /** Otherwise it creates: the task id of an answered create is stored, and an accepted create whose
      answer is lost or whose task id is empty leaves the mark. */
  lemma CreatingMeaning(w: World, s: Schedule)
    requires Open(w, s) && s.list.reply == Served && NotListed(w) && !w.untracked
    requires w.store.value.providerID != "" || w.store.value.taskID == ""
    ensures var (v, o) := Pass(w, s);
            var m := w.store.value.(finalizer := true);
            var granted := w.(tasks := w.tasks[s.newTask := Task("", s.newWorkload)], used := w.used + {s.newWorkload},
                              created := w.created + [Receipt(s.newTask, s.newWorkload)]);
            if !s.bootstrap then v == w.(store := Some(m)) && o == NoBootstrap
            else if s.create.reply == Refused || !Grantable(w, s.newTask, s.newWorkload) then
              v == w.(store := Some(m)) && o == CreateFailed
            else if s.create.reply == ReplyLost then
              v == granted.(store := Some(m), untracked := true) && o == CreateFailed
            else
              && v == granted.(store := Some(m.(taskID := s.newTask)), untracked := s.newTask == "")
              && o == CreatedWorkload
  {
    NotFound(w);
    forall u: World ensures Drift(u, []) == u {
      StillDrift(u);
    }
    hide Drift, ShortenName, FindByName, BringUp, Grantable;
  }

  /** Under every interleaving and every answer: a machine becomes ready only in a pass of a live
      machine with open gates whose list, instances, node and closing calls were all answered or, for
      the last, at least stored, and that ended in readiness. */
  lemma BecomesReady(w: World, s: Schedule)
    requires w.store.Some? && !w.store.value.ready
    ensures Pass(w, s).0.store.Some? && Pass(w, s).0.store.value.ready ==>
              && Pass(w, s).1 == BecameReady && !w.store.value.deleting && s.gates
              && s.list.reply == s.inst.reply == s.node.reply == Served && s.close.reply != Refused
  {
    var m := Starting(w.store.value);
    var step := Locate(w, m, s);
    hide Pass, Locate, Close, BringUp, TearDown, CreateAndClose;
    BringUpOrNot(w, s);
    LocateUnready(w, m, s);
    CloseUnready(w, m, s);
    CloseUnready(step.world, step.mem, s);
    CloseUnready(step.world, step.mem.(finalizer := false), s);
    PartsUnready(step.world, step.mem, s);
  }

  /** A pass brings the machine up, or ends in another of its parts. */
  lemma BringUpOrNot(w: World, s: Schedule)
    requires w.store.Some?
    ensures var v, step := Pass(w, s), Locate(w, Starting(w.store.value), s);
            || (v == BringUp(step.world, step.mem, s)
                && !w.store.value.deleting && s.gates && step.verdict == Located)
            || v.0 == Close(w, Starting(w.store.value), s)
            || v.0 == Close(step.world, step.mem, s)
            || v.0 == Close(step.world, step.mem.(finalizer := false), s)
            || v.0 == TearDown(step.world, step.mem, s).0
            || v.0 == CreateAndClose(step.world, step.mem, s).0
  {
    hide Locate, Close, BringUp, TearDown, CreateAndClose;
  }

  predicate Unready(w: World) {
    w.store.Some? ==> !w.store.value.ready
  }

  lemma DriftUnready(w: World, events: seq<EnvEvent>)
    requires Unready(w)
    ensures Unready(Drift(w, events))
  {
    DriftStore(w, events);
    hide Drift;
  }

  lemma CloseUnready(w: World, m: Machine, s: Schedule)
    ensures Unready(w) && !m.ready ==> Unready(Close(w, m, s))
    ensures Unready(w) && s.close.reply == Refused ==> Unready(Close(w, m, s))
  {
    if Unready(w) { DriftUnready(w, s.close.drift); }
    hide Drift;
  }

  lemma LocateUnready(w: World, m: Machine, s: Schedule)
    requires Unready(w) && !m.ready
    ensures var step := Locate(w, m, s);
            Unready(step.world) && !step.mem.ready && (s.list.reply != Served ==> step.verdict == Erred)
  {
    DriftUnready(w, s.list.drift);
    DriftUnready(Drift(w, s.list.drift), s.task.drift);
    hide Drift, ShortenName, FindByName;
  }

  lemma PartsUnready(w: World, m: Machine, s: Schedule)
    requires Unready(w) && !m.ready
    ensures Unready(TearDown(w, m, s).0) && Unready(CreateAndClose(w, m, s).0)
    ensures !Unready(BringUp(w, m, s).0) ==>
              && BringUp(w, m, s).1 == BecameReady
              && s.inst.reply == s.node.reply == Served && s.close.reply != Refused
  {
    TearDownUnready(w, m, s);
    CreateUnready(w, m, s);
    BringUpUnready(w, m, s);
    hide TearDown, CreateAndClose, BringUp, Unready;
  }

  lemma TearDownUnready(w: World, m: Machine, s: Schedule)
    requires Unready(w) && !m.ready
    ensures Unready(TearDown(w, m, s).0)
  {
    hide Drift, Close, WorkloadIDOf, Ids;
    var w1 := Drift(w, s.get.drift);
    DriftUnready(w, s.get.drift);
    var w2 := Drift(w1, s.read.drift);
    DriftUnready(w1, s.read.drift);
    var w3 := Drift(w2, s.post.drift);
    DriftUnready(w2, s.post.drift);
    var doomed := w3.(doomed := w3.doomed + {WorkloadIDOf(m.providerID)});
    CloseUnready(w1, m, s);
    CloseUnready(w1, m.(finalizer := false), s);
    CloseUnready(w2, m, s);
    CloseUnready(w3, m, s);
    CloseUnready(doomed, m, s);
    CloseUnready(doomed, m.(finalizer := false), s);
  }

  lemma CreateUnready(w: World, m: Machine, s: Schedule)
    requires Unready(w) && !m.ready
    ensures Unready(CreateAndClose(w, m, s).0)
  {
    hide Drift, Close, Grantable, Tracked;
    DriftUnready(w, s.create.drift);
    var v := Drift(w, s.create.drift);
    CloseUnready(v, m, s);
    CloseUnready(Grant(v, s.newTask, s.newWorkload), m, s);
    CloseUnready(Grant(v, s.newTask, s.newWorkload), m.(taskID := s.newTask), s);
  }

  lemma BringUpUnready(w: World, m: Machine, s: Schedule)
    requires Unready(w) && !m.ready
    ensures !Unready(BringUp(w, m, s).0) ==>
              && BringUp(w, m, s).1 == BecameReady
              && s.inst.reply == s.node.reply == Served && s.close.reply != Refused
  {
    hide Drift, Close, PatchNodes, WorkloadIDOf;
    DriftUnready(w, s.inst.drift);
    var v := Drift(w, s.inst.drift);
    CloseUnready(v, m, s);
    var instances := InstancesOf(v.instances, WorkloadIDOf(m.providerID));
    if |instances| > 0 && |instances[0].ips| > 0 {
      var m' := m.(addresses := ReadyAddresses(instances[0]));
      var seen := v.(observed := v.observed + [instances[0]]);
      DriftUnready(seen, s.node.drift);
      var u := Drift(seen, s.node.drift);
      var p := if s.node.reply == Refused then u else u.(nodes := PatchNodes(u.nodes, m'.addresses, m'.providerID));
      CloseUnready(p, m', s);
      CloseUnready(p, m'.(ready := true), s);
    }
  }

  // ----- passes over a machine being deleted -----

  /** A delete pass whose closing patch is stored, over a machine that still holds its finalizer. */
  predicate Leaves(w: World, s: Schedule) {
    && w.store.Some? && w.store.value.deleting && w.store.value.finalizer
    && s.close.reply != Refused && Still(s)
  }

  /** What the pass does once the workload id is known: a workload that is not listed is taken for
      deleted; one that is listed is read again and deleted. The machine is gone exactly when that
      came to an end, and otherwise stored as located. */
  predicate TornDown(w: World, s: Schedule, id: string, m: Machine, v: World, o: Outcome) {
    var listed := exists x | x in w.workloads :: x.id == id;
    if s.get.reply != Served then v == w.(store := Some(m)) && o == LookupFailed
    else if !listed then v == w.(store := None) && o == FinalizerRemoved
    else if s.read.reply != Served || s.post.reply == Refused then v == w.(store := Some(m)) && o == DeleteFailed
    else if s.post.reply == ReplyLost then
      v == w.(store := Some(m), doomed := w.doomed + {id}) && o == DeleteFailed
    else v == w.(store := None, doomed := w.doomed + {id}) && o == FinalizerRemoved
  }

  lemma TearDownMeaning(w: World, m: Machine, s: Schedule, id: string)
    requires Leaves(w, s) && m.deleting && m.finalizer
    requires m.providerID == "coxedge://" + id && !Contains(id, "coxedge://")
    ensures var (v, o) := TearDown(w, m, s); TornDown(w, s, id, m, v, o)
  {
    ProviderIDRoundTrip(id);
    forall u: World ensures Drift(u, []) == u {
      StillDrift(u);
    }
    hide Drift, WorkloadIDOf, Contains;
  }

  /** Without an answer from the list, or with a name that cannot be cut, nothing happens; with nothing
      listed and nothing to poll, the machine is released at once. */
  lemma DeletingUnlocated(w: World, s: Schedule)
    requires Leaves(w, s)
    ensures var (v, o) := Pass(w, s);
            var m := w.store.value;
            && (s.list.reply != Served ==> v == w && o == Broken)
            && (s.list.reply == Served && ShortenName(w.name, 18).None? ==> v == w && o == NameTooLong)
            && (s.list.reply == Served && NotListed(w) && (m.providerID != "" || m.taskID == "") ==>
                  v == w.(store := None) && o == FinalizerRemoved)
  {
    StillDrift(w);
    if NotListed(w) { NotFound(w); }
    hide ShortenName, FindByName, TearDown;
  }

  /** A listed workload is found by name, and torn down. */
  lemma DeletingByName(w: World, s: Schedule, i: nat)
    requires Leaves(w, s) && s.list.reply == Served
    requires ListedFirst(w, i) && !Contains(w.workloads[i].id, "coxedge://")
    ensures var (v, o) := Pass(w, s);
            var id := w.workloads[i].id;
            TornDown(w, s, id, w.store.value.(providerID := "coxedge://" + id), v, o)
  {
    var id := w.workloads[i].id;
    StillDrift(w);
    FindByNameAt(w.workloads, w.workloads[i].name, i);
    TearDownMeaning(w, w.store.value.(providerID := "coxedge://" + id), s, id);
    hide ShortenName, FindByName, TearDown, TornDown, Contains;
  }

  /** Otherwise a machine that has a task and no provider id polls it, and is torn down when the task
      has succeeded; it waits or errs, still holding its finalizer, when it has not. */
  lemma DeletingByTask(w: World, s: Schedule)
    requires Leaves(w, s) && s.list.reply == Served && NotListed(w)
    requires w.store.value.providerID == "" && w.store.value.taskID != ""
    ensures var (v, o) := Pass(w, s);
            var m := w.store.value;
            if s.task.reply != Served || m.taskID !in w.tasks then v == w && o == Broken
            else
              var t := w.tasks[m.taskID];
              var polled := m.(taskStatus := t.status);
              if t.status == "SUCCESS" then
                !Contains(t.workloadID, "coxedge://") ==>
                  TornDown(w, s, t.workloadID, polled.(providerID := "coxedge://" + t.workloadID), v, o)
              else v == w.(store := Some(polled)) && o == if t.status == "FAILURE" then Broken else InProgress
  {
    var m := w.store.value;
    StillDrift(w);
    NotFound(w);
    if m.taskID in w.tasks {
      var t := w.tasks[m.taskID];
      if t.status == "SUCCESS" && !Contains(t.workloadID, "coxedge://") {
        TearDownMeaning(w, m.(taskStatus := t.status, providerID := "coxedge://" + t.workloadID), s, t.workloadID);
      }
    }
    hide ShortenName, FindByName, TearDown, TornDown, Contains;
  }
}
