/** The CoxMachine reconciler as it is written: a machine object that a pass changes field by
    field, between calls to an API server and a cloud that move on their own. Every method is
    tied to the functions of MachinePass, about which the properties are proved. */
module MachineController {
  import opened Wrappers
  import opened Naming
  import opened Cloud
  import opened ProviderID
  import opened MachinePass
  import opened MachineFrames
  import opened MachineSafety
  import opened MachineLimits

  /** The in-memory CoxMachine of one pass. */
  class CoxMachine {
    var finalizer: bool
    var deleting: bool
    var providerID: string
    var taskID: string
    var taskStatus: string
    var ready: bool
    var addresses: seq<NodeAddress>

    constructor (m: Machine)
      ensures Value() == m
    {
      finalizer, deleting, providerID, taskID := m.finalizer, m.deleting, m.providerID, m.taskID;
      taskStatus, ready, addresses := m.taskStatus, m.ready, m.addresses;
    }

    function Value(): Machine
      reads this
    {
      Machine(finalizer, deleting, providerID, taskID, taskStatus, ready, addresses)
    }

    method SetProviderID(deviceID: string)
      modifies this
      ensures Value() == old(Value()).(providerID := ProviderIDOf(deviceID))
    {
      providerID := SCHEME + deviceID;
    }

    function GetWorkloadID(): string
      reads this
    {
      WorkloadIDOf(providerID)
    }

    method SetAddresses(addrs: seq<NodeAddress>)
      modifies this
      ensures Value() == old(Value()).(addresses := addrs)
    {
      addresses := addrs;
    }
  }

  /** The search of SetNodeProviderID: a set of the machine's internal addresses, then two nested
      loops that stop at the first node with one of them. */
  method SelectNode(nodes: seq<Node>, addresses: seq<NodeAddress>) returns (found: bool, at: nat)
    ensures found <==> exists n | n in nodes :: Matches(n, InternalIPs(addresses))
    ensures found ==> at < |nodes| && Matches(nodes[at], InternalIPs(addresses))
                      && forall j | 0 <= j < at :: !Matches(nodes[j], InternalIPs(addresses))
  {
    var ips: map<string, bool> := map[];
    for i := 0 to |addresses|
      invariant ips.Keys == InternalIPs(addresses[..i])
      invariant forall k | k in ips :: ips[k]
    {
      assert addresses[..i + 1] == addresses[..i] + [addresses[i]];
      if addresses[i].kind == InternalIP {
        ips := ips[addresses[i].address := true];
      }
    }
    assert addresses[..|addresses|] == addresses;
    found, at := false, 0;
    for i := 0 to |nodes|
      invariant !found
      invariant forall j | 0 <= j < i :: !Matches(nodes[j], InternalIPs(addresses))
    {
      var list := nodes[i].addresses;
      for k := 0 to |list|
        invariant !found
        invariant forall j | 0 <= j < k :: !(list[j].kind == InternalIP && list[j].address in InternalIPs(addresses))
      {
        if list[k].kind == InternalIP {
          if list[k].address in ips && ips[list[k].address] {
            found, at := true, i;
            assert list[k] in nodes[i].addresses;
            break;
          }
        }
      }
      if found {
        assert nodes[i] in nodes;
        break;
      }
    }
  }

  /** What closing a pass leaves: when the pass has an accepted create in hand, the create stays
      untracked unless the persisted machine names its task. */
  function Finish(w: World, m: Machine, s: Schedule, inHand: bool, before: bool): World {
    var c := Close(w, m, s);
    if inHand then c.(untracked := before || !Tracked(c, m.taskID)) else c
  }

  /** The API server and the cloud. `inHand` says that the running pass was answered an accepted
      create, and `before` what the untracked mark was until then. */
  class Platform {
    var world: World
    var inHand: bool
    var before: bool

    constructor (w: World)
      ensures world == w && !inHand
    {
      world, inHand, before := w, false, false;
    }

    /** Time passes before a call is served. */
    method Advance(events: seq<EnvEvent>)
      modifies this`world
      ensures world == Drift(old(world), events)
    {
      for i := 0 to |events|
        invariant world == Drift(old(world), events[..i])
      {
        world := Env(world, events[i]);
        assert events[..i + 1][..i] == events[..i];
      }
      assert events[..|events|] == events;
    }

    /** GetWorkloadByName: fetch the list, shorten the name, return the first match. */
    method GetWorkloadByName(call: Slot) returns (r: Result<Workload, Error>)
      modifies this`world
      ensures world == Drift(old(world), call.drift)
      ensures r == if call.reply != Served then Err(Request(Wire)) else Lookup(world.workloads, world.name, None)
    {
      hide Drift, FindByName, ShortenName;
      Advance(call.drift);
      if call.reply != Served {
        return Err(Request(Wire));
      }
      r := ScanByName(world.workloads, world.name);
    }

    /** A SUCCESS that is read names a workload that has been listed: the race between the list
        call and the task is lost by the list, never by the task. */
    method GetTask(id: string, call: Slot) returns (r: Option<Task>)
      modifies this`world
      ensures world == Drift(old(world), call.drift)
      ensures r == if call.reply == Served && id in world.tasks then Some(world.tasks[id]) else None
      ensures CloudInv(old(world)) && r.Some? ==>
                && Receipt(id, r.value.workloadID) in world.created
                && (r.value.status == SUCCESS ==> r.value.workloadID in world.appeared)
    {
      hide Drift, ListInv;
      Advance(call.drift);
      if CloudInv(old(world)) {
        DriftIsLater(old(world), call.drift);
      }
      hide Later;
      r := if call.reply == Served && id in world.tasks then Some(world.tasks[id]) else None;
    }

    /** None is an error; the workload may have been created all the same. */
    method CreateWorkload(call: Slot, task: string, workload: string) returns (r: Option<string>)
      modifies this
      ensures inHand == (old(inHand) || r.Some?)
      ensures r.Some? ==> before == Drift(old(world), call.drift).untracked
      ensures var w := Drift(old(world), call.drift);
              var granted := call.reply != Refused && Grantable(w, task, workload);
              && world == (if granted then Grant(w, task, workload) else w)
              && r == (if granted && call.reply == Served then Some(task) else None)
    {
      Advance(call.drift);
      r := None;
      if call.reply != Refused && Grantable(world, task, workload) {
        if call.reply == Served {
          inHand, before := true, world.untracked;
          r := Some(task);
        }
        world := Grant(world, task, workload);
      }
    }

    method GetInstances(id: string, call: Slot) returns (r: Option<seq<Instance>>)
      modifies this`world
      ensures world == Drift(old(world), call.drift)
      ensures r == if call.reply == Served then Some(InstancesOf(world.instances, id)) else None
    {
      Advance(call.drift);
      r := if call.reply == Served then Some(InstancesOf(world.instances, id)) else None;
    }

    /** A 404 for the one workload of a machine that was located means that nothing is left of it. */
    method GetWorkload(id: string, call: Slot) returns (r: Result<(), Failure>)
      modifies this`world
      ensures world == Drift(old(world), call.drift)
      ensures r == if call.reply != Served then Err(Wire)
                   else if id in Ids(world.workloads) then Ok(()) else Err(Http(404))
      ensures CloudInv(old(world)) && id in old(world).appeared && r == Err(Http(404)) ==>
                id in world.appeared && id !in Ids(world.workloads)
    {
      hide Drift;
      Advance(call.drift);
      if CloudInv(old(world)) {
        DriftIsLater(old(world), call.drift);
        hide CloudInv, Settled;
      }
      if call.reply != Served {
        return Err(Wire);
      }
      r := if id in Ids(world.workloads) then Ok(()) else Err(Http(404));
    }

    /** DeleteWorkload reads the workload once more and posts the delete. */
    method DeleteWorkload(id: string, read: Slot, post: Slot) returns (ok: bool)
      modifies this`world
      ensures var w2 := Drift(old(world), read.drift);
              var w3 := Drift(w2, post.drift);
              var there := read.reply == Served && id in Ids(w2.workloads);
              var accepted := there && post.reply != Refused && id in Ids(w3.workloads);
              && world == (if !there then w2 else if accepted then w3.(doomed := w3.doomed + {id}) else w3)
              && ok == (accepted && post.reply == Served)
    {
      var wl := GetWorkload(id, read);
      if !wl.Ok? {
        return false;
      }
      Advance(post.drift);
      ok := false;
      if post.reply != Refused && id in Ids(world.workloads) {
        world := world.(doomed := world.doomed + {id});
        ok := post.reply == Served;
      }
    }

    /** SetNodeProviderID: list the nodes, select one, patch it when its provider id differs. */
    method SetNodeProviderID(addresses: seq<NodeAddress>, providerID: string, call: Slot) returns (ok: bool)
      modifies this`world
      ensures var w := Drift(old(world), call.drift);
              world == if call.reply == Refused then w else w.(nodes := PatchNodes(w.nodes, addresses, providerID))
      ensures ok == (call.reply == Served)
    {
      Advance(call.drift);
      if call.reply == Refused {
        return false;
      }
      var found, at := SelectNode(world.nodes, addresses);
      FirstMatchIsLeast(world.nodes, InternalIPs(addresses));
      if found {
        FirstMatchAt(world.nodes, InternalIPs(addresses), at);
        var node := world.nodes[at];
        if node.providerID != providerID {
          world := world.(nodes := world.nodes[at := node.(providerID := providerID)]);
        } else {
          assert world.nodes[at := node.(providerID := providerID)] == world.nodes;
        }
      }
      ok := call.reply == Served;
    }

    /** The API server's side of a patch. */
    method Store(m: Machine)
      requires world.store.Some?
      modifies this`world
      ensures world == Persist(old(world), m)
    {
      var deleting := world.store.value.deleting;
      if deleting && !m.finalizer {
        world := world.(store := None);
      } else {
        world := world.(store := Some(m.(deleting := deleting)));
      }
    }

    /** Close of the machine scope. */
    method PatchMachine(m: Machine, s: Schedule)
      modifies this
      ensures world == Finish(old(world), m, s, old(inHand), old(before)) && !inHand
    {
      hide Drift, Tracked, Persist;
      Advance(s.close.drift);
      if s.close.reply != Refused && world.store.Some? {
        Store(m);
      }
      if inHand {
        world := world.(untracked := before || !Tracked(world, m.taskID));
        inHand := false;
      }
    }
  }

  /** The controller's methods on one machine, its platform and the schedule of the pass. */
  class CoxMachineReconciler {

    /** reconcileWorkload. */
    static method ReconcileWorkload(m: CoxMachine, api: Platform, s: Schedule) returns (v: Verdict)
      modifies m, api`world
      ensures Step(api.world, m.Value(), v) == Locate(old(api.world), old(m.Value()), s)
    {
      var workload := api.GetWorkloadByName(s.list);
      DriftFrame(old(api.world), s.list.drift);
      match workload
      case Panic => v := NamePanic;
      case Ok(w) =>
        m.SetProviderID(w.id);
        v := Located;
      case Err(e) =>
        if e != WorkloadNotFound {
          return Erred;
        }
        if |m.providerID| > 0 {
          return NotStarted;
        }
        if m.taskID == "" {
          return NotStarted;
        }
        var task := api.GetTask(m.taskID, s.task);
        if task.None? {
          return Erred;
        }
        m.taskStatus := task.value.status;
        if m.taskStatus == SUCCESS {
          m.SetProviderID(task.value.workloadID);
          v := Located;
        } else if m.taskStatus == FAILURE {
          v := Erred;
        } else {
          v := Pending;
        }
    }

    /** reconcileNormal. */
    static method ReconcileNormal(m: CoxMachine, api: Platform, s: Schedule) returns (o: Outcome)
      requires !api.inHand
      modifies m, api
      ensures (Finish(api.world, m.Value(), s, api.inHand, api.before), o)
              == NormalPass(old(api.world), old(m.Value()), s)
    {
      m.finalizer := true;
      if !s.gates {
        return Gated;
      }
      var v := ReconcileWorkload(m, api, s);
      match v
      case NotStarted =>
        if !s.bootstrap {
          return NoBootstrap;
        }
        var task := api.CreateWorkload(s.create, s.newTask, s.newWorkload);
        if task.None? {
          return CreateFailed;
        }
        m.taskID := task.value;
        return CreatedWorkload;
      case Pending => return InProgress;
      case Erred => return Broken;
      case NamePanic => return NameTooLong;
      case Located =>
        o := BringUpInstance(m, api, s);
    }

    /** The part of reconcileNormal after the workload has been located. */
    static method BringUpInstance(m: CoxMachine, api: Platform, s: Schedule) returns (o: Outcome)
      modifies m, api`world
      ensures (Close(api.world, m.Value(), s), o) == BringUp(old(api.world), old(m.Value()), s)
    {
      var instances := api.GetInstances(m.GetWorkloadID(), s.inst);
      if instances.None? {
        return InstancesFailed;
      }
      if |instances.value| == 0 {
        return InstanceWaits;
      }
      var instance := instances.value[0];
      if instance.status != RUNNING {
        return InstanceWaits;
      }
      if |instance.ips| == 0 {
        return NoInternalIP;
      }
      m.SetAddresses([NodeAddress(ExternalIP, instance.publicIP), NodeAddress(InternalIP, instance.ips[0])]);
      api.world := api.world.(observed := api.world.observed + [instance]);
      var ok := api.SetNodeProviderID(m.addresses, m.providerID, s.node);
      if !ok {
        return NodeFailed;
      }
      m.ready := true;
      o := BecameReady;
    }

    /** reconcileDelete. */
    static method ReconcileDelete(m: CoxMachine, api: Platform, s: Schedule) returns (o: Outcome)
      modifies m, api`world
      ensures (Close(api.world, m.Value(), s), o) == DeletePass(old(api.world), old(m.Value()), s)
    {
      var v := ReconcileWorkload(m, api, s);
      match v
      case NotStarted =>
        m.finalizer := false;
        o := FinalizerRemoved;
      case Pending => o := InProgress;
      case Erred => o := Broken;
      case NamePanic => o := NameTooLong;
      case Located =>
        o := DeleteInstance(m, api, s);
    }

    /** The part of reconcileDelete after the workload has been located. */
    static method DeleteInstance(m: CoxMachine, api: Platform, s: Schedule) returns (o: Outcome)
      modifies m, api`world
      ensures (Close(api.world, m.Value(), s), o) == TearDown(old(api.world), old(m.Value()), s)
    {
      var workloadID := m.GetWorkloadID();
      var found := api.GetWorkload(workloadID, s.get);
      if !found.Ok? {
        if found == Err(Http(404)) {
          m.finalizer := false;
          return FinalizerRemoved;
        }
        return LookupFailed;
      }
      var deleted := api.DeleteWorkload(workloadID, s.read, s.post);
      if !deleted {
        return DeleteFailed;
      }
      m.finalizer := false;
      o := FinalizerRemoved;
    }

    /** Reconcile: read the machine, branch on its deletion mark, and always close the scope. A
      pass keeps the invariant of the lifecycle. */
    static method Reconcile(api: Platform, s: Schedule) returns (o: Outcome)
      requires api.world.store.Some? && !api.inHand
      modifies api
      ensures (api.world, o) == Pass(old(api.world), s) && !api.inHand
      ensures Inv(old(api.world)) ==> Inv(api.world)
    {
      var m := new CoxMachine(api.world.store.value);
      if m.deleting {
        o := ReconcileDelete(m, api, s);
      } else {
        o := ReconcileNormal(m, api, s);
      }
      api.PatchMachine(m.Value(), s);
      if Inv(old(api.world)) {
        ApplyHolds(old(api.world), PassStep(s));
      }
    }

    /** The control loop, from a fresh machine, over any sequence of environment events and passes.
        The history recorded by the platform shows at most one accepted create and no orphan. */
    static method ControlLoop(api: Platform, events: seq<Event>)
      requires Initial(api.world) && !api.inHand
      modifies api
      ensures api.world == Run(old(api.world), events)
      ensures !api.world.untracked && !api.world.vanished ==> |api.world.created| <= 1
      ensures !api.world.untracked && |api.world.created| <= 1 && api.world.store.None? ==>
                forall c | c in api.world.created :: Settled(api.world, c.workloadID)
    {
      ghost var start := api.world;
      for i := 0 to |events|
        invariant api.world == Run(start, events[..i]) && !api.inHand
      {
        assert events[..i + 1][..i] == events[..i];
        match events[i]
        case EnvStep(e) => api.Advance([e]); DriftOne(Run(start, events[..i]), e);
        case PassStep(s) =>
          if api.world.store.Some? {
            var _ := Reconcile(api, s);
          }
      }
      assert events[..|events|] == events;
      CreateOnce(start, events);
      NeverOrphan(start, events);
    }
  }
}
