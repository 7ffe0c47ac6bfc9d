/** What a machine's passes only ever add to, readiness, and the bound on reaching it. */
module MachineProgress {
  import opened Wrappers
  import opened Strings
  import opened Naming
  import opened Cloud
  import opened ProviderID
  import opened MachinePass
  import opened MachineSafety

  // ----- readiness -----

  /** A ready machine has a provider id and the addresses of an instance observed RUNNING. */
  ghost predicate ReadyOk(observed: seq<Instance>, m: Machine) {
    m.ready ==>
      && HasPrefix(m.providerID, SCHEME)
      && exists i | i in observed :: i.status == RUNNING && |i.ips| > 0 && m.addresses == ReadyAddresses(i)
  }

  ghost predicate Good(ready: bool, observed: seq<Instance>, m: Machine) {
    (ready ==> m.ready) && ReadyOk(observed, m)
  }

  /** What never goes back: the flags, the number of creates, failed tasks, the deletion mark, and
      the end of the machine. */
  ghost predicate Forward(w: World, v: World) {
    && v.name == w.name
    && (w.untracked ==> v.untracked) && (w.vanished ==> v.vanished)
    && |w.created| <= |v.created|
    && (forall t | t in w.tasks && w.tasks[t].status == FAILURE :: t in v.tasks && v.tasks[t].status == FAILURE)
    && (w.store.None? ==> v.store.None?)
    && (w.store.Some? && v.store.Some? && w.store.value.deleting ==> v.store.value.deleting)
  }

  /** On the way through a pass that started in `b`. */
  ghost predicate Moving(b: World, ready: bool, w: World) {
    && CloudInv(w) && Forward(b, w)
    && (w.store.Some? ==> Good(ready, w.observed, w.store.value))
  }

  lemma LaterForward(b: World, ready: bool, w: World, v: World)
    requires Moving(b, ready, w) && Later(w, v) && CloudInv(v)
    ensures Moving(b, ready, v)
  {
    hide CloudInv, Settled;
    if v.store.Some? {
      assert v.store.value.ready == w.store.value.ready && v.store.value.addresses == w.store.value.addresses;
    }
  }

  lemma {:induction false} DriftMoving(b: World, ready: bool, w: World, events: seq<EnvEvent>)
    requires Moving(b, ready, w)
    ensures Moving(b, ready, Drift(w, events)) && Drift(w, events).observed == w.observed
    ensures Later(w, Drift(w, events))
  {
    hide Drift, CloudInv, Forward, Good;
    DriftIsLater(w, events);
    hide Later, Moving;
    LaterForward(b, ready, w, Drift(w, events));
    LaterShape(w, Drift(w, events));
  }

  lemma PersistMoving(b: World, ready: bool, w: World, m: Machine)
    requires Moving(b, ready, w) && Good(ready, w.observed, m) && w.store.Some?
    ensures Moving(b, ready, Persist(w, m))
  {
    hide ListInv, TaskInv, ReadyOk;
    MarkIsNoReadiness(w.observed, m);
  }

  lemma MarkIsNoReadiness(observed: seq<Instance>, m: Machine)
    ensures forall d: bool :: ReadyOk(observed, m.(deleting := d)) == ReadyOk(observed, m)
  {
  }

  lemma CloseMoving(b: World, ready: bool, w: World, m: Machine, s: Schedule)
    requires Moving(b, ready, w) && Good(ready, w.observed, m)
    ensures Moving(b, ready, Close(w, m, s))
    ensures s.close.reply == Served && Close(w, m, s).store.Some? ==> Content(Close(w, m, s).store.value) == Content(m)
  {
    hide Drift, Later, Moving, Good;
    DriftMoving(b, ready, w, s.close.drift);
    var v := Drift(w, s.close.drift);
    if v.store.Some? { PersistMoving(b, ready, v, m); }
  }

  /** A provider id of the right form and a task status are no matter of readiness. */
  lemma GoodLocated(ready: bool, observed: seq<Instance>, m: Machine)
    requires Good(ready, observed, m)
    ensures forall status: string :: Good(ready, observed, m.(taskStatus := status))
    ensures forall status: string, id: string ::
              && Good(ready, observed, m.(taskStatus := status, providerID := ProviderIDOf(id)))
              && HasPrefix(ProviderIDOf(id), SCHEME)
  {
    forall id: string ensures HasPrefix(ProviderIDOf(id), SCHEME) {
      assert ProviderIDOf(id)[..|SCHEME|] == SCHEME;
    }
  }

  lemma LocateMoving(b: World, ready: bool, w: World, m: Machine, s: Schedule)
    requires Moving(b, ready, w) && Good(ready, w.observed, m)
    ensures var step := Locate(w, m, s);
            && Moving(b, ready, step.world) && Good(ready, step.world.observed, step.mem)
            && step.mem.finalizer == m.finalizer
            && (step.verdict == Located ==> HasPrefix(step.mem.providerID, SCHEME))
  {
    hide Drift, Moving, Later, FindByName, ShortenName, Good, HasPrefix, ProviderIDOf;
    DriftMoving(b, ready, w, s.list.drift);
    DriftMoving(b, ready, Drift(w, s.list.drift), s.task.drift);
    GoodLocated(ready, w.observed, m);
    assert forall id: string ::
             m.(providerID := ProviderIDOf(id)) == m.(taskStatus := m.taskStatus, providerID := ProviderIDOf(id));
  }

  lemma CreateMoving(b: World, ready: bool, w0: World, m: Machine, s: Schedule)
    requires Moving(b, ready, w0) && Good(ready, w0.observed, m)
    ensures Moving(b, ready, CreateAndClose(w0, m, s).0)
  {
    DriftMoving(b, ready, w0, s.create.drift);
    var w := Drift(w0, s.create.drift);
    if s.create.reply == Refused || !Grantable(w, s.newTask, s.newWorkload) {
      hide Drift, Moving, Close, Later, Grantable;
      CloseMoving(b, ready, w, m, s);
    } else {
      GrantCloud(w, s.newTask, s.newWorkload);
      var granted := Grant(w, s.newTask, s.newWorkload);
      hide Drift, Later, Close, CloudInv, ReadyOk;
      assert Moving(b, ready, granted);
      CloseMoving(b, ready, granted, m, s);
      TaskIsNoReadiness(w.observed, m, s.newTask);
      CloseMoving(b, ready, granted, m.(taskID := s.newTask), s);
      UntrackedMoving(b, w, Close(granted, m.(taskID := s.newTask), s), ready);
    }
  }

  lemma TaskIsNoReadiness(observed: seq<Instance>, m: Machine, task: string)
    ensures ReadyOk(observed, m.(taskID := task)) == ReadyOk(observed, m)
  {
  }

  /** Withdrawing the untracked mark of this very create. */
  lemma UntrackedMoving(b: World, w: World, c: World, ready: bool)
    requires Forward(b, w) && Moving(b, ready, c)
    ensures forall u: bool :: (w.untracked ==> u) ==> Moving(b, ready, c.(untracked := u))
  {
    hide ListInv, TaskInv, Good;
  }

  lemma BringUpMoving(b: World, ready: bool, w0: World, m: Machine, s: Schedule)
    requires Moving(b, ready, w0) && Good(ready, w0.observed, m) && HasPrefix(m.providerID, SCHEME)
    ensures Moving(b, ready, BringUp(w0, m, s).0)
    ensures var (r, o) := BringUp(w0, m, s);
            o == BecameReady && s.close.reply == Served && r.store.Some? ==> r.store.value.ready
  {
    hide Drift, Later, Close, Moving, PatchNodes, HasPrefix, Good, ReadyAddresses, InternalIPs;
    DriftMoving(b, ready, w0, s.inst.drift);
    var w := Drift(w0, s.inst.drift);
    CloseMoving(b, ready, w, m, s);
    var instances := InstancesOf(w.instances, WorkloadIDOf(m.providerID));
    if |instances| > 0 && |instances[0].ips| > 0 && instances[0].status == RUNNING {
      var i := instances[0];
      var m' := m.(addresses := ReadyAddresses(i));
      var seen := w.(observed := w.observed + [i]);
      SeenMoving(b, ready, w, i);
      ObservedGood(ready, w.observed, i, m);
      DriftMoving(b, ready, seen, s.node.drift);
      var w' := Drift(seen, s.node.drift);
      var patched := if s.node.reply == Refused then w'
                     else w'.(nodes := PatchNodes(w'.nodes, m'.addresses, m'.providerID));
      NodesMoving(b, ready, w', patched.nodes);
      assert patched == w'.(nodes := patched.nodes);
      CloseMoving(b, ready, patched, m', s);
      assert m'.(ready := true) == m.(addresses := ReadyAddresses(i), ready := true);
      CloseMoving(b, ready, patched, m'.(ready := true), s);
    }
  }

  lemma ObservedGood(ready: bool, observed: seq<Instance>, i: Instance, m: Machine)
    requires Good(ready, observed, m) && HasPrefix(m.providerID, SCHEME)
    requires i.status == RUNNING && |i.ips| > 0
    ensures Good(ready, observed + [i], m.(addresses := ReadyAddresses(i)))
    ensures Good(ready, observed + [i], m.(addresses := ReadyAddresses(i), ready := true))
  {
    hide HasPrefix;
    assert i in observed + [i];
  }

  lemma SeenMoving(b: World, ready: bool, w: World, i: Instance)
    requires Moving(b, ready, w)
    ensures Moving(b, ready, w.(observed := w.observed + [i]))
  {
    hide ListInv, TaskInv, HasPrefix;
  }

  lemma NodesMoving(b: World, ready: bool, w: World, nodes: seq<Node>)
    requires Moving(b, ready, w)
    ensures Moving(b, ready, w.(nodes := nodes))
  {
    hide ListInv, TaskInv, ReadyOk;
  }

  lemma DoomMoving(b: World, ready: bool, w: World, id: string)
    requires Moving(b, ready, w)
    ensures Moving(b, ready, w.(doomed := w.doomed + {id}))
  {
    hide TaskInv, ReadyOk, OwnListed, CreatedIds, Own;
  }

  lemma TearDownMoving(b: World, ready: bool, w0: World, m: Machine, s: Schedule)
    requires Moving(b, ready, w0) && Good(ready, w0.observed, m)
    ensures Moving(b, ready, TearDown(w0, m, s).0)
  {
    hide Drift, Later, Close, Moving;
    var id := WorkloadIDOf(m.providerID);
    DriftMoving(b, ready, w0, s.get.drift);
    var w1 := Drift(w0, s.get.drift);
    DriftMoving(b, ready, w1, s.read.drift);
    var w2 := Drift(w1, s.read.drift);
    DriftMoving(b, ready, w2, s.post.drift);
    var w3 := Drift(w2, s.post.drift);
    DoomMoving(b, ready, w3, id);
    assert Good(ready, w0.observed, m.(finalizer := false));
    hide Good;
    CloseMoving(b, ready, w1, m, s);
    CloseMoving(b, ready, w1, m.(finalizer := false), s);
    CloseMoving(b, ready, w2, m, s);
    CloseMoving(b, ready, w3, m, s);
    CloseMoving(b, ready, w3.(doomed := w3.doomed + {id}), m, s);
    CloseMoving(b, ready, w3.(doomed := w3.doomed + {id}), m.(finalizer := false), s);
  }

  lemma NormalMoving(b: World, ready: bool, w: World, m0: Machine, s: Schedule)
    requires Moving(b, ready, w) && Good(ready, w.observed, m0)
    ensures Moving(b, ready, NormalPass(w, m0, s).0)
    ensures var (r, o) := NormalPass(w, m0, s);
            o == BecameReady && s.close.reply == Served && r.store.Some? ==> r.store.value.ready
  {
    var m := m0.(finalizer := true);
    assert Good(ready, w.observed, m);
    hide Moving, Good, Close, Locate, CreateAndClose, BringUp;
    LocateMoving(b, ready, w, m, s);
    var step := Locate(w, m, s);
    CloseMoving(b, ready, w, m, s);
    CloseMoving(b, ready, step.world, step.mem, s);
    CreateMoving(b, ready, step.world, step.mem, s);
    if step.verdict == Located { BringUpMoving(b, ready, step.world, step.mem, s); }
    OutcomeOfCreate(step.world, step.mem, s);
  }

  lemma OutcomeOfCreate(w: World, m: Machine, s: Schedule)
    ensures CreateAndClose(w, m, s).1 in {CreateFailed, CreatedWorkload}
  {
    hide Close, Drift, Grantable;
  }

  lemma DeleteMoving(b: World, ready: bool, w: World, m: Machine, s: Schedule)
    requires Moving(b, ready, w) && Good(ready, w.observed, m)
    ensures Moving(b, ready, DeletePass(w, m, s).0) && DeletePass(w, m, s).1 != BecameReady
  {
    LocateMoving(b, ready, w, m, s);
    var step := Locate(w, m, s);
    assert Good(ready, step.world.observed, step.mem.(finalizer := false));
    assert TearDown(step.world, step.mem, s).1 != BecameReady by { hide Close, Drift, Ids, WorkloadIDOf; }
    hide Moving, Good, Close, Locate, TearDown;
    CloseMoving(b, ready, step.world, step.mem, s);
    CloseMoving(b, ready, step.world, step.mem.(finalizer := false), s);
    TearDownMoving(b, ready, step.world, step.mem, s);
  }

  lemma PassMoving(w: World, s: Schedule)
    requires CloudInv(w) && w.store.Some? && ReadyOk(w.observed, w.store.value)
    ensures Moving(w, w.store.value.ready, Pass(w, s).0)
    ensures Pass(w, s).1 == BecameReady && s.close.reply == Served && Pass(w, s).0.store.Some? ==>
              Pass(w, s).0.store.value.ready
  {
    hide CloudInv, ReadyOk, NormalPass, DeletePass;
    NormalMoving(w, w.store.value.ready, w, w.store.value, s);
    DeleteMoving(w, w.store.value.ready, w, w.store.value, s);
  }

  // ----- over runs -----

  ghost predicate RunInv(w: World) {
    Inv(w) && (w.store.Some? ==> ReadyOk(w.observed, w.store.value))
  }

  lemma StepForward(w: World, e: Event)
    requires RunInv(w)
    ensures RunInv(Apply(w, e)) && Forward(w, Apply(w, e))
    ensures w.store.Some? && w.store.value.ready && Apply(w, e).store.Some? ==> Apply(w, e).store.value.ready
  {
    ApplyHolds(w, e);
    assert CloudInv(w);
    match e
    case EnvStep(env) =>
      EnvIsLater(w, env);
      hide CloudInv, Env, StoreInv, Inv, Settled, HasPrefix;
    case PassStep(s) =>
      hide CloudInv, Pass, StoreInv, Inv, ReadyOk;
      if w.store.Some? { PassMoving(w, s); }
  }

  lemma {:induction false} RunInvHolds(w: World, events: seq<Event>)
    requires Initial(w)
    ensures RunInv(Run(w, events))
  {
    hide Inv, Apply, Forward, ReadyOk;
    if |events| == 0 {
      InitialHolds(w);
      NotReady(w);
    } else {
      RunInvHolds(w, events[..|events| - 1]);
      StepForward(Run(w, events[..|events| - 1]), events[|events| - 1]);
    }
  }

  lemma NotReady(w: World)
    requires Initial(w)
    ensures w.store.Some? ==> ReadyOk(w.observed, w.store.value)
  {
  }

  /** Over every run: a machine marked ready has a provider id "coxedge://..." and exactly the
      external and internal address of an instance that was observed RUNNING. */
  lemma ReadyMeaning(w: World, events: seq<Event>)
    requires Initial(w)
    ensures var r := Run(w, events);
            r.store.Some? && r.store.value.ready ==>
              && HasPrefix(r.store.value.providerID, SCHEME)
              && exists i | i in r.observed :: i.status == RUNNING && |i.ips| > 0
                   && r.store.value.addresses == [NodeAddress(ExternalIP, i.publicIP), NodeAddress(InternalIP,
                        i.ips[0])]
  {
    RunInvHolds(w, events);
    var r := Run(w, events);
    if r.store.Some? && r.store.value.ready {
      var i :| i in r.observed && i.status == RUNNING && |i.ips| > 0 && r.store.value.addresses == ReadyAddresses(i);
    }
  }

  lemma RunSplit(w: World, a: seq<Event>, e: Event)
    ensures Run(w, a + [e]) == Apply(Run(w, a), e)
  {
    assert (a + [e])[..|a + [e]| - 1] == a;
  }

  /** Readiness is never withdrawn: along every continuation of every run, a ready machine stays
      ready for as long as it exists. */
  lemma {:induction false} ReadyStays(w: World, events: seq<Event>, more: seq<Event>)
    requires Initial(w)
    requires Run(w, events).store.Some? && Run(w, events).store.value.ready
    ensures Run(w, events + more).store.Some? ==> Run(w, events + more).store.value.ready
  {
    if |more| == 0 {
      assert events + more == events;
    } else {
      var front := more[..|more| - 1];
      assert events + more == (events + front) + [more[|more| - 1]];
      ReadyStays(w, events, front);
      RunInvHolds(w, events + front);
      RunSplit(w, events + front, more[|more| - 1]);
      hide Run, RunInv, Apply, Initial, Forward;
      StepForward(Run(w, events + front), more[|more| - 1]);
      StaysGone(Run(w, events + front), more[|more| - 1]);
    }
  }

  lemma StaysGone(w: World, e: Event)
    requires RunInv(w)
    ensures w.store.None? ==> Apply(w, e).store.None?
  {
    StepForward(w, e);
    hide RunInv, Apply;
  }
}
