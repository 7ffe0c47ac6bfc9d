/** What the parts of a machine pass leave alone, whatever the cloud does between its calls. */
module MachineFrames {
  import opened Wrappers
  import opened Naming
  import opened Cloud
  import opened ProviderID
  import opened MachinePass

  /** Same machine, same creates, same tasks, same mark; what has been listed or has vanished is
      remembered. */
  predicate Frame(w: World, v: World) {
    && v.name == w.name && v.created == w.created && v.untracked == w.untracked
    && v.tasks.Keys == w.tasks.Keys
    && w.used <= v.used && w.appeared <= v.appeared && (w.vanished ==> v.vanished)
  }

  /** A machine that is still stored names the task it named before, or the one in memory. */
  predicate KeepsTask(w: World, m: Machine, v: World) {
    v.store.Some? ==>
      w.store.Some? && (v.store.value.taskID == m.taskID || v.store.value.taskID == w.store.value.taskID)
  }

  lemma EnvFrame(w: World, e: EnvEvent)
    ensures Frame(w, Env(w, e)) && Env(w, e).doomed == w.doomed
  {
    hide Remove, InsertAt, OwnListed, Own;
  }

  lemma {:induction false} DriftFrame(w: World, events: seq<EnvEvent>)
    ensures Frame(w, Drift(w, events)) && Drift(w, events).doomed == w.doomed
  {
    hide Env;
    if |events| > 0 {
      DriftFrame(w, events[..|events| - 1]);
      EnvFrame(Drift(w, events[..|events| - 1]), events[|events| - 1]);
    }
  }

  lemma EnvStore(w: World, e: EnvEvent)
    ensures var v := Env(w, e);
            && (w.store.None? ==> v.store.None?)
            && (w.store.Some? ==> (v.store.None? <==> !w.store.value.finalizer && e == DeletionRequested))
            && (w.store.Some? && v.store.Some? ==>
                  && v.store.value == w.store.value.(deleting := v.store.value.deleting)
                  && (w.store.value.deleting ==> v.store.value.deleting))
  {
    hide Remove, InsertAt, OwnListed, Own;
  }

  /** Time alone removes the stored machine exactly when its deletion is requested before it holds a
      finalizer, and otherwise changes nothing of it but the deletion mark. */
  lemma {:induction false} DriftStore(w: World, events: seq<EnvEvent>)
    ensures var v := Drift(w, events);
            && (w.store.None? ==> v.store.None?)
            && (w.store.Some? ==> (v.store.None? <==> !w.store.value.finalizer && DeletionRequested in events))
            && (w.store.Some? && v.store.Some? ==>
                  && v.store.value == w.store.value.(deleting := v.store.value.deleting)
                  && (w.store.value.deleting ==> v.store.value.deleting))
  {
    hide Env;
    if |events| > 0 {
      var front, last := events[..|events| - 1], events[|events| - 1];
      DriftStore(w, front);
      EnvStore(Drift(w, front), last);
      assert DeletionRequested in events <==> DeletionRequested in front || last == DeletionRequested by {
        assert events == front + [last];
      }
    }
  }

  lemma CloseFrame(w: World, m: Machine, s: Schedule)
    ensures Frame(w, Close(w, m, s)) && Close(w, m, s).doomed == w.doomed
    ensures KeepsTask(w, m, Close(w, m, s))
  {
    DriftFrame(w, s.close.drift);
    DriftStore(w, s.close.drift);
    hide Drift;
  }

  lemma LocateFrame(w: World, m: Machine, s: Schedule)
    ensures Frame(w, Locate(w, m, s).world) && Locate(w, m, s).world.doomed == w.doomed
    ensures Locate(w, m, s).mem ==
            m.(providerID := Locate(w, m, s).mem.providerID, taskStatus := Locate(w, m, s).mem.taskStatus)
    ensures KeepsTask(w, m, Locate(w, m, s).world)
  {
    DriftFrame(w, s.list.drift);
    DriftFrame(Drift(w, s.list.drift), s.task.drift);
    DriftStore(w, s.list.drift);
    DriftStore(Drift(w, s.list.drift), s.task.drift);
    hide Drift, ShortenName, FindByName, ProviderIDOf;
  }

  lemma BringUpFrame(w: World, m: Machine, s: Schedule)
    ensures Frame(w, BringUp(w, m, s).0) && KeepsTask(w, m, BringUp(w, m, s).0)
  {
    hide Drift, Close, PatchNodes, WorkloadIDOf;
    DriftFrame(w, s.inst.drift);
    DriftStore(w, s.inst.drift);
    var v := Drift(w, s.inst.drift);
    CloseFrame(v, m, s);
    var instances := InstancesOf(v.instances, WorkloadIDOf(m.providerID));
    if |instances| > 0 && |instances[0].ips| > 0 {
      var m' := m.(addresses := ReadyAddresses(instances[0]));
      var u := Drift(v.(observed := v.observed + [instances[0]]), s.node.drift);
      DriftFrame(v.(observed := v.observed + [instances[0]]), s.node.drift);
      DriftStore(v.(observed := v.observed + [instances[0]]), s.node.drift);
      var p := if s.node.reply == Refused then u else u.(nodes := PatchNodes(u.nodes, m'.addresses, m'.providerID));
      CloseFrame(p, m', s);
      CloseFrame(p, m'.(ready := true), s);
    }
  }

  lemma TearDownFrame(w: World, m: Machine, s: Schedule)
    ensures Frame(w, TearDown(w, m, s).0) && KeepsTask(w, m, TearDown(w, m, s).0)
  {
    hide Drift, Close, WorkloadIDOf, Ids;
    var id := WorkloadIDOf(m.providerID);
    var w1 := Drift(w, s.get.drift);
    var w2 := Drift(w1, s.read.drift);
    var w3 := Drift(w2, s.post.drift);
    var doomed := w3.(doomed := w3.doomed + {id});
    DriftFrame(w, s.get.drift);
    DriftStore(w, s.get.drift);
    DriftFrame(w1, s.read.drift);
    DriftStore(w1, s.read.drift);
    DriftFrame(w2, s.post.drift);
    DriftStore(w2, s.post.drift);
    CloseFrame(w1, m, s);
    CloseFrame(w1, m.(finalizer := false), s);
    CloseFrame(w2, m, s);
    CloseFrame(w3, m, s);
    CloseFrame(doomed, m, s);
    CloseFrame(doomed, m.(finalizer := false), s);
  }

  /** The create adds at most one receipt, and exactly when the cloud accepts it. */
  lemma CreateFrame(w: World, m: Machine, s: Schedule)
    ensures var v := CreateAndClose(w, m, s).0;
            && v.name == w.name && w.appeared <= v.appeared && |v.created| <= |w.created| + 1
            && (|v.created| > |w.created| <==>
                  s.create.reply != Refused && Grantable(Drift(w, s.create.drift), s.newTask, s.newWorkload))
  {
    hide Drift, Close, Grantable, Tracked;
    DriftFrame(w, s.create.drift);
    var v := Drift(w, s.create.drift);
    CloseFrame(v, m, s);
    CloseFrame(Grant(v, s.newTask, s.newWorkload), m, s);
    CloseFrame(Grant(v, s.newTask, s.newWorkload), m.(taskID := s.newTask), s);
  }

  /** The machine a pass starts from: a live one is given the finalizer first. */
  function Starting(stored: Machine): Machine {
    if stored.deleting then stored else stored.(finalizer := true)
  }

  /** A pass ends in one of its parts. */
  lemma PassParts(w: World, s: Schedule)
    requires w.store.Some?
    ensures var m, v := Starting(w.store.value), Pass(w, s).0;
            var step := Locate(w, m, s);
            || (v == Close(w, m, s) && !m.deleting && !s.gates)
            || (&& (m.deleting || s.gates)
                && (|| v == Close(step.world, step.mem, s)
                    || v == Close(step.world, step.mem.(finalizer := false), s)
                    || v == BringUp(step.world, step.mem, s).0
                    || v == TearDown(step.world, step.mem, s).0
                    || v == CreateAndClose(step.world, step.mem, s).0))
  {
    hide Close, Locate, BringUp, TearDown, CreateAndClose;
  }

  // ----- the task a stored machine names -----

  /** The stored machine names no task, or one that was given out. */
  predicate TaskKnown(w: World) {
    w.store.Some? ==> w.store.value.taskID == "" || w.store.value.taskID in w.tasks
  }

  lemma TaskKnownStep(w: World, e: Event)
    requires TaskKnown(w)
    ensures TaskKnown(Apply(w, e))
  {
    match e
    case EnvStep(env) =>
      EnvFrame(w, env);
      EnvStore(w, env);
      hide Env;
    case PassStep(s) =>
      if w.store.Some? {
        PassTask(w, s);
      }
      hide Pass;
  }

  predicate Known(w: World, m: Machine) {
    m.taskID == "" || m.taskID in w.tasks
  }

  lemma KeepsKnown(w: World, m: Machine, v: World)
    requires TaskKnown(w) && Known(w, m) && Frame(w, v) && KeepsTask(w, m, v)
    ensures TaskKnown(v) && Known(v, m)
  {
  }

  lemma CloseTask(w: World, m: Machine, s: Schedule)
    requires TaskKnown(w) && Known(w, m)
    ensures TaskKnown(Close(w, m, s))
  {
    hide Close, TaskKnown, Known, Frame, KeepsTask;
    CloseFrame(w, m, s);
    KeepsKnown(w, m, Close(w, m, s));
  }

  lemma PassTask(w: World, s: Schedule)
    requires w.store.Some? && TaskKnown(w)
    ensures TaskKnown(Pass(w, s).0)
  {
    var m := Starting(w.store.value);
    assert Known(w, m);
    hide Pass, Close, Locate, BringUp, TearDown, CreateAndClose, TaskKnown, Known, Starting;
    PassParts(w, s);
    LocateTask(w, m, s);
    PartsTask(w, m, s);
    PartsTask(Locate(w, m, s).world, Locate(w, m, s).mem, s);
  }

  lemma LocateTask(w: World, m: Machine, s: Schedule)
    requires TaskKnown(w) && Known(w, m)
    ensures TaskKnown(Locate(w, m, s).world) && Known(Locate(w, m, s).world, Locate(w, m, s).mem)
  {
    var step := Locate(w, m, s);
    hide Locate, TaskKnown, Frame, KeepsTask;
    LocateFrame(w, m, s);
    KeepsKnown(w, m, step.world);
    assert step.mem.taskID == m.taskID;
  }

  lemma PartsTask(w: World, m: Machine, s: Schedule)
    requires TaskKnown(w) && Known(w, m)
    ensures TaskKnown(Close(w, m, s)) && TaskKnown(Close(w, m.(finalizer := false), s))
    ensures TaskKnown(BringUp(w, m, s).0) && TaskKnown(TearDown(w, m, s).0) && TaskKnown(CreateAndClose(w, m, s).0)
  {
    assert Known(w, m.(finalizer := false));
    hide Close, BringUp, TearDown, CreateAndClose, TaskKnown, Known, Frame, KeepsTask;
    CloseTask(w, m, s);
    CloseTask(w, m.(finalizer := false), s);
    BringUpFrame(w, m, s);
    KeepsKnown(w, m, BringUp(w, m, s).0);
    TearDownFrame(w, m, s);
    KeepsKnown(w, m, TearDown(w, m, s).0);
    CreateTask(w, m, s);
  }

  lemma CreateTask(w: World, m: Machine, s: Schedule)
    requires TaskKnown(w) && Known(w, m)
    ensures TaskKnown(CreateAndClose(w, m, s).0)
  {
    hide Drift, Close, Tracked;
    var v := Drift(w, s.create.drift);
    var granted := Grant(v, s.newTask, s.newWorkload);
    DriftFrame(w, s.create.drift);
    DriftStore(w, s.create.drift);
    CloseFrame(v, m, s);
    CloseFrame(granted, m, s);
    CloseFrame(granted, m.(taskID := s.newTask), s);
  }

  lemma {:induction false} TaskKnownHolds(w: World, events: seq<Event>)
    requires Initial(w)
    ensures TaskKnown(Run(w, events))
  {
    hide Apply;
    if |events| > 0 {
      TaskKnownHolds(w, events[..|events| - 1]);
      TaskKnownStep(Run(w, events[..|events| - 1]), events[|events| - 1]);
    }
  }
}
