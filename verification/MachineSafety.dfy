/** Safety of the machine lifecycle over every run: create once, and never orphan. */
module MachineSafety {
  import opened Wrappers
  import opened Strings
  import opened Naming
  import opened Cloud
  import opened ProviderID
  import opened MachinePass

  // ----- the invariant -----

  function CreatedIds(created: seq<Receipt>): set<string> {
    set r | r in created :: r.workloadID
  }

  /** The list: a workload of the machine's name is one of its creates, and one that has been
      listed stays listed until it is deleted, unless one vanishes. */
  ghost predicate ListInv(name: string, list: seq<Workload>, used: set<string>, appeared: set<string>,
                          doomed: set<string>, ids: set<string>, vanished: bool) {
    && (forall x | x in list :: x.id in used)
    && (forall x | x in list && Own(name, x) :: x.id in appeared)
    && (forall x | x in list && x.id in ids :: Own(name, x))
    && appeared <= ids <= used
    && (!vanished ==> forall id | id in appeared :: OwnListed(name, list, id) || id in doomed)
  }

  /** The tasks: one for each create, and a workload is listed before its task succeeds. */
  ghost predicate TaskInv(tasks: map<string, Task>, created: seq<Receipt>, appeared: set<string>) {
    && (forall r | r in created ::
          && r.taskID in tasks && tasks[r.taskID].workloadID == r.workloadID
          && !Contains(r.workloadID, SCHEME))
    && (forall t | t in tasks ::
          && Receipt(t, tasks[t].workloadID) in created
          && (tasks[t].status == SUCCESS ==> tasks[t].workloadID in appeared))
  }

  /** What holds of the cloud at all times, whatever the controller does. */
  ghost predicate CloudInv(w: World) {
    && ListInv(w.name, w.workloads, w.used, w.appeared, w.doomed, CreatedIds(w.created), w.vanished)
    && TaskInv(w.tasks, w.created, w.appeared)
  }

  /** Taken care of: its delete was accepted, or it has come and gone. */
  ghost predicate Settled(w: World, id: string) {
    id in w.doomed || (id in w.appeared && id !in Ids(w.workloads))
  }

  /** What a machine knows, as long as at most one create was accepted: nothing before it, the
      task afterwards, and at some point the workload. */
  ghost predicate Knows(created: seq<Receipt>, appeared: set<string>, m: Machine) {
    && (|created| == 0 ==> m.taskID == "" && m.providerID == "")
    && (|created| == 1 ==>
          && m.taskID == created[0].taskID && m.taskID != ""
          && (|| m.providerID == ""
              || (&& m.providerID == ProviderIDOf(created[0].workloadID)
                  && created[0].workloadID in appeared)))
  }

  /** The persisted machine knows its workload and holds the finalizer while there is one; a
      machine that is gone left nothing behind. */
  ghost predicate StoreInv(w: World) {
    match w.store
    case None => forall r | r in w.created :: Settled(w, r.workloadID)
    case Some(m) => Knows(w.created, w.appeared, m) && (|w.created| > 0 ==> m.finalizer)
  }

  ghost predicate Inv(w: World) {
    && CloudInv(w)
    && (!w.untracked && |w.created| <= 1 ==> StoreInv(w))
    && (!w.untracked && !w.vanished ==> |w.created| <= 1)
    && (w.store.Some? && !w.store.value.deleting ==> w.doomed == {})
  }

  // ----- the environment keeps it -----

  /** What no environment event does: it adds no create and no delete, forgets nothing, and to
      the persisted machine it can only add the deletion mark, or remove it for lack of a finalizer. */
  ghost predicate Later(w: World, w': World) {
    && w'.name == w.name && w'.created == w.created && w'.doomed == w.doomed
    && w'.untracked == w.untracked && w'.observed == w.observed
    && w.used <= w'.used && w.appeared <= w'.appeared
    && (w.vanished ==> w'.vanished)
    && (w'.store.Some? ==> w.store.Some? && (w'.store == w.store || w'.store == Some(w.store.value.(deleting := true))))
    && (w'.store.None? ==> w.store.None? || !w.store.value.finalizer)
    && (forall t | t in w.tasks :: t in w'.tasks && w'.tasks[t].workloadID == w.tasks[t].workloadID
                                   && (Terminal(w.tasks[t].status) ==> w'.tasks[t] == w.tasks[t]))
    && (forall t | t in w'.tasks :: t in w.tasks)
    && (forall id | Settled(w, id) :: Settled(w', id))
  }

  lemma TaskMovesIsLater(w: World, t: string, status: string)
    requires CloudInv(w)
    ensures Later(w, Env(w, TaskMoves(t, status))) && CloudInv(Env(w, TaskMoves(t, status)))
  {
    hide Contains, ListInv, CreatedIds, Ids;
  }

  lemma OwnListedIn(name: string, list: seq<Workload>, list': seq<Workload>, id: string)
    requires forall x | x in list && x.id == id :: x in list'
    requires OwnListed(name, list, id)
    ensures OwnListed(name, list', id)
  {
    hide Own;
  }

  lemma ListedIsLater(w: World, t: string, at: nat)
    requires CloudInv(w)
    ensures Later(w, Env(w, WorkloadListed(t, at))) && CloudInv(Env(w, WorkloadListed(t, at)))
  {
    var w' := Env(w, WorkloadListed(t, at));
    assert t in w.tasks ==> w.tasks[t].workloadID in CreatedIds(w.created);
    hide Contains, ShortenName, InsertAt, CreatedIds;
    if w' != w {
      var x := Workload(w.tasks[t].workloadID, ShortenName(w.name, NAME_LIMIT).value, "", [], []);
      assert OwnListed(w.name, w'.workloads, x.id) by { assert x in w'.workloads; }
      hide OwnListed, Own;
      forall id | id in w.appeared && OwnListed(w.name, w.workloads, id) {
        OwnListedIn(w.name, w.workloads, w'.workloads, id);
      }
    }
  }

  lemma ForeignIsLater(w: World, x: Workload)
    requires CloudInv(w)
    ensures Later(w, Env(w, ForeignListed(x))) && CloudInv(Env(w, ForeignListed(x)))
  {
    hide Contains, ShortenName, TaskInv, CreatedIds, OwnListed;
    var w' := Env(w, ForeignListed(x));
    if w' != w {
      forall id | id in w.appeared && OwnListed(w.name, w.workloads, id) {
        OwnListedIn(w.name, w.workloads, w'.workloads, id);
      }
    }
  }

  lemma VanishIsLater(w: World, id: string)
    requires CloudInv(w)
    ensures Later(w, Env(w, Vanishes(id))) && CloudInv(Env(w, Vanishes(id)))
  {
    hide Contains, ShortenName, Remove, TaskInv, CreatedIds, OwnListed;
    var w' := Env(w, Vanishes(id));
    if !w'.vanished {
      forall i | i in w.appeared && i !in w.doomed ensures OwnListed(w.name, w'.workloads, i) {
        OwnListedIn(w.name, w.workloads, w'.workloads, i);
      }
    }
  }

  lemma OthersAreLater(w: World, e: EnvEvent)
    requires CloudInv(w) && (e.InstancesChange? || e.NodesChange? || e.DeletionRequested?)
    ensures Later(w, Env(w, e)) && CloudInv(Env(w, e))
  {
    hide ListInv, TaskInv, CreatedIds, Ids;
  }

  lemma EnvIsLater(w: World, e: EnvEvent)
    requires CloudInv(w)
    ensures Later(w, Env(w, e)) && CloudInv(Env(w, e))
  {
    hide Env, Later, CloudInv;
    match e
    case TaskMoves(t, status) => TaskMovesIsLater(w, t, status);
    case WorkloadListed(t, at) => ListedIsLater(w, t, at);
    case ForeignListed(x) => ForeignIsLater(w, x);
    case Vanishes(id) => VanishIsLater(w, id);
    case InstancesChange(_, _) => OthersAreLater(w, e);
    case NodesChange(_) => OthersAreLater(w, e);
    case DeletionRequested => OthersAreLater(w, e);
  }

  lemma LaterKeepsInv(w: World, w': World)
    requires Inv(w) && CloudInv(w') && Later(w, w')
    ensures Inv(w')
  {
    hide CloudInv, Settled;
  }

  lemma LaterTransitive(a: World, b: World, c: World)
    requires Later(a, b) && Later(b, c)
    ensures Later(a, c)
  {
    hide Settled;
  }

  lemma {:induction false} DriftIsLater(w: World, events: seq<EnvEvent>)
    requires CloudInv(w)
    ensures Later(w, Drift(w, events)) && CloudInv(Drift(w, events))
  {
    if |events| > 0 {
      var v := Drift(w, events[..|events| - 1]);
      DriftIsLater(w, events[..|events| - 1]);
      EnvIsLater(v, events[|events| - 1]);
      hide CloudInv, Later, Env;
      LaterTransitive(w, v, Drift(w, events));
    }
  }

  // ----- a pass keeps it -----

  /** The invariant, with the machine in memory knowing what the persisted one does. */
  ghost predicate Holds(w: World, m: Machine) {
    Inv(w) && (!w.untracked && |w.created| <= 1 ==> Knows(w.created, w.appeared, m))
  }

  lemma {:induction false} DriftHolds(w: World, m: Machine, events: seq<EnvEvent>)
    requires Holds(w, m)
    ensures Holds(Drift(w, events), m) && Later(w, Drift(w, events))
  {
    assert CloudInv(w);
    DriftIsLater(w, events);
    hide CloudInv, StoreInv, Drift, Settled;
    LaterKeepsInv(w, Drift(w, events));
    hide Inv;
  }

  ghost predicate AllSettled(w: World) {
    forall r | r in w.created :: Settled(w, r.workloadID)
  }

  lemma AllSettledLater(w: World, w': World)
    requires AllSettled(w) && Later(w, w')
    ensures AllSettled(w')
  {
    hide Settled;
  }

  lemma ListedIsCreated(w: World, x: Workload)
    requires CloudInv(w) && x in w.workloads && Own(w.name, x) && |w.created| <= 1
    ensures |w.created| == 1 && x.id == w.created[0].workloadID && x.id in w.appeared
  {
    hide Contains, OwnListed;
    assert x.id in CreatedIds(w.created);
  }

  /** A workload of this machine that has been listed and is not listed by name any more. */
  lemma AbsentIsGone(w: World, id: string)
    requires CloudInv(w) && id in w.appeared
    requires forall x | x in w.workloads :: !Own(w.name, x)
    ensures id !in Ids(w.workloads)
    ensures !w.vanished ==> id in w.doomed
  {
    hide Contains;
    assert id in CreatedIds(w.created);
  }

  /** What reconcileWorkload establishes. "Not started" means: no create yet, or all of them over
      and done with; and it is only answered again after a create when a workload has vanished
      or is being deleted. "Located" means: the one workload created. */
  ghost predicate Verified(w: World, m: Machine, step: Step) {
    && Holds(step.world, step.mem) && Later(w, step.world)
    && step.mem == m.(providerID := step.mem.providerID, taskStatus := step.mem.taskStatus)
    && (step.mem.providerID == m.providerID || HasPrefix(step.mem.providerID, SCHEME))
    && (step.verdict == NotStarted && !step.world.untracked ==>
          && (|step.world.created| <= 1 ==> AllSettled(step.world))
          && (!step.world.vanished && step.world.doomed == {} ==> step.world.created == []))
    && (step.verdict == Located && !step.world.untracked && |step.world.created| <= 1 ==>
          |step.world.created| == 1 && step.mem.providerID == ProviderIDOf(step.world.created[0].workloadID))
  }

  lemma PollTaskHolds(w: World, m: Machine, s: Schedule)
    requires Holds(w, m)
    ensures Verified(w, m, PollTask(w, m, s))
  {
    hide Drift, Settled, Later, StoreInv, Contains, ListInv;
    DriftHolds(w, m, s.task.drift);
    var v := Drift(w, s.task.drift);
    assert CloudInv(v);
    if m.taskID in v.tasks && v.tasks[m.taskID].status == SUCCESS {
      assert !v.untracked && |v.created| <= 1 ==> |v.created| == 1 by {
        assert Receipt(m.taskID, v.tasks[m.taskID].workloadID) in v.created;
      }
    }
  }

  lemma AbsentHolds(w: World, m: Machine)
    requires Holds(w, m)
    requires forall x | x in w.workloads :: !Own(w.name, x)
    requires |m.providerID| > 0 || m.taskID == ""
    ensures Verified(w, m, Step(w, m, NotStarted))
  {
    hide Contains, OwnListed, Later, TaskInv, StoreInv, Ids;
    LaterReflexive(w);
    if !w.untracked && |w.created| == 1 {
      AbsentIsGone(w, w.created[0].workloadID);
    }
  }

  lemma LaterReflexive(w: World)
    ensures Later(w, w)
  {
    hide Settled;
  }

  lemma VerifiedLater(w: World, v: World, m: Machine, step: Step)
    requires Later(w, v) && Verified(v, m, step)
    ensures Verified(w, m, step)
  {
    hide Holds, Later, AllSettled;
    LaterTransitive(w, v, step.world);
  }

  lemma LocateHolds(w: World, m: Machine, s: Schedule)
    requires Holds(w, m)
    ensures Verified(w, m, Locate(w, m, s))
  {
    DriftHolds(w, m, s.list.drift);
    var v := Drift(w, s.list.drift);
    LaterReflexive(v);
    var step := Locate(w, m, s);
    assert Verified(v, m, step) by {
      if s.list.reply == Served && ShortenName(w.name, NAME_LIMIT).Some? {
        LocateListed(v, m, s);
        hide Verified, Holds, PollTask, FindByName, Later, Drift;
      } else {
        hide Holds, Later, AllSettled, Drift;
      }
    }
    hide Verified, Locate;
    VerifiedLater(w, v, m, step);
  }

  /** The part of Locate after the list has been read. */
  lemma LocateListed(v: World, m: Machine, s: Schedule)
    requires Holds(v, m) && ShortenName(v.name, NAME_LIMIT).Some?
    ensures var found := FindByName(v.workloads, ShortenName(v.name, NAME_LIMIT).value);
            && (found.Some? ==> Verified(v, m, Step(v, m.(providerID := ProviderIDOf(found.value.id)), Located)))
            && (found.None? ==>
                  Verified(v, m, if |m.providerID| > 0 || m.taskID == "" then Step(v, m, NotStarted)
                                 else PollTask(v, m, s)))
  {
    var found := FindByName(v.workloads, ShortenName(v.name, NAME_LIMIT).value);
    FindByNameMeaning(v.workloads, ShortenName(v.name, NAME_LIMIT).value);
    if found.Some? {
      hide Later, StoreInv, TaskInv, ListInv, Settled, PollTask;
      LaterReflexive(v);
      if !v.untracked && |v.created| <= 1 {
        ListedIsCreated(v, found.value);
      }
    } else {
      hide Verified, PollTask;
      if |m.providerID| > 0 || m.taskID == "" {
        AbsentHolds(v, m);
      } else {
        PollTaskHolds(v, m, s);
      }
    }
  }

  /** Closing keeps the invariant when the machine that is written still holds the finalizer, or
      nothing is left to hold it for. */
  lemma CloseHolds(w: World, m: Machine, s: Schedule)
    requires Holds(w, m)
    requires !w.untracked && 0 < |w.created| <= 1 && !m.finalizer ==>
               AllSettled(w) && (w.store.Some? ==> w.store.value.deleting)
    ensures Inv(Close(w, m, s)) && Close(w, m, s).created == w.created
    ensures w.observed == Close(w, m, s).observed
  {
    DriftHolds(w, m, s.close.drift);
    var v := Drift(w, s.close.drift);
    if AllSettled(w) { AllSettledLater(w, v); }
    hide Drift, AllSettled, CloudInv, StoreInv, Persist;
    if v.store.Some? { PersistHolds(v, m); }
  }

  lemma PersistHolds(w: World, m: Machine)
    requires Holds(w, m) && w.store.Some?
    requires !w.untracked && 0 < |w.created| <= 1 && !m.finalizer ==> AllSettled(w) && w.store.value.deleting
    ensures Inv(Persist(w, m)) && Persist(w, m).created == w.created && Persist(w, m).observed == w.observed
  {
    hide ListInv, TaskInv, Knows;
    assert !w.untracked && |w.created| <= 1 && !m.finalizer && w.store.value.deleting ==>
             forall r | r in w.created :: Settled(w.(store := None), r.workloadID);
    hide Settled;
    KnowsMark(w, m);
  }

  /** What a machine knows does not depend on its deletion mark. */
  lemma KnowsMark(w: World, m: Machine)
    ensures Knows(w.created, w.appeared, m.(deleting := true)) == Knows(w.created, w.appeared, m)
    ensures Knows(w.created, w.appeared, m.(deleting := false)) == Knows(w.created, w.appeared, m)
  {
  }

  // ----- the branches of a pass -----

  lemma GrantCloud(w: World, task: string, workload: string)
    requires CloudInv(w) && Grantable(w, task, workload)
    ensures CloudInv(Grant(w, task, workload))
  {
    hide OwnListed, Contains, Own;
    var w' := Grant(w, task, workload);
    assert CreatedIds(w'.created) == CreatedIds(w.created) + {workload};
  }

  /** What a machine says, its deletion mark aside. */
  function Content(m: Machine): Machine {
    m.(deleting := false)
  }

  lemma CloseShape(w: World, m: Machine, s: Schedule)
    requires CloudInv(w)
    ensures var c := Close(w, m, s);
            && c.doomed == w.doomed && c.created == w.created && (w.vanished ==> c.vanished)
            && c.observed == w.observed && c.untracked == w.untracked && w.appeared <= c.appeared
            && (c.store.Some? ==> || Content(c.store.value) == Content(m)
                                  || (w.store.Some? && Content(c.store.value) == Content(w.store.value)))
  {
    hide Drift, CloudInv, Later;
    DriftIsLater(w, s.close.drift);
    LaterShape(w, Drift(w, s.close.drift));
  }

  lemma LaterShape(w: World, v: World)
    requires Later(w, v)
    ensures v.doomed == w.doomed && v.created == w.created && (w.vanished ==> v.vanished)
    ensures v.observed == w.observed && v.untracked == w.untracked && w.appeared <= v.appeared
    ensures v.store.Some? ==> w.store.Some? && Content(v.store.value) == Content(w.store.value)
                              && (w.store.value.deleting ==> v.store.value.deleting)
  {
    hide Settled;
  }

  /** The one case in which an accepted create leaves the machine tracked. */
  lemma TrackedHolds(w: World, m: Machine, n: Machine, c: World)
    requires Holds(w, m) && m.finalizer && !w.untracked && w.doomed == {}
    requires !w.vanished ==> w.created == []
    requires n.taskID != "" && n == m.(taskID := n.taskID)
    requires Inv(c) && c.doomed == {} && (w.vanished ==> c.vanished) && c.untracked
    requires |c.created| == |w.created| + 1 && c.created[|w.created|].taskID == n.taskID
    requires c.store.Some? && c.store.value.taskID == n.taskID
    requires Content(c.store.value) == Content(n) || (w.store.Some? && Content(c.store.value) == Content(w.store.value))
    ensures Inv(c.(untracked := false))
  {
    var r := c.(untracked := false);
    assert CloudInv(r) by { hide ListInv, TaskInv; }
    if |c.created| == 1 {
      assert Knows(w.created, w.appeared, m);
      assert w.store.Some? ==> Knows(w.created, w.appeared, w.store.value);
      assert Content(c.store.value) == Content(n);
    }
    hide CloudInv;
  }

  /** After an accepted create: untracked, unless the persisted machine now names the task. */
  lemma GrantedHolds(w: World, m: Machine, s: Schedule)
    requires Holds(w, m) && m.finalizer && w.doomed == {}
    requires !w.untracked && !w.vanished ==> w.created == []
    requires Grantable(w, s.newTask, s.newWorkload)
    ensures var granted := Grant(w, s.newTask, s.newWorkload);
            && Inv(Close(granted, m, s)) && Close(granted, m, s).observed == w.observed
            && var c := Close(granted, m.(taskID := s.newTask), s);
            && Inv(c.(untracked := w.untracked || !Tracked(c, s.newTask))) && c.observed == w.observed
  {
    GrantCloud(w, s.newTask, s.newWorkload);
    var granted := Grant(w, s.newTask, s.newWorkload);
    var n := m.(taskID := s.newTask);
    hide Close, Grantable, AllSettled, CloudInv, StoreInv, Knows;
    CloseHolds(granted, m, s);
    CloseHolds(granted, n, s);
    CloseShape(granted, n, s);
    var c := Close(granted, n, s);
    assert c == c.(untracked := true);
    if !w.untracked && s.newTask != "" && c.store.Some? && c.store.value.taskID == s.newTask {
      TrackedHolds(w, m, n, c);
    }
  }

  lemma CreateHolds(w0: World, m: Machine, s: Schedule)
    requires Holds(w0, m) && m.finalizer && w0.doomed == {}
    requires !w0.untracked && !w0.vanished ==> w0.created == []
    ensures Inv(CreateAndClose(w0, m, s).0)
    ensures CreateAndClose(w0, m, s).0.observed == w0.observed
  {
    DriftHolds(w0, m, s.create.drift);
    var w := Drift(w0, s.create.drift);
    hide Drift, Inv, Close, Grantable, AllSettled, Grant;
    if s.create.reply == Refused || !Grantable(w, s.newTask, s.newWorkload) {
      CloseHolds(w, m, s);
    } else {
      GrantedHolds(w, m, s);
    }
  }

  /** Observations and nodes are no part of the invariant. */
  lemma HoldsFrame(w: World, m: Machine, observed: seq<Instance>, nodes: seq<Node>)
    requires Holds(w, m)
    ensures Holds(w.(observed := observed, nodes := nodes), m)
  {
    hide ListInv, TaskInv, Knows, Ids;
    var v := w.(observed := observed, nodes := nodes);
    assert forall id | Settled(w, id) :: Settled(v, id);
    hide Settled;
  }

  lemma BringUpHolds(w0: World, m: Machine, s: Schedule)
    requires Holds(w0, m) && m.finalizer
    ensures Inv(BringUp(w0, m, s).0)
  {
    hide Drift, Inv, Holds, Close, AllSettled, Knows, PatchNodes, Later;
    DriftHolds(w0, m, s.inst.drift);
    var w := Drift(w0, s.inst.drift);
    CloseHolds(w, m, s);
    var instances := InstancesOf(w.instances, WorkloadIDOf(m.providerID));
    if |instances| > 0 && |instances[0].ips| > 0 {
      var m' := m.(addresses := ReadyAddresses(instances[0]));
      KnowsStatus(w, m, m');
      var seen := w.(observed := w.observed + [instances[0]]);
      HoldsFrame(w, m', seen.observed, w.nodes);
      assert seen == w.(observed := seen.observed, nodes := w.nodes);
      DriftHolds(seen, m', s.node.drift);
      var w' := Drift(seen, s.node.drift);
      var nodes := if s.node.reply == Refused then w'.nodes else PatchNodes(w'.nodes, m'.addresses, m'.providerID);
      HoldsFrame(w', m', w'.observed, nodes);
      var patched := w'.(observed := w'.observed, nodes := nodes);
      assert s.node.reply == Refused ==> patched == w';
      KnowsStatus(patched, m', m'.(ready := true));
      CloseHolds(patched, m', s);
      CloseHolds(patched, m'.(ready := true), s);
    }
  }

  lemma KnowsStatus(w: World, m: Machine, n: Machine)
    requires Holds(w, m) && n.taskID == m.taskID && n.providerID == m.providerID
    ensures Holds(w, n)
  {
    hide Inv;
  }

  /** A deleting machine stays deleting, or is gone. */
  ghost predicate BeingDeleted(w: World) {
    w.store.Some? ==> w.store.value.deleting
  }

  lemma TearDownHolds(w0: World, m: Machine, s: Schedule)
    requires Holds(w0, m) && BeingDeleted(w0)
    requires !w0.untracked && |w0.created| <= 1 ==> m.finalizer
    requires !w0.untracked && |w0.created| <= 1 ==>
               |w0.created| == 1 && m.providerID == ProviderIDOf(w0.created[0].workloadID)
    ensures Inv(TearDown(w0, m, s).0)
  {
    hide Drift, Inv, Close, AllSettled, Knows, Later;
    var id := WorkloadIDOf(m.providerID);
    DriftDeleted(w0, m, s.get.drift);
    var w1 := Drift(w0, s.get.drift);
    CloseHolds(w1, m, s);
    if id !in Ids(w1.workloads) {
      GoneSettles(w1, m);
      ReleaseHolds(w1, m, s);
    } else {
      DriftDeleted(w1, m, s.read.drift);
      var w2 := Drift(w1, s.read.drift);
      CloseHolds(w2, m, s);
      DriftDeleted(w2, m, s.post.drift);
      var w3 := Drift(w2, s.post.drift);
      CloseHolds(w3, m, s);
      DoomHolds(w3, m, id);
      var doomed := w3.(doomed := w3.doomed + {id});
      CloseHolds(doomed, m, s);
      ReleaseHolds(doomed, m, s);
    }
  }

  lemma {:induction false} DriftDeleted(w: World, m: Machine, events: seq<EnvEvent>)
    requires Holds(w, m) && BeingDeleted(w)
    ensures Holds(Drift(w, events), m) && BeingDeleted(Drift(w, events))
    ensures Drift(w, events).created == w.created && Drift(w, events).untracked == w.untracked
  {
    hide Drift, Holds, Later;
    DriftHolds(w, m, events);
    LaterShape(w, Drift(w, events));
  }

  /** The 404 of GetWorkload: the one workload created has come and gone. */
  lemma GoneSettles(w: World, m: Machine)
    requires Holds(w, m)
    requires !w.untracked && |w.created| <= 1 ==>
               |w.created| == 1 && m.providerID == ProviderIDOf(w.created[0].workloadID)
    requires WorkloadIDOf(m.providerID) !in Ids(w.workloads)
    ensures !w.untracked && |w.created| <= 1 ==> AllSettled(w)
  {
    hide ListInv, Ids;
    if !w.untracked && |w.created| == 1 {
      ProviderIDRoundTrip(w.created[0].workloadID);
    }
  }

  lemma DoomHolds(w: World, m: Machine, id: string)
    requires Holds(w, m) && BeingDeleted(w)
    requires !w.untracked && |w.created| <= 1 ==>
               |w.created| == 1 && m.providerID == ProviderIDOf(w.created[0].workloadID)
    requires id == WorkloadIDOf(m.providerID)
    ensures Holds(w.(doomed := w.doomed + {id}), m)
    ensures !w.untracked && |w.created| <= 1 ==> AllSettled(w.(doomed := w.doomed + {id}))
  {
    hide Contains, OwnListed, CreatedIds, Ids;
    var v := w.(doomed := w.doomed + {id});
    if !w.untracked && |w.created| == 1 {
      ProviderIDRoundTrip(w.created[0].workloadID);
    }
  }

  /** Taking the finalizer off once everything is settled. */
  lemma ReleaseHolds(w: World, m: Machine, s: Schedule)
    requires Holds(w, m) && BeingDeleted(w)
    requires !w.untracked && |w.created| <= 1 ==> AllSettled(w)
    ensures Inv(Close(w, m.(finalizer := false), s))
  {
    hide Inv, AllSettled, Close;
    KnowsStatus(w, m, m.(finalizer := false));
    CloseHolds(w, m.(finalizer := false), s);
  }

  // ----- passes and runs -----

  lemma NormalPassHolds(w: World, s: Schedule)
    requires Inv(w) && w.store.Some? && !w.store.value.deleting
    ensures Inv(NormalPass(w, w.store.value, s).0)
  {
    var m := w.store.value.(finalizer := true);
    assert Holds(w, m) && w.doomed == {} by { hide CloudInv, Knows; KnowsMark(w, m); FinalizerIsNoKnowledge(w); }
    hide Inv, Holds, Close, AllSettled, Later, Locate, CreateAndClose, BringUp;
    LocateHolds(w, m, s);
    var step := Locate(w, m, s);
    LaterShape(w, step.world);
    if !s.gates {
      CloseHolds(w, m, s);
    } else {
      CloseHolds(step.world, step.mem, s);
      if step.verdict == NotStarted && s.bootstrap { CreateHolds(step.world, step.mem, s); }
      if step.verdict == Located { BringUpHolds(step.world, step.mem, s); }
    }
  }

  lemma FinalizerIsNoKnowledge(w: World)
    ensures forall m: Machine, f: bool ::
              Knows(w.created, w.appeared, m.(finalizer := f)) == Knows(w.created, w.appeared, m)
  {
  }

  lemma StoredFinalizer(w: World)
    requires Inv(w) && w.store.Some?
    ensures !w.untracked && 0 < |w.created| <= 1 ==> w.store.value.finalizer
  {
    hide CloudInv, Knows;
  }

  lemma DeletePassHolds(w: World, s: Schedule)
    requires Inv(w) && w.store.Some? && w.store.value.deleting
    ensures Inv(DeletePass(w, w.store.value, s).0)
  {
    var m := w.store.value;
    assert Holds(w, m) by { hide CloudInv, Knows; }
    hide Inv, Holds, Close, AllSettled, Later, Locate, TearDown;
    LocateHolds(w, m, s);
    var step := Locate(w, m, s);
    LaterShape(w, step.world);
    StoredFinalizer(w);
    assert BeingDeleted(step.world);
    if step.verdict == NotStarted {
      ReleaseHolds(step.world, step.mem, s);
    } else if step.verdict == Located {
      TearDownHolds(step.world, step.mem, s);
    } else {
      CloseHolds(step.world, step.mem, s);
    }
  }

  lemma ApplyHolds(w: World, e: Event)
    requires Inv(w)
    ensures Inv(Apply(w, e))
  {
    match e
    case EnvStep(env) =>
      EnvIsLater(w, env);
      hide CloudInv, Env, Later, StoreInv;
      LaterKeepsInv(w, Env(w, env));
    case PassStep(s) =>
      hide Inv, NormalPass, DeletePass;
      if w.store.Some? {
        if w.store.value.deleting { DeletePassHolds(w, s); } else { NormalPassHolds(w, s); }
      }
  }

  lemma InitialHolds(w: World)
    requires Initial(w)
    ensures Inv(w)
  {
  }

  lemma {:induction false} RunHolds(w: World, events: seq<Event>)
    requires Initial(w)
    ensures Inv(Run(w, events))
  {
    if |events| == 0 {
      InitialHolds(w);
    } else {
      hide Inv, Apply, Initial;
      RunHolds(w, events[..|events| - 1]);
      ApplyHolds(Run(w, events[..|events| - 1]), events[|events| - 1]);
    }
  }

  /** Create once. Over every run of a fresh machine - every interleaving of passes, calls, task
      and list changes, deletion requests, refused calls and lost replies - at most one create
      is ever accepted, as long as no accepted create lost its task id and no workload of the
      machine has vanished from the cloud without having been deleted. */
  lemma CreateOnce(w: World, events: seq<Event>)
    requires Initial(w)
    ensures var r := Run(w, events);
            !r.untracked && !r.vanished ==> |r.created| <= 1
  {
    RunHolds(w, events);
  }

  /** Never orphan. In those runs, and also when the workload has vanished, a machine that is gone
      left nothing behind: whatever was created has an accepted delete, or came and went. */
  lemma NeverOrphan(w: World, events: seq<Event>)
    requires Initial(w)
    ensures var r := Run(w, events);
            !r.untracked && |r.created| <= 1 && r.store.None? ==>
              forall c | c in r.created ::
                c.workloadID in r.doomed || (c.workloadID in r.appeared && c.workloadID !in Ids(r.workloads))
  {
    RunHolds(w, events);
    assert StoreInv(Run(w, events)) || Run(w, events).untracked || |Run(w, events).created| > 1;
  }

  /** In those runs the persisted machine is enough to find its workload again: it holds the
      finalizer and names the task, and its provider id, once set, is the created workload's. */
  lemma MachineTracksWorkload(w: World, events: seq<Event>)
    requires Initial(w)
    ensures var r := Run(w, events);
            !r.untracked && |r.created| == 1 && r.store.Some? ==>
              && var m := r.store.value;
              && m.finalizer && m.taskID == r.created[0].taskID != ""
              && (m.providerID != "" ==> WorkloadIDOf(m.providerID) == r.created[0].workloadID
                                         && r.created[0].workloadID in r.appeared)
  {
    RunHolds(w, events);
    var r := Run(w, events);
    if |r.created| == 1 {
      ProviderIDRoundTrip(r.created[0].workloadID);
    }
  }
}
