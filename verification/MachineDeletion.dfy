/** When the machine being deleted is released: exactly when at the next undisturbed pass, how soon
    over a run, and when never. */
module MachineDeletion {
  import opened Wrappers
  import opened Strings
  import opened Naming
  import opened Cloud
  import opened ProviderID
  import opened MachinePass
  import opened MachineFrames
  import opened MachineSafety
  import opened MachineProgress
  import opened MachineBounds
  import opened MachineLimits

  /** A delete pass with every call it makes served. */
  predicate ServedDelete(s: Schedule) {
    s.list.reply == s.task.reply == s.get.reply == s.read.reply == s.post.reply == s.close.reply == Served
  }

  /** And the environment standing still. */
  predicate CalmDelete(s: Schedule) {
    && ServedDelete(s)
    && s.list.drift == s.task.drift == s.get.drift == s.read.drift == s.post.drift == s.close.drift == []
  }

  // ----- the next undisturbed pass -----

  /** The name can be shortened, and a workload of the machine is listed, or it has been located
      before, or nothing was ever created, or its task has succeeded. */
  predicate Releasable(w: World, m: Machine) {
    && ShortenName(w.name, NAME_LIMIT).Some?
    && (|| (exists x | x in w.workloads :: Own(w.name, x))
        || m.providerID != "" || m.taskID == ""
        || (m.taskID in w.tasks && w.tasks[m.taskID].status == SUCCESS))
  }

  /** An undisturbed delete pass releases the machine exactly then. */
  lemma ReleaseMeaning(w: World, s: Schedule)
    requires w.store.Some? && w.store.value.deleting && w.store.value.finalizer
    requires CalmDelete(s)
    ensures Pass(w, s).0.store.None? <==> Releasable(w, w.store.value)
  {
    assert Drift(w, []) == w;
    if ShortenName(w.name, NAME_LIMIT).Some? {
      FindByNameMeaning(w.workloads, ShortenName(w.name, NAME_LIMIT).value);
      var found := FindByName(w.workloads, ShortenName(w.name, NAME_LIMIT).value);
      assert found.Some? <==> exists x | x in w.workloads :: Own(w.name, x);
    }
    hide ShortenName, FindByName, WorkloadIDOf, Own;
    CalmTearDown(w, Locate(w, w.store.value, s).mem, s);
  }

  /** Once the workload is located, an undisturbed pass releases the machine whether the workload
      is still there or not. */
  lemma CalmTearDown(w: World, m: Machine, s: Schedule)
    requires w.store.Some? && w.store.value.deleting && CalmDelete(s)
    ensures TearDown(w, m, s).0.store.None?
  {
    var doomed := w.(doomed := w.doomed + {WorkloadIDOf(m.providerID)});
    assert Drift(w, []) == w && Drift(doomed, []) == doomed;
    hide WorkloadIDOf;
  }

  // ----- never -----

  /** A fresh machine whose create is accepted and whose task then fails is such a machine: the
      state of FailedForever is reached. */
  lemma FailureReached(w: World, s: Schedule)
    requires Initial(w) && NoneListed(w) && Calm(s)
    requires s.newTask != "" && Grantable(w, s.newTask, s.newWorkload)
    ensures TaskFailed(Run(w, [PassStep(s), EnvStep(TaskMoves(s.newTask, FAILURE))]), Receipt(s.newTask, s.newWorkload))
  {
    var events := [PassStep(s), EnvStep(TaskMoves(s.newTask, FAILURE))];
    RunHolds(w, events);
    CreatingPass(w, s);
    RunOne(w, PassStep(s));
    RunSplit(w, [PassStep(s)], events[1]);
    assert [PassStep(s)] + [events[1]] == events;
    hide Run, Inv, Pass, ShortenName, Own;
  }

  /** So is the state that lasts for good: its workload listed and gone before any pass saw it. */
  lemma LostFailureReached(w: World, s: Schedule, at: nat)
    requires Initial(w) && NoneListed(w) && Calm(s)
    requires s.newTask != "" && Grantable(w, s.newTask, s.newWorkload)
    ensures var r := Run(w, [PassStep(s), EnvStep(WorkloadListed(s.newTask, at)), EnvStep(Vanishes(s.newWorkload)),
                             EnvStep(TaskMoves(s.newTask, FAILURE))]);
            TaskFailed(r, Receipt(s.newTask, s.newWorkload)) && s.newWorkload in r.appeared
  {
    var e1, e2 := EnvStep(WorkloadListed(s.newTask, at)), EnvStep(Vanishes(s.newWorkload));
    var e3 := EnvStep(TaskMoves(s.newTask, FAILURE));
    RunHolds(w, [PassStep(s), e1, e2, e3]);
    RunFour(w, PassStep(s), e1, e2, e3);
    CreatingPass(w, s);
    ListAndLose(Apply(w, PassStep(s)), s.newTask, s.newWorkload, at);
    hide Run, Inv, Pass, ShortenName, Own, Env;
  }

  lemma ListAndLose(w: World, task: string, id: string, at: nat)
    requires NoneListed(w) && w.tasks == map[task := Task("", id)] && w.appeared == {}
    ensures var r := Env(Env(Env(w, WorkloadListed(task, at)), Vanishes(id)), TaskMoves(task, FAILURE));
            && r.name == w.name && r.store == w.store && r.created == w.created && r.untracked == w.untracked
            && r.appeared == {id} && r.tasks == map[task := Task(FAILURE, id)]
            && forall x | x in r.workloads :: !Own(r.name, x)
  {
    hide ShortenName, InsertAt, OwnListed;
    var l := Env(w, WorkloadListed(task, at));
    assert forall x | x in l.workloads && Own(w.name, x) :: x.id == id;
  }

  /** A failed task keeps a deleting machine, exactly: one undisturbed pass keeps it iff no workload
      of it is listed and it was never located. That is for good iff its workload has been listed
      already; otherwise any run that releases it lists the workload first, and listing it and
      one undisturbed pass do release it. */
  lemma FailureKeepsForever(w: World, r: Receipt, s: Schedule)
    requires Inv(w) && !w.untracked && w.created == [r] && w.store.Some? && w.store.value.deleting
    requires r.taskID in w.tasks && w.tasks[r.taskID].status == FAILURE
    requires ShortenName(w.name, NAME_LIMIT).Some? && CalmDelete(s)
    ensures Pass(w, s).0.store.Some? <==> TaskFailed(w, r)
    ensures (forall events :: Run(w, events).store.Some?) <==> TaskFailed(w, r) && r.workloadID in w.appeared
    ensures TaskFailed(w, r) ==> forall events :: Run(w, events).store.None? ==> r.workloadID in Run(w, events).appeared
    ensures r.workloadID !in w.appeared ==>
              Run(w, [EnvStep(WorkloadListed(r.taskID, 0)), PassStep(s)]).store.None?
  {
    assert w.store.value.finalizer && w.store.value.taskID == r.taskID != "" by { hide CloudInv; }
    assert w.tasks[r.taskID].workloadID == r.workloadID by { hide StoreInv, ListInv, Contains; }
    ReleaseMeaning(w, s);
    RunOne(w, PassStep(s));
    if r.workloadID !in w.appeared {
      ListedReleases(w, r.taskID, s);
    }
    hide Inv, Pass, Run, ShortenName, Own, CalmDelete;
    if TaskFailed(w, r) {
      forall events | Run(w, events).store.None? ensures r.workloadID in Run(w, events).appeared {
        if r.workloadID !in Run(w, events).appeared {
          FailedForever(w, r, events);
        }
      }
      if r.workloadID in w.appeared {
        forall events ensures Run(w, events).store.Some? {
          FailedForever(w, r, events);
        }
      }
    } else {
      assert Run(w, [PassStep(s)]).store.None?;
    }
  }

  lemma ListedReleases(w: World, task: string, s: Schedule)
    requires w.store.Some? && w.store.value.deleting && w.store.value.finalizer
    requires task in w.tasks && w.tasks[task].workloadID !in w.appeared
    requires ShortenName(w.name, NAME_LIMIT).Some? && CalmDelete(s)
    ensures Run(w, [EnvStep(WorkloadListed(task, 0)), PassStep(s)]).store.None?
  {
    var e := EnvStep(WorkloadListed(task, 0));
    var v := Apply(w, e);
    assert v.workloads[0] in v.workloads && Own(v.name, v.workloads[0]);
    ReleaseMeaning(v, s);
    RunOne(w, e);
    RunSplit(w, [e], PassStep(s));
    assert [e] + [PassStep(s)] == [e, PassStep(s)];
    hide Run, Pass, ShortenName, Own, InsertAt;
  }

  // ----- how soon -----

  /** A workload that has been listed and is not any more. */
  predicate WentAway(w: World, id: string) {
    id in w.appeared && id in w.used && id !in Ids(w.workloads)
  }

  lemma EnvWentAway(w: World, e: EnvEvent, id: string)
    requires WentAway(w, id)
    ensures WentAway(Env(w, e), id)
  {
    hide Own, OwnListed, ShortenName;
  }

  lemma {:induction false} DriftWentAway(w: World, events: seq<EnvEvent>, id: string)
    requires WentAway(w, id)
    ensures WentAway(Drift(w, events), id)
  {
    hide WentAway, Env;
    if |events| > 0 {
      DriftWentAway(w, events[..|events| - 1], id);
      EnvWentAway(Drift(w, events[..|events| - 1]), events[|events| - 1], id);
    }
  }

  lemma CloseWentAway(w: World, m: Machine, s: Schedule, id: string)
    requires WentAway(w, id)
    ensures WentAway(Close(w, m, s), id)
  {
    DriftWentAway(w, s.close.drift, id);
    hide Drift;
  }

  lemma LocateWentAway(w: World, m: Machine, s: Schedule, id: string)
    requires WentAway(w, id)
    ensures WentAway(Locate(w, m, s).world, id)
  {
    DriftWentAway(w, s.list.drift, id);
    DriftWentAway(Drift(w, s.list.drift), s.task.drift, id);
    hide Drift, WentAway, ShortenName, FindByName;
  }

  lemma TearDownWentAway(w: World, m: Machine, s: Schedule, id: string)
    requires WentAway(w, id)
    ensures WentAway(TearDown(w, m, s).0, id)
  {
    hide Drift, Close, WorkloadIDOf;
    var w1 := Drift(w, s.get.drift);
    var w2 := Drift(w1, s.read.drift);
    var w3 := Drift(w2, s.post.drift);
    var doomed := w3.(doomed := w3.doomed + {WorkloadIDOf(m.providerID)});
    DriftWentAway(w, s.get.drift, id);
    DriftWentAway(w1, s.read.drift, id);
    DriftWentAway(w2, s.post.drift, id);
    CloseWentAway(w1, m, s, id);
    CloseWentAway(w1, m.(finalizer := false), s, id);
    CloseWentAway(w2, m, s, id);
    CloseWentAway(w3, m, s, id);
    CloseWentAway(doomed, m, s, id);
    CloseWentAway(doomed, m.(finalizer := false), s, id);
  }

  lemma PassWentAway(w: World, s: Schedule, id: string)
    requires w.store.Some? && w.store.value.deleting && WentAway(w, id)
    ensures WentAway(Pass(w, s).0, id)
  {
    var step := Locate(w, w.store.value, s);
    hide WentAway, Close, Locate, TearDown;
    LocateWentAway(w, w.store.value, s, id);
    CloseWentAway(step.world, step.mem, s, id);
    CloseWentAway(step.world, step.mem.(finalizer := false), s, id);
    TearDownWentAway(step.world, step.mem, s, id);
  }

  /** The created workloads that have not gone yet. */
  ghost function Left(w: World): set<string> {
    set id | id in CreatedIds(w.created) && !WentAway(w, id)
  }

  /** A machine being deleted, in any state a run can leave it in. */
  ghost predicate Leaving(w: World) {
    && CloudInv(w) && TaskKnown(w) && ShortenName(w.name, NAME_LIMIT).Some?
    && w.store.Some? && w.store.value.deleting
  }

  ghost predicate NoFailure(w: World) {
    forall t | t in w.tasks :: w.tasks[t].status != FAILURE
  }

  /** No delete pass creates, and none brings a workload back, whatever its calls are answered. */
  lemma LeftShrinks(w: World, s: Schedule)
    requires w.store.Some? && w.store.value.deleting
    ensures Pass(w, s).0.created == w.created && Left(Pass(w, s).0) <= Left(w)
  {
    var step := Locate(w, w.store.value, s);
    assert Pass(w, s).0.created == w.created by {
      hide Close, Locate, TearDown;
      LocateFrame(w, w.store.value, s);
      CloseFrame(step.world, step.mem, s);
      CloseFrame(step.world, step.mem.(finalizer := false), s);
      TearDownFrame(step.world, step.mem, s);
    }
    hide Pass, WentAway, CreatedIds;
    forall id | WentAway(w, id) ensures WentAway(Pass(w, s).0, id) {
      PassWentAway(w, s, id);
    }
  }

  /** Closing for a released machine removes it. */
  lemma ReleasedClose(w: World, m: Machine, s: Schedule)
    requires BeingDeleted(w) && s.close.reply == Served && !m.finalizer
    ensures Close(w, m, s).store.None?
  {
    DriftStore(w, s.close.drift);
    hide Drift;
  }

  /** Tearing a workload down: released, unless it goes away between two calls. */
  lemma ServedTearDown(w: World, m: Machine, s: Schedule, id: string)
    requires BeingDeleted(w) && ServedDelete(s) && WorkloadIDOf(m.providerID) == id
    requires id in w.appeared && id in w.used
    ensures var (v, o) := TearDown(w, m, s);
            && o in {DeleteFailed, FinalizerRemoved}
            && (o == FinalizerRemoved ==> v.store.None?)
            && (o == DeleteFailed ==> !WentAway(w, id) && WentAway(v, id))
  {
    hide Drift, Close, WorkloadIDOf;
    var w1 := Drift(w, s.get.drift);
    var w2 := Drift(w1, s.read.drift);
    var w3 := Drift(w2, s.post.drift);
    var doomed := w3.(doomed := w3.doomed + {id});
    DriftStore(w, s.get.drift);
    DriftStore(w1, s.read.drift);
    DriftStore(w2, s.post.drift);
    ReleasedClose(w1, m.(finalizer := false), s);
    ReleasedClose(doomed, m.(finalizer := false), s);
    DriftFrame(w, s.get.drift);
    DriftFrame(w1, s.read.drift);
    DriftFrame(w2, s.post.drift);
    if WentAway(w, id) { DriftWentAway(w, s.get.drift, id); }
    if WentAway(w2, id) { CloseWentAway(w2, m, s, id); }
    if WentAway(w3, id) { CloseWentAway(w3, m, s, id); }
  }

  /** What reconcileWorkload answers when no task has failed. */
  lemma LeavingStep(w: World, s: Schedule)
    requires Leaving(w) && ServedDelete(s)
    requires forall t | t in Locate(w, w.store.value, s).world.tasks ::
               Locate(w, w.store.value, s).world.tasks[t].status != FAILURE
    ensures var step := Locate(w, w.store.value, s);
            step.verdict in {Located, NotStarted, Pending} && BeingDeleted(step.world)
  {
    var v := Drift(w, s.list.drift);
    DriftStore(w, s.list.drift);
    DriftStore(v, s.task.drift);
    DriftFrame(w, s.list.drift);
    DriftFrame(v, s.task.drift);
    hide Drift, ShortenName, FindByName, ProviderIDOf, CloudInv;
  }

  /** A workload that was located, by name or by its task, is one that was created and listed. */
  lemma LocatedPlain(w: World, m: Machine, s: Schedule)
    requires CloudInv(w) && Locate(w, m, s).verdict == Located
    ensures var step := Locate(w, m, s);
            var id := WorkloadIDOf(step.mem.providerID);
            id in step.world.appeared && id in step.world.used && id in CreatedIds(w.created)
  {
    var v := Drift(w, s.list.drift);
    var u := Drift(v, s.task.drift);
    DriftFrame(w, s.list.drift);
    DriftFrame(v, s.task.drift);
    LocateLater(w, m, s);
    DriftIsLater(w, s.list.drift);
    var short := ShortenName(v.name, NAME_LIMIT);
    hide Drift, ShortenName, CloudInv, Later, CreatedIds;
    if short.Some? && FindByName(v.workloads, short.value).Some? {
      FindByNameMeaning(v.workloads, short.value);
      ListedPlain(v, FindByName(v.workloads, short.value).value);
    } else {
      SuccessPlain(u, m.taskID);
    }
    hide FindByName, ProviderIDOf, WorkloadIDOf, Own;
  }

  /** A listed workload of the machine is one that was created, and its id survives the codec. */
  lemma ListedPlain(w: World, x: Workload)
    requires CloudInv(w) && x in w.workloads && Own(w.name, x)
    ensures WorkloadIDOf(ProviderIDOf(x.id)) == x.id && x.id in Ids(w.workloads)
    ensures x.id in w.appeared && x.id in w.used && x.id in CreatedIds(w.created)
  {
    ProviderIDRoundTrip(x.id);
    assert x.id in CreatedIds(w.created) by { hide TaskInv; }
    hide Contains, Own, ProviderIDOf, WorkloadIDOf, OwnListed;
  }

  /** So is the workload of a task that succeeded. */
  lemma SuccessPlain(w: World, task: string)
    requires CloudInv(w) && task in w.tasks && w.tasks[task].status == SUCCESS
    ensures var id := w.tasks[task].workloadID;
            && WorkloadIDOf(ProviderIDOf(id)) == id
            && id in w.appeared && id in w.used && id in CreatedIds(w.created)
  {
    var id := w.tasks[task].workloadID;
    assert Receipt(task, id) in w.created by { hide ListInv; }
    ProviderIDRoundTrip(id);
    hide Contains, Own, ProviderIDOf, WorkloadIDOf, OwnListed;
  }

  /** A served delete pass polls, or loses the workload between two calls, or releases the machine. */
  lemma ServedDeletePass(w: World, s: Schedule)
    requires Leaving(w) && ServedDelete(s) && NoFailure(Pass(w, s).0)
    ensures var (v, o) := Pass(w, s);
            && o in {InProgress, DeleteFailed, FinalizerRemoved}
            && (o == FinalizerRemoved ==> v.store.None?)
            && (o == DeleteFailed ==> Left(v) < Left(w))
  {
    var m := w.store.value;
    var step := Locate(w, m, s);
    var id := WorkloadIDOf(step.mem.providerID);
    StillNoFailure(w, s);
    LeavingStep(w, s);
    LeftShrinks(w, s);
    if step.verdict == Located {
      LocatedPlain(w, m, s);
      ServedTearDown(step.world, step.mem, s, id);
      if WentAway(w, id) { LocateWentAway(w, m, s, id); }
    }
    ReleasedClose(step.world, step.mem.(finalizer := false), s);
    hide Close, Locate, TearDown, WorkloadIDOf, WentAway, Leaving, NoFailure, CreatedIds;
    if Pass(w, s).1 == DeleteFailed {
      assert id in Left(w) && id !in Left(Pass(w, s).0);
    }
  }

  lemma StillNoFailure(w: World, s: Schedule)
    requires Leaving(w) && NoFailure(Pass(w, s).0)
    ensures forall t | t in Locate(w, w.store.value, s).world.tasks ::
              Locate(w, w.store.value, s).world.tasks[t].status != FAILURE
  {
    hide Pass, Locate, CloudInv, NoFailure, TaskKnown, ShortenName, FailuresStay;
    PassFailures(w, s);
    FailuresRemain(Locate(w, w.store.value, s).world, Pass(w, s).0);
  }

  lemma PassFailures(w: World, s: Schedule)
    requires CloudInv(w) && w.store.Some? && w.store.value.deleting
    ensures FailuresStay(Locate(w, w.store.value, s).world, Pass(w, s).0)
  {
    var step := Locate(w, w.store.value, s);
    hide Close, Locate, TearDown, CloudInv, FailuresStay;
    LocateLater(w, w.store.value, s);
    CloseFailures(step.world, step.mem, s);
    CloseFailures(step.world, step.mem.(finalizer := false), s);
    TearDownFailures(step.world, step.mem, s);
  }

  ghost predicate FailuresStay(w: World, v: World) {
    forall t | t in w.tasks && w.tasks[t].status == FAILURE :: t in v.tasks && v.tasks[t].status == FAILURE
  }

  lemma FailuresRemain(w: World, v: World)
    requires FailuresStay(w, v) && NoFailure(v)
    ensures forall t | t in w.tasks :: w.tasks[t].status != FAILURE
  {
  }

  lemma LocateLater(w: World, m: Machine, s: Schedule)
    requires CloudInv(w)
    ensures CloudInv(Locate(w, m, s).world)
  {
    DriftIsLater(w, s.list.drift);
    DriftIsLater(Drift(w, s.list.drift), s.task.drift);
    hide Drift, Later, CloudInv, ShortenName, FindByName;
  }

  lemma DriftFailures(w: World, events: seq<EnvEvent>)
    requires CloudInv(w)
    ensures CloudInv(Drift(w, events)) && FailuresStay(w, Drift(w, events))
  {
    DriftIsLater(w, events);
    hide Drift, CloudInv, Settled;
  }

  lemma CloseFailures(w: World, m: Machine, s: Schedule)
    requires CloudInv(w)
    ensures FailuresStay(w, Close(w, m, s))
  {
    DriftFailures(w, s.close.drift);
    hide Drift, CloudInv;
  }

  lemma TearDownFailures(w: World, m: Machine, s: Schedule)
    requires CloudInv(w)
    ensures FailuresStay(w, TearDown(w, m, s).0)
  {
    hide Drift, Close, WorkloadIDOf, Ids, CloudInv, FailuresStay;
    var id := WorkloadIDOf(m.providerID);
    var w1 := Drift(w, s.get.drift);
    var w2 := Drift(w1, s.read.drift);
    var w3 := Drift(w2, s.post.drift);
    var doomed := w3.(doomed := w3.doomed + {id});
    DriftFailures(w, s.get.drift);
    DriftFailures(w1, s.read.drift);
    DriftFailures(w2, s.post.drift);
    DoomedCloud(w3, id);
    StayTransitive(w, w1, w2);
    StayTransitive(w, w2, w3);
    StayTransitive(w, w3, doomed);
    StayThroughClose(w, w1, m, s);
    StayThroughClose(w, w1, m.(finalizer := false), s);
    StayThroughClose(w, w2, m, s);
    StayThroughClose(w, w3, m, s);
    StayThroughClose(w, doomed, m, s);
    StayThroughClose(w, doomed, m.(finalizer := false), s);
  }

  lemma DoomedCloud(w: World, id: string)
    requires CloudInv(w)
    ensures var v := w.(doomed := w.doomed + {id}); CloudInv(v) && FailuresStay(w, v)
  {
    hide OwnListed, Own, Contains, CreatedIds;
  }

  lemma StayTransitive(a: World, b: World, c: World)
    requires FailuresStay(a, b) && FailuresStay(b, c)
    ensures FailuresStay(a, c)
  {
  }

  lemma StayThroughClose(w: World, v: World, m: Machine, s: Schedule)
    requires FailuresStay(w, v) && CloudInv(v)
    ensures FailuresStay(w, Close(v, m, s))
  {
    hide Close, CloudInv, FailuresStay;
    CloseFailures(v, m, s);
    StayTransitive(w, v, Close(v, m, s));
  }

  // ----- over runs -----

  /** The books of a deletion, over its served passes: each polled, or lost one of the workloads that
      were left. */
  ghost predicate LeavingTally(outcomes: seq<Outcome>, start: World, r: World) {
    r.store.Some? ==>
      && r.created == start.created
      && |outcomes| + |Left(r)| <= multiset(outcomes)[InProgress] + |Left(start)|
  }

  lemma Counted(before: seq<Outcome>, last: Outcome)
    ensures multiset(before + [last])[InProgress] == multiset(before)[InProgress] + if last == InProgress then 1 else 0
  {
    assert multiset(before + [last]) == multiset(before) + multiset{last};
  }

  lemma SmallerSet(a: set<string>, b: set<string>)
    requires a <= b
    ensures |a| <= |b| && (a < b ==> |a| < |b|)
  {
    assert b == a + (b - a);
  }

  lemma LeavingTallyStep(start: World, p: World, e: Event, before: seq<Outcome>)
    requires Leaving(p) && NoFailure(Apply(p, e)) && LeavingTally(before, start, p)
    ensures LeavingTally(before + NewOutcome(p, e, ServedDelete), start, Apply(p, e))
  {
    var r := Apply(p, e);
    if e.EnvStep? {
      EnvLeft(p, e.env);
    } else {
      LeftShrinks(p, e.schedule);
    }
    SmallerSet(Left(r), Left(p));
    hide Leaving, Pass, Env, NoFailure, ServedDelete, Left;
    if e.PassStep? && ServedDelete(e.schedule) {
      ServedDeletePass(p, e.schedule);
      Counted(before, Pass(p, e.schedule).1);
    } else {
      assert before + NewOutcome(p, e, ServedDelete) == before;
    }
  }

  lemma EnvLeft(p: World, env: EnvEvent)
    ensures Env(p, env).created == p.created && Left(Env(p, env)) <= Left(p)
  {
    EnvFrame(p, env);
    hide Env, WentAway, CreatedIds;
    forall id | WentAway(p, id) ensures WentAway(Env(p, env), id) {
      EnvWentAway(p, env, id);
    }
  }

  lemma {:induction false} LeavingRun(w: World, events: seq<Event>)
    requires RunInv(w) && Leaving(w) && NoFailure(Run(w, events))
    ensures var r := Run(w, events);
            && RunInv(r) && (r.store.Some? ==> Leaving(r))
            && LeavingTally(Outcomes(w, events, ServedDelete), w, r)
  {
    if |events| > 0 {
      var n := |events| - 1;
      var p, e := Run(w, events[..n]), events[n];
      hide ServedDelete, ShortenName, RunInv, NoFailure, LeavingTally, NewOutcome, Apply, Leaving;
      RunInvFrom(w, events[..n]);
      StepForward(p, e);
      NoFailureBefore(p, Apply(p, e));
      LeavingRun(w, events[..n]);
      StaysGone(p, e);
      if p.store.Some? {
        LeavingTallyStep(w, p, e, Outcomes(w, events[..n], ServedDelete));
        StillLeaving(p, e);
      } else {
        GoneTally(Outcomes(w, events, ServedDelete), w, Apply(p, e));
      }
    }
  }

  lemma GoneTally(outcomes: seq<Outcome>, w: World, r: World)
    requires r.store.None?
    ensures LeavingTally(outcomes, w, r)
  {
  }

  lemma StillLeaving(p: World, e: Event)
    requires RunInv(p) && Leaving(p)
    ensures Apply(p, e).store.Some? ==> Leaving(Apply(p, e))
  {
    StepForward(p, e);
    TaskKnownStep(p, e);
    hide Apply, ReadyOk, ShortenName, TaskKnown, StoreInv, CloudInv;
  }

  lemma NoFailureBefore(p: World, r: World)
    requires Forward(p, r) && NoFailure(r)
    ensures NoFailure(p)
  {
  }

  lemma {:induction false} RunInvFrom(w: World, events: seq<Event>)
    requires RunInv(w)
    ensures RunInv(Run(w, events))
  {
    hide RunInv, Apply, Forward;
    if |events| > 0 {
      RunInvFrom(w, events[..|events| - 1]);
      StepForward(Run(w, events[..|events| - 1]), events[|events| - 1]);
    }
  }

  /** Deletion progress. Take a fresh machine, any run after which it is being deleted, and any
      continuation, with anything the cloud does in between and any calls failing, that has ended
      without a failed task. If the machine is still there, then every served pass of the
      continuation polled a task still in progress, but at most one for each workload that was
      created and still around. So with n creates, a cloud that finishes the task within p polls
      has the machine released within p + n + 1 served passes, however many others fail. */
  lemma {:induction false} DeletionProgress(w: World, before: seq<Event>, after: seq<Event>)
    requires Initial(w) && ShortenName(w.name, NAME_LIMIT).Some?
    requires Run(w, before).store.Some? && Run(w, before).store.value.deleting
    requires NoFailure(Run(Run(w, before), after))
    ensures var d := Run(w, before);
            var passes := multiset(Outcomes(d, after, ServedDelete));
            Run(d, after).store.None? || |passes| <= passes[InProgress] + |d.created|
  {
    var d := Run(w, before);
    hide Initial, ShortenName, ServedDelete, NoFailure, Outcomes, Run, Left;
    RunInvHolds(w, before);
    RunName(w, before);
    TaskKnownHolds(w, before);
    assert CloudInv(d) by { hide CloudInv, StoreInv, ReadyOk; }
    hide RunInv, TaskKnown, CloudInv;
    LeavingRun(d, after);
    LeftBound(d);
  }

  lemma LeftBound(w: World)
    ensures |Left(w)| <= |w.created|
  {
    CreatedBound(w.created);
    SmallerSet(Left(w), CreatedIds(w.created));
  }

  lemma {:induction false} CreatedBound(created: seq<Receipt>)
    ensures |CreatedIds(created)| <= |created|
  {
    if |created| > 0 {
      var n := |created| - 1;
      CreatedBound(created[..n]);
      assert created == created[..n] + [created[n]];
      assert CreatedIds(created) == CreatedIds(created[..n]) + {created[n].workloadID};
    }
  }

  lemma {:induction false} RunName(w: World, events: seq<Event>)
    requires Initial(w)
    ensures Run(w, events).name == w.name
  {
    hide Initial, RunInv, Apply;
    if |events| > 0 {
      RunName(w, events[..|events| - 1]);
      RunInvHolds(w, events[..|events| - 1]);
      StepForward(Run(w, events[..|events| - 1]), events[|events| - 1]);
    }
  }
}
