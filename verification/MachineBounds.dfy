/** How long a machine can take to become ready, and how a failed task gets it stuck. */
module MachineBounds {
  import opened Wrappers
  import opened Strings
  import opened Naming
  import opened Cloud
  import opened ProviderID
  import opened MachinePass
  import opened MachineFrames
  import opened MachineSafety
  import opened MachineProgress

  // ----- progress -----

  /** A pass with its gates open and every call it makes on the way to readiness served. */
  predicate Smooth(s: Schedule) {
    && s.gates && s.bootstrap
    && s.list.reply == s.task.reply == s.create.reply == s.inst.reply == s.node.reply == s.close.reply == Served
  }

  function NewOutcome(p: World, e: Event, counted: Schedule -> bool): seq<Outcome> {
    if e.PassStep? && p.store.Some? && counted(e.schedule) then [Pass(p, e.schedule).1] else []
  }

  /** The outcomes of the passes of a run that count, in order. */
  function Outcomes(w: World, events: seq<Event>, counted: Schedule -> bool): seq<Outcome> {
    if |events| == 0 then []
    else
      var n := |events| - 1;
      Outcomes(w, events[..n], counted) + NewOutcome(Run(w, events[..n]), events[n], counted)
  }

  /** A live machine in a cloud that has neither failed nor lost anything of it. */
  ghost predicate Healthy(w: World) {
    && !w.untracked && !w.vanished
    && w.store.Some? && !w.store.value.deleting
    && forall t | t in w.tasks :: w.tasks[t].status != FAILURE
  }

  lemma HealthyBefore(w: World, v: World)
    requires Forward(w, v) && Healthy(v)
    ensures Healthy(w)
  {
  }

  lemma NormalCreated(w: World, m0: Machine, s: Schedule)
    requires Holds(w, m0) && s.create.reply == Served
    ensures var (v, o) := NormalPass(w, m0, s);
            |v.created| == |w.created| + if o == CreatedWorkload then 1 else 0
  {
    hide Holds, CloudInv, Close, Locate, CreateAndClose, BringUp, Later, AllSettled;
    var m := m0.(finalizer := true);
    KnowsStatus(w, m0, m);
    LocateHolds(w, m, s);
    var step := Locate(w, m, s);
    LaterShape(w, step.world);
    HoldsCloud(w, m);
    HoldsCloud(step.world, step.mem);
    CloseShape(w, m, s);
    CloseShape(step.world, step.mem, s);
    CreateCount(step.world, step.mem, s);
    BringUpCount(step.world, step.mem, s);
  }

  lemma CreateCount(w0: World, m: Machine, s: Schedule)
    requires CloudInv(w0) && s.create.reply == Served
    ensures var (v, o) := CreateAndClose(w0, m, s);
            && o in {CreateFailed, CreatedWorkload}
            && |v.created| == |w0.created| + if o == CreatedWorkload then 1 else 0
  {
    hide Drift, CloudInv, Close, Grantable, Later;
    DriftIsLater(w0, s.create.drift);
    var w := Drift(w0, s.create.drift);
    LaterShape(w0, w);
    if Grantable(w, s.newTask, s.newWorkload) {
      GrantCloud(w, s.newTask, s.newWorkload);
      CloseShape(Grant(w, s.newTask, s.newWorkload), m.(taskID := s.newTask), s);
    } else {
      CloseShape(w, m, s);
    }
  }

  lemma CloudNotes(w: World, observed: seq<Instance>, nodes: seq<Node>)
    requires CloudInv(w)
    ensures CloudInv(w.(observed := observed, nodes := nodes))
  {
    hide ListInv, TaskInv;
  }

  lemma BringUpCount(w0: World, m: Machine, s: Schedule)
    requires CloudInv(w0)
    ensures var (v, o) := BringUp(w0, m, s);
            && o in {InstancesFailed, InstanceWaits, NoInternalIP, NodeFailed, BecameReady}
            && (s.inst.reply == s.node.reply == Served ==> o in {InstanceWaits, NoInternalIP, BecameReady})
            && v.created == w0.created
  {
    hide Drift, CloudInv, Close, PatchNodes, WorkloadIDOf, Later;
    DriftIsLater(w0, s.inst.drift);
    var w := Drift(w0, s.inst.drift);
    LaterShape(w0, w);
    CloseShape(w, m, s);
    var instances := InstancesOf(w.instances, WorkloadIDOf(m.providerID));
    if |instances| > 0 && |instances[0].ips| > 0 {
      var m' := m.(addresses := ReadyAddresses(instances[0]));
      var seen := w.(observed := w.observed + [instances[0]]);
      CloudNotes(w, seen.observed, w.nodes);
      assert seen == w.(observed := seen.observed, nodes := w.nodes);
      DriftIsLater(seen, s.node.drift);
      var w' := Drift(seen, s.node.drift);
      LaterShape(seen, w');
      var patched := if s.node.reply == Refused then w'
                     else w'.(nodes := PatchNodes(w'.nodes, m'.addresses, m'.providerID));
      CloudNotes(w', w'.observed, patched.nodes);
      assert patched == w'.(observed := w'.observed, nodes := patched.nodes);
      CloseShape(patched, m', s);
      CloseShape(patched, m'.(ready := true), s);
    }
  }

  /** In a healthy world reconcileWorkload never answers an unexpected error. */
  lemma LocateHealthy(w: World, m: Machine, s: Schedule)
    requires Holds(w, m) && !w.untracked && |w.created| <= 1
    requires ShortenName(w.name, NAME_LIMIT).Some?
    requires s.list.reply == s.task.reply == Served
    requires forall t | t in Locate(w, m, s).world.tasks :: Locate(w, m, s).world.tasks[t].status != FAILURE
    ensures Locate(w, m, s).verdict in {Located, NotStarted, Pending}
  {
    hide Drift, StoreInv, ListInv, Settled, FindByName, ShortenName, Contains;
    DriftHolds(w, m, s.list.drift);
    var v := Drift(w, s.list.drift);
    DriftHolds(v, m, s.task.drift);
  }

  lemma CloseTasks(w: World, m: Machine, s: Schedule)
    requires CloudInv(w)
    ensures forall t | t in w.tasks && w.tasks[t].status == FAILURE ::
              t in Close(w, m, s).tasks && Close(w, m, s).tasks[t].status == FAILURE
  {
    DriftIsLater(w, s.close.drift);
    hide Drift, CloudInv, Settled;
  }

  /** A smooth pass in a healthy world creates, polls, waits for the instance, or gets there
      (unless the create is refused for its ids, or the instance has no internal address). */
  lemma SmoothPass(w: World, s: Schedule)
    requires RunInv(w) && Smooth(s) && ShortenName(w.name, NAME_LIMIT).Some?
    requires Healthy(w) && Healthy(Pass(w, s).0)
    ensures Pass(w, s).1 in {CreatedWorkload, CreateFailed, InProgress, InstanceWaits, NoInternalIP, BecameReady}
    ensures |Pass(w, s).0.created| == |w.created| + if Pass(w, s).1 == CreatedWorkload then 1 else 0
    ensures Pass(w, s).1 == BecameReady ==> Pass(w, s).0.store.value.ready
  {
    var m := w.store.value.(finalizer := true);
    assert Holds(w, w.store.value) && |w.created| <= 1 by { hide CloudInv, Knows; }
    PassMoving(w, s);
    hide Moving, Inv, ReadyOk;
    KnowsStatus(w, w.store.value, m);
    LocateHolds(w, m, s);
    var step := Locate(w, m, s);
    hide Holds, CloudInv, Close, Locate, CreateAndClose, BringUp, Later, AllSettled;
    NormalCreated(w, w.store.value, s);
    HoldsCloud(step.world, step.mem);
    CreateCount(step.world, step.mem, s);
    BringUpCount(step.world, step.mem, s);
    if step.verdict == Erred || step.verdict == NamePanic {
      CloseTasks(step.world, step.mem, s);
      LocateHealthy(w, m, s);
    }
  }

  lemma HoldsCloud(w: World, m: Machine)
    requires Holds(w, m)
    ensures CloudInv(w)
  {
    hide CloudInv;
  }

  /** The books of a run, over its smooth passes: each is of one of six kinds, no more of them
      created than were accepted, and once one got there the machine is ready. */
  ghost predicate Tally(outcomes: seq<Outcome>, r: World) {
    var o := multiset(outcomes);
    && |outcomes| == o[CreatedWorkload] + o[BecameReady] + o[InProgress] + o[InstanceWaits] + o[CreateFailed]
         + o[NoInternalIP]
    && o[CreatedWorkload] <= |r.created|
    && (o[BecameReady] > 0 ==> r.store.Some? && r.store.value.ready)
  }

  lemma TallyCount(before: seq<Outcome>, last: Outcome)
    requires last in {CreatedWorkload, CreateFailed, InProgress, InstanceWaits, NoInternalIP, BecameReady}
    ensures var a, b := multiset(before), multiset(before + [last]);
            && |before + [last]| == |before| + 1
            && forall o :: b[o] == a[o] + if o == last then 1 else 0
  {
    assert multiset(before + [last]) == multiset(before) + multiset{last};
  }

  lemma SmoothTally(p: World, s: Schedule, before: seq<Outcome>)
    requires RunInv(p) && ShortenName(p.name, NAME_LIMIT).Some? && Smooth(s)
    requires Healthy(p) && Healthy(Pass(p, s).0) && Forward(p, Pass(p, s).0)
    requires p.store.value.ready ==> Pass(p, s).0.store.value.ready
    requires Tally(before, p)
    ensures Tally(before + [Pass(p, s).1], Pass(p, s).0)
  {
    hide Pass, RunInv, ShortenName, Smooth;
    SmoothPass(p, s);
    TallyCount(before, Pass(p, s).1);
  }

  lemma TallyStep(p: World, e: Event, before: seq<Outcome>)
    requires RunInv(p) && ShortenName(p.name, NAME_LIMIT).Some?
    requires Healthy(p) && Healthy(Apply(p, e))
    requires Tally(before, p)
    ensures Tally(before + NewOutcome(p, e, Smooth), Apply(p, e))
  {
    StepForward(p, e);
    hide RunInv, ShortenName, Pass, Env, Smooth;
    if e.PassStep? && Smooth(e.schedule) {
      hide Tally;
      SmoothTally(p, e.schedule, before);
    } else {
      assert before + NewOutcome(p, e, Smooth) == before;
    }
  }

  lemma {:induction false} SmoothRun(w: World, events: seq<Event>)
    requires Initial(w) && ShortenName(w.name, NAME_LIMIT).Some?
    requires Healthy(Run(w, events))
    ensures Run(w, events).name == w.name && Tally(Outcomes(w, events, Smooth), Run(w, events))
  {
    if |events| > 0 {
      var n := |events| - 1;
      var p, e := Run(w, events[..n]), events[n];
      RunInvHolds(w, events[..n]);
      StepForward(p, e);
      HealthyBefore(p, Run(w, events));
      assert Run(w, events).name == p.name;
      hide Initial, Smooth, ShortenName, RunInv, Forward, Healthy, Tally, NewOutcome, Apply;
      SmoothRun(w, events[..n]);
      TallyStep(p, e, Outcomes(w, events[..n], Smooth));
    }
  }

  /** Progress. Take any run, with anything the cloud does in between and any calls failing, that has
      lost no create and ended neither in a failed task, nor a vanished workload, nor a deletion.
      If the machine is not ready, then every smooth pass of the run but at most one was spent on
      a task still in progress, on an instance not yet running or without an internal address, or
      on a create the cloud did not accept. So a cloud that accepts the create, finishes the task
      within p polls and runs the instance within q more has a ready machine after p + q + 2
      smooth passes, however many others fail among them. */
  lemma {:induction false} Progress(w: World, events: seq<Event>)
    requires Initial(w) && ShortenName(w.name, NAME_LIMIT).Some?
    requires Healthy(Run(w, events))
    ensures var passes := multiset(Outcomes(w, events, Smooth));
            || Run(w, events).store.value.ready
            || |passes| <= passes[InProgress] + passes[InstanceWaits] + passes[NoInternalIP] + passes[CreateFailed] + 1
  {
    SmoothRun(w, events);
    CreateOnce(w, events);
    hide Initial, Smooth, ShortenName, Outcomes, Run;
  }

  // ----- a failed task -----

  /** The one create's task has failed, no workload of the machine is listed, and the machine has
      no provider id: it was never located, whether its workload was never listed or has gone. */
  ghost predicate TaskFailed(w: World, r: Receipt) {
    Inv(w) && FailedShape(w, r)
  }

  predicate FailedShape(w: World, r: Receipt) {
    && !w.untracked && w.created == [r] && w.store.Some?
    && r.taskID in w.tasks && w.tasks[r.taskID].status == FAILURE
    && w.store.value.providerID == ""
    && forall x | x in w.workloads :: !Own(w.name, x)
  }

  lemma FailedFacts(w: World, r: Receipt)
    requires TaskFailed(w, r)
    ensures CloudInv(w)
    ensures w.store.value.providerID == "" && w.store.value.taskID == r.taskID != "" && w.store.value.finalizer
    ensures forall t | t in w.tasks :: t == r.taskID
    ensures forall x | x in w.workloads :: !Own(w.name, x)
  {
    hide Contains, OwnListed, Ids, Own, ListInv;
  }

  /** Only a first listing of the workload gets the machine out of that state. */
  lemma FailedEnv(w: World, r: Receipt, e: EnvEvent)
    requires TaskFailed(w, r) && Env(w, e).appeared == w.appeared
    ensures TaskFailed(Env(w, e), r)
  {
    FailedFacts(w, r);
    EnvIsLater(w, e);
    var v := Env(w, e);
    assert forall x | x in v.workloads :: !Own(v.name, x) by { hide InsertAt, CloudInv, Inv, Later, Own; }
    hide CloudInv, StoreInv, Env;
    LaterKeepsInv(w, v);
    hide Settled, Own;
  }

  lemma {:induction false} FailedDrift(w: World, r: Receipt, events: seq<EnvEvent>)
    requires TaskFailed(w, r) && Drift(w, events).appeared == w.appeared
    ensures TaskFailed(Drift(w, events), r)
  {
    hide TaskFailed, Env;
    if |events| > 0 {
      DriftFrame(w, events[..|events| - 1]);
      EnvFrame(Drift(w, events[..|events| - 1]), events[|events| - 1]);
      FailedDrift(w, r, events[..|events| - 1]);
      FailedEnv(Drift(w, events[..|events| - 1]), r, events[|events| - 1]);
    }
  }

  lemma FailedClose(w: World, r: Receipt, m: Machine, s: Schedule)
    requires TaskFailed(w, r) && m.finalizer && m.providerID == "" && Close(w, m, s).appeared == w.appeared
    ensures FailedShape(Close(w, m, s), r)
  {
    hide Drift, Inv, Own;
    FailedDrift(w, r, s.close.drift);
  }

  lemma FailedLocate(w: World, r: Receipt, m: Machine, s: Schedule)
    requires TaskFailed(w, r) && m.providerID == "" && m.taskID == r.taskID != ""
    requires Locate(w, m, s).world.appeared == w.appeared
    ensures var step := Locate(w, m, s);
            && step.verdict in {Erred, NamePanic} && TaskFailed(step.world, r)
            && step.mem.finalizer == m.finalizer && step.mem.providerID == ""
  {
    hide Drift, TaskFailed;
    var v := Drift(w, s.list.drift);
    DriftFrame(w, s.list.drift);
    DriftFrame(v, s.task.drift);
    FailedDrift(w, r, s.list.drift);
    FailedFacts(v, r);
    if Drift(v, s.task.drift).appeared == w.appeared {
      FailedDrift(v, r, s.task.drift);
      TaskFailedShape(Drift(v, s.task.drift), r);
    }
    hide FindByName, CloudInv, Frame;
    if ShortenName(v.name, NAME_LIMIT).Some? {
      FindByNameMeaning(v.workloads, ShortenName(v.name, NAME_LIMIT).value);
    }
  }

  lemma TaskFailedShape(w: World, r: Receipt)
    requires TaskFailed(w, r)
    ensures FailedShape(w, r)
  {
    hide Inv;
  }

  predicate Grows(w: World, v: World) {
    w.appeared <= v.appeared
  }

  lemma PartsGrow(w: World, m: Machine, s: Schedule)
    ensures Grows(w, Close(w, m, s)) && Grows(w, Close(w, m.(finalizer := false), s))
    ensures Grows(w, BringUp(w, m, s).0) && Grows(w, TearDown(w, m, s).0) && Grows(w, CreateAndClose(w, m, s).0)
    ensures Grows(w, Locate(w, m, s).world)
  {
    hide Close, Locate, BringUp, TearDown, CreateAndClose, KeepsTask;
    CloseFrame(w, m, s);
    CloseFrame(w, m.(finalizer := false), s);
    BringUpFrame(w, m, s);
    TearDownFrame(w, m, s);
    CreateFrame(w, m, s);
    LocateFrame(w, m, s);
  }

  /** A pass only adds to what has been listed. */
  lemma PassGrows(w: World, s: Schedule)
    requires w.store.Some?
    ensures var m := Starting(w.store.value);
            && w.appeared <= Pass(w, s).0.appeared
            && (m.deleting || s.gates ==> Locate(w, m, s).world.appeared <= Pass(w, s).0.appeared)
  {
    var m := Starting(w.store.value);
    hide Pass, Close, Locate, BringUp, TearDown, CreateAndClose, Starting;
    PassParts(w, s);
    PartsGrow(w, m, s);
    PartsGrow(Locate(w, m, s).world, Locate(w, m, s).mem, s);
  }

  /** As long as its workload is not listed for the first time, such a machine leaves nothing to do
      for any pass: there is no second create, and a machine being deleted keeps its finalizer. */
  lemma FailedPass(w: World, r: Receipt, s: Schedule)
    requires TaskFailed(w, r) && Pass(w, s).0.appeared == w.appeared
    ensures Pass(w, s).1 in {Gated, NameTooLong, Broken}
    ensures FailedShape(Pass(w, s).0, r)
  {
    FailedFacts(w, r);
    var m := if w.store.value.deleting then w.store.value else w.store.value.(finalizer := true);
    hide Pass, Locate, TaskFailed, Close, CloudInv, FailedShape;
    PassGrows(w, s);
    StoppedPass(w, s);
    if !w.store.value.deleting && !s.gates {
      FailedClose(w, r, m, s);
    } else {
      var step := Locate(w, m, s);
      StillWithin(w, m, s);
      FailedLocate(w, r, m, s);
      FailedClose(step.world, r, step.mem, s);
    }
  }

  /** A pass with its gates shut, or without an answer from reconcileWorkload, only closes. */
  lemma StoppedPass(w: World, s: Schedule)
    requires w.store.Some?
    ensures var m := if w.store.value.deleting then w.store.value else w.store.value.(finalizer := true);
            var step := Locate(w, m, s);
            && (!w.store.value.deleting && !s.gates ==> Pass(w, s) == (Close(w, m, s), Gated))
            && ((w.store.value.deleting || s.gates) && step.verdict in {Erred, NamePanic} ==>
                  Pass(w, s).0 == Close(step.world, step.mem, s) && Pass(w, s).1 in {NameTooLong, Broken})
  {
    hide Locate, Close, BringUp, TearDown, CreateAndClose;
  }

  /** What has been listed only grows, from the world to the located one to the closed one. */
  lemma StillWithin(w: World, m: Machine, s: Schedule)
    ensures w.appeared <= Locate(w, m, s).world.appeared
  {
    LocateFrame(w, m, s);
    hide Locate, KeepsTask;
  }

  lemma ApplyGrows(w: World, e: Event)
    ensures w.appeared <= Apply(w, e).appeared
  {
    hide Env, Pass;
    if e.EnvStep? {
      EnvFrame(w, e.env);
    } else if w.store.Some? {
      PassGrows(w, e.schedule);
    }
  }

  lemma {:induction false} RunGrows(w: World, events: seq<Event>)
    ensures w.appeared <= Run(w, events).appeared
  {
    hide Apply;
    if |events| > 0 {
      RunGrows(w, events[..|events| - 1]);
      ApplyGrows(Run(w, events[..|events| - 1]), events[|events| - 1]);
    }
  }

  /** A machine with a task and no provider id is never created for. */
  lemma NoCreate(w: World, s: Schedule)
    requires w.store.Some? && w.store.value.taskID != "" && w.store.value.providerID == ""
    ensures Pass(w, s).0.created == w.created
  {
    var m := if w.store.value.deleting then w.store.value else w.store.value.(finalizer := true);
    var step := Locate(w, m, s);
    assert step.verdict != NotStarted by { hide Drift, ShortenName, FindByName, ProviderIDOf; }
    hide Close, Locate, BringUp, TearDown, CreateAndClose;
    CloseFrame(w, m, s);
    LocateFrame(w, m, s);
    CloseFrame(step.world, step.mem, s);
    BringUpFrame(step.world, step.mem, s);
    TearDownFrame(step.world, step.mem, s);
  }

  /** The one thing that can be listed is the workload of the one create. */
  lemma OnlyOneListed(w: World, r: Receipt, e: Event)
    requires TaskFailed(w, r) && Inv(Apply(w, e))
    requires r.workloadID in w.appeared || r.workloadID !in Apply(w, e).appeared
    ensures Apply(w, e).appeared == w.appeared
  {
    var v := Apply(w, e);
    FailedFacts(w, r);
    ApplyGrows(w, e);
    TaskFailedShape(w, r);
    if e.EnvStep? { EnvFrame(w, e.env); } else { NoCreate(w, e.schedule); }
    assert v.created == [r] by { hide TaskFailed, Inv, Env, Pass; }
    assert CloudInv(v) by { hide CloudInv, StoreInv; }
    hide TaskFailed, Inv, Apply, TaskInv, OwnListed, Own;
    assert forall id | id in v.appeared :: id in CreatedIds(v.created);
  }

  /** Over every continuation, whatever the cloud, the user and the passes do: until its workload is
      listed for the first time, such a machine is never created for again, and is never released
      either, not even when it is being deleted. If the workload has been listed and is gone, that
      is for good. */
  lemma {:induction false} FailedForever(w: World, r: Receipt, events: seq<Event>)
    requires TaskFailed(w, r)
    requires r.workloadID in w.appeared || r.workloadID !in Run(w, events).appeared
    ensures Run(w, events).appeared == w.appeared && TaskFailed(Run(w, events), r)
    ensures Run(w, events).created == [r] && Run(w, events).store.Some? && Run(w, events).store.value.finalizer
  {
    if |events| > 0 {
      var p, e := Run(w, events[..|events| - 1]), events[|events| - 1];
      ApplyGrows(p, e);
      FailedForever(w, r, events[..|events| - 1]);
      ApplyHolds(p, e);
      OnlyOneListed(p, r, e);
      if e.EnvStep? { FailedEnv(p, r, e.env); } else { FailedPass(p, r, e.schedule); }
      TaskFailedShape(p, r);
      hide Inv, Env, Pass;
    }
    FailedFacts(Run(w, events), r);
    TaskFailedShape(Run(w, events), r);
  }
}
