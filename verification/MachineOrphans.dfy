/** When a machine leaves a workload behind: exactly when a create loses its task id, exactly which
    releases orphan something, and the runs that do. */
module MachineOrphans {
  import opened Wrappers
  import opened Strings
  import opened Naming
  import opened Cloud
  import opened ProviderID
  import opened MachinePass
  import opened MachineFrames
  import opened MachineSafety
  import opened MachineProgress
  import opened MachineLimits
  import opened MachineDeletion

  // ----- the untracked mark -----

  /** The deletion of the machine is requested while the pass is still on its way to closing. */
  predicate RemovedMeanwhile(m: Machine, s: Schedule) {
    !m.finalizer && DeletionRequested in s.list.drift + s.create.drift + s.close.drift
  }

  /** A create loses its task id, exactly: over every run, a step of a run that had lost none before
      sets the mark iff it is a pass that had a create accepted and whose reply was lost, or whose
      task id is empty, or whose closing patch was refused, or whose machine was removed before
      it held a finalizer. */
  lemma {:induction false} UntrackedMeaning(w0: World, events: seq<Event>, s: Schedule)
    requires Initial(w0) && Run(w0, events).store.Some? && !Run(w0, events).untracked
    ensures var w := Run(w0, events);
            Pass(w, s).0.untracked <==>
              && |Pass(w, s).0.created| > |w.created|
              && (|| s.create.reply == ReplyLost || s.newTask == "" || s.close.reply == Refused
                  || RemovedMeanwhile(w.store.value, s))
  {
    var w := Run(w0, events);
    TaskKnownHolds(w0, events);
    hide Run, Initial, Pass, RemovedMeanwhile, TaskKnown;
    UntrackedPass(w, s);
  }

  lemma UntrackedPass(w: World, s: Schedule)
    requires w.store.Some? && !w.untracked && TaskKnown(w)
    ensures Pass(w, s).0.untracked <==>
              && |Pass(w, s).0.created| > |w.created|
              && (|| s.create.reply == ReplyLost || s.newTask == "" || s.close.reply == Refused
                  || RemovedMeanwhile(w.store.value, s))
  {
    var m := if w.store.value.deleting then w.store.value else w.store.value.(finalizer := true);
    var step := Locate(w, m, s);
    NotStartedStep(w, m, s);
    hide Close, Locate, BringUp, TearDown, CreateAndClose, RemovedMeanwhile;
    CloseFrame(w, m, s);
    LocateFrame(w, m, s);
    CloseFrame(step.world, step.mem, s);
    CloseFrame(step.world, step.mem.(finalizer := false), s);
    BringUpFrame(step.world, step.mem, s);
    TearDownFrame(step.world, step.mem, s);
    if step.verdict == NotStarted && m.finalizer {
      UntrackedCreate(w, w.store.value, step.world, step.mem, s);
    }
  }

  lemma NotStartedStep(w: World, m: Machine, s: Schedule)
    ensures Locate(w, m, s).verdict == NotStarted ==>
              Locate(w, m, s).world == Drift(w, s.list.drift) && Locate(w, m, s).mem == m
  {
    hide Drift, ShortenName, FindByName;
  }

  lemma UntrackedCreate(w: World, stored: Machine, v: World, m: Machine, s: Schedule)
    requires w.store == Some(stored) && TaskKnown(w) && !w.untracked && m.finalizer && m.taskID == stored.taskID
    requires v == Drift(w, s.list.drift)
    ensures var r := CreateAndClose(v, m, s).0;
            r.untracked <==>
              && |r.created| > |w.created|
              && (|| s.create.reply == ReplyLost || s.newTask == "" || s.close.reply == Refused
                  || RemovedMeanwhile(stored, s))
  {
    hide Drift;
    var u := Drift(v, s.create.drift);
    var granted := Grant(u, s.newTask, s.newWorkload);
    var d := Drift(granted, s.close.drift);
    DriftFrame(w, s.list.drift);
    DriftFrame(v, s.create.drift);
    DriftFrame(granted, s.close.drift);
    DriftStore(w, s.list.drift);
    DriftStore(v, s.create.drift);
    DriftStore(granted, s.close.drift);
    CreateFrame(v, m, s);
    CloseFrame(u, m, s);
  }

  // ----- what a release leaves behind -----

  /** The workload a delete pass would find first by name. */
  predicate FirstListed(w: World, id: string) {
    && ShortenName(w.name, NAME_LIMIT).Some?
    && var found := FindByName(w.workloads, ShortenName(w.name, NAME_LIMIT).value);
    && found.Some? && found.value.id == id
  }

  /** What a release leaves behind, exactly: an undisturbed delete pass that releases the machine
      has everything taken care of iff every workload created for it was so before, or is the
      one workload of its name that is listed first. */
  lemma OrphanMeaning(w: World, s: Schedule)
    requires CloudInv(w) && w.store.Some? && w.store.value.deleting && w.store.value.finalizer
    requires CalmDelete(s) && Releasable(w, w.store.value)
    ensures Pass(w, s).0.store.None?
    ensures AllSettled(Pass(w, s).0) <==>
            forall r | r in w.created :: Settled(w, r.workloadID) || FirstListed(w, r.workloadID)
  {
    ReleaseMeaning(w, s);
    CalmDooms(w, s);
    hide CloudInv, Pass, FirstListed, Releasable;
    var v := Pass(w, s).0;
    assert forall id :: Settled(v, id) <==> Settled(w, id) || FirstListed(w, id);
  }

  /** Such a pass deletes the first listed workload of the name, and nothing if there is none. */
  lemma CalmDooms(w: World, s: Schedule)
    requires CloudInv(w) && w.store.Some? && w.store.value.deleting && w.store.value.finalizer
    requires CalmDelete(s) && Releasable(w, w.store.value)
    ensures var v := Pass(w, s).0;
            && v.created == w.created && v.appeared == w.appeared && v.workloads == w.workloads
            && (forall id :: id in v.doomed <==> id in w.doomed || FirstListed(w, id))
  {
    var m := w.store.value;
    assert Drift(w, []) == w;
    var step := Locate(w, m, s);
    var short := ShortenName(w.name, NAME_LIMIT).value;
    FindByNameMeaning(w.workloads, short);
    if FindByName(w.workloads, short).Some? {
      ListedPlain(w, FindByName(w.workloads, short).value);
    } else if step.verdict == Located {
      SuccessGone(w, m.taskID);
    }
    hide ShortenName, FindByName, WorkloadIDOf, ProviderIDOf, CloudInv, Own, Ids;
    CalmTearDownDooms(w, step.mem, s);
  }

  /** A SUCCESS task whose workload is not found by name: it is gone. */
  lemma SuccessGone(w: World, task: string)
    requires CloudInv(w) && task in w.tasks && w.tasks[task].status == SUCCESS
    requires forall x | x in w.workloads :: !Own(w.name, x)
    ensures var id := w.tasks[task].workloadID;
            WorkloadIDOf(ProviderIDOf(id)) == id && id !in Ids(w.workloads)
  {
    var id := w.tasks[task].workloadID;
    assert Receipt(task, id) in w.created by { hide ListInv; }
    ProviderIDRoundTrip(id);
    assert id in CreatedIds(w.created);
    hide Contains, Own, ProviderIDOf, WorkloadIDOf, CreatedIds;
  }

  lemma CalmTearDownDooms(w: World, m: Machine, s: Schedule)
    requires w.store.Some? && w.store.value.deleting && CalmDelete(s)
    ensures var v, id := TearDown(w, m, s).0, WorkloadIDOf(m.providerID);
            && v.created == w.created && v.appeared == w.appeared && v.workloads == w.workloads
            && v.doomed == if id in Ids(w.workloads) then w.doomed + {id} else w.doomed
  {
    var doomed := w.(doomed := w.doomed + {WorkloadIDOf(m.providerID)});
    assert Drift(w, []) == w && Drift(doomed, []) == doomed;
    hide WorkloadIDOf, Ids;
  }

  // ----- runs that leave a workload behind -----

  /** A fresh machine gets located and loses its workload: the forgotten state is reached, with no
      create untracked. */
  lemma ForgottenReached(w: World, s1: Schedule, s2: Schedule, at: nat, i: Instance)
    requires Initial(w) && NoneListed(w)
    requires Calm(s1) && Calm(s2) && s1.newTask != ""
    requires Grantable(w, s1.newTask, s1.newWorkload)
    requires i.status == RUNNING && |i.ips| > 0
    ensures var r := Run(w, LocateAndLose(s1, s2, at, i));
            && Inv(r) && Forgotten(r) && !r.untracked
            && r.created == [Receipt(s1.newTask, s1.newWorkload)]
  {
    var events := LocateAndLose(s1, s2, at, i)[..4];
    var lost := EnvStep(Vanishes(s1.newWorkload));
    var q := Run(w, events);
    assert events == [PassStep(s1), EnvStep(WorkloadListed(s1.newTask, at)),
                      EnvStep(InstancesChange(s1.newWorkload, [i])), PassStep(s2)];
    ReadyInTwoPasses(w, s1, s2, at, i);
    RunInvHolds(w, events);
    RunName(w, events);
    RunHolds(w, events + [lost]);
    RunSplit(w, events, lost);
    assert events + [lost] == LocateAndLose(s1, s2, at, i);
    hide Run, Initial, Calm, Grantable, ShortenName;
    LocatedState(q);
    VanishingForgets(q, s1.newWorkload);
    EnvFrame(q, Vanishes(s1.newWorkload));
  }

  function LocateAndLose(s1: Schedule, s2: Schedule, at: nat, i: Instance): seq<Event> {
    [PassStep(s1), EnvStep(WorkloadListed(s1.newTask, at)), EnvStep(InstancesChange(s1.newWorkload, [i])),
     PassStep(s2), EnvStep(Vanishes(s1.newWorkload))]
  }

  /** A ready machine knows its workload, which is the only one of its name. */
  lemma LocatedState(w: World)
    requires RunInv(w) && w.store.Some? && w.store.value.ready && |w.created| == 1
    ensures w.store.value.providerID != ""
    ensures forall x | x in w.workloads && Own(w.name, x) :: x.id == w.created[0].workloadID
  {
    assert CloudInv(w) by { hide CloudInv, StoreInv; }
    assert w.store.value.providerID != "" by { hide Inv; assert |SCHEME| > 0; }
    hide RunInv, CloudInv, Own;
    forall x | x in w.workloads && Own(w.name, x) ensures x.id == w.created[0].workloadID {
      ListedIsCreated(w, x);
    }
  }

  /** From there, one more create, properly tracked, and a deletion before its workload is listed:
      the delete pass takes the provider id for proof that nothing started, and releases the
      machine. The second workload is neither deleted nor gone, and no create is untracked. */
  lemma VanishedOrphan(w: World, s: Schedule, d: Schedule)
    requires Inv(w) && Forgotten(w) && !w.untracked
    requires Calm(s) && s.newTask != "" && Grantable(w, s.newTask, s.newWorkload) && CalmDelete(d)
    ensures var r := Run(w, [PassStep(s), EnvStep(DeletionRequested), PassStep(d)]);
            && r.store.None? && !r.untracked
            && r.created == w.created + [Receipt(s.newTask, s.newWorkload)]
            && !Settled(r, s.newWorkload)
  {
    assert w.doomed == {} && s.newWorkload !in w.appeared by { hide Forgotten, Calm, StoreInv, TaskInv; }
    var e := EnvStep(DeletionRequested);
    var v := Apply(w, PassStep(s));
    SecondCreate(w, s);
    var u := Apply(v, e);
    ForgottenRelease(u, d);
    RunOne(w, PassStep(s));
    RunSplit(w, [PassStep(s)], e);
    RunSplit(w, [PassStep(s), e], PassStep(d));
    assert [PassStep(s)] + [e] == [PassStep(s), e] && [PassStep(s), e] + [PassStep(d)] == [PassStep(s), e, PassStep(d)];
    hide Run, Pass, Inv, Calm, CalmDelete, Grantable, NoneListed, Ids;
  }

  lemma SecondCreate(w: World, s: Schedule)
    requires Forgotten(w) && !w.untracked && Calm(s) && s.newTask != "" && Grantable(w, s.newTask, s.newWorkload)
    ensures var v := Apply(w, PassStep(s));
            && v.store == Some(w.store.value.(finalizer := true, taskID := s.newTask))
            && v.name == w.name && v.workloads == w.workloads && v.doomed == w.doomed && v.appeared == w.appeared
            && v.created == w.created + [Receipt(s.newTask, s.newWorkload)] && !v.untracked
  {
    NoneFound(w);
    hide ShortenName, Contains, FindByName;
  }

  lemma ForgottenRelease(w: World, d: Schedule)
    requires w.store.Some? && w.store.value.deleting && w.store.value.providerID != "" && NoneListed(w) && CalmDelete(d)
    ensures Apply(w, PassStep(d)) == w.(store := None)
  {
    NoneFound(w);
    assert Drift(w, []) == w;
    hide ShortenName, FindByName;
  }
}
