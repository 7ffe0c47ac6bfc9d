/** Exactly when a pass creates, and why the guards of create-once and never-orphan are there: runs in
    which an accepted create loses its task id, and runs in which a workload vanishes. */
module MachineLimits {
  import opened Wrappers
  import opened Strings
  import opened Naming
  import opened Cloud
  import opened ProviderID
  import opened MachinePass
  import opened MachineFrames
  import opened MachineSafety
  import opened MachineProgress
  import opened MachineBounds

  /** A smooth pass during which the environment does not move. */
  predicate Calm(s: Schedule) {
    && Smooth(s)
    && s.list.drift == s.task.drift == s.create.drift == s.inst.drift == s.node.drift == s.close.drift == []
  }

  predicate NoneListed(w: World) {
    ShortenName(w.name, NAME_LIMIT).Some? && forall x | x in w.workloads :: !Own(w.name, x)
  }

  lemma NoneFound(w: World)
    requires NoneListed(w)
    ensures FindByName(w.workloads, ShortenName(w.name, NAME_LIMIT).value).None?
  {
    FindByNameMeaning(w.workloads, ShortenName(w.name, NAME_LIMIT).value);
  }

  // ----- when a pass creates -----

  lemma LocateGuard(w: World, m: Machine, s: Schedule)
    ensures var step, v := Locate(w, m, s), Drift(w, s.list.drift);
            && step.world.created == w.created && step.world.name == w.name
            && (step.verdict == NotStarted <==>
                  s.list.reply == Served && NoneListed(v) && (m.providerID != "" || m.taskID == ""))
            && (step.verdict == NotStarted ==> step.world == v)
  {
    DriftFrame(w, s.list.drift);
    var v := Drift(w, s.list.drift);
    DriftFrame(v, s.task.drift);
    if ShortenName(v.name, NAME_LIMIT).Some? {
      FindByNameMeaning(v.workloads, ShortenName(v.name, NAME_LIMIT).value);
    }
    hide Drift, ShortenName, FindByName;
  }

  /** Whether the machine's own state lets a pass create: no workload of its name is listed, and it
      has a provider id (so its workload is taken for lost) or no task. */
  predicate CreateGuard(w: World, m: Machine) {
    NoneListed(w) && (m.providerID != "" || m.taskID == "")
  }

  /** When a pass has a create accepted, under every interleaving and every answer: exactly when the
      machine is not being deleted, the gates are open, the list was served, the guard holds of the
      list as it was then, the bootstrap data is there, and the cloud accepts. */
  lemma CreateMeaning(w: World, s: Schedule)
    requires w.store.Some?
    ensures var m, v := w.store.value, Drift(w, s.list.drift);
            |Pass(w, s).0.created| > |w.created| <==>
              && !m.deleting && s.gates && s.list.reply == Served && CreateGuard(v, m) && s.bootstrap
              && s.create.reply != Refused && Grantable(Drift(v, s.create.drift), s.newTask, s.newWorkload)
  {
    var m := w.store.value.(finalizer := true);
    hide Drift, Close, Locate, Grantable, BringUp, TearDown, CreateAndClose, NoneListed;
    CloseFrame(w, m, s);
    var n := if w.store.value.deleting then w.store.value else m;
    LocateGuard(w, n, s);
    var step := Locate(w, n, s);
    CloseFrame(step.world, step.mem, s);
    CloseFrame(step.world, step.mem.(finalizer := false), s);
    BringUpFrame(step.world, step.mem, s);
    TearDownFrame(step.world, step.mem, s);
    CreateFrame(step.world, step.mem, s);
  }

  /** Before the call: an undisturbed pass of a live machine creates exactly when the guard holds. */
  lemma CalmCreate(w: World, s: Schedule)
    requires w.store.Some? && !w.store.value.deleting && Calm(s)
    requires Grantable(w, s.newTask, s.newWorkload)
    ensures |Pass(w, s).0.created| > |w.created| <==> CreateGuard(w, w.store.value)
  {
    CreateMeaning(w, s);
    assert Drift(w, []) == w;
    hide Pass, Grantable, NoneListed;
  }

  // ----- the guards of create-once and never-orphan -----

  /** A live machine with a provider id but no listed workload: the state a vanished workload
      leaves behind. */
  predicate Forgotten(w: World) {
    && w.store.Some? && !w.store.value.deleting && w.store.value.providerID != ""
    && NoneListed(w)
  }

  /** It is one environment event away from any live machine that has found its workload. */
  lemma VanishingForgets(w: World, id: string)
    requires w.store.Some? && !w.store.value.deleting && w.store.value.providerID != ""
    requires ShortenName(w.name, NAME_LIMIT).Some?
    requires forall x | x in w.workloads && Own(w.name, x) :: x.id == id
    ensures Forgotten(Env(w, Vanishes(id)))
    ensures OwnListed(w.name, w.workloads, id) && id !in w.doomed ==> Env(w, Vanishes(id)).vanished
  {
    hide ShortenName;
  }

  /** In that state every calm pass creates one more workload, and leads back to that state. */
  lemma ForgottenPass(w: World, s: Schedule)
    requires Forgotten(w) && Calm(s)
    requires Grantable(w, s.newTask, s.newWorkload)
    ensures var v := Pass(w, s).0;
            && v.created == w.created + [Receipt(s.newTask, s.newWorkload)]
            && Forgotten(v)
            && v.tasks.Keys == w.tasks.Keys + {s.newTask} && v.used == w.used + {s.newWorkload}
  {
    hide ShortenName, Contains, FindByName;
    NoneFound(w);
  }

  function TaskIds(schedules: seq<Schedule>): set<string> {
    if |schedules| == 0 then {}
    else TaskIds(schedules[..|schedules| - 1]) + {schedules[|schedules| - 1].newTask}
  }

  function WorkloadIds(schedules: seq<Schedule>): set<string> {
    if |schedules| == 0 then {}
    else WorkloadIds(schedules[..|schedules| - 1]) + {schedules[|schedules| - 1].newWorkload}
  }

  /** Calm schedules whose creates the cloud can accept one after the other. */
  predicate Distinct(w: World, schedules: seq<Schedule>) {
    |schedules| > 0 ==>
      var front, s := schedules[..|schedules| - 1], schedules[|schedules| - 1];
      && Distinct(w, front)
      && Calm(s) && Grantable(w, s.newTask, s.newWorkload)
      && s.newTask !in TaskIds(front) && s.newWorkload !in WorkloadIds(front)
  }

  /** So the number of workloads created for one machine has no bound: n calm passes in a row,
      before any of them is listed, create n. */
  lemma {:induction false} CreatesWithoutBound(w: World, schedules: seq<Schedule>)
    requires Forgotten(w) && Distinct(w, schedules)
    ensures var v := Run(w, Passes(schedules));
            && |v.created| == |w.created| + |schedules| && Forgotten(v)
            && v.tasks.Keys == w.tasks.Keys + TaskIds(schedules)
            && v.used == w.used + WorkloadIds(schedules)
  {
    hide Forgotten, Pass, Calm, Grantable;
    if |schedules| > 0 {
      var front, s := schedules[..|schedules| - 1], schedules[|schedules| - 1];
      CreatesWithoutBound(w, front);
      var p := Run(w, Passes(front));
      GrantableLater(w, p, front, s);
      ForgottenPass(p, s);
      assert Passes(schedules)[..|schedules| - 1] == Passes(front);
    }
  }

  lemma GrantableLater(w: World, p: World, front: seq<Schedule>, s: Schedule)
    requires Grantable(w, s.newTask, s.newWorkload)
    requires s.newTask !in TaskIds(front) && s.newWorkload !in WorkloadIds(front)
    requires p.tasks.Keys == w.tasks.Keys + TaskIds(front) && p.used == w.used + WorkloadIds(front)
    requires Forgotten(p)
    ensures Grantable(p, s.newTask, s.newWorkload) && p.store.Some?
  {
    hide TaskIds, WorkloadIds, Contains, NoneListed;
  }

  function Passes(schedules: seq<Schedule>): (r: seq<Event>)
    ensures |r| == |schedules|
    ensures forall i | 0 <= i < |r| :: r[i] == PassStep(schedules[i])
  {
    seq(|schedules|, i requires 0 <= i < |schedules| => PassStep(schedules[i]))
  }

  lemma RunOne(w: World, e: Event)
    ensures Run(w, [e]) == Apply(w, e)
  {
    assert [e][..0] == [];
    assert Run(w, []) == w;
  }

  lemma DriftOne(w: World, e: EnvEvent)
    ensures Drift(w, [e]) == Env(w, e)
  {
    assert [e][..0] == [];
    assert Drift(w, []) == w;
  }

  lemma CreatingPass(w: World, s: Schedule)
    requires Initial(w) && NoneListed(w)
    requires Calm(s) && s.newTask != "" && Grantable(w, s.newTask, s.newWorkload)
    ensures Apply(w, PassStep(s)) ==
            w.(store := Some(Machine(true, false, "", s.newTask, "", false, [])),
               tasks := map[s.newTask := Task("", s.newWorkload)], used := w.used + {s.newWorkload},
               created := [Receipt(s.newTask, s.newWorkload)])
  {
    hide ShortenName, Contains, FindByName;
    NoneFound(w);
  }

  /** A calm pass over a machine whose only listed workload has a running instance. */
  lemma LocatingPass(w: World, id: string, s: Schedule, i: Instance)
    requires w.store.Some? && !w.store.value.deleting && Calm(s)
    requires ShortenName(w.name, NAME_LIMIT).Some? && OwnListed(w.name, w.workloads, id)
    requires forall x | x in w.workloads && Own(w.name, x) :: x.id == id
    requires !Contains(id, SCHEME) && id in w.instances && w.instances[id] == [i]
    requires i.status == RUNNING && |i.ips| > 0
    ensures var r := Apply(w, PassStep(s));
            && r.store.Some? && r.store.value.ready && !r.store.value.deleting
            && r.created == w.created && r.tasks == w.tasks && r.untracked == w.untracked && r.vanished == w.vanished
  {
    var found := FindByName(w.workloads, ShortenName(w.name, NAME_LIMIT).value);
    FindByNameMeaning(w.workloads, ShortenName(w.name, NAME_LIMIT).value);
    assert found.Some? && found.value.id == id;
    ProviderIDRoundTrip(id);
    hide ShortenName, Contains, FindByName, PatchNodes, ProviderIDOf, WorkloadIDOf;
  }

  lemma WorkloadComesUp(w: World, task: string, id: string, at: nat, i: Instance)
    requires NoneListed(w) && w.tasks == map[task := Task("", id)] && id !in w.appeared
    ensures var r := Apply(Apply(w, EnvStep(WorkloadListed(task, at))), EnvStep(InstancesChange(id, [i])));
            && r.name == w.name && r.store == w.store && r.created == w.created && r.tasks == w.tasks
            && r.untracked == w.untracked && r.vanished == w.vanished
            && OwnListed(r.name, r.workloads, id) && (forall x | x in r.workloads && Own(r.name, x) :: x.id == id)
            && id in r.instances && r.instances[id] == [i]
  {
    hide ShortenName, InsertAt;
    var x := Workload(id, ShortenName(w.name, NAME_LIMIT).value, "", [], []);
    assert x in InsertAt(w.workloads, x, at) && Own(w.name, x);
  }

  /** The bound of the progress statement is reached: two calm passes, between which the workload
      is listed and its instance runs, make a fresh machine ready and leave the cloud healthy. */
  lemma ReadyInTwoPasses(w: World, s1: Schedule, s2: Schedule, at: nat, i: Instance)
    requires Initial(w) && NoneListed(w)
    requires Calm(s1) && Calm(s2) && s1.newTask != ""
    requires Grantable(w, s1.newTask, s1.newWorkload)
    requires i.status == RUNNING && |i.ips| > 0
    ensures var r := Run(w, [PassStep(s1), EnvStep(WorkloadListed(s1.newTask, at)),
                             EnvStep(InstancesChange(s1.newWorkload, [i])), PassStep(s2)]);
            Healthy(r) && r.store.value.ready && r.created == [Receipt(s1.newTask, s1.newWorkload)]
  {
    var e1, e2 := EnvStep(WorkloadListed(s1.newTask, at)), EnvStep(InstancesChange(s1.newWorkload, [i]));
    CreatingPass(w, s1);
    WorkloadComesUp(Apply(w, PassStep(s1)), s1.newTask, s1.newWorkload, at, i);
    RunFour(w, PassStep(s1), e1, e2, PassStep(s2));
    assert !Contains(s1.newWorkload, SCHEME) && !Terminal("");
    hide Apply, ShortenName, Own, Contains, OwnListed;
    LocatingPass(Apply(Apply(Apply(w, PassStep(s1)), e1), e2), s1.newWorkload, s2, i);
  }

  lemma RunFour(w: World, a: Event, b: Event, c: Event, d: Event)
    ensures Run(w, [a, b, c, d]) == Apply(Apply(Apply(Apply(w, a), b), c), d)
  {
    hide Apply, Run;
    RunOne(w, a);
    RunSplit(w, [a], b);
    RunSplit(w, [a, b], c);
    RunSplit(w, [a, b, c], d);
    assert [a] + [b] == [a, b] && [a, b] + [c] == [a, b, c] && [a, b, c] + [d] == [a, b, c, d];
  }

  /** The first pass adds the finalizer only in memory. If the deletion of the machine is requested
      after the create was accepted and before that pass closes, the machine is gone and
      its workload, created, is neither deleted nor gone: never-orphan needs its guard. */
  lemma FirstPassOrphans(w: World, s: Schedule)
    requires Initial(w) && NoneListed(w)
    requires Calm(s.(close := Slot([], Served))) && s.close.drift == [DeletionRequested]
    requires Grantable(w, s.newTask, s.newWorkload)
    ensures var v := Run(w, [PassStep(s)]);
            && v.store.None? && v.untracked && !v.vanished
            && v.created == [Receipt(s.newTask, s.newWorkload)]
            && !Settled(v, s.newWorkload)
  {
    hide ShortenName, Contains, FindByName;
    NoneFound(w);
    RunOne(w, PassStep(s));
    DriftOne(Grant(w, s.newTask, s.newWorkload), DeletionRequested);
  }

  /** When the close of the creating pass is refused, the next calm pass creates a second time:
      create-once needs its guard. */
  lemma LostCloseCreatesTwice(w: World, s1: Schedule, s2: Schedule)
    requires Initial(w) && NoneListed(w)
    requires Calm(s1.(close := Slot([], Served))) && s1.close == Slot([], Refused) && Calm(s2)
    requires Grantable(w, s1.newTask, s1.newWorkload) && Grantable(w, s2.newTask, s2.newWorkload)
    requires s1.newTask != s2.newTask && s1.newWorkload != s2.newWorkload
    ensures var v := Run(w, [PassStep(s1), PassStep(s2)]);
            |v.created| == 2 && v.untracked && !v.vanished
  {
    hide ShortenName, Contains, FindByName;
    NoneFound(w);
    var p := Apply(w, PassStep(s1));
    assert p.store == w.store && p.workloads == w.workloads && p.name == w.name && |p.created| == 1
      && p.untracked && !p.vanished;
    assert Grantable(p, s2.newTask, s2.newWorkload);
    var v := Apply(p, PassStep(s2));
    assert |v.created| == 2 && v.untracked && !v.vanished;
    RunOne(w, PassStep(s1));
    assert [PassStep(s1), PassStep(s2)][..1] == [PassStep(s1)];
  }
}
