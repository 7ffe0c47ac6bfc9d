/** One pass of the CoxMachine reconciler against an asynchronous cloud.

    The cloud and the API server move on their own: before every call of a pass any list of
    environment events may happen, and every call may be refused or have its reply lost. All of
    this is in the `Schedule` of the pass, so "for every schedule" is "for every interleaving". */
module MachinePass {
  import opened Wrappers
  import opened Strings
  import opened Naming
  import opened Cloud
  import opened ProviderID

  // ----- state -----

  /** The CoxMachine: its metadata, provider id and status. */
  datatype Machine = Machine(finalizer: bool, deleting: bool, providerID: string, taskID: string,
                             taskStatus: string, ready: bool, addresses: seq<NodeAddress>)

  /** A provisioning task and the workload it will produce. */
  datatype Task = Task(status: string, workloadID: string)

  /** An accepted create: the task it was given and the workload that task stands for. */
  datatype Receipt = Receipt(taskID: string, workloadID: string)

  const SUCCESS := "SUCCESS"
  const FAILURE := "FAILURE"

  predicate Terminal(status: string) {
    status == SUCCESS || status == FAILURE
  }

  /** The persisted machine (None once the API server has removed it) beside the cloud, and the
      history the statements talk about:
      used      - workload ids the cloud has ever given out
      appeared  - created workloads that have been listed
      doomed    - workloads with an accepted delete
      created   - the creates accepted for this machine, in order
      untracked - some accepted create whose task id is not (yet) in the persisted machine
      vanished  - a workload of this machine left the list without an accepted delete
      observed  - instances whose addresses were copied into the machine */
  datatype World = World(name: string, store: Option<Machine>,
                         workloads: seq<Workload>, instances: map<string, seq<Instance>>,
                         tasks: map<string, Task>, nodes: seq<Node>,
                         used: set<string>, appeared: set<string>, doomed: set<string>,
                         created: seq<Receipt>, untracked: bool, vanished: bool,
                         observed: seq<Instance>)

  // ----- the environment -----

  datatype EnvEvent =
    | TaskMoves(task: string, status: string)
    | WorkloadListed(task: string, at: nat)
    | ForeignListed(w: Workload)
    | Vanishes(id: string)
    | InstancesChange(id: string, instances: seq<Instance>)
    | NodesChange(nodes: seq<Node>)
    | DeletionRequested

  /** A workload of the machine of that name. */
  predicate Own(name: string, x: Workload) {
    ShortenName(name, NAME_LIMIT) == Some(x.name)
  }

  predicate OwnListed(name: string, list: seq<Workload>, id: string) {
    exists x | x in list :: x.id == id && Own(name, x)
  }

  function InsertAt(list: seq<Workload>, x: Workload, at: nat): (r: seq<Workload>)
    ensures forall y :: y in r <==> y in list || y == x
  {
    var i := if at <= |list| then at else |list|;
    assert list == list[..i] + list[i..];
    list[..i] + [x] + list[i..]
  }

  /** One environment event; an event the cloud would not produce changes nothing. A task ends
      at most once, and succeeds only when its workload has been listed; its workload is listed
      at most once, at any time, also after the task has failed; foreign workloads do not share
      the shortened name. A machine without a finalizer is removed as soon as its deletion is
      requested. */
  function Env(w: World, e: EnvEvent): World {
    match e
    case TaskMoves(t, status) =>
      if t in w.tasks && !Terminal(w.tasks[t].status)
         && (status == SUCCESS ==> w.tasks[t].workloadID in w.appeared)
      then w.(tasks := w.tasks[t := w.tasks[t].(status := status)])
      else w
    case WorkloadListed(t, at) =>
      if t in w.tasks && w.tasks[t].workloadID !in w.appeared && ShortenName(w.name, NAME_LIMIT).Some?
      then
        var x := Workload(w.tasks[t].workloadID, ShortenName(w.name, NAME_LIMIT).value, "", [], []);
        w.(workloads := InsertAt(w.workloads, x, at), appeared := w.appeared + {x.id})
      else w
    case ForeignListed(x) =>
      if x.id in w.used || Own(w.name, x) then w
      else w.(workloads := w.workloads + [x], used := w.used + {x.id})
    case Vanishes(id) =>
      w.(workloads := Remove(w.workloads, id),
         vanished := w.vanished || (OwnListed(w.name, w.workloads, id) && id !in w.doomed))
    case InstancesChange(id, instances) => w.(instances := w.instances[id := instances])
    case NodesChange(nodes) => w.(nodes := nodes)
    case DeletionRequested =>
      if w.store.None? then w
      else if w.store.value.finalizer then w.(store := Some(w.store.value.(deleting := true)))
      else w.(store := None)
  }

  function Drift(w: World, events: seq<EnvEvent>): World {
    if |events| == 0 then w else Env(Drift(w, events[..|events| - 1]), events[|events| - 1])
  }

  // ----- calls -----

  /** Served; refused without effect; or done by the server with the reply lost. */
  datatype Reply = Served | Refused | ReplyLost
  datatype Slot = Slot(drift: seq<EnvEvent>, reply: Reply)

  /** Everything a pass does not decide itself. `gates` is open when the cluster is ready, the
      bootstrap secret is named and the machine carries no error message. */
  datatype Schedule = Schedule(gates: bool, bootstrap: bool,
                               list: Slot, task: Slot,
                               create: Slot, newTask: string, newWorkload: string,
                               inst: Slot, node: Slot,
                               get: Slot, read: Slot, post: Slot,
                               close: Slot)

  datatype Outcome =
    | Gated | NameTooLong | Broken | InProgress
    | NoBootstrap | CreateFailed | CreatedWorkload
    | InstancesFailed | InstanceWaits | NoInternalIP | NodeFailed | BecameReady
    | LookupFailed | DeleteFailed | FinalizerRemoved

  /** What reconcileWorkload answers: nil, one of the two not-found errors, the in-progress
      error, any other error, or the panic of the name shortening. */
  datatype Verdict = Located | NotStarted | Pending | Erred | NamePanic

  datatype Step = Step(world: World, mem: Machine, verdict: Verdict)

  /** reconcileWorkload: find the workload by name, or else through the task. */
  function Locate(w0: World, m: Machine, s: Schedule): Step {
    var w := Drift(w0, s.list.drift);
    if s.list.reply != Served then Step(w, m, Erred)
    else match ShortenName(w.name, NAME_LIMIT)
      case None => Step(w, m, NamePanic)
      case Some(short) =>
        match FindByName(w.workloads, short)
        case Some(x) => Step(w, m.(providerID := ProviderIDOf(x.id)), Located)
        case None =>
          if |m.providerID| > 0 || m.taskID == "" then Step(w, m, NotStarted)
          else PollTask(w, m, s)
  }

  function PollTask(w0: World, m: Machine, s: Schedule): Step {
    var w := Drift(w0, s.task.drift);
    if s.task.reply != Served || m.taskID !in w.tasks then Step(w, m, Erred)
    else
      var t := w.tasks[m.taskID];
      var m' := m.(taskStatus := t.status);
      if t.status == SUCCESS then Step(w, m'.(providerID := ProviderIDOf(t.workloadID)), Located)
      else if t.status == FAILURE then Step(w, m', Erred)
      else Step(w, m', Pending)
  }

  /** The cloud hands out fresh ids, and workload ids that do not contain the provider scheme. */
  predicate Grantable(w: World, task: string, workload: string) {
    task !in w.tasks && workload !in w.used && !Contains(workload, SCHEME)
  }

  /** CreateWorkload accepted: from here on the create is untracked until its task id is stored. */
  function Grant(w: World, task: string, workload: string): World {
    w.(tasks := w.tasks[task := Task("", workload)], used := w.used + {workload},
       created := w.created + [Receipt(task, workload)], untracked := true)
  }

  /** The patch: the deletion mark belongs to the API server, and a deleting machine without
      finalizer is removed. */
  function Persist(w: World, m: Machine): World
    requires w.store.Some?
  {
    var deleting := w.store.value.deleting;
    if deleting && !m.finalizer then w.(store := None)
    else w.(store := Some(m.(deleting := deleting)))
  }

  /** Close fails, and persists nothing, when it is refused or the machine is gone. */
  function Close(w0: World, m: Machine, s: Schedule): World {
    var w := Drift(w0, s.close.drift);
    if s.close.reply == Refused || w.store.None? then w else Persist(w, m)
  }

  /** The persisted machine names the task of the create. */
  predicate Tracked(w: World, task: string) {
    task != "" && w.store.Some? && w.store.value.taskID == task
  }

  function CreateAndClose(w0: World, m: Machine, s: Schedule): (World, Outcome) {
    var w := Drift(w0, s.create.drift);
    if s.create.reply == Refused || !Grantable(w, s.newTask, s.newWorkload) then
      (Close(w, m, s), CreateFailed)
    else
      var granted := Grant(w, s.newTask, s.newWorkload);
      if s.create.reply == ReplyLost then (Close(granted, m, s), CreateFailed)
      else
        var w' := Close(granted, m.(taskID := s.newTask), s);
        (w'.(untracked := w.untracked || !Tracked(w', s.newTask)), CreatedWorkload)
  }

  function ReadyAddresses(i: Instance): seq<NodeAddress>
    requires |i.ips| > 0
  {
    [NodeAddress(ExternalIP, i.publicIP), NodeAddress(InternalIP, i.ips[0])]
  }

  function BringUp(w0: World, m: Machine, s: Schedule): (World, Outcome) {
    var w := Drift(w0, s.inst.drift);
    var instances := InstancesOf(w.instances, WorkloadIDOf(m.providerID));
    if s.inst.reply != Served then (Close(w, m, s), InstancesFailed)
    else if |instances| == 0 || instances[0].status != RUNNING then (Close(w, m, s), InstanceWaits)
    else if |instances[0].ips| == 0 then (Close(w, m, s), NoInternalIP)
    else
      var m' := m.(addresses := ReadyAddresses(instances[0]));
      var w' := Drift(w.(observed := w.observed + [instances[0]]), s.node.drift);
      var patched := if s.node.reply == Refused then w'
                     else w'.(nodes := PatchNodes(w'.nodes, m'.addresses, m'.providerID));
      if s.node.reply != Served then (Close(patched, m', s), NodeFailed)
      else (Close(patched, m'.(ready := true), s), BecameReady)
  }

  function NormalPass(w: World, m0: Machine, s: Schedule): (World, Outcome) {
    var m := m0.(finalizer := true);
    if !s.gates then (Close(w, m, s), Gated)
    else
      var step := Locate(w, m, s);
      match step.verdict
      case NamePanic => (Close(step.world, step.mem, s), NameTooLong)
      case Erred => (Close(step.world, step.mem, s), Broken)
      case Pending => (Close(step.world, step.mem, s), InProgress)
      case NotStarted =>
        if !s.bootstrap then (Close(step.world, step.mem, s), NoBootstrap)
        else CreateAndClose(step.world, step.mem, s)
      case Located => BringUp(step.world, step.mem, s)
  }

  /** GetWorkload, then DeleteWorkload (which reads the workload once more before it posts). A
      404 is answered exactly for a workload that is not listed. */
  function TearDown(w0: World, m: Machine, s: Schedule): (World, Outcome) {
    var id := WorkloadIDOf(m.providerID);
    var w1 := Drift(w0, s.get.drift);
    if s.get.reply != Served then (Close(w1, m, s), LookupFailed)
    else if id !in Ids(w1.workloads) then (Close(w1, m.(finalizer := false), s), FinalizerRemoved)
    else
      var w2 := Drift(w1, s.read.drift);
      if s.read.reply != Served || id !in Ids(w2.workloads) then (Close(w2, m, s), DeleteFailed)
      else
        var w3 := Drift(w2, s.post.drift);
        if s.post.reply == Refused || id !in Ids(w3.workloads) then (Close(w3, m, s), DeleteFailed)
        else
          var doomed := w3.(doomed := w3.doomed + {id});
          if s.post.reply == ReplyLost then (Close(doomed, m, s), DeleteFailed)
          else (Close(doomed, m.(finalizer := false), s), FinalizerRemoved)
  }

  function DeletePass(w: World, m: Machine, s: Schedule): (World, Outcome) {
    var step := Locate(w, m, s);
    match step.verdict
    case NamePanic => (Close(step.world, step.mem, s), NameTooLong)
    case Erred => (Close(step.world, step.mem, s), Broken)
    case Pending => (Close(step.world, step.mem, s), InProgress)
    case NotStarted => (Close(step.world, step.mem.(finalizer := false), s), FinalizerRemoved)
    case Located => TearDown(step.world, step.mem, s)
  }

  /** Reconcile reads the persisted machine and branches on its deletion mark. */
  function Pass(w: World, s: Schedule): (World, Outcome)
    requires w.store.Some?
  {
    if w.store.value.deleting then DeletePass(w, w.store.value, s) else NormalPass(w, w.store.value, s)
  }

  // ----- runs -----

  datatype Event = EnvStep(env: EnvEvent) | PassStep(schedule: Schedule)

  function Apply(w: World, e: Event): World {
    match e
    case EnvStep(env) => Env(w, env)
    case PassStep(s) => if w.store.None? then w else Pass(w, s).0
  }

  function Run(w: World, events: seq<Event>): World {
    if |events| == 0 then w else Apply(Run(w, events[..|events| - 1]), events[|events| - 1])
  }

  /** A fresh machine, in a cloud with no task for it and no workload of its shortened name. */
  predicate Initial(w: World) {
    && w.store == Some(Machine(false, false, "", "", "", false, []))
    && w.tasks == map[] && w.created == [] && w.observed == []
    && w.appeared == {} && w.doomed == {}
    && !w.untracked && !w.vanished
    && forall x | x in w.workloads :: x.id in w.used && !Own(w.name, x)
  }
}
