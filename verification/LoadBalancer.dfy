/** Load balancers are ordinary workloads whose configuration lives in two environment
    variables. This module is the codec, and the four helper operations over a cloud. */
module LoadBalancer {
  import opened Wrappers
  import opened Strings
  import opened Naming
  import opened Cloud

  const ENV_BACKENDS := "LB_BACKENDS"
  const ENV_PORT := "LB_PORT"

  datatype LbSpec = LbSpec(name: string, port: seq<string>, image: string,
                           backends: seq<string>, pop: seq<string>, instances: nat)
  datatype Lb = Lb(spec: LbSpec, publicIP: string)

  /** The cloud, with what the statements need to remember about it: the ids ever given out,
      the accepted deletes, the ports each load balancer was created with, and the ids of all
      accepted updates. */
  datatype CloudState = CloudState(workloads: seq<Workload>, instances: map<string, seq<Instance>>,
                                   used: set<string>, doomed: set<string>, born: map<string, seq<string>>,
                                   updates: seq<string>)

  datatype CreateReply = Accepted(id: string) | Refused(failure: Failure)

  // ----- decoding -----

  /** The value a key ends up with when later entries overwrite earlier ones. */
  function LookupEnv(env: seq<EnvVar>, key: string): Option<string> {
    if |env| == 0 then None
    else if env[|env| - 1].key == key then Some(env[|env| - 1].value)
    else LookupEnv(env[..|env| - 1], key)
  }

  function Pieces(v: Option<string>, sep: char): seq<string> {
    if v.None? then [] else Split(v.value, sep)
  }

  function ParseSpec(w: Workload): Result<LbSpec, Error> {
    var backends := LookupEnv(w.env, ENV_BACKENDS);
    if backends.None? then Err(NotALoadBalancer)
    else if |w.deployments| == 0 then Panic
    else Ok(LbSpec(w.name, Pieces(LookupEnv(w.env, ENV_PORT), ','), w.image,
                   Pieces(backends, ';'), w.deployments[0].pops, 0))
  }

  /** The public address of the last RUNNING instance, or nothing. */
  function RunningIP(instances: seq<Instance>): string {
    if |instances| == 0 then ""
    else if instances[|instances| - 1].status == RUNNING then instances[|instances| - 1].publicIP
    else RunningIP(instances[..|instances| - 1])
  }

  function RunningCount(instances: seq<Instance>): nat {
    if |instances| == 0 then 0
    else RunningCount(instances[..|instances| - 1])
         + if instances[|instances| - 1].status == RUNNING then 1 else 0
  }

  function Parse(w: Workload, instances: seq<Instance>): Result<Lb, Error> {
    match ParseSpec(w)
    case Ok(spec) => Ok(Lb(spec.(instances := RunningCount(instances)), RunningIP(instances)))
    case Err(e) => Err(e)
    case Panic => Panic
  }

  // ----- encoding -----

  function CreatedEnv(spec: LbSpec): seq<EnvVar> {
    [EnvVar(ENV_PORT, Join(spec.port, ',')), EnvVar(ENV_BACKENDS, Join(spec.backends, ';'))]
  }

  function UpdatedEnv(backends: seq<string>, port: seq<string>): seq<EnvVar> {
    [EnvVar(ENV_BACKENDS, Join(backends, ';')), EnvVar(ENV_PORT, Join(port, ','))]
  }

  // ----- the four operations -----

  function Get(k: CloudState, name: string, find: Option<Failure>, inst: Option<Failure>): Result<Lb, Error> {
    match Lookup(k.workloads, name, find)
    case Err(e) => Err(e)
    case Panic => Panic
    case Ok(w) =>
      if inst.Some? then Err(Request(inst.value))
      else Parse(w, InstancesOf(k.instances, w.id))
  }

  /** An accepted create is visible in the list from then on; an id is never given out twice. */
  function Create(k: CloudState, spec: LbSpec, reply: CreateReply): (CloudState, Result<(), Error>) {
    match ShortenName(spec.name, NAME_LIMIT)
    case None => (k, Panic)
    case Some(short) =>
      if reply.Refused? then (k, Err(Request(reply.failure)))
      else if reply.id in k.used then (k, Err(Request(Wire)))
      else
        var w := Workload(reply.id, short, spec.image, CreatedEnv(spec), [Deployment(spec.pop)]);
        (k.(workloads := k.workloads + [w], used := k.used + {w.id}, born := k.born[reply.id := spec.port]), Ok(()))
  }

  function Update(k: CloudState, spec: LbSpec, find: Option<Failure>, put: Option<Failure>)
    : (CloudState, Result<(), Error>)
  {
    match Lookup(k.workloads, spec.name, find)
    case Err(e) => (k, Err(e))
    case Panic => (k, Panic)
    case Ok(w) =>
      match ParseSpec(w)
      case Err(e) => (k, Err(e))
      case Panic => (k, Panic)
      case Ok(existing) =>
        match ShortenName(w.name, NAME_LIMIT)
        case None => (k, Panic)
        case Some(short) =>
          if put.Some? then (k, Err(Request(put.value)))
          else
            var w' := w.(name := short, env := UpdatedEnv(spec.backends, existing.port));
            (k.(workloads := Replace(k.workloads, w'), updates := k.updates + [w.id]), Ok(()))
  }

  /** DeleteWorkload reads the workload first and then posts the delete. */
  function DeleteWorkload(k: CloudState, id: string, read: Option<Failure>, post: Option<Failure>)
    : (CloudState, Result<(), Error>)
  {
    if read.Some? then (k, Err(Request(read.value)))
    else if id !in Ids(k.workloads) then (k, Err(Request(Http(404))))
    else if post.Some? then (k, Err(Request(post.value)))
    else (k.(doomed := k.doomed + {id}), Ok(()))
  }

  /** The not-found sentinel of the lookup is not an apimachinery NotFound error, so a missing
      load balancer is an error here, not a success. */
  function Delete(k: CloudState, name: string, find: Option<Failure>, read: Option<Failure>, post: Option<Failure>)
    : (CloudState, Result<(), Error>)
  {
    match Lookup(k.workloads, name, find)
    case Err(e) => (k, Err(e))
    case Panic => (k, Panic)
    case Ok(w) => DeleteWorkload(k, w.id, read, post)
  }

  // ----- properties of the codec -----

  /** The last variable of that key decides. */
  lemma {:induction false} LookupEnvMeaning(env: seq<EnvVar>, key: string)
    ensures LookupEnv(env, key).None? <==> forall i | 0 <= i < |env| :: env[i].key != key
    ensures forall i | 0 <= i < |env| && env[i].key == key && (forall j | i < j < |env| :: env[j].key != key) ::
              LookupEnv(env, key) == Some(env[i].value)
  {
    if |env| > 0 {
      var front := env[..|env| - 1];
      LookupEnvMeaning(front, key);
      assert forall i | 0 <= i < |front| :: front[i] == env[i];
    }
  }

  lemma LookupEnvPair(a: EnvVar, b: EnvVar)
    requires a.key != b.key
    ensures LookupEnv([a, b], a.key) == Some(a.value)
    ensures LookupEnv([a, b], b.key) == Some(b.value)
  {
    assert [a, b][..1] == [a];
  }

  predicate Plain(parts: seq<string>, sep: char) {
    |parts| > 0 && forall p | p in parts :: sep !in p
  }

  /** Whatever the order of the two variables, decoding gives back the encoded backends
      and ports exactly when each list is non-empty and free of its separator. */
  lemma CodecRoundTrip(w: Workload, port: seq<string>, backends: seq<string>)
    requires |w.deployments| > 0
    requires || w.env == [EnvVar(ENV_PORT, Join(port, ',')), EnvVar(ENV_BACKENDS, Join(backends, ';'))]
             || w.env == [EnvVar(ENV_BACKENDS, Join(backends, ';')), EnvVar(ENV_PORT, Join(port, ','))]
    ensures ParseSpec(w).Ok?
    ensures ParseSpec(w).value.backends == Split(Join(backends, ';'), ';')
    ensures ParseSpec(w).value.port == Split(Join(port, ','), ',')
    ensures ParseSpec(w).value.backends == backends <==> Plain(backends, ';')
    ensures ParseSpec(w).value.port == port <==> Plain(port, ',')
  {
    LookupEnvPair(w.env[0], w.env[1]);
    SplitJoin(backends, ';');
    SplitJoin(port, ',');
  }

  /** Get right after an accepted Create finds the new workload, provided no earlier one has
      the shortened name, and decodes what was created exactly when it is separator-free. */
  lemma GetAfterCreate(k: CloudState, spec: LbSpec, reply: CreateReply)
    requires Create(k, spec, reply).1.Ok?
    requires Lookup(k.workloads, spec.name, None) == Err(WorkloadNotFound)
    ensures var r := Get(Create(k, spec, reply).0, spec.name, None, None);
            && r.Ok?
            && r.value.spec.backends == Split(Join(spec.backends, ';'), ';')
            && (r.value.spec.backends == spec.backends <==> Plain(spec.backends, ';'))
            && (r.value.spec.port == spec.port <==> Plain(spec.port, ','))
            && Some(r.value.spec.name) == ShortenName(spec.name, NAME_LIMIT)
            && r.value.spec.image == spec.image && r.value.spec.pop == spec.pop
  {
    var k' := Create(k, spec, reply).0;
    var short := ShortenName(spec.name, NAME_LIMIT).value;
    FindByNameMeaning(k.workloads, short);
    FindByNameAt(k'.workloads, short, |k.workloads|);
    CodecRoundTrip(k'.workloads[|k.workloads|], spec.port, spec.backends);
  }

  /** A PUT leaves the lookup of any name on the workload it found before: names do not change. */
  lemma {:induction false} FindAfterReplace(list: seq<Workload>, name: string, w: Workload)
    requires forall x | x in list && x.id == w.id :: x.name == w.name
    ensures FindByName(Replace(list, w), name) ==
            match FindByName(list, name)
            case None => None
            case Some(x) => Some(if x.id == w.id then w else x)
  {
    if |list| > 0 {
      FindAfterReplace(list[1..], name, w);
    }
  }

  lemma LookupAfterReplace(list: seq<Workload>, w: Workload, w': Workload, name: string)
    requires UniqueIds(list) && w in list && w'.id == w.id && w'.name == w.name
    ensures Lookup(Replace(list, w'), name, None) ==
            if Lookup(list, name, None) == Ok(w) then Ok(w') else Lookup(list, name, None)
  {
    LookupMeaning(list, name, None);
    if ShortenName(name, NAME_LIMIT).Some? {
      FindAfterReplace(list, ShortenName(name, NAME_LIMIT).value, w');
    }
  }

  /** The workload an accepted update leaves behind. */
  function Updated(w: Workload, backends: seq<string>, port: seq<string>): Workload {
    w.(env := UpdatedEnv(backends, port))
  }

  /** Ports that were decoded from a workload survive being encoded again. */
  lemma PortsReencode(w: Workload)
    requires ParseSpec(w).Ok? && |ParseSpec(w).value.port| > 0
    ensures LookupEnv(w.env, ENV_PORT) == Some(Join(ParseSpec(w).value.port, ','))
    ensures Plain(ParseSpec(w).value.port, ',')
  {
    JoinSplit(LookupEnv(w.env, ENV_PORT).value, ',');
    SplitPieces(LookupEnv(w.env, ENV_PORT).value, ',');
  }

  /** What an accepted update does: it hits the very workload Get compared, keeps its name, id,
      image, placement and ports, stores the new backends, and leaves every other workload alone. */
  lemma UpdateMeaning(k: CloudState, name: string, spec: LbSpec)
    requires Get(k, name, None, None).Ok?
    requires spec.name == Get(k, name, None, None).value.spec.name
    ensures var w := Lookup(k.workloads, name, None).value;
            var w' := Updated(w, spec.backends, Get(k, name, None, None).value.spec.port);
            Update(k, spec, None, None) ==
            (k.(workloads := Replace(k.workloads, w'), updates := k.updates + [w.id]), Ok(()))
  {
    var w := Lookup(k.workloads, name, None).value;
    LookupMeaning(k.workloads, name, None);
    assert ParseSpec(w).Ok? && ParseSpec(w).value.name == w.name;
    assert Lookup(k.workloads, w.name, None) == Ok(w) by { LookupAgain(k.workloads, name, None); }
    assert ShortenName(w.name, NAME_LIMIT) == Some(w.name) by { ShortenIdempotent(name, NAME_LIMIT); }
    assert w.(name := w.name, env := UpdatedEnv(spec.backends, ParseSpec(w).value.port))
        == Updated(w, spec.backends, ParseSpec(w).value.port);
  }

  /** Get after Update: the new backends (exactly when they are separator-free), and everything
      else, the ports included, as stored before, whatever ports the payload asked for. */
  lemma GetAfterUpdate(k: CloudState, name: string, spec: LbSpec)
    requires UniqueIds(k.workloads)
    requires Get(k, name, None, None).Ok?
    requires spec.name == Get(k, name, None, None).value.spec.name
    ensures var was, r := Get(k, name, None, None).value, Get(Update(k, spec, None, None).0, name, None, None);
            && r.Ok?
            && r.value.spec.backends == Split(Join(spec.backends, ';'), ';')
            && (r.value.spec.backends == spec.backends <==> Plain(spec.backends, ';'))
            && (|was.spec.port| > 0 ==> r.value == was.(spec := was.spec.(backends := r.value.spec.backends)))
  {
    UpdateMeaning(k, name, spec);
    var w := Lookup(k.workloads, name, None).value;
    var port := Get(k, name, None, None).value.spec.port;
    LookupMeaning(k.workloads, name, None);
    LookupAfterReplace(k.workloads, w, Updated(w, spec.backends, port), name);
    CodecRoundTrip(Updated(w, spec.backends, port), port, spec.backends);
    if |port| > 0 { PortsReencode(w); }
  }

  /** An update of one load balancer leaves what Get reads of every other one as it was. */
  lemma GetOtherAfterUpdate(k: CloudState, name: string, spec: LbSpec, other: string)
    requires UniqueIds(k.workloads)
    requires Get(k, name, None, None).Ok?
    requires spec.name == Get(k, name, None, None).value.spec.name
    requires ShortenName(name, NAME_LIMIT) != ShortenName(other, NAME_LIMIT)
    ensures Get(Update(k, spec, None, None).0, other, None, None) == Get(k, other, None, None)
  {
    UpdateMeaning(k, name, spec);
    var w := Lookup(k.workloads, name, None).value;
    var w' := Updated(w, spec.backends, Get(k, name, None, None).value.spec.port);
    LookupMeaning(k.workloads, name, None);
    LookupMeaning(k.workloads, other, None);
    LookupAfterReplace(k.workloads, w, w', other);
    hide ParseSpec, RunningIP, RunningCount, ShortenName, Lookup, Update, Replace, UniqueIds;
  }

  lemma {:induction false} RunningIPMeaning(instances: seq<Instance>)
    ensures RunningIP(instances) != "" ==> RunningCount(instances) >= 1
    ensures RunningCount(instances) >= 1 ==>
            exists i | 0 <= i < |instances| ::
              && instances[i].status == RUNNING
              && RunningIP(instances) == instances[i].publicIP
              && forall j | i < j < |instances| :: instances[j].status != RUNNING
  {
    if |instances| > 0 {
      var n := |instances| - 1;
      RunningIPMeaning(instances[..n]);
      if instances[n].status != RUNNING && RunningCount(instances) >= 1 {
        var i :| 0 <= i < n
              && instances[..n][i].status == RUNNING
              && RunningIP(instances[..n]) == instances[..n][i].publicIP
              && forall j | i < j < n :: instances[..n][j].status != RUNNING;
        assert instances[i].status == RUNNING && RunningIP(instances) == instances[i].publicIP;
        assert forall j | i < j < n :: instances[j] == instances[..n][j];
      }
    }
  }

  /** What Get reads of a found load balancer, field by field: its name, image and first placement,
      the two lists of its variables, the address of its last RUNNING instance, and how many run. */
  lemma GetReads(k: CloudState, name: string)
    requires Get(k, name, None, None).Ok?
    ensures Lookup(k.workloads, name, None).Ok?
    ensures var w, lb := Lookup(k.workloads, name, None).value, Get(k, name, None, None).value;
            var instances := if w.id in k.instances then k.instances[w.id] else [];
            && lb.spec.name == w.name && lb.spec.image == w.image && w.deployments != []
            && lb.spec.pop == w.deployments[0].pops
            && LookupEnv(w.env, "LB_BACKENDS").Some?
            && lb.spec.backends == Split(LookupEnv(w.env, "LB_BACKENDS").value, ';')
            && lb.spec.port == (if LookupEnv(w.env, "LB_PORT").None? then []
                                else Split(LookupEnv(w.env, "LB_PORT").value, ','))
            && lb.spec.instances == |set i | 0 <= i < |instances| && instances[i].status == "RUNNING"|
            && (lb.publicIP != "" ==> lb.spec.instances > 0)
            && (lb.spec.instances > 0 ==>
                  exists i | 0 <= i < |instances| ::
                    && instances[i].status == "RUNNING" && lb.publicIP == instances[i].publicIP
                    && forall j | i < j < |instances| :: instances[j].status != "RUNNING")
  {
    var w := Lookup(k.workloads, name, None).value;
    RunningCountMeaning(InstancesOf(k.instances, w.id));
    RunningIPMeaning(InstancesOf(k.instances, w.id));
    hide Lookup, Split, LookupEnv, RunningCount, RunningIP;
  }

  lemma {:induction false} RunningCountMeaning(instances: seq<Instance>)
    ensures RunningCount(instances) == |set i | 0 <= i < |instances| && instances[i].status == RUNNING|
  {
    var all := set i | 0 <= i < |instances| && instances[i].status == RUNNING;
    if |instances| > 0 {
      var n := |instances| - 1;
      RunningCountMeaning(instances[..n]);
      var front := set i | 0 <= i < n && instances[..n][i].status == RUNNING;
      assert all == if instances[n].status == RUNNING then front + {n} else front;
    }
  }
}
