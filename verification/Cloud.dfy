/** The CoxEdge API as both reconcilers see it: a list of workloads and their instances. */
module Cloud {
  import opened Wrappers
  import opened Naming

  datatype EnvVar = EnvVar(key: string, value: string)
  datatype Deployment = Deployment(pops: seq<string>)
  datatype Workload = Workload(id: string, name: string, image: string,
                               env: seq<EnvVar>, deployments: seq<Deployment>)
  datatype Instance = Instance(status: string, publicIP: string, ips: seq<string>)

  /** A Kubernetes node address. */
  datatype AddressType = ExternalIP | InternalIP | OtherAddress
  datatype NodeAddress = NodeAddress(kind: AddressType, address: string)

  const RUNNING := "RUNNING"

  /** A request that failed on the wire or with an HTTP status. */
  datatype Failure = Http(status: int) | Wire

  datatype Error = WorkloadNotFound | Request(failure: Failure) | NotALoadBalancer

  /** The first workload of that exact name, in the order the API lists them. */
  function FindByName(list: seq<Workload>, name: string): (r: Option<Workload>)
  {
    if |list| == 0 then None
    else if list[0].name == name then Some(list[0])
    else FindByName(list[1..], name)
  }

  lemma {:induction false} FindByNameMeaning(list: seq<Workload>, name: string)
    ensures var r := FindByName(list, name);
            && (r.Some? ==> r.value in list && r.value.name == name)
            && (r.None? <==> forall w | w in list :: w.name != name)
  {
    if |list| > 0 && list[0].name != name {
      FindByNameMeaning(list[1..], name);
      assert forall w | w in list :: w == list[0] || w in list[1..];
    }
  }

  lemma {:induction false} FindByNameAt(list: seq<Workload>, name: string, i: nat)
    requires i < |list| && list[i].name == name
    requires forall j | 0 <= j < i :: list[j].name != name
    ensures FindByName(list, name) == Some(list[i])
  {
    if i > 0 {
      assert list[1..][i - 1] == list[i];
      FindByNameAt(list[1..], name, i - 1);
    }
  }

  function Ids(list: seq<Workload>): set<string> {
    set w | w in list :: w.id
  }

  predicate UniqueIds(list: seq<Workload>) {
    forall i, j | 0 <= i < j < |list| :: list[i].id != list[j].id
  }

  /** A PUT on a workload: every listed workload of that id now reads as `w`. */
  function Replace(list: seq<Workload>, w: Workload): seq<Workload> {
    if |list| == 0 then [] else [if list[0].id == w.id then w else list[0]] + Replace(list[1..], w)
  }

  lemma {:induction false} ReplaceMeaning(list: seq<Workload>, w: Workload)
    ensures |Replace(list, w)| == |list|
    ensures forall i | 0 <= i < |list| :: Replace(list, w)[i] == if list[i].id == w.id then w else list[i]
  {
    if |list| > 0 {
      ReplaceMeaning(list[1..], w);
    }
  }

  /** A workload disappears from the list. */
  function Remove(list: seq<Workload>, id: string): (r: seq<Workload>)
    ensures forall w :: w in r <==> w in list && w.id != id
    ensures UniqueIds(list) ==> UniqueIds(r)
  {
    if |list| == 0 then []
    else
      assert list == [list[0]] + list[1..];
      var rest := Remove(list[1..], id);
      if list[0].id == id then rest else
        assert UniqueIds(list) ==> forall w | w in rest :: w.id != list[0].id;
        [list[0]] + rest
  }

  function InstancesOf(instances: map<string, seq<Instance>>, id: string): seq<Instance> {
    if id in instances then instances[id] else []
  }

  /** GetWorkloadByName: list, shorten the name, scan for the first match. */
  function Lookup(list: seq<Workload>, name: string, fault: Option<Failure>): Result<Workload, Error> {
    if fault.Some? then Err(Request(fault.value))
    else match ShortenName(name, NAME_LIMIT)
      case None => Panic
      case Some(short) =>
        match FindByName(list, short)
        case None => Err(WorkloadNotFound)
        case Some(w) => Ok(w)
  }

  lemma LookupMeaning(list: seq<Workload>, name: string, fault: Option<Failure>)
    ensures var r := Lookup(list, name, fault);
            && (r.Ok? ==> r.value in list && ShortenName(name, NAME_LIMIT) == Some(r.value.name))
            && (r == Err(WorkloadNotFound) <==>
                  && fault.None? && ShortenName(name, NAME_LIMIT).Some?
                  && forall w | w in list :: w.name != ShortenName(name, NAME_LIMIT).value)
  {
    if ShortenName(name, NAME_LIMIT).Some? {
      FindByNameMeaning(list, ShortenName(name, NAME_LIMIT).value);
    }
  }

  /** The scan of GetWorkloadByName: shorten the name, return the first workload that has it. */
  method ScanByName(list: seq<Workload>, name: string) returns (r: Result<Workload, Error>)
    ensures r == Lookup(list, name, None)
    ensures r == Err(WorkloadNotFound) <==>
            ShortenName(name, NAME_LIMIT).Some? && forall w | w in list :: w.name != ShortenName(name, NAME_LIMIT).value
  {
    hide ShortenName, FindByName;
    LookupMeaning(list, name, None);
    var short := ShortenName(name, NAME_LIMIT);
    if short.None? {
      return Panic;
    }
    for i := 0 to |list|
      invariant forall j | 0 <= j < i :: list[j].name != short.value
    {
      if list[i].name == short.value {
        FindByNameAt(list, short.value, i);
        return Ok(list[i]);
      }
    }
    return Err(WorkloadNotFound);
  }

  /** Looking a found workload up again, by the name it was found under, finds it again. */
  lemma LookupAgain(list: seq<Workload>, name: string, fault: Option<Failure>)
    requires Lookup(list, name, fault).Ok?
    ensures Lookup(list, Lookup(list, name, fault).value.name, None) == Lookup(list, name, fault)
  {
    LookupMeaning(list, name, fault);
    ShortenIdempotent(name, NAME_LIMIT);
  }
}
