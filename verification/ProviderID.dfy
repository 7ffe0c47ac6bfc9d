/** The provider id of a machine, and the node of the workload cluster that carries it. */
module ProviderID {
  import opened Wrappers
  import opened Strings
  import opened Cloud

  const SCHEME := "coxedge://"

  function ProviderIDOf(id: string): string {
    SCHEME + id
  }

  function WorkloadIDOf(providerID: string): string {
    RemoveAll(providerID, SCHEME)
  }

  /** A workload id read back from the provider id has lost every non-overlapping occurrence of
      the scheme; it is the id that went in exactly when the id did not contain the scheme. */
  lemma ProviderIDRoundTrip(id: string)
    ensures WorkloadIDOf(ProviderIDOf(id)) == RemoveAll(id, SCHEME)
    ensures WorkloadIDOf(ProviderIDOf(id)) == id <==> !Contains(id, SCHEME)
  {
    RemoveAllIdentity(id, SCHEME);
    assert ProviderIDOf(id)[|SCHEME|..] == id;
    assert HasPrefix(ProviderIDOf(id), SCHEME);
  }

  datatype Node = Node(name: string, addresses: seq<NodeAddress>, providerID: string)

  /** The internal addresses of a machine. */
  function InternalIPs(addresses: seq<NodeAddress>): set<string> {
    set a | a in addresses && a.kind == InternalIP :: a.address
  }

  predicate Matches(n: Node, ips: set<string>) {
    exists a | a in n.addresses :: a.kind == InternalIP && a.address in ips
  }

  function FirstMatch(nodes: seq<Node>, ips: set<string>): (r: Option<nat>)
    ensures r.Some? ==> r.value < |nodes|
  {
    if |nodes| == 0 then None
    else if Matches(nodes[0], ips) then Some(0)
    else match FirstMatch(nodes[1..], ips)
      case None => None
      case Some(i) => Some(i + 1)
  }

  /** The nodes after SetNodeProviderID. */
  function PatchNodes(nodes: seq<Node>, addresses: seq<NodeAddress>, providerID: string): seq<Node> {
    match FirstMatch(nodes, InternalIPs(addresses))
    case None => nodes
    case Some(i) => nodes[i := nodes[i].(providerID := providerID)]
  }

  lemma {:induction false} FirstMatchIsLeast(nodes: seq<Node>, ips: set<string>)
    ensures FirstMatch(nodes, ips).None? <==> forall n | n in nodes :: !Matches(n, ips)
    ensures FirstMatch(nodes, ips).Some? ==>
              var i := FirstMatch(nodes, ips).value;
              && i < |nodes| && Matches(nodes[i], ips)
              && forall j | 0 <= j < i :: !Matches(nodes[j], ips)
  {
    if |nodes| > 0 {
      FirstMatchIsLeast(nodes[1..], ips);
      assert nodes == [nodes[0]] + nodes[1..];
    }
  }

  lemma {:induction false} FirstMatchAt(nodes: seq<Node>, ips: set<string>, i: nat)
    requires i < |nodes| && Matches(nodes[i], ips)
    requires forall j | 0 <= j < i :: !Matches(nodes[j], ips)
    ensures FirstMatch(nodes, ips) == Some(i)
  {
    if i > 0 {
      FirstMatchAt(nodes[1..], ips, i - 1);
    }
  }

  /** At most one node is patched: the first that has one of the machine's internal addresses.
      Every other node is unchanged, and patching again changes nothing. */
  lemma PatchNodesMeaning(nodes: seq<Node>, addresses: seq<NodeAddress>, providerID: string)
    ensures var ips, r := InternalIPs(addresses), PatchNodes(nodes, addresses, providerID);
            && |r| == |nodes|
            && (forall i | 0 <= i < |nodes| ::
                  r[i] == if Matches(nodes[i], ips) && (forall j | 0 <= j < i :: !Matches(nodes[j], ips))
                          then nodes[i].(providerID := providerID) else nodes[i])
            && PatchNodes(r, addresses, providerID) == r
  {
    var ips, r := InternalIPs(addresses), PatchNodes(nodes, addresses, providerID);
    FirstMatchIsLeast(nodes, ips);
    if FirstMatch(nodes, ips).Some? {
      var i := FirstMatch(nodes, ips).value;
      assert Matches(r[i], ips) by { assert r[i].addresses == nodes[i].addresses; }
      FirstMatchAt(r, ips, i);
      assert r[i := r[i].(providerID := providerID)] == r;
    }
  }
}
