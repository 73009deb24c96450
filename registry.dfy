/** The node registry: an append-only list of relays and their exported public
    keys, filled by `/registerNode` and read by `/getNodeRegistry` and
    `/nodes`. */
module Registry {

  import opened JsValues

  /** One registered relay. The public key is kept as the JSON value that was
      posted: the registration check only asks that it be truthy. */
  datatype Node = Node(nodeId: int, pubKey: Json)

  /** No two entries share a node id. */
  predicate DistinctIds(nodes: seq<Node>)
  {
    forall i, j :: 0 <= i < j < |nodes| ==> nodes[i].nodeId != nodes[j].nodeId
  }

  /** Some entry has this node id. */
  predicate HasId(nodes: seq<Node>, nodeId: int)
  {
    exists i :: 0 <= i < |nodes| && nodes[i].nodeId == nodeId
  }

  datatype RegisterReply =
    | Registered              // 200 "Node registered successfully"
    | MissingFields           // 400 "Missing nodeId or public key"
    | AlreadyRegistered       // 400 "Node is already registered"

  /** What `/registerNode` answers and what the list becomes: the body is
      checked first (a number id and a truthy key), then the id against the
      list; only then is one entry appended. */
  function Register(nodes: seq<Node>, nodeId: Json, pubKey: Json): (r: (RegisterReply, seq<Node>))
    ensures r.0 == MissingFields <==> !IsNumber(nodeId) || !Truthy(pubKey)
    ensures r.0 == AlreadyRegistered <==> IsNumber(nodeId) && Truthy(pubKey) && HasId(nodes, nodeId.n)
    ensures r.0 == Registered ==> r.1 == nodes + [Node(nodeId.n, pubKey)]
    ensures r.0 != Registered ==> r.1 == nodes
    ensures DistinctIds(nodes) ==> DistinctIds(r.1)
  {
    if !IsNumber(nodeId) || !Truthy(pubKey) then (MissingFields, nodes)
    else if HasId(nodes, nodeId.n) then (AlreadyRegistered, nodes)
    else (Registered, nodes + [Node(nodeId.n, pubKey)])
  }

  /** Every registration, accepted or not, keeps the ids distinct; so does
      any sequence of them from the empty list. */
  lemma {:induction false} RegistrationsKeepIdsDistinct(requests: seq<(Json, Json)>, nodes: seq<Node>)
    requires DistinctIds(nodes)
    ensures DistinctIds(RegisterAll(nodes, requests))
    ensures nodes <= RegisterAll(nodes, requests)
  {
    if requests != [] {
      var next := Register(nodes, requests[0].0, requests[0].1).1;
      RegistrationsKeepIdsDistinct(requests[1..], next);
    }
  }

  /** The list after handling `requests` one at a time, in order. */
  function RegisterAll(nodes: seq<Node>, requests: seq<(Json, Json)>): (r: seq<Node>)
    decreases requests
  {
    if requests == [] then nodes
    else RegisterAll(Register(nodes, requests[0].0, requests[0].1).1, requests[1..])
  }

  /** The registry process's list of registered relays. */
  class Registry {
    var registeredNodes: seq<Node>

    ghost predicate Valid()
      reads this
    {
      DistinctIds(registeredNodes)
    }

    constructor ()
      ensures Valid() && registeredNodes == []
    {
      registeredNodes := [];
    }

    /** `registeredNodes.some(node => node.nodeId === nodeId)`: a scan from
        the front that stops at the first match. */
    method IsRegistered(nodeId: int) returns (found: bool)
      ensures found <==> HasId(registeredNodes, nodeId)
    {
      var i := 0;
      found := false;
      while i < |registeredNodes| && !found
        invariant 0 <= i <= |registeredNodes|
        invariant found <==> (i > 0 && registeredNodes[i - 1].nodeId == nodeId)
        invariant !found ==> forall k :: 0 <= k < i ==> registeredNodes[k].nodeId != nodeId
      {
        found := registeredNodes[i].nodeId == nodeId;
        i := i + 1;
      }
    }

    /** `/registerNode`. */
    method RegisterNode(nodeId: Json, pubKey: Json) returns (reply: RegisterReply)
      requires Valid()
      modifies this
      ensures Valid()
      ensures (reply, registeredNodes) == Register(old(registeredNodes), nodeId, pubKey)
    {
      if !IsNumber(nodeId) || !Truthy(pubKey) {
        return MissingFields;
      }
      var found := IsRegistered(nodeId.n);
      if found {
        return AlreadyRegistered;
      }
      registeredNodes := registeredNodes + [Node(nodeId.n, pubKey)];
      reply := Registered;
    }

    /** `/getNodeRegistry` and `/nodes`: both answer with the current list and
        change nothing. */
    method GetNodeRegistry() returns (nodes: seq<Node>)
      ensures nodes == registeredNodes
    {
      nodes := registeredNodes;
    }
  }
}
