/** A user: it receives final messages on `/message`, and on `/sendMessage`
    picks a circuit of three relays, wraps the message in one layer per relay
    and posts the result to the first relay. */
module Users {

  import opened JsValues
  import opened Text
  import opened Config
  import opened Crypto
  import opened Registry

  /** The number of relays in a circuit, and of layers in an onion. */
  const CIRCUIT_LENGTH: nat := 3

  /** `order` lists the indices `0 .. n-1`, each once: the order the random
      shuffle happened to leave the registry's list in. */
  predicate IsPermutation(order: seq<nat>, n: nat)
  {
    && |order| == n
    && (forall i :: 0 <= i < n ==> order[i] < n)
    && (forall i, j :: 0 <= i < j < n ==> order[i] != order[j])
  }

  /** The circuit: the first three entries of the shuffled registry list. */
  function SelectCircuit(nodesList: seq<Node>, order: seq<nat>): (circuit: seq<Node>)
    requires IsPermutation(order, |nodesList|) && |nodesList| >= CIRCUIT_LENGTH
    ensures |circuit| == CIRCUIT_LENGTH
  {
    [nodesList[order[0]], nodesList[order[1]], nodesList[order[2]]]
  }

  /** The circuit's relays are registered ones, and their ids are distinct
      whenever the registry's are. */
  lemma CircuitFromRegistry(nodesList: seq<Node>, order: seq<nat>)
    requires IsPermutation(order, |nodesList|) && |nodesList| >= CIRCUIT_LENGTH
    ensures forall j :: 0 <= j < CIRCUIT_LENGTH ==> SelectCircuit(nodesList, order)[j] in nodesList
    ensures DistinctIds(nodesList) ==> DistinctIds(SelectCircuit(nodesList, order))
  {
  }

  /** `routingPath`: the node ids of the circuit, in order. */
  function RoutingPath(circuit: seq<Node>): (path: seq<int>)
    ensures |path| == |circuit|
    ensures forall j :: 0 <= j < |circuit| ==> path[j] == circuit[j].nodeId
  {
    seq(|circuit|, j requires 0 <= j < |circuit| => circuit[j].nodeId)
  }

  /** The port written into the layer for hop `i`: the destination user's for
      the innermost layer, the next relay's for the others. */
  function NextTarget(ports: Ports, circuit: seq<Node>, destination: int, i: nat): (port: int)
    requires |circuit| == CIRCUIT_LENGTH && i < CIRCUIT_LENGTH
  {
    if i == CIRCUIT_LENGTH - 1 then ports.baseUserPort + destination
    else ports.baseOnionRouterPort + circuit[i + 1].nodeId
  }

  /** One layer: the symmetric key wrapped under the relay's public key,
      followed by the symmetric encryption of the address field and the inner
      message. `None` when the registered public key is not a string that
      imports. With sound primitives a layer is longer than its wrapped key,
      so the relay always finds a body. */
  function EncodeLayer(c: Crypto, symKey: string, pubKey: Json, target: int, inner: string): (r: Option<string>)
    ensures r.Some? ==> pubKey.JStr? && c.rsaEncrypt(symKey, pubKey.s).Some?
    ensures Sound(c) && r.Some? ==> |r.value| > WRAPPED_KEY_LENGTH
  {
    var body := c.symEncrypt(symKey, AddressField(target) + inner);
    match pubKey
    case JStr(pub) =>
      (match c.rsaEncrypt(symKey, pub)
       case None => None
       case Some(encryptedSymKey) => Some(encryptedSymKey + body))
    case _ => None
  }

  /** The onion from hop `i` inwards: `message` wrapped in the layers for
      hops `CIRCUIT_LENGTH - 1` down to `i`, innermost first. */
  function Wrapped(c: Crypto, ports: Ports, circuit: seq<Node>, keys: seq<string>,
                   destination: int, message: string, i: nat): (onion: Option<string>)
    requires |circuit| == CIRCUIT_LENGTH && |keys| == CIRCUIT_LENGTH && i <= CIRCUIT_LENGTH
    decreases CIRCUIT_LENGTH - i
  {
    if i == CIRCUIT_LENGTH then Some(message)
    else match Wrapped(c, ports, circuit, keys, destination, message, i + 1)
      case None => None
      case Some(inner) =>
        EncodeLayer(c, keys[i], circuit[i].pubKey, NextTarget(ports, circuit, destination, i), inner)
  }

  /** Hop `i` addresses the relay that follows it on the routing path, and
      the last hop addresses the recipient. */
  lemma NextTargetFollowsPath(ports: Ports, circuit: seq<Node>, destination: int, i: nat)
    requires |circuit| == CIRCUIT_LENGTH && i < CIRCUIT_LENGTH
    ensures i < CIRCUIT_LENGTH - 1 ==>
              NextTarget(ports, circuit, destination, i) == ports.baseOnionRouterPort + RoutingPath(circuit)[i + 1]
    ensures i == CIRCUIT_LENGTH - 1 ==> NextTarget(ports, circuit, destination, i) == ports.baseUserPort + destination
  {
  }

  /** An onion from hop `i` inwards exists only when every relay from hop
      `i` on registered a key that is a string and wraps that hop's
      symmetric key. */
  lemma {:induction false} WrappedNeedsWrappableKeys(c: Crypto, ports: Ports, circuit: seq<Node>, keys: seq<string>,
                                                     destination: int, message: string, i: nat)
    requires |circuit| == CIRCUIT_LENGTH && |keys| == CIRCUIT_LENGTH && i <= CIRCUIT_LENGTH
    ensures Wrapped(c, ports, circuit, keys, destination, message, i).Some? ==>
              forall j :: i <= j < CIRCUIT_LENGTH ==>
                circuit[j].pubKey.JStr? && c.rsaEncrypt(keys[j], circuit[j].pubKey.s).Some?
    decreases CIRCUIT_LENGTH - i
  {
    if i < CIRCUIT_LENGTH && Wrapped(c, ports, circuit, keys, destination, message, i).Some? {
      WrappedNeedsWrappableKeys(c, ports, circuit, keys, destination, message, i + 1);
    }
  }

  /** Conversely, when every relay from hop `i` on registered a string key
      that wraps that hop's symmetric key, the onion from hop `i` inwards
      exists, whatever the primitives are. */
  lemma {:induction false} WrappedExistsWithWrappableKeys(c: Crypto, ports: Ports, circuit: seq<Node>, keys: seq<string>,
                                                          destination: int, message: string, i: nat)
    requires |circuit| == CIRCUIT_LENGTH && |keys| == CIRCUIT_LENGTH && i <= CIRCUIT_LENGTH
    requires forall j :: i <= j < CIRCUIT_LENGTH ==>
               circuit[j].pubKey.JStr? && c.rsaEncrypt(keys[j], circuit[j].pubKey.s).Some?
    ensures Wrapped(c, ports, circuit, keys, destination, message, i).Some?
    decreases CIRCUIT_LENGTH - i
  {
    if i < CIRCUIT_LENGTH {
      WrappedExistsWithWrappableKeys(c, ports, circuit, keys, destination, message, i + 1);
    }
  }

  /** Once one layer fails to build, every layer outside it fails too. */
  lemma {:induction false} WrappedFailsOutwards(c: Crypto, ports: Ports, circuit: seq<Node>, keys: seq<string>,
                                                destination: int, message: string, j: nat, i: nat)
    requires |circuit| == CIRCUIT_LENGTH && |keys| == CIRCUIT_LENGTH && j <= i <= CIRCUIT_LENGTH
    requires Wrapped(c, ports, circuit, keys, destination, message, i).None?
    ensures Wrapped(c, ports, circuit, keys, destination, message, j).None?
    decreases i - j
  {
    if j < i {
      WrappedFailsOutwards(c, ports, circuit, keys, destination, message, j + 1, i);
    }
  }

  /** The three-layer build loop: for `i` from 2 down to 0 the message so far
      is prefixed with its address field, symmetrically encrypted under
      `keys[i]`, and prefixed with that key wrapped under relay `i`'s public
      key. The result is the onion of `Wrapped` from hop 0; `None` when a
      wrapping throws. */
  method BuildOnion(c: Crypto, ports: Ports, circuit: seq<Node>, keys: seq<string>,
                    destination: int, message: string) returns (onion: Option<string>)
    requires |circuit| == CIRCUIT_LENGTH && |keys| == CIRCUIT_LENGTH
    ensures onion == Wrapped(c, ports, circuit, keys, destination, message, 0)
  {
    var encodedMessage := message;
    var i: int := CIRCUIT_LENGTH - 1;
    while i >= 0
      invariant -1 <= i < CIRCUIT_LENGTH
      invariant Wrapped(c, ports, circuit, keys, destination, message, i + 1) == Some(encodedMessage)
    {
      var nextTarget := NumberToString(NextTarget(ports, circuit, destination, i));
      var formattedTarget := PadStart(nextTarget, ADDRESS_WIDTH);
      encodedMessage := c.symEncrypt(keys[i], formattedTarget + encodedMessage);
      var encryptedSymKey := if circuit[i].pubKey.JStr? then c.rsaEncrypt(keys[i], circuit[i].pubKey.s) else None;
      if encryptedSymKey.None? {
        WrappedFailsOutwards(c, ports, circuit, keys, destination, message, 0, i);
        return None;
      }
      encodedMessage := encryptedSymKey.value + encodedMessage;
      i := i - 1;
    }
    onion := Some(encodedMessage);
  }

  /** The text that ends up innermost: a null message is concatenated as
      "null" by the address-field prefixing. */
  function MessageText(message: Field<string>): (text: string)
    requires !message.Undefined?
    ensures message.Given? ==> text == message.value
    ensures message.Null? ==> text == "null"
  {
    if message.Null? then "null" else message.value
  }

  /** `BASE_USER_PORT + destinationUserId` adds 0 for a null id. */
  function DestinationNumber(destinationUserId: Field<int>): (id: int)
    requires !destinationUserId.Undefined?
    ensures destinationUserId.Given? ==> id == destinationUserId.value
    ensures destinationUserId.Null? ==> id == 0
  {
    if destinationUserId.Null? then 0 else destinationUserId.value
  }

  /** The POST to the first relay of the circuit carrying the whole onion;
      `None` when the onion cannot be built or the relay's port makes no
      valid URL, so that nothing is sent. */
  function FirstHopPost(c: Crypto, ports: Ports, circuit: seq<Node>, keys: seq<string>,
                        destination: int, message: string): (r: Option<Post>)
    requires |circuit| == CIRCUIT_LENGTH && |keys| == CIRCUIT_LENGTH
    ensures r.Some? ==> r.value.port == ports.baseOnionRouterPort + circuit[0].nodeId && ValidPort(r.value.port)
    ensures r.Some? <==> Wrapped(c, ports, circuit, keys, destination, message, 0).Some? &&
                         ValidPort(ports.baseOnionRouterPort + circuit[0].nodeId)
    ensures r.Some? ==> Some(r.value.message) == Wrapped(c, ports, circuit, keys, destination, message, 0)
  {
    var onion := Wrapped(c, ports, circuit, keys, destination, message, 0);
    var firstHop := ports.baseOnionRouterPort + circuit[0].nodeId;
    if onion.Some? && ValidPort(firstHop) then Some(Post(firstHop, onion.value)) else None
  }

  datatype ReceiveReply =
    | Received                 // "success"
    | MessageRequired          // 400 "Message is required"

  datatype SendReply =
    | FieldsRequired           // 400 "MessageContent and recipientUserId are required"
    | InsufficientNodes        // 500 "Insufficient nodes in the network"
    | TransmissionError        // 500 "Internal error occurred during message transmission"
    | Transmitted              // "Message successfully transmitted"

  /** One user process and its state, all null until first written. */
  class User {
    const userId: int
    var lastReceivedMessage: Option<string>
    var lastSentMessage: Option<string>
    var lastCircuit: Option<seq<int>>

    constructor (userId: int)
      ensures this.userId == userId
      ensures lastReceivedMessage == None && lastSentMessage == None && lastCircuit == None
    {
      this.userId := userId;
      lastReceivedMessage, lastSentMessage, lastCircuit := None, None, None;
    }

    /** `/message`: an undefined or null message is refused and changes
        nothing; any string, "" included, becomes the last received message. */
    method ReceiveMessage(message: Field<string>) returns (reply: ReceiveReply)
      modifies this
      ensures reply == MessageRequired <==> !message.Given?
      ensures !message.Given? ==> unchanged(this)
      ensures message.Given? ==>
                lastReceivedMessage == Some(message.value) &&
                lastSentMessage == old(lastSentMessage) && lastCircuit == old(lastCircuit)
    {
      if !message.Given? {
        return MessageRequired;
      }
      lastReceivedMessage := Some(message.value);
      reply := Received;
    }

    /** `/sendMessage`. `nodesList` is what the registry answered, `order` the
        shuffle's result, `keys` the fresh exported symmetric keys, and
        `firstHopOk` whether the first relay answers the POST returned in
        `out` with a success status. The state changes only after that
        success. */
    method SendMessage(c: Crypto, ports: Ports, message: Field<string>, destinationUserId: Field<int>,
                       nodesList: seq<Node>, order: seq<nat>, keys: seq<string>, firstHopOk: bool)
      returns (reply: SendReply, out: Option<Post>)
      requires IsPermutation(order, |nodesList|) && |keys| == CIRCUIT_LENGTH
      modifies this
      ensures reply != Transmitted ==> unchanged(this)
      ensures message.Undefined? || destinationUserId.Undefined? ==> reply == FieldsRequired && out == None
      ensures !message.Undefined? && !destinationUserId.Undefined? && |nodesList| < CIRCUIT_LENGTH ==>
                reply == InsufficientNodes && out == None
      ensures !message.Undefined? && !destinationUserId.Undefined? && |nodesList| >= CIRCUIT_LENGTH ==>
                var circuit := SelectCircuit(nodesList, order);
                && out == FirstHopPost(c, ports, circuit, keys, DestinationNumber(destinationUserId), MessageText(message))
                && (reply == Transmitted <==> out.Some? && firstHopOk)
                && (reply != Transmitted ==> reply == TransmissionError)
                && (reply == Transmitted ==>
                      lastSentMessage == (if message.Null? then None else Some(message.value)) &&
                      lastCircuit == Some(RoutingPath(circuit)) &&
                      lastReceivedMessage == old(lastReceivedMessage))
    {
      out := None;
      if message.Undefined? || destinationUserId.Undefined? {
        return FieldsRequired, out;
      }
      if |nodesList| < CIRCUIT_LENGTH {
        return InsufficientNodes, out;
      }
      var circuit := SelectCircuit(nodesList, order);
      var routingPath := RoutingPath(circuit);
      var onion := BuildOnion(c, ports, circuit, keys, DestinationNumber(destinationUserId), MessageText(message));
      if onion.None? {
        return TransmissionError, out;
      }
      var firstHop := ports.baseOnionRouterPort + routingPath[0];
      if !ValidPort(firstHop) {
        return TransmissionError, out;
      }
      out := Some(Post(firstHop, onion.value));
      assert out == FirstHopPost(c, ports, circuit, keys, DestinationNumber(destinationUserId), MessageText(message));
      if !firstHopOk {
        return TransmissionError, out;
      }
      lastSentMessage := if message.Null? then None else Some(message.value);
      lastCircuit := Some(routingPath);
      reply := Transmitted;
    }
  }
}
