/** What the sender's layering and the relays' peeling do together: each relay
    removes exactly the layer built for it, learns the next port and passes on
    the onion built for the next hop, and the last relay recovers the
    original message and the recipient's port. */
module RoundTrip {

  import opened JsValues
  import opened Text
  import opened Config
  import opened Crypto
  import opened Registry
  import opened OnionRouter
  import opened Users

  /** Relay `i` of the circuit registered the public key of the pair that
      `privateKeys[i]` belongs to, and the symmetric keys are short enough to
      be wrapped. */
  ghost predicate MatchingKeys(c: Crypto, circuit: seq<Node>, privateKeys: seq<string>, keys: seq<string>)
  {
    && |circuit| == CIRCUIT_LENGTH && |privateKeys| == CIRCUIT_LENGTH && |keys| == CIRCUIT_LENGTH
    && (forall i :: 0 <= i < CIRCUIT_LENGTH ==> circuit[i].pubKey == JStr(c.publicKeyOf(privateKeys[i])))
    && (forall i :: 0 <= i < CIRCUIT_LENGTH ==> |keys[i]| <= MAX_RSA_DATA)
  }

  /** Every port the circuit writes into a layer fits the ten-digit field. */
  predicate AddressesFit(ports: Ports, circuit: seq<Node>, destination: int)
    requires |circuit| == CIRCUIT_LENGTH
  {
    forall i :: 0 <= i < CIRCUIT_LENGTH ==> 0 <= NextTarget(ports, circuit, destination, i) < Pow10(ADDRESS_WIDTH)
  }

  /** Valid ports, the only ones the relays can forward to, fit the field. */
  lemma ValidPortsFit(ports: Ports, circuit: seq<Node>, destination: int)
    requires |circuit| == CIRCUIT_LENGTH
    requires forall i :: 0 <= i < CIRCUIT_LENGTH ==> ValidPort(NextTarget(ports, circuit, destination, i))
    ensures AddressesFit(ports, circuit, destination)
  {
    assert Pow10(ADDRESS_WIDTH) == 10000000000;
  }

  /** When every relay's port lies below the users' base port and the
      recipient's at or above it, the first two relays classify their next
      hop as a relay and the last one classifies it as a user. */
  lemma HopClassification(ports: Ports, circuit: seq<Node>, destination: int)
    requires |circuit| == CIRCUIT_LENGTH && destination >= 0
    requires forall j :: 0 <= j < CIRCUIT_LENGTH ==> ports.baseOnionRouterPort + circuit[j].nodeId < ports.baseUserPort
    ensures forall i :: 0 <= i < CIRCUIT_LENGTH ==>
              (IsUserPort(ports, NextTarget(ports, circuit, destination, i)) <==> i == CIRCUIT_LENGTH - 1)
  {
    assert ports.baseOnionRouterPort + circuit[1].nodeId < ports.baseUserPort;
    assert ports.baseOnionRouterPort + circuit[2].nodeId < ports.baseUserPort;
  }

  /** One layer: the relay holding the matching private key reads back the
      port and the inner message the layer was built with, "" included. */
  lemma LayerRoundTrip(c: Crypto, privateKey: string, symKey: string, target: int, inner: string)
    requires Sound(c) && |symKey| <= MAX_RSA_DATA && 0 <= target < Pow10(ADDRESS_WIDTH)
    ensures EncodeLayer(c, symKey, JStr(c.publicKeyOf(privateKey)), target, inner).Some?
    ensures Peel(c, privateKey, EncodeLayer(c, symKey, JStr(c.publicKeyOf(privateKey)), target, inner).value)
            == Some(Peeled(Some(Int(target)), inner))
  {
    var wrapped := c.rsaEncrypt(symKey, c.publicKeyOf(privateKey)).value;
    var address := AddressField(target);
    var body := c.symEncrypt(symKey, address + inner);
    var layer := wrapped + body;
    assert EncodeLayer(c, symKey, JStr(c.publicKeyOf(privateKey)), target, inner) == Some(layer);
    SliceConcat(wrapped, body, WRAPPED_KEY_LENGTH);
    assert c.rsaDecrypt(wrapped, privateKey) == Some(symKey);
    assert c.symDecrypt(symKey, body) == Some(address + inner);
    assert DecryptLayer(c, privateKey, layer) == Some(address + inner);
    AddressFieldPrefix(target, inner);
    AddressFieldRoundTrip(target);
    assert NextDestination(address + inner) == Some(Int(target));
    assert NextMessage(address + inner) == inner;
  }

  /** A layer for a relay whose genuine public key is registered can always
      be built. */
  lemma LayerBuilds(c: Crypto, privateKey: string, symKey: string, target: int, inner: string)
    requires Sound(c) && |symKey| <= MAX_RSA_DATA
    ensures EncodeLayer(c, symKey, JStr(c.publicKeyOf(privateKey)), target, inner).Some?
  {
    assert c.rsaEncrypt(symKey, c.publicKeyOf(privateKey)).Some?;
  }

  /** With matching keys every onion from hop `i` inwards can be built. */
  lemma {:induction false} WrappedBuilds(c: Crypto, ports: Ports, circuit: seq<Node>, privateKeys: seq<string>,
                                         keys: seq<string>, destination: int, message: string, i: nat)
    requires Sound(c) && MatchingKeys(c, circuit, privateKeys, keys) && i <= CIRCUIT_LENGTH
    ensures Wrapped(c, ports, circuit, keys, destination, message, i).Some?
    decreases CIRCUIT_LENGTH - i
  {
    if i < CIRCUIT_LENGTH {
      WrappedBuilds(c, ports, circuit, privateKeys, keys, destination, message, i + 1);
      var inner := Wrapped(c, ports, circuit, keys, destination, message, i + 1).value;
      var target := NextTarget(ports, circuit, destination, i);
      LayerBuilds(c, privateKeys[i], keys[i], target, inner);
      assert circuit[i].pubKey == JStr(c.publicKeyOf(privateKeys[i]));
    }
  }

  /** Relay `i` peels the onion built from hop `i` into the port for hop `i`
      and the onion built from hop `i + 1`. */
  lemma PeelHop(c: Crypto, ports: Ports, circuit: seq<Node>, privateKeys: seq<string>,
                keys: seq<string>, destination: int, message: string, i: nat)
    requires Sound(c) && MatchingKeys(c, circuit, privateKeys, keys)
    requires AddressesFit(ports, circuit, destination) && i < CIRCUIT_LENGTH
    ensures Wrapped(c, ports, circuit, keys, destination, message, i).Some?
    ensures Wrapped(c, ports, circuit, keys, destination, message, i + 1).Some?
    ensures Peel(c, privateKeys[i], Wrapped(c, ports, circuit, keys, destination, message, i).value)
            == Some(Peeled(Some(Int(NextTarget(ports, circuit, destination, i))),
                           Wrapped(c, ports, circuit, keys, destination, message, i + 1).value))
  {
    WrappedBuilds(c, ports, circuit, privateKeys, keys, destination, message, i + 1);
    var inner := Wrapped(c, ports, circuit, keys, destination, message, i + 1).value;
    LayerRoundTrip(c, privateKeys[i], keys[i], NextTarget(ports, circuit, destination, i), inner);
  }

  /** The onion built from hop 0 exists, and peeling it with the three
      private keys in turn names the second relay's port, then the third
      relay's, then the recipient's port together with `message`. */
  predicate PeelsInOrder(c: Crypto, ports: Ports, circuit: seq<Node>, privateKeys: seq<string>,
                         keys: seq<string>, destination: int, message: string)
    requires |circuit| == CIRCUIT_LENGTH && |privateKeys| == CIRCUIT_LENGTH && |keys| == CIRCUIT_LENGTH
  {
    var onion := Wrapped(c, ports, circuit, keys, destination, message, 0);
    && onion.Some?
    && var p0 := Peel(c, privateKeys[0], onion.value);
    && p0.Some? && p0.value.destination == Some(Int(ports.baseOnionRouterPort + circuit[1].nodeId))
    && var p1 := Peel(c, privateKeys[1], p0.value.nextMessage);
    && p1.Some? && p1.value.destination == Some(Int(ports.baseOnionRouterPort + circuit[2].nodeId))
    && var p2 := Peel(c, privateKeys[2], p1.value.nextMessage);
    && p2 == Some(Peeled(Some(Int(ports.baseUserPort + destination)), message))
  }

  /** A null message is wrapped as the text "null", and that text is what
      the three peels deliver to the recipient. */
  lemma NullMessageArrivesAsText(c: Crypto, ports: Ports, circuit: seq<Node>, privateKeys: seq<string>,
                                 keys: seq<string>, destination: int)
    requires Sound(c) && MatchingKeys(c, circuit, privateKeys, keys)
    requires AddressesFit(ports, circuit, destination)
    ensures MessageText(Null) == "null"
    ensures PeelsInOrder(c, ports, circuit, privateKeys, keys, destination, MessageText(Null))
  {
    ThreePeelsDeliver(c, ports, circuit, privateKeys, keys, destination, MessageText(Null));
  }

  /** A null recipient id addresses the users' base port itself: the last
      relay's peel names `baseUserPort` and gives back the message. */
  lemma NullDestinationReachesBaseUserPort(c: Crypto, ports: Ports, circuit: seq<Node>, privateKeys: seq<string>,
                                           keys: seq<string>, message: string)
    requires Sound(c) && MatchingKeys(c, circuit, privateKeys, keys)
    requires forall j :: 0 <= j < CIRCUIT_LENGTH ==> ValidPort(ports.baseOnionRouterPort + circuit[j].nodeId)
    requires ValidPort(ports.baseUserPort)
    ensures DestinationNumber(Null) == 0
    ensures PeelsInOrder(c, ports, circuit, privateKeys, keys, DestinationNumber(Null), message)
    ensures var onion := Wrapped(c, ports, circuit, keys, DestinationNumber(Null), message, 0).value;
            var p0 := Peel(c, privateKeys[0], onion).value;
            var p1 := Peel(c, privateKeys[1], p0.nextMessage).value;
            Peel(c, privateKeys[2], p1.nextMessage) == Some(Peeled(Some(Int(ports.baseUserPort)), message))
  {
    var destination := DestinationNumber(Null);
    assert ValidPort(NextTarget(ports, circuit, destination, 0));
    assert ValidPort(NextTarget(ports, circuit, destination, 1));
    assert ValidPort(NextTarget(ports, circuit, destination, 2));
    ValidPortsFit(ports, circuit, destination);
    ThreePeelsDeliver(c, ports, circuit, privateKeys, keys, destination, message);
  }

  /** The onion round trip: three successive peels of the onion a user builds
      name the second relay's port, then the third relay's, then the
      recipient's, and the last one gives back the original message. */
  lemma ThreePeelsDeliver(c: Crypto, ports: Ports, circuit: seq<Node>, privateKeys: seq<string>,
                          keys: seq<string>, destination: int, message: string)
    requires Sound(c) && MatchingKeys(c, circuit, privateKeys, keys)
    requires AddressesFit(ports, circuit, destination)
    ensures PeelsInOrder(c, ports, circuit, privateKeys, keys, destination, message)
  {
    PeelHop(c, ports, circuit, privateKeys, keys, destination, message, 0);
    PeelHop(c, ports, circuit, privateKeys, keys, destination, message, 1);
    PeelHop(c, ports, circuit, privateKeys, keys, destination, message, 2);
    assert NextTarget(ports, circuit, destination, 0) == ports.baseOnionRouterPort + circuit[1].nodeId;
    assert NextTarget(ports, circuit, destination, 1) == ports.baseOnionRouterPort + circuit[2].nodeId;
    assert NextTarget(ports, circuit, destination, 2) == ports.baseUserPort + destination;
    assert Wrapped(c, ports, circuit, keys, destination, message, 3) == Some(message);
  }

  /** A relay handling a layer that peels to a valid port forwards the inner
      message to that port and records the layer, the inner message and the
      port. */
  method RelayHop(ports: Ports, c: Crypto, r: Router, layer: string, ghost port: int, ghost inner: string)
    returns (out: Option<Post>)
    requires Peel(c, r.privateKey, layer) == Some(Peeled(Some(Int(port)), inner)) && ValidPort(port)
    modifies r
    ensures out == Some(Post(port, inner))
    ensures r.lastReceivedEncryptedMessage == Some(layer)
    ensures r.lastReceivedDecryptedMessage == Some(inner)
    ensures r.lastMessageDestination == Some(Int(port))
  {
    var reply, toUser;
    reply, out, toUser := r.HandleMessage(ports, c, Given(layer), true);
  }

  /** A sender whose onion can be built and whose first relay answers with
      success posts the onion to that relay and records the circuit. */
  method SendHop(c: Crypto, ports: Ports, sender: User, message: string, recipientId: int,
                 nodesList: seq<Node>, order: seq<nat>, keys: seq<string>, ghost onion: string)
    returns (out: Option<Post>)
    requires IsPermutation(order, |nodesList|) && |nodesList| >= CIRCUIT_LENGTH && |keys| == CIRCUIT_LENGTH
    requires var circuit := SelectCircuit(nodesList, order);
             && Wrapped(c, ports, circuit, keys, recipientId, message, 0) == Some(onion)
             && ValidPort(ports.baseOnionRouterPort + circuit[0].nodeId)
    modifies sender
    ensures out == Some(Post(ports.baseOnionRouterPort + SelectCircuit(nodesList, order)[0].nodeId, onion))
    ensures sender.lastSentMessage == Some(message)
    ensures sender.lastCircuit == Some(RoutingPath(SelectCircuit(nodesList, order)))
  {
    assert MessageText(Given(message)) == message;
    assert DestinationNumber(Given(recipientId)) == recipientId;
    var sent;
    sent, out := sender.SendMessage(c, ports, Given(message), Given(recipientId), nodesList, order, keys, true);
  }

  /** The three relays and the recipient, on fresh processes, handle one
      after another the onion and the messages each relay forwards, every
      forwarding call answered with success. When each relay's peel names a
      valid port, the relays record those ports and the recipient holds the
      innermost message. */
  method RelayChain(c: Crypto, ports: Ports, circuit: seq<Node>, privateKeys: seq<string>, recipientId: int,
                    onion: string, ghost port1: int, ghost port2: int, ghost port3: int,
                    ghost inner1: string, ghost inner2: string, ghost message: string)
    returns (delivered: Option<string>, destinations: seq<Option<Number>>)
    requires |circuit| == CIRCUIT_LENGTH && |privateKeys| == CIRCUIT_LENGTH
    requires ValidPort(port1) && ValidPort(port2) && ValidPort(port3)
    requires Peel(c, privateKeys[0], onion) == Some(Peeled(Some(Int(port1)), inner1))
    requires Peel(c, privateKeys[1], inner1) == Some(Peeled(Some(Int(port2)), inner2))
    requires Peel(c, privateKeys[2], inner2) == Some(Peeled(Some(Int(port3)), message))
    ensures delivered == Some(message)
    ensures destinations == [Some(Int(port1)), Some(Int(port2)), Some(Int(port3))]
  {
    var recipient := new User(recipientId);
    var r0 := new Router(circuit[0].nodeId, privateKeys[0]);
    var r1 := new Router(circuit[1].nodeId, privateKeys[1]);
    var r2 := new Router(circuit[2].nodeId, privateKeys[2]);
    var out1 := RelayHop(ports, c, r0, onion, port1, inner1);
    var out2 := RelayHop(ports, c, r1, out1.value.message, port2, inner2);
    var out3 := RelayHop(ports, c, r2, out2.value.message, port3, message);
    var received := recipient.ReceiveMessage(Given(out3.value.message));
    delivered := recipient.lastReceivedMessage;
    destinations := [r0.lastMessageDestination, r1.lastMessageDestination, r2.lastMessageDestination];
  }

  /** The handlers run one after another on fresh processes: the sender's
      `/sendMessage`, the three relays' `/message` and the recipient's
      `/message`, each forwarding call answered with success. When the
      onion peels in order and every port is valid, the relays record the
      second relay's port, the third relay's and the recipient's, and the
      recipient holds `message`. */
  method RunCircuit(c: Crypto, ports: Ports, senderId: int, recipientId: int, message: string,
                    nodesList: seq<Node>, order: seq<nat>, keys: seq<string>, privateKeys: seq<string>)
    returns (delivered: Option<string>, destinations: seq<Option<Number>>)
    requires IsPermutation(order, |nodesList|) && |nodesList| >= CIRCUIT_LENGTH
    requires |keys| == CIRCUIT_LENGTH && |privateKeys| == CIRCUIT_LENGTH
    requires var circuit := SelectCircuit(nodesList, order);
             && ValidPort(ports.baseOnionRouterPort + circuit[0].nodeId)
             && ValidPort(ports.baseOnionRouterPort + circuit[1].nodeId)
             && ValidPort(ports.baseOnionRouterPort + circuit[2].nodeId)
             && ValidPort(ports.baseUserPort + recipientId)
    requires PeelsInOrder(c, ports, SelectCircuit(nodesList, order), privateKeys, keys, recipientId, message)
    ensures delivered == Some(message)
    ensures var circuit := SelectCircuit(nodesList, order);
            destinations == [Some(Int(ports.baseOnionRouterPort + circuit[1].nodeId)),
                             Some(Int(ports.baseOnionRouterPort + circuit[2].nodeId)),
                             Some(Int(ports.baseUserPort + recipientId))]
  {
    var circuit := SelectCircuit(nodesList, order);
    ghost var onion := Wrapped(c, ports, circuit, keys, recipientId, message, 0).value;
    ghost var p0 := Peel(c, privateKeys[0], onion).value;
    ghost var p1 := Peel(c, privateKeys[1], p0.nextMessage).value;
    assert Peel(c, privateKeys[0], onion) == Some(Peeled(Some(Int(ports.baseOnionRouterPort + circuit[1].nodeId)), p0.nextMessage));
    assert Peel(c, privateKeys[1], p0.nextMessage) == Some(Peeled(Some(Int(ports.baseOnionRouterPort + circuit[2].nodeId)), p1.nextMessage));
    assert Peel(c, privateKeys[2], p1.nextMessage) == Some(Peeled(Some(Int(ports.baseUserPort + recipientId)), message));
    var sender := new User(senderId);
    var out0 := SendHop(c, ports, sender, message, recipientId, nodesList, order, keys, onion);
    assert out0.value.message == onion;
    delivered, destinations := RelayChain(c, ports, circuit, privateKeys, recipientId, out0.value.message,
                                          ports.baseOnionRouterPort + circuit[1].nodeId,
                                          ports.baseOnionRouterPort + circuit[2].nodeId,
                                          ports.baseUserPort + recipientId,
                                          p0.nextMessage, p1.nextMessage, message);
  }

  /** The whole path under sound primitives: a user sends `message` to
      `recipientId` over the circuit the shuffle picks, the three relays hold
      the private keys of the public keys they registered, and every port is
      valid. The relays record the second relay's port, the third relay's and
      the recipient's, and the recipient receives `message` unchanged. */
  method DeliverThroughCircuit(c: Crypto, ports: Ports, senderId: int, recipientId: int, message: string,
                               nodesList: seq<Node>, order: seq<nat>, keys: seq<string>, privateKeys: seq<string>)
    returns (delivered: Option<string>, destinations: seq<Option<Number>>)
    requires Sound(c) && IsPermutation(order, |nodesList|) && |nodesList| >= CIRCUIT_LENGTH
    requires MatchingKeys(c, SelectCircuit(nodesList, order), privateKeys, keys)
    requires var circuit := SelectCircuit(nodesList, order);
             && ValidPort(ports.baseOnionRouterPort + circuit[0].nodeId)
             && ValidPort(ports.baseOnionRouterPort + circuit[1].nodeId)
             && ValidPort(ports.baseOnionRouterPort + circuit[2].nodeId)
             && ValidPort(ports.baseUserPort + recipientId)
    ensures delivered == Some(message)
    ensures var circuit := SelectCircuit(nodesList, order);
            destinations == [Some(Int(ports.baseOnionRouterPort + circuit[1].nodeId)),
                             Some(Int(ports.baseOnionRouterPort + circuit[2].nodeId)),
                             Some(Int(ports.baseUserPort + recipientId))]
  {
    ghost var circuit := SelectCircuit(nodesList, order);
    ValidPortsFit(ports, circuit, recipientId);
    ThreePeelsDeliver(c, ports, circuit, privateKeys, keys, recipientId, message);
    delivered, destinations := RunCircuit(c, ports, senderId, recipientId, message, nodesList, order, keys, privateKeys);
  }
}
