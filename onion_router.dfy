/** A relay: it receives one layer on `/message`, removes it with its private
    key, records what it saw and either answers with the final message or
    forwards the inner message to the port named in the layer. */
module OnionRouter {

  import opened JsValues
  import opened Text
  import opened Config
  import opened Crypto

  /** The outcome of removing one layer: the next destination (`None` for
      null) and the message for it. */
  datatype Peeled = Peeled(destination: Option<Number>, nextMessage: string)

  /** Decrypts one layer: the first `WRAPPED_KEY_LENGTH` characters hold the
      wrapped symmetric key, the rest is the body. An empty body decrypts to
      "" without any symmetric decryption. `None` when a decryption throws. */
  function DecryptLayer(c: Crypto, privateKey: string, message: string): (r: Option<string>)
    ensures c.rsaDecrypt(SliceTo(message, WRAPPED_KEY_LENGTH), privateKey).None? ==> r.None?
    ensures |message| <= WRAPPED_KEY_LENGTH ==>
              (r.Some? <==> c.rsaDecrypt(message, privateKey).Some?) && (r.Some? ==> r.value == "")
    ensures |message| > WRAPPED_KEY_LENGTH && c.rsaDecrypt(message[..WRAPPED_KEY_LENGTH], privateKey).Some? ==>
              r == c.symDecrypt(c.rsaDecrypt(message[..WRAPPED_KEY_LENGTH], privateKey).value, message[WRAPPED_KEY_LENGTH..])
  {
    var encryptedSymKey := SliceTo(message, WRAPPED_KEY_LENGTH);
    var restOfMessage := SliceFrom(message, WRAPPED_KEY_LENGTH);
    match c.rsaDecrypt(encryptedSymKey, privateKey)
    case None => None
    case Some(symKey) =>
      if |restOfMessage| > 0 then c.symDecrypt(symKey, restOfMessage) else Some("")
  }

  /** The next destination: `parseInt` of the first `ADDRESS_WIDTH`
      characters when there are that many, null otherwise. */
  function NextDestination(decrypted: string): (r: Option<Number>)
    ensures r.Some? <==> |decrypted| >= ADDRESS_WIDTH
    ensures r.Some? ==> r.value == ParseInt(decrypted[..ADDRESS_WIDTH])
  {
    if |decrypted| >= ADDRESS_WIDTH then Some(ParseInt(SliceTo(decrypted, ADDRESS_WIDTH))) else None
  }

  /** The inner message: everything after the address field when the text is
      longer than the field, "" otherwise, so a text shorter than the field is
      dropped rather than delivered. */
  function NextMessage(decrypted: string): (r: string)
    ensures |decrypted| < ADDRESS_WIDTH ==> r == ""
    ensures |decrypted| >= ADDRESS_WIDTH ==> decrypted[..ADDRESS_WIDTH] + r == decrypted
  {
    if |decrypted| > ADDRESS_WIDTH then SliceFrom(decrypted, ADDRESS_WIDTH) else ""
  }

  /** Removes one layer. A null destination always comes with an empty
      message, and a layer no longer than the wrapped key has no next hop. */
  function Peel(c: Crypto, privateKey: string, message: string): (r: Option<Peeled>)
    ensures r.None? <==> DecryptLayer(c, privateKey, message).None?
    ensures r.Some? && r.value.destination.None? ==> r.value.nextMessage == ""
    ensures r.Some? && |message| <= WRAPPED_KEY_LENGTH ==> r.value == Peeled(None, "")
  {
    match DecryptLayer(c, privateKey, message)
    case None => None
    case Some(decrypted) => Some(Peeled(NextDestination(decrypted), NextMessage(decrypted)))
  }

  /** A destination port counts as a user's exactly when it is at or above
      the users' base port. */
  predicate IsUserPort(ports: Ports, port: int)
  {
    port >= ports.baseUserPort
  }

  /** The forwarding call for a peeled layer: made only for a destination
      that is a number and a valid port, and then to that port with the
      inner message. */
  function Forwarding(p: Peeled): (r: Option<Post>)
    ensures r.Some? <==> p.destination.Some? && p.destination.value.Int? && ValidPort(p.destination.value.value)
    ensures r.Some? ==> r.value.port == p.destination.value.value && r.value.message == p.nextMessage
  {
    match p.destination
    case Some(Int(port)) => if ValidPort(port) then Some(Post(port, p.nextMessage)) else None
    case _ => None
  }

  datatype Reply =
    | MissingMessage           // 400 "Missing message"
    | InternalError            // 500 "Internal error while processing the message"
    | FinalReached(message: string)  // "Final message reached the last node"
    | Forwarded                // "Message decrypted and forwarded successfully"

  /** One relay process: its id, its private key and the three fields of its
      node state, all null until the first message is decoded. */
  class Router {
    const nodeId: int
    const privateKey: string
    var lastReceivedEncryptedMessage: Option<string>
    var lastReceivedDecryptedMessage: Option<string>
    var lastMessageDestination: Option<Number>

    constructor (nodeId: int, privateKey: string)
      ensures this.nodeId == nodeId && this.privateKey == privateKey
      ensures lastReceivedEncryptedMessage == None
      ensures lastReceivedDecryptedMessage == None
      ensures lastMessageDestination == None
    {
      this.nodeId := nodeId;
      this.privateKey := privateKey;
      lastReceivedEncryptedMessage := None;
      lastReceivedDecryptedMessage := None;
      lastMessageDestination := None;
    }

    /** `/message`. `forwardOk` is whether the next hop answers the forwarded
        POST with a success status; it matters only when a call is made, and
        that call is returned in `out`. The node state is written after both
        decryptions and before forwarding: an undefined or null message or a
        failed decryption leaves it untouched, a failed forward does not. */
    method HandleMessage(ports: Ports, c: Crypto, message: Field<string>, forwardOk: bool)
      returns (reply: Reply, out: Option<Post>, toUser: bool)
      modifies this
      ensures message.Undefined? ==> reply == MissingMessage && out == None && unchanged(this)
      ensures message.Null? ==> reply == InternalError && out == None && unchanged(this)
      ensures message.Given? && Peel(c, privateKey, message.value).None? ==>
                reply == InternalError && out == None && unchanged(this)
      ensures message.Given? && Peel(c, privateKey, message.value).Some? ==>
                var p := Peel(c, privateKey, message.value).value;
                && lastReceivedEncryptedMessage == Some(message.value)
                && lastReceivedDecryptedMessage == Some(p.nextMessage)
                && lastMessageDestination == p.destination
                && out == Forwarding(p)
                && (out.Some? ==> toUser == IsUserPort(ports, out.value.port))
                && reply == (if p.destination.None? then FinalReached(p.nextMessage)
                             else if out.Some? && forwardOk then Forwarded
                             else InternalError)
    {
      out, toUser := None, false;
      if message.Undefined? {
        return MissingMessage, out, toUser;
      }
      if message.Null? {
        // `message.slice` on null throws
        return InternalError, out, toUser;
      }
      var m := message.value;
      var encryptedSymKey := SliceTo(m, WRAPPED_KEY_LENGTH);
      var restOfMessage := SliceFrom(m, WRAPPED_KEY_LENGTH);
      var symKey := c.rsaDecrypt(encryptedSymKey, privateKey);
      if symKey.None? {
        return InternalError, out, toUser;
      }
      var decryptedMessage: string;
      if |restOfMessage| > 0 {
        var body := c.symDecrypt(symKey.value, restOfMessage);
        if body.None? {
          return InternalError, out, toUser;
        }
        decryptedMessage := body.value;
      } else {
        decryptedMessage := "";
      }
      var nextDestination := NextDestination(decryptedMessage);
      var nextMessage := NextMessage(decryptedMessage);

      lastReceivedEncryptedMessage := Some(m);
      lastReceivedDecryptedMessage := Some(nextMessage);
      lastMessageDestination := nextDestination;

      if nextDestination.None? {
        return FinalReached(nextMessage), out, toUser;
      }
      match nextDestination.value
      case NaN =>
        // `http://localhost:NaN/message` is not a valid URL: fetch throws
        reply := InternalError;
      case Int(port) =>
        toUser := IsUserPort(ports, port);
        if !ValidPort(port) {
          reply := InternalError;
        } else {
          out := Some(Post(port, nextMessage));
          reply := if forwardOk then Forwarded else InternalError;
        }
    }
  }
}
