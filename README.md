# Onion routing: layering, peeling and the node registry

This project models the message path of a small onion-routing network made of
three kinds of processes:

- **Relays (onion routers).** Each relay holds an RSA key pair. On `/message`
  it removes one layer: the first 344 characters are its RSA-wrapped symmetric
  key, and the rest is the symmetrically encrypted body. It reads a
  ten-character, zero-padded next-hop port from the start of the decrypted
  text. It records the layer, the inner message and the port, then forwards
  the inner message to that port, or answers with it when there is no port.
- **Users.** On `/sendMessage` a user takes the first three entries of a
  shuffled copy of the registry's list as the circuit. It wraps the message
  in three layers, innermost first, and posts the onion to the first relay.
  On `/message` a user stores what it receives.
- **The registry.** It keeps an append-only list of `{nodeId, pubKey}`. It
  refuses malformed registrations and ids it already holds.

The cryptographic primitives are opaque function values (`Crypto.Crypto`). The
ghost predicate `Crypto.Sound` holds the only facts the model relies on:

- symmetric decryption undoes symmetric encryption;
- a symmetric ciphertext is never empty. A real one carries at least an IV or
  one block. Without this fact an empty body would take the relay's terminal
  branch at `src/onionRouters/simpleOnionRouter.ts:122`, and `LayerRoundTrip`
  and `EncodeLayer` rely on it;
- a wrapped key is 344 characters long, the base64 text of one 256-byte block
  (section 4 of RFC 4648);
- RSA-OAEP wrapping under the public key of a pair succeeds for data of at
  most 190 characters, and unwrapping with that pair's private key recovers
  the data. 190 bytes is the payload limit of a 2048-bit key with SHA-256
  (section 7.1.1 of RFC 8017).

The JavaScript string and number operations the framing depends on are written
out in `Text`: `slice`, `padStart`, `parseInt(_, 10)`, and
`Number.prototype.toString` for integers in plain decimal notation ("## Left
out" covers the numbers JavaScript prints otherwise). Request fields
distinguish `undefined`, `null` and a value (`JsValues.Field`). Registry
bodies are JSON values, so that `typeof` and truthiness can be checked
(`JsValues.Json`). Every network call becomes a value
returned by the handler (`Config.Post`). Whether the callee answers with
success is a parameter.

The central result is `RoundTrip.ThreePeelsDeliver`. Peeling the onion a user
builds with the three relays' private keys in turn yields, in order:

1. the second relay's port;
2. the third relay's port;
3. the recipient's port, together with the original message (the empty
   message included).

`RoundTrip.DeliverThroughCircuit` runs the same path through the imperative
handlers, on fresh processes.

Three behaviours of the relay's code are easy to misread:

- **Short decrypted text.** A decrypted text shorter than ten characters has
  no next hop (`src/onionRouters/simpleOnionRouter.ts:125-127`). Its inner
  message is `""`, not the text itself, because the slice is taken only when
  the text is longer than ten characters (line 129). The relay then answers
  with that `""` (line 145).
- **Error status.** Every failure after the undefined check is caught and
  answered with status 500 (lines 167-169): a null message, a failed key
  unwrap, a failed body decryption, an invalid URL, a failed forward. No
  length check exists. A layer of at most 344 characters fails only if the
  key unwrap throws. If the unwrap succeeds, the rest is empty, so the layer
  decodes to `""` with no next hop (lines 116 and 122).
- **User or relay.** The test `nextDestination >= BASE_USER_PORT` (line 149)
  only feeds a log line (line 152). The inner message is posted to
  `nextDestination` either way (lines 150-159). `HandleMessage` reports the
  classification as `toUser`.

## Model

| member | source | states |
|---|---|---|
| Text.SliceTo | src/onionRouters/simpleOnionRouter.ts:115 | `slice(0, n)` is the prefix of length `min(n, |s|)`, exactly `s[..n]` when `s` is long enough |
| Text.SliceFrom | src/onionRouters/simpleOnionRouter.ts:116 | the wrapped key and the rest concatenate back to the received message; the rest is empty for a message of at most 344 characters |
| Text.ParseInt | src/onionRouters/simpleOnionRouter.ts:126 | `parseInt(_, 10)` is NaN exactly when the text does not start with a digit |
| Text.LeadingDigits | src/onionRouters/simpleOnionRouter.ts:126 | the digits `parseInt` reads are the longest all-digit prefix |
| Text.Digits | src/users/user.ts:105-107 | the decimal text of a port is non-empty and all digits |
| Text.NumberToString | src/users/user.ts:105-107 | `toString` of an integer is non-empty and starts with "-" exactly for a negative number |
| Text.NumberToStringValue | src/users/user.ts:105-107 | the digits of `toString` read back as the number, after the "-" for a negative one |
| Text.PadStart | src/users/user.ts:109 | `padStart(w, "0")` is `w` long, or as long as `s` when `s` is longer: it never cuts |
| Text.AddressField | src/users/user.ts:105-109 | the address field of any port is at least ten characters long |
| Text.PadStartPads | src/users/user.ts:109 | `padStart(w, "0")` gives length `max(w, |s|)`, keeps `s` as the suffix and puts only "0" before it |
| Text.AddressFieldRoundTrip | src/users/user.ts:109 | the address field of a port below 10^10 is exactly ten digits and `parseInt` reads the same port back |
| Text.AddressFieldPrefix | src/onionRouters/simpleOnionRouter.ts:125-129 | slicing an address field followed by a payload at ten characters gives back the field and the payload |
| Registry.Register | src/registry/registry.ts:41-55 | a missing or non-number id, or a falsy key, is refused; an id already present is refused; otherwise exactly one entry is appended; a refusal leaves the list unchanged; distinct ids stay distinct |
| Registry.RegistrationsKeepIdsDistinct | src/registry/registry.ts:47-51 | any sequence of registrations from a list with distinct ids keeps them distinct, and never removes or reorders an entry |
| Registry.Registry.constructor | src/registry/registry.ts:18 | the registry starts empty, with distinct ids |
| Registry.Registry.IsRegistered | src/registry/registry.ts:47 | the linear `some` scan finds the id exactly when some entry has it |
| Registry.Registry.RegisterNode | src/registry/registry.ts:41-55 | the handler's reply and new list are those of `Register`, and the distinct-ids invariant is kept |
| Registry.Registry.GetNodeRegistry | src/registry/registry.ts:59-61 | `/getNodeRegistry` and `/nodes` (lines 31-33) answer with the current list and change nothing |
| OnionRouter.DecryptLayer | src/onionRouters/simpleOnionRouter.ts:115-122 | a failed key unwrap fails the layer; a layer of at most 344 characters decrypts to "" with no symmetric decryption; a longer one decrypts its body under the unwrapped key |
| OnionRouter.NextDestination | src/onionRouters/simpleOnionRouter.ts:125-127 | there is a next destination exactly when the decrypted text has at least ten characters, and it is `parseInt` of the first ten |
| OnionRouter.NextMessage | src/onionRouters/simpleOnionRouter.ts:129 | the inner message is what follows the first ten characters; a text shorter than ten gives "" |
| OnionRouter.Peel | src/onionRouters/simpleOnionRouter.ts:115-129 | peeling fails exactly when decryption does; a null destination comes with an empty message; a layer of at most 344 characters has neither |
| OnionRouter.Forwarding | src/onionRouters/simpleOnionRouter.ts:149-163 | a call is made exactly for a numeric destination that is a valid port, to that port, carrying the inner message; there is no call for NaN or for a port outside 0..65535, where the URL is invalid and `fetch` throws |
| RoundTrip.HopClassification | src/onionRouters/simpleOnionRouter.ts:149 | with relay ports below the users' base port, `IsUserPort` classes the first two hops as relays and the last hop as a user |
| OnionRouter.Router.constructor | src/onionRouters/simpleOnionRouter.ts:33-39 | a relay's three state fields start null |
| OnionRouter.Router.HandleMessage | src/onionRouters/simpleOnionRouter.ts:104-170 | undefined is answered 400 and null 500, both with no state change; a failed decryption answers 500 with no state change; otherwise the three fields are set to (layer, inner message, destination) before forwarding, the forwarding call is `Forwarding` of the peel, and the reply is the final message, success, or 500 when the call cannot be made or fails |
| Users.SelectCircuit | src/users/user.ts:93-94 | the circuit has exactly three relays |
| Users.CircuitFromRegistry | src/users/user.ts:93-94 | every relay of the circuit comes from the registry's list, and their ids are distinct when the list's are |
| Users.RoutingPath | src/users/user.ts:94 | the routing path lists the circuit's node ids in order |
| Users.NextTargetFollowsPath | src/users/user.ts:105-107 | `NextTarget` for hop `i < 2` is the relay port of `routingPath[i + 1]`, and for hop 2 the recipient's user port |
| Users.EncodeLayer | src/users/user.ts:110-115 | a layer exists only when the relay's registered key is a string that wraps the symmetric key; under sound primitives it is longer than the 344-character wrapped key |
| Users.WrappedNeedsWrappableKeys | src/users/user.ts:102-116 | the onion `Wrapped` defines from hop `i` exists only when every relay from hop `i` on registered a string key that wraps its symmetric key |
| Users.WrappedExistsWithWrappableKeys | src/users/user.ts:102-116 | conversely, with no assumption on the primitives, the onion from hop `i` exists when every relay from hop `i` on registered a string key that wraps its symmetric key |
| Users.WrappedFailsOutwards | src/users/user.ts:104-116 | once one layer cannot be built, no layer outside it can be |
| Users.BuildOnion | src/users/user.ts:102-116 | the loop from hop 2 down to hop 0 yields exactly the onion `Wrapped` defines from hop 0, or fails when a key wrap throws |
| Users.FirstHopPost | src/users/user.ts:118-128 | the onion is posted to the first relay's port exactly when it was built and that port is valid, and the post carries the whole onion |
| Users.User.constructor | src/users/user.ts:24-30 | a user's three state fields start null |
| Users.User.ReceiveMessage | src/users/user.ts:53-70 | an undefined or null message is refused with no state change; any string, "" included, becomes the last received message and nothing else changes |
| Users.User.SendMessage | src/users/user.ts:72-144 | a missing message or destination is refused; fewer than three nodes fails before anything is sent; otherwise the post is `FirstHopPost` of the message, a null message taken as the text "null" and a null recipient id as 0; the send succeeds exactly when that post is made and answered with success, and only then do the last sent message (null for a null message) and the last circuit change |
| RoundTrip.LayerRoundTrip | src/onionRouters/simpleOnionRouter.ts:115-129 | a layer built for a relay's genuine key peels, with the matching private key, to the port and inner message it was built with |
| RoundTrip.LayerBuilds | src/users/user.ts:112-115 | a layer can always be built for a relay that registered its genuine public key |
| RoundTrip.WrappedBuilds | src/users/user.ts:102-116 | with matching keys every onion from any hop inwards can be built |
| RoundTrip.PeelHop | src/onionRouters/simpleOnionRouter.ts:115-129 | relay `i` peels the onion from hop `i` into hop `i`'s next port and the onion from hop `i + 1` |
| RoundTrip.ValidPortsFit | src/users/user.ts:104-109 | every valid port fits the ten-digit address field |
| RoundTrip.ThreePeelsDeliver | src/users/user.ts:104-116 | three successive peels give the second relay's port, the third relay's, then the recipient's port and the original message |
| RoundTrip.NullMessageArrivesAsText | src/users/user.ts:102-110 | a null message is wrapped as the text "null", and the three peels deliver "null" to the recipient |
| RoundTrip.NullDestinationReachesBaseUserPort | src/users/user.ts:105-107 | a null recipient id makes the last relay's peel name `BASE_USER_PORT` itself, with the original message |
| RoundTrip.RelayHop | src/onionRouters/simpleOnionRouter.ts:138-165 | a relay whose peel names a valid port forwards the inner message there and records layer, inner message and port |
| RoundTrip.SendHop | src/users/user.ts:118-136 | a sender whose onion can be built posts it to the first relay and records the message and the routing path |
| RoundTrip.RelayChain | src/onionRouters/simpleOnionRouter.ts:104-165 | three relays handling the successive peels record the three ports and the recipient receives the innermost message |
| RoundTrip.RunCircuit | src/users/user.ts:72-138 | sender, relays and recipient run in turn; when the onion peels in order, the relays record the three ports and the recipient holds the message |
| RoundTrip.DeliverThroughCircuit | src/users/user.ts:72-138 | under sound primitives and matching keys, with valid ports, a message sent over the shuffled circuit arrives unchanged and each relay records the next hop's port |

## Left out

- HTTP and Express plumbing (routing, JSON body parsing, `listen`) is not modelled. Forwarding is the returned `Post`, and whether the callee answers with success is a parameter.
- The relays' self-registration request to the registry (`src/onionRouters/simpleOnionRouter.ts:45-78`) is not modelled, and neither are the `/status` routes or the console output.
- The state getters and `/getPrivateKey` are plain field reads and are not modelled. The registry's `/users` placeholder is not modelled either.
- The registry lookup inside `/sendMessage` is not modelled: its answer is the `nodesList` parameter. A failure of that fetch is not modelled.
- The `../crypto` module is not part of this model. The primitives are opaque functions, constrained only by `Crypto.Sound`. Key generation, key export and cryptographic strength are not modelled.
- RoundTrip.MatchingKeys requires every symmetric key to be at most 190 characters, because `Crypto.Sound` only promises a wrap and unwrap for data that short. The exported key format is not visible, so the bound is an assumption of the round trip.
- The round trip assumes that each relay's private key matches the public key it registered. Nothing is proved about a relay peeling a layer that was built for another relay's key, because that would need more than the stated facts about the primitives.
- `Math.random` shuffling is an arbitrary permutation parameter. Its distribution is not modelled.
- `src/config.ts` is not part of this model. `BASE_ONION_ROUTER_PORT` and `BASE_USER_PORT` are the `Ports` parameter, and `REGISTRY_PORT` is unused.
- Request values that are neither strings nor `null`/`undefined` are not modelled. That covers numbers or objects as messages, and strings or fractions as ids. Node and user ids are integers.
- Text.NumberToString writes every integer in plain decimal. JavaScript numbers are doubles, which round above 2^53 and print in exponent form from 1e21. An id of 5e21 gives the field "000005e+21" in the source, which the last relay reads as port 5. The model instead writes a 22-digit field, which the relay reads as 5000000000 and cannot forward to.
- JsValues.Json has no objects, arrays or non-finite numbers. The registry accepts any truthy `pubKey`, including an object or an array (`src/registry/registry.ts:43`). A `nodeId` such as `1e400` parses to Infinity and passes the number check. Neither case is represented.
- Strings are sequences of `char`, which cannot hold a lone UTF-16 surrogate. Lengths and slices count characters, where JavaScript counts UTF-16 code units. The two agree for the digit and base64 text the onion path produces. They can differ inside a message that contains characters outside the Basic Multilingual Plane.
- A JSON number cannot be NaN, so the registry's `typeof nodeId === "number"` check is modelled as "is an integer".
- Text.ParseInt does not model a sign or leading white space. The address fields that are parsed are built from non-negative ports.
- An invalid URL is modelled as a failed `fetch`. That covers a NaN port or a port outside 0..65535. Whether a valid port is reachable is part of the success parameter.
- Async interleaving of handlers is not modelled. Each process is an object whose handlers run one at a time.
- The process-wide maps keyed by node or user id are not modelled. Each process holds its own state, initialised to null. A relaunch that reuses existing map entries is outside the model.
