/** The cryptographic primitives the onion path uses, kept abstract. A
    `Crypto` value is any choice of the five operations; `Sound` states the
    only facts about them the onion path relies on. Keys and ciphertexts are
    in their exported base64 text form, as they travel in the messages. */
module Crypto {

  import opened JsValues

  /** Length of a wrapped symmetric key: the base64 text of one 256-byte
      RSA-2048 block, 86 groups of 4 characters (section 4 of RFC 4648). */
  const WRAPPED_KEY_LENGTH: nat := 344

  /** The most RSA-OAEP with SHA-256 can encrypt under a 2048-bit key:
      256 - 2 * 32 - 2 bytes (section 7.1.1 of RFC 8017). The format of an
      exported symmetric key is not part of this model, so that the keys
      stay within this bound is an assumption of the round trip. */
  const MAX_RSA_DATA: nat := 190

  datatype Crypto = Crypto(
    /** `symEncrypt(key, plaintext)` */
    symEncrypt: (string, string) -> string,
    /** `symDecrypt(key, ciphertext)`; `None` when it throws */
    symDecrypt: (string, string) -> Option<string>,
    /** `rsaEncrypt(data, publicKey)`; `None` when the key does not import */
    rsaEncrypt: (string, string) -> Option<string>,
    /** `rsaDecrypt(data, privateKey)`; `None` when it throws */
    rsaDecrypt: (string, string) -> Option<string>,
    /** the exported public key of the pair a private key belongs to */
    publicKeyOf: string -> string)

  /** Decryption undoes encryption under the same symmetric key, and under
      the private key of the pair; a symmetric ciphertext is never empty; a
      wrapped key is always `WRAPPED_KEY_LENGTH` characters long. */
  ghost predicate Sound(c: Crypto)
  {
    (forall key, m :: c.symDecrypt(key, c.symEncrypt(key, m)) == Some(m)) &&
    (forall key, m :: c.symEncrypt(key, m) != "") &&
    (forall data, pub :: c.rsaEncrypt(data, pub).Some? ==>
       |c.rsaEncrypt(data, pub).value| == WRAPPED_KEY_LENGTH) &&
    (forall data, prv | |data| <= MAX_RSA_DATA ::
       c.rsaEncrypt(data, c.publicKeyOf(prv)).Some? &&
       c.rsaDecrypt(c.rsaEncrypt(data, c.publicKeyOf(prv)).value, prv) == Some(data))
  }
}
