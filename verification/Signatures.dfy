/**
 Ed25519 (RFC 8032), idealised: a signature is a term that names its signer and the bytes it
 covers, and it verifies under exactly that public key and for exactly those bytes.
 */
module Signatures {
  import opened Bytes
  import opened Wrappers

  datatype Signature = SignedBy(signer: seq<byte>, message: seq<byte>) | NotASignature

  predicate Verifies(key: seq<byte>, message: seq<byte>, sig: Signature) {
    sig == SignedBy(key, message)
  }

  /** The signaling server's check: the key is hex text, and anything malformed fails closed. */
  predicate VerifiesHex(keyHex: string, sig: Signature, message: seq<byte>) {
    match FromHex(keyHex)
    case Some(key) => |key| == 32 && Verifies(key, message, sig)
    case None => false
  }
}
