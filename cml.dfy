/**
 * The foreign codec and hashing library the registry calls into, seen only through
 * its input/output behaviour. Each primitive is a function-valued field, so every
 * lemma of the model holds for whatever the library computes.
 */
module Cml {
  import opened Wrappers

  /** A script hash rendered as hex; used as an opaque map key. */
  type ScriptHash = string

  /** The binary (CBOR) form of a decoded script object. */
  type Cbor = seq<bv8>

  /** Whatever the library raises on input it cannot decode; its content is its own. */
  datatype CmlError = CmlError(message: string)

  /**
   * The primitives of one script dialect: `fromCborHex` decodes a hex string into a
   * script object, or yields the error the library throws on malformed input;
   * `hashHex` is `.hash().to_hex()` on the decoded object.
   */
  datatype Codec = Codec(fromCborHex: string -> Result<Cbor, CmlError>, hashHex: Cbor -> ScriptHash)

  /**
   * The library as the registry uses it: one codec per supported dialect, plus
   * `applyDoubleCborEncoding`, which rewrites a Plutus script's hex into the form
   * wrapped in two CBOR byte strings.
   */
  datatype Library = Library(
    native: Codec,
    plutusV1: Codec,
    plutusV2: Codec,
    applyDoubleCborEncoding: string -> string)

  /**
   * `Codec.from_cbor_hex(hex).hash().to_hex()`: the hash of the decoded script, or
   * the decoder's error, passed on unchanged.
   */
  function HashOfHex(codec: Codec, hex: string): Result<ScriptHash, CmlError>
  {
    match codec.fromCborHex(hex)
    case Failure(e) => Failure(e)
    case Success(decoded) => Success(codec.hashHex(decoded))
  }
}
