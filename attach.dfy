/**
 * The script registry of the transaction builder: `attachScript` files a script in
 * the builder's mutable `scripts` map under the hash of its canonical encoding, and
 * four category wrappers delegate to it.
 */
module Attach {
  import opened Wrappers
  import opened Cml

  /** The script tags the dispatcher recognises; every other tag is ignored. */
  const Dialects: set<string> := {"Native", "PlutusV1", "PlutusV2"}

  /** A tagged script `{type, script}`: the dialect tag and the caller's CBOR hex. */
  datatype Script = Script(kind: string, script: string)

  /** The four validator categories share the `{type, script}` shape. */
  type SpendingValidator = Script
  type MintingPolicy = Script
  type CertificateValidator = Script
  type WithdrawalValidator = Script

  /** What the switch of `attachScript` decides: set an entry, do nothing, or throw. */
  datatype Step = Set(key: ScriptHash) | Skip | Throw(error: CmlError)

  // ---------------------------------------------------------------------------
  // Specification
  // ---------------------------------------------------------------------------

  /** The codec the switch of `attachScript` selects for a recognised tag. */
  function CodecOf(lib: Library, kind: string): Codec
    requires kind in Dialects
  {
    if kind == "Native" then lib.native
    else if kind == "PlutusV1" then lib.plutusV1
    else lib.plutusV2
  }

  /** The hex handed to `from_cbor_hex`: Plutus scripts are double-CBOR-encoded first. */
  function HashedHex(lib: Library, s: Script): string
  {
    if s.kind == "Native" then s.script else lib.applyDoubleCborEncoding(s.script)
  }

  /**
   * The branch `attachScript` takes for `s`: a recognised script is keyed by its
   * codec's hash of the hashed hex, other tags fall to `default`, and a decoding
   * error is raised as the codec raised it.
   */
  function Dispatch(lib: Library, s: Script): (r: Step)
    ensures r.Skip? <==> s.kind !in Dialects
    ensures r.Throw? <==>
      s.kind in Dialects && CodecOf(lib, s.kind).fromCborHex(HashedHex(lib, s)).Failure?
    ensures r.Throw? ==> r.error == CodecOf(lib, s.kind).fromCborHex(HashedHex(lib, s)).error
  {
    if s.kind !in Dialects then Skip
    else
      match HashOfHex(CodecOf(lib, s.kind), HashedHex(lib, s))
      case Failure(e) => Throw(e)
      case Success(key) => Set(key)
  }

  /**
   * The scripts map after `attachScript(config)(s)` on a map holding `entries`, or
   * the exception the call raises (the map is then left as it was).
   */
  function Attached(lib: Library, entries: map<ScriptHash, Script>, s: Script)
    : (r: Result<map<ScriptHash, Script>, CmlError>)
    ensures r.Failure? <==> Dispatch(lib, s).Throw?
    ensures r.Failure? ==> r.error == Dispatch(lib, s).error
    ensures r.Success? ==> entries.Keys <= r.value.Keys
    ensures r.Success? ==> |r.value.Keys| <= |entries.Keys| + 1
    ensures r.Success? ==>
      forall k :: k in r.value ==> r.value[k] == s || (k in entries && r.value[k] == entries[k])
  {
    match Dispatch(lib, s)
    case Set(key) => Success(entries[key := s])
    case Skip => Success(entries)
    case Throw(e) => Failure(e)
  }

  /**
   * Every entry is filed under the hash `attachScript` computes for it, so no key
   * holds a script whose own hash differs.
   */
  ghost predicate Registered(lib: Library, entries: map<ScriptHash, Script>)
  {
    forall k :: k in entries ==> Dispatch(lib, entries[k]) == Set(k)
  }

  /** The map after a fluent chain of attaches, and the exception that ended it, if any. */
  datatype Chained = Chained(entries: map<ScriptHash, Script>, error: Option<CmlError>)

  /**
   * `attachScript` applied to each of `ss` in turn on one config: each call mutates
   * the shared map, and the first exception stops the chain while the entries set
   * by the earlier calls stay in place.
   */
  function AttachChain(lib: Library, entries: map<ScriptHash, Script>, ss: seq<Script>)
    : (r: Chained)
    ensures entries.Keys <= r.entries.Keys
    ensures |r.entries.Keys| <= |entries.Keys| + |ss|
    decreases |ss|
  {
    if ss == [] then Chained(entries, None)
    else
      match Attached(lib, entries, ss[0])
      case Failure(e) => Chained(entries, Some(e))
      case Success(next) => AttachChain(lib, next, ss[1..])
  }

  // ---------------------------------------------------------------------------
  // Builder state
  // ---------------------------------------------------------------------------

  /** The mutable map object `config.scripts`. */
  class ScriptMap {
    var entries: map<ScriptHash, Script>

    constructor ()
      ensures entries == map[]
    {
      entries := map[];
    }

    /** `Map.prototype.set`: insert or overwrite one key. */
    method Set(key: ScriptHash, value: Script)
      modifies this
      ensures entries == old(entries)[key := value]
    {
      entries := entries[key := value];
    }
  }

  /** The builder configuration; only its script map is part of this model. */
  class Config {
    var scripts: ScriptMap

    constructor (scripts: ScriptMap)
      ensures this.scripts == scripts
    {
      this.scripts := scripts;
    }
  }

  /** What `makeTx` returns: a builder over the given config. */
  class TxBuilder {
    const config: Config

    constructor (config: Config)
      ensures this.config == config
    {
      this.config := config;
    }
  }

  // ---------------------------------------------------------------------------
  // Operations
  // ---------------------------------------------------------------------------

  /**
   * The effect of one `attachScript(config)(s)` call: the same `config.scripts` object
   * now holds `Attached` of its old contents and a fresh builder over `config` is
   * returned, or the codec's error is returned and the map is as it was.
   */
  twostate predicate AttachEffect(
    lib: Library, config: Config, s: Script, new r: Result<TxBuilder, CmlError>)
    reads config, config.scripts
  {
    config.scripts == old(config.scripts) &&
    (r.Failure? <==> Attached(lib, old(config.scripts.entries), s).Failure?) &&
    (r.Failure? ==>
      r.error == Attached(lib, old(config.scripts.entries), s).error &&
      config.scripts.entries == old(config.scripts.entries)) &&
    (r.Success? ==>
      fresh(r.value) && r.value.config == config &&
      config.scripts.entries == Attached(lib, old(config.scripts.entries), s).value)
  }

  /**
   * `attachScript(config)(s)`: file `s` under its hash in `config.scripts` and return
   * a builder over the same config; the key is computed before `set`, so a script
   * that does not decode throws before the map is touched.
   */
  method AttachScript(lib: Library, config: Config, s: Script)
    returns (r: Result<TxBuilder, CmlError>)
    modifies config.scripts
    ensures AttachEffect(lib, config, s, r)
  {
    if s.kind !in Dialects {
      var builder := new TxBuilder(config);
      return Success(builder);
    }
    var hex := HashedHex(lib, s);
    var hash := HashOfHex(CodecOf(lib, s.kind), hex);
    if hash.Failure? {
      return Failure(hash.error);
    }
    config.scripts.Set(hash.value, s);
    var builder := new TxBuilder(config);
    return Success(builder);
  }

  /** `attachSpendingValidator`: exactly `attachScript` on the same config. */
  method AttachSpendingValidator(lib: Library, config: Config, v: SpendingValidator)
    returns (r: Result<TxBuilder, CmlError>)
    modifies config.scripts
    ensures AttachEffect(lib, config, v, r)
  {
    r := AttachScript(lib, config, v);
  }

  /** `attachMintingPolicy`: exactly `attachScript` on the same config. */
  method AttachMintingPolicy(lib: Library, config: Config, v: MintingPolicy)
    returns (r: Result<TxBuilder, CmlError>)
    modifies config.scripts
    ensures AttachEffect(lib, config, v, r)
  {
    r := AttachScript(lib, config, v);
  }

  /** `attachCertificateValidator`: exactly `attachScript` on the same config. */
  method AttachCertificateValidator(lib: Library, config: Config, v: CertificateValidator)
    returns (r: Result<TxBuilder, CmlError>)
    modifies config.scripts
    ensures AttachEffect(lib, config, v, r)
  {
    r := AttachScript(lib, config, v);
  }

  /** `attachWithdrawalValidator`: exactly `attachScript` on the same config. */
  method AttachWithdrawalValidator(lib: Library, config: Config, v: WithdrawalValidator)
    returns (r: Result<TxBuilder, CmlError>)
    modifies config.scripts
    ensures AttachEffect(lib, config, v, r)
  {
    r := AttachScript(lib, config, v);
  }
}
