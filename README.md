# Script registry of the transaction builder

This project models the script registry of the lucid-evolution transaction builder in Dafny. Given a tagged script `{type, script}`, `attachScript` picks a procedure by dialect tag:

- **Native:** the script's CBOR hex is decoded and hashed as given.
- **PlutusV1 and PlutusV2:** the hex is first passed through `applyDoubleCborEncoding`, which yields the form wrapped in two CBOR byte strings. That form is then decoded and hashed with the dialect's own codec.

The script is stored under the hex hash in the builder config's mutable `scripts` map. The stored value is the caller's original `{type, script}`, not the normalised hex. Any other tag leaves the map alone. The call returns a builder over the same, mutated config. Four wrappers give each validator category its own entry point: spending, minting, certificate and withdrawal. Each one simply delegates to `attachScript`.

Files:

- `wrappers.dfy`: `Option` and `Result`.
- `cml.dfy`: the foreign codec library. Each dialect's `from_cbor_hex` and `.hash().to_hex()`, and `applyDoubleCborEncoding`, are function-valued fields of a `Library` value. That value is passed to every operation, so the proofs hold whatever the library computes. Decoding returns the library's own error where it throws.
- `attach.dfy`: the model of `Attach.ts`. It contains:
  - the pure specification: `Dispatch` is the branch taken, `Attached` is the map afterwards or the exception, and `AttachChain` is a fluent chain of attaches;
  - the builder state: `ScriptMap` is the JS `Map` object, `Config` holds it, and `TxBuilder` is what `makeTx` returns;
  - the imperative `AttachScript` and its four wrappers, each proved against `Attached`.
- `lemmas.dfy`: properties of the specification.

The source field `type` is a Dafny keyword, so the model calls it `kind`. A thrown exception is modelled as a `Failure` result. That result carries the error the codec raised, passed on unchanged. The `scripts` Map is a heap object, so every holder of it sees the update, as in JS.

## Model

| member | source | states |
|---|---|---|
| `Attach.Dispatch` | packages/lucid-evolution/src/tx-builder/Attach.ts:23-48 | the switch skips exactly the tags other than Native, PlutusV1 and PlutusV2. Otherwise it runs the `from_cbor_hex(…).hash().to_hex()` chain (`Cml.HashOfHex`) with the tag's codec (`CodecOf`) on the hashed hex (`HashedHex`: raw for Native, double-CBOR-encoded for Plutus). It throws exactly when that decode fails, and the error is the codec's own error, unchanged |
| `Attach.Attached` | packages/lucid-evolution/src/tx-builder/Attach.ts:23-47 | one attach fails exactly when the dispatched decode throws, with that error; on success no key is removed, the key set grows by at most one, and every entry is either the attached script or the old entry under that key |
| `Attach.AttachChain` | packages/lucid-evolution/src/tx-builder/Attach.ts:12-49 | a chain of attaches on one config never removes a key and adds at most one key per attach |
| `Attach.ScriptMap.Set` | packages/lucid-evolution/src/tx-builder/Attach.ts:25-28 | `Map.set` inserts or overwrites exactly one key and leaves the rest of the map as it was |
| `Attach.TxBuilder.constructor` | packages/lucid-evolution/src/tx-builder/Attach.ts:29 | the builder that `makeTx(config)` returns wraps that same config |
| `Attach.AttachScript` | packages/lucid-evolution/src/tx-builder/Attach.ts:12-49 | mutates the same `config.scripts` object in place, making its contents `Attached` of the old contents; on success it returns a fresh builder over the same config; on an exception the map is unchanged and the codec's error is returned (`AttachEffect`) |
| `Attach.AttachSpendingValidator` | packages/lucid-evolution/src/tx-builder/Attach.ts:50-53 | has exactly the effect and result of `AttachScript` on the same config (the same `AttachEffect`) |
| `Attach.AttachMintingPolicy` | packages/lucid-evolution/src/tx-builder/Attach.ts:55-58 | has exactly the effect and result of `AttachScript` on the same config (the same `AttachEffect`) |
| `Attach.AttachCertificateValidator` | packages/lucid-evolution/src/tx-builder/Attach.ts:60-63 | has exactly the effect and result of `AttachScript` on the same config (the same `AttachEffect`) |
| `Attach.AttachWithdrawalValidator` | packages/lucid-evolution/src/tx-builder/Attach.ts:65-68 | has exactly the effect and result of `AttachScript` on the same config (the same `AttachEffect`) |
| `AttachLemmas.NativeAttach` | packages/lucid-evolution/src/tx-builder/Attach.ts:24-29 | a decodable Native script is stored as given under the native hash of its decoding; every other key keeps its value |
| `AttachLemmas.PlutusV1Attach` | packages/lucid-evolution/src/tx-builder/Attach.ts:30-37 | a PlutusV1 script is keyed by the V1 hash of its double-CBOR-encoded hex, while the entry keeps the caller's original hex; every other key keeps its value |
| `AttachLemmas.PlutusV2Attach` | packages/lucid-evolution/src/tx-builder/Attach.ts:38-45 | the same for PlutusV2 with the V2 codec |
| `AttachLemmas.UnknownTagUnchanged` | packages/lucid-evolution/src/tx-builder/Attach.ts:46-47 | any other tag leaves the map exactly as it was and raises nothing |
| `AttachLemmas.DecodeFailureThrows` | packages/lucid-evolution/src/tx-builder/Attach.ts:24-45 | when the hex handed to `from_cbor_hex` does not decode, the call raises the codec's own error and writes nothing |
| `AttachLemmas.DecodeSuccessWrites` | packages/lucid-evolution/src/tx-builder/Attach.ts:24-45 | conversely, a recognised script that decodes is always written under the hash of its decoding |
| `AttachLemmas.AttachIdempotent` | packages/lucid-evolution/src/tx-builder/Attach.ts:25-45 | attaching the same script twice gives the same map as attaching it once; a failing script fails the same way whatever the map holds |
| `AttachLemmas.AttachKeepsRegistered` | packages/lucid-evolution/src/tx-builder/Attach.ts:25-45 | if every entry is filed under its own hash before an attach, the same holds afterwards |
| `AttachLemmas.ReattachIsNoop` | packages/lucid-evolution/src/tx-builder/Attach.ts:25-45 | re-attaching a script the registry already holds leaves the map unchanged |
| `AttachLemmas.AttachesCommute` | packages/lucid-evolution/src/tx-builder/Attach.ts:25-47 | two attaches with different keys give the same map in either order, and that map holds both scripts |
| `AttachLemmas.EncodedFormSameKey` | packages/lucid-evolution/src/tx-builder/Attach.ts:30-45 | assuming `applyDoubleCborEncoding` is idempotent on the hex, attaching the already-encoded hex picks the same key as attaching the raw hex, or fails the same way; the entry then holds the encoded form that was supplied |
| `AttachLemmas.ChainAppend` | packages/lucid-evolution/src/tx-builder/Attach.ts:12-49 | a chain of attaches splits into two chains at any point, and the second half runs only if the first raised nothing |
| `AttachLemmas.ChainKeepsRegistered` | packages/lucid-evolution/src/tx-builder/Attach.ts:12-49 | a chain keeps every entry filed under its own hash, even when it stops at an exception |
| `AttachLemmas.ChainFailureKeepsPrefix` | packages/lucid-evolution/src/tx-builder/Attach.ts:25-45 | an exception part-way through a chain keeps the entries written by the earlier calls and stops the later ones |
| `AttachLemmas.NativeThenPlutusScenario` | packages/lucid-evolution/src/tx-builder/Attach.ts:24-45 | from an empty map, attaching a Native script, then a PlutusV2 script with a different hash, then the Native script again ends with exactly those two entries |

## Left out

- The CML codec and hash primitives (`from_cbor_hex`, `.hash()`, `.to_hex()`) are a foreign native library. They are arbitrary functions here. Nothing is proved about hash determinism beyond being a function, nor about dialect separation (V1 and V2 hashes of the same bytes differing).
- `.hash()` and `.to_hex()` are treated as total. A failing hash computation is therefore not modelled separately from a failing decode.
- `applyDoubleCborEncoding` is imported from `../mod.js`, which is not part of this model. It is an arbitrary function. Its idempotence appears only as an explicit hypothesis of `EncodedFormSameKey`.
- `makeTx` and the other `Config` fields (`./MakeTx.js`, `./types.js`) are not part of this model. A `TxBuilder` only records the config it was made over.
- The `@anastasia-labs/core-types` definitions are modelled only as far as the shared `{type, script}` shape. All four validator categories are aliases of `Script`.
- Hash keys are opaque strings; their hex format is not modelled.
- The library's exceptions are opaque `CmlError` values; their content is not modelled.
