/**
 * Properties of the script registry: which key and value one attach writes, what it
 * leaves alone, and how attaches compose along a fluent chain.
 */
module AttachLemmas {
  import opened Wrappers
  import opened Cml
  import opened Attach

  /** A Native script is keyed by the hash of its own decoding and stored as given. */
  lemma NativeAttach(lib: Library, entries: map<ScriptHash, Script>, s: Script, decoded: Cbor)
    requires s.kind == "Native" && lib.native.fromCborHex(s.script) == Success(decoded)
    ensures Attached(lib, entries, s) == Success(entries[lib.native.hashHex(decoded) := s])
  {
  }

  /**
   * A PlutusV1 script is keyed by the V1 hash of its double-CBOR-encoded form, but the
   * entry holds the caller's original hex.
   */
  lemma PlutusV1Attach(lib: Library, entries: map<ScriptHash, Script>, s: Script, decoded: Cbor)
    requires s.kind == "PlutusV1"
    requires lib.plutusV1.fromCborHex(lib.applyDoubleCborEncoding(s.script)) == Success(decoded)
    ensures Attached(lib, entries, s) == Success(entries[lib.plutusV1.hashHex(decoded) := s])
    ensures Attached(lib, entries, s).value[lib.plutusV1.hashHex(decoded)].script == s.script
  {
  }

  /** The same for PlutusV2, with the V2 codec. */
  lemma PlutusV2Attach(lib: Library, entries: map<ScriptHash, Script>, s: Script, decoded: Cbor)
    requires s.kind == "PlutusV2"
    requires lib.plutusV2.fromCborHex(lib.applyDoubleCborEncoding(s.script)) == Success(decoded)
    ensures Attached(lib, entries, s) == Success(entries[lib.plutusV2.hashHex(decoded) := s])
    ensures Attached(lib, entries, s).value[lib.plutusV2.hashHex(decoded)].script == s.script
  {
  }

  /** Any other tag falls to `default`: the map is returned exactly as it was. */
  lemma UnknownTagUnchanged(lib: Library, entries: map<ScriptHash, Script>, s: Script)
    requires s.kind !in Dialects
    ensures Attached(lib, entries, s) == Success(entries)
  {
  }

  /**
   * When the hashed hex does not decode, the call raises the codec's own error and no
   * entry is written: the key is computed before `set` runs.
   */
  lemma DecodeFailureThrows(lib: Library, entries: map<ScriptHash, Script>, s: Script)
    requires s.kind in Dialects
    requires CodecOf(lib, s.kind).fromCborHex(HashedHex(lib, s)).Failure?
    ensures Attached(lib, entries, s)
      == Failure(CodecOf(lib, s.kind).fromCborHex(HashedHex(lib, s)).error)
  {
  }

  /** Conversely, a recognised script that decodes is always written, under its own hash. */
  lemma DecodeSuccessWrites(lib: Library, entries: map<ScriptHash, Script>, s: Script)
    requires s.kind in Dialects
    requires CodecOf(lib, s.kind).fromCborHex(HashedHex(lib, s)).Success?
    ensures Dispatch(lib, s).Set?
    ensures Attached(lib, entries, s).Success?
    ensures Attached(lib, entries, s).value
      == entries[CodecOf(lib, s.kind).hashHex(CodecOf(lib, s.kind).fromCborHex(HashedHex(lib, s)).value) := s]
  {
  }

  /** Attaching the same script twice gives the same map, or the same exception, as once. */
  lemma AttachIdempotent(lib: Library, entries: map<ScriptHash, Script>, s: Script)
    ensures Attached(lib, entries, s).Success? ==>
      Attached(lib, Attached(lib, entries, s).value, s) == Attached(lib, entries, s)
    ensures Attached(lib, entries, s).Failure? ==>
      Attached(lib, entries, s) == Attached(lib, map[], s)
  {
    match Dispatch(lib, s)
    case Set(key) =>
      assert entries[key := s][key := s] == entries[key := s];
    case Skip =>
    case Throw(e) =>
  }

  /** Attaching keeps every entry filed under its own hash. */
  lemma AttachKeepsRegistered(lib: Library, entries: map<ScriptHash, Script>, s: Script)
    requires Registered(lib, entries)
    requires Attached(lib, entries, s).Success?
    ensures Registered(lib, Attached(lib, entries, s).value)
  {
  }

  /** Re-attaching a script the registry already holds is a no-op overwrite. */
  lemma ReattachIsNoop(lib: Library, entries: map<ScriptHash, Script>, key: ScriptHash)
    requires Registered(lib, entries)
    requires key in entries
    ensures Attached(lib, entries, entries[key]) == Success(entries)
  {
    assert Dispatch(lib, entries[key]) == Set(key);
    assert entries[key := entries[key]] == entries;
  }

  /**
   * Two attaches whose keys differ commute, and the map afterwards holds both scripts
   * under their keys.
   */
  lemma AttachesCommute(lib: Library, entries: map<ScriptHash, Script>, a: Script, b: Script)
    requires Dispatch(lib, a).Set? && Dispatch(lib, b).Set?
    requires Dispatch(lib, a).key != Dispatch(lib, b).key
    ensures AttachChain(lib, entries, [a, b]) == AttachChain(lib, entries, [b, a])
    ensures AttachChain(lib, entries, [a, b]).error == None
    ensures AttachChain(lib, entries, [a, b]).entries[Dispatch(lib, a).key] == a
    ensures AttachChain(lib, entries, [a, b]).entries[Dispatch(lib, b).key] == b
  {
    var ka, kb := Dispatch(lib, a).key, Dispatch(lib, b).key;
    UnfoldPair(lib, entries, a, b);
    UnfoldPair(lib, entries, b, a);
    assert entries[ka := a][kb := b] == entries[kb := b][ka := a];
  }

  /** Two successful attaches in a row, unfolded. */
  lemma UnfoldPair(lib: Library, entries: map<ScriptHash, Script>, a: Script, b: Script)
    requires Dispatch(lib, a).Set? && Dispatch(lib, b).Set?
    ensures AttachChain(lib, entries, [a, b])
      == Chained(entries[Dispatch(lib, a).key := a][Dispatch(lib, b).key := b], None)
  {
    var next := entries[Dispatch(lib, a).key := a];
    assert [a, b][1..] == [b];
    assert AttachChain(lib, entries, [a, b]) == AttachChain(lib, next, [b]);
    assert [b][1..] == [];
  }

  /**
   * Assuming `applyDoubleCborEncoding` is idempotent on this script's hex, attaching the
   * already double-encoded hex picks the same key (or the same failure) as attaching the
   * raw hex; the entry then holds the form that was supplied.
   */
  lemma EncodedFormSameKey(lib: Library, entries: map<ScriptHash, Script>, s: Script)
    requires s.kind == "PlutusV1" || s.kind == "PlutusV2"
    requires lib.applyDoubleCborEncoding(lib.applyDoubleCborEncoding(s.script))
          == lib.applyDoubleCborEncoding(s.script)
    ensures Dispatch(lib, Script(s.kind, lib.applyDoubleCborEncoding(s.script))) == Dispatch(lib, s)
    ensures Dispatch(lib, s).Set? ==>
      Attached(lib, entries, Script(s.kind, lib.applyDoubleCborEncoding(s.script))).value[Dispatch(lib, s).key]
        == Script(s.kind, lib.applyDoubleCborEncoding(s.script))
  {
  }

  /** A chain of attaches splits at any point into two chains. */
  lemma {:induction false} ChainAppend(
    lib: Library, entries: map<ScriptHash, Script>, xs: seq<Script>, ys: seq<Script>)
    ensures AttachChain(lib, entries, xs + ys) ==
      if AttachChain(lib, entries, xs).error.Some? then AttachChain(lib, entries, xs)
      else AttachChain(lib, AttachChain(lib, entries, xs).entries, ys)
    decreases |xs|
  {
    if xs == [] {
      assert xs + ys == ys;
    } else {
      assert (xs + ys)[0] == xs[0];
      assert (xs + ys)[1..] == xs[1..] + ys;
      match Attached(lib, entries, xs[0])
      case Failure(e) =>
      case Success(next) => ChainAppend(lib, next, xs[1..], ys);
    }
  }

  /** A chain keeps every entry filed under its own hash, even when it stops early. */
  lemma {:induction false} ChainKeepsRegistered(
    lib: Library, entries: map<ScriptHash, Script>, ss: seq<Script>)
    requires Registered(lib, entries)
    ensures Registered(lib, AttachChain(lib, entries, ss).entries)
    decreases |ss|
  {
    if ss != [] {
      match Attached(lib, entries, ss[0])
      case Failure(e) =>
      case Success(next) =>
        AttachKeepsRegistered(lib, entries, ss[0]);
        ChainKeepsRegistered(lib, next, ss[1..]);
    }
  }

  /**
   * An exception part-way through a chain keeps the entries written before it: the
   * earlier calls have already mutated the shared map.
   */
  lemma {:induction false} ChainFailureKeepsPrefix(
    lib: Library, entries: map<ScriptHash, Script>, xs: seq<Script>, bad: Script, ys: seq<Script>)
    requires AttachChain(lib, entries, xs).error.None?
    requires Dispatch(lib, bad).Throw?
    ensures AttachChain(lib, entries, xs + [bad] + ys)
      == Chained(AttachChain(lib, entries, xs).entries, Some(Dispatch(lib, bad).error))
  {
    ChainAppend(lib, entries, xs, [bad] + ys);
    assert xs + [bad] + ys == xs + ([bad] + ys);
    assert ([bad] + ys)[0] == bad;
  }

  /**
   * From an empty map: attach a Native script, then a PlutusV2 script with a different
   * hash, then the Native script again; the map ends with exactly those two entries.
   */
  lemma NativeThenPlutusScenario(lib: Library, n: Script, p: Script)
    requires n.kind == "Native" && p.kind == "PlutusV2"
    requires Dispatch(lib, n).Set? && Dispatch(lib, p).Set?
    requires Dispatch(lib, n).key != Dispatch(lib, p).key
    ensures AttachChain(lib, map[], [n, p, n])
      == Chained(map[Dispatch(lib, n).key := n, Dispatch(lib, p).key := p], None)
    ensures |AttachChain(lib, map[], [n, p, n]).entries| == 2
  {
    var kn, kp := Dispatch(lib, n).key, Dispatch(lib, p).key;
    var two: map<ScriptHash, Script> := map[kn := n, kp := p];
    UnfoldPair(lib, map[], n, p);
    ChainAppend(lib, map[], [n, p], [n]);
    assert [n, p] + [n] == [n, p, n];
    assert [n][1..] == [];
    assert two[kn := n] == two;
    assert two.Keys == {kn, kp};
  }
}
