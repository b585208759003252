/**
 * Producing a scriptSig for one output script: the signature cache
 * (GetPubKey, CreateSig), the single-script step (SignStep), the
 * stack encoding (PushAll) and the driver (ProduceSignature).
 */
module Sign {
  import opened Script
  import opened Externals
  import opened Signatures

  // ---------------------------------------------------------------------
  // Lookups

  /**
   * GetCScript: the provider's script for `scriptId`, or else the redeem
   * script already held in the SignatureData when its id is `scriptId`.
   */
  function GetCScript(env: Env, provider: Provider, redeemScript: Script, scriptId: ScriptId): (r: Option<Script>)
    ensures r.None? <==> provider.getCScript(scriptId).None? && env.hash160(redeemScript) != scriptId
    ensures provider.getCScript(scriptId).Some? ==> r == provider.getCScript(scriptId)
    ensures r.Some? && provider.getCScript(scriptId).None? ==> r.value == redeemScript && env.hash160(r.value) == scriptId
  {
    match provider.getCScript(scriptId)
    case Some(s) => Some(s)
    case None => if env.hash160(redeemScript) == scriptId then Some(redeemScript) else None
  }

  /** The public key GetPubKey finds: provider, then partial signatures, then known public keys. */
  function LookupPubKey(provider: Provider, sigs: map<KeyId, SigPair>, misc: map<KeyId, PubKey>, address: KeyId): Option<PubKey>
  {
    match provider.getPubKey(address)
    case Some(p) => Some(p)
    case None =>
      if address in sigs then Some(sigs[address].pubkey)
      else if address in misc then Some(misc[address])
      else None
  }

  /** The known public keys after a GetPubKey: a key the provider returns is recorded under its own id. */
  function MiscAfterLookup(env: Env, provider: Provider, misc: map<KeyId, PubKey>, address: KeyId): map<KeyId, PubKey>
  {
    match provider.getPubKey(address)
    case Some(p) => Emplace(misc, env.hash160(p), p)
    case None => misc
  }

  method GetPubKey(env: Env, provider: Provider, sigdata: SignatureData, address: KeyId) returns (found: bool, pubkey: PubKey)
    modifies sigdata
    ensures found == LookupPubKey(provider, old(sigdata.signatures), old(sigdata.miscPubkeys), address).Some?
    ensures found ==> pubkey == LookupPubKey(provider, old(sigdata.signatures), old(sigdata.miscPubkeys), address).value
    ensures !found ==> pubkey == []
    ensures sigdata.View() == old(sigdata.View()).(miscPubkeys := MiscAfterLookup(env, provider, old(sigdata.miscPubkeys), address))
    ensures Extends(old(sigdata.miscPubkeys), sigdata.miscPubkeys)
  {
    match provider.getPubKey(address) {
      case Some(p) =>
        sigdata.miscPubkeys := Emplace(sigdata.miscPubkeys, env.hash160(p), p);
        return true, p;
      case None =>
    }
    if address in sigdata.signatures {
      return true, sigdata.signatures[address].pubkey;
    }
    if address in sigdata.miscPubkeys {
      return true, sigdata.miscPubkeys[address];
    }
    return false, [];
  }

  // ---------------------------------------------------------------------
  // The signature cache

  /** The signature CreateSig yields for `id`: the cached one, or else the creator's. */
  function SigFor(creator: Creator, sigs: map<KeyId, SigPair>, code: Script, id: KeyId): Option<Bytes>
  {
    if id in sigs then Some(sigs[id].sig) else creator.createSig(id, code)
  }

  /**
   * `sigs` is `sigs0` plus entries the creator made for `code`: nothing
   * cached is overwritten, and every new signature is the creator's.
   */
  ghost predicate Cached(creator: Creator, code: Script, sigs0: map<KeyId, SigPair>, sigs: map<KeyId, SigPair>) {
    && Extends(sigs0, sigs)
    && forall k :: k in sigs && k !in sigs0 ==> creator.createSig(k, code) == Some(sigs[k].sig)
  }

  /** Every key id new in `sigs` is one of `ids`. */
  ghost predicate NewKeysWithin(sigs0: map<KeyId, SigPair>, sigs: map<KeyId, SigPair>, ids: set<KeyId>) {
    forall k :: k in sigs && k !in sigs0 ==> k in ids
  }

  /** Every id in `ids` that can be signed for `code` holds its signature in `sigs`. */
  ghost predicate StoredFor(creator: Creator, code: Script, sigs0: map<KeyId, SigPair>, sigs: map<KeyId, SigPair>, ids: set<KeyId>) {
    forall k :: k in ids && SigFor(creator, sigs0, code, k).Some? ==>
      k in sigs && sigs[k].sig == SigFor(creator, sigs0, code, k).value
  }

  /**
   * `misc` is `misc0` plus public keys the provider returned for ids in
   * `ids`, each recorded under its own id.
   */
  ghost predicate MiscFromProvider(provider: Provider, hash: Bytes -> Bytes, ids: set<KeyId>,
                                   misc0: map<KeyId, PubKey>, misc: map<KeyId, PubKey>) {
    && Extends(misc0, misc)
    && forall k :: k in misc && k !in misc0 ==>
         hash(misc[k]) == k && exists a :: a in ids && provider.getPubKey(a) == Some(misc[k])
  }

  /**
   * The public key CreateSig records with a fresh signature for `k`, as
   * GetPubKey finds it: the provider's key; else the key known beforehand
   * (`misc0`); else no key, or one that became known under `k` during the
   * same signing step (and is still known in `misc`).
   */
  ghost predicate PubKeyFound(provider: Provider, misc0: map<KeyId, PubKey>, misc: map<KeyId, PubKey>, k: KeyId, pubkey: PubKey) {
    match provider.getPubKey(k)
    case Some(p) => pubkey == p
    case None =>
      if k in misc0 then pubkey == misc0[k]
      else pubkey == [] || (k in misc && pubkey == misc[k])
  }

  /** Every entry new in `sigs` records the public key GetPubKey finds for its id. */
  ghost predicate PubKeysFor(provider: Provider, misc0: map<KeyId, PubKey>, misc: map<KeyId, PubKey>,
                             sigs0: map<KeyId, SigPair>, sigs: map<KeyId, SigPair>) {
    forall k :: k in sigs && k !in sigs0 ==> PubKeyFound(provider, misc0, misc, k, sigs[k].pubkey)
  }

  /** For every id of `ids` not cached in `sigs0`, the provider's key, if any, is known under its own id. */
  ghost predicate ProviderKeysKnown(provider: Provider, hash: Bytes -> Bytes, sigs0: map<KeyId, SigPair>, ids: set<KeyId>,
                                    misc: map<KeyId, PubKey>) {
    forall a :: a in ids && a !in sigs0 && provider.getPubKey(a).Some? ==> hash(provider.getPubKey(a).value) in misc
  }

  /** Two rounds of CreateSig calls compose: the recorded public keys and known provider keys over both. */
  lemma KeysRecordedTrans(provider: Provider, hash: Bytes -> Bytes, ids1: set<KeyId>, ids2: set<KeyId>,
                          sigs0: map<KeyId, SigPair>, sigs1: map<KeyId, SigPair>, sigs2: map<KeyId, SigPair>,
                          misc0: map<KeyId, PubKey>, misc1: map<KeyId, PubKey>, misc2: map<KeyId, PubKey>)
    requires Extends(sigs0, sigs1) && Extends(sigs1, sigs2) && NewKeysWithin(sigs0, sigs1, ids1)
    requires Extends(misc0, misc1) && Extends(misc1, misc2)
    requires PubKeysFor(provider, misc0, misc1, sigs0, sigs1) && PubKeysFor(provider, misc1, misc2, sigs1, sigs2)
    requires ProviderKeysKnown(provider, hash, sigs0, ids1, misc1) && ProviderKeysKnown(provider, hash, sigs1, ids2, misc2)
    ensures PubKeysFor(provider, misc0, misc2, sigs0, sigs2)
    ensures ProviderKeysKnown(provider, hash, sigs0, ids1 + ids2, misc2)
  {
    forall k | k in sigs2 && k !in sigs0
      ensures PubKeyFound(provider, misc0, misc2, k, sigs2[k].pubkey)
    {
      if k in sigs1 {
        assert PubKeyFound(provider, misc0, misc1, k, sigs1[k].pubkey);
      } else {
        assert PubKeyFound(provider, misc1, misc2, k, sigs2[k].pubkey);
      }
    }
    forall a | a in ids1 + ids2 && a !in sigs0 && provider.getPubKey(a).Some?
      ensures hash(provider.getPubKey(a).value) in misc2
    {
      if a in ids1 || a in sigs1 {
        assert hash(provider.getPubKey(a).value) in misc1;
      }
    }
  }

  /** Two rounds of provider lookups compose into one over both id sets. */
  lemma MiscFromProviderTrans(provider: Provider, hash: Bytes -> Bytes, ids1: set<KeyId>, ids2: set<KeyId>,
                              misc0: map<KeyId, PubKey>, misc1: map<KeyId, PubKey>, misc2: map<KeyId, PubKey>)
    requires MiscFromProvider(provider, hash, ids1, misc0, misc1)
    requires MiscFromProvider(provider, hash, ids2, misc1, misc2)
    ensures MiscFromProvider(provider, hash, ids1 + ids2, misc0, misc2)
  {
    forall k | k in misc2 && k !in misc0
      ensures hash(misc2[k]) == k && exists a :: a in ids1 + ids2 && provider.getPubKey(a) == Some(misc2[k])
    {
      if k in misc1 {
        var a :| a in ids1 && provider.getPubKey(a) == Some(misc1[k]);
        assert a in ids1 + ids2;
      } else {
        var a :| a in ids2 && provider.getPubKey(a) == Some(misc2[k]);
        assert a in ids1 + ids2;
      }
    }
  }

  /** Adding creator-made entries to the cache does not change the signature any key id gets. */
  lemma CachedSigForStable(creator: Creator, code: Script, sigs0: map<KeyId, SigPair>, sigs: map<KeyId, SigPair>, id: KeyId)
    requires Cached(creator, code, sigs0, sigs)
    ensures SigFor(creator, sigs, code, id) == SigFor(creator, sigs0, code, id)
  {
  }

  /**
   * CreateSig: a cached signature is returned without calling the creator
   * and nothing changes; otherwise the public key is looked up and, when
   * the creator succeeds, exactly one fresh entry is added.
   */
  method CreateSig(sg: Signing, sigdata: SignatureData, keyid: KeyId, scriptCode: Script) returns (ok: bool, sig: Bytes)
    modifies sigdata
    ensures ok == SigFor(sg.creator, old(sigdata.signatures), scriptCode, keyid).Some?
    ensures ok ==> sig == SigFor(sg.creator, old(sigdata.signatures), scriptCode, keyid).value
    ensures keyid in old(sigdata.signatures) ==> sigdata.View() == old(sigdata.View())
    ensures keyid !in old(sigdata.signatures) ==>
      var found := LookupPubKey(sg.provider, old(sigdata.signatures), old(sigdata.miscPubkeys), keyid);
      && sigdata.miscPubkeys == MiscAfterLookup(sg.env, sg.provider, old(sigdata.miscPubkeys), keyid)
      && sigdata.signatures == (if ok then old(sigdata.signatures)[keyid := SigPair(if found.Some? then found.value else [], sig)]
                                else old(sigdata.signatures))
    ensures sigdata.complete == old(sigdata.complete) && sigdata.scriptSig == old(sigdata.scriptSig)
    ensures sigdata.redeemScript == old(sigdata.redeemScript)
    ensures Cached(sg.creator, scriptCode, old(sigdata.signatures), sigdata.signatures)
    ensures NewKeysWithin(old(sigdata.signatures), sigdata.signatures, {keyid})
    ensures ok ==> keyid in sigdata.signatures && sigdata.signatures[keyid].sig == sig
    ensures MiscFromProvider(sg.provider, sg.env.hash160, {keyid}, old(sigdata.miscPubkeys), sigdata.miscPubkeys)
    ensures PubKeysFor(sg.provider, old(sigdata.miscPubkeys), sigdata.miscPubkeys, old(sigdata.signatures), sigdata.signatures)
    ensures ProviderKeysKnown(sg.provider, sg.env.hash160, old(sigdata.signatures), {keyid}, sigdata.miscPubkeys)
  {
    if keyid in sigdata.signatures {
      return true, sigdata.signatures[keyid].sig;
    }
    var _, pubkey := GetPubKey(sg.env, sg.provider, sigdata, keyid);
    match sg.creator.createSig(keyid, scriptCode) {
      case Some(s) =>
        assert keyid !in sigdata.signatures;
        sigdata.signatures := sigdata.signatures[keyid := SigPair(pubkey, s)];
        return true, s;
      case None =>
        return false, [];
    }
  }

  // ---------------------------------------------------------------------
  // Multisig collection

  /**
   * The signatures the multisig loop of SignStep collects from keys[from..]
   * while fewer than `need` are held, each with the index of its key.
   */
  function Collect(creator: Creator, hash: Bytes -> Bytes, sigs: map<KeyId, SigPair>, code: Script,
                   keys: seq<PubKey>, need: nat, from: nat): (r: seq<(nat, Bytes)>)
    ensures |r| <= need
    decreases |keys| - from
  {
    if from >= |keys| || need == 0 then []
    else match SigFor(creator, sigs, code, hash(keys[from]))
      case Some(s) => [(from, s)] + Collect(creator, hash, sigs, code, keys, need - 1, from + 1)
      case None => Collect(creator, hash, sigs, code, keys, need, from + 1)
  }

  /**
   * Every picked signature is the one SigFor gives the key at its index,
   * an index at or after `from`, and the indices strictly increase.
   */
  ghost predicate InKeyOrder(creator: Creator, hash: Bytes -> Bytes, sigs: map<KeyId, SigPair>, code: Script,
                             keys: seq<PubKey>, from: nat, picked: seq<(nat, Bytes)>)
  {
    && (forall j :: 0 <= j < |picked| ==>
          from <= picked[j].0 < |keys| && SigFor(creator, sigs, code, hash(keys[picked[j].0])) == Some(picked[j].1))
    && (forall j, l :: 0 <= j < l < |picked| ==> picked[j].0 < picked[l].0)
  }

  /** The collected signatures are real signatures of their keys, taken in key order. */
  lemma {:induction false} CollectInKeyOrder(creator: Creator, hash: Bytes -> Bytes, sigs: map<KeyId, SigPair>, code: Script,
                                             keys: seq<PubKey>, need: nat, from: nat)
    ensures InKeyOrder(creator, hash, sigs, code, keys, from, Collect(creator, hash, sigs, code, keys, need, from))
    decreases |keys| - from
  {
    if from < |keys| && need > 0 {
      var r := Collect(creator, hash, sigs, code, keys, need, from);
      var first := SigFor(creator, sigs, code, hash(keys[from]));
      var need' := if first.Some? then need - 1 else need;
      var rest := Collect(creator, hash, sigs, code, keys, need', from + 1);
      CollectInKeyOrder(creator, hash, sigs, code, keys, need', from + 1);
      if first.Some? {
        assert r == [(from, first.value)] + rest;
      } else {
        assert r == rest;
      }
    }
  }

  /** No key in keys[lo..hi] can sign. */
  ghost predicate NoSignerIn(creator: Creator, hash: Bytes -> Bytes, sigs: map<KeyId, SigPair>, code: Script,
                             keys: seq<PubKey>, lo: nat, hi: nat)
  {
    forall q :: lo <= q < hi && q < |keys| ==> SigFor(creator, sigs, code, hash(keys[q])).None?
  }

  /**
   * The loop skips only keys that cannot sign: none before the first
   * collected key, and none between two consecutive collected keys.
   */
  ghost predicate SkipsOnlyNonSigners(creator: Creator, hash: Bytes -> Bytes, sigs: map<KeyId, SigPair>, code: Script,
                                      keys: seq<PubKey>, from: nat, picked: seq<(nat, Bytes)>)
  {
    && (|picked| > 0 ==> NoSignerIn(creator, hash, sigs, code, keys, from, picked[0].0))
    && (forall t :: 0 <= t < |picked| - 1 ==> NoSignerIn(creator, hash, sigs, code, keys, picked[t].0 + 1, picked[t + 1].0))
  }

  lemma {:induction false} CollectGaps(creator: Creator, hash: Bytes -> Bytes, sigs: map<KeyId, SigPair>, code: Script,
                                       keys: seq<PubKey>, need: nat, from: nat)
    ensures SkipsOnlyNonSigners(creator, hash, sigs, code, keys, from, Collect(creator, hash, sigs, code, keys, need, from))
    decreases |keys| - from
  {
    if from < |keys| && need > 0 {
      var picked := Collect(creator, hash, sigs, code, keys, need, from);
      var first := SigFor(creator, sigs, code, hash(keys[from]));
      var need' := if first.Some? then need - 1 else need;
      var rest := Collect(creator, hash, sigs, code, keys, need', from + 1);
      CollectGaps(creator, hash, sigs, code, keys, need', from + 1);
      assert SkipsOnlyNonSigners(creator, hash, sigs, code, keys, from + 1, rest);
      if first.Some? {
        assert picked == [(from, first.value)] + rest;
        forall t | 0 <= t < |picked| - 1
          ensures NoSignerIn(creator, hash, sigs, code, keys, picked[t].0 + 1, picked[t + 1].0)
        {
          if t == 0 {
            assert picked[0].0 == from && picked[1] == rest[0];
          } else {
            assert picked[t] == rest[t - 1] && picked[t + 1] == rest[t];
          }
        }
      } else {
        assert picked == rest;
        if |rest| > 0 {
          forall q | from <= q < rest[0].0 && q < |keys|
            ensures SigFor(creator, sigs, code, hash(keys[q])).None?
          {
          }
        }
      }
    }
  }

  /** The index just past the last key the multisig loop tries to sign with. */
  function Scanned(creator: Creator, hash: Bytes -> Bytes, sigs: map<KeyId, SigPair>, code: Script,
                   keys: seq<PubKey>, need: nat, from: nat): (r: nat)
    requires from <= |keys|
    ensures from <= r <= |keys|
    ensures need > 0 && from < |keys| ==> from < r
    decreases |keys| - from
  {
    if from == |keys| || need == 0 then from
    else match SigFor(creator, sigs, code, hash(keys[from]))
      case Some(_) => Scanned(creator, hash, sigs, code, keys, need - 1, from + 1)
      case None => Scanned(creator, hash, sigs, code, keys, need, from + 1)
  }

  /** The key indices a collection picked. */
  function PickedIndices(picked: seq<(nat, Bytes)>): set<nat> {
    set j | 0 <= j < |picked| :: picked[j].0
  }

  /** When fewer than `need` signatures are collected, no key that could sign was passed over. */
  lemma {:induction false} CollectShortMeansNoOtherSigner(creator: Creator, hash: Bytes -> Bytes, sigs: map<KeyId, SigPair>,
                                                           code: Script, keys: seq<PubKey>, need: nat, from: nat, i: nat)
    requires from <= i < |keys|
    requires |Collect(creator, hash, sigs, code, keys, need, from)| < need
    requires SigFor(creator, sigs, code, hash(keys[i])).Some?
    ensures i in PickedIndices(Collect(creator, hash, sigs, code, keys, need, from))
    decreases |keys| - from
  {
    var r := Collect(creator, hash, sigs, code, keys, need, from);
    var first := SigFor(creator, sigs, code, hash(keys[from]));
    var need' := if first.Some? then need - 1 else need;
    var rest := Collect(creator, hash, sigs, code, keys, need', from + 1);
    assert r == (if first.Some? then [(from, first.value)] + rest else rest);
    if i == from {
      assert r[0].0 == i;
    } else {
      CollectShortMeansNoOtherSigner(creator, hash, sigs, code, keys, need', from + 1, i);
      var j :| 0 <= j < |rest| && rest[j].0 == i;
      if first.Some? {
        assert r[j + 1].0 == i;
      } else {
        assert r[j].0 == i;
      }
    }
  }

  /** When every key can sign, the loop collects min(need, number of keys) signatures. */
  lemma {:induction false} CollectAllSigners(creator: Creator, hash: Bytes -> Bytes, sigs: map<KeyId, SigPair>,
                                             code: Script, keys: seq<PubKey>, need: nat, from: nat)
    requires from <= |keys|
    requires forall i :: from <= i < |keys| ==> SigFor(creator, sigs, code, hash(keys[i])).Some?
    ensures |Collect(creator, hash, sigs, code, keys, need, from)| == if need <= |keys| - from then need else |keys| - from
    decreases |keys| - from
  {
    if from < |keys| && need > 0 {
      CollectAllSigners(creator, hash, sigs, code, keys, need - 1, from + 1);
    }
  }

  /** Ids of keys[..n]. */
  function IdsBefore(hash: Bytes -> Bytes, keys: seq<PubKey>, n: nat): set<KeyId> {
    set j | 0 <= j < n && j < |keys| :: hash(keys[j])
  }

  /** The keys of a multisig solution vector [m] ++ keys ++ [n]. */
  function MultisigKeys(solutions: seq<Bytes>): seq<PubKey>
    requires |solutions| >= 2
  {
    solutions[1..|solutions| - 1]
  }

  /**
   * The multisig candidate stack: an empty item first, the collected
   * signatures in key order, then empty items up to required + 1 in all.
   */
  function MultisigStack(picked: seq<(nat, Bytes)>, required: nat): (r: seq<Bytes>)
    requires |picked| <= required
    ensures |r| == required + 1 && r[0] == []
    ensures forall j :: 0 <= j < |picked| ==> r[j + 1] == picked[j].1
    ensures forall j :: |picked| < j <= required ==> r[j] == []
  {
    seq(required + 1, j requires 0 <= j <= required => if 1 <= j <= |picked| then picked[j - 1].1 else [])
  }

  // ---------------------------------------------------------------------
  // SignStep

  datatype StepResult = StepResult(solved: bool, typ: TxOutType, stack: seq<Bytes>)

  /** The bytes ToByteVector gives for an optional public key (the default key is empty). */
  function PubKeyBytes(p: Option<PubKey>): Bytes {
    match p
    case Some(k) => k
    case None => []
  }

  /**
   * What SignStep computes for `script`, given the signature cache and the
   * redeem script held in the SignatureData before the call.
   */
  function StepSpec(sg: Signing, script: Script, sigs: map<KeyId, SigPair>, redeem: Script): (r: StepResult)
    requires sg.env.Valid()
    ensures r.typ == sg.env.solver(script).typ
    ensures !sg.env.solver(script).ok ==> !r.solved && r.stack == []
    ensures r.typ == TxNonstandard || r.typ == TxNullData ==> !r.solved && r.stack == []
    ensures !r.solved && r.typ != TxMultisig ==> r.stack == []
    ensures r.typ == TxPubKey && sg.env.solver(script).ok ==>
      var sig := SigFor(sg.creator, sigs, script, sg.env.hash160(sg.env.solver(script).solutions[0]));
      (r.solved <==> sig.Some?) && (r.solved ==> r.stack == [sig.value])
    ensures r.typ == TxPubKeyHash && sg.env.solver(script).ok ==>
      var id := sg.env.solver(script).solutions[0];
      var sig := SigFor(sg.creator, sigs, script, id);
      (r.solved <==> sig.Some?) && (r.solved ==> r.stack == [sig.value, PubKeyBytes(sg.provider.getPubKey(id))])
    ensures r.typ == TxScriptHash ==>
      (r.solved <==> sg.env.solver(script).ok && GetCScript(sg.env, sg.provider, redeem, sg.env.solver(script).solutions[0]).Some?)
    ensures r.solved && r.typ == TxScriptHash ==>
      r.stack == [GetCScript(sg.env, sg.provider, redeem, sg.env.solver(script).solutions[0]).value]
    ensures r.typ == TxMultisig && sg.env.solver(script).ok ==>
      var required: nat := sg.env.solver(script).solutions[0][0];
      var picked := Collect(sg.creator, sg.env.hash160, sigs, script, MultisigKeys(sg.env.solver(script).solutions), required, 0);
      && |r.stack| == required + 1
      && r.stack[0] == []
      && (r.solved <==> |picked| == required)
      && (forall j :: 0 <= j < |picked| ==> r.stack[j + 1] == picked[j].1)
  {
    var sol := sg.env.solver(script);
    assert WellShaped(sol);
    if !sol.ok then StepResult(false, sol.typ, [])
    else match sol.typ
      case TxNonstandard => StepResult(false, sol.typ, [])
      case TxNullData => StepResult(false, sol.typ, [])
      case TxPubKey =>
        (match SigFor(sg.creator, sigs, script, sg.env.hash160(sol.solutions[0]))
         case Some(s) => StepResult(true, TxPubKey, [s])
         case None => StepResult(false, TxPubKey, []))
      case TxPubKeyHash =>
        var id := sol.solutions[0];
        (match SigFor(sg.creator, sigs, script, id)
         case Some(s) => StepResult(true, TxPubKeyHash, [s, PubKeyBytes(sg.provider.getPubKey(id))])
         case None => StepResult(false, TxPubKeyHash, []))
      case TxScriptHash =>
        (match GetCScript(sg.env, sg.provider, redeem, sol.solutions[0])
         case Some(sc) => StepResult(true, TxScriptHash, [sc])
         case None => StepResult(false, TxScriptHash, []))
      case TxMultisig =>
        var required := sol.solutions[0][0];
        var picked := Collect(sg.creator, sg.env.hash160, sigs, script, MultisigKeys(sol.solutions), required, 0);
        StepResult(|picked| == required, TxMultisig, MultisigStack(picked, required))
  }

  /** The key ids SignStep may ask the creator to sign for. */
  function StepAttempted(sg: Signing, script: Script, sigs: map<KeyId, SigPair>): set<KeyId>
    requires sg.env.Valid()
  {
    var sol := sg.env.solver(script);
    assert WellShaped(sol);
    if !sol.ok then {}
    else match sol.typ
      case TxPubKey => {sg.env.hash160(sol.solutions[0])}
      case TxPubKeyHash => {sol.solutions[0]}
      case TxMultisig =>
        var keys := MultisigKeys(sol.solutions);
        IdsBefore(sg.env.hash160, keys, Scanned(sg.creator, sg.env.hash160, sigs, script, keys, sol.solutions[0][0], 0))
      case _ => {}
  }

  method SignStep(sg: Signing, script: Script, sigdata: SignatureData) returns (solved: bool, whichType: TxOutType, ret: seq<Bytes>)
    requires sg.env.Valid()
    modifies sigdata
    ensures StepResult(solved, whichType, ret) == StepSpec(sg, script, old(sigdata.signatures), old(sigdata.redeemScript))
    ensures Cached(sg.creator, script, old(sigdata.signatures), sigdata.signatures)
    ensures NewKeysWithin(old(sigdata.signatures), sigdata.signatures, StepAttempted(sg, script, old(sigdata.signatures)))
    ensures StoredFor(sg.creator, script, old(sigdata.signatures), sigdata.signatures, StepAttempted(sg, script, old(sigdata.signatures)))
    ensures MiscFromProvider(sg.provider, sg.env.hash160, StepAttempted(sg, script, old(sigdata.signatures)),
                             old(sigdata.miscPubkeys), sigdata.miscPubkeys)
    ensures PubKeysFor(sg.provider, old(sigdata.miscPubkeys), sigdata.miscPubkeys, old(sigdata.signatures), sigdata.signatures)
    ensures ProviderKeysKnown(sg.provider, sg.env.hash160, old(sigdata.signatures), StepAttempted(sg, script, old(sigdata.signatures)),
                              sigdata.miscPubkeys)
    ensures sigdata.complete == old(sigdata.complete) && sigdata.scriptSig == old(sigdata.scriptSig)
    ensures sigdata.redeemScript == old(sigdata.redeemScript)
  {
    var sol := sg.env.solver(script);
    whichType := sol.typ;
    assert WellShaped(sol);
    if !sol.ok {
      return false, whichType, [];
    }
    match whichType {
      case TxNonstandard =>
        return false, whichType, [];
      case TxNullData =>
        return false, whichType, [];
      case TxPubKey =>
        var ok, sig := CreateSig(sg, sigdata, sg.env.hash160(sol.solutions[0]), script);
        if !ok {
          return false, whichType, [];
        }
        return true, whichType, [sig];
      case TxPubKeyHash =>
        var keyId := sol.solutions[0];
        var ok, sig := CreateSig(sg, sigdata, keyId, script);
        if !ok {
          return false, whichType, [];
        }
        return true, whichType, [sig, PubKeyBytes(sg.provider.getPubKey(keyId))];
      case TxScriptHash =>
        match GetCScript(sg.env, sg.provider, sigdata.redeemScript, sol.solutions[0]) {
          case Some(sc) => return true, whichType, [sc];
          case None => return false, whichType, [];
        }
      case TxMultisig =>
        ret, solved := SignMultisig(sg, script, sol.solutions, sigdata);
    }
  }

  /** One step of Collect and Scanned. */
  lemma CollectStep(creator: Creator, hash: Bytes -> Bytes, sigs: map<KeyId, SigPair>, code: Script,
                    keys: seq<PubKey>, need: nat, i: nat)
    requires i < |keys|
    ensures need == 0 ==> Collect(creator, hash, sigs, code, keys, need, i) == []
                          && Scanned(creator, hash, sigs, code, keys, need, i) == i
    ensures need > 0 && SigFor(creator, sigs, code, hash(keys[i])).Some? ==>
      && Collect(creator, hash, sigs, code, keys, need, i)
         == [(i, SigFor(creator, sigs, code, hash(keys[i])).value)] + Collect(creator, hash, sigs, code, keys, need - 1, i + 1)
      && Scanned(creator, hash, sigs, code, keys, need, i) == Scanned(creator, hash, sigs, code, keys, need - 1, i + 1)
    ensures need > 0 && SigFor(creator, sigs, code, hash(keys[i])).None? ==>
      && Collect(creator, hash, sigs, code, keys, need, i) == Collect(creator, hash, sigs, code, keys, need, i + 1)
      && Scanned(creator, hash, sigs, code, keys, need, i) == Scanned(creator, hash, sigs, code, keys, need, i + 1)
  {
  }

  /** CreateSig as the multisig loop uses it: its effect measured from the cache at the start of the step. */
  method SignKey(sg: Signing, sigdata: SignatureData, keyid: KeyId, script: Script,
                 ghost sigs0: map<KeyId, SigPair>, ghost ids: set<KeyId>) returns (ok: bool, sig: Bytes)
    requires Cached(sg.creator, script, sigs0, sigdata.signatures)
    requires NewKeysWithin(sigs0, sigdata.signatures, ids)
    requires StoredFor(sg.creator, script, sigs0, sigdata.signatures, ids)
    modifies sigdata
    ensures ok == SigFor(sg.creator, sigs0, script, keyid).Some?
    ensures ok ==> sig == SigFor(sg.creator, sigs0, script, keyid).value
    ensures ok ==> keyid in sigdata.signatures && sigdata.signatures[keyid].sig == sig
    ensures Cached(sg.creator, script, sigs0, sigdata.signatures)
    ensures NewKeysWithin(sigs0, sigdata.signatures, ids + {keyid})
    ensures StoredFor(sg.creator, script, sigs0, sigdata.signatures, ids + {keyid})
    ensures MiscFromProvider(sg.provider, sg.env.hash160, {keyid}, old(sigdata.miscPubkeys), sigdata.miscPubkeys)
    ensures PubKeysFor(sg.provider, old(sigdata.miscPubkeys), sigdata.miscPubkeys, old(sigdata.signatures), sigdata.signatures)
    ensures ProviderKeysKnown(sg.provider, sg.env.hash160, old(sigdata.signatures), {keyid}, sigdata.miscPubkeys)
    ensures Extends(old(sigdata.signatures), sigdata.signatures)
    ensures sigdata.complete == old(sigdata.complete) && sigdata.scriptSig == old(sigdata.scriptSig)
    ensures sigdata.redeemScript == old(sigdata.redeemScript)
  {
    CachedSigForStable(sg.creator, script, sigs0, sigdata.signatures, keyid);
    ok, sig := CreateSig(sg, sigdata, keyid, script);
  }

  /** How many keys the multisig loop has tried once it has looked at keys[..i]. */
  ghost function TriedUpTo(sg: Signing, script: Script, keys: seq<PubKey>, required: nat, sigs0: map<KeyId, SigPair>, i: nat): nat {
    var scanned := Scanned(sg.creator, sg.env.hash160, sigs0, script, keys, required, 0);
    if i < scanned then i else scanned
  }

  /** What the multisig loop of SignStep has established after looking at keys[..i]. */
  ghost predicate ScanInv(sg: Signing, script: Script, keys: seq<PubKey>, required: nat, i: nat,
                          sigs0: map<KeyId, SigPair>, sigs: map<KeyId, SigPair>, ret: seq<Bytes>, acc: seq<(nat, Bytes)>)
  {
    && ScanProgress(sg, script, keys, required, i, sigs0, ret, acc)
    && ScanCache(sg, script, keys, required, i, sigs0, sigs)
  }

  /** The signatures gathered so far are the first ones Collect picks. */
  ghost predicate ScanProgress(sg: Signing, script: Script, keys: seq<PubKey>, required: nat, i: nat,
                               sigs0: map<KeyId, SigPair>, ret: seq<Bytes>, acc: seq<(nat, Bytes)>)
  {
    var full := Collect(sg.creator, sg.env.hash160, sigs0, script, keys, required, 0);
    var scanned := Scanned(sg.creator, sg.env.hash160, sigs0, script, keys, required, 0);
    && i <= |keys|
    && |acc| <= required && |ret| == |acc| + 1 && ret[0] == []
    && (forall j :: 0 <= j < |acc| ==> ret[j + 1] == acc[j].1)
    && acc + Collect(sg.creator, sg.env.hash160, sigs0, script, keys, required - |acc|, i) == full
    && (|acc| < required ==> Scanned(sg.creator, sg.env.hash160, sigs0, script, keys, required - |acc|, i) == scanned)
    && (|acc| == required ==> scanned <= i)
  }

  /** The cache holds what the creator gave for every key tried so far, and nothing else new. */
  ghost predicate ScanCache(sg: Signing, script: Script, keys: seq<PubKey>, required: nat, i: nat,
                            sigs0: map<KeyId, SigPair>, sigs: map<KeyId, SigPair>)
  {
    && Cached(sg.creator, script, sigs0, sigs)
    && NewKeysWithin(sigs0, sigs, IdsBefore(sg.env.hash160, keys, TriedUpTo(sg, script, keys, required, sigs0, i)))
    && StoredFor(sg.creator, script, sigs0, sigs, IdsBefore(sg.env.hash160, keys, TriedUpTo(sg, script, keys, required, sigs0, i)))
  }

  /** While a signature is missing, the key the loop is at is one it tries. */
  lemma TriedBeforeScanned(sg: Signing, script: Script, keys: seq<PubKey>, required: nat, i: nat,
                           sigs0: map<KeyId, SigPair>, sigs: map<KeyId, SigPair>, ret: seq<Bytes>, acc: seq<(nat, Bytes)>)
    requires i < |keys| && |acc| < required
    requires ScanInv(sg, script, keys, required, i, sigs0, sigs, ret, acc)
    ensures TriedUpTo(sg, script, keys, required, sigs0, i) == i
    ensures TriedUpTo(sg, script, keys, required, sigs0, i + 1) == i + 1
    ensures IdsBefore(sg.env.hash160, keys, i) + {sg.env.hash160(keys[i])} == IdsBefore(sg.env.hash160, keys, i + 1)
  {
    CollectStep(sg.creator, sg.env.hash160, sigs0, script, keys, required - |acc|, i);
    assert IdsBefore(sg.env.hash160, keys, i) + {sg.env.hash160(keys[i])} == IdsBefore(sg.env.hash160, keys, i + 1);
  }

  /** Passing over keys[i] once `required` signatures are held keeps the loop invariant. */
  lemma ScanPassed(sg: Signing, script: Script, keys: seq<PubKey>, required: nat, i: nat,
                   sigs0: map<KeyId, SigPair>, sigs: map<KeyId, SigPair>, ret: seq<Bytes>, acc: seq<(nat, Bytes)>)
    requires i < |keys| && |acc| == required
    requires ScanInv(sg, script, keys, required, i, sigs0, sigs, ret, acc)
    ensures ScanInv(sg, script, keys, required, i + 1, sigs0, sigs, ret, acc)
    ensures TriedUpTo(sg, script, keys, required, sigs0, i + 1) == TriedUpTo(sg, script, keys, required, sigs0, i)
  {
    CollectStep(sg.creator, sg.env.hash160, sigs0, script, keys, 0, i);
  }

  /**
   * Trying keys[i] while fewer than `required` signatures are held keeps the
   * loop invariant: the signature found, if any, is the next one Collect picks.
   */
  lemma ScanTried(sg: Signing, script: Script, keys: seq<PubKey>, required: nat, i: nat,
                  sigs0: map<KeyId, SigPair>, ret: seq<Bytes>, acc: seq<(nat, Bytes)>, found: Option<Bytes>)
    requires i < |keys| && |acc| < required
    requires ScanProgress(sg, script, keys, required, i, sigs0, ret, acc)
    requires found == SigFor(sg.creator, sigs0, script, sg.env.hash160(keys[i]))
    ensures found.Some? ==> ScanProgress(sg, script, keys, required, i + 1, sigs0, ret + [found.value], acc + [(i, found.value)])
    ensures found.None? ==> ScanProgress(sg, script, keys, required, i + 1, sigs0, ret, acc)
  {
    var hash := sg.env.hash160;
    var need := required - |acc|;
    CollectStep(sg.creator, hash, sigs0, script, keys, need, i);
    if found.Some? {
      var acc' := acc + [(i, found.value)];
      assert acc' + Collect(sg.creator, hash, sigs0, script, keys, need - 1, i + 1)
          == acc + Collect(sg.creator, hash, sigs0, script, keys, need, i);
    }
  }

  /** One pass of the multisig loop: try keys[i] while fewer than `required` signatures are held. */
  method ScanKey(sg: Signing, script: Script, keys: seq<PubKey>, required: nat, i: nat, sigdata: SignatureData,
                 ret: seq<Bytes>, ghost sigs0: map<KeyId, SigPair>, ghost acc: seq<(nat, Bytes)>, ghost misc0: map<KeyId, PubKey>)
    returns (ret': seq<Bytes>, ghost acc': seq<(nat, Bytes)>)
    requires i < |keys|
    requires ScanInv(sg, script, keys, required, i, sigs0, sigdata.signatures, ret, acc)
    requires ScanKeys(sg, script, keys, required, i, sigs0, misc0, sigdata.signatures, sigdata.miscPubkeys)
    modifies sigdata
    ensures ScanInv(sg, script, keys, required, i + 1, sigs0, sigdata.signatures, ret', acc')
    ensures ScanKeys(sg, script, keys, required, i + 1, sigs0, misc0, sigdata.signatures, sigdata.miscPubkeys)
    ensures sigdata.complete == old(sigdata.complete) && sigdata.scriptSig == old(sigdata.scriptSig)
    ensures sigdata.redeemScript == old(sigdata.redeemScript)
  {
    ret', acc' := ret, acc;
    if |ret| < required + 1 {
      ghost var sigs := sigdata.signatures;
      ghost var misc := sigdata.miscPubkeys;
      ghost var found := SigFor(sg.creator, sigs0, script, sg.env.hash160(keys[i]));
      TriedBeforeScanned(sg, script, keys, required, i, sigs0, sigs, ret, acc);
      var signed, sig := SignKey(sg, sigdata, sg.env.hash160(keys[i]), script, sigs0, IdsBefore(sg.env.hash160, keys, i));
      ScanTried(sg, script, keys, required, i, sigs0, ret, acc, found);
      ScanKeysTried(sg, script, keys, required, i, sigs0, misc0, sigs, misc, sigdata.signatures, sigdata.miscPubkeys);
      if signed {
        ret' := ret + [sig];
        acc' := acc + [(i, sig)];
      }
    } else {
      ScanPassed(sg, script, keys, required, i, sigs0, sigdata.signatures, ret, acc);
    }
  }

  /** The known public keys and the keys recorded with new signatures after the multisig loop has looked at keys[..i]. */
  ghost predicate ScanKeys(sg: Signing, script: Script, keys: seq<PubKey>, required: nat, i: nat,
                           sigs0: map<KeyId, SigPair>, misc0: map<KeyId, PubKey>, sigs: map<KeyId, SigPair>, misc: map<KeyId, PubKey>)
  {
    var tried := IdsBefore(sg.env.hash160, keys, TriedUpTo(sg, script, keys, required, sigs0, i));
    && MiscFromProvider(sg.provider, sg.env.hash160, tried, misc0, misc)
    && PubKeysFor(sg.provider, misc0, misc, sigs0, sigs)
    && ProviderKeysKnown(sg.provider, sg.env.hash160, sigs0, tried, misc)
  }

  /** Trying keys[i] with CreateSig extends ScanKeys to keys[..i + 1]. */
  lemma ScanKeysTried(sg: Signing, script: Script, keys: seq<PubKey>, required: nat, i: nat,
                      sigs0: map<KeyId, SigPair>, misc0: map<KeyId, PubKey>,
                      sigs: map<KeyId, SigPair>, misc: map<KeyId, PubKey>, sigs': map<KeyId, SigPair>, misc': map<KeyId, PubKey>)
    requires i < |keys|
    requires TriedUpTo(sg, script, keys, required, sigs0, i) == i && TriedUpTo(sg, script, keys, required, sigs0, i + 1) == i + 1
    requires ScanKeys(sg, script, keys, required, i, sigs0, misc0, sigs, misc)
    requires Extends(sigs0, sigs) && Extends(sigs, sigs') && NewKeysWithin(sigs0, sigs, IdsBefore(sg.env.hash160, keys, i))
    requires MiscFromProvider(sg.provider, sg.env.hash160, {sg.env.hash160(keys[i])}, misc, misc')
    requires PubKeysFor(sg.provider, misc, misc', sigs, sigs')
    requires ProviderKeysKnown(sg.provider, sg.env.hash160, sigs, {sg.env.hash160(keys[i])}, misc')
    ensures ScanKeys(sg, script, keys, required, i + 1, sigs0, misc0, sigs', misc')
  {
    var hash := sg.env.hash160;
    assert IdsBefore(hash, keys, i) + {hash(keys[i])} == IdsBefore(hash, keys, i + 1);
    MiscFromProviderTrans(sg.provider, hash, IdsBefore(hash, keys, i), {hash(keys[i])}, misc0, misc, misc');
    KeysRecordedTrans(sg.provider, hash, IdsBefore(hash, keys, i), {hash(keys[i])}, sigs0, sigs, sigs', misc0, misc, misc');
  }

  /** The multisig branch of SignStep, with its padding brought to the intended required + 1 items. */
  method SignMultisig(sg: Signing, script: Script, solutions: seq<Bytes>, sigdata: SignatureData) returns (ret: seq<Bytes>, ok: bool)
    requires |solutions| >= 2 && |solutions[0]| >= 1
    modifies sigdata
    ensures var required := solutions[0][0];
      var picked := Collect(sg.creator, sg.env.hash160, old(sigdata.signatures), script, MultisigKeys(solutions), required, 0);
      ret == MultisigStack(picked, required) && ok == (|picked| == required)
    ensures Cached(sg.creator, script, old(sigdata.signatures), sigdata.signatures)
    ensures NewKeysWithin(old(sigdata.signatures), sigdata.signatures,
      IdsBefore(sg.env.hash160, MultisigKeys(solutions),
        Scanned(sg.creator, sg.env.hash160, old(sigdata.signatures), script, MultisigKeys(solutions), solutions[0][0], 0)))
    ensures StoredFor(sg.creator, script, old(sigdata.signatures), sigdata.signatures,
      IdsBefore(sg.env.hash160, MultisigKeys(solutions),
        Scanned(sg.creator, sg.env.hash160, old(sigdata.signatures), script, MultisigKeys(solutions), solutions[0][0], 0)))
    ensures MiscFromProvider(sg.provider, sg.env.hash160,
      IdsBefore(sg.env.hash160, MultisigKeys(solutions),
        Scanned(sg.creator, sg.env.hash160, old(sigdata.signatures), script, MultisigKeys(solutions), solutions[0][0], 0)),
      old(sigdata.miscPubkeys), sigdata.miscPubkeys)
    ensures PubKeysFor(sg.provider, old(sigdata.miscPubkeys), sigdata.miscPubkeys, old(sigdata.signatures), sigdata.signatures)
    ensures ProviderKeysKnown(sg.provider, sg.env.hash160, old(sigdata.signatures),
      IdsBefore(sg.env.hash160, MultisigKeys(solutions),
        Scanned(sg.creator, sg.env.hash160, old(sigdata.signatures), script, MultisigKeys(solutions), solutions[0][0], 0)),
      sigdata.miscPubkeys)
    ensures sigdata.complete == old(sigdata.complete) && sigdata.scriptSig == old(sigdata.scriptSig)
    ensures sigdata.redeemScript == old(sigdata.redeemScript)
  {
    var required: nat := solutions[0][0];
    var keys := MultisigKeys(solutions);
    ghost var sigs0 := sigdata.signatures;
    ghost var full := Collect(sg.creator, sg.env.hash160, sigs0, script, keys, required, 0);
    ghost var acc: seq<(nat, Bytes)> := [];
    // workaround for the extra item OP_CHECKMULTISIG consumes
    ret := [[]];
    var i := 0;
    while i < |keys|
      invariant 0 <= i <= |keys|
      invariant ScanInv(sg, script, keys, required, i, sigs0, sigdata.signatures, ret, acc)
      invariant ScanKeys(sg, script, keys, required, i, sigs0, old(sigdata.miscPubkeys), sigdata.signatures, sigdata.miscPubkeys)
      invariant sigdata.complete == old(sigdata.complete) && sigdata.scriptSig == old(sigdata.scriptSig)
      invariant sigdata.redeemScript == old(sigdata.redeemScript)
    {
      ret, acc := ScanKey(sg, script, keys, required, i, sigdata, ret, sigs0, acc, old(sigdata.miscPubkeys));
      i := i + 1;
    }
    assert acc == full;
    ok := |ret| == required + 1;
    ret := PadToRequired(ret, required, acc);
  }

  /** Fills the stack with empty items up to required + 1, one per missing signature. */
  method PadToRequired(ret: seq<Bytes>, required: nat, ghost picked: seq<(nat, Bytes)>) returns (padded: seq<Bytes>)
    requires |picked| <= required && |ret| == |picked| + 1 && ret[0] == []
    requires forall j :: 0 <= j < |picked| ==> ret[j + 1] == picked[j].1
    ensures padded == MultisigStack(picked, required)
  {
    padded := ret;
    while |padded| < required + 1
      invariant |picked| + 1 <= |padded| <= required + 1 && padded[0] == []
      invariant forall j :: 0 <= j < |picked| ==> padded[j + 1] == picked[j].1
      invariant forall j :: |picked| < j < |padded| ==> padded[j] == []
      decreases required + 1 - |padded|
    {
      padded := padded + [[]];
    }
  }

  // ---------------------------------------------------------------------
  // Padding as the source writes it

  /**
   * The padding loop of the multisig branch as written: both the counter
   * and the stack size grow on each pass, so it stops half way.
   */
  function PadAsWritten(ret: seq<Bytes>, required: nat, i: nat): seq<Bytes>
    decreases required + 1 - (i + |ret|)
  {
    if i + |ret| < required + 1 then PadAsWritten(ret + [[]], required, i + 1) else ret
  }

  /** The loop as written adds only half of the missing items (rounded up). */
  lemma {:induction false} PadAsWrittenLength(ret: seq<Bytes>, required: nat, i: nat)
    requires i + |ret| <= required + 1
    ensures |PadAsWritten(ret, required, i)| == |ret| + (required + 2 - i - |ret|) / 2
    decreases required + 1 - (i + |ret|)
  {
    if i + |ret| + 1 < required + 1 {
      PadAsWrittenLength(ret + [[]], required, i + 1);
    } else if i + |ret| < required + 1 {
      assert PadAsWritten(ret + [[]], required, i + 1) == ret + [[]];
    }
  }

  /** Padding as written extends a prefix of `target` only with items `target` has there, and never past its end. */
  lemma {:induction false} PadAsWrittenStaysPrefix(ret: seq<Bytes>, required: nat, i: nat, target: seq<Bytes>)
    requires |target| == required + 1 && |ret| <= |target| && ret == target[..|ret|]
    requires forall k :: |ret| <= k < |target| ==> target[k] == []
    ensures |PadAsWritten(ret, required, i)| <= |target|
    ensures PadAsWritten(ret, required, i) == target[..|PadAsWritten(ret, required, i)|]
    decreases required + 1 - (i + |ret|)
  {
    if i + |ret| < required + 1 {
      assert ret + [[]] == target[..|ret| + 1];
      PadAsWrittenStaysPrefix(ret + [[]], required, i + 1, target);
    }
  }

  /**
   * The multisig stack the source builds is a prefix of the intended one:
   * the same dummy item and signatures, followed by only some of the padding.
   */
  lemma PadAsWrittenIsPrefix(picked: seq<(nat, Bytes)>, required: nat)
    requires |picked| <= required
    ensures var target := MultisigStack(picked, required);
      var w := PadAsWritten(target[..|picked| + 1], required, 0);
      |picked| + 1 <= |w| <= |target| && w == target[..|w|]
  {
    var target := MultisigStack(picked, required);
    PadAsWrittenStaysPrefix(target[..|picked| + 1], required, 0, target);
    PadAsWrittenLength(target[..|picked| + 1], required, 0);
  }

  /** 2-of-n with no signature available: the loop as written leaves 2 items where 3 are intended. */
  lemma MultisigPaddingFallsShort()
    ensures |PadAsWritten([[]], 2, 0)| == 2
    ensures |MultisigStack([], 2)| == 3
  {
    PadAsWrittenLength([[]], 2, 0);
  }

  // ---------------------------------------------------------------------
  // PushAll

  /** The minimal push for one stack item. */
  function EncodeItem(v: Bytes): Op {
    if |v| == 0 then Op0
    else if |v| == 1 && 1 <= v[0] <= 16 then OpN(v[0])
    else PushData(v)
  }

  /** The item a push operation leaves on the stack; other opcodes push nothing. */
  function PushedValue(op: Op): Option<Bytes> {
    match op
    case Op0 => Some([])
    case OpN(n) => Some([n])
    case PushData(d) => Some(d)
    case NonPush(_) => None
  }

  /** The stack a push-only script leaves, or None when it has another opcode. */
  function Replay(ops: ScriptSig): Option<seq<Bytes>> {
    if ops == [] then Some([])
    else match (PushedValue(ops[0]), Replay(ops[1..]))
      case (Some(v), Some(rest)) => Some([v] + rest)
      case _ => None
  }

  /** PushAll: one push per item, in order, each the minimal encoding of the item. */
  function PushAll(values: seq<Bytes>): (r: ScriptSig)
    ensures |r| == |values|
    ensures forall i :: 0 <= i < |values| ==> r[i] == EncodeItem(values[i])
    ensures forall i :: 0 <= i < |values| ==> (r[i] == Op0 <==> values[i] == [])
    ensures forall i :: 0 <= i < |values| ==> (r[i].OpN? <==> |values[i]| == 1 && 1 <= values[i][0] <= 16)
  {
    if values == [] then [] else [EncodeItem(values[0])] + PushAll(values[1..])
  }

  /** Each encoded item pushes back the item itself. */
  lemma EncodeItemPushes(v: Bytes)
    ensures PushedValue(EncodeItem(v)) == Some(v)
  {
    if |v| == 1 && 1 <= v[0] <= 16 {
      assert [v[0]] == v;
    }
  }

  /** Replaying a push followed by a push-only script. */
  lemma ReplayCons(op: Op, rest: ScriptSig)
    requires PushedValue(op).Some? && Replay(rest).Some?
    ensures Replay([op] + rest) == Some([PushedValue(op).value] + Replay(rest).value)
  {
    assert ([op] + rest)[0] == op && ([op] + rest)[1..] == rest;
  }

  /** Running the encoded script pushes back exactly the items it was built from. */
  lemma {:induction false} PushAllRoundTrip(values: seq<Bytes>)
    ensures Replay(PushAll(values)) == Some(values)
  {
    if values == [] {
      assert PushAll(values) == [];
    } else {
      var rest := PushAll(values[1..]);
      assert PushAll(values) == [EncodeItem(values[0])] + rest;
      EncodeItemPushes(values[0]);
      PushAllRoundTrip(values[1..]);
      ReplayCons(EncodeItem(values[0]), rest);
      assert [values[0]] + values[1..] == values;
    }
  }

  // ---------------------------------------------------------------------
  // ProduceSignature

  datatype Produced = Produced(solved: bool, stack: seq<Bytes>, viaScriptHash: bool, subscript: Script)

  /**
   * What ProduceSignature assembles for an incomplete SignatureData: one
   * SignStep, and for a script-hash output a second one on the subscript,
   * whose bytes then close the stack.
   */
  function ProduceSpec(sg: Signing, fromPubKey: Script, sigs: map<KeyId, SigPair>, redeem: Script): (r: Produced)
    requires sg.env.Valid()
    ensures r.viaScriptHash <==> StepSpec(sg, fromPubKey, sigs, redeem).solved && sg.env.solver(fromPubKey).typ == TxScriptHash
    ensures r.viaScriptHash ==>
      && r.subscript == StepSpec(sg, fromPubKey, sigs, redeem).stack[0]
      && r.stack == StepSpec(sg, r.subscript, sigs, r.subscript).stack + [r.subscript]
      && (r.solved <==> StepSpec(sg, r.subscript, sigs, r.subscript).solved && sg.env.solver(r.subscript).typ != TxScriptHash)
    ensures !r.viaScriptHash ==>
      (r.solved == StepSpec(sg, fromPubKey, sigs, redeem).solved && r.stack == StepSpec(sg, fromPubKey, sigs, redeem).stack)
  {
    var outer := StepSpec(sg, fromPubKey, sigs, redeem);
    if outer.solved && outer.typ == TxScriptHash then
      var sub := outer.stack[0];
      var inner := StepSpec(sg, sub, sigs, sub);
      Produced(inner.solved && inner.typ != TxScriptHash, inner.stack + [sub], true, sub)
    else
      Produced(outer.solved, outer.stack, false, [])
  }

  /** A script-hash output whose redeem script is itself script-hash is never solved. */
  lemma NestedScriptHashNeverSolved(sg: Signing, fromPubKey: Script, sigs: map<KeyId, SigPair>, redeem: Script)
    requires sg.env.Valid()
    requires ProduceSpec(sg, fromPubKey, sigs, redeem).viaScriptHash
    requires sg.env.solver(ProduceSpec(sg, fromPubKey, sigs, redeem).subscript).typ == TxScriptHash
    ensures !ProduceSpec(sg, fromPubKey, sigs, redeem).solved
  {
  }

  /**
   * A script-hash output over a pay-to-pubkey-hash redeem script whose key
   * can sign gives the two-layer stack [signature, public key, subscript].
   */
  lemma ScriptHashOverPubKeyHash(sg: Signing, fromPubKey: Script, sigs: map<KeyId, SigPair>, redeem: Script, sub: Script)
    requires sg.env.Valid()
    requires sg.env.solver(fromPubKey).ok && sg.env.solver(fromPubKey).typ == TxScriptHash
    requires GetCScript(sg.env, sg.provider, redeem, sg.env.solver(fromPubKey).solutions[0]) == Some(sub)
    requires sg.env.solver(sub).ok && sg.env.solver(sub).typ == TxPubKeyHash
    requires SigFor(sg.creator, sigs, sub, sg.env.solver(sub).solutions[0]).Some?
    ensures var id := sg.env.solver(sub).solutions[0];
      ProduceSpec(sg, fromPubKey, sigs, redeem)
        == Produced(true, [SigFor(sg.creator, sigs, sub, id).value, PubKeyBytes(sg.provider.getPubKey(id)), sub], true, sub)
  {
  }

  method ProduceSignature(sg: Signing, fromPubKey: Script, sigdata: SignatureData) returns (complete: bool)
    requires sg.env.Valid()
    modifies sigdata
    ensures old(sigdata.complete) ==> complete && sigdata.View() == old(sigdata.View())
    ensures !old(sigdata.complete) ==>
      var p := ProduceSpec(sg, fromPubKey, old(sigdata.signatures), old(sigdata.redeemScript));
      && sigdata.scriptSig == PushAll(p.stack)
      && sigdata.complete == complete
      && (complete <==> p.solved && sg.env.verify(PushAll(p.stack), fromPubKey, sg.creator.checker))
      && sigdata.redeemScript == (if p.viaScriptHash then p.subscript else old(sigdata.redeemScript))
    ensures !old(sigdata.complete) ==>
      var p := ProduceSpec(sg, fromPubKey, old(sigdata.signatures), old(sigdata.redeemScript));
      var code := if p.viaScriptHash then p.subscript else fromPubKey;
      && Cached(sg.creator, code, old(sigdata.signatures), sigdata.signatures)
      && NewKeysWithin(old(sigdata.signatures), sigdata.signatures, StepAttempted(sg, code, old(sigdata.signatures)))
      && StoredFor(sg.creator, code, old(sigdata.signatures), sigdata.signatures, StepAttempted(sg, code, old(sigdata.signatures)))
      && MiscFromProvider(sg.provider, sg.env.hash160, StepAttempted(sg, code, old(sigdata.signatures)),
                          old(sigdata.miscPubkeys), sigdata.miscPubkeys)
      && PubKeysFor(sg.provider, old(sigdata.miscPubkeys), sigdata.miscPubkeys, old(sigdata.signatures), sigdata.signatures)
      && ProviderKeysKnown(sg.provider, sg.env.hash160, old(sigdata.signatures), StepAttempted(sg, code, old(sigdata.signatures)),
                           sigdata.miscPubkeys)
    ensures Extends(old(sigdata.signatures), sigdata.signatures)
    ensures Extends(old(sigdata.miscPubkeys), sigdata.miscPubkeys)
  {
    if sigdata.complete {
      return true;
    }
    ghost var sigs0, misc0 := sigdata.signatures, sigdata.miscPubkeys;
    var solved, whichType, result := SignStep(sg, fromPubKey, sigdata);
    if solved && whichType == TxScriptHash {
      // the outer step looks up a script and signs nothing
      assert sigdata.signatures == sigs0;
      assert StepAttempted(sg, fromPubKey, sigs0) == {};
      ghost var misc1 := sigdata.miscPubkeys;
      var subscript := result[0];
      sigdata.redeemScript := subscript;
      var innerSolved, innerType, inner := SignStep(sg, subscript, sigdata);
      MiscFromProviderTrans(sg.provider, sg.env.hash160, {}, StepAttempted(sg, subscript, sigs0), misc0, misc1, sigdata.miscPubkeys);
      KeysRecordedTrans(sg.provider, sg.env.hash160, {}, StepAttempted(sg, subscript, sigs0),
                        sigs0, sigs0, sigdata.signatures, misc0, misc1, sigdata.miscPubkeys);
      assert {} + StepAttempted(sg, subscript, sigs0) == StepAttempted(sg, subscript, sigs0);
      solved := innerSolved && innerType != TxScriptHash;
      result := inner + [subscript];
    }
    sigdata.scriptSig := PushAll(result);
    complete := solved && sg.env.verify(sigdata.scriptSig, fromPubKey, sg.creator.checker);
    sigdata.complete := complete;
  }
}
