/**
 * DataFromTransaction: recovering a SignatureData from the scriptSig an
 * input already carries, first through the checks the interpreter makes,
 * then by matching the remaining stack items to multisig public keys.
 */
module Extract {
  import opened Script
  import opened Externals
  import opened Signatures
  import opened Sign

  /**
   * SignatureExtractorChecker: every CheckSig call that the wrapped checker
   * accepts is emplaced under the id of its public key, in call order.
   */
  function RecordChecks(hash: Bytes -> Bytes, checker: Checker, sigs: map<KeyId, SigPair>, checks: seq<SigCheck>): (r: map<KeyId, SigPair>)
    ensures Extends(sigs, r)
    ensures forall k :: k in r && k !in sigs ==>
      && k == hash(r[k].pubkey)
      && exists c :: c in checks && c.sig == r[k].sig && c.pubkey == r[k].pubkey && checker(c.sig, c.pubkey, c.scriptCode)
    ensures forall c :: c in checks && checker(c.sig, c.pubkey, c.scriptCode) ==> hash(c.pubkey) in r
    decreases |checks|
  {
    if checks == [] then sigs
    else
      var c := checks[0];
      var next := if checker(c.sig, c.pubkey, c.scriptCode) then Emplace(sigs, hash(c.pubkey), SigPair(c.pubkey, c.sig)) else sigs;
      var r := RecordChecks(hash, checker, next, checks[1..]);
      assert forall d :: d in checks ==> d == c || d in checks[1..];
      r
  }

  /**
   * The key index the inner loop of the multisig scan stops at for one
   * stack item `sig`, starting from key i: the first key that already has a
   * signature, or whose check accepts `sig`; None when no key from i on does.
   */
  function FirstMatch(hash: Bytes -> Bytes, checker: Checker, sigs: map<KeyId, SigPair>, sig: Bytes,
                      keys: seq<PubKey>, next: Script, i: nat): (r: Option<nat>)
    requires i <= |keys|
    ensures r.Some? ==> i <= r.value < |keys| && (hash(keys[r.value]) in sigs || checker(sig, keys[r.value], next))
    ensures forall q :: i <= q < |keys| && (r.None? || q < r.value) ==> hash(keys[q]) !in sigs && !checker(sig, keys[q], next)
    decreases |keys| - i
  {
    if i == |keys| then None
    else if hash(keys[i]) in sigs || checker(sig, keys[i], next) then Some(i)
    else FirstMatch(hash, checker, sigs, sig, keys, next, i + 1)
  }

  /** The state of the multisig scan: the signatures so far and last_success_key. */
  datatype Scan = Scan(sigs: map<KeyId, SigPair>, last: nat)

  /**
   * One stack item of the scan: on a match at key i the accepted signature is
   * recorded (a key that already has one keeps it) and the scan resumes at
   * i + 1; an item no key matches changes nothing.
   */
  function MatchItem(hash: Bytes -> Bytes, checker: Checker, st: Scan, sig: Bytes, keys: seq<PubKey>, next: Script): (r: Scan)
    requires st.last <= |keys|
  {
    match FirstMatch(hash, checker, st.sigs, sig, keys, next, st.last)
    case None => st
    case Some(i) =>
      var id := hash(keys[i]);
      Scan(if id in st.sigs then st.sigs else st.sigs[id := SigPair(keys[i], sig)], i + 1)
  }

  /**
   * The whole forward-only scan over the stack items, bottom first. Entries
   * are only added, and each added one is a stack item the checker accepts
   * for its key.
   */
  function MatchScan(hash: Bytes -> Bytes, checker: Checker, st: Scan, stack: seq<Bytes>, keys: seq<PubKey>, next: Script): (r: Scan)
    requires st.last <= |keys|
    ensures st.last <= r.last <= |keys|
    ensures Extends(st.sigs, r.sigs)
    ensures forall k :: k in r.sigs && k !in st.sigs ==>
      && k == hash(r.sigs[k].pubkey)
      && r.sigs[k].sig in stack
      && r.sigs[k].pubkey in keys
      && checker(r.sigs[k].sig, r.sigs[k].pubkey, next)
    decreases |stack|
  {
    if stack == [] then st
    else
      var r := MatchScan(hash, checker, MatchItem(hash, checker, st, stack[0], keys, next), stack[1..], keys, next);
      assert forall b :: b in stack[1..] ==> b in stack;
      r
  }

  /** The scan over stack[s..] is one item followed by the scan over stack[s + 1..]. */
  lemma MatchScanStep(hash: Bytes -> Bytes, checker: Checker, st: Scan, stack: seq<Bytes>, s: nat, keys: seq<PubKey>, next: Script)
    requires s < |stack| && st.last <= |keys|
    ensures MatchScan(hash, checker, st, stack[s..], keys, next)
         == MatchScan(hash, checker, MatchItem(hash, checker, st, stack[s], keys, next), stack[s + 1..], keys, next)
  {
    assert stack[s..][0] == stack[s] && stack[s..][1..] == stack[s + 1..];
  }

  /**
   * The inner loop of the scan for one stack item: keys are tried from
   * last_success_key on until one already has a signature or accepts `sig`.
   */
  method MatchOne(hash: Bytes -> Bytes, checker: Checker, sigs0: map<KeyId, SigPair>, last0: nat, sig: Bytes,
                  solutions: seq<Bytes>, nextScript: Script)
    returns (sigs: map<KeyId, SigPair>, lastSuccessKey: nat)
    requires |solutions| >= 2 && last0 <= |solutions| - 2
    ensures Scan(sigs, lastSuccessKey) == MatchItem(hash, checker, Scan(sigs0, last0), sig, MultisigKeys(solutions), nextScript)
  {
    ghost var keys := MultisigKeys(solutions);
    var numPubkeys := |solutions| - 2;
    sigs, lastSuccessKey := sigs0, last0;
    var i := last0;
    while i < numPubkeys
      invariant last0 <= i <= numPubkeys
      invariant FirstMatch(hash, checker, sigs0, sig, keys, nextScript, last0) == FirstMatch(hash, checker, sigs0, sig, keys, nextScript, i)
      decreases numPubkeys - i
    {
      var pubkey := solutions[i + 1];
      assert pubkey == keys[i];
      var id := hash(pubkey);
      if id in sigs0 {
        return sigs0, i + 1;
      } else if checker(sig, pubkey, nextScript) {
        return sigs0[id := SigPair(pubkey, sig)], i + 1;
      }
      i := i + 1;
    }
  }

  /**
   * The outer loop of the multisig scan in DataFromTransaction: every stack
   * item, bottom first, is matched against the keys from last_success_key
   * on, so the result is the scan MatchScan describes.
   */
  method MatchMultisig(hash: Bytes -> Bytes, checker: Checker, sigs0: map<KeyId, SigPair>, stack: seq<Bytes>,
                       solutions: seq<Bytes>, nextScript: Script)
    returns (sigs: map<KeyId, SigPair>, lastSuccessKey: nat)
    requires |solutions| >= 2
    ensures Scan(sigs, lastSuccessKey) == MatchScan(hash, checker, Scan(sigs0, 0), stack, MultisigKeys(solutions), nextScript)
  {
    ghost var keys := MultisigKeys(solutions);
    sigs, lastSuccessKey := sigs0, 0;
    var s := 0;
    while s < |stack|
      invariant 0 <= s <= |stack| && lastSuccessKey <= |keys|
      invariant MatchScan(hash, checker, Scan(sigs0, 0), stack, keys, nextScript)
             == MatchScan(hash, checker, Scan(sigs, lastSuccessKey), stack[s..], keys, nextScript)
    {
      MatchScanStep(hash, checker, Scan(sigs, lastSuccessKey), stack, s, keys, nextScript);
      sigs, lastSuccessKey := MatchOne(hash, checker, sigs, lastSuccessKey, stack[s], solutions, nextScript);
      s := s + 1;
    }
  }

  // ---------------------------------------------------------------------
  // Recovering what the multisig signer produced

  /** The checker accepts exactly the signature SigFor gives each key, and nothing else. */
  ghost predicate ChecksExactly(checker: Checker, creator: Creator, hash: Bytes -> Bytes, sigs0: map<KeyId, SigPair>,
                                code: Script, keys: seq<PubKey>)
  {
    forall i, sig :: 0 <= i < |keys| ==> (checker(sig, keys[i], code) <==> SigFor(creator, sigs0, code, hash(keys[i])) == Some(sig))
  }

  /** No key has the empty byte string as its signature (a real signature never is). */
  ghost predicate NoEmptySig(creator: Creator, hash: Bytes -> Bytes, sigs0: map<KeyId, SigPair>, code: Script, keys: seq<PubKey>)
  {
    forall i :: 0 <= i < |keys| ==> SigFor(creator, sigs0, code, hash(keys[i])) != Some([])
  }

  /** Every entry of `m` holds the signature SigFor gives its id. */
  ghost predicate Faithful(creator: Creator, sigs0: map<KeyId, SigPair>, code: Script, m: map<KeyId, SigPair>)
  {
    forall k :: k in m ==> SigFor(creator, sigs0, code, k) == Some(m[k].sig)
  }

  /**
   * The scan has consumed the dummy item and the first t picked signatures:
   * it resumes just past the t-th picked key, and holds each of the first t
   * under its key's id, and only genuine signatures.
   */
  ghost predicate Recovered(creator: Creator, hash: Bytes -> Bytes, sigs0: map<KeyId, SigPair>, code: Script,
                            keys: seq<PubKey>, picked: seq<(nat, Bytes)>, t: nat, st: Scan)
    requires t <= |picked|
  {
    && st.last == (if t == 0 then 0 else picked[t - 1].0 + 1)
    && st.last <= |keys|
    && HoldsPicked(hash, keys, picked, t, st.sigs)
    && Faithful(creator, sigs0, code, st.sigs)
  }

  /** `m` holds each of the first t picked signatures under its key's id. */
  ghost predicate HoldsPicked(hash: Bytes -> Bytes, keys: seq<PubKey>, picked: seq<(nat, Bytes)>, t: nat, m: map<KeyId, SigPair>)
    requires t <= |picked|
  {
    forall j :: 0 <= j < t ==>
      picked[j].0 < |keys| && hash(keys[picked[j].0]) in m && m[hash(keys[picked[j].0])].sig == picked[j].1
  }

  /** An empty item never adds a signature: no key accepts it, so at most an existing entry is matched. */
  lemma EmptyItemKeepsSigs(hash: Bytes -> Bytes, checker: Checker, creator: Creator, sigs0: map<KeyId, SigPair>, code: Script,
                           keys: seq<PubKey>, st: Scan)
    requires st.last <= |keys|
    requires ChecksExactly(checker, creator, hash, sigs0, code, keys) && NoEmptySig(creator, hash, sigs0, code, keys)
    ensures MatchItem(hash, checker, st, [], keys, code).sigs == st.sigs
  {
    var m := FirstMatch(hash, checker, st.sigs, [], keys, code, st.last);
    if m.Some? {
      assert !checker([], keys[m.value], code);
    }
  }

  /** A run of empty items (the padding) leaves the signatures as they are. */
  lemma {:induction false} PadsKeepSigs(hash: Bytes -> Bytes, checker: Checker, creator: Creator, sigs0: map<KeyId, SigPair>,
                                        code: Script, keys: seq<PubKey>, st: Scan, pads: seq<Bytes>)
    requires st.last <= |keys|
    requires ChecksExactly(checker, creator, hash, sigs0, code, keys) && NoEmptySig(creator, hash, sigs0, code, keys)
    requires forall j :: 0 <= j < |pads| ==> pads[j] == []
    ensures MatchScan(hash, checker, st, pads, keys, code).sigs == st.sigs
    decreases |pads|
  {
    if pads != [] {
      EmptyItemKeepsSigs(hash, checker, creator, sigs0, code, keys, st);
      PadsKeepSigs(hash, checker, creator, sigs0, code, keys, MatchItem(hash, checker, st, pads[0], keys, code), pads[1..]);
    }
  }

  /**
   * The t-th picked signature is matched to exactly its own key: the keys
   * skipped since the last match cannot sign, so neither accept it nor have
   * an entry, and its own key accepts it.
   */
  lemma PickedItemMatches(hash: Bytes -> Bytes, checker: Checker, creator: Creator, sigs0: map<KeyId, SigPair>, code: Script,
                          keys: seq<PubKey>, picked: seq<(nat, Bytes)>, t: nat, st: Scan)
    requires t < |picked|
    requires ChecksExactly(checker, creator, hash, sigs0, code, keys)
    requires InKeyOrder(creator, hash, sigs0, code, keys, 0, picked)
    requires SkipsOnlyNonSigners(creator, hash, sigs0, code, keys, 0, picked)
    requires Recovered(creator, hash, sigs0, code, keys, picked, t, st)
    ensures Recovered(creator, hash, sigs0, code, keys, picked, t + 1, MatchItem(hash, checker, st, picked[t].1, keys, code))
  {
    var p := picked[t].0;
    var sig := picked[t].1;
    assert NoSignerIn(creator, hash, sigs0, code, keys, st.last, p) by {
      if t > 0 {
        assert 0 <= t - 1 < |picked| - 1;
      }
    }
    forall q | st.last <= q < p
      ensures hash(keys[q]) !in st.sigs && !checker(sig, keys[q], code)
    {
      assert SigFor(creator, sigs0, code, hash(keys[q])).None?;
    }
    assert checker(sig, keys[p], code);
    var m := FirstMatch(hash, checker, st.sigs, sig, keys, code, st.last);
    assert m == Some(p);
    var id := hash(keys[p]);
    var r := MatchItem(hash, checker, st, sig, keys, code);
    assert r.sigs == if id in st.sigs then st.sigs else st.sigs[id := SigPair(keys[p], sig)];
    assert r.last == p + 1;
  }

  /** From any state Recovered after t picked items, the rest of the stack recovers them all. */
  lemma {:induction false} ScanRecovers(hash: Bytes -> Bytes, checker: Checker, creator: Creator, sigs0: map<KeyId, SigPair>,
                                        code: Script, keys: seq<PubKey>, picked: seq<(nat, Bytes)>, required: nat, t: nat, st: Scan)
    requires t <= |picked| <= required
    requires ChecksExactly(checker, creator, hash, sigs0, code, keys) && NoEmptySig(creator, hash, sigs0, code, keys)
    requires InKeyOrder(creator, hash, sigs0, code, keys, 0, picked)
    requires SkipsOnlyNonSigners(creator, hash, sigs0, code, keys, 0, picked)
    requires Recovered(creator, hash, sigs0, code, keys, picked, t, st)
    ensures var r := MatchScan(hash, checker, st, MultisigStack(picked, required)[t + 1..], keys, code).sigs;
      HoldsPicked(hash, keys, picked, |picked|, r) && Faithful(creator, sigs0, code, r)
    decreases |picked| - t
  {
    var stack := MultisigStack(picked, required);
    if t == |picked| {
      PadsKeepSigs(hash, checker, creator, sigs0, code, keys, st, stack[t + 1..]);
    } else {
      MatchScanStep(hash, checker, st, stack, t + 1, keys, code);
      PickedItemMatches(hash, checker, creator, sigs0, code, keys, picked, t, st);
      ScanRecovers(hash, checker, creator, sigs0, code, keys, picked, required, t + 1,
                   MatchItem(hash, checker, st, stack[t + 1], keys, code));
    }
  }

  /** The dummy item at the bottom matches nothing when the scan starts from no signatures. */
  lemma DummySkipped(hash: Bytes -> Bytes, checker: Checker, creator: Creator, sigs0: map<KeyId, SigPair>, code: Script, keys: seq<PubKey>)
    requires ChecksExactly(checker, creator, hash, sigs0, code, keys) && NoEmptySig(creator, hash, sigs0, code, keys)
    ensures MatchItem(hash, checker, Scan(map[], 0), [], keys, code) == Scan(map[], 0)
  {
  }

  /**
   * Round trip: the stack the multisig signer builds (a dummy item, the
   * collected signatures in key order, the padding) is read back by the
   * scan, started from no signatures, as exactly those signatures, each
   * under its own key's id, when the checker accepts exactly the signer's
   * signatures.
   */
  lemma ExtractRecoversSigned(hash: Bytes -> Bytes, checker: Checker, creator: Creator, sigs0: map<KeyId, SigPair>,
                              code: Script, keys: seq<PubKey>, required: nat)
    requires ChecksExactly(checker, creator, hash, sigs0, code, keys) && NoEmptySig(creator, hash, sigs0, code, keys)
    ensures var picked := Collect(creator, hash, sigs0, code, keys, required, 0);
      var r := MatchScan(hash, checker, Scan(map[], 0), MultisigStack(picked, required), keys, code).sigs;
      && (forall j :: 0 <= j < |picked| ==>
            picked[j].0 < |keys| && hash(keys[picked[j].0]) in r && r[hash(keys[picked[j].0])].sig == picked[j].1)
      && (forall k :: k in r ==> SigFor(creator, sigs0, code, k) == Some(r[k].sig))
  {
    var picked := Collect(creator, hash, sigs0, code, keys, required, 0);
    var stack := MultisigStack(picked, required);
    var start := Scan(map[], 0);
    CollectInKeyOrder(creator, hash, sigs0, code, keys, required, 0);
    CollectGaps(creator, hash, sigs0, code, keys, required, 0);
    MatchScanStep(hash, checker, start, stack, 0, keys, code);
    assert stack[0..] == stack;
    DummySkipped(hash, checker, creator, sigs0, code, keys);
    ScanRecovers(hash, checker, creator, sigs0, code, keys, picked, required, 0, start);
  }

  /** The redeem script DataFromTransaction takes from the stack: its last item, when the output is pay-to-script-hash. */
  function StackRedeemScript(env: Env, stack: seq<Bytes>, scriptPubKey: Script): (r: Script)
    ensures r != [] <==> env.solver(scriptPubKey).typ == TxScriptHash && |stack| > 0 && stack[|stack| - 1] != []
    ensures r != [] ==> r == stack[|stack| - 1]
  {
    if env.solver(scriptPubKey).typ == TxScriptHash && |stack| > 0 && stack[|stack| - 1] != [] then stack[|stack| - 1] else []
  }

  /**
   * What DataFromTransaction recovers from `scriptSig` spending
   * `scriptPubKey` under `checker`: the data is complete when the script
   * verifies; otherwise the redeem script is taken from the stack of a
   * script-hash spend, and for a multisig script the remaining stack items
   * are matched to its keys.
   */
  function DataSpec(env: Env, scriptSig: ScriptSig, scriptPubKey: Script, checker: Checker): (r: SigDataValue)
    requires env.Valid()
    ensures r.scriptSig == scriptSig && r.miscPubkeys == map[]
    ensures r.complete == env.verify(scriptSig, scriptPubKey, checker)
    ensures var recorded := RecordChecks(env.hash160, checker, map[], env.sigChecks(scriptSig, scriptPubKey, checker));
      && (r.complete ==> r.signatures == recorded && r.redeemScript == [])
      && (!r.complete ==> Extends(recorded, r.signatures))
    ensures !r.complete ==> r.redeemScript == StackRedeemScript(env, env.evalStack(scriptSig), scriptPubKey)
    ensures !r.complete ==>
      var recorded := RecordChecks(env.hash160, checker, map[], env.sigChecks(scriptSig, scriptPubKey, checker));
      var next := if r.redeemScript != [] then r.redeemScript else scriptPubKey;
      forall k :: k in r.signatures && k !in recorded ==>
        && k == env.hash160(r.signatures[k].pubkey)
        && r.signatures[k].sig in env.evalStack(scriptSig)
        && checker(r.signatures[k].sig, r.signatures[k].pubkey, next)
  {
    var recorded := RecordChecks(env.hash160, checker, map[], env.sigChecks(scriptSig, scriptPubKey, checker));
    if env.verify(scriptSig, scriptPubKey, checker) then SigDataValue(true, scriptSig, [], recorded, map[])
    else
      var stack := env.evalStack(scriptSig);
      var redeem := StackRedeemScript(env, stack, scriptPubKey);
      var next := if redeem != [] then redeem else scriptPubKey;
      var rest := if redeem != [] then stack[..|stack| - 1] else stack;
      var sol := env.solver(next);
      assert WellShaped(sol);
      var sigs := if sol.typ == TxMultisig && |rest| > 0
        then MatchScan(env.hash160, checker, Scan(recorded, 0), rest, MultisigKeys(sol.solutions), next).sigs
        else recorded;
      assert forall b :: b in rest ==> b in stack;
      SigDataValue(false, scriptSig, redeem, sigs, map[])
  }

  /**
   * DataFromTransaction for input nIn of `tx` spending `txout`; `checker`
   * is the transaction signature checker for that input and amount.
   */
  method DataFromTransaction(env: Env, tx: Transaction, nIn: nat, txout: TxOut, checker: Checker) returns (data: SigDataValue)
    requires nIn < |tx.vin|
    requires env.Valid()
    ensures data == DataSpec(env, tx.vin[nIn].scriptSig, txout.scriptPubKey, checker)
  {
    var scriptSig := tx.vin[nIn].scriptSig;
    var stack := env.evalStack(scriptSig);
    var sigs := RecordChecks(env.hash160, checker, map[], env.sigChecks(scriptSig, txout.scriptPubKey, checker));
    if env.verify(scriptSig, txout.scriptPubKey, checker) {
      return SigDataValue(true, scriptSig, [], sigs, map[]);
    }

    var sol := env.solver(txout.scriptPubKey);
    var scriptType, solutions := sol.typ, sol.solutions;
    var nextScript := txout.scriptPubKey;
    var redeem: Script := [];
    if scriptType == TxScriptHash && |stack| > 0 && stack[|stack| - 1] != [] {
      redeem := stack[|stack| - 1];
      nextScript := redeem;
      var inner := env.solver(nextScript);
      scriptType, solutions := inner.typ, inner.solutions;
      stack := stack[..|stack| - 1];
    }
    assert scriptType == TxMultisig ==> WellShaped(env.solver(nextScript));
    if scriptType == TxMultisig && |stack| > 0 {
      var last;
      sigs, last := MatchMultisig(env.hash160, checker, sigs, stack, solutions, nextScript);
    }
    data := SigDataValue(false, scriptSig, redeem, sigs, map[]);
  }
}
