/**
 * The partially signed transaction container (BIP 174): per-input and
 * per-output records, their merge rules, and the adapters that move
 * signing material between a record and a SignatureData.
 */
module Psbt {
  import opened Script
  import opened Externals
  import opened Signatures
  import opened Sign

  /** An amount in satoshis. */
  type Amount = int

  /** A key origin: the master key fingerprint and derivation path (std::vector<uint32_t>). */
  type KeyOrigin = seq<nat>

  /** A snapshot of a PSBTInput; a null utxo is None. */
  datatype InputValue = InputValue(
    utxo: Option<TxOut>,
    partialSigs: map<KeyId, SigPair>,
    finalScriptSig: ScriptSig,
    redeemScript: Script,
    hdKeypaths: map<PubKey, KeyOrigin>,
    unknown: map<Bytes, Bytes>)
  {
    /** PSBTInput::IsNull; the final scriptSig is not consulted. */
    predicate IsNull()
      ensures IsNull() <==> this == NullInput.(finalScriptSig := finalScriptSig)
    {
      utxo.None? && partialSigs == map[] && unknown == map[] && hdKeypaths == map[] && redeemScript == []
    }

    /** PSBTInput::IsSane accepts every input. */
    predicate IsSane()
      ensures IsSane()
    {
      true
    }
  }

  const NullInput := InputValue(None, map[], [], [], map[], map[])

  /** A snapshot of a PSBTOutput. */
  datatype OutputValue = OutputValue(
    redeemScript: Script,
    hdKeypaths: map<PubKey, KeyOrigin>,
    unknown: map<Bytes, Bytes>)
  {
    /** PSBTOutput::IsNull: the record is the empty one. */
    predicate IsNull()
      ensures IsNull() <==> this == NullOutput
    {
      redeemScript == [] && hdKeypaths == map[] && unknown == map[]
    }
  }

  const NullOutput := OutputValue([], map[], map[])

  /** `mine` unless it is empty, then `theirs`: the fill-only-if-absent rule. */
  function FillIfEmpty<T>(mine: seq<T>, theirs: seq<T>): (r: seq<T>)
    ensures mine != [] ==> r == mine
    ensures mine == [] ==> r == theirs
  {
    if mine == [] && theirs != [] then theirs else mine
  }

  // ---------------------------------------------------------------------
  // Merge rules

  /** PSBTInput::Merge: maps united with existing entries kept; utxo, redeem script and final scriptSig filled only if absent. */
  function MergeInput(a: InputValue, b: InputValue): (r: InputValue)
    ensures a.utxo.Some? ==> r.utxo == a.utxo
    ensures a.utxo.None? ==> r.utxo == b.utxo
    ensures r.partialSigs.Keys == a.partialSigs.Keys + b.partialSigs.Keys && Extends(a.partialSigs, r.partialSigs)
    ensures r.hdKeypaths.Keys == a.hdKeypaths.Keys + b.hdKeypaths.Keys && Extends(a.hdKeypaths, r.hdKeypaths)
    ensures r.unknown.Keys == a.unknown.Keys + b.unknown.Keys && Extends(a.unknown, r.unknown)
    ensures a.redeemScript != [] ==> r.redeemScript == a.redeemScript
    ensures a.redeemScript == [] ==> r.redeemScript == b.redeemScript
    ensures a.finalScriptSig != [] ==> r.finalScriptSig == a.finalScriptSig
    ensures a.finalScriptSig == [] ==> r.finalScriptSig == b.finalScriptSig
  {
    InputValue(
      if a.utxo.None? && b.utxo.Some? then b.utxo else a.utxo,
      InsertAll(a.partialSigs, b.partialSigs),
      FillIfEmpty(a.finalScriptSig, b.finalScriptSig),
      FillIfEmpty(a.redeemScript, b.redeemScript),
      InsertAll(a.hdKeypaths, b.hdKeypaths),
      InsertAll(a.unknown, b.unknown))
  }

  /** PSBTOutput::Merge. */
  function MergeOutput(a: OutputValue, b: OutputValue): (r: OutputValue)
    ensures r.hdKeypaths.Keys == a.hdKeypaths.Keys + b.hdKeypaths.Keys && Extends(a.hdKeypaths, r.hdKeypaths)
    ensures r.unknown.Keys == a.unknown.Keys + b.unknown.Keys && Extends(a.unknown, r.unknown)
    ensures a.redeemScript != [] ==> r.redeemScript == a.redeemScript
    ensures a.redeemScript == [] ==> r.redeemScript == b.redeemScript
  {
    OutputValue(FillIfEmpty(a.redeemScript, b.redeemScript), InsertAll(a.hdKeypaths, b.hdKeypaths), InsertAll(a.unknown, b.unknown))
  }

  /** Merging the same input twice adds nothing the first merge did not. */
  lemma MergeInputIdempotent(a: InputValue, b: InputValue)
    ensures MergeInput(MergeInput(a, b), b) == MergeInput(a, b)
  {
    var r := MergeInput(a, b);
    assert InsertAll(r.partialSigs, b.partialSigs) == r.partialSigs;
    assert InsertAll(r.hdKeypaths, b.hdKeypaths) == r.hdKeypaths;
    assert InsertAll(r.unknown, b.unknown) == r.unknown;
  }

  /** Merging an input with a copy of itself changes nothing. */
  lemma MergeInputWithSelf(a: InputValue)
    ensures MergeInput(a, a) == a
  {
    assert InsertAll(a.partialSigs, a.partialSigs) == a.partialSigs;
    assert InsertAll(a.hdKeypaths, a.hdKeypaths) == a.hdKeypaths;
    assert InsertAll(a.unknown, a.unknown) == a.unknown;
  }

  /** A merged input is null exactly when both sides are. */
  lemma MergeInputIsNull(a: InputValue, b: InputValue)
    ensures MergeInput(a, b).IsNull() <==> a.IsNull() && b.IsNull()
  {
    var r := MergeInput(a, b);
    if r.IsNull() {
      assert a.partialSigs.Keys == {} && b.partialSigs.Keys == {};
      assert a.hdKeypaths.Keys == {} && b.hdKeypaths.Keys == {};
      assert a.unknown.Keys == {} && b.unknown.Keys == {};
    }
  }

  /** A null input is a neutral element on either side of a merge. */
  lemma MergeNullInput(a: InputValue)
    ensures MergeInput(a, NullInput) == a && MergeInput(NullInput, a) == a
  {
    assert InsertAll(a.partialSigs, map[]) == a.partialSigs && InsertAll(map[], a.partialSigs) == a.partialSigs;
    assert InsertAll(a.hdKeypaths, map[]) == a.hdKeypaths && InsertAll(map[], a.hdKeypaths) == a.hdKeypaths;
    assert InsertAll(a.unknown, map[]) == a.unknown && InsertAll(map[], a.unknown) == a.unknown;
  }

  /**
   * Merging B then C, or C then B, into A gives the same signing key ids and
   * unknown keys; a finalized side wins the final scriptSig in either order.
   */
  lemma MergeInputOrder(a: InputValue, b: InputValue, c: InputValue)
    ensures MergeInput(MergeInput(a, b), c).partialSigs.Keys == MergeInput(MergeInput(a, c), b).partialSigs.Keys
    ensures MergeInput(MergeInput(a, b), c).unknown.Keys == MergeInput(MergeInput(a, c), b).unknown.Keys
    ensures a.finalScriptSig != [] ==>
      MergeInput(MergeInput(a, b), c).finalScriptSig == a.finalScriptSig == MergeInput(MergeInput(a, c), b).finalScriptSig
    ensures a.finalScriptSig == [] && b.finalScriptSig != [] && c.finalScriptSig == [] ==>
      MergeInput(MergeInput(a, b), c).finalScriptSig == b.finalScriptSig == MergeInput(MergeInput(a, c), b).finalScriptSig
  {
    var abc := MergeInput(MergeInput(a, b), c);
    var acb := MergeInput(MergeInput(a, c), b);
    assert abc.partialSigs.Keys == a.partialSigs.Keys + b.partialSigs.Keys + c.partialSigs.Keys == acb.partialSigs.Keys;
    assert abc.unknown.Keys == a.unknown.Keys + b.unknown.Keys + c.unknown.Keys == acb.unknown.Keys;
  }

  /** Merging the same output twice adds nothing the first merge did not. */
  lemma MergeOutputIdempotent(a: OutputValue, b: OutputValue)
    ensures MergeOutput(MergeOutput(a, b), b) == MergeOutput(a, b)
  {
    var r := MergeOutput(a, b);
    assert InsertAll(r.hdKeypaths, b.hdKeypaths) == r.hdKeypaths;
    assert InsertAll(r.unknown, b.unknown) == r.unknown;
  }

  /** A merged output is null exactly when both sides are. */
  lemma MergeOutputIsNull(a: OutputValue, b: OutputValue)
    ensures MergeOutput(a, b).IsNull() <==> a.IsNull() && b.IsNull()
  {
    var r := MergeOutput(a, b);
    if r.IsNull() {
      assert a.hdKeypaths.Keys == {} && b.hdKeypaths.Keys == {};
      assert a.unknown.Keys == {} && b.unknown.Keys == {};
    }
  }

  // ---------------------------------------------------------------------
  // Adapters to and from SignatureData

  /**
   * `misc` is `misc0` after emplacing (hash(p), p) for every key p of `keys`,
   * in some order: old entries stay, every key's id is present, and every
   * new entry is one of the keys under its own id.
   */
  ghost predicate EmplacedKeys(hash: Bytes -> Bytes, keys: set<PubKey>, misc0: map<KeyId, PubKey>, misc: map<KeyId, PubKey>) {
    && Extends(misc0, misc)
    && (forall p :: p in keys ==> hash(p) in misc)
    && (forall k :: k in misc && k !in misc0 ==> misc[k] in keys && hash(misc[k]) == k)
  }

  /**
   * The known public keys after an input is filled and signed: the key-path
   * keys were emplaced, and every other new entry is a key the provider gave
   * for one of the ids the signer tried, lying under its own id.
   */
  ghost predicate MiscAfterSigning(hash: Bytes -> Bytes, provider: Provider, keys: set<PubKey>, ids: set<KeyId>,
                                   misc0: map<KeyId, PubKey>, misc: map<KeyId, PubKey>) {
    && Extends(misc0, misc)
    && (forall p :: p in keys ==> hash(p) in misc)
    && (forall k :: k in misc && k !in misc0 ==>
          && hash(misc[k]) == k
          && (misc[k] in keys || exists a :: a in ids && provider.getPubKey(a) == Some(misc[k])))
  }

  /** Emplacing the key-path keys and then signing leaves the known keys as MiscAfterSigning describes. */
  lemma EmplacedThenSigned(hash: Bytes -> Bytes, provider: Provider, keys: set<PubKey>, ids: set<KeyId>,
                           misc0: map<KeyId, PubKey>, mid: map<KeyId, PubKey>, misc: map<KeyId, PubKey>)
    requires EmplacedKeys(hash, keys, misc0, mid)
    requires MiscFromProvider(provider, hash, ids, mid, misc)
    ensures MiscAfterSigning(hash, provider, keys, ids, misc0, misc)
  {
    forall k | k in misc && k !in misc0
      ensures hash(misc[k]) == k
      ensures misc[k] in keys || exists a :: a in ids && provider.getPubKey(a) == Some(misc[k])
    {
      if k in mid {
        assert misc[k] == mid[k];
      }
    }
  }

  /**
   * PSBTInput::FillSignatureData apart from the key-path public keys: a
   * final scriptSig completes the data; complete data is left as it is;
   * otherwise the partial signatures are inserted and a non-empty redeem
   * script overwrites the one held.
   */
  function FillFromInput(input: InputValue, sd: SigDataValue): (r: SigDataValue)
    ensures input.finalScriptSig != [] ==> r == sd.(scriptSig := input.finalScriptSig, complete := true)
    ensures input.finalScriptSig == [] && sd.complete ==> r == sd
    ensures input.finalScriptSig == [] && !sd.complete ==>
      && r.complete == false && r.scriptSig == sd.scriptSig && r.miscPubkeys == sd.miscPubkeys
      && r.signatures.Keys == sd.signatures.Keys + input.partialSigs.Keys
      && Extends(sd.signatures, r.signatures)
      && r.redeemScript == (if input.redeemScript != [] then input.redeemScript else sd.redeemScript)
  {
    var sd1 := if input.finalScriptSig != [] then sd.(scriptSig := input.finalScriptSig, complete := true) else sd;
    if sd1.complete then sd1
    else sd1.(signatures := InsertAll(sd1.signatures, input.partialSigs),
              redeemScript := if input.redeemScript != [] then input.redeemScript else sd1.redeemScript)
  }

  /**
   * PSBTInput::FromSignatureData: complete data clears the partial material
   * and records a non-empty scriptSig as final; otherwise signatures are
   * added and the redeem script filled if absent.
   */
  function FromSigDataInput(input: InputValue, sd: SigDataValue): (r: InputValue)
    ensures r.utxo == input.utxo && r.unknown == input.unknown
    ensures sd.complete ==>
      && r.partialSigs == map[] && r.hdKeypaths == map[] && r.redeemScript == []
      && r.finalScriptSig == (if sd.scriptSig != [] then sd.scriptSig else input.finalScriptSig)
    ensures !sd.complete ==>
      && r.finalScriptSig == input.finalScriptSig && r.hdKeypaths == input.hdKeypaths
      && r.partialSigs.Keys == input.partialSigs.Keys + sd.signatures.Keys
      && Extends(input.partialSigs, r.partialSigs)
      && r.redeemScript == FillIfEmpty(input.redeemScript, sd.redeemScript)
  {
    if sd.complete then
      input.(partialSigs := map[], hdKeypaths := map[], redeemScript := [],
             finalScriptSig := if sd.scriptSig != [] then sd.scriptSig else input.finalScriptSig)
    else
      input.(partialSigs := InsertAll(input.partialSigs, sd.signatures),
             redeemScript := FillIfEmpty(input.redeemScript, sd.redeemScript))
  }

  /** Filling fresh data from a non-finalized input and storing it back leaves the input as it was. */
  lemma FillThenFromInput(input: InputValue, misc: map<KeyId, PubKey>)
    requires input.finalScriptSig == []
    ensures FromSigDataInput(input, FillFromInput(input, EmptySigData.(miscPubkeys := misc))) == input
  {
    var sd := FillFromInput(input, EmptySigData.(miscPubkeys := misc));
    assert sd.signatures == InsertAll(map[], input.partialSigs);
    assert InsertAll(input.partialSigs, sd.signatures) == input.partialSigs;
  }

  /** A finalized input, filled and stored back, keeps only its final scriptSig, utxo and unknown fields. */
  lemma FillThenFromFinalized(input: InputValue, sd: SigDataValue)
    requires input.finalScriptSig != []
    ensures FromSigDataInput(input, FillFromInput(input, sd))
         == NullInput.(utxo := input.utxo, unknown := input.unknown, finalScriptSig := input.finalScriptSig)
  {
  }

  /** PSBTOutput::FillSignatureData apart from the key-path public keys: a non-empty redeem script overwrites. */
  function FillFromOutput(output: OutputValue, sd: SigDataValue): (r: SigDataValue)
    ensures output.redeemScript != [] ==> r.redeemScript == output.redeemScript
    ensures output.redeemScript == [] ==> r == sd
    ensures r.complete == sd.complete && r.scriptSig == sd.scriptSig && r.signatures == sd.signatures && r.miscPubkeys == sd.miscPubkeys
  {
    if output.redeemScript != [] then sd.(redeemScript := output.redeemScript) else sd
  }

  /** PSBTOutput::FromSignatureData: the redeem script is filled only if absent. */
  function FromSigDataOutput(output: OutputValue, sd: SigDataValue): (r: OutputValue)
    ensures r.hdKeypaths == output.hdKeypaths && r.unknown == output.unknown
    ensures output.redeemScript != [] ==> r.redeemScript == output.redeemScript
    ensures output.redeemScript == [] ==> r.redeemScript == sd.redeemScript
  {
    output.(redeemScript := FillIfEmpty(output.redeemScript, sd.redeemScript))
  }

  /** An output's own redeem script survives a fill into any data and the store back. */
  lemma FillThenFromOutput(output: OutputValue, sd: SigDataValue)
    ensures FromSigDataOutput(output, FillFromOutput(output, sd)).redeemScript
         == (if output.redeemScript != [] then output.redeemScript else sd.redeemScript)
  {
  }

  /** Emplaces (hash(p), p) for every key of `keyPaths` into the SignatureData's misc_pubkeys. */
  method AddKeyPathPubKeys(hash: Bytes -> Bytes, keyPaths: map<PubKey, KeyOrigin>, sigdata: SignatureData)
    modifies sigdata
    ensures EmplacedKeys(hash, keyPaths.Keys, old(sigdata.miscPubkeys), sigdata.miscPubkeys)
    ensures sigdata.View() == old(sigdata.View()).(miscPubkeys := sigdata.miscPubkeys)
  {
    var todo := keyPaths.Keys;
    ghost var misc0 := sigdata.miscPubkeys;
    while todo != {}
      invariant todo <= keyPaths.Keys
      invariant EmplacedKeys(hash, keyPaths.Keys - todo, misc0, sigdata.miscPubkeys)
      invariant sigdata.View() == old(sigdata.View()).(miscPubkeys := sigdata.miscPubkeys)
      decreases todo
    {
      var p :| p in todo;
      sigdata.miscPubkeys := Emplace(sigdata.miscPubkeys, hash(p), p);
      todo := todo - {p};
    }
  }

  // ---------------------------------------------------------------------
  // The records

  class PSBTInput {
    var utxo: Option<TxOut>
    var partialSigs: map<KeyId, SigPair>
    var finalScriptSig: ScriptSig
    var redeemScript: Script
    var hdKeypaths: map<PubKey, KeyOrigin>
    var unknown: map<Bytes, Bytes>

    constructor ()
      ensures View() == NullInput
    {
      utxo, partialSigs, finalScriptSig, redeemScript, hdKeypaths, unknown := None, map[], [], [], map[], map[];
    }

    function View(): InputValue
      reads this
    {
      InputValue(utxo, partialSigs, finalScriptSig, redeemScript, hdKeypaths, unknown)
    }

    /** Merges a copy of another input into this one. */
    method Merge(input: InputValue)
      modifies this
      ensures View() == MergeInput(old(View()), input)
    {
      if utxo.None? && input.utxo.Some? {
        utxo := input.utxo;
      }
      partialSigs := InsertAll(partialSigs, input.partialSigs);
      hdKeypaths := InsertAll(hdKeypaths, input.hdKeypaths);
      unknown := InsertAll(unknown, input.unknown);
      if redeemScript == [] && input.redeemScript != [] {
        redeemScript := input.redeemScript;
      }
      if finalScriptSig == [] && input.finalScriptSig != [] {
        finalScriptSig := input.finalScriptSig;
      }
    }

    /** Loads this input's signing material into `sigdata`; `hash` gives a public key's id. */
    method FillSignatureData(hash: Bytes -> Bytes, sigdata: SignatureData)
      modifies sigdata
      ensures sigdata.View() == FillFromInput(View(), old(sigdata.View())).(miscPubkeys := sigdata.miscPubkeys)
      ensures FillFromInput(View(), old(sigdata.View())).complete ==> sigdata.miscPubkeys == old(sigdata.miscPubkeys)
      ensures !FillFromInput(View(), old(sigdata.View())).complete ==>
        EmplacedKeys(hash, hdKeypaths.Keys, old(sigdata.miscPubkeys), sigdata.miscPubkeys)
    {
      if finalScriptSig != [] {
        sigdata.scriptSig := finalScriptSig;
        sigdata.complete := true;
      }
      if sigdata.complete {
        return;
      }
      sigdata.signatures := InsertAll(sigdata.signatures, partialSigs);
      if redeemScript != [] {
        sigdata.redeemScript := redeemScript;
      }
      AddKeyPathPubKeys(hash, hdKeypaths, sigdata);
    }

    /** Stores what a signing pass left in `sigdata` back into this input. */
    method FromSignatureData(sigdata: SigDataValue)
      modifies this
      ensures View() == FromSigDataInput(old(View()), sigdata)
    {
      if sigdata.complete {
        partialSigs := map[];
        hdKeypaths := map[];
        redeemScript := [];
        if sigdata.scriptSig != [] {
          finalScriptSig := sigdata.scriptSig;
        }
        return;
      }
      partialSigs := InsertAll(partialSigs, sigdata.signatures);
      if redeemScript == [] && sigdata.redeemScript != [] {
        redeemScript := sigdata.redeemScript;
      }
    }
  }

  class PSBTOutput {
    var redeemScript: Script
    var hdKeypaths: map<PubKey, KeyOrigin>
    var unknown: map<Bytes, Bytes>

    constructor ()
      ensures View() == NullOutput
    {
      redeemScript, hdKeypaths, unknown := [], map[], map[];
    }

    function View(): OutputValue
      reads this
    {
      OutputValue(redeemScript, hdKeypaths, unknown)
    }

    /** Merges a copy of another output into this one. */
    method Merge(output: OutputValue)
      modifies this
      ensures View() == MergeOutput(old(View()), output)
    {
      hdKeypaths := InsertAll(hdKeypaths, output.hdKeypaths);
      unknown := InsertAll(unknown, output.unknown);
      if redeemScript == [] && output.redeemScript != [] {
        redeemScript := output.redeemScript;
      }
    }

    /** Loads this output's redeem script and key-path public keys into `sigdata`. */
    method FillSignatureData(hash: Bytes -> Bytes, sigdata: SignatureData)
      modifies sigdata
      ensures sigdata.View() == FillFromOutput(View(), old(sigdata.View())).(miscPubkeys := sigdata.miscPubkeys)
      ensures EmplacedKeys(hash, hdKeypaths.Keys, old(sigdata.miscPubkeys), sigdata.miscPubkeys)
    {
      if redeemScript != [] {
        sigdata.redeemScript := redeemScript;
      }
      AddKeyPathPubKeys(hash, hdKeypaths, sigdata);
    }

    /** Keeps the redeem script a signing pass found, if this output had none. */
    method FromSignatureData(sigdata: SigDataValue)
      modifies this
      ensures View() == FromSigDataOutput(old(View()), sigdata)
    {
      if redeemScript == [] && sigdata.redeemScript != [] {
        redeemScript := sigdata.redeemScript;
      }
    }
  }

  // ---------------------------------------------------------------------
  // The container

  /** No record object appears twice. */
  ghost predicate Distinct<T>(records: seq<T>) {
    forall i, j :: 0 <= i < j < |records| ==> records[i] != records[j]
  }

  /** No record object is shared by the two sequences. */
  ghost predicate Disjoint<T>(mine: seq<T>, theirs: seq<T>) {
    forall i, j :: 0 <= i < |mine| && 0 <= j < |theirs| ==> mine[i] != theirs[j]
  }

  class PartiallySignedTransaction {
    var tx: Option<Transaction>
    var inputs: seq<PSBTInput>
    var outputs: seq<PSBTOutput>
    var unknown: map<Bytes, Bytes>

    /** PartiallySignedTransaction::IsNull: no transaction, no records and no unknown entries. */
    predicate IsNull()
      reads this
      ensures IsNull() ==> |inputs| == 0 && |outputs| == 0
    {
      tx.None? && inputs == [] && outputs == [] && unknown == map[]
    }

    /** PartiallySignedTransaction::IsSane: every input is sane. */
    method IsSane() returns (sane: bool)
      ensures sane <==> forall i :: 0 <= i < |inputs| ==> inputs[i].View().IsSane()
      ensures sane
    {
      for i := 0 to |inputs|
        invariant forall j :: 0 <= j < i ==> inputs[j].View().IsSane()
      {
        if !inputs[i].View().IsSane() {
          return false;
        }
      }
      return true;
    }

    /**
     * Merges `psbt` into this container position by position; `psbt` must
     * have at least as many inputs and outputs.  The transaction and the
     * container's own unknown fields are left as they are.
     */
    method Merge(psbt: PartiallySignedTransaction)
      requires |psbt.inputs| >= |inputs| && |psbt.outputs| >= |outputs|
      requires Distinct(inputs) && Distinct(outputs)
      requires Disjoint(inputs, psbt.inputs) && Disjoint(outputs, psbt.outputs)
      modifies inputs, outputs
      ensures forall i :: 0 <= i < |inputs| ==> inputs[i].View() == MergeInput(old(inputs[i].View()), old(psbt.inputs[i].View()))
      ensures forall i :: 0 <= i < |outputs| ==> outputs[i].View() == MergeOutput(old(outputs[i].View()), old(psbt.outputs[i].View()))
      ensures IsNull() == old(IsNull())
    {
      MergeInputs(inputs, psbt.inputs);
      MergeOutputs(outputs, psbt.outputs, inputs);
    }
  }

  /** The input loop of PartiallySignedTransaction::Merge. */
  method MergeInputs(mine: seq<PSBTInput>, theirs: seq<PSBTInput>)
    requires |theirs| >= |mine| && Distinct(mine) && Disjoint(mine, theirs)
    modifies mine
    ensures forall i :: 0 <= i < |mine| ==> mine[i].View() == MergeInput(old(mine[i].View()), old(theirs[i].View()))
  {
    for i := 0 to |mine|
      invariant forall j :: 0 <= j < i ==> mine[j].View() == MergeInput(old(mine[j].View()), old(theirs[j].View()))
      invariant forall j :: i <= j < |mine| ==> mine[j].View() == old(mine[j].View()) && theirs[j].View() == old(theirs[j].View())
    {
      mine[i].Merge(theirs[i].View());
    }
  }

  /**
   * The output loop of PartiallySignedTransaction::Merge; the input records
   * in `inputs` keep their contents.
   */
  method MergeOutputs(mine: seq<PSBTOutput>, theirs: seq<PSBTOutput>, ghost inputs: seq<PSBTInput>)
    requires |theirs| >= |mine| && Distinct(mine) && Disjoint(mine, theirs)
    modifies mine
    ensures forall i :: 0 <= i < |mine| ==> mine[i].View() == MergeOutput(old(mine[i].View()), old(theirs[i].View()))
    ensures forall i :: 0 <= i < |inputs| ==> inputs[i].View() == old(inputs[i].View())
  {
    for i := 0 to |mine|
      invariant forall j :: 0 <= j < i ==> mine[j].View() == MergeOutput(old(mine[j].View()), old(theirs[j].View()))
      invariant forall j :: i <= j < |mine| ==> mine[j].View() == old(mine[j].View()) && theirs[j].View() == old(theirs[j].View())
      invariant forall j :: 0 <= j < |inputs| ==> inputs[j].View() == old(inputs[j].View())
    {
      mine[i].Merge(theirs[i].View());
    }
  }

  // ---------------------------------------------------------------------
  // Signing one input

  /**
   * SignPSBTInput: a finalized input is reported signed and left alone;
   * otherwise the input's material is loaded into `sigdata`, and without a
   * utxo nothing is signed; with one, ProduceSignature runs with the creator
   * for the utxo's amount (`creatorFor`, which stands for the transaction,
   * input index and sighash type) and the result is stored back.
   */
  method SignPSBTInput(env: Env, provider: Provider, creatorFor: Amount -> Creator,
                       input: PSBTInput, sigdata: SignatureData) returns (complete: bool, ghost filled: map<KeyId, PubKey>)
    requires env.Valid()
    modifies input, sigdata
    ensures old(input.finalScriptSig) != [] ==>
      complete && input.View() == old(input.View()) && sigdata.View() == old(sigdata.View())
    ensures old(input.finalScriptSig) == [] && old(input.utxo).None? ==>
      && !complete
      && input.View() == old(input.View())
      && sigdata.View() == FillFromInput(old(input.View()), old(sigdata.View())).(miscPubkeys := sigdata.miscPubkeys)
    ensures old(input.finalScriptSig) == [] && old(input.utxo).Some? ==>
      && complete == sigdata.complete
      && input.View() == FromSigDataInput(old(input.View()), sigdata.View())
    ensures old(input.finalScriptSig) == [] && old(input.utxo).Some? ==>
      var sd := FillFromInput(old(input.View()), old(sigdata.View()));
      var utxo := old(input.utxo).value;
      var sg := Signing(env, provider, creatorFor(utxo.value));
      && (sd.complete ==> complete)
      && (!sd.complete ==>
            var p := ProduceSpec(sg, utxo.scriptPubKey, sd.signatures, sd.redeemScript);
            var code := if p.viaScriptHash then p.subscript else utxo.scriptPubKey;
            && sigdata.scriptSig == PushAll(p.stack)
            && (complete <==> p.solved && env.verify(PushAll(p.stack), utxo.scriptPubKey, sg.creator.checker))
            && sigdata.redeemScript == (if p.viaScriptHash then p.subscript else sd.redeemScript)
            && Cached(sg.creator, code, sd.signatures, sigdata.signatures)
            && NewKeysWithin(sd.signatures, sigdata.signatures, StepAttempted(sg, code, sd.signatures))
            && StoredFor(sg.creator, code, sd.signatures, sigdata.signatures, StepAttempted(sg, code, sd.signatures))
            && MiscAfterSigning(env.hash160, provider, old(input.hdKeypaths).Keys, StepAttempted(sg, code, sd.signatures),
                                old(sigdata.miscPubkeys), sigdata.miscPubkeys)
            && MiscFromProvider(provider, env.hash160, StepAttempted(sg, code, sd.signatures), filled, sigdata.miscPubkeys)
            && PubKeysFor(provider, filled, sigdata.miscPubkeys, sd.signatures, sigdata.signatures)
            && ProviderKeysKnown(provider, env.hash160, sd.signatures, StepAttempted(sg, code, sd.signatures), sigdata.miscPubkeys)
            && (!complete ==> sigdata.signatures.Keys <= input.partialSigs.Keys)
            && (!complete ==> forall k :: k in sigdata.signatures && k !in sd.signatures ==>
                  input.partialSigs[k] == sigdata.signatures[k]))
    ensures old(input.finalScriptSig) == [] && !old(sigdata.complete) ==>
      EmplacedKeys(env.hash160, old(input.hdKeypaths).Keys, old(sigdata.miscPubkeys), filled)
    ensures old(input.finalScriptSig) == [] && old(input.utxo).None? ==> sigdata.miscPubkeys == filled
    ensures old(input.finalScriptSig) == [] && old(sigdata.complete) ==>
      complete == old(input.utxo).Some? && sigdata.View() == old(sigdata.View())
    ensures Extends(old(sigdata.signatures), sigdata.signatures)
  {
    if input.finalScriptSig != [] {
      return true, sigdata.miscPubkeys;
    }
    input.FillSignatureData(env.hash160, sigdata);
    filled := sigdata.miscPubkeys;
    if input.utxo.None? {
      return false, filled;
    }
    var utxo := input.utxo.value;
    var sg := Signing(env, provider, creatorFor(utxo.value));
    ghost var sd := FillFromInput(old(input.View()), old(sigdata.View()));
    assert sigdata.complete == sd.complete && sigdata.signatures == sd.signatures && sigdata.redeemScript == sd.redeemScript;
    ghost var mid := sigdata.miscPubkeys;
    complete := ProduceSignature(sg, utxo.scriptPubKey, sigdata);
    if !sd.complete {
      var p := ProduceSpec(sg, utxo.scriptPubKey, sd.signatures, sd.redeemScript);
      var code := if p.viaScriptHash then p.subscript else utxo.scriptPubKey;
      EmplacedThenSigned(env.hash160, provider, old(input.hdKeypaths).Keys, StepAttempted(sg, code, sd.signatures),
                         old(sigdata.miscPubkeys), mid, sigdata.miscPubkeys);
    }
    input.FromSignatureData(sigdata.View());
  }

}
