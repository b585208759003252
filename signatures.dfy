/**
 * SignatureData: the per-input accumulator of signing progress, its merge
 * rule, and the std::map insertion primitives the signing code uses.
 */
module Signatures {
  import opened Script

  /** The (public key, signature) pair stored per key id. */
  datatype SigPair = SigPair(pubkey: PubKey, sig: Bytes)

  /** A snapshot of every field of a SignatureData. */
  datatype SigDataValue = SigDataValue(
    complete: bool,
    scriptSig: ScriptSig,
    redeemScript: Script,
    signatures: map<KeyId, SigPair>,
    miscPubkeys: map<KeyId, PubKey>)

  const EmptySigData := SigDataValue(false, [], [], map[], map[])

  /** std::map::insert of every entry of `from`: keys already present keep their values. */
  function InsertAll<K, V>(into: map<K, V>, from: map<K, V>): (r: map<K, V>)
    ensures r.Keys == into.Keys + from.Keys
    ensures forall k :: k in into ==> r[k] == into[k]
    ensures forall k :: k in from && k !in into ==> r[k] == from[k]
  {
    from + into
  }

  /** std::map::emplace: inserts only when the key is absent. */
  function Emplace<K, V>(m: map<K, V>, k: K, v: V): (r: map<K, V>)
    ensures r.Keys == m.Keys + {k}
    ensures forall j :: j in m ==> r[j] == m[j]
    ensures k !in m ==> r[k] == v
  {
    if k in m then m else m[k := v]
  }

  /** `big` holds every entry of `small` with the same value. */
  ghost predicate Extends<K, V>(small: map<K, V>, big: map<K, V>) {
    forall k :: k in small ==> k in big && big[k] == small[k]
  }

  /** SignatureData::MergeSignatureData: the receiver is `self`, the argument `other`. */
  function MergeSpec(self: SigDataValue, other: SigDataValue): (r: SigDataValue)
    ensures self.complete ==> r == self
    ensures !self.complete && other.complete ==> r == other
    ensures !self.complete && !other.complete ==>
      && !r.complete
      && r.scriptSig == self.scriptSig
      && r.miscPubkeys == self.miscPubkeys
      && r.signatures.Keys == self.signatures.Keys + other.signatures.Keys
      && Extends(self.signatures, r.signatures)
      && (self.redeemScript != [] ==> r.redeemScript == self.redeemScript)
      && (self.redeemScript == [] ==> r.redeemScript == other.redeemScript)
  {
    if self.complete then self
    else if other.complete then other
    else
      var redeem := if self.redeemScript == [] && other.redeemScript != [] then other.redeemScript else self.redeemScript;
      self.(redeemScript := redeem, signatures := InsertAll(self.signatures, other.signatures))
  }

  /** Merging the same argument twice changes nothing more than merging it once. */
  lemma MergeIdempotent(a: SigDataValue, b: SigDataValue)
    ensures MergeSpec(MergeSpec(a, b), b) == MergeSpec(a, b)
  {
    var r := MergeSpec(a, b);
    if !a.complete && !b.complete {
      assert InsertAll(r.signatures, b.signatures) == r.signatures;
    }
  }

  /** Merging a value with itself is the identity. */
  lemma MergeWithSelf(a: SigDataValue)
    ensures MergeSpec(a, a) == a
  {
    if !a.complete {
      assert InsertAll(a.signatures, a.signatures) == a.signatures;
    }
  }

  /**
   * Merging two incomplete contributions in either order collects the same
   * set of signing key ids, and every id the receiver already had keeps its pair.
   */
  lemma MergeOrderKeys(a: SigDataValue, b: SigDataValue, c: SigDataValue)
    requires !a.complete && !b.complete && !c.complete
    ensures MergeSpec(MergeSpec(a, b), c).signatures.Keys == MergeSpec(MergeSpec(a, c), b).signatures.Keys
    ensures Extends(a.signatures, MergeSpec(MergeSpec(a, b), c).signatures)
    ensures MergeSpec(MergeSpec(a, b), c).redeemScript == MergeSpec(MergeSpec(a, c), b).redeemScript
            || (a.redeemScript == [] && b.redeemScript != [] && c.redeemScript != [])
  {
  }

  /** A complete contribution dominates an incomplete receiver whichever is merged into which. */
  lemma CompleteDominates(a: SigDataValue, b: SigDataValue)
    requires !a.complete && b.complete
    ensures MergeSpec(a, b) == b && MergeSpec(b, a) == b
  {
  }

  class SignatureData {
    var complete: bool
    var scriptSig: ScriptSig
    var redeemScript: Script
    var signatures: map<KeyId, SigPair>
    var miscPubkeys: map<KeyId, PubKey>

    constructor ()
      ensures View() == EmptySigData
    {
      complete := false;
      scriptSig := [];
      redeemScript := [];
      signatures := map[];
      miscPubkeys := map[];
    }

    function View(): SigDataValue
      reads this
    {
      SigDataValue(complete, scriptSig, redeemScript, signatures, miscPubkeys)
    }

    /** Merges `other` (passed by value) into this accumulator. */
    method MergeSignatureData(other: SigDataValue)
      modifies this
      ensures View() == MergeSpec(old(View()), other)
    {
      if complete {
        return;
      }
      if other.complete {
        complete, scriptSig, redeemScript := other.complete, other.scriptSig, other.redeemScript;
        signatures, miscPubkeys := other.signatures, other.miscPubkeys;
        return;
      }
      if redeemScript == [] && other.redeemScript != [] {
        redeemScript := other.redeemScript;
      }
      signatures := InsertAll(signatures, other.signatures);
    }
  }
}
