/**
 * DummySignatureCreator: a creator that signs for every key with a fixed
 * 72-byte placeholder, paired with a checker that accepts everything;
 * used to size transactions before real signing.
 */
module Dummy {
  import opened Script
  import opened Externals
  import opened Signatures
  import opened Sign

  /** SIGHASH_ALL | SIGHASH_FORKID. */
  const SIGHASH_ALL_FORKID: Byte := 0x41

  /**
   * The placeholder: a DER sequence header (0x30, 69), an r of 33 bytes
   * and an s of 32 bytes, each starting with 0x01, and the sighash byte last.
   */
  function DummySignature(): (r: Bytes)
    ensures |r| == 72
    ensures r[0] == 0x30 && r[1] == 69
    ensures r[2] == 0x02 && r[3] == 33 && r[4] == 0x01
    ensures r[37] == 0x02 && r[38] == 32 && r[39] == 0x01
    ensures r[71] == SIGHASH_ALL_FORKID
    ensures forall i :: 0 <= i < 72 && i !in {0, 1, 2, 3, 4, 37, 38, 39, 71} ==> r[i] == 0
  {
    seq(72, i requires 0 <= i < 72 =>
      if i == 0 then 0x30
      else if i == 1 then 69
      else if i == 2 then 0x02
      else if i == 3 then 33
      else if i == 4 then 0x01
      else if i == 4 + 33 then 0x02
      else if i == 5 + 33 then 32
      else if i == 6 + 33 then 0x01
      else if i == 6 + 33 + 32 then SIGHASH_ALL_FORKID
      else 0)
  }

  /** The dummy creator: CreateSig always succeeds with DummySignature; its checker accepts every signature. */
  function DummyCreator(): (c: Creator)
    ensures forall id, code :: c.createSig(id, code) == Some(DummySignature())
    ensures forall sig, pubkey, code :: c.checker(sig, pubkey, code)
  {
    Creator((id: KeyId, code: Script) => Some(DummySignature()), (sig: Bytes, pubkey: PubKey, code: Script) => true)
  }

  /**
   * Strict DER encoding of an ECDSA signature followed by one sighash byte
   * (the BIP 66 rules): lengths consistent, integers non-empty, positive
   * and minimally encoded.
   */
  predicate IsValidSignatureEncoding(sig: Bytes) {
    && 9 <= |sig| <= 73
    && sig[0] == 0x30
    && sig[1] == |sig| - 3
    && var lenR := sig[3];
       && 5 + lenR < |sig|
       && var lenS := sig[5 + lenR];
          && lenR + lenS + 7 == |sig|
          && sig[2] == 0x02
          && lenR != 0
          && sig[4] < 0x80
          && !(lenR > 1 && sig[4] == 0 && sig[5] < 0x80)
          && sig[lenR + 4] == 0x02
          && lenS != 0
          && sig[lenR + 6] < 0x80
          && !(lenS > 1 && sig[lenR + 6] == 0 && sig[lenR + 7] < 0x80)
  }

  /** The placeholder is a strictly DER-encoded signature with a sighash byte. */
  lemma DummySignatureIsStrictDer()
    ensures IsValidSignatureEncoding(DummySignature())
  {
    var d := DummySignature();
    assert d[5 + 33] == 32 && d[33 + 4] == 0x02 && d[33 + 6] == 0x01;
  }

  /**
   * With the dummy creator, an m-of-n multisig step is solved exactly when
   * there are at least m keys: every key yields a signature.
   */
  lemma DummyMultisigSolved(env: Env, provider: Provider, script: Script, sigs: map<KeyId, SigPair>, redeem: Script)
    requires env.Valid()
    requires env.solver(script).ok && env.solver(script).typ == TxMultisig
    ensures var sol := env.solver(script);
      var sg := Signing(env, provider, DummyCreator());
      StepSpec(sg, script, sigs, redeem).solved <==> sol.solutions[0][0] <= |MultisigKeys(sol.solutions)|
  {
    var sol := env.solver(script);
    assert WellShaped(sol);
    var keys := MultisigKeys(sol.solutions);
    var c := DummyCreator();
    forall i | 0 <= i < |keys|
      ensures SigFor(c, sigs, script, env.hash160(keys[i])).Some?
    {
    }
    CollectAllSigners(c, env.hash160, sigs, script, keys, sol.solutions[0][0], 0);
  }
}
