/**
 * The collaborators the signing code consumes but does not implement:
 * hashing, the standard classifier, the script interpreter, the key store
 * and the signature creator with its paired checker.
 */
module Externals {
  import opened Script

  /** CheckSig(signature, public key, script code). */
  type Checker = (Bytes, PubKey, Script) -> bool

  /** SigningProvider: pure lookups, absence is not an error. */
  datatype Provider = Provider(
    getPubKey: KeyId -> Option<PubKey>,
    getCScript: ScriptId -> Option<Script>)

  /**
   * BaseSignatureCreator: CreateSig(key id, script code) as a partial
   * function, and the checker it is paired with (Checker()).
   */
  datatype Creator = Creator(
    createSig: (KeyId, Script) -> Option<Bytes>,
    checker: Checker)

  /** One call the interpreter makes into the checker while verifying. */
  datatype SigCheck = SigCheck(sig: Bytes, pubkey: PubKey, scriptCode: Script)

  /**
   * hash160: CPubKey::GetID and CScriptID.
   * solver: the standard Solver.
   * verify: VerifyScript(scriptSig, scriptPubKey, STANDARD flags, checker).
   * evalStack: the stack EvalScript leaves after running a scriptSig.
   * sigChecks: the CheckSig calls VerifyScript makes, in order.
   */
  datatype Env = Env(
    hash160: Bytes -> Bytes,
    solver: Script -> Solved,
    verify: (ScriptSig, Script, Checker) -> bool,
    evalStack: ScriptSig -> seq<Bytes>,
    sigChecks: (ScriptSig, Script, Checker) -> seq<SigCheck>)
  {
    /** The classifier always returns a solution vector of the shape its type promises. */
    ghost predicate Valid() {
      forall s :: WellShaped(solver(s))
    }
  }

  /**
   * Solution vectors as the classifiers lay them out: one item for the
   * pay-to-pubkey, pay-to-pubkey-hash and pay-to-script-hash types,
   * [m] ++ keys ++ [n] for multisig.
   */
  predicate WellShaped(r: Solved) {
    match r.typ
    case TxPubKey => |r.solutions| >= 1
    case TxPubKeyHash => |r.solutions| >= 1
    case TxScriptHash => |r.solutions| >= 1
    case TxMultisig => |r.solutions| >= 2 && |r.solutions[0]| >= 1
    case _ => true
  }

  /** The signing capabilities one signing pass works with. */
  datatype Signing = Signing(env: Env, provider: Provider, creator: Creator)
}
