/** Values shared by the signing code, the script classifier and the PSBT containers. */
module Script {

  datatype Option<+T> = None | Some(value: T)

  type Byte = b: int | 0 <= b < 256
  type Bytes = seq<Byte>

  /** Hash160 of a serialized public key (CKeyID) or of a script (CScriptID). */
  type KeyId = Bytes
  type ScriptId = Bytes
  /** A serialized public key (CPubKey); the empty vector is the default, invalid key. */
  type PubKey = Bytes
  /** A serialized locking or redeem script (CScript). */
  type Script = Bytes

  const OP_0: Byte := 0x00
  const OP_PUSHDATA4: Byte := 0x4e
  const OP_RETURN: Byte := 0x6a
  const OP_EQUAL: Byte := 0x87
  const OP_HASH160: Byte := 0xa9

  /** The standard output types of txnouttype that the code here distinguishes. */
  datatype TxOutType = TxNonstandard | TxPubKey | TxPubKeyHash | TxScriptHash | TxMultisig | TxNullData

  type SmallInt = n: int | 1 <= n <= 16 witness 1

  /**
   * One operation of an unlocking script: OP_0, OP_1..OP_16, a data push,
   * or any other opcode (only found in scripts taken from a transaction).
   */
  datatype Op = Op0 | OpN(n: SmallInt) | PushData(data: Bytes) | NonPush(opcode: Byte)

  /** An unlocking script (scriptSig) at the level of its operations. */
  type ScriptSig = seq<Op>

  /** What a classifier reports: success, the type and the solution vector. */
  datatype Solved = Solved(ok: bool, typ: TxOutType, solutions: seq<Bytes>)

  datatype TxOut = TxOut(value: int, scriptPubKey: Script)
  datatype TxIn = TxIn(scriptSig: ScriptSig)
  datatype Transaction = Transaction(vin: seq<TxIn>, vout: seq<TxOut>)
}
