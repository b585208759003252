/**
 * The script helpers of the Omni layer: a classifier with a fixed priority
 * order and solution layout, the output-type query built on it, and the
 * extraction of every pushed data item of a script.
 */
module OmniScript {
  import opened Script
  import opened Externals
  import Sign

  /**
   * The byte-level matchers the classifier relies on: IsPushOnly, and
   * MatchPayToPubkey / MatchPayToPubkeyHash / MatchMultisig with their payloads.
   */
  datatype Matchers = Matchers(
    isPushOnly: Bytes -> bool,
    matchPayToPubkey: Bytes -> Option<Bytes>,
    matchPayToPubkeyHash: Bytes -> Option<Bytes>,
    matchMultisig: Bytes -> Option<(nat, seq<Bytes>)>)

  /** CScript::IsPayToScriptHash: OP_HASH160, a 20-byte push, OP_EQUAL. */
  predicate IsPayToScriptHash(s: Script) {
    |s| == 23 && s[0] == OP_HASH160 && s[1] == 0x14 && s[22] == OP_EQUAL
  }

  /** The pay-to-script-hash locking script for a 20-byte script hash. */
  function PayToScriptHash(h: Bytes): (s: Script)
    requires |h| == 20
    ensures IsPayToScriptHash(s)
  {
    [OP_HASH160, 0x14] + h + [OP_EQUAL]
  }

  /** A value cast to uint8_t. */
  function U8(n: nat): (b: Byte)
    ensures n < 256 ==> b == n
  {
    n % 256
  }

  /**
   * SafeSolver: pay-to-script-hash first, then data-carrying OP_RETURN
   * outputs of at least two bytes, then the pubkey, pubkey-hash and multisig
   * matchers in that order; otherwise not standard with no solutions.
   */
  function SafeSolver(m: Matchers, s: Script): (r: Solved)
    ensures !r.ok ==> r.typ == TxNonstandard && r.solutions == []
    ensures r.ok ==> r.typ != TxNonstandard
    ensures WellShaped(r)
    ensures IsPayToScriptHash(s) ==> r == Solved(true, TxScriptHash, [s[2..22]]) && |r.solutions[0]| == 20
    ensures !IsPayToScriptHash(s) && |s| >= 2 && s[0] == OP_RETURN && m.isPushOnly(s[1..]) ==>
      r == Solved(true, TxNullData, [])
    ensures r.typ == TxPubKey ==> m.matchPayToPubkey(s).Some? && r.ok && r.solutions == [m.matchPayToPubkey(s).value]
    ensures r.typ == TxPubKeyHash ==> m.matchPayToPubkeyHash(s).Some? && r.ok && r.solutions == [m.matchPayToPubkeyHash(s).value]
    ensures r.typ == TxMultisig ==> m.matchMultisig(s).Some?
    ensures r.typ == TxMultisig && m.matchMultisig(s).Some? ==>
      var (required, keys) := m.matchMultisig(s).value;
      && r.ok
      && |r.solutions| == |keys| + 2
      && r.solutions == [[U8(required)]] + keys + [[U8(|keys|)]]
    ensures r.typ == TxScriptHash <==> IsPayToScriptHash(s)
    ensures r.typ == TxNullData <==> !IsPayToScriptHash(s) && |s| >= 2 && s[0] == OP_RETURN && m.isPushOnly(s[1..])
    ensures r.typ == TxPubKey <==>
      && !IsPayToScriptHash(s) && !(|s| >= 2 && s[0] == OP_RETURN && m.isPushOnly(s[1..]))
      && m.matchPayToPubkey(s).Some?
    ensures r.typ == TxPubKeyHash <==>
      && !IsPayToScriptHash(s) && !(|s| >= 2 && s[0] == OP_RETURN && m.isPushOnly(s[1..]))
      && m.matchPayToPubkey(s).None? && m.matchPayToPubkeyHash(s).Some?
    ensures r.typ == TxMultisig <==>
      && !IsPayToScriptHash(s) && !(|s| >= 2 && s[0] == OP_RETURN && m.isPushOnly(s[1..]))
      && m.matchPayToPubkey(s).None? && m.matchPayToPubkeyHash(s).None? && m.matchMultisig(s).Some?
    ensures r.typ == TxNonstandard <==>
      && !IsPayToScriptHash(s)
      && !(|s| >= 2 && s[0] == OP_RETURN && m.isPushOnly(s[1..]))
      && m.matchPayToPubkey(s).None? && m.matchPayToPubkeyHash(s).None? && m.matchMultisig(s).None?
  {
    if IsPayToScriptHash(s) then Solved(true, TxScriptHash, [s[2..22]])
    else if |s| >= 2 && s[0] == OP_RETURN && m.isPushOnly(s[1..]) then Solved(true, TxNullData, [])
    else if m.matchPayToPubkey(s).Some? then Solved(true, TxPubKey, [m.matchPayToPubkey(s).value])
    else if m.matchPayToPubkeyHash(s).Some? then Solved(true, TxPubKeyHash, [m.matchPayToPubkeyHash(s).value])
    else if m.matchMultisig(s).Some? then
      var (required, keys) := m.matchMultisig(s).value;
      Solved(true, TxMultisig, [[U8(required)]] + keys + [[U8(|keys|)]])
    else Solved(false, TxNonstandard, [])
  }

  /** The classifier recovers the script hash from the script it is put in. */
  lemma {:induction false} PayToScriptHashRoundTrip(m: Matchers, h: Bytes)
    requires |h| == 20
    ensures SafeSolver(m, PayToScriptHash(h)) == Solved(true, TxScriptHash, [h])
  {
    var s := PayToScriptHash(h);
    assert s[2..22] == h;
  }

  /**
   * For the 1..16 signatures and keys MatchMultisig admits, the solution
   * vector is laid out exactly as the signing code indexes it: item 0 is the
   * required count and the keys sit between the two counts.
   */
  lemma {:induction false} MultisigLayout(m: Matchers, s: Script)
    requires SafeSolver(m, s).typ == TxMultisig
    requires 1 <= m.matchMultisig(s).value.0 <= 16 && |m.matchMultisig(s).value.1| <= 16
    ensures var r := SafeSolver(m, s);
      && r.solutions[0] == [m.matchMultisig(s).value.0]
      && Sign.MultisigKeys(r.solutions) == m.matchMultisig(s).value.1
      && r.solutions[|r.solutions| - 1] == [|m.matchMultisig(s).value.1|]
  {
    var r := SafeSolver(m, s);
    var (required, keys) := m.matchMultisig(s).value;
    assert r.solutions == [[required]] + keys + [[|keys|]];
    assert r.solutions[1..|r.solutions| - 1] == keys;
  }

  /** GetOutputType: the classifier's verdict, with the type forced to non-standard on failure. */
  function GetOutputType(m: Matchers, s: Script): (r: (bool, TxOutType))
    ensures r.0 == SafeSolver(m, s).ok
    ensures !r.0 ==> r.1 == TxNonstandard
    ensures r.1 == SafeSolver(m, s).typ
  {
    var sol := SafeSolver(m, s);
    if sol.ok then (true, sol.typ) else (false, TxNonstandard)
  }

  // ---------------------------------------------------------------------
  // GetScriptPushes

  type Width = n: int | n >= 1 witness 1

  /** One decoded operation: its opcode, its push data and the number of bytes it occupies. */
  datatype GotOp = GotOp(opcode: Byte, data: Bytes, width: Width)

  /** CScript::GetOp at a position: None when the operation cannot be decoded there. */
  type OpReader = (Script, nat) -> Option<GotOp>

  /** The operations of script[pc..] up to the first one that cannot be decoded. */
  function DecodeFrom(getOp: OpReader, script: Script, pc: nat): seq<GotOp>
    decreases |script| - pc
  {
    if pc >= |script| then []
    else match getOp(script, pc)
      case None => []
      case Some(op) => [op] + DecodeFrom(getOp, script, pc + op.width)
  }

  /** Whether every operation of script[pc..] can be decoded. */
  predicate DecodesToEnd(getOp: OpReader, script: Script, pc: nat)
    decreases |script| - pc
  {
    pc >= |script| || match getOp(script, pc)
      case None => false
      case Some(op) => DecodesToEnd(getOp, script, pc + op.width)
  }

  /** Opcodes 0x00..OP_PUSHDATA4 push data. */
  predicate IsPush(op: GotOp) {
    op.opcode <= OP_PUSHDATA4
  }

  /** The data of the push operations, in script order. */
  function PushedData(ops: seq<GotOp>): seq<Bytes>
  {
    if ops == [] then []
    else (if IsPush(ops[0]) then [ops[0].data] else []) + PushedData(ops[1..])
  }

  lemma {:induction false} PushedDataAppend(a: seq<GotOp>, b: seq<GotOp>)
    ensures PushedData(a + b) == PushedData(a) + PushedData(b)
  {
    if a == [] {
      assert a + b == b;
    } else {
      var head := if IsPush(a[0]) then [a[0].data] else [];
      assert (a + b)[0] == a[0];
      assert (a + b)[1..] == a[1..] + b;
      PushedDataAppend(a[1..], b);
      calc {
        PushedData(a + b);
        head + PushedData(a[1..] + b);
        head + (PushedData(a[1..]) + PushedData(b));
        (head + PushedData(a[1..])) + PushedData(b);
      }
    }
  }

  /** The list with its first item dropped when `skipFirst` is set. */
  function SkipFirst<T>(items: seq<T>, skipFirst: bool): (r: seq<T>)
    ensures skipFirst && items != [] ==> r == items[1..]
    ensures !(skipFirst && items != []) ==> r == items
  {
    if skipFirst && items != [] then items[1..] else items
  }

  function HexAll(hex: Bytes -> string, items: seq<Bytes>): (r: seq<string>)
    ensures |r| == |items| && forall i :: 0 <= i < |items| ==> r[i] == hex(items[i])
  {
    seq(|items|, i requires 0 <= i < |items| => hex(items[i]))
  }

  /** One decoding step: the operation at `pc` followed by the rest. */
  lemma DecodeStep(getOp: OpReader, script: Script, pc: nat, op: GotOp)
    requires pc < |script| && getOp(script, pc) == Some(op)
    ensures DecodeFrom(getOp, script, pc) == [op] + DecodeFrom(getOp, script, pc + op.width)
    ensures DecodesToEnd(getOp, script, pc) == DecodesToEnd(getOp, script, pc + op.width)
  {
  }

  /** Decoding stops with failure where no operation can be read. */
  lemma DecodeFail(getOp: OpReader, script: Script, pc: nat)
    requires pc < |script| && getOp(script, pc).None?
    ensures DecodeFrom(getOp, script, pc) == [] && !DecodesToEnd(getOp, script, pc)
  {
  }

  /** Decoding one more operation extends the decoded prefix by that operation. */
  lemma AdvanceDecode(getOp: OpReader, script: Script, pc: nat, done: seq<GotOp>, op: GotOp)
    requires pc < |script| && getOp(script, pc) == Some(op)
    requires DecodeFrom(getOp, script, 0) == done + DecodeFrom(getOp, script, pc)
    requires DecodesToEnd(getOp, script, 0) == DecodesToEnd(getOp, script, pc)
    ensures DecodeFrom(getOp, script, 0) == (done + [op]) + DecodeFrom(getOp, script, pc + op.width)
    ensures DecodesToEnd(getOp, script, 0) == DecodesToEnd(getOp, script, pc + op.width)
  {
    DecodeStep(getOp, script, pc, op);
    assert done + ([op] + DecodeFrom(getOp, script, pc + op.width))
        == (done + [op]) + DecodeFrom(getOp, script, pc + op.width);
  }

  /** What appending one operation adds to the reported pushes. */
  lemma {:induction false} ReportStep(hex: Bytes -> string, done: seq<GotOp>, op: GotOp, skipFirst: bool)
    ensures |PushedData(done + [op])| == |PushedData(done)| + (if IsPush(op) then 1 else 0)
    ensures HexAll(hex, SkipFirst(PushedData(done + [op]), skipFirst))
         == HexAll(hex, SkipFirst(PushedData(done), skipFirst))
            + (if IsPush(op) && (|PushedData(done)| > 0 || !skipFirst) then [hex(op.data)] else [])
  {
    PushedDataAppend(done, [op]);
    assert PushedData([op]) == (if IsPush(op) then [op.data] else []) + PushedData([]);
    var before := PushedData(done);
    if IsPush(op) && skipFirst && before != [] {
      assert (before + [op.data])[1..] == before[1..] + [op.data];
    }
  }

  /**
   * GetScriptPushes appends to `vstrIn` the hex form (`hex`, HexStr) of every
   * pushed data item of the script, leaving out the first push when
   * `skipFirst` is set, and fails at the first operation that cannot be
   * decoded, keeping what it appended before.
   */
  method GetScriptPushes(getOp: OpReader, hex: Bytes -> string, script: Script, vstrIn: seq<string>, skipFirst: bool)
    returns (ok: bool, vstrRet: seq<string>)
    ensures ok == DecodesToEnd(getOp, script, 0)
    ensures vstrRet == vstrIn + HexAll(hex, SkipFirst(PushedData(DecodeFrom(getOp, script, 0)), skipFirst))
  {
    var count := 0;
    var pc := 0;
    vstrRet := vstrIn;
    ghost var done: seq<GotOp> := [];
    while pc < |script|
      invariant DecodeFrom(getOp, script, 0) == done + DecodeFrom(getOp, script, pc)
      invariant DecodesToEnd(getOp, script, 0) == DecodesToEnd(getOp, script, pc)
      invariant count == |PushedData(done)|
      invariant vstrRet == vstrIn + HexAll(hex, SkipFirst(PushedData(done), skipFirst))
      decreases |script| - pc
    {
      var got := getOp(script, pc);
      if got.None? {
        DecodeFail(getOp, script, pc);
        assert done + [] == done;
        return false, vstrRet;
      }
      var op := got.value;
      AdvanceDecode(getOp, script, pc, done, op);
      ReportStep(hex, done, op, skipFirst);
      if IsPush(op) {
        if count > 0 || !skipFirst {
          vstrRet := vstrRet + [hex(op.data)];
        }
        count := count + 1;
      }
      done := done + [op];
      pc := pc + op.width;
    }
    assert done + [] == done;
    ok := true;
  }

  /** The number of entries GetScriptPushes adds: one per push, less the skipped first one. */
  lemma {:induction false} ScriptPushesCount(getOp: OpReader, hex: Bytes -> string, script: Script, skipFirst: bool)
    ensures var pushes := PushedData(DecodeFrom(getOp, script, 0));
      |HexAll(hex, SkipFirst(pushes, skipFirst))| == if skipFirst && |pushes| > 0 then |pushes| - 1 else |pushes|
  {
  }
}
