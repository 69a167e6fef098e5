/** What a signature signs: `hashForSignature` of lib/schema/transaction.js. */
module SignatureHash {
  import opened Outcomes
  import opened Bytes
  import opened Wire
  import opened Scripts
  import opened Transactions

  const OP_CODESEPARATOR: byte := 171

  const SIGHASH_NONE := 2
  const SIGHASH_SINGLE := 3

  const BLANK_VALUE: bytes := [0xFF, 0xFF, 0xFF, 0xFF, 0xFF, 0xFF, 0xFF, 0xFF]

  function Mode(hashType: byte): int {
    hashType % 0x20
  }

  /** hashType & 80: the mask is the decimal number 80, so it looks at bits 4 and 6. */
  predicate AnyoneCanPay(hashType: byte) {
    hashType / 16 % 2 == 1 || hashType / 64 % 2 == 1
  }

  // ----- the transaction that stands in for the signed one -----

  /** The input as signed: only the signed input keeps a script. */
  function MaskIn(txin: TxIn, script: bytes, signed: bool, hashType: byte): TxIn {
    TxIn(txin.o, if signed then script else [], if Mode(hashType) == SIGHASH_NONE && !signed then 0 else txin.q)
  }

  function MaskIns(ins: seq<TxIn>, script: bytes, inIndex: nat, hashType: byte): seq<TxIn>
    requires inIndex < |ins|
  {
    if AnyoneCanPay(hashType) then [TxIn(ins[inIndex].o, script, ins[inIndex].q)]
    else seq(|ins|, i requires 0 <= i < |ins| => MaskIn(ins[i], script, i == inIndex, hashType))
  }

  function MaskOuts(outs: seq<TxOut>, inIndex: nat, hashType: byte): Result<seq<TxOut>> {
    if Mode(hashType) == SIGHASH_NONE then Ok([])
    else if Mode(hashType) == SIGHASH_SINGLE then
      if inIndex >= |outs| then Err
      else Ok(seq(inIndex + 1,
                  i requires 0 <= i <= inIndex => if i == inIndex then outs[i] else TxOut(BLANK_VALUE, [])))
    else Ok(outs)
  }

  function Masked(tx: Tx, script: bytes, inIndex: int, hashType: byte): Result<Tx> {
    if !(0 <= inIndex < |tx.ins|) then Err
    else
      var outs :- MaskOuts(tx.outs, inIndex, hashType);
      Ok(Tx(tx.version, MaskIns(tx.ins, script, inIndex, hashType), outs, tx.lockTime))
  }

  /** The signed bytes: the masked transaction and the hash type. */
  function Preimage(tx: Tx, script: bytes, inIndex: int, hashType: byte): Result<bytes> {
    var masked :- Masked(tx, script, inIndex, hashType);
    Ok(Write(masked) + [hashType, 0, 0, 0])
  }

  lemma MaskedWellFormed(tx: Tx, script: bytes, inIndex: int, hashType: byte)
    requires WellFormed(tx) && |script| < LENGTH_LIMIT
    ensures Masked(tx, script, inIndex, hashType).Ok? ==> WellFormed(Masked(tx, script, inIndex, hashType).value)
  {
  }

  /**
   * Two signing requests hash the same bytes exactly when they have the same hash
   * type and mask to the same transaction, in every mode.
   */
  lemma PreimageCommits(a: Tx, scriptA: bytes, i: int, hashTypeA: byte, b: Tx, scriptB: bytes, j: int, hashTypeB: byte)
    requires WellFormed(a) && WellFormed(b) && |scriptA| < LENGTH_LIMIT && |scriptB| < LENGTH_LIMIT
    requires Masked(a, scriptA, i, hashTypeA).Ok? && Masked(b, scriptB, j, hashTypeB).Ok?
    ensures Preimage(a, scriptA, i, hashTypeA) == Preimage(b, scriptB, j, hashTypeB)
       <==> Masked(a, scriptA, i, hashTypeA) == Masked(b, scriptB, j, hashTypeB) && hashTypeA == hashTypeB
  {
    MaskedWellFormed(a, scriptA, i, hashTypeA);
    MaskedWellFormed(b, scriptB, j, hashTypeB);
    var ma, mb := Masked(a, scriptA, i, hashTypeA).value, Masked(b, scriptB, j, hashTypeB).value;
    WritePrefixFree(ma, mb, [hashTypeA, 0, 0, 0], [hashTypeB, 0, 0, 0]);
    assert [hashTypeA, 0, 0, 0][0] == hashTypeA && [hashTypeB, 0, 0, 0][0] == hashTypeB;
  }

  // ----- what a reader finds in the signed bytes -----

  /** No count and no length that is signed is 65536, the one number the varint writer garbles. */
  predicate Legible(tx: Tx, script: bytes, i: nat, hashType: byte)
    requires i < |tx.ins|
  {
    && |script| != 0x1_0000
    && (|tx.ins| != 0x1_0000 || hashType / 16 % 2 == 1 || hashType / 64 % 2 == 1)
    && (hashType % 32 == 2
        || (hashType % 32 == 3 && i + 1 != 0x1_0000 && (i < |tx.outs| ==> |tx.outs[i].s| != 0x1_0000))
        || (hashType % 32 != 3 && |tx.outs| != 0x1_0000
            && forall k :: 0 <= k < |tx.outs| ==> |tx.outs[k].s| != 0x1_0000))
  }

  /** The inputs that are signed: all, or with bit 4 or 6 of the hash type only the one signed for. */
  predicate SignedInputs(ins: seq<TxIn>, signed: seq<TxIn>, script: bytes, i: nat, hashType: byte)
    requires i < |ins|
  {
    if hashType / 16 % 2 == 1 || hashType / 64 % 2 == 1 then signed == [TxIn(ins[i].o, script, ins[i].q)]
    else
      |signed| == |ins| && forall k :: 0 <= k < |ins| ==>
        && signed[k].o == ins[k].o
        && signed[k].s == (if k == i then script else [])
        && signed[k].q == (if k != i && hashType % 32 == 2 then 0 else ins[k].q)
  }

  /** The outputs that are signed: none in mode 2, in mode 3 the one of the same index behind blank ones, else all. */
  predicate SignedOutputs(outs: seq<TxOut>, signed: seq<TxOut>, i: nat, hashType: byte) {
    if hashType % 32 == 2 then signed == []
    else if hashType % 32 == 3 then
      && i < |outs| && |signed| == i + 1 && signed[i] == outs[i]
      && forall k :: 0 <= k < i ==>
           signed[k].v == [0xFF, 0xFF, 0xFF, 0xFF, 0xFF, 0xFF, 0xFF, 0xFF] && signed[k].s == []
    else signed == outs
  }

  /**
   * Read back, the signed bytes are a transaction and the hash type as four bytes, least
   * significant first. Only a missing input, or in mode 3 a missing output, is an error.
   */
  lemma SignedBytes(tx: Tx, script: bytes, i: int, hashType: byte)
    requires WellFormed(tx) && |script| < LENGTH_LIMIT
    requires 0 <= i < |tx.ins| ==> Legible(tx, script, i, hashType)
    ensures var r := Preimage(tx, script, i, hashType);
            if !(0 <= i < |tx.ins|) || (hashType % 32 == 3 && i >= |tx.outs|) then r.Err?
            else
              && r.Ok? && Read(r.value).Ok?
              && var p := Read(r.value).value;
                 && p.rest == [hashType, 0, 0, 0]
                 && p.value.version == tx.version && p.value.lockTime == tx.lockTime
                 && SignedInputs(tx.ins, p.value.ins, script, i, hashType)
                 && SignedOutputs(tx.outs, p.value.outs, i, hashType)
  {
    if Masked(tx, script, i, hashType).Ok? {
      var masked := Masked(tx, script, i, hashType).value;
      MaskedWellFormed(tx, script, i, hashType);
      MaskedWritable(tx, script, i, hashType);
      MaskedInputs(tx.ins, script, i, hashType);
      MaskedOutputs(tx.outs, i, hashType);
      TxRoundTrip(masked, [hashType, 0, 0, 0]);
      hide MaskIns, MaskOuts, WellFormed, Write, Read, Legible, Writable;
    }
  }

  lemma MaskedWritable(tx: Tx, script: bytes, i: int, hashType: byte)
    requires 0 <= i < |tx.ins| && Legible(tx, script, i, hashType) && Masked(tx, script, i, hashType).Ok?
    ensures Writable(Masked(tx, script, i, hashType).value)
  {
  }

  lemma MaskedInputs(ins: seq<TxIn>, script: bytes, i: nat, hashType: byte)
    requires i < |ins|
    ensures SignedInputs(ins, MaskIns(ins, script, i, hashType), script, i, hashType)
  {
  }

  lemma MaskedOutputs(outs: seq<TxOut>, i: nat, hashType: byte)
    requires MaskOuts(outs, i, hashType).Ok?
    ensures SignedOutputs(outs, MaskOuts(outs, i, hashType).value, i, hashType)
  {
  }

  /** The two transactions spend the same outpoints with the same sequence numbers. */
  predicate SameSpends(a: Tx, b: Tx) {
    |a.ins| == |b.ins| && forall k :: 0 <= k < |a.ins| ==> a.ins[k].o == b.ins[k].o && a.ins[k].q == b.ins[k].q
  }

  /** In the default mode the whole transaction is signed, and which input it is signed for. */
  lemma DefaultModeCommits(
    a: Tx, scriptA: bytes, i: int, hashTypeA: byte, b: Tx, scriptB: bytes, j: int, hashTypeB: byte)
    requires WellFormed(a) && WellFormed(b) && 0 < |scriptA| < LENGTH_LIMIT && 0 < |scriptB| < LENGTH_LIMIT
    requires 0 <= i < |a.ins| && 0 <= j < |b.ins|
    requires Mode(hashTypeA) != SIGHASH_NONE && Mode(hashTypeA) != SIGHASH_SINGLE && !AnyoneCanPay(hashTypeA)
    requires Masked(b, scriptB, j, hashTypeB).Ok?
    ensures Preimage(a, scriptA, i, hashTypeA) == Preimage(b, scriptB, j, hashTypeB)
       <==> && a.version == b.version && SameSpends(a, b) && a.outs == b.outs && a.lockTime == b.lockTime
            && i == j && scriptA == scriptB && hashTypeA == hashTypeB
  {
    PreimageCommits(a, scriptA, i, hashTypeA, b, scriptB, j, hashTypeB);
    if hashTypeA == hashTypeB {
      var ins, ins' := MaskIns(a.ins, scriptA, i, hashTypeA), MaskIns(b.ins, scriptB, j, hashTypeB);
      if ins == ins' {
        assert ins[i].s == scriptA && ins'[j].s == scriptB;
        forall k | 0 <= k < |a.ins|
          ensures a.ins[k].o == b.ins[k].o && a.ins[k].q == b.ins[k].q
        {
          assert ins[k] == ins'[k];
        }
      }
    }
  }

  /** With an empty script the signed bytes do not say which input is signed. */
  lemma EmptyScriptHidesIndex(tx: Tx, i: nat, j: nat, hashType: byte)
    requires i < |tx.ins| && j < |tx.ins|
    requires Mode(hashType) != SIGHASH_NONE && Mode(hashType) != SIGHASH_SINGLE && !AnyoneCanPay(hashType)
    ensures Preimage(tx, [], i, hashType) == Preimage(tx, [], j, hashType)
  {
    assert MaskIns(tx.ins, [], i, hashType) == MaskIns(tx.ins, [], j, hashType);
  }

  /** In mode NONE no output is signed, and of the other inputs only the outpoints. */
  lemma NoneModeCommits(a: Tx, scriptA: bytes, i: int, b: Tx, scriptB: bytes, j: int, hashType: byte)
    requires WellFormed(a) && WellFormed(b) && 0 < |scriptA| < LENGTH_LIMIT && 0 < |scriptB| < LENGTH_LIMIT
    requires 0 <= i < |a.ins| && 0 <= j < |b.ins|
    requires Mode(hashType) == SIGHASH_NONE && !AnyoneCanPay(hashType)
    ensures Preimage(a, scriptA, i, hashType) == Preimage(b, scriptB, j, hashType)
       <==> && a.version == b.version && a.lockTime == b.lockTime && i == j && scriptA == scriptB
            && |a.ins| == |b.ins| && (forall k :: 0 <= k < |a.ins| ==> a.ins[k].o == b.ins[k].o)
            && a.ins[i].q == b.ins[j].q
  {
    PreimageCommits(a, scriptA, i, hashType, b, scriptB, j, hashType);
    var ins, ins' := MaskIns(a.ins, scriptA, i, hashType), MaskIns(b.ins, scriptB, j, hashType);
    if ins == ins' {
      assert ins[i].s == scriptA && ins'[j].s == scriptB;
      forall k | 0 <= k < |a.ins|
        ensures a.ins[k].o == b.ins[k].o
      {
        assert ins[k] == ins'[k];
      }
    }
  }

  /** In mode SINGLE only the output with the signed input's index is signed. */
  lemma SingleModeCommits(a: Tx, scriptA: bytes, i: int, b: Tx, scriptB: bytes, j: int, hashType: byte)
    requires WellFormed(a) && WellFormed(b) && |scriptA| < LENGTH_LIMIT && |scriptB| < LENGTH_LIMIT
    requires 0 <= i < |a.ins| && 0 <= j < |b.ins| && i < |a.outs| && j < |b.outs|
    requires Mode(hashType) == SIGHASH_SINGLE && !AnyoneCanPay(hashType)
    ensures Preimage(a, scriptA, i, hashType) == Preimage(b, scriptB, j, hashType)
       <==> && a.version == b.version && SameSpends(a, b) && a.lockTime == b.lockTime
            && i == j && scriptA == scriptB && a.outs[i] == b.outs[j]
  {
    PreimageCommits(a, scriptA, i, hashType, b, scriptB, j, hashType);
    var ins, ins' := MaskIns(a.ins, scriptA, i, hashType), MaskIns(b.ins, scriptB, j, hashType);
    var outs, outs' := MaskOuts(a.outs, i, hashType).value, MaskOuts(b.outs, j, hashType).value;
    assert outs[i] == a.outs[i] && outs'[j] == b.outs[j];
    if ins == ins' && outs == outs' {
      assert |outs| == i + 1 && |outs'| == j + 1;
      assert ins[i].s == scriptA && ins'[j].s == scriptB;
      forall k | 0 <= k < |a.ins|
        ensures a.ins[k].o == b.ins[k].o && a.ins[k].q == b.ins[k].q
      {
        assert ins[k] == ins'[k];
      }
    }
  }

  /** With the 80 mask set no other input is signed at all, in any mode. */
  lemma AnyoneCanPayCommits(a: Tx, scriptA: bytes, i: int, b: Tx, scriptB: bytes, j: int, hashType: byte)
    requires WellFormed(a) && WellFormed(b) && |scriptA| < LENGTH_LIMIT && |scriptB| < LENGTH_LIMIT
    requires Masked(a, scriptA, i, hashType).Ok? && Masked(b, scriptB, j, hashType).Ok?
    requires AnyoneCanPay(hashType)
    ensures Preimage(a, scriptA, i, hashType) == Preimage(b, scriptB, j, hashType)
       <==> && a.version == b.version && a.lockTime == b.lockTime && scriptA == scriptB
            && a.ins[i].o == b.ins[j].o && a.ins[i].q == b.ins[j].q
            && MaskOuts(a.outs, i, hashType) == MaskOuts(b.outs, j, hashType)
  {
    PreimageCommits(a, scriptA, i, hashType, b, scriptB, j, hashType);
    var ins, ins' := MaskIns(a.ins, scriptA, i, hashType), MaskIns(b.ins, scriptB, j, hashType);
    assert ins[0].s == scriptA && ins'[0].s == scriptB;
  }

  /** The two transactions agree but for the inputs other than the one at index i. */
  predicate SameButOthers(a: Tx, b: Tx, i: nat) {
    && i < |a.ins| && i < |b.ins| && a.ins[i] == b.ins[i]
    && a.version == b.version && a.outs == b.outs && a.lockTime == b.lockTime
  }

  /** The signed bytes never depend on the other inputs. */
  ghost predicate IgnoresOthers(hashType: byte) {
    forall a: Tx, b: Tx, script: bytes, i: nat ::
      WellFormed(a) && WellFormed(b) && |script| < LENGTH_LIMIT && SameButOthers(a, b, i) ==>
        Preimage(a, script, i, hashType) == Preimage(b, script, i, hashType)
  }

  /** The hash types that leave the other inputs open are exactly those with a bit of the mask 80. */
  lemma OthersIgnoredIff(hashType: byte)
    ensures IgnoresOthers(hashType) <==> AnyoneCanPay(hashType)
  {
    if AnyoneCanPay(hashType) {
      forall a: Tx, b: Tx, script: bytes, i: nat
        | WellFormed(a) && WellFormed(b) && |script| < LENGTH_LIMIT && SameButOthers(a, b, i)
        ensures Preimage(a, script, i, hashType) == Preimage(b, script, i, hashType)
      {
        OthersDropped(a, b, script, i, hashType);
      }
    } else {
      hide Preimage;
      OtherSigned(hashType);
    }
  }

  lemma OthersDropped(a: Tx, b: Tx, script: bytes, i: nat, hashType: byte)
    requires AnyoneCanPay(hashType) && SameButOthers(a, b, i)
    ensures Preimage(a, script, i, hashType) == Preimage(b, script, i, hashType)
  {
    assert Masked(a, script, i, hashType) == Masked(b, script, i, hashType);
    hide Masked;
  }

  /** Two transactions with two inputs each that differ in the second. */
  lemma OtherSigned(hashType: byte)
    requires !AnyoneCanPay(hashType)
    ensures !IgnoresOthers(hashType)
  {
    var o, o': bytes := seq(36, _ => 0), seq(36, _ => 1);
    var outs := [TxOut(seq(8, _ => 0), [])];
    var a := Tx(1, [TxIn(o, [], 0), TxIn(o, [], 0)], outs, 0);
    var b := Tx(1, [TxIn(o, [], 0), TxIn(o', [], 0)], outs, 0);
    assert o[0] != o'[0] && WellFormed(a) && WellFormed(b);
    assert Masked(a, [], 0, hashType).Ok? && Masked(b, [], 0, hashType).Ok?;
    assert MaskIns(a.ins, [], 0, hashType)[1].o == o && MaskIns(b.ins, [], 0, hashType)[1].o == o';
    PreimageCommits(a, [], 0, hashType, b, [], 0, hashType);
    hide Preimage, WellFormed;
    assert SameButOthers(a, b, 0);
  }

  /** The flag 0x80 of the protocol has no effect: under hash type 0x81 every input is signed. */
  lemma StandardFlagHasNoEffect(a: Tx, b: Tx, script: bytes, i: nat)
    requires WellFormed(a) && WellFormed(b) && |script| < LENGTH_LIMIT && i < |a.ins| && i < |b.ins|
    requires !SameSpends(a, b)
    ensures Preimage(a, script, i, 0x81) != Preimage(b, script, i, 0x81)
  {
    PreimageCommits(a, script, i, 0x81, b, script, i, 0x81);
    var ins, ins' := MaskIns(a.ins, script, i, 0x81), MaskIns(b.ins, script, i, 0x81);
    if |a.ins| == |b.ins| {
      var k :| 0 <= k < |a.ins| && !(a.ins[k].o == b.ins[k].o && a.ins[k].q == b.ins[k].q);
      assert ins[k] != ins'[k];
    }
  }

  // ----- the byte builder -----

  /** The signed bytes of the inputs. */
  method SignedIns(ins: seq<TxIn>, script: bytes, inIndex: nat, hashType: byte) returns (buf: bytes)
    requires inIndex < |ins|
    ensures buf == WriteList(WriteIn, MaskIns(ins, script, inIndex, hashType))
  {
    ghost var masked := MaskIns(ins, script, inIndex, hashType);
    if AnyoneCanPay(hashType) {
      buf := VarInt(1) + ins[inIndex].o + VarInt(|script|) + script + ToLE(ins[inIndex].q, 4);
      assert masked[1..] == [];
      assert WriteAll(WriteIn, masked) == WriteIn(masked[0]) + [];
      assert buf == VarInt(1) + WriteIn(masked[0]);
      return;
    }
    buf := VarInt(|ins|);
    for i := 0 to |ins|
      invariant buf == VarInt(|ins|) + WriteAll(WriteIn, masked[..i])
    {
      WriteStep(VarInt(|ins|), WriteIn, masked, i);
      buf := PutIn(buf, ins[i], script, inIndex == i, hashType);
    }
    assert masked[..|ins|] == masked;
  }

  /** One turn of the input loop. */
  method PutIn(before: bytes, txin: TxIn, script: bytes, signed: bool, hashType: byte) returns (buf: bytes)
    ensures buf == before + WriteIn(MaskIn(txin, script, signed, hashType))
  {
    ghost var masked := MaskIn(txin, script, signed, hashType);
    Regroup(before, masked.o, VarInt(|masked.s|), masked.s, ToLE(masked.q, 4));
    buf := before + txin.o;
    if signed {
      buf := buf + VarInt(|script|) + script;
    } else {
      buf := buf + VarInt(0);
      assert buf + [] == buf;
    }
    if Mode(hashType) == SIGHASH_NONE && !signed {
      buf := buf + ToLE(0, 4);
    } else {
      buf := buf + ToLE(txin.q, 4);
    }
  }

  /** The signed bytes of the outputs. */
  method SignedOuts(outs: seq<TxOut>, inIndex: nat, hashType: byte) returns (r: Result<bytes>)
    ensures r.Ok? <==> MaskOuts(outs, inIndex, hashType).Ok?
    ensures r.Ok? ==> r.value == WriteList(WriteOut, MaskOuts(outs, inIndex, hashType).value)
  {
    if Mode(hashType) == SIGHASH_NONE {
      return Ok(VarInt(0));
    }
    var outsLen := |outs|;
    if Mode(hashType) == SIGHASH_SINGLE {
      if inIndex >= |outs| {
        return Err;
      }
      outsLen := inIndex + 1;
    }
    ghost var masked := MaskOuts(outs, inIndex, hashType).value;
    var buf := VarInt(outsLen);
    for i := 0 to outsLen
      invariant buf == VarInt(outsLen) + WriteAll(WriteOut, masked[..i])
    {
      WriteStep(VarInt(outsLen), WriteOut, masked, i);
      buf := PutOut(buf, outs[i], Mode(hashType) == SIGHASH_SINGLE && i != inIndex);
    }
    assert masked[..outsLen] == masked;
    r := Ok(buf);
  }

  /** One turn of the output loop. */
  method PutOut(before: bytes, txout: TxOut, blank: bool) returns (buf: bytes)
    ensures buf == before + WriteOut(if blank then TxOut(BLANK_VALUE, []) else txout)
  {
    if blank {
      buf := before + BLANK_VALUE + VarInt(0);
    } else {
      buf := before + txout.v + VarInt(|txout.s|) + txout.s;
    }
  }

  /**
   * `hashForSignature`: deletes code separators from the script in place, builds
   * the signed bytes and hashes them.
   */
  method HashForSignature<H>(tx: Tx, script: Script, inIndex: int, hashType: byte, twoSha256: bytes -> H)
    returns (r: Result<H>)
    modifies script
    ensures r.Ok? <==> Masked(tx, script.buffer, inIndex, hashType).Ok?
    ensures r.Ok? ==> r == Ok(twoSha256(Preimage(tx, script.buffer, inIndex, hashType).value))
    ensures 0 <= inIndex < |tx.ins| ==> script.chunks == Delete(Op(171), old(script.chunks))
    ensures 0 <= inIndex < |tx.ins| && old(script.Printed()) ==> script.Printed()
  {
    if inIndex < 0 || inIndex >= |tx.ins| {
      return Err;
    }
    script.FindAndDelete(Op(OP_CODESEPARATOR));
    DeleteKeepsOthers(Op(OP_CODESEPARATOR), old(script.chunks));
    var ins := SignedIns(tx.ins, script.buffer, inIndex, hashType);
    var outs := SignedOuts(tx.outs, inIndex, hashType);
    if outs.Err? {
      return Err;
    }
    var buffer := ToLE(tx.version, 4) + ins + outs.value + ToLE(tx.lockTime, 4);
    buffer := buffer + [hashType, 0, 0, 0];
    r := Ok(twoSha256(buffer));
  }
}
