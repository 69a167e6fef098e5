/**
 * The transaction codec: the writers of lib/schema/transaction.js and the reader
 * `parseTx` of lib/connection.js.
 */
module Transactions {
  import opened Outcomes
  import opened Bytes
  import opened Wire

  datatype TxIn = TxIn(o: bytes, s: bytes, q: word32)
  datatype TxOut = TxOut(v: bytes, s: bytes)
  datatype Tx = Tx(version: word32, ins: seq<TxIn>, outs: seq<TxOut>, lockTime: word32)

  // ----- what is written and read -----

  function WriteIn(txin: TxIn): bytes {
    txin.o + VarInt(|txin.s|) + txin.s + ToLE(txin.q, 4)
  }

  function WriteOut(txout: TxOut): bytes {
    txout.v + VarInt(|txout.s|) + txout.s
  }

  function Write(tx: Tx): bytes {
    ToLE(tx.version, 4)
    + WriteList(WriteIn, tx.ins)
    + WriteList(WriteOut, tx.outs)
    + ToLE(tx.lockTime, 4)
  }

  function ReadWord(s: bytes): Reading<word32> {
    var p :- Take(4, s);
    LittleEndianBound(p.value);
    Pow256Values();
    Ok(Parsed(FromLE(p.value), p.rest))
  }

  function ReadVarBytes(s: bytes): Reading<bytes> {
    var len :- ParseVarInt(s);
    Take(len.value, len.rest)
  }

  function ReadIn(s: bytes): Reading<TxIn> {
    var o :- Take(36, s);
    var script :- ReadVarBytes(o.rest);
    var q :- ReadWord(script.rest);
    Ok(Parsed(TxIn(o.value, script.value, q.value), q.rest))
  }

  function ReadOut(s: bytes): Reading<TxOut> {
    var v :- Take(8, s);
    var script :- ReadVarBytes(v.rest);
    Ok(Parsed(TxOut(v.value, script.value), script.rest))
  }

  function Read(s: bytes): Reading<Tx> {
    var version :- ReadWord(s);
    var ins :- ReadList(ReadIn, version.rest);
    var outs :- ReadList(ReadOut, ins.rest);
    var lockTime :- ReadWord(outs.rest);
    Ok(Parsed(Tx(version.value, ins.value, outs.value, lockTime.value), lockTime.rest))
  }

  // ----- the transactions the format is for -----

  const LENGTH_LIMIT := 0x1_0000_0000_0000_0000

  predicate WellFormedIn(txin: TxIn) {
    |txin.o| == 36 && |txin.s| < LENGTH_LIMIT
  }

  predicate WellFormedOut(txout: TxOut) {
    |txout.v| == 8 && |txout.s| < LENGTH_LIMIT
  }

  predicate WellFormed(tx: Tx) {
    && |tx.ins| < LENGTH_LIMIT && |tx.outs| < LENGTH_LIMIT
    && (forall i :: 0 <= i < |tx.ins| ==> WellFormedIn(tx.ins[i]))
    && (forall i :: 0 <= i < |tx.outs| ==> WellFormedOut(tx.outs[i]))
  }

  /** No count and no script length is 65536, the one number the varint writer garbles. */
  predicate Writable(tx: Tx) {
    GoodList(WritableIn, tx.ins) && GoodList(WritableOut, tx.outs)
  }

  predicate WritableIn(txin: TxIn) {
    |txin.s| != 0x1_0000
  }

  predicate WritableOut(txout: TxOut) {
    |txout.s| != 0x1_0000
  }

  // ----- round trip -----

  lemma WordReadsBack(v: word32, rest: bytes)
    ensures ReadWord(ToLE(v, 4) + rest) == Ok(Parsed(v, rest))
  {
    TakeAppend(ToLE(v, 4), rest);
    Pow256Values();
    LittleEndianRoundTrip(v, 4);
  }

  /** A script of 65536 bytes is read back as the empty script. */
  lemma VarBytesReadBack(b: bytes, rest: bytes)
    requires |b| < LENGTH_LIMIT
    ensures ReadVarBytes(VarInt(|b|) + b + rest)
         == Ok(if |b| == 0x1_0000 then Parsed([], b + rest) else Parsed(b, rest))
  {
    assert VarInt(|b|) + b + rest == VarInt(|b|) + (b + rest);
    VarIntReadsBack(|b|, b + rest);
    if |b| == 0x1_0000 {
      assert (b + rest)[..0] == [] && (b + rest)[0..] == b + rest;
    } else {
      TakeAppend(b, rest);
    }
  }

  lemma InReadsBack(txin: TxIn)
    requires WellFormedIn(txin)
    ensures ReadsBackIff(ReadIn, WriteIn, WritableIn, txin)
  {
    forall rest: bytes
      ensures |txin.s| != 0x1_0000 ==> ReadIn(WriteIn(txin) + rest) == Ok(Parsed(txin, rest))
      ensures |txin.s| == 0x1_0000 && ReadIn(WriteIn(txin) + rest).Ok? ==>
                ReadIn(WriteIn(txin) + rest).value.value != txin
    {
      var tail := VarInt(|txin.s|) + txin.s + (ToLE(txin.q, 4) + rest);
      InLayout(txin, rest);
      TakeAppend(txin.o, tail);
      VarBytesReadBack(txin.s, ToLE(txin.q, 4) + rest);
      WordReadsBack(txin.q, rest);
    }
  }

  lemma OutReadsBack(txout: TxOut)
    requires WellFormedOut(txout)
    ensures ReadsBackIff(ReadOut, WriteOut, WritableOut, txout)
  {
    forall rest: bytes
      ensures |txout.s| != 0x1_0000 ==> ReadOut(WriteOut(txout) + rest) == Ok(Parsed(txout, rest))
      ensures |txout.s| == 0x1_0000 && ReadOut(WriteOut(txout) + rest).Ok? ==>
                ReadOut(WriteOut(txout) + rest).value.value != txout
    {
      var tail := VarInt(|txout.s|) + txout.s + rest;
      OutLayout(txout, rest);
      TakeAppend(txout.v, tail);
      VarBytesReadBack(txout.s, rest);
    }
  }

  lemma InsReadBack(ins: seq<TxIn>, rest: bytes)
    requires |ins| < LENGTH_LIMIT && forall i :: 0 <= i < |ins| ==> WellFormedIn(ins[i])
    ensures var r := ReadList(ReadIn, WriteList(WriteIn, ins) + rest);
            if GoodList(WritableIn, ins) then r == Ok(Parsed(ins, rest)) else r.Ok? ==> r.value.value != ins
  {
    forall i | 0 <= i < |ins|
      ensures ReadsBackIff(ReadIn, WriteIn, WritableIn, ins[i])
    {
      InReadsBack(ins[i]);
    }
    CountedListReadsBack(ReadIn, WriteIn, WritableIn, ins, rest);
  }

  lemma OutsReadBack(outs: seq<TxOut>, rest: bytes)
    requires |outs| < LENGTH_LIMIT && forall i :: 0 <= i < |outs| ==> WellFormedOut(outs[i])
    ensures var r := ReadList(ReadOut, WriteList(WriteOut, outs) + rest);
            if GoodList(WritableOut, outs) then r == Ok(Parsed(outs, rest)) else r.Ok? ==> r.value.value != outs
  {
    forall i | 0 <= i < |outs|
      ensures ReadsBackIff(ReadOut, WriteOut, WritableOut, outs[i])
    {
      OutReadsBack(outs[i]);
    }
    CountedListReadsBack(ReadOut, WriteOut, WritableOut, outs, rest);
  }

  /**
   * Reading what was written gives the transaction back and consumes exactly its
   * bytes, whatever follows them, exactly when no count or length is 65536.
   */
  lemma TxRoundTrip(tx: Tx, rest: bytes)
    requires WellFormed(tx)
    ensures Read(Write(tx) + rest) == Ok(Parsed(tx, rest)) <==> Writable(tx)
    ensures !Writable(tx) && Read(Write(tx) + rest).Ok? ==> Read(Write(tx) + rest).value.value != tx
  {
    var s3 := ToLE(tx.lockTime, 4) + rest;
    var s2 := WriteList(WriteOut, tx.outs) + s3;
    var s1 := WriteList(WriteIn, tx.ins) + s2;
    WriteSplit(tx, rest);
    WordReadsBack(tx.version, s1);
    InsReadBack(tx.ins, s2);
    OutsReadBack(tx.outs, s3);
    WordReadsBack(tx.lockTime, rest);
  }

  lemma WriteSplit(tx: Tx, rest: bytes)
    ensures Write(tx) + rest
         == ToLE(tx.version, 4)
            + (WriteList(WriteIn, tx.ins) + (WriteList(WriteOut, tx.outs) + (ToLE(tx.lockTime, 4) + rest)))
  {
    Regroup(ToLE(tx.version, 4), WriteList(WriteIn, tx.ins), WriteList(WriteOut, tx.outs), ToLE(tx.lockTime, 4), rest);
  }

  lemma Regroup(a: bytes, b: bytes, c: bytes, d: bytes, e: bytes)
    ensures a + b + c + d + e == a + (b + (c + (d + e)))
  {
  }

  // ----- different transactions have different bytes -----

  /** Equal concatenations with equally long fronts agree on both parts. */
  lemma SplitEqual(a: bytes, b: bytes, restA: bytes, restB: bytes)
    requires a + restA == b + restB && (|a| == |b| || |restA| == |restB|)
    ensures a == b && restA == restB
  {
    assert a == (a + restA)[..|a|] && b == (b + restB)[..|b|];
    assert restA == (a + restA)[|a|..] && restB == (b + restB)[|b|..];
  }

  /** The writer's varints are told apart without a reader, 65536 included. */
  lemma VarIntPrefixFree(i: nat, j: nat, restI: bytes, restJ: bytes)
    requires i < LENGTH_LIMIT && j < LENGTH_LIMIT
    requires VarInt(i) + restI == VarInt(j) + restJ
    ensures i == j && restI == restJ
  {
    VarIntTag(i);
    VarIntTag(j);
    assert (VarInt(i) + restI)[0] == VarInt(i)[0] && (VarInt(j) + restJ)[0] == VarInt(j)[0];
    SplitEqual(VarInt(i), VarInt(j), restI, restJ);
    SameVarInt(i, j);
  }

  /** The first byte of a varint decides its form. */
  lemma VarIntTag(i: nat)
    ensures VarInt(i)[0] == if i < 0xFD then i else if i <= 0x1_0000 then 0xFD else 0xFF
  {
  }

  lemma SameVarInt(i: nat, j: nat)
    requires i < LENGTH_LIMIT && j < LENGTH_LIMIT
    requires VarInt(i) == VarInt(j)
    ensures i == j
  {
    VarIntTag(i);
    VarIntTag(j);
    if 0xFD <= i <= 0x1_0000 {
      SplitEqual([0xFD], [0xFD], ToLE(i, 2), ToLE(j, 2));
      SameShort(i, j);
    } else if i > 0x1_0000 {
      SplitEqual([0xFF], [0xFF], ToLE(i, 8), ToLE(j, 8));
      SameWide(i, j);
    }
  }

  lemma SameShort(i: nat, j: nat)
    requires 0xFD <= i <= 0x1_0000 && 0xFD <= j <= 0x1_0000 && ToLE(i, 2) == ToLE(j, 2)
    ensures i == j
  {
    Pow256Values();
    LittleEndianTruncates(i, 2);
    LittleEndianTruncates(j, 2);
  }

  lemma SameWide(i: nat, j: nat)
    requires i < LENGTH_LIMIT && j < LENGTH_LIMIT && ToLE(i, 8) == ToLE(j, 8)
    ensures i == j
  {
    Pow256Values();
    LittleEndianRoundTrip(i, 8);
    LittleEndianRoundTrip(j, 8);
  }

  lemma VarBytesPrefixFree(a: bytes, b: bytes, restA: bytes, restB: bytes)
    requires |a| < LENGTH_LIMIT && |b| < LENGTH_LIMIT
    requires VarInt(|a|) + a + restA == VarInt(|b|) + b + restB
    ensures a == b && restA == restB
  {
    assert VarInt(|a|) + a + restA == VarInt(|a|) + (a + restA);
    assert VarInt(|b|) + b + restB == VarInt(|b|) + (b + restB);
    VarIntPrefixFree(|a|, |b|, a + restA, b + restB);
    SplitEqual(a, b, restA, restB);
  }

  lemma WordPrefixFree(a: word32, b: word32, restA: bytes, restB: bytes)
    requires ToLE(a, 4) + restA == ToLE(b, 4) + restB
    ensures a == b && restA == restB
  {
    SplitEqual(ToLE(a, 4), ToLE(b, 4), restA, restB);
    Pow256Values();
    LittleEndianRoundTrip(a, 4);
    LittleEndianRoundTrip(b, 4);
  }

  ghost predicate PrefixFree<T(!new)>(write: T -> bytes, wellFormed: T -> bool) {
    forall x: T, y: T, restX: bytes, restY: bytes ::
      wellFormed(x) && wellFormed(y) && write(x) + restX == write(y) + restY ==> x == y && restX == restY
  }

  lemma InPrefixFreeAt(x: TxIn, y: TxIn, restX: bytes, restY: bytes)
    requires WellFormedIn(x) && WellFormedIn(y) && WriteIn(x) + restX == WriteIn(y) + restY
    ensures x == y && restX == restY
  {
    var scriptX, scriptY := VarInt(|x.s|) + x.s, VarInt(|y.s|) + y.s;
    var tailX, tailY := ToLE(x.q, 4) + restX, ToLE(y.q, 4) + restY;
    InLayout(x, restX);
    InLayout(y, restY);
    SplitEqual(x.o, y.o, scriptX + tailX, scriptY + tailY);
    VarBytesPrefixFree(x.s, y.s, tailX, tailY);
    WordPrefixFree(x.q, y.q, restX, restY);
  }

  lemma InLayout(x: TxIn, rest: bytes)
    ensures WriteIn(x) + rest == x.o + (VarInt(|x.s|) + x.s + (ToLE(x.q, 4) + rest))
  {
  }

  lemma InPrefixFree()
    ensures PrefixFree(WriteIn, WellFormedIn)
  {
    forall x: TxIn, y: TxIn, restX: bytes, restY: bytes
      | WellFormedIn(x) && WellFormedIn(y) && WriteIn(x) + restX == WriteIn(y) + restY
      ensures x == y && restX == restY
    {
      InPrefixFreeAt(x, y, restX, restY);
    }
  }

  lemma OutPrefixFreeAt(x: TxOut, y: TxOut, restX: bytes, restY: bytes)
    requires WellFormedOut(x) && WellFormedOut(y) && WriteOut(x) + restX == WriteOut(y) + restY
    ensures x == y && restX == restY
  {
    OutLayout(x, restX);
    OutLayout(y, restY);
    SplitEqual(x.v, y.v, VarInt(|x.s|) + x.s + restX, VarInt(|y.s|) + y.s + restY);
    VarBytesPrefixFree(x.s, y.s, restX, restY);
  }

  lemma OutLayout(x: TxOut, rest: bytes)
    ensures WriteOut(x) + rest == x.v + (VarInt(|x.s|) + x.s + rest)
  {
  }

  lemma OutPrefixFree()
    ensures PrefixFree(WriteOut, WellFormedOut)
  {
    forall x: TxOut, y: TxOut, restX: bytes, restY: bytes
      | WellFormedOut(x) && WellFormedOut(y) && WriteOut(x) + restX == WriteOut(y) + restY
      ensures x == y && restX == restY
    {
      OutPrefixFreeAt(x, y, restX, restY);
    }
  }

  lemma {:induction false} ListPrefixFree<T(!new)>(
    write: T -> bytes, wellFormed: T -> bool, xs: seq<T>, ys: seq<T>, restX: bytes, restY: bytes)
    requires PrefixFree(write, wellFormed) && |xs| == |ys|
    requires (forall x :: x in xs ==> wellFormed(x)) && (forall y :: y in ys ==> wellFormed(y))
    requires WriteAll(write, xs) + restX == WriteAll(write, ys) + restY
    ensures xs == ys && restX == restY
  {
    if xs == [] {
      assert [] + restX == restX && [] + restY == restY;
    } else {
      var tailX, tailY := WriteAll(write, xs[1..]) + restX, WriteAll(write, ys[1..]) + restY;
      assert WriteAll(write, xs) + restX == write(xs[0]) + tailX;
      assert WriteAll(write, ys) + restY == write(ys[0]) + tailY;
      assert xs[0] in xs && ys[0] in ys;
      ListPrefixFree(write, wellFormed, xs[1..], ys[1..], restX, restY);
      assert xs == [xs[0]] + xs[1..] && ys == [ys[0]] + ys[1..];
    }
  }

  lemma CountedListPrefixFree<T(!new)>(
    write: T -> bytes, wellFormed: T -> bool, xs: seq<T>, ys: seq<T>, restX: bytes, restY: bytes)
    requires PrefixFree(write, wellFormed) && |xs| < LENGTH_LIMIT && |ys| < LENGTH_LIMIT
    requires (forall x :: x in xs ==> wellFormed(x)) && (forall y :: y in ys ==> wellFormed(y))
    requires WriteList(write, xs) + restX == WriteList(write, ys) + restY
    ensures xs == ys && restX == restY
  {
    ListSplit(write, xs, restX);
    ListSplit(write, ys, restY);
    hide WriteList, WriteAll, VarInt, PrefixFree;
    VarIntPrefixFree(|xs|, |ys|, WriteAll(write, xs) + restX, WriteAll(write, ys) + restY);
    ListPrefixFree(write, wellFormed, xs, ys, restX, restY);
  }

  lemma ListSplit<T>(write: T -> bytes, xs: seq<T>, rest: bytes)
    ensures WriteList(write, xs) + rest == VarInt(|xs|) + (WriteAll(write, xs) + rest)
  {
    hide WriteAll, VarInt;
  }

  /**
   * No transaction's bytes begin another's, whatever the counts and lengths: the
   * bytes hashed for a transaction's identity determine the transaction.
   */
  lemma WritePrefixFree(a: Tx, b: Tx, restA: bytes, restB: bytes)
    requires WellFormed(a) && WellFormed(b)
    ensures Write(a) + restA == Write(b) + restB <==> a == b && restA == restB
  {
    if Write(a) + restA == Write(b) + restB {
      WriteSplit(a, restA);
      WriteSplit(b, restB);
      var a3, b3 := ToLE(a.lockTime, 4) + restA, ToLE(b.lockTime, 4) + restB;
      var a2, b2 := WriteList(WriteOut, a.outs) + a3, WriteList(WriteOut, b.outs) + b3;
      var a1, b1 := WriteList(WriteIn, a.ins) + a2, WriteList(WriteIn, b.ins) + b2;
      WordPrefixFree(a.version, b.version, a1, b1);
      InPrefixFree();
      CountedListPrefixFree(WriteIn, WellFormedIn, a.ins, b.ins, a2, b2);
      OutPrefixFree();
      CountedListPrefixFree(WriteOut, WellFormedOut, a.outs, b.outs, a3, b3);
      WordPrefixFree(a.lockTime, b.lockTime, restA, restB);
    }
  }

  // ----- where the fields stand -----

  /** Four bytes, the least significant first. */
  function FourBytes(v: word32): bytes {
    [v % 256, v / 256 % 256, v / 256 / 256 % 256, v / 256 / 256 / 256 % 256]
  }

  lemma WordBytes(v: word32)
    ensures ToLE(v, 4) == FourBytes(v)
  {
    assert ToLE(v / 256 / 256 / 256, 1) == [v / 256 / 256 / 256 % 256];
    assert ToLE(v / 256 / 256, 2) == [v / 256 / 256 % 256, v / 256 / 256 / 256 % 256];
    assert ToLE(v / 256, 3) == [v / 256 % 256, v / 256 / 256 % 256, v / 256 / 256 / 256 % 256];
  }

  /**
   * A transaction with one input, one output and short scripts, byte by byte: version;
   * one input with outpoint, script and sequence; one output with value and script; lock time.
   */
  lemma OneInOneOut(version: word32, o: bytes, s: bytes, q: word32, v: bytes, s': bytes, lockTime: word32)
    requires |s| < 0xFD && |s'| < 0xFD
    ensures Write(Tx(version, [TxIn(o, s, q)], [TxOut(v, s')], lockTime))
         == FourBytes(version)
            + ([1] + (o + [|s|] + s + FourBytes(q)))
            + ([1] + (v + [|s'|] + s'))
            + FourBytes(lockTime)
  {
    WordBytes(version);
    WordBytes(q);
    WordBytes(lockTime);
    VarIntBytes(1);
    VarIntBytes(|s|);
    VarIntBytes(|s'|);
    var txin, txout := TxIn(o, s, q), TxOut(v, s');
    OneItem(WriteIn, txin);
    OneItem(WriteOut, txout);
    hide VarInt, ToLE, FourBytes, WriteAll;
  }

  lemma OneItem<T>(write: T -> bytes, x: T)
    ensures WriteAll(write, [x]) == write(x)
  {
    assert [x][1..] == [] && WriteAll(write, []) == [];
    assert write(x) + [] == write(x);
  }

  // ----- size -----

  function InSize(txin: TxIn): nat {
    36 + VarIntSize(|txin.s|) + |txin.s| + 4
  }

  function OutSize(txout: TxOut): nat {
    VarIntSize(|txout.s|) + |txout.s| + 8
  }

  function SumSizes<T>(size: T -> nat, xs: seq<T>): nat {
    if xs == [] then 0 else size(xs[0]) + SumSizes(size, xs[1..])
  }

  lemma {:induction false} SumSizesAppend<T>(size: T -> nat, xs: seq<T>, x: T)
    ensures SumSizes(size, xs + [x]) == SumSizes(size, xs) + size(x)
  {
    if xs == [] {
    } else {
      assert (xs + [x])[1..] == xs[1..] + [x];
      SumSizesAppend(size, xs[1..], x);
    }
  }

  lemma {:induction false} WriteAllSize<T>(write: T -> bytes, size: T -> nat, xs: seq<T>)
    requires forall x :: x in xs ==> |write(x)| == size(x)
    ensures |WriteAll(write, xs)| == SumSizes(size, xs)
  {
    if xs == [] {
    } else {
      assert xs[0] in xs;
      WriteAllSize(write, size, xs[1..]);
    }
  }

  /** The size loop of `getStandardizedObject` reports the length of the written bytes. */
  method StandardizedSize(tx: Tx) returns (totalSize: nat)
    requires WellFormed(tx)
    ensures totalSize == |Write(tx)|
  {
    totalSize := 8;
    totalSize := totalSize + VarIntSize(|tx.ins|);
    for i := 0 to |tx.ins|
      invariant totalSize == 8 + VarIntSize(|tx.ins|) + SumSizes(InSize, tx.ins[..i])
    {
      assert tx.ins[..i + 1] == tx.ins[..i] + [tx.ins[i]];
      SumSizesAppend(InSize, tx.ins[..i], tx.ins[i]);
      totalSize := totalSize + (36 + VarIntSize(|tx.ins[i].s|) + |tx.ins[i].s| + 4);
    }
    assert tx.ins[..|tx.ins|] == tx.ins;
    totalSize := totalSize + VarIntSize(|tx.outs|);
    ghost var head := totalSize;
    for i := 0 to |tx.outs|
      invariant totalSize == head + SumSizes(OutSize, tx.outs[..i])
    {
      assert tx.outs[..i + 1] == tx.outs[..i] + [tx.outs[i]];
      SumSizesAppend(OutSize, tx.outs[..i], tx.outs[i]);
      totalSize := totalSize + (VarIntSize(|tx.outs[i].s|) + |tx.outs[i].s| + 8);
    }
    assert tx.outs[..|tx.outs|] == tx.outs;
    WriteAllSize(WriteIn, InSize, tx.ins);
    WriteAllSize(WriteOut, OutSize, tx.outs);
  }

  // ----- the reader loop -----

  /** The script field: its length, then its bytes. */
  method ParseVarBytes(parser: Parser) returns (r: Result<bytes>)
    requires parser.Valid()
    modifies parser
    ensures parser.Valid() && parser.pos >= old(parser.pos)
    ensures r.Ok? <==> ReadVarBytes(old(parser.Rest())).Ok?
    ensures r.Ok? ==> ReadVarBytes(old(parser.Rest())) == Ok(Parsed(r.value, parser.Rest()))
  {
    var len := parser.VarInt();
    if len.Err? {
      return Err;
    }
    r := parser.Buffer(len.value);
  }

  method ParseWord(parser: Parser) returns (r: Result<word32>)
    requires parser.Valid()
    modifies parser
    ensures parser.Valid() && parser.pos >= old(parser.pos)
    ensures r.Ok? <==> ReadWord(old(parser.Rest())).Ok?
    ensures r.Ok? ==> ReadWord(old(parser.Rest())) == Ok(Parsed(r.value, parser.Rest()))
  {
    var v := parser.WordLE(4);
    if v.Err? {
      return Err;
    }
    assert v.value < 0x1_0000_0000 by {
      Pow256Values();
      LittleEndianBound(old(parser.Rest())[..4]);
    }
    r := Ok(v.value);
  }

  method ParseIn(parser: Parser) returns (r: Result<TxIn>)
    requires parser.Valid()
    modifies parser
    ensures parser.Valid() && parser.pos >= old(parser.pos)
    ensures Reads(ReadIn, old(parser.Rest()), r, parser.Rest())
  {
    var o := parser.Buffer(36);
    if o.Err? {
      return Err;
    }
    var script := ParseVarBytes(parser);
    if script.Err? {
      return Err;
    }
    var q := ParseWord(parser);
    if q.Err? {
      return Err;
    }
    r := Ok(TxIn(o.value, script.value, q.value));
  }

  method ParseOut(parser: Parser) returns (r: Result<TxOut>)
    requires parser.Valid()
    modifies parser
    ensures parser.Valid() && parser.pos >= old(parser.pos)
    ensures Reads(ReadOut, old(parser.Rest()), r, parser.Rest())
  {
    var v := parser.Buffer(8);
    if v.Err? {
      return Err;
    }
    var script := ParseVarBytes(parser);
    if script.Err? {
      return Err;
    }
    r := Ok(TxOut(v.value, script.value));
  }

  method ParseIns(parser: Parser) returns (r: Result<seq<TxIn>>)
    requires parser.Valid()
    modifies parser
    ensures parser.Valid() && parser.pos >= old(parser.pos)
    ensures Reads(s => ReadList(ReadIn, s), old(parser.Rest()), r, parser.Rest())
  {
    var count := parser.VarInt();
    if count.Err? {
      return Err;
    }
    r := ParseInItems(parser, count.value);
  }

  /** The loop over the counted items. */
  method ParseInItems(parser: Parser, count: nat) returns (r: Result<seq<TxIn>>)
    requires parser.Valid()
    modifies parser
    ensures parser.Valid() && parser.pos >= old(parser.pos)
    ensures Reads(s => ReadMany(ReadIn, count, s), old(parser.Rest()), r, parser.Rest())
  {
    hide ReadIn;
    var ins := [];
    ghost var whole := ReadMany(ReadIn, count, parser.Rest());
    PrependNothing(whole);
    for j := 0 to count
      invariant parser.Valid() && parser.pos >= old(parser.pos)
      invariant whole == Prepend(ins, ReadMany(ReadIn, count - j, parser.Rest()))
    {
      ghost var before := parser.Rest();
      var txin := ParseIn(parser);
      LoopStep(whole, ins, ReadIn, count - j, before, txin, parser.Rest());
      if txin.Err? {
        return Err;
      }
      ins := ins + [txin.value];
    }
    r := Ok(ins);
    assert ins + [] == ins;
  }

  method ParseOuts(parser: Parser) returns (r: Result<seq<TxOut>>)
    requires parser.Valid()
    modifies parser
    ensures parser.Valid() && parser.pos >= old(parser.pos)
    ensures Reads(s => ReadList(ReadOut, s), old(parser.Rest()), r, parser.Rest())
  {
    var count := parser.VarInt();
    if count.Err? {
      return Err;
    }
    r := ParseOutItems(parser, count.value);
  }

  /** The loop over the counted items. */
  method ParseOutItems(parser: Parser, count: nat) returns (r: Result<seq<TxOut>>)
    requires parser.Valid()
    modifies parser
    ensures parser.Valid() && parser.pos >= old(parser.pos)
    ensures Reads(s => ReadMany(ReadOut, count, s), old(parser.Rest()), r, parser.Rest())
  {
    hide ReadOut;
    var outs := [];
    ghost var whole := ReadMany(ReadOut, count, parser.Rest());
    PrependNothing(whole);
    for j := 0 to count
      invariant parser.Valid() && parser.pos >= old(parser.pos)
      invariant whole == Prepend(outs, ReadMany(ReadOut, count - j, parser.Rest()))
    {
      ghost var before := parser.Rest();
      var txout := ParseOut(parser);
      LoopStep(whole, outs, ReadOut, count - j, before, txout, parser.Rest());
      if txout.Err? {
        return Err;
      }
      outs := outs + [txout.value];
    }
    r := Ok(outs);
    assert outs + [] == outs;
  }

  /** A parsed transaction together with the bytes it was read from. */
  datatype TxData = TxData(tx: Tx, buffer: bytes)

  /**
   * `Connection.parseTx`: reads one transaction at the parser's position and keeps
   * the slice it was read from.
   */
  method ParseTx(parser: Parser) returns (r: Result<TxData>)
    requires parser.Valid()
    modifies parser
    ensures parser.Valid() && parser.pos >= old(parser.pos)
    ensures r.Ok? <==> Read(old(parser.Rest())).Ok?
    ensures r.Ok? ==> Read(old(parser.Rest())) == Ok(Parsed(r.value.tx, parser.Rest()))
    ensures r.Ok? ==> r.value.buffer + parser.Rest() == old(parser.Rest())
  {
    var startPos := parser.pos;
    var version := ParseWord(parser);
    if version.Err? {
      return Err;
    }
    var ins := ParseIns(parser);
    if ins.Err? {
      return Err;
    }
    var outs := ParseOuts(parser);
    if outs.Err? {
      return Err;
    }
    var lockTime := ParseWord(parser);
    if lockTime.Err? {
      return Err;
    }
    var endPos := parser.pos;
    r := Ok(TxData(Tx(version.value, ins.value, outs.value, lockTime.value), parser.subject[startPos..endPos]));
  }

  // ----- the transaction object -----

  class Transaction {
    var tx: Tx
    var cached: Option<bytes>

    constructor (data: TxData)
      ensures tx == data.tx && cached == Some(data.buffer)
    {
      tx := data.tx;
      cached := Some(data.buffer);
    }

    method Serialize() returns (buffer: bytes)
      modifies `cached
      ensures buffer == Write(tx) && cached == Some(buffer)
    {
      buffer := ToLE(tx.version, 4);
      var ins := PutIns(tx.ins);
      buffer := buffer + ins;
      var outs := PutOuts(tx.outs);
      buffer := buffer + outs;
      buffer := buffer + ToLE(tx.lockTime, 4);
      cached := Some(buffer);
    }

    /** The input loop. */
    static method PutIns(ins: seq<TxIn>) returns (buffer: bytes)
      ensures buffer == WriteList(WriteIn, ins)
    {
      buffer := VarInt(|ins|);
      for i := 0 to |ins|
        invariant buffer == VarInt(|ins|) + WriteAll(WriteIn, ins[..i])
      {
        WriteStep(VarInt(|ins|), WriteIn, ins, i);
        buffer := buffer + WriteIn(ins[i]);
      }
      assert ins[..|ins|] == ins;
    }

    /** The output loop. */
    static method PutOuts(outs: seq<TxOut>) returns (buffer: bytes)
      ensures buffer == WriteList(WriteOut, outs)
    {
      buffer := VarInt(|outs|);
      for i := 0 to |outs|
        invariant buffer == VarInt(|outs|) + WriteAll(WriteOut, outs[..i])
      {
        WriteStep(VarInt(|outs|), WriteOut, outs, i);
        buffer := buffer + WriteOut(outs[i]);
      }
      assert outs[..|outs|] == outs;
    }

    /** The bytes the transaction's hash is taken of: those it was parsed from, when it was parsed. */
    method GetBuffer() returns (buffer: bytes)
      modifies `cached
      ensures buffer == if old(cached).Some? then old(cached).value else Write(tx)
      ensures cached == Some(buffer)
    {
      if cached.Some? {
        return cached.value;
      }
      buffer := Serialize();
    }
  }
}
