/**
 * The byte-stream layer: the varint writer of lib/binary.js, the positional
 * reader of lib/parser.js, and the varint reader of lib/connection.js.
 *
 * A reader is specified on the unread bytes: it either fails, or returns a value
 * together with the bytes that remain.
 */
module Wire {
  import opened Outcomes
  import opened Bytes

  type word32 = x: int | 0 <= x < 0x1_0000_0000

  /** A value read from a byte string and the bytes after it. */
  datatype Parsed<+T> = Parsed(value: T, rest: bytes)

  type Reading<+T> = Result<Parsed<T>>

  // ----- readers, as functions of the unread bytes -----

  function Take(len: nat, s: bytes): Reading<bytes> {
    if len > |s| then Err else Ok(Parsed(s[..len], s[len..]))
  }

  function TakeLE(width: nat, s: bytes): Reading<nat> {
    var p :- Take(width, s);
    Ok(Parsed(FromLE(p.value), p.rest))
  }

  /** Counts and lengths as lib/connection.js reads them. */
  function ParseVarInt(s: bytes): Reading<nat> {
    var p :- TakeLE(1, s);
    match p.value
    case 0xFD => TakeLE(2, p.rest)
    case 0xFE => TakeLE(4, p.rest)
    case 0xFF => TakeLE(8, p.rest)
    case _ => Ok(p)
  }

  // ----- the varint writer -----

  /**
   * Counts and lengths as lib/binary.js writes them. The writer's 5-byte form is
   * guarded by i <= 1<<32, and JavaScript evaluates 1<<32 to 1, so a number that
   * reaches that guard always takes the 9-byte form.
   */
  function VarInt(i: nat): (b: bytes)
    ensures |b| == VarIntSize(i)
  {
    if i < 0xFD then ToLE(i, 1)
    else if i <= 0x1_0000 then [0xFD] + ToLE(i, 2)
    else [0xFF] + ToLE(i, 8)
  }

  /** The encoded size of a count or length, as lib/util.js computes it. */
  function VarIntSize(i: nat): nat {
    if i < 0xFD then 1 else if i <= 0x1_0000 then 3 else 9
  }

  lemma TakeAppend(x: bytes, rest: bytes)
    ensures Take(|x|, x + rest) == Ok(Parsed(x, rest))
  {
    assert (x + rest)[..|x|] == x && (x + rest)[|x|..] == rest;
  }

  lemma TakeLEAppend(v: nat, width: nat, rest: bytes)
    ensures TakeLE(width, ToLE(v, width) + rest) == Ok(Parsed(v % Pow256(width), rest))
  {
    TakeAppend(ToLE(v, width), rest);
    LittleEndianTruncates(v, width);
  }

  /** What the reader makes of a written number, for every 64-bit number. */
  lemma VarIntReadsBack(i: nat, rest: bytes)
    requires i < 0x1_0000_0000_0000_0000
    ensures ParseVarInt(VarInt(i) + rest) == Ok(Parsed(if i == 0x1_0000 then 0 else i, rest))
  {
    Pow256Values();
    if i < 0xFD {
      TakeLEAppend(i, 1, rest);
      SmallMod(i, 0x100);
    } else {
      var tag, width := if i <= 0x1_0000 then 0xFD else 0xFF, if i <= 0x1_0000 then 2 else 8;
      assert VarInt(i) + rest == [tag] + (ToLE(i, width) + rest);
      assert ToLE(tag, 1) == [tag];
      TakeLEAppend(tag, 1, ToLE(i, width) + rest);
      TakeLEAppend(i, width, rest);
      if i != 0x1_0000 {
        SmallMod(i, Pow256(width));
      }
    }
  }

  /** The varint codec is faithful exactly on the numbers other than 65536. */
  lemma VarIntRoundTrip(i: nat, rest: bytes)
    requires i < 0x1_0000_0000_0000_0000
    ensures ParseVarInt(VarInt(i) + rest) == Ok(Parsed(i, rest)) <==> i != 0x1_0000
  {
    VarIntReadsBack(i, rest);
  }

  /** The bytes the writer uses: 65536 takes the 3-byte form, which has room for 0 only. */
  lemma VarIntBytes(i: nat)
    requires i < 0x1_0000_0000_0000_0000
    ensures i < 0xFD ==> VarInt(i) == [i]
    ensures 0xFD <= i < 0x1_0000 ==> VarInt(i) == [0xFD, i % 256, i / 256]
    ensures i == 0x1_0000 ==> VarInt(i) == [0xFD, 0, 0]
    ensures i > 0x1_0000 ==> |VarInt(i)| == 9 && VarInt(i)[0] == 0xFF && FromLE(VarInt(i)[1..]) == i
  {
    Pow256Values();
    if i < 0xFD {
      SmallMod(i, 256);
      assert ToLE(i / 256, 0) == [];
    } else if i <= 0x1_0000 {
      assert ToLE(i / 256, 1) == [i / 256 % 256];
    } else {
      LittleEndianRoundTrip(i, 8);
      assert VarInt(i)[1..] == ToLE(i, 8);
    }
  }

  /** How the first byte tells the reader how many more there are. */
  lemma VarIntRead(s: bytes)
    requires s != []
    ensures var more := if s[0] == 0xFD then 2 else if s[0] == 0xFE then 4 else if s[0] == 0xFF then 8 else 0;
            ParseVarInt(s) ==
              if |s| < 1 + more then Err
              else Ok(Parsed(if more == 0 then s[0] else FromLE(s[1..1 + more]), s[1 + more..]))
  {
    assert s[..1] == [s[0]] && FromLE([s[0]]) == s[0];
    hide FromLE;
    var t := s[1..];
    if |s| >= 3 {
      assert t[..2] == s[1..3] && t[2..] == s[3..];
    }
    if |s| >= 5 {
      assert t[..4] == s[1..5] && t[4..] == s[5..];
    }
    if |s| >= 9 {
      assert t[..8] == s[1..9] && t[8..] == s[9..];
    }
  }

  // ----- lists of items -----

  /** Writes every item of a list in order. */
  function WriteAll<T>(write: T -> bytes, xs: seq<T>): bytes {
    if xs == [] then [] else write(xs[0]) + WriteAll(write, xs[1..])
  }

  /** Reads n items in order. */
  function ReadMany<T>(read: bytes -> Reading<T>, n: nat, s: bytes): Reading<seq<T>> {
    if n == 0 then Ok(Parsed([], s))
    else
      var x :- read(s);
      var xs :- ReadMany(read, n - 1, x.rest);
      Ok(Parsed([x.value] + xs.value, xs.rest))
  }

  /** Puts items read earlier in front of a list reading. */
  function Prepend<T>(xs: seq<T>, r: Reading<seq<T>>): Reading<seq<T>> {
    match r
    case Ok(p) => Ok(Parsed(xs + p.value, p.rest))
    case Err => Err
  }

  lemma PrependNothing<T>(r: Reading<seq<T>>)
    ensures Prepend([], r) == r
  {
    if r.Ok? {
      assert [] + r.value.value == r.value.value;
    }
  }

  /** One turn of a reading loop that has xs so far and n items to go. */
  lemma ReadStep<T>(xs: seq<T>, read: bytes -> Reading<T>, n: nat, s: bytes)
    requires n > 0
    ensures Prepend(xs, ReadMany(read, n, s))
         == match read(s)
            case Ok(p) => Prepend(xs + [p.value], ReadMany(read, n - 1, p.rest))
            case Err => Err
  {
    if read(s).Ok? {
      var p := read(s).value;
      var r := ReadMany(read, n - 1, p.rest);
      if r.Ok? {
        assert xs + ([p.value] + r.value.value) == xs + [p.value] + r.value.value;
      }
    }
  }

  /** A reading method's result r, with s unread before and rest unread after. */
  ghost predicate Reads<T>(read: bytes -> Reading<T>, s: bytes, r: Result<T>, rest: bytes) {
    match r
    case Ok(x) => read(s) == Ok(Parsed(x, rest))
    case Err => read(s).Err?
  }

  /** A turn of a reading loop, in terms of the method called in it. */
  lemma LoopStep<T>(
    whole: Reading<seq<T>>, xs: seq<T>, read: bytes -> Reading<T>, n: nat, s: bytes, r: Result<T>, rest: bytes)
    requires n > 0 && whole == Prepend(xs, ReadMany(read, n, s)) && Reads(read, s, r, rest)
    ensures match r
            case Ok(x) => whole == Prepend(xs + [x], ReadMany(read, n - 1, rest))
            case Err => whole.Err?
  {
    ReadStep(xs, read, n, s);
  }

  /** A reader gives back what the writer wrote, and leaves the bytes after it. */
  ghost predicate ReadsBack<T>(read: bytes -> Reading<T>, write: T -> bytes, x: T) {
    forall rest: bytes :: read(write(x) + rest) == Ok(Parsed(x, rest))
  }

  /** A reader never gives back x from what the writer wrote for it. */
  ghost predicate NeverReadsBack<T>(read: bytes -> Reading<T>, write: T -> bytes, x: T) {
    forall rest: bytes :: read(write(x) + rest).Ok? ==> read(write(x) + rest).value.value != x
  }

  lemma {:induction false} ListReadsBack<T>(read: bytes -> Reading<T>, write: T -> bytes, xs: seq<T>, rest: bytes)
    requires forall x :: x in xs ==> ReadsBack(read, write, x)
    ensures ReadMany(read, |xs|, WriteAll(write, xs) + rest) == Ok(Parsed(xs, rest))
  {
    if xs == [] {
      assert WriteAll(write, xs) + rest == rest;
    } else {
      assert ReadsBack(read, write, xs[0]) by {
        assert xs[0] in xs;
      }
      ListReadsBack(read, write, xs[1..], rest);
      assert WriteAll(write, xs) + rest == write(xs[0]) + (WriteAll(write, xs[1..]) + rest);
      assert [xs[0]] + xs[1..] == xs;
    }
  }

  /** One item that never reads back spoils the list it is in. */
  lemma {:induction false} ListNeverReadsBack<T>(
    read: bytes -> Reading<T>, write: T -> bytes, xs: seq<T>, k: nat, rest: bytes)
    requires k < |xs| && NeverReadsBack(read, write, xs[k])
    requires forall i :: 0 <= i < k ==> ReadsBack(read, write, xs[i])
    ensures ReadMany(read, |xs|, WriteAll(write, xs) + rest).Ok? ==>
              ReadMany(read, |xs|, WriteAll(write, xs) + rest).value.value != xs
  {
    assert WriteAll(write, xs) + rest == write(xs[0]) + (WriteAll(write, xs[1..]) + rest);
    if k == 0 {
    } else {
      assert ReadsBack(read, write, xs[0]);
      ListNeverReadsBack(read, write, xs[1..], k - 1, rest);
    }
  }

  /** A list with its count in front. */
  function WriteList<T>(write: T -> bytes, xs: seq<T>): bytes {
    VarInt(|xs|) + WriteAll(write, xs)
  }

  function ReadList<T>(read: bytes -> Reading<T>, s: bytes): Reading<seq<T>> {
    var n :- ParseVarInt(s);
    ReadMany(read, n.value, n.rest)
  }

  /** Whether an item survives writing and reading is decided by `good`. */
  ghost predicate ReadsBackIff<T>(read: bytes -> Reading<T>, write: T -> bytes, good: T -> bool, x: T) {
    if good(x) then ReadsBack(read, write, x) else NeverReadsBack(read, write, x)
  }

  predicate GoodList<T>(good: T -> bool, xs: seq<T>) {
    |xs| != 0x1_0000 && forall i :: 0 <= i < |xs| ==> good(xs[i])
  }

  /** A counted list survives exactly when its count and all its items do. */
  lemma CountedListReadsBack<T>(
    read: bytes -> Reading<T>, write: T -> bytes, good: T -> bool, xs: seq<T>, rest: bytes)
    requires |xs| < 0x1_0000_0000_0000_0000
    requires forall i :: 0 <= i < |xs| ==> ReadsBackIff(read, write, good, xs[i])
    ensures var r := ReadList(read, WriteList(write, xs) + rest);
            if GoodList(good, xs) then r == Ok(Parsed(xs, rest)) else r.Ok? ==> r.value.value != xs
  {
    assert WriteList(write, xs) + rest == VarInt(|xs|) + (WriteAll(write, xs) + rest);
    VarIntReadsBack(|xs|, WriteAll(write, xs) + rest);
    if |xs| == 0x1_0000 {
    } else if GoodList(good, xs) {
      ListReadsBack(read, write, xs, rest);
    } else {
      var k := FirstBad(good, xs);
      ListNeverReadsBack(read, write, xs, k, rest);
    }
  }

  ghost function FirstBad<T>(good: T -> bool, xs: seq<T>): (k: nat)
    requires exists i :: 0 <= i < |xs| && !good(xs[i])
    ensures k < |xs| && !good(xs[k]) && forall i :: 0 <= i < k ==> good(xs[i])
  {
    if !good(xs[0]) then 0
    else
      assert exists i :: 0 <= i < |xs[1..]| && !good(xs[1..][i]) by {
        var i :| 0 <= i < |xs| && !good(xs[i]);
        assert xs[1..][i - 1] == xs[i];
      }
      1 + FirstBad(good, xs[1..])
  }

  lemma {:induction false} WriteAllAppend<T>(write: T -> bytes, xs: seq<T>, x: T)
    ensures WriteAll(write, xs + [x]) == WriteAll(write, xs) + write(x)
  {
    if xs == [] {
    } else {
      assert (xs + [x])[1..] == xs[1..] + [x];
      WriteAllAppend(write, xs[1..], x);
    }
  }

  /** Items are written in order: those of a list in front come first. */
  lemma {:induction false} WriteAllConcat<T>(write: T -> bytes, xs: seq<T>, ys: seq<T>)
    ensures WriteAll(write, xs + ys) == WriteAll(write, xs) + WriteAll(write, ys)
    decreases |xs|
  {
    if xs == [] {
      assert xs + ys == ys;
    } else {
      assert (xs + ys)[1..] == xs[1..] + ys;
      WriteAllConcat(write, xs[1..], ys);
    }
  }

  /** One turn of a writing loop that has put i items after head. */
  lemma WriteStep<T>(head: bytes, write: T -> bytes, xs: seq<T>, i: nat)
    requires i < |xs|
    ensures head + WriteAll(write, xs[..i]) + write(xs[i]) == head + WriteAll(write, xs[..i + 1])
  {
    assert xs[..i + 1] == xs[..i] + [xs[i]];
    WriteAllAppend(write, xs[..i], xs[i]);
  }

  // ----- the reader object -----

  lemma DecodeStep(b: bytes, i: nat)
    requires i < |b|
    ensures Pow256(i) * FromLE(b[i..]) == Pow256(i) * b[i] + Pow256(i + 1) * FromLE(b[i + 1..])
  {
    assert b[i..][1..] == b[i + 1..];
    Distribute(Pow256(i), b[i], FromLE(b[i + 1..]));
  }

  lemma Distribute(p: int, x: int, y: int)
    ensures p * (x + 256 * y) == p * x + (256 * p) * y
  {
  }

  /** The little-endian decoder loop of lib/parser.js. */
  method DecodeLEu(b: bytes) returns (acc: nat)
    ensures acc == FromLE(b)
  {
    acc := 0;
    for i := 0 to |b|
      invariant acc + Pow256(i) * FromLE(b[i..]) == FromLE(b)
    {
      DecodeStep(b, i);
      acc := acc + Pow256(i) * b[i];
    }
  }

  class Parser {
    const subject: bytes
    var pos: nat

    constructor (buffer: bytes)
      ensures Valid() && subject == buffer && pos == 0 && Rest() == buffer
    {
      subject := buffer;
      pos := 0;
    }

    ghost predicate Valid()
      reads this
    {
      pos <= |subject|
    }

    /** The bytes not read yet. */
    ghost function Rest(): bytes
      reads this
      requires Valid()
    {
      subject[pos..]
    }

    method Eof() returns (r: bool)
      requires Valid()
      ensures r <==> Rest() == []
    {
      r := pos >= |subject|;
    }

    method Buffer(len: nat) returns (r: Result<bytes>)
      requires Valid()
      modifies this
      ensures Valid() && pos >= old(pos)
      ensures r.Ok? <==> Take(len, old(Rest())).Ok?
      ensures r.Ok? ==> Take(len, old(Rest())) == Ok(Parsed(r.value, Rest()))
    {
      if pos + len > |subject| {
        return Err;
      }
      r := Ok(subject[pos..pos + len]);
      assert subject[pos..pos + len] == Rest()[..len] && subject[pos + len..] == Rest()[len..];
      pos := pos + len;
    }

    method WordLE(width: nat) returns (r: Result<nat>)
      requires Valid()
      modifies this
      ensures Valid() && pos >= old(pos)
      ensures r.Ok? <==> TakeLE(width, old(Rest())).Ok?
      ensures r.Ok? ==> TakeLE(width, old(Rest())) == Ok(Parsed(r.value, Rest()))
    {
      var b := Buffer(width);
      if b.Err? {
        return Err;
      }
      var v := DecodeLEu(b.value);
      r := Ok(v);
    }

    method VarInt() returns (r: Result<nat>)
      requires Valid()
      modifies this
      ensures Valid() && pos >= old(pos)
      ensures r.Ok? <==> ParseVarInt(old(Rest())).Ok?
      ensures r.Ok? ==> ParseVarInt(old(Rest())) == Ok(Parsed(r.value, Rest()))
    {
      r := WordLE(1);
      if r == Ok(0xFD) {
        r := WordLE(2);
      } else if r == Ok(0xFE) {
        r := WordLE(4);
      } else if r == Ok(0xFF) {
        r := WordLE(8);
      }
    }
  }
}
