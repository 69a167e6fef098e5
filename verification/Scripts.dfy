/** Scripts as bytes and as chunks: lib/script.js. */
module Scripts {
  import opened Outcomes
  import opened Bytes
  import opened Wire

  /** A chunk is a data push or an opcode. */
  datatype Chunk = Data(data: bytes) | Op(code: byte)

  const OP_PUSHDATA1: byte := 76
  const OP_PUSHDATA2: byte := 77
  const OP_PUSHDATA4: byte := 78

  // ----- parsing and printing -----

  /** The length of the data that follows a push opcode. */
  function ReadPushLength(opcode: byte, s: bytes): Reading<nat>
    requires 0 < opcode <= OP_PUSHDATA4
  {
    if opcode < OP_PUSHDATA1 then Ok(Parsed(opcode, s))
    else if opcode == OP_PUSHDATA1 then TakeLE(1, s)
    else if opcode == OP_PUSHDATA2 then TakeLE(2, s)
    else TakeLE(4, s)
  }

  function ReadChunk(s: bytes): (r: Reading<Chunk>)
    ensures r.Ok? ==> |r.value.rest| < |s|
  {
    if s == [] then Err
    else if 0 < s[0] <= OP_PUSHDATA4 then
      var len :- ReadPushLength(s[0], s[1..]);
      var data :- Take(len.value, len.rest);
      Ok(Parsed(Data(data.value), data.rest))
    else Ok(Parsed(Op(s[0]), s[1..]))
  }

  /** The chunks of a script; a push that runs past the end of the buffer is an error. */
  function Parse(buffer: bytes): Result<seq<Chunk>>
    decreases |buffer|
  {
    if buffer == [] then Ok([])
    else
      var c :- ReadChunk(buffer);
      var cs :- Parse(c.rest);
      Ok([c.value] + cs)
  }

  /** The opcode and length in front of n bytes of data. */
  function PushHeader(n: nat): bytes {
    if n < OP_PUSHDATA1 then [n]
    else if n <= 0xFF then [OP_PUSHDATA1] + ToLE(n, 1)
    else if n <= 0xFFFF then [OP_PUSHDATA2] + ToLE(n, 2)
    else [OP_PUSHDATA4] + ToLE(n, 4)
  }

  function WriteChunk(c: Chunk): bytes {
    match c
    case Data(data) => PushHeader(|data|) + data
    case Op(code) => [code]
  }

  function Print(chunks: seq<Chunk>): bytes {
    WriteAll(WriteChunk, chunks)
  }

  /** The bytes of a push: its length, behind opcode 76, 77 or 78 when it takes one, two or four bytes. */
  lemma PushBytes(data: bytes)
    ensures var n := |data|;
            && (n < 76 ==> WriteChunk(Data(data)) == [n] + data)
            && (76 <= n < 0x100 ==> WriteChunk(Data(data)) == [76, n] + data)
            && (0x100 <= n < 0x1_0000 ==> WriteChunk(Data(data)) == [77, n % 256, n / 256] + data)
            && (n >= 0x1_0000 ==>
                  WriteChunk(Data(data)) == [78, n % 256, n / 256 % 256, n / 256 / 256 % 256, n / 256 / 256 / 256 % 256]
                                            + data)
  {
    var n := |data|;
    assert ToLE(n / 256 / 256 / 256, 1) == [n / 256 / 256 / 256 % 256];
    assert ToLE(n / 256 / 256, 2) == [n / 256 / 256 % 256, n / 256 / 256 / 256 % 256];
    assert ToLE(n / 256, 3) == [n / 256 % 256, n / 256 / 256 % 256, n / 256 / 256 / 256 % 256];
    assert ToLE(n / 256, 1) == [n / 256 % 256];
    assert ToLE(n, 1) == [n % 256];
  }

  /** How the reader takes a push: opcodes 1 to 75 are lengths, 76, 77 and 78 announce one, two or four length bytes. */
  lemma PushRead(s: bytes)
    requires s != []
    ensures var width := if s[0] == 76 then 1 else if s[0] == 77 then 2 else if s[0] == 78 then 4 else 0;
            if s[0] == 0 || s[0] > 78 then ReadChunk(s) == Ok(Parsed(Op(s[0]), s[1..]))
            else if |s| < 1 + width then ReadChunk(s).Err?
            else
              var n, body := if width == 0 then s[0] else FromLE(s[1..1 + width]), s[1 + width..];
              ReadChunk(s) == if n > |body| then Err else Ok(Parsed(Data(body[..n]), body[n..]))
  {
    hide FromLE;
    var t := s[1..];
    if |s| >= 2 {
      assert t[..1] == s[1..2] && t[1..] == s[2..];
    }
    if |s| >= 3 {
      assert t[..2] == s[1..3] && t[2..] == s[3..];
    }
    if |s| >= 5 {
      assert t[..4] == s[1..5] && t[4..] == s[5..];
    }
  }

  /** The chunks that survive printing: non-empty data, and opcodes that are not push opcodes. */
  predicate Canonical(c: Chunk) {
    match c
    case Data(data) => data != []
    case Op(code) => code == 0 || code > OP_PUSHDATA4
  }

  /** Data short enough for the widest push. */
  predicate Pushable(c: Chunk) {
    c.Data? ==> |c.data| < 0x1_0000_0000
  }

  lemma PushReadsBack(data: bytes, rest: bytes)
    requires 0 < |data| < 0x1_0000_0000
    ensures ReadChunk(WriteChunk(Data(data)) + rest) == Ok(Parsed(Data(data), rest))
  {
    Pow256Values();
    TakeAppend(data, rest);
    var n := |data|;
    if n < OP_PUSHDATA1 {
      assert WriteChunk(Data(data)) + rest == [n] + (data + rest);
    } else {
      var width := if n <= 0xFF then 1 else if n <= 0xFFFF then 2 else 4;
      assert WriteChunk(Data(data)) + rest == PushHeader(n)[..1] + (ToLE(n, width) + (data + rest));
      TakeLEAppend(n, width, data + rest);
      SmallMod(n, Pow256(width));
    }
  }

  lemma ChunkReadsBack(c: Chunk)
    requires Pushable(c)
    ensures ReadsBackIff(ReadChunk, WriteChunk, Canonical, c)
  {
    forall rest: bytes
      ensures Canonical(c) ==> ReadChunk(WriteChunk(c) + rest) == Ok(Parsed(c, rest))
      ensures !Canonical(c) && ReadChunk(WriteChunk(c) + rest).Ok? ==> ReadChunk(WriteChunk(c) + rest).value.value != c
    {
      if c.Data? && c.data != [] {
        PushReadsBack(c.data, rest);
      } else {
        assert WriteChunk(c) + rest == [if c.Op? then c.code else 0] + rest;
      }
    }
  }

  /** Parsing a printed list gives the list back exactly when every chunk is canonical. */
  lemma {:induction false} ParseOfPrint(chunks: seq<Chunk>)
    requires forall c :: c in chunks ==> Pushable(c)
    ensures Parse(Print(chunks)) == Ok(chunks) <==> forall c :: c in chunks ==> Canonical(c)
  {
    if chunks == [] {
    } else {
      var c, cs := chunks[0], chunks[1..];
      assert c in chunks && forall d :: d in chunks <==> d == c || d in cs;
      ChunkReadsBack(c);
      ParseOfPrint(cs);
      assert chunks == [c] + cs;
      if Canonical(c) {
        assert ReadsBack(ReadChunk, WriteChunk, c);
        assert ReadChunk(WriteChunk(c) + Print(cs)) == Ok(Parsed(c, Print(cs)));
      } else {
        assert NeverReadsBack(ReadChunk, WriteChunk, c);
        assert ReadChunk(WriteChunk(c) + Print(cs)).Ok? ==>
                 ReadChunk(WriteChunk(c) + Print(cs)).value.value != c;
      }
    }
  }

  // ----- reprinting a parsed script -----

  /** An empty push prints as opcode 0. */
  function Normal(c: Chunk): (r: Chunk)
    ensures WriteChunk(r) == WriteChunk(c)
  {
    if c == Data([]) then Op(0) else c
  }

  function NormalAll(chunks: seq<Chunk>): (r: seq<Chunk>)
    ensures |r| == |chunks| && forall i :: 0 <= i < |r| ==> r[i] == Normal(chunks[i])
  {
    if chunks == [] then [] else [Normal(chunks[0])] + NormalAll(chunks[1..])
  }

  lemma {:induction false} NormalPrintsAlike(chunks: seq<Chunk>)
    ensures Print(NormalAll(chunks)) == Print(chunks)
  {
    if chunks == [] {
    } else {
      NormalPrintsAlike(chunks[1..]);
      assert NormalAll(chunks)[1..] == NormalAll(chunks[1..]);
    }
  }

  lemma ReadChunkShape(s: bytes)
    requires ReadChunk(s).Ok?
    ensures var p := ReadChunk(s).value;
            Pushable(p.value) && Canonical(Normal(p.value)) && |WriteChunk(p.value)| + |p.rest| <= |s|
  {
    Pow256Values();
    if 0 < s[0] <= OP_PUSHDATA4 && s[0] >= OP_PUSHDATA1 {
      var width := if s[0] == OP_PUSHDATA1 then 1 else if s[0] == OP_PUSHDATA2 then 2 else 4;
      LittleEndianBound(s[1..][..width]);
    }
  }

  lemma {:induction false} ParsedShape(buffer: bytes)
    requires Parse(buffer).Ok?
    ensures var cs := Parse(buffer).value;
            (forall c :: c in cs ==> Pushable(c) && Canonical(Normal(c))) && |Print(cs)| <= |buffer|
    decreases |buffer|
  {
    if buffer == [] {
    } else {
      ReadChunkShape(buffer);
      var c := ReadChunk(buffer).value;
      ParsedShape(c.rest);
      assert Parse(buffer).value[1..] == Parse(c.rest).value;
    }
  }

  /**
   * Printing a parsed script: never longer than the original, parses to the same
   * chunks but for empty pushes, and printing a second time changes nothing.
   */
  lemma Reprint(buffer: bytes)
    requires Parse(buffer).Ok?
    ensures var cs := Parse(buffer).value;
            && |Print(cs)| <= |buffer|
            && Parse(Print(cs)) == Ok(NormalAll(cs))
            && Print(Parse(Print(cs)).value) == Print(cs)
  {
    var cs := Parse(buffer).value;
    ParsedShape(buffer);
    NormalPrintsAlike(cs);
    forall c | c in NormalAll(cs)
      ensures Pushable(c) && Canonical(c)
    {
      var i :| 0 <= i < |cs| && NormalAll(cs)[i] == c;
      assert c == Normal(cs[i]) && cs[i] in cs;
    }
    ParseOfPrint(NormalAll(cs));
  }

  // ----- deleting a chunk -----

  /**
   * What `findAndDelete` leaves: its index moves on after a splice, so the chunk
   * behind a deleted one is never looked at.
   */
  function Delete(x: Chunk, cs: seq<Chunk>): seq<Chunk>
    decreases |cs|
  {
    if cs == [] then []
    else if cs[0] != x then [cs[0]] + Delete(x, cs[1..])
    else if |cs| == 1 then []
    else [cs[1]] + Delete(x, cs[2..])
  }

  /** Every chunk but x. */
  function Without(x: Chunk, cs: seq<Chunk>): (r: seq<Chunk>)
    ensures x !in r
  {
    if cs == [] then []
    else if cs[0] == x then Without(x, cs[1..])
    else [cs[0]] + Without(x, cs[1..])
  }

  /** Two neighbouring chunks both equal x. */
  predicate HasAdjacent(x: Chunk, cs: seq<Chunk>) {
    |cs| >= 2 && ((cs[0] == x && cs[1] == x) || HasAdjacent(x, cs[1..]))
  }

  /** Deletion removes every occurrence exactly when no two occurrences are neighbours. */
  lemma {:induction false} DeleteIsComplete(x: Chunk, cs: seq<Chunk>)
    ensures Delete(x, cs) == Without(x, cs) <==> !HasAdjacent(x, cs)
    decreases |cs|
  {
    if cs == [] {
    } else if cs[0] != x {
      DeleteIsComplete(x, cs[1..]);
      ConsInjective(cs[0], Delete(x, cs[1..]), Without(x, cs[1..]));
    } else if |cs| == 1 {
    } else if cs[1] == x {
      assert Delete(x, cs)[0] == x;
    } else {
      DeleteIsComplete(x, cs[2..]);
      assert cs[1..][1..] == cs[2..];
      assert Without(x, cs[1..]) == [cs[1]] + Without(x, cs[2..]);
      ConsInjective(cs[1], Delete(x, cs[2..]), Without(x, cs[2..]));
      assert HasAdjacent(x, cs[1..]) == HasAdjacent(x, cs[2..]);
    }
  }

  lemma ConsInjective<T>(c: T, a: seq<T>, b: seq<T>)
    ensures [c] + a == [c] + b <==> a == b
  {
    assert ([c] + a)[1..] == a && ([c] + b)[1..] == b;
  }

  /** Deletion removes nothing but occurrences of x. */
  lemma {:induction false} DeleteKeepsOthers(x: Chunk, cs: seq<Chunk>)
    ensures Without(x, Delete(x, cs)) == Without(x, cs)
    ensures x !in cs ==> Delete(x, cs) == cs
    ensures |Delete(x, cs)| < |cs| <==> x in cs
    decreases |cs|
  {
    if cs == [] {
    } else if cs[0] != x {
      DeleteKeepsOthers(x, cs[1..]);
      assert x in cs <==> x in cs[1..];
    } else if |cs| == 1 {
    } else {
      DeleteKeepsOthers(x, cs[2..]);
      assert cs[1..][1..] == cs[2..];
    }
  }

  /** A second deletion finds nothing new exactly when the first was complete. */
  lemma DeleteIdempotent(x: Chunk, cs: seq<Chunk>)
    ensures !HasAdjacent(x, cs) ==> Delete(x, Delete(x, cs)) == Delete(x, cs)
    ensures Delete(x, Delete(x, cs)) == Delete(x, cs) ==> Delete(x, cs) == Without(x, cs)
  {
    DeleteIsComplete(x, cs);
    DeleteKeepsOthers(x, cs);
    DeleteKeepsOthers(x, Delete(x, cs));
    if x !in Delete(x, cs) {
      WithoutAbsent(x, Delete(x, cs));
    }
  }

  lemma {:induction false} WithoutAbsent(x: Chunk, cs: seq<Chunk>)
    requires x !in cs
    ensures Without(x, cs) == cs
  {
    if cs == [] {
    } else {
      WithoutAbsent(x, cs[1..]);
    }
  }

  /** Chunks parsed earlier in front of those still to come. */
  function Joined(done: seq<Chunk>, r: Result<seq<Chunk>>): Result<seq<Chunk>> {
    match r
    case Ok(cs) => Ok(done + cs)
    case Err => Err
  }

  lemma JoinedNothing(r: Result<seq<Chunk>>)
    ensures Joined([], r) == r
  {
    if r.Ok? {
      assert [] + r.value == r.value;
    }
  }

  lemma ParseStep(done: seq<Chunk>, s: bytes)
    requires s != []
    ensures Joined(done, Parse(s))
         == match ReadChunk(s)
            case Ok(p) => Joined(done + [p.value], Parse(p.rest))
            case Err => Err
  {
    if ReadChunk(s).Ok? {
      var p := ReadChunk(s).value;
      if Parse(p.rest).Ok? {
        assert done + ([p.value] + Parse(p.rest).value) == done + [p.value] + Parse(p.rest).value;
      }
    }
  }

  // ----- the script object -----

  class Script {
    var buffer: bytes
    var chunks: seq<Chunk>

    constructor (b: bytes)
      ensures buffer == b && chunks == []
    {
      buffer := b;
      chunks := [];
    }

    /** The buffer is what the chunks print to. */
    ghost predicate Printed()
      reads this
    {
      buffer == Print(chunks)
    }

    method ParseBuffer() returns (ok: bool)
      modifies this
      ensures buffer == old(buffer)
      ensures ok <==> Parse(buffer).Ok?
      ensures ok ==> Parse(buffer) == Ok(chunks)
    {
      hide ReadChunk;
      chunks := [];
      var parser := new Parser(buffer);
      var eof := parser.Eof();
      JoinedNothing(Parse(buffer));
      while !eof
        invariant parser.Valid() && fresh(parser) && buffer == old(buffer)
        invariant eof <==> parser.Rest() == []
        invariant Parse(buffer) == Joined(chunks, Parse(parser.Rest()))
        decreases |parser.Rest()|
      {
        ghost var before := parser.Rest();
        ParseStep(chunks, before);
        var chunk := ReadNext(parser);
        if chunk.Err? {
          return false;
        }
        chunks := chunks + [chunk.value];
        eof := parser.Eof();
      }
      assert chunks + [] == chunks;
      ok := true;
    }

    /** One turn of the parsing loop. */
    static method ReadNext(parser: Parser) returns (r: Result<Chunk>)
      requires parser.Valid() && parser.Rest() != []
      modifies parser
      ensures parser.Valid()
      ensures r.Ok? <==> ReadChunk(old(parser.Rest())).Ok?
      ensures r.Ok? ==> ReadChunk(old(parser.Rest())) == Ok(Parsed(r.value, parser.Rest()))
    {
      ghost var s := parser.Rest();
      var first := parser.Buffer(1);
      var opcode := first.value[0];
      assert opcode == s[0] && parser.Rest() == s[1..];
      if !(0 < opcode <= OP_PUSHDATA4) {
        return Ok(Op(opcode));
      }
      var len := Ok(opcode as nat);
      if opcode == OP_PUSHDATA1 {
        len := parser.WordLE(1);
      } else if opcode == OP_PUSHDATA2 {
        len := parser.WordLE(2);
      } else if opcode == OP_PUSHDATA4 {
        len := parser.WordLE(4);
      }
      if len.Err? {
        return Err;
      }
      var data := parser.Buffer(len.value);
      if data.Err? {
        return Err;
      }
      r := Ok(Data(data.value));
    }

    method WriteOp(opcode: byte)
      modifies this
      ensures chunks == old(chunks) + [Op(opcode)]
      ensures buffer == old(buffer) + WriteChunk(Op(opcode))
      ensures old(Printed()) ==> Printed()
    {
      WriteAllAppend(WriteChunk, chunks, Op(opcode));
      buffer := buffer + [opcode];
      chunks := chunks + [Op(opcode)];
    }

    method WriteBytes(data: bytes)
      modifies this
      ensures chunks == old(chunks) + [Data(data)]
      ensures buffer == old(buffer) + WriteChunk(Data(data))
      ensures old(Printed()) ==> Printed()
    {
      WriteAllAppend(WriteChunk, chunks, Data(data));
      var buf := buffer;
      if |data| < OP_PUSHDATA1 {
        buf := buf + [|data|];
      } else if |data| <= 0xFF {
        buf := buf + [OP_PUSHDATA1] + ToLE(|data|, 1);
      } else if |data| <= 0xFFFF {
        buf := buf + [OP_PUSHDATA2] + ToLE(|data|, 2);
      } else {
        buf := buf + [OP_PUSHDATA4] + ToLE(|data|, 4);
      }
      assert buf == buffer + PushHeader(|data|);
      assert buf + data == buffer + WriteChunk(Data(data));
      buffer := buf + data;
      chunks := chunks + [Data(data)];
    }

    static method ChunksToBuffer(chunks: seq<Chunk>) returns (buf: bytes)
      ensures buf == Print(chunks)
    {
      buf := [];
      for i := 0 to |chunks|
        invariant buf == [] + Print(chunks[..i])
      {
        WriteStep([], WriteChunk, chunks, i);
        buf := buf + WriteChunk(chunks[i]);
      }
      assert chunks[..|chunks|] == chunks;
    }

    method FindAndDelete(chunk: Chunk)
      modifies this
      ensures chunks == Delete(chunk, old(chunks))
      ensures buffer == if chunk in old(chunks) then Print(chunks) else old(buffer)
    {
      var dirty := false;
      var i, l := 0, |chunks|;
      while i < l
        invariant |chunks| <= l && buffer == old(buffer)
        invariant Resume(chunk, chunks, i) == Delete(chunk, old(chunks))
        invariant dirty <==> |chunks| < l
      {
        if i < |chunks| && chunks[i] == chunk {
          DeleteStep(chunk, chunks, i);
          chunks := chunks[..i] + chunks[i + 1..];
          dirty := true;
        } else if i < |chunks| {
          KeepStep(chunk, chunks, i);
        }
        i := i + 1;
      }
      assert i <= |chunks| ==> chunks[..i] + [] == chunks;
      DeleteKeepsOthers(chunk, old(chunks));
      if dirty {
        buffer := ChunksToBuffer(chunks);
      }
    }
  }

  /** A turn of the deletion loop that splices chunk i out. */
  lemma DeleteStep(x: Chunk, cs: seq<Chunk>, i: nat)
    requires i < |cs| && cs[i] == x
    ensures cs[..i] + Delete(x, cs[i..]) == Resume(x, cs[..i] + cs[i + 1..], i + 1)
  {
    var ds := cs[..i] + cs[i + 1..];
    if i + 1 <= |ds| {
      assert ds[..i + 1] == cs[..i] + [cs[i + 1]];
      assert ds[i + 1..] == cs[i..][2..];
    } else {
      assert cs[i..] == [x] && ds == cs[..i] + [];
    }
  }

  lemma KeepStep(x: Chunk, cs: seq<Chunk>, i: nat)
    requires i < |cs| && cs[i] != x
    ensures cs[..i] + Delete(x, cs[i..]) == Resume(x, cs, i + 1)
  {
    assert cs[..i + 1] == cs[..i] + [cs[i]];
    assert cs[i..][1..] == cs[i + 1..];
  }

  /** What the deletion loop will make of cs when it is about to look at index i. */
  function Resume(x: Chunk, cs: seq<Chunk>, i: nat): seq<Chunk> {
    if i <= |cs| then cs[..i] + Delete(x, cs[i..]) else cs
  }
}
