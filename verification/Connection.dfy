/** Framing messages on a byte stream: `sendMessage`, `handleData` and `processData` of lib/connection.js. */
module Connection {
  import opened Outcomes
  import opened Bytes

  /** The network's magic bytes and hash function. */
  datatype Net = Net(magic: bytes, twoSha256: bytes -> bytes)

  ghost predicate ValidNet(net: Net) {
    |net.magic| == 4 && forall p: bytes :: |net.twoSha256(p)| == 32
  }

  const CHECKSUM_VERSION := 209

  datatype Message = Message(command: bytes, payload: bytes)

  // ----- sending -----

  /** The checksum bytes; peers below version 209 use none. */
  function Checksum(net: Net, ver: nat, payload: bytes): (b: bytes)
    requires ValidNet(net)
    ensures |b| == if ver >= CHECKSUM_VERSION then 4 else 0
  {
    if ver >= CHECKSUM_VERSION then net.twoSha256(payload)[..4] else []
  }

  /** The command padded with zeros to twelve bytes. */
  function Padded(command: bytes): bytes {
    if |command| > 12 then command else command + ZeroBytes(12 - |command|)
  }

  /** Header and body with any checksum bytes. */
  function FrameWith(net: Net, m: Message, checksum: bytes): bytes {
    net.magic + Padded(m.command) + ToLE(|m.payload|, 4) + checksum + m.payload
  }

  /** Header and body of a message on the wire. */
  function Frame(net: Net, ver: nat, m: Message): bytes
    requires ValidNet(net)
  {
    FrameWith(net, m, Checksum(net, ver, m.payload))
  }

  /**
   * The bytes of a message on the wire: magic, command padded with zeros, length with the
   * least significant byte first, from version 209 on the first four bytes of the
   * payload's hash, and the payload.
   */
  ghost predicate OnTheWire(net: Net, ver: nat, command: bytes, payload: bytes, f: bytes)
    requires ValidNet(net) && |command| <= 12
  {
    var n, start := |payload|, if ver >= 209 then 24 else 20;
    && |f| == start + n
    && f[..4] == net.magic
    && f[4..4 + |command|] == command && (forall i :: 4 + |command| <= i < 16 ==> f[i] == 0)
    && f[16] == n % 256 && f[17] == n / 256 % 256 && f[18] == n / 256 / 256 % 256 && f[19] == n / 256 / 256 / 256 % 256
    && (ver >= 209 ==> f[20..24] == net.twoSha256(payload)[..4])
    && f[start..] == payload
  }

  lemma FrameOnTheWire(net: Net, ver: nat, m: Message)
    requires ValidNet(net) && |m.command| <= 12
    ensures OnTheWire(net, ver, m.command, m.payload, Frame(net, ver, m))
  {
    var n, f := |m.payload|, Frame(net, ver, m);
    var a, b, c, d := net.magic, Padded(m.command), ToLE(n, 4), Checksum(net, ver, m.payload);
    LengthBytes(n);
    Header(a, b, c, d + m.payload + []);
    Body(a + b + c, d, m.payload, []);
    assert a + b + c + (d + m.payload + []) == a + b + c + d + m.payload + [] == f;
    assert f[4..16][..|m.command|] == m.command && f[4..16][|m.command|..] == ZeroBytes(12 - |m.command|);
    forall i | 4 + |m.command| <= i < 16
      ensures f[i] == 0
    {
      assert f[i] == f[4..16][|m.command|..][i - 4 - |m.command|];
    }
    assert forall i :: 0 <= i < 4 ==> f[16 + i] == c[i];
    hide Frame, Padded, Checksum;
  }

  lemma LengthBytes(n: nat)
    ensures ToLE(n, 4) == [n % 256, n / 256 % 256, n / 256 / 256 % 256, n / 256 / 256 / 256 % 256]
  {
    assert ToLE(n / 256 / 256 / 256, 1) == [n / 256 / 256 / 256 % 256];
    assert ToLE(n / 256 / 256, 2) == [n / 256 / 256 % 256, n / 256 / 256 / 256 % 256];
    assert ToLE(n / 256, 3) == [n / 256 % 256, n / 256 / 256 % 256, n / 256 / 256 / 256 % 256];
  }

  /** A command of more than twelve bytes is refused; otherwise the frame is written to the socket. */
  method SendMessage(net: Net, sendVer: nat, command: bytes, payload: bytes) returns (r: Result<bytes>)
    requires ValidNet(net)
    ensures r == if |command| > 12 then Err else Ok(Frame(net, sendVer, Message(command, payload)))
    ensures r.Ok? <==> |command| <= 12
    ensures r.Ok? ==> OnTheWire(net, sendVer, command, payload, r.value)
  {
    if |command| > 12 {
      return Err;
    }
    FrameOnTheWire(net, sendVer, Message(command, payload));
    var checksum := [];
    if sendVer >= CHECKSUM_VERSION {
      checksum := net.twoSha256(payload)[..4];
    }
    var message := net.magic;
    message := message + Padded(command);
    message := message + ToLE(|payload|, 4);
    message := message + checksum;
    message := message + payload;
    r := Ok(message);
  }

  // ----- receiving -----

  /** Whether the magic bytes stand at i, compared from byte k on; None when a comparison runs past the end. */
  function MagicAt(magic: bytes, buf: bytes, i: nat, k: nat): Option<bool>
    requires k <= |magic|
    decreases |magic| - k
  {
    if k == |magic| then Some(true)
    else if i + k >= |buf| then None
    else if buf[i + k] != magic[k] then Some(false)
    else MagicAt(magic, buf, i, k + 1)
  }

  datatype Scan = Found(at: nat) | Missing(skip: nat) | OutOfBounds

  /** The scan for the next magic bytes. */
  function ScanMagic(magic: bytes, buf: bytes, i: nat): (r: Scan)
    requires |buf| >= 4 && i <= |buf| - 3
    ensures r.Found? ==> i <= r.at <= |buf|
    ensures r.Missing? ==> r.skip <= |buf|
    decreases |buf| - i
  {
    match MagicAt(magic, buf, i, 0)
    case None => OutOfBounds
    case Some(found) =>
      if found then (if i <= |buf| then Found(i) else OutOfBounds)
      else if i > |buf| - 4 then Missing(i)
      else ScanMagic(magic, buf, i + 1)
  }

  /** The length field; its top byte is shifted into the sign of a 32-bit integer. */
  function PayloadLength(header: bytes): int
    requires |header| >= 20
  {
    var low := header[16] as int + header[17] as int * 0x100 + header[18] as int * 0x1_0000;
    var top := header[19] as int;
    low + (if top >= 0x80 then top - 0x100 else top) * 0x100_0000
  }

  function TrimZeros(b: bytes): bytes {
    if b != [] && b[|b| - 1] == 0 then TrimZeros(b[..|b| - 1]) else b
  }

  /**
   * What one pass over the buffer comes to. `Unread` is a pass that asks the
   * buffer library for bytes it does not have: past the end, or a slice of
   * negative length.
   */
  datatype Pass =
    | Wait(rest: bytes)
    | Deliver(message: Message, rest: bytes)
    | BadChecksum(rest: bytes)
    | Unread(rest: bytes)

  function StartPos(ver: nat): nat {
    if ver >= CHECKSUM_VERSION then 24 else 20
  }

  /** One pass of `processData`. */
  function ReadFrame(net: Net, ver: nat, buf: bytes): (r: Pass)
    requires ValidNet(net)
    ensures r.Deliver? ==> |r.rest| < |buf|
  {
    if |buf| < 20 then Wait(buf)
    else
      match ScanMagic(net.magic, buf, 0)
      case OutOfBounds => Unread(buf)
      case Missing(skip) => Wait(buf[skip..])
      case Found(at) => ReadAligned(net, ver, buf[at..])
  }

  /** The rest of a pass, with the magic bytes at the front of the buffer. */
  function ReadAligned(net: Net, ver: nat, buf: bytes): (r: Pass)
    requires ValidNet(net)
    ensures r.Deliver? ==> |r.rest| < |buf|
  {
    if |buf| < 20 then Unread(buf)
    else if PayloadLength(buf) < 0 then Unread(buf)
    else
      var endPos := StartPos(ver) + PayloadLength(buf);
      if |buf| < endPos then Wait(buf)
      else
        var payload := buf[StartPos(ver)..endPos];
        if ver >= CHECKSUM_VERSION && Checksum(net, ver, payload) != buf[20..24] then BadChecksum(buf)
        else Deliver(Message(TrimZeros(buf[4..16]), payload), buf[endPos..])
  }

  /** The messages handed to `parseMessage` and the bytes that stay buffered. */
  datatype Received = Received(messages: seq<Message>, buffered: bytes)

  /** `processData`, which calls itself after every message. */
  function Process(net: Net, ver: nat, buf: bytes): Received
    requires ValidNet(net)
    decreases |buf|
  {
    match ReadFrame(net, ver, buf)
    case Deliver(m, rest) =>
      var more := Process(net, ver, rest);
      Received([m] + more.messages, more.buffered)
    case Wait(rest) => Received([], rest)
    case BadChecksum(rest) => Received([], rest)
    case Unread(rest) => Received([], rest)
  }

  /**
   * A data event. Above the limit nothing is processed; the bytes stay, so the same
   * holds for every later event.
   */
  function Event(net: Net, ver: nat, limit: nat, buf: bytes, data: bytes): Received
    requires ValidNet(net)
  {
    if |buf + data| > limit then Received([], buf + data) else Process(net, ver, buf + data)
  }

  /** A run of data events. */
  function Receive(net: Net, ver: nat, limit: nat, buf: bytes, events: seq<bytes>): Received
    requires ValidNet(net)
    decreases |events|
  {
    if events == [] then Received([], buf)
    else
      var first := Event(net, ver, limit, buf, events[0]);
      var more := Receive(net, ver, limit, first.buffered, events[1..]);
      Received(first.messages + more.messages, more.buffered)
  }

  class Receiver {
    const net: Net
    const limit: nat
    var recvVer: nat
    var buffers: bytes
    var delivered: seq<Message>

    constructor (net: Net, limit: nat, recvVer: nat)
      ensures this.net == net && this.limit == limit && this.recvVer == recvVer
      ensures buffers == [] && delivered == []
    {
      this.net := net;
      this.limit := limit;
      this.recvVer := recvVer;
      buffers := [];
      delivered := [];
    }

    method HandleData(data: bytes)
      requires ValidNet(net)
      modifies this
      ensures recvVer == old(recvVer)
      ensures var r := Event(net, recvVer, limit, old(buffers), data);
              buffers == r.buffered && delivered == old(delivered) + r.messages
    {
      buffers := buffers + data;
      if |buffers| > limit {
        return;
      }
      ProcessData();
    }

    /** The scanning loop. */
    method FindMagic() returns (scan: Scan)
      requires ValidNet(net) && |buffers| >= 20
      ensures scan == ScanMagic(net.magic, buffers, 0)
    {
      var i := 0;
      while true
        invariant 0 <= i <= |buffers| - 3
        invariant ScanMagic(net.magic, buffers, 0) == ScanMagic(net.magic, buffers, i)
        decreases |buffers| - i
      {
        var here := MagicAt(net.magic, buffers, i, 0);
        if here.None? {
          return OutOfBounds;
        }
        if here.value {
          return Found(i);
        }
        if i > |buffers| - 4 {
          return Missing(i);
        }
        i := i + 1;
      }
    }

    method ProcessData()
      requires ValidNet(net)
      modifies this
      ensures recvVer == old(recvVer)
      ensures var r := Process(net, recvVer, old(buffers));
              buffers == r.buffered && delivered == old(delivered) + r.messages
      decreases |buffers|
    {
      if |buffers| < 20 {
        return;
      }
      var scan := FindMagic();
      if scan.OutOfBounds? {
        return;
      }
      if scan.Missing? {
        buffers := buffers[scan.skip..];
        return;
      }
      buffers := buffers[scan.at..];
      var message := TakeFrame();
      if message.None? {
        return;
      }
      delivered := delivered + [message.value];
      ghost var sofar := delivered;
      ghost var rest := buffers;
      ProcessData();
      assert delivered == sofar + Process(net, recvVer, rest).messages;
      Associative(old(delivered), [message.value], Process(net, recvVer, rest).messages);
    }

    /** Takes one frame off the front, when it is complete and its checksum is right. */
    method TakeFrame() returns (message: Option<Message>)
      requires ValidNet(net)
      modifies `buffers
      ensures var pass := ReadAligned(net, recvVer, old(buffers));
              buffers == pass.rest && message == if pass.Deliver? then Some(pass.message) else None
    {
      if |buffers| < 20 {
        return None;
      }
      var payloadLen := PayloadLength(buffers);
      if payloadLen < 0 {
        return None;
      }
      var startPos := StartPos(recvVer);
      var endPos := startPos + payloadLen;
      if |buffers| < endPos {
        return None;
      }
      var command := TrimZeros(buffers[4..16]);
      var payload := buffers[startPos..endPos];
      if recvVer >= CHECKSUM_VERSION && Checksum(net, recvVer, payload) != buffers[20..24] {
        return None;
      }
      message := Some(Message(command, payload));
      buffers := buffers[endPos..];
    }
  }

  // ----- reassembly -----

  /** Commands without trailing NUL, and payloads whose length is not read as negative. */
  predicate Sendable(m: Message) {
    && |m.command| <= 12 && (m.command != [] ==> m.command[|m.command| - 1] != 0)
    && |m.payload| < 0x8000_0000
  }

  predicate AllSendable(ms: seq<Message>) {
    forall m :: m in ms ==> Sendable(m)
  }

  lemma {:induction false} TrimPadded(command: bytes, n: nat)
    requires command != [] ==> command[|command| - 1] != 0
    ensures TrimZeros(command + ZeroBytes(n)) == command
  {
    if n == 0 {
      assert command + ZeroBytes(0) == command;
    } else {
      var b := command + ZeroBytes(n);
      assert b[..|b| - 1] == command + ZeroBytes(n - 1);
      TrimPadded(command, n - 1);
    }
  }

  lemma {:induction false} MagicFound(magic: bytes, buf: bytes, k: nat)
    requires k <= |magic| <= |buf| && buf[..|magic|] == magic
    ensures MagicAt(magic, buf, 0, k) == Some(true)
    decreases |magic| - k
  {
    if k < |magic| {
      assert buf[k] == buf[..|magic|][k];
      MagicFound(magic, buf, k + 1);
    }
  }

  /** A buffer that starts with the magic bytes is read from its first byte on. */
  lemma AlignedAtFront(net: Net, ver: nat, buf: bytes)
    requires ValidNet(net) && |buf| >= 20 && buf[..4] == net.magic
    ensures ReadFrame(net, ver, buf) == ReadAligned(net, ver, buf)
  {
    MagicFound(net.magic, buf, 0);
    assert buf[0..] == buf;
  }

  lemma LengthField(n: nat, header: bytes)
    requires n < 0x8000_0000 && |header| >= 20 && header[16..20] == ToLE(n, 4)
    ensures PayloadLength(header) == n
  {
    var b := header[16..20];
    LittleEndianRoundTrip4(n);
    assert b[0] == header[16] && b[1] == header[17] && b[2] == header[18] && b[3] == header[19];
    FourBytes(b);
  }

  lemma LittleEndianRoundTrip4(n: nat)
    requires n < 0x8000_0000
    ensures FromLE(ToLE(n, 4)) == n
  {
    Pow256Values();
    LittleEndianRoundTrip(n, 4);
  }

  lemma FourBytes(b: bytes)
    requires |b| == 4
    ensures FromLE(b) == b[0] as int + b[1] as int * 0x100 + b[2] as int * 0x1_0000 + b[3] as int * 0x100_0000
  {
    assert b[1..][1..] == b[2..] && b[2..][1..] == b[3..] && b[3..][1..] == [];
    assert FromLE(b[3..]) == b[3];
    assert FromLE(b[2..]) == b[2] + 256 * FromLE(b[3..]);
    assert FromLE(b[1..]) == b[1] + 256 * FromLE(b[2..]);
  }

  /** The checksum field has its length. */
  predicate Fitting(ver: nat, checksum: bytes) {
    |checksum| == if ver >= CHECKSUM_VERSION then 4 else 0
  }

  /** Where the parts of a frame lie. */
  lemma FrameLayout(net: Net, ver: nat, m: Message, checksum: bytes, rest: bytes)
    requires ValidNet(net) && Sendable(m) && Fitting(ver, checksum)
    ensures var s, f := StartPos(ver), FrameWith(net, m, checksum) + rest;
            && |FrameWith(net, m, checksum)| == s + |m.payload|
            && f[..4] == net.magic && f[4..16] == Padded(m.command)
            && f[16..20] == ToLE(|m.payload|, 4) && f[20..s] == checksum
            && f[s..s + |m.payload|] == m.payload && f[s + |m.payload|..] == rest
  {
    var a, b, c, d, e := net.magic, Padded(m.command), ToLE(|m.payload|, 4), checksum, m.payload;
    hide Padded;
    Header(a, b, c, d + e + rest);
    Body(a + b + c, d, e, rest);
    assert a + b + c + (d + e + rest) == a + b + c + d + e + rest == FrameWith(net, m, checksum) + rest;
  }

  /** Where three parts at the front lie. */
  lemma Header(a: bytes, b: bytes, c: bytes, rest: bytes)
    requires |a| == 4 && |b| == 12 && |c| == 4
    ensures var f := a + b + c + rest; f[..4] == a && f[4..16] == b && f[16..20] == c
  {
  }

  /** Where two parts behind the first twenty bytes lie. */
  lemma Body(front: bytes, d: bytes, e: bytes, rest: bytes)
    requires |front| == 20
    ensures var f := front + d + e + rest;
            f[20..20 + |d|] == d && f[20 + |d|..20 + |d| + |e|] == e && f[20 + |d| + |e|..] == rest
  {
  }

  /**
   * What the receiver makes of a buffer with a complete frame at its front: from version 209
   * on it is delivered exactly when bytes 20 to 24 are the first four of the payload's
   * hash, and else nothing is delivered or dropped; below 209 it is always delivered.
   */
  lemma FrontFrame(net: Net, ver: nat, buf: bytes, n: nat, command: bytes)
    requires ValidNet(net) && |buf| >= 20 && buf[..4] == net.magic
    requires n == buf[16] as int + buf[17] as int * 0x100 + buf[18] as int * 0x1_0000 + buf[19] as int * 0x100_0000
    requires n < 0x8000_0000 && |buf| >= (if ver >= 209 then 24 else 20) + n
    requires |command| <= 12 && buf[4..4 + |command|] == command && (command != [] ==> command[|command| - 1] != 0)
    requires forall i :: 4 + |command| <= i < 16 ==> buf[i] == 0
    ensures var start := if ver >= 209 then 24 else 20;
            var payload, rest := buf[start..start + n], buf[start + n..];
            Process(net, ver, buf) ==
              if ver >= 209 && buf[20..24] != net.twoSha256(payload)[..4] then Received([], buf)
              else
                var more := Process(net, ver, rest);
                Received([Message(command, payload)] + more.messages, more.buffered)
  {
    AlignedAtFront(net, ver, buf);
    FrontPass(net, ver, buf, n, command);
    hide ReadFrame, ReadAligned;
  }

  lemma FrontPass(net: Net, ver: nat, buf: bytes, n: nat, command: bytes)
    requires ValidNet(net) && |buf| >= 20
    requires n == buf[16] as int + buf[17] as int * 0x100 + buf[18] as int * 0x1_0000 + buf[19] as int * 0x100_0000
    requires n < 0x8000_0000 && |buf| >= (if ver >= 209 then 24 else 20) + n
    requires |command| <= 12 && buf[4..4 + |command|] == command && (command != [] ==> command[|command| - 1] != 0)
    requires forall i :: 4 + |command| <= i < 16 ==> buf[i] == 0
    ensures var start := if ver >= 209 then 24 else 20;
            var payload, rest := buf[start..start + n], buf[start + n..];
            ReadAligned(net, ver, buf) ==
              if ver >= 209 && buf[20..24] != net.twoSha256(payload)[..4] then BadChecksum(buf)
              else Deliver(Message(command, payload), rest)
  {
    assert PayloadLength(buf) == n;
    hide PayloadLength;
    CommandField(buf, command);
    hide TrimZeros;
  }

  lemma CommandField(buf: bytes, command: bytes)
    requires |buf| >= 20 && |command| <= 12
    requires buf[4..4 + |command|] == command && (command != [] ==> command[|command| - 1] != 0)
    requires forall i :: 4 + |command| <= i < 16 ==> buf[i] == 0
    ensures TrimZeros(buf[4..16]) == command
  {
    var zeros := buf[4 + |command|..16];
    assert zeros == ZeroBytes(12 - |command|);
    assert buf[4..16] == command + zeros;
    TrimPadded(command, 12 - |command|);
    hide TrimZeros;
  }

  /**
   * The scan finds the first place where the magic bytes stand. When they stand nowhere it
   * would drop all but the last three bytes, but runs past the end when those are the first
   * three of the magic bytes.
   */
  lemma {:induction false} ScanMeaning(magic: bytes, buf: bytes, i: nat)
    requires |magic| == 4 && |buf| >= 4 && i <= |buf| - 3
    ensures match ScanMagic(magic, buf, i)
            case Found(at) => StandsAt(magic, buf, at) && NoMagic(magic, buf, i, at)
            case Missing(skip) => NoMagic(magic, buf, i, |buf| - 3) && skip == |buf| - 3 && buf[skip..] != magic[..3]
            case OutOfBounds => NoMagic(magic, buf, i, |buf| - 3) && buf[|buf| - 3..] == magic[..3]
    decreases |buf| - i
  {
    hide NoMagic;
    MagicMeaning(magic, buf, i);
    if i <= |buf| - 4 && buf[i..i + 4] != magic {
      ScanMeaning(magic, buf, i + 1);
      var r := ScanMagic(magic, buf, i + 1);
      NoMagicStep(magic, buf, i, if r.Found? then r.at else |buf| - 3);
    } else {
      NothingYet(magic, buf, i);
    }
  }

  /** From position i on and before position j the magic bytes stand nowhere. */
  ghost predicate NoMagic(magic: bytes, buf: bytes, i: nat, j: nat) {
    forall k: nat :: i <= k < j ==> !StandsAt(magic, buf, k)
  }

  predicate StandsAt(magic: bytes, buf: bytes, k: nat) {
    k + 4 <= |buf| && buf[k..k + 4] == magic
  }

  lemma NoMagicStep(magic: bytes, buf: bytes, i: nat, j: nat)
    requires i + 4 <= |buf| && buf[i..i + 4] != magic && NoMagic(magic, buf, i + 1, j)
    ensures NoMagic(magic, buf, i, j)
  {
  }

  lemma NothingYet(magic: bytes, buf: bytes, i: nat)
    ensures NoMagic(magic, buf, i, i)
  {
  }

  /** The byte-wise comparison at one place. */
  lemma MagicMeaning(magic: bytes, buf: bytes, i: nat)
    requires |magic| == 4 && i + 3 <= |buf|
    ensures var r := MagicAt(magic, buf, i, 0);
            if i + 4 <= |buf| then r == Some(buf[i..i + 4] == magic)
            else r == if buf[i..] == magic[..3] then None else Some(false)
  {
    if i + 4 <= |buf| {
      assert buf[i..i + 4] == [buf[i], buf[i + 1], buf[i + 2], buf[i + 3]];
      assert magic == [magic[0], magic[1], magic[2], magic[3]];
    } else {
      assert buf[i..] == [buf[i], buf[i + 1], buf[i + 2]];
      assert magic[..3] == [magic[0], magic[1], magic[2]];
    }
    var last := if i + 3 >= |buf| then None else Some(buf[i + 3] == magic[3]);
    assert MagicAt(magic, buf, i, 3) == last;
    assert MagicAt(magic, buf, i, 2) == if buf[i + 2] != magic[2] then Some(false) else last;
  }

  /** Bytes in front of the first magic bytes are dropped. */
  lemma GarbageSkipped(net: Net, ver: nat, buf: bytes, at: nat)
    requires ValidNet(net) && at + 20 <= |buf| && StandsAt(net.magic, buf, at) && NoMagic(net.magic, buf, 0, at)
    ensures ReadFrame(net, ver, buf) == ReadFrame(net, ver, buf[at..])
    ensures Process(net, ver, buf) == Process(net, ver, buf[at..])
  {
    ScanMeaning(net.magic, buf, 0);
    AlignedAtFront(net, ver, buf[at..]);
    assert ScanMagic(net.magic, buf, 0) == Found(at);
    hide ReadAligned, ScanMagic;
  }

  /** A whole frame with the right checksum is delivered; with a wrong one nothing is read. */
  lemma WholeFrameWith(net: Net, ver: nat, m: Message, checksum: bytes, rest: bytes)
    requires ValidNet(net) && Sendable(m) && Fitting(ver, checksum)
    ensures var f := FrameWith(net, m, checksum) + rest;
            ReadFrame(net, ver, f) ==
              if checksum == Checksum(net, ver, m.payload) then Deliver(m, rest) else BadChecksum(f)
  {
    var f := FrameWith(net, m, checksum) + rest;
    FrameLayout(net, ver, m, checksum, rest);
    AlignedAtFront(net, ver, f);
    LengthField(|m.payload|, f);
    TrimPadded(m.command, 12 - |m.command|);
    hide FrameWith, Padded, TrimZeros;
  }

  /** A whole frame is delivered and the bytes behind it stay. */
  lemma WholeFrame(net: Net, ver: nat, m: Message, rest: bytes)
    requires ValidNet(net) && Sendable(m)
    ensures ReadFrame(net, ver, Frame(net, ver, m) + rest) == Deliver(m, rest)
  {
    WholeFrameWith(net, ver, m, Checksum(net, ver, m.payload), rest);
    hide FrameWith, ReadFrame;
  }

  /** Part of a frame, however long and whatever its checksum, is kept as it is. */
  lemma PartialFrame(net: Net, ver: nat, m: Message, checksum: bytes, n: nat)
    requires ValidNet(net) && Sendable(m) && Fitting(ver, checksum) && n < |FrameWith(net, m, checksum)|
    ensures var part := FrameWith(net, m, checksum)[..n]; ReadFrame(net, ver, part) == Wait(part)
  {
    var f := FrameWith(net, m, checksum);
    if n >= 20 {
      FrameLayout(net, ver, m, checksum, []);
      assert f + [] == f;
      assert f[..n][..4] == f[..4] && f[..n][16..20] == f[16..20];
      AlignedAtFront(net, ver, f[..n]);
      LengthField(|m.payload|, f[..n]);
    }
  }

  /** Processing a whole frame at the front. */
  lemma ProcessWhole(net: Net, ver: nat, m: Message, rest: bytes)
    requires ValidNet(net) && Sendable(m)
    ensures var more := Process(net, ver, rest);
            Process(net, ver, Frame(net, ver, m) + rest) == Received([m] + more.messages, more.buffered)
  {
    WholeFrame(net, ver, m, rest);
    hide Frame, ReadFrame;
  }

  /** No part of the bytes, nor all of them, leads to a delivery or is dropped. */
  ghost predicate Inert(net: Net, ver: nat, tail: bytes)
    requires ValidNet(net)
  {
    forall i :: 0 <= i <= |tail| ==> Process(net, ver, tail[..i]) == Received([], tail[..i])
  }

  lemma PartIsInert(net: Net, ver: nat, m: Message, checksum: bytes, n: nat)
    requires ValidNet(net) && Sendable(m) && Fitting(ver, checksum) && n < |FrameWith(net, m, checksum)|
    ensures Inert(net, ver, FrameWith(net, m, checksum)[..n])
  {
    var f := FrameWith(net, m, checksum);
    forall i | 0 <= i <= n
      ensures Process(net, ver, f[..n][..i]) == Received([], f[..n][..i])
    {
      assert f[..n][..i] == f[..i];
      PartialFrame(net, ver, m, checksum, i);
      hide FrameWith, ReadFrame;
    }
    hide FrameWith, ReadFrame, Process;
  }

  /** A frame with a wrong checksum blocks everything behind it. */
  lemma WrongIsInert(net: Net, ver: nat, m: Message, checksum: bytes, rest: bytes)
    requires ValidNet(net) && Sendable(m) && Fitting(ver, checksum) && checksum != Checksum(net, ver, m.payload)
    ensures Inert(net, ver, FrameWith(net, m, checksum) + rest)
  {
    var f := FrameWith(net, m, checksum);
    var tail := f + rest;
    hide FrameWith, ReadFrame, Checksum;
    forall i | 0 <= i <= |tail|
      ensures Process(net, ver, tail[..i]) == Received([], tail[..i])
    {
      if i < |f| {
        assert tail[..i] == f[..i];
        PartialFrame(net, ver, m, checksum, i);
      } else {
        assert tail[..i] == f + rest[..i - |f|];
        WholeFrameWith(net, ver, m, checksum, rest[..i - |f|]);
      }
    }
    hide Process;
  }

  /** The bytes of a list of messages. */
  function Frames(net: Net, ver: nat, ms: seq<Message>): bytes
    requires ValidNet(net)
  {
    if ms == [] then [] else Frame(net, ver, ms[0]) + Frames(net, ver, ms[1..])
  }

  function Concat(events: seq<bytes>): bytes {
    if events == [] then [] else events[0] + Concat(events[1..])
  }

  /** Complete frames, then bytes that no frame is read from. */
  function Stream(net: Net, ver: nat, ms: seq<Message>, tail: bytes): bytes
    requires ValidNet(net)
  {
    Frames(net, ver, ms) + tail
  }

  lemma FirstFrameInStream(net: Net, ver: nat, ms: seq<Message>, tail: bytes)
    requires ValidNet(net) && ms != []
    ensures Stream(net, ver, ms, tail) == Frame(net, ver, ms[0]) + Stream(net, ver, ms[1..], tail)
  {
    hide Frame;
  }

  lemma PrefixOf(a: bytes, b: bytes, c: bytes, d: bytes)
    requires a + b == c + d && |a| >= |c|
    ensures a == c + a[|c|..] && a[|c|..] + b == d
  {
    assert a[..|c|] == (a + b)[..|c|] == c;
    assert (a + b)[|c|..] == d;
  }

  /** The buffer holds less than the next frame, or no more than the tail. */
  ghost predicate Settled(net: Net, ver: nat, buf: bytes, ms: seq<Message>, tail: bytes)
    requires ValidNet(net)
  {
    if ms == [] then |buf| <= |tail| else |buf| < |Frame(net, ver, ms[0])|
  }

  lemma ShiftSlices<T>(s: seq<T>, j: nat)
    requires 0 < |s| && j < |s|
    ensures s[..j + 1] == [s[0]] + s[1..][..j] && s[1..][j..] == s[j + 1..]
  {
  }

  /** Processing part of a frame. */
  lemma ProcessPart(net: Net, ver: nat, m: Message, buf: bytes, more: bytes, rest: bytes)
    requires ValidNet(net) && Sendable(m) && |buf| < |Frame(net, ver, m)|
    requires buf + more == Frame(net, ver, m) + rest
    ensures Process(net, ver, buf) == Received([], buf)
  {
    var f := Frame(net, ver, m);
    assert buf == (buf + more)[..|buf|] == (f + rest)[..|buf|] == f[..|buf|];
    PartialFrame(net, ver, m, Checksum(net, ver, m.payload), |buf|);
    hide FrameWith, ReadFrame;
  }

  /** One event's processing delivers exactly the frames that have become complete. */
  lemma {:induction false} ProcessPrefix(
    net: Net, ver: nat, ms: seq<Message>, tail: bytes, buf: bytes, more: bytes) returns (k: nat)
    requires ValidNet(net) && AllSendable(ms) && Inert(net, ver, tail)
    requires buf + more == Stream(net, ver, ms, tail)
    ensures k <= |ms| && Process(net, ver, buf).messages == ms[..k]
    ensures Process(net, ver, buf).buffered + more == Stream(net, ver, ms[k..], tail)
    ensures Settled(net, ver, Process(net, ver, buf).buffered, ms[k..], tail)
    decreases |ms|
  {
    hide Frame, ReadFrame, Sendable;
    if ms == [] {
      assert [] + tail == tail;
      assert buf == (buf + more)[..|buf|] == tail[..|buf|];
      k := 0;
    } else {
      assert Sendable(ms[0]) && AllSendable(ms[1..]) by {
        assert ms[0] in ms;
      }
      FirstFrameInStream(net, ver, ms, tail);
      hide Inert, Stream, Process;
      var f := Frame(net, ver, ms[0]);
      if |buf| < |f| {
        ProcessPart(net, ver, ms[0], buf, more, Stream(net, ver, ms[1..], tail));
        k := 0;
      } else {
        var rest := buf[|f|..];
        PrefixOf(buf, more, f, Stream(net, ver, ms[1..], tail));
        ProcessWhole(net, ver, ms[0], rest);
        var j := ProcessPrefix(net, ver, ms[1..], tail, rest, more);
        k := j + 1;
        ShiftSlices(ms, j);
      }
    }
  }

  /** No event overruns the buffer: a frame or the tail and an event together fit the limit. */
  predicate Fits(net: Net, ver: nat, limit: nat, ms: seq<Message>, tail: bytes, events: seq<bytes>)
    requires ValidNet(net)
  {
    forall j :: 0 <= j < |events| ==>
      |tail| + |events[j]| <= limit && forall i :: 0 <= i < |ms| ==> |Frame(net, ver, ms[i])| + |events[j]| <= limit
  }

  lemma {:induction false} ReceiveFrom(
    net: Net, ver: nat, limit: nat, ms: seq<Message>, tail: bytes, buf: bytes, events: seq<bytes>)
    requires ValidNet(net) && AllSendable(ms) && Inert(net, ver, tail)
    requires buf + Concat(events) == Stream(net, ver, ms, tail)
    requires Settled(net, ver, buf, ms, tail) && Fits(net, ver, limit, ms, tail, events)
    ensures Receive(net, ver, limit, buf, events) == Received(ms, tail)
    decreases |events|
  {
    hide Frame, Inert, Sendable, Process;
    if events == [] {
      assert buf + [] == buf && [] + tail == tail;
      if ms != [] {
        FirstFrameInStream(net, ver, ms, tail);
      }
    } else {
      var more := Concat(events[1..]);
      assert buf + Concat(events) == (buf + events[0]) + more;
      var k := ProcessPrefix(net, ver, ms, tail, buf + events[0], more);
      EventFits(net, ver, limit, ms, tail, buf, events);
      hide Stream, Settled, Fits, Event;
      var rest := ms[k..];
      ReceiveFrom(net, ver, limit, rest, tail, Process(net, ver, buf + events[0]).buffered, events[1..]);
      assert ms == ms[..k] + rest;
    }
  }

  lemma EventFits(
    net: Net, ver: nat, limit: nat, ms: seq<Message>, tail: bytes, buf: bytes, events: seq<bytes>)
    requires ValidNet(net) && Settled(net, ver, buf, ms, tail)
    requires Fits(net, ver, limit, ms, tail, events) && events != []
    ensures Event(net, ver, limit, buf, events[0]) == Process(net, ver, buf + events[0])
    ensures forall k :: 0 <= k <= |ms| ==> Fits(net, ver, limit, ms[k..], tail, events[1..])
  {
    hide Frame, Process;
    assert |tail| + |events[0]| <= limit;
    if ms != [] {
      assert |Frame(net, ver, ms[0])| + |events[0]| <= limit;
    }
  }

  /** Frames and an inert tail, however split into events. */
  lemma ReceiveStream(net: Net, ver: nat, limit: nat, ms: seq<Message>, tail: bytes, events: seq<bytes>)
    requires ValidNet(net) && AllSendable(ms) && Inert(net, ver, tail)
    requires Concat(events) == Stream(net, ver, ms, tail) && Fits(net, ver, limit, ms, tail, events)
    ensures Receive(net, ver, limit, [], events) == Received(ms, tail)
  {
    assert [] + Concat(events) == Concat(events);
    assert ms != [] ==> |Frame(net, ver, ms[0])| >= 20;
    hide Frame, Inert, Process, Fits, Stream;
    ReceiveFrom(net, ver, limit, ms, tail, [], events);
  }

  /**
   * However the bytes of framed messages are split into data events, exactly the
   * complete messages are delivered, in order, and exactly the unfinished frame
   * stays buffered.
   */
  lemma Reassembly(net: Net, ver: nat, limit: nat, ms: seq<Message>, next: Message, n: nat, events: seq<bytes>)
    requires ValidNet(net) && AllSendable(ms) && Sendable(next) && n < |Frame(net, ver, next)|
    requires var part := Frame(net, ver, next)[..n];
             Concat(events) == Stream(net, ver, ms, part) && Fits(net, ver, limit, ms, part, events)
    ensures Receive(net, ver, limit, [], events) == Received(ms, Frame(net, ver, next)[..n])
  {
    PartIsInert(net, ver, next, Checksum(net, ver, next.payload), n);
    hide FrameWith, Inert, Process, Fits, Stream;
    ReceiveStream(net, ver, limit, ms, Frame(net, ver, next)[..n], events);
  }

  // ----- frames with wrong checksums -----

  /** A message with the checksum bytes it arrives with. */
  datatype Arrived = Arrived(message: Message, checksum: bytes)

  predicate Right(net: Net, ver: nat, x: Arrived)
    requires ValidNet(net)
  {
    x.checksum == Checksum(net, ver, x.message.payload)
  }

  predicate AllArrived(ver: nat, xs: seq<Arrived>) {
    forall x :: x in xs ==> Sendable(x.message) && Fitting(ver, x.checksum)
  }

  /** The bytes of all frames. */
  function ArrivedBytes(net: Net, xs: seq<Arrived>): bytes {
    if xs == [] then [] else FrameWith(net, xs[0].message, xs[0].checksum) + ArrivedBytes(net, xs[1..])
  }

  /** The messages before the first frame with a wrong checksum. */
  function RightOnes(net: Net, ver: nat, xs: seq<Arrived>): seq<Message>
    requires ValidNet(net)
  {
    if xs == [] || !Right(net, ver, xs[0]) then [] else [xs[0].message] + RightOnes(net, ver, xs[1..])
  }

  /** The bytes from that frame on. */
  function FromFirstWrong(net: Net, ver: nat, xs: seq<Arrived>, part: bytes): bytes
    requires ValidNet(net)
  {
    if xs == [] || !Right(net, ver, xs[0]) then ArrivedBytes(net, xs) + part
    else FromFirstWrong(net, ver, xs[1..], part)
  }

  lemma {:induction false} SplitAtWrong(net: Net, ver: nat, xs: seq<Arrived>, part: bytes)
    requires ValidNet(net) && AllArrived(ver, xs) && Inert(net, ver, part)
    ensures AllSendable(RightOnes(net, ver, xs)) && Inert(net, ver, FromFirstWrong(net, ver, xs, part))
    ensures ArrivedBytes(net, xs) + part
         == Stream(net, ver, RightOnes(net, ver, xs), FromFirstWrong(net, ver, xs, part))
  {
    hide Inert, FrameWith, Checksum, Sendable, Fitting;
    if xs == [] {
      assert [] + part == part;
    } else {
      assert xs[0] in xs;
      var f := FrameWith(net, xs[0].message, xs[0].checksum);
      assert ArrivedBytes(net, xs) + part == f + (ArrivedBytes(net, xs[1..]) + part);
      if Right(net, ver, xs[0]) {
        SplitAtWrong(net, ver, xs[1..], part);
        var ms := RightOnes(net, ver, xs[1..]);
        assert ([xs[0].message] + ms)[1..] == ms;
        FirstFrameInStream(net, ver, [xs[0].message] + ms, FromFirstWrong(net, ver, xs, part));
      } else {
        WrongIsInert(net, ver, xs[0].message, xs[0].checksum, ArrivedBytes(net, xs[1..]) + part);
        assert [] + (ArrivedBytes(net, xs) + part) == ArrivedBytes(net, xs) + part;
      }
    }
  }

  lemma {:induction false} AllRightIff(net: Net, ver: nat, xs: seq<Arrived>)
    requires ValidNet(net)
    ensures |RightOnes(net, ver, xs)| <= |xs|
    ensures |RightOnes(net, ver, xs)| == |xs| <==> forall x :: x in xs ==> Right(net, ver, x)
  {
    hide Right;
    if xs != [] {
      assert xs == [xs[0]] + xs[1..];
      AllRightIff(net, ver, xs[1..]);
    }
  }

  /**
   * Frames with any checksum bytes, and part of another, however split into events
   * within the limit: exactly the messages before the first wrong checksum are
   * delivered, and everything from that frame on stays buffered. So all are
   * delivered if and only if no checksum is wrong.
   */
  lemma WrongChecksumBlocks(
    net: Net, ver: nat, limit: nat, xs: seq<Arrived>, next: Arrived, n: nat, events: seq<bytes>)
    requires ValidNet(net) && AllArrived(ver, xs + [next]) && n < |FrameWith(net, next.message, next.checksum)|
    requires var part := FrameWith(net, next.message, next.checksum)[..n];
             && Concat(events) == ArrivedBytes(net, xs) + part
             && Fits(net, ver, limit, RightOnes(net, ver, xs), FromFirstWrong(net, ver, xs, part), events)
    ensures var part := FrameWith(net, next.message, next.checksum)[..n];
            Receive(net, ver, limit, [], events) ==
              Received(RightOnes(net, ver, xs), FromFirstWrong(net, ver, xs, part))
    ensures |Receive(net, ver, limit, [], events).messages| == |xs| <==> forall x :: x in xs ==> Right(net, ver, x)
  {
    assert next in xs + [next] && forall x :: x in xs ==> x in xs + [next];
    var part := FrameWith(net, next.message, next.checksum)[..n];
    PartIsInert(net, ver, next.message, next.checksum, n);
    hide FrameWith, Inert, Process, Fits, Stream, Fitting, Sendable;
    SplitAtWrong(net, ver, xs, part);
    ReceiveStream(net, ver, limit, RightOnes(net, ver, xs), FromFirstWrong(net, ver, xs, part), events);
    AllRightIff(net, ver, xs);
  }

  /** A command survives padding and trimming exactly when it does not end in NUL. */
  lemma CommandRoundTrip(command: bytes)
    requires |command| <= 12
    ensures TrimZeros(Padded(command)) == command <==> (command != [] ==> command[|command| - 1] != 0)
  {
    if command == [] || command[|command| - 1] != 0 {
      TrimPadded(command, 12 - |command|);
    } else {
      TrimEnd(Padded(command));
    }
  }

  lemma {:induction false} TrimEnd(b: bytes)
    ensures TrimZeros(b) != [] ==> TrimZeros(b)[|TrimZeros(b)| - 1] != 0
  {
    if b != [] && b[|b| - 1] == 0 {
      TrimEnd(b[..|b| - 1]);
    }
  }

  /**
   * A complete frame with a wrong checksum is never skipped: from then on no event
   * delivers anything.
   */
  lemma {:induction false} BadChecksumSilences(net: Net, ver: nat, limit: nat, buf: bytes, events: seq<bytes>)
    requires ValidNet(net) && |buf| >= 20 && buf[..4] == net.magic && ReadAligned(net, ver, buf).BadChecksum?
    ensures Receive(net, ver, limit, buf, events) == Received([], buf + Concat(events))
    decreases |events|
  {
    if events == [] {
      assert buf + [] == buf;
    } else {
      var longer := buf + events[0];
      SilentEvent(net, ver, limit, buf, events);
      hide Receive, Event, ReadFrame, ReadAligned;
      BadChecksumSilences(net, ver, limit, longer, events[1..]);
      assert longer + Concat(events[1..]) == buf + Concat(events);
    }
  }

  /** After one event the frame still blocks, and nothing was delivered. */
  lemma SilentEvent(net: Net, ver: nat, limit: nat, buf: bytes, events: seq<bytes>)
    requires ValidNet(net) && |buf| >= 20 && buf[..4] == net.magic && ReadAligned(net, ver, buf).BadChecksum?
    requires events != []
    ensures var longer := buf + events[0];
            && |longer| >= 20 && longer[..4] == net.magic && ReadAligned(net, ver, longer).BadChecksum?
            && Receive(net, ver, limit, buf, events) == Receive(net, ver, limit, longer, events[1..])
  {
    BadEvent(net, ver, limit, buf, events[0]);
    hide Event, ReadFrame, ReadAligned;
    var longer := buf + events[0];
    ReceiveSilent(net, ver, limit, buf, longer, events);
  }

  lemma ReceiveSilent(net: Net, ver: nat, limit: nat, buf: bytes, longer: bytes, events: seq<bytes>)
    requires ValidNet(net) && events != [] && Event(net, ver, limit, buf, events[0]) == Received([], longer)
    ensures Receive(net, ver, limit, buf, events) == Receive(net, ver, limit, longer, events[1..])
  {
    hide Event;
    var more := Receive(net, ver, limit, longer, events[1..]);
    assert [] + more.messages == more.messages;
  }

  lemma BadEvent(net: Net, ver: nat, limit: nat, buf: bytes, data: bytes)
    requires ValidNet(net) && |buf| >= 20 && buf[..4] == net.magic && ReadAligned(net, ver, buf).BadChecksum?
    ensures Event(net, ver, limit, buf, data) == Received([], buf + data)
    ensures (buf + data)[..4] == net.magic && ReadAligned(net, ver, buf + data).BadChecksum?
  {
    StillBad(net, ver, buf, data);
    hide ReadAligned, ReadFrame;
  }

  lemma StillBad(net: Net, ver: nat, buf: bytes, data: bytes)
    requires ValidNet(net) && |buf| >= 20 && buf[..4] == net.magic && ReadAligned(net, ver, buf).BadChecksum?
    ensures var longer := buf + data;
            longer[..4] == net.magic
            && ReadAligned(net, ver, longer) == BadChecksum(longer) == ReadFrame(net, ver, longer)
  {
    var longer := buf + data;
    assert longer[..4] == buf[..4];
    var endPos := StartPos(ver) + PayloadLength(buf);
    assert PayloadLength(longer) == PayloadLength(buf);
    assert longer[StartPos(ver)..endPos] == buf[StartPos(ver)..endPos] && longer[20..24] == buf[20..24];
    AlignedAtFront(net, ver, longer);
  }
}
