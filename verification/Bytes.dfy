/** Byte strings read as little- and big-endian numbers, as the decoders of lib/parser.js do. */
module Bytes {

  type byte = x: int | 0 <= x < 256
  type bytes = seq<byte>

  function Pow256(n: nat): (p: nat)
    ensures p > 0
  {
    if n == 0 then 1 else 256 * Pow256(n - 1)
  }

  /** The number a little-endian byte string stands for. */
  function FromLE(b: bytes): nat {
    if b == [] then 0 else b[0] + 256 * FromLE(b[1..])
  }

  /** The n low-order bytes of v, least significant first; higher bytes are cut off. */
  function ToLE(v: nat, n: nat): (b: bytes)
    ensures |b| == n
  {
    if n == 0 then [] else [v % 256] + ToLE(v / 256, n - 1)
  }

  /** The number a big-endian byte string stands for. */
  function FromBE(b: bytes): nat {
    if b == [] then 0 else 256 * FromBE(b[..|b| - 1]) + b[|b| - 1]
  }

  /** The shortest big-endian form of v: no leading zero byte, and no byte at all for 0. */
  function ToBE(v: nat): bytes {
    if v == 0 then [] else ToBE(v / 256) + [v % 256]
  }

  function Reverse<T>(s: seq<T>): (r: seq<T>)
    ensures |r| == |s|
    ensures forall k :: 0 <= k < |s| ==> r[k] == s[|s| - 1 - k]
  {
    if s == [] then [] else Reverse(s[1..]) + [s[0]]
  }

  function ZeroBytes(n: nat): (b: bytes)
    ensures |b| == n && forall k :: 0 <= k < n ==> b[k] == 0
  {
    seq(n, _ => 0)
  }

  lemma Associative<T>(a: seq<T>, b: seq<T>, c: seq<T>)
    ensures a + b + c == a + (b + c)
  {
  }

  // ----- little endian -----

  /** Writing n bytes keeps the value modulo 256^n. */
  lemma {:induction false} LittleEndianTruncates(v: nat, n: nat)
    ensures FromLE(ToLE(v, n)) == v % Pow256(n)
  {
    if n == 0 {
    } else {
      LittleEndianTruncates(v / 256, n - 1);
      ModStep(v, Pow256(n - 1));
    }
  }

  lemma ModStep(v: nat, p: nat)
    requires p > 0
    ensures v % (256 * p) == v % 256 + 256 * (v / 256 % p)
  {
    var q, r := v / 256 / p, v / 256 % p;
    assert v / 256 == p * q + r;
    assert v == (256 * p) * q + (v % 256 + 256 * r) by {
      assert 256 * (p * q + r) == (256 * p) * q + 256 * r;
    }
    ModUnique(v, 256 * p, q, v % 256 + 256 * r);
  }

  lemma ModUnique(v: nat, m: nat, q: nat, r: nat)
    requires m > 0 && r < m && v == m * q + r
    ensures v % m == r && v / m == q
  {
    var d := v / m - q;
    assert m * d == r - v % m by {
      assert m * d == m * (v / m) - m * q;
    }
    SmallMultiple(m, d);
  }

  lemma SmallMultiple(m: int, d: int)
    requires -m < m * d < m
    ensures d == 0
  {
  }

  lemma SmallMod(v: nat, m: nat)
    requires v < m
    ensures v % m == v
  {
    ModUnique(v, m, 0, v);
  }

  lemma {:induction false} LittleEndianRoundTrip(v: nat, n: nat)
    requires v < Pow256(n)
    ensures FromLE(ToLE(v, n)) == v
  {
    LittleEndianTruncates(v, n);
    SmallMod(v, Pow256(n));
  }

  lemma {:induction false} LittleEndianBound(b: bytes)
    ensures FromLE(b) < Pow256(|b|)
  {
    if b == [] {
    } else {
      LittleEndianBound(b[1..]);
    }
  }

  // ----- big endian -----

  lemma {:induction false} BigEndianRoundTrip(v: nat)
    ensures FromBE(ToBE(v)) == v
  {
    if v == 0 {
    } else {
      BigEndianRoundTrip(v / 256);
      assert ToBE(v)[..|ToBE(v)| - 1] == ToBE(v / 256);
    }
  }

  lemma {:induction false} BigEndianHead(v: nat)
    requires v > 0
    ensures |ToBE(v)| > 0 && ToBE(v)[0] != 0
  {
    if v / 256 > 0 {
      BigEndianHead(v / 256);
    }
  }

  lemma {:induction false} BigEndianInverse(b: bytes)
    requires b == [] || b[0] != 0
    ensures ToBE(FromBE(b)) == b
  {
    if b == [] {
    } else {
      var front, last := b[..|b| - 1], b[|b| - 1];
      assert b == front + [last];
      BigEndianInverse(front);
      if front == [] {
      } else {
        BigEndianPositive(front);
      }
      ModUnique(FromBE(b), 256, FromBE(front), last);
    }
  }

  lemma {:induction false} BigEndianPositive(b: bytes)
    requires b != [] && b[0] != 0
    ensures FromBE(b) > 0
  {
    if |b| > 1 {
      BigEndianPositive(b[..|b| - 1]);
    }
  }

  /** Leading zero bytes do not change the value. */
  lemma {:induction false} BigEndianLeadingZero(b: bytes)
    ensures FromBE([0] + b) == FromBE(b)
  {
    if b == [] {
      assert FromBE([0]) == 0;
    } else {
      var c := [0] + b;
      assert c[..|c| - 1] == [0] + b[..|b| - 1];
      BigEndianLeadingZero(b[..|b| - 1]);
    }
  }

  /** The two readings are mirror images. */
  lemma {:induction false} BigEndianOfReverse(b: bytes)
    ensures FromBE(Reverse(b)) == FromLE(b)
  {
    if b == [] {
    } else {
      var r := Reverse(b);
      assert r[..|r| - 1] == Reverse(b[1..]);
      BigEndianOfReverse(b[1..]);
    }
  }

  lemma {:induction false} Pow256Add(m: nat, n: nat)
    ensures Pow256(m + n) == Pow256(m) * Pow256(n)
  {
    if m == 0 {
    } else {
      Pow256Add(m - 1, n);
    }
  }

  lemma {:induction false} Pow256Monotone(m: nat, n: nat)
    requires m <= n
    ensures Pow256(m) <= Pow256(n)
  {
    if m < n {
      Pow256Monotone(m, n - 1);
    }
  }

  lemma Pow256Values()
    ensures Pow256(1) == 0x100 && Pow256(2) == 0x1_0000
    ensures Pow256(4) == 0x1_0000_0000 && Pow256(8) == 0x1_0000_0000_0000_0000
  {
    assert Pow256(2) == 256 * Pow256(1);
    assert Pow256(3) == 256 * Pow256(2);
    assert Pow256(4) == 256 * Pow256(3);
    assert Pow256(5) == 256 * Pow256(4);
    assert Pow256(6) == 256 * Pow256(5);
    assert Pow256(7) == 256 * Pow256(6);
  }

  lemma {:induction false} BigEndianCons(d: byte, b: bytes)
    ensures FromBE([d] + b) == d * Pow256(|b|) + FromBE(b)
  {
    if b == [] {
      assert [d][..0] == [];
      assert FromBE([d]) == d;
    } else {
      var s := [d] + b;
      assert s[..|s| - 1] == [d] + b[..|b| - 1];
      BigEndianCons(d, b[..|b| - 1]);
      var p := Pow256(|b| - 1);
      assert 256 * (d * p) == d * (256 * p);
    }
  }

  lemma BigEndianBound(b: bytes)
    ensures FromBE(b) < Pow256(|b|)
  {
    BigEndianOfReverse(Reverse(b));
    assert Reverse(Reverse(b)) == b;
    LittleEndianBound(Reverse(b));
  }

  // ----- sign and magnitude -----

  function Abs(n: int): nat {
    if n < 0 then -n else n
  }

  /** The magnitude of n, most significant byte first, with the sign in the top bit of the first byte. */
  function EncodeBE(n: int): bytes {
    var sign: byte := if n < 0 then 0x80 else 0;
    var b := ToBE(Abs(n));
    if b == [] then []
    else if b[0] >= 0x80 then [sign] + b
    else [b[0] + sign] + b[1..]
  }

  /** The bytes needed for a magnitude and its sign bit. */
  function Width(m: nat): nat {
    if m == 0 then 0 else if m < 0x80 then 1 else if m < 0x100 then 2 else 1 + Width(m / 256)
  }

  /** A magnitude of k bytes whose top bit is free needs at most k bytes. */
  lemma {:induction false} WidthBound(m: nat, k: nat)
    requires 2 * m < Pow256(k)
    ensures Width(m) <= k
  {
    assert k == 0 ==> Pow256(k) == 1;
    assert k == 1 ==> Pow256(k) == 256 * Pow256(0);
    if m >= 0x100 {
      assert Pow256(k) == 256 * Pow256(k - 1);
      WidthBound(m / 256, k - 1);
    }
  }

  lemma {:induction false} MagnitudeWidth(m: nat)
    ensures var b := ToBE(m); Width(m) == if b == [] then 0 else if b[0] >= 0x80 then |b| + 1 else |b|
  {
    if m < 256 {
      assert ToBE(m / 256) == [];
    } else {
      MagnitudeWidth(m / 256);
      BigEndianHead(m / 256);
      assert ToBE(m)[0] == ToBE(m / 256)[0];
    }
  }

  lemma {:induction false} WidthLower(m: nat)
    requires m > 0
    ensures Width(m) > 0 && 2 * m >= Pow256(Width(m) - 1)
  {
    if m < 0x100 {
      assert Pow256(1) == 256 * Pow256(0);
    } else {
      WidthLower(m / 256);
      assert Pow256(Width(m) - 1) == 256 * Pow256(Width(m / 256) - 1);
    }
  }

  lemma {:induction false} WidthUpper(m: nat)
    ensures 2 * m < Pow256(Width(m))
  {
    assert Pow256(1) == 256 * Pow256(0) && Pow256(2) == 256 * Pow256(1);
    if m >= 0x100 {
      WidthUpper(m / 256);
      var p := Pow256(Width(m / 256) - 1);
      assert Pow256(Width(m / 256)) == 256 * p;
      assert 2 * (m / 256) <= 256 * p - 2;
    }
  }
}
