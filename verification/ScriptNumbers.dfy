/** The sign-magnitude numbers on the script stack: the casts of lib/scriptinterpreter.js. */
module ScriptNumbers {
  import opened Outcomes
  import opened Bytes

  /** The magnitude and sign bit of the top byte, and the bytes below it, most significant first. */
  function SignedBE(w: bytes): int
    requires w != []
  {
    if w[0] >= 0x80 then 0 - FromBE([w[0] - 0x80] + w[1..]) else FromBE(w)
  }

  /** The number a byte string of any length stands for; the sign sits in the last byte. */
  function Decode(v: bytes): int {
    if v == [] then 0 else SignedBE(Reverse(v))
  }

  /** `bigintToBuffer`: the magnitude with the sign put in, in an extra byte when the top bit is taken. */
  function Encode(n: int): bytes {
    Reverse(EncodeBE(n))
  }

  /** Every integer is read back from its encoding. */
  lemma DecodeOfEncode(n: int)
    ensures Decode(Encode(n)) == n
  {
    var w := EncodeBE(n);
    assert Reverse(Reverse(w)) == w;
    BigEndianRoundTrip(Abs(n));
    var b := ToBE(Abs(n));
    if n != 0 {
      BigEndianHead(Abs(n));
      assert [b[0]] + b[1..] == b;
      if b[0] >= 0x80 {
        BigEndianLeadingZero(b);
        assert w[1..] == b;
      } else {
        assert w[1..] == b[1..];
      }
    }
  }

  /** Clearing the sign bit of the top byte leaves the magnitude. */
  function Magnitude(w: bytes): bytes
    requires w != []
  {
    [w[0] % 0x80] + w[1..]
  }

  lemma SignedMagnitude(w: bytes)
    requires w != []
    ensures SignedBE(w) == if w[0] >= 0x80 then 0 - FromBE(Magnitude(w)) else FromBE(Magnitude(w))
  {
    if w[0] >= 0x80 {
      assert w[0] % 0x80 == w[0] - 0x80;
    } else {
      assert w[0] % 0x80 == w[0];
      assert Magnitude(w) == w;
    }
  }

  lemma MagnitudeBound(w: bytes)
    requires w != []
    ensures 2 * FromBE(Magnitude(w)) < Pow256(|w|)
  {
    var d := w[0] % 0x80;
    BigEndianCons(d, w[1..]);
    BigEndianBound(w[1..]);
    TopByteBound(d, Pow256(|w| - 1));
  }

  lemma TopByteBound(d: nat, p: nat)
    requires d < 0x80
    ensures d * p <= 0x7F * p
  {
  }

  lemma {:induction false} EncodeWidth(n: int)
    ensures |Encode(n)| == Width(Abs(n))
  {
    MagnitudeWidth(Abs(n));
  }

  /** No shorter byte string stands for the same number. */
  lemma EncodeShortest(v: bytes)
    ensures |Encode(Decode(v))| <= |v|
  {
    EncodeWidth(Decode(v));
    if v != [] {
      SignedMagnitude(Reverse(v));
      MagnitudeBound(Reverse(v));
      WidthBound(Abs(Decode(v)), |v|);
    }
  }

  /** Among the strings of the shortest length it is the only one. */
  lemma EncodeUnique(v: bytes)
    requires |v| <= |Encode(Decode(v))|
    ensures v == Encode(Decode(v))
  {
    EncodeWidth(Decode(v));
    if v == [] {
    } else {
      UniqueBE(Reverse(v));
      assert Reverse(Reverse(v)) == v;
    }
  }

  lemma UniqueBE(w: bytes)
    requires w != [] && |w| <= Width(Abs(SignedBE(w)))
    ensures EncodeBE(SignedBE(w)) == w
  {
    SignedMagnitude(w);
    if w[0] % 0x80 != 0 {
      FullTopByte(w);
    } else {
      FreeTopByte(w);
    }
  }

  lemma FullTopByte(w: bytes)
    requires w != [] && w[0] % 0x80 != 0
    ensures EncodeBE(SignedBE(w)) == w
  {
    hide Pow256, Width;
    var m := Magnitude(w);
    SignedMagnitude(w);
    BigEndianInverse(m);
    BigEndianPositive(m);
  }

  lemma FreeTopByte(w: bytes)
    requires w != [] && w[0] % 0x80 == 0 && |w| <= Width(Abs(SignedBE(w)))
    ensures EncodeBE(SignedBE(w)) == w
  {
    hide Pow256, Width;
    SignedMagnitude(w);
    assert Magnitude(w) == [0] + w[1..];
    BigEndianLeadingZero(w[1..]);
    ShortMagnitude(w[1..]);
    BigEndianInverse(w[1..]);
    BigEndianPositive(w[1..]);
  }

  /** When a free top byte is needed, the bytes below it start with a set top bit. */
  lemma ShortMagnitude(b: bytes)
    requires Width(FromBE(b)) > |b|
    ensures b != [] && b[0] >= 0x80
  {
    if b != [] && b[0] < 0x80 {
      SignedMagnitude(b);
      MagnitudeBound(b);
      WidthBound(FromBE(b), |b|);
    }
  }

  // ----- the casts -----

  /** `castBigint`: operands of more than four bytes are refused. */
  method CastBigint(v: bytes) returns (r: Result<int>)
    ensures r == if |v| > 4 then Err else Ok(Decode(v))
  {
    if |v| == 0 {
      return Ok(0);
    }
    if |v| > 4 {
      return Err;
    }
    var w := Reverse(v);
    if w[0] >= 0x80 {
      w := w[0 := w[0] - 0x80];
      assert w == [Reverse(v)[0] - 0x80] + Reverse(v)[1..];
      r := Ok(0 - FromBE(w));
    } else {
      r := Ok(FromBE(w));
    }
  }

  function Cast(v: bytes): Result<int> {
    if |v| > 4 then Err else Ok(Decode(v))
  }

  lemma WidthFour(m: nat)
    ensures Width(m) <= 4 <==> m <= 0x7FFF_FFFF
  {
    Pow256Values();
    if m <= 0x7FFF_FFFF {
      WidthBound(m, 4);
    } else {
      assert m / 256 / 256 / 256 >= 0x80;
      assert Width(m / 256 / 256 / 256) >= 2;
      assert Width(m / 256 / 256) >= 3;
      assert Width(m / 256) >= 4;
    }
  }

  /** The operand check accepts an encoded number exactly in the 32-bit sign-magnitude range. */
  lemma CastOfEncode(n: int)
    ensures Cast(Encode(n)) == if -0x7FFF_FFFF <= n <= 0x7FFF_FFFF then Ok(n) else Err
  {
    EncodeWidth(n);
    WidthFour(Abs(n));
    DecodeOfEncode(n);
  }

  /** `bigintToBuffer`, with the byte that takes the sign set in place. */
  method BigintToBuffer(v: int) returns (r: bytes)
    ensures r == Encode(v)
  {
    if v > 0 {
      var b := ToBE(v);
      BigEndianHead(v);
      if b[0] >= 0x80 {
        r := Reverse([0] + b);
      } else {
        assert b == [b[0] + 0] + b[1..];
        r := Reverse(b);
      }
    } else if v == 0 {
      r := [];
    } else {
      var b := ToBE(-v);
      BigEndianHead(-v);
      if b[0] >= 0x80 {
        r := Reverse([0x80] + b);
      } else {
        assert b[0 := b[0] + 0x80] == [b[0] + 0x80] + b[1..];
        r := Reverse(b[0 := b[0] + 0x80]);
      }
    }
  }

  /** `castBool`: true exactly for a non-zero number; negative zero of any length is false. */
  method CastBool(v: bytes) returns (r: bool)
    ensures r <==> Decode(v) != 0
  {
    for i := 0 to |v|
      invariant forall k :: 0 <= k < i ==> v[k] == 0
    {
      if v[i] != 0 {
        DecodeZero(v);
        if i == |v| - 1 && v[i] == 0x80 {
          return false;
        }
        return true;
      }
    }
    DecodeZero(v);
    r := false;
  }

  function Truthy(v: bytes): bool {
    Decode(v) != 0
  }

  lemma {:induction false} ZeroNumber(b: bytes)
    ensures FromBE(b) == 0 <==> forall k :: 0 <= k < |b| ==> b[k] == 0
  {
    if b == [] {
    } else {
      ZeroNumber(b[..|b| - 1]);
      assert forall k :: 0 <= k < |b| - 1 ==> b[..|b| - 1][k] == b[k];
    }
  }

  /** The byte strings that stand for zero: all bytes zero, but for a sign bit in the last one. */
  lemma DecodeZero(v: bytes)
    ensures Decode(v) == 0 <==>
              forall k :: 0 <= k < |v| ==> v[k] == 0 || (k == |v| - 1 && v[k] == 0x80)
  {
    if v != [] {
      var w := Reverse(v);
      SignedMagnitude(w);
      ZeroNumber(Magnitude(w));
      var m := Magnitude(w);
      assert forall k :: 0 < k < |m| ==> m[k] == v[|v| - 1 - k];
      assert m[0] == v[|v| - 1] % 0x80;
      if Decode(v) == 0 {
        forall k | 0 <= k < |v|
          ensures v[k] == 0 || (k == |v| - 1 && v[k] == 0x80)
        {
          assert m[|v| - 1 - k] == 0;
        }
      }
    }
  }

  /** The number is little-endian, and the top bit of the last byte is its sign. */
  lemma DecodeIsSignMagnitude(v: bytes)
    requires v != []
    ensures var last := v[|v| - 1];
            Decode(v) == FromLE(v[..|v| - 1] + [last % 0x80]) * (if last >= 0x80 then -1 else 1)
  {
    var w, u := Reverse(v), v[..|v| - 1] + [v[|v| - 1] % 0x80];
    SignedMagnitude(w);
    BigEndianOfReverse(u);
    assert Magnitude(w) == Reverse(u);
    hide FromLE, FromBE;
  }
}
