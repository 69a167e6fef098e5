/** The compact difficulty format: `decodeDiffBits` and `encodeDiffBits` of lib/util.js. */
module Compact {
  import opened Outcomes
  import opened Bytes

  function Mantissa(bits: nat): nat {
    bits % 0x100_0000
  }

  function Exponent(bits: nat): nat {
    bits / 0x100_0000
  }

  /**
   * The target a compact number stands for. Exponents below 3 ask for a shift by a
   * negative count, which the big-number library does not perform.
   */
  function Decode(bits: nat): Option<nat> {
    if Exponent(bits) < 3 then None else Some(Product(Mantissa(bits), Pow256(Exponent(bits) - 3)))
  }

  function Quotient(n: nat, p: nat): nat
    requires p > 0
  {
    n / p
  }

  function Product(n: nat, p: nat): nat {
    n * p
  }

  /** The top three bytes of a number that is written with a free sign bit. */
  function Top(n: nat): nat {
    var size := Width(n);
    if size >= 3 then Quotient(n, Pow256(size - 3)) else Product(n, Pow256(3 - size))
  }

  /** JavaScript's bitwise operators work on 32-bit integers with a sign. */
  function ToInt32(n: nat): int {
    var m := n % 0x1_0000_0000;
    if m >= 0x8000_0000 then m - 0x1_0000_0000 else m
  }

  function Encode(n: nat): int {
    ToInt32(Width(n) * 0x100_0000) + Top(n)
  }

  /** Compact numbers with a full mantissa whose top bit, the sign, is free. */
  predicate Canonical(bits: nat) {
    0x8000 <= Mantissa(bits) < 0x80_0000 && 3 <= Exponent(bits) < 0x80
  }

  // ----- the encoder -----

  lemma ByteBE(b: bytes, i: nat)
    requires i < |b|
    ensures FromBE(b[..i + 1]) == 256 * FromBE(b[..i]) + b[i]
  {
    assert b[..i + 1][..i] == b[..i];
  }

  /** Cutting the low bytes off divides. */
  lemma {:induction false} FrontBytes(b: bytes, k: nat)
    requires k <= |b|
    ensures FromBE(b[..k]) == FromBE(b) / Pow256(|b| - k)
    decreases |b| - k
  {
    if k == |b| {
      assert b[..k] == b;
    } else {
      FrontBytes(b, k + 1);
      ByteBE(b, k);
      DivStep(FromBE(b), Pow256(|b| - k - 1), FromBE(b[..k]), b[k]);
    }
  }

  lemma DivStep(v: nat, p: nat, q: nat, d: nat)
    requires p > 0 && d < 256 && v / p == 256 * q + d
    ensures v / (256 * p) == q
  {
    assert v == p * (256 * q + d) + v % p;
    assert p * (256 * q + d) == (256 * p) * q + p * d;
    assert p * d + v % p < 256 * p by {
      assert p * d <= p * 255;
    }
    ModUnique(v, 256 * p, q, p * d + v % p);
  }

  /** The bytes the big-number library exports are the number with a free sign bit. */
  lemma SignedBytes(n: nat)
    ensures |EncodeBE(n)| == Width(n) && FromBE(EncodeBE(n)) == n
    ensures n > 0 ==> EncodeBE(n)[0] < 0x80
  {
    MagnitudeWidth(n);
    BigEndianRoundTrip(n);
    BigEndianLeadingZero(ToBE(n));
    var b := ToBE(n);
    assert b != [] ==> [b[0] + 0] + b[1..] == b;
  }

  lemma TopBytes(n: nat)
    requires n > 0
    ensures var b := EncodeBE(n);
            Top(n) == (b[0] as int) * 0x1_0000
                      + (if |b| >= 2 then (b[1] as int) * 0x100 else 0) + (if |b| >= 3 then b[2] else 0)
  {
    SignedBytes(n);
    var b := EncodeBE(n);
    assert b[..0] == [];
    ByteBE(b, 0);
    assert Pow256(1) == 256 * Pow256(0) && Pow256(2) == 256 * Pow256(1);
    if |b| >= 2 {
      ByteBE(b, 1);
    }
    if |b| >= 3 {
      ByteBE(b, 2);
      FrontBytes(b, 3);
    } else {
      assert b[..|b|] == b;
    }
  }

  /** The encoder: the length of the exported bytes, then up to three of them. */
  method EncodeDiffBits(target: nat) returns (compact: int)
    ensures compact == Encode(target)
  {
    var mpi := EncodeBE(target);
    SignedBytes(target);
    var size := |mpi|;
    compact := ToInt32(size * 0x100_0000);
    if target > 0 {
      TopBytes(target);
    }
    if size >= 1 {
      compact := compact + (mpi[0] as int) * 0x1_0000;
    }
    if size >= 2 {
      compact := compact + (mpi[1] as int) * 0x100;
    }
    if size >= 3 {
      compact := compact + mpi[2];
    }
  }

  // ----- precision -----

  /** The mantissa of a number that fills three bytes is full, and its sign bit free. */
  lemma TopRange(n: nat)
    ensures Top(n) < 0x80_0000
    ensures n > 0 ==> Top(n) >= 0x8000
  {
    if n > 0 {
      WidthLower(n);
      WidthUpper(n);
      assert Pow256(1) == 256 && Pow256(2) == 256 * Pow256(1) && Pow256(3) == 256 * Pow256(2);
      var size := Width(n);
      if size >= 3 {
        Pow256Add(size - 3, 2);
        Pow256Add(size - 3, 3);
        DivRange(n, Pow256(size - 3), 0x8000, 0x80_0000);
      } else {
        assert size == 1 || size == 2;
      }
    }
  }

  lemma MulMonotone(p: nat, x: int, y: int)
    requires x <= y
    ensures p * x <= p * y
  {
  }

  lemma Cancel(p: nat, x: int, y: int)
    requires p * x < p * y
    ensures x < y
  {
    if y <= x {
      MulMonotone(p, y, x);
    }
  }

  lemma QuotientBounds(n: nat, p: nat)
    requires p > 0
    ensures p * (n / p) <= n < p * (n / p + 1)
  {
    assert p * (n / p + 1) == p * (n / p) + p;
  }

  lemma DivRange(n: nat, p: nat, low: nat, high: nat)
    requires p > 0 && low * p <= n < high * p
    ensures low <= n / p < high
  {
    QuotientBounds(n, p);
    Cancel(p, low, n / p + 1);
    Cancel(p, n / p, high);
  }

  lemma EncodeParts(n: nat)
    requires Width(n) < 0x80
    ensures Encode(n) >= 0 && Exponent(Encode(n)) == Width(n) && Mantissa(Encode(n)) == Top(n)
  {
    hide Pow256, Width, Top;
    TopRange(n);
    Packed(Width(n), Top(n));
  }

  lemma Packed(size: nat, top: nat)
    requires size < 0x80 && top < 0x100_0000
    ensures ToInt32(size * 0x100_0000) == size * 0x100_0000
    ensures Exponent(size * 0x100_0000 + top) == size && Mantissa(size * 0x100_0000 + top) == top
  {
  }

  /** Encoding rounds down, by less than one part in 2^15. */
  lemma EncodeRoundsDown(n: nat)
    requires n >= 0x8000 && Width(n) < 0x80
    ensures Encode(n) >= 0 && Decode(Encode(n)).Some?
    ensures var d := Decode(Encode(n)).value; d <= n && (n - d) * 0x8000 < n
  {
    EncodeParts(n);
    TopRange(n);
    assert Pow256(1) == 256 && Pow256(2) == 256 * Pow256(1);
    WidthUpper(n);
    Pow256Monotone(Width(n), if Width(n) <= 2 then 2 else Width(n));
    RoundDown(n, Pow256(Width(n) - 3));
  }

  lemma RoundDown(n: nat, p: nat)
    requires p > 0 && n / p >= 0x8000
    ensures n / p * p <= n && (n - n / p * p) * 0x8000 < n
  {
    var q := n / p;
    assert n == p * q + n % p;
    assert q * p >= 0x8000 * p;
  }

  lemma {:induction false} WidthMonotone(m: nat, n: nat)
    requires m <= n
    ensures Width(m) <= Width(n)
  {
    WidthUpper(n);
    WidthBound(m, Width(n));
  }

  lemma DivMonotone(m: nat, n: nat, p: nat)
    requires m <= n && p > 0
    ensures m / p <= n / p
  {
    QuotientBounds(m, p);
    QuotientBounds(n, p);
    Cancel(p, m / p, n / p + 1);
  }

  lemma TopMonotone(m: nat, n: nat)
    requires m <= n && Width(m) == Width(n)
    ensures Top(m) <= Top(n)
  {
    var size := Width(n);
    hide Width, Pow256;
    if size >= 3 {
      DivMonotone(m, n, Pow256(size - 3));
    } else {
      MulMonotone(Pow256(3 - size), m, n);
    }
  }

  /** Larger targets have larger compact numbers. */
  lemma EncodeMonotone(m: nat, n: nat)
    requires m <= n && Width(n) < 0x80
    ensures Encode(m) <= Encode(n)
  {
    WidthMonotone(m, n);
    TopRange(m);
    TopRange(n);
    Packed(Width(m), Top(m));
    Packed(Width(n), Top(n));
    if Width(m) == Width(n) {
      TopMonotone(m, n);
    }
  }

  // ----- re-encoding -----

  lemma WidthIs(n: nat, k: nat)
    requires k > 0 && Pow256(k - 1) <= 2 * n < Pow256(k)
    ensures Width(n) == k
  {
    WidthBound(n, k);
    WidthUpper(n);
    if Width(n) < k {
      Pow256Monotone(Width(n), k - 1);
    }
  }

  lemma ShiftBounds(m: nat, low: nat, high: nat, p: nat)
    requires low <= m < high && p > 0
    ensures low * p <= m * p < high * p
  {
  }

  /** Decoding and encoding again gives a compact number back exactly when it is canonical. */
  lemma ReencodeIff(bits: nat)
    requires bits < 0x1_0000_0000 && Decode(bits).Some?
    ensures Encode(Decode(bits).value) == bits <==> Canonical(bits)
  {
    var m, e := Mantissa(bits), Exponent(bits);
    var n := m * Pow256(e - 3);
    var p := Pow256(e - 3);
    Pow256Values();
    if Canonical(bits) {
      ShiftBounds(m, 0x8000, 0x80_0000, p);
      Pow256Add(e - 3, 2);
      Pow256Add(e - 3, 3);
      assert Pow256(3) == 0x100_0000;
      WidthIs(n, e);
      EncodeParts(n);
      ModUnique(n, p, m, 0);
    } else if Encode(n) == bits {
      ReencodedIsCanonical(bits, n);
    }
  }

  lemma ReencodedIsCanonical(bits: nat, n: nat)
    requires bits < 0x1_0000_0000 && Exponent(bits) >= 3 && Encode(n) == bits
    ensures Canonical(bits)
  {
    TopRange(n);
    Unpacked(Width(n), Top(n));
  }

  lemma Unpacked(size: nat, top: nat)
    requires top < 0x80_0000 && ToInt32(size * 0x100_0000) + top >= 0
    ensures var packed := ToInt32(size * 0x100_0000) + top;
            Exponent(packed) == size % 0x100 < 0x80 && Mantissa(packed) == top
  {
    var low := size % 0x100;
    hide Exponent, Mantissa;
    assert size * 0x100_0000 == (size / 0x100) * 0x1_0000_0000 + low * 0x100_0000;
    ModUnique(size * 0x100_0000, 0x1_0000_0000, size / 0x100, low * 0x100_0000);
  }

  /**
   * In bytes: the target of a compact number is its last three bytes followed by as many
   * zero bytes as its first byte says, less three.
   */
  lemma DecodeBytes(size: byte, a: byte, b: byte, c: byte)
    requires size >= 3
    ensures Decode(FromBE([size, a, b, c])) == Some(FromBE([a, b, c] + ZeroBytes(size - 3)))
  {
    ThreeBytes(a, b, c);
    BigEndianCons(size, [a, b, c]);
    assert [size] + [a, b, c] == [size, a, b, c];
    var m := FromBE([a, b, c]);
    assert Pow256(3) == 0x100_0000 by {
      Pow256Values();
      assert Pow256(3) == 256 * Pow256(2);
    }
    ModUnique(size * 0x100_0000 + m, 0x100_0000, size, m);
    TrailingZeros([a, b, c], size - 3);
  }

  lemma ThreeBytes(a: byte, b: byte, c: byte)
    ensures FromBE([a, b, c]) == a * 0x1_0000 + b * 0x100 + c
  {
    assert [a, b, c][..2] == [a, b] && [a, b][..1] == [a] && [a][..0] == [];
    assert FromBE([a]) == a && FromBE([a, b]) == 256 * FromBE([a]) + b;
  }

  lemma {:induction false} TrailingZeros(w: bytes, n: nat)
    ensures FromBE(w + ZeroBytes(n)) == FromBE(w) * Pow256(n)
  {
    if n == 0 {
      assert w + ZeroBytes(0) == w;
    } else {
      var v := w + ZeroBytes(n);
      assert v[..|v| - 1] == w + ZeroBytes(n - 1);
      TrailingZeros(w, n - 1);
      ShiftFactor(FromBE(w), Pow256(n - 1));
    }
  }

  lemma ShiftFactor(x: nat, p: nat)
    ensures 256 * (x * p) == x * (256 * p)
  {
  }
}
