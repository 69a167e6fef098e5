/**
 * What the opcodes mean. PICK and ROLL are stated by position, the other stack opcodes
 * as compositions of them, and the arithmetic ones by the numbers their operands and
 * results stand for.
 */
module Opcodes {
  import opened Outcomes
  import opened Bytes
  import opened ScriptNumbers
  import opened Interpreter

  /** A number as a stack item. */
  function Num(n: int): bytes {
    ScriptNumbers.Encode(n)
  }

  /** The opcodes one after the other, on the two stacks. */
  function Ops(crypto: Crypto, codes: seq<byte>, m: seq<bytes>, alt: seq<bytes>): Result<Stacks>
    decreases |codes|
  {
    if codes == [] then Ok(Stacks(m, alt))
    else
      var r :- StackOp(crypto, codes[0], m, alt);
      Ops(crypto, codes[1..], r.stack, r.altStack)
  }

  // ----- by position -----

  /** PICK copies the item that has n others above it, n being on top; ROLL moves it. */
  lemma PickAndRoll(crypto: Crypto, below: seq<bytes>, x: bytes, above: seq<bytes>, alt: seq<bytes>)
    requires |above| <= 0x7FFF_FFFF
    ensures var m := below + [x] + above + [Num(|above|)];
            && StackOp(crypto, 121, m, alt) == Ok(Stacks(below + [x] + above + [x], alt))
            && StackOp(crypto, 122, m, alt) == Ok(Stacks(below + above + [x], alt))
  {
    var rest := below + [x] + above;
    CastOfEncode(|above|);
    hide Cast;
    assert Drop(rest + [Num(|above|)], 1) == rest;
    assert Top(rest, |above| + 1) == x;
    assert rest[..|rest| - |above| - 1] == below && rest[|rest| - |above|..] == above;
  }

  /** Without that many items both fail. */
  lemma PickTooDeep(crypto: Crypto, m: seq<bytes>, n: int, alt: seq<bytes>)
    requires n < 0 || n >= |m|
    ensures StackOp(crypto, 121, m + [Num(n)], alt).Err? && StackOp(crypto, 122, m + [Num(n)], alt).Err?
  {
    CastOfEncode(n);
    hide Cast;
    assert Drop(m + [Num(n)], 1) == m;
  }

  /** The constants push their numbers, and DROP takes one item off. */
  lemma Constants(crypto: Crypto, code: byte, m: seq<bytes>, alt: seq<bytes>)
    requires code == 79 || 81 <= code <= 96
    ensures StackOp(crypto, code, m, alt) == Ok(Stacks(m + [Num(code - 80)], alt))
    ensures StackOp(crypto, 0, m, alt) == Ok(Stacks(m + [Num(0)], alt))
    ensures StackOp(crypto, 117, m, alt) == if m == [] then Err else Ok(Stacks(m[..|m| - 1], alt))
  {
  }

  // ----- the other stack opcodes, as copies and moves -----

  /** The opcode that pushes a small number. */
  function Push(n: nat): byte
    requires n <= 16
  {
    if n == 0 then 0 else 80 + n
  }

  /** The stack with the item n places below the top copied to the top. */
  function Copied(m: seq<bytes>, n: nat): seq<bytes>
    requires n < |m|
  {
    m + [m[|m| - 1 - n]]
  }

  /** The stack with that item moved to the top. */
  function Moved(m: seq<bytes>, n: nat): seq<bytes>
    requires n < |m|
  {
    m[..|m| - 1 - n] + m[|m| - n..] + [m[|m| - 1 - n]]
  }

  lemma Then(crypto: Crypto, a: byte, b: byte, m: seq<bytes>, alt: seq<bytes>)
    ensures Ops(crypto, [a, b], m, alt)
         == match StackOp(crypto, a, m, alt)
            case Ok(r) => StackOp(crypto, b, r.stack, r.altStack)
            case Err => Err
  {
    hide StackOp;
    assert [a, b][1..] == [b];
    if StackOp(crypto, a, m, alt).Ok? {
      var r := StackOp(crypto, a, m, alt).value;
      Single(crypto, b, r.stack, r.altStack);
    }
  }

  lemma Single(crypto: Crypto, code: byte, m: seq<bytes>, alt: seq<bytes>)
    ensures Ops(crypto, [code], m, alt) == StackOp(crypto, code, m, alt)
  {
    hide StackOp;
    assert [code][1..] == [];
  }

  lemma {:induction false} OpsConcat(crypto: Crypto, a: seq<byte>, b: seq<byte>, m: seq<bytes>, alt: seq<bytes>)
    ensures Ops(crypto, a + b, m, alt)
         == match Ops(crypto, a, m, alt)
            case Ok(r) => Ops(crypto, b, r.stack, r.altStack)
            case Err => Err
    decreases |a|
  {
    hide StackOp;
    if a == [] {
      assert a + b == b;
    } else {
      assert (a + b)[1..] == a[1..] + b;
      if StackOp(crypto, a[0], m, alt).Ok? {
        var r := StackOp(crypto, a[0], m, alt).value;
        OpsConcat(crypto, a[1..], b, r.stack, r.altStack);
      }
    }
  }

  /** A small number and PICK or ROLL. */
  lemma SmallPick(crypto: Crypto, n: nat, m: seq<bytes>, alt: seq<bytes>)
    requires n <= 16
    ensures Ops(crypto, [Push(n), 121], m, alt) == if n < |m| then Ok(Stacks(Copied(m, n), alt)) else Err
    ensures Ops(crypto, [Push(n), 122], m, alt) == if n < |m| then Ok(Stacks(Moved(m, n), alt)) else Err
  {
    Pushes(crypto, n, m, alt);
    hide StackOp, Ops;
    Then(crypto, Push(n), 121, m, alt);
    Then(crypto, Push(n), 122, m, alt);
    if n < |m| {
      PickAt(crypto, n, m, alt);
    } else {
      PickTooDeep(crypto, m, n, alt);
    }
    hide Push, Num, Copied, Moved;
  }

  lemma PickAt(crypto: Crypto, n: nat, m: seq<bytes>, alt: seq<bytes>)
    requires n < |m| && n <= 16
    ensures StackOp(crypto, 121, m + [Num(n)], alt) == Ok(Stacks(Copied(m, n), alt))
    ensures StackOp(crypto, 122, m + [Num(n)], alt) == Ok(Stacks(Moved(m, n), alt))
  {
    hide StackOp, Num;
    var below, x, above := m[..|m| - 1 - n], m[|m| - 1 - n], m[|m| - n..];
    PickAndRoll(crypto, below, x, above, alt);
    assert m == below + [x] + above;
  }

  lemma Pushes(crypto: Crypto, n: nat, m: seq<bytes>, alt: seq<bytes>)
    requires n <= 16
    ensures StackOp(crypto, Push(n), m, alt) == Ok(Stacks(m + [Num(n)], alt))
  {
  }

  /** The same PICK or ROLL twice. */
  lemma Twice(crypto: Crypto, n: nat, m: seq<bytes>, alt: seq<bytes>)
    requires n <= 16
    ensures Ops(crypto, [Push(n), 121] + [Push(n), 121], m, alt)
         == if n < |m| then Ok(Stacks(Copied(Copied(m, n), n), alt)) else Err
    ensures Ops(crypto, [Push(n), 122] + [Push(n), 122], m, alt)
         == if n < |m| then Ok(Stacks(Moved(Moved(m, n), n), alt)) else Err
  {
    hide Ops, Push, Copied, Moved;
    OpsConcat(crypto, [Push(n), 121], [Push(n), 121], m, alt);
    OpsConcat(crypto, [Push(n), 122], [Push(n), 122], m, alt);
    SmallPick(crypto, n, m, alt);
    if n < |m| {
      assert |Copied(m, n)| > n && |Moved(m, n)| > n by {
        Longer(m, n);
      }
      SmallPick(crypto, n, Copied(m, n), alt);
      SmallPick(crypto, n, Moved(m, n), alt);
    }
  }

  lemma Longer(m: seq<bytes>, n: nat)
    requires n < |m|
    ensures |Copied(m, n)| == |m| + 1 && |Moved(m, n)| == |m|
  {
  }

  // The stack pictures of the opcodes, for the comparisons below.

  lemma CopyPictures(crypto: Crypto, m: seq<bytes>, alt: seq<bytes>)
    ensures StackOp(crypto, 118, m, alt) == if |m| < 1 then Err else Ok(Stacks(Copied(m, 0), alt))
    ensures StackOp(crypto, 120, m, alt) == if |m| < 2 then Err else Ok(Stacks(Copied(m, 1), alt))
  {
  }

  lemma DoubleCopyPictures(crypto: Crypto, m: seq<bytes>, alt: seq<bytes>)
    ensures StackOp(crypto, 110, m, alt) == if |m| < 2 then Err else Ok(Stacks(Copied(Copied(m, 1), 1), alt))
    ensures StackOp(crypto, 112, m, alt) == if |m| < 4 then Err else Ok(Stacks(Copied(Copied(m, 3), 3), alt))
  {
    if |m| >= 2 {
      assert Copied(Copied(m, 1), 1) == m + [m[|m| - 2], m[|m| - 1]];
    }
    if |m| >= 4 {
      assert Copied(Copied(m, 3), 3) == m + [m[|m| - 4], m[|m| - 3]];
    }
  }

  lemma TripleCopyPicture(crypto: Crypto, m: seq<bytes>, alt: seq<bytes>)
    ensures StackOp(crypto, 111, m, alt)
         == if |m| < 3 then Err else Ok(Stacks(Copied(Copied(Copied(m, 2), 2), 2), alt))
  {
    if |m| >= 3 {
      assert Copied(Copied(Copied(m, 2), 2), 2) == m + [m[|m| - 3], m[|m| - 2], m[|m| - 1]];
    }
  }

  lemma MovePictures(crypto: Crypto, m: seq<bytes>, alt: seq<bytes>)
    ensures StackOp(crypto, 124, m, alt) == if |m| < 2 then Err else Ok(Stacks(Moved(m, 1), alt))
    ensures StackOp(crypto, 123, m, alt) == if |m| < 3 then Err else Ok(Stacks(Moved(m, 2), alt))
  {
    if |m| >= 2 {
      assert Moved(m, 1) == m[..|m| - 2] + [m[|m| - 1], m[|m| - 2]];
    }
    if |m| >= 3 {
      assert Moved(m, 2) == m[..|m| - 3] + [m[|m| - 2], m[|m| - 1], m[|m| - 3]];
    }
  }

  lemma DoubleMovePictures(crypto: Crypto, m: seq<bytes>, alt: seq<bytes>)
    ensures StackOp(crypto, 114, m, alt) == if |m| < 4 then Err else Ok(Stacks(Moved(Moved(m, 3), 3), alt))
    ensures StackOp(crypto, 113, m, alt) == if |m| < 6 then Err else Ok(Stacks(Moved(Moved(m, 5), 5), alt))
  {
    var n := |m|;
    if n >= 4 {
      assert Moved(Moved(m, 3), 3) == m[..n - 4] + m[n - 2..] + m[n - 4..n - 2];
    }
    if n >= 6 {
      assert Moved(Moved(m, 5), 5) == m[..n - 6] + m[n - 4..] + [m[n - 6], m[n - 5]];
    }
  }

  /** DUP, OVER, 2DUP, 3DUP and 2OVER are PICKs. */
  lemma CopyingOpcodes(crypto: Crypto, m: seq<bytes>, alt: seq<bytes>)
    ensures StackOp(crypto, 118, m, alt) == Ops(crypto, [Push(0), 121], m, alt)
    ensures StackOp(crypto, 120, m, alt) == Ops(crypto, [Push(1), 121], m, alt)
    ensures StackOp(crypto, 110, m, alt) == Ops(crypto, [Push(1), 121] + [Push(1), 121], m, alt)
    ensures StackOp(crypto, 111, m, alt)
         == Ops(crypto, [Push(2), 121] + ([Push(2), 121] + [Push(2), 121]), m, alt)
    ensures StackOp(crypto, 112, m, alt) == Ops(crypto, [Push(3), 121] + [Push(3), 121], m, alt)
  {
    hide StackOp, Ops, Push, Copied;
    CopyPictures(crypto, m, alt);
    SmallPick(crypto, 0, m, alt);
    SmallPick(crypto, 1, m, alt);
    DoubleCopyPictures(crypto, m, alt);
    Twice(crypto, 1, m, alt);
    Twice(crypto, 3, m, alt);
    TripleCopyPicture(crypto, m, alt);
    SmallPick(crypto, 2, m, alt);
    OpsConcat(crypto, [Push(2), 121], [Push(2), 121] + [Push(2), 121], m, alt);
    if |m| > 2 {
      Longer(m, 2);
      Twice(crypto, 2, Copied(m, 2), alt);
    }
  }

  /** SWAP, ROT, 2SWAP and 2ROT are ROLLs. */
  lemma MovingOpcodes(crypto: Crypto, m: seq<bytes>, alt: seq<bytes>)
    ensures StackOp(crypto, 124, m, alt) == Ops(crypto, [Push(1), 122], m, alt)
    ensures StackOp(crypto, 123, m, alt) == Ops(crypto, [Push(2), 122], m, alt)
    ensures StackOp(crypto, 114, m, alt) == Ops(crypto, [Push(3), 122] + [Push(3), 122], m, alt)
    ensures StackOp(crypto, 113, m, alt) == Ops(crypto, [Push(5), 122] + [Push(5), 122], m, alt)
  {
    hide StackOp, Ops, Push, Moved;
    MovePictures(crypto, m, alt);
    DoubleMovePictures(crypto, m, alt);
    SmallPick(crypto, 1, m, alt);
    SmallPick(crypto, 2, m, alt);
    Twice(crypto, 3, m, alt);
    Twice(crypto, 5, m, alt);
  }

  lemma DropPictures(crypto: Crypto, m: seq<bytes>, alt: seq<bytes>)
    ensures StackOp(crypto, 117, m, alt) == if |m| < 1 then Err else Ok(Stacks(m[..|m| - 1], alt))
    ensures StackOp(crypto, 109, m, alt) == if |m| < 2 then Err else Ok(Stacks(m[..|m| - 2], alt))
    ensures StackOp(crypto, 119, m, alt) == if |m| < 2 then Err else Ok(Stacks(m[..|m| - 2] + [m[|m| - 1]], alt))
    ensures StackOp(crypto, 125, m, alt)
         == if |m| < 2 then Err else Ok(Stacks(m[..|m| - 2] + [m[|m| - 1], m[|m| - 2], m[|m| - 1]], alt))
  {
    hide PickOp, NumberOp;
  }

  /** NIP, TUCK and 2DROP in terms of those and DROP. */
  lemma DerivedOpcodes(crypto: Crypto, m: seq<bytes>, alt: seq<bytes>)
    ensures StackOp(crypto, 119, m, alt) == Ops(crypto, [124, 117], m, alt)
    ensures StackOp(crypto, 125, m, alt) == Ops(crypto, [124, 120], m, alt)
    ensures StackOp(crypto, 109, m, alt) == Ops(crypto, [117, 117], m, alt)
  {
    hide StackOp, Ops;
    Then(crypto, 124, 117, m, alt);
    Then(crypto, 124, 120, m, alt);
    Then(crypto, 117, 117, m, alt);
    DropPictures(crypto, m, alt);
    MovePictures(crypto, m, alt);
    if |m| >= 1 {
      DropPictures(crypto, m[..|m| - 1], alt);
    }
    if |m| >= 2 {
      var swapped := Moved(m, 1);
      DropPictures(crypto, swapped, alt);
      CopyPictures(crypto, swapped, alt);
      assert swapped == m[..|m| - 2] + [m[|m| - 1], m[|m| - 2]];
      assert swapped[..|m| - 1] == m[..|m| - 2] + [m[|m| - 1]];
      assert Copied(swapped, 1) == m[..|m| - 2] + [m[|m| - 1], m[|m| - 2], m[|m| - 1]];
      assert m[..|m| - 1][..|m| - 2] == m[..|m| - 2];
    }
  }

  // ----- truth and comparison of items -----

  /** VERIFY takes a true item off and fails on a false one; IFDUP copies a true one. */
  lemma TrueItems(crypto: Crypto, m: seq<bytes>, x: bytes, alt: seq<bytes>)
    ensures StackOp(crypto, 105, m + [x], alt) == if ScriptNumbers.Decode(x) != 0 then Ok(Stacks(m, alt)) else Err
    ensures StackOp(crypto, 115, m + [x], alt)
         == Ok(Stacks(if ScriptNumbers.Decode(x) != 0 then m + [x] + [x] else m + [x], alt))
  {
    assert Drop(m + [x], 1) == m;
    hide ScriptNumbers.Decode;
  }

  /** EQUAL leaves a true item exactly when its operands are the same bytes; EQUALVERIFY fails otherwise. */
  lemma Equality(crypto: Crypto, m: seq<bytes>, x: bytes, y: bytes, alt: seq<bytes>) returns (z: bytes)
    ensures StackOp(crypto, 135, m + [x, y], alt) == Ok(Stacks(m + [z], alt))
    ensures Truthy(z) <==> x == y
    ensures StackOp(crypto, 136, m + [x, y], alt) == if x == y then Ok(Stacks(m, alt)) else Err
  {
    z := [if x == y then 1 else 0];
    DecodeZero(z);
    assert Drop(m + [x, y], 2) == m;
    hide ScriptNumbers.Decode;
  }

  /** The VERIFY forms are the plain opcode and VERIFY. */
  lemma VerifyForms(crypto: Crypto, m: seq<bytes>, alt: seq<bytes>)
    ensures StackOp(crypto, 136, m, alt) == Ops(crypto, [135, 105], m, alt)
    ensures StackOp(crypto, 157, m, alt) == Ops(crypto, [156, 105], m, alt)
  {
    Then(crypto, 135, 105, m, alt);
    Then(crypto, 156, 105, m, alt);
    if |m| < 2 {
      TooShort(crypto, m, alt);
    } else {
      var rest, x, y := m[..|m| - 2], m[|m| - 2], m[|m| - 1];
      assert m == rest + [x, y];
      hide Ops, StackOp;
      EqualVerify(crypto, rest, x, y, alt);
      NumEqualVerify(crypto, rest, x, y, alt);
    }
  }

  lemma TooShort(crypto: Crypto, m: seq<bytes>, alt: seq<bytes>)
    requires |m| < 2
    ensures StackOp(crypto, 135, m, alt).Err? && StackOp(crypto, 136, m, alt).Err?
    ensures StackOp(crypto, 156, m, alt).Err? && StackOp(crypto, 157, m, alt).Err?
  {
  }

  lemma EqualVerify(crypto: Crypto, m: seq<bytes>, x: bytes, y: bytes, alt: seq<bytes>)
    ensures var r := StackOp(crypto, 135, m + [x, y], alt);
            r.Ok? && StackOp(crypto, 136, m + [x, y], alt) == StackOp(crypto, 105, r.value.stack, r.value.altStack)
  {
    var z := Equality(crypto, m, x, y, alt);
    TrueItems(crypto, m, z, alt);
    assert Drop(m + [x, y], 2) == m;
    hide ScriptNumbers.Decode;
  }

  lemma NumEqualVerify(crypto: Crypto, m: seq<bytes>, x: bytes, y: bytes, alt: seq<bytes>)
    ensures StackOp(crypto, 157, m + [x, y], alt)
         == match StackOp(crypto, 156, m + [x, y], alt)
            case Ok(r) => StackOp(crypto, 105, r.stack, r.altStack)
            case Err => Err
  {
    NumEquals(crypto, m, x, y, alt);
    NumEqualsOrFails(crypto, m, x, y, alt);
    hide StackOp, ScriptNumbers.Decode, ScriptNumbers.Encode;
    if |x| <= 4 && |y| <= 4 {
      var w := if ScriptNumbers.Decode(x) == ScriptNumbers.Decode(y) then 1 else 0;
      DecodeOfEncode(w);
      TrueItems(crypto, m, Num(w), alt);
    }
  }

  lemma NumEquals(crypto: Crypto, m: seq<bytes>, x: bytes, y: bytes, alt: seq<bytes>)
    ensures StackOp(crypto, 156, m + [x, y], alt)
         == if |x| > 4 || |y| > 4 then Err
            else Ok(Stacks(m + [Num(if ScriptNumbers.Decode(x) == ScriptNumbers.Decode(y) then 1 else 0)], alt))
  {
    assert Drop(m + [x, y], 2) == m;
    hide ScriptNumbers.Decode, ScriptNumbers.Encode, ShuffleOp, PickOp;
  }

  lemma NumEqualsOrFails(crypto: Crypto, m: seq<bytes>, x: bytes, y: bytes, alt: seq<bytes>)
    ensures StackOp(crypto, 157, m + [x, y], alt)
         == if |x| <= 4 && |y| <= 4 && ScriptNumbers.Decode(x) == ScriptNumbers.Decode(y) then Ok(Stacks(m, alt))
            else Err
  {
    assert Drop(m + [x, y], 2) == m;
    hide ScriptNumbers.Decode, ScriptNumbers.Encode, ShuffleOp, PickOp;
  }

  /** TOALTSTACK moves the top item over, FROMALTSTACK moves it back. */
  lemma AltStack(crypto: Crypto, m: seq<bytes>, x: bytes, alt: seq<bytes>)
    ensures StackOp(crypto, 107, m + [x], alt) == Ok(Stacks(m, alt + [x]))
    ensures StackOp(crypto, 108, m, alt + [x]) == Ok(Stacks(m + [x], alt))
    ensures StackOp(crypto, 107, [], alt).Err? && StackOp(crypto, 108, m, []).Err?
  {
    assert Drop(m + [x], 1) == m && (alt + [x])[..|alt|] == alt;
  }

  /** DEPTH counts the items, SIZE the bytes of the top one. */
  lemma Sizes(crypto: Crypto, m: seq<bytes>, x: bytes, alt: seq<bytes>)
    ensures StackOp(crypto, 116, m, alt) == Ok(Stacks(m + [Num(|m|)], alt))
    ensures StackOp(crypto, 130, m + [x], alt) == Ok(Stacks(m + [x] + [Num(|x|)], alt))
  {
    hide ScriptNumbers.Encode, PickOp, NumberOp;
  }

  /** A hash opcode replaces the top item by its hash. */
  lemma Hashing(crypto: Crypto, code: byte, m: seq<bytes>, x: bytes, alt: seq<bytes>)
    requires 166 <= code <= 170
    ensures StackOp(crypto, code, m + [x], alt) == Ok(Stacks(m + [crypto.hash(code, x)], alt))
  {
    assert Drop(m + [x], 1) == m;
    hide ShuffleOp, PickOp, NumberOp;
  }

  // ----- arithmetic -----

  /** Opcodes on one number of at most four bytes; longer operands fail. */
  lemma OneNumber(crypto: Crypto, code: byte, m: seq<bytes>, x: bytes, alt: seq<bytes>) returns (w: int)
    requires code in {139, 140, 143, 144, 145, 146}
    ensures var v, r := ScriptNumbers.Decode(x), StackOp(crypto, code, m + [x], alt);
            if |x| > 4 then r.Err?
            else
              && r == Ok(Stacks(m + [Num(w)], alt))
              && (code == 139 ==> w == v + 1) && (code == 140 ==> w + 1 == v) && (code == 143 ==> w + v == 0)
              && (code == 144 ==> w >= 0 && (w == v || w == -v))
              && (code >= 145 ==> w == 0 || w == 1)
              && (code == 145 ==> (w == 1 <==> v == 0)) && (code == 146 ==> (w == 1 <==> v != 0))
  {
    assert Drop(m + [x], 1) == m;
    hide ScriptNumbers.Decode, ScriptNumbers.Encode;
    w := UnaryValue(code, ScriptNumbers.Decode(x));
  }

  /** How an opcode's result w is related to its operands. */
  predicate Computes(code: byte, a: int, b: int, w: int) {
    && (code == 147 ==> w == a + b) && (code == 148 ==> w + b == a)
    && (code == 163 ==> w <= a && w <= b && (w == a || w == b))
    && (code == 164 ==> w >= a && w >= b && (w == a || w == b))
    && (154 <= code <= 162 ==> w == 0 || w == 1)
    && (code == 154 ==> (w == 1 <==> a != 0 && b != 0)) && (code == 155 ==> (w == 1 <==> a != 0 || b != 0))
    && (code == 156 ==> (w == 1 <==> a == b)) && (code == 158 ==> (w == 1 <==> a != b))
    && (code == 159 ==> (w == 1 <==> a < b)) && (code == 160 ==> (w == 1 <==> a > b))
    && (code == 161 ==> (w == 1 <==> a <= b)) && (code == 162 ==> (w == 1 <==> a >= b))
  }

  lemma BinaryComputes(code: byte, a: int, b: int)
    requires 147 <= code <= 148 || 154 <= code <= 164
    ensures Computes(code, a, b, BinaryValue(code, a, b))
  {
  }

  /** Opcodes on two numbers of at most four bytes each. */
  lemma TwoNumbers(crypto: Crypto, code: byte, m: seq<bytes>, x: bytes, y: bytes, alt: seq<bytes>) returns (w: int)
    requires 147 <= code <= 148 || (154 <= code <= 164 && code != 157)
    ensures var r := StackOp(crypto, code, m + [x, y], alt);
            if |x| > 4 || |y| > 4 then r.Err?
            else r == Ok(Stacks(m + [Num(w)], alt))
                 && Computes(code, ScriptNumbers.Decode(x), ScriptNumbers.Decode(y), w)
  {
    w := BinaryValue(code, ScriptNumbers.Decode(x), ScriptNumbers.Decode(y));
    BinaryComputes(code, ScriptNumbers.Decode(x), ScriptNumbers.Decode(y));
    BinaryResult(code, m, x, y, alt);
    hide Computes, ScriptNumbers.Decode, ScriptNumbers.Encode, BinaryValue, PickOp, ShuffleOp, NumberOp;
  }

  lemma BinaryResult(code: byte, m: seq<bytes>, x: bytes, y: bytes, alt: seq<bytes>)
    requires 147 <= code <= 148 || (154 <= code <= 164 && code != 157)
    ensures var w := BinaryValue(code, ScriptNumbers.Decode(x), ScriptNumbers.Decode(y));
            NumberOp(code, m + [x, y], alt)
            == if |x| > 4 || |y| > 4 then Err else Ok(Stacks(m + [Num(w)], alt))
  {
    hide ScriptNumbers.Decode, ScriptNumbers.Encode, BinaryValue;
    assert Drop(m + [x, y], 2) == m;
  }

  /** WITHIN: at least the low bound and below the high one. */
  lemma WithinRange(crypto: Crypto, m: seq<bytes>, x: bytes, low: bytes, high: bytes, alt: seq<bytes>)
    ensures StackOp(crypto, 165, m + [x, low, high], alt)
         == if |x| > 4 || |low| > 4 || |high| > 4 then Err
            else
              var v, a, b := ScriptNumbers.Decode(x), ScriptNumbers.Decode(low), ScriptNumbers.Decode(high);
              Ok(Stacks(m + [Num(if a <= v < b then 1 else 0)], alt))
  {
    assert Drop(m + [x, low, high], 3) == m;
    hide ScriptNumbers.Decode, ScriptNumbers.Encode;
  }

  /** RETURN and every opcode that is not one of the machine's fail on every stack. */
  lemma OthersFail(crypto: Crypto, code: byte, m: seq<bytes>, alt: seq<bytes>)
    requires code == 80 || code == 98 || code == 101 || code == 102 || code == 106 || code == 137 || code == 138
             || code > 185
    ensures StackOp(crypto, code, m, alt).Err?
  {
  }
}
