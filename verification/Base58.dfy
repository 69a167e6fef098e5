/** Base58 text for byte strings: `base58_encode` and `base58_decode` of src/main.cc. */
module Base58 {
  import opened Outcomes
  import opened Bytes

  /** n characters with successive codes. */
  function Run(first: char, n: nat): (s: string)
    requires first as int + n < 0x80
    ensures |s| == n && forall k :: 0 <= k < n ==> s[k] == (first as int + k) as char
  {
    seq(n, k requires 0 <= k < n => (first as int + k) as char)
  }

  /** The digits and letters, without 0, I, O and l. */
  const ALPHABET := Run('1', 9) + Run('A', 8) + Run('J', 5) + Run('P', 11) + Run('a', 11) + Run('m', 14)

  /** The text buffer of the encoder holds 100 characters, the terminator among them. */
  const BUFFER_SIZE := 100

  type digit = x: int | 0 <= x < 58

  function Symbol(d: digit): char {
    ALPHABET[d]
  }

  /** `strchr` on the alphabet. */
  function Find(c: char, from: nat): (r: Option<digit>)
    requires from <= 58
    ensures r.Some? ==> ALPHABET[r.value] == c
    ensures r.None? ==> forall k :: from <= k < 58 ==> ALPHABET[k] != c
    decreases 58 - from
  {
    if from == 58 then None
    else if ALPHABET[from] == c then Some(from)
    else Find(c, from + 1)
  }

  lemma {:induction false} FindSymbol(d: digit, from: nat)
    requires from <= d
    ensures Find(Symbol(d), from) == Some(d)
    decreases d - from
  {
    AlphabetDistinct(from, d);
    if from < d {
      FindSymbol(d, from + 1);
    }
  }

  /** The code of a symbol rises with its value. */
  lemma AlphabetDistinct(i: nat, j: nat)
    requires i <= j < 58
    ensures i < j ==> ALPHABET[i] != ALPHABET[j]
  {
    SymbolCode(i);
    SymbolCode(j);
  }

  lemma SymbolCode(d: digit)
    ensures Symbol(d) as int
         == if d < 9 then 49 + d else if d < 17 then 56 + d else if d < 22 then 57 + d
            else if d < 33 then 58 + d else if d < 44 then 64 + d else 65 + d
  {
  }

  // ----- numbers in base 58, least significant digit first -----

  function ToDigits(n: nat): seq<digit> {
    if n == 0 then [] else [n % 58] + ToDigits(n / 58)
  }

  /** The number a most-significant-first digit list stands for, put behind a number read before. */
  function FromDigits(acc: nat, ds: seq<digit>): nat
    decreases |ds|
  {
    if ds == [] then acc else FromDigits(58 * acc + ds[0], ds[1..])
  }

  lemma {:induction false} FromDigitsAppend(acc: nat, a: seq<digit>, b: seq<digit>)
    ensures FromDigits(acc, a + b) == FromDigits(FromDigits(acc, a), b)
    decreases |a|
  {
    if a == [] {
      assert a + b == b;
    } else {
      assert (a + b)[1..] == a[1..] + b;
      FromDigitsAppend(58 * acc + a[0], a[1..], b);
    }
  }

  lemma {:induction false} DigitsReadBack(n: nat)
    ensures FromDigits(0, Reverse(ToDigits(n))) == n
  {
    if n == 0 {
    } else {
      DigitsReadBack(n / 58);
      FromDigitsAppend(0, Reverse(ToDigits(n / 58)), [n % 58]);
    }
  }

  lemma {:induction false} LastDigitNonZero(n: nat)
    requires n > 0
    ensures ToDigits(n) != [] && ToDigits(n)[|ToDigits(n)| - 1] != 0
  {
    if n / 58 > 0 {
      LastDigitNonZero(n / 58);
    }
  }

  // ----- encoding -----

  /** The zero bytes in front of the others. */
  function LeadingZeros(data: bytes): (z: nat)
    ensures z <= |data|
  {
    if data == [] || data[0] != 0 then 0 else 1 + LeadingZeros(data[1..])
  }

  function Symbols(ds: seq<digit>): (s: string)
    ensures |s| == |ds| && forall k :: 0 <= k < |ds| ==> s[k] == Symbol(ds[k])
  {
    seq(|ds|, k requires 0 <= k < |ds| => Symbol(ds[k]))
  }

  /** The digits of the text: one zero for every leading zero byte, then the number. */
  function TextDigits(data: bytes): seq<digit> {
    Zeros(LeadingZeros(data)) + Reverse(ToDigits(FromBE(data)))
  }

  function Zeros(n: nat): (ds: seq<digit>)
    ensures |ds| == n && forall k :: 0 <= k < n ==> ds[k] == 0
  {
    seq(n, _ => 0)
  }

  function Encode(data: bytes): string {
    Symbols(TextDigits(data))
  }

  /**
   * The encoder: digits by repeated division, one symbol for every leading zero,
   * all in one buffer that is then reversed by swaps. The text and its terminator
   * have to fit the buffer.
   */
  method Base58Encode(data: bytes) returns (text: string)
    requires |Encode(data)| < BUFFER_SIZE
    ensures text == Encode(data)
  {
    hide FromBE, ToDigits, LeadingZeros, TextDigits, ALPHABET;
    MirroredDigits(data);
    var bn := FromBE(data);
    var str := new char[BUFFER_SIZE];
    var i := PutDigits(str, bn);
    i := PutZeros(str, i, data);
    str[i] := '\0';
    ReverseBuffer(str, i);
    text := str[..i];
  }

  /** The text's digits, last one first. */
  lemma MirroredDigits(data: bytes)
    ensures var ds, digits := TextDigits(data), ToDigits(FromBE(data));
            && |ds| == |digits| + LeadingZeros(data)
            && (forall k :: 0 <= k < |digits| ==> ds[|ds| - 1 - k] == digits[k])
            && forall k :: 0 <= k < LeadingZeros(data) ==> ds[k] == 0
  {
    hide FromBE, ToDigits, LeadingZeros;
  }

  /** The division loop. */
  method PutDigits(str: array<char>, n: nat) returns (i: nat)
    requires |ToDigits(n)| <= str.Length
    modifies str
    ensures i == |ToDigits(n)|
    ensures forall k :: 0 <= k < i ==> str[k] == Symbol(ToDigits(n)[k])
  {
    var bn := n;
    i := 0;
    ghost var digits := ToDigits(n);
    while bn > 0
      invariant i <= |digits| && digits[i..] == ToDigits(bn)
      invariant forall k :: 0 <= k < i ==> str[k] == Symbol(digits[k])
      decreases bn
    {
      str[i] := ALPHABET[bn % 58];
      assert digits[i..][1..] == digits[i + 1..];
      bn := bn / 58;
      i := i + 1;
    }
  }

  /** The loop over the leading zeros. */
  method PutZeros(str: array<char>, from: nat, data: bytes) returns (i: nat)
    requires from + LeadingZeros(data) <= str.Length
    modifies str
    ensures i == from + LeadingZeros(data)
    ensures forall k :: 0 <= k < from ==> str[k] == old(str[k])
    ensures forall k :: from <= k < i ==> str[k] == Symbol(0)
  {
    i := from;
    var j := 0;
    while j < |data| && data[j] == 0
      invariant 0 <= j <= |data| && i == from + j
      invariant LeadingZeros(data) == j + LeadingZeros(data[j..])
      invariant forall k :: 0 <= k < from ==> str[k] == old(str[k])
      invariant forall k :: from <= k < i ==> str[k] == Symbol(0)
    {
      str[i] := ALPHABET[0];
      assert data[j..][1..] == data[j + 1..];
      i := i + 1;
      j := j + 1;
    }
  }

  /** The swap loop. */
  method ReverseBuffer(str: array<char>, i: nat)
    requires i <= str.Length
    modifies str
    ensures forall k :: 0 <= k < i ==> str[k] == old(str[i - 1 - k])
    ensures forall k :: i <= k < str.Length ==> str[k] == old(str[k])
  {
    var numSwaps := i / 2;
    for j := 0 to numSwaps
      invariant forall k :: 0 <= k < j ==> str[k] == old(str[i - 1 - k]) && str[i - 1 - k] == old(str[k])
      invariant forall k :: j <= k < i - j ==> str[k] == old(str[k])
      invariant forall k :: i <= k < str.Length ==> str[k] == old(str[k])
    {
      var j2 := i - 1 - j;
      var tmp := str[j];
      str[j] := str[j2];
      str[j2] := tmp;
    }
  }

  // ----- decoding -----

  predicate IsSpace(c: char) {
    c == ' ' || c == '\t' || c == '\n' || c == '\r' || c == 11 as char || c == 12 as char
  }

  function SkipSpace(text: string): (r: string)
    ensures |r| <= |text|
  {
    if text != [] && IsSpace(text[0]) then SkipSpace(text[1..]) else text
  }

  /** The number in front of optional white space; anything else is an error. */
  function ReadNumber(acc: nat, text: string): Result<nat>
    decreases |text|
  {
    if text == [] then Ok(acc)
    else
      match Find(text[0], 0)
      case Some(d) => ReadNumber(58 * acc + d, text[1..])
      case None => if SkipSpace(text) == [] then Ok(acc) else Err
  }

  function LeadingOnes(text: string): nat {
    if text == [] || text[0] != ALPHABET[0] then 0 else 1 + LeadingOnes(text[1..])
  }

  /** The decoder drops a last zero byte behind a byte of at least 0x80, as if it were a sign byte. */
  function Trim(b: bytes): bytes {
    if |b| >= 2 && b[|b| - 1] == 0 && b[|b| - 2] >= 0x80 then b[..|b| - 1] else b
  }

  /** The text ends at its first NUL character. */
  function CString(s: string): string {
    if s == [] || s[0] == '\0' then [] else [s[0]] + CString(s[1..])
  }

  function Decode(s: string): Result<bytes> {
    var text := SkipSpace(CString(s));
    var bn :- ReadNumber(0, text);
    Ok(ZeroBytes(LeadingOnes(text)) + Trim(ToBE(bn)))
  }

  method Base58Decode(s: string) returns (r: Result<bytes>)
    ensures r == Decode(s)
  {
    hide Find, ToBE, SkipSpace, CString;
    var psz := SkipSpace(CString(s));
    var bn: nat := 0;
    var p := 0;
    while p < |psz|
      invariant 0 <= p <= |psz|
      invariant ReadNumber(0, psz) == ReadNumber(bn, psz[p..])
    {
      var p1 := Find(psz[p], 0);
      if p1.None? {
        if SkipSpace(psz[p..]) != [] {
          return Err;
        }
        break;
      }
      assert psz[p..][1..] == psz[p + 1..];
      bn := bn * 58;
      bn := bn + p1.value;
      p := p + 1;
    }
    var tmp := ToBE(bn);
    var tmpLen := |tmp|;
    if tmpLen >= 2 && tmp[tmpLen - 1] == 0 && tmp[tmpLen - 2] >= 0x80 {
      tmpLen := tmpLen - 1;
    }
    var nLeadingZeros := 0;
    while nLeadingZeros < |psz| && psz[nLeadingZeros] == ALPHABET[0]
      invariant 0 <= nLeadingZeros <= |psz|
      invariant LeadingOnes(psz) == nLeadingZeros + LeadingOnes(psz[nLeadingZeros..])
    {
      assert psz[nLeadingZeros..][1..] == psz[nLeadingZeros + 1..];
      nLeadingZeros := nLeadingZeros + 1;
    }
    r := Ok(ZeroBytes(nLeadingZeros) + tmp[..tmpLen]);
    assert tmp[..|tmp|] == tmp;
  }

  // ----- round trip -----

  /** Every text of symbols is read as the number of its digits. */
  lemma {:induction false} SymbolsReadBack(acc: nat, ds: seq<digit>)
    ensures ReadNumber(acc, Symbols(ds)) == Ok(FromDigits(acc, ds))
    decreases |ds|
  {
    if ds != [] {
      FindSymbol(ds[0], 0);
      assert Symbols(ds)[1..] == Symbols(ds[1..]);
      SymbolsReadBack(58 * acc + ds[0], ds[1..]);
    }
  }

  /** A text's last letter has weight 1 and the letters in front of it 58 times their own weights. */
  lemma LastLetter(ds: seq<digit>, d: digit)
    ensures var front, all := ReadNumber(0, Symbols(ds)), ReadNumber(0, Symbols(ds) + [Symbol(d)]);
            front.Ok? && all == Ok(58 * front.value + d)
  {
    assert Symbols(ds) + [Symbol(d)] == Symbols(ds + [d]);
    SymbolsReadBack(0, ds);
    SymbolsReadBack(0, ds + [d]);
    FromDigitsAppend(0, ds, [d]);
    hide Symbol, ReadNumber;
  }

  /** No symbol is white space or NUL. */
  lemma SymbolIsVisible(d: digit)
    ensures !IsSpace(Symbol(d)) && Symbol(d) != '\0'
  {
    SymbolCode(d);
  }

  lemma {:induction false} SymbolsAreVisible(ds: seq<digit>)
    ensures CString(Symbols(ds)) == Symbols(ds) && SkipSpace(Symbols(ds)) == Symbols(ds)
  {
    hide Symbol, IsSpace;
    if ds != [] {
      SymbolIsVisible(ds[0]);
      SymbolsAreVisible(ds[1..]);
      assert Symbols(ds)[1..] == Symbols(ds[1..]);
      assert Symbols(ds) == [Symbol(ds[0])] + Symbols(ds[1..]);
    }
  }

  lemma {:induction false} OnesOfZeros(n: nat, ds: seq<digit>)
    requires ds == [] || ds[0] != 0
    ensures LeadingOnes(Symbols(Zeros(n) + ds)) == n
  {
    var all := Zeros(n) + ds;
    if n == 0 {
      assert all == ds;
      if ds != [] {
        AlphabetDistinct(0, ds[0]);
      }
    } else {
      assert all[0] == 0 && all[1..] == Zeros(n - 1) + ds;
      assert Symbols(all)[1..] == Symbols(all[1..]);
      OnesOfZeros(n - 1, ds);
    }
  }

  lemma {:induction false} ZeroDigits(n: nat, ds: seq<digit>)
    ensures FromDigits(0, Zeros(n) + ds) == FromDigits(0, ds)
  {
    if n == 0 {
      assert Zeros(0) + ds == ds;
    } else {
      assert (Zeros(n) + ds)[1..] == Zeros(n - 1) + ds;
      ZeroDigits(n - 1, ds);
    }
  }

  /** The bytes after the leading zeros are the shortest form of the number. */
  lemma {:induction false} SplitZeros(data: bytes)
    ensures data == ZeroBytes(LeadingZeros(data)) + ToBE(FromBE(data))
  {
    if data == [] {
    } else if data[0] != 0 {
      BigEndianInverse(data);
    } else {
      SplitZeros(data[1..]);
      assert data == [0] + data[1..];
      BigEndianLeadingZero(data[1..]);
    }
  }

  /** What decoding makes of an encoded byte string: it comes back trimmed. */
  lemma DecodeOfEncode(data: bytes)
    ensures Decode(Encode(data)) == Ok(ZeroBytes(LeadingZeros(data)) + Trim(ToBE(FromBE(data))))
  {
    var n := FromBE(data);
    var ds := Reverse(ToDigits(n));
    if n > 0 {
      LastDigitNonZero(n);
    }
    SymbolsAreVisible(TextDigits(data));
    SymbolsReadBack(0, TextDigits(data));
    ZeroDigits(LeadingZeros(data), ds);
    DigitsReadBack(n);
    OnesOfZeros(LeadingZeros(data), ds);
  }

  /** Decoding undoes encoding exactly when the data does not end in a byte of at least 0x80 and a zero byte. */
  lemma RoundTripIff(data: bytes)
    ensures Decode(Encode(data)) == Ok(data)
       <==> !(|data| >= 2 && data[|data| - 1] == 0 && data[|data| - 2] >= 0x80)
  {
    hide *;
    DecodeOfEncode(data);
    SplitZeros(data);
    TrimIff(LeadingZeros(data), ToBE(FromBE(data)));
  }

  lemma TrimIff(z: nat, b: bytes)
    ensures var data := ZeroBytes(z) + b;
            ZeroBytes(z) + Trim(b) == data <==>
              !(|data| >= 2 && data[|data| - 1] == 0 && data[|data| - 2] >= 0x80)
  {
    var data := ZeroBytes(z) + b;
    assert |b| >= 1 ==> data[|data| - 1] == b[|b| - 1];
    assert |b| >= 2 ==> data[|data| - 2] == b[|b| - 2];
    assert |b| < 2 && |data| >= 2 ==> data[|data| - 2] == 0;
    assert Trim(b) != b ==> |ZeroBytes(z) + Trim(b)| < |data|;
  }

  /** Different byte strings have different texts, trimmed or not. */
  lemma EncodeInjective(a: bytes, b: bytes)
    ensures Encode(a) == Encode(b) <==> a == b
  {
    if Encode(a) == Encode(b) {
      EncodedParts(a);
      EncodedParts(b);
      SplitZeros(a);
      SplitZeros(b);
    }
  }

  /** A text determines the leading zeros and the number. */
  lemma EncodedParts(data: bytes)
    ensures LeadingOnes(Encode(data)) == LeadingZeros(data) && ReadNumber(0, Encode(data)) == Ok(FromBE(data))
  {
    var n := FromBE(data);
    var ds := Reverse(ToDigits(n));
    if n > 0 {
      LastDigitNonZero(n);
    }
    SymbolsReadBack(0, TextDigits(data));
    ZeroDigits(LeadingZeros(data), ds);
    DigitsReadBack(n);
    OnesOfZeros(LeadingZeros(data), ds);
  }

  // ----- the alphabet, and what is refused -----

  const LETTERS :=
    "123456789" + "ABCDEFGH" + "JKLMN" + "PQRSTUVWXYZ" + "abcdefghijk" + "mnopqrstuvwxyz"

  lemma AlphabetIsLetters()
    ensures ALPHABET == LETTERS
  {
    assert Run('1', 9) == "123456789";
    assert Run('A', 8) == "ABCDEFGH";
    assert Run('J', 5) == "JKLMN";
    assert Run('P', 11) == "PQRSTUVWXYZ";
    assert Run('a', 11) == "abcdefghijk";
    assert Run('m', 14) == "mnopqrstuvwxyz";
    hide Run;
  }

  /** The first n characters are letters of the alphabet, the others white space. */
  predicate IsNumberText(text: string, n: nat) {
    && n <= |text| && (forall k :: 0 <= k < n ==> text[k] in LETTERS)
    && forall k :: n <= k < |text| ==> text[k] in {' ', '\t', '\n', '\r', 11 as char, 12 as char}
  }

  lemma {:induction false} SpacesSkipped(text: string)
    ensures SkipSpace(text) == [] <==> IsNumberText(text, 0)
  {
    hide LETTERS;
    if text != [] {
      SpacesSkipped(text[1..]);
      if IsNumberText(text[1..], 0) && IsSpace(text[0]) {
        forall k | 0 <= k < |text|
          ensures IsSpace(text[k])
        {
          assert k > 0 ==> text[k] == text[1..][k - 1];
        }
      }
      if IsNumberText(text, 0) {
        forall k | 0 <= k < |text[1..]|
          ensures IsSpace(text[1..][k])
        {
          assert text[1..][k] == text[k + 1];
        }
      }
    }
  }

  lemma LetterFound(c: char)
    ensures Find(c, 0).Some? <==> c in LETTERS
    ensures c in LETTERS ==> !IsSpace(c)
  {
    AlphabetIsLetters();
    assert |ALPHABET| == 58;
    hide ALPHABET, LETTERS;
    if c in LETTERS {
      var d :| 0 <= d < |ALPHABET| && ALPHABET[d] == c;
      SymbolIsVisible(d);
    }
  }

  /** A text is read as a number exactly when it is letters of the alphabet and then white space. */
  lemma {:induction false} NumberReadIff(acc: nat, text: string)
    ensures ReadNumber(acc, text).Ok? <==> exists n: nat :: IsNumberText(text, n)
    decreases |text|
  {
    hide Find, SkipSpace, IsNumberText, LETTERS;
    if text == [] {
      NothingIsNumberText();
    } else {
      LetterFound(text[0]);
      match Find(text[0], 0)
      case Some(d) =>
        NumberReadIff(58 * acc + d, text[1..]);
        NumberTextCons(text);
      case None =>
        SpacesSkipped(text);
        OnlySpaces(text);
    }
  }

  lemma NothingIsNumberText()
    ensures IsNumberText([], 0)
  {
  }

  lemma OnlySpaces(text: string)
    requires text != [] && text[0] !in LETTERS
    ensures (exists n: nat :: IsNumberText(text, n)) <==> IsNumberText(text, 0)
  {
    hide LETTERS;
  }

  lemma NumberTextCons(text: string)
    requires text != [] && text[0] in LETTERS && !IsSpace(text[0])
    ensures (exists n: nat :: IsNumberText(text, n)) <==> exists n: nat :: IsNumberText(text[1..], n)
  {
    hide LETTERS;
    if n: nat :| IsNumberText(text, n) {
      assert IsNumberText(text[1..], n - 1);
    }
    if n: nat :| IsNumberText(text[1..], n) {
      forall k | 0 <= k < |text|
        ensures k < n + 1 ==> text[k] in LETTERS
        ensures k >= n + 1 ==> text[k] in {' ', '\t', '\n', '\r', 11 as char, 12 as char}
      {
        assert k > 0 ==> text[k] == text[1..][k - 1];
      }
      assert IsNumberText(text, n + 1);
    }
  }

  /** Decoding fails exactly when, behind leading white space and up to a NUL, the text is not of that form. */
  lemma DecodeOkIff(s: string)
    ensures Decode(s).Ok? <==> exists n: nat :: IsNumberText(SkipSpace(CString(s)), n)
  {
    var text := SkipSpace(CString(s));
    NumberReadIff(0, text);
    assert Decode(s).Ok? <==> ReadNumber(0, text).Ok? by {
      hide ReadNumber, SkipSpace, CString, Trim, ToBE;
    }
    hide *;
    if ReadNumber(0, text).Ok? {
      var n: nat :| IsNumberText(text, n);
      assert IsNumberText(SkipSpace(CString(s)), n);
    }
  }
}
