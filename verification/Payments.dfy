/** What the script machine makes of payments: the standard scripts, run as a whole. */
module Payments {
  import opened Outcomes
  import opened Bytes
  import opened Scripts
  import opened ScriptNumbers
  import opened Interpreter
  import opened Conditionals
  import opened MultiSig
  import Opcodes

  // ----- single steps of a run outside conditionals -----

  /** A data push within the limits. */
  lemma Push(crypto: Crypto, chunks: seq<Chunk>, s: Machine)
    requires s.pc < |chunks| && chunks[s.pc].Data? && |chunks[s.pc].data| <= 520
    requires |s.stack| + |s.altStack| < 1000
    ensures Run(crypto, chunks, Running(s, []))
         == Run(crypto, chunks, Running(s.(stack := s.stack + [chunks[s.pc].data], pc := s.pc + 1), []))
  {
    PlainStep(crypto, chunks, chunks[s.pc], s, []);
    hide Run;
  }

  /** An opcode that only works on the stacks, within the limits. */
  lemma Operate(crypto: Crypto, chunks: seq<Chunk>, code: byte, s: Machine)
    requires s.pc < |chunks| && chunks[s.pc] == Op(code) && |s.stack| + |s.altStack| < 1000
    requires !(99 <= code <= 104) && !(171 <= code <= 175) && !IsDisabled(code) && (code > 96 ==> s.opCount < 201)
    ensures var r := StackOp(crypto, code, s.stack, s.altStack);
            && (r.Err? ==> Run(crypto, chunks, Running(s, [])).Err?)
            && (r.Ok? && |r.value.stack| + |r.value.altStack| <= 1000 ==>
                  Run(crypto, chunks, Running(s, [])) == Run(crypto, chunks,
                    Running(s.(stack := r.value.stack, altStack := r.value.altStack, pc := s.pc + 1,
                               opCount := if code > 96 then s.opCount + 1 else s.opCount), [])))
  {
    hide Run, StackOp, Charge;
    PlainStep(crypto, chunks, Op(code), s, []);
    Charged(code, s);
  }

  /** The charge of an opcode: those above 96 are counted. */
  lemma Charged(code: byte, s: Machine)
    requires !IsDisabled(code) && (code > 96 ==> s.opCount < 201)
    ensures Charge(Op(code), s)
         == Ok(s.(pc := s.pc + 1, opCount := if code > 96 then s.opCount + 1 else s.opCount))
  {
  }

  /** The end of a script. */
  lemma Finish(crypto: Crypto, chunks: seq<Chunk>, s: Machine)
    requires s.pc == |chunks|
    ensures Run(crypto, chunks, Running(s, [])) == Ok(s)
  {
  }

  function Pushes(items: seq<bytes>): seq<Chunk> {
    seq(|items|, i requires 0 <= i < |items| => Data(items[i]))
  }

  /** Data pushes in a row. */
  lemma {:induction false} PushAll(crypto: Crypto, chunks: seq<Chunk>, items: seq<bytes>, s: Machine)
    requires s.pc + |items| <= |chunks| && chunks[s.pc..s.pc + |items|] == Pushes(items)
    requires |s.stack| + |s.altStack| + |items| <= 1000 && forall x :: x in items ==> |x| <= 520
    ensures Run(crypto, chunks, Running(s, []))
         == Run(crypto, chunks, Running(s.(stack := s.stack + items, pc := s.pc + |items|), []))
    decreases |items|
  {
    hide Run;
    if items == [] {
      assert s.stack + [] == s.stack;
    } else {
      assert chunks[s.pc] == chunks[s.pc..s.pc + |items|][0] == Data(items[0]) && items[0] in items;
      Push(crypto, chunks, s);
      assert chunks[s.pc + 1..s.pc + |items|] == chunks[s.pc..s.pc + |items|][1..] == Pushes(items[1..]);
      var t := s.(stack := s.stack + [items[0]], pc := s.pc + 1);
      PushAll(crypto, chunks, items[1..], t);
      assert t.stack + items[1..] == s.stack + items;
    }
  }

  // ----- payment to a key's hash -----

  /** CHECKSIG on a signature and a key. */
  lemma CheckOne(crypto: Crypto, chunks: seq<Chunk>, below: seq<bytes>, sig: bytes, key: bytes, s: Machine)
    requires s.pc < |chunks| && chunks[s.pc] == Op(172) && s.stack == below + [sig, key] && s.opCount < 201
    ensures var good := crypto.checkSig(sig, key, SignedScript(chunks, s.hashStart, [sig]));
            Run(crypto, chunks, Running(s, [])) == Run(crypto, chunks,
              Running(s.(stack := below + [[if good then 1 else 0]], pc := s.pc + 1,
                         opCount := s.opCount + 1, checks := s.checks + 1), []))
  {
    hide Run, SignedScript, Charge, CheckSigOp;
    PlainStep(crypto, chunks, Op(172), s, []);
    Charged(172, s);
    CheckedOne(crypto, chunks, below, sig, key, s.(pc := s.pc + 1, opCount := s.opCount + 1));
  }

  lemma CheckedOne(crypto: Crypto, chunks: seq<Chunk>, below: seq<bytes>, sig: bytes, key: bytes, s: Machine)
    requires s.stack == below + [sig, key]
    ensures var good := crypto.checkSig(sig, key, SignedScript(chunks, s.hashStart, [sig]));
            CheckSigOp(crypto, chunks, false, s)
            == Ok(s.(stack := below + [[if good then 1 else 0]], checks := s.checks + 1))
  {
    hide SignedScript;
    assert Drop(s.stack, 2) == below && Top(s.stack, 2) == sig && Top(s.stack, 1) == key;
    hide Drop, Top;
  }

  /** The stack after the signature and the key have been pushed. */
  lemma KeyPushed(crypto: Crypto, buffer: bytes, sig: bytes, key: bytes)
    requires |sig| <= 520 && |key| <= 520 && |buffer| <= 10000
    ensures var r := Eval(crypto, buffer, [Data(sig), Data(key)], []); r.Ok? && r.value.stack == [sig, key]
  {
    var chunks := [Data(sig), Data(key)];
    var s := Start([]).core;
    assert chunks[0..2] == Pushes([sig, key]);
    PushAll(crypto, chunks, [sig, key], s);
    assert s.stack + [sig, key] == [sig, key];
    Finish(crypto, chunks, s.(stack := [sig, key], pc := 2));
    hide Run;
  }

  /** DUP HASH160 and the push of the hash that is asked for. */
  lemma HashCompared(crypto: Crypto, chunks: seq<Chunk>, sig: bytes, key: bytes, h: bytes)
    requires |chunks| >= 4 && chunks[..4] == [Op(118), Op(169), Data(h), Op(136)] && |h| <= 520
    ensures var r := Run(crypto, chunks, Start([sig, key]));
            if crypto.hash(169, key) != h then r.Err?
            else r == Run(crypto, chunks, Running(Machine([sig, key], [], 4, 0, 3, 0), []))
  {
    assert forall i :: 0 <= i < 4 ==> chunks[i] == chunks[..4][i];
    hide Run, StackOp;
    var hash := crypto.hash(169, key);
    KeyHashed(crypto, chunks, sig, key);
    var s2 := Machine([sig, key, hash], [], 2, 0, 2, 0);
    Push(crypto, chunks, s2);
    var s3 := s2.(stack := [sig, key, hash, h], pc := 3);
    assert s2.stack + [h] == s3.stack == [sig, key] + [hash, h];
    Operate(crypto, chunks, 136, s3);
    var z := Opcodes.Equality(crypto, [sig, key], hash, h, []);
  }

  /** DUP HASH160. */
  lemma KeyHashed(crypto: Crypto, chunks: seq<Chunk>, sig: bytes, key: bytes)
    requires |chunks| >= 2 && chunks[0] == Op(118) && chunks[1] == Op(169)
    ensures Run(crypto, chunks, Start([sig, key]))
         == Run(crypto, chunks, Running(Machine([sig, key, crypto.hash(169, key)], [], 2, 0, 2, 0), []))
  {
    hide Run, StackOp;
    var s := Start([sig, key]).core;
    Operate(crypto, chunks, 118, s);
    Opcodes.CopyPictures(crypto, [sig, key], []);
    var s1 := s.(stack := [sig, key, key], pc := 1, opCount := 1);
    assert Opcodes.Copied([sig, key], 0) == s1.stack == [sig, key] + [key];
    Operate(crypto, chunks, 169, s1);
    Opcodes.Hashing(crypto, 169, [sig, key], key, []);
    assert [sig, key] + [crypto.hash(169, key)] == [sig, key, crypto.hash(169, key)];
  }

  /** A run that leaves one verdict byte. */
  lemma VerdictRead(crypto: Crypto, chunks: seq<Chunk>, s: Machine, good: bool)
    requires s.pc == |chunks| && s.stack == [[if good then 1 else 0]]
    ensures Run(crypto, chunks, Running(s, [])) == Ok(s) && Truthy(s.stack[0]) == good
  {
    DecodeZero(s.stack[0]);
  }

  /**
   * A payment to a key's hash: signature and key are pushed, the key's hash is
   * compared and the signature checked. The key must have that hash, and the
   * signature must be good for it and the script, itself deleted from there.
   */
  lemma KeyHashPayment(
    crypto: Crypto, sigBuffer: bytes, pubBuffer: bytes, sig: bytes, key: bytes, h: bytes)
    requires |sig| <= 520 && |key| <= 520 && |h| <= 520 && |sigBuffer| <= 10000 && |pubBuffer| <= 10000
    ensures var script := [Op(118), Op(169), Data(h), Op(136), Op(172)];
            var code := Print(if sig == h then [Op(118), Op(169), Op(136), Op(172)] else script);
            var result := VerifyScripts(crypto, sigBuffer, [Data(sig), Data(key)], pubBuffer, script);
            result == if crypto.hash(169, key) == h then Ok(crypto.checkSig(sig, key, code)) else Err
  {
    var script := [Op(118), Op(169), Data(h), Op(136), Op(172)];
    KeyPushed(crypto, sigBuffer, sig, key);
    HashCompared(crypto, script, sig, key, h);
    SignatureDeleted(sig, h);
    var s := Machine([sig, key], [], 4, 0, 3, 0);
    assert s.stack == [] + [sig, key];
    CheckOne(crypto, script, [], sig, key, s);
    var good := crypto.checkSig(sig, key, SignedScript(script, 0, [sig]));
    VerdictRead(crypto, script, Machine([[if good then 1 else 0]], [], 5, 0, 4, 1), good);
    hide Run, SignedScript, Print, Truthy;
  }

  /** The signed script of a payment to a key's hash. */
  lemma SignatureDeleted(sig: bytes, h: bytes)
    ensures var script := [Op(118), Op(169), Data(h), Op(136), Op(172)];
            SignedScript(script, 0, [sig]) ==
              Print(if sig == h then [Op(118), Op(169), Op(136), Op(172)] else script)
  {
    var script := [Op(118), Op(169), Data(h), Op(136), Op(172)];
    assert script[0..] == script;
    hide Print;
    LastDeleted([], sig, script);
    assert [] + [sig] == [sig];
    assert script[1..] == [Op(169), Data(h), Op(136), Op(172)] && script[1..][1..] == [Data(h), Op(136), Op(172)];
    if sig == h {
      assert Delete(Data(sig), [Data(h), Op(136), Op(172)]) == [Op(136)] + Delete(Data(sig), [Op(172)]);
      assert Delete(Data(sig), [Op(172)]) == [Op(172)];
      assert Delete(Data(sig), script) == [Op(118), Op(169), Op(136), Op(172)];
    } else {
      DeleteKeepsOthers(Data(sig), script);
    }
  }

  // ----- the signed script -----

  /** The signatures are deleted one after the other, in the order in which they were popped. */
  lemma {:induction false} LastDeleted(sigs: seq<bytes>, sig: bytes, chunks: seq<Chunk>)
    ensures DeleteAll(sigs + [sig], chunks) == Delete(Data(sig), DeleteAll(sigs, chunks))
    decreases |sigs|
  {
    if sigs == [] {
      assert sigs + [sig] == [sig] && [sig][1..] == [];
    } else {
      assert (sigs + [sig])[1..] == sigs[1..] + [sig];
      LastDeleted(sigs[1..], sig, Delete(Data(sigs[0]), chunks));
    }
  }

  /** A script that contains none of the signatures is signed as it is. */
  lemma {:induction false} NoneDeleted(sigs: seq<bytes>, chunks: seq<Chunk>)
    requires forall sig :: sig in sigs ==> Data(sig) !in chunks
    ensures DeleteAll(sigs, chunks) == chunks
    decreases |sigs|
  {
    if sigs != [] {
      assert sigs[0] in sigs;
      DeleteKeepsOthers(Data(sigs[0]), chunks);
      NoneDeleted(sigs[1..], chunks);
    }
  }

  /** Behind a code separator only what follows it is signed. */
  lemma SeparatedPayment(
    crypto: Crypto, sigBuffer: bytes, pubBuffer: bytes, sig: bytes, key: bytes, h: bytes)
    requires |sig| <= 520 && |key| <= 520 && |h| <= 520 && |sigBuffer| <= 10000 && |pubBuffer| <= 10000
    ensures var script := [Op(118), Op(169), Data(h), Op(136), Op(171), Op(172)];
            var result := VerifyScripts(crypto, sigBuffer, [Data(sig), Data(key)], pubBuffer, script);
            result == if crypto.hash(169, key) == h then Ok(crypto.checkSig(sig, key, [172])) else Err
  {
    var script := [Op(118), Op(169), Data(h), Op(136), Op(171), Op(172)];
    KeyPushed(crypto, sigBuffer, sig, key);
    HashCompared(crypto, script, sig, key, h);
    var s := Machine([sig, key], [], 4, 0, 3, 0);
    Separate(crypto, script, s);
    hide Run, SignedScript, Truthy;
    var s1 := Machine([sig, key], [], 5, 5, 4, 0);
    assert s1.stack == [] + [sig, key];
    CheckOne(crypto, script, [], sig, key, s1);
    BehindSeparator(sig, h);
    var good := crypto.checkSig(sig, key, [172]);
    var t := Machine([[if good then 1 else 0]], [], 6, 5, 5, 1);
    VerdictRead(crypto, script, t, good);
  }

  lemma BehindSeparator(sig: bytes, h: bytes)
    ensures SignedScript([Op(118), Op(169), Data(h), Op(136), Op(171), Op(172)], 5, [sig]) == [172]
  {
    var script := [Op(118), Op(169), Data(h), Op(136), Op(171), Op(172)];
    assert script[5..] == [Op(172)];
    NoneDeleted([sig], [Op(172)]);
    assert [Op(172)][1..] == [] && WriteChunk(Op(172)) + [] == [172];
  }

  /** CODESEPARATOR. */
  lemma Separate(crypto: Crypto, chunks: seq<Chunk>, s: Machine)
    requires s.pc < |chunks| && chunks[s.pc] == Op(171) && s.opCount < 201 && |s.stack| + |s.altStack| <= 1000
    ensures Run(crypto, chunks, Running(s, [])) == Run(crypto, chunks,
              Running(s.(pc := s.pc + 1, hashStart := s.pc + 1, opCount := s.opCount + 1), []))
  {
    PlainStep(crypto, chunks, Op(171), s, []);
    hide Run;
  }

  /** CHECKSIGVERIFY and CHECKMULTISIGVERIFY do what the plain opcode and VERIFY do. */
  lemma VerifyingChecks(crypto: Crypto, chunks: seq<Chunk>, code: byte, s: Machine)
    requires code == 172 || code == 174
    ensures Act(crypto, chunks, Op(code + 1), true, s)
         == match Act(crypto, chunks, Op(code), true, s)
            case Err => Err
            case Ok(t) =>
              match StackOp(crypto, 105, t.stack, t.altStack)
              case Err => Err
              case Ok(r) => Ok(t.(stack := r.stack))
  {
    hide StackOp, SignedScript, MultiSigOperands, Accepts, Checks, Verdict;
    if code == 172 && |s.stack| >= 2 {
      VerdictVerified(crypto, Drop(s.stack, 2), true, s.altStack);
      VerdictVerified(crypto, Drop(s.stack, 2), false, s.altStack);
    } else if code == 174 && MultiSigOperands(s.stack, s.opCount).Ok? {
      VerdictVerified(crypto, MultiSigOperands(s.stack, s.opCount).value.rest, true, s.altStack);
      VerdictVerified(crypto, MultiSigOperands(s.stack, s.opCount).value.rest, false, s.altStack);
    }
  }

  lemma VerdictVerified(crypto: Crypto, rest: seq<bytes>, good: bool, alt: seq<bytes>)
    ensures var plain := Verdict(rest, good, false);
            && plain.Ok?
            && StackOp(crypto, 105, plain.value, alt)
               == match Verdict(rest, good, true) case Ok(m) => Ok(Stacks(m, alt)) case Err => Err
  {
    var z: bytes := [if good then 1 else 0];
    DecodeZero(z);
    assert z[0] == 0 <==> !good;
    Opcodes.TrueItems(crypto, rest, z, alt);
    hide StackOp, ScriptNumbers.Decode;
  }

  // ----- payment to M of N keys -----

  /** The chunk that pushes a count: an opcode up to 16, one byte of data above. */
  function Count(n: nat): Chunk
    requires n <= 20
  {
    if n == 0 then Op(0) else if n <= 16 then Op(80 + n) else Data([n])
  }

  /** The item it pushes. */
  function CountItem(n: nat): bytes
    requires n <= 20
  {
    if n == 0 then [] else [n]
  }

  lemma CountPushed(crypto: Crypto, chunks: seq<Chunk>, n: nat, s: Machine)
    requires n <= 20 && s.pc < |chunks| && chunks[s.pc] == Count(n) && |s.stack| + |s.altStack| < 1000
    ensures Run(crypto, chunks, Running(s, []))
         == Run(crypto, chunks, Running(s.(stack := s.stack + [CountItem(n)], pc := s.pc + 1), []))
    ensures Cast(CountItem(n)) == Ok(n)
  {
    CountIsNumber(n);
    hide Run, Cast;
    if n > 16 {
      Push(crypto, chunks, s);
    } else {
      Operate(crypto, chunks, if n == 0 then 0 else 80 + n, s);
      Opcodes.Constants(crypto, if n == 0 then 81 else 80 + n, s.stack, s.altStack);
      hide StackOp;
    }
  }

  /** Small counts are their own shortest encoding. */
  lemma CountIsNumber(n: nat)
    requires n <= 20
    ensures ScriptNumbers.Encode(n) == CountItem(n) && Cast(CountItem(n)) == Ok(n)
  {
    CastOfEncode(n);
    if n > 0 {
      assert ToBE(n / 256) == [] && ToBE(n) == [n];
    }
  }

  /** CHECKMULTISIG on the operands in place. */
  lemma CheckMany(
    crypto: Crypto, chunks: seq<Chunk>, sigs: seq<bytes>, keys: seq<bytes>, s: Machine) returns (t: Machine)
    requires |sigs| <= |keys| <= 20 && s.pc < |chunks| && chunks[s.pc] == Op(174) && s.opCount + |keys| < 201
    requires s.stack == [[]] + sigs + [CountItem(|sigs|)] + keys + [CountItem(|keys|)]
    ensures var code := SignedScript(chunks, s.hashStart, Reverse(sigs));
            var ok := (sig: bytes, key: bytes) => crypto.checkSig(sig, key, code);
            && t.stack == [[if Accepts(ok, Reverse(sigs), Reverse(keys)) then 1 else 0]] && t.pc == s.pc + 1
            && Run(crypto, chunks, Running(s, [])) == Run(crypto, chunks, Running(t, []))
  {
    hide Run, SignedScript, Charge, CheckMultiSigOp, Accepts;
    PlainStep(crypto, chunks, Op(174), s, []);
    Charged(174, s);
    t := CheckedMany(crypto, chunks, sigs, keys, s.(pc := s.pc + 1, opCount := s.opCount + 1));
  }

  lemma CheckedMany(
    crypto: Crypto, chunks: seq<Chunk>, sigs: seq<bytes>, keys: seq<bytes>, s: Machine) returns (t: Machine)
    requires |sigs| <= |keys| <= 20 && s.opCount + |keys| <= 201
    requires s.stack == [[]] + sigs + [CountItem(|sigs|)] + keys + [CountItem(|keys|)]
    ensures var code := SignedScript(chunks, s.hashStart, Reverse(sigs));
            var ok := (sig: bytes, key: bytes) => crypto.checkSig(sig, key, code);
            && CheckMultiSigOp(crypto, chunks, false, s) == Ok(t)
            && t.stack == [[if Accepts(ok, Reverse(sigs), Reverse(keys)) then 1 else 0]] && t.pc == s.pc
  {
    OperandsOf(sigs, keys, s.opCount);
    hide SignedScript, Accepts, Checks, MultiSigOperands, CountItem;
    t := CheckMultiSigOp(crypto, chunks, false, s).value;
    var none: seq<bytes> := [];
    assert forall x: bytes :: none + [x] == [x];
  }

  lemma OperandsOf(sigs: seq<bytes>, keys: seq<bytes>, opCount: nat)
    requires |sigs| <= |keys| <= 20 && opCount + |keys| <= 201
    ensures MultiSigOperands([[]] + sigs + [CountItem(|sigs|)] + keys + [CountItem(|keys|)], opCount)
         == Ok(Operands(Reverse(keys), Reverse(sigs), []))
  {
    CountIsNumber(|sigs|);
    CountIsNumber(|keys|);
    hide CountItem, Cast;
    OperandsTaken(sigs, CountItem(|sigs|), keys, CountItem(|keys|), opCount);
  }

  lemma OperandsTaken(sigs: seq<bytes>, m: bytes, keys: seq<bytes>, n: bytes, opCount: nat)
    requires |sigs| <= |keys| <= 20 && opCount + |keys| <= 201 && Cast(m) == Ok(|sigs|) && Cast(n) == Ok(|keys|)
    ensures MultiSigOperands([[]] + sigs + [m] + keys + [n], opCount)
         == Ok(Operands(Reverse(keys), Reverse(sigs), []))
  {
    var m3 := [[]] + sigs;
    var m2 := m3 + [m];
    var m1 := m2 + keys;
    LastItems(m1, [n]);
    LastItems(m2, keys);
    LastItems(m3, [m]);
    LastItems([[]], sigs);
    assert Drop(m3, |sigs| + 1) == [];
    hide Cast, Drop, Top, Reverse;
  }

  lemma LastItems(below: seq<bytes>, items: seq<bytes>)
    ensures var m := below + items;
            && Drop(m, |items|) == below && m[|m| - |items|..] == items
            && (items != [] ==> Top(m, 1) == items[|items| - 1])
  {
  }

  /** 0 sig1 ... sigm */
  function MultiSigScript(sigs: seq<bytes>): seq<Chunk> {
    [Op(0)] + Pushes(sigs)
  }

  /** m key1 ... keyn n CHECKMULTISIG */
  function MultiKeyScript(m: nat, keys: seq<bytes>): seq<Chunk>
    requires m <= |keys| <= 20
  {
    [Count(m)] + Pushes(keys) + [Count(|keys|), Op(174)]
  }

  lemma SignaturesPushed(crypto: Crypto, buffer: bytes, sigs: seq<bytes>)
    requires |sigs| <= 20 && (forall x :: x in sigs ==> |x| <= 520) && |buffer| <= 10000
    ensures var r := Eval(crypto, buffer, MultiSigScript(sigs), []); r.Ok? && r.value.stack == [[]] + sigs
  {
    var chunks := MultiSigScript(sigs);
    var s := Start([]).core;
    assert chunks[0] == Count(0);
    CountPushed(crypto, chunks, 0, s);
    var s1 := s.(stack := [[]], pc := 1);
    assert s.stack + [CountItem(0)] == s1.stack;
    assert chunks[1..1 + |sigs|] == Pushes(sigs);
    PushAll(crypto, chunks, sigs, s1);
    Finish(crypto, chunks, s1.(stack := [[]] + sigs, pc := 1 + |sigs|));
    hide Run;
  }

  lemma KeysPushed(crypto: Crypto, sigs: seq<bytes>, keys: seq<bytes>)
    requires |sigs| <= |keys| <= 20 && forall x :: x in keys ==> |x| <= 520
    ensures var stack := [[]] + sigs + [CountItem(|sigs|)] + keys + [CountItem(|keys|)];
            var chunks := MultiKeyScript(|sigs|, keys);
            var pushed := Running(Machine(stack, [], |keys| + 2, 0, 0, 0), []);
            Run(crypto, chunks, Start([[]] + sigs)) == Run(crypto, chunks, pushed)
  {
    hide Run, CountItem, Count;
    var chunks := MultiKeyScript(|sigs|, keys);
    var s := Start([[]] + sigs).core;
    CountPushed(crypto, chunks, |sigs|, s);
    var s1 := s.(stack := s.stack + [CountItem(|sigs|)], pc := 1);
    assert chunks[1..1 + |keys|] == Pushes(keys);
    PushAll(crypto, chunks, keys, s1);
    CountPushed(crypto, chunks, |keys|, s1.(stack := s1.stack + keys, pc := 1 + |keys|));
  }

  /** The evaluation of the keys' script on the pushed signatures. */
  lemma ManyEvaluated(crypto: Crypto, pubBuffer: bytes, sigs: seq<bytes>, keys: seq<bytes>) returns (t: Machine)
    requires |sigs| <= |keys| <= 20 && |pubBuffer| <= 10000 && forall x :: x in keys ==> |x| <= 520
    ensures var script := MultiKeyScript(|sigs|, keys);
            var code := Print(DeleteAll(Reverse(sigs), script));
            var ok := (sig: bytes, key: bytes) => crypto.checkSig(sig, key, code);
            var good := Accepts(ok, Reverse(sigs), Reverse(keys));
            && Eval(crypto, pubBuffer, script, [[]] + sigs) == Ok(t)
            && t.stack == [[if good then 1 else 0]] && Truthy(t.stack[0]) == good
  {
    var script := MultiKeyScript(|sigs|, keys);
    KeysPushed(crypto, sigs, keys);
    var stack := [[]] + sigs + [CountItem(|sigs|)] + keys + [CountItem(|keys|)];
    var s := Machine(stack, [], |keys| + 2, 0, 0, 0);
    hide Run, CountItem, DeleteAll, Print, Truthy, Accepts;
    t := CheckMany(crypto, script, sigs, keys, s);
    assert script[0..] == script;
    var code := Print(DeleteAll(Reverse(sigs), script));
    var ok := (sig: bytes, key: bytes) => crypto.checkSig(sig, key, code);
    VerdictRead(crypto, script, t, Accepts(ok, Reverse(sigs), Reverse(keys)));
  }

  /**
   * A payment to M of N keys is accepted exactly when the matcher finds, for the
   * signatures and keys as they are popped, last ones first, a key for every
   * signature in order; the checks see the script without the signatures.
   */
  lemma MultiKeyPayment(
    crypto: Crypto, sigBuffer: bytes, pubBuffer: bytes, sigs: seq<bytes>, keys: seq<bytes>)
    requires |sigs| <= |keys| <= 20 && |sigBuffer| <= 10000 && |pubBuffer| <= 10000
    requires (forall x :: x in sigs ==> |x| <= 520) && (forall x :: x in keys ==> |x| <= 520)
    ensures var script := MultiKeyScript(|sigs|, keys);
            var code := Print(DeleteAll(Reverse(sigs), script));
            var ok := (sig: bytes, key: bytes) => crypto.checkSig(sig, key, code);
            var result := VerifyScripts(crypto, sigBuffer, MultiSigScript(sigs), pubBuffer, script);
            result.Ok? && (result.value <==> exists f :: Match(ok, Reverse(sigs), Reverse(keys), f))
  {
    var script := MultiKeyScript(|sigs|, keys);
    SignaturesPushed(crypto, sigBuffer, sigs);
    hide Eval, MultiKeyScript, MultiSigScript, Print, Truthy, Match, Accepts, DeleteAll;
    var t := ManyEvaluated(crypto, pubBuffer, sigs, keys);
    var code := Print(DeleteAll(Reverse(sigs), script));
    var ok := (sig: bytes, key: bytes) => crypto.checkSig(sig, key, code);
    AcceptsIff(ok, Reverse(sigs), Reverse(keys));
  }

  /** The item on top decides; nothing on the stack is an error. */
  lemma TopItemDecides(crypto: Crypto, sigBuffer: bytes, pubBuffer: bytes, u: bytes, v: bytes)
    requires |u| <= 520 && |v| <= 520 && |sigBuffer| <= 10000 && |pubBuffer| <= 10000
    ensures VerifyScripts(crypto, sigBuffer, [Data(u)], pubBuffer, [Data(v)]) == Ok(ScriptNumbers.Decode(v) != 0)
    ensures VerifyScripts(crypto, sigBuffer, [], pubBuffer, []).Err?
  {
    OnePushed(crypto, [], u);
    OnePushed(crypto, [u], v);
    assert [] + [u] == [u];
    Finish(crypto, [], Start([]).core);
    hide Run, ScriptNumbers.Decode;
  }

  lemma OnePushed(crypto: Crypto, stack: seq<bytes>, x: bytes)
    requires |x| <= 520 && |stack| < 1000
    ensures Run(crypto, [Data(x)], Start(stack)) == Ok(Machine(stack + [x], [], 1, 0, 0, 0))
  {
    Push(crypto, [Data(x)], Start(stack).core);
    Finish(crypto, [Data(x)], Machine(stack + [x], [], 1, 0, 0, 0));
    hide Run;
  }
}
