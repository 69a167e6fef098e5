/** The script machine: `eval` of lib/scriptinterpreter.js. */
module Interpreter {
  import opened Outcomes
  import opened Bytes
  import opened Scripts
  import opened ScriptNumbers
  import MultiSig

  const OP_16: byte := 96
  const OP_IF: byte := 99
  const OP_NOTIF: byte := 100
  const OP_ELSE: byte := 103
  const OP_ENDIF: byte := 104
  const OP_CODESEPARATOR: byte := 171
  const OP_CHECKSIG: byte := 172
  const OP_CHECKSIGVERIFY: byte := 173
  const OP_CHECKMULTISIGVERIFY: byte := 175

  const MAX_SCRIPT_SIZE := 10000
  const MAX_PUSH_SIZE := 520
  const MAX_OPS := 201
  const MAX_ITEMS := 1000
  const MAX_KEYS := 20

  /** The hash opcodes' functions, and the check of a signature against a key and the signed script. */
  datatype Crypto = Crypto(hash: (byte, bytes) -> bytes, checkSig: (bytes, bytes, bytes) -> bool)

  /**
   * The machine between two chunks, but for its execution stack. `checks` counts
   * the signature checks made so far; the program does not keep that number.
   */
  datatype Machine =
    Machine(stack: seq<bytes>, altStack: seq<bytes>, pc: nat, hashStart: nat, opCount: nat, checks: nat)

  datatype Stacks = Stacks(stack: seq<bytes>, altStack: seq<bytes>)

  predicate IsDisabled(code: byte) {
    || 126 <= code <= 129   // CAT, SUBSTR, LEFT, RIGHT
    || 131 <= code <= 134   // INVERT, AND, OR, XOR
    || 141 <= code <= 142   // 2MUL, 2DIV
    || 149 <= code <= 153   // MUL, DIV, MOD, LSHIFT, RSHIFT
  }

  predicate IsSignatureOp(code: byte) {
    OP_CHECKSIG <= code <= OP_CHECKMULTISIGVERIFY
  }

  // ----- opcodes that only move and compute stack items -----

  function Bool(b: bool): bytes {
    Encode(if b then 1 else 0)
  }

  /** The item k places from the top, the top itself being 1. */
  function Top(m: seq<bytes>, k: nat): bytes
    requires 0 < k <= |m|
  {
    m[|m| - k]
  }

  function Drop(m: seq<bytes>, k: nat): seq<bytes>
    requires k <= |m|
  {
    m[..|m| - k]
  }

  /** Opcodes that need no numbers. */
  function ShuffleOp(code: byte, m: seq<bytes>, alt: seq<bytes>): Result<Stacks> {
    var n := |m|;
    match code
    case 105 => if n >= 1 && Truthy(Top(m, 1)) then Ok(Stacks(Drop(m, 1), alt)) else Err           // VERIFY
    case 107 => if n >= 1 then Ok(Stacks(Drop(m, 1), alt + [Top(m, 1)])) else Err                  // TOALTSTACK
    case 108 => if |alt| >= 1 then Ok(Stacks(m + [alt[|alt| - 1]], alt[..|alt| - 1])) else Err     // FROMALTSTACK
    case 109 => if n >= 2 then Ok(Stacks(Drop(m, 2), alt)) else Err                                // 2DROP
    case 110 => if n >= 2 then Ok(Stacks(m + [Top(m, 2), Top(m, 1)], alt)) else Err                // 2DUP
    case 111 => if n >= 3 then Ok(Stacks(m + [Top(m, 3), Top(m, 2), Top(m, 1)], alt)) else Err     // 3DUP
    case 112 => if n >= 4 then Ok(Stacks(m + [Top(m, 4), Top(m, 3)], alt)) else Err                // 2OVER
    case 113 => if n >= 6 then Ok(Stacks(Drop(m, 6) + m[n - 4..] + [Top(m, 6), Top(m, 5)], alt)) else Err  // 2ROT
    case 114 => if n >= 4 then Ok(Stacks(Drop(m, 4) + m[n - 2..] + m[n - 4..n - 2], alt)) else Err // 2SWAP
    case 115 => if n >= 1 then Ok(Stacks(if Truthy(Top(m, 1)) then m + [Top(m, 1)] else m, alt)) else Err  // IFDUP
    case 116 => Ok(Stacks(m + [Encode(n)], alt))                                                   // DEPTH
    case 117 => if n >= 1 then Ok(Stacks(Drop(m, 1), alt)) else Err                                // DROP
    case 118 => if n >= 1 then Ok(Stacks(m + [Top(m, 1)], alt)) else Err                           // DUP
    case 119 => if n >= 2 then Ok(Stacks(Drop(m, 2) + [Top(m, 1)], alt)) else Err                  // NIP
    case 120 => if n >= 2 then Ok(Stacks(m + [Top(m, 2)], alt)) else Err                           // OVER
    case 123 => if n >= 3 then Ok(Stacks(Drop(m, 3) + [Top(m, 2), Top(m, 1), Top(m, 3)], alt)) else Err    // ROT
    case 124 => if n >= 2 then Ok(Stacks(Drop(m, 2) + [Top(m, 1), Top(m, 2)], alt)) else Err       // SWAP
    case 125 => if n >= 2 then Ok(Stacks(Drop(m, 2) + [Top(m, 1), Top(m, 2), Top(m, 1)], alt)) else Err    // TUCK
    case 130 => if n >= 1 then Ok(Stacks(m + [Encode(|Top(m, 1)|)], alt)) else Err                 // SIZE
    case 135 =>                                                                                    // EQUAL
      if n >= 2 then Ok(Stacks(Drop(m, 2) + [[if Top(m, 2) == Top(m, 1) then 1 else 0]], alt)) else Err
    case 136 => if n >= 2 && Top(m, 2) == Top(m, 1) then Ok(Stacks(Drop(m, 2), alt)) else Err      // EQUALVERIFY
    case _ => Err                                                                                  // RETURN, unknown
  }

  /** PICK and ROLL. */
  function PickOp(code: byte, m: seq<bytes>, alt: seq<bytes>): Result<Stacks> {
    if |m| < 1 then Err
    else
      var n :- Cast(Top(m, 1));
      var rest := Drop(m, 1);
      if n < 0 || n >= |rest| then Err
      else
        var value := Top(rest, n + 1);
        var kept := if code == 122 then rest[..|rest| - n - 1] + rest[|rest| - n..] else rest;
        Ok(Stacks(kept + [value], alt))
  }

  function UnaryValue(code: byte, v: int): int {
    match code
    case 139 => v + 1                      // 1ADD
    case 140 => v - 1                      // 1SUB
    case 143 => -v                         // NEGATE
    case 144 => if v < 0 then -v else v    // ABS
    case 145 => if v == 0 then 1 else 0    // NOT
    case _ => if v == 0 then 0 else 1      // 0NOTEQUAL
  }

  function BinaryValue(code: byte, a: int, b: int): int {
    match code
    case 147 => a + b
    case 148 => a - b
    case 154 => if a != 0 && b != 0 then 1 else 0
    case 155 => if a != 0 || b != 0 then 1 else 0
    case 156 => if a == b then 1 else 0
    case 157 => if a == b then 1 else 0
    case 158 => if a != b then 1 else 0
    case 159 => if a < b then 1 else 0
    case 160 => if a > b then 1 else 0
    case 161 => if a > b then 0 else 1
    case 162 => if a < b then 0 else 1
    case 163 => if a < b then a else b
    case _ => if a > b then a else b
  }

  /** Opcodes that compute with numbers. */
  function NumberOp(code: byte, m: seq<bytes>, alt: seq<bytes>): Result<Stacks> {
    if 139 <= code <= 146 then
      if |m| < 1 then Err
      else
        var v :- Cast(Top(m, 1));
        Ok(Stacks(Drop(m, 1) + [Encode(UnaryValue(code, v))], alt))
    else if code == 165 then
      if |m| < 3 then Err
      else
        var x :- Cast(Top(m, 3));
        var low :- Cast(Top(m, 2));
        var high :- Cast(Top(m, 1));
        Ok(Stacks(Drop(m, 3) + [Bool(low <= x < high)], alt))
    else
      if |m| < 2 then Err
      else
        var a :- Cast(Top(m, 2));
        var b :- Cast(Top(m, 1));
        var value := BinaryValue(code, a, b);
        if code != 157 then Ok(Stacks(Drop(m, 2) + [Encode(value)], alt))
        else if value != 0 then Ok(Stacks(Drop(m, 2), alt))
        else Err
  }

  /** Every opcode outside conditionals, code separators and signature checks. */
  function StackOp(crypto: Crypto, code: byte, m: seq<bytes>, alt: seq<bytes>): Result<Stacks> {
    if code == 0 then Ok(Stacks(m + [[]], alt))
    else if code == 79 || 81 <= code <= OP_16 then Ok(Stacks(m + [Encode(code as int - 80)], alt))
    else if code == 97 || 176 <= code <= 185 then Ok(Stacks(m, alt))
    else if code == 121 || code == 122 then PickOp(code, m, alt)
    else if 139 <= code <= 140 || 143 <= code <= 148 || 154 <= code <= 165 then NumberOp(code, m, alt)
    else if 166 <= code <= 170 then
      if |m| < 1 then Err else Ok(Stacks(Drop(m, 1) + [crypto.hash(code, Top(m, 1))], alt))
    else ShuffleOp(code, m, alt)
  }

  // ----- signature opcodes -----

  /** The script part a signature covers: from the last code separator on, without the signatures. */
  function SignedScript(chunks: seq<Chunk>, hashStart: nat, sigs: seq<bytes>): bytes {
    Print(DeleteAll(sigs, if hashStart <= |chunks| then chunks[hashStart..] else []))
  }

  function DeleteAll(sigs: seq<bytes>, chunks: seq<Chunk>): seq<Chunk> {
    if sigs == [] then chunks else DeleteAll(sigs[1..], Delete(Data(sigs[0]), chunks))
  }

  /** A signature opcode leaves its verdict on the stack; the VERIFY forms take it off again or fail. */
  function Verdict(rest: seq<bytes>, success: bool, verify: bool): Result<seq<bytes>> {
    if !verify then Ok(rest + [[if success then 1 else 0]])
    else if success then Ok(rest)
    else Err
  }

  function CheckSigOp(crypto: Crypto, chunks: seq<Chunk>, verify: bool, s: Machine): Result<Machine> {
    if |s.stack| < 2 then Err
    else
      var sig, pubkey := Top(s.stack, 2), Top(s.stack, 1);
      var success := crypto.checkSig(sig, pubkey, SignedScript(chunks, s.hashStart, [sig]));
      var stack :- Verdict(Drop(s.stack, 2), success, verify);
      Ok(s.(stack := stack, checks := s.checks + 1))
  }

  /** Takes n items off the stack, the top one first. */
  function PopMany(m: seq<bytes>, n: nat): (r: seq<bytes>)
    requires n <= |m|
    ensures |r| == n
  {
    Reverse(m[|m| - n..])
  }

  /** The operands of a multi-signature check, and the stack below them. */
  datatype Operands = Operands(keys: seq<bytes>, sigs: seq<bytes>, rest: seq<bytes>)

  /** [sig ...] count [key ...] count, on top of one item that is dropped unread. */
  function MultiSigOperands(m: seq<bytes>, opCount: nat): (r: Result<Operands>)
    ensures r.Ok? ==> |r.value.sigs| <= |r.value.keys| <= MAX_KEYS && opCount + |r.value.keys| <= MAX_OPS
    ensures r.Ok? ==> |r.value.rest| + |r.value.sigs| + |r.value.keys| + 3 == |m|
  {
    if |m| < 1 then Err
    else
      var keysCount :- Cast(Top(m, 1));
      var m1 := Drop(m, 1);
      if !(0 <= keysCount <= MAX_KEYS) || opCount + keysCount > MAX_OPS || |m1| < keysCount + 1 then Err
      else
        var m2 := Drop(m1, keysCount);
        var sigsCount :- Cast(Top(m2, 1));
        var m3 := Drop(m2, 1);
        if !(0 <= sigsCount <= keysCount) || |m3| < sigsCount + 1 then Err
        else Ok(Operands(PopMany(m1, keysCount), PopMany(m3, sigsCount), Drop(m3, sigsCount + 1)))
  }

  function CheckMultiSigOp(crypto: Crypto, chunks: seq<Chunk>, verify: bool, s: Machine): Result<Machine> {
    var o :- MultiSigOperands(s.stack, s.opCount);
    var code := SignedScript(chunks, s.hashStart, o.sigs);
    var ok := (sig: bytes, key: bytes) => crypto.checkSig(sig, key, code);
    var stack :- Verdict(o.rest, MultiSig.Accepts(ok, o.sigs, o.keys), verify);
    Ok(s.(stack := stack, opCount := s.opCount + |o.keys|, checks := s.checks + MultiSig.Checks(ok, o.sigs, o.keys)))
  }

  // ----- one chunk -----

  /** The checks made of every chunk, in a taken branch or not. */
  function Charge(c: Chunk, s: Machine): Result<Machine> {
    match c
    case Data(data) => if |data| > MAX_PUSH_SIZE then Err else Ok(s.(pc := s.pc + 1))
    case Op(code) =>
      var count := if code > OP_16 then s.opCount + 1 else s.opCount;
      if code > OP_16 && count > MAX_OPS then Err
      else if IsDisabled(code) then Err
      else Ok(s.(pc := s.pc + 1, opCount := count))
  }

  /** The size check at the end of a step. */
  function Limit(s: Machine): Result<Machine> {
    if |s.stack| + |s.altStack| > MAX_ITEMS then Err else Ok(s)
  }

  /** What a charged chunk other than a conditional does. Signature opcodes skip the size check. */
  function Act(crypto: Crypto, chunks: seq<Chunk>, c: Chunk, exec: bool, s: Machine): Result<Machine> {
    match c
    case Data(data) => Limit(if exec then s.(stack := s.stack + [data]) else s)
    case Op(code) =>
      if !exec && !(OP_IF <= code <= OP_ENDIF) then Limit(s)
      else if code == OP_CODESEPARATOR then Limit(s.(hashStart := s.pc))
      else if IsSignatureOp(code) then
        var verify := code == OP_CHECKSIGVERIFY || code == OP_CHECKMULTISIGVERIFY;
        if code <= OP_CHECKSIGVERIFY then CheckSigOp(crypto, chunks, verify, s)
        else CheckMultiSigOp(crypto, chunks, verify, s)
      else
        var stacks :- StackOp(crypto, code, s.stack, s.altStack);
        Limit(s.(stack := stacks.stack, altStack := stacks.altStack))
  }

  predicate IsConditional(c: Chunk) {
    c.Op? && (c.code == OP_IF || c.code == OP_NOTIF || c.code == OP_ELSE || c.code == OP_ENDIF)
  }

  /** The value IF or NOTIF branches on, and the machine without it. */
  datatype Test = Test(value: bool, core: Machine)

  function PopTest(notif: bool, exec: bool, s: Machine): Result<Test> {
    if !exec then Ok(Test(false, s))
    else if |s.stack| < 1 then Err
    else
      var value := Truthy(Top(s.stack, 1));
      Ok(Test(if notif then !value else value, s.(stack := Drop(s.stack, 1))))
  }

  // ----- the flat machine -----

  /** The machine between two chunks. */
  datatype Running = Running(core: Machine, execStack: seq<bool>)

  /** Execution is on unless some enclosing branch is not taken. */
  predicate Executing(execStack: seq<bool>) {
    false !in execStack
  }

  function Branch(code: byte, exec: bool, s: Machine, execStack: seq<bool>): Result<Running>
    requires IsConditional(Op(code))
  {
    if code == OP_IF || code == OP_NOTIF then
      var t :- PopTest(code == OP_NOTIF, exec, s);
      Ok(Running(t.core, execStack + [t.value]))
    else if execStack == [] then Err
    else if code == OP_ELSE then Ok(Running(s, execStack[|execStack| - 1 := !execStack[|execStack| - 1]]))
    else Ok(Running(s, execStack[..|execStack| - 1]))
  }

  /** `executeStep` on the chunk at the program counter. */
  function Step(crypto: Crypto, chunks: seq<Chunk>, st: Running): Result<Running>
    requires st.core.pc < |chunks|
  {
    var c := chunks[st.core.pc];
    var exec := Executing(st.execStack);
    var charged :- Charge(c, st.core);
    if IsConditional(c) then
      var next :- Branch(c.code, exec, charged, st.execStack);
      var core :- Limit(next.core);
      Ok(Running(core, next.execStack))
    else
      var core :- Act(crypto, chunks, c, exec, charged);
      Ok(Running(core, st.execStack))
  }

  lemma StepAdvances(crypto: Crypto, chunks: seq<Chunk>, st: Running)
    requires st.core.pc < |chunks|
    ensures Step(crypto, chunks, st).Ok? ==> Step(crypto, chunks, st).value.core.pc == st.core.pc + 1
  {
  }

  /** Runs the chunks from the program counter on; the execution stack has to be empty at the end. */
  function Run(crypto: Crypto, chunks: seq<Chunk>, st: Running): Result<Machine>
    decreases |chunks| - st.core.pc
  {
    if st.core.pc >= |chunks| then
      if st.execStack == [] then Ok(st.core) else Err
    else
      StepAdvances(crypto, chunks, st);
      var next :- Step(crypto, chunks, st);
      Run(crypto, chunks, next)
  }

  /** The machine at the start of a script, on the stack a previous script left. */
  function Start(stack: seq<bytes>): Running {
    Running(Machine(stack, [], 0, 0, 0, 0), [])
  }

  /** `eval`: oversized scripts are refused before the first step. */
  function Eval(crypto: Crypto, buffer: bytes, chunks: seq<Chunk>, stack: seq<bytes>): Result<Machine> {
    if |buffer| > MAX_SCRIPT_SIZE then Err else Run(crypto, chunks, Start(stack))
  }

  // ----- the interpreter object -----

  class ScriptInterpreter {
    const crypto: Crypto
    var stack: seq<bytes>

    constructor (crypto: Crypto)
      ensures stack == [] && this.crypto == crypto
    {
      this.crypto := crypto;
      stack := [];
    }

    /** The step loop; on success the stack is the final one. */
    method Evaluate(script: Script) returns (ok: bool)
      modifies this
      ensures ok <==> Eval(crypto, script.buffer, script.chunks, old(stack)).Ok?
      ensures ok ==> stack == Eval(crypto, script.buffer, script.chunks, old(stack)).value.stack
    {
      var chunks := script.chunks;
      if |script.buffer| > MAX_SCRIPT_SIZE {
        return false;
      }
      var core := Start(stack).core;
      var execStack := [];
      while core.pc < |chunks|
        invariant core.stack == stack
        invariant Run(crypto, chunks, Running(core, execStack)) == Run(crypto, chunks, Start(old(stack)))
        decreases |chunks| - core.pc
      {
        StepAdvances(crypto, chunks, Running(core, execStack));
        var c := chunks[core.pc];
        var exec := false !in execStack;
        var charged := Charge(c, core);
        if charged.Err? {
          return false;
        }
        var after := charged;
        if IsConditional(c) {
          core := charged.value;
          if c.code == OP_IF || c.code == OP_NOTIF {
            var value := false;
            if exec {
              if |core.stack| < 1 {
                return false;
              }
              value := CastBool(Top(core.stack, 1));
              if c.code == OP_NOTIF {
                value := !value;
              }
              core := core.(stack := Drop(core.stack, 1));
            }
            execStack := execStack + [value];
          } else if |execStack| < 1 {
            return false;
          } else if c.code == OP_ELSE {
            execStack := execStack[|execStack| - 1 := !execStack[|execStack| - 1]];
          } else {
            execStack := execStack[..|execStack| - 1];
          }
          after := Limit(core);
        } else {
          after := Act(crypto, chunks, c, exec, charged.value);
        }
        if after.Err? {
          return false;
        }
        core := after.value;
        stack := core.stack;
      }
      ok := |execStack| == 0;
    }

    /** `getResult`: the truth of the top item; an empty stack is an error. */
    method GetResult() returns (r: Result<bool>)
      ensures r == if stack == [] then Err else Ok(Truthy(stack[|stack| - 1]))
    {
      if |stack| == 0 {
        return Err;
      }
      var b := CastBool(stack[|stack| - 1]);
      r := Ok(b);
    }
  }

  /** Both scripts of an input on one stack, and the truth of what they leave. */
  function VerifyScripts(crypto: Crypto, sig: bytes, sigChunks: seq<Chunk>, pubKey: bytes, pubKeyChunks: seq<Chunk>)
    : Result<bool>
  {
    var first :- Eval(crypto, sig, sigChunks, []);
    var second :- Eval(crypto, pubKey, pubKeyChunks, first.stack);
    if second.stack == [] then Err else Ok(Truthy(second.stack[|second.stack| - 1]))
  }

  /** `ScriptInterpreter.verify`. */
  method Verify(crypto: Crypto, scriptSig: Script, scriptPubKey: Script) returns (r: Result<bool>)
    ensures r == VerifyScripts(crypto, scriptSig.buffer, scriptSig.chunks, scriptPubKey.buffer, scriptPubKey.chunks)
  {
    var si := new ScriptInterpreter(crypto);
    var ok := si.Evaluate(scriptSig);
    if !ok {
      return Err;
    }
    ok := si.Evaluate(scriptPubKey);
    if !ok {
      return Err;
    }
    r := si.GetResult();
  }
}
