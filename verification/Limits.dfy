/** The resource limits of a script run: stack size, operation count and signature checks. */
module Limits {
  import opened Outcomes
  import opened Bytes
  import opened Scripts
  import opened Interpreter
  import ScriptNumbers

  /**
   * What holds at every step boundary. A multi-signature check with n keys costs
   * n + 1 operations and at most 2n - 1 signature checks, so the checks stay below
   * 13/7 of the operations.
   */
  predicate Bounded(s: Machine) {
    && |s.stack| + |s.altStack| <= MAX_ITEMS
    && s.opCount <= MAX_OPS
    && 7 * s.checks <= 13 * s.opCount
  }

  lemma BoundedLimits(s: Machine)
    requires Bounded(s)
    ensures |s.stack| + |s.altStack| <= 1000 && s.opCount <= 201 && s.checks <= 373
  {
  }

  lemma ChargeBounded(c: Chunk, s: Machine)
    requires Bounded(s)
    ensures var r := Charge(c, s);
            r.Ok? ==> && Bounded(r.value) && r.value.stack == s.stack && r.value.altStack == s.altStack
                      && r.value.checks == s.checks
                      && r.value.opCount == if c.Op? && c.code > OP_16 then s.opCount + 1 else s.opCount
  {
  }

  /** Room for one more signature check, as the charge of a signature opcode leaves it. */
  predicate CheckPaid(s: Machine) {
    Bounded(s) && 7 * s.checks + 13 <= 13 * s.opCount
  }

  lemma CheckSigBounded(crypto: Crypto, chunks: seq<Chunk>, verify: bool, s: Machine)
    requires CheckPaid(s)
    ensures CheckSigOp(crypto, chunks, verify, s).Ok? ==> Bounded(CheckSigOp(crypto, chunks, verify, s).value)
  {
    hide SignedScript;
  }

  lemma CheckMultiSigBounded(crypto: Crypto, chunks: seq<Chunk>, verify: bool, s: Machine)
    requires CheckPaid(s)
    ensures CheckMultiSigOp(crypto, chunks, verify, s).Ok? ==> Bounded(CheckMultiSigOp(crypto, chunks, verify, s).value)
  {
    hide SignedScript, MultiSig.Checks, MultiSigOperands;
    if CheckMultiSigOp(crypto, chunks, verify, s).Ok? {
      var o := MultiSigOperands(s.stack, s.opCount).value;
      var code := SignedScript(chunks, s.hashStart, o.sigs);
      var ok := (sig: bytes, key: bytes) => crypto.checkSig(sig, key, code);
      MultiSig.ChecksBound(ok, o.sigs, o.keys);
      assert 7 * MultiSig.Checks(ok, o.sigs, o.keys) <= 13 + 13 * |o.keys|;
    }
  }

  /** No chunk leads out of the bounds, in a taken branch or not. */
  lemma ActBounded(crypto: Crypto, chunks: seq<Chunk>, c: Chunk, exec: bool, s: Machine)
    requires Bounded(s)
    requires c.Op? && IsSignatureOp(c.code) ==> CheckPaid(s)
    ensures Act(crypto, chunks, c, exec, s).Ok? ==> Bounded(Act(crypto, chunks, c, exec, s).value)
  {
    hide StackOp, CheckSigOp, CheckMultiSigOp;
    if c.Op? && IsSignatureOp(c.code) {
      var verify := c.code == OP_CHECKSIGVERIFY || c.code == OP_CHECKMULTISIGVERIFY;
      CheckSigBounded(crypto, chunks, verify, s);
      CheckMultiSigBounded(crypto, chunks, verify, s);
    }
  }

  lemma StepBounded(crypto: Crypto, chunks: seq<Chunk>, st: Running)
    requires st.core.pc < |chunks| && Bounded(st.core)
    ensures Step(crypto, chunks, st).Ok? ==> Bounded(Step(crypto, chunks, st).value.core)
  {
    hide Act, Charge;
    var c := chunks[st.core.pc];
    ChargeBounded(c, st.core);
    if Charge(c, st.core).Ok? && !IsConditional(c) {
      ActBounded(crypto, chunks, c, Executing(st.execStack), Charge(c, st.core).value);
    }
  }

  /** The machine after n steps, or where it stopped; failed runs have no state. */
  function After(crypto: Crypto, chunks: seq<Chunk>, st: Running, n: nat): Result<Running> {
    if n == 0 then Ok(st)
    else
      var before :- After(crypto, chunks, st, n - 1);
      if before.core.pc >= |chunks| then Ok(before) else Step(crypto, chunks, before)
  }

  /** At every step boundary of a run that starts within the bounds, they hold. */
  lemma {:induction false} BoundedThroughout(crypto: Crypto, chunks: seq<Chunk>, stack: seq<bytes>, n: nat)
    requires |stack| <= MAX_ITEMS
    ensures var r := After(crypto, chunks, Start(stack), n); r.Ok? ==> Bounded(r.value.core)
  {
    hide Step;
    if n > 0 {
      BoundedThroughout(crypto, chunks, stack, n - 1);
      var before := After(crypto, chunks, Start(stack), n - 1);
      if before.Ok? && before.value.core.pc < |chunks| {
        StepBounded(crypto, chunks, before.value);
      }
    }
  }

  lemma {:induction false} RunBounded(crypto: Crypto, chunks: seq<Chunk>, st: Running)
    requires Bounded(st.core)
    ensures Run(crypto, chunks, st).Ok? ==> Bounded(Run(crypto, chunks, st).value)
    decreases |chunks| - st.core.pc
  {
    hide Step;
    if st.core.pc < |chunks| {
      StepAdvances(crypto, chunks, st);
      StepBounded(crypto, chunks, st);
      if Step(crypto, chunks, st).Ok? {
        RunBounded(crypto, chunks, Step(crypto, chunks, st).value);
      }
    }
  }

  /** Both scripts of an input keep the limits: the second starts from what the first left. */
  lemma EvalTwoBounded(crypto: Crypto, sig: bytes, sigChunks: seq<Chunk>, pubKey: bytes, pubKeyChunks: seq<Chunk>)
    ensures var first := Eval(crypto, sig, sigChunks, []);
            first.Ok? ==>
              && Bounded(first.value)
              && var second := Eval(crypto, pubKey, pubKeyChunks, first.value.stack);
                 second.Ok? ==> Bounded(second.value)
  {
    hide Run;
    RunBounded(crypto, sigChunks, Start([]));
    var first := Eval(crypto, sig, sigChunks, []);
    if first.Ok? {
      RunBounded(crypto, pubKeyChunks, Start(first.value.stack));
    }
  }

  // ----- the signature checks of a whole run, a failing last step included -----

  /** The checks a charged chunk makes, whether or not it then fails. */
  function ActChecks(crypto: Crypto, chunks: seq<Chunk>, c: Chunk, exec: bool, s: Machine): nat {
    if c.Data? || !exec || !IsSignatureOp(c.code) then 0
    else if c.code <= OP_CHECKSIGVERIFY then
      if |s.stack| < 2 then 0 else 1
    else
      match MultiSigOperands(s.stack, s.opCount)
      case Err => 0
      case Ok(o) =>
        var code := SignedScript(chunks, s.hashStart, o.sigs);
        MultiSig.Checks((sig: bytes, key: bytes) => crypto.checkSig(sig, key, code), o.sigs, o.keys)
  }

  function StepChecks(crypto: Crypto, chunks: seq<Chunk>, st: Running): nat
    requires st.core.pc < |chunks|
  {
    var c := chunks[st.core.pc];
    match Charge(c, st.core)
    case Err => 0
    case Ok(charged) => ActChecks(crypto, chunks, c, Executing(st.execStack), charged)
  }

  function RunChecks(crypto: Crypto, chunks: seq<Chunk>, st: Running): nat
    decreases |chunks| - st.core.pc
  {
    if st.core.pc >= |chunks| then 0
    else
      StepAdvances(crypto, chunks, st);
      StepChecks(crypto, chunks, st)
      + match Step(crypto, chunks, st)
        case Ok(next) => RunChecks(crypto, chunks, next)
        case Err => 0
  }

  /** All checks `eval` makes. */
  function EvalChecks(crypto: Crypto, buffer: bytes, chunks: seq<Chunk>, stack: seq<bytes>): nat {
    if |buffer| > MAX_SCRIPT_SIZE then 0 else RunChecks(crypto, chunks, Start(stack))
  }

  /** All checks the two scripts of an input make; the second runs only when the first succeeds. */
  function EvalTwoChecks(crypto: Crypto, sig: bytes, sigChunks: seq<Chunk>, pubKey: bytes, pubKeyChunks: seq<Chunk>)
    : nat
  {
    EvalChecks(crypto, sig, sigChunks, [])
    + match Eval(crypto, sig, sigChunks, [])
      case Ok(first) => EvalChecks(crypto, pubKey, pubKeyChunks, first.stack)
      case Err => 0
  }

  lemma ActChecksBounded(crypto: Crypto, chunks: seq<Chunk>, c: Chunk, exec: bool, s: Machine)
    requires Bounded(s)
    requires c.Op? && IsSignatureOp(c.code) ==> CheckPaid(s)
    ensures s.checks + ActChecks(crypto, chunks, c, exec, s) <= 373
  {
    hide SignedScript, MultiSig.Checks, MultiSigOperands;
    if && c.Op? && exec && IsSignatureOp(c.code) && c.code > OP_CHECKSIGVERIFY
       && MultiSigOperands(s.stack, s.opCount).Ok?
    {
      var o := MultiSigOperands(s.stack, s.opCount).value;
      var code := SignedScript(chunks, s.hashStart, o.sigs);
      MultiSig.ChecksBound((sig: bytes, key: bytes) => crypto.checkSig(sig, key, code), o.sigs, o.keys);
    }
  }

  /** The checks made before a step and in it are bounded, also when the step fails. */
  lemma StepChecksBounded(crypto: Crypto, chunks: seq<Chunk>, st: Running)
    requires st.core.pc < |chunks| && Bounded(st.core)
    ensures st.core.checks + StepChecks(crypto, chunks, st) <= 373
  {
    hide ActChecks, Charge;
    var c := chunks[st.core.pc];
    ChargeBounded(c, st.core);
    if Charge(c, st.core).Ok? {
      ActChecksBounded(crypto, chunks, c, Executing(st.execStack), Charge(c, st.core).value);
    }
  }

  lemma ActChecksCounted(crypto: Crypto, chunks: seq<Chunk>, c: Chunk, exec: bool, s: Machine)
    requires !IsConditional(c)
    ensures var r := Act(crypto, chunks, c, exec, s);
            r.Ok? ==> r.value.checks == s.checks + ActChecks(crypto, chunks, c, exec, s)
  {
    hide StackOp, SignedScript, MultiSigOperands, MultiSig.Checks, MultiSig.Accepts;
  }

  /** The count the machine keeps is that of the checks made. */
  lemma StepChecksCounted(crypto: Crypto, chunks: seq<Chunk>, st: Running)
    requires st.core.pc < |chunks|
    ensures var r := Step(crypto, chunks, st);
            r.Ok? ==> r.value.core.checks == st.core.checks + StepChecks(crypto, chunks, st)
  {
    hide Act, ActChecks;
    var c := chunks[st.core.pc];
    if Charge(c, st.core).Ok? && !IsConditional(c) {
      ActChecksCounted(crypto, chunks, c, Executing(st.execStack), Charge(c, st.core).value);
    } else if IsConditional(c) && Charge(c, st.core).Ok? {
      MarksCheckNothing(crypto, chunks, c, Executing(st.execStack), Charge(c, st.core).value);
    }
  }

  lemma MarksCheckNothing(crypto: Crypto, chunks: seq<Chunk>, c: Chunk, exec: bool, s: Machine)
    requires IsConditional(c)
    ensures ActChecks(crypto, chunks, c, exec, s) == 0
  {
  }

  lemma {:induction false} RunChecksBounded(crypto: Crypto, chunks: seq<Chunk>, st: Running)
    requires Bounded(st.core)
    ensures st.core.checks + RunChecks(crypto, chunks, st) <= 373
    decreases |chunks| - st.core.pc
  {
    hide Step, StepChecks;
    if st.core.pc < |chunks| {
      StepAdvances(crypto, chunks, st);
      StepBounded(crypto, chunks, st);
      StepChecksBounded(crypto, chunks, st);
      StepChecksCounted(crypto, chunks, st);
      if Step(crypto, chunks, st).Ok? {
        RunChecksBounded(crypto, chunks, Step(crypto, chunks, st).value);
      }
    }
  }

  /** At most 373 signature checks are made in all by every `eval` from at most 1000 items, succeeding or not. */
  lemma EvalChecksBounded(crypto: Crypto, buffer: bytes, chunks: seq<Chunk>, stack: seq<bytes>)
    requires |stack| <= MAX_ITEMS
    ensures EvalChecks(crypto, buffer, chunks, stack) <= 373
  {
    hide RunChecks;
    RunChecksBounded(crypto, chunks, Start(stack));
  }

  /** And at most twice that by both scripts of an input, whichever of them fails. */
  lemma EvalTwoChecksBounded(
    crypto: Crypto, sig: bytes, sigChunks: seq<Chunk>, pubKey: bytes, pubKeyChunks: seq<Chunk>)
    ensures EvalTwoChecks(crypto, sig, sigChunks, pubKey, pubKeyChunks) <= 746
  {
    hide EvalChecks, Eval;
    EvalTwoBounded(crypto, sig, sigChunks, pubKey, pubKeyChunks);
    EvalChecksBounded(crypto, sig, sigChunks, []);
    if Eval(crypto, sig, sigChunks, []).Ok? {
      EvalChecksBounded(crypto, pubKey, pubKeyChunks, Eval(crypto, sig, sigChunks, []).value.stack);
    }
  }

  // ----- the limits are met exactly -----

  function Repeated(c: Chunk, n: nat): seq<Chunk> {
    seq(n, _ => c)
  }

  lemma {:induction false} NopsFrom(crypto: Crypto, n: nat, i: nat)
    requires i <= n && i <= 201
    ensures Run(crypto, Repeated(Op(97), n), Running(Machine([], [], i, 0, i, 0), [])).Ok? <==> n <= 201
    decreases n - i
  {
    if i < n {
      var chunks, st := Repeated(Op(97), n), Running(Machine([], [], i, 0, i, 0), []);
      assert chunks[i] == Op(97);
      if i < 201 {
        assert Step(crypto, chunks, st) == Ok(Running(Machine([], [], i + 1, 0, i + 1, 0), []));
        NopsFrom(crypto, n, i + 1);
      }
    }
  }

  lemma {:induction false} OnesFrom(crypto: Crypto, n: nat, i: nat, stack: seq<bytes>)
    requires i <= n && |stack| == i <= 1000
    ensures Run(crypto, Repeated(Op(81), n), Running(Machine(stack, [], i, 0, 0, 0), [])).Ok? <==> n <= 1000
    decreases n - i
  {
    if i < n {
      var chunks, st := Repeated(Op(81), n), Running(Machine(stack, [], i, 0, 0, 0), []);
      assert chunks[i] == Op(81);
      var more := stack + [ScriptNumbers.Encode(1)];
      if i < 1000 {
        assert Step(crypto, chunks, st) == Ok(Running(Machine(more, [], i + 1, 0, 0, 0), []));
        OnesFrom(crypto, n, i + 1, more);
      } else {
        assert Step(crypto, chunks, st).Err?;
      }
    }
  }

  /**
   * Exactly 201 operations, 1000 items, 520 bytes of data and 10000 bytes of script are
   * allowed; pushes are no operations.
   */
  lemma LimitsAreExact(crypto: Crypto, n: nat, data: bytes, buffer: bytes)
    ensures Run(crypto, Repeated(Op(97), n), Start([])).Ok? <==> n <= 201
    ensures Run(crypto, Repeated(Op(81), n), Start([])).Ok? <==> n <= 1000
    ensures Run(crypto, [Data(data)], Start([])).Ok? <==> |data| <= 520
    ensures Eval(crypto, buffer, [], []).Ok? <==> |buffer| <= 10000
  {
    NopsFrom(crypto, n, 0);
    OnesFrom(crypto, n, 0, []);
    DataFits(crypto, data);
    hide Run;
    assert Run(crypto, [], Start([])).Ok? by {
      EmptyRun(crypto);
    }
  }

  lemma EmptyRun(crypto: Crypto)
    ensures Run(crypto, [], Start([])).Ok?
  {
  }

  lemma DataFits(crypto: Crypto, data: bytes)
    ensures Run(crypto, [Data(data)], Start([])).Ok? <==> |data| <= 520
  {
    var chunks := [Data(data)];
    if |data| <= 520 {
      assert Step(crypto, chunks, Start([])) == Ok(Running(Machine([] + [data], [], 1, 0, 0, 0), []));
      hide Step;
      assert Run(crypto, chunks, Running(Machine([] + [data], [], 1, 0, 0, 0), [])).Ok?;
    } else {
      assert Step(crypto, chunks, Start([])).Err?;
    }
  }

  /** A multi-signature check asks for at most 20 keys, and for no more signatures than keys. */
  lemma KeysAreLimited(crypto: Crypto, chunks: seq<Chunk>, below: seq<bytes>, n: int, s: Machine)
    requires n < 0 || n > 20
    requires s.pc < |chunks| && chunks[s.pc] == Op(174) && s.stack == below + [ScriptNumbers.Encode(n)]
    ensures Run(crypto, chunks, Running(s, [])).Err?
  {
    ScriptNumbers.CastOfEncode(n);
    hide ScriptNumbers.Cast;
    assert Step(crypto, chunks, Running(s, [])).Err?;
  }

  /** CAT, SUBSTR, LEFT, RIGHT, INVERT, AND, OR, XOR, 2MUL, 2DIV, MUL, DIV, MOD, LSHIFT and RSHIFT. */
  const DISABLED: set<byte> := {126, 127, 128, 129, 131, 132, 133, 134, 141, 142, 149, 150, 151, 152, 153}

  /** A script with a disabled opcode fails, even when the opcode stands in a branch that is not taken. */
  lemma {:induction false} DisabledFails(crypto: Crypto, chunks: seq<Chunk>, k: nat, st: Running)
    requires st.core.pc <= k < |chunks| && chunks[k].Op? && chunks[k].code in DISABLED
    ensures Run(crypto, chunks, st).Err?
    decreases k - st.core.pc
  {
    hide Act;
    StepAdvances(crypto, chunks, st);
    if st.core.pc == k {
      assert Charge(chunks[k], st.core).Err?;
    } else if Step(crypto, chunks, st).Ok? {
      DisabledFails(crypto, chunks, k, Step(crypto, chunks, st).value);
    }
  }
}
