/**
 * Nested conditionals. The machine keeps one flat stack of branch flags and walks
 * over every chunk; here scripts are trees, and only taken branches are executed.
 * The two agree on every script.
 */
module Conditionals {
  import opened Outcomes
  import opened Bytes
  import opened Scripts
  import opened Interpreter
  import ScriptNumbers

  /** A script part: chunks in a row, some of them whole conditionals. */
  datatype Block =
    | End
    | Plain(chunk: Chunk, next: Block)
    | Cond(notif: bool, branches: Branches, next: Block)

  /** The branches between IF and ENDIF, parted by ELSE; there is at least one. */
  datatype Branches = Last(body: Block) | Else(body: Block, others: Branches)

  // ----- from trees to chunks -----

  function IfChunk(notif: bool): Chunk {
    Op(if notif then OP_NOTIF else OP_IF)
  }

  function Flatten(b: Block): seq<Chunk> {
    match b
    case End => []
    case Plain(c, next) => [c] + Flatten(next)
    case Cond(notif, branches, next) =>
      [IfChunk(notif)] + (FlattenBranches(branches) + ([Op(OP_ENDIF)] + Flatten(next)))
  }

  function FlattenBranches(bs: Branches): seq<Chunk> {
    match bs
    case Last(body) => Flatten(body)
    case Else(body, others) => Flatten(body) + ([Op(OP_ELSE)] + FlattenBranches(others))
  }

  /** Conditional opcodes appear only as the marks of conditionals. */
  predicate Proper(b: Block) {
    match b
    case End => true
    case Plain(c, next) => !IsConditional(c) && Proper(next)
    case Cond(_, branches, next) => ProperBranches(branches) && Proper(next)
  }

  predicate ProperBranches(bs: Branches) {
    match bs
    case Last(body) => Proper(body)
    case Else(body, others) => Proper(body) && ProperBranches(others)
  }

  // ----- execution of trees -----

  /** A chunk that is only a mark: it is charged and the sizes are checked. */
  function PassMark(c: Chunk, s: Machine): Result<Machine> {
    var charged :- Charge(c, s);
    Limit(charged)
  }

  /** Executes a block; with exec off its chunks are only charged. */
  function Exec(crypto: Crypto, chunks: seq<Chunk>, b: Block, exec: bool, s: Machine): Result<Machine> {
    match b
    case End => Ok(s)
    case Plain(c, next) =>
      var charged :- Charge(c, s);
      var done :- Act(crypto, chunks, c, exec, charged);
      Exec(crypto, chunks, next, exec, done)
    case Cond(notif, branches, next) =>
      var charged :- Charge(IfChunk(notif), s);
      var test :- PopTest(notif, exec, charged);
      var begun :- Limit(test.core);
      var ended :- ExecBranches(crypto, chunks, branches, exec, test.value, begun);
      var closed :- PassMark(Op(OP_ENDIF), ended);
      Exec(crypto, chunks, next, exec, closed)
  }

  /** Executes every other branch, starting with the first when `taken`. */
  function ExecBranches(crypto: Crypto, chunks: seq<Chunk>, bs: Branches, exec: bool, taken: bool, s: Machine)
    : Result<Machine>
  {
    match bs
    case Last(body) => Exec(crypto, chunks, body, exec && taken, s)
    case Else(body, others) =>
      var done :- Exec(crypto, chunks, body, exec && taken, s);
      var turned :- PassMark(Op(OP_ELSE), done);
      ExecBranches(crypto, chunks, others, exec, !taken, turned)
  }

  // ----- the flat machine refines the tree -----

  /** The chunks from the program counter on start with cs. */
  ghost predicate Ahead(chunks: seq<Chunk>, pc: nat, cs: seq<Chunk>) {
    pc + |cs| <= |chunks| && chunks[pc..pc + |cs|] == cs
  }

  lemma AheadSplit(chunks: seq<Chunk>, pc: nat, a: seq<Chunk>, b: seq<Chunk>)
    requires Ahead(chunks, pc, a + b)
    ensures Ahead(chunks, pc, a) && Ahead(chunks, pc + |a|, b)
  {
    assert chunks[pc..pc + |a|] == (a + b)[..|a|];
    assert chunks[pc + |a|..pc + |a| + |b|] == (a + b)[|a|..];
  }

  lemma AheadFirst(chunks: seq<Chunk>, pc: nat, c: Chunk, rest: seq<Chunk>)
    requires Ahead(chunks, pc, [c] + rest)
    ensures pc < |chunks| && chunks[pc] == c && Ahead(chunks, pc + 1, rest)
  {
    AheadSplit(chunks, pc, [c], rest);
    assert chunks[pc] == chunks[pc..pc + 1][0];
  }

  lemma ExecutingPush(es: seq<bool>, v: bool)
    ensures Executing(es + [v]) == (Executing(es) && v)
  {
    assert forall x :: x in es + [v] <==> x in es || x == v;
  }

  /** What running on from a tree's result comes to. */
  function RunOn(crypto: Crypto, chunks: seq<Chunk>, r: Result<Machine>, es: seq<bool>): Result<Machine> {
    match r
    case Ok(core) => Run(crypto, chunks, Running(core, es))
    case Err => Err
  }

  /** A plain chunk leaves the execution stack alone. */
  lemma PlainStep(crypto: Crypto, chunks: seq<Chunk>, c: Chunk, s: Machine, es: seq<bool>)
    requires s.pc < |chunks| && chunks[s.pc] == c && !IsConditional(c)
    ensures Run(crypto, chunks, Running(s, es))
         == match Charge(c, s)
            case Ok(charged) => RunOn(crypto, chunks, Act(crypto, chunks, c, Executing(es), charged), es)
            case Err => Err
  {
    hide Act, Charge, IsConditional;
  }

  lemma IfStep(crypto: Crypto, chunks: seq<Chunk>, notif: bool, s: Machine, es: seq<bool>)
    requires s.pc < |chunks| && chunks[s.pc] == IfChunk(notif)
    ensures Run(crypto, chunks, Running(s, es))
         == match Charge(IfChunk(notif), s)
            case Err => Err
            case Ok(charged) =>
              match PopTest(notif, Executing(es), charged)
              case Err => Err
              case Ok(test) => RunOn(crypto, chunks, Limit(test.core), es + [test.value])
  {
    hide Act, Charge, PopTest;
  }

  lemma ElseStep(crypto: Crypto, chunks: seq<Chunk>, s: Machine, es: seq<bool>, v: bool)
    requires s.pc < |chunks| && chunks[s.pc] == Op(OP_ELSE)
    ensures Run(crypto, chunks, Running(s, es + [v])) == RunOn(crypto, chunks, PassMark(Op(OP_ELSE), s), es + [!v])
  {
    hide Act, Charge;
    assert (es + [v])[|es| := !v] == es + [!v];
  }

  lemma EndifStep(crypto: Crypto, chunks: seq<Chunk>, s: Machine, es: seq<bool>, v: bool)
    requires s.pc < |chunks| && chunks[s.pc] == Op(OP_ENDIF)
    ensures Run(crypto, chunks, Running(s, es + [v])) == RunOn(crypto, chunks, PassMark(Op(OP_ENDIF), s), es)
  {
    hide Act, Charge;
    assert (es + [v])[..|es|] == es;
  }

  lemma ChargeAdvances(c: Chunk, s: Machine)
    ensures Charge(c, s).Ok? ==> Charge(c, s).value.pc == s.pc + 1
  {
  }

  lemma ActKeepsPc(crypto: Crypto, chunks: seq<Chunk>, c: Chunk, exec: bool, s: Machine)
    ensures Act(crypto, chunks, c, exec, s).Ok? ==> Act(crypto, chunks, c, exec, s).value.pc == s.pc
  {
    hide StackOp;
  }

  /** Executing a tree moves the program counter over its chunks. */
  lemma {:induction false} ExecAdvances(crypto: Crypto, chunks: seq<Chunk>, b: Block, exec: bool, s: Machine)
    ensures var r := Exec(crypto, chunks, b, exec, s); r.Ok? ==> r.value.pc == s.pc + |Flatten(b)|
    decreases b, 1
  {
    hide Act, Charge, PopTest;
    match b
    case End =>
    case Plain(c, next) =>
      ChargeAdvances(c, s);
      if Charge(c, s).Ok? {
        var charged := Charge(c, s).value;
        ActKeepsPc(crypto, chunks, c, exec, charged);
        if Act(crypto, chunks, c, exec, charged).Ok? {
          ExecAdvances(crypto, chunks, next, exec, Act(crypto, chunks, c, exec, charged).value);
        }
      }
    case Cond(notif, branches, next) =>
      CondAdvances(crypto, chunks, b, exec, s);
  }

  lemma {:induction false} CondAdvances(crypto: Crypto, chunks: seq<Chunk>, b: Block, exec: bool, s: Machine)
    requires b.Cond?
    ensures var r := Exec(crypto, chunks, b, exec, s); r.Ok? ==> r.value.pc == s.pc + |Flatten(b)|
    decreases b, 0
  {
    hide Act, Charge, PopTest;
    var Cond(notif, branches, next) := b;
    if Exec(crypto, chunks, b, exec, s).Ok? {
      ChargeAdvances(IfChunk(notif), s);
      var charged := Charge(IfChunk(notif), s).value;
      PopTestKeepsPc(notif, exec, charged);
      var test := PopTest(notif, exec, charged).value;
      BranchesAdvance(crypto, chunks, branches, exec, test.value, test.core);
      var ended := ExecBranches(crypto, chunks, branches, exec, test.value, test.core).value;
      ChargeAdvances(Op(OP_ENDIF), ended);
      ExecAdvances(crypto, chunks, next, exec, PassMark(Op(OP_ENDIF), ended).value);
    }
  }

  lemma PopTestKeepsPc(notif: bool, exec: bool, s: Machine)
    ensures PopTest(notif, exec, s).Ok? ==> PopTest(notif, exec, s).value.core.pc == s.pc
  {
  }

  lemma {:induction false} BranchesAdvance(
    crypto: Crypto, chunks: seq<Chunk>, bs: Branches, exec: bool, taken: bool, s: Machine)
    ensures var r := ExecBranches(crypto, chunks, bs, exec, taken, s);
            r.Ok? ==> r.value.pc == s.pc + |FlattenBranches(bs)|
    decreases bs, 1
  {
    hide Act, Charge;
    match bs
    case Last(body) =>
      ExecAdvances(crypto, chunks, body, exec && taken, s);
    case Else(body, others) =>
      ExecAdvances(crypto, chunks, body, exec && taken, s);
      var done := Exec(crypto, chunks, body, exec && taken, s);
      if done.Ok? {
        ChargeAdvances(Op(OP_ELSE), done.value);
        var turned := PassMark(Op(OP_ELSE), done.value);
        if turned.Ok? {
          BranchesAdvance(crypto, chunks, others, exec, !taken, turned.value);
        }
      }
  }

  /**
   * Inside any enclosing branches, the machine running over a block's chunks does
   * what executing the block does, and goes on behind it.
   */
  lemma {:induction false} FlatRunsBlock(crypto: Crypto, chunks: seq<Chunk>, b: Block, s: Machine, es: seq<bool>)
    requires Proper(b) && Ahead(chunks, s.pc, Flatten(b))
    ensures Run(crypto, chunks, Running(s, es)) == RunOn(crypto, chunks, Exec(crypto, chunks, b, Executing(es), s), es)
    decreases b, 2
  {
    hide Run, Act, Charge, IsConditional, Executing, Ahead;
    match b
    case End =>
    case Plain(c, next) =>
      AheadFirst(chunks, s.pc, c, Flatten(next));
      PlainStep(crypto, chunks, c, s, es);
      ChargeAdvances(c, s);
      if Charge(c, s).Ok? {
        var acted := Act(crypto, chunks, c, Executing(es), Charge(c, s).value);
        ActKeepsPc(crypto, chunks, c, Executing(es), Charge(c, s).value);
        if acted.Ok? {
          FlatRunsBlock(crypto, chunks, next, acted.value, es);
        }
      }
    case Cond(notif, branches, next) =>
      FlatRunsCond(crypto, chunks, b, s, es);
  }

  lemma {:induction false} FlatRunsCond(crypto: Crypto, chunks: seq<Chunk>, b: Block, s: Machine, es: seq<bool>)
    requires b.Cond? && Proper(b) && Ahead(chunks, s.pc, Flatten(b))
    ensures Run(crypto, chunks, Running(s, es)) == RunOn(crypto, chunks, Exec(crypto, chunks, b, Executing(es), s), es)
    decreases b, 1
  {
    var Cond(notif, branches, next) := b;
    hide Run, Act, Charge, PopTest, Executing, Ahead, IfChunk;
    var tail := [Op(OP_ENDIF)] + Flatten(next);
    AheadFirst(chunks, s.pc, IfChunk(notif), FlattenBranches(branches) + tail);
    IfStep(crypto, chunks, notif, s, es);
    ChargeAdvances(IfChunk(notif), s);
    if Charge(IfChunk(notif), s).Ok? {
      var charged := Charge(IfChunk(notif), s).value;
      PopTestKeepsPc(notif, Executing(es), charged);
      if PopTest(notif, Executing(es), charged).Ok? {
        var test := PopTest(notif, Executing(es), charged).value;
        if Limit(test.core).Ok? {
          FlatInside(crypto, chunks, b, test.core, es, test.value);
        }
      }
    }
  }

  /** A conditional from its first branch on. */
  lemma {:induction false} FlatInside(
    crypto: Crypto, chunks: seq<Chunk>, b: Block, s: Machine, es: seq<bool>, taken: bool)
    requires b.Cond? && Proper(b)
    requires Ahead(chunks, s.pc, FlattenBranches(b.branches) + ([Op(OP_ENDIF)] + Flatten(b.next)))
    ensures Run(crypto, chunks, Running(s, es + [taken]))
         == match ExecBranches(crypto, chunks, b.branches, Executing(es), taken, s)
            case Err => Err
            case Ok(ended) =>
              match PassMark(Op(OP_ENDIF), ended)
              case Err => Err
              case Ok(closed) => RunOn(crypto, chunks, Exec(crypto, chunks, b.next, Executing(es), closed), es)
    decreases b, 0
  {
    hide Run, Act, Charge, PopTest, Executing, Ahead, IfChunk;
    AheadSplit(chunks, s.pc, FlattenBranches(b.branches), [Op(OP_ENDIF)] + Flatten(b.next));
    var v := FlatRunsBranches(crypto, chunks, b.branches, s, es, taken);
    BranchesAdvance(crypto, chunks, b.branches, Executing(es), taken, s);
    var ended := ExecBranches(crypto, chunks, b.branches, Executing(es), taken, s);
    if ended.Ok? {
      FlatCloses(crypto, chunks, b.next, ended.value, es, v);
    }
  }

  /** The ENDIF of a conditional and the block behind it. */
  lemma {:induction false} FlatCloses(
    crypto: Crypto, chunks: seq<Chunk>, next: Block, s: Machine, es: seq<bool>, v: bool)
    requires Proper(next) && Ahead(chunks, s.pc, [Op(OP_ENDIF)] + Flatten(next))
    ensures Run(crypto, chunks, Running(s, es + [v]))
         == match PassMark(Op(OP_ENDIF), s)
            case Ok(closed) => RunOn(crypto, chunks, Exec(crypto, chunks, next, Executing(es), closed), es)
            case Err => Err
    decreases next, 3
  {
    hide Run, Act, Charge, Executing, Ahead;
    AheadFirst(chunks, s.pc, Op(OP_ENDIF), Flatten(next));
    EndifStep(crypto, chunks, s, es, v);
    ChargeAdvances(Op(OP_ENDIF), s);
    var closed := PassMark(Op(OP_ENDIF), s);
    if closed.Ok? {
      FlatRunsBlock(crypto, chunks, next, closed.value, es);
    }
  }

  /** The same for the branches; v is the flag of the last one. */
  lemma {:induction false} FlatRunsBranches(
    crypto: Crypto, chunks: seq<Chunk>, bs: Branches, s: Machine, es: seq<bool>, taken: bool) returns (v: bool)
    requires ProperBranches(bs) && Ahead(chunks, s.pc, FlattenBranches(bs))
    ensures Run(crypto, chunks, Running(s, es + [taken]))
         == RunOn(crypto, chunks, ExecBranches(crypto, chunks, bs, Executing(es), taken, s), es + [v])
    decreases bs, 1
  {
    hide Run, Act, Charge, Executing, Ahead;
    ExecutingPush(es, taken);
    match bs
    case Last(body) =>
      FlatRunsBlock(crypto, chunks, body, s, es + [taken]);
      v := taken;
    case Else(body, others) =>
      v := taken;
      AheadSplit(chunks, s.pc, Flatten(body), [Op(OP_ELSE)] + FlattenBranches(others));
      FlatRunsBlock(crypto, chunks, body, s, es + [taken]);
      ExecAdvances(crypto, chunks, body, Executing(es) && taken, s);
      var done := Exec(crypto, chunks, body, Executing(es) && taken, s);
      if done.Ok? {
        AheadFirst(chunks, done.value.pc, Op(OP_ELSE), FlattenBranches(others));
        ElseStep(crypto, chunks, done.value, es, taken);
        ChargeAdvances(Op(OP_ELSE), done.value);
        var turned := PassMark(Op(OP_ELSE), done.value);
        if turned.Ok? {
          v := FlatRunsBranches(crypto, chunks, others, turned.value, es, !taken);
        }
      }
  }

  /** A well-nested script runs exactly as its tree executes, results and failures alike. */
  lemma FlatRefinesTree(crypto: Crypto, b: Block, stack: seq<bytes>)
    requires Proper(b)
    ensures Run(crypto, Flatten(b), Start(stack)) == Exec(crypto, Flatten(b), b, true, Start(stack).core)
  {
    var chunks, s := Flatten(b), Start(stack).core;
    assert chunks[0..0 + |chunks|] == chunks;
    FlatRunsBlock(crypto, chunks, b, s, []);
    ExecAdvances(crypto, chunks, b, true, s);
  }

  // ----- scripts that are not well nested -----

  /** Every conditional opcode has its partner, with d conditionals open at the start. */
  predicate Balanced(cs: seq<Chunk>, d: nat) {
    if cs == [] then d == 0
    else if cs[0] == Op(OP_IF) || cs[0] == Op(OP_NOTIF) then Balanced(cs[1..], d + 1)
    else if cs[0] == Op(OP_ELSE) then d > 0 && Balanced(cs[1..], d)
    else if cs[0] == Op(OP_ENDIF) then d > 0 && Balanced(cs[1..], d - 1)
    else Balanced(cs[1..], d)
  }

  /** What is left of a run that succeeds is balanced for the open conditionals. */
  lemma {:induction false} SuccessIsBalanced(crypto: Crypto, chunks: seq<Chunk>, st: Running)
    requires st.core.pc <= |chunks| && Run(crypto, chunks, st).Ok?
    ensures Balanced(chunks[st.core.pc..], |st.execStack|)
    decreases |chunks| - st.core.pc
  {
    hide Act, Charge, PopTest, Executing;
    if st.core.pc < |chunks| {
      StepAdvances(crypto, chunks, st);
      var next := Step(crypto, chunks, st).value;
      SuccessIsBalanced(crypto, chunks, next);
      assert chunks[st.core.pc..][1..] == chunks[next.core.pc..];
    }
  }

  /** Closing a block does not change what is open around it. */
  lemma {:induction false} BlockIsBalanced(b: Block, rest: seq<Chunk>, d: nat)
    requires Proper(b)
    ensures Balanced(Flatten(b) + rest, d) == Balanced(rest, d)
    decreases b
  {
    match b
    case End =>
      assert Flatten(b) + rest == rest;
    case Plain(c, next) =>
      assert (Flatten(b) + rest)[1..] == Flatten(next) + rest;
      BlockIsBalanced(next, rest, d);
    case Cond(notif, branches, next) =>
      var tail := [Op(OP_ENDIF)] + Flatten(next) + rest;
      assert (Flatten(b) + rest)[1..] == FlattenBranches(branches) + tail;
      BranchesAreBalanced(branches, tail, d + 1);
      assert tail[1..] == Flatten(next) + rest;
      BlockIsBalanced(next, rest, d);
  }

  lemma {:induction false} BranchesAreBalanced(bs: Branches, rest: seq<Chunk>, d: nat)
    requires ProperBranches(bs) && d > 0
    ensures Balanced(FlattenBranches(bs) + rest, d) == Balanced(rest, d)
    decreases bs
  {
    match bs
    case Last(body) =>
      BlockIsBalanced(body, rest, d);
    case Else(body, others) =>
      var tail := [Op(OP_ELSE)] + (FlattenBranches(others) + rest);
      assert FlattenBranches(bs) + rest == Flatten(body) + tail;
      BlockIsBalanced(body, tail, d);
      assert tail[1..] == FlattenBranches(others) + rest;
      BranchesAreBalanced(others, rest, d);
  }

  /** Balanced chunks start with a block, up to the first mark of an enclosing conditional. */
  lemma {:induction false} ReadBlock(cs: seq<Chunk>, d: nat) returns (b: Block, rest: seq<Chunk>)
    requires Balanced(cs, d)
    ensures Proper(b) && cs == Flatten(b) + rest && Balanced(rest, d)
    ensures if d == 0 then rest == []
            else rest != [] && (rest[0] == Op(OP_ELSE) || rest[0] == Op(OP_ENDIF))
    decreases |cs|, 1
  {
    if cs == [] || cs[0] == Op(OP_ELSE) || cs[0] == Op(OP_ENDIF) {
      b, rest := End, cs;
      assert cs == [] + cs;
    } else if cs[0] == Op(OP_IF) || cs[0] == Op(OP_NOTIF) {
      b, rest := ReadCond(cs, d);
    } else {
      var next;
      next, rest := ReadBlock(cs[1..], d);
      b := Plain(cs[0], next);
      assert cs == [cs[0]] + cs[1..];
    }
  }

  lemma {:induction false} ReadCond(cs: seq<Chunk>, d: nat) returns (b: Block, rest: seq<Chunk>)
    requires Balanced(cs, d) && cs != [] && (cs[0] == Op(OP_IF) || cs[0] == Op(OP_NOTIF))
    ensures Proper(b) && cs == Flatten(b) + rest && Balanced(rest, d)
    ensures if d == 0 then rest == []
            else rest != [] && (rest[0] == Op(OP_ELSE) || rest[0] == Op(OP_ENDIF))
    decreases |cs|, 0
  {
    var notif := cs[0] == Op(OP_NOTIF);
    var bs, afterBranches := ReadBranches(cs[1..], d + 1);
    var next;
    next, rest := ReadBlock(afterBranches[1..], d);
    b := Cond(notif, bs, next);
    assert cs == [cs[0]] + cs[1..];
    assert afterBranches == [Op(OP_ENDIF)] + (Flatten(next) + rest);
    hide Balanced;
    Regroup([cs[0]], FlattenBranches(bs), [Op(OP_ENDIF)], Flatten(next), rest);
  }

  lemma Regroup(a: seq<Chunk>, b: seq<Chunk>, c: seq<Chunk>, d: seq<Chunk>, e: seq<Chunk>)
    ensures a + (b + (c + (d + e))) == (a + (b + (c + d))) + e
  {
  }

  lemma {:induction false} ReadBranches(cs: seq<Chunk>, d: nat) returns (bs: Branches, rest: seq<Chunk>)
    requires Balanced(cs, d) && d > 0
    ensures ProperBranches(bs) && cs == FlattenBranches(bs) + rest && Balanced(rest, d)
    ensures rest != [] && rest[0] == Op(OP_ENDIF)
    decreases |cs|, 2
  {
    var body;
    body, rest := ReadBlock(cs, d);
    bs := Last(body);
    if rest[0] == Op(OP_ELSE) {
      var others, after := ReadBranches(rest[1..], d);
      bs := Else(body, others);
      assert rest == [Op(OP_ELSE)] + rest[1..];
      rest := after;
    }
  }

  /** Balance decides whether a script is the flattening of a tree. */
  lemma BalancedIffNested(cs: seq<Chunk>)
    ensures Balanced(cs, 0) <==> exists b :: Proper(b) && Flatten(b) == cs
  {
    if Balanced(cs, 0) {
      var b, rest := ReadBlock(cs, 0);
      assert Flatten(b) + [] == Flatten(b);
    }
    if b :| Proper(b) && Flatten(b) == cs {
      BlockIsBalanced(b, [], 0);
      assert Flatten(b) + [] == Flatten(b);
    }
  }

  /** A script that is not the flattening of a tree fails on every stack. */
  lemma UnnestedFails(crypto: Crypto, chunks: seq<Chunk>, stack: seq<bytes>)
    requires !exists b :: Proper(b) && Flatten(b) == chunks
    ensures Run(crypto, chunks, Start(stack)).Err?
  {
    BalancedIffNested(chunks);
    assert chunks[0..] == chunks;
    if Run(crypto, chunks, Start(stack)).Ok? {
      SuccessIsBalanced(crypto, chunks, Start(stack));
    }
  }

  // ----- which branch is taken -----

  /** A chunk in a branch that is not taken is charged and nothing else. */
  lemma OffAct(crypto: Crypto, chunks: seq<Chunk>, c: Chunk, s: Machine)
    requires !IsConditional(c)
    ensures var r := Act(crypto, chunks, c, false, s);
            r.Ok? && !(c.Op? && 99 <= c.code <= 104) ==> r.value == s
    ensures c.Op? && 101 <= c.code <= 102 ==> Act(crypto, chunks, c, false, s).Err?
  {
    hide CheckSigOp, CheckMultiSigOp;
  }

  lemma ChargeCounts(c: Chunk, s: Machine)
    ensures var r := Charge(c, s); r.Ok? ==> r.value == s.(pc := s.pc + 1, opCount := r.value.opCount)
  {
  }

  /** A branch that is not taken leaves the stacks, the separator and the signature checks alone. */
  lemma {:induction false} OffTouchesNothing(crypto: Crypto, chunks: seq<Chunk>, b: Block, s: Machine)
    requires Proper(b)
    ensures var r := Exec(crypto, chunks, b, false, s);
            r.Ok? ==> r.value == s.(pc := r.value.pc, opCount := r.value.opCount)
    decreases b, 1
  {
    hide Act, Charge, IsConditional;
    match b
    case End =>
    case Plain(c, next) =>
      ChargeCounts(c, s);
      if Charge(c, s).Ok? {
        var charged := Charge(c, s).value;
        OffPlain(crypto, chunks, c, charged);
        OffTouchesNothing(crypto, chunks, next, charged);
      }
    case Cond(notif, branches, next) =>
      if Exec(crypto, chunks, b, false, s).Ok? {
        ChargeCounts(IfChunk(notif), s);
        var begun := Charge(IfChunk(notif), s).value;
        OffBranches(crypto, chunks, branches, false, begun);
        var ended := ExecBranches(crypto, chunks, branches, false, false, begun).value;
        ChargeCounts(Op(OP_ENDIF), ended);
        OffTouchesNothing(crypto, chunks, next, Charge(Op(OP_ENDIF), ended).value);
      }
  }

  lemma OffPlain(crypto: Crypto, chunks: seq<Chunk>, c: Chunk, s: Machine)
    requires !IsConditional(c)
    ensures Act(crypto, chunks, c, false, s).Ok? ==> Act(crypto, chunks, c, false, s).value == s
  {
    OffAct(crypto, chunks, c, s);
    hide Act;
  }

  lemma {:induction false} OffBranches(crypto: Crypto, chunks: seq<Chunk>, bs: Branches, taken: bool, s: Machine)
    requires ProperBranches(bs)
    ensures var r := ExecBranches(crypto, chunks, bs, false, taken, s);
            r.Ok? ==> r.value == s.(pc := r.value.pc, opCount := r.value.opCount)
    decreases bs, 1
  {
    hide Act, Charge;
    match bs
    case Last(body) => OffTouchesNothing(crypto, chunks, body, s);
    case Else(body, others) =>
      OffTouchesNothing(crypto, chunks, body, s);
      var done := Exec(crypto, chunks, body, false, s);
      if done.Ok? {
        ChargeCounts(Op(OP_ELSE), done.value);
        var turned := PassMark(Op(OP_ELSE), done.value);
        if turned.Ok? {
          OffBranches(crypto, chunks, others, !taken, turned.value);
        }
      }
  }

  /** v IF a ELSE b ENDIF, or with NOTIF. */
  function IfElseScript(v: bytes, notif: bool, a: Block, b: Block): seq<Chunk> {
    [Data(v), Op(if notif then 100 else 99)] + Flatten(a) + [Op(103)] + Flatten(b) + [Op(104)]
  }

  /** What a successful run leaves is what executing block x alone leaves, from pc on and with n operations counted. */
  predicate Leaves(crypto: Crypto, chunks: seq<Chunk>, x: Block, stack: seq<bytes>, pc: nat, n: nat, left: seq<bytes>) {
    var t := Exec(crypto, chunks, x, true, Machine(stack, [], pc, 0, n, 0));
    t.Ok? && t.value.stack == left
  }

  /**
   * IF takes its first branch on a true item, NOTIF on a false one, and otherwise the
   * one behind ELSE: a run that succeeds leaves what that branch alone leaves.
   */
  lemma IfElse(crypto: Crypto, v: bytes, notif: bool, a: Block, b: Block, stack: seq<bytes>) returns (n: nat)
    requires Proper(a) && Proper(b)
    ensures var cs := IfElseScript(v, notif, a, b);
            var r := Run(crypto, cs, Start(stack));
            r.Ok? ==>
              if (ScriptNumbers.Decode(v) != 0) != notif then Leaves(crypto, cs, a, stack, 2, n, r.value.stack)
              else Leaves(crypto, cs, b, stack, |Flatten(a)| + 3, n, r.value.stack)
  {
    var cs := IfElseScript(v, notif, a, b);
    var tree := Plain(Data(v), Cond(notif, Else(a, Last(b)), End));
    assert ProperBranches(Else(a, Last(b))) && Proper(tree.next) by {
      assert ProperBranches(Last(b));
    }
    IfElseFlat(v, notif, a, b);
    hide Flatten, IfElseScript;
    FlatRefinesTree(crypto, tree, stack);
    hide Run, Exec, Leaves, Start;
    n := 0;
    if Run(crypto, cs, Start(stack)).Ok? {
      n := IfElseExec(crypto, cs, v, notif, a, b, stack);
    }
  }

  lemma IfElseFlat(v: bytes, notif: bool, a: Block, b: Block)
    ensures Flatten(Plain(Data(v), Cond(notif, Else(a, Last(b)), End))) == IfElseScript(v, notif, a, b)
  {
    var bs := Else(a, Last(b));
    assert FlattenBranches(Last(b)) == Flatten(b) && Flatten(End) == [];
    assert FlattenBranches(bs) == Flatten(a) + ([Op(OP_ELSE)] + Flatten(b));
    var tail := [Op(OP_ENDIF)] + Flatten(End);
    assert tail == [Op(104)];
    var cond := Cond(notif, bs, End);
    assert Flatten(cond) == [IfChunk(notif)] + (FlattenBranches(bs) + tail);
    assert Flatten(Plain(Data(v), cond)) == [Data(v)] + Flatten(cond);
    hide Flatten, FlattenBranches;
  }

  lemma IfElseExec(
    crypto: Crypto, cs: seq<Chunk>, v: bytes, notif: bool, a: Block, b: Block, stack: seq<bytes>) returns (n: nat)
    requires Proper(a) && Proper(b)
    requires Exec(crypto, cs, Plain(Data(v), Cond(notif, Else(a, Last(b)), End)), true, Start(stack).core).Ok?
    ensures var left := Exec(crypto, cs, Plain(Data(v), Cond(notif, Else(a, Last(b)), End)), true,
                             Start(stack).core).value.stack;
            if (ScriptNumbers.Decode(v) != 0) != notif then Leaves(crypto, cs, a, stack, 2, n, left)
            else Leaves(crypto, cs, b, stack, |Flatten(a)| + 3, n, left)
  {
    var cond, s := Cond(notif, Else(a, Last(b)), End), Machine(stack, [], 2, 0, 1, 0);
    var first := (ScriptNumbers.Decode(v) != 0) != notif;
    DataExec(crypto, cs, v, cond, stack);
    hide Flatten, Exec;
    CondExec(crypto, cs, v, notif, Else(a, Last(b)), stack);
    n := BranchesExec(crypto, cs, a, b, first, s);
  }

  lemma DataExec(crypto: Crypto, cs: seq<Chunk>, v: bytes, next: Block, stack: seq<bytes>)
    ensures var r := Exec(crypto, cs, Plain(Data(v), next), true, Start(stack).core);
            r.Ok? ==> r == Exec(crypto, cs, next, true, Machine(stack + [v], [], 1, 0, 0, 0))
  {
  }

  lemma CondExec(crypto: Crypto, cs: seq<Chunk>, v: bytes, notif: bool, bs: Branches, stack: seq<bytes>)
    requires ProperBranches(bs)
    ensures var s := Machine(stack, [], 2, 0, 1, 0);
            var first := (ScriptNumbers.Decode(v) != 0) != notif;
            var r := Exec(crypto, cs, Cond(notif, bs, End), true, Machine(stack + [v], [], 1, 0, 0, 0));
            r.Ok? ==>
              && ExecBranches(crypto, cs, bs, true, first, s).Ok?
              && r.value.stack == ExecBranches(crypto, cs, bs, true, first, s).value.stack
  {
    var pushed, s := Machine(stack + [v], [], 1, 0, 0, 0), Machine(stack, [], 2, 0, 1, 0);
    var first := (ScriptNumbers.Decode(v) != 0) != notif;
    assert Drop(stack + [v], 1) == stack;
    assert PopTest(notif, true, Charge(IfChunk(notif), pushed).value) == Ok(Test(first, s));
    var ended := ExecBranches(crypto, cs, bs, true, first, s);
    if ended.Ok? {
      ChargeCounts(Op(OP_ENDIF), ended.value);
    }
    hide PopTest, ScriptNumbers.Decode;
  }

  lemma BranchesExec(
    crypto: Crypto, cs: seq<Chunk>, a: Block, b: Block, first: bool, s: Machine) returns (n: nat)
    requires Proper(a) && Proper(b) && s.altStack == [] && s.pc == 2 && s.hashStart == 0 && s.checks == 0
    requires ExecBranches(crypto, cs, Else(a, Last(b)), true, first, s).Ok?
    ensures var left := ExecBranches(crypto, cs, Else(a, Last(b)), true, first, s).value.stack;
            if first then Leaves(crypto, cs, a, s.stack, 2, n, left)
            else Leaves(crypto, cs, b, s.stack, |Flatten(a)| + 3, n, left)
  {
    hide Charge, Act, Flatten;
    var done := Exec(crypto, cs, a, first, s).value;
    ExecAdvances(crypto, cs, a, first, s);
    ChargeCounts(Op(OP_ELSE), done);
    var turned := PassMark(Op(OP_ELSE), done).value;
    assert ExecBranches(crypto, cs, Last(b), true, !first, turned) == Exec(crypto, cs, b, !first, turned);
    if first {
      n := s.opCount;
      assert s == Machine(s.stack, [], 2, 0, n, 0);
      OffTouchesNothing(crypto, cs, b, turned);
    } else {
      n := turned.opCount;
      OffTouchesNothing(crypto, cs, a, s);
      assert turned == Machine(s.stack, [], |Flatten(a)| + 3, 0, n, 0);
    }
  }
}
