# Verified model of the node's consensus core

A Dafny 4.11 model of the parts of this Bitcoin node that decide what it believes: the
block tree and its reorganizations, the script machine, the consensus arithmetic, the wire
codecs and stream reassembly, block locators and base58. `dafny verify dfyconfig.toml`
checks everything.

Code that works step by step is modelled as methods and classes (`BlockChain.Chain`,
`Connection.Receiver`, `Interpreter.ScriptInterpreter`, `Scripts.Script`, `Wire.Parser`,
`Transactions.Transaction`, and the loops). Each is proved equal to a specification
function, and the properties are proved about those functions, over all inputs and all runs.

| Files | What they model |
|---|---|
| `BlockTree`, `BlockChain`, `Arrivals`, `ChainInvariant`, `ActiveChain`, `Drain`, `Delivery`, `ChainOrder`, `ParentsFirst`, `LostOrphan` | blocks arriving at the chain: fork search, orphans, the work queue, side chains, reorganizations, orders of delivery |
| `Interpreter`, `Opcodes`, `Payments`, `Conditionals`, `Limits`, `MultiSig`, `ScriptNumbers`, `Scripts` | the script machine, what its opcodes and the standard scripts do, its number codec and its chunk codec |
| `ChainRules`, `Compact`, `MedianTime`, `Merkle` | difficulty, timestamps, Merkle trees |
| `Connection`, `Transactions`, `SignatureHash`, `Wire` | framing, the transaction codec, signed bytes, varints |
| `Locator`, `Storage`, `Base58` | block locators and lookups, base58 |
| `Bytes`, `Outcomes` | byte strings as numbers, results |

What is abstract: `twoSha256` and the other hashes are function parameters, assumed injective
only where a lemma says so; `checkSig` is a predicate parameter; verification of a block is a
verdict that each processing step receives, whatever it may be; storage is a map; a `Step`
callback chain is sequential code; big numbers are integers. A run of the chain is any list of
deliveries and processing steps, in any order. Peer and network input is arbitrary bytes.

Where the code does not do what it is documented to do, the model follows the code, and the
deviation is a result:

- Counts and lengths of exactly 65536 are written as 0 (`1<<16` is compared with `<=`), and the
  5-byte form is never written, because `1<<32` is 1 (`Wire.VarIntRoundTrip`).
- `findAndDelete` skips the chunk behind a deleted one (`Scripts.DeleteIsComplete`).
- The "anyone can pay" mask is the decimal number 80: the hash types that leave other inputs open
  are those with bit 4 or 6, and the protocol's flag 0x80 has no effect
  (`SignatureHash.OthersIgnoredIff`, `SignatureHash.StandardFlagHasNoEffect`).
- The multi-signature matcher keeps a key in play after it verified a signature
  (`MultiSig.RepeatedSignatureAccepted`, `MultiSig.MOfNIff`).
- Timestamps are sorted as text, so the median time past can decrease; exactly when is
  `MedianTime.SortedRanges`.
- A complete frame with a bad checksum is never dropped, and the connection delivers nothing
  from it on (`Connection.WrongChecksumBlocks`).
- An orphan can be listed twice as the head of its chain; it is then processed twice, and the
  second time an active block is saved as an inactive one
  (`ActiveChain.ReverseDeliveryLosesTheFlags`). The flags are right throughout a run exactly when
  that does not happen (`ActiveChain.ActiveRunIff`), which parents-first delivery ensures
  (`ParentsFirst.ParentsFirstActive`).
- The index of recent blocks drops a hash together with its oldest list entry, also when a newer
  entry of the same hash was just made; the block is then not recognized when it is delivered
  again (`Arrivals.ForgottenRun`; exactly when is `Arrivals.RedeliveryIff`).
- A delivered block of a tree can be lost, in two ways: the orphans listed below a block replace its
  children (`LostOrphan.ForkLosesABlock`), or a child is placed behind a stored block that was
  processed again and stays indexed (`LostOrphan.ParkLosesABlock`). A run loses nothing at any
  time exactly when no step does either (`Delivery.RunIff`), and then the order of delivery does
  not matter, whichever set of blocks verification rejects (`Delivery.RunOutcome`). A lost block
  stays lost (`Delivery.GoneForever`). One chain loses nothing in any order
  (`ChainOrder.OrderIndependence`).

## Model

| member | source | states |
|---|---|---|
| `BlockTree.FindForkFrom` | lib/blockchain.js:861-915 | the walk with its two accumulated lists is the specified walk, on any store; it terminates |
| `BlockTree.ForkFound` | lib/blockchain.js:861-915 | on any two blocks of a tree with consistent heights the walk succeeds, and its lists are exactly the disjoint parts of the two branches above the block it ends at |
| `BlockTree.LowestCommonAncestor` | lib/blockchain.js:861-915 | a block lies on both branches exactly when it lies on the branch of the block found |
| `BlockTree.PathHeights` | lib/schema/block.js:220-223 | heights fall strictly along a path, so it has no repeats |
| `BlockChain.Chain.constructor` | lib/blockchain.js:1169-1249 | a chain starts with genesis as its top and with empty indexes |
| `BlockChain.Chain.AddBlock` | lib/blockchain.js:374-425 | a block is queued unless it is being connected or was recently connected; nothing else changes (what that test is for is `Arrivals.RedeliveryIff` and `Arrivals.RememberedForTen`) |
| `BlockChain.Chain.ProcessNext` | lib/blockchain.js:434-696 | taking a block off the queue and processing it gives exactly the specified next state, in every mode and for every verdict, and keeps the orphan lists linked |
| `BlockChain.Chain.PrepareStep` | lib/blockchain.js:438-458 | the block is indexed; orphans waiting for it become its children and it is listed in their place |
| `BlockChain.Chain.RemoveHeads` | lib/blockchain.js:1227-1241 | splicing the heads out one by one removes exactly the list under their parent |
| `BlockChain.Chain.SetRecentBlock` | lib/blockchain.js:1251-1271 | the loop drops the oldest entries above the limit |
| `BlockChain.Chain.ConnectMain` | lib/blockchain.js:473-584 | a block on the top becomes the top and its children are queued first; bad transactions undo the top |
| `BlockChain.Chain.ConnectSide` | lib/blockchain.js:473-584 | a side block is saved inactive, or reorganizes the chain when it has more work; its children are queued last |
| `BlockChain.Chain.Reorganize` | lib/blockchain.js:917-1122 | the blocks above the fork are saved inactive, the new branch active, and the new tip is the top; without a fork nothing changes |
| `BlockChain.ProcessLinked` | lib/blockchain.js:1169-1241 | every step keeps orphans listed under their own parent, with no empty list |
| `BlockChain.ProcessHolds` | lib/blockchain.js:434-696 | a step puts no block into the queue or the indexes that was not there or being processed |
| `Arrivals.RedeliveryIff` | lib/blockchain.js:374-398 | the block just processed, delivered again, changes nothing exactly when it waits as an orphan, or was accepted and is not the oldest of ten listed as recent; a rejected one is queued again |
| `Arrivals.StoredIsIgnored` | lib/blockchain.js:390-398 | a block stored for the first time, and not listed as recent before, is ignored when it is delivered again |
| `Arrivals.RecentBounded` | lib/blockchain.js:1265-1270 | at every time of every run at most ten hashes are listed as recent |
| `Arrivals.RememberedForTen` | lib/blockchain.js:390-398 | in every run a block set as recent is ignored when delivered again while fewer than ten others were set since, and is queued again once the tenth is |
| `Arrivals.AcceptedIsSet` | lib/blockchain.js:698-726 | accepting a block that was not listed before starts such a run |
| `Arrivals.ForgottenAtOnce` | lib/blockchain.js:1251-1270 | a block rejected for its transactions and accepted after nine others is dropped from the index by its own older entry, and is queued again when delivered |
| `Arrivals.ForgottenRun` | lib/blockchain.js:1251-1270 | eleven deliveries, each processed at once, after which a stored block is queued again when it is delivered |
| `Arrivals.FirstComeFirstServed` | lib/blockchain.js:420-424 | new blocks are queued in the order of their delivery, behind all others |
| `Arrivals.WaitingServed` | lib/blockchain.js:552-572 | blocks that wait for a block on the top are queued before all others, those that wait for a side block after all others, and none when it is rejected |
| `Arrivals.WaitsBehindOthers` | lib/blockchain.js:621-693 | a block that has to wait is listed last, below its parent or below the unknown hash |
| `ChainInvariant.SaveAllEffect` | lib/blockchain.js:936-1097 | saving a list of fitting blocks keeps the tree, sets exactly their flags and touches no other block |
| `ChainInvariant.ReorganizedEffect` | lib/blockchain.js:917-1122 | from any state of the invariant a fork is found and both saving passes keep the tree and set exactly the flags of their lists |
| `ChainInvariant.ReorgKeeps` | lib/blockchain.js:917-1122 | after a reorganization the tree holds one new block at most and none has more work than the new tip |
| `ChainInvariant.MainKeeps` | lib/blockchain.js:698-710 | extending the top keeps the invariant, whatever the verdict |
| `ChainInvariant.SideKeeps` | lib/blockchain.js:518-526 | a side block keeps the invariant, with or without a reorganization |
| `ChainInvariant.ProcessKeeps` | lib/blockchain.js:434-696 | every processing step keeps it, for every block and verdict: stored blocks form a tree with consistent heights and work, the top and the recent blocks are stored, no stored block has more work than the top |
| `ActiveChain.EveryRun` | lib/blockchain.js:374-696 | the invariant holds in every run: any deliveries, orphans, duplicates, rejections and reorganizations |
| `ActiveChain.TopMoves` | lib/blockchain.js:518-526 | the top changes only to the processed block, which extends it or has strictly more work; among equals the earlier top stays |
| `ActiveChain.MainActive` | lib/blockchain.js:698-710 | extending the top keeps the active blocks equal to the path to the top |
| `ActiveChain.SideActive` | lib/blockchain.js:712-726 | saving a side block keeps the flags right exactly when the block was not stored as active |
| `ActiveChain.ReorgActive` | lib/blockchain.js:917-1122 | after a reorganization exactly the new branch is active |
| `ActiveChain.ActiveIff` | lib/blockchain.js:434-696 | from right flags, a step keeps them right exactly when it does not accept an active stored block again as a side block |
| `ActiveChain.ActiveInRun` | lib/blockchain.js:374-696 | in every run without such a step, exactly the path from genesis to the top is active |
| `ActiveChain.ActiveRunIff` | lib/blockchain.js:374-696 | the active blocks are the path to the top at every time of a run exactly when the run has no such step |
| `ActiveChain.NewBlocksNeverDeactivate` | lib/blockchain.js:434-696 | a run that processes only blocks not stored yet has no such step |
| `ActiveChain.ReverseDeliveryLosesTheFlags` | lib/blockchain.js:443-454 | three blocks delivered in reverse order end with the right top, but it and its parent are stored as inactive |
| `Drain.ProcessAddsKids` | lib/blockchain.js:552-572 | a step adds to the queue only children of the processed block |
| `Drain.TickBelow` | lib/blockchain.js:552-598 | a step lowers the counts of queued blocks by rank, lexicographically |
| `Drain.QueueDrains` | lib/blockchain.js:594-601 | from any linked state the queue empties within a bounded number of steps, whatever the verdicts |
| `Drain.EveryRunDrains` | lib/blockchain.js:374-603 | so it does after any run that delivers blocks without hash cycles |
| `Delivery.StepIff` | lib/blockchain.js:434-696 | from a state where every delivered block that is not rejected is stored, queued or waiting below a block that is not stored, for blocks of any tree and any set of rejected ones, a step keeps that exactly when it neither overwrites such a waiting child nor places such a block behind a stored one |
| `Delivery.PlacedPending` | lib/blockchain.js:605-696 | once a block is prepared without loss, placing it loses nothing exactly when it is not a block yet to be stored that is placed behind a stored parent |
| `Delivery.OverwrittenGone` | lib/blockchain.js:443-454 | a child overwritten by the list below its parent is stored nowhere, queued nowhere and waits nowhere |
| `Delivery.StepGone` | lib/blockchain.js:434-696 | no step that processes another block, with any verdict, brings a lost block back |
| `Delivery.ProcessStores` | lib/blockchain.js:605-696 | only a block that finds a stored parent and is accepted is stored, and then its children are queued |
| `Delivery.RunHeld` | lib/blockchain.js:374-696 | in every run over a tree only delivered blocks are queued, indexed or stored |
| `Delivery.BadNeverStored` | lib/blockchain.js:461-550 | in such a run over a tree no block that verification rejects is ever stored |
| `Delivery.RunIff` | lib/blockchain.js:374-696 | a run over a tree, each block delivered at most once, in which verification rejects a fixed set of blocks, loses none of the others at any time exactly when none of its steps loses one |
| `Delivery.RunOutcome` | lib/blockchain.js:374-696 | after such a run, with the queue empty, the stored blocks are exactly the tips of delivered branches without a rejected block, and the top is the tip of one that no other outweighs |
| `Delivery.OrderDoesNotMatter` | lib/blockchain.js:374-696 | two such runs over the same blocks with the same rejected ones end with the same blocks stored and the same work at the top |
| `Delivery.GoneForever` | lib/blockchain.js:374-696 | a lost block stays lost in every continuation of a run over a tree, which delivers it no second time: never stored, queued or listed again |
| `Delivery.LossIsFinal` | lib/blockchain.js:374-696 | so a block that is lost at any time of a run is never stored, and when its parent is, the final state is not the outcome of `RunOutcome` |
| `Delivery.OverwriteIsFinal` | lib/blockchain.js:443-454 | a converse of `RunOutcome`: a step that overwrites a child of a block that is stored in the end rules that outcome out |
| `Delivery.TreeReachesOutcome` | lib/blockchain.js:374-696 | after every run over a tree, processing for long enough empties the queue, whatever the verdicts, and leads to that outcome if no step loses a block |
| `LostOrphan.ForkLosesABlock` | lib/blockchain.js:443-454 | five blocks of a tree, each processed on arrival and accepted: one is neither stored nor listed anywhere, and is not taken again |
| `LostOrphan.ParkLosesABlock` | lib/blockchain.js:667-693 | a chain of eleven, then a second child of its second block: it stays behind that stored block and is not taken again |
| `ParentsFirst.ParentsFirstRun` | lib/blockchain.js:374-696 | when parents are delivered first and each block once, every block is new when processed and no step loses one, whatever the verdicts |
| `ParentsFirst.ParentsFirstActive` | lib/blockchain.js:374-696 | so the active blocks are the path to the top |
| `ParentsFirst.ParentsFirstOutcome` | lib/blockchain.js:374-696 | and, when a fixed set of blocks is rejected, exactly the delivered branches without one of them are stored in the end |
| `ChainOrder.ChainStep` | lib/blockchain.js:434-696 | over one chain each step extends the connected part by the next block or leaves it, and loses nothing |
| `ChainOrder.ChainRun` | lib/blockchain.js:374-696 | so no run over one chain loses a block, in whatever order it delivers |
| `ChainOrder.OrderIndependence` | lib/blockchain.js:374-696 | when all blocks of a chain were delivered once, in any order and interleaved with processing in any way, and the queue is empty, the top is the last block and exactly the chain is stored |
| `ChainOrder.AnyOrderReachesTheTip` | lib/blockchain.js:374-696 | from any such run, processing the queue does empty it and leads to that top |
| `Interpreter.StepAdvances` | lib/scriptinterpreter.js:61 | every step consumes one chunk |
| `Interpreter.MultiSigOperands` | lib/scriptinterpreter.js:610-635 | accepted operands have at most 20 keys, no more signatures than keys, and stay within the operation count; all popped items are accounted for |
| `Interpreter.ScriptInterpreter.Evaluate` | lib/scriptinterpreter.js:19-723 | the step loop succeeds exactly when the specified run does, with its stack |
| `Interpreter.ScriptInterpreter.GetResult` | lib/scriptinterpreter.js:871-877 | the truth of the top item; an empty stack is an error |
| `Interpreter.Verify` | lib/scriptinterpreter.js:879-908 | both scripts run on one stack, and the result is the truth of what they leave |
| `Payments.KeyHashPayment` | lib/scriptinterpreter.js:557-606 | signature and key against DUP HASH160 h EQUALVERIFY CHECKSIG: an error unless the key has hash h, and then true exactly when the signature is good for the key and the script without the signature |
| `Payments.SeparatedPayment` | lib/scriptinterpreter.js:552-584 | with a code separator before CHECKSIG only what follows it is signed |
| `Payments.MultiKeyPayment` | lib/scriptinterpreter.js:608-707 | 0 and signatures against m keys n CHECKMULTISIG, up to 20 keys: never an error, and true exactly when a matching of the signatures to the keys exists, both last one first |
| `Payments.VerifyingChecks` | lib/scriptinterpreter.js:588-594 | the VERIFY form of a signature opcode does what the plain one and VERIFY do |
| `Payments.LastDeleted` | lib/scriptinterpreter.js:651-653 | signatures are deleted from the signed script one after the other |
| `Payments.NoneDeleted` | lib/scriptinterpreter.js:651-653 | a script without the signatures is signed as it is |
| `Payments.TopItemDecides` | lib/scriptinterpreter.js:871-908 | of what both scripts leave the top item decides; an empty stack is an error |
| `Opcodes.PickAndRoll` | lib/scriptinterpreter.js:258-271 | PICK copies and ROLL moves the item that has n others above it |
| `Opcodes.CopyingOpcodes` | lib/scriptinterpreter.js:180-243 | DUP, OVER, 2DUP, 3DUP and 2OVER do what small numbers and PICK do, on every stack |
| `Opcodes.MovingOpcodes` | lib/scriptinterpreter.js:206-284 | SWAP, ROT, 2SWAP and 2ROT do what small numbers and ROLL do, on every stack |
| `Opcodes.DerivedOpcodes` | lib/scriptinterpreter.js:174-292 | NIP is SWAP DROP, TUCK is SWAP OVER, 2DROP is DROP DROP |
| `Opcodes.TrueItems` | lib/scriptinterpreter.js:151-227 | VERIFY passes and IFDUP copies exactly the items that are not zero |
| `Opcodes.Equality` | lib/scriptinterpreter.js:377-401 | EQUAL leaves a true item exactly for equal bytes, and EQUALVERIFY fails otherwise |
| `Opcodes.VerifyForms` | lib/scriptinterpreter.js:377-516 | EQUALVERIFY is EQUAL VERIFY and NUMEQUALVERIFY is NUMEQUAL VERIFY, on every stack |
| `Opcodes.AltStack` | lib/scriptinterpreter.js:163-172 | TOALTSTACK and FROMALTSTACK move one item over and back |
| `Opcodes.Sizes` | lib/scriptinterpreter.js:229-342 | DEPTH and SIZE push the numbers of items and bytes |
| `Opcodes.OneNumber` | lib/scriptinterpreter.js:403-424 | the opcodes on one number, by the number the result stands for; operands above four bytes fail |
| `Opcodes.TwoNumbers` | lib/scriptinterpreter.js:426-516 | sums, comparisons, minimum and maximum, by the numbers operands and result stand for |
| `Opcodes.WithinRange` | lib/scriptinterpreter.js:518-528 | WITHIN is true from the low bound up to but not at the high one |
| `Opcodes.OthersFail` | lib/scriptinterpreter.js:160-718 | RETURN and unknown opcodes fail on every stack |
| `Conditionals.FlatRunsBlock` | lib/scriptinterpreter.js:40-158 | inside any open branches, running over a block's chunks does what executing the block recursively does, and goes on behind it |
| `Conditionals.FlatRefinesTree` | lib/scriptinterpreter.js:40-158 | a well-nested script, with any number of ELSE per IF, gives the same state or the same failure as recursive execution of its taken branches |
| `Conditionals.IfElse` | lib/scriptinterpreter.js:124-149 | a successful run of v IF a ELSE b ENDIF leaves what a alone leaves when v is not zero, else what b leaves; NOTIF the other way round |
| `Conditionals.OffTouchesNothing` | lib/scriptinterpreter.js:92-94 | a branch that is not taken leaves the stacks, the separator and the checks alone |
| `Conditionals.ExecAdvances` | lib/scriptinterpreter.js:61 | recursive execution passes over every chunk of a block, taken or not |
| `Conditionals.BalancedIffNested` | lib/scriptinterpreter.js:124-149 | the marks of a script balance exactly when it is the flattening of a tree |
| `Conditionals.SuccessIsBalanced` | lib/scriptinterpreter.js:42-47 | what is left of a run that succeeds balances the open branches |
| `Conditionals.UnnestedFails` | lib/scriptinterpreter.js:42-149 | a script that is not well nested fails on every stack |
| `Limits.StepBounded` | lib/scriptinterpreter.js:63-69 | no step leaves the limits, though the signature opcodes skip the size check |
| `Limits.BoundedThroughout` | lib/scriptinterpreter.js:557-707 | at every step boundary of every evaluation from at most 1000 items the bounds hold, for the stacks, the operations and the checks made so far |
| `Limits.BoundedLimits` | lib/scriptinterpreter.js:63-69 | the bounds mean at most 1000 items on both stacks, 201 operations and 373 signature checks |
| `Limits.LimitsAreExact` | lib/scriptinterpreter.js:30-714 | exactly up to 201 operations, 1000 items, 520 bytes of data and 10000 bytes of script are allowed, and pushes are no operations |
| `Limits.KeysAreLimited` | lib/scriptinterpreter.js:610-613 | a multi-signature check with a negative count of keys or more than 20 fails |
| `Limits.DisabledFails` | lib/scriptinterpreter.js:71-90 | every script with a disabled opcode fails, in a taken branch or not |
| `Limits.EvalChecksBounded` | lib/scriptinterpreter.js:557-706 | every evaluation from at most 1000 items makes at most 373 signature checks in all, those of a failing last step included |
| `Limits.EvalTwoChecksBounded` | lib/scriptinterpreter.js:725-738 | both scripts of an input make at most 746, whichever of them fails |
| `Limits.StepChecksCounted` | lib/scriptinterpreter.js:557-698 | the count kept at step boundaries is that of the checks made |
| `Limits.EvalTwoBounded` | lib/scriptinterpreter.js:725-738 | the second script of an input starts and ends within the bounds too |
| `MultiSig.CheckMultiSig` | lib/scriptinterpreter.js:648-694 | the loop with its counters decides as the specified matcher and makes exactly its checks; indices stay in range |
| `MultiSig.ChecksBound` | lib/scriptinterpreter.js:648-694 | at most m + n - 1 checks are made |
| `MultiSig.ChecksNeeded` | lib/scriptinterpreter.js:656-700 | acceptance takes at least a check per signature, refusal a failed one for more keys than can be spared |
| `MultiSig.AcceptsSound` | lib/scriptinterpreter.js:648-694 | acceptance yields a non-decreasing map f from signatures to keys, all pairs verifying, with f(i) - i at most n - m |
| `MultiSig.AcceptsComplete` | lib/scriptinterpreter.js:648-694 | whenever such a map exists the greedy matcher accepts |
| `MultiSig.AcceptsIff` | lib/scriptinterpreter.js:648-694 | it accepts exactly when such a map exists |
| `MultiSig.StrictMatchAccepted` | lib/scriptinterpreter.js:648-694 | every order-preserving M-of-N signing is accepted |
| `MultiSig.AcceptsIsMOfN` | lib/scriptinterpreter.js:648-694 | when no key verifies two of the signatures, acceptance is exactly order-preserving M-of-N |
| `MultiSig.RepeatedSignatureAccepted` | lib/scriptinterpreter.js:659-665 | one signature listed twice passes a 2-of-2 check |
| `MultiSig.MOfNIff` | lib/scriptinterpreter.js:648-694 | the key lists for which the matcher decides M-of-N on all signature lists are exactly those where a signature good for one key is good for all later ones |
| `ScriptNumbers.DecodeOfEncode` | lib/scriptinterpreter.js:837-869 | every integer is read back from its bytes |
| `ScriptNumbers.DecodeIsSignMagnitude` | lib/scriptinterpreter.js:816-836 | a byte string is its little-endian magnitude, with the sign in the top bit of its last byte |
| `ScriptNumbers.EncodeShortest` | lib/scriptinterpreter.js:837-869 | no shorter byte string stands for the same number |
| `ScriptNumbers.EncodeUnique` | lib/scriptinterpreter.js:837-869 | and no other one of that length |
| `ScriptNumbers.BigintToBuffer` | lib/scriptinterpreter.js:837-869 | the byte operations, with the sign set in place, give that form |
| `ScriptNumbers.CastBigint` | lib/scriptinterpreter.js:816-836 | operands above 4 bytes are refused, others stand for their sign-magnitude number |
| `ScriptNumbers.CastOfEncode` | lib/scriptinterpreter.js:816-869 | an encoded number is accepted as an operand exactly when its magnitude is at most 2^31 - 1, and then unchanged |
| `ScriptNumbers.CastBool` | lib/scriptinterpreter.js:801-812 | true exactly when the number is not zero, for any length |
| `ScriptNumbers.DecodeZero` | lib/scriptinterpreter.js:801-812 | the zeros are the all-zero strings, with or without a sign bit in the last byte |
| `Scripts.Script.ParseBuffer` | lib/script.js:25-49 | the parsing loop gives the specified chunks or fails when they do not exist |
| `Scripts.ChunkReadsBack` | lib/script.js:25-49 | one chunk survives printing exactly when it is canonical |
| `Scripts.PushBytes` | lib/script.js:177-200 | the bytes of a push in each of its four forms |
| `Scripts.PushRead` | lib/script.js:25-51 | what the reader takes from any bytes: how many length bytes follow which opcode, and when it fails |
| `Scripts.ParseOfPrint` | lib/script.js:25-49 | parsing a printed list of pushes below 2^32 bytes gives it back exactly when all pushes are non-empty and all opcodes are 0 or 79 to 255 |
| `Scripts.Reprint` | lib/script.js:277-302 | printing a parsed script is never longer, changes only empty pushes into opcode 0, and is idempotent |
| `Scripts.Script.WriteOp` | lib/script.js:167-175 | appends the opcode and keeps the buffer equal to the printed chunks |
| `Scripts.Script.WriteBytes` | lib/script.js:177-196 | appends the push and keeps the buffer equal to the printed chunks |
| `Scripts.Script.ChunksToBuffer` | lib/script.js:277-302 | the printing loop concatenates the chunks' bytes |
| `Scripts.Script.FindAndDelete` | lib/script.js:203-227 | the splicing loop leaves the specified chunks and refreshes the buffer if anything was deleted |
| `Scripts.DeleteIsComplete` | lib/script.js:203-227 | every occurrence is deleted exactly when no two are neighbours |
| `Scripts.DeleteKeepsOthers` | lib/script.js:203-227 | nothing else is deleted, and something is whenever the chunk occurs |
| `Scripts.DeleteIdempotent` | lib/script.js:203-227 | without neighbours a second deletion finds nothing; if a second one finds nothing the first was complete |
| `Merkle.GetMerkleTree` | lib/schema/block.js:129-168 | the loops over one array build the levels of the recursive definition, one after the other, a last hash paired with itself |
| `Merkle.PushLevel` | lib/schema/block.js:156-163 | the inner loop appends exactly the level above the current one |
| `Merkle.CalcMerkleRoot` | lib/schema/block.js:170-173 | the last entry is the recursive root |
| `Merkle.RootIsLast` | lib/schema/block.js:170-173 | the last of all levels' hashes is the root |
| `Merkle.RootOfHalves` | lib/schema/block.js:156-163 | the root of a full tree is the pair of the roots of its halves, left one first |
| `Merkle.EqualRootsIff` | lib/schema/block.js:129-173 | with an injective pair hash, trees of equal height have equal roots exactly when their leaves, padded as the tree repeats them, are equal |
| `Merkle.RootCommits` | lib/schema/block.js:129-173 | lists of equal length have equal roots exactly when they are equal |
| `Merkle.OddListCollides` | lib/schema/block.js:159 | a list of odd length shares its root with the list that repeats its last entry |
| `Compact.EncodeDiffBits` | lib/util.js:276-294 | the byte operations give size and top three bytes, in 32-bit arithmetic |
| `Compact.DecodeBytes` | lib/util.js:255-265 | in bytes, the target is the last three bytes followed by as many zero bytes as the first says, less three |
| `Compact.EncodeRoundsDown` | lib/util.js:255-294 | decoding an encoded target gives no more than it, and less by under one part in 2^15 |
| `Compact.EncodeMonotone` | lib/util.js:276-294 | larger targets have larger compact numbers |
| `Compact.ReencodeIff` | lib/util.js:255-294 | a compact number is given back by decoding and encoding exactly when its mantissa is full and its sign bit free |
| `MedianTime.BeforeIsNumeric` | lib/schema/block.js:379-380 | text order is numeric order between numbers of as many digits |
| `MedianTime.SortPermutes` | lib/schema/block.js:379-380 | the sort puts exactly the given timestamps into text order, whatever their digit counts |
| `MedianTime.GetMedianTimePast` | lib/schema/block.js:355-387 | on any store, the entry in the middle of the sorted timestamps of the blocks the height index gives for the last eleven heights |
| `MedianTime.MedianOnChain` | lib/schema/block.js:355-387 | when the index follows the block's chain, those are its last eleven timestamps, or all when there are fewer |
| `MedianTime.MedianRank` | lib/schema/block.js:379-383 | the median is at least v exactly when at most half of the window is below v |
| `MedianTime.MedianOfEleven` | lib/schema/block.js:355-387 | of the last eleven timestamps at most five are below the median and at least six are not above it |
| `MedianTime.MedianStep` | lib/schema/block.js:406-421 | a block that passes the timestamp check does not lower the median, growing windows included |
| `MedianTime.MedianNeverDecreases` | lib/schema/block.js:355-421 | along a chain of such blocks the median time past never decreases, from genesis on |
| `MedianTime.BoundaryDecreases` | lib/schema/block.js:379-380 | wherever timestamps gain a digit, a chain of three checked blocks lowers the median |
| `MedianTime.LongerText` | lib/schema/block.js:379-380 | a number of one digit more sorts before the last number of a digit count exactly when it is below ten times it |
| `MedianTime.LoneFirstDecreases` | lib/schema/block.js:355-421 | from ten times it on, a chain of four checked blocks lowers the median |
| `MedianTime.SortedRanges` | lib/schema/block.js:355-421 | in a range of timestamps the median never decreases along any checked chain if and only if the ends have as many digits, or only lo is shorter and hi is below ten times lo |
| `ChainRules.GetNextWork` | lib/schema/block.js:251-351 | the branches and clamps give the specified bits, on both networks |
| `ChainRules.VerifyChild` | lib/schema/block.js:389-424 | a child passes exactly when it has those bits and is later than the median time past |
| `ChainRules.AcceptedExtends` | lib/schema/block.js:389-424 | a verified child extends an accepted chain to an accepted chain |
| `ChainRules.PeriodConstant` | lib/schema/block.js:266-311 | along every accepted chain the bits are constant within each period of 2016 blocks |
| `ChainRules.BoundaryMove` | lib/schema/block.js:312-344 | at a boundary the target moves by at most a factor 4 either way, apart from integer division, the limit, and rounding by less than one part in 2^15 |
| `ChainRules.Retarget` | lib/schema/block.js:312-344 | at a boundary the new target is the old one times the measured seconds, kept within 302400 and 4838400, over 1209600, or the limit, less than one part in 2^15 below; after exactly 1209600 seconds canonical bits stay |
| `ChainRules.TargetBelowLimit` | lib/schema/block.js:335-337 | no accepted block has a target above genesis's |
| `ChainRules.LookBack` | lib/schema/block.js:282-305 | the test network's look-back stops at the last block that is genesis, on a period boundary, or harder than the minimum |
| `ChainRules.TestNetwork` | lib/schema/block.js:268-308 | on the test network a block more than 1200 seconds late may have minimum difficulty, any other has that of the last block that is not in a run of such |
| `ChainRules.WorkAntitone` | lib/schema/block.js:93-96 | a smaller target is at least as much work, and every target below 2^256 is some work |
| `ChainRules.WorkTimesTarget` | lib/schema/block.js:93-96 | the work is how often target + 1 goes into 2^256 |
| `Wire.DecodeLEu` | lib/parser.js:60-66 | the accumulating loop computes the little-endian number of any byte string |
| `Wire.Parser.Buffer` | lib/parser.js:10-15 | takes the next bytes and moves past them, or fails at the end |
| `Wire.Parser.WordLE` | lib/parser.js:95-106 | takes the next bytes as a little-endian number |
| `Wire.Parser.VarInt` | lib/connection.js:533-549 | reads a count in each of its four forms |
| `Wire.VarIntReadsBack` | lib/binary.js:9-26 | reading a written count gives it back and leaves the bytes behind it; 65536 comes back as 0 |
| `Wire.VarIntRoundTrip` | lib/binary.js:9-26 | a 64-bit count round-trips exactly when it is not 65536 |
| `Wire.VarIntBytes` | lib/binary.js:9-26 | the bytes of a written count in each form |
| `Wire.VarIntRead` | lib/connection.js:533-549 | what the reader takes from any bytes |
| `Wire.WriteAllConcat` | lib/schema/transaction.js:134-151 | items are written in order |
| `Wire.CountedListReadsBack` | lib/connection.js:565-586 | a counted list survives writing and reading exactly when its count and every item do |
| `Transactions.ParseTx` | lib/connection.js:556-595 | the parsing loops read the specified transaction, and its buffer is exactly the consumed bytes |
| `Transactions.TxRoundTrip` | lib/schema/transaction.js:134-151 | parsing a serialized transaction followed by any bytes gives it back and consumes exactly its bytes if and only if no count or script length is 65536 |
| `Transactions.OneInOneOut` | lib/schema/transaction.js:134-161 | a transaction with one input, one output and short scripts, byte by byte |
| `Transactions.WritePrefixFree` | lib/schema/transaction.js:134-161 | no transaction's bytes begin another's, so the hashed bytes determine the transaction, 65536 included |
| `Transactions.StandardizedSize` | lib/schema/transaction.js:518-560 | the reported size is the length of the serialized bytes |
| `Transactions.Transaction.Serialize` | lib/schema/transaction.js:134-151 | the builder writes the transaction's bytes and caches them |
| `Transactions.Transaction.GetBuffer` | lib/schema/transaction.js:153-157 | the bytes it was parsed from when there are any, else the serialized ones |
| `SignatureHash.SignedIns` | lib/schema/transaction.js:441-471 | the input loop writes the masked inputs |
| `SignatureHash.SignedOuts` | lib/schema/transaction.js:473-503 | the output loop writes the masked outputs, or fails when mode SINGLE has no matching output |
| `SignatureHash.HashForSignature` | lib/schema/transaction.js:410-513 | deletes code separators from the script in place and hashes the bytes of the masked transaction and the hash type; a bad index is an error |
| `SignatureHash.SignedBytes` | lib/schema/transaction.js:410-513 | read back, the signed bytes are a transaction and the hash type as four bytes, least significant first: its version, lock time, inputs and outputs are those asked for, masked as the mode says; errors are exactly a missing input and, in mode SINGLE, a missing output |
| `SignatureHash.PreimageCommits` | lib/schema/transaction.js:410-513 | in every mode two requests hash the same bytes exactly when they mask to the same transaction under the same hash type |
| `SignatureHash.DefaultModeCommits` | lib/schema/transaction.js:450-507 | in the default mode with non-empty scripts, equal bytes are exactly equal version, outpoints, sequences, outputs, lock time, signed index, script and hash type |
| `SignatureHash.EmptyScriptHidesIndex` | lib/schema/transaction.js:456-463 | with an empty script the bytes do not say which input is signed |
| `SignatureHash.NoneModeCommits` | lib/schema/transaction.js:465-475 | in mode NONE outputs and other inputs' sequences are not signed, and the rest is |
| `SignatureHash.SingleModeCommits` | lib/schema/transaction.js:477-502 | in mode SINGLE only the output with the signed index is signed; all inputs are, with their sequences |
| `SignatureHash.AnyoneCanPayCommits` | lib/schema/transaction.js:442-449 | with a bit of the mask 80 set, no other input is signed |
| `SignatureHash.OthersIgnoredIff` | lib/schema/transaction.js:442-449 | the signed bytes never depend on the other inputs if and only if the hash type has a bit of the mask 80 |
| `SignatureHash.StandardFlagHasNoEffect` | lib/schema/transaction.js:408-449 | under hash type 0x81 transactions that spend differently in any input have different signed bytes |
| `Connection.SendMessage` | lib/connection.js:280-317 | a command above 12 bytes is refused, else the frame is written, with a checksum from version 209 on |
| `Connection.FrameOnTheWire` | lib/connection.js:280-317 | the bytes of a frame: magic, padded command, length, from version 209 on the first four bytes of the payload's hash, payload |
| `Connection.FrontFrame` | lib/connection.js:361-405 | a complete frame at the front is delivered, from version 209 on if and only if its bytes 20 to 24 are the first four of the payload's hash; otherwise nothing is delivered or dropped |
| `Connection.ScanMeaning` | lib/connection.js:338-359 | the scan finds the first place where the magic bytes stand; when they stand nowhere all but three bytes are skipped, unless those begin the magic bytes |
| `Connection.GarbageSkipped` | lib/connection.js:338-359 | bytes in front of the first magic bytes are dropped |
| `Connection.Receiver.HandleData` | lib/connection.js:319-330 | an event appends its bytes and processes the buffer, unless the buffer exceeds its limit |
| `Connection.Receiver.ProcessData` | lib/connection.js:332-406 | the scanning loop and the calls to itself deliver the specified messages and keep the specified bytes |
| `Connection.WholeFrame` | lib/connection.js:361-405 | a complete frame is delivered as sent, and the bytes behind it stay |
| `Connection.PartialFrame` | lib/connection.js:332-369 | any proper part of a frame is kept as it is, whatever its checksum |
| `Connection.Reassembly` | lib/connection.js:280-406 | however the bytes of framed messages are split into events, exactly the complete messages arrive, in order, and exactly the unfinished frame stays buffered |
| `Connection.CommandRoundTrip` | lib/connection.js:371 | a command survives padding and trimming exactly when it does not end in NUL |
| `Connection.WholeFrameWith` | lib/connection.js:361-405 | a complete frame with any checksum bytes is delivered if they are right, and otherwise kept with all bytes behind it |
| `Connection.WrongChecksumBlocks` | lib/connection.js:319-406 | frames with any checksum bytes, however split into events: exactly the messages before the first wrong checksum are delivered, and everything from that frame on stays buffered; all are delivered if and only if none is wrong |
| `Connection.BadChecksumSilences` | lib/connection.js:379-389 | from a buffer that starts with a complete frame with a bad checksum nothing is ever delivered and everything is kept |
| `Storage.GetBlockByLocator` | lib/db/leveldb/storage.js:682-701 | the highest active block among the known ones, or none when none is active |
| `Storage.SortOfDescending` | lib/db/leveldb/storage.js:597-602 | blocks asked for with falling heights come back turned around |
| `Locator.LocatorHeights` | lib/blocklocator.js:4-15 | the loop lists the heights top, top - 1, ... in single steps and then doubling ones, down to 1 at least |
| `Locator.HeightListShape` | lib/blocklocator.js:4-15 | the heights fall strictly from the top, and number at most 11 plus the logarithm of the height |
| `Locator.StepsDouble` | lib/blocklocator.js:8-14 | ten single steps, then a step of 2, and each further step is twice the one before |
| `Locator.OvershootBound` | lib/blocklocator.js:8-14 | the best listed height at or below a fork is at most as far below it as the fork is below the top |
| `Locator.CreateLocator` | lib/blocklocator.js:4-33 | on any store, the hashes of the blocks the height index gives for the listed heights, highest first, then genesis |
| `Locator.LocatorOnChain` | lib/blocklocator.js:15-33 | when the index follows our chain, these are its hashes at the listed heights |
| `Locator.LocatorAnswer` | lib/db/leveldb/storage.js:682-701 | any highest active match is a shared block, at most as far below the fork as the fork is below our top |
| `Locator.AskForFork` | lib/blockchainmanager.js:219 | the answer is active at the responder; when our index follows our chain and the responder forks off at height f, it is a shared block at a height g with f - g at most top - f |
| `Base58.Base58Encode` | src/main.cc:84-163 | the division loop, the zero loop and the swaps in one buffer give the specified text |
| `Base58.Base58Decode` | src/main.cc:166-238 | reads any text as specified, white space and errors included |
| `Base58.DecodeOfEncode` | src/main.cc:84-238 | every encoded byte string is decoded to itself, trimmed as the decoder trims |
| `Base58.RoundTripIff` | src/main.cc:216-218 | decoding undoes encoding exactly when the data does not end in a byte of at least 0x80 and a zero |
| `Base58.AlphabetIsLetters` | src/main.cc:81 | the 58 letters, in order |
| `Base58.LastLetter` | src/main.cc:196-211 | the last letter has weight 1, those before it 58 times their own weights |
| `Base58.DecodeOkIff` | src/main.cc:191-203 | decoding succeeds exactly when, behind leading white space, letters of the alphabet are followed by white space only |
| `Base58.EncodeInjective` | src/main.cc:84-163 | two byte strings have the same text exactly when they are equal |

## Left out

- Base58.Base58Encode: asks for a text of less than 100 characters, because the program writes into a buffer of 100 without a check; the lemmas on the codec have no such bound.
- BlockTree.FindForkFrom: a stored parent that is not lower than its child counts as missing, so that the walk ends on any store; in a tree with consistent heights this does not occur. After the error for a new branch without root the program goes on with the walk; the model stops.
- BlockChain.Chain.Reorganize: the path that never calls back when no fork is found leaves the chain stuck; the model keeps the state and goes on. `ChainInvariant.ReorganizedEffect` shows a fork is always found.
- BlockChain.Chain.ProcessNext: takes the outcome of `verifyChild` and `verifyBlock` as a verdict; callbacks, events, transactions and the spent-output index are not modelled, nor are failing storage calls.
- BlockChain.Chain.AddBlock: an idle chain queues a block and then processes it, which the program does in one go; blocks that fail the static checks never reach the queue and are not delivered.
- Connection.Reassembly: one version on both sides, no receive-limit overrun, payloads whose length field is not negative (below 2^31 bytes), commands not ending in NUL. The same holds for `WrongChecksumBlocks`.
- Connection.Receiver.ProcessData: takes a complete frame with a negative length field as unreadable; whether slicing with a negative end throws or gives an empty payload depends on the buffer library, which is not part of the repository. The theorems on streams ask for lengths below 2^31 (`Sendable`), so the case does not occur there.
- Connection.Receiver.HandleData: above the limit the program fails on an undefined variable; the model keeps the bytes and processes nothing, from then on.
- Compact.ReencodeIff: for exponents of at least 3; smaller ones ask the big-number library for a shift by a negative count, which is not part of this model.
- ChainRules.GetNextWork: reads the first block of the period and the look-back from the chain of the asked block; the program asks the height index, which also holds side blocks. At height 0 the program calls back twice; the first result is taken.
- ChainRules.VerifyChild: takes the median over the block's own chain; the program asks the height index. `MedianTime.MedianOnChain` says when the two agree.
- Interpreter.ScriptInterpreter.Evaluate: nothing is claimed about the stack a failed script leaves; signature checks see one script for all keys, while the program deletes code separators from it again before each check.
- Drain.EveryRunDrains: for blocks whose hashes make no cycle, stated as a rank that rises from parent to child.
- MedianTime.MedianStep: for timestamps of one digit count, like the next.
- MedianTime.MedianNeverDecreases: for timestamps of one digit count; `MedianTime.SortedRanges` says exactly in which ranges it holds.
- Locator.AskForFork: bounds the overshoot for stores whose height index follows our chain (the database also writes it for side blocks); the hash the program may put in front of a locator (`fromHash`) is not part of the model.
- Data pushes are never opcodes: JavaScript's coercion of one-byte buffers to numbers in comparisons is not modelled.
- 64-bit numbers are exact; JavaScript rounds those above 2^53.
- Asynchrony: blocks are processed one at a time. `reorganize` clears the processing flag while saving still goes on; interleavings there are not modelled.
- `ConnectingBlockIndex.list` is written but not read by the chain, and left out.
- `checkMerkleRoot`, which ignores its argument and rejects equal roots.
- The height index of the database after side blocks, other storage backends, wallets, signatures, key handling, peers, JSON-RPC and logging.
