/** Block locators: lib/blocklocator.js and the lookup that answers them. */
module Locator {
  import opened Outcomes
  import opened Storage

  function Pow2(n: nat): (p: nat)
    ensures p > n
  {
    if n == 0 then 1 else 2 * Pow2(n - 1)
  }

  /** How far below the top the k-th listed height lies: single steps at first, then doubling ones. */
  function Offset(k: nat): nat {
    if k <= 10 then k else 8 + Pow2(k - 9)
  }

  /** The height loop of `createFromBlockChain`. */
  method LocatorHeights(top: nat) returns (heights: seq<nat>)
    ensures forall k :: 0 <= k < |heights| ==> heights[k] == top - Offset(k) && heights[k] > 0
    ensures top <= Offset(|heights|)
  {
    var height: int := top;
    var step := 1;
    heights := [];
    while height > 0
      invariant height == top - Offset(|heights|)
      invariant step == if |heights| <= 10 then 1 else Pow2(|heights| - 10)
      invariant forall k :: 0 <= k < |heights| ==> heights[k] == top - Offset(k) && heights[k] > 0
      decreases height
    {
      OffsetStep(|heights|);
      heights := heights + [height];
      if |heights| > 10 {
        step := step * 2;
      }
      height := height - step;
    }
  }

  lemma OffsetStep(k: nat)
    ensures Offset(k + 1) - Offset(k) == if k < 10 then 1 else Pow2(k - 9)
    ensures Offset(k + 1) - Offset(k) <= Offset(k) + 1
  {
    if k >= 10 {
      assert Pow2(k + 1 - 9) == 2 * Pow2(k - 9);
      if k == 10 {
        assert Pow2(1) == 2 * Pow2(0);
      }
    }
  }

  /** The heights a locator lists, as the loop's contract gives them. */
  ghost predicate IsHeightList(top: nat, heights: seq<nat>) {
    && (forall k :: 0 <= k < |heights| ==> heights[k] == top - Offset(k) && heights[k] > 0)
    && top <= Offset(|heights|)
  }

  lemma {:induction false} OffsetIncreases(i: nat, j: nat)
    requires i < j
    ensures Offset(i) < Offset(j)
    decreases j
  {
    OffsetStep(j - 1);
    if i < j - 1 {
      OffsetIncreases(i, j - 1);
    }
  }

  /** The list falls strictly and is logarithmically short. */
  lemma HeightListShape(top: nat, heights: seq<nat>)
    requires IsHeightList(top, heights)
    ensures forall i, j :: 0 <= i < j < |heights| ==> heights[i] > heights[j]
    ensures top > 0 ==> heights != [] && heights[0] == top
    ensures |heights| <= 11 || Pow2(|heights| - 11) < top
  {
    forall i, j | 0 <= i < j < |heights|
      ensures heights[i] > heights[j]
    {
      OffsetIncreases(i, j);
    }
    if |heights| > 11 {
      assert heights[|heights| - 1] == top - Offset(|heights| - 1);
      assert Pow2(|heights| - 10) == 2 * Pow2(|heights| - 11);
    }
  }

  /** Ten single steps; then a step of 2, and from there each step is twice the one before. */
  lemma StepsDouble(top: nat, heights: seq<nat>, k: nat)
    requires IsHeightList(top, heights) && k < |heights|
    ensures k <= 10 ==> heights[k] + k == top
    ensures k == 11 ==> heights[k] + 2 == heights[k - 1]
    ensures k >= 12 ==> heights[k - 1] - heights[k] == 2 * (heights[k - 2] - heights[k - 1])
  {
    if k >= 11 {
      OffsetStep(k - 1);
      OffsetStep(k - 2);
      assert Pow2(k - 9) == 2 * Pow2(k - 10);
      assert heights[k] == top - Offset(k) && heights[k - 1] == top - Offset(k - 1);
      assert heights[k - 2] == top - Offset(k - 2);
      assert Pow2(2) == 2 * Pow2(1) && Pow2(1) == 2 * Pow2(0);
    }
  }

  /** The highest listed height at or below f; 0 stands for genesis, which every locator ends with. */
  ghost function Best(heights: seq<nat>, f: nat): (g: nat)
    ensures g <= f && (g == 0 || g in heights)
    ensures forall h :: h in heights && h <= f ==> h <= g
  {
    if heights == [] then 0
    else
      var g := Best(heights[1..], f);
      assert forall h :: h in heights <==> h == heights[0] || h in heights[1..];
      if g < heights[0] <= f then heights[0] else g
  }

  /** The back-off overshoots a fork by no more than the fork's depth. */
  lemma OvershootBound(top: nat, heights: seq<nat>, f: nat)
    requires IsHeightList(top, heights) && f <= top
    ensures f - Best(heights, f) <= top - f
  {
    hide Pow2;
    if heights == [] {
    } else if heights[0] <= f {
      assert heights[0] in heights && heights[0] == top;
    } else {
      CrossingExists(heights, f);
      var k: nat :| k < |heights| && heights[k] > f && (k + 1 == |heights| || heights[k + 1] <= f);
      OffsetStep(k);
      if k + 1 < |heights| {
        assert heights[k + 1] in heights;
      }
    }
  }

  lemma {:induction false} CrossingExists(heights: seq<nat>, f: nat)
    requires heights != [] && heights[0] > f
    ensures exists k: nat :: k < |heights| && heights[k] > f && (k + 1 == |heights| || heights[k + 1] <= f)
  {
    if |heights| == 1 || heights[1] <= f {
      assert heights[0] > f && (0 + 1 == |heights| || heights[0 + 1] <= f);
    } else {
      CrossingExists(heights[1..], f);
      var k: nat :| k < |heights[1..]| && heights[1..][k] > f && (k + 1 == |heights[1..]| || heights[1..][k + 1] <= f);
      assert heights[k + 1] > f && (k + 2 == |heights| || heights[k + 2] <= f);
    }
  }

  // ----- the locator and its answer -----

  /** The hashes at the listed heights of a chain, highest first, and the genesis hash. */
  ghost function LocatorOf(chain: seq<Hash>, heights: seq<nat>): seq<Hash>
    requires chain != [] && forall k :: 0 <= k < |heights| ==> heights[k] < |chain|
  {
    seq(|heights|, k requires 0 <= k < |heights| => chain[heights[k]]) + [chain[0]]
  }

  /** Storage returns the listed blocks lowest first. */
  lemma FetchedBlocks(store: Store, chain: seq<Hash>, top: nat, heights: seq<nat>)
    requires |chain| == top + 1 && HoldsChain(store, chain) && IsHeightList(top, heights)
    ensures var result := BlocksByHeights(store, heights);
            |result| == |heights|
            && forall k :: 0 <= k < |heights| ==> result[|heights| - 1 - k].hash == chain[heights[k]]
  {
    HeightListShape(top, heights);
    KnownOfChain(store, chain, heights);
    var picked := Pick(store, chain, heights);
    SortOfDescending(picked);
    forall k | 0 <= k < |heights|
      ensures BlocksByHeights(store, heights)[|heights| - 1 - k].hash == chain[heights[k]]
    {
      assert picked[k].hash == chain[heights[k]];
    }
  }

  /** The hashes of the blocks the height index gives for the listed heights, highest first. */
  function ListedHashes(store: Store, heights: seq<nat>): seq<Hash> {
    var result := BlocksByHeights(store, heights);
    seq(|result|, k requires 0 <= k < |result| => result[|result| - 1 - k].hash)
  }

  /** `createFromBlockChain` on any store, followed by the push of the genesis hash. */
  method CreateLocator(store: Store, top: nat, genesis: Hash) returns (locator: seq<Hash>)
    ensures exists heights :: IsHeightList(top, heights) && locator == ListedHashes(store, heights) + [genesis]
  {
    var heights := LocatorHeights(top);
    assert IsHeightList(top, heights);
    var result := BlocksByHeights(store, heights);
    locator := [];
    for k := 0 to |result|
      invariant |locator| == k
      invariant forall i :: 0 <= i < k ==> locator[i] == result[|result| - 1 - i].hash
    {
      locator := locator + [result[|result| - 1 - k].hash];
    }
    assert locator == ListedHashes(store, heights);
    locator := locator + [genesis];
  }

  /** When the height index follows our chain, the locator lists its hashes. */
  lemma LocatorOnChain(store: Store, chain: seq<Hash>, top: nat, heights: seq<nat>)
    requires |chain| == top + 1 && HoldsChain(store, chain) && IsHeightList(top, heights)
    ensures ListedHashes(store, heights) + [chain[0]] == LocatorOf(chain, heights)
  {
    FetchedBlocks(store, chain, top, heights);
    hide BlocksByHeights;
  }

  /** The responder's active chain agrees with ours up to height f and no further. */
  ghost predicate ForksAt(responder: Store, chain: seq<Hash>, f: nat) {
    && f < |chain|
    && (forall h :: 0 <= h <= f ==>
          && chain[h] in responder.blocks && responder.blocks[chain[h]].active
          && responder.blocks[chain[h]].height == h && responder.blocks[chain[h]].hash == chain[h])
    && (forall h :: f < h < |chain| ==> chain[h] in responder.blocks ==> !responder.blocks[chain[h]].active)
  }

  /**
   * The request for blocks: our locator, looked up by the responder. When our height
   * index follows our chain and the responder's active chain forks off it at height
   * f, the answer is a shared block that overshoots the fork by no more than its depth.
   */
  method AskForFork(store: Store, responder: Store, ghost chain: seq<Hash>, top: nat, genesis: Hash, ghost f: nat)
    returns (shared: Option<BlockRecord>)
    ensures shared.Some? ==> shared.value.active
    ensures |chain| == top + 1 && genesis == chain[0] && HoldsChain(store, chain) && ForksAt(responder, chain, f) ==>
              && shared.Some? && shared.value.height <= f && shared.value.hash == chain[shared.value.height]
              && f - shared.value.height <= top - f
  {
    var locator := CreateLocator(store, top, genesis);
    shared := GetBlockByLocator(responder, locator);
    if |chain| == top + 1 && genesis == chain[0] && HoldsChain(store, chain) && ForksAt(responder, chain, f) {
      ghost var heights :| IsHeightList(top, heights) && locator == ListedHashes(store, heights) + [genesis];
      LocatorOnChain(store, chain, top, heights);
      LocatorAnswer(responder, chain, top, heights, f, shared);
    }
  }

  /**
   * Whatever highest active block the responder finds for our locator is one of
   * ours, and at most as far below the fork as the fork is below our top.
   */
  lemma LocatorAnswer(
    responder: Store, chain: seq<Hash>, top: nat, heights: seq<nat>, f: nat, answer: Option<BlockRecord>)
    requires |chain| == top + 1 && IsHeightList(top, heights) && ForksAt(responder, chain, f)
    requires var known := Known(responder, LocatorOf(chain, heights));
             match answer
             case Some(b) => b in known && b.active && forall c :: c in known && c.active ==> c.height <= b.height
             case None => forall c :: c in known ==> !c.active
    ensures answer.Some? && answer.value.height <= f && answer.value.hash == chain[answer.value.height]
    ensures f - answer.value.height <= top - f
  {
    var locator := LocatorOf(chain, heights);
    var g := Best(heights, f);
    OvershootBound(top, heights, f);
    assert chain[g] in locator by {
      if g != 0 {
        var k :| 0 <= k < |heights| && heights[k] == g;
        assert locator[k] == chain[g];
      } else {
        assert locator[|heights|] == chain[0];
      }
    }
    KnownMembers(responder, locator, responder.blocks[chain[g]]);
    KnownMembers(responder, locator, answer.value);
    var h :| h in locator && h in responder.blocks && responder.blocks[h] == answer.value;
    var k :| 0 <= k < |locator| && locator[k] == h;
    var height := if k < |heights| then heights[k] else 0;
    assert h == chain[height];
  }
}
