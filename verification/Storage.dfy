/** The block lookups of lib/db/leveldb/storage.js, over the two tables they read. */
module Storage {
  import opened Outcomes

  type Hash = nat

  datatype BlockRecord = BlockRecord(hash: Hash, height: nat, timestamp: nat, active: bool)

  /** Blocks under their hash, and block hashes under a height key. */
  datatype Store = Store(blocks: map<Hash, BlockRecord>, byHeight: map<nat, Hash>)

  /** The stored blocks among the hashes, in the order of the hashes. */
  function Known(store: Store, hashes: seq<Hash>): seq<BlockRecord> {
    if hashes == [] then []
    else (if hashes[0] in store.blocks then [store.blocks[hashes[0]]] else []) + Known(store, hashes[1..])
  }

  function HashesAt(store: Store, heights: seq<nat>): seq<Hash> {
    if heights == [] then []
    else (if heights[0] in store.byHeight then [store.byHeight[heights[0]]] else []) + HashesAt(store, heights[1..])
  }

  function InsertByHeight(b: BlockRecord, bs: seq<BlockRecord>): seq<BlockRecord> {
    if bs == [] || b.height < bs[0].height then [b] + bs else [bs[0]] + InsertByHeight(b, bs[1..])
  }

  function SortByHeight(bs: seq<BlockRecord>): seq<BlockRecord> {
    if bs == [] then [] else InsertByHeight(bs[0], SortByHeight(bs[1..]))
  }

  /** `getBlocksByHeights`: missing blocks are skipped, the others come lowest first. */
  function BlocksByHeights(store: Store, heights: seq<nat>): seq<BlockRecord> {
    SortByHeight(Known(store, HashesAt(store, heights)))
  }

  /** The store holds our chain: the block at each height, under its hash and its height. */
  ghost predicate HoldsChain(store: Store, chain: seq<Hash>) {
    forall h :: 0 <= h < |chain| ==>
      h in store.byHeight && store.byHeight[h] == chain[h] && chain[h] in store.blocks
      && store.blocks[chain[h]].hash == chain[h] && store.blocks[chain[h]].height == h
  }

  ghost function Pick(store: Store, chain: seq<Hash>, heights: seq<nat>): (bs: seq<BlockRecord>)
    requires HoldsChain(store, chain) && forall k :: 0 <= k < |heights| ==> heights[k] < |chain|
  {
    seq(|heights|, k requires 0 <= k < |heights| => store.blocks[chain[heights[k]]])
  }

  lemma {:induction false} KnownOfChain(store: Store, chain: seq<Hash>, heights: seq<nat>)
    requires HoldsChain(store, chain) && forall k :: 0 <= k < |heights| ==> heights[k] < |chain|
    ensures Known(store, HashesAt(store, heights)) == Pick(store, chain, heights)
  {
    if heights != [] {
      KnownOfChain(store, chain, heights[1..]);
      var h := chain[heights[0]];
      assert HashesAt(store, heights) == [h] + HashesAt(store, heights[1..]);
      assert Known(store, [h] + HashesAt(store, heights[1..]))
          == [store.blocks[h]] + Known(store, HashesAt(store, heights[1..]));
      assert Pick(store, chain, heights) == [store.blocks[h]] + Pick(store, chain, heights[1..]);
    }
  }

  ghost predicate Descending(bs: seq<BlockRecord>) {
    forall i, j :: 0 <= i < j < |bs| ==> bs[i].height > bs[j].height
  }

  /** A higher block than all others goes to the end. */
  lemma {:induction false} InsertHighest(b: BlockRecord, bs: seq<BlockRecord>)
    requires forall c :: c in bs ==> c.height < b.height
    ensures InsertByHeight(b, bs) == bs + [b]
  {
    if bs != [] {
      assert bs[0] in bs;
      InsertHighest(b, bs[1..]);
      assert bs == [bs[0]] + bs[1..];
    }
  }

  /** Sorting a list of falling heights turns it around. */
  lemma {:induction false} SortOfDescending(bs: seq<BlockRecord>)
    requires Descending(bs)
    ensures |SortByHeight(bs)| == |bs| && forall k :: 0 <= k < |bs| ==> SortByHeight(bs)[k] == bs[|bs| - 1 - k]
  {
    hide InsertByHeight;
    if bs != [] {
      var rest := SortByHeight(bs[1..]);
      SortOfDescending(bs[1..]);
      forall c | c in rest
        ensures c.height < bs[0].height
      {
        var k :| 0 <= k < |rest| && rest[k] == c;
        assert c == bs[1..][|rest| - 1 - k];
      }
      InsertHighest(bs[0], rest);
    }
  }

  /** `getBlockByLocator`: the highest active block among those of the locator that are known. */
  method GetBlockByLocator(store: Store, locator: seq<Hash>) returns (highest: Option<BlockRecord>)
    ensures highest.Some? ==>
              && highest.value in Known(store, locator) && highest.value.active
              && forall b :: b in Known(store, locator) && b.active ==> b.height <= highest.value.height
    ensures highest.None? ==> forall b :: b in Known(store, locator) ==> !b.active
  {
    var blocks := Known(store, locator);
    highest := None;
    for i := 0 to |blocks|
      invariant highest.Some? ==>
                  && highest.value in blocks && highest.value.active
                  && forall k :: 0 <= k < i && blocks[k].active ==> blocks[k].height <= highest.value.height
      invariant highest.None? ==> forall k :: 0 <= k < i ==> !blocks[k].active
    {
      if blocks[i].active && (highest.None? || blocks[i].height > highest.value.height) {
        highest := Some(blocks[i]);
      }
    }
  }

  lemma {:induction false} KnownMembers(store: Store, hashes: seq<Hash>, b: BlockRecord)
    ensures b in Known(store, hashes) <==> exists h :: h in hashes && h in store.blocks && store.blocks[h] == b
  {
    if hashes == [] {
    } else {
      KnownMembers(store, hashes[1..], b);
      assert forall h :: h in hashes <==> h == hashes[0] || h in hashes[1..];
    }
  }
}
