/** Blocks, their branches, and the walk to the fork of two branches: `findFork` of lib/blockchain.js. */
module BlockTree {
  import opened Outcomes

  type Hash = nat

  /** What a block is by itself; work is the result of its getWork. */
  datatype Header = Header(hash: Hash, prev: Hash, work: nat)

  /** A block attached to a chain. */
  datatype Block = Block(header: Header, height: nat, chainWork: nat, active: bool)

  type Store = map<Hash, Block>

  /** `attachTo`. */
  function Attach(header: Header, parent: Block): Block {
    Block(header, parent.height + 1, parent.chainWork + header.work, false)
  }

  /** Two records of one block; the active flag may differ. */
  predicate Same(a: Block, b: Block) {
    a.header == b.header && a.height == b.height && a.chainWork == b.chainWork
  }

  /** The stored blocks form a tree with consistent heights and accumulated work. */
  ghost predicate Tree(store: Store, genesis: Hash) {
    && genesis in store && store[genesis].height == 0
    && (forall h :: h in store ==> store[h].header.hash == h)
    && forall h :: h in store && h != genesis ==>
         store[h].header.prev in store && Same(store[h], Attach(store[h].header, store[store[h].header.prev]))
  }

  /** The hashes from a stored block down to genesis. */
  ghost function Path(store: Store, genesis: Hash, h: Hash): (p: seq<Hash>)
    requires Tree(store, genesis) && h in store
    ensures |p| == store[h].height + 1 && p[0] == h
    decreases store[h].height
  {
    if h == genesis then [h] else [h] + Path(store, genesis, store[h].header.prev)
  }

  lemma {:induction false} PathHeights(store: Store, genesis: Hash, h: Hash, x: Hash)
    requires Tree(store, genesis) && h in store && x in Path(store, genesis, h)
    ensures x in store && store[x].height <= store[h].height
    ensures x != h ==> store[x].height < store[h].height
    decreases store[h].height
  {
    if h != genesis && x != h {
      PathHeights(store, genesis, store[h].header.prev, x);
    }
  }

  /** The block is stored or could be: it fits the tree. */
  ghost predicate Fits(store: Store, genesis: Hash, b: Block) {
    && (b.header.hash in store ==> Same(store[b.header.hash], b))
    && (if b.header.hash == genesis then b.height == 0
        else b.header.prev in store && Same(b, Attach(b.header, store[b.header.prev])))
  }

  /** The hashes from a fitting block down to genesis. */
  ghost function Branch(store: Store, genesis: Hash, b: Block): (p: seq<Hash>)
    requires Tree(store, genesis) && Fits(store, genesis, b)
    ensures |p| == b.height + 1 && p[0] == b.header.hash
  {
    if b.header.hash == genesis then [genesis] else [b.header.hash] + Path(store, genesis, b.header.prev)
  }

  lemma StoredFits(store: Store, genesis: Hash, h: Hash)
    requires Tree(store, genesis) && h in store
    ensures Fits(store, genesis, store[h]) && Branch(store, genesis, store[h]) == Path(store, genesis, h)
  {
  }

  // ----- the fork of two branches -----

  /** The blocks above the fork on either side, from the tips down, and the fork itself. */
  datatype Fork = Fork(toDisconnect: seq<Block>, toConnect: seq<Block>, root: Block)

  /**
   * The walk: the higher block steps down, the new branch first on equal heights. A
   * stored parent that is not lower than its child counts as missing.
   */
  function FindFork(store: Store, bOld: Block, bNew: Block): Result<Fork>
    decreases bOld.height + bNew.height
  {
    if bOld.header.hash == bNew.header.hash then Ok(Fork([], [], bOld))
    else if bOld.height > bNew.height then
      if bOld.header.prev !in store || store[bOld.header.prev].height >= bOld.height then Err
      else
        var f :- FindFork(store, store[bOld.header.prev], bNew);
        Ok(f.(toDisconnect := [bOld] + f.toDisconnect))
    else if bNew.height <= 0 then Err
    else if bNew.header.prev !in store || store[bNew.header.prev].height >= bNew.height then Err
    else
      var f :- FindFork(store, bOld, store[bNew.header.prev]);
      Ok(f.(toConnect := [bNew] + f.toConnect))
  }

  /** `findFork`, which pushes onto two lists while it calls itself. */
  method FindForkFrom(store: Store, bOld: Block, bNew: Block, toDisconnect: seq<Block>, toConnect: seq<Block>)
    returns (r: Result<Fork>)
    ensures r == match FindFork(store, bOld, bNew)
                 case Ok(f) => Ok(Fork(toDisconnect + f.toDisconnect, toConnect + f.toConnect, f.root))
                 case Err => Err
    decreases bOld.height + bNew.height
  {
    if bOld.header.hash == bNew.header.hash {
      assert toDisconnect + [] == toDisconnect && toConnect + [] == toConnect;
      return Ok(Fork(toDisconnect, toConnect, bOld));
    }
    ghost var tail;
    if bOld.height > bNew.height {
      if bOld.header.prev !in store || store[bOld.header.prev].height >= bOld.height {
        return Err;
      }
      tail := FindFork(store, store[bOld.header.prev], bNew);
      assert tail.Ok? ==>
               toDisconnect + ([bOld] + tail.value.toDisconnect) == toDisconnect + [bOld] + tail.value.toDisconnect;
      r := FindForkFrom(store, store[bOld.header.prev], bNew, toDisconnect + [bOld], toConnect);
    } else {
      if bNew.height <= 0 {
        return Err;
      }
      if bNew.header.prev !in store || store[bNew.header.prev].height >= bNew.height {
        return Err;
      }
      tail := FindFork(store, bOld, store[bNew.header.prev]);
      assert tail.Ok? ==> toConnect + ([bNew] + tail.value.toConnect) == toConnect + [bNew] + tail.value.toConnect;
      r := FindForkFrom(store, bOld, store[bNew.header.prev], toDisconnect, toConnect + [bNew]);
    }
  }

  function Hashes(bs: seq<Block>): (hs: seq<Hash>)
    ensures |hs| == |bs| && forall i :: 0 <= i < |bs| ==> hs[i] == bs[i].header.hash
  {
    seq(|bs|, i requires 0 <= i < |bs| => bs[i].header.hash)
  }

  /** All blocks fit the tree. */
  ghost predicate AllFit(store: Store, genesis: Hash, bs: seq<Block>) {
    forall i :: 0 <= i < |bs| ==> Fits(store, genesis, bs[i])
  }

  /** No hash is on both lists. */
  ghost predicate Disjoint(a: seq<Hash>, b: seq<Hash>) {
    forall h :: h in a ==> h !in b
  }

  /** What the walk promises about the two branches. */
  ghost predicate IsFork(store: Store, genesis: Hash, bOld: Block, bNew: Block, f: Fork)
    requires Tree(store, genesis) && Fits(store, genesis, bOld) && Fits(store, genesis, bNew)
  {
    && Fits(store, genesis, f.root) && AllFit(store, genesis, f.toDisconnect) && AllFit(store, genesis, f.toConnect)
    && Branch(store, genesis, bOld) == Hashes(f.toDisconnect) + Branch(store, genesis, f.root)
    && Branch(store, genesis, bNew) == Hashes(f.toConnect) + Branch(store, genesis, f.root)
    && Disjoint(Hashes(f.toDisconnect), Branch(store, genesis, bNew))
    && Disjoint(Hashes(f.toConnect), Branch(store, genesis, bOld))
  }

  /** A block that is not lower is not on the other's branch, unless it is its tip. */
  lemma NotBelow(store: Store, genesis: Hash, a: Block, b: Block)
    requires Tree(store, genesis) && Fits(store, genesis, a) && Fits(store, genesis, b)
    requires a.header.hash != b.header.hash && a.height >= b.height
    ensures a.header.hash !in Branch(store, genesis, b)
  {
    if b.header.hash != genesis && a.header.hash in Path(store, genesis, b.header.prev) {
      PathHeights(store, genesis, b.header.prev, a.header.hash);
    }
  }

  lemma HashesCons(b: Block, bs: seq<Block>)
    ensures Hashes([b] + bs) == [b.header.hash] + Hashes(bs)
  {
  }

  /**
   * On any two blocks of a tree the walk ends at a block of both branches, and the
   * two lists are exactly the disjoint parts of the branches above it.
   */
  lemma {:induction false} ForkFound(store: Store, genesis: Hash, bOld: Block, bNew: Block)
    requires Tree(store, genesis) && Fits(store, genesis, bOld) && Fits(store, genesis, bNew)
    requires bOld.header.hash == bNew.header.hash ==> bOld.header == bNew.header
    ensures FindFork(store, bOld, bNew).Ok?
    ensures IsFork(store, genesis, bOld, bNew, FindFork(store, bOld, bNew).value)
    decreases bOld.height + bNew.height
  {
    hide Path, Branch, IsFork;
    if bOld.header.hash == bNew.header.hash {
      MeetingPoint(store, genesis, bOld, bNew);
    } else if bOld.height > bNew.height {
      var parent := store[bOld.header.prev];
      StoredFits(store, genesis, bOld.header.prev);
      ForkFound(store, genesis, parent, bNew);
      NotBelow(store, genesis, bOld, bNew);
      StepOld(store, genesis, bOld, bNew, FindFork(store, parent, bNew).value);
    } else {
      assert bNew.header.hash != genesis;
      var parent := store[bNew.header.prev];
      StoredFits(store, genesis, bNew.header.prev);
      ForkFound(store, genesis, bOld, parent);
      NotBelow(store, genesis, bNew, bOld);
      StepNew(store, genesis, bOld, bNew, FindFork(store, bOld, parent).value);
    }
  }

  lemma MeetingPoint(store: Store, genesis: Hash, bOld: Block, bNew: Block)
    requires Tree(store, genesis) && Fits(store, genesis, bOld) && Fits(store, genesis, bNew)
    requires bOld.header == bNew.header
    ensures IsFork(store, genesis, bOld, bNew, Fork([], [], bOld))
  {
    hide Path, Tree;
    assert Hashes([]) == [];
    assert [] + Branch(store, genesis, bOld) == Branch(store, genesis, bOld);
    assert Branch(store, genesis, bNew) == Branch(store, genesis, bOld);
  }

  /** One hash more on one side of a fork. */
  lemma ExtendFork(x: Hash, side: seq<Hash>, other: seq<Hash>, a: seq<Hash>, b: seq<Hash>, root: seq<Hash>)
    requires side == a + root && other == b + root && x !in other
    requires Disjoint(a, other) && Disjoint(b, side)
    ensures [x] + side == ([x] + a) + root
    ensures Disjoint([x] + a, other) && Disjoint(b, [x] + side)
  {
    assert [x] + (a + root) == ([x] + a) + root;
    forall h | h in b
      ensures h !in [x] + side
    {
      assert h in other;
    }
  }

  lemma AllFitCons(store: Store, genesis: Hash, b: Block, bs: seq<Block>)
    requires Fits(store, genesis, b) && AllFit(store, genesis, bs)
    ensures AllFit(store, genesis, [b] + bs)
  {
    hide Fits;
  }

  lemma StepOld(store: Store, genesis: Hash, bOld: Block, bNew: Block, f: Fork)
    requires Tree(store, genesis) && Fits(store, genesis, bOld) && Fits(store, genesis, bNew)
    requires bOld.header.hash != genesis && Fits(store, genesis, store[bOld.header.prev])
    requires Branch(store, genesis, store[bOld.header.prev]) == Path(store, genesis, bOld.header.prev)
    requires IsFork(store, genesis, store[bOld.header.prev], bNew, f)
    requires bOld.header.hash !in Branch(store, genesis, bNew)
    ensures IsFork(store, genesis, bOld, bNew, f.(toDisconnect := [bOld] + f.toDisconnect))
  {
    var side := Path(store, genesis, bOld.header.prev);
    assert Branch(store, genesis, bOld) == [bOld.header.hash] + side;
    hide Path, Branch, Tree, Fits;
    HashesCons(bOld, f.toDisconnect);
    AllFitCons(store, genesis, bOld, f.toDisconnect);
    ExtendFork(bOld.header.hash, side, Branch(store, genesis, bNew),
               Hashes(f.toDisconnect), Hashes(f.toConnect), Branch(store, genesis, f.root));
  }

  lemma StepNew(store: Store, genesis: Hash, bOld: Block, bNew: Block, f: Fork)
    requires Tree(store, genesis) && Fits(store, genesis, bOld) && Fits(store, genesis, bNew)
    requires bNew.header.hash != genesis && Fits(store, genesis, store[bNew.header.prev])
    requires Branch(store, genesis, store[bNew.header.prev]) == Path(store, genesis, bNew.header.prev)
    requires IsFork(store, genesis, bOld, store[bNew.header.prev], f)
    requires bNew.header.hash !in Branch(store, genesis, bOld)
    ensures IsFork(store, genesis, bOld, bNew, f.(toConnect := [bNew] + f.toConnect))
  {
    var side := Path(store, genesis, bNew.header.prev);
    assert Branch(store, genesis, bNew) == [bNew.header.hash] + side;
    hide Path, Branch, Tree, Fits;
    HashesCons(bNew, f.toConnect);
    AllFitCons(store, genesis, bNew, f.toConnect);
    ExtendFork(bNew.header.hash, side, Branch(store, genesis, bOld),
               Hashes(f.toConnect), Hashes(f.toDisconnect), Branch(store, genesis, f.root));
  }

  /** The fork is the lowest common ancestor: every common ancestor lies on its branch. */
  lemma LowestCommonAncestor(store: Store, genesis: Hash, bOld: Block, bNew: Block, x: Hash)
    requires Tree(store, genesis) && Fits(store, genesis, bOld) && Fits(store, genesis, bNew)
    requires bOld.header.hash == bNew.header.hash ==> bOld.header == bNew.header
    requires FindFork(store, bOld, bNew).Ok?
    requires Fits(store, genesis, FindFork(store, bOld, bNew).value.root)
    ensures x in Branch(store, genesis, FindFork(store, bOld, bNew).value.root)
       <==> x in Branch(store, genesis, bOld) && x in Branch(store, genesis, bNew)
  {
    hide Branch, FindFork;
    ForkFound(store, genesis, bOld, bNew);
  }

  // ----- what does not depend on the flags -----

  /** Every block of a is in b, but for its flag. */
  ghost predicate Within(a: Store, b: Store) {
    forall h :: h in a ==> h in b && Same(a[h], b[h])
  }

  lemma {:induction false} PathWithin(a: Store, b: Store, genesis: Hash, h: Hash)
    requires Tree(a, genesis) && Tree(b, genesis) && Within(a, b) && h in a
    ensures Path(a, genesis, h) == Path(b, genesis, h)
    decreases a[h].height
  {
    if h != genesis {
      PathWithin(a, b, genesis, a[h].header.prev);
    }
  }

  /** The stored blocks marked active are exactly those on the path to the top. */
  ghost predicate ActiveIsPath(store: Store, genesis: Hash, top: Hash)
    requires Tree(store, genesis) && top in store
  {
    forall h :: h in store ==> (store[h].active <==> h in Path(store, genesis, top))
  }
}
