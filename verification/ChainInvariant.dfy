/** What every run of the block chain keeps. */
module ChainInvariant {
  import opened BlockTree
  import opened BlockChain

  /** A hash names one header, and the hash below genesis names no block. */
  ghost predicate IsBlock(hdr: Hash -> Header, genesis: Hash, x: Header) {
    x == hdr(x.hash) && x.hash != hdr(genesis).prev
  }

  ghost predicate Faithful(store: Store, hdr: Hash -> Header) {
    forall h :: h in store ==> store[h].header == hdr(h) && store[h].header.hash == h
  }

  /**
   * The invariant of every run: the stored blocks form a tree with consistent
   * heights and work, the top and the recent blocks are stored, and no stored block
   * has more accumulated work than the top.
   */
  ghost predicate Core(s: State, hdr: Hash -> Header) {
    && Tree(s.store, s.genesis) && Faithful(s.store, hdr) && hdr(s.genesis).prev !in s.store
    && s.top.header.hash in s.store && Same(s.store[s.top.header.hash], s.top)
    && (forall h :: h in s.recent.index ==> h in s.store && Same(s.store[h], s.recent.index[h]))
    && forall h :: h in s.store ==> s.store[h].chainWork <= s.top.chainWork
  }

  // ----- adding blocks to the tree -----

  /** Storing a fitting block keeps the tree. */
  lemma SaveFits(store: Store, genesis: Hash, hdr: Hash -> Header, b: Block)
    requires Tree(store, genesis) && Faithful(store, hdr) && Fits(store, genesis, b)
    requires b.header == hdr(b.header.hash)
    ensures var t := store[b.header.hash := b];
            Tree(t, genesis) && Faithful(t, hdr) && Within(store, t)
  {
    var t := store[b.header.hash := b];
    forall h | h in t && h != genesis
      ensures t[h].header.prev in t && Same(t[h], Attach(t[h].header, t[t[h].header.prev]))
    {
      if h != b.header.hash {
        assert h in store;
      }
    }
  }

  /** Fitting blocks still fit when one of them has been stored. */
  lemma FitsAfterSave(store: Store, genesis: Hash, hdr: Hash -> Header, a: Block, b: Block)
    requires Tree(store, genesis) && Fits(store, genesis, a) && Fits(store, genesis, b)
    requires a.header == hdr(a.header.hash) && b.header == hdr(b.header.hash)
    ensures Fits(store[a.header.hash := a], genesis, b)
  {
  }

  /** A child of a stored block fits, whatever copy of the parent it was attached to. */
  lemma ChildFits(store: Store, genesis: Hash, hdr: Hash -> Header, header: Header, parent: Block)
    requires Tree(store, genesis) && Faithful(store, hdr) && hdr(genesis).prev !in store
    requires header == hdr(header.hash) && header.prev in store && Same(store[header.prev], parent)
    ensures header.hash != genesis && Fits(store, genesis, Attach(header, parent))
  {
  }

  ghost predicate AllFaithful(bs: seq<Block>, hdr: Hash -> Header) {
    forall i :: 0 <= i < |bs| ==> bs[i].header == hdr(bs[i].header.hash)
  }

  /** The walk to the fork only meets the two tips and stored blocks. */
  lemma {:induction false} ForkFaithful(store: Store, hdr: Hash -> Header, bOld: Block, bNew: Block)
    requires Faithful(store, hdr) && bOld.header == hdr(bOld.header.hash) && bNew.header == hdr(bNew.header.hash)
    ensures var r := FindFork(store, bOld, bNew);
            r.Ok? ==> AllFaithful(r.value.toDisconnect, hdr) && AllFaithful(r.value.toConnect, hdr)
    decreases bOld.height + bNew.height
  {
    if FindFork(store, bOld, bNew).Ok? && bOld.header.hash != bNew.header.hash {
      if bOld.height > bNew.height {
        ForkFaithful(store, hdr, store[bOld.header.prev], bNew);
      } else {
        ForkFaithful(store, hdr, bOld, store[bNew.header.prev]);
      }
    }
  }

  /** What saving a list of fitting blocks with one flag does. */
  ghost predicate Saved(store: Store, t: Store, genesis: Hash, hdr: Hash -> Header, hs: seq<Hash>, active: bool) {
    && Tree(t, genesis) && Faithful(t, hdr) && Within(store, t)
    && (forall h :: h in t <==> h in store || h in hs)
    && (forall h :: h in hs ==> t[h].active == active)
    && forall h :: h in store && h !in hs ==> t[h] == store[h]
  }

  lemma {:induction false} SaveAllEffect(
    store: Store, genesis: Hash, hdr: Hash -> Header, bs: seq<Block>, active: bool)
    requires Tree(store, genesis) && Faithful(store, hdr) && AllFit(store, genesis, bs) && AllFaithful(bs, hdr)
    ensures Saved(store, SaveAll(store, bs, active), genesis, hdr, Hashes(bs), active)
    decreases |bs|
  {
    hide Tree, Faithful, Fits;
    if bs != [] {
      var b := bs[0].(active := active);
      var t := store[b.header.hash := b];
      assert Fits(store, genesis, b) by {
        FlagFits(store, genesis, bs[0], active);
      }
      SaveFits(store, genesis, hdr, b);
      forall i | 0 <= i < |bs[1..]|
        ensures Fits(t, genesis, bs[1..][i])
      {
        FitsAfterSave(store, genesis, hdr, b, bs[i + 1]);
      }
      SaveAllEffect(t, genesis, hdr, bs[1..], active);
      SavedStep(store, t, SaveAll(t, bs[1..], active), genesis, hdr, b, Hashes(bs[1..]), active);
      assert Hashes(bs) == [b.header.hash] + Hashes(bs[1..]);
    }
  }

  lemma FlagFits(store: Store, genesis: Hash, b: Block, active: bool)
    requires Fits(store, genesis, b)
    ensures Fits(store, genesis, b.(active := active))
  {
  }

  lemma SavedStep(
    store: Store, t: Store, u: Store, genesis: Hash, hdr: Hash -> Header, b: Block, hs: seq<Hash>, active: bool)
    requires t == store[b.header.hash := b] && Within(store, t) && b.active == active
    requires Saved(t, u, genesis, hdr, hs, active)
    ensures Saved(store, u, genesis, hdr, [b.header.hash] + hs, active)
  {
    hide Tree, Faithful;
    assert forall h :: h in [b.header.hash] + hs <==> h == b.header.hash || h in hs;
  }

  // ----- one step keeps the invariant -----

  lemma {:induction false} CleanShrinks(r: Recent)
    ensures forall h :: h in Clean(r).index ==> h in r.index && Clean(r).index[h] == r.index[h]
    decreases |r.list|
  {
    if |r.list| > RECENT_LIMIT {
      CleanShrinks(Recent(r.list[1..], r.index - {r.list[0]}));
    }
  }

  /** The recent blocks after a block has been set are it and some of the earlier ones. */
  lemma SetRecentShrinks(r: Recent, b: Block)
    ensures forall h :: h in SetRecent(r, b).index ==>
              (h == b.header.hash && SetRecent(r, b).index[h] == b)
              || (h in r.index && SetRecent(r, b).index[h] == r.index[h])
  {
    CleanShrinks(Recent(r.list + [b.header.hash], r.index[b.header.hash := b]));
  }

  lemma MainKeeps(s: State, hdr: Hash -> Header, w: Wrapper, verdict: Verdict)
    requires Core(s, hdr) && IsBlock(hdr, s.genesis, w.header) && w.header.prev == s.top.header.hash
    ensures Core(ProcessMain(s, w, verdict), hdr)
  {
    hide Clean, SetRecent;
    var block := Attach(w.header, s.top).(active := true);
    ChildFits(s.store, s.genesis, hdr, w.header, s.top);
    FlagFits(s.store, s.genesis, Attach(w.header, s.top), true);
    SaveFits(s.store, s.genesis, hdr, block);
    SetRecentShrinks(s.recent, block);
    hide Tree, Faithful, Fits;
  }

  /** The two saving passes of a reorganization. */
  lemma ReorganizedEffect(s: State, hdr: Hash -> Header, block: Block)
    requires Core(s, hdr) && Fits(s.store, s.genesis, block) && block.header == hdr(block.header.hash)
    ensures FindFork(s.store, s.top, block).Ok?
    ensures var f := FindFork(s.store, s.top, block).value;
            var dis := SaveAll(s.store, f.toDisconnect, false);
            && Fits(s.store, s.genesis, s.top) && IsFork(s.store, s.genesis, s.top, block, f)
            && Saved(s.store, dis, s.genesis, hdr, Hashes(f.toDisconnect), false)
            && Saved(dis, Reorganized(s.store, f), s.genesis, hdr, Hashes(f.toConnect), true)
  {
    assert Fits(s.store, s.genesis, s.top);
    ForkFound(s.store, s.genesis, s.top, block);
    ForkFaithful(s.store, hdr, s.top, block);
    hide Tree, Fits, FindFork, Branch, Faithful;
    var f := FindFork(s.store, s.top, block).value;
    SaveAllEffect(s.store, s.genesis, hdr, f.toDisconnect, false);
    var dis := SaveAll(s.store, f.toDisconnect, false);
    forall i | 0 <= i < |f.toConnect|
      ensures Fits(dis, s.genesis, f.toConnect[i])
    {
      FitsWithin(s.store, dis, s.genesis, hdr, f.toConnect[i], f.toDisconnect);
    }
    SaveAllEffect(dis, s.genesis, hdr, f.toConnect, true);
  }

  /** Blocks that fit a store fit it after other fitting blocks were saved. */
  lemma {:induction false} FitsWithin(
    store: Store, t: Store, genesis: Hash, hdr: Hash -> Header, b: Block, bs: seq<Block>)
    requires Tree(store, genesis) && Faithful(store, hdr) && AllFit(store, genesis, bs) && AllFaithful(bs, hdr)
    requires t == SaveAll(store, bs, false) && Fits(store, genesis, b) && b.header == hdr(b.header.hash)
    ensures Fits(t, genesis, b)
    decreases |bs|
  {
    if bs != [] {
      var a := bs[0].(active := false);
      var u := store[a.header.hash := a];
      FlagFits(store, genesis, bs[0], false);
      SaveFits(store, genesis, hdr, a);
      FitsAfterSave(store, genesis, hdr, a, b);
      forall i | 0 <= i < |bs[1..]|
        ensures Fits(u, genesis, bs[1..][i])
      {
        FitsAfterSave(store, genesis, hdr, a, bs[i + 1]);
      }
      FitsWithin(u, t, genesis, hdr, b, bs[1..]);
    }
  }

  lemma SideKeeps(s: State, hdr: Hash -> Header, w: Wrapper, parent: Block, verdict: Verdict)
    requires Core(s, hdr) && IsBlock(hdr, s.genesis, w.header)
    requires w.header.prev in s.store && Same(s.store[w.header.prev], parent)
    ensures Core(ProcessSide(s, w, parent, verdict), hdr)
  {
    var block := Attach(w.header, parent);
    ChildFits(s.store, s.genesis, hdr, w.header, parent);
    if verdict != Accept {
      RejectKeeps(s, hdr, w, block, ProcessSide(s, w, parent, verdict));
    } else if block.chainWork <= s.top.chainWork {
      SideSaves(s, hdr, w, parent);
    } else {
      SideReorganizes(s, hdr, w, parent);
    }
  }

  /** A rejected block leaves the store and the top alone. */
  lemma RejectKeeps(s: State, hdr: Hash -> Header, w: Wrapper, block: Block, t: State)
    requires Core(s, hdr) && block.header == w.header
    requires t == Failed(s, w) || t == Failed(Connected(s, w, block), w)
    ensures Core(t, hdr)
  {
    SetRecentShrinks(s.recent, block);
    hide SetRecent, Tree, Faithful;
  }

  /** The invariant after a block has been stored and remembered as recent. */
  lemma CoreAssembled(s: State, hdr: Hash -> Header, block: Block, t: State)
    requires Core(s, hdr) && t.genesis == s.genesis && t.recent == SetRecent(s.recent, block)
    requires Tree(t.store, s.genesis) && Faithful(t.store, hdr) && hdr(s.genesis).prev !in t.store
    requires Within(s.store, t.store)
    requires block.header.hash in t.store && Same(t.store[block.header.hash], block)
    requires t.top.header.hash in t.store && Same(t.store[t.top.header.hash], t.top)
    requires forall h :: h in t.store ==> t.store[h].chainWork <= t.top.chainWork
    ensures Core(t, hdr)
  {
    SetRecentShrinks(s.recent, block);
    hide SetRecent, Tree, Faithful;
  }

  lemma SideSaves(s: State, hdr: Hash -> Header, w: Wrapper, parent: Block)
    requires Core(s, hdr) && IsBlock(hdr, s.genesis, w.header)
    requires Fits(s.store, s.genesis, Attach(w.header, parent))
    requires Attach(w.header, parent).chainWork <= s.top.chainWork
    ensures Core(ProcessSide(s, w, parent, Accept), hdr)
  {
    var block := Attach(w.header, parent);
    SaveFits(s.store, s.genesis, hdr, block);
    hide SetRecent, Tree, Faithful, Fits;
    WorkBound(s.store, s.store[w.header.hash := block], s.top.chainWork, s.top);
    CoreAssembled(s, hdr, block, ProcessSide(s, w, parent, Accept));
  }

  lemma ReorgFields(s: State, w: Wrapper, parent: Block)
    requires Attach(w.header, parent).chainWork > s.top.chainWork
    requires FindFork(s.store, s.top, Attach(w.header, parent)).Ok?
    ensures var block, r := Attach(w.header, parent), ProcessSide(s, w, parent, Accept);
            && r.genesis == s.genesis && r.recent == SetRecent(s.recent, block)
            && r.top == block.(active := true) && r.store == AfterReorg(s, block)
  {
    hide SetRecent, FindFork, Reorganized;
  }

  lemma SideReorganizes(s: State, hdr: Hash -> Header, w: Wrapper, parent: Block)
    requires Core(s, hdr) && IsBlock(hdr, s.genesis, w.header)
    requires Fits(s.store, s.genesis, Attach(w.header, parent))
    requires Attach(w.header, parent).chainWork > s.top.chainWork
    ensures FindFork(s.store, s.top, Attach(w.header, parent)).Ok?
    ensures var block, r := Attach(w.header, parent), ProcessSide(s, w, parent, Accept);
            Core(r, hdr) && r.top == block.(active := true) && r.store == AfterReorg(s, block)
  {
    var block := Attach(w.header, parent);
    ReorgKeeps(s, hdr, w, block);
    ReorgFields(s, w, parent);
    hide SetRecent, Tree, Faithful, Fits, FindFork, ProcessSide, AfterReorg, Within;
    CoreAssembled(s, hdr, block, ProcessSide(s, w, parent, Accept));
  }

  /** The store a reorganization leaves, with the new block saved. */
  ghost function AfterReorg(s: State, block: Block): Store
    requires FindFork(s.store, s.top, block).Ok?
  {
    Reorganized(s.store, FindFork(s.store, s.top, block).value)[block.header.hash := block.(active := true)]
  }

  /** A new tip with more work than the top: every stored block has at most its work. */
  lemma ReorgKeeps(s: State, hdr: Hash -> Header, w: Wrapper, block: Block)
    requires Core(s, hdr) && Fits(s.store, s.genesis, block) && block.header == w.header == hdr(block.header.hash)
    requires block.chainWork > s.top.chainWork && hdr(s.genesis).prev != block.header.hash
    ensures FindFork(s.store, s.top, block).Ok?
    ensures var t := AfterReorg(s, block);
            && Tree(t, s.genesis) && Faithful(t, hdr) && hdr(s.genesis).prev !in t && Within(s.store, t)
            && block.header.hash in t && Same(t[block.header.hash], block)
            && (forall h :: h in t <==> h in s.store || h == block.header.hash)
            && forall h :: h in t ==> t[h].chainWork <= block.chainWork
  {
    ReorganizedEffect(s, hdr, block);
    var f := FindFork(s.store, s.top, block).value;
    var dis := SaveAll(s.store, f.toDisconnect, false);
    var r := Reorganized(s.store, f);
    OnlyNewHash(s.store, s.genesis, s.top, block, f);
    TipFitsAfter(s, hdr, block);
    SaveFits(r, s.genesis, hdr, block.(active := true));
    hide Tree, Faithful, FindFork, Reorganized, IsFork, Fits, SaveAll;
    WithinTrans(s.store, dis, r);
    WithinTrans(s.store, r, AfterReorg(s, block));
    WorkBound(s.store, AfterReorg(s, block), s.top.chainWork, block);
  }

  lemma WithinTrans(a: Store, b: Store, c: Store)
    requires Within(a, b) && Within(b, c)
    ensures Within(a, c)
  {
  }

  lemma WorkBound(a: Store, b: Store, work: nat, block: Block)
    requires Within(a, b) && (forall h :: h in a ==> a[h].chainWork <= work) && work <= block.chainWork
    requires block.header.hash in b && Same(b[block.header.hash], block)
    requires forall h :: h in b ==> h in a || b[h].chainWork <= block.chainWork
    ensures forall h :: h in b ==> b[h].chainWork <= block.chainWork
  {
  }

  /** The fork's lists hold stored blocks and the new tip. */
  lemma OnlyNewHash(store: Store, genesis: Hash, top: Block, block: Block, f: Fork)
    requires Tree(store, genesis) && Fits(store, genesis, top) && Fits(store, genesis, block)
    requires top.header.hash in store && IsFork(store, genesis, top, block, f)
    ensures forall h :: h in Hashes(f.toDisconnect) ==> h in store
    ensures forall h :: h in Hashes(f.toConnect) ==> h in store || h == block.header.hash
  {
    forall h | h in Hashes(f.toDisconnect)
      ensures h in store
    {
      assert h in Branch(store, genesis, top);
      BranchStored(store, genesis, top, h);
    }
    forall h | h in Hashes(f.toConnect)
      ensures h in store || h == block.header.hash
    {
      assert h in Branch(store, genesis, block);
      BranchStored(store, genesis, block, h);
    }
  }

  lemma BranchStored(store: Store, genesis: Hash, b: Block, h: Hash)
    requires Tree(store, genesis) && Fits(store, genesis, b) && h in Branch(store, genesis, b)
    ensures h in store || h == b.header.hash
  {
    if b.header.hash != genesis && h != b.header.hash {
      PathHeights(store, genesis, b.header.prev, h);
    }
  }

  lemma TipFitsAfter(s: State, hdr: Hash -> Header, block: Block)
    requires Core(s, hdr) && Fits(s.store, s.genesis, block) && block.header == hdr(block.header.hash)
    requires FindFork(s.store, s.top, block).Ok?
    ensures Fits(Reorganized(s.store, FindFork(s.store, s.top, block).value), s.genesis, block.(active := true))
  {
    ReorganizedEffect(s, hdr, block);
    var f := FindFork(s.store, s.top, block).value;
    var dis := SaveAll(s.store, f.toDisconnect, false);
    var r := Reorganized(s.store, f);
    hide FindFork, Reorganized, IsFork;
    StillFits(s.store, dis, s.genesis, hdr, block);
    StillFits(dis, r, s.genesis, hdr, block);
    FlagFits(r, s.genesis, block, true);
  }

  lemma StillFits(a: Store, b: Store, genesis: Hash, hdr: Hash -> Header, block: Block)
    requires Tree(a, genesis) && Tree(b, genesis) && Faithful(b, hdr) && Within(a, b)
    requires Fits(a, genesis, block) && block.header == hdr(block.header.hash)
    ensures Fits(b, genesis, block)
  {
  }

  lemma QueueCore(s: State, t: State, hdr: Hash -> Header)
    requires Core(s, hdr) && t == s.(queue := t.queue, nextId := t.nextId)
    ensures Core(t, hdr)
  {
    hide Tree, Faithful;
  }

  lemma PrepareCore(s: State, hdr: Hash -> Header, w: Wrapper)
    requires Core(s, hdr)
    ensures Core(Prepare(s, w), hdr) && Prepare(s, w).genesis == s.genesis
  {
    hide Tree, Faithful;
  }

  lemma SideParent(s: State, hdr: Hash -> Header, w: Wrapper)
    requires Core(s, hdr) && Place(s, w).Side?
    ensures w.header.prev in s.store && Same(s.store[w.header.prev], Place(s, w).parent)
  {
    hide Tree, Faithful;
  }

  lemma MainParent(s: State, w: Wrapper)
    requires Place(s, w).Main?
    ensures w.header.prev == s.top.header.hash
  {
  }

  /** Every step keeps the invariant, whatever the block and the verdict. */
  lemma ProcessKeeps(s: State, hdr: Hash -> Header, w: Wrapper, verdict: Verdict)
    requires Core(s, hdr) && IsBlock(hdr, s.genesis, w.header)
    ensures Core(Process(s, w, verdict), hdr)
  {
    PrepareCore(s, hdr, w);
    var s1 := Prepare(s, w);
    hide Prepare, Place, ProcessMain, ProcessSide, Tree, Faithful, IsBlock;
    match Place(s1, w)
    case Main =>
      MainParent(s1, w);
      MainKeeps(s1, hdr, w, verdict);
    case Side(parent) =>
      SideParent(s1, hdr, w);
      SideKeeps(s1, hdr, w, parent, verdict);
    case Behind(orphan) =>
    case Head =>
    case Known =>
  }
}
