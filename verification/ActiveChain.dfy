/** The active flags follow the main chain, through extensions, side chains and reorganizations. */
module ActiveChain {
  import opened BlockTree
  import opened BlockChain
  import opened ChainInvariant

  /** The blocks marked active are the path from the top to genesis. */
  ghost predicate Active(s: State)
    requires Tree(s.store, s.genesis) && s.top.header.hash in s.store
  {
    ActiveIsPath(s.store, s.genesis, s.top.header.hash)
  }

  /**
   * The one way to lose the correspondence: an active block that is already stored
   * is processed again, finds its parent among the recent blocks, and is saved once
   * more as a side chain block.
   */
  predicate Deactivates(s: State, w: Wrapper, verdict: Verdict) {
    && verdict == Accept && Place(Prepare(s, w), w).Side?
    && w.header.hash in s.store && s.store[w.header.hash].active
  }

  // ----- one block -----

  lemma MainActive(s: State, hdr: Hash -> Header, w: Wrapper)
    requires Core(s, hdr) && Active(s) && IsBlock(hdr, s.genesis, w.header) && w.header.prev == s.top.header.hash
    ensures Core(ProcessMain(s, w, Accept), hdr) && Active(ProcessMain(s, w, Accept))
  {
    MainKeeps(s, hdr, w, Accept);
    var t := ProcessMain(s, w, Accept);
    ChildFits(s.store, s.genesis, hdr, w.header, s.top);
    FlagFits(s.store, s.genesis, Attach(w.header, s.top), true);
    SaveFits(s.store, s.genesis, hdr, Attach(w.header, s.top).(active := true));
    PathWithin(s.store, t.store, s.genesis, s.top.header.hash);
    var h := w.header.hash;
    assert Path(t.store, s.genesis, h) == [h] + Path(s.store, s.genesis, s.top.header.hash);
    hide Path, Tree, Core, SetRecent;
    forall x | x in t.store
      ensures t.store[x].active <==> x in Path(t.store, s.genesis, h)
    {
      assert x != h ==> x in s.store && t.store[x] == s.store[x];
    }
  }

  /** A side block without more work than the top keeps the flags unless it was active itself. */
  lemma SideActive(s: State, hdr: Hash -> Header, w: Wrapper, parent: Block)
    requires Core(s, hdr) && Active(s) && IsBlock(hdr, s.genesis, w.header)
    requires w.header.prev in s.store && Same(s.store[w.header.prev], parent)
    requires Attach(w.header, parent).chainWork <= s.top.chainWork
    ensures Core(ProcessSide(s, w, parent, Accept), hdr)
    ensures Active(ProcessSide(s, w, parent, Accept)) <==> !(w.header.hash in s.store && s.store[w.header.hash].active)
  {
    SideKeeps(s, hdr, w, parent, Accept);
    var t := ProcessSide(s, w, parent, Accept);
    var h := w.header.hash;
    ChildFits(s.store, s.genesis, hdr, w.header, parent);
    SaveFits(s.store, s.genesis, hdr, Attach(w.header, parent));
    PathWithin(s.store, t.store, s.genesis, s.top.header.hash);
    SideFlags(s.store, t.store, Attach(w.header, parent), Path(s.store, s.genesis, s.top.header.hash));
    assert h !in s.store ==> h !in Path(s.store, s.genesis, s.top.header.hash) by {
      if h in Path(s.store, s.genesis, s.top.header.hash) {
        PathHeights(s.store, s.genesis, s.top.header.hash, h);
      }
    }
    hide Path, Tree, Core, SetRecent;
  }

  lemma SideFlags(store: Store, t: Store, block: Block, path: seq<Hash>)
    requires t == store[block.header.hash := block] && !block.active
    requires forall x :: x in store ==> (store[x].active <==> x in path)
    ensures (forall x :: x in t ==> (t[x].active <==> x in path)) <==> block.header.hash !in path
  {
    var h := block.header.hash;
    if h !in path {
      forall x | x in t
        ensures t[x].active <==> x in path
      {
        assert x != h ==> x in store && t[x] == store[x];
      }
    } else {
      assert h in t && !t[h].active;
    }
  }

  /** A block that is stored already has no more work than the top. */
  lemma StoredHasNoMoreWork(s: State, hdr: Hash -> Header, w: Wrapper, parent: Block)
    requires Core(s, hdr) && IsBlock(hdr, s.genesis, w.header)
    requires w.header.prev in s.store && Same(s.store[w.header.prev], parent)
    ensures w.header.hash in s.store ==> Attach(w.header, parent).chainWork <= s.top.chainWork
  {
  }

  /** After a reorganization the new branch is active and nothing else. */
  lemma ReorgActive(s: State, hdr: Hash -> Header, w: Wrapper, parent: Block)
    requires Core(s, hdr) && Active(s) && IsBlock(hdr, s.genesis, w.header)
    requires w.header.prev in s.store && Same(s.store[w.header.prev], parent)
    requires Attach(w.header, parent).chainWork > s.top.chainWork
    ensures Core(ProcessSide(s, w, parent, Accept), hdr) && Active(ProcessSide(s, w, parent, Accept))
  {
    var block := Attach(w.header, parent);
    ChildFits(s.store, s.genesis, hdr, w.header, parent);
    SideReorganizes(s, hdr, w, parent);
    assert ProcessSide(s, w, parent, Accept).genesis == s.genesis by {
      SideFields(s, w, parent, Accept);
    }
    hide ProcessSide;
    ReorgFlags(s, hdr, block);
    ReorgKeeps(s, hdr, w, block);
    NewBranch(s, hdr, block, AfterReorg(s, block));
    hide Path, Branch, Tree, Faithful, Fits, Core, FindFork, AfterReorg;
  }

  lemma ReorgFlags(s: State, hdr: Hash -> Header, block: Block)
    requires Core(s, hdr) && Active(s) && Fits(s.store, s.genesis, block) && block.header == hdr(block.header.hash)
    requires FindFork(s.store, s.top, block).Ok?
    ensures var t := AfterReorg(s, block);
            forall x :: x in t ==> (t[x].active <==> x in Branch(s.store, s.genesis, block))
  {
    ReorganizedEffect(s, hdr, block);
    var f := FindFork(s.store, s.top, block).value;
    var dis := SaveAll(s.store, f.toDisconnect, false);
    assert Same(s.store[s.top.header.hash], s.top);
    assert Branch(s.store, s.genesis, s.top) == Path(s.store, s.genesis, s.top.header.hash);
    var t := AfterReorg(s, block);
    hide Path, Branch, Tree, Faithful, Fits, Core, FindFork, SaveAll;
    ForkFlags(s.store, dis, Reorganized(s.store, f), t, block, Hashes(f.toDisconnect), Hashes(f.toConnect),
              Branch(s.store, s.genesis, s.top), Branch(s.store, s.genesis, block), Branch(s.store, s.genesis, f.root));
  }

  /** The new tip's branch in the new store is its branch in the old one. */
  lemma NewBranch(s: State, hdr: Hash -> Header, block: Block, t: Store)
    requires Core(s, hdr) && Fits(s.store, s.genesis, block) && block.header.hash != s.genesis
    requires Tree(t, s.genesis) && Within(s.store, t) && block.header.hash in t
    requires Same(t[block.header.hash], block)
    ensures Path(t, s.genesis, block.header.hash) == Branch(s.store, s.genesis, block)
  {
    PathWithin(s.store, t, s.genesis, block.header.prev);
  }

  /** The flags after the passes of a reorganization, as the lists of the fork decide them. */
  lemma ForkFlags(
    store: Store, dis: Store, con: Store, t: Store, block: Block, a: seq<Hash>, b: seq<Hash>,
    oldBranch: seq<Hash>, newBranch: seq<Hash>, root: seq<Hash>)
    requires oldBranch == a + root && newBranch == b + root && Disjoint(a, newBranch) && Disjoint(b, oldBranch)
    requires block.header.hash in newBranch && t == con[block.header.hash := block.(active := true)]
    requires forall x :: x in store ==> (store[x].active <==> x in oldBranch)
    requires (forall x :: x in dis <==> x in store || x in a) && (forall x :: x in con <==> x in dis || x in b)
    requires (forall x :: x in a ==> !dis[x].active) && (forall x :: x in b ==> con[x].active)
    requires forall x :: x in store && x !in a ==> dis[x] == store[x]
    requires forall x :: x in dis && x !in b ==> con[x] == dis[x]
    ensures forall x :: x in t ==> (t[x].active <==> x in newBranch)
  {
    forall x | x in t
      ensures t[x].active <==> x in newBranch
    {
      if x == block.header.hash || x in b {
      } else if x in a {
      } else {
        assert x in store && t[x] == store[x];
      }
    }
  }

  /** A rejected block leaves the flags. */
  lemma MainRejected(s: State, w: Wrapper, verdict: Verdict)
    requires verdict != Accept
    ensures var t := ProcessMain(s, w, verdict); t.store == s.store && t.top == s.top && t.genesis == s.genesis
  {
    hide SetRecent, Kids;
  }

  lemma SideRejected(s: State, w: Wrapper, parent: Block, verdict: Verdict)
    requires verdict != Accept
    ensures var t := ProcessSide(s, w, parent, verdict); t.store == s.store && t.top == s.top && t.genesis == s.genesis
  {
    hide SetRecent, Kids, FindFork, Reorganized;
  }

  lemma MainActiveIff(s: State, hdr: Hash -> Header, w: Wrapper, verdict: Verdict)
    requires Core(s, hdr) && Active(s) && IsBlock(hdr, s.genesis, w.header) && w.header.prev == s.top.header.hash
    ensures Core(ProcessMain(s, w, verdict), hdr) && Active(ProcessMain(s, w, verdict))
  {
    MainKeeps(s, hdr, w, verdict);
    if verdict == Accept {
      MainActive(s, hdr, w);
    } else {
      MainRejected(s, w, verdict);
    }
    hide ProcessMain, Path, Tree, Faithful;
  }

  lemma SideActiveIff(s: State, hdr: Hash -> Header, w: Wrapper, parent: Block, verdict: Verdict)
    requires Core(s, hdr) && Active(s) && IsBlock(hdr, s.genesis, w.header)
    requires w.header.prev in s.store && Same(s.store[w.header.prev], parent)
    ensures Core(ProcessSide(s, w, parent, verdict), hdr)
    ensures Active(ProcessSide(s, w, parent, verdict)) <==>
              !(verdict == Accept && w.header.hash in s.store && s.store[w.header.hash].active)
  {
    SideKeeps(s, hdr, w, parent, verdict);
    hide ProcessSide, Path, Tree, Faithful;
    if verdict == Accept {
      StoredHasNoMoreWork(s, hdr, w, parent);
      if Attach(w.header, parent).chainWork <= s.top.chainWork {
        SideActive(s, hdr, w, parent);
      } else {
        ReorgActive(s, hdr, w, parent);
      }
    } else {
      SideRejected(s, w, parent, verdict);
    }
  }

  lemma PreparedActive(s: State, hdr: Hash -> Header, w: Wrapper)
    requires Core(s, hdr) && Active(s)
    ensures var s1 := Prepare(s, w);
            && Core(s1, hdr) && Active(s1) && s1.store == s.store && s1.top == s.top && s1.genesis == s.genesis
            && (Place(s1, w).Main? ==> w.header.prev == s.top.header.hash)
  {
    hide Path, Tree, Faithful;
  }

  /** The flags stay right in a step exactly when it does not save an active block again as a side block. */
  lemma ActiveIff(s: State, hdr: Hash -> Header, w: Wrapper, verdict: Verdict)
    requires Core(s, hdr) && Active(s) && IsBlock(hdr, s.genesis, w.header)
    ensures Core(Process(s, w, verdict), hdr)
    ensures Active(Process(s, w, verdict)) <==> !Deactivates(s, w, verdict)
  {
    ProcessKeeps(s, hdr, w, verdict);
    PreparedActive(s, hdr, w);
    var s1 := Prepare(s, w);
    hide Prepare, ProcessMain, ProcessSide, Path, Tree, Faithful, IsBlock;
    match Place(s1, w)
    case Main => MainActiveIff(s1, hdr, w, verdict);
    case Side(parent) =>
      SideParent(s1, hdr, w);
      SideActiveIff(s1, hdr, w, parent, verdict);
    case Behind(orphan) =>
    case Head =>
    case Known =>
  }

  /**
   * The top changes only to a block just processed that extends it or has strictly
   * more work: among equals the earlier top stays.
   */
  lemma TopMoves(s: State, hdr: Hash -> Header, w: Wrapper, verdict: Verdict)
    requires Core(s, hdr) && IsBlock(hdr, s.genesis, w.header)
    ensures var t := Process(s, w, verdict);
            t.top == s.top
            || (t.top.header == w.header && (w.header.prev == s.top.header.hash || t.top.chainWork > s.top.chainWork))
  {
    var s1 := Prepare(s, w);
    assert s1.top == s.top;
    hide Prepare, ProcessMain, ProcessSide, Core, IsBlock;
    match Place(s1, w)
    case Main => MainTop(s1, w, verdict);
    case Side(parent) => SideTop(s1, w, parent, verdict);
    case Behind(orphan) =>
    case Head =>
    case Known =>
  }

  lemma MainTop(s: State, w: Wrapper, verdict: Verdict)
    ensures ProcessMain(s, w, verdict).top ==
              if verdict == Accept then Attach(w.header, s.top).(active := true) else s.top
  {
    hide SetRecent, Kids;
  }

  lemma SideTop(s: State, w: Wrapper, parent: Block, verdict: Verdict)
    ensures var t := ProcessSide(s, w, parent, verdict);
            t.top == s.top || (t.top.header == w.header && t.top.chainWork > s.top.chainWork)
  {
    hide SetRecent, FindFork, Reorganized, Kids;
  }

  // ----- runs -----

  /** The wrappers that hold a block. */
  ghost function HoldsBlock(hdr: Hash -> Header, genesis: Hash): Wrapper -> bool {
    (w: Wrapper) => IsBlock(hdr, genesis, w.header)
  }

  /** Only blocks are delivered. */
  ghost predicate DeliversBlocks(events: seq<Event>, hdr: Hash -> Header, genesis: Hash) {
    forall i :: 0 <= i < |events| && events[i].Deliver? ==> IsBlock(hdr, genesis, events[i].header)
  }

  /** No step of the run saves an active block again as a side block. */
  predicate NeverDeactivates(s: State, events: seq<Event>) {
    if events == [] then true
    else
      var before := After(s, events[..|events| - 1]);
      var e := events[|events| - 1];
      && NeverDeactivates(s, events[..|events| - 1])
      && (e.Work? && before.queue != [] ==>
            !Deactivates(before.(queue := before.queue[1..]), before.queue[0], e.verdict))
  }

  lemma GenesisStays(s: State, w: Wrapper, verdict: Verdict)
    ensures Process(s, w, verdict).genesis == s.genesis
  {
    var s1 := Prepare(s, w);
    assert s1.genesis == s.genesis;
    hide Prepare, ProcessMain, ProcessSide;
    match Place(s1, w)
    case Main => MainFields(s1, w, verdict);
    case Side(parent) => SideFields(s1, w, parent, verdict);
    case Behind(orphan) =>
    case Head =>
    case Known =>
  }

  lemma NextKeeps(s: State, hdr: Hash -> Header, e: Event)
    requires Core(s, hdr) && AllHeld(s, HoldsBlock(hdr, s.genesis))
    requires e.Deliver? ==> IsBlock(hdr, s.genesis, e.header)
    ensures Core(Next(s, e), hdr) && AllHeld(Next(s, e), HoldsBlock(hdr, s.genesis))
    ensures Next(s, e).genesis == s.genesis
  {
    if e.Work? && s.queue != [] {
      var popped := s.(queue := s.queue[1..]);
      hide Core, AllHeld, Process;
      QueueCore(s, popped, hdr);
      PoppedHolds(s, HoldsBlock(hdr, s.genesis));
      ProcessKeeps(popped, hdr, s.queue[0], e.verdict);
      ProcessHolds(popped, HoldsBlock(hdr, s.genesis), s.queue[0], e.verdict);
      GenesisStays(popped, s.queue[0], e.verdict);
    } else if e.Deliver? {
      AddKeeps(s, hdr, e.header);
    }
  }

  lemma AddKeeps(s: State, hdr: Hash -> Header, header: Header)
    requires Core(s, hdr) && AllHeld(s, HoldsBlock(hdr, s.genesis)) && IsBlock(hdr, s.genesis, header)
    ensures Core(Add(s, header), hdr) && AllHeld(Add(s, header), HoldsBlock(hdr, s.genesis))
  {
    QueueCore(s, Add(s, header), hdr);
    hide Core, IsBlock;
  }

  /**
   * In every run, with orphans, duplicates, rejected blocks and reorganizations in
   * any order: heights and work are consistent and no stored block has more
   * accumulated work than the top.
   */
  lemma {:induction false} EveryRun(hdr: Hash -> Header, genesis: Header, events: seq<Event>)
    requires hdr(genesis.hash) == genesis && genesis.prev != genesis.hash
    requires DeliversBlocks(events, hdr, genesis.hash)
    ensures var s := After(Init(genesis), events);
            Core(s, hdr) && AllHeld(s, HoldsBlock(hdr, genesis.hash)) && s.genesis == genesis.hash
  {
    hide Core, AllHeld, Next, IsBlock;
    if events == [] {
      InitSound(hdr, genesis);
    } else {
      var front, e := events[..|events| - 1], events[|events| - 1];
      EveryRun(hdr, genesis, front);
      assert e == events[|events| - 1];
      NextKeeps(After(Init(genesis), front), hdr, e);
    }
  }

  lemma InitSound(hdr: Hash -> Header, genesis: Header)
    requires hdr(genesis.hash) == genesis && genesis.prev != genesis.hash
    ensures Core(Init(genesis), hdr) && AllHeld(Init(genesis), HoldsBlock(hdr, genesis.hash)) && Active(Init(genesis))
  {
  }

  /** And while no active block is saved again as a side block, exactly the path to the top is active. */
  lemma {:induction false} ActiveInRun(hdr: Hash -> Header, genesis: Header, events: seq<Event>)
    requires hdr(genesis.hash) == genesis && genesis.prev != genesis.hash
    requires DeliversBlocks(events, hdr, genesis.hash) && NeverDeactivates(Init(genesis), events)
    ensures Core(After(Init(genesis), events), hdr) && Active(After(Init(genesis), events))
  {
    EveryRun(hdr, genesis, events);
    if events == [] {
      InitSound(hdr, genesis);
    } else {
      var front, e := events[..|events| - 1], events[|events| - 1];
      ActiveInRun(hdr, genesis, front);
      EveryRun(hdr, genesis, front);
      hide Path, Tree, Process, Deactivates;
      var before := After(Init(genesis), front);
      if e.Work? && before.queue != [] {
        PoppedHolds(before, HoldsBlock(hdr, genesis.hash));
        hide AllHeld, Core;
        QueueCore(before, before.(queue := before.queue[1..]), hdr);
        ActiveIff(before.(queue := before.queue[1..]), hdr, before.queue[0], e.verdict);
      }
    }
  }

  /** The active flags are right. */
  ghost predicate FlagsRight(s: State) {
    Tree(s.store, s.genesis) && s.top.header.hash in s.store && Active(s)
  }

  /** The flags are right at every time of a run exactly when none of its steps saves an active block again. */
  lemma {:induction false} ActiveRunIff(hdr: Hash -> Header, genesis: Header, events: seq<Event>)
    requires hdr(genesis.hash) == genesis && genesis.prev != genesis.hash
    requires DeliversBlocks(events, hdr, genesis.hash)
    ensures NeverDeactivates(Init(genesis), events) <==>
              forall n :: 0 <= n <= |events| ==> FlagsRight(After(Init(genesis), events[..n]))
  {
    hide FlagsRight, After, Init, Deactivates, IsBlock;
    if events == [] {
      InitFlags(hdr, genesis, events);
    } else {
      var front := events[..|events| - 1];
      ActiveRunIff(hdr, genesis, front);
      assert events[..|events|] == events && front[..|front|] == front;
      assert forall n :: 0 <= n <= |front| ==> front[..n] == events[..n];
      if FlagsRight(After(Init(genesis), front)) {
        LastFlags(hdr, genesis, events);
      }
    }
  }

  lemma InitFlags(hdr: Hash -> Header, genesis: Header, events: seq<Event>)
    requires hdr(genesis.hash) == genesis && genesis.prev != genesis.hash && events == []
    ensures forall n :: 0 <= n <= |events| ==> FlagsRight(After(Init(genesis), events[..n]))
  {
    InitSound(hdr, genesis);
  }

  lemma LastFlags(hdr: Hash -> Header, genesis: Header, events: seq<Event>)
    requires hdr(genesis.hash) == genesis && genesis.prev != genesis.hash && events != []
    requires DeliversBlocks(events, hdr, genesis.hash)
    requires FlagsRight(After(Init(genesis), events[..|events| - 1]))
    ensures var s, e := After(Init(genesis), events[..|events| - 1]), events[|events| - 1];
            FlagsRight(After(Init(genesis), events)) <==>
              !(e.Work? && s.queue != [] && Deactivates(s.(queue := s.queue[1..]), s.queue[0], e.verdict))
  {
    var front, e := events[..|events| - 1], events[|events| - 1];
    EveryRun(hdr, genesis, front);
    var s := After(Init(genesis), front);
    hide Core, Init, AllHeld, DeliversBlocks, FlagsRight, Deactivates, HoldsBlock, Next;
    NextFlags(s, hdr, genesis.hash, e);
  }

  /** One event at the end of a run. */
  lemma NextFlags(s: State, hdr: Hash -> Header, g: Hash, e: Event)
    requires Core(s, hdr) && AllHeld(s, HoldsBlock(hdr, g)) && s.genesis == g && FlagsRight(s)
    ensures FlagsRight(Next(s, e)) <==>
              !(e.Work? && s.queue != [] && Deactivates(s.(queue := s.queue[1..]), s.queue[0], e.verdict))
  {
    hide Path, Tree, Process, Deactivates, AllHeld, Faithful, IsBlock;
    if e.Work? && s.queue != [] {
      PoppedHolds(s, HoldsBlock(hdr, g));
      QueueCore(s, s.(queue := s.queue[1..]), hdr);
      ActiveIff(s.(queue := s.queue[1..]), hdr, s.queue[0], e.verdict);
    }
  }

  /** Every block a run processes is new to the store when its turn comes. */
  predicate OnlyNewBlocks(s: State, events: seq<Event>) {
    if events == [] then true
    else
      var before := After(s, events[..|events| - 1]);
      && OnlyNewBlocks(s, events[..|events| - 1])
      && (events[|events| - 1].Work? && before.queue != [] ==> before.queue[0].header.hash !in before.store)
  }

  lemma {:induction false} NewBlocksNeverDeactivate(s: State, events: seq<Event>)
    requires OnlyNewBlocks(s, events)
    ensures NeverDeactivates(s, events)
  {
    hide Place, Prepare, After;
    if events != [] {
      NewBlocksNeverDeactivate(s, events[..|events| - 1]);
    }
  }

  // ----- the guard can fire -----

  const G := Header(0, 9, 1)
  const B1 := Header(1, 0, 1)
  const B2 := Header(2, 1, 1)
  const B3 := Header(3, 2, 1)
  const W3 := Wrapper(0, B3)
  const W2 := Wrapper(1, B2)
  const W1 := Wrapper(2, B1)

  /** Three blocks of one chain, delivered in reverse order and each processed at once; then the queue drains. */
  function ReverseRun(): seq<Event> {
    [Deliver(B3), Work(Accept), Deliver(B2), Work(Accept), Deliver(B1),
     Work(Accept), Work(Accept), Work(Accept), Work(Accept), Work(Accept)]
  }

  lemma Snoc(s: State, events: seq<Event>, k: nat)
    requires k < |events|
    ensures After(s, events[..k + 1]) == Next(After(s, events[..k]), events[k])
  {
    assert events[..k + 1][..k] == events[..k];
  }

  /** The orphans wait: the second block is listed twice below the first. */
  lemma ReverseOrphans()
    ensures var t := Add(Tick(Add(Tick(Add(Init(G), B3), Accept), B2), Accept), B1);
            && t == Init(G).(connecting := t.connecting, heads := t.heads, children := t.children,
                             queue := [W1], nextId := 3)
            && t.connecting == map[3 := W3, 2 := W2] && t.heads == map[1 := [W2, W2]] && t.children == map[W2 := [W3]]
  {
    var none: seq<Wrapper> := [];
    assert none + [W3] == [W3] && none + [W2] == [W2] && [W2] + [W2] == [W2, W2] && none + [W1] == [W1];
    var s := Tick(Add(Init(G), B3), Accept);
    assert s == Init(G).(connecting := s.connecting, heads := s.heads, nextId := 1);
    assert s.connecting == map[3 := W3] && s.heads == map[2 := [W3]];
    var t := Tick(Add(s, B2), Accept);
    assert Add(s, B2).queue == [W2];
    assert s.heads - {2} == map[];
    assert t.heads == map[1 := [W2, W2]];
  }

  /** The first block arrives: the second is queued twice. */
  lemma ReverseArrives(s: State)
    requires s == Init(G).(connecting := s.connecting, heads := s.heads, children := s.children,
                           queue := [W1], nextId := 3)
    requires s.connecting == map[3 := W3, 2 := W2] && s.heads == map[1 := [W2, W2]] && s.children == map[W2 := [W3]]
    ensures var t := Tick(s, Accept);
            && t.top == Block(B1, 1, 2, true) && t.connecting == map[3 := W3, 2 := W2] && t.queue == [W2, W2]
            && t.recent == Recent([1], map[1 := t.top])
            && t.children == map[W2 := [W3], W1 := [W2, W2]] && t.heads == map[0 := [W1]]
  {
    var none: seq<Wrapper> := [];
    assert none + [W1] == [W1] && s.heads - {1} == map[];
  }

  /** The second block connects, and is queued once more. */
  lemma ReverseSecond(s: State)
    requires s.top == Block(B1, 1, 2, true) && s.connecting == map[3 := W3, 2 := W2] && s.queue == [W2, W2]
    requires s.recent == Recent([1], map[1 := s.top])
    requires s.children == map[W2 := [W3], W1 := [W2, W2]] && s.heads == map[0 := [W1]]
    ensures var t := Tick(s, Accept);
            && t.top == Block(B2, 2, 3, true) && t.connecting == map[3 := W3] && t.queue == [W3, W2]
            && t.recent == Recent([1, 2], map[1 := s.top, 2 := t.top])
            && t.children == s.children && t.heads == s.heads
  {
    hide ProcessSide;
  }

  /** The main chain grows to the third block, and the second is still queued. */
  lemma ReverseGrows(s: State)
    requires s.top == Block(B2, 2, 3, true) && s.connecting == map[3 := W3] && s.queue == [W3, W2]
    requires s.recent == Recent([1, 2], map[1 := Block(B1, 1, 2, true), 2 := s.top])
    requires s.children == map[W2 := [W3], W1 := [W2, W2]] && s.heads == map[0 := [W1]]
    ensures var t := Tick(s, Accept);
            && t.top == Block(B3, 3, 4, true) && t.connecting == map[] && t.queue == [W2]
            && t.recent.index == map[1 := Block(B1, 1, 2, true), 2 := Block(B2, 2, 3, true), 3 := Block(B3, 3, 4, true)]
            && t.recent.list == [1, 2, 3] && t.children == s.children && t.heads == s.heads
  {
    hide ProcessSide;
  }

  /** The second block is saved again as a side block, and then the third. */
  lemma ReverseSavesAgain(s: State)
    requires s.top == Block(B3, 3, 4, true) && s.connecting == map[] && s.queue == [W2]
    requires s.recent.index == map[1 := Block(B1, 1, 2, true), 2 := Block(B2, 2, 3, true), 3 := Block(B3, 3, 4, true)]
    requires s.recent.list == [1, 2, 3] && s.children == map[W2 := [W3], W1 := [W2, W2]] && s.heads == map[0 := [W1]]
    ensures var t := Tick(Tick(s, Accept), Accept);
            && t.queue == [] && t.top == s.top
            && 2 in t.store && t.store[2] == Block(B2, 2, 3, false)
            && 3 in t.store && t.store[3] == Block(B3, 3, 4, false)
  {
    var a := Tick(s, Accept);
    assert a.queue == [W3] && a.top == s.top && a.recent.list == [1, 2, 3, 2];
  }

  /**
   * Not every run keeps the flags. Here the second block is queued twice, because it
   * was listed twice as the head of an orphan chain, and the second time it and its
   * child are saved as side blocks: the top itself ends up stored as inactive.
   */
  lemma ReverseDeliveryLosesTheFlags()
    ensures var s := After(Init(G), ReverseRun());
            && s.queue == [] && s.top.header == B3
            && 3 in s.store && s.store[3].header == B3 && !s.store[3].active
            && 2 in s.store && s.store[2].header == B2 && !s.store[2].active
  {
    ReverseOrphans();
    ReverseUnrolled();
    hide After, Tick, Add, Init, ReverseRun;
    var s := Add(Tick(Add(Tick(Add(Init(G), B3), Accept), B2), Accept), B1);
    ReverseArrives(s);
    ReverseSecond(Tick(s, Accept));
    ReverseGrows(Tick(Tick(s, Accept), Accept));
    ReverseSavesAgain(Tick(Tick(Tick(s, Accept), Accept), Accept));
  }

  lemma ReverseUnrolled()
    ensures var s := Add(Tick(Add(Tick(Add(Init(G), B3), Accept), B2), Accept), B1);
            After(Init(G), ReverseRun()) == Tick(Tick(Tick(Tick(Tick(s, Accept), Accept), Accept), Accept), Accept)
  {
    var run := ReverseRun();
    assert run[..10] == run && After(Init(G), run[..0]) == Init(G);
    hide After, Tick, Add, Init;
    for k := 0 to 10
      invariant After(Init(G), run[..k]) == Unrolled(k)
    {
      Snoc(Init(G), run, k);
    }
  }

  /** The first k events of the run, one by one. */
  function Unrolled(k: nat): State {
    if k == 0 || k > 10 then Init(G) else Next(Unrolled(k - 1), ReverseRun()[k - 1])
  }
}
