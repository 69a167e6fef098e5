/** What arrives is connected: deliveries of the blocks of any tree, in any order. */
module Delivery {
  import opened BlockTree
  import opened BlockChain
  import opened ChainInvariant
  import opened ActiveChain
  import opened Drain

  // ----- the invariant -----

  /** The delivered wrappers, by the hashes of their blocks. */
  type Delivered = map<Hash, Wrapper>

  /** Blocks above genesis that are not their own parents. */
  ghost predicate IsAbove(hdr: Hash -> Header, genesis: Hash, x: Header) {
    IsBlock(hdr, genesis, x) && x.hash != genesis && x.prev != x.hash
  }

  ghost predicate OfTree(ws: Delivered, hdr: Hash -> Header, genesis: Hash) {
    forall h :: h in ws ==> ws[h].header.hash == h && IsAbove(hdr, genesis, ws[h].header)
  }

  ghost function Mine(ws: Delivered): Wrapper -> bool {
    (w: Wrapper) => w.header.hash in ws && ws[w.header.hash] == w
  }

  /** Only delivered blocks are queued, indexed or stored. */
  ghost predicate Held(s: State, hdr: Hash -> Header, ws: Delivered) {
    && Core(s, hdr) && Linked(s) && AllHeld(s, Mine(ws)) && OfTree(ws, hdr, s.genesis)
    && (forall h :: h in s.store ==> h == s.genesis || h in ws)
    && s.store[s.genesis].chainWork == hdr(s.genesis).work
  }

  /** The wrapper is an orphan below its parent's hash, or a child of the delivered parent. */
  predicate Waits(s: State, ws: Delivered, w: Wrapper) {
    var p := w.header.prev;
    (p in s.heads && w in s.heads[p]) || (p in ws && w in Kids(s, ws[p]))
  }

  /** The block will be looked at again: it is queued, or it waits below a block that is not stored yet. */
  predicate Pending(s: State, ws: Delivered, w: Wrapper) {
    w in s.queue || (w.header.prev !in s.store && Waits(s, ws, w))
  }

  /** No delivered block is lost before it is stored, but for those excepted. */
  ghost predicate AllPending(s: State, ws: Delivered, except: set<Hash>) {
    forall h :: h in ws && h !in s.store && h !in except ==> Pending(s, ws, ws[h])
  }

  // ----- the two ways to lose a block -----

  /**
   * Taking over the orphans listed below a block replaces its children: one that is
   * not among those orphans is in no list any more. Blocks that verification is
   * going to reject do not count.
   */
  predicate Overwrites(s: State, w: Wrapper, bad: set<Hash>) {
    var h := w.header.hash;
    h in s.heads && exists v | v in Kids(s, w) ::
      v !in s.heads[h] && v.header.hash !in s.store && v.header.hash !in bad && v !in s.queue
  }

  /**
   * A block that is placed behind a parent which is stored already, but was indexed
   * again, becomes a child of a block that is not going to be connected.
   */
  predicate Parks(s: State, w: Wrapper, bad: set<Hash>) {
    && Place(Prepare(s, w), w).Behind?
    && w.header.prev in s.store && w.header.hash !in s.store && w.header.hash !in bad && w !in s.queue
  }

  predicate Loses(s: State, w: Wrapper, bad: set<Hash>) {
    Overwrites(s, w, bad) || Parks(s, w, bad)
  }

  // ----- preparing a block -----

  lemma PrepareHeld(s: State, hdr: Hash -> Header, ws: Delivered, w: Wrapper)
    requires Held(s, hdr, ws) && Mine(ws)(w)
    ensures Held(Prepare(s, w), hdr, ws) && Prepare(s, w).store == s.store && Prepare(s, w).top == s.top
    ensures Prepare(s, w).queue == s.queue && w.header.hash !in Prepare(s, w).heads
  {
    PrepareLinked(s, w);
    PrepareHolds(s, Mine(ws), w);
    assert Core(Prepare(s, w), hdr);
    hide Core, Linked, AllHeld, IsBlock;
  }

  /** A block that waits elsewhere, or is among the orphans taken over, goes on waiting. */
  lemma PrepareWaits(s: State, ws: Delivered, w: Wrapper, v: Wrapper)
    requires Mine(ws)(w) && w.header.prev != w.header.hash && Waits(s, ws, v)
    requires v.header.prev in ws ==> ws[v.header.prev].header.hash == v.header.prev
    requires v.header.prev == w.header.hash && w.header.hash in s.heads ==> v in s.heads[w.header.hash]
    ensures Waits(Prepare(s, w), ws, v)
  {
  }

  lemma PreparePending(s: State, hdr: Hash -> Header, ws: Delivered, w: Wrapper, bad: set<Hash>)
    requires Held(s, hdr, ws) && Mine(ws)(w) && AllPending(s, ws, bad + {w.header.hash}) && !Overwrites(s, w, bad)
    ensures AllPending(Prepare(s, w), ws, bad + {w.header.hash})
  {
    PrepareHeld(s, hdr, ws, w);
    var s1, j := Prepare(s, w), w.header.hash;
    assert w.header.prev != j;
    hide Core, Linked, AllHeld, Prepare, Waits, IsBlock;
    forall h | h in ws && h !in s1.store && h !in bad + {j}
      ensures Pending(s1, ws, ws[h])
    {
      var v := ws[h];
      assert Pending(s, ws, v) && v.header.hash == h;
      if v !in s.queue {
        if v.header.prev == j && j in s.heads {
          TakenOver(s, hdr, ws, w, v, bad);
        }
        PrepareWaits(s, ws, w, v);
      }
    }
  }

  /** Where no child is overwritten, the waiting children are among the orphans. */
  lemma TakenOver(s: State, hdr: Hash -> Header, ws: Delivered, w: Wrapper, v: Wrapper, bad: set<Hash>)
    requires Mine(ws)(w) && !Overwrites(s, w, bad) && w.header.hash in s.heads
    requires v.header.prev == w.header.hash && Waits(s, ws, v) && v !in s.queue
    requires v.header.hash !in s.store && v.header.hash !in bad
    ensures v in s.heads[w.header.hash]
  {
  }

  /** A delivered block that is not stored, not queued and waits nowhere. */
  predicate Gone(s: State, ws: Delivered, v: Wrapper) {
    && v.header.hash in ws && ws[v.header.hash] == v && v.header.hash !in s.store
    && v !in s.queue && !Waits(s, ws, v)
  }

  /** An overwritten child is gone. */
  lemma OverwrittenGone(s: State, hdr: Hash -> Header, ws: Delivered, w: Wrapper, bad: set<Hash>) returns (v: Wrapper)
    requires Held(s, hdr, ws) && Mine(ws)(w) && Overwrites(s, w, bad)
    ensures Gone(Prepare(s, w), ws, v) && v != w && v.header.prev == w.header.hash && v.header.hash !in bad
  {
    hide Core, IsBlock, Prepare, Place;
    v :| v in Kids(s, w) && v !in s.heads[w.header.hash] && v.header.hash !in s.store && v.header.hash !in bad
      && v !in s.queue;
    assert v.header.prev == w.header.hash && Mine(ws)(v);
    assert ws[w.header.hash].header.prev != w.header.hash;
    hide Linked, AllHeld, Held, OfTree;
    NotTakenOver(s, ws, w, v);
  }

  lemma NotTakenOver(s: State, ws: Delivered, w: Wrapper, v: Wrapper)
    requires Mine(ws)(w) && w.header.prev != w.header.hash && w.header.hash in s.heads
    requires v.header.prev == w.header.hash && v !in s.heads[w.header.hash]
    ensures !Waits(Prepare(s, w), ws, v) && Prepare(s, w).queue == s.queue && Prepare(s, w).store == s.store
  {
  }

  // ----- connecting or listing a prepared block -----

  /** Nothing leaves the queue or the orphan indexes, and the stored blocks are the same. */
  ghost predicate Grows(s: State, t: State) {
    && t.store.Keys == s.store.Keys
    && (forall w :: w in s.queue ==> w in t.queue)
    && (forall h, w :: h in s.heads && w in s.heads[h] ==> h in t.heads && w in t.heads[h])
    && (forall v, w :: w in Kids(s, v) ==> w in Kids(t, v))
  }

  lemma GrowsPending(s: State, t: State, ws: Delivered, except: set<Hash>)
    requires AllPending(s, ws, except) && Grows(s, t)
    ensures AllPending(t, ws, except)
  {
    assert forall h :: h in t.store <==> h in s.store;
  }

  /** The block has been stored and its children queued. */
  ghost predicate Stored(s: State, t: State, w: Wrapper) {
    && t.heads == s.heads && t.children == s.children && t.store.Keys == s.store.Keys + {w.header.hash}
    && (t.queue == Kids(s, w) + s.queue || t.queue == s.queue + Kids(s, w))
  }

  /** Storing a block loses none of the blocks that wait below it. */
  lemma StoredPending(s: State, t: State, ws: Delivered, w: Wrapper, bad: set<Hash>)
    requires AllPending(s, ws, bad + {w.header.hash}) && Stored(s, t, w) && Mine(ws)(w) && w.header.hash !in s.heads
    ensures AllPending(t, ws, bad)
  {
    var j := w.header.hash;
    assert forall h :: h in t.store <==> h in s.store || h == j;
    forall h | h in ws && h !in t.store && h !in bad
      ensures Pending(t, ws, ws[h])
    {
      assert Pending(s, ws, ws[h]);
    }
  }

  lemma MainStores(s: State, w: Wrapper)
    ensures var t := ProcessMain(s, w, Accept);
            && Stored(s, t, w) && t.top == Attach(w.header, s.top).(active := true)
            && t.store == s.store[w.header.hash := t.top]
  {
    hide SetRecent, Kids;
  }

  lemma SideStores(s: State, hdr: Hash -> Header, w: Wrapper, parent: Block)
    requires Core(s, hdr) && IsBlock(hdr, s.genesis, w.header)
    requires w.header.prev in s.store && Same(s.store[w.header.prev], parent)
    ensures var t := ProcessSide(s, w, parent, Accept);
            Stored(s, t, w) && (w.header.hash != s.genesis ==> Within(s.store, t.store))
  {
    var block := Attach(w.header, parent);
    ChildFits(s.store, s.genesis, hdr, w.header, parent);
    if block.chainWork > s.top.chainWork {
      SideReorganizes(s, hdr, w, parent);
      ReorgKeeps(s, hdr, w, block);
      hide Core, Fits, SetRecent, Kids, FindFork, Reorganized, AfterReorg, Within;
      SideQueues(s, w, parent);
    } else {
      hide Core, SetRecent, Kids, FindFork;
    }
  }

  lemma SideQueues(s: State, w: Wrapper, parent: Block)
    requires Attach(w.header, parent).chainWork > s.top.chainWork
    requires FindFork(s.store, s.top, Attach(w.header, parent)).Ok?
    ensures var t := ProcessSide(s, w, parent, Accept);
            t.heads == s.heads && t.children == s.children && t.queue == s.queue + Kids(s, w)
  {
    hide SetRecent, Kids, FindFork, Reorganized;
  }

  /** Every block is found again, but for its flag. */
  lemma MainWithin(s: State, hdr: Hash -> Header, w: Wrapper)
    requires Core(s, hdr) && IsBlock(hdr, s.genesis, w.header) && w.header.prev == s.top.header.hash
    ensures Within(s.store, ProcessMain(s, w, Accept).store)
  {
    ChildFits(s.store, s.genesis, hdr, w.header, s.top);
    MainStores(s, w);
    hide ProcessMain;
  }

  /** A rejected block changes neither the lists nor the store. */
  predicate Untouched(s: State, t: State) {
    t.heads == s.heads && t.children == s.children && t.queue == s.queue && t.store == s.store
  }

  lemma MainRejects(s: State, w: Wrapper, verdict: Verdict)
    requires verdict != Accept
    ensures Untouched(s, ProcessMain(s, w, verdict))
  {
    hide SetRecent, Kids;
  }

  lemma SideRejects(s: State, w: Wrapper, parent: Block, verdict: Verdict)
    requires verdict != Accept
    ensures Untouched(s, ProcessSide(s, w, parent, verdict))
  {
    hide SetRecent, Kids, FindFork, Reorganized;
  }

  /** What a step does with the store and, for a block that finds a stored parent, with the lists. */
  lemma ProcessStores(s: State, hdr: Hash -> Header, w: Wrapper, verdict: Verdict)
    requires Core(s, hdr) && IsAbove(hdr, s.genesis, w.header)
    ensures var s1, t := Prepare(s, w), Process(s, w, verdict);
            && Within(s.store, t.store)
            && (if Place(s1, w).Main? || Place(s1, w).Side? then
                  if verdict == Accept then Stored(s1, t, w) else Untouched(s1, t)
                else t.store == s.store)
  {
    var s1 := Prepare(s, w);
    assert Core(s1, hdr) && s1.store == s.store && s1.top == s.top;
    if Place(s1, w).Side? {
      SideParent(s1, hdr, w);
    }
    assert Place(s1, w).Main? ==> w.header.prev == s.top.header.hash;
    hide Prepare, Place, ProcessMain, ProcessSide, Stored, Untouched, Core, AddHead, Kids, Tree;
    match Place(s1, w)
    case Main =>
      if verdict == Accept {
        MainStores(s1, w);
        MainWithin(s1, hdr, w);
      } else {
        MainRejects(s1, w, verdict);
      }
    case Side(parent) =>
      if verdict == Accept {
        SideStores(s1, hdr, w, parent);
      } else {
        SideRejects(s1, w, parent, verdict);
      }
    case Behind(orphan) =>
    case Head =>
    case Known =>
  }

  lemma StepHeld(s: State, hdr: Hash -> Header, ws: Delivered, w: Wrapper, verdict: Verdict)
    requires Held(s, hdr, ws) && Mine(ws)(w)
    ensures Held(Process(s, w, verdict), hdr, ws)
  {
    hide Core, Linked, AllHeld, Process, Prepare, Place, IsBlock, Kids, Mine, Stored, Untouched;
    HeldBlock(s, hdr, ws, w);
    ProcessKeeps(s, hdr, w, verdict);
    ProcessLinked(s, w, verdict);
    ProcessHolds(s, Mine(ws), w, verdict);
    GenesisStays(s, w, verdict);
    ProcessStores(s, hdr, w, verdict);
    StoreHeld(s, hdr, ws, w, verdict);
  }

  lemma HeldBlock(s: State, hdr: Hash -> Header, ws: Delivered, w: Wrapper)
    requires Held(s, hdr, ws) && Mine(ws)(w)
    ensures IsAbove(hdr, s.genesis, w.header) && IsBlock(hdr, s.genesis, w.header) && s.genesis in s.store
  {
    hide Linked, AllHeld, Faithful;
  }

  /** The stored blocks after a step were delivered, and genesis keeps its work. */
  lemma StoreHeld(s: State, hdr: Hash -> Header, ws: Delivered, w: Wrapper, verdict: Verdict)
    requires Held(s, hdr, ws) && Mine(ws)(w)
    ensures var t := Process(s, w, verdict);
            && (forall h :: h in t.store ==> h == s.genesis || h in ws)
            && s.genesis in t.store && t.store[s.genesis].chainWork == hdr(s.genesis).work
  {
    HeldBlock(s, hdr, ws, w);
    ProcessStores(s, hdr, w, verdict);
    assert Prepare(s, w).store == s.store;
    hide Core, Linked, AllHeld, Process, Prepare, Place, IsAbove, Kids, OfTree;
  }

  // ----- one step loses nothing exactly when it does neither -----

  lemma BehindPending(s: State, hdr: Hash -> Header, ws: Delivered, w: Wrapper, orphan: Wrapper, bad: set<Hash>)
    requires Linked(s) && AllHeld(s, Mine(ws)) && Mine(ws)(w) && Place(s, w) == Behind(orphan)
    requires AllPending(s, ws, bad + {w.header.hash})
    ensures var t := s.(children := s.children[orphan := Kids(s, orphan) + [w]]);
            AllPending(t, ws, bad) <==>
              w.header.prev !in s.store || w.header.hash in s.store || w.header.hash in bad || w in s.queue
  {
    var t := s.(children := s.children[orphan := Kids(s, orphan) + [w]]);
    assert orphan.header.hash == w.header.prev && Mine(ws)(orphan);
    hide Linked, AllHeld, Place;
    assert Waits(t, ws, w);
    GrowsPending(s, t, ws, bad + {w.header.hash});
    hide Waits, Grows;
  }

  lemma HeadPending(s: State, ws: Delivered, w: Wrapper, bad: set<Hash>)
    requires Mine(ws)(w) && Place(s, w).Head? && AllPending(s, ws, bad + {w.header.hash})
    ensures AllPending(s.(heads := AddHead(s.heads, w)), ws, bad)
  {
    var t := s.(heads := AddHead(s.heads, w));
    assert Waits(t, ws, w);
    GrowsPending(s, t, ws, bad + {w.header.hash});
    hide Waits, Grows;
  }

  lemma UntouchedPending(s: State, t: State, ws: Delivered, w: Wrapper, bad: set<Hash>)
    requires AllPending(s, ws, bad + {w.header.hash}) && Untouched(s, t)
    requires w.header.hash in s.store || w.header.hash in bad
    ensures AllPending(t, ws, bad)
  {
    GrowsPending(s, t, ws, bad + {w.header.hash});
    hide Pending;
  }

  /** From a prepared state that has lost nothing. */
  lemma PlacedPending(s: State, hdr: Hash -> Header, ws: Delivered, w: Wrapper, verdict: Verdict, bad: set<Hash>)
    requires Held(s, hdr, ws) && Mine(ws)(w)
    requires w.header.hash !in s.store && w.header.hash !in bad ==> verdict == Accept
    requires AllPending(Prepare(s, w), ws, bad + {w.header.hash})
    ensures AllPending(Process(s, w, verdict), ws, bad) <==> !Parks(s, w, bad)
  {
    hide Held, Mine, AllPending, Prepare, Process;
    if Place(Prepare(s, w), w).Behind? {
      hide Place;
      PlacedBehind(s, hdr, ws, w, verdict, bad);
    } else if Place(Prepare(s, w), w).Head? || Place(Prepare(s, w), w).Known? {
      hide Place;
      PlacedWaits(s, hdr, ws, w, verdict, bad);
    } else {
      hide Place;
      ConnectedPending(s, hdr, ws, w, verdict, bad);
    }
  }

  lemma PlacedBehind(s: State, hdr: Hash -> Header, ws: Delivered, w: Wrapper, verdict: Verdict, bad: set<Hash>)
    requires Held(s, hdr, ws) && Mine(ws)(w) && Place(Prepare(s, w), w).Behind?
    requires AllPending(Prepare(s, w), ws, bad + {w.header.hash})
    ensures AllPending(Process(s, w, verdict), ws, bad) <==> !Parks(s, w, bad)
  {
    hide Prepare, Process, Place, AllPending, Kids, Core;
    PrepareHeld(s, hdr, ws, w);
    ProcessWaits(s, w, verdict);
    BehindPending(Prepare(s, w), hdr, ws, w, Place(Prepare(s, w), w).orphan, bad);
  }

  lemma PlacedWaits(s: State, hdr: Hash -> Header, ws: Delivered, w: Wrapper, verdict: Verdict, bad: set<Hash>)
    requires Held(s, hdr, ws) && Mine(ws)(w)
    requires var p := Place(Prepare(s, w), w); p.Head? || p.Known?
    requires AllPending(Prepare(s, w), ws, bad + {w.header.hash})
    ensures AllPending(Process(s, w, verdict), ws, bad)
  {
    var s1 := Prepare(s, w);
    hide Prepare, Process, AllPending, Held, AddHead, Kids;
    assert Place(s1, w).Known? ==> w.header.hash in s1.store;
    hide Place;
    ProcessWaits(s, w, verdict);
    if Place(s1, w).Head? {
      HeadPending(s1, ws, w, bad);
    } else {
      KnownPending(s1, ws, w, bad);
    }
  }

  lemma ConnectedPending(s: State, hdr: Hash -> Header, ws: Delivered, w: Wrapper, verdict: Verdict, bad: set<Hash>)
    requires Held(s, hdr, ws) && Mine(ws)(w)
    requires w.header.hash !in s.store && w.header.hash !in bad ==> verdict == Accept
    requires AllPending(Prepare(s, w), ws, bad + {w.header.hash})
    requires var p := Place(Prepare(s, w), w); p.Main? || p.Side?
    ensures AllPending(Process(s, w, verdict), ws, bad)
  {
    hide Prepare, Place, Process, AllPending, Kids, Core, Linked, AllHeld, Within, IsBlock;
    PrepareHeld(s, hdr, ws, w);
    ProcessStores(s, hdr, w, verdict);
    hide Held, Stored, Untouched;
    if verdict == Accept {
      StoredPending(Prepare(s, w), Process(s, w, verdict), ws, w, bad);
    } else {
      UntouchedPending(Prepare(s, w), Process(s, w, verdict), ws, w, bad);
    }
  }

  lemma ProcessWaits(s: State, w: Wrapper, verdict: Verdict)
    requires var p := Place(Prepare(s, w), w); p.Behind? || p.Head? || p.Known?
    ensures var s1 := Prepare(s, w);
            Process(s, w, verdict) == match Place(s1, w)
              case Behind(orphan) => s1.(children := s1.children[orphan := Kids(s1, orphan) + [w]])
              case Head => s1.(heads := AddHead(s1.heads, w))
              case _ => s1
  {
    hide Prepare, Place, Kids, AddHead, ProcessMain, ProcessSide;
  }

  lemma KnownPending(s: State, ws: Delivered, w: Wrapper, bad: set<Hash>)
    requires AllPending(s, ws, bad + {w.header.hash}) && w.header.hash in s.store
    ensures AllPending(s, ws, bad)
  {
    hide Pending;
  }

  /** The lists after a step hold what they held before, and the block itself. */
  lemma ProcessLists(s: State, hdr: Hash -> Header, w: Wrapper, verdict: Verdict)
    requires Core(s, hdr) && IsAbove(hdr, s.genesis, w.header)
    ensures var s1, t := Prepare(s, w), Process(s, w, verdict);
            && t.store.Keys <= s.store.Keys + {w.header.hash}
            && (t.queue == s1.queue || t.queue == Kids(s1, w) + s1.queue || t.queue == s1.queue + Kids(s1, w))
            && (forall h, x :: h in t.heads && x in t.heads[h] ==> x == w || (h in s1.heads && x in s1.heads[h]))
            && (forall x, y :: y in Kids(t, x) ==> y == w || y in Kids(s1, x))
  {
    var s1 := Prepare(s, w);
    assert s1.store == s.store;
    ProcessStores(s, hdr, w, verdict);
    hide Prepare, Place, ProcessMain, ProcessSide, Core, IsAbove, Within;
    match Place(s1, w)
    case Behind(orphan) =>
    case Head =>
    case Known =>
    case _ =>
  }

  // ----- what is gone stays gone -----

  lemma PrepareGone(s: State, ws: Delivered, w: Wrapper, v: Wrapper)
    requires Gone(s, ws, v) && v != w && Mine(ws)(w)
    requires v.header.prev in ws ==> ws[v.header.prev].header.hash == v.header.prev
    ensures Gone(Prepare(s, w), ws, v)
  {
  }

  /** What is gone when a block has been prepared is gone when it has been placed. */
  lemma PlacedGone(s: State, hdr: Hash -> Header, ws: Delivered, w: Wrapper, verdict: Verdict, v: Wrapper)
    requires Held(s, hdr, ws) && Mine(ws)(w) && Gone(Prepare(s, w), ws, v) && v != w
    ensures Gone(Process(s, w, verdict), ws, v)
  {
    ProcessLists(s, hdr, w, verdict);
    PrepareHeld(s, hdr, ws, w);
    hide Held, Prepare, Process, Core, AllHeld, IsAbove;
    ListsGone(Prepare(s, w), Process(s, w, verdict), ws, w, v);
  }

  lemma ListsGone(s: State, t: State, ws: Delivered, w: Wrapper, v: Wrapper)
    requires Gone(s, ws, v) && v != w && Mine(ws)(w) && Linked(s)
    requires t.store.Keys <= s.store.Keys + {w.header.hash}
    requires t.queue == s.queue || t.queue == Kids(s, w) + s.queue || t.queue == s.queue + Kids(s, w)
    requires forall h, x :: h in t.heads && x in t.heads[h] ==> x == w || (h in s.heads && x in s.heads[h])
    requires forall x, y :: y in Kids(t, x) ==> y == w || y in Kids(s, x)
    ensures Gone(t, ws, v)
  {
    assert v.header.hash !in t.store;
    assert v in Kids(s, w) ==> v.header.prev == w.header.hash;
  }

  /** A lost block stays lost in every step. */
  lemma StepGone(s: State, hdr: Hash -> Header, ws: Delivered, w: Wrapper, verdict: Verdict, v: Wrapper)
    requires Held(s, hdr, ws) && Mine(ws)(w) && Gone(s, ws, v) && v != w
    ensures Gone(Process(s, w, verdict), ws, v)
  {
    PrepareGone(s, ws, w, v);
    hide Held, Gone, Process, Prepare;
    PlacedGone(s, hdr, ws, w, verdict, v);
  }

  /**
   * From a state that has lost nothing, a step loses nothing exactly when it does
   * not overwrite a waiting child and does not place the block behind a stored one.
   */
  lemma StepIff(s: State, hdr: Hash -> Header, ws: Delivered, w: Wrapper, verdict: Verdict, bad: set<Hash>)
    requires Held(s, hdr, ws) && Mine(ws)(w) && AllPending(s, ws, bad + {w.header.hash})
    requires w.header.hash !in s.store && w.header.hash !in bad ==> verdict == Accept
    ensures Held(Process(s, w, verdict), hdr, ws)
    ensures AllPending(Process(s, w, verdict), ws, bad) <==> !Loses(s, w, bad)
  {
    StepHeld(s, hdr, ws, w, verdict);
    hide Parks, Overwrites, Process, Core, Linked, AllHeld, AllPending, Prepare, Kids, IsBlock;
    if Overwrites(s, w, bad) {
      var v := OverwrittenGone(s, hdr, ws, w, bad);
      PlacedGone(s, hdr, ws, w, verdict, v);
      GoneNotPending(Process(s, w, verdict), ws, v, bad);
    } else {
      PreparePending(s, hdr, ws, w, bad);
      PlacedPending(s, hdr, ws, w, verdict, bad);
    }
  }

  lemma GoneNotPending(s: State, ws: Delivered, v: Wrapper, bad: set<Hash>)
    requires Gone(s, ws, v) && v.header.hash !in bad
    ensures !AllPending(s, ws, bad)
  {
    assert !Pending(s, ws, v);
  }

  // ----- one event -----

  /** A block that is delivered for the first time is queued. */
  lemma DeliverHeld(s: State, t: State, hdr: Hash -> Header, ws: Delivered, w: Wrapper)
    requires Held(s, hdr, ws) && w.header.hash !in ws && IsAbove(hdr, s.genesis, w.header)
    requires t == Add(s, w.header) && w.id == s.nextId
    ensures t == s.(queue := s.queue + [w], nextId := t.nextId) && Held(t, hdr, ws[w.header.hash := w])
  {
    var h := w.header.hash;
    NotTakenYet(s, hdr, ws, h);
    assert t == s.(queue := s.queue + [w], nextId := t.nextId);
    hide Add, Tree, Faithful, IsBlock;
    QueueLinked(s, t);
    QueueCore(s, t, hdr);
    hide Linked, Core;
    AddedHeld(s, t, ws, w);
    hide AllHeld, Mine;
  }

  lemma NotTakenYet(s: State, hdr: Hash -> Header, ws: Delivered, h: Hash)
    requires Held(s, hdr, ws) && h !in ws && h != s.genesis
    ensures h !in s.connecting && h !in s.recent.index
  {
    hide Tree, Faithful, OfTree;
    forall x | x in s.connecting
      ensures x in ws
    {
      assert Mine(ws)(s.connecting[x]) && s.connecting[x].header.hash == x;
    }
  }

  lemma AddedHeld(s: State, t: State, ws: Delivered, w: Wrapper)
    requires AllHeld(s, Mine(ws)) && w.header.hash !in ws && t == s.(queue := s.queue + [w], nextId := t.nextId)
    ensures AllHeld(t, Mine(ws[w.header.hash := w]))
  {
    var ws' := ws[w.header.hash := w];
    forall v | Mine(ws)(v)
      ensures Mine(ws')(v)
    {
    }
    assert Mine(ws')(w);
    HeldByMore(s, t, Mine(ws), Mine(ws'), w);
  }

  lemma HeldByMore(s: State, t: State, good: Wrapper -> bool, better: Wrapper -> bool, w: Wrapper)
    requires AllHeld(s, good) && (forall v :: good(v) ==> better(v)) && better(w)
    requires t == s.(queue := s.queue + [w], nextId := t.nextId)
    ensures AllHeld(t, better)
  {
  }

  lemma DeliverPending(s: State, t: State, ws: Delivered, w: Wrapper, bad: set<Hash>)
    requires AllPending(s, ws, bad) && w.header.hash !in ws && t == s.(queue := s.queue + [w], nextId := t.nextId)
    ensures AllPending(t, ws[w.header.hash := w], bad)
  {
    var ws' := ws[w.header.hash := w];
    forall h | h in ws' && h !in t.store && h !in bad
      ensures Pending(t, ws', ws'[h])
    {
      if h != w.header.hash {
        assert Pending(s, ws, ws[h]);
      }
    }
  }

  /** The block at the head of the queue is taken off. */
  lemma Popped(s: State, hdr: Hash -> Header, ws: Delivered, bad: set<Hash>)
    requires Held(s, hdr, ws) && s.queue != []
    ensures Held(s.(queue := s.queue[1..]), hdr, ws) && Mine(ws)(s.queue[0])
    ensures AllPending(s, ws, bad) ==> AllPending(s.(queue := s.queue[1..]), ws, bad + {s.queue[0].header.hash})
  {
    var popped, w := s.(queue := s.queue[1..]), s.queue[0];
    hide Linked, Core, IsBlock, Mine, AllHeld;
    PoppedHolds(s, Mine(ws));
    QueueLinked(s, popped);
    QueueCore(s, popped, hdr);
    assert s.queue == [w] + popped.queue;
    PoppedPending(s, popped, ws, hdr, w, bad);
  }

  lemma PoppedPending(s: State, popped: State, ws: Delivered, hdr: Hash -> Header, w: Wrapper, bad: set<Hash>)
    requires popped == s.(queue := popped.queue) && s.queue == [w] + popped.queue && OfTree(ws, hdr, s.genesis)
    ensures AllPending(s, ws, bad) ==> AllPending(popped, ws, bad + {w.header.hash})
  {
    hide IsAbove;
    if AllPending(s, ws, bad) {
      forall h | h in ws && h !in popped.store && h !in bad + {w.header.hash}
        ensures Pending(popped, ws, ws[h])
      {
        assert Pending(s, ws, ws[h]) && ws[h] != w;
      }
    }
  }

  // ----- runs -----

  /** The delivered blocks, in order of delivery. */
  function Deliveries(events: seq<Event>): seq<Header> {
    if events == [] then []
    else
      Deliveries(events[..|events| - 1])
      + match events[|events| - 1]
        case Deliver(header) => [header]
        case Work(_) => []
  }

  ghost predicate NoRepeats(hs: seq<Header>) {
    forall i, j :: 0 <= i < j < |hs| ==> hs[i] != hs[j]
  }

  /** Blocks of any tree above genesis, each delivered once at most. */
  ghost predicate DeliversTree(events: seq<Event>, hdr: Hash -> Header, genesis: Hash) {
    NoRepeats(Deliveries(events)) && forall x :: x in Deliveries(events) ==> IsAbove(hdr, genesis, x)
  }

  /** Of the blocks that are not stored yet, verification rejects exactly the bad ones. */
  predicate RejectsOnly(s: State, events: seq<Event>, bad: set<Hash>) {
    if events == [] then true
    else
      var before := After(s, events[..|events| - 1]);
      var e := events[|events| - 1];
      && RejectsOnly(s, events[..|events| - 1], bad)
      && (e.Work? && before.queue != [] && before.queue[0].header.hash !in before.store ==>
            (e.verdict == Accept <==> before.queue[0].header.hash !in bad))
  }

  /** No step of the run loses a block. */
  predicate LosesNone(s: State, events: seq<Event>, bad: set<Hash>) {
    if events == [] then true
    else
      var before := After(s, events[..|events| - 1]);
      && LosesNone(s, events[..|events| - 1], bad)
      && (events[|events| - 1].Work? && before.queue != [] ==>
            !Loses(before.(queue := before.queue[1..]), before.queue[0], bad))
  }

  /** The wrappers of the delivered blocks. */
  function Wrapped(s: State, events: seq<Event>): Delivered {
    if events == [] then map[]
    else
      var front := events[..|events| - 1];
      match events[|events| - 1]
      case Deliver(header) => Wrapped(s, front)[header.hash := Wrapper(After(s, front).nextId, header)]
      case Work(_) => Wrapped(s, front)
  }

  lemma {:induction false} WrappedAre(s: State, events: seq<Event>)
    ensures forall h :: h in Wrapped(s, events) ==>
              Wrapped(s, events)[h].header in Deliveries(events) && Wrapped(s, events)[h].header.hash == h
    ensures forall x :: x in Deliveries(events) ==> x.hash in Wrapped(s, events)
  {
    if events != [] {
      WrappedAre(s, events[..|events| - 1]);
    }
  }

  /** What a run delivers before its last event. */
  lemma FrontTree(events: seq<Event>, hdr: Hash -> Header, genesis: Hash)
    requires events != [] && DeliversTree(events, hdr, genesis)
    ensures DeliversTree(events[..|events| - 1], hdr, genesis)
    ensures var e := events[|events| - 1];
            e.Deliver? ==> IsAbove(hdr, genesis, e.header) && e.header !in Deliveries(events[..|events| - 1])
  {
    hide IsAbove;
    var ds, e := Deliveries(events[..|events| - 1]), events[|events| - 1];
    var all := Deliveries(events);
    assert forall m :: 0 <= m < |ds| ==> all[m] == ds[m];
    assert forall x :: x in ds ==> x in all;
    if e.Deliver? {
      assert all[|ds|] == e.header && e.header in all;
    }
  }

  /** A block delivered now has a hash not delivered before. */
  lemma FreshHash(s: State, events: seq<Event>, hdr: Hash -> Header, genesis: Hash, x: Header)
    requires DeliversTree(events, hdr, genesis) && IsAbove(hdr, genesis, x) && x !in Deliveries(events)
    ensures x.hash !in Wrapped(s, events)
  {
    WrappedAre(s, events);
    hide Wrapped, Deliveries, NoRepeats;
  }

  lemma InitHeld(hdr: Hash -> Header, g: Header)
    requires hdr(g.hash) == g && g.prev != g.hash
    ensures Held(Init(g), hdr, map[]) && (forall bad :: AllPending(Init(g), map[], bad)) && Init(g).genesis == g.hash
  {
    InitSound(hdr, g);
    hide Core;
  }

  /** In every such run only delivered blocks are queued, indexed or stored. */
  lemma {:induction false} RunHeld(hdr: Hash -> Header, g: Header, events: seq<Event>)
    requires hdr(g.hash) == g && g.prev != g.hash && DeliversTree(events, hdr, g.hash)
    ensures Held(After(Init(g), events), hdr, Wrapped(Init(g), events)) && After(Init(g), events).genesis == g.hash
  {
    hide Held, AllPending, Add, Process, Init, DeliversTree, IsAbove, Mine, Core;
    if events == [] {
      InitHeld(hdr, g);
    } else {
      var front, e := events[..|events| - 1], events[|events| - 1];
      var s, ws := After(Init(g), front), Wrapped(Init(g), front);
      FrontTree(events, hdr, g.hash);
      RunHeld(hdr, g, front);
      match e
      case Deliver(header) =>
        FreshHash(Init(g), front, hdr, g.hash, header);
        DeliverHeld(s, Add(s, header), hdr, ws, Wrapper(s.nextId, header));
      case Work(verdict) =>
        if s.queue != [] {
          var popped := s.(queue := s.queue[1..]);
          Popped(s, hdr, ws, {});
          StepHeld(popped, hdr, ws, s.queue[0], verdict);
          GenesisStays(popped, s.queue[0], verdict);
        }
    }
  }

  /** Every delivered block that is not bad is stored, queued or waiting for a block that is not stored. */
  ghost predicate NothingLost(s: State, events: seq<Event>, bad: set<Hash>) {
    AllPending(After(s, events), Wrapped(s, events), bad)
  }

  /** The last event of a run, from a state that has lost nothing. */
  lemma LastEvent(hdr: Hash -> Header, g: Header, events: seq<Event>, bad: set<Hash>)
    requires hdr(g.hash) == g && g.prev != g.hash && DeliversTree(events, hdr, g.hash)
    requires RejectsOnly(Init(g), events, bad) && events != [] && NothingLost(Init(g), events[..|events| - 1], bad)
    ensures var s, e := After(Init(g), events[..|events| - 1]), events[|events| - 1];
            NothingLost(Init(g), events, bad) <==>
              !(e.Work? && s.queue != [] && Loses(s.(queue := s.queue[1..]), s.queue[0], bad))
  {
    hide Held, AllPending, Add, Process, Init, DeliversTree, IsAbove, Mine, Core, Loses;
    var front, e := events[..|events| - 1], events[|events| - 1];
    var s, ws := After(Init(g), front), Wrapped(Init(g), front);
    FrontTree(events, hdr, g.hash);
    RunHeld(hdr, g, front);
    match e
    case Deliver(header) =>
      FreshHash(Init(g), front, hdr, g.hash, header);
      DeliverHeld(s, Add(s, header), hdr, ws, Wrapper(s.nextId, header));
      DeliverPending(s, Add(s, header), ws, Wrapper(s.nextId, header), bad);
    case Work(verdict) =>
      if s.queue != [] {
        Popped(s, hdr, ws, bad);
        StepIff(s.(queue := s.queue[1..]), hdr, ws, s.queue[0], verdict, bad);
      }
  }

  /** A run loses no block at any time exactly when none of its steps loses one. */
  lemma {:induction false} RunIff(hdr: Hash -> Header, g: Header, events: seq<Event>, bad: set<Hash>)
    requires hdr(g.hash) == g && g.prev != g.hash && DeliversTree(events, hdr, g.hash)
    requires RejectsOnly(Init(g), events, bad)
    ensures LosesNone(Init(g), events, bad) <==>
              forall n :: 0 <= n <= |events| ==> NothingLost(Init(g), events[..n], bad)
  {
    hide NothingLost, Init, DeliversTree, Loses, After;
    if events == [] {
      InitHeld(hdr, g);
      NothingLostAtFirst(hdr, g, events, bad);
    } else {
      var front := events[..|events| - 1];
      FrontTree(events, hdr, g.hash);
      RunIff(hdr, g, front, bad);
      assert events[..|events|] == events;
      assert forall n :: 0 <= n <= |front| ==> front[..n] == events[..n];
      if NothingLost(Init(g), front, bad) {
        LastEvent(hdr, g, events, bad);
      } else {
        assert front[..|front|] == front;
      }
    }
  }

  lemma NothingLostAtFirst(hdr: Hash -> Header, g: Header, events: seq<Event>, bad: set<Hash>)
    requires hdr(g.hash) == g && g.prev != g.hash && events == []
    ensures forall n :: 0 <= n <= |events| ==> NothingLost(Init(g), events[..n], bad)
  {
    InitHeld(hdr, g);
  }

  // ----- what is stored in the end -----

  /** The k-th block of a branch above genesis; genesis comes first. */
  function Tip(g: Header, c: seq<Header>, k: nat): Header
    requires k <= |c|
  {
    if k == 0 then g else c[k - 1]
  }

  /** The blocks that are not bad. */
  function Good(xs: seq<Header>, bad: set<Hash>): (r: seq<Header>)
    ensures forall x :: x in r <==> x in xs && x.hash !in bad
  {
    if xs == [] then [] else (if xs[0].hash in bad then [] else [xs[0]]) + Good(xs[1..], bad)
  }

  /** Listed blocks, each on top of the one before, the first on genesis. */
  ghost predicate IsBranch(delivered: seq<Header>, g: Header, c: seq<Header>) {
    forall i :: 0 <= i < |c| ==> c[i] in delivered && c[i].prev == Tip(g, c, i).hash
  }

  /** The work of a branch, genesis included. */
  function BranchWork(g: Header, c: seq<Header>): nat {
    if c == [] then g.work else BranchWork(g, c[..|c| - 1]) + c[|c| - 1].work
  }

  /** A stored block is the tip of a branch of delivered blocks, of its height and work. */
  lemma {:induction false} StoredBranch(
    s: State, hdr: Hash -> Header, ws: Delivered, g: Header, delivered: seq<Header>, h: Hash) returns (c: seq<Header>)
    requires Held(s, hdr, ws) && s.genesis == g.hash && hdr(g.hash) == g && h in s.store
    requires forall x :: x in s.store && x != g.hash ==> x in ws && ws[x].header in delivered
    ensures IsBranch(delivered, g, c) && Tip(g, c, |c|) == s.store[h].header
    ensures |c| == s.store[h].height && BranchWork(g, c) == s.store[h].chainWork
    decreases s.store[h].height
  {
    if h == g.hash {
      c := [];
    } else {
      var x := s.store[h].header;
      assert x == ws[h].header && x in delivered;
      assert s.store[h].height == s.store[x.prev].height + 1;
      assert s.store[h].chainWork == s.store[x.prev].chainWork + x.work;
      assert s.store[x.prev].header.hash == x.prev;
      var front := StoredBranch(s, hdr, ws, g, delivered, x.prev);
      c := front + [x];
      hide Held;
      BranchGrows(delivered, g, front, x);
    }
  }

  lemma BranchGrows(delivered: seq<Header>, g: Header, front: seq<Header>, x: Header)
    requires IsBranch(delivered, g, front) && x in delivered && x.prev == Tip(g, front, |front|).hash
    ensures IsBranch(delivered, g, front + [x]) && Tip(g, front + [x], |front| + 1) == x
    ensures BranchWork(g, front + [x]) == BranchWork(g, front) + x.work
  {
    var c := front + [x];
    assert c[..|c| - 1] == front;
    forall i | 0 <= i < |c|
      ensures c[i] in delivered && c[i].prev == Tip(g, c, i).hash
    {
      assert Tip(g, c, i) == Tip(g, front, i);
    }
  }

  /** When nothing is lost or queued, every branch of delivered blocks is stored. */
  lemma {:induction false} BranchStored(
    s: State, hdr: Hash -> Header, ws: Delivered, g: Header, delivered: seq<Header>, c: seq<Header>, bad: set<Hash>)
    requires Held(s, hdr, ws) && s.genesis == g.hash && hdr(g.hash) == g
    requires AllPending(s, ws, bad) && s.queue == []
    requires forall x :: x in delivered ==> x.hash in ws && x.hash !in bad && IsAbove(hdr, g.hash, x)
    requires IsBranch(delivered, g, c)
    ensures var h := Tip(g, c, |c|).hash; h in s.store && s.store[h].chainWork == BranchWork(g, c)
    decreases |c|
  {
    if c != [] {
      var front, x := c[..|c| - 1], c[|c| - 1];
      FrontBranch(delivered, g, c);
      BranchStored(s, hdr, ws, g, delivered, front, bad);
      assert x in delivered && IsAbove(hdr, g.hash, x);
      hide IsBranch, AllPending, IsAbove, Held;
      ChildStored(s, hdr, ws, x, bad);
    }
  }

  lemma FrontBranch(delivered: seq<Header>, g: Header, c: seq<Header>)
    requires IsBranch(delivered, g, c) && c != []
    ensures var front := c[..|c| - 1];
            IsBranch(delivered, g, front) && c[|c| - 1].prev == Tip(g, front, |front|).hash
  {
    var front := c[..|c| - 1];
    forall i | 0 <= i < |front|
      ensures front[i] in delivered && front[i].prev == Tip(g, front, i).hash
    {
      assert front[i] == c[i] && Tip(g, front, i) == Tip(g, c, i);
    }
  }

  /** When nothing is lost or queued, a delivered child of a stored block is stored. */
  lemma ChildStored(s: State, hdr: Hash -> Header, ws: Delivered, x: Header, bad: set<Hash>)
    requires Held(s, hdr, ws) && AllPending(s, ws, bad) && s.queue == []
    requires x.hash in ws && x.hash !in bad && IsAbove(hdr, s.genesis, x) && x.prev in s.store
    ensures x.hash in s.store && s.store[x.hash].chainWork == s.store[x.prev].chainWork + x.work
  {
    hide Waits, Linked, AllHeld;
    assert ws[x.hash].header == x;
    assert x.hash in s.store;
    assert s.store[x.hash].header == x;
  }

  /** The stored blocks are those with a branch, and the top is the tip of one that none outweighs. */
  ghost predicate IsOutcome(s: State, g: Header, delivered: seq<Header>) {
    && (forall h :: h in s.store <==> exists c :: IsBranch(delivered, g, c) && Tip(g, c, |c|).hash == h)
    && (exists c :: IsBranch(delivered, g, c) && Tip(g, c, |c|) == s.top.header && BranchWork(g, c) == s.top.chainWork)
    && forall c :: IsBranch(delivered, g, c) ==> BranchWork(g, c) <= s.top.chainWork
  }

  lemma Outcome(s: State, hdr: Hash -> Header, ws: Delivered, g: Header, delivered: seq<Header>, bad: set<Hash>)
    requires Held(s, hdr, ws) && s.genesis == g.hash && hdr(g.hash) == g
    requires AllPending(s, ws, bad) && s.queue == []
    requires forall x :: x in delivered ==> x.hash in ws && x.hash !in bad && IsAbove(hdr, g.hash, x)
    requires forall x :: x in s.store && x != g.hash ==> x in ws && ws[x].header in delivered
    ensures IsOutcome(s, g, delivered)
  {
    assert Core(s, hdr);
    hide Core;
    TopIsHeaviest(s, hdr);
    hide Held, AllPending, IsAbove, IsBranch, BranchWork, Tip;
    forall c | IsBranch(delivered, g, c)
      ensures Tip(g, c, |c|).hash in s.store && BranchWork(g, c) <= s.top.chainWork
    {
      BranchStored(s, hdr, ws, g, delivered, c, bad);
    }
    forall h | h in s.store
      ensures exists c :: IsBranch(delivered, g, c) && Tip(g, c, |c|).hash == h
    {
      var c := StoredBranch(s, hdr, ws, g, delivered, h);
      assert IsBranch(delivered, g, c) && Tip(g, c, |c|).hash == h;
    }
    var c := StoredBranch(s, hdr, ws, g, delivered, s.top.header.hash);
    assert IsBranch(delivered, g, c) && Tip(g, c, |c|) == s.top.header && BranchWork(g, c) == s.top.chainWork;
  }

  lemma TopIsHeaviest(s: State, hdr: Hash -> Header)
    requires Core(s, hdr)
    ensures s.top.header.hash in s.store && Same(s.store[s.top.header.hash], s.top)
    ensures forall h :: h in s.store ==> s.store[h].chainWork <= s.top.chainWork && s.store[h].header.hash == h
  {
  }

  /** A bad block is never stored. */
  lemma {:induction false} BadNeverStored(hdr: Hash -> Header, g: Header, events: seq<Event>, bad: set<Hash>)
    requires hdr(g.hash) == g && g.prev != g.hash && DeliversTree(events, hdr, g.hash)
    requires RejectsOnly(Init(g), events, bad)
    ensures forall h :: h in After(Init(g), events).store && h != g.hash ==> h !in bad
  {
    hide Held, Add, Process, DeliversTree, Mine, Core, Wrapped, Init;
    if events == [] {
      assert Init(g).store.Keys == {g.hash} by {
        InitStore(g);
      }
    } else {
      var front, e := events[..|events| - 1], events[|events| - 1];
      var s := After(Init(g), front);
      FrontTree(events, hdr, g.hash);
      BadNeverStored(hdr, g, front, bad);
      RunHeld(hdr, g, front);
      match e
      case Deliver(header) => AddKeepsStore(s, header);
      case Work(verdict) =>
        if s.queue != [] {
          Popped(s, hdr, Wrapped(Init(g), front), bad);
          StoresOnlyAccepted(s.(queue := s.queue[1..]), hdr, Wrapped(Init(g), front), s.queue[0], verdict);
        }
    }
  }

  lemma InitStore(g: Header)
    ensures Init(g).store.Keys == {g.hash}
  {
  }

  lemma AddKeepsStore(s: State, header: Header)
    ensures Add(s, header).store == s.store
  {
  }

  lemma StoresOnlyAccepted(s: State, hdr: Hash -> Header, ws: Delivered, w: Wrapper, verdict: Verdict)
    requires Held(s, hdr, ws) && Mine(ws)(w)
    ensures var t := Process(s, w, verdict);
            forall h :: h in t.store ==> h in s.store || (h == w.header.hash && verdict == Accept)
  {
    ProcessStores(s, hdr, w, verdict);
    assert Prepare(s, w).store == s.store;
    hide Process, Prepare, Place, Held, Within;
  }

  /**
   * Any tree, any order: in a run whose steps lose no block, once the queue is
   * empty, exactly the delivered blocks that are not bad and have only such
   * ancestors are stored, and the top has the most work of them.
   */
  lemma RunOutcome(hdr: Hash -> Header, g: Header, events: seq<Event>, bad: set<Hash>)
    requires hdr(g.hash) == g && g.prev != g.hash && DeliversTree(events, hdr, g.hash)
    requires RejectsOnly(Init(g), events, bad) && LosesNone(Init(g), events, bad)
    requires After(Init(g), events).queue == []
    ensures IsOutcome(After(Init(g), events), g, Good(Deliveries(events), bad))
  {
    RunIff(hdr, g, events, bad);
    RunHeld(hdr, g, events);
    WrappedAre(Init(g), events);
    BadNeverStored(hdr, g, events, bad);
    assert events[..|events|] == events;
    assert NothingLost(Init(g), events, bad);
    var s, ws := After(Init(g), events), Wrapped(Init(g), events);
    assert forall h :: h in s.store && h != g.hash ==> h in ws && ws[h].header in Good(Deliveries(events), bad);
    hide Held, AllPending, After, Init, Wrapped, LosesNone, RejectsOnly, IsOutcome, IsAbove, Good;
    Outcome(s, hdr, ws, g, Good(Deliveries(events), bad), bad);
  }

  /** Two such runs over the same blocks end with the same blocks stored and the same work. */
  lemma OrderDoesNotMatter(
    hdr: Hash -> Header, g: Header, events: seq<Event>, others: seq<Event>, bad: set<Hash>)
    requires hdr(g.hash) == g && g.prev != g.hash
    requires DeliversTree(events, hdr, g.hash) && DeliversTree(others, hdr, g.hash)
    requires forall x :: x in Deliveries(events) <==> x in Deliveries(others)
    requires RejectsOnly(Init(g), events, bad) && RejectsOnly(Init(g), others, bad)
    requires LosesNone(Init(g), events, bad) && LosesNone(Init(g), others, bad)
    requires After(Init(g), events).queue == [] && After(Init(g), others).queue == []
    ensures var s, t := After(Init(g), events), After(Init(g), others);
            s.store.Keys == t.store.Keys && s.top.chainWork == t.top.chainWork
  {
    RunOutcome(hdr, g, events, bad);
    RunOutcome(hdr, g, others, bad);
    var ds, es := Good(Deliveries(events), bad), Good(Deliveries(others), bad);
    assert forall c :: IsBranch(ds, g, c) <==> IsBranch(es, g, c);
    hide IsBranch, After, Init, LosesNone, RejectsOnly, DeliversTree, BranchWork, Tip, Deliveries, Good;
    SameOutcome(After(Init(g), events), After(Init(g), others), g, ds, es);
  }

  lemma SameOutcome(s: State, t: State, g: Header, ds: seq<Header>, es: seq<Header>)
    requires IsOutcome(s, g, ds) && IsOutcome(t, g, es)
    requires forall c :: IsBranch(ds, g, c) <==> IsBranch(es, g, c)
    ensures s.store.Keys == t.store.Keys && s.top.chainWork == t.top.chainWork
  {
    hide IsBranch, BranchWork, Tip;
    forall h
      ensures h in s.store <==> h in t.store
    {
    }
  }

  // ----- a lost block stays lost -----

  /** A later event that delivers another block, or none, brings nothing back. */
  lemma {:induction false} GoneForever(
    hdr: Hash -> Header, g: Header, events: seq<Event>, n: nat, v: Wrapper)
    requires hdr(g.hash) == g && g.prev != g.hash && DeliversTree(events, hdr, g.hash) && n <= |events|
    requires Gone(After(Init(g), events[..n]), Wrapped(Init(g), events[..n]), v)
    ensures Gone(After(Init(g), events), Wrapped(Init(g), events), v)
    decreases |events|
  {
    hide Held, Gone, Add, Process, Init, DeliversTree, IsAbove, Mine, Core;
    if n == |events| {
      assert events[..n] == events;
    } else {
      var front, e := events[..|events| - 1], events[|events| - 1];
      var s, ws := After(Init(g), front), Wrapped(Init(g), front);
      FrontTree(events, hdr, g.hash);
      assert front[..n] == events[..n];
      GoneForever(hdr, g, front, n, v);
      RunHeld(hdr, g, front);
      match e
      case Deliver(header) =>
        var w := Wrapper(s.nextId, header);
        FreshHash(Init(g), front, hdr, g.hash, header);
        DeliverHeld(s, Add(s, header), hdr, ws, w);
        DeliverGone(s, Add(s, header), hdr, ws, w, v);
      case Work(verdict) =>
        if s.queue != [] {
          Popped(s, hdr, ws, {});
          PoppedGone(s, ws, v);
          StepGone(s.(queue := s.queue[1..]), hdr, ws, s.queue[0], verdict, v);
        }
    }
  }

  lemma DeliverGone(s: State, t: State, hdr: Hash -> Header, ws: Delivered, w: Wrapper, v: Wrapper)
    requires Held(s, hdr, ws) && Gone(s, ws, v) && w.header.hash !in ws
    requires t == s.(queue := s.queue + [w], nextId := t.nextId)
    ensures Gone(t, ws[w.header.hash := w], v)
  {
    hide Core, Linked;
    assert w !in s.children by {
      assert !Mine(ws)(w);
      hide Mine;
    }
    assert v.header.hash != w.header.hash && Kids(s, w) == [];
    hide AllHeld, OfTree;
  }

  lemma PoppedGone(s: State, ws: Delivered, v: Wrapper)
    requires s.queue != [] && Gone(s, ws, v)
    ensures Gone(s.(queue := s.queue[1..]), ws, v) && v != s.queue[0]
  {
    assert s.queue[0] in s.queue;
  }

  /** A lost block whose parent is stored in the end spoils the outcome. */
  lemma LossIsFinal(hdr: Hash -> Header, g: Header, events: seq<Event>, n: nat, v: Wrapper, bad: set<Hash>)
    requires hdr(g.hash) == g && g.prev != g.hash && DeliversTree(events, hdr, g.hash) && n <= |events|
    requires Gone(After(Init(g), events[..n]), Wrapped(Init(g), events[..n]), v) && v.header.hash !in bad
    requires v.header.prev in After(Init(g), events).store
    ensures v.header.hash !in After(Init(g), events).store
    ensures !IsOutcome(After(Init(g), events), g, Good(Deliveries(events), bad))
  {
    GoneForever(hdr, g, events, n, v);
    WrappedAre(Init(g), events);
    var s, ds := After(Init(g), events), Good(Deliveries(events), bad);
    assert v.header in ds && v.header.hash !in s.store;
    hide After, Init, Wrapped, Gone, DeliversTree, Deliveries, Good, IsOutcome;
    if IsOutcome(s, g, ds) {
      OutcomeStores(s, g, ds, v.header);
    }
  }

  /** A listed child of a stored block extends its branch. */
  lemma OutcomeStores(s: State, g: Header, ds: seq<Header>, x: Header)
    requires IsOutcome(s, g, ds) && x in ds && x.prev in s.store
    ensures x.hash in s.store
  {
    hide IsBranch, BranchWork;
    var c :| IsBranch(ds, g, c) && Tip(g, c, |c|).hash == x.prev;
    BranchGrows(ds, g, c, x);
    assert IsBranch(ds, g, c + [x]) && Tip(g, c + [x], |c + [x]|).hash == x.hash;
  }

  /** So does every step that overwrites a child of a block that is stored in the end. */
  lemma OverwriteIsFinal(hdr: Hash -> Header, g: Header, events: seq<Event>, n: nat, bad: set<Hash>)
    requires hdr(g.hash) == g && g.prev != g.hash && DeliversTree(events, hdr, g.hash)
    requires n < |events| && events[n].Work?
    requires var s := After(Init(g), events[..n]);
             && s.queue != [] && Overwrites(s.(queue := s.queue[1..]), s.queue[0], bad)
             && s.queue[0].header.hash in After(Init(g), events).store
    ensures !IsOutcome(After(Init(g), events), g, Good(Deliveries(events), bad))
  {
    var front, next := events[..n], events[..n + 1];
    var s, ws := After(Init(g), front), Wrapped(Init(g), front);
    assert next[..|next| - 1] == front && next[|next| - 1] == events[n];
    PrefixTree(events, hdr, g.hash, n);
    assert After(Init(g), next) == Tick(s, events[n].verdict) && Wrapped(Init(g), next) == ws;
    hide Held, Gone, Process, Overwrites, DeliversTree, Init, Mine, IsOutcome, After, Wrapped, Deliveries;
    RunHeld(hdr, g, front);
    var v := OverwriteLoses(s, hdr, ws, events[n].verdict, bad);
    LossIsFinal(hdr, g, events, n + 1, v, bad);
  }

  /** The step of the queue that overwrites a child loses it. */
  lemma OverwriteLoses(s: State, hdr: Hash -> Header, ws: Delivered, verdict: Verdict, bad: set<Hash>)
    returns (v: Wrapper)
    requires Held(s, hdr, ws) && s.queue != [] && Overwrites(s.(queue := s.queue[1..]), s.queue[0], bad)
    ensures Gone(Tick(s, verdict), ws, v) && v.header.prev == s.queue[0].header.hash && v.header.hash !in bad
  {
    hide Held, Gone, Process, Overwrites, Mine;
    Popped(s, hdr, ws, bad);
    v := OverwrittenGone(s.(queue := s.queue[1..]), hdr, ws, s.queue[0], bad);
    PlacedGone(s.(queue := s.queue[1..]), hdr, ws, s.queue[0], verdict, v);
  }

  lemma {:induction false} PrefixTree(events: seq<Event>, hdr: Hash -> Header, genesis: Hash, n: nat)
    requires DeliversTree(events, hdr, genesis) && n <= |events|
    ensures DeliversTree(events[..n], hdr, genesis)
    decreases |events|
  {
    hide DeliversTree;
    if n == |events| {
      assert events[..n] == events;
    } else {
      FrontTree(events, hdr, genesis);
      PrefixTree(events[..|events| - 1], hdr, genesis, n);
      assert events[..|events| - 1][..n] == events[..n];
    }
  }

  // ----- and the queue does become empty -----

  function Works(n: nat): seq<Event> {
    seq(n, _ => Work(Accept))
  }

  lemma OneMoreWork(s: State, events: seq<Event>)
    requires RejectsOnly(s, events, {})
    ensures var more := events + [Work(Accept)];
            RejectsOnly(s, more, {}) && Deliveries(more) == Deliveries(events)
  {
    var more := events + [Work(Accept)];
    hide After;
    assert more[..|more| - 1] == events && more[|more| - 1] == Work(Accept);
  }

  lemma {:induction false} WorksAccept(s: State, events: seq<Event>, n: nat)
    requires RejectsOnly(s, events, {})
    ensures RejectsOnly(s, events + Works(n), {}) && Deliveries(events + Works(n)) == Deliveries(events)
  {
    hide After, RejectsOnly, Deliveries;
    if n == 0 {
      assert events + Works(0) == events;
    } else {
      WorksAccept(s, events, n - 1);
      OneMoreWork(s, events + Works(n - 1));
      assert events + Works(n) == events + Works(n - 1) + [Work(Accept)];
    }
  }

  lemma {:induction false} DeliveredListed(events: seq<Event>, m: nat)
    requires m < |events| && events[m].Deliver?
    ensures events[m].header in Deliveries(events)
  {
    if m < |events| - 1 {
      DeliveredListed(events[..|events| - 1], m);
    }
  }

  predicate OnlyWork(more: seq<Event>) {
    forall e :: e in more ==> e.Work?
  }

  lemma {:induction false} EmptyAfter(s: State, events: seq<Event>, more: seq<Event>, m: nat)
    requires EmptyWithin(After(s, events), m) && OnlyWork(more) && m <= |more|
    ensures After(s, events + more).queue == []
    decreases |more|
  {
    hide Process;
    if more == [] {
      assert events + more == events;
    } else {
      var longer := events + [more[0]];
      assert longer[..|longer| - 1] == events && more[0] in more;
      assert After(s, longer) == Tick(After(s, events), more[0].verdict);
      EmptyAfter(s, longer, more[1..], if After(s, events).queue == [] then 0 else m - 1);
      assert longer + more[1..] == events + more;
    }
  }

  lemma {:induction false} WorkDelivers(events: seq<Event>, more: seq<Event>)
    requires OnlyWork(more)
    ensures Deliveries(events + more) == Deliveries(events)
    decreases |more|
  {
    if more == [] {
      assert events + more == events;
    } else {
      var all := events + more;
      assert all[..|all| - 1] == events + more[..|more| - 1] && all[|all| - 1] == more[|more| - 1];
      assert more[|more| - 1] in more;
      WorkDelivers(events, more[..|more| - 1]);
    }
  }

  /**
   * After any run over a tree, processing for long enough empties the queue, whatever
   * the verdicts; if no step lost a block, the outcome is the right one.
   */
  lemma TreeReachesOutcome(hdr: Hash -> Header, g: Header, events: seq<Event>, rank: Hash -> nat, m: nat)
    returns (n: nat)
    requires hdr(g.hash) == g && g.prev != g.hash && DeliversTree(events, hdr, g.hash)
    requires DeliversRanked(events, rank, m)
    ensures forall more :: OnlyWork(more) && n <= |more| ==> After(Init(g), events + more).queue == []
    ensures forall more, bad ::
              (OnlyWork(more) && n <= |more|
               && RejectsOnly(Init(g), events + more, bad) && LosesNone(Init(g), events + more, bad)) ==>
                IsOutcome(After(Init(g), events + more), g, Good(Deliveries(events), bad))
  {
    EveryRunDrains(g, events, rank, m);
    hide Init, After, IsOutcome, LosesNone, RejectsOnly, OnlyWork, DeliversRanked, Deliveries, IsAbove;
    var k: nat :| EmptyWithin(After(Init(g), events), k);
    n := k;
    forall more | OnlyWork(more) && n <= |more|
      ensures After(Init(g), events + more).queue == []
    {
      EmptyAfter(Init(g), events, more, k);
    }
    forall more, bad | OnlyWork(more) && n <= |more|
      && RejectsOnly(Init(g), events + more, bad) && LosesNone(Init(g), events + more, bad)
      ensures IsOutcome(After(Init(g), events + more), g, Good(Deliveries(events), bad))
    {
      EmptyAfter(Init(g), events, more, k);
      WorkDelivers(events, more);
      RunOutcome(hdr, g, events + more, bad);
    }
  }
}
