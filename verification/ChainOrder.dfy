/** The order of delivery does not matter at all for one chain: it never loses a block and ends at its last one. */
module ChainOrder {
  import opened BlockTree
  import opened BlockChain
  import opened ChainInvariant
  import opened ActiveChain
  import opened Drain
  import opened Delivery

  /** A chain of blocks, each on top of the one before, the first on genesis. */
  ghost predicate IsChain(hdr: Hash -> Header, g: Header, c: seq<Header>) {
    && hdr(g.hash) == g && g.prev != g.hash
    && forall i :: 0 <= i < |c| ==>
         IsBlock(hdr, g.hash, c[i]) && c[i].hash != g.hash && c[i].prev == Tip(g, c, i).hash
  }

  ghost predicate Distinct(g: Header, c: seq<Header>) {
    forall i: nat, j: nat :: i < j <= |c| ==> Tip(g, c, i).hash != Tip(g, c, j).hash
  }

  lemma ChainAt(hdr: Hash -> Header, g: Header, c: seq<Header>, i: nat)
    requires IsChain(hdr, g, c) && i < |c|
    ensures IsBlock(hdr, g.hash, c[i]) && c[i].hash != g.hash && c[i].prev == Tip(g, c, i).hash
    ensures c[i] == Tip(g, c, i + 1) == hdr(c[i].hash)
  {
  }

  lemma {:induction false} TipsDiffer(hdr: Hash -> Header, g: Header, c: seq<Header>, i: nat, j: nat)
    requires IsChain(hdr, g, c) && i < j <= |c|
    ensures Tip(g, c, i).hash != Tip(g, c, j).hash
  {
    hide IsChain, IsBlock;
    ChainAt(hdr, g, c, j - 1);
    if i > 0 {
      ChainAt(hdr, g, c, i - 1);
      TipsDiffer(hdr, g, c, i - 1, j - 1);
    }
  }

  lemma Apart(g: Header, c: seq<Header>, i: nat, j: nat)
    requires Distinct(g, c) && i <= |c| && j <= |c|
    ensures Tip(g, c, i).hash == Tip(g, c, j).hash <==> i == j
  {
  }

  lemma ChainDistinct(hdr: Hash -> Header, g: Header, c: seq<Header>)
    requires IsChain(hdr, g, c)
    ensures Distinct(g, c)
  {
    hide IsChain;
    forall i: nat, j: nat | i < j <= |c|
      ensures Tip(g, c, i).hash != Tip(g, c, j).hash
    {
      TipsDiffer(hdr, g, c, i, j);
    }
  }

  // ----- the connected part -----

  /** The first k blocks of the chain are stored, and the last of them is the top. */
  ghost predicate ConnectedTo(s: State, g: Header, c: seq<Header>, k: nat) {
    && k <= |c| && s.top.header == Tip(g, c, k) && s.top.height == k && StoredIs(s.store, g, c, k)
  }

  /** Exactly genesis and the first k blocks are stored. */
  ghost predicate StoredIs(store: Store, g: Header, c: seq<Header>, k: nat)
    requires k <= |c|
  {
    forall h :: h in store <==> exists i: nat :: i <= k && Tip(g, c, i).hash == h
  }

  lemma StoredAt(store: Store, g: Header, c: seq<Header>, k: nat, i: nat)
    requires Distinct(g, c) && i <= |c| && k <= |c| && StoredIs(store, g, c, k)
    ensures Tip(g, c, i).hash in store <==> i <= k
  {
  }

  lemma StoredNext(store: Store, g: Header, c: seq<Header>, k: nat, b: Block)
    requires k < |c| && StoredIs(store, g, c, k)
    ensures StoredIs(store[c[k].hash := b], g, c, k + 1)
  {
    assert Tip(g, c, k + 1).hash == c[k].hash;
  }

  /** Every delivered wrapper holds a block of the chain. */
  ghost predicate OfChain(ws: Delivered, c: seq<Header>) {
    forall h :: h in ws ==> ws[h].header in c
  }

  lemma PlaceInChain(c: seq<Header>, x: Header) returns (j: nat)
    requires x in c
    ensures j < |c| && c[j] == x
  {
    j :| 0 <= j < |c| && c[j] == x;
  }

  // ----- one block -----

  /** Two blocks of a chain with one parent are the same. */
  lemma OneChild(hdr: Hash -> Header, g: Header, c: seq<Header>, v: Header, x: Header)
    requires IsChain(hdr, g, c) && Distinct(g, c) && v in c && x in c && v.prev == x.prev
    ensures v == x
  {
    hide IsChain, Distinct, IsBlock;
    var i := PlaceInChain(c, v);
    var j := PlaceInChain(c, x);
    ChainAt(hdr, g, c, i);
    ChainAt(hdr, g, c, j);
    Apart(g, c, i, j);
  }

  /** In a chain no child is overwritten: all orphans of a block are its one child. */
  lemma ChainKeepsChildren(
    s: State, hdr: Hash -> Header, g: Header, c: seq<Header>, ws: Delivered, w: Wrapper)
    requires IsChain(hdr, g, c) && Distinct(g, c) && OfChain(ws, c) && Held(s, hdr, ws) && Mine(ws)(w)
    ensures !Overwrites(s, w, {})
  {
    hide IsChain, Distinct, IsBlock, Core;
    var h := w.header.hash;
    if h in s.heads {
      var x := s.heads[h][0];
      assert x in s.heads[h] && Mine(ws)(x) && x.header.prev == h;
      forall v | v in Kids(s, w)
        ensures v in s.heads[h]
      {
        assert Mine(ws)(v) && v.header.prev == h;
        OneChild(hdr, g, c, v.header, x.header);
      }
    }
  }

  /** The block on the top is placed on the main chain, and no other one is. */
  lemma OnlyNextIsMain(s: State, hdr: Hash -> Header, g: Header, c: seq<Header>, w: Wrapper, k: nat, j: nat)
    requires IsChain(hdr, g, c) && Distinct(g, c) && j < |c| && c[j] == w.header && ConnectedTo(s, g, c, k)
    ensures Place(Prepare(s, w), w).Main? <==> j == k
  {
    hide IsChain, Distinct, IsBlock, StoredIs, AddHead;
    ChainAt(hdr, g, c, j);
    Apart(g, c, j, k);
    assert Prepare(s, w).top == s.top;
    hide Prepare;
  }

  lemma ChainParksNone(s: State, hdr: Hash -> Header, g: Header, c: seq<Header>, w: Wrapper, k: nat, j: nat)
    requires IsChain(hdr, g, c) && Distinct(g, c) && j < |c| && c[j] == w.header && ConnectedTo(s, g, c, k)
    ensures !Parks(s, w, {})
  {
    OnlyNextIsMain(s, hdr, g, c, w, k, j);
    ChainAt(hdr, g, c, j);
    StoredAt(s.store, g, c, k, j);
    StoredAt(s.store, g, c, k, j + 1);
    hide IsChain, Distinct, IsBlock, StoredIs, Prepare, Place;
  }

  lemma NextConnects(s: State, hdr: Hash -> Header, g: Header, c: seq<Header>, w: Wrapper, k: nat)
    requires IsChain(hdr, g, c) && Distinct(g, c) && k < |c| && c[k] == w.header && ConnectedTo(s, g, c, k)
    ensures ConnectedTo(Process(s, w, Accept), g, c, k + 1)
  {
    OnlyNextIsMain(s, hdr, g, c, w, k, k);
    var s1 := Prepare(s, w);
    assert s1.store == s.store && s1.top == s.top;
    MainStores(s1, w);
    hide IsChain, Distinct, IsBlock, StoredIs, Prepare, Place, ProcessMain, Stored, ProcessSide;
    StoredNext(s.store, g, c, k, ProcessMain(s1, w, Accept).top);
  }

  /** Any other block leaves the top and the set of stored blocks. */
  lemma OthersChangeNothing(
    s: State, hdr: Hash -> Header, g: Header, c: seq<Header>, w: Wrapper, k: nat, j: nat, verdict: Verdict)
    requires IsChain(hdr, g, c) && Distinct(g, c) && j < |c| && c[j] == w.header && j != k
    requires ConnectedTo(s, g, c, k) && Core(s, hdr) && s.genesis == g.hash
    ensures var t := Process(s, w, verdict); t.top == s.top && t.store.Keys == s.store.Keys
  {
    OnlyNextIsMain(s, hdr, g, c, w, k, j);
    ChainAt(hdr, g, c, j);
    StoredAt(s.store, g, c, k, j);
    StoredAt(s.store, g, c, k, j + 1);
    hide IsChain, Distinct, StoredIs, Core, Prepare, Place, Process;
    NotNextChangesNothing(s, hdr, w, verdict);
  }

  lemma NotNextChangesNothing(s: State, hdr: Hash -> Header, w: Wrapper, verdict: Verdict)
    requires Core(s, hdr) && IsBlock(hdr, s.genesis, w.header) && !Place(Prepare(s, w), w).Main?
    requires w.header.prev in s.store ==> w.header.hash in s.store
    ensures var t := Process(s, w, verdict); t.top == s.top && t.store.Keys == s.store.Keys
  {
    var s1 := Prepare(s, w);
    PrepareCore(s, hdr, w);
    assert s1.store == s.store && s1.top == s.top;
    hide Core, IsBlock, Prepare, ProcessMain, ProcessSide, AddHead, Kids;
    match Place(s1, w)
    case Main =>
    case Side(parent) => hide Place; SideChangesNothing(s1, hdr, w, parent, verdict);
    case Behind(_) => hide Place;
    case Head => hide Place;
    case Known => hide Place;
  }

  lemma SideChangesNothing(s: State, hdr: Hash -> Header, w: Wrapper, parent: Block, verdict: Verdict)
    requires Core(s, hdr) && IsBlock(hdr, s.genesis, w.header) && Place(s, w) == Side(parent)
    requires w.header.prev in s.store ==> w.header.hash in s.store
    ensures var t := ProcessSide(s, w, parent, verdict); t.top == s.top && t.store.Keys == s.store.Keys
  {
    SideParent(s, hdr, w);
    hide Place, ProcessSide;
    StoredHasNoMoreWork(s, hdr, w, parent);
    hide Core, IsBlock;
    SavedAgain(s, w, parent, verdict);
  }

  lemma SavedAgain(s: State, w: Wrapper, parent: Block, verdict: Verdict)
    requires w.header.hash in s.store && Attach(w.header, parent).chainWork <= s.top.chainWork
    ensures var t := ProcessSide(s, w, parent, verdict);
            t.top == s.top && t.store.Keys == s.store.Keys
  {
    hide SetRecent, FindFork, Kids, Reorganized;
  }

  lemma StoredSame(a: Store, b: Store, g: Header, c: seq<Header>, k: nat)
    requires k <= |c| && StoredIs(a, g, c, k) && a.Keys == b.Keys
    ensures StoredIs(b, g, c, k)
  {
    assert forall h :: h in b <==> h in a;
  }

  /** Each step extends the connected part by the next block or leaves it, and loses nothing. */
  lemma ChainStep(
    s: State, hdr: Hash -> Header, g: Header, c: seq<Header>, ws: Delivered, w: Wrapper, k: nat, verdict: Verdict)
    returns (k': nat)
    requires IsChain(hdr, g, c) && Distinct(g, c) && OfChain(ws, c)
    requires Held(s, hdr, ws) && s.genesis == g.hash && Mine(ws)(w) && ConnectedTo(s, g, c, k)
    requires w.header.hash !in s.store ==> verdict == Accept
    ensures !Loses(s, w, {}) && ConnectedTo(Process(s, w, verdict), g, c, k')
  {
    hide IsChain, Distinct, IsBlock, Process, Overwrites, Parks, Core, Linked, AllHeld, StoredIs;
    assert w.header in c && Core(s, hdr);
    var j := PlaceInChain(c, w.header);
    ChainKeepsChildren(s, hdr, g, c, ws, w);
    hide Held, OfChain, Mine;
    ChainParksNone(s, hdr, g, c, w, k, j);
    k' := k;
    if j == k {
      ChainAt(hdr, g, c, j);
      StoredAt(s.store, g, c, k, k + 1);
      hide ConnectedTo;
      NextConnects(s, hdr, g, c, w, k);
      k' := k + 1;
    } else {
      OthersChangeNothing(s, hdr, g, c, w, k, j, verdict);
      hide Loses;
      SameConnected(s, Process(s, w, verdict), g, c, k);
    }
  }

  // ----- runs -----

  lemma ChainIsTree(hdr: Hash -> Header, g: Header, c: seq<Header>, events: seq<Event>)
    requires IsChain(hdr, g, c) && Distinct(g, c) && NoRepeats(Deliveries(events))
    requires forall x :: x in Deliveries(events) ==> x in c
    ensures DeliversTree(events, hdr, g.hash)
  {
    hide IsChain, Distinct, Deliveries, IsBlock;
    forall x | x in Deliveries(events)
      ensures IsAbove(hdr, g.hash, x)
    {
      var i := PlaceInChain(c, x);
      ChainAt(hdr, g, c, i);
      Apart(g, c, i, i + 1);
    }
  }

  /** A run over blocks of one chain, each delivered once at most, never loses a block. */
  lemma {:induction false} ChainRun(hdr: Hash -> Header, g: Header, c: seq<Header>, events: seq<Event>) returns (k: nat)
    requires IsChain(hdr, g, c) && Distinct(g, c) && RejectsOnly(Init(g), events, {})
    requires NoRepeats(Deliveries(events)) && forall x :: x in Deliveries(events) ==> x in c
    ensures LosesNone(Init(g), events, {}) && ConnectedTo(After(Init(g), events), g, c, k)
  {
    hide Distinct, ConnectedTo, Process, Held, Loses, DeliversTree, Core;
    if events == [] {
      k := 0;
      assert ConnectedTo(Init(g), g, c, 0) by {
        InitConnected(g, c);
      }
    } else {
      var front, e := events[..|events| - 1], events[|events| - 1];
      ChainIsTree(hdr, g, c, events);
      FrontTree(events, hdr, g.hash);
      FrontOfChain(events, c);
      assert hdr(g.hash) == g && g.prev != g.hash;
      hide IsChain, Init;
      k := ChainRun(hdr, g, c, front);
      var s, ws := After(Init(g), front), Wrapped(Init(g), front);
      RunHeld(hdr, g, front);
      if e.Work? && s.queue != [] {
        Popped(s, hdr, ws, {});
        WrappedInChain(Init(g), front, c);
        SameConnected(s, s.(queue := s.queue[1..]), g, c, k);
        k := ChainStep(s.(queue := s.queue[1..]), hdr, g, c, ws, s.queue[0], k, e.verdict);
      } else {
        SameConnected(s, After(Init(g), events), g, c, k);
      }
    }
  }

  lemma InitConnected(g: Header, c: seq<Header>)
    ensures ConnectedTo(Init(g), g, c, 0)
  {
    assert Tip(g, c, 0) == g;
  }

  lemma SameConnected(s: State, t: State, g: Header, c: seq<Header>, k: nat)
    requires ConnectedTo(s, g, c, k) && t.top == s.top && t.store.Keys == s.store.Keys
    ensures ConnectedTo(t, g, c, k)
  {
    StoredSame(s.store, t.store, g, c, k);
    hide StoredIs;
  }

  lemma FrontOfChain(events: seq<Event>, c: seq<Header>)
    requires events != [] && forall x :: x in Deliveries(events) ==> x in c
    ensures forall x :: x in Deliveries(events[..|events| - 1]) ==> x in c
    ensures NoRepeats(Deliveries(events)) ==> NoRepeats(Deliveries(events[..|events| - 1]))
  {
    var ds := Deliveries(events[..|events| - 1]);
    assert forall x :: x in ds ==> x in Deliveries(events);
    assert forall m :: 0 <= m < |ds| ==> Deliveries(events)[m] == ds[m];
  }

  lemma WrappedInChain(s: State, events: seq<Event>, c: seq<Header>)
    requires forall x :: x in Deliveries(events) ==> x in c
    ensures OfChain(Wrapped(s, events), c)
  {
    WrappedAre(s, events);
    hide Wrapped, Deliveries;
  }

  /** The events deliver every block of the chain once, in any order, with processing steps in between. */
  ghost predicate DeliversChain(events: seq<Event>, c: seq<Header>) {
    NoRepeats(Deliveries(events)) && forall x :: x in Deliveries(events) <==> x in c
  }

  /**
   * Order independence: when all blocks of a chain have been delivered, in whatever
   * order and however the deliveries and the processing interleave, and the queue is
   * empty, the top is the last block of the chain and exactly the chain is stored.
   */
  lemma OrderIndependence(hdr: Hash -> Header, g: Header, c: seq<Header>, events: seq<Event>)
    requires IsChain(hdr, g, c) && DeliversChain(events, c) && RejectsOnly(Init(g), events, {})
    requires After(Init(g), events).queue == []
    ensures var s := After(Init(g), events);
            && s.top.header == Tip(g, c, |c|) && s.top.height == |c|
            && forall h :: h in s.store <==> exists i: nat :: i <= |c| && Tip(g, c, i).hash == h
  {
    AllConnected(hdr, g, c, events);
    hide IsChain, DeliversChain, After, Init, RejectsOnly;
  }

  lemma AllConnected(hdr: Hash -> Header, g: Header, c: seq<Header>, events: seq<Event>)
    requires IsChain(hdr, g, c) && DeliversChain(events, c) && RejectsOnly(Init(g), events, {})
    requires After(Init(g), events).queue == []
    ensures ConnectedTo(After(Init(g), events), g, c, |c|)
  {
    ChainDistinct(hdr, g, c);
    var k := ChainRun(hdr, g, c, events);
    NothingLostInChain(hdr, g, c, events);
    hide IsChain, Distinct, DeliversChain, After, Init, RejectsOnly, LosesNone;
    hide Wrapped, AllPending, ConnectedTo, OfChain;
    PartLength(After(Init(g), events), g, c, k);
    if k < |c| {
      SomethingQueued(After(Init(g), events), hdr, g, c, Wrapped(Init(g), events), k);
    }
  }

  lemma NothingLostInChain(hdr: Hash -> Header, g: Header, c: seq<Header>, events: seq<Event>)
    requires IsChain(hdr, g, c) && Distinct(g, c) && DeliversChain(events, c) && RejectsOnly(Init(g), events, {})
    requires LosesNone(Init(g), events, {})
    ensures var ws := Wrapped(Init(g), events);
            && AllPending(After(Init(g), events), ws, {}) && OfChain(ws, c)
            && (forall i :: 0 <= i < |c| ==> c[i].hash in ws) && (forall h :: h in ws ==> ws[h].header.hash == h)
  {
    ChainIsTree(hdr, g, c, events);
    WrappedInChain(Init(g), events, c);
    assert hdr(g.hash) == g && g.prev != g.hash;
    hide IsChain, Distinct, OfChain, DeliversTree, After, Init, LosesNone, RejectsOnly, AllPending;
    RunIff(hdr, g, events, {});
    assert events[..|events|] == events;
    assert NothingLost(Init(g), events, {});
    WrappedAre(Init(g), events);
    hide Wrapped, Deliveries, NothingLost;
  }

  lemma PartLength(s: State, g: Header, c: seq<Header>, k: nat)
    requires ConnectedTo(s, g, c, k)
    ensures k <= |c|
  {
  }

  /** With every block delivered, the first one that is not connected is in the queue. */
  lemma SomethingQueued(s: State, hdr: Hash -> Header, g: Header, c: seq<Header>, ws: Delivered, k: nat)
    requires IsChain(hdr, g, c) && Distinct(g, c) && k < |c| && ConnectedTo(s, g, c, k)
    requires (forall i :: 0 <= i < |c| ==> c[i].hash in ws) && (forall h :: h in ws ==> ws[h].header.hash == h)
    requires OfChain(ws, c) && AllPending(s, ws, {})
    ensures s.queue != []
  {
    hide IsChain, Distinct, IsBlock, Waits;
    ChainAt(hdr, g, c, k);
    StoredAt(s.store, g, c, k, k);
    StoredAt(s.store, g, c, k, k + 1);
    var w := ws[c[k].hash];
    var i := PlaceInChain(c, w.header);
    ChainAt(hdr, g, c, i);
    Apart(g, c, i + 1, k + 1);
    hide StoredIs;
    assert Pending(s, ws, w);
  }

  // ----- the queue becomes empty -----

  /** The place of a hash in the chain, or 0. */
  ghost function RankIn(c: seq<Header>): Hash -> nat {
    (h: Hash) =>
      if exists i :: 0 <= i < |c| && c[i].hash == h then (var i :| 0 <= i < |c| && c[i].hash == h; i + 1) else 0
  }

  lemma ChainRanks(hdr: Hash -> Header, g: Header, c: seq<Header>, events: seq<Event>)
    requires IsChain(hdr, g, c) && Distinct(g, c) && forall x :: x in Deliveries(events) ==> x in c
    ensures DeliversRanked(events, RankIn(c), |c|)
  {
    forall m | 0 <= m < |events| && events[m].Deliver?
      ensures RanksAs(RankIn(c), |c|, events[m].header)
    {
      DeliveredListed(events, m);
      var i :| 0 <= i < |c| && c[i] == events[m].header;
      ChainAt(hdr, g, c, i);
      RankAt(hdr, g, c, i);
      RankAt(hdr, g, c, i + 1);
    }
  }

  lemma RankAt(hdr: Hash -> Header, g: Header, c: seq<Header>, i: nat)
    requires IsChain(hdr, g, c) && Distinct(g, c) && i <= |c|
    ensures RankIn(c)(Tip(g, c, i).hash) == i
  {
    forall j | 0 <= j < |c|
      ensures c[j].hash == Tip(g, c, i).hash <==> j + 1 == i
    {
      ChainAt(hdr, g, c, j);
      Apart(g, c, j + 1, i);
    }
    hide IsChain, Distinct;
    if i > 0 {
      assert c[i - 1].hash == Tip(g, c, i).hash;
    }
  }

  /** From any such run, processing what is queued leads to the chain's last block. */
  lemma AnyOrderReachesTheTip(hdr: Hash -> Header, g: Header, c: seq<Header>, events: seq<Event>) returns (n: nat)
    requires IsChain(hdr, g, c) && DeliversChain(events, c) && RejectsOnly(Init(g), events, {})
    ensures var s := After(Init(g), events + Works(n));
            s.queue == [] && s.top.header == Tip(g, c, |c|) && s.top.height == |c|
  {
    ChainDistinct(hdr, g, c);
    ChainRanks(hdr, g, c, events);
    EveryRunDrains(g, events, RankIn(c), |c|);
    hide IsChain, Distinct, Init, After, RankIn;
    var m: nat :| EmptyWithin(After(Init(g), events), m);
    n := m;
    EmptyAfter(Init(g), events, Works(n), m);
    WorksAccept(Init(g), events, n);
    OrderIndependence(hdr, g, c, events + Works(n));
  }
}
