/** Deliveries that put parents first: every block is processed once, and neither flags nor blocks are lost. */
module ParentsFirst {
  import opened BlockTree
  import opened BlockChain
  import opened ChainInvariant
  import opened ActiveChain
  import opened Delivery

  /** The parent of every block is genesis or comes earlier. */
  ghost predicate ParentsComeFirst(genesis: Hash, ds: seq<Header>) {
    forall i :: 0 <= i < |ds| ==> Seen(genesis, ds, i, ds[i].prev)
  }

  /** The hash is genesis's or that of one of the first m blocks. */
  ghost predicate Seen(genesis: Hash, ds: seq<Header>, m: nat, h: Hash)
    requires m <= |ds|
  {
    h == genesis || exists i :: 0 <= i < m && ds[i].hash == h
  }

  /** The queue is what was delivered and not processed yet; every index knows processed blocks only. */
  ghost predicate InOrder(s: State, ds: seq<Header>, m: nat) {
    && m <= |ds| && |s.queue| == |ds| - m && (forall i :: 0 <= i < |s.queue| ==> s.queue[i].header == ds[m + i])
    && (forall h :: h in s.store ==> Seen(s.genesis, ds, m, h))
    && (forall h :: h in s.connecting ==> Seen(s.genesis, ds, m, h) && h !in s.store)
    && (forall h :: h in s.recent.index ==> Seen(s.genesis, ds, m, h))
    && (forall h :: h in s.heads ==> Seen(s.genesis, ds, m, h))
    && (forall v :: v in s.children ==> Seen(s.genesis, ds, m, v.header.hash))
  }

  lemma SeenGrows(genesis: Hash, ds: seq<Header>, m: nat, more: seq<Header>, n: nat, h: Hash)
    requires m <= |ds| && m <= n <= |more| && ds[..m] == more[..m] && Seen(genesis, ds, m, h)
    ensures Seen(genesis, more, n, h)
  {
    if h != genesis {
      var i :| 0 <= i < m && ds[i].hash == h;
      assert ds[..m][i] == more[..m][i];
    }
  }

  /** The next block to process is new to every index. */
  lemma NextUnseen(events: seq<Event>, hdr: Hash -> Header, genesis: Hash, m: nat)
    requires DeliversTree(events, hdr, genesis) && m < |Deliveries(events)|
    ensures !Seen(genesis, Deliveries(events), m, Deliveries(events)[m].hash)
  {
    var ds := Deliveries(events);
    hide Deliveries;
    assert ds[m] in ds && IsAbove(hdr, genesis, ds[m]);
    forall i | 0 <= i < m
      ensures ds[i].hash != ds[m].hash
    {
      assert ds[i] in ds && IsAbove(hdr, genesis, ds[i]);
    }
  }

  /** A block with a new hash is indexed, and nothing waits for it. */
  lemma PrepareNew(s: State, w: Wrapper)
    requires w.header.hash !in s.heads && w !in s.children
    ensures Prepare(s, w) == s.(connecting := s.connecting[w.header.hash := w]) && Kids(Prepare(s, w), w) == []
  {
  }

  /** What a step with a new block does to the indexes. */
  lemma NewStep(s: State, hdr: Hash -> Header, w: Wrapper, verdict: Verdict, bad: set<Hash>)
    requires Core(s, hdr) && IsAbove(hdr, s.genesis, w.header) && Linked(s)
    requires w.header.hash !in s.heads && w !in s.children && w.header.hash !in s.store
    requires forall h :: h in s.connecting ==> h !in s.store
    ensures var t, j := Process(s, w, verdict), w.header.hash;
            && t.queue == s.queue && t.store.Keys <= s.store.Keys + {j}
            && t.recent.index.Keys <= s.recent.index.Keys + {j}
            && (forall h :: h in t.connecting ==> (h in s.connecting || h == j) && h !in t.store)
            && (forall h :: h in t.heads ==> h in s.heads || h == w.header.prev)
            && (forall v :: v in t.children ==> v in s.children || v.header.hash == w.header.prev)
    ensures !Loses(s, w, bad)
  {
    PrepareNew(s, w);
    ProcessStores(s, hdr, w, verdict);
    ProcessLists(s, hdr, w, verdict);
    RecentKeys(s, w, verdict);
    var s1, t := Prepare(s, w), Process(s, w, verdict);
    assert s1 == s.(connecting := s.connecting[w.header.hash := w]);
    if Place(s1, w).Behind? {
      BehindParent(s, w);
      ProcessWaits(s, w, verdict);
    } else if Place(s1, w).Head? || Place(s1, w).Known? {
      ProcessWaits(s, w, verdict);
    } else {
      ConnectFields(s, w, verdict);
    }
    hide Core, Linked, Process, Place, Within, IsAbove, Prepare;
  }

  lemma BehindParent(s: State, w: Wrapper)
    requires Linked(s) && w.header.prev != w.header.hash && Place(Prepare(s, w), w).Behind?
    requires w.header.hash !in s.heads && w !in s.children
    ensures Place(Prepare(s, w), w).orphan.header.hash == w.header.prev && w.header.prev in s.connecting
  {
  }

  lemma ConnectFields(s: State, w: Wrapper, verdict: Verdict)
    requires var p := Place(Prepare(s, w), w); p.Main? || p.Side?
    ensures OnlyConnects(Prepare(s, w), Process(s, w, verdict), w)
  {
    var s1 := Prepare(s, w);
    hide Prepare, Place, ProcessMain, ProcessSide, OnlyConnects;
    match Place(s1, w)
    case Main => MainFields(s1, w, verdict);
    case Side(parent) => SideFields(s1, w, parent, verdict);
  }

  lemma RecentKeys(s: State, w: Wrapper, verdict: Verdict)
    ensures Process(s, w, verdict).recent.index.Keys <= s.recent.index.Keys + {w.header.hash}
  {
    var s1 := Prepare(s, w);
    assert s1.recent == s.recent;
    hide Prepare, Place, ProcessMain, ProcessSide, AddHead, Kids;
    match Place(s1, w)
    case Main => RecentMain(s1, w, verdict);
    case Side(parent) => RecentSide(s1, w, parent, verdict);
    case Behind(orphan) =>
    case Head =>
    case Known =>
  }

  lemma RecentMain(s: State, w: Wrapper, verdict: Verdict)
    ensures ProcessMain(s, w, verdict).recent.index.Keys <= s.recent.index.Keys + {w.header.hash}
  {
    SetRecentShrinks(s.recent, Attach(w.header, s.top).(active := true));
    hide SetRecent, Kids;
  }

  lemma RecentSide(s: State, w: Wrapper, parent: Block, verdict: Verdict)
    ensures ProcessSide(s, w, parent, verdict).recent.index.Keys <= s.recent.index.Keys + {w.header.hash}
  {
    SetRecentShrinks(s.recent, Attach(w.header, parent));
    hide SetRecent, Kids, FindFork, Reorganized;
  }

  // ----- runs -----

  lemma DeliverInOrder(s: State, ds: seq<Header>, m: nat, x: Header)
    requires InOrder(s, ds, m) && !Seen(s.genesis, ds, m, x.hash)
    ensures InOrder(Add(s, x), ds + [x], m)
  {
    forall h | Seen(s.genesis, ds, m, h)
      ensures Seen(s.genesis, ds + [x], m, h)
    {
      SeenGrows(s.genesis, ds, m, ds + [x], m, h);
    }
    hide Seen;
  }

  lemma WorkInOrder(
    s: State, hdr: Hash -> Header, events: seq<Event>, m: nat, verdict: Verdict, bad: set<Hash>)
    requires var ds := Deliveries(events);
             InOrder(s, ds, m) && s.queue != [] && ParentsComeFirst(s.genesis, ds)
    requires DeliversTree(events, hdr, s.genesis) && Core(s, hdr) && Linked(s)
    ensures InOrder(Tick(s, verdict), Deliveries(events), m + 1)
    ensures s.queue[0].header.hash !in s.store && !Loses(s.(queue := s.queue[1..]), s.queue[0], bad)
  {
    var ds, w := Deliveries(events), s.queue[0];
    var popped := s.(queue := s.queue[1..]);
    var j := w.header.hash;
    hide Deliveries, Process, Core, Linked, Loses, IsAbove;
    assert w.header == ds[m] && ds[m] in ds;
    NextUnseen(events, hdr, s.genesis, m);
    assert j !in s.heads && w !in s.children && j !in s.store;
    QueueCore(s, popped, hdr);
    QueueLinked(s, popped);
    NewStep(popped, hdr, w, verdict, bad);
    GenesisStays(popped, w, verdict);
    assert Seen(s.genesis, ds, m, w.header.prev);
    StillInOrder(s, Tick(s, verdict), ds, m, w);
  }

  lemma StillInOrder(s: State, t: State, ds: seq<Header>, m: nat, w: Wrapper)
    requires InOrder(s, ds, m) && m < |ds| && w.header == ds[m] && t.genesis == s.genesis
    requires s.queue != [] && t.queue == s.queue[1..] && Seen(s.genesis, ds, m, w.header.prev)
    requires t.store.Keys <= s.store.Keys + {w.header.hash}
    requires t.recent.index.Keys <= s.recent.index.Keys + {w.header.hash}
    requires forall h :: h in t.connecting ==> (h in s.connecting || h == w.header.hash) && h !in t.store
    requires forall h :: h in t.heads ==> h in s.heads || h == w.header.prev
    requires forall v :: v in t.children ==> v in s.children || v.header.hash == w.header.prev
    ensures InOrder(t, ds, m + 1)
  {
    forall h | Seen(s.genesis, ds, m, h)
      ensures Seen(s.genesis, ds, m + 1, h)
    {
      SeenGrows(s.genesis, ds, m, ds, m + 1, h);
    }
    assert Seen(s.genesis, ds, m + 1, w.header.hash);
    hide Seen;
    assert forall h :: h in t.store ==> h in s.store || h == w.header.hash;
    assert forall h :: h in t.recent.index ==> h in s.recent.index || h == w.header.hash;
  }

  lemma InitInOrder(g: Header)
    ensures InOrder(Init(g), [], 0)
  {
  }

  lemma FrontParents(events: seq<Event>, genesis: Hash)
    requires events != [] && ParentsComeFirst(genesis, Deliveries(events))
    ensures ParentsComeFirst(genesis, Deliveries(events[..|events| - 1]))
  {
    var ds, all := Deliveries(events[..|events| - 1]), Deliveries(events);
    assert |ds| <= |all| && all[..|ds|] == ds;
    hide Deliveries;
    forall i | 0 <= i < |ds|
      ensures Seen(genesis, ds, i, ds[i].prev)
    {
      assert ds[i] == all[i] && ds[..i] == all[..i];
      SeenGrows(genesis, all, i, ds, i, ds[i].prev);
    }
  }

  /** In such a run every block is new when its turn comes, and no step loses one, whatever the verdicts. */
  lemma {:induction false} ParentsFirstRun(hdr: Hash -> Header, g: Header, events: seq<Event>, bad: set<Hash>)
    returns (m: nat)
    requires hdr(g.hash) == g && g.prev != g.hash && DeliversTree(events, hdr, g.hash)
    requires ParentsComeFirst(g.hash, Deliveries(events))
    ensures InOrder(After(Init(g), events), Deliveries(events), m)
    ensures OnlyNewBlocks(Init(g), events) && LosesNone(Init(g), events, bad)
  {
    hide InOrder, Held, Add, Process, DeliversTree, ParentsComeFirst, Loses, IsAbove, Init, Core, Linked, Mine, AllHeld;
    if events == [] {
      InitInOrder(g);
      m := 0;
    } else {
      var front, e := events[..|events| - 1], events[|events| - 1];
      FrontTree(events, hdr, g.hash);
      FrontParents(events, g.hash);
      m := ParentsFirstRun(hdr, g, front, bad);
      RunHeld(hdr, g, front);
      var s, ds := After(Init(g), front), Deliveries(front);
      match e
      case Deliver(x) =>
        DeliveredUnseen(events, hdr, g.hash, m, s);
        DeliverInOrder(s, ds, m, x);
      case Work(verdict) =>
        assert Deliveries(events) == ds;
        if s.queue != [] {
          HeldParts(s, hdr, Wrapped(Init(g), front));
          WorkInOrder(s, hdr, front, m, verdict, bad);
          m := m + 1;
        }
    }
  }

  lemma HeldParts(s: State, hdr: Hash -> Header, ws: Delivered)
    requires Held(s, hdr, ws)
    ensures Core(s, hdr) && Linked(s)
  {
  }

  lemma DeliveredUnseen(events: seq<Event>, hdr: Hash -> Header, genesis: Hash, m: nat, s: State)
    requires events != [] && events[|events| - 1].Deliver? && DeliversTree(events, hdr, genesis)
    requires InOrder(s, Deliveries(events[..|events| - 1]), m)
    ensures !Seen(genesis, Deliveries(events[..|events| - 1]), m, events[|events| - 1].header.hash)
  {
    var ds, all := Deliveries(events[..|events| - 1]), Deliveries(events);
    var x := events[|events| - 1].header;
    NextUnseen(events, hdr, genesis, |ds|);
    assert all == ds + [x] && all[..|ds|] == ds && m <= |ds| && all[..m] == ds[..m];
    hide Deliveries, Seen, InOrder, DeliversTree;
    if Seen(genesis, ds, m, x.hash) {
      SeenGrows(genesis, ds, m, all, |ds|, x.hash);
    }
  }

  /**
   * When parents are delivered before their children, each block once, the active
   * blocks are the path to the top, whatever the verdicts.
   */
  lemma ParentsFirstActive(hdr: Hash -> Header, g: Header, events: seq<Event>)
    requires hdr(g.hash) == g && g.prev != g.hash && DeliversTree(events, hdr, g.hash)
    requires ParentsComeFirst(g.hash, Deliveries(events))
    ensures Core(After(Init(g), events), hdr) && Active(After(Init(g), events))
  {
    var m := ParentsFirstRun(hdr, g, events, {});
    NewBlocksNeverDeactivate(Init(g), events);
    AllAbove(hdr, g, events);
    hide ParentsComeFirst, DeliversTree, NeverDeactivates, OnlyNewBlocks, After, Init, LosesNone, InOrder;
    ActiveInRun(hdr, g, events);
  }

  lemma {:induction false} AllAbove(hdr: Hash -> Header, g: Header, events: seq<Event>)
    requires DeliversTree(events, hdr, g.hash)
    ensures DeliversBlocks(events, hdr, g.hash)
  {
    forall i | 0 <= i < |events| && events[i].Deliver?
      ensures IsBlock(hdr, g.hash, events[i].header)
    {
      DeliveredListed(events, i);
      assert IsAbove(hdr, g.hash, events[i].header);
    }
  }

  /** And exactly the delivered branches without a rejected block are stored once the queue is empty. */
  lemma ParentsFirstOutcome(hdr: Hash -> Header, g: Header, events: seq<Event>, bad: set<Hash>)
    requires hdr(g.hash) == g && g.prev != g.hash && DeliversTree(events, hdr, g.hash)
    requires ParentsComeFirst(g.hash, Deliveries(events)) && RejectsOnly(Init(g), events, bad)
    requires After(Init(g), events).queue == []
    ensures IsOutcome(After(Init(g), events), g, Good(Deliveries(events), bad))
  {
    var m := ParentsFirstRun(hdr, g, events, bad);
    hide ParentsComeFirst, DeliversTree, OnlyNewBlocks, After, Init, LosesNone, InOrder, IsOutcome;
    RunOutcome(hdr, g, events, bad);
  }
}
