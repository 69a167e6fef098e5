/** A run over a small tree in which a delivered block is lost. */
module LostOrphan {
  import opened BlockTree
  import opened BlockChain
  import opened Delivery

  // A chain of three blocks and two side blocks: 1 on genesis, 2 on 1, 3 and 4 on 2, 5 on 3.
  const G := Header(0, 9, 1)
  const B1 := Header(1, 0, 1)
  const B2 := Header(2, 1, 1)
  const B3 := Header(3, 2, 1)
  const B4 := Header(4, 2, 1)
  const B5 := Header(5, 3, 1)
  const W2 := Wrapper(0, B2)
  const W4 := Wrapper(1, B4)
  const W5 := Wrapper(2, B5)
  const W3 := Wrapper(3, B3)
  const W1 := Wrapper(4, B1)

  /** A block is delivered and the next block of the queue is processed. */
  function Arrival(x: Header): seq<Event> {
    [Deliver(x), Work(Accept)]
  }

  /** Each block is processed when it arrives; then the queue drains. */
  function ForkRun(): seq<Event> {
    Arrival(B2) + Arrival(B4) + Arrival(B5) + Arrival(B3) + Arrival(B1)
    + [Work(Accept)] + [Work(Accept)] + [Work(Accept)]
  }

  function Go(s: State, x: Header): State {
    Tick(Add(s, x), Accept)
  }

  /** The orphan 2. */
  lemma ForkSecond()
    ensures var t := Go(Init(G), B2);
            && t == Init(G).(connecting := t.connecting, heads := t.heads, nextId := 1)
            && t.connecting == map[2 := W2] && t.heads == map[1 := [W2]]
  {
    var none: seq<Wrapper> := [];
    assert none + [W2] == [W2] && Add(Init(G), B2).queue == [W2];
  }

  /** The orphan 4 below it. */
  lemma ForkFourth(s: State)
    requires s == Init(G).(connecting := s.connecting, heads := s.heads, nextId := 1)
    requires s.connecting == map[2 := W2] && s.heads == map[1 := [W2]]
    ensures var t := Go(s, B4);
            && t == Init(G).(connecting := t.connecting, heads := t.heads, children := t.children, nextId := 2)
            && t.connecting == map[2 := W2, 4 := W4] && t.heads == map[1 := [W2]] && t.children == map[W2 := [W4]]
  {
    var none: seq<Wrapper> := [];
    assert none + [W4] == [W4] && Add(s, B4).queue == [W4];
  }

  /** The orphan 5. */
  lemma ForkFifth(s: State)
    requires s == Init(G).(connecting := s.connecting, heads := s.heads, children := s.children, nextId := 2)
    requires s.connecting == map[2 := W2, 4 := W4] && s.heads == map[1 := [W2]] && s.children == map[W2 := [W4]]
    ensures var t := Go(s, B5);
            && t == Init(G).(connecting := t.connecting, heads := t.heads, children := t.children, nextId := 3)
            && t.connecting == map[2 := W2, 4 := W4, 5 := W5]
            && t.heads == map[1 := [W2], 3 := [W5]] && t.children == map[W2 := [W4]]
  {
    var none: seq<Wrapper> := [];
    assert none + [W5] == [W5] && Add(s, B5).queue == [W5];
  }

  /** A delivered block that is new is processed at once when the queue is empty. */
  lemma GoIsProcess(s: State, x: Header)
    requires s.queue == [] && x.hash !in s.connecting && x.hash !in s.recent.index
    ensures Go(s, x) == Process(s.(nextId := s.nextId + 1), Wrapper(s.nextId, x), Accept)
  {
    hide Process;
    assert Add(s, x).queue == [Wrapper(s.nextId, x)];
    assert Add(s, x).(queue := Add(s, x).queue[1..]) == s.(nextId := s.nextId + 1);
  }

  /** A prepared block on the top connects. */
  lemma ProcessTop(s: State, w: Wrapper)
    requires w.header.prev == s.top.header.hash
    ensures var s1, t := Prepare(s, w), Process(s, w, Accept);
            && t.heads == s1.heads && t.children == s1.children && t.connecting == s1.connecting - {w.header.hash}
            && t.top == Attach(w.header, s.top).(active := true) && t.store == s.store[w.header.hash := t.top]
            && t.queue == Kids(s1, w) + s.queue
  {
    var s1 := Prepare(s, w);
    assert s1.top == s.top && s1.store == s.store && s1.queue == s.queue;
    MainStores(s1, w);
    MainFields(s1, w, Accept);
    hide Prepare, ProcessMain, ProcessSide, Kids;
  }

  /** The indexes after a block with waiting orphans has been prepared. */
  lemma PreparedAbove(s: State, w: Wrapper, siblings: map<Hash, seq<Wrapper>>)
    requires w.header.hash in s.heads && s.heads - {w.header.hash} == siblings && w.header.prev !in siblings
    ensures Prepare(s, w) == s.(connecting := s.connecting[w.header.hash := w], heads := siblings[w.header.prev := [w]],
                                children := s.children[w := s.heads[w.header.hash]])
  {
    var none: seq<Wrapper> := [];
    assert none + [w] == [w];
  }

  /** A block on the top that orphans wait for. */
  lemma TopAbove(s: State, w: Wrapper, siblings: map<Hash, seq<Wrapper>>)
    requires w.header.prev == s.top.header.hash
    requires w.header.hash in s.heads && s.heads - {w.header.hash} == siblings && w.header.prev !in siblings
    ensures var t := Process(s, w, Accept);
            && t.heads == siblings[w.header.prev := [w]] && t.children == s.children[w := s.heads[w.header.hash]]
            && t.connecting == s.connecting - {w.header.hash}
            && t.top == Attach(w.header, s.top).(active := true) && t.store == s.store[w.header.hash := t.top]
            && t.queue == s.heads[w.header.hash] + s.queue
  {
    hide Process;
    PreparedAbove(s, w, siblings);
    ProcessTop(s, w);
    hide Prepare;
  }

  /** Block 3 is listed below 2, which is being connected still, and becomes its child beside 4. */
  lemma ForkThird(s: State)
    requires s == Init(G).(connecting := s.connecting, heads := s.heads, children := s.children, nextId := 3)
    requires s.connecting == map[2 := W2, 4 := W4, 5 := W5]
    requires s.heads == map[1 := [W2], 3 := [W5]] && s.children == map[W2 := [W4]]
    ensures var t := Go(s, B3);
            && t == Init(G).(connecting := t.connecting, heads := t.heads, children := t.children, nextId := 4)
            && t.connecting == map[2 := W2, 4 := W4, 5 := W5, 3 := W3]
            && t.heads == map[1 := [W2], 2 := [W3]] && t.children == map[W2 := [W4, W3], W3 := [W5]]
  {
    GoIsProcess(s, B3);
    hide Go, Process, Prepare, ProcessMain, ProcessSide;
    var p := s.(nextId := 4);
    PreparedAbove(p, W3, map[1 := [W2]]);
    assert Place(Prepare(p, W3), W3) == Behind(W2);
    ProcessWaits(p, W3, Accept);
    assert [W4] + [W3] == [W4, W3];
  }

  /** Block 1 connects, and 2 is queued. */
  lemma ForkFirst(s: State)
    requires s == Init(G).(connecting := s.connecting, heads := s.heads, children := s.children, nextId := 4)
    requires s.connecting == map[2 := W2, 4 := W4, 5 := W5, 3 := W3]
    requires s.heads == map[1 := [W2], 2 := [W3]] && s.children == map[W2 := [W4, W3], W3 := [W5]]
    ensures var a := Go(s, B1);
            && a.queue == [W2] && a.top == Block(B1, 1, 2, true) && a.store.Keys == {0, 1}
            && a.connecting == map[2 := W2, 4 := W4, 5 := W5, 3 := W3]
            && a.heads == map[2 := [W3], 0 := [W1]] && a.children == map[W2 := [W4, W3], W3 := [W5], W1 := [W2]]
  {
    GoIsProcess(s, B1);
    hide Go, Process, Prepare;
    var p := s.(nextId := 5);
    TopAbove(p, W1, map[2 := [W3]]);
    var none: seq<Wrapper> := [];
    assert [W2] + none == [W2];
  }

  /** The list below 2 replaces its children, and 4 is gone. */
  lemma ForkOverwrites(a: State)
    requires a.queue == [W2] && a.top == Block(B1, 1, 2, true) && a.store.Keys == {0, 1}
    requires a.connecting == map[2 := W2, 4 := W4, 5 := W5, 3 := W3]
    requires a.heads == map[2 := [W3], 0 := [W1]] && a.children == map[W2 := [W4, W3], W3 := [W5], W1 := [W2]]
    ensures var t := Tick(a, Accept);
            && t.queue == [W3] && t.top == Block(B2, 2, 3, true) && t.store.Keys == {0, 1, 2}
            && t.connecting == map[4 := W4, 5 := W5, 3 := W3]
            && t.heads == map[0 := [W1], 1 := [W2]] && t.children == map[W2 := [W3], W3 := [W5], W1 := [W2]]
  {
    var p := a.(queue := []);
    assert Tick(a, Accept) == Process(p, W2, Accept) by {
      hide Process;
      assert a.queue[1..] == [];
    }
    hide Tick, Process, Prepare;
    assert a.heads - {2} == map[0 := [W1]];
    assert a.children[W2 := [W3]] == map[W2 := [W3], W3 := [W5], W1 := [W2]];
    assert a.connecting - {2} == map[4 := W4, 5 := W5, 3 := W3];
    var none: seq<Wrapper> := [];
    assert [W3] + none == [W3];
    TopAbove(p, W2, map[0 := [W1]]);
  }

  /** A block on the top with no orphans below it. */
  lemma ForkGrows(s: State, w: Wrapper)
    requires s.queue == [w] && w.header.prev == s.top.header.hash && w.header.hash !in s.heads
    ensures var t := Tick(s, Accept);
            && t.heads == s.heads && t.children == s.children && t.queue == Kids(s, w)
            && t.connecting == s.connecting - {w.header.hash}
            && t.top == Attach(w.header, s.top).(active := true) && t.store == s.store[w.header.hash := t.top]
  {
    var p := s.(queue := []);
    assert Prepare(p, w) == p.(connecting := s.connecting[w.header.hash := w]);
    ProcessTop(p, w);
    hide Process, Prepare;
  }

  lemma ForkDrains(s: State)
    requires s.queue == [W3] && s.top == Block(B2, 2, 3, true) && s.store.Keys == {0, 1, 2}
    requires s.connecting == map[4 := W4, 5 := W5, 3 := W3]
    requires s.heads == map[0 := [W1], 1 := [W2]] && s.children == map[W2 := [W3], W3 := [W5], W1 := [W2]]
    ensures var t := Tick(Tick(s, Accept), Accept);
            && t.queue == [] && t.top.header == B5 && t.store.Keys == {0, 1, 2, 3, 5}
            && t.connecting == map[4 := W4] && t.heads == s.heads && t.children == s.children
  {
    hide Tick;
    ForkGrows(s, W3);
    ForkGrows(Tick(s, Accept), W5);
  }

  lemma AfterWork(s: State, events: seq<Event>)
    ensures After(s, events + [Work(Accept)]) == Tick(After(s, events), Accept)
  {
    var all := events + [Work(Accept)];
    assert all[..|all| - 1] == events;
  }

  lemma AfterArrival(s: State, events: seq<Event>, x: Header)
    ensures After(s, events + Arrival(x)) == Go(After(s, events), x)
  {
    var some := events + [Deliver(x)];
    assert some[..|some| - 1] == events && some + [Work(Accept)] == events + Arrival(x);
    AfterWork(s, some);
    hide Add, Tick;
  }

  lemma ForkUnrolled()
    ensures var s := Go(Go(Go(Go(Go(Init(G), B2), B4), B5), B3), B1);
            After(Init(G), ForkRun()) == Tick(Tick(Tick(s, Accept), Accept), Accept)
  {
    var g, r1 := Init(G), Arrival(B2);
    assert After(g, []) == g && [] + r1 == r1;
    var r2 := r1 + Arrival(B4);
    var r3 := r2 + Arrival(B5);
    var r4 := r3 + Arrival(B3);
    var r5 := r4 + Arrival(B1);
    assert ForkRun() == r5 + [Work(Accept)] + [Work(Accept)] + [Work(Accept)];
    hide After, Tick, Add, Init, Go, Arrival, ForkRun;
    AfterArrival(g, [], B2);
    AfterArrival(g, r1, B4);
    AfterArrival(g, r2, B5);
    AfterArrival(g, r3, B3);
    AfterArrival(g, r4, B1);
    AfterWork(g, r5);
    AfterWork(g, r5 + [Work(Accept)]);
    AfterWork(g, r5 + [Work(Accept)] + [Work(Accept)]);
  }

  /**
   * Not every tree survives every order. Block 4 was delivered and its parent is
   * stored, but it is neither stored nor in any list; being indexed as still
   * connecting it is not taken again either.
   */
  lemma ForkLosesABlock()
    ensures var s := After(Init(G), ForkRun());
            && s.queue == [] && B4.prev in s.store && B4.hash !in s.store && s.top.header == B5
            && (forall h :: h in s.heads ==> W4 !in s.heads[h]) && (forall v :: W4 !in Kids(s, v))
            && Add(s, B4) == s
  {
    ForkUnrolled();
    hide After, Tick, Add, Init, ForkRun, Go;
    ForkSecond();
    ForkFourth(Go(Init(G), B2));
    ForkFifth(Go(Go(Init(G), B2), B4));
    var a := Go(Go(Go(Init(G), B2), B4), B5);
    ForkThird(a);
    ForkFirst(Go(a, B3));
    ForkOverwrites(Go(Go(a, B3), B1));
    var b := Tick(Go(Go(a, B3), B1), Accept);
    ForkDrains(b);
    NotTakenAgain(Tick(Tick(b, Accept), Accept), B4);
  }

  lemma NotTakenAgain(s: State, x: Header)
    requires x.hash in s.connecting
    ensures Add(s, x) == s
  {
  }

  // ----- a block behind a stored parent -----

  // Blocks 3 to 11 arrive, then 2, then 1. All connect; 2 was listed twice and is processed
  // again when its parent is no longer among the recent blocks.

  function C(i: nat): Header
    requires i > 0
  {
    Header(i, i - 1, 1)
  }

  const X := Header(12, 2, 1)

  /** The wrappers in the order of delivery. */
  function V(i: nat): Wrapper
    requires 0 < i
  {
    Wrapper(if i >= 3 then i - 3 else 11 - i, C(i))
  }

  function ClimbRun(m: nat): seq<Event>
    requires m >= 2
  {
    if m == 2 then [] else ClimbRun(m - 1) + Arrival(C(m))
  }

  function ParkRun(): seq<Event> {
    ClimbRun(11) + Arrival(C(2)) + Arrival(C(1)) + Works(10) + [Work(Accept)] + Arrival(X)
  }

  /** Each block's only child is the next one, from block `from` to block m - 1. */
  ghost predicate KidsAre(s: State, from: nat, m: nat) {
    forall i: nat :: 1 < i < 12 ==> HasKids(s, from, m, i)
  }

  predicate HasKids(s: State, from: nat, m: nat, i: nat)
    requires i > 0
  {
    Kids(s, V(i)) == if from <= i < m then [V(i + 1)] else []
  }

  lemma KidsGrow(s: State, t: State, from: nat, m: nat, from': nat, m': nat, i: nat)
    requires KidsAre(s, from, m) && 1 < from <= m < 12 && 1 < i < 12
    requires (from' == from && m' == m + 1 && i == m) || (from' == from - 1 == i && m' == m)
    requires t.children == s.children[V(i) := [V(i + 1)]]
    ensures KidsAre(t, from', m')
  {
    forall k: nat | 1 < k < 12
      ensures HasKids(t, from', m', k)
    {
      assert HasKids(s, from, m, k);
    }
  }

  lemma KidsSame(s: State, t: State, from: nat, m: nat)
    requires KidsAre(s, from, m) && forall k: nat :: 1 < k < 12 ==> Kids(t, V(k)) == Kids(s, V(k))
    ensures KidsAre(t, from, m)
  {
    hide Kids;
    forall k: nat | 1 < k < 12
      ensures HasKids(t, from, m, k)
    {
      assert HasKids(s, from, m, k);
    }
  }

  /** Blocks 3 to m wait, each behind the one before. */
  lemma {:induction false} Climb(m: nat)
    requires 2 < m < 12
    ensures var s := After(Init(G), ClimbRun(m));
            && s == Init(G).(connecting := s.connecting, heads := s.heads, children := s.children, nextId := m - 2)
            && s.heads == map[2 := [V(3)]] && KidsAre(s, 3, m)
            && (forall h :: h in s.connecting <==> 3 <= h <= m) && s.connecting[m] == V(m)
  {
    hide After, KidsAre;
    if m == 3 {
      assert ClimbRun(3) == [] + Arrival(C(3));
      AfterArrival(Init(G), [], C(3));
      assert After(Init(G), []) == Init(G) by {
        AfterNothing(Init(G));
      }
      ClimbStart();
    } else {
      Climb(m - 1);
      AfterArrival(Init(G), ClimbRun(m - 1), C(m));
      ClimbMore(After(Init(G), ClimbRun(m - 1)), m);
    }
  }

  lemma AfterNothing(s: State)
    ensures After(s, []) == s
  {
  }

  lemma NoKidsYet(s: State, m: nat)
    requires KidsAre(s, 3, m) && 2 < m < 12
    ensures Kids(s, V(m)) == []
  {
    assert HasKids(s, 3, m, m);
  }

  lemma ClimbStart()
    ensures var s := Go(Init(G), C(3));
            && s == Init(G).(connecting := map[3 := V(3)], heads := s.heads, nextId := 1)
            && s.heads == map[2 := [V(3)]] && KidsAre(s, 3, 3)
  {
    hide ProcessMain, ProcessSide;
    var none: seq<Wrapper> := [];
    assert none + [V(3)] == [V(3)] && Add(Init(G), C(3)).queue == [V(3)];
    assert Go(Init(G), C(3)).children == map[];
  }

  lemma ClimbMore(s: State, m: nat)
    requires 3 < m < 12 && KidsAre(s, 3, m - 1)
    requires s == Init(G).(connecting := s.connecting, heads := s.heads, children := s.children, nextId := m - 3)
    requires s.heads == map[2 := [V(3)]]
    requires (forall h :: h in s.connecting <==> 3 <= h < m) && s.connecting[m - 1] == V(m - 1)
    ensures var t := Go(s, C(m));
            && t == Init(G).(connecting := t.connecting, heads := s.heads, children := t.children, nextId := m - 2)
            && KidsAre(t, 3, m)
            && (forall h :: h in t.connecting <==> 3 <= h <= m) && t.connecting[m] == V(m)
  {
    hide ProcessMain, ProcessSide;
    var none: seq<Wrapper> := [];
    assert none + [V(m)] == [V(m)] && Add(s, C(m)).queue == [V(m)];
    var t := Go(s, C(m));
    assert t.connecting == s.connecting[m := V(m)];
    assert t.children == s.children[V(m - 1) := [V(m)]] by {
      assert Kids(s, V(m - 1)) == [] by {
        NoKidsYet(s, m - 1);
      }
    }
    KidsGrow(s, t, 3, m - 1, 3, m, m - 1);
  }

  /** Block 2 takes 3 over and is listed twice below 1. */
  lemma ClimbSecond(s: State)
    requires KidsAre(s, 3, 11) && s.heads == map[2 := [V(3)]]
    requires s == Init(G).(connecting := s.connecting, heads := s.heads, children := s.children, nextId := 9)
    requires forall h :: h in s.connecting <==> 3 <= h <= 11
    ensures var t := Go(s, C(2));
            && t == Init(G).(connecting := t.connecting, heads := t.heads, children := t.children, nextId := 10)
            && KidsAre(t, 2, 11) && t.heads == map[1 := [V(2), V(2)]]
            && (forall h :: h in t.connecting <==> 2 <= h <= 11)
  {
    GoIsProcess(s, C(2));
    hide Go, Process, Prepare, ProcessMain, ProcessSide, KidsAre, Kids;
    var p := s.(nextId := 10);
    PreparedAbove(p, V(2), map[]);
    assert Place(Prepare(p, V(2)), V(2)).Head?;
    ProcessWaits(p, V(2), Accept);
    assert [V(2)] + [V(2)] == [V(2), V(2)];
    KidsGrow(s, Go(s, C(2)), 3, 11, 2, 11, 2);
  }

  /** Block 1 connects. */
  lemma ClimbFirst(s: State)
    requires KidsAre(s, 2, 11) && s.heads == map[1 := [V(2), V(2)]]
    requires s == Init(G).(connecting := s.connecting, heads := s.heads, children := s.children, nextId := 10)
    requires forall h :: h in s.connecting <==> 2 <= h <= 11
    ensures Connecting(Go(s, C(1)), 1) && Go(s, C(1)).queue == [V(2), V(2)]
  {
    hide ProcessSide;
    var none: seq<Wrapper> := [];
    assert none + [V(1)] == [V(1)] && Add(s, C(1)).queue == [V(1)];
    assert s.heads - {1} == map[];
    var t := Go(s, C(1));
    assert t.children == s.children[V(1) := [V(2), V(2)]];
    KidsSame(s, t, 2, 11);
    assert t.recent.list == UpTo(1);
  }

  function UpTo(i: nat): (r: seq<Hash>)
    ensures |r| == i && forall k :: 0 <= k < i ==> r[k] == k + 1
  {
    seq(i, k => k + 1)
  }

  /** Blocks 1 to i are connected, and block 1 leaves the recent blocks with the eleventh. */
  ghost predicate Connecting(s: State, i: nat) {
    && 0 < i < 12 && s.top.header == C(i) && KidsAre(s, 2, 11) && s.heads == map[0 := [V(1)]]
    && 1 !in s.connecting && 12 !in s.connecting && 12 !in s.store && 12 !in s.recent.index && s.nextId == 11
    && (i >= 2 ==> 2 in s.store) && (i <= 10 ==> s.recent.list == UpTo(i)) && (i == 11 ==> 1 !in s.recent.index)
  }

  lemma ConnectsNext(s: State, i: nat)
    requires 0 < i < 11 && Connecting(s, i) && s.queue != [] && s.queue[0] == V(i + 1)
    ensures var t := Tick(s, Accept);
            Connecting(t, i + 1) && t.queue == Kids(s, V(i + 1)) + s.queue[1..]
  {
    var popped, w := s.(queue := s.queue[1..]), V(i + 1);
    var s1 := Prepare(popped, w);
    assert s1 == popped.(connecting := s.connecting[i + 1 := w]) && Place(s1, w).Main?;
    var t := Tick(s, Accept);
    MainStores(s1, w);
    RecentMoves(s1, w, i);
    hide Prepare, Place, ProcessMain, ProcessSide, SetRecent;
    assert t == ProcessMain(s1, w, Accept);
    assert forall v :: Kids(t, v) == Kids(s, v);
    KidsSame(s, t, 2, 11);
    hide KidsAre;
  }

  lemma RecentMoves(s: State, w: Wrapper, i: nat)
    requires 0 < i < 11 && w == V(i + 1) && s.recent.list == UpTo(i) && 12 !in s.recent.index
    ensures var t := ProcessMain(s, w, Accept);
            && (i < 10 ==> t.recent.list == UpTo(i + 1)) && (i == 10 ==> 1 !in t.recent.index)
            && 12 !in t.recent.index && t.connecting == s.connecting - {i + 1} && t.nextId == s.nextId
  {
    hide Kids;
    assert UpTo(i) + [i + 1] == UpTo(i + 1);
    var r := Recent(UpTo(i + 1), s.recent.index[i + 1 := ProcessMain(s, w, Accept).top]);
    assert ProcessMain(s, w, Accept).recent == Clean(r);
    if i == 10 {
      assert |r.list| == 11 && r.list[0] == 1;
      assert Clean(r) == Clean(Recent(r.list[1..], r.index - {1}));
    }
  }

  /** The second processing of block 2 indexes it as connecting and leaves it there; its next child waits for ever. */
  lemma Parked(s: State)
    requires Connecting(s, 11) && s.queue == [V(2)]
    ensures var a := Tick(s, Accept);
            var t := Go(a, X);
            && Parks(a, Wrapper(11, X), {}) && t.queue == []
            && X.prev in t.store && X.hash !in t.store && X.hash in t.connecting
  {
    hide ProcessMain, ProcessSide, KidsAre;
    var a := Tick(s, Accept);
    assert a == s.(queue := [], connecting := s.connecting[2 := V(2)]);
    assert Add(a, X).queue == [Wrapper(11, X)];
  }

  lemma {:induction false} ConnectAll(events: seq<Event>, i: nat)
    requires 0 < i < 12 && Connecting(After(Init(G), events), i)
    requires After(Init(G), events).queue == if i < 11 then [V(i + 1), V(2)] else [V(2)]
    ensures var t := After(Init(G), events + Works(11 - i));
            Connecting(t, 11) && t.queue == [V(2)]
    decreases 11 - i
  {
    hide After, Tick;
    if i == 11 {
      assert events + Works(0) == events;
    } else {
      var s := After(Init(G), events);
      ConnectsNext(s, i);
      NextChild(s, i);
      AfterWork(Init(G), events);
      assert [V(2)] == s.queue[1..];
      hide Connecting;
      assert i == 10 ==> [] + [V(2)] == [V(2)];
      assert i < 10 ==> [V(i + 2)] + [V(2)] == [V(i + 2), V(2)];
      ConnectAll(events + [Work(Accept)], i + 1);
      assert events + [Work(Accept)] + Works(10 - i) == events + Works(11 - i);
    }
  }

  lemma NextChild(s: State, i: nat)
    requires 0 < i < 11 && Connecting(s, i)
    ensures Kids(s, V(i + 1)) == if i + 1 < 11 then [V(i + 2)] else []
  {
    assert HasKids(s, 2, 11, i + 1);
  }

  /**
   * The other way to lose a block: block 12 arrives last, its parent 2 is stored,
   * and it becomes a child of a block that is not going to be connected.
   */
  lemma ParkLosesABlock()
    ensures var s := After(Init(G), ParkRun());
            s.queue == [] && X.prev in s.store && X.hash !in s.store && Add(s, X) == s
  {
    var r1 := ClimbRun(11);
    var r2 := r1 + Arrival(C(2));
    var r3 := r2 + Arrival(C(1));
    var r4 := r3 + Works(10);
    assert ParkRun() == r4 + [Work(Accept)] + Arrival(X);
    hide After, Add, Tick, Go, Init, Arrival, ClimbRun, ParkRun, Works, KidsAre, Connecting, Parks;
    Climb(11);
    AfterArrival(Init(G), r1, C(2));
    ClimbSecond(After(Init(G), r1));
    AfterArrival(Init(G), r2, C(1));
    ClimbFirst(After(Init(G), r2));
    ConnectAll(r3, 1);
    AfterWork(Init(G), r4);
    AfterArrival(Init(G), r4 + [Work(Accept)], X);
    Parked(After(Init(G), r4));
    NotTakenAgain(After(Init(G), ParkRun()), X);
  }
}
