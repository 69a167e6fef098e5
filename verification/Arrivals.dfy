/**
 * What becomes of a delivery: when a block that is delivered again is ignored, and in
 * which order the queue is served.
 */
module Arrivals {
  import opened BlockTree
  import opened BlockChain

  // ----- one block delivered again -----

  /** The block to process finds a place in the chain or in a side chain. */
  predicate Attaches(s: State)
    requires s.queue != []
  {
    var s1 := Prepare(s.(queue := s.queue[1..]), s.queue[0]);
    Place(s1, s.queue[0]).Main? || Place(s1, s.queue[0]).Side?
  }

  /** Its hash is the oldest of ten listed as recent: setting it again drops it from the index. */
  predicate OldestListed(s: State, h: Hash) {
    |s.recent.list| == 10 && s.recent.list[0] == h
  }

  /** Setting a recent block pushes its hash; the oldest of more than ten is dropped from list and index. */
  lemma SetRecentShort(r: Recent, b: Block)
    requires |r.list| <= 10
    ensures SetRecent(r, b) ==
            if |r.list| < 10 then Recent(r.list + [b.header.hash], r.index[b.header.hash := b])
            else Recent(r.list[1..] + [b.header.hash], r.index[b.header.hash := b] - {r.list[0]})
  {
    var longer := Recent(r.list + [b.header.hash], r.index[b.header.hash := b]);
    if |r.list| == 10 {
      assert longer.list[1..] == r.list[1..] + [b.header.hash];
      var dropped := Recent(longer.list[1..], longer.index - {longer.list[0]});
      assert Clean(dropped) == dropped;
    }
  }

  /** What a step does to the recent blocks and to the block's entry among those being connected. */
  ghost predicate Remembers(s: State, t: State, h: Hash, attached: bool, verdict: Verdict) {
    && (h in t.connecting <==> !attached)
    && (forall k :: k != h ==> (k in t.connecting <==> k in s.connecting))
    && (if !attached || verdict == BadChild then t.recent.list == s.recent.list
        else t.recent.list == (if |s.recent.list| < 10 then s.recent.list else s.recent.list[1..]) + [h])
    && (attached ==> (h in t.recent.index <==> verdict == Accept && !OldestListed(s, h)))
    && (!attached ==> (h in t.recent.index <==> h in s.recent.index))
    && forall k :: k != h ==>
         (k in t.recent.index <==>
            k in s.recent.index && !(attached && verdict != BadChild && OldestListed(s, k)))
  }

  lemma MainRemembers(s: State, w: Wrapper, verdict: Verdict)
    requires |s.recent.list| <= 10
    ensures Remembers(s, ProcessMain(s, w, verdict), w.header.hash, true, verdict)
  {
    SetRecentShort(s.recent, Attach(w.header, s.top).(active := true));
    hide SetRecent, Kids;
  }

  lemma SideRemembers(s: State, w: Wrapper, parent: Block, verdict: Verdict)
    requires |s.recent.list| <= 10
    ensures Remembers(s, ProcessSide(s, w, parent, verdict), w.header.hash, true, verdict)
  {
    SetRecentShort(s.recent, Attach(w.header, parent));
    hide SetRecent, Kids, FindFork, Reorganized;
  }

  /** Preparing a block only adds its entry among those being connected. */
  lemma PreparedRemembers(s: State, s1: State, t: State, w: Wrapper, attached: bool, verdict: Verdict)
    requires s1.recent == s.recent && s1.connecting == s.connecting[w.header.hash := w]
    requires if attached then Remembers(s1, t, w.header.hash, true, verdict)
             else t.recent == s1.recent && t.connecting == s1.connecting
    ensures Remembers(s, t, w.header.hash, attached, verdict)
  {
  }

  lemma ProcessRemembers(s: State, w: Wrapper, verdict: Verdict)
    requires |s.recent.list| <= 10
    ensures var p := Place(Prepare(s, w), w);
            Remembers(s, Process(s, w, verdict), w.header.hash, p.Main? || p.Side?, verdict)
  {
    var s1, t := Prepare(s, w), Process(s, w, verdict);
    assert s1.recent == s.recent && s1.connecting == s.connecting[w.header.hash := w];
    hide Prepare, Place, AddHead, Kids, ProcessMain, ProcessSide, Remembers;
    match Place(s1, w)
    case Main =>
      MainRemembers(s1, w, verdict);
      PreparedRemembers(s, s1, t, w, true, verdict);
    case Side(parent) =>
      SideRemembers(s1, w, parent, verdict);
      PreparedRemembers(s, s1, t, w, true, verdict);
    case Behind(_) => PreparedRemembers(s, s1, t, w, false, verdict);
    case Head => PreparedRemembers(s, s1, t, w, false, verdict);
    case Known => PreparedRemembers(s, s1, t, w, false, verdict);
  }

  lemma StepRemembers(s: State, verdict: Verdict)
    requires s.queue != [] && |s.recent.list| <= 10
    ensures Remembers(s, Tick(s, verdict), s.queue[0].header.hash, Attaches(s), verdict)
  {
    hide Process, Prepare, Place;
    ProcessRemembers(s.(queue := s.queue[1..]), s.queue[0], verdict);
  }

  /**
   * The block just processed, delivered again, is ignored exactly when it waits as an
   * orphan, or was accepted and not the oldest of ten blocks listed as recent; otherwise
   * it is queued again.
   */
  lemma RedeliveryIff(s: State, verdict: Verdict)
    requires s.queue != [] && |s.recent.list| <= 10
    ensures var x, t := s.queue[0].header, Tick(s, verdict);
            Add(t, x) == if Attaches(s) && (verdict != Accept || OldestListed(s, x.hash))
                         then t.(queue := t.queue + [Wrapper(t.nextId, x)], nextId := t.nextId + 1)
                         else t
  {
    StepRemembers(s, verdict);
    hide Tick, Attaches;
  }

  /** So a block that a step stores for the first time, and that was not listed as recent, is ignored. */
  lemma StoredIsIgnored(s: State, verdict: Verdict)
    requires s.queue != [] && |s.recent.list| <= 10
    requires var h := s.queue[0].header.hash;
             h !in s.store && h !in s.recent.list && h in Tick(s, verdict).store
    ensures Add(Tick(s, verdict), s.queue[0].header) == Tick(s, verdict)
  {
    RedeliveryIff(s, verdict);
    StoringAttaches(s, verdict);
    hide Tick, Attaches;
  }

  lemma StoringAttaches(s: State, verdict: Verdict)
    requires s.queue != [] && s.queue[0].header.hash !in s.store && s.queue[0].header.hash in Tick(s, verdict).store
    ensures Attaches(s) && verdict == Accept
  {
    var w := s.queue[0];
    var s1 := Prepare(s.(queue := s.queue[1..]), w);
    assert s1.store == s.store;
    hide Prepare, AddHead, Kids, ProcessSide;
    match Place(s1, w)
    case Main =>
    case Side(parent) => SideServed(s1, w, parent, verdict);
    case Behind(_) => hide Place;
    case Head => hide Place;
    case Known => hide Place;
  }

  /** At most ten hashes are listed as recent at any time of any run. */
  lemma {:induction false} RecentBounded(genesis: Header, events: seq<Event>)
    ensures |After(Init(genesis), events).recent.list| <= 10
  {
    hide Tick;
    if events != [] {
      RecentBounded(genesis, events[..|events| - 1]);
      var s, e := After(Init(genesis), events[..|events| - 1]), events[|events| - 1];
      if e.Work? && s.queue != [] {
        StepRemembers(s, e.verdict);
      } else {
        EmptyTick(s);
      }
    }
  }

  lemma EmptyTick(s: State)
    ensures s.queue == [] ==> forall verdict :: Tick(s, verdict) == s
  {
  }

  // ----- and in a run -----

  /** How many blocks the run sets as recent: those that attach and whose header is good. */
  function Sets(s: State, events: seq<Event>): nat {
    if events == [] then 0
    else
      var before, e := After(s, events[..|events| - 1]), events[|events| - 1];
      Sets(s, events[..|events| - 1])
      + if e.Work? && before.queue != [] && Attaches(before) && e.verdict != BadChild then 1 else 0
  }

  /** The hash was set as recent with n others after it, and once only; no copy of the block is on its way. */
  ghost predicate SetBefore(s: State, h: Hash, n: nat) {
    && n < |s.recent.list| <= 10 && s.recent.list[|s.recent.list| - 1 - n] == h
    && (forall i :: 0 <= i < |s.recent.list| && s.recent.list[i] == h ==> i == |s.recent.list| - 1 - n)
    && h !in s.connecting && AllHeld(s, OtherThan(h))
  }

  ghost function OtherThan(h: Hash): Wrapper -> bool {
    (w: Wrapper) => w.header.hash != h
  }

  lemma StepSetBefore(s: State, verdict: Verdict, h: Hash, n: nat)
    requires SetBefore(s, h, n) && h in s.recent.index && s.queue != []
    ensures var t, n' := Tick(s, verdict), if Attaches(s) && verdict != BadChild then n + 1 else n;
            && (n' < 10 ==> SetBefore(t, h, n') && h in t.recent.index)
            && (n' == 10 ==> h !in t.connecting && h !in t.recent.index)
  {
    NoneHeld(s, verdict, h);
    hide Tick, AllHeld, Attaches;
    StepRemembers(s, verdict);
  }

  lemma NoneHeld(s: State, verdict: Verdict, h: Hash)
    requires s.queue != [] && AllHeld(s, OtherThan(h))
    ensures AllHeld(Tick(s, verdict), OtherThan(h)) && s.queue[0].header.hash != h
  {
    hide AllHeld, Process;
    PoppedHolds(s, OtherThan(h));
    ProcessHolds(s.(queue := s.queue[1..]), OtherThan(h), s.queue[0], verdict);
  }

  lemma AddSetBefore(s: State, x: Header, h: Hash, n: nat)
    requires SetBefore(s, h, n) && h in s.recent.index
    ensures SetBefore(Add(s, x), h, n) && h in Add(s, x).recent.index
  {
  }

  lemma {:induction false} RunSetBefore(s: State, h: Hash, events: seq<Event>)
    requires SetBefore(s, h, 0) && h in s.recent.index && Sets(s, events) < 10
    ensures SetBefore(After(s, events), h, Sets(s, events)) && h in After(s, events).recent.index
  {
    hide Tick, Add, SetBefore, Attaches;
    if events != [] {
      var front, e := events[..|events| - 1], events[|events| - 1];
      RunSetBefore(s, h, front);
      var u := After(s, front);
      match e
      case Deliver(x) => AddSetBefore(u, x, h, Sets(s, front));
      case Work(verdict) =>
        if u.queue == [] {
          EmptyTick(u);
        } else {
          StepSetBefore(u, verdict, h, Sets(s, front));
        }
    }
  }

  /**
   * An accepted block that is delivered again changes nothing while fewer than ten
   * blocks were connected since, whatever else is delivered; once the tenth is
   * connected, it is queued again.
   */
  lemma RememberedForTen(s: State, x: Header, events: seq<Event>)
    requires SetBefore(s, x.hash, 0) && x.hash in s.recent.index
    ensures Sets(s, events) < 10 ==> Add(After(s, events), x) == After(s, events)
    ensures events != [] && Sets(s, events[..|events| - 1]) == 9 && Sets(s, events) == 10 ==>
              var t := After(s, events); Add(t, x).queue == t.queue + [Wrapper(t.nextId, x)]
  {
    hide Tick, SetBefore, Attaches;
    if Sets(s, events) < 10 {
      RunSetBefore(s, x.hash, events);
    } else if events != [] && Sets(s, events[..|events| - 1]) == 9 {
      var front, e := events[..|events| - 1], events[|events| - 1];
      RunSetBefore(s, x.hash, front);
      StepSetBefore(After(s, front), e.verdict, x.hash, 9);
    }
  }

  /** What an accepting step leaves is the start of such a run, for a block that was not listed before. */
  lemma AcceptedIsSet(s: State)
    requires s.queue != [] && Attaches(s) && |s.recent.list| <= 10
    requires var h := s.queue[0].header.hash;
             h !in s.recent.list && AllHeld(Tick(s, Accept), OtherThan(h))
    ensures var h, t := s.queue[0].header.hash, Tick(s, Accept); SetBefore(t, h, 0) && h in t.recent.index
  {
    StepRemembers(s, Accept);
    hide Tick, Attaches, AllHeld;
  }

  lemma {:induction false} RunLists(s: State, h: Hash, events: seq<Event>)
    requires 0 < |s.recent.list| <= 10 && s.recent.list[|s.recent.list| - 1] == h && Sets(s, events) < 10
    ensures var list, n := After(s, events).recent.list, Sets(s, events);
            n < |list| <= 10 && list[|list| - 1 - n] == h
  {
    hide Tick, Attaches;
    if events != [] {
      var front, e := events[..|events| - 1], events[|events| - 1];
      RunLists(s, h, front);
      var u := After(s, front);
      if e.Work? && u.queue != [] {
        StepRemembers(u, e.verdict);
      } else {
        EmptyTick(u);
      }
    }
  }

  /**
   * A block whose transactions are bad at first and that is accepted after nine others is
   * forgotten at once: its earlier entry is the oldest of ten, and dropping it takes the
   * new one along. Delivered again it is queued again.
   */
  lemma ForgottenAtOnce(s: State, events: seq<Event>)
    requires s.queue != [] && Attaches(s) && |s.recent.list| <= 10 && Sets(Tick(s, BadTxs), events) == 9
    requires var t := After(Tick(s, BadTxs), events);
             t.queue != [] && Attaches(t) && t.queue[0].header == s.queue[0].header
    ensures var u, x := Tick(After(Tick(s, BadTxs), events), Accept), s.queue[0].header;
            Add(u, x).queue == u.queue + [Wrapper(u.nextId, x)]
  {
    hide Tick, Attaches, After, Sets, Add;
    StepRemembers(s, BadTxs);
    var t := After(Tick(s, BadTxs), events);
    RunLists(Tick(s, BadTxs), s.queue[0].header.hash, events);
    assert OldestListed(t, t.queue[0].header.hash);
    RedeliveryIff(t, Accept);
  }

  // ----- the order of the queue -----

  function Delivered(xs: seq<Header>): seq<Event> {
    seq(|xs|, i requires 0 <= i < |xs| => Deliver(xs[i]))
  }

  /** New blocks are queued in the order of delivery, behind those queued before. */
  lemma {:induction false} FirstComeFirstServed(s: State, xs: seq<Header>)
    requires forall x :: x in xs ==> x.hash !in s.connecting && x.hash !in s.recent.index
    ensures var t := After(s, Delivered(xs));
            && |t.queue| == |s.queue| + |xs| && t.queue[..|s.queue|] == s.queue
            && (forall i :: 0 <= i < |xs| ==> t.queue[|s.queue| + i] == Wrapper(s.nextId + i, xs[i]))
            && t == s.(queue := t.queue, nextId := s.nextId + |xs|)
  {
    if xs != [] {
      var front := xs[..|xs| - 1];
      FirstComeFirstServed(s, front);
      var all, last := Delivered(xs), xs[|xs| - 1];
      assert all[..|all| - 1] == Delivered(front) && all[|all| - 1] == Deliver(last);
      assert last in xs;
      assert After(s, all) == Add(After(s, Delivered(front)), last);
      hide After, Delivered, Add;
      AddedLast(s, After(s, Delivered(front)), front, last);
      assert front + [last] == xs;
    }
  }

  lemma AddedLast(s: State, u: State, front: seq<Header>, x: Header)
    requires x.hash !in s.connecting && x.hash !in s.recent.index
    requires |u.queue| == |s.queue| + |front| && u.queue[..|s.queue|] == s.queue
    requires forall i :: 0 <= i < |front| ==> u.queue[|s.queue| + i] == Wrapper(s.nextId + i, front[i])
    requires u == s.(queue := u.queue, nextId := s.nextId + |front|)
    ensures var t, xs := Add(u, x), front + [x];
            && |t.queue| == |s.queue| + |xs| && t.queue[..|s.queue|] == s.queue
            && (forall i :: 0 <= i < |xs| ==> t.queue[|s.queue| + i] == Wrapper(s.nextId + i, xs[i]))
            && t == s.(queue := t.queue, nextId := s.nextId + |xs|)
  {
  }

  /** The orphans that wait for a block: those listed below it, or else its children so far. */
  function Waiting(s: State, w: Wrapper): seq<Wrapper> {
    if w.header.hash in s.heads then s.heads[w.header.hash] else Kids(s, w)
  }

  lemma SideServed(s: State, w: Wrapper, parent: Block, verdict: Verdict)
    ensures var t := ProcessSide(s, w, parent, verdict);
            && (t.queue == s.queue || t.queue == s.queue + Kids(s, w))
            && (verdict != Accept ==> t.queue == s.queue && t.store == s.store)
            && (t.store != s.store ==> t.queue == s.queue + Kids(s, w))
  {
    hide Kids, SetRecent, FindFork, Reorganized;
  }

  /**
   * An accepted block on the top sends the blocks that wait for it to the front of the
   * queue, one on a side chain to the end; a rejected one leaves them where they are.
   */
  lemma WaitingServed(s: State, verdict: Verdict)
    requires s.queue != []
    ensures var w, rest, t := s.queue[0], s.queue[1..], Tick(s, verdict);
            && (verdict == Accept && w.header.prev == s.top.header.hash ==> t.queue == Waiting(s, w) + rest)
            && (verdict == Accept && w.header.prev != s.top.header.hash && t.store != s.store ==>
                  t.queue == rest + Waiting(s, w))
            && (verdict != Accept ==> t.queue == rest)
  {
    var w, popped := s.queue[0], s.(queue := s.queue[1..]);
    var s1 := Prepare(popped, w);
    assert Kids(s1, w) == Waiting(s, w) && s1.queue == popped.queue && s1.store == s.store && s1.top == s.top;
    hide Prepare, AddHead, Kids, Waiting, SetRecent;
    match Place(s1, w)
    case Main =>
    case Side(parent) => SideServed(s1, w, parent, verdict);
    case Behind(_) => hide Place;
    case Head => hide Place;
    case Known => hide Place;
  }

  /**
   * A block that has to wait is listed behind those that wait already: below the hash of
   * its unknown parent, or as the last child of a parent that is being connected.
   */
  lemma WaitsBehindOthers(s: State, verdict: Verdict)
    requires s.queue != [] && s.queue[0].header.hash !in s.heads && s.queue[0].header.prev != s.queue[0].header.hash
    ensures var w, p, t := s.queue[0], s.queue[0].header.prev, Tick(s, verdict);
            p != s.top.header.hash ==>
              && (p in s.connecting ==>
                    var parent := s.connecting[p];
                    Kids(t, parent) == Kids(s, parent) + [w] && t.heads == s.heads)
              && (p !in s.connecting && p !in s.recent.index && p !in s.store && w.header.hash !in s.store ==>
                    t.heads == s.heads[p := (if p in s.heads then s.heads[p] else []) + [w]]
                    && t.children == s.children)
  {
    var w, popped := s.queue[0], s.(queue := s.queue[1..]);
    assert Prepare(popped, w) == popped.(connecting := s.connecting[w.header.hash := w]);
    hide Prepare, ProcessMain, ProcessSide;
  }

  // ----- such a run -----

  // Block 1 on genesis has bad transactions; blocks 2 to 10 follow on genesis, each on the
  // one before; then block 1 is delivered again and accepted on a side chain.

  const G := Header(0, 99, 1)

  function X(i: nat): Header {
    Header(i, if i <= 2 then 0 else i - 1, 1)
  }

  /** Blocks 2 to n, each processed when it arrives. */
  function Others(n: nat): seq<Event>
    requires n > 0
  {
    if n == 1 then [] else Others(n - 1) + [Deliver(X(n))] + [Work(Accept)]
  }

  /** Blocks 2 to n are the chain above genesis, and nothing waits. */
  ghost predicate Grown(s: State, n: nat) {
    && s.queue == [] && s.heads == map[] && s.children == map[] && s.connecting == map[]
    && s.top.header == (if n == 1 then G else X(n)) && s.top.chainWork == n
    && 0 in s.store && s.store[0].chainWork == 1
    && (forall h :: h in s.store ==> h == 0 || 2 <= h <= n)
    && (forall h :: h in s.recent.index ==> 2 <= h <= n) && |s.recent.list| <= 10
  }

  /** A state with one block on the top in the queue. */
  lemma GrowsByOne(s: State, n: nat)
    requires 0 < n < 10 && Grown(s, n)
    ensures var u := Add(s, X(n + 1));
            u.queue != [] && Attaches(u) && Grown(Tick(u, Accept), n + 1)
  {
    var u, w := Add(s, X(n + 1)), Wrapper(s.nextId, X(n + 1));
    assert u.queue == [w] && u.queue[1..] == [];
    var popped := u.(queue := []);
    var s1 := Prepare(popped, w);
    assert s1 == popped.(connecting := map[n + 1 := w]);
    StepRemembers(u, Accept);
    MainGrows(s1, w, n);
    hide Prepare, ProcessMain, SetRecent;
  }

  lemma MainGrows(s: State, w: Wrapper, n: nat)
    requires w.header == X(n + 1) && w.header.prev == s.top.header.hash && s.connecting == map[n + 1 := w]
    requires s.queue == [] && s.children == map[]
    ensures var t := ProcessMain(s, w, Accept);
            && t.queue == [] && t.heads == s.heads && t.children == map[] && t.connecting == map[]
            && t.top.header == w.header && t.store == s.store[n + 1 := t.top]
            && t.top.chainWork == s.top.chainWork + 1
  {
    hide SetRecent;
    assert map[n + 1 := w] - {n + 1} == map[];
    assert Kids(s, w) + s.queue == [];
  }

  /** The state after block 1 was rejected. */
  lemma FirstRejected()
    ensures var s := Add(Init(G), X(1));
            s.queue != [] && s.queue[0].header == X(1) && Attaches(s) && Grown(Tick(s, BadTxs), 1)
  {
    var s, w := Add(Init(G), X(1)), Wrapper(0, X(1));
    assert s.queue == [w] && s.queue[1..] == [];
    var popped := s.(queue := []);
    var s1 := Prepare(popped, w);
    assert s1 == popped.(connecting := map[1 := w]);
    StepRemembers(s, BadTxs);
    assert map[1 := w] - {1} == map[];
    TwiceRemoved(s1.connecting, 1);
    hide Prepare, SetRecent;
  }

  lemma {:induction false} OthersGrow(r: State, n: nat)
    requires 0 < n <= 10 && Grown(r, 1)
    ensures Grown(After(r, Others(n)), n) && Sets(r, Others(n)) == n - 1
  {
    hide Tick, Add, Grown, Attaches;
    if n > 1 {
      OthersGrow(r, n - 1);
      var front := Others(n - 1);
      var more := front + [Deliver(X(n))];
      assert more[..|more| - 1] == front && Others(n)[..|Others(n)| - 1] == more;
      GrowsByOne(After(r, front), n - 1);
    }
  }

  /** Accepted, stored, and yet queued again at the next delivery. */
  lemma ForgottenRun()
    ensures var first, events := [Deliver(X(1))] + [Work(BadTxs)], Others(10) + [Deliver(X(1))];
            var t := After(Init(G), first + events + [Work(Accept)]);
            1 in t.store && t.queue == [] && Add(t, X(1)).queue == [Wrapper(t.nextId, X(1))]
  {
    FirstRejected();
    FirstEvents(Init(G), X(1), BadTxs);
    hide Tick, Add, Attaches, Grown, Others, Init, Sets;
    var s := Add(Init(G), X(1));
    var r := Tick(s, BadTxs);
    var first, events := [Deliver(X(1))] + [Work(BadTxs)], Others(10) + [Deliver(X(1))];
    OthersThenFirst(r);
    ForgottenAtOnce(s, events);
    AfterConcat(Init(G), first, events);
    WorkLast(Init(G), first + events);
    hide After;
  }

  lemma WorkLast(s: State, events: seq<Event>)
    ensures After(s, events + [Work(Accept)]) == Tick(After(s, events), Accept)
  {
    var all := events + [Work(Accept)];
    assert all[..|all| - 1] == events;
    hide Tick;
  }

  lemma OthersThenFirst(r: State)
    requires Grown(r, 1)
    ensures var events := Others(10) + [Deliver(X(1))];
            var u := After(r, events);
            && u.queue != [] && u.queue[0].header == X(1) && Attaches(u) && Sets(r, events) == 9
            && Tick(u, Accept).queue == [] && 1 in Tick(u, Accept).store
  {
    OthersGrow(r, 10);
    FirstDeliveredAgain(After(r, Others(10)));
    hide Tick, Add, Attaches, Grown, Others;
    var events := Others(10) + [Deliver(X(1))];
    assert events[..|events| - 1] == Others(10);
  }

  lemma FirstEvents(s: State, x: Header, verdict: Verdict)
    ensures After(s, [Deliver(x)] + [Work(verdict)]) == Tick(Add(s, x), verdict)
  {
    hide Tick, Add;
    var both := [Deliver(x)] + [Work(verdict)];
    assert both[..1] == [Deliver(x)] && [Deliver(x)][..0] == [];
    assert After(s, []) == s;
    assert After(s, [Deliver(x)]) == Add(s, x);
  }

  lemma {:induction false} AfterConcat(s: State, a: seq<Event>, b: seq<Event>)
    ensures After(s, a + b) == After(After(s, a), b)
    decreases |b|
  {
    hide Next;
    if b == [] {
      assert a + b == a;
    } else {
      assert (a + b)[..|a + b| - 1] == a + b[..|b| - 1];
      AfterConcat(s, a, b[..|b| - 1]);
    }
  }

  /** Block 1 finds its parent in the store and is saved on a side chain. */
  lemma FirstDeliveredAgain(s: State)
    requires Grown(s, 10)
    ensures var u := Add(s, X(1));
            && u.queue != [] && u.queue[0].header == X(1) && Attaches(u)
            && Tick(u, Accept).queue == [] && 1 in Tick(u, Accept).store
  {
    var u, w := Add(s, X(1)), Wrapper(s.nextId, X(1));
    assert u.queue == [w] && u.queue[1..] == [];
    var popped := u.(queue := []);
    var s1 := Prepare(popped, w);
    assert s1 == popped.(connecting := map[1 := w]);
    assert Place(s1, w) == Side(s.store[0]);
    SideServed(s1, w, s.store[0], Accept);
    SideSaved(s1, w, s.store[0]);
    assert Kids(s1, w) == [];
    hide Prepare, ProcessSide;
  }

  lemma SideSaved(s: State, w: Wrapper, parent: Block)
    requires s.top.chainWork >= parent.chainWork + w.header.work
    ensures w.header.hash in ProcessSide(s, w, parent, Accept).store
  {
    hide SetRecent, Kids;
  }
}
