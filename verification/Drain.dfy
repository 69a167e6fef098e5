/** The queue of blocks to process empties, whatever was delivered and however verification decides. */
module Drain {
  import opened BlockTree
  import opened BlockChain

  /** The queue is empty after n steps at the latest, for every sequence of verdicts. */
  ghost predicate EmptyWithin(s: State, n: nat)
    decreases n
  {
    s.queue == [] || (n > 0 && forall verdict :: EmptyWithin(Tick(s, verdict), n - 1))
  }

  ghost predicate Drains(s: State) {
    exists n: nat :: EmptyWithin(s, n)
  }

  lemma {:induction false} EmptyWithinMore(s: State, m: nat, n: nat)
    requires EmptyWithin(s, m) && m <= n
    ensures EmptyWithin(s, n)
    decreases m
  {
    if s.queue != [] {
      forall verdict
        ensures EmptyWithin(Tick(s, verdict), n - 1)
      {
        EmptyWithinMore(Tick(s, verdict), m - 1, n - 1);
      }
    }
  }

  lemma DrainsByStep(s: State)
    requires forall verdict :: Drains(Tick(s, verdict))
    ensures Drains(s)
  {
    var a: nat :| EmptyWithin(Tick(s, Accept), a);
    var b: nat :| EmptyWithin(Tick(s, BadChild), b);
    var c: nat :| EmptyWithin(Tick(s, BadTxs), c);
    var n := a + b + c;
    forall verdict
      ensures EmptyWithin(Tick(s, verdict), n)
    {
      EmptyWithinMore(Tick(s, verdict), match verdict case Accept => a case BadChild => b case BadTxs => c, n);
    }
    assert EmptyWithin(s, n + 1);
  }

  // ----- ranks -----

  /** The rank of a block is above its parent's and at most n. */
  predicate RanksAs(rank: Hash -> nat, n: nat, x: Header) {
    rank(x.prev) < rank(x.hash) <= n
  }

  /** Every block on its way has a rank. Hashes make no cycles, so any finite run has such ranks. */
  ghost predicate Ranked(s: State, rank: Hash -> nat, n: nat) {
    AllHeld(s, (w: Wrapper) => RanksAs(rank, n, w.header))
  }

  /** What the step of one block adds to the queue: children of that block. */
  ghost predicate OnlyKids(q: seq<Wrapper>, t: seq<Wrapper>, h: Hash) {
    exists kids: seq<Wrapper> :: AllUnder(kids, h) && (t == q || t == kids + q || t == q + kids)
  }

  ghost predicate AllUnder(kids: seq<Wrapper>, h: Hash) {
    forall w :: w in kids ==> w.header.prev == h
  }

  lemma ProcessAddsKids(s: State, w: Wrapper, verdict: Verdict)
    requires Linked(s)
    ensures OnlyKids(s.queue, Process(s, w, verdict).queue, w.header.hash)
  {
    PrepareLinked(s, w);
    var s1 := Prepare(s, w);
    assert s1.queue == s.queue;
    var h, none, kids := w.header.hash, [], Kids(s1, w);
    assert AllUnder(none, h) && AllUnder(kids, h);
    hide Prepare, Place, ProcessMain, ProcessSide, Linked, AllUnder, Kids;
    match Place(s1, w)
    case Main => MainFields(s1, w, verdict);
    case Side(parent) => SideFields(s1, w, parent, verdict);
    case Behind(orphan) =>
    case Head =>
    case Known =>
  }

  // ----- the measure: how many queued blocks have each rank, lower ranks first -----

  ghost function Count(q: seq<Wrapper>, rank: Hash -> nat, r: nat): nat {
    if q == [] then 0 else (if rank(q[0].header.hash) == r then 1 else 0) + Count(q[1..], rank, r)
  }

  lemma {:induction false} CountConcat(a: seq<Wrapper>, b: seq<Wrapper>, rank: Hash -> nat, r: nat)
    ensures Count(a + b, rank, r) == Count(a, rank, r) + Count(b, rank, r)
  {
    if a == [] {
      assert a + b == b;
    } else {
      CountConcat(a[1..], b, rank, r);
      assert (a + b)[1..] == a[1..] + b;
    }
  }

  lemma {:induction false} CountNone(q: seq<Wrapper>, rank: Hash -> nat, r: nat)
    requires forall w :: w in q ==> rank(w.header.hash) > r
    ensures Count(q, rank, r) == 0
  {
    if q != [] {
      CountNone(q[1..], rank, r);
    }
  }

  /** Adding children of a block leaves the counts up to the block's rank alone. */
  lemma KidsCount(q: seq<Wrapper>, t: seq<Wrapper>, h: Hash, rank: Hash -> nat, n: nat, r: nat)
    requires OnlyKids(q, t, h) && r <= rank(h) && forall w :: w in t ==> RanksAs(rank, n, w.header)
    ensures Count(t, rank, r) == Count(q, rank, r)
  {
    var kids :| AllUnder(kids, h) && (t == q || t == kids + q || t == q + kids);
    if t != q {
      forall w | w in kids
        ensures rank(w.header.hash) > r
      {
        assert w in t;
      }
      CountNone(kids, rank, r);
      CountConcat(kids, q, rank, r);
      CountConcat(q, kids, rank, r);
    }
  }

  /** t's counts come before s's: equal below some rank under p, and smaller there. */
  ghost predicate Below(t: seq<Wrapper>, s: seq<Wrapper>, rank: Hash -> nat, p: nat) {
    exists r: nat :: r < p && SmallerAt(t, s, rank, r)
  }

  ghost predicate SmallerAt(t: seq<Wrapper>, s: seq<Wrapper>, rank: Hash -> nat, r: nat) {
    SameBelow(t, s, rank, r) && Count(t, rank, r) < Count(s, rank, r)
  }

  ghost predicate SameBelow(t: seq<Wrapper>, s: seq<Wrapper>, rank: Hash -> nat, r: nat) {
    forall k: nat :: k < r ==> Count(t, rank, k) == Count(s, rank, k)
  }

  /** A step takes a block of some rank off the queue and adds blocks of higher ranks only. */
  lemma TickBelow(s: State, rank: Hash -> nat, n: nat, verdict: Verdict)
    requires Linked(s) && Ranked(s, rank, n) && s.queue != []
    ensures Linked(Tick(s, verdict)) && Ranked(Tick(s, verdict), rank, n)
    ensures Below(Tick(s, verdict).queue, s.queue, rank, n + 1)
  {
    TickRanked(s, rank, n, verdict);
    hide Process, Linked, Ranked, Tick, RanksAs;
    var w, q := s.queue[0], s.queue[1..];
    var t := Tick(s, verdict);
    var r := rank(w.header.hash);
    forall k: nat | k <= r
      ensures Count(t.queue, rank, k) == Count(q, rank, k)
    {
      KidsCount(q, t.queue, w.header.hash, rank, n, k);
    }
    assert SmallerAt(t.queue, s.queue, rank, r);
  }

  lemma TickRanked(s: State, rank: Hash -> nat, n: nat, verdict: Verdict)
    requires Linked(s) && Ranked(s, rank, n) && s.queue != []
    ensures var t := Tick(s, verdict);
            && Linked(t) && Ranked(t, rank, n) && OnlyKids(s.queue[1..], t.queue, s.queue[0].header.hash)
            && RanksAs(rank, n, s.queue[0].header) && forall w :: w in t.queue ==> RanksAs(rank, n, w.header)
  {
    var popped, w := s.(queue := s.queue[1..]), s.queue[0];
    hide Process, Linked, OnlyKids, RanksAs;
    PoppedHolds(s, (v: Wrapper) => RanksAs(rank, n, v.header));
    QueueLinked(s, popped);
    ProcessLinked(popped, w, verdict);
    ProcessHolds(popped, (v: Wrapper) => RanksAs(rank, n, v.header), w, verdict);
    ProcessAddsKids(popped, w, verdict);
  }

  ghost predicate Sound(s: State, rank: Hash -> nat, n: nat) {
    Linked(s) && Ranked(s, rank, n)
  }

  ghost predicate BelowDrain(s: State, rank: Hash -> nat, n: nat, p: nat) {
    forall t :: Sound(t, rank, n) && Below(t.queue, s.queue, rank, p) ==> Drains(t)
  }

  /** Induction on the counts from rank p on, given that everything with smaller counts before p drains. */
  lemma {:induction false} DrainsFrom(s: State, rank: Hash -> nat, n: nat, p: nat)
    requires Sound(s, rank, n) && p <= n + 1 && BelowDrain(s, rank, n, p)
    ensures Drains(s)
    decreases n + 1 - p, if p <= n then Count(s.queue, rank, p) else 0
  {
    if s.queue == [] {
      assert EmptyWithin(s, 0);
    } else if p == n + 1 {
      forall verdict
        ensures Drains(Tick(s, verdict))
      {
        TickBelow(s, rank, n, verdict);
      }
      DrainsByStep(s);
    } else {
      hide Linked, Ranked, Drains, Count;
      forall t | Sound(t, rank, n) && Below(t.queue, s.queue, rank, p + 1)
        ensures Drains(t)
      {
        if !Below(t.queue, s.queue, rank, p) {
          assert SmallerAt(t.queue, s.queue, rank, p);
          SamePrefixBelow(s, t, rank, n, p);
          DrainsFrom(t, rank, n, p);
        }
      }
      DrainsFrom(s, rank, n, p + 1);
    }
  }

  lemma SamePrefixBelow(s: State, t: State, rank: Hash -> nat, n: nat, p: nat)
    requires BelowDrain(s, rank, n, p) && SameBelow(t.queue, s.queue, rank, p)
    ensures BelowDrain(t, rank, n, p)
  {
    hide Sound, Drains, Count;
    forall u | Sound(u, rank, n) && Below(u.queue, t.queue, rank, p)
      ensures Drains(u)
    {
      var r: nat :| r < p && SmallerAt(u.queue, t.queue, rank, r);
      assert SmallerAt(u.queue, s.queue, rank, r);
    }
  }

  /**
   * The queue drains from every state whose blocks have ranks: although one block
   * may be queued many times and a step may queue many blocks, the counts of queued
   * blocks by rank fall lexicographically.
   */
  lemma QueueDrains(s: State, rank: Hash -> nat, n: nat)
    requires Linked(s) && Ranked(s, rank, n)
    ensures Drains(s)
  {
    DrainsFrom(s, rank, n, 0);
  }

  // ----- runs -----

  ghost predicate DeliversRanked(events: seq<Event>, rank: Hash -> nat, n: nat) {
    forall i :: 0 <= i < |events| && events[i].Deliver? ==> RanksAs(rank, n, events[i].header)
  }

  lemma NextSound(s: State, rank: Hash -> nat, n: nat, e: Event)
    requires Sound(s, rank, n) && (e.Deliver? ==> RanksAs(rank, n, e.header))
    ensures Sound(Next(s, e), rank, n)
  {
    if e.Work? && s.queue != [] {
      hide Linked, Ranked, Process;
      TickBelow(s, rank, n, e.verdict);
    } else if e.Deliver? {
      QueueLinked(s, Add(s, e.header));
      hide Linked, RanksAs;
    }
  }

  lemma {:induction false} RunSound(genesis: Header, events: seq<Event>, rank: Hash -> nat, n: nat)
    requires DeliversRanked(events, rank, n)
    ensures Sound(After(Init(genesis), events), rank, n)
  {
    if events != [] {
      var front, e := events[..|events| - 1], events[|events| - 1];
      RunSound(genesis, front, rank, n);
      assert e == events[|events| - 1];
      hide Sound, Next, RanksAs;
      NextSound(After(Init(genesis), front), rank, n, e);
    }
  }

  /** After any deliveries and any processing steps, processing alone empties the queue. */
  lemma EveryRunDrains(genesis: Header, events: seq<Event>, rank: Hash -> nat, n: nat)
    requires DeliversRanked(events, rank, n)
    ensures Drains(After(Init(genesis), events))
  {
    RunSound(genesis, events, rank, n);
    QueueDrains(After(Init(genesis), events), rank, n);
  }
}
