/** The block chain's state machine: `add` and `processBlock` of lib/blockchain.js. */
module BlockChain {
  import opened BlockTree

  /** How many blocks the index of recently connected blocks holds. */
  const RECENT_LIMIT := 10

  /** A delivered block on its way into the chain; the id tells two deliveries of one block apart. */
  datatype Wrapper = Wrapper(id: nat, header: Header)

  /** `RecentBlockIndex`. A removed or evicted hash may still be listed. */
  datatype Recent = Recent(list: seq<Hash>, index: map<Hash, Block>)

  datatype State = State(
    genesis: Hash,
    store: Store,                         // the database
    top: Block,                           // currentTopBlock
    recent: Recent,
    connecting: map<Hash, Wrapper>,       // ConnectingBlockIndex.index
    heads: map<Hash, seq<Wrapper>>,       // ConnectingBlockIndex.parentIndex
    children: map<Wrapper, seq<Wrapper>>, // the children lists of the wrappers
    queue: seq<Wrapper>,                  // the blocks to process, the next one first
    nextId: nat)

  /** What verification says of a block: its header against the parent, then its transactions. */
  datatype Verdict = Accept | BadChild | BadTxs

  /** Where a block goes: the top of the chain, a side chain, an orphan chain, or nowhere. */
  datatype Placement = Main | Side(parent: Block) | Behind(orphan: Wrapper) | Head | Known

  // ----- indexes -----

  function Kids(s: State, w: Wrapper): seq<Wrapper> {
    if w in s.children then s.children[w] else []
  }

  function AddHead(heads: map<Hash, seq<Wrapper>>, w: Wrapper): map<Hash, seq<Wrapper>> {
    var p := w.header.prev;
    heads[p := (if p in heads then heads[p] else []) + [w]]
  }

  /** Drops the oldest entries above the limit. */
  function Clean(r: Recent): Recent
    decreases |r.list|
  {
    if |r.list| <= RECENT_LIMIT then r else Clean(Recent(r.list[1..], r.index - {r.list[0]}))
  }

  function SetRecent(r: Recent, b: Block): Recent {
    Clean(Recent(r.list + [b.header.hash], r.index[b.header.hash := b]))
  }

  // ----- one block -----

  /** Indexes the block and takes over the orphans that wait for it. */
  function Prepare(s: State, w: Wrapper): State {
    var h := w.header.hash;
    var s1 := s.(connecting := s.connecting[h := w]);
    if h in s1.heads then s1.(heads := AddHead(s1.heads - {h}, w), children := s1.children[w := s1.heads[h]])
    else s1
  }

  /** `connectBlock`'s choice, for a prepared block. */
  function Place(s: State, w: Wrapper): Placement {
    var p := w.header.prev;
    if p == s.top.header.hash then Main
    else if p in s.connecting then Behind(s.connecting[p])
    else if p in s.recent.index then Side(s.recent.index[p])
    else if w.header.hash in s.store then Known
    else if p in s.store then Side(s.store[p])
    else Head
  }

  /** The block is no longer being connected. */
  function Connected(s: State, w: Wrapper, b: Block): State {
    s.(connecting := s.connecting - {w.header.hash}, recent := SetRecent(s.recent, b))
  }

  /** A block that failed verification leaves the indexes. */
  function Failed(s: State, w: Wrapper): State {
    s.(connecting := s.connecting - {w.header.hash},
       recent := s.recent.(index := s.recent.index - {w.header.hash}))
  }

  function ProcessMain(s: State, w: Wrapper, verdict: Verdict): State {
    if verdict == BadChild then Failed(s, w)
    else
      var block := Attach(w.header, s.top).(active := true);
      var s1 := Connected(s, w, block);
      if verdict == BadTxs then Failed(s1, w)
      else s1.(top := block, store := s1.store[w.header.hash := block], queue := Kids(s, w) + s.queue)
  }

  /** Saves the blocks with the given flag. */
  function SaveAll(store: Store, bs: seq<Block>, active: bool): Store
    decreases |bs|
  {
    if bs == [] then store
    else SaveAll(store[bs[0].header.hash := bs[0].(active := active)], bs[1..], active)
  }

  /** The store after a reorganization. */
  function Reorganized(store: Store, f: Fork): Store {
    SaveAll(SaveAll(store, f.toDisconnect, false), f.toConnect, true)
  }

  function ProcessSide(s: State, w: Wrapper, parent: Block, verdict: Verdict): State {
    if verdict == BadChild then Failed(s, w)
    else
      var block := Attach(w.header, parent);
      var s1 := Connected(s, w, block);
      if verdict == BadTxs then Failed(s1, w)
      else if block.chainWork <= s1.top.chainWork then
        s1.(store := s1.store[w.header.hash := block], queue := s.queue + Kids(s, w))
      else
        match FindFork(s1.store, s1.top, block)
        case Err => s1
        case Ok(f) =>
          var top := block.(active := true);
          s1.(top := top, store := Reorganized(s1.store, f)[w.header.hash := top], queue := s.queue + Kids(s, w))
  }

  /** `processBlock`. */
  function Process(s: State, w: Wrapper, verdict: Verdict): State {
    var s1 := Prepare(s, w);
    match Place(s1, w)
    case Main => ProcessMain(s1, w, verdict)
    case Side(parent) => ProcessSide(s1, w, parent, verdict)
    case Behind(orphan) => s1.(children := s1.children[orphan := Kids(s1, orphan) + [w]])
    case Head => s1.(heads := AddHead(s1.heads, w))
    case Known => s1
  }

  // ----- runs -----

  /** The next block of the queue is processed. */
  function Tick(s: State, verdict: Verdict): State {
    if s.queue == [] then s else Process(s.(queue := s.queue[1..]), s.queue[0], verdict)
  }

  /** `add`: a block that is being connected or was recently connected is not taken again. */
  function Add(s: State, header: Header): State {
    if header.hash in s.connecting || header.hash in s.recent.index then s
    else
      var w := Wrapper(s.nextId, header);
      s.(queue := s.queue + [w], nextId := s.nextId + 1)
  }

  datatype Event = Deliver(header: Header) | Work(verdict: Verdict)

  function Next(s: State, e: Event): State {
    match e
    case Deliver(header) => Add(s, header)
    case Work(verdict) => Tick(s, verdict)
  }

  function After(s: State, events: seq<Event>): State {
    if events == [] then s else Next(After(s, events[..|events| - 1]), events[|events| - 1])
  }

  /** The chain with only its genesis block. */
  function Init(genesis: Header): State {
    var b := Block(genesis, 0, genesis.work, true);
    State(genesis.hash, map[genesis.hash := b], b, Recent([], map[]), map[], map[], map[], [], 0)
  }

  /** The orphan lists hold blocks under their own parents, and no list is empty. */
  ghost predicate Linked(s: State) {
    && (forall h :: h in s.heads ==> s.heads[h] != [])
    && (forall h, w :: h in s.heads && w in s.heads[h] ==> w.header.prev == h)
    && (forall h :: h in s.connecting ==> s.connecting[h].header.hash == h)
    && (forall v, w :: v in s.children && w in s.children[v] ==> w.header.prev == v.header.hash)
  }

  lemma AddHeadLinked(heads: map<Hash, seq<Wrapper>>, w: Wrapper)
    requires forall h :: h in heads ==> heads[h] != []
    requires forall h, v :: h in heads && v in heads[h] ==> v.header.prev == h
    ensures forall h :: h in AddHead(heads, w) ==> AddHead(heads, w)[h] != []
    ensures forall h, v :: h in AddHead(heads, w) && v in AddHead(heads, w)[h] ==> v.header.prev == h
  {
  }

  lemma PrepareLinked(s: State, w: Wrapper)
    requires Linked(s)
    ensures Linked(Prepare(s, w))
  {
    var h := w.header.hash;
    if h in s.heads {
      AddHeadLinked(s.heads - {h}, w);
    }
  }

  lemma ProcessLinked(s: State, w: Wrapper, verdict: Verdict)
    requires Linked(s)
    ensures Linked(Process(s, w, verdict))
  {
    PrepareLinked(s, w);
    var s1 := Prepare(s, w);
    hide Prepare, Linked, AddHead, Place, ProcessMain, ProcessSide, Kids;
    match Place(s1, w)
    case Main =>
      MainFields(s1, w, verdict);
      StillLinked(s1, ProcessMain(s1, w, verdict), w);
    case Side(parent) =>
      SideFields(s1, w, parent, verdict);
      StillLinked(s1, ProcessSide(s1, w, parent, verdict), w);
    case Behind(orphan) =>
      BehindLinked(s1, w, orphan);
    case Head =>
      HeadLinked(s1, w);
    case Known =>
  }

  /** What connecting a block does to the orphan indexes and the queue. */
  predicate OnlyConnects(s: State, t: State, w: Wrapper) {
    && t.heads == s.heads && t.children == s.children && t.nextId == s.nextId && t.genesis == s.genesis
    && t.connecting == s.connecting - {w.header.hash}
    && (t.queue == s.queue || t.queue == Kids(s, w) + s.queue || t.queue == s.queue + Kids(s, w))
  }

  lemma TwiceRemoved(m: map<Hash, Wrapper>, h: Hash)
    ensures m - {h} - {h} == m - {h}
  {
  }

  lemma MainFields(s: State, w: Wrapper, verdict: Verdict)
    ensures OnlyConnects(s, ProcessMain(s, w, verdict), w)
  {
    hide SetRecent, Attach, Kids;
    TwiceRemoved(s.connecting, w.header.hash);
  }

  lemma SideFields(s: State, w: Wrapper, parent: Block, verdict: Verdict)
    ensures OnlyConnects(s, ProcessSide(s, w, parent, verdict), w)
  {
    hide SetRecent, Attach, Kids, FindFork, Reorganized;
    TwiceRemoved(s.connecting, w.header.hash);
  }

  lemma StillLinked(s: State, t: State, w: Wrapper)
    requires Linked(s) && OnlyConnects(s, t, w)
    ensures Linked(t)
  {
  }

  lemma BehindLinked(s: State, w: Wrapper, orphan: Wrapper)
    requires Linked(s) && Place(s, w) == Behind(orphan)
    ensures Linked(s.(children := s.children[orphan := Kids(s, orphan) + [w]]))
  {
  }

  lemma HeadLinked(s: State, w: Wrapper)
    requires Linked(s)
    ensures Linked(s.(heads := AddHead(s.heads, w)))
  {
    AddHeadLinked(s.heads, w);
  }

  /** Every wrapper in the queue and in the indexes is good. */
  ghost predicate AllHeld(s: State, good: Wrapper -> bool) {
    && (forall w :: w in s.queue ==> good(w))
    && (forall h :: h in s.connecting ==> good(s.connecting[h]))
    && (forall h, w :: h in s.heads && w in s.heads[h] ==> good(w))
    && (forall v :: v in s.children ==> good(v))
    && (forall v, w :: v in s.children && w in s.children[v] ==> good(w))
  }

  /** Processing moves wrappers about and makes none. */
  lemma ProcessHolds(s: State, good: Wrapper -> bool, w: Wrapper, verdict: Verdict)
    requires AllHeld(s, good) && good(w)
    ensures AllHeld(Process(s, w, verdict), good)
  {
    PrepareHolds(s, good, w);
    var s1 := Prepare(s, w);
    assert Place(s1, w).Behind? ==> good(Place(s1, w).orphan);
    hide Prepare, Place, ProcessMain, ProcessSide, AllHeld;
    match Place(s1, w)
    case Main =>
      MainFields(s1, w, verdict);
      ConnectHolds(s1, good, w, ProcessMain(s1, w, verdict));
    case Side(parent) =>
      SideFields(s1, w, parent, verdict);
      ConnectHolds(s1, good, w, ProcessSide(s1, w, parent, verdict));
    case Behind(orphan) => BehindHolds(s1, good, w, orphan);
    case Head => HeadHolds(s1, good, w);
    case Known =>
  }

  lemma PrepareHolds(s: State, good: Wrapper -> bool, w: Wrapper)
    requires AllHeld(s, good) && good(w)
    ensures AllHeld(Prepare(s, w), good)
  {
  }

  lemma ConnectHolds(s: State, good: Wrapper -> bool, w: Wrapper, t: State)
    requires AllHeld(s, good) && OnlyConnects(s, t, w)
    ensures AllHeld(t, good)
  {
  }

  lemma BehindHolds(s: State, good: Wrapper -> bool, w: Wrapper, orphan: Wrapper)
    requires AllHeld(s, good) && good(w) && good(orphan)
    ensures AllHeld(s.(children := s.children[orphan := Kids(s, orphan) + [w]]), good)
  {
  }

  lemma HeadHolds(s: State, good: Wrapper -> bool, w: Wrapper)
    requires AllHeld(s, good) && good(w)
    ensures AllHeld(s.(heads := AddHead(s.heads, w)), good)
  {
  }

  lemma QueueLinked(s: State, t: State)
    requires Linked(s) && t == s.(queue := t.queue, nextId := t.nextId)
    ensures Linked(t)
  {
  }

  /** Taking the next block off the queue. */
  lemma PoppedHolds(s: State, good: Wrapper -> bool)
    requires AllHeld(s, good) && s.queue != []
    ensures AllHeld(s.(queue := s.queue[1..]), good) && good(s.queue[0])
  {
    assert s.queue[0] in s.queue;
  }

  // ----- the chain object -----

  class Chain {
    const genesisHash: Hash
    var store: Store
    var currentTopBlock: Block
    var recent: Recent
    var connecting: map<Hash, Wrapper>
    var parentIndex: map<Hash, seq<Wrapper>>
    var children: map<Wrapper, seq<Wrapper>>
    var queue: seq<Wrapper>
    var nextId: nat

    /** The object's state as a value. */
    function View(): State
      reads this
    {
      State(genesisHash, store, currentTopBlock, recent, connecting, parentIndex, children, queue, nextId)
    }

    constructor (genesis: Header)
      ensures View() == Init(genesis) && Linked(View())
    {
      genesisHash := genesis.hash;
      currentTopBlock := Block(genesis, 0, genesis.work, true);
      store := map[genesis.hash := Block(genesis, 0, genesis.work, true)];
      recent := Recent([], map[]);
      connecting := map[];
      parentIndex := map[];
      children := map[];
      queue := [];
      nextId := 0;
    }

    method AddBlock(header: Header)
      modifies this
      ensures View() == Add(old(View()), header)
    {
      if header.hash in connecting || header.hash in recent.index {
        return;
      }
      queue := queue + [Wrapper(nextId, header)];
      nextId := nextId + 1;
    }

    /** Takes the next block off the queue and processes it. */
    method ProcessNext(verdict: Verdict)
      requires queue != [] && Linked(View())
      modifies this
      ensures View() == Tick(old(View()), verdict) && Linked(View())
    {
      var bw := queue[0];
      queue := queue[1..];
      ghost var s := View();
      ProcessLinked(s, bw, verdict);
      PrepareStep(bw);
      match Place(View(), bw)
      case Main => ConnectMain(bw, verdict);
      case Side(parent) => ConnectSide(bw, parent, verdict);
      case Behind(orphan) =>
        var siblings := if orphan in children then children[orphan] else [];
        children := children[orphan := siblings + [bw]];
      case Head => PutHead(bw);
      case Known =>
    }

    method PrepareStep(bw: Wrapper)
      requires Linked(View())
      modifies `connecting, `parentIndex, `children
      ensures View() == Prepare(old(View()), bw)
    {
      var h := bw.header.hash;
      connecting := connecting[h := bw];
      if h in parentIndex {
        var childBws := parentIndex[h];
        RemoveHeads(h, childBws);
        PutHead(bw);
        children := children[bw := childBws];
      }
    }

    method PutHead(bw: Wrapper)
      modifies `parentIndex
      ensures parentIndex == AddHead(old(parentIndex), bw)
    {
      var p := bw.header.prev;
      if p !in parentIndex {
        parentIndex := parentIndex[p := []];
      }
      parentIndex := parentIndex[p := parentIndex[p] + [bw]];
    }

    /** `removeHeads`: the heads are spliced out one by one; an emptied list is deleted. */
    method RemoveHeads(h: Hash, bws: seq<Wrapper>)
      requires h in parentIndex && parentIndex[h] == bws && bws != []
      requires forall w :: w in bws ==> w.header.prev == h
      modifies `parentIndex
      ensures parentIndex == old(parentIndex) - {h}
    {
      for k := 0 to |bws|
        invariant k < |bws| ==> parentIndex == old(parentIndex)[h := bws[k..]]
        invariant k == |bws| ==> parentIndex == old(parentIndex) - {h}
      {
        var p := bws[k].header.prev;
        assert parentIndex[p] == [bws[k]] + bws[k + 1..];
        parentIndex := parentIndex[p := SpliceFirst(parentIndex[p], bws[k])];
        if |parentIndex[p]| == 0 {
          parentIndex := parentIndex - {p};
        }
      }
    }

    /** splice(indexOf(w), 1). */
    static function SpliceFirst(ws: seq<Wrapper>, w: Wrapper): seq<Wrapper>
      requires w in ws
    {
      if ws[0] == w then ws[1..] else [ws[0]] + SpliceFirst(ws[1..], w)
    }

    method SetRecentBlock(b: Block)
      modifies `recent
      ensures recent == SetRecent(old(recent), b)
    {
      var list, index := recent.list + [b.header.hash], recent.index[b.header.hash := b];
      while |list| > RECENT_LIMIT
        invariant Clean(Recent(list, index)) == SetRecent(old(recent), b)
        decreases |list|
      {
        var dropped := list[0];
        list := list[1..];
        index := index - {dropped};
      }
      recent := Recent(list, index);
    }

    method Fail(bw: Wrapper)
      modifies `connecting, `recent
      ensures View() == Failed(old(View()), bw)
    {
      connecting := connecting - {bw.header.hash};
      recent := recent.(index := recent.index - {bw.header.hash});
    }

    /** A block on top of the chain: the new top is undone when its transactions are bad. */
    method ConnectMain(bw: Wrapper, verdict: Verdict)
      modifies this
      ensures View() == ProcessMain(old(View()), bw, verdict)
    {
      var parent := currentTopBlock;
      var block := Attach(bw.header, parent);
      if verdict == BadChild {
        Fail(bw);
        return;
      }
      connecting := connecting - {bw.header.hash};
      block := block.(active := true);
      SetRecentBlock(block);
      currentTopBlock := block;
      if verdict == BadTxs {
        currentTopBlock := parent;
        Fail(bw);
        return;
      }
      store := store[bw.header.hash := block];
      queue := (if bw in children then children[bw] else []) + queue;
    }

    /** A block on a side chain, which becomes the main chain when it has more work. */
    method ConnectSide(bw: Wrapper, parent: Block, verdict: Verdict)
      modifies this
      ensures View() == ProcessSide(old(View()), bw, parent, verdict)
    {
      var block := Attach(bw.header, parent);
      if verdict == BadChild {
        Fail(bw);
        return;
      }
      connecting := connecting - {bw.header.hash};
      SetRecentBlock(block);
      if verdict == BadTxs {
        Fail(bw);
        return;
      }
      if block.chainWork > currentTopBlock.chainWork {
        var ok := Reorganize(block);
        if !ok {
          return;
        }
        block := block.(active := true);
      }
      store := store[bw.header.hash := block];
      queue := queue + (if bw in children then children[bw] else []);
    }

    /** `reorganize`: disconnects the blocks above the fork and connects the new branch. */
    method Reorganize(newTop: Block) returns (ok: bool)
      modifies `store, `currentTopBlock
      ensures var f := FindFork(old(store), old(currentTopBlock), newTop);
              && (ok <==> f.Ok?)
              && store == (if ok then Reorganized(old(store), f.value) else old(store))
              && currentTopBlock == if ok then newTop.(active := true) else old(currentTopBlock)
    {
      var f := FindForkFrom(store, currentTopBlock, newTop, [], []);
      if f.Err? {
        return false;
      }
      ghost var fork := FindFork(store, currentTopBlock, newTop).value;
      assert [] + fork.toDisconnect == fork.toDisconnect && [] + fork.toConnect == fork.toConnect;
      SaveBlocks(f.value.toDisconnect, false);
      SaveBlocks(f.value.toConnect, true);
      currentTopBlock := newTop.(active := true);
      ok := true;
    }

    method SaveBlocks(blocks: seq<Block>, active: bool)
      modifies `store
      ensures store == SaveAll(old(store), blocks, active)
    {
      for i := 0 to |blocks|
        invariant SaveAll(store, blocks[i..], active) == SaveAll(old(store), blocks, active)
      {
        assert blocks[i..][1..] == blocks[i + 1..];
        store := store[blocks[i].header.hash := blocks[i].(active := active)];
      }
    }
  }
}
