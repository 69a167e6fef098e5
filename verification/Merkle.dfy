/** The Merkle tree of a block's transactions: `getMerkleTree` of lib/schema/block.js. */
module Merkle {
  import opened Bytes

  function Min(a: int, b: int): int {
    if a <= b then a else b
  }

  /** The level above xs: neighbours are hashed in pairs, a last one without a partner with itself. */
  function Level<H>(pair: (H, H) -> H, xs: seq<H>): (ys: seq<H>)
    requires |xs| > 0
    ensures |ys| == (|xs| + 1) / 2
    ensures forall k :: 0 <= k < |ys| ==> ys[k] == pair(xs[2 * k], xs[Min(2 * k + 1, |xs| - 1)])
  {
    seq((|xs| + 1) / 2, k requires 0 <= k < (|xs| + 1) / 2 => pair(xs[2 * k], xs[Min(2 * k + 1, |xs| - 1)]))
  }

  /** All levels from the leaves up, one after the other. */
  function Levels<H>(pair: (H, H) -> H, xs: seq<H>): seq<H>
    requires |xs| > 0
    decreases |xs|
  {
    if |xs| == 1 then xs else xs + Levels(pair, Level(pair, xs))
  }

  /** The single hash at the top. */
  function Root<H>(pair: (H, H) -> H, xs: seq<H>): H
    requires |xs| > 0
    decreases |xs|
  {
    if |xs| == 1 then xs[0] else Root(pair, Level(pair, xs))
  }

  /** The number of levels above the leaves. */
  function Height(n: nat): nat
    requires n > 0
  {
    if n == 1 then 0 else 1 + Height((n + 1) / 2)
  }

  /** The flat array the program builds; an empty list gives the one null hash. */
  function Tree<H>(pair: (H, H) -> H, nullHash: H, txs: seq<H>): seq<H> {
    if txs == [] then [nullHash] else Levels(pair, txs)
  }

  /** The loops push to one array; j is where the current level starts. */
  method GetMerkleTree<H>(pair: (H, H) -> H, nullHash: H, txs: seq<H>) returns (tree: seq<H>)
    ensures tree == Tree(pair, nullHash, txs)
  {
    hide Level;
    if |txs| == 0 {
      return [nullHash];
    }
    tree := txs;
    var j, size := 0, |txs|;
    while size > 1
      invariant size > 0 && |tree| == j + size
      invariant tree[..j] + Levels(pair, tree[j..]) == Levels(pair, txs)
      decreases size
    {
      hide Levels;
      NextLevel(pair, tree, j);
      tree := PushLevel(pair, tree, j, size);
      j := j + size;
      size := (size + 1) / 2;
    }
    assert tree[..j] + tree[j..] == tree;
  }

  /** The inner loop: pushes the level above the last `size` entries. */
  method PushLevel<H>(pair: (H, H) -> H, before: seq<H>, j: nat, size: nat) returns (tree: seq<H>)
    requires size > 0 && |before| == j + size
    ensures tree == before + Level(pair, before[j..])
  {
    tree := before;
    ghost var level := Level(pair, before[j..]);
    var i := 0;
    ghost var k := 0;
    while i < size
      invariant i == 2 * k && k <= |level|
      invariant tree == before + level[..k]
    {
      var i2 := Min(i + 1, size - 1);
      var a := tree[j + i];
      var b := tree[j + i2];
      assert a == before[j..][i] && b == before[j..][i2];
      assert level[..k + 1] == level[..k] + [pair(a, b)];
      tree := tree + [pair(a, b)];
      i := i + 2;
      k := k + 1;
    }
    assert level[..k] == level;
  }

  lemma NextLevel<H>(pair: (H, H) -> H, tree: seq<H>, j: nat)
    requires |tree| > j + 1
    ensures var next := tree + Level(pair, tree[j..]);
            next[..|tree|] + Levels(pair, next[|tree|..]) == tree[..j] + Levels(pair, tree[j..])
  {
    var a, b := tree[..j], tree[j..];
    var above := Level(pair, b);
    assert (tree + above)[..|tree|] == a + b && (tree + above)[|tree|..] == above;
    Associative(a, b, Levels(pair, above));
  }

  /** `calcMerkleRoot` returns the array's last entry. */
  method CalcMerkleRoot<H>(pair: (H, H) -> H, nullHash: H, txs: seq<H>) returns (root: H)
    ensures root == if txs == [] then nullHash else Root(pair, txs)
  {
    var tree := GetMerkleTree(pair, nullHash, txs);
    if txs != [] {
      RootIsLast(pair, txs);
    }
    root := tree[|tree| - 1];
  }

  lemma {:induction false} RootIsLast<H>(pair: (H, H) -> H, xs: seq<H>)
    requires |xs| > 0
    ensures |Levels(pair, xs)| > 0 && Levels(pair, xs)[|Levels(pair, xs)| - 1] == Root(pair, xs)
    decreases |xs|
  {
    if |xs| > 1 {
      RootIsLast(pair, Level(pair, xs));
    }
  }

  // ----- what a root commits to -----

  ghost predicate Injective<H(!new)>(pair: (H, H) -> H) {
    forall a, b, c, d :: pair(a, b) == pair(c, d) ==> a == c && b == d
  }

  /** The leaves as the root sees them, with the repeats that fill up odd levels. */
  function Padded<H>(xs: seq<H>): seq<H>
    requires |xs| > 0
  {
    Root((a: seq<H>, b: seq<H>) => a + b, seq(|xs|, i requires 0 <= i < |xs| => [xs[i]]))
  }

  /**
   * The hashes of a level correspond to blocks of leaves, equal hashes to equal
   * blocks; all blocks of a level are equally long.
   */
  ghost predicate Aligned<H, L>(xs: seq<H>, ys: seq<H>, us: seq<seq<L>>, vs: seq<seq<L>>, width: nat) {
    && |xs| == |us| && |ys| == |vs|
    && (forall i :: 0 <= i < |us| ==> |us[i]| == width)
    && (forall j :: 0 <= j < |vs| ==> |vs[j]| == width)
    && forall i, j :: 0 <= i < |xs| && 0 <= j < |ys| ==> (xs[i] == ys[j] <==> us[i] == vs[j])
  }

  lemma ConcatInjective<L>(a: seq<L>, b: seq<L>, c: seq<L>, d: seq<L>)
    requires |a| == |c|
    ensures a + b == c + d <==> a == c && b == d
  {
    assert (a + b)[..|a|] == a && (c + d)[..|a|] == c;
    assert (a + b)[|a|..] == b && (c + d)[|a|..] == d;
  }

  lemma LevelAligned<H(!new), L>(
    pair: (H, H) -> H, join: (seq<L>, seq<L>) -> seq<L>,
    xs: seq<H>, ys: seq<H>, us: seq<seq<L>>, vs: seq<seq<L>>, width: nat)
    requires Injective(pair) && join == ((a: seq<L>, b: seq<L>) => a + b)
    requires |xs| > 0 && |ys| > 0 && Aligned(xs, ys, us, vs, width)
    ensures Aligned(Level(pair, xs), Level(pair, ys), Level(join, us), Level(join, vs), 2 * width)
  {
    var up, vp := Level(join, us), Level(join, vs);
    assert forall i :: 0 <= i < |up| ==> |up[i]| == 2 * width;
    assert forall j :: 0 <= j < |vp| ==> |vp[j]| == 2 * width;
    forall i, j | 0 <= i < |Level(pair, xs)| && 0 <= j < |Level(pair, ys)|
      ensures Level(pair, xs)[i] == Level(pair, ys)[j] <==> up[i] == vp[j]
    {
      var i2, j2 := Min(2 * i + 1, |xs| - 1), Min(2 * j + 1, |ys| - 1);
      PairAligned(pair, xs, ys, us, vs, width, 2 * i, i2, 2 * j, j2);
    }
  }

  /** Two pairs hash alike exactly when their blocks of leaves are the same. */
  lemma PairAligned<H(!new), L>(
    pair: (H, H) -> H, xs: seq<H>, ys: seq<H>, us: seq<seq<L>>, vs: seq<seq<L>>, width: nat,
    i: nat, i2: nat, j: nat, j2: nat)
    requires Injective(pair) && Aligned(xs, ys, us, vs, width)
    requires i < |xs| && i2 < |xs| && j < |ys| && j2 < |ys|
    ensures pair(xs[i], xs[i2]) == pair(ys[j], ys[j2]) <==> us[i] + us[i2] == vs[j] + vs[j2]
  {
    assert xs[i] == ys[j] <==> us[i] == vs[j];
    assert xs[i2] == ys[j2] <==> us[i2] == vs[j2];
    ConcatInjective(us[i], us[i2], vs[j], vs[j2]);
  }

  lemma {:induction false} RootsAligned<H(!new), L>(
    pair: (H, H) -> H, join: (seq<L>, seq<L>) -> seq<L>,
    xs: seq<H>, ys: seq<H>, us: seq<seq<L>>, vs: seq<seq<L>>, width: nat)
    requires Injective(pair) && join == ((a: seq<L>, b: seq<L>) => a + b)
    requires |xs| > 0 && |ys| > 0 && Height(|xs|) == Height(|ys|) && Aligned(xs, ys, us, vs, width)
    ensures Root(pair, xs) == Root(pair, ys) <==> Root(join, us) == Root(join, vs)
    decreases |xs|
  {
    if |xs| > 1 {
      LevelAligned(pair, join, xs, ys, us, vs, width);
      RootsAligned(pair, join, Level(pair, xs), Level(pair, ys), Level(join, us), Level(join, vs), 2 * width);
    }
  }

  /**
   * With a collision-free pair hash, trees of equal height have equal roots exactly
   * when their padded leaves are equal.
   */
  lemma EqualRootsIff<H(!new)>(pair: (H, H) -> H, xs: seq<H>, ys: seq<H>)
    requires Injective(pair) && |xs| > 0 && |ys| > 0 && Height(|xs|) == Height(|ys|)
    ensures Root(pair, xs) == Root(pair, ys) <==> Padded(xs) == Padded(ys)
  {
    var join := (a: seq<H>, b: seq<H>) => a + b;
    var us := seq(|xs|, i requires 0 <= i < |xs| => [xs[i]]);
    var vs := seq(|ys|, i requires 0 <= i < |ys| => [ys[i]]);
    forall i, j | 0 <= i < |xs| && 0 <= j < |ys|
      ensures xs[i] == ys[j] <==> us[i] == vs[j]
    {
      assert us[i][0] == xs[i] && vs[j][0] == ys[j];
    }
    RootsAligned(pair, join, xs, ys, us, vs, 1);
  }

  lemma LevelInjective<H(!new)>(pair: (H, H) -> H, xs: seq<H>, ys: seq<H>, i: nat)
    requires Injective(pair) && i < |xs| == |ys|
    requires Level(pair, xs) == Level(pair, ys)
    ensures xs[i] == ys[i]
  {
    var k := i / 2;
    var k2 := Min(2 * k + 1, |xs| - 1);
    assert Level(pair, xs)[k] == pair(xs[2 * k], xs[k2]) && Level(pair, ys)[k] == pair(ys[2 * k], ys[k2]);
    assert i == 2 * k || i == k2;
  }

  /** Two transaction lists of one length with one root are the same list. */
  lemma {:induction false} RootCommits<H(!new)>(pair: (H, H) -> H, xs: seq<H>, ys: seq<H>)
    requires Injective(pair) && |xs| == |ys| > 0
    ensures Root(pair, xs) == Root(pair, ys) <==> xs == ys
    decreases |xs|
  {
    if |xs| > 1 {
      RootCommits(pair, Level(pair, xs), Level(pair, ys));
      if Level(pair, xs) == Level(pair, ys) {
        forall i | 0 <= i < |xs|
          ensures xs[i] == ys[i]
        {
          LevelInjective(pair, xs, ys, i);
        }
      }
    }
  }

  lemma OddLevel<H>(pair: (H, H) -> H, xs: seq<H>)
    requires |xs| > 1 && |xs| % 2 == 1
    ensures Level(pair, xs) == Level(pair, xs + [xs[|xs| - 1]])
  {
    var ys := xs + [xs[|xs| - 1]];
    var a, b := Level(pair, xs), Level(pair, ys);
    hide Level;
    assert |a| == |b|;
    forall k | 0 <= k < |a|
      ensures a[k] == b[k]
    {
      assert xs[2 * k] == ys[2 * k];
      assert xs[Min(2 * k + 1, |xs| - 1)] == ys[Min(2 * k + 1, |ys| - 1)];
    }
  }

  /** The root does not commit to the length: an odd list and the list with its last entry repeated share a root. */
  lemma OddListCollides<H>(pair: (H, H) -> H, xs: seq<H>)
    requires |xs| > 1 && |xs| % 2 == 1
    ensures Root(pair, xs) == Root(pair, xs + [xs[|xs| - 1]])
  {
    OddLevel(pair, xs);
    hide Level;
  }

  // ----- the shape of the tree -----

  predicate IsPowerOfTwo(n: nat) {
    n == 1 || (n > 1 && n % 2 == 0 && IsPowerOfTwo(n / 2))
  }

  /** A full tree is the pair of its halves, the left one first. */
  lemma {:induction false} RootOfHalves<H>(pair: (H, H) -> H, a: seq<H>, b: seq<H>)
    requires |a| == |b| && IsPowerOfTwo(|a|)
    ensures Root(pair, a + b) == pair(Root(pair, a), Root(pair, b))
    decreases |a|
  {
    if |a| == 1 {
      assert Level(pair, a + b) == [pair(a[0], b[0])];
    } else {
      LevelOfHalves(pair, a, b);
      RootOfHalves(pair, Level(pair, a), Level(pair, b));
      hide Level;
    }
  }

  lemma LevelOfHalves<H>(pair: (H, H) -> H, a: seq<H>, b: seq<H>)
    requires |a| == |b| > 0 && |a| % 2 == 0
    ensures Level(pair, a + b) == Level(pair, a) + Level(pair, b)
  {
    var l, r, both := Level(pair, a), Level(pair, b), Level(pair, a + b);
    hide Level;
    forall k | 0 <= k < |both|
      ensures both[k] == (l + r)[k]
    {
      var i := 2 * k;
      assert both[k] == pair((a + b)[i], (a + b)[i + 1]);
      if k < |l| {
        assert l[k] == pair(a[i], a[i + 1]);
      } else {
        var j := k - |l|;
        assert r[j] == pair(b[2 * j], b[2 * j + 1]) && i - |a| == 2 * j;
      }
    }
  }
}
