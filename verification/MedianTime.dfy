/** Median time past: `getMedianTimePast` of lib/schema/block.js. */
module MedianTime {
  import opened Outcomes
  import opened Storage

  const MEDIAN_TIME_SPAN := 11

  // ----- JavaScript's default sort compares numbers as text -----

  /** The decimal digits of a number, first digit first. */
  function Digits(n: nat): (d: seq<nat>)
    ensures |d| > 0 && forall i :: 0 <= i < |d| ==> d[i] < 10
  {
    if n < 10 then [n] else Digits(n / 10) + [n % 10]
  }

  /** Text order: the first difference decides, and a text comes before its extensions. */
  predicate TextLeq(a: seq<nat>, b: seq<nat>) {
    a == [] || (b != [] && (a[0] < b[0] || (a[0] == b[0] && TextLeq(a[1..], b[1..]))))
  }

  predicate Before(x: nat, y: nat) {
    TextLeq(Digits(x), Digits(y))
  }

  function Insert(x: nat, s: seq<nat>): seq<nat> {
    if s == [] || Before(x, s[0]) then [x] + s else [s[0]] + Insert(x, s[1..])
  }

  function Sort(s: seq<nat>): seq<nat> {
    if s == [] then [] else Insert(s[0], Sort(s[1..]))
  }

  /** Text order is total. */
  lemma {:induction false} TextTotal(a: seq<nat>, b: seq<nat>)
    ensures TextLeq(a, b) || TextLeq(b, a)
  {
    if a != [] && b != [] {
      TextTotal(a[1..], b[1..]);
    }
  }

  lemma {:induction false} TextTransitive(a: seq<nat>, b: seq<nat>, c: seq<nat>)
    requires TextLeq(a, b) && TextLeq(b, c)
    ensures TextLeq(a, c)
  {
    if a != [] {
      if a[0] == b[0] == c[0] {
        TextTransitive(a[1..], b[1..], c[1..]);
      }
    }
  }

  /** The entries stand in text order. */
  ghost predicate InTextOrder(s: seq<nat>) {
    forall i, j :: 0 <= i < j < |s| ==> Before(s[i], s[j])
  }

  lemma {:induction false} InsertOrders(x: nat, s: seq<nat>)
    requires InTextOrder(s)
    ensures InTextOrder(Insert(x, s)) && multiset(Insert(x, s)) == multiset(s) + multiset{x}
  {
    hide Digits, TextLeq;
    if s != [] {
      assert s == [s[0]] + s[1..];
      if Before(x, s[0]) {
        BeforeAll(x, s);
      } else {
        TextTotal(Digits(x), Digits(s[0]));
        InsertOrders(x, s[1..]);
        var r := Insert(x, s[1..]);
        forall j | 0 <= j < |r|
          ensures Before(s[0], r[j])
        {
          assert r[j] in multiset(r);
        }
      }
    }
  }

  lemma BeforeAll(x: nat, s: seq<nat>)
    requires InTextOrder(s) && s != [] && Before(x, s[0])
    ensures InTextOrder([x] + s)
  {
    hide Digits, TextLeq;
    forall j | 0 < j < |s|
      ensures Before(x, s[j])
    {
      TextTransitive(Digits(x), Digits(s[0]), Digits(s[j]));
    }
  }

  /** The sort puts the same entries into text order, whatever their lengths. */
  lemma {:induction false} SortPermutes(s: seq<nat>)
    ensures InTextOrder(Sort(s)) && multiset(Sort(s)) == multiset(s)
  {
    if s != [] {
      SortPermutes(s[1..]);
      InsertOrders(s[0], Sort(s[1..]));
      assert s == [s[0]] + s[1..];
    }
  }

  function Pow10(n: nat): (p: nat)
    ensures p > 0
  {
    if n == 0 then 1 else 10 * Pow10(n - 1)
  }

  /** The number a digit text stands for. */
  function Value(d: seq<nat>): nat {
    if d == [] then 0 else d[0] * Pow10(|d| - 1) + Value(d[1..])
  }

  lemma {:induction false} ValueAppend(d: seq<nat>, x: nat)
    ensures Value(d + [x]) == 10 * Value(d) + x
  {
    if d == [] {
      assert Value([x]) == x * Pow10(0) + Value([]);
    } else {
      assert (d + [x])[1..] == d[1..] + [x];
      ValueAppend(d[1..], x);
      Scale(d[0], Pow10(|d| - 1));
    }
  }

  lemma Scale(x: nat, p: nat)
    ensures x * (10 * p) == 10 * (x * p)
  {
  }

  lemma {:induction false} ValueOfDigits(n: nat)
    ensures Value(Digits(n)) == n
  {
    if n < 10 {
      assert Value([n]) == n * Pow10(0) + Value([]);
    } else {
      ValueOfDigits(n / 10);
      ValueAppend(Digits(n / 10), n % 10);
    }
  }

  lemma {:induction false} ValueBound(d: seq<nat>)
    requires forall i :: 0 <= i < |d| ==> d[i] < 10
    ensures Value(d) < Pow10(|d|)
  {
    if d == [] {
    } else {
      ValueBound(d[1..]);
      DigitBound(d[0], 10, Pow10(|d| - 1));
    }
  }

  lemma DigitBound(x: nat, y: nat, p: nat)
    requires x < y
    ensures x * p + p <= y * p
  {
    var k := y - x - 1;
    assert k * p >= 0;
    assert y * p == (x + 1 + k) * p == x * p + p + k * p;
  }

  /** Between texts of one length, text order is numeric order. */
  lemma {:induction false} TextOrderIsNumeric(a: seq<nat>, b: seq<nat>)
    requires |a| == |b|
    requires forall i :: 0 <= i < |a| ==> a[i] < 10 && b[i] < 10
    ensures TextLeq(a, b) <==> Value(a) <= Value(b)
  {
    if a == [] {
    } else {
      TextOrderIsNumeric(a[1..], b[1..]);
      ValueBound(a[1..]);
      ValueBound(b[1..]);
      if a[0] < b[0] {
        DigitBound(a[0], b[0], Pow10(|a| - 1));
      } else if b[0] < a[0] {
        DigitBound(b[0], a[0], Pow10(|a| - 1));
      }
    }
  }

  /** Numbers with as many digits sort numerically. */
  lemma BeforeIsNumeric(x: nat, y: nat)
    requires |Digits(x)| == |Digits(y)|
    ensures Before(x, y) <==> x <= y
  {
    TextOrderIsNumeric(Digits(x), Digits(y));
    ValueOfDigits(x);
    ValueOfDigits(y);
  }

  // ----- the median -----

  /** The last eleven timestamps, or all when there are fewer. */
  function Window(times: seq<nat>): seq<nat> {
    if |times| <= MEDIAN_TIME_SPAN then times else times[|times| - MEDIAN_TIME_SPAN..]
  }

  lemma {:induction false} SortLength(s: seq<nat>)
    ensures |Sort(s)| == |s|
  {
    if s == [] {
    } else {
      SortLength(s[1..]);
      InsertLength(s[0], Sort(s[1..]));
    }
  }

  lemma {:induction false} InsertLength(x: nat, s: seq<nat>)
    ensures |Insert(x, s)| == |s| + 1
  {
    if s != [] {
      InsertLength(x, s[1..]);
    }
  }

  /** The median time past of the block with the last of these timestamps. */
  function MedianTimePast(times: seq<nat>): nat
    requires times != []
  {
    var w := Window(times);
    SortLength(w);
    Sort(w)[|w| / 2]
  }

  /** The heights the loop lists: eleven, or all down to 0. */
  function LastHeights(height: nat): (hs: seq<nat>)
    ensures |hs| == if height + 1 < MEDIAN_TIME_SPAN then height + 1 else MEDIAN_TIME_SPAN
    ensures forall k :: 0 <= k < |hs| ==> hs[k] == height - k
  {
    seq(if height + 1 < MEDIAN_TIME_SPAN then height + 1 else MEDIAN_TIME_SPAN,
        k requires 0 <= k <= height => height - k)
  }

  /** The timestamps of the blocks the height index gives for them, lowest first. */
  function IndexedTimes(store: Store, height: nat): seq<nat> {
    var blocks := BlocksByHeights(store, LastHeights(height));
    seq(|blocks|, k requires 0 <= k < |blocks| => blocks[k].timestamp)
  }

  /**
   * `getMedianTimePast` of a block at the given height, on any store: the height
   * loop, the lookup, and the entry in the middle of the sorted timestamps.
   */
  method GetMedianTimePast(store: Store, height: nat) returns (median: Option<nat>)
    ensures var times := IndexedTimes(store, height);
            median == if times == [] then None else Some(SortedAt(times, |times| / 2))
  {
    hide Sort, Known, HashesAt, SortByHeight, Digits;
    var heights: seq<nat> := [];
    var i := 0;
    while i < MEDIAN_TIME_SPAN && height - i >= 0
      invariant 0 <= i <= MEDIAN_TIME_SPAN && i <= height + 1
      invariant |heights| == i && forall k :: 0 <= k < i ==> heights[k] == height - k
      decreases MEDIAN_TIME_SPAN - i
    {
      heights := heights + [height - i];
      i := i + 1;
    }
    assert heights == LastHeights(height);
    var blocks := BlocksByHeights(store, heights);
    var timestamps := seq(|blocks|, k requires 0 <= k < |blocks| => blocks[k].timestamp);
    SortLength(timestamps);
    var sorted := Sort(timestamps);
    median := if sorted == [] then None else Some(sorted[|sorted| / 2]);
  }

  function SortedAt(times: seq<nat>, k: nat): nat
    requires k < |times|
  {
    SortLength(times);
    Sort(times)[k]
  }

  /** When the height index follows the chain of the block, the median is that of its last eleven timestamps. */
  lemma MedianOnChain(store: Store, height: nat, chain: seq<Hash>, times: seq<nat>)
    requires |times| == |chain| == height + 1 && HoldsChain(store, chain)
    requires forall h :: 0 <= h <= height ==> store.blocks[chain[h]].timestamp == times[h]
    ensures IndexedTimes(store, height) == Window(times)
    ensures SortedAt(Window(times), |Window(times)| / 2) == MedianTimePast(times)
  {
    hide Sort, Known, HashesAt, SortByHeight, Digits;
    var heights := LastHeights(height);
    var blocks := BlocksByHeights(store, heights);
    KnownOfChain(store, chain, heights);
    var picked := Pick(store, chain, heights);
    assert Descending(picked) by {
      assert forall k :: 0 <= k < |heights| ==> picked[k].height == height - k;
    }
    SortOfDescending(picked);
    forall k | 0 <= k < |heights|
      ensures IndexedTimes(store, height)[k] == Window(times)[k]
    {
      assert blocks[k] == picked[|heights| - 1 - k];
    }
  }

  // ----- it never decreases -----

  ghost predicate Sorted(s: seq<nat>) {
    forall i, j :: 0 <= i < j < |s| ==> s[i] <= s[j]
  }

  /** All timestamps are written with n digits. */
  predicate SameDigits(s: seq<nat>, n: nat) {
    forall i :: 0 <= i < |s| ==> |Digits(s[i])| == n
  }

  /** How many entries are smaller than v. */
  function CountBelow(s: seq<nat>, v: nat): (c: nat)
    ensures c <= |s|
  {
    if s == [] then 0 else (if s[0] < v then 1 else 0) + CountBelow(s[1..], v)
  }

  lemma {:induction false} InsertKeeps(x: nat, s: seq<nat>, v: nat, n: nat)
    requires |Digits(x)| == n && SameDigits(s, n) && Sorted(s)
    ensures Sorted(Insert(x, s)) && SameDigits(Insert(x, s), n)
    ensures CountBelow(Insert(x, s), v) == CountBelow([x] + s, v)
    ensures Insert(x, s) != [] && (Insert(x, s)[0] == x || (s != [] && Insert(x, s)[0] == s[0]))
  {
    if s == [] {
    } else {
      BeforeIsNumeric(x, s[0]);
      hide Digits, Before;
      if x > s[0] {
        InsertKeeps(x, s[1..], v, n);
        var r := Insert(x, s[1..]);
        assert ([s[0]] + r)[1..] == r && ([x] + s)[1..] == s && ([x] + s[1..])[1..] == s[1..];
        FirstIsLeast(s[0], r);
      } else {
        assert forall i :: 0 <= i < |s| ==> s[0] <= s[i];
      }
    }
  }

  lemma FirstIsLeast(x: nat, s: seq<nat>)
    requires Sorted(s) && s != [] && x <= s[0]
    ensures Sorted([x] + s)
  {
  }

  lemma {:induction false} SortKeeps(s: seq<nat>, v: nat, n: nat)
    requires SameDigits(s, n)
    ensures Sorted(Sort(s)) && SameDigits(Sort(s), n)
    ensures CountBelow(Sort(s), v) == CountBelow(s, v)
  {
    if s == [] {
    } else {
      SortKeeps(s[1..], v, n);
      InsertKeeps(s[0], Sort(s[1..]), v, n);
      assert ([s[0]] + Sort(s[1..]))[1..] == Sort(s[1..]);
    }
  }

  /** In a sorted list, entry m is at least v exactly when at most m entries are below v. */
  lemma {:induction false} RankOfEntry(s: seq<nat>, v: nat, m: nat)
    requires Sorted(s) && m < |s|
    ensures s[m] >= v <==> CountBelow(s, v) <= m
  {
    if m == 0 {
      if s[0] >= v {
        NoneBelow(s, v);
      }
    } else if s[0] >= v {
      NoneBelow(s, v);
    } else {
      RankOfEntry(s[1..], v, m - 1);
    }
  }

  lemma {:induction false} NoneBelow(s: seq<nat>, v: nat)
    requires forall i :: 0 <= i < |s| ==> s[i] >= v
    ensures CountBelow(s, v) == 0
  {
    if s != [] {
      NoneBelow(s[1..], v);
    }
  }

  lemma {:induction false} CountBelowAppend(s: seq<nat>, x: nat, v: nat)
    ensures CountBelow(s + [x], v) == CountBelow(s, v) + if x < v then 1 else 0
  {
    if s == [] {
      assert CountBelow([x], v) == (if x < v then 1 else 0) + CountBelow([], v);
    } else {
      assert (s + [x])[1..] == s[1..] + [x];
      CountBelowAppend(s[1..], x, v);
    }
  }

  /** The next window drops at most its oldest entry and gains the new one. */
  lemma NextWindow(times: seq<nat>, t: nat, v: nat)
    requires times != [] && t >= v
    ensures CountBelow(Window(times + [t]), v) <= CountBelow(Window(times), v)
    ensures |Window(times + [t])| >= |Window(times)|
  {
    var w := Window(times);
    if |times| < MEDIAN_TIME_SPAN {
      CountBelowAppend(w, t, v);
    } else {
      assert Window(times + [t]) == w[1..] + [t];
      CountBelowAppend(w[1..], t, v);
    }
  }

  /** The middle entry is at least v exactly when no more than half of the window is below v. */
  lemma MedianRank(times: seq<nat>, v: nat, n: nat)
    requires times != [] && SameDigits(times, n)
    ensures MedianTimePast(times) >= v <==> CountBelow(Window(times), v) <= |Window(times)| / 2
  {
    var w := Window(times);
    SortKeeps(w, v, n);
    SortLength(w);
    RankOfEntry(Sort(w), v, |w| / 2);
  }

  /** Of eleven timestamps, at most five are below the median and at least six are not above it. */
  lemma MedianOfEleven(times: seq<nat>, n: nat)
    requires |times| >= 11 && SameDigits(times, n)
    ensures var last, m := times[|times| - 11..], MedianTimePast(times);
            CountBelow(last, m) <= 5 && CountBelow(last, m + 1) >= 6
  {
    var m := MedianTimePast(times);
    MedianRank(times, m, n);
    MedianRank(times, m + 1, n);
    assert times[0..] == times;
  }

  /** A block that passes the timestamp check does not lower the median. */
  lemma MedianStep(times: seq<nat>, t: nat, n: nat)
    requires times != [] && SameDigits(times + [t], n) && t > MedianTimePast(times)
    ensures MedianTimePast(times + [t]) >= MedianTimePast(times)
  {
    assert SameDigits(times, n) by {
      assert forall i :: 0 <= i < |times| ==> (times + [t])[i] == times[i];
    }
    var v := MedianTimePast(times);
    MedianRank(times, v, n);
    NextWindow(times, t, v);
    MedianRank(times + [t], v, n);
  }

  /** A block's timestamp is later than its parent's median time past. */
  predicate Later(times: seq<nat>, i: nat)
    requires 0 < i < |times|
  {
    times[i] > MedianTimePast(times[..i])
  }

  ghost predicate TimesChecked(times: seq<nat>) {
    forall i :: 0 < i < |times| ==> Later(times, i)
  }

  /** The median time past of the block at each height. */
  ghost function Medians(times: seq<nat>): (m: seq<nat>)
    ensures |m| == |times|
  {
    seq(|times|, h requires 0 <= h < |times| => MedianTimePast(times[..h + 1]))
  }

  /** Along a checked chain the median time past never decreases, from genesis on. */
  lemma MedianNeverDecreases(times: seq<nat>, n: nat)
    requires TimesChecked(times) && SameDigits(times, n)
    ensures Sorted(Medians(times))
  {
    var m := Medians(times);
    forall k | 0 < k < |times|
      ensures m[k - 1] <= m[k]
    {
      MediansStep(times, k, n);
    }
    StepwiseSorted(m);
  }

  lemma MediansStep(times: seq<nat>, k: nat, n: nat)
    requires TimesChecked(times) && SameDigits(times, n) && 0 < k < |times|
    ensures Medians(times)[k - 1] <= Medians(times)[k]
  {
    hide MedianTimePast, Digits;
    PrefixStep(times, k, n);
    var h := k - 1;
    assert Medians(times)[h] == MedianTimePast(times[..h + 1]);
  }

  lemma {:induction false} StepwiseSorted(m: seq<nat>)
    requires forall k :: 0 < k < |m| ==> m[k - 1] <= m[k]
    ensures Sorted(m)
  {
    if |m| > 1 {
      var front := m[..|m| - 1];
      StepwiseSorted(front);
      forall i, j | 0 <= i < j < |m|
        ensures m[i] <= m[j]
      {
        assert j < |m| - 1 ==> front[i] <= front[j];
        assert i < |m| - 2 ==> front[i] <= front[|m| - 2];
      }
    }
  }

  lemma PrefixStep(times: seq<nat>, k: nat, n: nat)
    requires TimesChecked(times) && SameDigits(times, n) && 0 < k < |times|
    ensures MedianTimePast(times[..k]) <= MedianTimePast(times[..k + 1])
  {
    var before, t := times[..k], times[k];
    assert times[..k + 1] == before + [t];
    assert Later(times, k);
    forall i | 0 <= i < |before + [t]|
      ensures |Digits((before + [t])[i])| == n
    {
      assert (before + [t])[i] == times[i];
    }
    MedianStep(before, t, n);
  }

  // ----- where the number of digits grows -----

  /** A later timestamp that sorts before the earlier ones pulls the median back. */
  lemma EarlierTextDecreases(a: nat, b: nat, c: nat)
    requires a < b < c && Before(a, b) && Before(c, a) && Before(c, b) && !Before(b, c) && !Before(a, c)
    ensures TimesChecked([a, b, c]) && !Sorted(Medians([a, b, c]))
  {
    hide Digits, Before;
    assert Sort([b]) == Insert(b, Sort([])) == [b];
    assert Sort([a]) == Insert(a, Sort([])) == [a];
    assert Sort([c]) == Insert(c, Sort([])) == [c];
    assert Sort([a, b]) == Insert(a, Sort([b])) == [a, b];
    assert Sort([b, c]) == Insert(b, Sort([c])) == [c, b];
    assert Sort([a, b, c]) == Insert(a, Sort([b, c])) == [c] + Insert(a, [b]) == [c, a, b];
    var times := [a, b, c];
    assert times[..1] == [a] && times[..2] == [a, b] && times[..3] == times;
    assert Later(times, 1) && Later(times, 2);
    assert Medians(times)[1] == b && Medians(times)[2] == a;
  }

  lemma {:induction false} FirstOfPower(k: nat)
    ensures Digits(Pow10(k))[0] == 1 && |Digits(Pow10(k))| == k + 1
  {
    if k > 0 {
      FirstOfPower(k - 1);
      assert Pow10(k) / 10 == Pow10(k - 1);
    }
  }

  lemma {:induction false} FirstBelowPower(k: nat)
    requires k > 0
    ensures Pow10(k) >= 10
    ensures Digits(Pow10(k) - 1)[0] == 9 && |Digits(Pow10(k) - 1)| == k
    ensures Digits(Pow10(k) - 2)[0] >= 8 && |Digits(Pow10(k) - 2)| == k
  {
    if k > 1 {
      FirstBelowPower(k - 1);
      assert (Pow10(k) - 1) / 10 == Pow10(k - 1) - 1 == (Pow10(k) - 2) / 10;
    } else {
      assert Pow10(1) == 10 * Pow10(0) == 10;
    }
  }

  /** Where the timestamps gain a digit, the median decreases in a chain of three checked blocks. */
  lemma BoundaryDecreases(k: nat)
    requires k > 0
    ensures Pow10(k) >= 10
    ensures var times := [Pow10(k) - 2, Pow10(k) - 1, Pow10(k)];
            TimesChecked(times) && !Sorted(Medians(times))
  {
    FirstOfPower(k);
    FirstBelowPower(k);
    var c := Pow10(k);
    BeforeIsNumeric(c - 2, c - 1);
    hide Digits, Pow10, Medians;
    EarlierTextDecreases(c - 2, c - 1, c);
  }

  lemma {:induction false} DigitCount(n: nat, d: nat)
    requires d > 0
    ensures |Digits(n)| <= d <==> n < Pow10(d)
  {
    if n >= 10 {
      if d > 1 {
        DigitCount(n / 10, d - 1);
        assert n < Pow10(d) <==> n / 10 < Pow10(d - 1);
      } else {
        assert Pow10(1) == 10 * Pow10(0) == 10;
      }
    } else {
      PowerAtLeast(d);
    }
  }

  lemma {:induction false} PowerAtLeast(d: nat)
    requires d > 0
    ensures Pow10(d) >= 10
  {
    if d > 1 {
      PowerAtLeast(d - 1);
    }
  }

  predicate Between(times: seq<nat>, lo: nat, hi: nat) {
    forall i :: 0 <= i < |times| ==> lo <= times[i] <= hi
  }

  /** No checked chain with timestamps in the range has a decreasing median. */
  ghost predicate AlwaysSorted(lo: nat, hi: nat) {
    forall times :: Between(times, lo, hi) && TimesChecked(times) ==> Sorted(Medians(times))
  }

  /** The ends of the range have as many digits. */
  predicate OneDigitCount(lo: nat, hi: nat) {
    |Digits(lo)| == |Digits(hi)|
  }

  /**
   * The range starts with the last number of a digit count and ends before ten times
   * it: the digits of the first number come after those of all others.
   */
  predicate LoneFirst(lo: nat, hi: nat) {
    |Digits(lo + 1)| == |Digits(hi)| && hi < 10 * lo
  }

  /**
   * The ranges of timestamps in which the median time past never decreases along any
   * checked chain: those of one digit count, and those where only the first number is
   * shorter and hi is below ten times it.
   */
  lemma SortedRanges(lo: nat, hi: nat)
    requires lo < hi
    ensures AlwaysSorted(lo, hi) <==> OneDigitCount(lo, hi) || LoneFirst(lo, hi)
  {
    hide AlwaysSorted, Digits;
    MoreDigits(lo, lo + 1);
    MoreDigits(lo + 1, hi);
    if OneDigitCount(lo, hi) {
      OneCountSorted(lo, hi);
    } else if LoneFirst(lo, hi) {
      LoneFirstSorted(lo, hi);
    } else if |Digits(lo + 1)| < |Digits(hi)| {
      CrossingDecreases(lo, hi);
    } else {
      LoneFirstDecreases(lo, hi);
    }
  }

  lemma OneCountSorted(lo: nat, hi: nat)
    requires OneDigitCount(lo, hi)
    ensures AlwaysSorted(lo, hi)
  {
    forall times | Between(times, lo, hi) && TimesChecked(times)
      ensures Sorted(Medians(times))
    {
      InRangeDigits(times, lo, hi);
      hide Digits, Medians;
      MedianNeverDecreases(times, |Digits(hi)|);
    }
  }

  lemma CrossingDecreases(lo: nat, hi: nat)
    requires lo < hi && |Digits(lo + 1)| < |Digits(hi)|
    ensures !AlwaysSorted(lo, hi)
  {
    var k := |Digits(lo + 1)|;
    DigitCount(lo + 1, k);
    DigitCount(hi, k);
    hide Digits, Medians;
    BoundaryDecreases(k);
    assert Between([Pow10(k) - 2, Pow10(k) - 1, Pow10(k)], lo, hi);
  }

  // ----- one shorter number, the first of the chain -----

  /** A number with a digit more, below ten times lo, comes before lo; from ten times lo on it comes after. */
  lemma {:induction false} LongerText(lo: nat, y: nat, k: nat)
    requires k > 0 && lo == Pow10(k) - 1 && Pow10(k) <= y < Pow10(k + 1)
    ensures Before(y, lo) <==> y < 10 * lo
    ensures Before(lo, y) <==> y >= 10 * lo
  {
    var a, x := Digits(y / 10), y % 10;
    PowerAtLeast(k);
    assert Digits(y) == a + [x];
    PowerNext(k);
    assert Pow10(k - 1) <= y / 10 < Pow10(k) by {
      PowerNext(k - 1);
    }
    DigitCount(lo, k);
    DigitCount(y / 10, k);
    if k > 1 {
      PowerNext(k - 2);
      PowerNext(k - 1);
      DigitCount(lo, k - 1);
      DigitCount(y / 10, k - 1);
    }
    assert |Digits(lo)| == k == |a|;
    BeforeIsNumeric(y / 10, lo);
    BeforeIsNumeric(lo, y / 10);
    ValueOfDigits(lo);
    ValueOfDigits(y / 10);
    TextExtended(a, Digits(lo), x);
    assert y / 10 >= lo <==> y >= 10 * lo;
  }

  lemma PowerNext(k: nat)
    ensures Pow10(k + 1) == 10 * Pow10(k)
  {
  }

  /** One more digit behind a text of the same length decides only between equal texts. */
  lemma {:induction false} TextExtended(a: seq<nat>, b: seq<nat>, x: nat)
    requires |a| == |b|
    ensures TextLeq(b, a + [x]) <==> TextLeq(b, a)
    ensures TextLeq(a + [x], b) <==> TextLeq(a, b) && a != b
  {
    if a != [] {
      assert (a + [x])[1..] == a[1..] + [x];
      TextExtended(a[1..], b[1..], x);
      assert a == b <==> a[0] == b[0] && a[1..] == b[1..] by {
        assert a == [a[0]] + a[1..] && b == [b[0]] + b[1..];
      }
    }
  }

  /** The first number of the next digit count. */
  lemma LastOfItsCount(lo: nat, hi: nat)
    requires |Digits(lo)| < |Digits(lo + 1)| == |Digits(hi)|
    ensures var k := |Digits(lo)|; lo == Pow10(k) - 1 && lo >= 9 && |Digits(hi)| == k + 1 && hi < Pow10(k + 1)
  {
    var k := |Digits(lo)|;
    DigitCount(lo, k);
    DigitCount(lo + 1, k);
    FirstOfPower(k);
    PowerAtLeast(k);
    DigitCount(hi, k + 1);
  }

  lemma LoneFirstDecreases(lo: nat, hi: nat)
    requires lo < hi && |Digits(lo)| < |Digits(lo + 1)| == |Digits(hi)| && hi >= 10 * lo
    ensures !AlwaysSorted(lo, hi)
  {
    var k := |Digits(lo)|;
    LastOfItsCount(lo, hi);
    MoreDigits(lo + 1, lo + 2);
    MoreDigits(lo + 2, hi);
    PowerNext(k);
    LongerText(lo, lo + 1, k);
    LongerText(lo, lo + 2, k);
    LongerText(lo, hi, k);
    BeforeIsNumeric(lo + 1, lo + 2);
    BeforeIsNumeric(lo + 2, hi);
    hide Digits, Before, Pow10;
    LateDecreases(lo, lo + 1, lo + 2, hi);
    assert Between([lo, lo + 1, lo + 2, hi], lo, hi);
  }

  /** A first timestamp that sorts behind the next two and before the fourth. */
  lemma LateDecreases(a: nat, b: nat, c: nat, d: nat)
    requires a < b < c < d && Before(b, c) && Before(c, d) && !Before(a, b) && !Before(a, c) && Before(a, d)
    ensures TimesChecked([a, b, c, d]) && !Sorted(Medians([a, b, c, d]))
  {
    hide Digits, Before;
    assert Sort([a]) == [a] && Sort([b]) == [b] && Sort([c]) == [c] && Sort([d]) == [d] by {
      assert Sort([]) == [];
    }
    assert Sort([a, b]) == Insert(a, Sort([b])) == [b] + Insert(a, []) == [b, a];
    assert Sort([b, c]) == Insert(b, Sort([c])) == [b, c];
    assert Sort([c, d]) == Insert(c, Sort([d])) == [c, d];
    assert Sort([a, b, c]) == Insert(a, [b, c]) == [b] + Insert(a, [c]) == [b, c, a] by {
      assert Insert(a, [c]) == [c] + Insert(a, []) == [c, a];
    }
    assert Sort([b, c, d]) == Insert(b, [c, d]) == [b, c, d];
    assert Sort([a, b, c, d]) == Insert(a, [b, c, d]) == [b] + Insert(a, [c, d]) == [b, c, a, d] by {
      assert Insert(a, [c, d]) == [c] + Insert(a, [d]) == [c, a, d];
    }
    var times := [a, b, c, d];
    assert times[..1] == [a] && times[..2] == [a, b] && times[..3] == [a, b, c] && times[..4] == times;
    assert Later(times, 1) && Later(times, 2) && Later(times, 3);
    assert Medians(times)[2] == c && Medians(times)[3] == a;
  }

  lemma {:induction false} InsertLast(x: nat, s: seq<nat>)
    requires forall y :: y in s ==> !Before(x, y)
    ensures Insert(x, s) == s + [x]
  {
    if s != [] {
      InsertLast(x, s[1..]);
    }
  }

  lemma SortWithLast(x: nat, s: seq<nat>)
    requires forall y :: y in s ==> !Before(x, y)
    ensures Sort([x] + s) == Sort(s) + [x]
  {
    assert ([x] + s)[1..] == s;
    SortPermutes(s);
    forall y | y in Sort(s)
      ensures !Before(x, y)
    {
      assert y in multiset(Sort(s));
    }
    InsertLast(x, Sort(s));
  }

  /** From three timestamps on, the median does not depend on a first one that sorts last. */
  lemma FirstReplaced(times: seq<nat>, top: nat)
    requires |times| >= 3
    requires forall i :: 0 <= i < |times[1..]| ==> !Before(times[0], times[1..][i]) && !Before(top, times[1..][i])
    ensures MedianTimePast(times) == MedianTimePast([top] + times[1..])
  {
    hide Digits, Before, Sort;
    var rest := times[1..];
    var other := [top] + rest;
    SortLength(rest);
    if |times| <= MEDIAN_TIME_SPAN {
      assert times == [times[0]] + rest;
      SortWithLast(times[0], rest);
      SortWithLast(top, rest);
    } else {
      assert Window(times) == Window(other);
    }
  }

  lemma MedianInRange(times: seq<nat>, lo: nat)
    requires times != [] && forall i :: 0 <= i < |times| ==> times[i] >= lo
    ensures MedianTimePast(times) >= lo
  {
    var w := Window(times);
    SortLength(w);
    SortPermutes(w);
    assert Sort(w)[|w| / 2] in multiset(Sort(w));
  }

  /** After the first, every timestamp of a checked chain is above the smallest one allowed. */
  lemma OnlyFirstLowest(times: seq<nat>, lo: nat, hi: nat, i: nat)
    requires Between(times, lo, hi) && TimesChecked(times) && 0 < i < |times|
    ensures lo < times[i]
  {
    hide MedianTimePast;
    assert Later(times, i);
    MedianInRange(times[..i], lo);
  }

  lemma LoneFirstSorted(lo: nat, hi: nat)
    requires lo < hi && |Digits(lo)| < |Digits(lo + 1)| == |Digits(hi)| && hi < 10 * lo
    ensures AlwaysSorted(lo, hi)
  {
    hide MedianTimePast, Digits, Later, Before;
    forall times | Between(times, lo, hi) && TimesChecked(times)
      ensures Sorted(Medians(times))
    {
      if times != [] && times[0] != lo {
        AboveFirst(times, lo, hi);
        InRangeDigits(times, lo + 1, hi);
        MedianNeverDecreases(times, |Digits(hi)|);
      } else {
        forall k | 0 < k < |times|
          ensures Medians(times)[k - 1] <= Medians(times)[k]
        {
          assert Medians(times)[k - 1] == MedianTimePast(times[..k - 1 + 1]);
          LoneFirstStep(times, lo, hi, k);
        }
        StepwiseSorted(Medians(times));
      }
    }
  }

  lemma AboveFirst(times: seq<nat>, lo: nat, hi: nat)
    requires Between(times, lo, hi) && TimesChecked(times) && times != [] && times[0] != lo
    ensures Between(times, lo + 1, hi)
  {
    forall i | 0 < i < |times|
      ensures lo < times[i]
    {
      OnlyFirstLowest(times, lo, hi, i);
    }
  }

  lemma LoneFirstStep(times: seq<nat>, lo: nat, hi: nat, k: nat)
    requires lo < hi && |Digits(lo)| < |Digits(lo + 1)| == |Digits(hi)| && hi < 10 * lo
    requires Between(times, lo, hi) && TimesChecked(times) && 0 < k < |times| && times[0] == lo
    ensures MedianTimePast(times[..k]) <= MedianTimePast(times[..k + 1])
  {
    var before, t := times[..k], times[k];
    assert times[..k + 1] == before + [t] && Later(times, k);
    forall i | 1 <= i <= k
      ensures |Digits(times[i])| == |Digits(hi)| && !Before(lo, times[i])
    {
      OnlyFirstLowest(times, lo, hi, i);
      LoneFirstText(lo, hi, times[i]);
    }
    LoneFirstText(lo, hi, hi);
    hide Digits, Before, TimesChecked, Later;
    if k <= 2 {
      SmallMedian(before);
      MedianInRange(before + [t], lo);
    } else {
      LoneFirstLate(before, t, hi, |Digits(hi)|);
    }
  }

  /** With one or two timestamps the median is the one that sorts last. */
  lemma SmallMedian(times: seq<nat>)
    requires 1 <= |times| <= 2 && (|times| == 2 ==> !Before(times[0], times[1]))
    ensures MedianTimePast(times) == times[0]
  {
    hide Before;
    assert times == [times[0]] + times[1..];
    SortWithLast(times[0], times[1..]);
    SortLength(times[1..]);
  }

  /** With more, the step is one of a chain that starts with a longer number. */
  lemma LoneFirstLate(before: seq<nat>, t: nat, hi: nat, n: nat)
    requires |before| >= 3 && t > MedianTimePast(before) && n == |Digits(hi)| && t <= hi && |Digits(t)| == n
    requires forall i :: 1 <= i < |before| ==>
               !Before(before[0], before[i]) && |Digits(before[i])| == n && before[i] <= hi
    requires !Before(before[0], t)
    requires exists top :: top > hi && |Digits(top)| == n
    ensures MedianTimePast(before) <= MedianTimePast(before + [t])
  {
    hide Digits, Before, MedianTimePast;
    var top :| top > hi && |Digits(top)| == n;
    var rest := before[1..];
    var other, longer := [top] + rest, before + [t];
    forall i | 0 <= i < |rest|
      ensures |Digits(rest[i])| == n && !Before(top, rest[i]) && !Before(before[0], rest[i])
    {
      assert rest[i] == before[i + 1];
      BeforeIsNumeric(top, rest[i]);
    }
    BeforeIsNumeric(top, t);
    assert longer[1..] == rest + [t] && longer[0] == before[0];
    FirstReplaced(before, top);
    FirstReplaced(longer, top);
    assert [top] + (rest + [t]) == other + [t];
    MedianStep(other, t, n);
  }

  /** Longer numbers below ten times lo sort before it, and there is room above hi. */
  lemma LoneFirstText(lo: nat, hi: nat, y: nat)
    requires lo < y <= hi && |Digits(lo)| < |Digits(lo + 1)| == |Digits(hi)| && hi < 10 * lo
    ensures |Digits(y)| == |Digits(hi)| && !Before(lo, y)
    ensures exists top :: top > hi && |Digits(top)| == |Digits(hi)|
  {
    var k := |Digits(lo)|;
    LastOfItsCount(lo, hi);
    MoreDigits(lo + 1, y);
    MoreDigits(y, hi);
    PowerNext(k);
    LongerText(lo, y, k);
    DigitCount(10 * lo, k + 1);
    MoreDigits(hi, 10 * lo);
    assert 10 * lo > hi && |Digits(10 * lo)| == |Digits(hi)|;
  }

  /** Larger numbers have at least as many digits. */
  lemma MoreDigits(m: nat, n: nat)
    requires m <= n
    ensures |Digits(m)| <= |Digits(n)|
  {
    DigitCount(n, |Digits(n)|);
    DigitCount(m, |Digits(n)|);
  }

  lemma InRangeDigits(times: seq<nat>, lo: nat, hi: nat)
    requires Between(times, lo, hi) && |Digits(lo)| == |Digits(hi)|
    ensures SameDigits(times, |Digits(hi)|)
  {
    forall i | 0 <= i < |times|
      ensures |Digits(times[i])| == |Digits(hi)|
    {
      MoreDigits(lo, times[i]);
      MoreDigits(times[i], hi);
    }
  }
}
