/** The rules a block must meet to follow its parent: `getNextWork` and `verifyChild` of lib/schema/block.js. */
module ChainRules {
  import opened Outcomes
  import opened Bytes
  import opened Compact
  import opened MedianTime

  const TARGET_TIMESPAN := 1209600
  const TARGET_SPACING := 600
  const INTERVAL := 2016

  datatype Entry = Entry(bits: nat, timestamp: nat)

  /** How long the period took, kept within a factor 4 of the intended length. */
  function Timespan(first: Entry, last: Entry): (t: int)
    ensures TARGET_TIMESPAN / 4 <= t <= TARGET_TIMESPAN * 4
  {
    var actual := last.timestamp - first.timestamp;
    if actual < TARGET_TIMESPAN / 4 then TARGET_TIMESPAN / 4
    else if actual > TARGET_TIMESPAN * 4 then TARGET_TIMESPAN * 4
    else actual
  }

  /** The exact next target, before compact rounding. */
  function Goal(prior: nat, timespan: nat, limit: nat): nat {
    var target := Product(prior, timespan) / TARGET_TIMESPAN;
    if target > limit then limit else target
  }

  /** On the test network: the bits of the last block that was not mined at minimum difficulty. */
  function LastNonMinDiff(chain: seq<Entry>, h: nat): nat
    requires h < |chain|
  {
    if h > 0 && h % INTERVAL != 0 && chain[h].bits == chain[0].bits then LastNonMinDiff(chain, h - 1)
    else chain[h].bits
  }

  /** The bits asked of a block that follows the block at height h. */
  function NextWork(chain: seq<Entry>, h: nat, nextTime: nat, testnet: bool): Result<int>
    requires h < |chain|
  {
    var limit := Decode(chain[0].bits);
    if limit.None? then Err
    else if h == 0 then Ok(chain[0].bits)
    else if (h + 1) % INTERVAL != 0 then
      if !testnet then Ok(chain[h].bits)
      else if nextTime > chain[h].timestamp + TARGET_SPACING * 2 then Ok(chain[0].bits)
      else Ok(LastNonMinDiff(chain, h))
    else
      var prior := Decode(chain[h].bits);
      if prior.None? then Err
      else Ok(Encode(Goal(prior.value, Timespan(chain[h + 1 - INTERVAL], chain[h]), limit.value)))
  }

  method GetNextWork(chain: seq<Entry>, h: nat, nextTime: nat, testnet: bool) returns (r: Result<int>)
    requires h < |chain|
    ensures r == NextWork(chain, h, nextTime, testnet)
  {
    var powLimit := chain[0].bits;
    var powLimitTarget := Decode(powLimit);
    if powLimitTarget.None? {
      return Err;
    }
    if h == 0 {
      return Ok(powLimit);
    }
    if (h + 1) % INTERVAL != 0 {
      if testnet {
        if nextTime > chain[h].timestamp + TARGET_SPACING * 2 {
          return Ok(powLimit);
        }
        if chain[h].bits != powLimit {
          return Ok(chain[h].bits);
        }
        return Ok(LastNonMinDiff(chain, h));
      }
      return Ok(chain[h].bits);
    }
    var lastBlock := chain[h - INTERVAL + 1];
    var actualTimespan := chain[h].timestamp - lastBlock.timestamp;
    if actualTimespan < TARGET_TIMESPAN / 4 {
      actualTimespan := TARGET_TIMESPAN / 4;
    }
    if actualTimespan > TARGET_TIMESPAN * 4 {
      actualTimespan := TARGET_TIMESPAN * 4;
    }
    var oldTarget := Decode(chain[h].bits);
    if oldTarget.None? {
      return Err;
    }
    var newTarget := Product(oldTarget.value, actualTimespan) / TARGET_TIMESPAN;
    if newTarget > powLimitTarget.value {
      newTarget := powLimitTarget.value;
    }
    var bits := EncodeDiffBits(newTarget);
    r := Ok(bits);
  }

  function Times(chain: seq<Entry>): seq<nat> {
    seq(|chain|, i requires 0 <= i < |chain| => chain[i].timestamp)
  }

  /** `verifyChild`, asked of the last block of the chain. */
  method VerifyChild(chain: seq<Entry>, child: Entry, testnet: bool) returns (ok: bool)
    requires chain != []
    ensures ok <==> && NextWork(chain, |chain| - 1, child.timestamp, testnet) == Ok(child.bits)
                    && child.timestamp > MedianTimePast(Times(chain))
  {
    var nextWork := GetNextWork(chain, |chain| - 1, child.timestamp, testnet);
    if nextWork.Err? || child.bits != nextWork.value {
      return false;
    }
    var medianTimePast := MedianTimePast(Times(chain));
    ok := child.timestamp > medianTimePast;
  }

  // ----- accepted chains of the main network -----

  /**
   * The block at height i has the bits its parent asks for. The proof-of-work check
   * has decoded them before, so they stand for a target.
   */
  ghost predicate BitsChecked(chain: seq<Entry>, i: nat)
    requires 0 < i < |chain|
  {
    && NextWork(chain, i - 1, chain[i].timestamp, false) == Ok(chain[i].bits)
    && Decode(chain[i].bits).Some?
  }

  ghost predicate Accepted(chain: seq<Entry>) {
    && chain != [] && chain[0].bits < 0x1_0000_0000 && Decode(chain[0].bits).Some?
    && (forall i :: 0 < i < |chain| ==> BitsChecked(chain, i))
    && TimesChecked(Times(chain))
  }

  /** Genesis is accepted, and a verified child with a decodable target extends an accepted chain. */
  lemma AcceptedExtends(chain: seq<Entry>, child: Entry)
    requires Accepted(chain) && Decode(child.bits).Some?
    requires NextWork(chain, |chain| - 1, child.timestamp, false) == Ok(child.bits)
    requires child.timestamp > MedianTimePast(Times(chain))
    ensures Accepted(chain + [child])
  {
    var longer := chain + [child];
    forall i | 0 < i < |longer|
      ensures BitsChecked(longer, i)
    {
      if i < |chain| {
        assert BitsChecked(chain, i);
      }
      SamePrefix(chain, longer, i - 1, longer[i].timestamp);
    }
    assert Times(longer) == Times(chain) + [child.timestamp];
    forall i | 0 < i < |longer|
      ensures Later(Times(longer), i)
    {
      assert Times(longer)[..i] == Times(chain)[..i];
      if i < |chain| {
        assert Later(Times(chain), i);
      } else {
        assert Times(chain)[..i] == Times(chain);
      }
    }
  }

  lemma SamePrefix(chain: seq<Entry>, longer: seq<Entry>, h: nat, nextTime: nat)
    requires h < |chain| <= |longer| && forall k :: 0 <= k < |chain| ==> longer[k] == chain[k]
    ensures NextWork(longer, h, nextTime, false) == NextWork(chain, h, nextTime, false)
  {
  }

  /** The target of the block at height i. */
  ghost function Target(chain: seq<Entry>, i: nat): nat
    requires Accepted(chain) && i < |chain|
  {
    assert i > 0 ==> BitsChecked(chain, i);
    Decode(chain[i].bits).value
  }

  /** Within a period of 2016 blocks the difficulty does not change. */
  lemma {:induction false} PeriodConstant(chain: seq<Entry>, i: nat, j: nat)
    requires Accepted(chain) && i <= j < |chain| && i / INTERVAL == j / INTERVAL
    ensures chain[i].bits == chain[j].bits
    decreases j
  {
    if i < j {
      PeriodConstant(chain, i, j - 1);
      assert BitsChecked(chain, j);
      assert j % INTERVAL != 0;
    }
  }

  /** The exact target asked for at a period boundary. */
  ghost function BoundaryGoal(chain: seq<Entry>, i: nat): nat
    requires Accepted(chain) && 0 < i < |chain| && i % INTERVAL == 0
  {
    Goal(Target(chain, i - 1), Timespan(chain[i - INTERVAL], chain[i - 1]), Target(chain, 0))
  }

  lemma GoalRange(prior: nat, timespan: nat, limit: nat)
    requires TARGET_TIMESPAN / 4 <= timespan <= TARGET_TIMESPAN * 4
    ensures var g := Goal(prior, timespan, limit);
            g <= limit && g <= 4 * prior && (g < limit ==> 4 * g + 4 > prior)
  {
    var p := Product(prior, timespan);
    assert prior * (TARGET_TIMESPAN / 4) <= p <= prior * (TARGET_TIMESPAN * 4) by {
      MulMonotone(prior, TARGET_TIMESPAN / 4, timespan);
      MulMonotone(prior, timespan, TARGET_TIMESPAN * 4);
    }
  }

  /**
   * At a boundary the target moves by at most a factor 4 either way, apart from
   * integer division, the limit, and a rounding of less than one part in 2^15.
   */
  lemma BoundaryMove(chain: seq<Entry>, i: nat)
    requires Accepted(chain) && 0 < i < |chain| && i % INTERVAL == 0
    ensures var prior, next, goal := Target(chain, i - 1), Target(chain, i), BoundaryGoal(chain, i);
            goal <= Target(chain, 0) && goal <= 4 * prior
            && (goal < Target(chain, 0) ==> 4 * goal + 4 > prior)
            && next <= goal && (goal - next) * 0x8000 < goal
  {
    assert BitsChecked(chain, i);
    var goal := BoundaryGoal(chain, i);
    GoalRange(Target(chain, i - 1), Timespan(chain[i - INTERVAL], chain[i - 1]), Target(chain, 0));
    assert chain[i].bits == Encode(goal);
    LimitWidth(chain[0].bits);
    WidthMonotone(goal, Target(chain, 0));
    EncodedInRange(goal);
    EncodeRoundsDown(goal);
  }

  /** The measured time, kept between a quarter of two weeks and four times two weeks. */
  function KeptWithin(d: int): int {
    if d < 302400 then 302400 else if d > 4838400 then 4838400 else d
  }

  function Smaller(a: nat, b: nat): nat {
    if a <= b then a else b
  }

  /**
   * At a boundary the old target is scaled by the time from the period's first block to
   * its last, over two weeks: the new target is that or the limit, less a rounding of
   * under one part in 2^15. After a period of exactly two weeks nothing changes.
   */
  lemma Retarget(chain: seq<Entry>, i: nat)
    requires Accepted(chain) && 0 < i < |chain| && i % 2016 == 0
    ensures var d := chain[i - 1].timestamp - chain[i - 2016].timestamp;
            var prior, limit, next := Target(chain, i - 1), Target(chain, 0), Target(chain, i);
            var goal := Smaller(prior * KeptWithin(d) / 1209600, limit);
            && next <= goal && (goal - next) * 0x8000 < goal
            && (d == 1209600 && FullMantissa(chain[i - 1].bits) ==> chain[i].bits == chain[i - 1].bits)
  {
    BoundaryMove(chain, i);
    assert BitsChecked(chain, i);
    assert BoundaryGoal(chain, i)
        == Goal(Target(chain, i - 1), Timespan(chain[i - 2016], chain[i - 1]), Target(chain, 0));
    var d := chain[i - 1].timestamp - chain[i - 2016].timestamp;
    assert Timespan(chain[i - 2016], chain[i - 1]) == KeptWithin(d);
    if d == 1209600 && FullMantissa(chain[i - 1].bits) {
      TargetBelowLimit(chain, i - 1);
      ScaledByOne(Target(chain, i - 1));
      BitsInRange(chain, i - 1);
      ReencodeIff(chain[i - 1].bits);
    }
    hide Target, Accepted, BoundaryGoal, Timespan;
  }

  /** Three mantissa bytes, the sign bit free and the first not superfluous, and an exponent without a sign. */
  predicate FullMantissa(bits: nat) {
    0x8000 <= bits % 0x100_0000 < 0x80_0000 && bits / 0x100_0000 < 0x80
  }

  lemma ScaledByOne(n: nat)
    ensures n * 1209600 / 1209600 == n
  {
    ModUnique(n * 1209600, 1209600, n, 0);
  }

  lemma BitsInRange(chain: seq<Entry>, i: nat)
    requires Accepted(chain) && i < |chain|
    ensures Decode(chain[i].bits).Some? && Target(chain, i) == Decode(chain[i].bits).value
  {
    if i > 0 {
      assert BitsChecked(chain, i);
    }
  }

  lemma LimitWidth(bits: nat)
    requires bits < 0x1_0000_0000 && Decode(bits).Some?
    ensures Width(Decode(bits).value) <= 0x100
  {
    var m, e := Mantissa(bits), Exponent(bits);
    var n := Decode(bits).value;
    assert 2 * m < Pow256(4) by {
      Pow256Values();
    }
    Pow256Add(4, e - 3);
    MulMonotone(Pow256(e - 3), 2 * m, Pow256(4));
    StrictProduct(2 * m, Pow256(4), Pow256(e - 3));
    assert 2 * n == 2 * m * Pow256(e - 3);
    assert 4 + (e - 3) <= 0x100;
    Pow256Monotone(4 + (e - 3), 0x100);
    WidthBound(n, 0x100);
  }

  lemma StrictProduct(a: nat, b: nat, p: nat)
    requires a < b && p > 0
    ensures a * p < b * p
  {
  }

  /** A compact number with a decodable exponent came from a target of at least three bytes. */
  lemma EncodedInRange(n: nat)
    requires Width(n) <= 0x100 && Encode(n) >= 0 && Decode(Encode(n)).Some?
    ensures n >= 0x8000 && Width(n) < 0x80
  {
    hide Width;
    TopRange(n);
    Unpacked(Width(n), Top(n));
    Pow256Values();
    if n < 0x8000 {
      WidthBound(n, 2);
    }
  }

  /** No accepted block is easier than the genesis block. */
  lemma {:induction false} TargetBelowLimit(chain: seq<Entry>, i: nat)
    requires Accepted(chain) && i < |chain|
    ensures Target(chain, i) <= Target(chain, 0)
  {
    if i > 0 {
      if i % INTERVAL == 0 {
        BoundaryMove(chain, i);
      } else {
        TargetBelowLimit(chain, i - 1);
        assert (i - 1) / INTERVAL == i / INTERVAL;
        PeriodConstant(chain, i - 1, i);
      }
    }
  }

  /** The look-back of the test network stops at the last block that breaks the run of easy blocks. */
  lemma {:induction false} LookBack(chain: seq<Entry>, h: nat) returns (k: nat)
    requires h < |chain|
    ensures k <= h && LastNonMinDiff(chain, h) == chain[k].bits
    ensures k == 0 || k % INTERVAL == 0 || chain[k].bits != chain[0].bits
    ensures forall i :: k < i <= h ==> i % INTERVAL != 0 && chain[i].bits == chain[0].bits
  {
    if h > 0 && h % INTERVAL != 0 && chain[h].bits == chain[0].bits {
      k := LookBack(chain, h - 1);
    } else {
      k := h;
    }
  }

  /**
   * On the test network, off the boundaries: a block more than 1200 seconds after its
   * parent may have the genesis block's bits, any other has those of the last block that
   * does not stand in a run of such easy blocks.
   */
  lemma TestNetwork(chain: seq<Entry>, h: nat, nextTime: nat) returns (k: nat)
    requires h < |chain| && h > 0 && (h + 1) % 2016 != 0 && Decode(chain[0].bits).Some?
    ensures k <= h && (k == 0 || k % 2016 == 0 || chain[k].bits != chain[0].bits)
    ensures forall i :: k < i <= h ==> i % 2016 != 0 && chain[i].bits == chain[0].bits
    ensures NextWork(chain, h, nextTime, true)
         == Ok(chain[if nextTime > chain[h].timestamp + 1200 then 0 else k].bits)
  {
    k := LookBack(chain, h);
  }

  // ----- work -----

  /** 2^256, written as the bytes of a hash. */
  ghost const LARGEST_HASH: nat := Pow256(32)

  /** `getWork`: the expected number of tries to meet the target. */
  ghost function Work(target: nat): nat {
    Quotient(LARGEST_HASH, target + 1)
  }

  /** A smaller target is more work, and every target below 2^256 is some work. */
  lemma WorkAntitone(a: nat, b: nat)
    requires a <= b
    ensures Work(a) >= Work(b)
    ensures b < LARGEST_HASH ==> Work(b) > 0
  {
    hide Pow256;
    QuotientAntitone(LARGEST_HASH, a + 1, b + 1);
    QuotientBounds(LARGEST_HASH, b + 1);
  }

  /** The work is how often target + 1 goes into 2^256. */
  lemma WorkTimesTarget(target: nat)
    ensures Work(target) * (target + 1) <= Pow256(32) < (Work(target) + 1) * (target + 1)
  {
    hide Pow256;
    QuotientBounds(Pow256(32), target + 1);
  }

  lemma SmallerFactor(p: nat, q: nat, y: nat)
    requires p <= q
    ensures p * y <= q * y
  {
  }

  lemma QuotientReaches(n: nat, p: nat, x: nat)
    requires p > 0 && p * x <= n
    ensures n / p >= x
  {
    QuotientBounds(n, p);
    Cancel(p, x, n / p + 1);
  }

  lemma QuotientAntitone(n: nat, p: nat, q: nat)
    requires 0 < p <= q
    ensures Quotient(n, p) >= Quotient(n, q)
  {
    var x := Quotient(n, q);
    assert q * x <= n by {
      QuotientBounds(n, q);
    }
    SmallerFactor(p, q, x);
    QuotientReaches(n, p, x);
  }
}
