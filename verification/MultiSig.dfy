/** The M-of-N signature matcher of CHECKMULTISIG: lib/scriptinterpreter.js. */
module MultiSig {

  /**
   * The matcher's decision: a signature that fails against a key is tried against
   * the next key, a signature that verifies makes way for the next signature
   * while its key stays in play.
   */
  predicate Accepts<Sig, Key>(ok: (Sig, Key) -> bool, sigs: seq<Sig>, keys: seq<Key>)
    decreases |sigs| + |keys|
  {
    if sigs == [] then true
    else if |sigs| > |keys| then false
    else if ok(sigs[0], keys[0]) then Accepts(ok, sigs[1..], keys)
    else Accepts(ok, sigs, keys[1..])
  }

  /** How many signature checks the decision takes. */
  function Checks<Sig, Key>(ok: (Sig, Key) -> bool, sigs: seq<Sig>, keys: seq<Key>): nat
    decreases |sigs| + |keys|
  {
    if sigs == [] || |sigs| > |keys| then 0
    else if ok(sigs[0], keys[0]) then 1 + Checks(ok, sigs[1..], keys)
    else 1 + Checks(ok, sigs, keys[1..])
  }

  /** Every check but the last moves past a signature or a key that is not the last. */
  lemma {:induction false} ChecksBound<Sig, Key>(ok: (Sig, Key) -> bool, sigs: seq<Sig>, keys: seq<Key>)
    ensures Checks(ok, sigs, keys) <= if sigs == [] || |sigs| > |keys| then 0 else |sigs| + |keys| - 1
    decreases |sigs| + |keys|
  {
    if sigs == [] || |sigs| > |keys| {
    } else if ok(sigs[0], keys[0]) {
      ChecksBound(ok, sigs[1..], keys);
    } else {
      ChecksBound(ok, sigs, keys[1..]);
    }
  }

  /** Acceptance takes a good check for every signature, refusal a failed one for more keys than can be spared. */
  lemma {:induction false} ChecksNeeded<Sig, Key>(ok: (Sig, Key) -> bool, sigs: seq<Sig>, keys: seq<Key>)
    requires |sigs| <= |keys|
    ensures if Accepts(ok, sigs, keys) then Checks(ok, sigs, keys) >= |sigs|
            else Checks(ok, sigs, keys) >= |keys| - |sigs| + 1
    decreases |sigs| + |keys|
  {
    if sigs == [] {
    } else if ok(sigs[0], keys[0]) {
      ChecksNeeded(ok, sigs[1..], keys);
    } else if |sigs| < |keys| {
      ChecksNeeded(ok, sigs, keys[1..]);
    } else {
      assert !Accepts(ok, sigs, keys[1..]);
    }
  }

  /** The matching loop; the two counters say how many signatures and keys are left. */
  method CheckMultiSig<Sig, Key>(ok: (Sig, Key) -> bool, sigs: seq<Sig>, keys: seq<Key>)
    returns (success: bool, checks: nat)
    requires |sigs| <= |keys|
    ensures success <==> Accepts(ok, sigs, keys)
    ensures checks == Checks(ok, sigs, keys)
  {
    success, checks := true, 0;
    var isig, ikey := 0, 0;
    var sigsCount, keysCount := |sigs|, |keys|;
    while success && sigsCount > 0
      invariant 0 <= isig <= |sigs| && sigsCount == |sigs| - isig
      invariant 0 <= ikey <= |keys| && keysCount == |keys| - ikey
      invariant success <==> sigsCount <= keysCount
      invariant Accepts(ok, sigs, keys) <==> Accepts(ok, sigs[isig..], keys[ikey..])
      invariant Checks(ok, sigs, keys) == checks + Checks(ok, sigs[isig..], keys[ikey..])
      decreases sigsCount + keysCount
    {
      assert sigs[isig..][1..] == sigs[isig + 1..] && keys[ikey..][1..] == keys[ikey + 1..];
      checks := checks + 1;
      if ok(sigs[isig], keys[ikey]) {
        isig := isig + 1;
        sigsCount := sigsCount - 1;
      } else {
        ikey := ikey + 1;
        keysCount := keysCount - 1;
        if sigsCount > keysCount {
          success := false;
        }
      }
    }
  }

  // ----- what is accepted -----

  /** Every signature verifies against the key f gives it. */
  ghost predicate Verifies<Sig, Key>(ok: (Sig, Key) -> bool, sigs: seq<Sig>, keys: seq<Key>, f: seq<nat>) {
    |f| == |sigs| && forall i :: 0 <= i < |f| ==> f[i] < |keys| && ok(sigs[i], keys[f[i]])
  }

  /** Keys are taken in order, and enough keys are left for the later signatures. */
  ghost predicate InOrder(f: seq<nat>, slack: int) {
    && (forall i, j :: 0 <= i < j < |f| ==> f[i] <= f[j])
    && (forall i :: 0 <= i < |f| ==> f[i] - i <= slack)
  }

  ghost predicate Increasing(f: seq<nat>) {
    forall i, j :: 0 <= i < j < |f| ==> f[i] < f[j]
  }

  ghost predicate Match<Sig, Key>(ok: (Sig, Key) -> bool, sigs: seq<Sig>, keys: seq<Key>, f: seq<nat>) {
    Verifies(ok, sigs, keys, f) && InOrder(f, |keys| - |sigs|)
  }

  /** M-of-N as BIP 11 means it: every signature has a key of its own, in order. */
  ghost predicate StrictMatch<Sig, Key>(ok: (Sig, Key) -> bool, sigs: seq<Sig>, keys: seq<Key>, f: seq<nat>) {
    Verifies(ok, sigs, keys, f) && Increasing(f)
  }

  /** An accepting run yields a matching. */
  lemma {:induction false} AcceptsSound<Sig, Key>(ok: (Sig, Key) -> bool, sigs: seq<Sig>, keys: seq<Key>)
    returns (f: seq<nat>)
    requires Accepts(ok, sigs, keys)
    ensures Match(ok, sigs, keys, f)
    decreases |sigs| + |keys|
  {
    if sigs == [] {
      f := [];
    } else if ok(sigs[0], keys[0]) {
      var g := AcceptsSound(ok, sigs[1..], keys);
      f := [0] + g;
      forall i | 0 <= i < |f|
        ensures f[i] < |keys| && ok(sigs[i], keys[f[i]]) && f[i] - i <= |keys| - |sigs|
      {
        assert i > 0 ==> f[i] == g[i - 1] && sigs[i] == sigs[1..][i - 1];
      }
    } else {
      var g := AcceptsSound(ok, sigs, keys[1..]);
      f := seq(|g|, i requires 0 <= i < |g| => g[i] + 1);
    }
  }

  /** The greedy choice misses no matching. */
  lemma {:induction false} AcceptsComplete<Sig, Key>(
    ok: (Sig, Key) -> bool, sigs: seq<Sig>, keys: seq<Key>, f: seq<nat>)
    requires Match(ok, sigs, keys, f)
    ensures Accepts(ok, sigs, keys)
    decreases |sigs| + |keys|
  {
    if sigs == [] {
      return;
    }
    assert f[0] < |keys|;
    if ok(sigs[0], keys[0]) {
      forall i | 0 <= i < |f[1..]|
        ensures f[1..][i] < |keys| && ok(sigs[1..][i], keys[f[1..][i]]) && f[1..][i] - i <= |keys| - |sigs[1..]|
      {
        assert f[1..][i] == f[i + 1];
      }
      AcceptsComplete(ok, sigs[1..], keys, f[1..]);
    } else {
      forall i | 0 <= i < |f|
        ensures f[i] >= 1
      {
        assert f[0] != 0;
      }
      var g: seq<nat> := seq(|f|, i requires 0 <= i < |f| => f[i] - 1);
      AcceptsComplete(ok, sigs, keys[1..], g);
    }
  }

  /** The matcher accepts exactly when a matching exists. */
  lemma AcceptsIff<Sig, Key>(ok: (Sig, Key) -> bool, sigs: seq<Sig>, keys: seq<Key>)
    ensures Accepts(ok, sigs, keys) <==> exists f :: Match(ok, sigs, keys, f)
  {
    if Accepts(ok, sigs, keys) {
      var f := AcceptsSound(ok, sigs, keys);
    }
    if f :| Match(ok, sigs, keys, f) {
      AcceptsComplete(ok, sigs, keys, f);
    }
  }

  // ----- M-of-N -----

  lemma {:induction false} IncreasingAbove(f: seq<nat>, low: nat, i: nat)
    requires Increasing(f) && i < |f| && f[0] >= low
    ensures f[i] >= low + i
  {
    if i > 0 {
      IncreasingAbove(f, low, i - 1);
    }
  }

  lemma {:induction false} IncreasingBelow(f: seq<nat>, n: nat, i: nat)
    requires Increasing(f) && i < |f| && forall k :: 0 <= k < |f| ==> f[k] < n
    ensures f[i] - i <= n - |f|
    decreases |f| - i
  {
    if i + 1 < |f| {
      IncreasingBelow(f, n, i + 1);
    }
  }

  /** Every honest M-of-N signing is accepted. */
  lemma StrictMatchAccepted<Sig, Key>(ok: (Sig, Key) -> bool, sigs: seq<Sig>, keys: seq<Key>, f: seq<nat>)
    requires StrictMatch(ok, sigs, keys, f)
    ensures Accepts(ok, sigs, keys)
  {
    forall i | 0 <= i < |f|
      ensures f[i] - i <= |keys| - |sigs|
    {
      IncreasingBelow(f, |keys|, i);
    }
    AcceptsComplete(ok, sigs, keys, f);
  }

  /** When no key verifies two of the listed signatures, acceptance is exactly M-of-N. */
  lemma AcceptsIsMOfN<Sig, Key>(ok: (Sig, Key) -> bool, sigs: seq<Sig>, keys: seq<Key>)
    requires forall i, j, k :: 0 <= i < j < |sigs| && 0 <= k < |keys| && ok(sigs[i], keys[k]) ==> !ok(sigs[j], keys[k])
    ensures Accepts(ok, sigs, keys) <==> exists f :: StrictMatch(ok, sigs, keys, f)
  {
    if Accepts(ok, sigs, keys) {
      var f := AcceptsSound(ok, sigs, keys);
      assert StrictMatch(ok, sigs, keys, f);
    }
    if f :| StrictMatch(ok, sigs, keys, f) {
      StrictMatchAccepted(ok, sigs, keys, f);
    }
  }

  /** One key can stand for two signers: the same signature listed twice passes a 2-of-2 check. */
  lemma RepeatedSignatureAccepted()
    ensures var ok := (s: int, k: int) => s == k;
            Accepts(ok, [7, 7], [7, 8]) && forall f :: !StrictMatch(ok, [7, 7], [7, 8], f)
  {
    var ok := (s: int, k: int) => s == k;
    assert Match(ok, [7, 7], [7, 8], [0, 0]);
    AcceptsComplete(ok, [7, 7], [7, 8], [0, 0]);
    forall f: seq<nat>
      ensures StrictMatch(ok, [7, 7], [7, 8], f) ==> f[0] < f[1] < 2 && ok([7, 7][1], [7, 8][f[1]])
    {
    }
  }

  /** A signature good for one key is good for every later key. */
  ghost predicate GoodForLaterKeys<Sig(!new), Key>(ok: (Sig, Key) -> bool, keys: seq<Key>) {
    forall s: Sig, j, k :: 0 <= j < k < |keys| && ok(s, keys[j]) ==> ok(s, keys[k])
  }

  ghost predicate IsMOfN<Sig(!new), Key>(ok: (Sig, Key) -> bool, keys: seq<Key>) {
    forall sigs: seq<Sig> | |sigs| <= |keys| ::
      Accepts(ok, sigs, keys) <==> exists f :: StrictMatch(ok, sigs, keys, f)
  }

  /**
   * Exactly which key lists make the matcher decide M-of-N for every signature
   * list: those where a signature good for one key is good for all later ones. For
   * keys that share no signature, only the last key may verify anything.
   */
  lemma MOfNIff<Sig(!new), Key>(ok: (Sig, Key) -> bool, keys: seq<Key>)
    ensures IsMOfN(ok, keys) <==> GoodForLaterKeys(ok, keys)
  {
    if GoodForLaterKeys(ok, keys) {
      forall sigs: seq<Sig> | |sigs| <= |keys|
        ensures Accepts(ok, sigs, keys) <==> exists f :: StrictMatch(ok, sigs, keys, f)
      {
        SpreadMatch(ok, sigs, keys);
      }
    }
    if IsMOfN(ok, keys) {
      forall s: Sig, j, k | 0 <= j < k < |keys| && ok(s, keys[j])
        ensures ok(s, keys[k])
      {
        RepeatForcesLaterKeys(ok, keys, s, FirstGoodKey(ok, keys, s, j), k);
      }
    }
  }

  lemma SpreadMatch<Sig(!new), Key>(ok: (Sig, Key) -> bool, sigs: seq<Sig>, keys: seq<Key>)
    requires |sigs| <= |keys| && GoodForLaterKeys(ok, keys)
    ensures Accepts(ok, sigs, keys) <==> exists f :: StrictMatch(ok, sigs, keys, f)
  {
    if Accepts(ok, sigs, keys) {
      var f := AcceptsSound(ok, sigs, keys);
      var g: seq<nat> := seq(|f|, i requires 0 <= i < |f| => |keys| - |sigs| + i);
      forall i | 0 <= i < |g|
        ensures g[i] < |keys| && ok(sigs[i], keys[g[i]])
      {
        assert f[i] <= g[i] && ok(sigs[i], keys[f[i]]);
      }
      assert StrictMatch(ok, sigs, keys, g);
    }
    if f :| StrictMatch(ok, sigs, keys, f) {
      StrictMatchAccepted(ok, sigs, keys, f);
    }
  }

  ghost function FirstGoodKey<Sig, Key>(ok: (Sig, Key) -> bool, keys: seq<Key>, s: Sig, j: nat): (r: nat)
    requires j < |keys| && ok(s, keys[j])
    ensures r <= j && ok(s, keys[r]) && forall i :: 0 <= i < r ==> !ok(s, keys[i])
  {
    if i: nat :| i < j && ok(s, keys[i]) then FirstGoodKey(ok, keys, s, i) else j
  }

  lemma RepeatForcesLaterKeys<Sig(!new), Key>(ok: (Sig, Key) -> bool, keys: seq<Key>, s: Sig, j: nat, k: nat)
    requires IsMOfN(ok, keys) && j < k < |keys| && ok(s, keys[j])
    requires forall i :: 0 <= i < j ==> !ok(s, keys[i])
    ensures ok(s, keys[k])
  {
    var m := |keys| - j;
    var sigs := seq(m, _ => s);
    var f := seq(m, _ => j);
    assert Match(ok, sigs, keys, f);
    AcceptsComplete(ok, sigs, keys, f);
    var g :| StrictMatch(ok, sigs, keys, g);
    assert ok(sigs[0], keys[g[0]]);
    IncreasingAbove(g, j, k - j);
    IncreasingBelow(g, |keys|, k - j);
    assert ok(sigs[k - j], keys[g[k - j]]);
  }
}
