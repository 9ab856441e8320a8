/** Sequence helpers shared by every screener: Python-style windows, list
    reversal, minimum/maximum/sum, counting, and the order-preserving
    selection that every filtering loop performs. */
module Base {

  datatype Option<T> = None | Some(value: T)

  function Min(a: int, b: int): int { if a <= b then a else b }

  /** Python `s[:n]`: the first `n` elements, or all of `s` when shorter. */
  function Take<T>(s: seq<T>, n: nat): (r: seq<T>)
    ensures |r| == Min(|s|, n)
    ensures r == s[..|r|]
  {
    if |s| <= n then s else s[..n]
  }

  /** Python `s[-n:]` for a positive `n`: the last `n` elements, or all of
      `s` when shorter. (Python's `s[-0:]` is the whole list; no caller
      here uses `n == 0`.) */
  function TakeLast<T>(s: seq<T>, n: nat): (r: seq<T>)
    ensures |r| == Min(|s|, n)
    ensures r == s[|s| - |r|..]
  {
    if |s| <= n then s else s[|s| - n..]
  }

  /** Python `s[-1]`. */
  function Last<T>(s: seq<T>): T
    requires |s| > 0
  {
    s[|s| - 1]
  }

  /** Python `list.reverse()` / `reversed(s)`. */
  function Reverse<T>(s: seq<T>): (r: seq<T>)
    ensures |r| == |s|
    ensures forall i :: 0 <= i < |s| ==> r[i] == s[|s| - 1 - i]
  {
    if s == [] then [] else Reverse(s[1..]) + [s[0]]
  }

  lemma {:induction false} ReverseReverse<T>(s: seq<T>)
    ensures Reverse(Reverse(s)) == s
  {
    var r := Reverse(Reverse(s));
    assert |r| == |s|;
    forall i | 0 <= i < |s| ensures r[i] == s[i] {
      assert r[i] == Reverse(s)[|s| - 1 - i];
    }
  }

  lemma ReverseIsPermutation<T>(s: seq<T>)
    ensures multiset(Reverse(s)) == multiset(s)
  {
    if s != [] {
      ReverseIsPermutation(s[1..]);
      assert s == [s[0]] + s[1..];
    }
  }

  /** Python `sum(xs)`. */
  function Sum(xs: seq<int>): int
  {
    if xs == [] then 0 else Sum(xs[..|xs| - 1]) + xs[|xs| - 1]
  }

  lemma {:induction false} SumAppend(a: seq<int>, b: seq<int>)
    ensures Sum(a + b) == Sum(a) + Sum(b)
    decreases |b|
  {
    if b == [] {
      assert a + b == a;
    } else {
      assert (a + b)[..|a + b| - 1] == a + b[..|b| - 1];
      SumAppend(a, b[..|b| - 1]);
    }
  }

  lemma SumOfThree(xs: seq<int>)
    requires |xs| == 3
    ensures Sum(xs) == xs[0] + xs[1] + xs[2]
  {
    assert Sum([xs[0]]) == xs[0] by {
      assert [xs[0]][..0] == [];
    }
    assert Sum([xs[0], xs[1]]) == xs[0] + xs[1] by {
      assert [xs[0], xs[1]][..1] == [xs[0]];
    }
    assert xs[..2] == [xs[0], xs[1]];
  }

  /** Python `min(xs)`; it raises on an empty list, hence the precondition. */
  function MinOf(xs: seq<int>): (m: int)
    requires |xs| > 0
    ensures m in xs
    ensures forall i :: 0 <= i < |xs| ==> m <= xs[i]
  {
    if |xs| == 1 then xs[0]
    else
      var rest := MinOf(xs[..|xs| - 1]);
      assert forall i :: 0 <= i < |xs| - 1 ==> xs[..|xs| - 1][i] == xs[i];
      if xs[|xs| - 1] < rest then xs[|xs| - 1] else rest
  }

  /** Python `max(xs)`; it raises on an empty list, hence the precondition. */
  function MaxOf(xs: seq<int>): (m: int)
    requires |xs| > 0
    ensures m in xs
    ensures forall i :: 0 <= i < |xs| ==> xs[i] <= m
  {
    if |xs| == 1 then xs[0]
    else
      var rest := MaxOf(xs[..|xs| - 1]);
      assert forall i :: 0 <= i < |xs| - 1 ==> xs[..|xs| - 1][i] == xs[i];
      if xs[|xs| - 1] > rest then xs[|xs| - 1] else rest
  }

  /** The number of elements of `s` that satisfy `p` (the value a
      `count += 1` loop or a `sum(1 for x in s if p(x))` computes). */
  function CountWhere<T>(s: seq<T>, p: T -> bool): (c: nat)
    ensures c <= |s|
  {
    if s == [] then 0
    else CountWhere(s[..|s| - 1], p) + (if p(s[|s| - 1]) then 1 else 0)
  }

  lemma {:induction false} CountWhereAppend<T>(a: seq<T>, b: seq<T>, p: T -> bool)
    ensures CountWhere(a + b, p) == CountWhere(a, p) + CountWhere(b, p)
    decreases |b|
  {
    if b == [] {
      assert a + b == a;
    } else {
      assert (a + b)[..|a + b| - 1] == a + b[..|b| - 1];
      CountWhereAppend(a, b[..|b| - 1], p);
    }
  }

  /** Counting does not depend on the order of the elements. */
  lemma {:induction false} CountWhereReverse<T>(s: seq<T>, p: T -> bool)
    ensures CountWhere(Reverse(s), p) == CountWhere(s, p)
    decreases |s|
  {
    if s != [] {
      CountWhereReverse(s[1..], p);
      CountWhereAppend(Reverse(s[1..]), [s[0]], p);
      CountWhereAppend([s[0]], s[1..], p);
      assert s == [s[0]] + s[1..];
      assert CountWhere([s[0]], p) == (if p(s[0]) then 1 else 0) by {
        assert [s[0]][..0] == [];
      }
    }
  }

  /** A positive count is witnessed by one satisfying element. */
  lemma {:induction false} CountWherePositive<T>(s: seq<T>, p: T -> bool)
    ensures CountWhere(s, p) >= 1 <==> exists i :: 0 <= i < |s| && p(s[i])
    decreases |s|
  {
    if s != [] {
      var init := s[..|s| - 1];
      CountWherePositive(init, p);
      assert forall i :: 0 <= i < |init| ==> init[i] == s[i];
      if !p(s[|s| - 1]) && CountWhere(init, p) == 0 {
        forall i | 0 <= i < |s| ensures !p(s[i]) {
          if i < |init| { assert init[i] == s[i]; }
        }
      }
    }
  }

  /** Whether some element of `s` satisfies `p` (Python's `any`). */
  predicate AnyWhere<T>(s: seq<T>, p: T -> bool)
  {
    exists k :: 0 <= k < |s| && p(s[k])
  }

  /** Some element of a list with one more at the end satisfies `p`
      exactly when an earlier one or the new one does. */
  lemma AnyWhereSnoc<T>(s: seq<T>, p: T -> bool)
    requires s != []
    ensures AnyWhere(s, p) <==> AnyWhere(s[..|s| - 1], p) || p(s[|s| - 1])
  {
    var init := s[..|s| - 1];
    if AnyWhere(s, p) {
      var k :| 0 <= k < |s| && p(s[k]);
      if k < |init| {
        assert init[k] == s[k];
      }
    }
    if AnyWhere(init, p) {
      var k :| 0 <= k < |init| && p(init[k]);
      assert init[k] == s[k];
    }
  }

  /** A count of at least two is witnessed by two distinct satisfying
      positions. */
  lemma {:induction false} CountWhereAtLeastTwo<T>(s: seq<T>, p: T -> bool)
    ensures CountWhere(s, p) >= 2 <==>
            exists i, j :: 0 <= i < j < |s| && p(s[i]) && p(s[j])
    decreases |s|
  {
    if s != [] {
      var init := s[..|s| - 1];
      CountWhereAtLeastTwo(init, p);
      CountWherePositive(init, p);
      assert forall i :: 0 <= i < |init| ==> init[i] == s[i];
      if CountWhere(s, p) >= 2 {
        if CountWhere(init, p) >= 2 {
          var i, j :| 0 <= i < j < |init| && p(init[i]) && p(init[j]);
          assert p(s[i]) && p(s[j]);
        } else {
          var i :| 0 <= i < |init| && p(init[i]);
          assert p(s[i]) && p(s[|s| - 1]);
        }
      }
      if exists i, j :: 0 <= i < j < |s| && p(s[i]) && p(s[j]) {
        var i, j :| 0 <= i < j < |s| && p(s[i]) && p(s[j]);
        if j < |s| - 1 {
          assert p(init[i]) && p(init[j]);
        } else {
          assert p(init[i]);
        }
      }
    }
  }

  /** Three satisfying positions, found from the back. */
  lemma {:induction false} ThreeWitnesses<T>(s: seq<T>, p: T -> bool) returns (i: int, j: int, k: int)
    requires CountWhere(s, p) >= 3
    ensures 0 <= i < j < k < |s| && p(s[i]) && p(s[j]) && p(s[k])
    decreases |s|
  {
    var init := s[..|s| - 1];
    if CountWhere(init, p) >= 3 {
      i, j, k := ThreeWitnesses(init, p);
      assert init[i] == s[i] && init[j] == s[j] && init[k] == s[k];
    } else {
      CountWhereAtLeastTwo(init, p);
      i, j :| 0 <= i < j < |init| && p(init[i]) && p(init[j]);
      assert init[i] == s[i] && init[j] == s[j];
      k := |s| - 1;
    }
  }

  lemma {:induction false} CountWhereFromThree<T>(s: seq<T>, p: T -> bool, i: int, j: int, k: int)
    requires 0 <= i < j < k < |s| && p(s[i]) && p(s[j]) && p(s[k])
    ensures CountWhere(s, p) >= 3
    decreases |s|
  {
    var init := s[..|s| - 1];
    assert init[i] == s[i] && init[j] == s[j];
    if k < |s| - 1 {
      assert init[k] == s[k];
      CountWhereFromThree(init, p, i, j, k);
    } else {
      CountWhereAtLeastTwo(init, p);
    }
  }

  /** A count of at least three is witnessed by three distinct satisfying
      positions. */
  lemma CountWhereAtLeastThree<T>(s: seq<T>, p: T -> bool)
    ensures CountWhere(s, p) >= 3 <==>
            exists i, j, k :: 0 <= i < j < k < |s| && p(s[i]) && p(s[j]) && p(s[k])
  {
    if CountWhere(s, p) >= 3 {
      var i, j, k := ThreeWitnesses(s, p);
    }
    if exists i, j, k :: 0 <= i < j < k < |s| && p(s[i]) && p(s[j]) && p(s[k]) {
      var i, j, k :| 0 <= i < j < k < |s| && p(s[i]) && p(s[j]) && p(s[k]);
      CountWhereFromThree(s, p, i, j, k);
    }
  }

  /** The counting loop every screener runs (`count += 1` when the element
      qualifies). */
  method CountQualifying<T>(s: seq<T>, p: T -> bool) returns (count: nat)
    ensures count == CountWhere(s, p)
  {
    count := 0;
    for i := 0 to |s|
      invariant count == CountWhere(s[..i], p)
    {
      assert s[..i + 1][..i] == s[..i];
      if p(s[i]) {
        count := count + 1;
      }
    }
    assert s[..|s|] == s;
  }

  // ---------------------------------------------------------------------
  // Order-preserving selection: `for x in xs: if keep(x): out.append(f(x))`.

  /** The outputs of a filtering loop that appends `f(x).value` for every
      element `x` of `xs` with `f(x) != None`, in input order. */
  function Keep<T, U>(xs: seq<T>, f: T -> Option<U>): (ys: seq<U>)
    ensures |ys| <= |xs|
  {
    if xs == [] then []
    else
      Keep(xs[..|xs| - 1], f) +
      (match f(xs[|xs| - 1]) case Some(u) => [u] case None => [])
  }

  /** A filtering loop's output grows by what it keeps of one more input. */
  lemma KeepPrefixStep<T, U>(xs: seq<T>, i: int, f: T -> Option<U>)
    requires 0 <= i < |xs|
    ensures Keep(xs[..i + 1], f) == Keep(xs[..i], f) + (match f(xs[i]) case Some(u) => [u] case None => [])
  {
    assert xs[..i + 1][..i] == xs[..i];
  }

  /** The input positions that `Keep` keeps, in increasing order. */
  function KeptIndices<T, U>(xs: seq<T>, f: T -> Option<U>): seq<int>
  {
    if xs == [] then []
    else
      KeptIndices(xs[..|xs| - 1], f) +
      (if f(xs[|xs| - 1]).Some? then [|xs| - 1] else [])
  }

  predicate Increasing(idx: seq<int>)
  {
    forall a, b :: 0 <= a < b < |idx| ==> idx[a] < idx[b]
  }

  /** What `Keep` returns, characterised completely: its k-th output is
      `f` of the k-th kept input, kept inputs are in strictly increasing
      input order, and every input with a value is kept. */
  ghost predicate KeepFacts<T, U>(xs: seq<T>, f: T -> Option<U>)
  {
    var idx := KeptIndices(xs, f); var ys := Keep(xs, f);
    && |idx| == |ys|
    && Increasing(idx)
    && (forall k :: 0 <= k < |idx| ==> 0 <= idx[k] < |xs| && f(xs[idx[k]]) == Some(ys[k]))
    && (forall i :: 0 <= i < |xs| && f(xs[i]).Some? ==> i in idx)
  }

  lemma {:induction false} KeepCharacterised<T, U>(xs: seq<T>, f: T -> Option<U>)
    ensures KeepFacts(xs, f)
    decreases |xs|
  {
    if xs != [] {
      KeepCharacterised(xs[..|xs| - 1], f);
      if f(xs[|xs| - 1]).Some? {
        KeepStepKept(xs, f);
      } else {
        KeepStepDropped(xs, f);
      }
    }
  }

  /** The inductive step of `KeepCharacterised` for a last input `f`
      keeps. */
  lemma KeepStepKept<T, U>(xs: seq<T>, f: T -> Option<U>)
    requires xs != [] && f(xs[|xs| - 1]).Some?
    requires KeepFacts(xs[..|xs| - 1], f)
    ensures KeepFacts(xs, f)
  {
    var n := |xs| - 1;
    var init := xs[..n];
    assert forall i :: 0 <= i < |init| ==> init[i] == xs[i];
    var idx, ys := KeptIndices(xs, f), Keep(xs, f);
    var idx0, ys0 := KeptIndices(init, f), Keep(init, f);
    assert idx == idx0 + [n] && ys == ys0 + [f(xs[n]).value];
    forall i | 0 <= i < |xs| && f(xs[i]).Some? ensures i in idx {
      if i < n {
        assert f(init[i]).Some?;
      }
    }
  }

  /** The inductive step of `KeepCharacterised` for a last input `f`
      drops. */
  lemma KeepStepDropped<T, U>(xs: seq<T>, f: T -> Option<U>)
    requires xs != [] && f(xs[|xs| - 1]).None?
    requires KeepFacts(xs[..|xs| - 1], f)
    ensures KeepFacts(xs, f)
  {
    var n := |xs| - 1;
    var init := xs[..n];
    assert forall i :: 0 <= i < |init| ==> init[i] == xs[i];
    assert KeptIndices(xs, f) == KeptIndices(init, f) && Keep(xs, f) == Keep(init, f);
    forall i | 0 <= i < |xs| && f(xs[i]).Some? ensures i in KeptIndices(xs, f) {
      assert f(init[i]).Some?;
    }
  }

  /** `Keep` looks at each element alone: two selectors that agree on the
      elements of `xs` keep the same outputs. */
  lemma {:induction false} KeepCongruent<T, U>(xs: seq<T>, f: T -> Option<U>, g: T -> Option<U>)
    requires forall i :: 0 <= i < |xs| ==> f(xs[i]) == g(xs[i])
    ensures Keep(xs, f) == Keep(xs, g)
    decreases |xs|
  {
    if xs != [] {
      var init := xs[..|xs| - 1];
      assert forall i :: 0 <= i < |init| ==> init[i] == xs[i];
      KeepCongruent(init, f, g);
    }
  }

  // ---------------------------------------------------------------------
  // A dictionary refreshed key by key: `stored[k] = fresh[k]` for each key
  // handled so far that has a fresh value.

  /** The value in effect for each key once every key has been handled: a
      fresh value replaces the stored one. */
  function Effective<K, V>(m0: map<K, V>, feed: map<K, V>): map<K, V>
  {
    map c | c in m0.Keys + feed.Keys :: if c in feed then feed[c] else m0[c]
  }

  /** `m` is `m0` with the fresh values of `feed` written for the keys in `seen`. */
  ghost predicate Refreshed<K(!new), V>(m: map<K, V>, m0: map<K, V>, feed: map<K, V>, seen: set<K>)
  {
    && (forall c :: c in m <==> c in m0 || (c in feed && c in seen))
    && (forall c :: c in m ==> m[c] == (if c in feed && c in seen then feed[c] else m0[c]))
  }

  /** After a refresh, a handled key holds exactly its effective value. */
  lemma RefreshedAtSeen<K(!new), V>(m: map<K, V>, m0: map<K, V>, feed: map<K, V>, seen: set<K>, c: K)
    requires Refreshed(m, m0, feed, seen) && c in seen
    ensures c in m <==> c in Effective(m0, feed)
    ensures c in m ==> m[c] == Effective(m0, feed)[c]
  {
  }

  lemma RefreshedStep<K(!new), V>(m: map<K, V>, m0: map<K, V>, feed: map<K, V>, seen: set<K>, c: K)
    requires Refreshed(m, m0, feed, seen)
    ensures Refreshed(if c in feed then m[c := feed[c]] else m, m0, feed, seen + {c})
  {
  }

  lemma EffectiveOverNothing<K, V>(feed: map<K, V>)
    ensures Effective(map[], feed) == feed
  {
  }
}
