// The list and dict idioms the extractors build their results with: a
// filtered copy, a list without repeats in first-seen order, a dict where a
// later key overwrites an earlier one, and a dict of lists grouped by key.
// Each is a fold from the front of the input, the order the loops go in.

module Seqs {

  /** The elements of `xs` that satisfy `p`, in order. */
  function Filter<T>(xs: seq<T>, p: T -> bool): (r: seq<T>)
    ensures |r| <= |xs|
  {
    if xs == [] then []
    else
      var n := |xs| - 1;
      Filter(xs[..n], p) + (if p(xs[n]) then [xs[n]] else [])
  }

  lemma {:induction false} FilterMembers<T>(xs: seq<T>, p: T -> bool, x: T)
    ensures x in Filter(xs, p) <==> x in xs && p(x)
  {
    if xs != [] {
      var n := |xs| - 1;
      FilterMembers(xs[..n], p, x);
      assert xs == xs[..n] + [xs[n]];
    }
  }

  /** Filtering a concatenation filters each part. */
  lemma {:induction false} FilterAppend<T>(xs: seq<T>, ys: seq<T>, p: T -> bool)
    ensures Filter(xs + ys, p) == Filter(xs, p) + Filter(ys, p)
    decreases |ys|
  {
    if ys == [] {
      assert xs + ys == xs;
    } else {
      var n := |ys| - 1;
      assert (xs + ys)[..|xs| + n] == xs + ys[..n];
      FilterAppend(xs, ys[..n], p);
    }
  }

  /** A list where every element passes is kept whole. */
  lemma {:induction false} FilterAll<T>(xs: seq<T>, p: T -> bool)
    requires forall i :: 0 <= i < |xs| ==> p(xs[i])
    ensures Filter(xs, p) == xs
  {
    if xs != [] {
      var n := |xs| - 1;
      FilterAll(xs[..n], p);
      assert xs[..n] + [xs[n]] == xs;
    }
  }

  predicate NoDup<T(==)>(xs: seq<T>)
  {
    forall i, j :: 0 <= i < j < |xs| ==> xs[i] != xs[j]
  }

  /** The position where `x` first occurs in `xs`. */
  function FirstIndex<T(==)>(xs: seq<T>, x: T): (r: nat)
    requires x in xs
    ensures r < |xs| && xs[r] == x
    ensures forall k :: 0 <= k < r ==> xs[k] != x
  {
    if xs[0] == x then 0 else 1 + FirstIndex(xs[1..], x)
  }

  /** Each element once, the first time it is seen. */
  function Dedup<T(==,!new)>(xs: seq<T>): (r: seq<T>)
    ensures NoDup(r)
    ensures forall x :: x in r <==> x in xs
  {
    if xs == [] then []
    else
      var n := |xs| - 1;
      var d := Dedup(xs[..n]);
      assert forall x :: x in xs <==> x in xs[..n] || x == xs[n] by {
        assert xs == xs[..n] + [xs[n]];
      }
      if xs[n] in d then d else d + [xs[n]]
  }

  lemma FirstIndexPrefix<T>(xs: seq<T>, n: nat, x: T)
    requires n <= |xs| && x in xs[..n]
    ensures x in xs && FirstIndex(xs, x) == FirstIndex(xs[..n], x)
  {
    var b := FirstIndex(xs[..n], x);
    assert xs[b] == x;
    forall k | 0 <= k < b ensures xs[k] != x {
      assert xs[..n][k] == xs[k];
    }
  }

  /** The kept elements come in the order of their first occurrences. */
  lemma {:induction false} DedupFirstSeen<T(!new)>(xs: seq<T>, i: nat, j: nat)
    requires i < j < |Dedup(xs)|
    ensures FirstIndex(xs, Dedup(xs)[i]) < FirstIndex(xs, Dedup(xs)[j])
  {
    var n := |xs| - 1;
    var d := Dedup(xs[..n]);
    var a, b := Dedup(xs)[i], Dedup(xs)[j];
    assert a in d by {
      assert i < |d|;
    }
    FirstIndexPrefix(xs, n, a);
    if j < |d| {
      DedupFirstSeen(xs[..n], i, j);
      FirstIndexPrefix(xs, n, b);
    } else {
      assert b == xs[n] && b !in xs[..n];
      forall k | 0 <= k < n ensures xs[k] != b {
        assert xs[..n][k] == xs[k];
      }
    }
  }

  /** `m[key(x)] = val(x)` for each `x` in turn: a later key overwrites an earlier one. */
  function Index<T, K, V>(xs: seq<T>, key: T -> K, val: T -> V): map<K, V>
  {
    if xs == [] then map[]
    else
      var n := |xs| - 1;
      Index(xs[..n], key, val)[key(xs[n]) := val(xs[n])]
  }

  /** The keys are those of the elements, each holding the value of the last element with that key. */
  lemma {:induction false} IndexLastWins<T, K, V>(xs: seq<T>, key: T -> K, val: T -> V, k: K)
    ensures k in Index(xs, key, val) <==> exists i :: 0 <= i < |xs| && key(xs[i]) == k
    ensures k in Index(xs, key, val) ==>
      exists i :: 0 <= i < |xs| && key(xs[i]) == k && Index(xs, key, val)[k] == val(xs[i])
        && forall j :: i < j < |xs| ==> key(xs[j]) != k
  {
    if xs != [] {
      var n := |xs| - 1;
      var init := xs[..n];
      IndexLastWins(init, key, val, k);
      if key(xs[n]) != k {
        if k in Index(init, key, val) {
          var i :| 0 <= i < |init| && key(init[i]) == k && Index(init, key, val)[k] == val(init[i])
            && forall j :: i < j < |init| ==> key(init[j]) != k;
          assert key(xs[i]) == k && forall j :: i < j < |xs| ==> key(xs[j]) != k;
        } else {
          forall i | 0 <= i < |xs| ensures key(xs[i]) != k {
            if i < n { assert init[i] == xs[i]; }
          }
        }
      }
    }
  }

  /** The lengths add up: as many keys as elements at most. */
  lemma {:induction false} IndexSize<T, K, V>(xs: seq<T>, key: T -> K, val: T -> V)
    ensures |Index(xs, key, val)| <= |xs|
  {
    if xs != [] {
      IndexSize(xs[..|xs| - 1], key, val);
    }
  }

  /** The values of the elements whose key is `k`, in order. */
  function Matching<T, K(==), V>(xs: seq<T>, key: T -> K, val: T -> V, k: K): seq<V>
  {
    if xs == [] then []
    else
      var n := |xs| - 1;
      Matching(xs[..n], key, val, k) + (if key(xs[n]) == k then [val(xs[n])] else [])
  }

  /** `m.setdefault(key(x), []).append(val(x))` for each `x` in turn. */
  function Groups<T, K, V>(xs: seq<T>, key: T -> K, val: T -> V): map<K, seq<V>>
  {
    if xs == [] then map[]
    else
      var n := |xs| - 1;
      var m := Groups(xs[..n], key, val);
      var k := key(xs[n]);
      m[k := (if k in m then m[k] else []) + [val(xs[n])]]
  }

  /** A key is present iff some element has it, and it holds the values of exactly those elements, in order. */
  lemma {:induction false} GroupsMatching<T, K, V>(xs: seq<T>, key: T -> K, val: T -> V, k: K)
    ensures k in Groups(xs, key, val) <==> exists i :: 0 <= i < |xs| && key(xs[i]) == k
    ensures k in Groups(xs, key, val) ==> Groups(xs, key, val)[k] == Matching(xs, key, val, k)
    ensures k !in Groups(xs, key, val) ==> Matching(xs, key, val, k) == []
  {
    if xs != [] {
      var n := |xs| - 1;
      var init := xs[..n];
      GroupsMatching(init, key, val, k);
      if key(xs[n]) != k && k !in Groups(init, key, val) {
        forall i | 0 <= i < |xs| ensures key(xs[i]) != k {
          if i < n { assert init[i] == xs[i]; }
        }
      }
      if key(xs[n]) != k && k in Groups(init, key, val) {
        var i :| 0 <= i < |init| && key(init[i]) == k;
        assert key(xs[i]) == k;
      }
    }
  }

  /**
   * A loop over `xs` whose body may raise, inside a `try` that ends the loop:
   * `step` gives the state after one item and whether the item went through.
   * The loop stops at the first item that does not, keeping what that item
   * had already changed.
   */
  function FoldStop<A, T>(step: (A, T) -> (A, bool), a: A, xs: seq<T>): (A, bool)
  {
    if xs == [] then (a, true)
    else
      var r := FoldStop(step, a, xs[..|xs| - 1]);
      if r.1 then step(r.0, xs[|xs| - 1]) else r
  }

  /** The last item is one more step, unless the loop stopped before it. */
  lemma FoldStopLast<A, T>(step: (A, T) -> (A, bool), a: A, xs: seq<T>, init: seq<T>, x: T)
    requires xs == init + [x]
    ensures var r := FoldStop(step, a, init);
      FoldStop(step, a, xs) == if r.1 then step(r.0, x) else r
  {
    assert xs[..|xs| - 1] == init;
  }

  /** One more item after a run that has not stopped is one more step. */
  lemma FoldStopSnoc<A, T>(step: (A, T) -> (A, bool), a: A, xs: seq<T>, i: nat, b: A)
    requires i < |xs| && FoldStop(step, a, xs[..i]) == (b, true)
    ensures FoldStop(step, a, xs[..i + 1]) == step(b, xs[i])
  {
    assert xs[..i + 1][..i] == xs[..i];
  }

  /** Once the loop has stopped, later items change nothing. */
  lemma {:induction false} FoldStopStopped<A, T>(step: (A, T) -> (A, bool), a: A, xs: seq<T>, ys: seq<T>)
    requires !FoldStop(step, a, xs).1
    ensures FoldStop(step, a, xs + ys) == FoldStop(step, a, xs)
    decreases |ys|
  {
    if ys == [] {
      assert xs + ys == xs;
    } else {
      var n := |ys| - 1;
      FoldStopStopped(step, a, xs, ys[..n]);
      assert (xs + ys)[..|xs + ys| - 1] == xs + ys[..n];
    }
  }

  /** A property every step keeps holds of the state the loop ends in. */
  lemma {:induction false} FoldStopKeeps<A, T>(step: (A, T) -> (A, bool), p: A -> bool, a: A, xs: seq<T>)
    requires p(a)
    requires forall b: A, x: T :: p(b) ==> p(step(b, x).0)
    ensures p(FoldStop(step, a, xs).0)
  {
    if xs != [] {
      FoldStopKeeps(step, p, a, xs[..|xs| - 1]);
      KeepsStep(step, p, FoldStop(step, a, xs[..|xs| - 1]).0, xs[|xs| - 1]);
    }
  }

  lemma KeepsStep<A, T>(step: (A, T) -> (A, bool), p: A -> bool, b: A, x: T)
    requires forall c: A, y: T :: p(c) ==> p(step(c, y).0)
    requires p(b)
    ensures p(step(b, x).0)
  {
  }

  /** The loop goes through every item exactly when no item fails from the state before it. */
  lemma {:induction false} FoldStopAll<A, T>(step: (A, T) -> (A, bool), a: A, xs: seq<T>)
    ensures FoldStop(step, a, xs).1 <==>
      forall i :: 0 <= i < |xs| ==> step(FoldStop(step, a, xs[..i]).0, xs[i]).1
  {
    if xs != [] {
      var n := |xs| - 1;
      FoldStopAll(step, a, xs[..n]);
      assert forall i :: 0 <= i < n ==> xs[..n][..i] == xs[..i] && xs[..n][i] == xs[i];
      if !FoldStop(step, a, xs[..n]).1 {
        var i :| 0 <= i < n && !step(FoldStop(step, a, xs[..n][..i]).0, xs[..n][i]).1;
        assert !step(FoldStop(step, a, xs[..i]).0, xs[i]).1;
      }
    }
  }

  /**
   * The loop `FoldStop` describes, resumed behind the items `before` it has
   * already gone through without a failure, with `acc` the state they left.
   */
  method FoldStopFrom<A, T>(step: (A, T) -> (A, bool), a: A, ghost before: seq<T>, acc: A, xs: seq<T>)
    returns (r: (A, bool))
    requires FoldStop(step, a, before) == (acc, true)
    ensures r == FoldStop(step, a, before + xs)
  {
    r := (acc, true);
    assert before + xs[..0] == before;
    for j := 0 to |xs|
      invariant r == FoldStop(step, a, before + xs[..j]) && r.1
    {
      assert (before + xs[..j + 1])[..|before| + j] == before + xs[..j];
      assert (before + xs[..j + 1])[|before| + j] == xs[j];
      var next := step(r.0, xs[j]);
      if !next.1 {
        FoldStopStopped(step, a, before + xs[..j + 1], xs[j + 1..]);
        assert before + xs[..j + 1] + xs[j + 1..] == before + xs;
        return next;
      }
      r := next;
    }
    assert xs[..|xs|] == xs;
  }
}
