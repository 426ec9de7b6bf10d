// The loop shape shared by the per-entity migrators: each source entry
// either maps one source id to a target id, maps nothing, or raises, and an
// exception ends the loop (the migrators have no try around their body).

module Steps {
  import opened Py

  /** The outcome of one entry sets the key `k`. */
  predicate Sets<K(==), V>(o: Reply<Option<(K, V)>>, k: K)
  {
    o.Ok? && o.value.Some? && o.value.value.0 == k
  }

  /** The mapping after the entries' outcomes, in order; the first exception escapes. */
  function Assign<K, V>(outs: seq<Reply<Option<(K, V)>>>): Reply<map<K, V>>
  {
    if outs == [] then Ok(map[])
    else
      var n := |outs| - 1;
      match Assign(outs[..n])
      case Raised(e) => Raised(e)
      case Ok(m) =>
        match outs[n]
        case Raised(e) => Raised(e)
        case Ok(None) => Ok(m)
        case Ok(Some(kv)) => Ok(m[kv.0 := kv.1])
  }

  /** The loop finishes iff no entry raised, and otherwise it raises the first exception. */
  lemma {:induction false} AssignOutcome<K, V>(outs: seq<Reply<Option<(K, V)>>>)
    ensures Assign(outs).Ok? <==> forall i :: 0 <= i < |outs| ==> outs[i].Ok?
    ensures Assign(outs).Raised? ==>
      exists i :: 0 <= i < |outs| && outs[i] == Raised(Assign(outs).exc) && forall j :: 0 <= j < i ==> outs[j].Ok?
  {
    if outs != [] {
      var n := |outs| - 1;
      AssignOutcome(outs[..n]);
      assert forall i :: 0 <= i < n ==> outs[..n][i] == outs[i];
    }
  }

  /** An exception after a finished prefix is what the whole loop raises. */
  lemma {:induction false} AssignStops<K, V>(outs: seq<Reply<Option<(K, V)>>>, k: nat)
    requires k < |outs| && Assign(outs[..k]).Ok? && outs[k].Raised?
    ensures Assign(outs) == Raised(outs[k].exc)
    decreases |outs| - k
  {
    assert outs[..k + 1][..k] == outs[..k];
    if k + 1 < |outs| {
      AssignRaisedStays(outs, k + 1);
    } else {
      assert outs[..k + 1] == outs;
    }
  }

  /** One more outcome after a finished prefix: the table is extended by its pair, if any. */
  lemma AssignSnoc<K, V>(outs: seq<Reply<Option<(K, V)>>>, i: nat, m: map<K, V>)
    requires i < |outs| && Assign(outs[..i]) == Ok(m) && outs[i].Ok?
    ensures Assign(outs[..i + 1]) == if outs[i].value.Some? then Ok(m[outs[i].value.value.0 := outs[i].value.value.1]) else Ok(m)
  {
    assert outs[..i + 1][..i] == outs[..i];
  }

  lemma {:induction false} AssignRaisedStays<K, V>(outs: seq<Reply<Option<(K, V)>>>, k: nat)
    requires k <= |outs| && Assign(outs[..k]).Raised?
    ensures Assign(outs) == Assign(outs[..k])
    decreases |outs| - k
  {
    if k < |outs| {
      assert outs[..k + 1][..k] == outs[..k];
      AssignRaisedStays(outs, k + 1);
    } else {
      assert outs[..k] == outs;
    }
  }

  /**
   * A key is mapped iff some entry set it, and it holds what the last such
   * entry set.
   */
  lemma {:induction false} AssignEntries<K, V>(outs: seq<Reply<Option<(K, V)>>>, k: K)
    requires Assign(outs).Ok?
    ensures k in Assign(outs).value <==> exists i :: 0 <= i < |outs| && Sets(outs[i], k)
    ensures k in Assign(outs).value ==>
      exists i :: 0 <= i < |outs| && Sets(outs[i], k) && Assign(outs).value[k] == outs[i].value.value.1
        && forall j :: i < j < |outs| ==> !Sets(outs[j], k)
  {
    if outs != [] {
      var n := |outs| - 1;
      var init := outs[..n];
      AssignEntries(init, k);
      assert forall i :: 0 <= i < n ==> init[i] == outs[i];
      if !Sets(outs[n], k) && k in Assign(init).value {
        var i :| 0 <= i < n && Sets(init[i], k) && Assign(init).value[k] == init[i].value.value.1
          && forall j :: i < j < n ==> !Sets(init[j], k);
        assert forall j :: i < j < |outs| ==> !Sets(outs[j], k);
      }
    }
  }

  /** The mapping has at most one key per entry. */
  lemma {:induction false} AssignSize<K, V>(outs: seq<Reply<Option<(K, V)>>>)
    requires Assign(outs).Ok?
    ensures |Assign(outs).value| <= |outs|
  {
    if outs != [] {
      AssignSize(outs[..|outs| - 1]);
    }
  }

  /**
   * The entries a loop that writes into a table as it goes has written, and
   * the exception that stopped it, if any: unlike `Assign`, what was written
   * before the exception stays.
   */
  function AssignPartial<K, V>(outs: seq<Reply<Option<(K, V)>>>): (map<K, V>, Option<Exc>)
  {
    if outs == [] then (map[], None)
    else
      var r := AssignPartial(outs[..|outs| - 1]);
      if r.1.Some? then r
      else match outs[|outs| - 1]
        case Raised(e) => (r.0, Some(e))
        case Ok(None) => r
        case Ok(Some(kv)) => (r.0[kv.0 := kv.1], None)
  }

  /** Without an exception the partial table is the whole one; with one, the loop raises it. */
  lemma {:induction false} AssignPartialAgrees<K, V>(outs: seq<Reply<Option<(K, V)>>>)
    ensures AssignPartial(outs).1.None? <==> Assign(outs).Ok?
    ensures Assign(outs).Ok? ==> AssignPartial(outs).0 == Assign(outs).value
    ensures Assign(outs).Raised? ==> AssignPartial(outs).1 == Some(Assign(outs).exc)
  {
    if outs != [] {
      AssignPartialAgrees(outs[..|outs| - 1]);
    }
  }

  /** The partial table after the first `k` outcomes, when none of them raised, and the next raises. */
  lemma AssignPartialStops<K, V>(outs: seq<Reply<Option<(K, V)>>>, k: nat)
    requires k < |outs| && Assign(outs[..k]).Ok? && outs[k].Raised?
    ensures AssignPartial(outs) == (Assign(outs[..k]).value, Some(outs[k].exc))
  {
    AssignPartialAgrees(outs[..k]);
    assert outs[..k + 1][..k] == outs[..k];
    AssignPartialStays(outs, k + 1);
  }

  lemma {:induction false} AssignPartialStays<K, V>(outs: seq<Reply<Option<(K, V)>>>, k: nat)
    requires k <= |outs| && AssignPartial(outs[..k]).1.Some?
    ensures AssignPartial(outs) == AssignPartial(outs[..k])
    decreases |outs| - k
  {
    if k < |outs| {
      assert outs[..k + 1][..k] == outs[..k];
      AssignPartialStays(outs, k + 1);
    } else {
      assert outs[..k] == outs;
    }
  }

  /** `[f(x) for x in xs]` where `f` may raise: the first exception escapes. */
  function MapAll<T, U>(f: T -> Reply<U>, xs: seq<T>): Reply<seq<U>>
  {
    if xs == [] then Ok([])
    else
      var n := |xs| - 1;
      match MapAll(f, xs[..n])
      case Raised(e) => Raised(e)
      case Ok(init) =>
        match f(xs[n])
        case Raised(e) => Raised(e)
        case Ok(y) => Ok(init + [y])
  }

  /** The list is built iff no element raises, and then it holds every element's value, in order. */
  lemma {:induction false} MapAllOk<T, U>(f: T -> Reply<U>, xs: seq<T>)
    ensures MapAll(f, xs).Ok? <==> forall i :: 0 <= i < |xs| ==> f(xs[i]).Ok?
    ensures MapAll(f, xs).Ok? ==> |MapAll(f, xs).value| == |xs| && forall i :: 0 <= i < |xs| ==> f(xs[i]) == Ok(MapAll(f, xs).value[i])
  {
    if xs != [] {
      var n := |xs| - 1;
      MapAllOk(f, xs[..n]);
      assert forall i :: 0 <= i < n ==> xs[..n][i] == xs[i];
    }
  }

  /** Once a prefix has raised, the whole list raises the same. */
  lemma {:induction false} MapAllStop<T, U>(f: T -> Reply<U>, xs: seq<T>, k: nat)
    requires k <= |xs| && MapAll(f, xs[..k]).Raised?
    ensures MapAll(f, xs) == MapAll(f, xs[..k])
    decreases |xs| - k
  {
    if k < |xs| {
      assert xs[..k + 1][..k] == xs[..k];
      MapAllStop(f, xs, k + 1);
    } else {
      assert xs[..k] == xs;
    }
  }

  /** One more element: the list grows by its value, or the element's exception escapes. */
  lemma MapAllSnoc<T, U>(f: T -> Reply<U>, xs: seq<T>, j: nat, init: seq<U>)
    requires j < |xs| && MapAll(f, xs[..j]) == Ok(init)
    ensures f(xs[j]).Raised? ==> MapAll(f, xs[..j + 1]) == Raised(f(xs[j]).exc)
    ensures f(xs[j]).Ok? ==> MapAll(f, xs[..j + 1]) == Ok(init + [f(xs[j]).value])
  {
    assert xs[..j + 1][..j] == xs[..j];
  }

  /** The values an optional reading gives for the elements, in order (`[f(x) for x in xs if f(x)]`). */
  function Collect<T, U>(xs: seq<T>, f: T -> Option<U>): seq<U>
  {
    if xs == [] then []
    else
      var n := |xs| - 1;
      Collect(xs[..n], f) + (if f(xs[n]).Some? then [f(xs[n]).value] else [])
  }

  /** One more element: its value, if any, is appended. */
  lemma CollectSnoc<T, U>(xs: seq<T>, x: T, f: T -> Option<U>)
    ensures Collect(xs + [x], f) == Collect(xs, f) + (if f(x).Some? then [f(x).value] else [])
  {
    assert (xs + [x])[..|xs|] == xs;
  }

  /** A value is collected iff some element reads as it. */
  lemma {:induction false} CollectContents<T, U>(xs: seq<T>, f: T -> Option<U>, y: U)
    ensures y in Collect(xs, f) <==> exists i :: 0 <= i < |xs| && f(xs[i]) == Some(y)
  {
    if xs != [] {
      var n := |xs| - 1;
      CollectContents(xs[..n], f, y);
      assert forall i :: 0 <= i < n ==> xs[..n][i] == xs[i];
    }
  }

  /** Collecting keeps the input order: it distributes over concatenation. */
  lemma {:induction false} CollectAppend<T, U>(xs: seq<T>, ys: seq<T>, f: T -> Option<U>)
    ensures Collect(xs + ys, f) == Collect(xs, f) + Collect(ys, f)
  {
    if ys == [] {
      assert xs + ys == xs;
    } else {
      var n := |ys| - 1;
      assert (xs + ys)[..|xs| + n] == xs + ys[..n];
      CollectAppend(xs, ys[..n], f);
    }
  }

  /**
   * An entry outcome of a loop that fills two tables (an outer entity and the
   * entities nested in it): `outer` says which table it goes to.
   */
  datatype Tagged<K, V> = Tagged(outer: bool, out: Reply<Option<(K, V)>>)

  /** The two tables after the tagged outcomes, in order; the first exception escapes. */
  function AssignBoth<K, V>(events: seq<Tagged<K, V>>): Reply<(map<K, V>, map<K, V>)>
  {
    if events == [] then Ok((map[], map[]))
    else
      var n := |events| - 1;
      match AssignBoth(events[..n])
      case Raised(e) => Raised(e)
      case Ok(ms) =>
        match events[n].out
        case Raised(e) => Raised(e)
        case Ok(None) => Ok(ms)
        case Ok(Some(kv)) => if events[n].outer then Ok((ms.0[kv.0 := kv.1], ms.1)) else Ok((ms.0, ms.1[kv.0 := kv.1]))
  }

  /** How a loop that continues `before` with `evs` slices its history at turn `j`. */
  lemma ContinuedAt<T>(before: seq<T>, evs: seq<T>, j: nat)
    requires j < |evs|
    ensures before + evs[..j + 1] == (before + evs[..j]) + [evs[j]]
    ensures (before + evs)[..|before| + j] == before + evs[..j] && (before + evs)[|before| + j] == evs[j]
  {
    assert evs[..j + 1] == evs[..j] + [evs[j]];
  }

  lemma AppendAssoc<T>(a: seq<T>, b: seq<T>, c: seq<T>)
    ensures a + (b + c) == (a + b) + c
  {
  }

  /** One more tagged outcome after a finished prefix. */
  lemma AssignBothStep<K, V>(xs: seq<Tagged<K, V>>, e: Tagged<K, V>, ms: (map<K, V>, map<K, V>))
    requires AssignBoth(xs) == Ok(ms)
    ensures AssignBoth(xs + [e]) == match e.out
      case Raised(x) => Raised(x)
      case Ok(None) => Ok(ms)
      case Ok(Some(kv)) => if e.outer then Ok((ms.0[kv.0 := kv.1], ms.1)) else Ok((ms.0, ms.1[kv.0 := kv.1]))
  {
    assert (xs + [e])[..|xs|] == xs;
  }

  /** The outcome `e` sets `k` in the table `outer` selects. */
  predicate SetsIn<K(==), V>(e: Tagged<K, V>, outer: bool, k: K)
  {
    e.outer == outer && Sets(e.out, k)
  }

  /** The loop finishes iff no entry raised, and otherwise it raises the first exception. */
  lemma {:induction false} AssignBothOutcome<K, V>(events: seq<Tagged<K, V>>)
    ensures AssignBoth(events).Ok? <==> forall i :: 0 <= i < |events| ==> events[i].out.Ok?
    ensures AssignBoth(events).Raised? ==>
      exists i :: 0 <= i < |events| && events[i].out == Raised(AssignBoth(events).exc) && forall j :: 0 <= j < i ==> events[j].out.Ok?
  {
    if events != [] {
      var n := |events| - 1;
      AssignBothOutcome(events[..n]);
      assert forall i :: 0 <= i < n ==> events[..n][i] == events[i];
    }
  }

  /** An exception after a finished prefix is what the whole loop raises. */
  lemma {:induction false} AssignBothStops<K, V>(events: seq<Tagged<K, V>>, k: nat)
    requires k < |events| && AssignBoth(events[..k]).Ok? && events[k].out.Raised?
    ensures AssignBoth(events) == Raised(events[k].out.exc)
  {
    assert events[..k + 1][..k] == events[..k];
    AssignBothRaisedStays(events, k + 1);
  }

  lemma {:induction false} AssignBothRaisedStays<K, V>(events: seq<Tagged<K, V>>, k: nat)
    requires k <= |events| && AssignBoth(events[..k]).Raised?
    ensures AssignBoth(events) == AssignBoth(events[..k])
    decreases |events| - k
  {
    if k < |events| {
      assert events[..k + 1][..k] == events[..k];
      AssignBothRaisedStays(events, k + 1);
    } else {
      assert events[..k] == events;
    }
  }

  /** The table `outer` selects. */
  function Table<K, V>(ms: (map<K, V>, map<K, V>), outer: bool): map<K, V>
  {
    if outer then ms.0 else ms.1
  }

  /**
   * A key is in a table iff some outcome for that table set it, and it holds
   * what the last such outcome set.
   */
  lemma {:induction false} AssignBothEntries<K, V>(events: seq<Tagged<K, V>>, outer: bool, k: K)
    requires AssignBoth(events).Ok?
    ensures k in Table(AssignBoth(events).value, outer) <==> exists i :: 0 <= i < |events| && SetsIn(events[i], outer, k)
    ensures k in Table(AssignBoth(events).value, outer) ==>
      exists i :: 0 <= i < |events| && SetsIn(events[i], outer, k)
        && Table(AssignBoth(events).value, outer)[k] == events[i].out.value.value.1
        && forall j :: i < j < |events| ==> !SetsIn(events[j], outer, k)
  {
    if events != [] {
      var n := |events| - 1;
      var init := events[..n];
      AssignBothEntries(init, outer, k);
      assert forall i :: 0 <= i < n ==> init[i] == events[i];
      if !SetsIn(events[n], outer, k) && k in Table(AssignBoth(init).value, outer) {
        var i :| 0 <= i < n && SetsIn(init[i], outer, k) && Table(AssignBoth(init).value, outer)[k] == init[i].out.value.value.1
          && forall j :: i < j < n ==> !SetsIn(init[j], outer, k);
        assert forall j :: i < j < |events| ==> !SetsIn(events[j], outer, k);
      }
    }
  }

  /** The number of outcomes for the table `outer` selects. */
  function CountIn<K, V>(events: seq<Tagged<K, V>>, outer: bool): nat
  {
    if events == [] then 0
    else CountIn(events[..|events| - 1], outer) + (if events[|events| - 1].outer == outer then 1 else 0)
  }

  lemma {:induction false} CountInAppend<K, V>(xs: seq<Tagged<K, V>>, ys: seq<Tagged<K, V>>, outer: bool)
    ensures CountIn(xs + ys, outer) == CountIn(xs, outer) + CountIn(ys, outer)
  {
    if ys == [] {
      assert xs + ys == xs;
    } else {
      var n := |ys| - 1;
      assert (xs + ys)[..|xs| + n] == xs + ys[..n];
      CountInAppend(xs, ys[..n], outer);
    }
  }

  /** Each table has at most one key per outcome for it. */
  lemma {:induction false} AssignBothSize<K, V>(events: seq<Tagged<K, V>>, outer: bool)
    requires AssignBoth(events).Ok?
    ensures |Table(AssignBoth(events).value, outer)| <= CountIn(events, outer)
  {
    if events != [] {
      AssignBothSize(events[..|events| - 1], outer);
    }
  }

  /** The outcomes of a loop over `xs` where each element contributes `f(x)`, in order. */
  function ConcatMap<T, E>(xs: seq<T>, f: T -> seq<E>): seq<E>
  {
    if xs == [] then [] else ConcatMap(xs[..|xs| - 1], f) + f(xs[|xs| - 1])
  }

  /** An outcome of the loop is an outcome of one of its elements. */
  lemma {:induction false} ConcatMapMembers<T, E>(xs: seq<T>, f: T -> seq<E>, e: E)
    ensures e in ConcatMap(xs, f) <==> exists i :: 0 <= i < |xs| && e in f(xs[i])
  {
    if xs != [] {
      var n := |xs| - 1;
      ConcatMapMembers(xs[..n], f, e);
      assert forall i :: 0 <= i < n ==> xs[..n][i] == xs[i];
    }
  }

  lemma {:induction false} ConcatMapAppend<T, E>(xs: seq<T>, ys: seq<T>, f: T -> seq<E>)
    ensures ConcatMap(xs + ys, f) == ConcatMap(xs, f) + ConcatMap(ys, f)
  {
    if ys == [] {
      assert xs + ys == xs;
    } else {
      var n := |ys| - 1;
      assert (xs + ys)[..|xs| + n] == xs + ys[..n];
      ConcatMapAppend(xs, ys[..n], f);
    }
  }

  /** The outcomes of the first `i` elements are a prefix of the loop's outcomes. */
  lemma ConcatMapPrefix<T, E>(xs: seq<T>, i: nat, f: T -> seq<E>)
    requires i <= |xs|
    ensures ConcatMap(xs[..i], f) <= ConcatMap(xs, f)
  {
    assert xs[..i] + xs[i..] == xs;
    ConcatMapAppend(xs[..i], xs[i..], f);
    PrefixOfAppend(ConcatMap(xs[..i], f), ConcatMap(xs[i..], f));
  }

  lemma PrefixOfAppend<E>(a: seq<E>, b: seq<E>)
    ensures a <= a + b
  {
  }

  /** Once the outcomes of a prefix raise, the whole loop raises the same. */
  lemma AssignBothPrefix<K, V>(prefix: seq<Tagged<K, V>>, events: seq<Tagged<K, V>>)
    requires prefix <= events && AssignBoth(prefix).Raised?
    ensures AssignBoth(events) == AssignBoth(prefix)
  {
    assert events[..|prefix|] == prefix;
    AssignBothRaisedStays(events, |prefix|);
  }
}
