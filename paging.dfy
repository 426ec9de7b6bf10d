// The offset/limit listing loop shared by the extractors (its representative
// is migration/extract/cases.py): ask for `limit` entities at offset 0,
// `limit`, `2 * limit`, ... and stop at an empty page or at a page shorter
// than the limit. The remote listing is an oracle from offsets to pages.

module Paging {
  import opened Py
  import Utils
  import Seqs

  /** The pages a scan read, in order, and the exception that ended it, if one did. */
  datatype Scan<T> = Scan(pages: seq<seq<T>>, failure: Option<Exc>)

  /** A page that makes the loop ask for the next one: neither empty nor shorter than the limit. */
  predicate Full<T>(page: Reply<seq<T>>, limit: nat)
  {
    page.Ok? && page.value != [] && |page.value| >= limit
  }

  /**
   * The listing ends: from offset `bound` on no page is full. (Against a
   * listing that never ends the source loops forever; the model assumes
   * this of the remote side.)
   */
  ghost predicate Ends<T>(fetch: nat -> Reply<seq<T>>, limit: nat, bound: nat)
  {
    forall off: nat :: off >= bound ==> !Full(fetch(off), limit)
  }

  /** Why a scan that read `s.pages` from `offset` on stopped where it did. */
  predicate Stopped<T>(fetch: nat -> Reply<seq<T>>, limit: nat, offset: nat, s: Scan<T>)
  {
    var next := offset + |s.pages| * limit;
    match s.failure
    case Some(e) => fetch(next) == Raised(e)
    case None => (s.pages != [] && |s.pages[|s.pages| - 1]| < limit) || fetch(next) == Ok([])
  }

  lemma NextOffset(offset: nat, limit: nat, k: nat)
    ensures offset + (k + 1) * limit == (offset + limit) + k * limit
  {
  }

  /** The scan from `offset` on, as the loop performs it. */
  function ScanFrom<T>(fetch: nat -> Reply<seq<T>>, limit: nat, offset: nat, bound: nat): Scan<T>
    requires limit > 0 && Ends(fetch, limit, bound)
    decreases if offset <= bound then bound - offset + 1 else 0
  {
    match fetch(offset)
    case Raised(e) => Scan([], Some(e))
    case Ok(page) =>
      if page == [] then Scan([], None)
      else if |page| < limit then Scan([page], None)
      else
        var rest := ScanFrom(fetch, limit, offset + limit, bound);
        Scan([page] + rest.pages, rest.failure)
  }

  /** Page `i` of the scan from `offset` is the (non-empty) answer at `offset + i * limit`. */
  lemma {:induction false} ScanOffsets<T>(fetch: nat -> Reply<seq<T>>, limit: nat, offset: nat, bound: nat, i: nat)
    requires limit > 0 && Ends(fetch, limit, bound)
    requires i < |ScanFrom(fetch, limit, offset, bound).pages|
    ensures fetch(offset + i * limit) == Ok(ScanFrom(fetch, limit, offset, bound).pages[i])
    ensures ScanFrom(fetch, limit, offset, bound).pages[i] != []
    decreases if offset <= bound then bound - offset + 1 else 0
  {
    if i > 0 {
      ScanOffsets(fetch, limit, offset + limit, bound, i - 1);
      NextOffset(offset, limit, i - 1);
    }
  }

  /** Every page of a scan but the last is full. */
  lemma {:induction false} ScanFullPages<T>(fetch: nat -> Reply<seq<T>>, limit: nat, offset: nat, bound: nat, i: nat)
    requires limit > 0 && Ends(fetch, limit, bound)
    requires i + 1 < |ScanFrom(fetch, limit, offset, bound).pages|
    ensures |ScanFrom(fetch, limit, offset, bound).pages[i]| >= limit
    decreases if offset <= bound then bound - offset + 1 else 0
  {
    if i > 0 {
      ScanFullPages(fetch, limit, offset + limit, bound, i - 1);
    }
  }

  /** A scan stops at an exception, at an empty page or after a short page. */
  lemma {:induction false} ScanStops<T>(fetch: nat -> Reply<seq<T>>, limit: nat, offset: nat, bound: nat)
    requires limit > 0 && Ends(fetch, limit, bound)
    ensures Stopped(fetch, limit, offset, ScanFrom(fetch, limit, offset, bound))
    decreases if offset <= bound then bound - offset + 1 else 0
  {
    if Full(fetch(offset), limit) {
      var rest := ScanFrom(fetch, limit, offset + limit, bound);
      ScanStops(fetch, limit, offset + limit, bound);
      NextOffset(offset, limit, |rest.pages|);
    }
  }

  /** A scan's own pages in front of the remaining scan. */
  function Prefixed<T>(done: seq<seq<T>>, s: Scan<T>): Scan<T>
  {
    Scan(done + s.pages, s.failure)
  }

  /** Everything the scan read, in order. */
  function Items<T>(s: Scan<T>): seq<T>
  {
    Utils.Concat(s.pages)
  }

  /** A loop without a try: the exception propagates, otherwise the concatenated pages. */
  function Outcome<T>(s: Scan<T>): Reply<seq<T>>
  {
    if s.failure.Some? then Raised(s.failure.value) else Ok(Items(s))
  }

  lemma {:induction false} ConcatSnoc<T>(ss: seq<seq<T>>, last: seq<T>)
    ensures Utils.Concat(ss + [last]) == Utils.Concat(ss) + last
  {
    if ss != [] {
      assert (ss + [last])[1..] == ss[1..] + [last];
      ConcatSnoc(ss[1..], last);
    }
  }

  lemma {:induction false} ConcatAppend<T>(xs: seq<seq<T>>, ys: seq<seq<T>>)
    ensures Utils.Concat(xs + ys) == Utils.Concat(xs) + Utils.Concat(ys)
  {
    if xs != [] {
      assert (xs + ys)[0] == xs[0] && (xs + ys)[1..] == xs[1..] + ys;
      ConcatAppend(xs[1..], ys);
    } else {
      assert xs + ys == ys;
    }
  }

  /** What a scan behind `done` read: the pages in `done`, then the scan's own. */
  lemma ItemsPrefixed<T>(done: seq<seq<T>>, s: Scan<T>)
    ensures Items(Prefixed(done, s)) == Utils.Concat(done) + Items(s)
  {
    ConcatAppend(done, s.pages);
  }

  /** The last step of a scan loop: the scan from 0 ends with the answer at `offset`. */
  lemma JoinLast<T>(fetch: nat -> Reply<seq<T>>, limit: nat, offset: nat, bound: nat, done: seq<seq<T>>)
    requires limit > 0 && Ends(fetch, limit, bound)
    requires !Full(fetch(offset), limit)
    ensures fetch(offset).Raised? ==> Outcome(Prefixed(done, ScanFrom(fetch, limit, offset, bound))) == Raised(fetch(offset).exc)
    ensures fetch(offset) == Ok([]) ==> Prefixed(done, ScanFrom(fetch, limit, offset, bound)) == Scan(done, None)
    ensures fetch(offset).Ok? && fetch(offset).value != [] ==>
      Prefixed(done, ScanFrom(fetch, limit, offset, bound)) == Scan(done + [fetch(offset).value], None)
  {
  }

  /**
   * One step of a scan loop: after the full page at `offset`, the scan from
   * 0 is the pages read so far and that page, then the scan from the next offset.
   */
  lemma JoinStep<T>(fetch: nat -> Reply<seq<T>>, limit: nat, offset: nat, bound: nat, done: seq<seq<T>>)
    requires limit > 0 && Ends(fetch, limit, bound)
    requires Full(fetch(offset), limit)
    ensures offset < bound
    ensures Prefixed(done, ScanFrom(fetch, limit, offset, bound))
         == Prefixed(done + [fetch(offset).value], ScanFrom(fetch, limit, offset + limit, bound))
  {
    var rest := ScanFrom(fetch, limit, offset + limit, bound);
    assert done + ([fetch(offset).value] + rest.pages) == (done + [fetch(offset).value]) + rest.pages;
  }

  /**
   * What the scan from 0 reads, seen from a loop turn at `offset` behind the
   * pages `done`: when the answer there ends the scan, the items read so far
   * and that answer's; otherwise the loop goes on from the next offset.
   */
  lemma ItemsAt<T>(fetch: nat -> Reply<seq<T>>, limit: nat, offset: nat, bound: nat, done: seq<seq<T>>)
    requires limit > 0 && Ends(fetch, limit, bound)
    requires ScanFrom(fetch, limit, 0, bound) == Prefixed(done, ScanFrom(fetch, limit, offset, bound))
    ensures !Full(fetch(offset), limit) ==>
      Items(ScanFrom(fetch, limit, 0, bound)) == Utils.Concat(done) + (if fetch(offset).Ok? then fetch(offset).value else [])
    ensures !Full(fetch(offset), limit) ==>
      ScanFrom(fetch, limit, 0, bound).failure == (if fetch(offset).Raised? then Some(fetch(offset).exc) else None)
    ensures Full(fetch(offset), limit) ==>
      && offset < bound
      && ScanFrom(fetch, limit, 0, bound) == Prefixed(done + [fetch(offset).value], ScanFrom(fetch, limit, offset + limit, bound))
      && Utils.Concat(done + [fetch(offset).value]) == Utils.Concat(done) + fetch(offset).value
      && Items(ScanFrom(fetch, limit, 0, bound))
         == Utils.Concat(done) + fetch(offset).value + Items(ScanFrom(fetch, limit, offset + limit, bound))
  {
    if Full(fetch(offset), limit) {
      var page := fetch(offset).value;
      JoinStep(fetch, limit, offset, bound, done);
      ConcatSnoc(done, page);
      ItemsPrefixed(done + [page], ScanFrom(fetch, limit, offset + limit, bound));
    } else {
      JoinLast(fetch, limit, offset, bound, done);
      var page := if fetch(offset).Ok? then fetch(offset).value else [];
      ItemsPrefixed(done, ScanFrom(fetch, limit, offset, bound));
      if page != [] {
        assert ScanFrom(fetch, limit, offset, bound).pages == [page];
        assert [page][1..] == [];
        assert Utils.Concat([page]) == page + Utils.Concat([]);
      }
    }
  }

  /**
   * One turn of a scan loop, in terms of what the scans read: a full page at
   * `offset` comes before what the scan from the next offset reads; any
   * other answer ends the scan, with its items (if any) and its exception (if
   * any).
   */
  lemma PageAt<T>(fetch: nat -> Reply<seq<T>>, limit: nat, offset: nat, bound: nat)
    requires limit > 0 && Ends(fetch, limit, bound)
    ensures Full(fetch(offset), limit) ==>
      && offset < bound
      && Items(ScanFrom(fetch, limit, offset, bound)) == fetch(offset).value + Items(ScanFrom(fetch, limit, offset + limit, bound))
      && ScanFrom(fetch, limit, offset, bound).failure == ScanFrom(fetch, limit, offset + limit, bound).failure
    ensures !Full(fetch(offset), limit) ==>
      && Items(ScanFrom(fetch, limit, offset, bound)) == (if fetch(offset).Ok? then fetch(offset).value else [])
      && ScanFrom(fetch, limit, offset, bound).failure == (if fetch(offset).Raised? then Some(fetch(offset).exc) else None)
  {
    var s := ScanFrom(fetch, limit, offset, bound);
    if Full(fetch(offset), limit) {
      var rest := ScanFrom(fetch, limit, offset + limit, bound);
      assert s.pages == [fetch(offset).value] + rest.pages;
      ConcatAppend([fetch(offset).value], rest.pages);
      assert Utils.Concat([fetch(offset).value]) == fetch(offset).value + Utils.Concat([]);
    } else if fetch(offset).Ok? && fetch(offset).value != [] {
      assert s.pages == [fetch(offset).value];
      assert Utils.Concat([fetch(offset).value]) == fetch(offset).value + Utils.Concat([]);
    }
  }

  /**
   * What a scan loop knows at a turn: `seen` is what it read before
   * `offset`, and the scan from there reads the rest and ends the same way.
   */
  ghost predicate ReadUpTo<T>(fetch: nat -> Reply<seq<T>>, limit: nat, bound: nat, offset: nat, seen: seq<T>)
    requires limit > 0 && Ends(fetch, limit, bound)
  {
    && Items(ScanFrom(fetch, limit, 0, bound)) == seen + Items(ScanFrom(fetch, limit, offset, bound))
    && ScanFrom(fetch, limit, 0, bound).failure == ScanFrom(fetch, limit, offset, bound).failure
  }

  lemma ReadFromStart<T>(fetch: nat -> Reply<seq<T>>, limit: nat, bound: nat)
    requires limit > 0 && Ends(fetch, limit, bound)
    ensures ReadUpTo(fetch, limit, bound, 0, [])
  {
    assert [] + Items(ScanFrom(fetch, limit, 0, bound)) == Items(ScanFrom(fetch, limit, 0, bound));
  }

  /**
   * A turn of a scan loop at `offset`, behind the items `seen`: a full page
   * moves it to the next offset with that page read; any other answer ends
   * the scan from 0 with what was read and that answer's items, or its
   * exception.
   */
  lemma Turn<T>(fetch: nat -> Reply<seq<T>>, limit: nat, bound: nat, offset: nat, seen: seq<T>)
    requires limit > 0 && Ends(fetch, limit, bound)
    requires ReadUpTo(fetch, limit, bound, offset, seen)
    ensures Full(fetch(offset), limit) ==>
      offset < bound && ReadUpTo(fetch, limit, bound, offset + limit, seen + fetch(offset).value)
    ensures fetch(offset).Raised? ==> ScanFrom(fetch, limit, 0, bound).failure == Some(fetch(offset).exc)
    ensures fetch(offset).Ok? && !Full(fetch(offset), limit) ==>
      && ScanFrom(fetch, limit, 0, bound).failure == None
      && Items(ScanFrom(fetch, limit, 0, bound)) == seen + fetch(offset).value
  {
    PageAt(fetch, limit, offset, bound);
    if Full(fetch(offset), limit) {
      var page := fetch(offset).value;
      var rest := Items(ScanFrom(fetch, limit, offset + limit, bound));
      assert seen + (page + rest) == (seen + page) + rest;
    }
  }

  /**
   * The loop itself, for the extractors that keep every entity: read pages
   * until one is empty or short; an exception raised by `fetch` propagates.
   */
  method ReadAll<T>(fetch: nat -> Reply<seq<T>>, limit: nat, ghost bound: nat)
    returns (r: Reply<seq<T>>)
    requires limit > 0 && Ends(fetch, limit, bound)
    ensures r == Outcome(ScanFrom(fetch, limit, 0, bound))
  {
    var items: seq<T> := [];
    var offset: nat := 0;
    ghost var done: seq<seq<T>> := [];
    while true
      invariant ScanFrom(fetch, limit, 0, bound) == Prefixed(done, ScanFrom(fetch, limit, offset, bound))
      invariant items == Utils.Concat(done)
      decreases if offset <= bound then bound - offset + 1 else 0
    {
      var response := fetch(offset);
      if !Full(response, limit) {
        JoinLast(fetch, limit, offset, bound, done);
      }
      if response.Raised? {
        return Raised(response.exc);
      }
      var entities := response.value;
      if entities == [] {
        return Ok(items);
      }
      ConcatSnoc(done, entities);
      items := items + entities;
      if |entities| < limit {
        return Ok(items);
      }
      JoinStep(fetch, limit, offset, bound, done);
      done := done + [entities];
      offset := offset + limit;
    }
  }

  /**
   * A scan loop whose body files each entity of a page under `key(e)` with
   * value `val(e)`, a later entity overwriting an earlier one with the same
   * key; an exception raised by the listing propagates.
   */
  method IndexAll<T, K, V>(fetch: nat -> Reply<seq<T>>, limit: nat, ghost bound: nat, key: T -> K, val: T -> V)
    returns (r: Reply<map<K, V>>)
    requires limit > 0 && Ends(fetch, limit, bound)
    ensures var s := ScanFrom(fetch, limit, 0, bound);
      r == if s.failure.Some? then Raised(s.failure.value) else Ok(Seqs.Index(Items(s), key, val))
  {
    var table: map<K, V> := map[];
    var offset: nat := 0;
    ghost var seen: seq<T> := [];
    ReadFromStart(fetch, limit, bound);
    while true
      invariant ReadUpTo(fetch, limit, bound, offset, seen)
      invariant table == Seqs.Index(seen, key, val)
      decreases if offset <= bound then bound - offset + 1 else 0
    {
      var response := fetch(offset);
      Turn(fetch, limit, bound, offset, seen);
      if response.Raised? {
        return Raised(response.exc);
      }
      var entities := response.value;
      if entities == [] {
        assert seen + entities == seen;
        return Ok(table);
      }
      table := IndexPage(table, seen, entities, key, val);
      if |entities| < limit {
        return Ok(table);
      }
      seen := seen + entities;
      offset := offset + limit;
    }
  }

  /** The loop over one page: `table[key(e)] = val(e)` for each entity `e`. */
  method IndexPage<T, K, V>(table: map<K, V>, ghost before: seq<T>, entities: seq<T>, key: T -> K, val: T -> V)
    returns (r: map<K, V>)
    requires table == Seqs.Index(before, key, val)
    ensures r == Seqs.Index(before + entities, key, val)
  {
    r := table;
    assert before + entities[..0] == before;
    for j := 0 to |entities|
      invariant r == Seqs.Index(before + entities[..j], key, val)
    {
      ghost var xs := before + entities[..j + 1];
      assert xs[..|xs| - 1] == before + entities[..j] && xs[|xs| - 1] == entities[j];
      r := r[key(entities[j]) := val(entities[j])];
    }
    assert entities[..|entities|] == entities;
  }

  /**
   * A scan loop inside a `try` that ends it, whose body goes over the
   * entities of each page with `step`: an exception raised by the listing or
   * by an entity ends the loop, and what was collected before it is kept.
   */
  method FoldScan<A, T>(fetch: nat -> Reply<seq<T>>, limit: nat, ghost bound: nat, step: (A, T) -> (A, bool), a: A)
    returns (r: A)
    requires limit > 0 && Ends(fetch, limit, bound)
    ensures r == Seqs.FoldStop(step, a, Items(ScanFrom(fetch, limit, 0, bound))).0
  {
    r := a;
    var offset: nat := 0;
    ghost var done: seq<seq<T>> := [];
    while true
      invariant ScanFrom(fetch, limit, 0, bound) == Prefixed(done, ScanFrom(fetch, limit, offset, bound))
      invariant Seqs.FoldStop(step, a, Utils.Concat(done)) == (r, true)
      decreases if offset <= bound then bound - offset + 1 else 0
    {
      var response := fetch(offset);
      ItemsAt(fetch, limit, offset, bound, done);
      if response.Raised? || response.value == [] {
        assert Utils.Concat(done) + [] == Utils.Concat(done);
        return;
      }
      var entities := response.value;
      var next := Seqs.FoldStopFrom(step, a, Utils.Concat(done), r, entities);
      if !next.1 {
        if |entities| >= limit {
          Seqs.FoldStopStopped(step, a, Utils.Concat(done) + entities, Items(ScanFrom(fetch, limit, offset + limit, bound)));
        }
        return next.0;
      }
      r := next.0;
      if |entities| < limit {
        return;
      }
      done := done + [entities];
      offset := offset + limit;
    }
  }
}
