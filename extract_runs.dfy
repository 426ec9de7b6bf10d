// migration/extract/runs.py: the runs of a project, and the target case ids
// of one run, read from the run itself or, when the client does not accept
// `include='cases'`, from the run's tests.

module ExtractRuns {
  import opened Py
  import Utils
  import opened Paging
  import opened Seqs

  const Limit: nat := 100
  const TestsLimit: nat := 250

  /** `extract_runs`: every page of `get_runs`, concatenated in order. */
  method ExtractRuns(fetch: nat -> Reply<seq<Json>>, ghost bound: nat) returns (r: Reply<seq<Json>>)
    requires Ends(fetch, Limit, bound)
    ensures r == Outcome(ScanFrom(fetch, Limit, 0, bound))
  {
    r := ReadAll(fetch, Limit, bound);
  }

  /** The source case id of one entry of a run's `cases`: an int itself, or a dict's `id or case_id`. */
  function ItemCaseId(item: Json): Json
  {
    match item
    case JInt(_) => item
    case JBool(_) => item
    case JObject(_) => JOr(Field(item, "id"), Field(item, "case_id"))
    case _ => JNull
  }

  /** The source case id of one test of a run. */
  function TestCaseId(test: Json): Json
  {
    Field(test, "case_id")
  }

  /**
   * What one source case id contributes: nothing when it is falsy, else
   * `case_mapping.get(int(case_id))` when that is truthy; `int()` may raise.
   */
  function Target(id: Json, caseMapping: map<Json, Json>): (r: Reply<Option<Json>>)
    ensures r.Ok? && r.value.Some? ==> JTruthy(r.value.value) && r.value.value in caseMapping.Values
  {
    if !JTruthy(id) then Ok(None)
    else match IntOf(ToValue(id))
      case Raised(e) => Raised(e)
      case Ok(k) => Ok(if JInt(k) in caseMapping && JTruthy(caseMapping[JInt(k)]) then Some(caseMapping[JInt(k)]) else None)
  }

  /** Every target the entries map to, in order and with repeats; the first failing `int()` raises. */
  function MappedTargets(items: seq<Json>, idOf: Json -> Json, caseMapping: map<Json, Json>): Reply<seq<Json>>
  {
    if items == [] then Ok([])
    else
      var n := |items| - 1;
      match MappedTargets(items[..n], idOf, caseMapping)
      case Raised(e) => Raised(e)
      case Ok(ts) =>
        match Target(idOf(items[n]), caseMapping)
        case Raised(e) => Raised(e)
        case Ok(t) => Ok(if t.Some? then ts + [t.value] else ts)
  }

  /** Once an entry has raised, later entries change nothing. */
  lemma {:induction false} MappedTargetsRaised(xs: seq<Json>, ys: seq<Json>, idOf: Json -> Json, caseMapping: map<Json, Json>)
    requires MappedTargets(xs, idOf, caseMapping).Raised?
    ensures MappedTargets(xs + ys, idOf, caseMapping) == MappedTargets(xs, idOf, caseMapping)
    decreases |ys|
  {
    if ys == [] {
      assert xs + ys == xs;
    } else {
      var n := |ys| - 1;
      assert (xs + ys)[..|xs| + n] == xs + ys[..n];
      MappedTargetsRaised(xs, ys[..n], idOf, caseMapping);
    }
  }

  /**
   * When no entry raises, exactly the targets of the entries are listed,
   * each a truthy value of the case mapping.
   */
  lemma {:induction false} MappedTargetsOk(items: seq<Json>, idOf: Json -> Json, caseMapping: map<Json, Json>)
    requires MappedTargets(items, idOf, caseMapping).Ok?
    ensures forall i :: 0 <= i < |items| ==> Target(idOf(items[i]), caseMapping).Ok?
  {
    if items != [] {
      var n := |items| - 1;
      MappedTargetsOk(items[..n], idOf, caseMapping);
      forall i | 0 <= i < n ensures items[i] == items[..n][i] { }
    }
  }

  lemma {:induction false} MappedTargetsMembers(items: seq<Json>, idOf: Json -> Json, caseMapping: map<Json, Json>, t: Json)
    requires MappedTargets(items, idOf, caseMapping).Ok?
    ensures t in MappedTargets(items, idOf, caseMapping).value <==>
      exists i :: 0 <= i < |items| && Target(idOf(items[i]), caseMapping) == Ok(Some(t))
    ensures t in MappedTargets(items, idOf, caseMapping).value ==> JTruthy(t) && t in caseMapping.Values
  {
    if items != [] {
      var n := |items| - 1;
      var init := items[..n];
      assert MappedTargets(init, idOf, caseMapping).Ok?;
      MappedTargetsMembers(init, idOf, caseMapping, t);
      var ts := MappedTargets(init, idOf, caseMapping).value;
      var last := Target(idOf(items[n]), caseMapping);
      assert MappedTargets(items, idOf, caseMapping).value == if last.value.Some? then ts + [last.value.value] else ts;
      forall i | 0 <= i < n ensures items[i] == init[i] { }
      if t in MappedTargets(items, idOf, caseMapping).value && t !in ts {
        assert last == Ok(Some(t));
      }
      if exists i :: 0 <= i < |items| && Target(idOf(items[i]), caseMapping) == Ok(Some(t)) {
        var i :| 0 <= i < |items| && Target(idOf(items[i]), caseMapping) == Ok(Some(t));
        if i < n {
          assert Target(idOf(init[i]), caseMapping) == Ok(Some(t));
        }
      }
    }
  }

  /** The result of the loop that appends each target not yet listed. */
  function Deduped(r: Reply<seq<Json>>): Reply<seq<Json>>
  {
    match r case Ok(ts) => Ok(Dedup(ts)) case Raised(e) => Raised(e)
  }

  /** `run_result_dict.get('cases', [])`. */
  function CasesData(result: Json): Json
  {
    match Get(result, "cases") case Some(c) => c case None => JList([])
  }

  /**
   * How the `get_run(..., include='cases')` attempt ends: `Ok(Some(targets))`
   * when it returns them, `Ok(None)` when the response or its case data is
   * empty (the function then returns []), or the exception raised by the call,
   * by iterating the case data, or by `int()`.
   */
  function FromRun(getRun: Reply<Option<Json>>, caseMapping: map<Json, Json>): Reply<Option<seq<Json>>>
  {
    match getRun
    case Raised(e) => Raised(e)
    case Ok(None) => Ok(None)
    case Ok(Some(result)) =>
      var data := CasesData(result);
      if !JTruthy(data) then Ok(None)
      else match Iter(data)
        case None => Raised(NotIterable)
        case Some(items) =>
          match Deduped(MappedTargets(items, ItemCaseId, caseMapping))
          case Raised(e) => Raised(e)
          case Ok(ts) => Ok(Some(ts))
  }

  /** The exception that makes the function fall back to the tests of the run. */
  predicate MentionsInclude(e: Exc)
  {
    e.TypeError? && (Contains(Lower(e.message), "include") || Contains(Lower(e.message), "unexpected keyword"))
  }

  /** The fallback: the deduplicated targets of the tests, or [] when a page or an `int()` raises. */
  function TestTargets(tests: Scan<Json>, caseMapping: map<Json, Json>): seq<Json>
  {
    if tests.failure.Some? then []
    else match Deduped(MappedTargets(Items(tests), TestCaseId, caseMapping))
      case Ok(ts) => ts
      case Raised(_) => []
  }

  /** `extract_run_cases`, given the outcome of `get_run` and the scan of `get_tests`. */
  function RunCases(getRun: Reply<Option<Json>>, tests: Scan<Json>, caseMapping: map<Json, Json>): seq<Json>
  {
    match FromRun(getRun, caseMapping)
    case Ok(Some(ts)) => ts
    case Ok(None) => []
    case Raised(e) => if MentionsInclude(e) then TestTargets(tests, caseMapping) else []
  }

  /** A page of `get_tests`: an empty or result-less response ends the loop like an empty page. */
  function TestPages(tests: nat -> Reply<Option<seq<Json>>>): nat -> Reply<seq<Json>>
  {
    (off: nat) => match tests(off) case Raised(e) => Raised(e) case Ok(None) => Ok([]) case Ok(Some(p)) => Ok(p)
  }

  /**
   * `extract_run_cases`. `getRun` is the retried `get_run` call with its
   * `result` as a dict (`None` for an empty response); `tests(offset)` the
   * retried `get_tests` call, `None` for an empty response.
   */
  method ExtractRunCases(getRun: Reply<Option<Json>>, tests: nat -> Reply<Option<seq<Json>>>,
                         caseMapping: map<Json, Json>, ghost bound: nat)
    returns (targetCases: seq<Json>)
    requires Ends(TestPages(tests), TestsLimit, bound)
    ensures targetCases == RunCases(getRun, ScanFrom(TestPages(tests), TestsLimit, 0, bound), caseMapping)
  {
    var failure: Exc;
    match getRun {
      case Raised(e) =>
        failure := e;
      case Ok(None) =>
        return [];
      case Ok(Some(result)) =>
        var data := CasesData(result);
        if !JTruthy(data) {
          return [];
        }
        var items := Iter(data);
        if items.None? {
          failure := NotIterable;
        } else {
          var added := AddTargets([], [], items.value, ItemCaseId, caseMapping);
          assert [] + items.value == items.value;
          if added.Ok? {
            return added.value;
          }
          failure := added.exc;
        }
    }
    if MentionsInclude(failure) {
      targetCases := FromTests(tests, caseMapping, bound);
    } else {
      targetCases := [];
    }
  }

  /** The `get_tests` loop of the fallback. */
  method FromTests(tests: nat -> Reply<Option<seq<Json>>>, caseMapping: map<Json, Json>, ghost bound: nat)
    returns (targetCases: seq<Json>)
    requires Ends(TestPages(tests), TestsLimit, bound)
    ensures targetCases == TestTargets(ScanFrom(TestPages(tests), TestsLimit, 0, bound), caseMapping)
  {
    ghost var fetch := TestPages(tests);
    targetCases := [];
    var offset: nat := 0;
    ghost var seen: seq<Json> := [];
    ReadFromStart(fetch, TestsLimit, bound);
    while true
      invariant ReadUpTo(fetch, TestsLimit, bound, offset, seen)
      invariant MappedTargets(seen, TestCaseId, caseMapping).Ok?
      invariant targetCases == Dedup(MappedTargets(seen, TestCaseId, caseMapping).value)
      decreases if offset <= bound then bound - offset + 1 else 0
    {
      var response := tests(offset);
      TestsStop(fetch, offset, bound, seen, caseMapping);
      if response.Raised? {
        return [];
      }
      if response.value.None? || response.value.value == [] {
        return targetCases;
      }
      var entities := response.value.value;
      assert fetch(offset) == Ok(entities);
      var added := AddTargets(targetCases, seen, entities, TestCaseId, caseMapping);
      TestsPage(fetch, offset, bound, seen, entities, caseMapping);
      if added.Raised? {
        return [];
      }
      targetCases := added.value;
      if |entities| < TestsLimit {
        return targetCases;
      }
      seen := seen + entities;
      offset := offset + TestsLimit;
    }
  }

  /** What an exception or an empty page of tests means for the outcome of the whole loop. */
  lemma TestsStop(fetch: nat -> Reply<seq<Json>>, offset: nat, bound: nat, seen: seq<Json>,
                  caseMapping: map<Json, Json>)
    requires Ends(fetch, TestsLimit, bound)
    requires ReadUpTo(fetch, TestsLimit, bound, offset, seen)
    requires MappedTargets(seen, TestCaseId, caseMapping).Ok?
    ensures fetch(offset).Raised? ==> TestTargets(ScanFrom(fetch, TestsLimit, 0, bound), caseMapping) == []
    ensures fetch(offset) == Ok([]) ==>
      TestTargets(ScanFrom(fetch, TestsLimit, 0, bound), caseMapping)
        == Dedup(MappedTargets(seen, TestCaseId, caseMapping).value)
  {
    Turn(fetch, TestsLimit, bound, offset, seen);
    if fetch(offset) == Ok([]) {
      assert seen + [] == seen;
    }
  }

  /** What one non-empty page of tests means for the outcome of the whole loop. */
  lemma TestsPage(fetch: nat -> Reply<seq<Json>>, offset: nat, bound: nat, seen: seq<Json>,
                  entities: seq<Json>, caseMapping: map<Json, Json>)
    requires Ends(fetch, TestsLimit, bound)
    requires ReadUpTo(fetch, TestsLimit, bound, offset, seen)
    requires fetch(offset) == Ok(entities) && entities != []
    requires MappedTargets(seen, TestCaseId, caseMapping).Ok?
    ensures MappedTargets(seen + entities, TestCaseId, caseMapping).Raised? ==>
      TestTargets(ScanFrom(fetch, TestsLimit, 0, bound), caseMapping) == []
    ensures MappedTargets(seen + entities, TestCaseId, caseMapping).Ok? && |entities| < TestsLimit ==>
      TestTargets(ScanFrom(fetch, TestsLimit, 0, bound), caseMapping)
        == Dedup(MappedTargets(seen + entities, TestCaseId, caseMapping).value)
    ensures |entities| >= TestsLimit ==>
      offset < bound && ReadUpTo(fetch, TestsLimit, bound, offset + TestsLimit, seen + entities)
  {
    Turn(fetch, TestsLimit, bound, offset, seen);
    var rest := if |entities| < TestsLimit then [] else Items(ScanFrom(fetch, TestsLimit, offset + TestsLimit, bound));
    assert Items(ScanFrom(fetch, TestsLimit, 0, bound)) == (seen + entities) + rest;
    if MappedTargets(seen + entities, TestCaseId, caseMapping).Raised? {
      MappedTargetsRaised(seen + entities, rest, TestCaseId, caseMapping);
    }
  }

  /** The loop over one list of entries: each new target is appended; `int()` may raise. */
  method AddTargets(targets: seq<Json>, ghost before: seq<Json>, items: seq<Json>, idOf: Json -> Json,
                    caseMapping: map<Json, Json>)
    returns (r: Reply<seq<Json>>)
    requires MappedTargets(before, idOf, caseMapping).Ok?
    requires targets == Dedup(MappedTargets(before, idOf, caseMapping).value)
    ensures r == Deduped(MappedTargets(before + items, idOf, caseMapping))
  {
    var out := targets;
    assert before + items[..0] == before;
    for j := 0 to |items|
      invariant MappedTargets(before + items[..j], idOf, caseMapping).Ok?
      invariant out == Dedup(MappedTargets(before + items[..j], idOf, caseMapping).value)
    {
      var caseId := idOf(items[j]);
      var target := TargetOf(caseId, caseMapping);
      AddTargetAt(before, items, j, idOf, caseMapping);
      if target.Raised? {
        return Raised(target.exc);
      }
      if target.value.Some? && target.value.value !in out {
        out := out + [target.value.value];
      }
    }
    assert items[..|items|] == items;
    return Ok(out);
  }

  /** `AddTargetStep` at entry `j` of a list read after `before`; a raise there ends the whole list. */
  lemma AddTargetAt(before: seq<Json>, items: seq<Json>, j: nat, idOf: Json -> Json, caseMapping: map<Json, Json>)
    requires j < |items|
    requires MappedTargets(before + items[..j], idOf, caseMapping).Ok?
    ensures var ts := MappedTargets(before + items[..j], idOf, caseMapping).value;
      match Target(idOf(items[j]), caseMapping)
      case Raised(e) => MappedTargets(before + items, idOf, caseMapping) == Raised(e)
      case Ok(None) => MappedTargets(before + items[..j + 1], idOf, caseMapping) == Ok(ts)
      case Ok(Some(t)) =>
        && MappedTargets(before + items[..j + 1], idOf, caseMapping) == Ok(ts + [t])
        && Dedup(ts + [t]) == if t in Dedup(ts) then Dedup(ts) else Dedup(ts) + [t]
  {
    var xs := before + items[..j];
    assert before + items[..j + 1] == xs + [items[j]];
    AddTargetStep(xs, items[j], idOf, caseMapping);
    if Target(idOf(items[j]), caseMapping).Raised? {
      MappedTargetsRaised(xs + [items[j]], items[j + 1..], idOf, caseMapping);
      assert items[..j + 1] + items[j + 1..] == items;
      assert xs + [items[j]] + items[j + 1..] == before + items;
    }
  }

  /** What one more entry does to the deduplicated targets. */
  lemma AddTargetStep(xs: seq<Json>, x: Json, idOf: Json -> Json, caseMapping: map<Json, Json>)
    requires MappedTargets(xs, idOf, caseMapping).Ok?
    ensures var ts := MappedTargets(xs, idOf, caseMapping).value;
      match Target(idOf(x), caseMapping)
      case Raised(e) => MappedTargets(xs + [x], idOf, caseMapping) == Raised(e)
      case Ok(None) => MappedTargets(xs + [x], idOf, caseMapping) == Ok(ts)
      case Ok(Some(t)) =>
        && MappedTargets(xs + [x], idOf, caseMapping) == Ok(ts + [t])
        && Dedup(ts + [t]) == if t in Dedup(ts) then Dedup(ts) else Dedup(ts) + [t]
  {
    assert (xs + [x])[..|xs|] == xs;
    var ts := MappedTargets(xs, idOf, caseMapping).value;
    if Target(idOf(x), caseMapping).Ok? && Target(idOf(x), caseMapping).value.Some? {
      var t := Target(idOf(x), caseMapping).value.value;
      assert (ts + [t])[..|ts|] == ts;
    }
  }

  /** One entry's target, as the loop body computes it. */
  method TargetOf(id: Json, caseMapping: map<Json, Json>) returns (r: Reply<Option<Json>>)
    ensures r == Target(id, caseMapping)
  {
    if !JTruthy(id) {
      return Ok(None);
    }
    var source := IntOf(ToValue(id));
    if source.Raised? {
      return Raised(source.exc);
    }
    var k := JInt(source.value);
    if k in caseMapping && JTruthy(caseMapping[k]) {
      return Ok(Some(caseMapping[k]));
    }
    return Ok(None);
  }

  /**
   * The targets of a run come once each, in the order of their first
   * occurrence, and each is the truthy target of a mapped case.
   */
  lemma RunCasesMapped(getRun: Reply<Option<Json>>, tests: Scan<Json>, caseMapping: map<Json, Json>)
    ensures NoDup(RunCases(getRun, tests, caseMapping))
    ensures forall t :: t in RunCases(getRun, tests, caseMapping) ==> JTruthy(t) && t in caseMapping.Values
  {
    var first := FromRun(getRun, caseMapping);
    if first.Ok? && first.value.Some? {
      var items := Iter(CasesData(getRun.value.value)).value;
      forall t | t in RunCases(getRun, tests, caseMapping) ensures JTruthy(t) && t in caseMapping.Values {
        MappedTargetsMembers(items, ItemCaseId, caseMapping, t);
      }
    } else if first.Raised? && MentionsInclude(first.exc) && tests.failure.None? {
      var r := MappedTargets(Items(tests), TestCaseId, caseMapping);
      if r.Ok? {
        forall t | t in RunCases(getRun, tests, caseMapping) ensures JTruthy(t) && t in caseMapping.Values {
          MappedTargetsMembers(Items(tests), TestCaseId, caseMapping, t);
        }
      }
    }
  }
}
