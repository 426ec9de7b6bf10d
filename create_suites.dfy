// migration/create/suites.py: suites are created top-down from the roots of
// the parent-child table, each with its parent's new id, so that a suite is
// only created once its parent has been.

module CreateSuites {
  import opened Py
  import opened Utils
  import opened Paging
  import ExtractSuites

  /** A `SuiteCreate`; `parentId` is null for a root. */
  datatype SuiteCreate = SuiteCreate(title: Json, description: Json, preconditions: Json, parentId: Json)

  /** The title: `title`, else `name`, else `"Suite <id>"`. */
  function Title(id: Json, suite: Json): (title: Json)
    ensures JTruthy(Field(suite, "title")) ==> title == Field(suite, "title")
    ensures !JTruthy(Field(suite, "title")) && JTruthy(Field(suite, "name")) ==> title == Field(suite, "name")
    ensures !JTruthy(Field(suite, "title")) && !JTruthy(Field(suite, "name")) ==> title == JStr("Suite " + StrOf(id))
  {
    var title := Field(suite, "title");
    if JTruthy(title) then title else JOr(Field(suite, "name"), JStr("Suite " + StrOf(id)))
  }

  function Payload(id: Json, suite: Json, parentTarget: Json): SuiteCreate
  {
    SuiteCreate(Title(id, suite), JOr(Field(suite, "description"), JStr("")), JOr(Field(suite, "preconditions"), JStr("")),
                parentTarget)
  }

  /** The children listed for a source id (`parent_child_map.get(id, [])`); the roots are those of null. */
  function Kids(t: ExtractSuites.SuiteTables, id: Json): seq<Json>
  {
    if id in t.parentChild then t.parentChild[id] else []
  }

  /**
   * A `create_suite` request: the source id, the source parent it was made
   * under (none for a root), what was sent and what the retried call answered.
   */
  datatype Call = Call(id: Json, parent: Option<Json>, payload: SuiteCreate, answer: Reply<Json>)

  /** The shared `suite_mapping` and the requests made so far. */
  datatype Walk = Walk(mapping: map<Json, Json>, calls: seq<Call>)

  /**
   * `migrate_suite_recursive(id, ..., parent_target_id)` with `fuel` calls
   * left before Python's recursion limit (running out raises RecursionError
   * in the caller). `create(payload)` answers the target id read from the
   * response (null when it has none). A raised create, or any exception
   * while the children are migrated, is logged and ends that suite's work.
   */
  function Visit(t: ExtractSuites.SuiteTables, create: SuiteCreate -> Reply<Json>, fuel: nat, id: Json,
                 parent: Option<Json>, parentTarget: Json, w: Walk): Reply<Walk>
    decreases fuel, 0
  {
    if fuel == 0 then Raised(RecursionError)
    else if id !in t.allSuites then Ok(w)
    else
      var payload := Payload(id, t.allSuites[id], parentTarget);
      var answer := create(payload);
      var w1 := w.(calls := w.calls + [Call(id, parent, payload, answer)]);
      if answer.Raised? || !JTruthy(answer.value) then Ok(w1)
      else Ok(Children(t, create, fuel - 1, Kids(t, id), id, answer.value, w1.(mapping := w1.mapping[id := answer.value])))
  }

  /** The loop over a suite's children, inside its `try`: an exception ends it. */
  function Children(t: ExtractSuites.SuiteTables, create: SuiteCreate -> Reply<Json>, fuel: nat, kids: seq<Json>,
                    parent: Json, target: Json, w: Walk): Walk
    decreases fuel, 1, |kids|
  {
    if kids == [] then w
    else match Visit(t, create, fuel, kids[0], Some(parent), target, w)
      case Raised(_) => w
      case Ok(w1) => Children(t, create, fuel, kids[1..], parent, target, w1)
  }

  /** The loop over the roots in `migrate_suites`; nothing catches there. */
  function Roots(t: ExtractSuites.SuiteTables, create: SuiteCreate -> Reply<Json>, fuel: nat, roots: seq<Json>, w: Walk): Reply<Walk>
  {
    if roots == [] then Ok(w)
    else match Visit(t, create, fuel, roots[0], None, JNull, w)
      case Raised(e) => Raised(e)
      case Ok(w1) => Roots(t, create, fuel, roots[1..], w1)
  }

  /** An id that is not in `all_suites` does nothing. */
  lemma VisitAbsent(t: ExtractSuites.SuiteTables, create: SuiteCreate -> Reply<Json>, fuel: nat, id: Json,
                    parent: Option<Json>, parentTarget: Json, w: Walk)
    requires fuel > 0 && id !in t.allSuites
    ensures Visit(t, create, fuel, id, parent, parentTarget, w) == Ok(w)
  {
  }

  // ------------------------------------------------------------ soundness

  /** The request was made with the parent's target id from an earlier successful request for the parent. */
  ghost predicate AfterParent(calls: seq<Call>, i: nat, p: Json, target: Json)
    requires i <= |calls|
  {
    exists j :: 0 <= j < i && calls[j].id == p && calls[j].answer == Ok(target) && JTruthy(target)
  }

  /**
   * Request `i` is for a suite of `all_suites`, answered by `create`, sent
   * with null as parent for a root, and otherwise for a listed child of a
   * suite that an earlier request had already created, under that new id.
   */
  ghost predicate CallOk(t: ExtractSuites.SuiteTables, create: SuiteCreate -> Reply<Json>, calls: seq<Call>, i: nat)
    requires i < |calls|
  {
    var c := calls[i];
    && c.id in t.allSuites
    && c.payload == Payload(c.id, t.allSuites[c.id], c.payload.parentId)
    && c.answer == create(c.payload)
    && (c.parent.None? ==> c.payload.parentId == JNull && c.id in Kids(t, JNull))
    && (c.parent.Some? ==> c.id in Kids(t, c.parent.value) && AfterParent(calls, i, c.parent.value, c.payload.parentId))
  }

  /** Every mapped suite was created by a request answering that id. */
  ghost predicate MappedByCall(w: Walk)
  {
    forall k :: k in w.mapping ==>
      exists i :: 0 <= i < |w.calls| && w.calls[i].id == k && w.calls[i].answer == Ok(w.mapping[k]) && JTruthy(w.mapping[k])
  }

  ghost predicate Sound(t: ExtractSuites.SuiteTables, create: SuiteCreate -> Reply<Json>, w: Walk)
  {
    (forall i :: 0 <= i < |w.calls| ==> CallOk(t, create, w.calls, i)) && MappedByCall(w)
  }

  ghost predicate Extends(w: Walk, out: Walk)
  {
    |w.calls| <= |out.calls| && out.calls[..|w.calls|] == w.calls && w.mapping.Keys <= out.mapping.Keys
  }

  /** Appending a request keeps the earlier requests sound. */
  lemma AppendCall(t: ExtractSuites.SuiteTables, create: SuiteCreate -> Reply<Json>, w: Walk, c: Call)
    requires Sound(t, create, w)
    ensures forall i :: 0 <= i < |w.calls| ==> CallOk(t, create, w.calls + [c], i)
    ensures MappedByCall(w.(calls := w.calls + [c]))
  {
    var calls := w.calls + [c];
    forall i | 0 <= i < |w.calls| ensures CallOk(t, create, calls, i) {
      assert CallOk(t, create, w.calls, i);
      assert calls[i] == w.calls[i];
      if w.calls[i].parent.Some? {
        var j :| 0 <= j < i && w.calls[j].id == w.calls[i].parent.value && w.calls[j].answer == Ok(w.calls[i].payload.parentId)
          && JTruthy(w.calls[i].payload.parentId);
        assert calls[j] == w.calls[j];
      }
    }
    forall k | k in w.mapping
      ensures exists i :: 0 <= i < |calls| && calls[i].id == k && calls[i].answer == Ok(w.mapping[k]) && JTruthy(w.mapping[k])
    {
      var i :| 0 <= i < |w.calls| && w.calls[i].id == k && w.calls[i].answer == Ok(w.mapping[k]) && JTruthy(w.mapping[k]);
      assert calls[i] == w.calls[i];
    }
  }

  /** An earlier successful request stays earlier as the requests grow. */
  lemma AfterParentKept(w: Walk, out: Walk, p: Json, target: Json)
    requires Extends(w, out) && AfterParent(w.calls, |w.calls|, p, target)
    ensures AfterParent(out.calls, |out.calls|, p, target)
  {
    var j :| 0 <= j < |w.calls| && w.calls[j].id == p && w.calls[j].answer == Ok(target) && JTruthy(target);
    assert out.calls[..|w.calls|][j] == out.calls[j];
  }

  /**
   * Parent before child: every request made for a child follows a successful
   * request for its parent and carries that new id, so the subtree of a suite
   * whose create failed or answered no id is never requested.
   */
  lemma {:induction false} VisitSound(t: ExtractSuites.SuiteTables, create: SuiteCreate -> Reply<Json>, fuel: nat, id: Json,
                                      parent: Option<Json>, parentTarget: Json, w: Walk)
    requires Sound(t, create, w)
    requires parent.None? ==> parentTarget == JNull && id in Kids(t, JNull)
    requires parent.Some? ==> id in Kids(t, parent.value) && AfterParent(w.calls, |w.calls|, parent.value, parentTarget)
    requires Visit(t, create, fuel, id, parent, parentTarget, w).Ok?
    ensures Sound(t, create, Visit(t, create, fuel, id, parent, parentTarget, w).value)
    ensures Extends(w, Visit(t, create, fuel, id, parent, parentTarget, w).value)
    decreases fuel, 0
  {
    if id in t.allSuites {
      var payload := Payload(id, t.allSuites[id], parentTarget);
      var answer := create(payload);
      var c := Call(id, parent, payload, answer);
      var w1 := w.(calls := w.calls + [c]);
      AppendCall(t, create, w, c);
      if parent.Some? {
        var j :| 0 <= j < |w.calls| && w.calls[j].id == parent.value && w.calls[j].answer == Ok(parentTarget) && JTruthy(parentTarget);
        assert w1.calls[j] == w.calls[j];
      }
      assert CallOk(t, create, w1.calls, |w.calls|);
      assert Sound(t, create, w1);
      assert w1.calls[..|w.calls|] == w.calls;
      if answer.Ok? && JTruthy(answer.value) {
        var w2 := w1.(mapping := w1.mapping[id := answer.value]);
        assert w2.calls[|w.calls|].answer == Ok(answer.value);
        assert MappedByCall(w2);
        assert AfterParent(w2.calls, |w2.calls|, id, answer.value);
        ChildrenSound(t, create, fuel - 1, Kids(t, id), id, answer.value, w2);
        var out := Children(t, create, fuel - 1, Kids(t, id), id, answer.value, w2);
        assert out.calls[..|w.calls|] == out.calls[..|w2.calls|][..|w.calls|];
      }
    }
  }

  lemma {:induction false} ChildrenSound(t: ExtractSuites.SuiteTables, create: SuiteCreate -> Reply<Json>, fuel: nat, kids: seq<Json>,
                                         parent: Json, target: Json, w: Walk)
    requires Sound(t, create, w)
    requires forall i :: 0 <= i < |kids| ==> kids[i] in Kids(t, parent)
    requires AfterParent(w.calls, |w.calls|, parent, target)
    ensures Sound(t, create, Children(t, create, fuel, kids, parent, target, w))
    ensures Extends(w, Children(t, create, fuel, kids, parent, target, w))
    decreases fuel, 1, |kids|
  {
    if kids != [] {
      var v := Visit(t, create, fuel, kids[0], Some(parent), target, w);
      if v.Ok? {
        VisitSound(t, create, fuel, kids[0], Some(parent), target, w);
        AfterParentKept(w, v.value, parent, target);
        ChildrenSound(t, create, fuel, kids[1..], parent, target, v.value);
        var out := Children(t, create, fuel, kids[1..], parent, target, v.value);
        assert out.calls[..|w.calls|] == out.calls[..|v.value.calls|][..|w.calls|];
      }
    }
  }

  lemma {:induction false} RootsSound(t: ExtractSuites.SuiteTables, create: SuiteCreate -> Reply<Json>, fuel: nat, roots: seq<Json>, w: Walk)
    requires Sound(t, create, w)
    requires forall i :: 0 <= i < |roots| ==> roots[i] in Kids(t, JNull)
    requires Roots(t, create, fuel, roots, w).Ok?
    ensures Sound(t, create, Roots(t, create, fuel, roots, w).value)
    decreases |roots|
  {
    if roots != [] {
      var v := Visit(t, create, fuel, roots[0], None, JNull, w);
      VisitSound(t, create, fuel, roots[0], None, JNull, w);
      RootsSound(t, create, fuel, roots[1..], v.value);
    }
  }

  /** The suites `migrate_suites` maps. */
  function Migrated(t: ExtractSuites.SuiteTables, create: SuiteCreate -> Reply<Json>, fuel: nat): Reply<Walk>
  {
    Roots(t, create, fuel, Kids(t, JNull), Walk(map[], []))
  }

  /**
   * Only suites reached from the roots through created parents are
   * requested, each under its parent's new id, and every mapped suite was
   * created by one of those requests.
   */
  lemma MigratedSound(t: ExtractSuites.SuiteTables, create: SuiteCreate -> Reply<Json>, fuel: nat)
    requires Migrated(t, create, fuel).Ok?
    ensures Sound(t, create, Migrated(t, create, fuel).value)
  {
    RootsSound(t, create, fuel, Kids(t, JNull), Walk(map[], []));
  }

  // --------------------------------------------------------------- methods

  method MigrateSuite(t: ExtractSuites.SuiteTables, create: SuiteCreate -> Reply<Json>, fuel: nat, id: Json,
                      parent: Option<Json>, parentTarget: Json, w: Walk) returns (r: Reply<Walk>)
    ensures r == Visit(t, create, fuel, id, parent, parentTarget, w)
    decreases fuel, 0
  {
    if fuel == 0 {
      return Raised(RecursionError);
    }
    if id !in t.allSuites {
      return Ok(w);
    }
    var payload := Payload(id, t.allSuites[id], parentTarget);
    var answer := create(payload);
    var walk := w.(calls := w.calls + [Call(id, parent, payload, answer)]);
    if answer.Raised? || !JTruthy(answer.value) {
      return Ok(walk);
    }
    walk := walk.(mapping := walk.mapping[id := answer.value]);
    walk := MigrateChildren(t, create, fuel - 1, Kids(t, id), id, answer.value, walk);
    return Ok(walk);
  }

  method MigrateChildren(t: ExtractSuites.SuiteTables, create: SuiteCreate -> Reply<Json>, fuel: nat, kids: seq<Json>,
                         parent: Json, target: Json, w: Walk) returns (r: Walk)
    ensures r == Children(t, create, fuel, kids, parent, target, w)
    decreases fuel, 1, |kids|
  {
    r := w;
    var i := 0;
    while i < |kids|
      invariant 0 <= i <= |kids|
      invariant Children(t, create, fuel, kids[i..], parent, target, r) == Children(t, create, fuel, kids, parent, target, w)
      decreases |kids| - i
    {
      var v := MigrateSuite(t, create, fuel, kids[i], Some(parent), target, r);
      assert kids[i..][1..] == kids[i + 1..];
      if v.Raised? {
        return;
      }
      r := v.value;
      i := i + 1;
    }
  }

  /**
   * `migrate_suites` for the project `code`: `extract_suites` on the source,
   * the walk from the roots, then the mapping merged into the project's
   * table; the processed count is the number of extracted suites.
   */
  method MigrateSuites(code: string, fetch: nat -> Reply<seq<Json>>, ghost bound: nat, create: SuiteCreate -> Reply<Json>,
                       fuel: nat, mappings: MigrationMappings, stats: MigrationStats)
    returns (r: Reply<map<Json, Json>>, ghost calls: seq<Call>)
    requires Ends(fetch, ExtractSuites.Limit, bound)
    requires stats.Valid()
    modifies mappings`suites, stats
    ensures stats.Valid()
    ensures var s := ScanFrom(fetch, ExtractSuites.Limit, 0, bound);
      if s.failure.Some? then r == Raised(s.failure.value) && unchanged(mappings`suites) && unchanged(stats)
      else
        var t := ExtractSuites.Tables(Items(s));
        var out := Migrated(t, create, fuel);
        if out.Raised? then r == Raised(out.exc) && unchanged(mappings`suites) && unchanged(stats)
        else
          && r == Ok(out.value.mapping) && calls == out.value.calls
          && mappings.suites == MergeInto(old(mappings.suites), code, out.value.mapping)
          && stats.processed == Accumulate(old(stats.processed), "suites", |t.allSuites|)
          && stats.created == Accumulate(old(stats.created), "suites", |out.value.mapping|)
  {
    calls := [];
    var tables := ExtractSuites.ExtractSuites(fetch, bound);
    if tables.Raised? {
      return Raised(tables.exc), [];
    }
    var t := tables.value;
    var roots := Kids(t, JNull);
    var walk := Walk(map[], []);
    var i := 0;
    while i < |roots|
      invariant 0 <= i <= |roots|
      invariant Roots(t, create, fuel, roots[i..], walk) == Roots(t, create, fuel, roots, Walk(map[], []))
      invariant unchanged(stats) && unchanged(mappings`suites)
    {
      var v := MigrateSuite(t, create, fuel, roots[i], None, JNull, walk);
      assert roots[i..][1..] == roots[i + 1..];
      if v.Raised? {
        return Raised(v.exc), [];
      }
      walk := v.value;
      i := i + 1;
    }
    mappings.suites := MergeInto(mappings.suites, code, walk.mapping);
    stats.AddEntity("suites", |t.allSuites|, |walk.mapping|);
    return Ok(walk.mapping), walk.calls;
  }
}
