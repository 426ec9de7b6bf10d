// migration/create/milestones.py: milestones are created top-down, from
// those without a parent to the children of each created milestone.

module CreateMilestones {
  import opened Py
  import opened Utils
  import Seqs

  /**
   * A `MilestoneCreate`; it has no parent field, so the parent passed down
   * the recursion never reaches the target. `dueDate` is the source value
   * (its date formatting is not modelled).
   */
  datatype MilestoneCreate = MilestoneCreate(title: Json, description: Json, status: Json, dueDate: Json)

  /** The payload: `title` is required, description defaults to `''` and status to `'active'` when absent. */
  function Payload(m: Json): (r: Reply<MilestoneCreate>)
    ensures r.Raised? <==> Get(m, "title").None?
    ensures r.Raised? ==> r.exc == KeyError
    ensures r.Ok? ==> r.value.title == Get(m, "title").value
    ensures r.Ok? ==> r.value.description == (if Get(m, "description").Some? then Get(m, "description").value else JStr(""))
    ensures r.Ok? ==> r.value.status == (if Get(m, "status").Some? then Get(m, "status").value else JStr("active"))
  {
    match Get(m, "title")
    case None => Raised(KeyError)
    case Some(title) =>
      var description := match Get(m, "description") case Some(d) => d case None => JStr("");
      var status := match Get(m, "status") case Some(s) => s case None => JStr("active");
      Ok(MilestoneCreate(title, description, status, Field(m, "due_date")))
  }

  /**
   * How the walk reads a milestone: its payload, its `id` and its
   * `parent_id`. The migration reads them with `Source`; the lemmas below
   * hold for any reading.
   */
  datatype Reading = Reading(payload: Json -> Reply<MilestoneCreate>, id: Json -> Json, parent: Json -> Json)

  function Source(): Reading
  {
    Reading(Payload, (m: Json) => Field(m, "id"), (m: Json) => Field(m, "parent_id"))
  }

  /** The milestones started from: those with a falsy `parent_id`. */
  predicate IsRoot(rd: Reading, m: Json)
  {
    !JTruthy(rd.parent(m))
  }

  function Roots(rd: Reading, milestones: seq<Json>): seq<Json>
  {
    Seqs.Filter(milestones, (m: Json) => IsRoot(rd, m))
  }

  /** The children of the source id `id`: the milestones whose `parent_id` equals it. */
  function ChildrenOf(rd: Reading, milestones: seq<Json>, id: Json): seq<Json>
  {
    Seqs.Filter(milestones, (m: Json) => rd.parent(m) == id)
  }

  /**
   * A `create_milestone` request: the milestone, the source id of the
   * milestone it was created under (none for a root), what was sent and what
   * the retried call answered: the target id when the response carries one
   * (it may be falsy when only `to_dict(result)['id']` had it), nothing when
   * the response is falsy or has no id.
   */
  datatype Call = Call(milestone: Json, parent: Option<Json>, payload: MilestoneCreate, answer: Reply<Option<Json>>)

  datatype Walk = Walk(mapping: map<Json, Json>, calls: seq<Call>)

  /**
   * `create_milestone_recursive` with `fuel` calls left before Python's
   * recursion limit. Nothing is caught: a missing title or a raised create
   * ends the whole migration of the project. Children are only visited when
   * the new id is truthy.
   */
  function Visit(rd: Reading, milestones: seq<Json>, create: MilestoneCreate -> Reply<Option<Json>>, fuel: nat, m: Json,
                 parent: Option<Json>, w: Walk): Reply<Walk>
    decreases fuel, 0
  {
    if fuel == 0 then Raised(RecursionError)
    else match rd.payload(m)
      case Raised(e) => Raised(e)
      case Ok(payload) =>
        var answer := create(payload);
        var w1 := w.(calls := w.calls + [Call(m, parent, payload, answer)]);
        match answer
        case Raised(e) => Raised(e)
        case Ok(None) => Ok(w1)
        case Ok(Some(target)) =>
          var id := rd.id(m);
          var w2 := w1.(mapping := w1.mapping[id := target]);
          if JTruthy(target) then Children(rd, milestones, create, fuel - 1, ChildrenOf(rd, milestones, id), id, w2) else Ok(w2)
  }

  function Children(rd: Reading, milestones: seq<Json>, create: MilestoneCreate -> Reply<Option<Json>>, fuel: nat, kids: seq<Json>,
                    parent: Json, w: Walk): Reply<Walk>
    decreases fuel, 1, |kids|
  {
    if kids == [] then Ok(w)
    else match Visit(rd, milestones, create, fuel, kids[0], Some(parent), w)
      case Raised(e) => Raised(e)
      case Ok(w1) => Children(rd, milestones, create, fuel, kids[1..], parent, w1)
  }

  /** The loop over the roots in `migrate_milestones`. */
  function FromRoots(rd: Reading, milestones: seq<Json>, create: MilestoneCreate -> Reply<Option<Json>>, fuel: nat,
                     roots: seq<Json>, w: Walk): Reply<Walk>
  {
    if roots == [] then Ok(w)
    else match Visit(rd, milestones, create, fuel, roots[0], None, w)
      case Raised(e) => Raised(e)
      case Ok(w1) => FromRoots(rd, milestones, create, fuel, roots[1..], w1)
  }

  function Migrated(milestones: seq<Json>, create: MilestoneCreate -> Reply<Option<Json>>, fuel: nat): Reply<Walk>
  {
    FromRoots(Source(), milestones, create, fuel, Roots(Source(), milestones), Walk(map[], []))
  }

  // ------------------------------------------------------------ soundness

  /** An earlier request for the source id `p` answered a truthy target id. */
  ghost predicate AfterParent(rd: Reading, calls: seq<Call>, i: nat, p: Json)
    requires i <= |calls|
  {
    exists j :: 0 <= j < i && rd.id(calls[j].milestone) == p && calls[j].answer.Ok? && calls[j].answer.value.Some?
      && JTruthy(calls[j].answer.value.value)
  }

  /**
   * Request `i` is for a listed milestone, sends its payload and is answered
   * by `create`; a root has a falsy `parent_id`, and any other milestone was
   * reached from an earlier request that created its parent.
   */
  ghost predicate CallOk(rd: Reading, milestones: seq<Json>, create: MilestoneCreate -> Reply<Option<Json>>, calls: seq<Call>, i: nat)
    requires i < |calls|
  {
    var c := calls[i];
    && c.milestone in milestones
    && rd.payload(c.milestone) == Ok(c.payload)
    && c.answer == create(c.payload)
    && (c.parent.None? ==> IsRoot(rd, c.milestone))
    && (c.parent.Some? ==> rd.parent(c.milestone) == c.parent.value && AfterParent(rd, calls, i, c.parent.value))
  }

  /** Every mapped id was answered by a request for a milestone with that id. */
  ghost predicate MappedByCall(rd: Reading, w: Walk)
  {
    forall k :: k in w.mapping ==>
      exists i :: 0 <= i < |w.calls| && rd.id(w.calls[i].milestone) == k && w.calls[i].answer == Ok(Some(w.mapping[k]))
  }

  ghost predicate Sound(rd: Reading, milestones: seq<Json>, create: MilestoneCreate -> Reply<Option<Json>>, w: Walk)
  {
    (forall i :: 0 <= i < |w.calls| ==> CallOk(rd, milestones, create, w.calls, i)) && MappedByCall(rd, w)
  }

  ghost predicate Extends(w: Walk, out: Walk)
  {
    |w.calls| <= |out.calls| && out.calls[..|w.calls|] == w.calls
  }

  lemma ExtendsTrans(a: Walk, b: Walk, c: Walk)
    requires Extends(a, b) && Extends(b, c)
    ensures Extends(a, c)
  {
    assert c.calls[..|a.calls|] == c.calls[..|b.calls|][..|a.calls|];
  }

  lemma AppendCall(rd: Reading, milestones: seq<Json>, create: MilestoneCreate -> Reply<Option<Json>>, w: Walk, c: Call)
    requires Sound(rd, milestones, create, w)
    ensures forall i :: 0 <= i < |w.calls| ==> CallOk(rd, milestones, create, w.calls + [c], i)
    ensures MappedByCall(rd, w.(calls := w.calls + [c]))
  {
    var calls := w.calls + [c];
    forall i | 0 <= i < |w.calls| ensures CallOk(rd, milestones, create, calls, i) {
      assert CallOk(rd, milestones, create, w.calls, i);
      assert calls[i] == w.calls[i];
      if w.calls[i].parent.Some? {
        var p := w.calls[i].parent.value;
        var j :| 0 <= j < i && rd.id(w.calls[j].milestone) == p && w.calls[j].answer.Ok? && w.calls[j].answer.value.Some?
          && JTruthy(w.calls[j].answer.value.value);
        assert calls[j] == w.calls[j];
      }
    }
    forall k | k in w.mapping
      ensures exists i :: 0 <= i < |calls| && rd.id(calls[i].milestone) == k && calls[i].answer == Ok(Some(w.mapping[k]))
    {
      var i :| 0 <= i < |w.calls| && rd.id(w.calls[i].milestone) == k && w.calls[i].answer == Ok(Some(w.mapping[k]));
      assert calls[i] == w.calls[i];
    }
  }

  lemma AfterParentKept(rd: Reading, w: Walk, out: Walk, p: Json)
    requires Extends(w, out) && AfterParent(rd, w.calls, |w.calls|, p)
    ensures AfterParent(rd, out.calls, |out.calls|, p)
  {
    var j :| 0 <= j < |w.calls| && rd.id(w.calls[j].milestone) == p && w.calls[j].answer.Ok? && w.calls[j].answer.value.Some?
      && JTruthy(w.calls[j].answer.value.value);
    assert out.calls[..|w.calls|][j] == out.calls[j];
  }

  /** The request for `m` keeps the requests sound. */
  lemma CallSound(rd: Reading, milestones: seq<Json>, create: MilestoneCreate -> Reply<Option<Json>>, m: Json, parent: Option<Json>, w: Walk)
    requires Sound(rd, milestones, create, w) && m in milestones && rd.payload(m).Ok?
    requires parent.None? ==> IsRoot(rd, m)
    requires parent.Some? ==> rd.parent(m) == parent.value && AfterParent(rd, w.calls, |w.calls|, parent.value)
    ensures var c := Call(m, parent, rd.payload(m).value, create(rd.payload(m).value));
      Sound(rd, milestones, create, w.(calls := w.calls + [c])) && Extends(w, w.(calls := w.calls + [c]))
  {
    var payload := rd.payload(m).value;
    var c := Call(m, parent, payload, create(payload));
    var w1 := w.(calls := w.calls + [c]);
    AppendCall(rd, milestones, create, w, c);
    if parent.Some? {
      var p := parent.value;
      var j :| 0 <= j < |w.calls| && rd.id(w.calls[j].milestone) == p && w.calls[j].answer.Ok? && w.calls[j].answer.value.Some?
        && JTruthy(w.calls[j].answer.value.value);
      assert w1.calls[j] == w.calls[j];
    }
    assert CallOk(rd, milestones, create, w1.calls, |w.calls|);
    assert w1.calls[..|w.calls|] == w.calls;
  }

  /** Recording the answer of the last request keeps the mapping sound and makes it a parent. */
  lemma RecordSound(rd: Reading, milestones: seq<Json>, create: MilestoneCreate -> Reply<Option<Json>>, w: Walk, target: Json)
    requires Sound(rd, milestones, create, w) && w.calls != []
    requires w.calls[|w.calls| - 1].answer == Ok(Some(target))
    ensures var id := rd.id(w.calls[|w.calls| - 1].milestone);
      Sound(rd, milestones, create, w.(mapping := w.mapping[id := target]))
      && (JTruthy(target) ==> AfterParent(rd, w.calls, |w.calls|, id))
  {
  }

  /** The children of `id` are listed milestones naming it. */
  lemma ChildrenListed(rd: Reading, milestones: seq<Json>, id: Json)
    ensures forall i :: 0 <= i < |ChildrenOf(rd, milestones, id)| ==>
      ChildrenOf(rd, milestones, id)[i] in milestones && rd.parent(ChildrenOf(rd, milestones, id)[i]) == id
  {
    var kids := ChildrenOf(rd, milestones, id);
    forall i | 0 <= i < |kids| ensures kids[i] in milestones && rd.parent(kids[i]) == id {
      Seqs.FilterMembers(milestones, (m: Json) => rd.parent(m) == id, kids[i]);
    }
  }

  /**
   * Parent before child: each request for a non-root milestone follows a
   * request that created its parent with a truthy id, and the milestone
   * names that parent; every mapped id comes from a request's answer.
   */
  lemma {:induction false} VisitSound(rd: Reading, milestones: seq<Json>, create: MilestoneCreate -> Reply<Option<Json>>, fuel: nat,
                                      m: Json, parent: Option<Json>, w: Walk)
    requires Sound(rd, milestones, create, w) && m in milestones
    requires parent.None? ==> IsRoot(rd, m)
    requires parent.Some? ==> rd.parent(m) == parent.value && AfterParent(rd, w.calls, |w.calls|, parent.value)
    requires Visit(rd, milestones, create, fuel, m, parent, w).Ok?
    ensures Sound(rd, milestones, create, Visit(rd, milestones, create, fuel, m, parent, w).value)
    ensures Extends(w, Visit(rd, milestones, create, fuel, m, parent, w).value)
    decreases fuel, 0
  {
    var payload := rd.payload(m).value;
    var answer := create(payload);
    var w1 := w.(calls := w.calls + [Call(m, parent, payload, answer)]);
    CallSound(rd, milestones, create, m, parent, w);
    if answer.value.Some? {
      var id := rd.id(m);
      var target := answer.value.value;
      RecordSound(rd, milestones, create, w1, target);
      var w2 := w1.(mapping := w1.mapping[id := target]);
      if JTruthy(target) {
        var kids := ChildrenOf(rd, milestones, id);
        ChildrenListed(rd, milestones, id);
        ChildrenSound(rd, milestones, create, fuel - 1, kids, id, w2);
        ExtendsTrans(w, w2, Children(rd, milestones, create, fuel - 1, kids, id, w2).value);
      }
    }
  }

  lemma {:induction false} ChildrenSound(rd: Reading, milestones: seq<Json>, create: MilestoneCreate -> Reply<Option<Json>>, fuel: nat,
                                         kids: seq<Json>, parent: Json, w: Walk)
    requires Sound(rd, milestones, create, w)
    requires forall i :: 0 <= i < |kids| ==> kids[i] in milestones && rd.parent(kids[i]) == parent
    requires AfterParent(rd, w.calls, |w.calls|, parent)
    requires Children(rd, milestones, create, fuel, kids, parent, w).Ok?
    ensures Sound(rd, milestones, create, Children(rd, milestones, create, fuel, kids, parent, w).value)
    ensures Extends(w, Children(rd, milestones, create, fuel, kids, parent, w).value)
    decreases fuel, 1, |kids|
  {
    if kids != [] {
      var v := Visit(rd, milestones, create, fuel, kids[0], Some(parent), w).value;
      VisitSound(rd, milestones, create, fuel, kids[0], Some(parent), w);
      AfterParentKept(rd, w, v, parent);
      ChildrenSound(rd, milestones, create, fuel, kids[1..], parent, v);
      ExtendsTrans(w, v, Children(rd, milestones, create, fuel, kids[1..], parent, v).value);
    }
  }

  lemma {:induction false} RootsSound(rd: Reading, milestones: seq<Json>, create: MilestoneCreate -> Reply<Option<Json>>, fuel: nat,
                                      roots: seq<Json>, w: Walk)
    requires Sound(rd, milestones, create, w)
    requires forall i :: 0 <= i < |roots| ==> roots[i] in milestones && IsRoot(rd, roots[i])
    requires FromRoots(rd, milestones, create, fuel, roots, w).Ok?
    ensures Sound(rd, milestones, create, FromRoots(rd, milestones, create, fuel, roots, w).value)
    decreases |roots|
  {
    if roots != [] {
      var v := Visit(rd, milestones, create, fuel, roots[0], None, w);
      VisitSound(rd, milestones, create, fuel, roots[0], None, w);
      RootsSound(rd, milestones, create, fuel, roots[1..], v.value);
    }
  }

  /**
   * Only milestones reached from the roots through created parents are
   * requested, and every mapped id was answered by one of those requests.
   */
  lemma MigratedSound(milestones: seq<Json>, create: MilestoneCreate -> Reply<Option<Json>>, fuel: nat)
    requires Migrated(milestones, create, fuel).Ok?
    ensures Sound(Source(), milestones, create, Migrated(milestones, create, fuel).value)
  {
    var roots := Roots(Source(), milestones);
    forall i | 0 <= i < |roots| ensures roots[i] in milestones && IsRoot(Source(), roots[i]) {
      Seqs.FilterMembers(milestones, (m: Json) => IsRoot(Source(), m), roots[i]);
    }
    RootsSound(Source(), milestones, create, fuel, roots, Walk(map[], []));
  }

  // --------------------------------------------------------------- methods

  /** `create_milestone_recursive`, for any reading of the milestones. */
  method CreateMilestone(rd: Reading, milestones: seq<Json>, create: MilestoneCreate -> Reply<Option<Json>>, fuel: nat, m: Json,
                         parent: Option<Json>, w: Walk) returns (r: Reply<Walk>)
    ensures r == Visit(rd, milestones, create, fuel, m, parent, w)
    decreases fuel, 0
  {
    if fuel == 0 {
      return Raised(RecursionError);
    }
    var payload := rd.payload(m);
    if payload.Raised? {
      return Raised(payload.exc);
    }
    var answer := create(payload.value);
    var walk := w.(calls := w.calls + [Call(m, parent, payload.value, answer)]);
    if answer.Raised? {
      return Raised(answer.exc);
    }
    if answer.value.None? {
      return Ok(walk);
    }
    var id := rd.id(m);
    var target := answer.value.value;
    walk := walk.(mapping := walk.mapping[id := target]);
    if !JTruthy(target) {
      return Ok(walk);
    }
    var children := ListChildren(rd, milestones, id);
    r := CreateChildren(rd, milestones, create, fuel - 1, children, id, walk);
  }

  /** The list comprehension for the children of `id`. */
  method ListChildren(rd: Reading, milestones: seq<Json>, id: Json) returns (children: seq<Json>)
    ensures children == ChildrenOf(rd, milestones, id)
  {
    children := [];
    for i := 0 to |milestones|
      invariant children == ChildrenOf(rd, milestones[..i], id)
    {
      assert milestones[..i + 1][..i] == milestones[..i];
      if rd.parent(milestones[i]) == id {
        children := children + [milestones[i]];
      }
    }
    assert milestones[..|milestones|] == milestones;
  }

  method CreateChildren(rd: Reading, milestones: seq<Json>, create: MilestoneCreate -> Reply<Option<Json>>, fuel: nat, kids: seq<Json>,
                        parent: Json, w: Walk) returns (r: Reply<Walk>)
    ensures r == Children(rd, milestones, create, fuel, kids, parent, w)
    decreases fuel, 1, |kids|
  {
    var walk := w;
    var i := 0;
    while i < |kids|
      invariant 0 <= i <= |kids|
      invariant Children(rd, milestones, create, fuel, kids[i..], parent, walk) == Children(rd, milestones, create, fuel, kids, parent, w)
      decreases |kids| - i
    {
      var v := CreateMilestone(rd, milestones, create, fuel, kids[i], Some(parent), walk);
      assert kids[i..][1..] == kids[i + 1..];
      if v.Raised? {
        return Raised(v.exc);
      }
      walk := v.value;
      i := i + 1;
    }
    return Ok(walk);
  }

  /**
   * `migrate_milestones` for the project `code`, given what
   * `extract_milestones` returned: the walk from the roots, then the mapping
   * merged into the project's table and the counts recorded.
   */
  method MigrateMilestones(code: string, milestones: seq<Json>, create: MilestoneCreate -> Reply<Option<Json>>, fuel: nat,
                           mappings: MigrationMappings, stats: MigrationStats)
    returns (r: Reply<map<Json, Json>>, ghost calls: seq<Call>)
    requires stats.Valid()
    modifies mappings`milestones, stats
    ensures stats.Valid()
    ensures var out := Migrated(milestones, create, fuel);
      if out.Raised? then r == Raised(out.exc) && unchanged(mappings`milestones) && unchanged(stats)
      else
        && r == Ok(out.value.mapping) && calls == out.value.calls
        && mappings.milestones == MergeInto(old(mappings.milestones), code, out.value.mapping)
        && stats.processed == Accumulate(old(stats.processed), "milestones", |milestones|)
        && stats.created == Accumulate(old(stats.created), "milestones", |out.value.mapping|)
  {
    calls := [];
    var roots: seq<Json> := [];
    for i := 0 to |milestones|
      invariant roots == Roots(Source(), milestones[..i])
    {
      assert milestones[..i + 1][..i] == milestones[..i];
      if !JTruthy(Field(milestones[i], "parent_id")) {
        roots := roots + [milestones[i]];
      }
    }
    assert milestones[..|milestones|] == milestones;
    var walk := Walk(map[], []);
    var i := 0;
    while i < |roots|
      invariant 0 <= i <= |roots|
      invariant FromRoots(Source(), milestones, create, fuel, roots[i..], walk) ==
        FromRoots(Source(), milestones, create, fuel, roots, Walk(map[], []))
      invariant unchanged(stats) && unchanged(mappings`milestones)
    {
      var v := CreateMilestone(Source(), milestones, create, fuel, roots[i], None, walk);
      assert roots[i..][1..] == roots[i + 1..];
      if v.Raised? {
        return Raised(v.exc), [];
      }
      walk := v.value;
      i := i + 1;
    }
    mappings.milestones := MergeInto(mappings.milestones, code, walk.mapping);
    stats.AddEntity("milestones", |milestones|, |walk.mapping|);
    return Ok(walk.mapping), walk.calls;
  }
}
