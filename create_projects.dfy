// migration/create/projects.py: every selected source project is mapped to a
// target project: one that already has its code, a newly created one, or, when
// creation reports a conflict, the one that exists after all.

module CreateProjects {
  import opened Py
  import opened Utils
  import opened Paging
  import Seqs
  import ExtractProjects

  /**
   * The normalised answer of `get_project(code)` when it has a truthy status
   * and result: the result's `code` attribute (`None` when it has none) and
   * its `id`.
   */
  datatype Existing = Existing(code: Option<string>, id: Json)

  /**
   * The normalised answer of a truthy `create_project` response: the target
   * code when it is a non-empty string (`None` otherwise) and the target id.
   */
  datatype Created = Created(code: Option<string>, id: Json)

  /**
   * The target workspace's project calls. `lookup` is the first `get_project`
   * and `relookup` the one made after a conflict; `Ok(None)` stands for an
   * answer without status or result. `create` is `retry_with_backoff` around
   * `create_project` for the given source project, `Ok(None)` for a falsy
   * response or the retry's `None`.
   */
  datatype ProjectsTarget = ProjectsTarget(
    lookup: string -> Reply<Option<Existing>>,
    relookup: string -> Reply<Option<Existing>>,
    create: Json -> Reply<Option<Created>>)

  /** A 400 whose body says the project already exists. */
  predicate Conflict(e: Exc)
  {
    e.ApiException? && e.status == 400 && Contains(Lower(e.body), "already exists")
  }

  /**
   * `create_project`: the pair for the project, `None` when nothing was
   * mapped, or the exception that escapes. The existence check swallows all
   * its errors (a missing code among them); building the request raises
   * KeyError for a missing title or code, and the SDK model refuses a code
   * that is not a string.
   */
  function CreateProject(t: ProjectsTarget, p: Json): Reply<Option<ProjectPair>>
  {
    var id := Field(p, "id");
    var code := Get(p, "code");
    match (if code.Some? && code.value.JStr? then t.lookup(code.value.s) else Ok(None))
    case Ok(Some(ex)) =>
      Ok(Some(ProjectPair(code.value.s, if ex.code.Some? then ex.code.value else code.value.s, id, ex.id)))
    case _ =>
      if Get(p, "title").None? || code.None? then Raised(KeyError)
      else if !code.value.JStr? then Raised(TypeError("code"))
      else
        var c := code.value.s;
        match t.create(p)
        case Ok(None) => Ok(None)
        case Ok(Some(created)) =>
          if created.code.Some? then Ok(Some(ProjectPair(c, created.code.value, id, created.id)))
          else Ok(Some(ProjectPair(c, c, id, JNull)))
        case Raised(e) =>
          if !Conflict(e) then Raised(e)
          else match t.relookup(c)
            case Ok(Some(Existing(Some(target), targetId))) => Ok(Some(ProjectPair(c, target, id, targetId)))
            case _ => Ok(None)
  }

  /** The project table after a `create_project`: a returned pair is recorded, nothing else is. */
  function Recorded(table: map<string, string>, r: Reply<Option<ProjectPair>>): (t: map<string, string>)
    ensures r.Ok? && r.value.Some? ==> t == table[r.value.value.sourceCode := r.value.value.targetCode]
    ensures !(r.Ok? && r.value.Some?) ==> t == table
  {
    if r.Ok? && r.value.Some? then table[r.value.value.sourceCode := r.value.value.targetCode] else table
  }

  /** The pair's source code and id are the project's own. */
  lemma PairOfProject(t: ProjectsTarget, p: Json)
    requires CreateProject(t, p).Ok? && CreateProject(t, p).value.Some?
    ensures Get(p, "code").Some? && Get(p, "code").value == JStr(CreateProject(t, p).value.value.sourceCode)
    ensures CreateProject(t, p).value.value.sourceId == Field(p, "id")
  {
  }

  /**
   * A project whose code the target already has maps to the existing
   * project's code (its own when the answer has none) and nothing is
   * created: the outcome does not depend on `create`.
   */
  lemma ExistingNotCreated(t: ProjectsTarget, p: Json, create: Json -> Reply<Option<Created>>, ex: Existing)
    requires Get(p, "code").Some? && Get(p, "code").value.JStr?
    requires t.lookup(Get(p, "code").value.s) == Ok(Some(ex))
    ensures CreateProject(t, p) == CreateProject(t.(create := create), p)
    ensures CreateProject(t, p).Ok? && CreateProject(t, p).value.Some?
    ensures CreateProject(t, p).value.value.targetCode == if ex.code.Some? then ex.code.value else Get(p, "code").value.s
  {
  }

  /** Of the errors of the create call only the "already exists" conflict is handled; every other one escapes. */
  lemma CreateErrorsEscape(t: ProjectsTarget, p: Json, e: Exc)
    requires Get(p, "code").Some? && Get(p, "code").value.JStr? && Get(p, "title").Some?
    requires t.lookup(Get(p, "code").value.s).Raised? || t.lookup(Get(p, "code").value.s) == Ok(None)
    requires t.create(p) == Raised(e)
    ensures CreateProject(t, p).Raised? <==> !Conflict(e)
    ensures CreateProject(t, p).Raised? ==> CreateProject(t, p).exc == e
  {
  }

  /** `create_project`, writing the project table as it goes. */
  method CreateProjectIn(t: ProjectsTarget, p: Json, mappings: MigrationMappings) returns (r: Reply<Option<ProjectPair>>)
    modifies mappings`projects
    ensures r == CreateProject(t, p)
    ensures mappings.projects == Recorded(old(mappings.projects), r)
  {
    var id := Field(p, "id");
    var code := Get(p, "code");
    if code.Some? && code.value.JStr? {
      var existing := t.lookup(code.value.s);
      if existing.Ok? && existing.value.Some? {
        var ex := existing.value.value;
        var target := if ex.code.Some? then ex.code.value else code.value.s;
        mappings.projects := mappings.projects[code.value.s := target];
        return Ok(Some(ProjectPair(code.value.s, target, id, ex.id)));
      }
    }
    if Get(p, "title").None? || code.None? {
      return Raised(KeyError);
    }
    if !code.value.JStr? {
      return Raised(TypeError("code"));
    }
    var c := code.value.s;
    var response := t.create(p);
    match response
    case Ok(None) =>
      return Ok(None);
    case Ok(Some(created)) =>
      if created.code.Some? {
        mappings.projects := mappings.projects[c := created.code.value];
        return Ok(Some(ProjectPair(c, created.code.value, id, created.id)));
      }
      mappings.projects := mappings.projects[c := c];
      return Ok(Some(ProjectPair(c, c, id, JNull)));
    case Raised(e) =>
      if !Conflict(e) {
        return Raised(e);
      }
      var again := t.relookup(c);
      if again.Ok? && again.value.Some? && again.value.value.code.Some? {
        var target := again.value.value.code.value;
        mappings.projects := mappings.projects[c := target];
        return Ok(Some(ProjectPair(c, target, id, again.value.value.id)));
      }
      return Ok(None);
  }

  // ------------------------------------------------------------ migrate_projects

  /** The loop over the source projects so far: the returned pairs, the project table, and the exception that ended it. */
  datatype Run = Run(pairs: seq<ProjectPair>, table: map<string, string>, failure: Option<Exc>)

  /** The `create_project` outcome of each source project, in order. */
  function Outcomes(t: ProjectsTarget, projects: seq<Json>): (r: seq<Reply<Option<ProjectPair>>>)
    ensures |r| == |projects| && forall i :: 0 <= i < |projects| ==> r[i] == CreateProject(t, projects[i])
  {
    seq(|projects|, i requires 0 <= i < |projects| => CreateProject(t, projects[i]))
  }

  /** The loop over given outcomes: pairs appended and recorded, stopping at the first exception. */
  function Folded(table: map<string, string>, outs: seq<Reply<Option<ProjectPair>>>): Run
  {
    if outs == [] then Run([], table, None)
    else
      var r := Folded(table, outs[..|outs| - 1]);
      if r.failure.Some? then r
      else match outs[|outs| - 1]
        case Raised(e) => r.(failure := Some(e))
        case Ok(None) => r
        case Ok(Some(pair)) => Run(r.pairs + [pair], r.table[pair.sourceCode := pair.targetCode], None)
  }

  /** The loop of `migrate_projects` over the source projects. */
  function Migrated(t: ProjectsTarget, table: map<string, string>, projects: seq<Json>): Run
  {
    Folded(table, Outcomes(t, projects))
  }

  /**
   * Without an exception the returned list is exactly the mapped projects'
   * pairs, in source order: at most one per outcome, every pair one that
   * `create_project` returned, and every returned pair in the list. Each
   * returned code is in the project table.
   */
  lemma {:induction false} FoldedPairs(table: map<string, string>, outs: seq<Reply<Option<ProjectPair>>>)
    requires Folded(table, outs).failure.None?
    ensures |Folded(table, outs).pairs| <= |outs|
    ensures forall i :: 0 <= i < |outs| ==> outs[i].Ok?
    ensures forall pair :: pair in Folded(table, outs).pairs <==> exists i :: 0 <= i < |outs| && outs[i] == Ok(Some(pair))
    ensures forall pair :: pair in Folded(table, outs).pairs ==> pair.sourceCode in Folded(table, outs).table
  {
    if outs != [] {
      var n := |outs| - 1;
      var init := outs[..n];
      FoldedPairs(table, init);
      assert forall i :: 0 <= i < n ==> init[i] == outs[i];
      var r := Folded(table, init);
      var out := Folded(table, outs);
      forall pair | pair in out.pairs
        ensures exists i :: 0 <= i < |outs| && outs[i] == Ok(Some(pair))
      {
        if pair !in r.pairs {
          assert outs[n] == Ok(Some(pair));
        } else {
          var i :| 0 <= i < n && init[i] == Ok(Some(pair));
        }
      }
      forall pair | exists i :: 0 <= i < |outs| && outs[i] == Ok(Some(pair))
        ensures pair in out.pairs
      {
        var i :| 0 <= i < |outs| && outs[i] == Ok(Some(pair));
        if i < n {
          assert init[i] == Ok(Some(pair));
        }
      }
    }
  }

  /** The exception that ends the loop is the first one among the outcomes. */
  lemma {:induction false} FoldedFailure(table: map<string, string>, outs: seq<Reply<Option<ProjectPair>>>)
    requires Folded(table, outs).failure.Some?
    ensures exists i :: (0 <= i < |outs| && outs[i] == Raised(Folded(table, outs).failure.value)
      && forall j :: 0 <= j < i ==> outs[j].Ok?)
  {
    var n := |outs| - 1;
    var init := outs[..n];
    assert forall i :: 0 <= i < n ==> init[i] == outs[i];
    if Folded(table, init).failure.Some? {
      FoldedFailure(table, init);
      var i :| 0 <= i < n && init[i] == Raised(Folded(table, init).failure.value)
        && (forall j :: 0 <= j < i ==> init[j].Ok?);
    } else {
      FoldedPairs(table, init);
    }
  }

  /** Once the loop has stopped it stays stopped. */
  lemma {:induction false} FoldedStops(table: map<string, string>, outs: seq<Reply<Option<ProjectPair>>>, k: nat)
    requires k <= |outs| && Folded(table, outs[..k]).failure.Some?
    ensures Folded(table, outs) == Folded(table, outs[..k])
    decreases |outs| - k
  {
    if k < |outs| {
      assert outs[..k + 1][..k] == outs[..k];
      FoldedStops(table, outs, k + 1);
    } else {
      assert outs[..k] == outs;
    }
  }

  /** What `extract_projects(source_service, only_projects)` returns. */
  function SourceProjects(fetch: nat -> Reply<seq<Json>>, onlyProjects: seq<string>, bound: nat): Reply<seq<Json>>
    requires Ends(fetch, ExtractProjects.Limit, bound)
  {
    var s := ScanFrom(fetch, ExtractProjects.Limit, 0, bound);
    if s.failure.Some? then Raised(s.failure.value)
    else Ok(Seqs.Filter(Items(s), ExtractProjects.SelectedBy(onlyProjects)))
  }

  /**
   * `migrate_projects`: the pairs of the projects that were mapped. An
   * exception from the extraction or from a `create_project` escapes, with
   * the projects mapped before it kept in the table and no statistics.
   */
  method MigrateProjects(fetch: nat -> Reply<seq<Json>>, onlyProjects: seq<string>, ghost bound: nat, t: ProjectsTarget,
                         mappings: MigrationMappings, stats: MigrationStats) returns (r: Reply<seq<ProjectPair>>)
    requires Ends(fetch, ExtractProjects.Limit, bound)
    requires stats.Valid()
    modifies mappings`projects, stats
    ensures stats.Valid()
    ensures match SourceProjects(fetch, onlyProjects, bound)
      case Raised(e) => r == Raised(e) && mappings.projects == old(mappings.projects) && unchanged(stats)
      case Ok(source) =>
        var run := Migrated(t, old(mappings.projects), source);
        && mappings.projects == run.table
        && (run.failure.Some? ==> r == Raised(run.failure.value) && unchanged(stats))
        && (run.failure.None? ==>
              && r == Ok(run.pairs)
              && stats.processed == Accumulate(old(stats.processed), "projects", |source|)
              && stats.created == Accumulate(old(stats.created), "projects", |run.pairs|))
  {
    var extracted := ExtractProjects.ExtractProjects(fetch, onlyProjects, bound);
    if extracted.Raised? {
      return Raised(extracted.exc);
    }
    var source := extracted.value;
    r := ProjectLoop(t, source, mappings);
    if r.Ok? {
      stats.AddEntity("projects", |source|, |r.value|);
    }
  }

  /** The loop of `migrate_projects`: each project created in turn, the first exception escaping. */
  method ProjectLoop(t: ProjectsTarget, source: seq<Json>, mappings: MigrationMappings) returns (r: Reply<seq<ProjectPair>>)
    modifies mappings`projects
    ensures var run := Migrated(t, old(mappings.projects), source);
      && mappings.projects == run.table
      && (run.failure.Some? ==> r == Raised(run.failure.value))
      && (run.failure.None? ==> r == Ok(run.pairs))
  {
    ghost var start := mappings.projects;
    ghost var outs := Outcomes(t, source);
    var projects: seq<ProjectPair> := [];
    for i := 0 to |source|
      invariant Folded(start, outs[..i]) == Run(projects, mappings.projects, None)
    {
      assert outs[..i + 1][..i] == outs[..i];
      var result := CreateProjectIn(t, source[i], mappings);
      if result.Raised? {
        assert Folded(start, outs[..i + 1]).failure == Some(result.exc);
        FoldedStops(start, outs, i + 1);
        return Raised(result.exc);
      }
      if result.value.Some? {
        projects := projects + [result.value.value];
      }
    }
    assert outs[..|source|] == outs;
    return Ok(projects);
  }
}
