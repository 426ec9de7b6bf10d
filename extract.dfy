// The extractors that read one kind of entity from the source workspace with
// the offset/limit loop and keep, filter or index what they read.

// migration/extract/cases.py
module ExtractCases {
  import opened Py
  import opened Paging

  /**
   * `extract_cases`: the cases of a project, page by page. `fetch(offset)` is
   * the retried `get_cases` call at that offset, its entities as dicts; an
   * exception it raises propagates. The limit is the caller's: 100, or 20 for
   * enterprise workspaces in `migrate_cases`.
   */
  method ExtractCases(fetch: nat -> Reply<seq<Json>>, limit: nat, ghost bound: nat) returns (r: Reply<seq<Json>>)
    requires limit > 0 && Ends(fetch, limit, bound)
    ensures r == Outcome(ScanFrom(fetch, limit, 0, bound))
  {
    r := ReadAll(fetch, limit, bound);
  }
}

// migration/extract/projects.py
module ExtractProjects {
  import opened Py
  import Utils
  import opened Paging
  import opened Seqs

  const Limit: nat := 100

  /** `project.get('code', 'UNKNOWN')`: a missing code reads as 'UNKNOWN'; a null one stays null. */
  function ProjectCode(project: Json): Json
  {
    match Get(project, "code") case Some(c) => c case None => JStr("UNKNOWN")
  }

  /** Kept when there is no filter (`only_projects` empty or None), or the code is one of the listed ones. */
  predicate Selected(project: Json, onlyProjects: seq<string>)
  {
    onlyProjects == [] || (ProjectCode(project).JStr? && ProjectCode(project).s in onlyProjects)
  }

  function SelectedBy(onlyProjects: seq<string>): Json -> bool
  {
    p => Selected(p, onlyProjects)
  }

  /** `extract_projects`: the selected projects, in extraction order. */
  method ExtractProjects(fetch: nat -> Reply<seq<Json>>, onlyProjects: seq<string>, ghost bound: nat)
    returns (r: Reply<seq<Json>>)
    requires Ends(fetch, Limit, bound)
    ensures var s := ScanFrom(fetch, Limit, 0, bound);
      r == if s.failure.Some? then Raised(s.failure.value) else Ok(Filter(Items(s), SelectedBy(onlyProjects)))
  {
    var projects: seq<Json> := [];
    var offset: nat := 0;
    ghost var seen: seq<Json> := [];
    ReadFromStart(fetch, Limit, bound);
    while true
      invariant ReadUpTo(fetch, Limit, bound, offset, seen)
      invariant projects == Filter(seen, SelectedBy(onlyProjects))
      decreases if offset <= bound then bound - offset + 1 else 0
    {
      var response := fetch(offset);
      Turn(fetch, Limit, bound, offset, seen);
      if response.Raised? {
        return Raised(response.exc);
      }
      var entities := response.value;
      if entities == [] {
        assert seen + entities == seen;
        return Ok(projects);
      }
      projects := SelectFrom(projects, seen, entities, onlyProjects);
      if |entities| < Limit {
        return Ok(projects);
      }
      seen := seen + entities;
      offset := offset + Limit;
    }
  }

  /** The loop over one page: each selected project is appended. */
  method SelectFrom(projects: seq<Json>, ghost before: seq<Json>, entities: seq<Json>, onlyProjects: seq<string>)
    returns (r: seq<Json>)
    requires projects == Filter(before, SelectedBy(onlyProjects))
    ensures r == Filter(before + entities, SelectedBy(onlyProjects))
  {
    r := projects;
    assert before + entities[..0] == before;
    for j := 0 to |entities|
      invariant r == Filter(before + entities[..j], SelectedBy(onlyProjects))
    {
      ghost var xs := before + entities[..j + 1];
      assert xs[..|xs| - 1] == before + entities[..j] && xs[|xs| - 1] == entities[j];
      if Selected(entities[j], onlyProjects) {
        r := r + [entities[j]];
      }
    }
    assert entities[..|entities|] == entities;
  }

  /** With a filter, exactly the read projects whose code is listed are kept; a missing code counts as 'UNKNOWN'. */
  lemma KeptProjects(projects: seq<Json>, onlyProjects: seq<string>, p: Json)
    requires onlyProjects != []
    ensures p in Filter(projects, SelectedBy(onlyProjects)) <==>
      p in projects && ProjectCode(p).JStr? && ProjectCode(p).s in onlyProjects
    ensures Get(p, "code").None? ==> (p in Filter(projects, SelectedBy(onlyProjects)) <==> p in projects && "UNKNOWN" in onlyProjects)
  {
    FilterMembers(projects, SelectedBy(onlyProjects), p);
  }
}

// migration/extract/users.py
module ExtractUsers {
  import opened Py
  import Utils
  import opened Paging
  import opened Seqs

  const Limit: nat := 100

  /** `user.get('email', '')`. */
  function Email(user: Json): Json
  {
    match Get(user, "email") case Some(e) => e case None => JStr("")
  }

  /** `user.get('id')`. */
  function UserId(user: Json): Json
  {
    Field(user, "id")
  }

  /** `extract_users`: email to source id for every author of type user; a later duplicate email overwrites. */
  method ExtractUsers(fetch: nat -> Reply<seq<Json>>, ghost bound: nat) returns (r: Reply<map<Json, Json>>)
    requires Ends(fetch, Limit, bound)
    ensures var s := ScanFrom(fetch, Limit, 0, bound);
      r == if s.failure.Some? then Raised(s.failure.value) else Ok(Index(Items(s), Email, UserId))
  {
    r := IndexAll(fetch, Limit, bound, Email, UserId);
  }

  /**
   * One entry per distinct email seen (a missing email is the key ''), each
   * holding the id of the last user with that email.
   */
  lemma UsersByEmail(users: seq<Json>, email: Json)
    ensures email in Index(users, Email, UserId) <==> exists i :: 0 <= i < |users| && Email(users[i]) == email
    ensures email in Index(users, Email, UserId) ==>
      exists i :: 0 <= i < |users| && Email(users[i]) == email && Index(users, Email, UserId)[email] == UserId(users[i])
        && forall j :: i < j < |users| ==> Email(users[j]) != email
    ensures |Index(users, Email, UserId)| <= |users|
  {
    IndexLastWins(users, Email, UserId, email);
    IndexSize(users, Email, UserId);
  }
}

// migration/extract/shared_steps.py
module ExtractSharedSteps {
  import opened Py
  import Utils
  import opened Paging
  import opened Seqs

  const Limit: nat := 100

  /** A step is kept when its `hash` is truthy. */
  predicate HasHash(step: Json)
  {
    JTruthy(Field(step, "hash"))
  }

  /** `extract_shared_steps`: the steps that have a hash, in extraction order. */
  method ExtractSharedSteps(fetch: nat -> Reply<seq<Json>>, ghost bound: nat) returns (r: Reply<seq<Json>>)
    requires Ends(fetch, Limit, bound)
    ensures var s := ScanFrom(fetch, Limit, 0, bound);
      r == if s.failure.Some? then Raised(s.failure.value) else Ok(Filter(Items(s), HasHash))
  {
    var sharedSteps: seq<Json> := [];
    var offset: nat := 0;
    ghost var seen: seq<Json> := [];
    ReadFromStart(fetch, Limit, bound);
    while true
      invariant ReadUpTo(fetch, Limit, bound, offset, seen)
      invariant sharedSteps == Filter(seen, HasHash)
      decreases if offset <= bound then bound - offset + 1 else 0
    {
      var response := fetch(offset);
      Turn(fetch, Limit, bound, offset, seen);
      if response.Raised? {
        return Raised(response.exc);
      }
      var entities := response.value;
      if entities == [] {
        assert seen + entities == seen;
        return Ok(sharedSteps);
      }
      sharedSteps := KeepHashed(sharedSteps, seen, entities);
      if |entities| < Limit {
        return Ok(sharedSteps);
      }
      seen := seen + entities;
      offset := offset + Limit;
    }
  }

  /** The loop over one page: each step with a hash is appended. */
  method KeepHashed(sharedSteps: seq<Json>, ghost before: seq<Json>, entities: seq<Json>) returns (r: seq<Json>)
    requires sharedSteps == Filter(before, HasHash)
    ensures r == Filter(before + entities, HasHash)
  {
    r := sharedSteps;
    assert before + entities[..0] == before;
    for j := 0 to |entities|
      invariant r == Filter(before + entities[..j], HasHash)
    {
      ghost var xs := before + entities[..j + 1];
      assert xs[..|xs| - 1] == before + entities[..j] && xs[|xs| - 1] == entities[j];
      if HasHash(entities[j]) {
        r := r + [entities[j]];
      }
    }
    assert entities[..|entities|] == entities;
  }

  /** Exactly the steps with a hash are kept, and there are at most as many as were read. */
  lemma KeptSteps(steps: seq<Json>, step: Json)
    ensures step in Filter(steps, HasHash) <==> step in steps && HasHash(step)
    ensures |Filter(steps, HasHash)| <= |steps|
  {
    FilterMembers(steps, HasHash, step);
  }
}

// migration/extract/suites.py
module ExtractSuites {
  import opened Py
  import Utils
  import opened Paging
  import opened Seqs

  const Limit: nat := 100

  predicate HasId(suite: Json)
  {
    JTruthy(Field(suite, "id"))
  }

  function SuiteId(suite: Json): Json
  {
    Field(suite, "id")
  }

  function ParentId(suite: Json): Json
  {
    Field(suite, "parent_id")
  }

  function Itself(suite: Json): Json
  {
    suite
  }

  /** `all_suites`: suite id to suite, and `parent_child_map`: parent id to the ids of its children. */
  datatype SuiteTables = SuiteTables(allSuites: map<Json, Json>, parentChild: map<Json, seq<Json>>)

  /** The tables built from the suites with a truthy id, in extraction order. */
  function Tables(suites: seq<Json>): SuiteTables
  {
    var kept := Filter(suites, HasId);
    SuiteTables(Index(kept, SuiteId, Itself), Groups(kept, ParentId, SuiteId))
  }

  /** `extract_suites`. */
  method ExtractSuites(fetch: nat -> Reply<seq<Json>>, ghost bound: nat) returns (r: Reply<SuiteTables>)
    requires Ends(fetch, Limit, bound)
    ensures var s := ScanFrom(fetch, Limit, 0, bound);
      r == if s.failure.Some? then Raised(s.failure.value) else Ok(Tables(Items(s)))
  {
    var allSuites: map<Json, Json> := map[];
    var parentChild: map<Json, seq<Json>> := map[];
    var offset: nat := 0;
    ghost var seen: seq<Json> := [];
    ReadFromStart(fetch, Limit, bound);
    while true
      invariant ReadUpTo(fetch, Limit, bound, offset, seen)
      invariant SuiteTables(allSuites, parentChild) == Tables(seen)
      decreases if offset <= bound then bound - offset + 1 else 0
    {
      var response := fetch(offset);
      Turn(fetch, Limit, bound, offset, seen);
      if response.Raised? {
        return Raised(response.exc);
      }
      var entities := response.value;
      if entities == [] {
        assert seen + entities == seen;
        return Ok(SuiteTables(allSuites, parentChild));
      }
      allSuites, parentChild := AddSuites(allSuites, parentChild, seen, entities);
      if |entities| < Limit {
        return Ok(SuiteTables(allSuites, parentChild));
      }
      seen := seen + entities;
      offset := offset + Limit;
    }
  }

  /** How one more suite changes the tables. */
  lemma TablesStep(xs: seq<Json>, suite: Json)
    ensures var t := Tables(xs); var p := ParentId(suite);
      Tables(xs + [suite]) == if !HasId(suite) then t else
        SuiteTables(t.allSuites[SuiteId(suite) := suite],
                    t.parentChild[p := (if p in t.parentChild then t.parentChild[p] else []) + [SuiteId(suite)]])
  {
    var ys := xs + [suite];
    assert ys[..|ys| - 1] == xs;
    var kept := Filter(xs, HasId);
    assert Filter(ys, HasId) == kept + (if HasId(suite) then [suite] else []);
    if HasId(suite) {
      var k := kept + [suite];
      assert k[..|k| - 1] == kept && k[|k| - 1] == suite;
      assert Index(k, SuiteId, Itself) == Index(kept, SuiteId, Itself)[SuiteId(suite) := suite];
      assert Groups(k, ParentId, SuiteId) == Groups(kept, ParentId, SuiteId)[ParentId(suite) :=
        (if ParentId(suite) in Groups(kept, ParentId, SuiteId) then Groups(kept, ParentId, SuiteId)[ParentId(suite)] else []) + [SuiteId(suite)]];
      assert Tables(ys) == SuiteTables(Index(k, SuiteId, Itself), Groups(k, ParentId, SuiteId));
      assert Tables(xs) == SuiteTables(Index(kept, SuiteId, Itself), Groups(kept, ParentId, SuiteId));
    } else {
      assert Filter(ys, HasId) == kept;
    }
  }

  /** `setdefault(k, []).append(v)`, as one update of the map. */
  lemma AppendUnder<K, V>(m: map<K, seq<V>>, k: K, v: V)
    ensures var m' := if k in m then m else m[k := []];
      m'[k := m'[k] + [v]] == m[k := (if k in m then m[k] else []) + [v]]
  {
  }

  /** The loop over one page: each suite with an id is stored and listed under its parent. */
  method AddSuites(allSuites: map<Json, Json>, parentChild: map<Json, seq<Json>>, ghost before: seq<Json>,
                   entities: seq<Json>)
    returns (all': map<Json, Json>, children': map<Json, seq<Json>>)
    requires SuiteTables(allSuites, parentChild) == Tables(before)
    ensures SuiteTables(all', children') == Tables(before + entities)
  {
    all', children' := allSuites, parentChild;
    assert before + entities[..0] == before;
    for j := 0 to |entities|
      invariant SuiteTables(all', children') == Tables(before + entities[..j])
    {
      var suite := entities[j];
      assert before + entities[..j + 1] == (before + entities[..j]) + [suite];
      TablesStep(before + entities[..j], suite);
      var suiteId := Field(suite, "id");
      if JTruthy(suiteId) {
        all' := all'[suiteId := suite];
        var parentId := Field(suite, "parent_id");
        ghost var c0 := children';
        if parentId !in children' {
          children' := children'[parentId := []];
        }
        children' := children'[parentId := children'[parentId] + [suiteId]];
        AppendUnder(c0, parentId, suiteId);
      }
    }
    assert entities[..|entities|] == entities;
  }

  /** A suite id is in `all_suites` iff a read suite has it, and it holds a suite with that id. */
  lemma AllSuitesContents(suites: seq<Json>, id: Json)
    ensures id in Tables(suites).allSuites <==> exists s :: s in suites && HasId(s) && SuiteId(s) == id
    ensures id in Tables(suites).allSuites ==> SuiteId(Tables(suites).allSuites[id]) == id
  {
    var kept := Filter(suites, HasId);
    IndexLastWins(kept, SuiteId, Itself, id);
    forall s ensures s in kept <==> s in suites && HasId(s) {
      FilterMembers(suites, HasId, s);
    }
    if exists s :: s in suites && HasId(s) && SuiteId(s) == id {
      var s :| s in suites && HasId(s) && SuiteId(s) == id;
      var i :| 0 <= i < |kept| && kept[i] == s;
    }
  }

  /**
   * A parent id is in `parent_child_map` iff a suite with an id names it as
   * parent, and it lists the ids of those suites in extraction order.
   */
  lemma ParentChildContents(suites: seq<Json>, parent: Json)
    ensures parent in Tables(suites).parentChild <==> exists s :: s in suites && HasId(s) && ParentId(s) == parent
    ensures parent in Tables(suites).parentChild ==>
      Tables(suites).parentChild[parent] == Matching(Filter(suites, HasId), ParentId, SuiteId, parent)
  {
    var kept := Filter(suites, HasId);
    GroupsMatching(kept, ParentId, SuiteId, parent);
    forall s ensures s in kept <==> s in suites && HasId(s) {
      FilterMembers(suites, HasId, s);
    }
    if exists s :: s in suites && HasId(s) && ParentId(s) == parent {
      var s :| s in suites && HasId(s) && ParentId(s) == parent;
      var i :| 0 <= i < |kept| && kept[i] == s;
    }
  }
}
