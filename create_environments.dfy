// migration/create/environments.py: a project's environments are reused
// when already mapped, created otherwise, and merged into the store.

module CreateEnvironments {
  import opened Py
  import opened Utils
  import Steps

  /** The `EnvironmentCreate` model sent to the target. */
  datatype EnvironmentCreate = EnvironmentCreate(title: Json, slug: Json, host: Json, description: Option<Json>)

  /**
   * The payload for an environment: slug and host are `''` when falsy, and the
   * description is set only when it is truthy.
   */
  function Payload(env: Json): (p: EnvironmentCreate)
    ensures p.title == Field(env, "title")
    ensures JTruthy(Field(env, "slug")) ==> p.slug == Field(env, "slug")
    ensures !JTruthy(Field(env, "slug")) ==> p.slug == JStr("")
    ensures JTruthy(Field(env, "host")) ==> p.host == Field(env, "host")
    ensures !JTruthy(Field(env, "host")) ==> p.host == JStr("")
    ensures p.description.Some? <==> JTruthy(Field(env, "description"))
    ensures p.description.Some? ==> p.description.value == Field(env, "description")
  {
    var description := Field(env, "description");
    EnvironmentCreate(Field(env, "title"), JOr(Field(env, "slug"), JStr("")), JOr(Field(env, "host"), JStr("")),
                      if JTruthy(description) then Some(description) else None)
  }

  /**
   * One environment. `create(payload)` is the retried `create_environment`
   * call, answering the target id read from the response (null when it has
   * none, or when the retry swallowed the error).
   */
  function Outcome(create: EnvironmentCreate -> Reply<Json>, existing: map<Json, Json>, env: Json): Reply<Option<(Json, Json)>>
  {
    var id := Field(env, "id");
    if !JTruthy(id) then Ok(None)
    else if id in existing then Ok(Some((id, existing[id])))
    else if !JTruthy(Field(env, "title")) then Ok(None)
    else match create(Payload(env))
      case Raised(e) => Raised(e)
      case Ok(t) => if JTruthy(t) then Ok(Some((id, t))) else Ok(None)
  }

  function Outcomes(create: EnvironmentCreate -> Reply<Json>, existing: map<Json, Json>, envs: seq<Json>): seq<Reply<Option<(Json, Json)>>>
  {
    seq(|envs|, i requires 0 <= i < |envs| => Outcome(create, existing, envs[i]))
  }

  /** The mapping the loop builds. */
  function Migrated(create: EnvironmentCreate -> Reply<Json>, existing: map<Json, Json>, envs: seq<Json>): Reply<map<Json, Json>>
  {
    Steps.Assign(Outcomes(create, existing, envs))
  }

  /** An environment already in the project's table is reused and nothing is sent for it. */
  lemma ReuseMapped(create: EnvironmentCreate -> Reply<Json>, existing: map<Json, Json>, env: Json)
    requires JTruthy(Field(env, "id")) && Field(env, "id") in existing
    ensures Outcome(create, existing, env) == Ok(Some((Field(env, "id"), existing[Field(env, "id")])))
  {
  }

  /** The environment `env` ends up mapping the source id `k`. */
  predicate Maps(create: EnvironmentCreate -> Reply<Json>, existing: map<Json, Json>, env: Json, k: Json)
  {
    && Field(env, "id") == k && JTruthy(k)
    && (k in existing || (JTruthy(Field(env, "title")) && create(Payload(env)).Ok? && JTruthy(create(Payload(env)).value)))
  }

  lemma OutcomeSets(create: EnvironmentCreate -> Reply<Json>, existing: map<Json, Json>, env: Json, k: Json)
    ensures Steps.Sets(Outcome(create, existing, env), k) <==> Maps(create, existing, env, k)
    ensures Steps.Sets(Outcome(create, existing, env), k) && k in existing ==> Outcome(create, existing, env).value.value.1 == existing[k]
  {
  }

  /**
   * A source id is mapped iff one of its environments was already mapped,
   * or had a title and was created with a truthy id; an already mapped id
   * keeps its target.
   */
  lemma MigratedEntries(create: EnvironmentCreate -> Reply<Json>, existing: map<Json, Json>, envs: seq<Json>, k: Json)
    requires Migrated(create, existing, envs).Ok?
    ensures k in Migrated(create, existing, envs).value <==> exists i :: 0 <= i < |envs| && Maps(create, existing, envs[i], k)
    ensures k in existing && k in Migrated(create, existing, envs).value ==> Migrated(create, existing, envs).value[k] == existing[k]
  {
    var outs := Outcomes(create, existing, envs);
    Steps.AssignEntries(outs, k);
    forall i | 0 <= i < |envs|
      ensures Steps.Sets(outs[i], k) <==> Maps(create, existing, envs[i], k)
      ensures Steps.Sets(outs[i], k) && k in existing ==> outs[i].value.value.1 == existing[k]
    {
      OutcomeSets(create, existing, envs[i], k);
    }
  }

  /** The loop stops at the first create that raises. */
  lemma MigratedFailure(create: EnvironmentCreate -> Reply<Json>, existing: map<Json, Json>, envs: seq<Json>)
    ensures Migrated(create, existing, envs).Raised? <==>
      exists i :: 0 <= i < |envs| && Outcome(create, existing, envs[i]).Raised?
  {
    var outs := Outcomes(create, existing, envs);
    Steps.AssignOutcome(outs);
    assert forall i :: 0 <= i < |envs| ==> outs[i] == Outcome(create, existing, envs[i]);
  }

  method MigrateEnvironment(create: EnvironmentCreate -> Reply<Json>, existing: map<Json, Json>, env: Json)
    returns (o: Reply<Option<(Json, Json)>>)
    ensures o == Outcome(create, existing, env)
  {
    var id := Field(env, "id");
    if !JTruthy(id) {
      return Ok(None);
    }
    if id in existing {
      return Ok(Some((id, existing[id])));
    }
    if !JTruthy(Field(env, "title")) {
      return Ok(None);
    }
    var response := create(Payload(env));
    if response.Raised? {
      return Raised(response.exc);
    }
    if JTruthy(response.value) {
      return Ok(Some((id, response.value)));
    }
    return Ok(None);
  }

  /**
   * `migrate_environments` for the project `code`, given what
   * `extract_environments` returned. The mapping is merged into the store's
   * table for the project and the counts recorded; an exception from a
   * create escapes with nothing stored.
   */
  method MigrateEnvironments(code: string, envs: seq<Json>, create: EnvironmentCreate -> Reply<Json>,
                             mappings: MigrationMappings, stats: MigrationStats)
    returns (r: Reply<map<Json, Json>>)
    requires stats.Valid()
    modifies mappings`environments, stats
    ensures stats.Valid()
    ensures r == Migrated(create, ProjectTable(old(mappings.environments), code), envs)
    ensures r.Raised? ==> unchanged(mappings`environments) && unchanged(stats)
    ensures r.Ok? ==>
      && mappings.environments == MergeInto(old(mappings.environments), code, r.value)
      && stats.processed == Accumulate(old(stats.processed), "environments", |envs|)
      && stats.created == Accumulate(old(stats.created), "environments", |r.value|)
  {
    var existing := ProjectTable(mappings.environments, code);
    ghost var outs := Outcomes(create, existing, envs);
    var mapping: map<Json, Json> := map[];
    for i := 0 to |envs|
      invariant Steps.Assign(outs[..i]) == Ok(mapping)
      invariant unchanged(stats) && unchanged(mappings`environments)
    {
      assert outs[..i + 1][..i] == outs[..i];
      var o := MigrateEnvironment(create, existing, envs[i]);
      if o.Raised? {
        Steps.AssignStops(outs, i);
        return Raised(o.exc);
      }
      if o.value.Some? {
        mapping := mapping[o.value.value.0 := o.value.value.1];
      }
    }
    assert outs[..|envs|] == outs;
    mappings.environments := MergeInto(mappings.environments, code, mapping);
    stats.AddEntity("environments", |envs|, |mapping|);
    return Ok(mapping);
  }
}
