// migration/create/plans.py: test plans are reused when already mapped, or
// created with their cases remapped to the target; a plan left without a
// mapped case is skipped.

module CreatePlans {
  import opened Py
  import opened Utils
  import Steps

  /** A `PlanCreate`; the description is set only when truthy. */
  datatype PlanCreate = PlanCreate(title: Json, cases: seq<Json>, description: Option<Json>)

  /** The target of one plan case: its `case_id`, when truthy and mapped. */
  function CaseTargetOf(caseMapping: map<Json, Json>, item: Json): Option<Json>
  {
    var id := Field(ToDict(item), "case_id");
    if JTruthy(id) && id in caseMapping then Some(caseMapping[id]) else None
  }

  function CaseTarget(caseMapping: map<Json, Json>): Json -> Option<Json>
  {
    (item: Json) => CaseTargetOf(caseMapping, item)
  }

  /** The target case ids of a plan, in source order. */
  function TargetCases(items: seq<Json>, caseMapping: map<Json, Json>): seq<Json>
  {
    Steps.Collect(items, CaseTarget(caseMapping))
  }

  /** A target id is listed iff some plan case has a truthy `case_id` mapped to it. */
  lemma TargetCasesContents(items: seq<Json>, caseMapping: map<Json, Json>, t: Json)
    ensures t in TargetCases(items, caseMapping) <==>
      exists i :: 0 <= i < |items| && CaseTargetOf(caseMapping, items[i]) == Some(t)
  {
    Steps.CollectContents(items, CaseTarget(caseMapping), t);
  }

  /** A plan case reads as a target iff its `case_id` is truthy and mapped, and then as that id's target. */
  lemma CaseTargetOfIs(caseMapping: map<Json, Json>, item: Json)
    ensures CaseTargetOf(caseMapping, item).Some? <==>
      JTruthy(Field(ToDict(item), "case_id")) && Field(ToDict(item), "case_id") in caseMapping
    ensures CaseTargetOf(caseMapping, item).Some? ==>
      CaseTargetOf(caseMapping, item).value == caseMapping[Field(ToDict(item), "case_id")]
  {
  }

  /** Remapping keeps source order: the targets of a concatenation are the concatenated targets. */
  lemma TargetCasesOrder(xs: seq<Json>, ys: seq<Json>, caseMapping: map<Json, Json>)
    ensures TargetCases(xs + ys, caseMapping) == TargetCases(xs, caseMapping) + TargetCases(ys, caseMapping)
  {
    Steps.CollectAppend(xs, ys, CaseTarget(caseMapping));
  }

  /**
   * The payload for a plan with a title: its `cases` (absent reads as none,
   * a value that is not iterable raises TypeError) remapped; `None` when no
   * case is mapped.
   */
  function Payload(plan: Json, caseMapping: map<Json, Json>): Reply<Option<PlanCreate>>
  {
    var items := match Get(plan, "cases") case Some(v) => Iter(v) case None => Some([]);
    if items.None? then Raised(NotIterable)
    else
      var targets := TargetCases(items.value, caseMapping);
      if targets == [] then Ok(None)
      else
        var description := Field(plan, "description");
        Ok(Some(PlanCreate(Field(plan, "title"), targets, if JTruthy(description) then Some(description) else None)))
  }

  /**
   * One plan: skipped without a truthy id; reused when its id is in the
   * project's plan table (compared as it is, with no key conversion);
   * skipped without a truthy title or a mapped case; otherwise created.
   * `create` answers the new id (null when the response has none).
   */
  function Outcome(create: PlanCreate -> Reply<Json>, existing: map<Json, Json>, caseMapping: map<Json, Json>, plan: Json)
    : Reply<Option<(Json, Json)>>
  {
    var id := Field(plan, "id");
    if !JTruthy(id) then Ok(None)
    else if id in existing then Ok(Some((id, existing[id])))
    else if !JTruthy(Field(plan, "title")) then Ok(None)
    else match Payload(plan, caseMapping)
      case Raised(e) => Raised(e)
      case Ok(None) => Ok(None)
      case Ok(Some(p)) =>
        match create(p)
        case Raised(e) => Raised(e)
        case Ok(t) => if JTruthy(t) then Ok(Some((id, t))) else Ok(None)
  }

  function Outcomes(create: PlanCreate -> Reply<Json>, existing: map<Json, Json>, caseMapping: map<Json, Json>, plans: seq<Json>)
    : seq<Reply<Option<(Json, Json)>>>
  {
    seq(|plans|, i requires 0 <= i < |plans| => Outcome(create, existing, caseMapping, plans[i]))
  }

  function Migrated(create: PlanCreate -> Reply<Json>, existing: map<Json, Json>, caseMapping: map<Json, Json>, plans: seq<Json>)
    : Reply<map<Json, Json>>
  {
    Steps.Assign(Outcomes(create, existing, caseMapping, plans))
  }

  /** The plan `plan` ends up mapping the source id `k`. */
  predicate Maps(create: PlanCreate -> Reply<Json>, existing: map<Json, Json>, caseMapping: map<Json, Json>, plan: Json, k: Json)
  {
    && Field(plan, "id") == k && JTruthy(k)
    && (k in existing ||
        (&& JTruthy(Field(plan, "title"))
         && Payload(plan, caseMapping).Ok? && Payload(plan, caseMapping).value.Some?
         && create(Payload(plan, caseMapping).value.value).Ok? && JTruthy(create(Payload(plan, caseMapping).value.value).value)))
  }

  lemma OutcomeSets(create: PlanCreate -> Reply<Json>, existing: map<Json, Json>, caseMapping: map<Json, Json>, plan: Json, k: Json)
    ensures Steps.Sets(Outcome(create, existing, caseMapping, plan), k) <==> Maps(create, existing, caseMapping, plan, k)
    ensures Steps.Sets(Outcome(create, existing, caseMapping, plan), k) && k in existing ==>
      Outcome(create, existing, caseMapping, plan).value.value.1 == existing[k]
  {
  }

  /** A plan already mapped is reused and no request is sent for it. */
  lemma ReuseMapped(create: PlanCreate -> Reply<Json>, existing: map<Json, Json>, caseMapping: map<Json, Json>, plan: Json)
    requires JTruthy(Field(plan, "id")) && Field(plan, "id") in existing
    ensures Outcome(create, existing, caseMapping, plan) == Ok(Some((Field(plan, "id"), existing[Field(plan, "id")])))
  {
  }

  /** A plan none of whose cases is mapped, and not already mapped itself, is skipped without a request. */
  lemma SkipUnmappedCases(create: PlanCreate -> Reply<Json>, existing: map<Json, Json>, caseMapping: map<Json, Json>, plan: Json)
    requires Field(plan, "id") !in existing
    requires Payload(plan, caseMapping) == Ok(None)
    ensures Outcome(create, existing, caseMapping, plan) == Ok(None)
  {
  }

  /**
   * A source id is mapped iff one of its plans was already mapped, or had a
   * title and a mapped case and was created with a truthy id; an already
   * mapped id keeps its target.
   */
  lemma MigratedEntries(create: PlanCreate -> Reply<Json>, existing: map<Json, Json>, caseMapping: map<Json, Json>, plans: seq<Json>, k: Json)
    requires Migrated(create, existing, caseMapping, plans).Ok?
    ensures k in Migrated(create, existing, caseMapping, plans).value <==>
      exists i :: 0 <= i < |plans| && Maps(create, existing, caseMapping, plans[i], k)
    ensures k in existing && k in Migrated(create, existing, caseMapping, plans).value ==>
      Migrated(create, existing, caseMapping, plans).value[k] == existing[k]
  {
    var outs := Outcomes(create, existing, caseMapping, plans);
    Steps.AssignEntries(outs, k);
    forall i | 0 <= i < |plans|
      ensures Steps.Sets(outs[i], k) <==> Maps(create, existing, caseMapping, plans[i], k)
      ensures Steps.Sets(outs[i], k) && k in existing ==> outs[i].value.value.1 == existing[k]
    {
      OutcomeSets(create, existing, caseMapping, plans[i], k);
    }
  }

  /** The loop over a plan's cases. */
  method MapCases(items: seq<Json>, caseMapping: map<Json, Json>) returns (targets: seq<Json>)
    ensures targets == TargetCases(items, caseMapping)
  {
    targets := [];
    for j := 0 to |items|
      invariant targets == TargetCases(items[..j], caseMapping)
    {
      assert items[..j + 1][..j] == items[..j];
      var target := CaseTargetOf(caseMapping, items[j]);
      if target.Some? {
        targets := targets + [target.value];
      }
    }
    assert items[..|items|] == items;
  }

  method BuildPayload(plan: Json, caseMapping: map<Json, Json>) returns (p: Reply<Option<PlanCreate>>)
    ensures p == Payload(plan, caseMapping)
  {
    var items := match Get(plan, "cases") case Some(v) => Iter(v) case None => Some([]);
    if items.None? {
      return Raised(NotIterable);
    }
    var targets := MapCases(items.value, caseMapping);
    if targets == [] {
      return Ok(None);
    }
    var description := Field(plan, "description");
    return Ok(Some(PlanCreate(Field(plan, "title"), targets, if JTruthy(description) then Some(description) else None)));
  }

  method MigratePlan(create: PlanCreate -> Reply<Json>, existing: map<Json, Json>, caseMapping: map<Json, Json>, plan: Json)
    returns (o: Reply<Option<(Json, Json)>>)
    ensures o == Outcome(create, existing, caseMapping, plan)
  {
    var id := Field(plan, "id");
    if !JTruthy(id) {
      return Ok(None);
    }
    if id in existing {
      return Ok(Some((id, existing[id])));
    }
    var title := Field(plan, "title");
    if !JTruthy(title) {
      return Ok(None);
    }
    var payload := BuildPayload(plan, caseMapping);
    if payload.Raised? {
      return Raised(payload.exc);
    }
    if payload.value.None? {
      return Ok(None);
    }
    var response := create(payload.value.value);
    if response.Raised? {
      return Raised(response.exc);
    }
    if JTruthy(response.value) {
      return Ok(Some((id, response.value)));
    }
    return Ok(None);
  }

  /**
   * `migrate_plans` for the project `code`, given what `extract_plans`
   * returned and the project's case mapping. The mapping is merged into the
   * project's plan table and the counts recorded; an exception escapes with
   * nothing stored.
   */
  method MigratePlans(code: string, plans: seq<Json>, caseMapping: map<Json, Json>, create: PlanCreate -> Reply<Json>,
                      mappings: MigrationMappings, stats: MigrationStats)
    returns (r: Reply<map<Json, Json>>)
    requires stats.Valid()
    modifies mappings`plans, stats
    ensures stats.Valid()
    ensures r == Migrated(create, ProjectTable(old(mappings.plans), code), caseMapping, plans)
    ensures r.Raised? ==> unchanged(mappings`plans) && unchanged(stats)
    ensures r.Ok? ==>
      && mappings.plans == MergeInto(old(mappings.plans), code, r.value)
      && stats.processed == Accumulate(old(stats.processed), "plans", |plans|)
      && stats.created == Accumulate(old(stats.created), "plans", |r.value|)
  {
    var existing := ProjectTable(mappings.plans, code);
    ghost var outs := Outcomes(create, existing, caseMapping, plans);
    var mapping: map<Json, Json> := map[];
    for i := 0 to |plans|
      invariant Steps.Assign(outs[..i]) == Ok(mapping)
      invariant unchanged(stats) && unchanged(mappings`plans)
    {
      assert outs[..i + 1][..i] == outs[..i];
      var o := MigratePlan(create, existing, caseMapping, plans[i]);
      if o.Raised? {
        Steps.AssignStops(outs, i);
        return Raised(o.exc);
      }
      if o.value.Some? {
        mapping := mapping[o.value.value.0 := o.value.value.1];
      }
    }
    assert outs[..|plans|] == outs;
    mappings.plans := MergeInto(mappings.plans, code, mapping);
    stats.AddEntity("plans", |plans|, |mapping|);
    return Ok(mapping);
  }
}
