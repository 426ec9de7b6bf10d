// migration/create/shared_parameters.py: the workspace's shared parameters
// are reused when already migrated, matched by normalised title to the
// target's, or created there over the REST endpoint `/shared_parameter`.

module CreateSharedParameters {
  import opened Py
  import opened Utils
  import opened Paging
  import Seqs
  import Steps
  import CreateCustomFields

  const ExistingLimit: nat := 100

  // ---------------------------------------------------------- existing parameters

  /**
   * `get_existing_shared_parameters`. `fetch(offset)` is the GET of
   * `/shared_parameter?limit=100&offset=...` read as its `result.entities`
   * (an answer that is not 200, lacks that structure or has no entities
   * reads as an empty page). Every page is read inside the `try`, so an
   * exception from the request or from indexing an entity (a title that is
   * not a string) ends the loop and keeps what was indexed. The entity step
   * is the one `get_existing_custom_fields` uses.
   */
  function ExistingByTitle(fetch: nat -> Reply<seq<Json>>, bound: nat): map<string, Json>
    requires Ends(fetch, ExistingLimit, bound)
  {
    Index(Items(ScanFrom(fetch, ExistingLimit, 0, bound)))
  }

  /** The index loop over the entities the listing read. */
  function Index(items: seq<Json>): map<string, Json>
  {
    Seqs.FoldStop(CreateCustomFields.IndexField, map[], items).0
  }

  /** The entity `entity` indexes the id `v` under the key `k`. */
  predicate Indexes(entity: Json, k: string, v: Json)
  {
    var title := Field(ToDict(entity), "title");
    && title.JStr? && title.s != [] && CreateCustomFields.Normalized(title.s) == k
    && v == Field(ToDict(entity), "id") && JTruthy(v)
  }

  /**
   * Every entry of the index is the truthy id of an entity whose title,
   * stripped and lowercased, is its key (or was there before the loop).
   */
  lemma {:induction false} IndexedEntries(a: map<string, Json>, xs: seq<Json>, k: string)
    requires k in Seqs.FoldStop(CreateCustomFields.IndexField, a, xs).0
    ensures var r := Seqs.FoldStop(CreateCustomFields.IndexField, a, xs).0;
      (k in a && r[k] == a[k]) || exists i :: 0 <= i < |xs| && Indexes(xs[i], k, r[k])
  {
    if xs != [] {
      var n := |xs| - 1;
      var prev := Seqs.FoldStop(CreateCustomFields.IndexField, a, xs[..n]);
      var r := Seqs.FoldStop(CreateCustomFields.IndexField, a, xs).0;
      assert r == if prev.1 then CreateCustomFields.IndexField(prev.0, xs[n]).0 else prev.0;
      if prev.1 {
        IndexFieldEntry(prev.0, xs[n], k);
      }
      if k in prev.0 && r[k] == prev.0[k] {
        IndexedEntries(a, xs[..n], k);
        assert forall i :: 0 <= i < n ==> xs[..n][i] == xs[i];
      }
    }
  }

  /** One entity either leaves the entry under `k` as it was or indexes its own id there. */
  lemma IndexFieldEntry(b: map<string, Json>, entity: Json, k: string)
    requires k in CreateCustomFields.IndexField(b, entity).0
    ensures var r := CreateCustomFields.IndexField(b, entity).0;
      (k in b && r[k] == b[k]) || Indexes(entity, k, r[k])
  {
    var title := Field(ToDict(entity), "title");
    var id := Field(ToDict(entity), "id");
    if JTruthy(title) && JTruthy(id) && title.JStr? && k == CreateCustomFields.Normalized(title.s) {
      assert CreateCustomFields.IndexField(b, entity).0[k] == id;
    }
  }

  /**
   * The index built from the entities `items` (the ones the listing read):
   * its keys are normalised titles of those entities, each with that
   * entity's id.
   */
  lemma ExistingEntries(items: seq<Json>, k: string)
    requires k in Index(items)
    ensures exists i :: 0 <= i < |items| && Indexes(items[i], k, Index(items)[k])
  {
    IndexedEntries(map[], items, k);
  }

  method GetExistingSharedParameters(fetch: nat -> Reply<seq<Json>>, ghost bound: nat) returns (existing: map<string, Json>)
    requires Ends(fetch, ExistingLimit, bound)
    ensures existing == ExistingByTitle(fetch, bound)
  {
    existing := FoldScan(fetch, ExistingLimit, bound, CreateCustomFields.IndexField, map[]);
  }

  // ---------------------------------------------------------- the payload

  /**
   * One item of a parameter's `parameters`: a dict (anything else reads as
   * an empty one) with a truthy title and truthy values becomes an entry
   * whose values are a list, a single value being wrapped in one.
   */
  function Entry(item: Json): Option<Json>
  {
    var d := ToDict(item);
    var title := Field(d, "title");
    var values := GetOr(d, "values", JList([]));
    if JTruthy(title) && JTruthy(values) then
      Some(JObject([("title", title), ("values", if values.JList? then values else JList([values]))]))
    else None
  }

  /** `parameters_list`. */
  function ParametersList(items: seq<Json>): seq<Json>
  {
    Steps.Collect(items, Entry)
  }

  /**
   * The list holds exactly the entries of the items with a title and values,
   * in their order; each keeps the title, and its values are the item's
   * values when they are a list and the one-element list of them otherwise.
   */
  lemma ParametersListEntries(items: seq<Json>, e: Json)
    ensures e in ParametersList(items) <==> exists i :: 0 <= i < |items| && Entry(items[i]) == Some(e)
    ensures |ParametersList(items)| <= |items|
    ensures forall i :: 0 <= i < |items| ==> Entry(items[i]).Some? ==>
      var d := ToDict(items[i]);
      var values := GetOr(d, "values", JList([]));
      && JTruthy(Field(d, "title")) && JTruthy(values)
      && Entry(items[i]).value == JObject([("title", Field(d, "title")), ("values", if values.JList? then values else JList([values]))])
    ensures forall i :: 0 <= i < |items| ==>
      JTruthy(Field(ToDict(items[i]), "title")) && JTruthy(GetOr(ToDict(items[i]), "values", JList([]))) ==> Entry(items[i]).Some?
  {
    Steps.CollectContents(items, Entry, e);
    CollectAtMost(items);
  }

  lemma {:induction false} CollectAtMost(items: seq<Json>)
    ensures |ParametersList(items)| <= |items|
  {
    if items != [] {
      CollectAtMost(items[..|items| - 1]);
    }
  }

  /** Whether the payload carries `project_codes`. */
  predicate SendsProjectCodes(param: Json)
  {
    !JTruthy(GetOr(param, "is_enabled_for_all_projects", JBool(false))) && JTruthy(GetOr(param, "project_codes", JList([])))
  }

  /** The payload's entries before the UUIDs are converted. */
  function PayloadEntries(param: Json, list: seq<Json>): seq<(string, Json)>
  {
    [("type", Field(param, "type")),
     ("title", Field(param, "title")),
     ("is_enabled_for_all_projects", GetOr(param, "is_enabled_for_all_projects", JBool(false))),
     ("parameters", JList(list))]
    + (if SendsProjectCodes(param) then [("project_codes", GetOr(param, "project_codes", JList([])))] else [])
  }

  /** The body of the POST, after `convert_uuids_to_strings`. */
  function Payload(param: Json, list: seq<Json>): Json
  {
    ConvertUuids(JObject(PayloadEntries(param, list)))
  }

  /**
   * The payload is free of UUIDs, carries the parameters list, and carries
   * `project_codes` exactly when the parameter is not enabled for all
   * projects and its list of codes is not empty.
   */
  lemma PayloadShape(param: Json, list: seq<Json>)
    ensures NoUuid(Payload(param, list))
    ensures Get(Payload(param, list), "parameters") == Some(ConvertUuids(JList(list)))
    ensures Get(Payload(param, list), "project_codes").Some? <==> SendsProjectCodes(param)
    ensures SendsProjectCodes(param) ==>
      Get(Payload(param, list), "project_codes") == Some(ConvertUuids(GetOr(param, "project_codes", JList([]))))
  {
    var es := PayloadEntries(param, list);
    var ce := Payload(param, list).entries;
    PayloadConverted(param, list);
    forall j | 0 <= j < 4 ensures ce[j].0 != "project_codes" && (j < 3 ==> ce[j].0 != "parameters") {
      if j == 0 {} else if j == 1 {} else if j == 2 {} else {}
    }
    JGetFirst(ce, "parameters", 3);
    if SendsProjectCodes(param) {
      JGetFirst(ce, "project_codes", 4);
    }
  }

  /** The payload's entries, converted one by one. */
  lemma PayloadConverted(param: Json, list: seq<Json>)
    ensures var es := PayloadEntries(param, list);
      var ce := Payload(param, list).entries;
      && |ce| == |es| == (if SendsProjectCodes(param) then 5 else 4)
      && ce[0].0 == "type" && ce[1].0 == "title" && ce[2].0 == "is_enabled_for_all_projects"
      && ce[3] == ("parameters", ConvertUuids(JList(list)))
      && (SendsProjectCodes(param) ==> ce[4] == ("project_codes", ConvertUuids(GetOr(param, "project_codes", JList([])))))
  {
    var es := PayloadEntries(param, list);
    assert Payload(param, list).entries == seq(|es|, i requires 0 <= i < |es| => (es[i].0, ConvertUuids(es[i].1)));
  }

  // ---------------------------------------------------------- one parameter

  /** What the loop does with one source parameter. */
  datatype Action =
    | Skipped
    | Reused(k: Json, v: Json)    // already in the store: the stored target id
    | Matched(k: Json, v: Json)   // same normalised title as a target parameter
    | Created(k: Json, v: Json)   // created by the POST

  /** The create request for a parameter past the reuse and title checks: none when its list is empty. */
  function Request(param: Json, items: seq<Json>): Option<Json>
  {
    var list := ParametersList(items);
    if list == [] then None else Some(Payload(param, list))
  }

  /**
   * What one source parameter does, given the store as it is when the loop
   * reaches it. `post(payload)` is the POST read as the target id (some id
   * when the answer is 200 with `result.id`); all of its failures are caught
   * and skip the parameter. The exceptions outside that `try` escape: an
   * unhashable id looked up in the store, a title that is not a string, a
   * `parameters` value that cannot be iterated.
   */
  function Outcome(existing: map<string, Json>, post: Json -> Reply<Option<Json>>, store: map<Json, Json>, param: Json): Reply<Action>
  {
    var id := Field(param, "id");
    var title := Field(param, "title");
    var parameters := GetOr(param, "parameters", JList([]));
    if !JTruthy(id) then Ok(Skipped)
    else if !Hashable(id) then Raised(TypeError("unhashable type"))
    else if id in store then Ok(Reused(id, store[id]))
    else if !JTruthy(title) then Ok(Skipped)
    else if !title.JStr? then Raised(AttributeError)
    else if CreateCustomFields.Normalized(title.s) in existing then Ok(Matched(id, existing[CreateCustomFields.Normalized(title.s)]))
    else if !JTruthy(parameters) then Ok(Skipped)
    else if Iter(parameters).None? then Raised(NotIterable)
    else match Request(param, Iter(parameters).value)
      case None => Ok(Skipped)
      case Some(payload) => (match post(payload) case Ok(Some(t)) => Ok(Created(id, t)) case _ => Ok(Skipped))
  }

  /**
   * A parameter without an id is skipped; one whose id is in the store
   * reuses the stored id and one whose normalised title the target has maps
   * to that parameter, both whatever the POST would answer (no request is
   * made); a parameter whose list of usable items is empty is skipped.
   */
  lemma OutcomeCases(existing: map<string, Json>, post: Json -> Reply<Option<Json>>, post2: Json -> Reply<Option<Json>>,
                     store: map<Json, Json>, param: Json)
    ensures !JTruthy(Field(param, "id")) ==> Outcome(existing, post, store, param) == Ok(Skipped)
    ensures var id := Field(param, "id");
      JTruthy(id) && Hashable(id) && id in store ==>
        Outcome(existing, post, store, param) == Ok(Reused(id, store[id])) == Outcome(existing, post2, store, param)
    ensures var id := Field(param, "id");
      var title := Field(param, "title");
      JTruthy(id) && Hashable(id) && id !in store && title.JStr? && title.s != [] ==>
      var key := CreateCustomFields.Normalized(title.s);
      key in existing ==>
        Outcome(existing, post, store, param) == Ok(Matched(id, existing[key])) == Outcome(existing, post2, store, param)
    ensures var parameters := GetOr(param, "parameters", JList([]));
      Iter(parameters).Some? && ParametersList(Iter(parameters).value) == [] ==>
        Outcome(existing, post, store, param).Ok? ==> !Outcome(existing, post, store, param).value.Created?
  {
    OutcomeReused(existing, post, store, param);
    OutcomeReused(existing, post2, store, param);
    OutcomeMatched(existing, post, store, param);
    OutcomeMatched(existing, post2, store, param);
    OutcomeEmptyList(existing, post, store, param);
  }

  lemma OutcomeReused(existing: map<string, Json>, post: Json -> Reply<Option<Json>>, store: map<Json, Json>, param: Json)
    ensures var id := Field(param, "id");
      JTruthy(id) && Hashable(id) && id in store ==> Outcome(existing, post, store, param) == Ok(Reused(id, store[id]))
  {
  }

  lemma OutcomeMatched(existing: map<string, Json>, post: Json -> Reply<Option<Json>>, store: map<Json, Json>, param: Json)
    ensures var id := Field(param, "id");
      var title := Field(param, "title");
      JTruthy(id) && Hashable(id) && id !in store && title.JStr? && title.s != [] && CreateCustomFields.Normalized(title.s) in existing ==>
        Outcome(existing, post, store, param) == Ok(Matched(id, existing[CreateCustomFields.Normalized(title.s)]))
  {
  }

  lemma OutcomeEmptyList(existing: map<string, Json>, post: Json -> Reply<Option<Json>>, store: map<Json, Json>, param: Json)
    ensures var parameters := GetOr(param, "parameters", JList([]));
      Iter(parameters).Some? && ParametersList(Iter(parameters).value) == [] ==>
        Outcome(existing, post, store, param).Ok? ==> !Outcome(existing, post, store, param).value.Created?
  {
    var parameters := GetOr(param, "parameters", JList([]));
    if Iter(parameters).Some? && ParametersList(Iter(parameters).value) == [] {
      assert Request(param, Iter(parameters).value) == None;
    }
  }

  /** The store and the mapping as the loop goes, and the exception that stopped it, if one did. */
  datatype Progress = Progress(store: map<Json, Json>, mapping: map<Json, Json>, failure: Option<Exc>)

  /** The effect of one action: every action but a skip maps the id; only a title match writes the store. */
  function Apply(s: Progress, a: Action): Progress
  {
    match a
    case Skipped => s
    case Reused(k, v) => Progress(s.store, s.mapping[k := v], s.failure)
    case Matched(k, v) => Progress(s.store[k := v], s.mapping[k := v], s.failure)
    case Created(k, v) => Progress(s.store, s.mapping[k := v], s.failure)
  }

  /** One turn of the loop; an escaping exception stops it. */
  function Step(existing: map<string, Json>, post: Json -> Reply<Option<Json>>, s: Progress, param: Json): (Progress, bool)
  {
    Next(s, Outcome(existing, post, s.store, param))
  }

  /** The progress after an outcome. */
  function Next(s: Progress, o: Reply<Action>): (Progress, bool)
  {
    match o
    case Raised(e) => (Progress(s.store, s.mapping, Some(e)), false)
    case Ok(a) => (Apply(s, a), true)
  }

  function StepWith(existing: map<string, Json>, post: Json -> Reply<Option<Json>>): (Progress, Json) -> (Progress, bool)
  {
    (s: Progress, param: Json) => Step(existing, post, s, param)
  }

  /** The loop over the source parameters from the store `store`. */
  function Migrated(existing: map<string, Json>, post: Json -> Reply<Option<Json>>, store: map<Json, Json>, params: seq<Json>): Progress
  {
    Seqs.FoldStop(StepWith(existing, post), Progress(store, map[], None), params).0
  }

  /**
   * What the loop keeps: the entries stored before it are untouched, it
   * stores only ids it also maps, and a mapped id that is stored maps to the
   * stored target.
   */
  ghost predicate Keeps(store: map<Json, Json>, s: Progress)
  {
    && (forall k :: k in store ==> k in s.store && s.store[k] == store[k])
    && (forall k :: k in s.store ==> k in store || k in s.mapping)
    && (forall k :: k in s.mapping && k in s.store ==> s.mapping[k] == s.store[k])
  }

  lemma StepKeeps(existing: map<string, Json>, post: Json -> Reply<Option<Json>>, store: map<Json, Json>, s: Progress, param: Json)
    requires Keeps(store, s)
    ensures Keeps(store, Step(existing, post, s, param).0)
  {
    match Outcome(existing, post, s.store, param)
    case Raised(e) =>
    case Ok(a) =>
      OutcomeActs(existing, post, s.store, param);
      ApplyKeeps(store, s, a);
  }

  /** A reuse maps to what is stored; a title match is only made for an id not stored yet. */
  lemma OutcomeActs(existing: map<string, Json>, post: Json -> Reply<Option<Json>>, store: map<Json, Json>, param: Json)
    ensures var o := Outcome(existing, post, store, param);
      o.Ok? && o.value.Reused? ==> o.value.k in store && o.value.v == store[o.value.k]
    ensures var o := Outcome(existing, post, store, param);
      o.Ok? && (o.value.Matched? || o.value.Created?) ==> o.value.k !in store
  {
    var id := Field(param, "id");
    var o := Outcome(existing, post, store, param);
    if !JTruthy(id) || !Hashable(id) {
      assert o == Ok(Skipped) || o.Raised?;
    } else if id in store {
      assert o == Ok(Reused(id, store[id]));
    } else {
      assert o.Ok? && !o.value.Skipped? ==> !o.value.Reused? && o.value.k == id;
    }
  }

  lemma ApplyKeeps(store: map<Json, Json>, s: Progress, a: Action)
    requires Keeps(store, s)
    requires a.Reused? ==> a.k in s.store && a.v == s.store[a.k]
    requires a.Matched? || a.Created? ==> a.k !in s.store
    ensures Keeps(store, Apply(s, a))
  {
  }

  lemma MigratedKeeps(existing: map<string, Json>, post: Json -> Reply<Option<Json>>, store: map<Json, Json>, params: seq<Json>)
    ensures Keeps(store, Migrated(existing, post, store, params))
  {
    var p := (s: Progress) => Keeps(store, s);
    forall b: Progress, x: Json | p(b) ensures p(StepWith(existing, post)(b, x).0) {
      StepKeeps(existing, post, store, b, x);
    }
    Seqs.FoldStopKeeps(StepWith(existing, post), p, Progress(store, map[], None), params);
  }

  /**
   * The final merge (`update` of the store with the mapping) never changes
   * an id stored before the run, and adds exactly the ids the run mapped.
   */
  lemma MergeKeepsStored(existing: map<string, Json>, post: Json -> Reply<Option<Json>>, store: map<Json, Json>, params: seq<Json>)
    ensures var run := Migrated(existing, post, store, params);
      && (forall k :: k in store ==> k in run.store + run.mapping && (run.store + run.mapping)[k] == store[k])
      && (run.store + run.mapping).Keys == store.Keys + run.mapping.Keys
  {
    MigratedKeeps(existing, post, store, params);
  }

  // ---------------------------------------------------------- the methods

  /** The loop over a parameter's items. */
  method BuildParametersList(items: seq<Json>) returns (list: seq<Json>)
    ensures list == ParametersList(items)
  {
    list := [];
    for j := 0 to |items|
      invariant list == ParametersList(items[..j])
    {
      assert items[..j + 1][..j] == items[..j];
      var d := if items[j].JObject? then items[j] else ToDict(items[j]);
      var title := Field(d, "title");
      var values := GetOr(d, "values", JList([]));
      if JTruthy(title) && JTruthy(values) {
        list := list + [JObject([("title", title), ("values", if values.JList? then values else JList([values]))])];
      }
    }
    assert items[..|items|] == items;
  }

  /** One turn of the loop: a title match is written into the store at once. */
  method MigrateParameter(existing: map<string, Json>, post: Json -> Reply<Option<Json>>, param: Json, mappings: MigrationMappings)
    returns (o: Reply<Action>)
    modifies mappings`sharedParameters
    ensures o == Outcome(existing, post, old(mappings.sharedParameters), param)
    ensures o.Ok? && o.value.Matched? ==> mappings.sharedParameters == old(mappings.sharedParameters)[o.value.k := o.value.v]
    ensures !(o.Ok? && o.value.Matched?) ==> unchanged(mappings`sharedParameters)
  {
    var sourceId := Field(param, "id");
    if !JTruthy(sourceId) {
      return Ok(Skipped);
    }
    if !Hashable(sourceId) {
      return Raised(TypeError("unhashable type"));
    }
    if sourceId in mappings.sharedParameters {
      return Ok(Reused(sourceId, mappings.sharedParameters[sourceId]));
    }
    var title := Field(param, "title");
    if !JTruthy(title) {
      return Ok(Skipped);
    }
    if !title.JStr? {
      return Raised(AttributeError);
    }
    var normalized := CreateCustomFields.Normalized(title.s);
    if normalized in existing {
      mappings.sharedParameters := mappings.sharedParameters[sourceId := existing[normalized]];
      return Ok(Matched(sourceId, existing[normalized]));
    }
    var parameters := GetOr(param, "parameters", JList([]));
    if !JTruthy(parameters) {
      return Ok(Skipped);
    }
    var items := Iter(parameters);
    if items.None? {
      return Raised(NotIterable);
    }
    var list := BuildParametersList(items.value);
    if list == [] {
      return Ok(Skipped);
    }
    var response := post(Payload(param, list));
    if response.Ok? && response.value.Some? {
      return Ok(Created(sourceId, response.value.value));
    }
    return Ok(Skipped);
  }

  /** One turn of the loop: an exception ends the run, an action carries it on. */
  lemma ParameterStep(existing: map<string, Json>, post: Json -> Reply<Option<Json>>, start: Progress, params: seq<Json>,
                      i: nat, s: Progress, o: Reply<Action>)
    requires i < |params| && Seqs.FoldStop(StepWith(existing, post), start, params[..i]) == (s, true)
    requires o == Outcome(existing, post, s.store, params[i])
    ensures o.Ok? ==> Seqs.FoldStop(StepWith(existing, post), start, params[..i + 1]) == (Apply(s, o.value), true)
    ensures o.Raised? ==> Seqs.FoldStop(StepWith(existing, post), start, params).0 == Progress(s.store, s.mapping, Some(o.exc))
  {
    Seqs.FoldStopSnoc(StepWith(existing, post), start, params, i, s);
    assert StepWith(existing, post)(s, params[i]) == Next(s, o);
    if o.Raised? {
      Seqs.FoldStopStopped(StepWith(existing, post), start, params[..i + 1], params[i + 1..]);
      assert params[..i + 1] + params[i + 1..] == params;
    }
  }

  /** The loop over the source parameters. */
  method ParameterLoop(existing: map<string, Json>, post: Json -> Reply<Option<Json>>, params: seq<Json>, mappings: MigrationMappings)
    returns (r: Reply<map<Json, Json>>)
    modifies mappings`sharedParameters
    ensures var run := Migrated(existing, post, old(mappings.sharedParameters), params);
      && mappings.sharedParameters == run.store
      && r == (if run.failure.Some? then Raised(run.failure.value) else Ok(run.mapping))
  {
    ghost var start := Progress(mappings.sharedParameters, map[], None);
    var mapping: map<Json, Json> := map[];
    for i := 0 to |params|
      invariant Seqs.FoldStop(StepWith(existing, post), start, params[..i]) == (Progress(mappings.sharedParameters, mapping, None), true)
    {
      ghost var s := Progress(mappings.sharedParameters, mapping, None);
      var o := MigrateParameter(existing, post, params[i], mappings);
      ParameterStep(existing, post, start, params, i, s, o);
      if o.Raised? {
        return Raised(o.exc);
      }
      if !o.value.Skipped? {
        mapping := mapping[o.value.k := o.value.v];
      }
      assert Apply(s, o.value) == Progress(mappings.sharedParameters, mapping, None);
    }
    assert params[..|params|] == params;
    return Ok(mapping);
  }

  /**
   * `migrate_shared_parameters`, given what `extract_shared_parameters`
   * returned. Title matches are written into the store as they happen, so an
   * exception that escapes leaves those stored; a loop that finishes merges
   * its mapping into the store and records the counts.
   */
  method MigrateSharedParameters(params: seq<Json>, fetch: nat -> Reply<seq<Json>>, ghost bound: nat,
                                 post: Json -> Reply<Option<Json>>,
                                 mappings: MigrationMappings, stats: MigrationStats)
    returns (r: Reply<map<Json, Json>>)
    requires Ends(fetch, ExistingLimit, bound)
    requires stats.Valid()
    modifies mappings`sharedParameters, stats
    ensures stats.Valid()
    ensures var run := Migrated(ExistingByTitle(fetch, bound), post, old(mappings.sharedParameters), params);
      if run.failure.Some? then
        && r == Raised(run.failure.value)
        && mappings.sharedParameters == run.store
        && unchanged(stats)
      else
        && r == Ok(run.mapping)
        && mappings.sharedParameters == run.store + run.mapping
        && stats.processed == Accumulate(old(stats.processed), "shared_parameters", |params|)
        && stats.created == Accumulate(old(stats.created), "shared_parameters", |run.mapping|)
  {
    var existing := GetExistingSharedParameters(fetch, bound);
    r := ParameterLoop(existing, post, params, mappings);
    if r.Ok? {
      mappings.sharedParameters := mappings.sharedParameters + r.value;
      stats.AddEntity("shared_parameters", |params|, |r.value|);
    }
  }
}
