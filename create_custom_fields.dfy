// migration/create/custom_fields.py: the workspace's custom fields are
// matched by normalised title to the target's, or created there, each one
// written into the store as soon as it is mapped.

module CreateCustomFields {
  import opened Py
  import opened Utils
  import opened Paging
  import Seqs
  import Steps

  const ExistingLimit: nat := 100

  // ---------------------------------------------------------- existing fields

  /** The index key of a title: `title.strip().lower()`. */
  function Normalized(title: string): string
  {
    Lower(Strip(title))
  }

  /**
   * One target field of the index loop: a field with a truthy title and id
   * is indexed under its normalised title; a truthy title that is not a
   * string has no `strip` and raises, ending the loop with what it has.
   */
  function IndexField(existing: map<string, Json>, field: Json): (map<string, Json>, bool)
  {
    var d := ToDict(field);
    var title := Field(d, "title");
    var id := Field(d, "id");
    if !JTruthy(title) || !JTruthy(id) then (existing, true)
    else if !title.JStr? then (existing, false)
    else (existing[Normalized(title.s) := id], true)
  }

  /**
   * `get_existing_custom_fields`. `fetch(offset)` is `get_custom_fields(limit=
   * 100, offset)` normalised to its entities; an exception from the listing
   * leaves the index empty, one from the indexing keeps what it has.
   */
  function ExistingByTitle(fetch: nat -> Reply<seq<Json>>, bound: nat): map<string, Json>
    requires Ends(fetch, ExistingLimit, bound)
  {
    match Paging.Outcome(ScanFrom(fetch, ExistingLimit, 0, bound))
    case Raised(_) => map[]
    case Ok(fields) => Seqs.FoldStop(IndexField, map[], fields).0
  }

  ghost predicate LowerKeys(existing: map<string, Json>)
  {
    forall k :: k in existing ==> Lower(k) == k
  }

  /** A target field with a string title and a truthy id is indexed under the normalised title. */
  lemma IndexFieldKey(existing: map<string, Json>, field: Json, s: string)
    requires Field(ToDict(field), "title") == JStr(s) && s != [] && JTruthy(Field(ToDict(field), "id"))
    ensures IndexField(existing, field) == (existing[Normalized(s) := Field(ToDict(field), "id")], true)
  {
  }

  /** Every key of the index is lowercase. */
  lemma ExistingLower(fetch: nat -> Reply<seq<Json>>, bound: nat)
    requires Ends(fetch, ExistingLimit, bound)
    ensures LowerKeys(ExistingByTitle(fetch, bound))
  {
    var o := Paging.Outcome(ScanFrom(fetch, ExistingLimit, 0, bound));
    if o.Ok? {
      forall b: map<string, Json>, f: Json | LowerKeys(b) ensures LowerKeys(IndexField(b, f).0) {
        var title := Field(ToDict(f), "title");
        if title.JStr? {
          LowerIdempotent(Strip(title.s));
        }
      }
      Seqs.FoldStopKeeps(IndexField, LowerKeys, map[], o.value);
    }
  }

  method GetExistingCustomFields(fetch: nat -> Reply<seq<Json>>, ghost bound: nat) returns (existing: map<string, Json>)
    requires Ends(fetch, ExistingLimit, bound)
    ensures existing == ExistingByTitle(fetch, bound)
  {
    var all := ReadAll(fetch, ExistingLimit, bound);
    if all.Raised? {
      return map[];
    }
    var r := Seqs.FoldStopFrom(IndexField, map[], [], map[], all.value);
    assert [] + all.value == all.value;
    return r.0;
  }

  // ---------------------------------------------------------- the payload

  const EntityNames: seq<string> := ["case", "run", "defect"]
  const TypeNames: seq<string> := ["string", "number", "text", "selectbox", "checkbox", "radio", "multiselect", "url", "user", "date"]

  /** `table.get(s, 0)` for a table giving each name its position. */
  function Position(names: seq<string>, s: string): (r: nat)
    ensures s in names ==> r < |names| && names[r] == s
    ensures s !in names ==> r == 0
  {
    if names == [] then 0
    else if names[0] == s then 0
    else if s in names[1..] then 1 + Position(names[1..], s)
    else 0
  }

  /**
   * A field's `entity` or `type`: a string is looked up lowercased in the
   * table (unknown names give 0), an integer is kept (a `bool` is one), and
   * anything else gives 0.
   */
  function Code(names: seq<string>, v: Json): (r: int)
    ensures v.JStr? ==> Lower(v.s) in names ==> 0 <= r < |names| && names[r] == Lower(v.s)
    ensures v.JStr? ==> Lower(v.s) !in names ==> r == 0
    ensures v.JInt? ==> r == v.i
    ensures !v.JStr? && !v.JInt? && !v.JBool? ==> r == 0
  {
    match v
    case JStr(s) => Position(names, Lower(s))
    case JInt(i) => i
    case JBool(b) => if b then 1 else 0
    case _ => 0
  }

  /** The entity and type tables give each name its position: case/run/defect are 0..2, string…date are 0..9. */
  lemma CodeTables()
    ensures forall i :: 0 <= i < |EntityNames| ==> Code(EntityNames, JStr(EntityNames[i])) == i
    ensures forall i :: 0 <= i < |TypeNames| ==> Code(TypeNames, JStr(TypeNames[i])) == i
  {
    forall i | 0 <= i < |EntityNames| ensures Code(EntityNames, JStr(EntityNames[i])) == i {
      LowerLiteral(EntityNames[i]);
      PositionDistinct(EntityNames, i);
    }
    forall i | 0 <= i < |TypeNames| ensures Code(TypeNames, JStr(TypeNames[i])) == i {
      LowerLiteral(TypeNames[i]);
      PositionDistinct(TypeNames, i);
    }
  }

  lemma LowerLiteral(s: string)
    requires s in EntityNames || s in TypeNames
    ensures Lower(s) == s
  {
  }

  lemma PositionDistinct(names: seq<string>, i: nat)
    requires i < |names| && forall a, b :: 0 <= a < b < |names| ==> names[a] != names[b]
    ensures Position(names, names[i]) == i
  {
  }

  /** The `i`-th candidate for a repeated option title: `f"{title} ({i})"`. */
  function Candidate(base: string, i: nat): Json
  {
    JStr(base + " (" + NatToString(i) + ")")
  }

  lemma CandidateInjective(base: string, i: nat, j: nat)
    requires Candidate(base, i) == Candidate(base, j)
    ensures i == j
  {
    var a := base + " (" + NatToString(i) + ")";
    var b := base + " (" + NatToString(j) + ")";
    assert |NatToString(i)| == |NatToString(j)|;
    assert a[|base| + 2..|a| - 1] == NatToString(i);
    assert b[|base| + 2..|b| - 1] == NatToString(j);
    DigitsValueOfNatToString(i);
    DigitsValueOfNatToString(j);
  }

  /** The candidates 1..k-1 being all taken, there are at least k-1 titles. */
  lemma CandidatesBound(base: string, seen: set<Json>, k: nat)
    requires k >= 1 && forall i :: 1 <= i < k ==> Candidate(base, i) in seen
    ensures k - 1 <= |seen|
  {
    CandidateSetSize(base, k);
    var taken := set i: nat | 1 <= i < k :: Candidate(base, i);
    assert taken <= seen;
    assert seen == taken + (seen - taken);
    assert |seen| == |taken| + |seen - taken|;
  }

  lemma {:induction false} CandidateSetSize(base: string, k: nat)
    requires k >= 1
    ensures |set i: nat | 1 <= i < k :: Candidate(base, i)| == k - 1
  {
    if k > 1 {
      CandidateSetSize(base, k - 1);
      var before := set i: nat | 1 <= i < k - 1 :: Candidate(base, i);
      var after := set i: nat | 1 <= i < k :: Candidate(base, i);
      assert after == before + {Candidate(base, k - 1)};
      if Candidate(base, k - 1) in before {
        var i: nat :| 1 <= i < k - 1 && Candidate(base, i) == Candidate(base, k - 1);
        CandidateInjective(base, i, k - 1);
      }
    } else {
      assert (set i: nat | 1 <= i < k :: Candidate(base, i)) == {};
    }
  }

  /** The first free candidate from `k` on. */
  function FreeCandidate(base: string, seen: set<Json>, k: nat): (r: Json)
    requires k >= 1 && forall i :: 1 <= i < k ==> Candidate(base, i) in seen
    ensures r !in seen
    ensures exists j: nat :: k <= j && r == Candidate(base, j) && forall i :: 1 <= i < j ==> Candidate(base, i) in seen
    decreases |seen| + 1 - k
  {
    CandidatesBound(base, seen, k);
    if Candidate(base, k) !in seen then Candidate(base, k)
    else
      CandidatesBound(base, seen, k + 1);
      FreeCandidate(base, seen, k + 1)
  }

  /**
   * The title an option gets: its own when no earlier option has it, else
   * `f"{title} ({i})"` for the smallest `i` not taken.
   */
  function Unique(title: Json, seen: set<Json>): (r: Json)
    ensures r !in seen
    ensures title !in seen ==> r == title
    ensures title in seen ==>
      exists j: nat :: 1 <= j && r == Candidate(StrOf(title), j) && forall i :: 1 <= i < j ==> Candidate(StrOf(title), i) in seen
  {
    if title !in seen then title else FreeCandidate(StrOf(title), seen, 1)
  }

  datatype ValueOption = ValueOption(id: nat, title: Json)

  /**
   * The title an option is read with: a dict's `title`, else its `value`,
   * else `''`; anything else as `str(v)`. A list or dict title cannot be
   * looked up in the set of titles (TypeError).
   */
  function OptionTitle(v: Json): Reply<Json>
  {
    if v.JObject? then
      var t := GetOr(v, "title", GetOr(v, "value", JStr("")));
      if t.JList? || t.JObject? then Raised(TypeError("unhashable type")) else Ok(t)
    else Ok(JStr(StrOf(v)))
  }

  /** The options for the value items, in order, with the set of titles used; the first raise escapes. */
  function Options(values: seq<Json>): (r: Reply<(seq<ValueOption>, set<Json>)>)
  {
    if values == [] then Ok(([], {}))
    else
      var n := |values| - 1;
      match Options(values[..n])
      case Raised(e) => Raised(e)
      case Ok(acc) =>
        match OptionTitle(values[n])
        case Raised(e) => Raised(e)
        case Ok(t) =>
          var u := Unique(t, acc.1);
          Ok((acc.0 + [ValueOption(n + 1, u)], acc.1 + {u}))
  }

  /**
   * One option per value item, numbered 1..n in order; the titles are
   * pairwise distinct and make up the set; each keeps its own title unless
   * an earlier option has it.
   */
  lemma {:induction false} OptionsShape(values: seq<Json>)
    requires Options(values).Ok?
    ensures var opts := Options(values).value.0;
      && |opts| == |values|
      && (forall i :: 0 <= i < |opts| ==> opts[i].id == i + 1)
      && (forall i, j :: 0 <= i < j < |opts| ==> opts[i].title != opts[j].title)
      && (forall t :: t in Options(values).value.1 <==> exists i :: 0 <= i < |opts| && opts[i].title == t)
  {
    if values != [] {
      var n := |values| - 1;
      OptionsShape(values[..n]);
      var prev := Options(values[..n]).value;
      var u := Unique(OptionTitle(values[n]).value, prev.1);
      var opts := Options(values).value.0;
      assert opts == prev.0 + [ValueOption(n + 1, u)];
      assert Options(values).value.1 == prev.1 + {u};
      assert forall i :: 0 <= i < n ==> opts[i] == prev.0[i];
      assert forall i :: 0 <= i < n ==> opts[i].title in prev.1;
      forall t
        ensures t in Options(values).value.1 <==> exists i :: 0 <= i < |opts| && opts[i].title == t
      {
        if t in prev.1 {
          var i :| 0 <= i < n && prev.0[i].title == t;
          assert opts[i].title == t;
        } else if t == u {
          assert opts[n].title == t;
        }
      }
    }
  }

  /** An option keeps its own title when no earlier option took it. */
  lemma OptionKeepsTitle(values: seq<Json>, t: Json)
    requires values != [] && Options(values).Ok? && OptionTitle(values[|values| - 1]) == Ok(t)
    requires t !in Options(values[..|values| - 1]).value.1
    ensures |Options(values).value.0| == |values| && Options(values).value.0[|values| - 1].title == t
  {
    OptionsShape(values[..|values| - 1]);
    OptionsShape(values);
  }

  /** The `CustomFieldCreate` model; the SDK's own validation is not modelled. */
  datatype CustomFieldCreate = CustomFieldCreate(
    title: Json, entity: int, fieldType: int, value: Option<seq<ValueOption>>,
    isFilterable: Json, isVisible: Json, isRequired: Json, isEnabledForAllProjects: Json,
    projectsCodes: Option<Json>, defaultValue: Json)

  /**
   * The payload for a field: the options only when there are some; the
   * project codes only when the field is not enabled for all projects. A
   * truthy `value` that cannot be iterated raises TypeError.
   */
  function Payload(field: Json): (r: Reply<CustomFieldCreate>)
    ensures r.Ok? ==> r.value.entity == Code(EntityNames, GetOr(field, "entity", JInt(0)))
    ensures r.Ok? ==> r.value.fieldType == Code(TypeNames, GetOr(field, "type", JInt(0)))
    ensures r.Ok? ==> (r.value.projectsCodes.None? <==> JTruthy(GetOr(field, "is_enabled_for_all_projects", JBool(false))))
    ensures r.Ok? && r.value.value.Some? ==> r.value.value.value != []
  {
    var options := if !JTruthy(Field(field, "value")) then Ok(([], {}))
      else match Iter(Field(field, "value"))
        case None => Raised(NotIterable)
        case Some(values) => Options(values);
    match options
    case Raised(e) => Raised(e)
    case Ok(opts) =>
      var enabledForAll := GetOr(field, "is_enabled_for_all_projects", JBool(false));
      Ok(CustomFieldCreate(
        Field(field, "title"), Code(EntityNames, GetOr(field, "entity", JInt(0))), Code(TypeNames, GetOr(field, "type", JInt(0))),
        if opts.0 != [] then Some(opts.0) else None,
        GetOr(field, "is_filterable", JBool(true)), GetOr(field, "is_visible", JBool(true)),
        GetOr(field, "is_required", JBool(false)), enabledForAll,
        if JTruthy(enabledForAll) then None else Some(GetOr(field, "projects_codes", JList([]))),
        Field(field, "default_value")))
  }

  // ---------------------------------------------------------- one field

  /** The create call for a field that needs one: its payload, sent. */
  function Answer(create: CustomFieldCreate -> Reply<Option<Json>>, field: Json): Reply<Option<Json>>
  {
    match Payload(field)
    case Raised(e) => Raised(e)
    case Ok(p) => create(p)
  }

  /**
   * `create_custom_field`: the entry it writes into `mappings.custom_fields`
   * (it returns True exactly then). `create(payload)` is the retried
   * `create_custom_field` call read as the target id it yields (some id when
   * the response has a truthy one, or a result dict with an `id` key); its
   * exception escapes. A field without a title is rejected; one whose
   * normalised title the target already has maps to that field.
   */
  function Outcome(existing: map<string, Json>, create: CustomFieldCreate -> Reply<Option<Json>>, field: Json): Reply<Option<(Json, Json)>>
  {
    var title := Field(field, "title");
    if !JTruthy(title) then Ok(None)
    else if !title.JStr? then Raised(AttributeError)
    else if Normalized(title.s) in existing then Ok(Some((Field(field, "id"), existing[Normalized(title.s)])))
    else match Answer(create, field)
      case Raised(e) => Raised(e)
      case Ok(None) => Ok(None)
      case Ok(Some(t)) => Ok(Some((Field(field, "id"), t)))
  }

  /**
   * A field without a title is rejected; one whose normalised title the
   * target has maps to that field with no create; whatever is written is
   * keyed by the source id.
   */
  lemma OutcomeCases(existing: map<string, Json>, create: CustomFieldCreate -> Reply<Option<Json>>, field: Json)
    ensures var r := Outcome(existing, create, field);
      && (!JTruthy(Field(field, "title")) ==> r == Ok(None))
      && (JTruthy(Field(field, "title")) && !Field(field, "title").JStr? ==> r == Raised(AttributeError))
      && (JTruthy(Field(field, "title")) && Field(field, "title").JStr? && Normalized(Field(field, "title").s) in existing ==>
            r == Ok(Some((Field(field, "id"), existing[Normalized(Field(field, "title").s)]))))
      && (r.Ok? && r.value.Some? ==> r.value.value.0 == Field(field, "id"))
  {
  }

  function Outcomes(existing: map<string, Json>, create: CustomFieldCreate -> Reply<Option<Json>>, fields: seq<Json>): seq<Reply<Option<(Json, Json)>>>
  {
    seq(|fields|, i requires 0 <= i < |fields| => Outcome(existing, create, fields[i]))
  }

  /** The mapping `migrate_custom_fields` returns. */
  function Migrated(existing: map<string, Json>, create: CustomFieldCreate -> Reply<Option<Json>>, fields: seq<Json>): Reply<map<Json, Json>>
  {
    Steps.Assign(Outcomes(existing, create, fields))
  }

  /** The field `field` ends up mapping the source id `k`. */
  predicate Maps(existing: map<string, Json>, create: CustomFieldCreate -> Reply<Option<Json>>, field: Json, k: Json)
  {
    var title := Field(field, "title");
    && Field(field, "id") == k && JTruthy(title) && title.JStr?
    && (Normalized(title.s) in existing ||
        (Answer(create, field).Ok? && Answer(create, field).value.Some?))
  }

  lemma OutcomeSets(existing: map<string, Json>, create: CustomFieldCreate -> Reply<Option<Json>>, field: Json, k: Json)
    ensures Steps.Sets(Outcome(existing, create, field), k) <==> Maps(existing, create, field, k)
  {
    var title := Field(field, "title");
    var o := Outcome(existing, create, field);
    if !JTruthy(title) || !title.JStr? {
      assert !Steps.Sets(o, k) && !Maps(existing, create, field, k);
    } else if Normalized(title.s) in existing {
      assert o == Ok(Some((Field(field, "id"), existing[Normalized(title.s)])));
    } else {
      var a := Answer(create, field);
      if a.Ok? && a.value.Some? {
        assert o == Ok(Some((Field(field, "id"), a.value.value)));
      } else {
        assert o.Raised? || o == Ok(None);
      }
    }
  }

  /**
   * The returned mapping holds exactly the source ids of fields that matched
   * an existing title or whose create yielded an id.
   */
  lemma MigratedEntries(existing: map<string, Json>, create: CustomFieldCreate -> Reply<Option<Json>>, fields: seq<Json>, k: Json)
    requires Migrated(existing, create, fields).Ok?
    ensures k in Migrated(existing, create, fields).value <==> exists i :: 0 <= i < |fields| && Maps(existing, create, fields[i], k)
  {
    var outs := Outcomes(existing, create, fields);
    Steps.AssignEntries(outs, k);
    forall i | 0 <= i < |fields|
      ensures Steps.Sets(outs[i], k) <==> Maps(existing, create, fields[i], k)
    {
      OutcomeSets(existing, create, fields[i], k);
    }
  }

  // ---------------------------------------------------------- the methods

  /** The `while title in seen_titles` loop. */
  method UniqueTitle(title: Json, seen: set<Json>) returns (t: Json)
    ensures t == Unique(title, seen)
  {
    t := title;
    if t !in seen {
      return;
    }
    var base := StrOf(title);
    var suffix: nat := 1;
    t := Candidate(base, suffix);
    while t in seen
      invariant suffix >= 1 && t == Candidate(base, suffix)
      invariant forall i :: 1 <= i < suffix ==> Candidate(base, i) in seen
      invariant FreeCandidate(base, seen, suffix) == FreeCandidate(base, seen, 1)
      decreases |seen| + 1 - suffix
    {
      CandidatesBound(base, seen, suffix + 1);
      suffix := suffix + 1;
      t := Candidate(base, suffix);
    }
  }

  /** The loop over a field's value items. */
  method BuildOptions(values: seq<Json>) returns (r: Reply<(seq<ValueOption>, set<Json>)>)
    ensures r == Options(values)
  {
    var valueOptions: seq<ValueOption> := [];
    var seenTitles: set<Json> := {};
    var idx: nat := 1;
    for j := 0 to |values|
      invariant idx == j + 1
      invariant Options(values[..j]) == Ok((valueOptions, seenTitles))
    {
      assert values[..j + 1][..j] == values[..j];
      var title := OptionTitle(values[j]);
      if title.Raised? {
        OptionsStop(values, j + 1);
        return Raised(title.exc);
      }
      var t := UniqueTitle(title.value, seenTitles);
      seenTitles := seenTitles + {t};
      valueOptions := valueOptions + [ValueOption(idx, t)];
      idx := idx + 1;
    }
    assert values[..|values|] == values;
    return Ok((valueOptions, seenTitles));
  }

  lemma {:induction false} OptionsStop(values: seq<Json>, k: nat)
    requires k <= |values| && Options(values[..k]).Raised?
    ensures Options(values) == Options(values[..k])
    decreases |values| - k
  {
    if k < |values| {
      assert values[..k + 1][..k] == values[..k];
      OptionsStop(values, k + 1);
    } else {
      assert values[..k] == values;
    }
  }

  /** `create_custom_field`: writes its entry into the store as soon as it has it. */
  method CreateCustomField(existing: map<string, Json>, create: CustomFieldCreate -> Reply<Option<Json>>, field: Json,
                           mappings: MigrationMappings)
    returns (o: Reply<Option<(Json, Json)>>)
    modifies mappings`customFields
    ensures o == Outcome(existing, create, field)
    ensures o.Ok? && o.value.Some? ==> mappings.customFields == old(mappings.customFields)[o.value.value.0 := o.value.value.1]
    ensures !(o.Ok? && o.value.Some?) ==> unchanged(mappings`customFields)
  {
    var title := Field(field, "title");
    var sourceId := Field(field, "id");
    if !JTruthy(title) {
      return Ok(None);
    }
    if !title.JStr? {
      return Raised(AttributeError);
    }
    var normalized := Normalized(title.s);
    if normalized in existing {
      mappings.customFields := mappings.customFields[sourceId := existing[normalized]];
      return Ok(Some((sourceId, existing[normalized])));
    }
    var payload := BuildPayload(field);
    if payload.Raised? {
      return Raised(payload.exc);
    }
    var response := create(payload.value);
    if response.Raised? {
      return Raised(response.exc);
    }
    if response.value.None? {
      return Ok(None);
    }
    mappings.customFields := mappings.customFields[sourceId := response.value.value];
    return Ok(Some((sourceId, response.value.value)));
  }

  /** The create payload of a field: its options, when it has values, and its settings with their defaults. */
  method BuildPayload(field: Json) returns (r: Reply<CustomFieldCreate>)
    ensures r == Payload(field)
  {
    var options: Reply<(seq<ValueOption>, set<Json>)> := Ok(([], {}));
    if JTruthy(Field(field, "value")) {
      var values := Iter(Field(field, "value"));
      if values.None? {
        return Raised(NotIterable);
      }
      options := BuildOptions(values.value);
    }
    if options.Raised? {
      return Raised(options.exc);
    }
    var enabledForAll := GetOr(field, "is_enabled_for_all_projects", JBool(false));
    r := Ok(CustomFieldCreate(
      Field(field, "title"), Code(EntityNames, GetOr(field, "entity", JInt(0))), Code(TypeNames, GetOr(field, "type", JInt(0))),
      if options.value.0 != [] then Some(options.value.0) else None,
      GetOr(field, "is_filterable", JBool(true)), GetOr(field, "is_visible", JBool(true)),
      GetOr(field, "is_required", JBool(false)), enabledForAll,
      if JTruthy(enabledForAll) then None else Some(GetOr(field, "projects_codes", JList([]))),
      Field(field, "default_value")));
  }

  lemma UnionUpdate(a: map<Json, Json>, b: map<Json, Json>, k: Json, v: Json)
    ensures (a + b)[k := v] == a + b[k := v]
  {
  }

  /** The loop over the source fields. */
  method FieldLoop(existing: map<string, Json>, create: CustomFieldCreate -> Reply<Option<Json>>, sourceFields: seq<Json>,
                   mappings: MigrationMappings)
    returns (r: Reply<map<Json, Json>>)
    modifies mappings`customFields
    ensures r == Migrated(existing, create, sourceFields)
    ensures mappings.customFields == old(mappings.customFields) + Steps.AssignPartial(Outcomes(existing, create, sourceFields)).0
  {
    ghost var outs := Outcomes(existing, create, sourceFields);
    ghost var initial := mappings.customFields;
    var fieldMapping: map<Json, Json> := map[];
    for i := 0 to |sourceFields|
      invariant Steps.Assign(outs[..i]) == Ok(fieldMapping)
      invariant mappings.customFields == initial + fieldMapping
    {
      assert outs[..i + 1][..i] == outs[..i];
      ghost var before := mappings.customFields;
      var o := CreateCustomField(existing, create, sourceFields[i], mappings);
      assert o == outs[i];
      if o.Raised? {
        Steps.AssignStops(outs, i);
        Steps.AssignPartialStops(outs, i);
        assert Steps.AssignPartial(outs).0 == fieldMapping;
        return Raised(o.exc);
      }
      if o.value.Some? {
        var k, v := o.value.value.0, o.value.value.1;
        assert mappings.customFields == before[k := v];
        UnionUpdate(initial, fieldMapping, k, v);
        fieldMapping := fieldMapping[k := v];
      } else {
        assert mappings.customFields == before;
      }
    }
    assert outs[..|sourceFields|] == outs;
    Steps.AssignPartialAgrees(outs);
    return Ok(fieldMapping);
  }

  /**
   * `migrate_custom_fields`, given what `extract_custom_fields` returned.
   * Each mapped field is written into the store as it goes, so an exception
   * that escapes leaves the fields before it stored; only a loop that
   * finishes records the counts.
   */
  method MigrateCustomFields(sourceFields: seq<Json>, fetch: nat -> Reply<seq<Json>>, ghost bound: nat,
                             create: CustomFieldCreate -> Reply<Option<Json>>,
                             mappings: MigrationMappings, stats: MigrationStats)
    returns (r: Reply<map<Json, Json>>)
    requires Ends(fetch, ExistingLimit, bound)
    requires stats.Valid()
    modifies mappings`customFields, stats
    ensures stats.Valid()
    ensures var existing := ExistingByTitle(fetch, bound);
      && r == Migrated(existing, create, sourceFields)
      && mappings.customFields == old(mappings.customFields) + Steps.AssignPartial(Outcomes(existing, create, sourceFields)).0
    ensures r.Raised? ==> unchanged(stats)
    ensures r.Ok? ==>
      && stats.processed == Accumulate(old(stats.processed), "custom_fields", |sourceFields|)
      && stats.created == Accumulate(old(stats.created), "custom_fields", |r.value|)
  {
    var existing := GetExistingCustomFields(fetch, bound);
    r := FieldLoop(existing, create, sourceFields, mappings);
    if r.Ok? {
      stats.AddEntity("custom_fields", |sourceFields|, |r.value|);
    }
  }
}
