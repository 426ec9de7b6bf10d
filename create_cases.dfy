// migration/create/cases.py: every case of a project is rewritten against the
// tables of the earlier steps (suites, custom fields, milestones, shared
// steps, shared parameters, attachments) and created in the target, in
// batches: one bulk call for the plain cases of a batch, one raw call per
// case that refers to a shared step or has a parameters structure.

module CreateCases {
  import opened Py
  import opened Utils
  import Dicts
  import Steps
  import Seqs
  import AttachmentText
  import Paging
  import ExtractCases

  // ---------------------------------------------------------- users

  /**
   * `_get_target_user_id`: a falsy id, or one `int()` rejects, gives the
   * default; otherwise the mapped value of the integer, or the default when
   * it is unmapped.
   */
  function TargetUserId(source: Json, userMapping: map<Json, Json>, default: Json): (r: Json)
    ensures !JTruthy(source) || IntOf(ToValue(source)).Raised? ==> r == default
    ensures JTruthy(source) && IntOf(ToValue(source)).Ok? ==>
      var k := JInt(IntOf(ToValue(source)).value);
      r == if k in userMapping then userMapping[k] else default
  {
    if !JTruthy(source) then default
    else match IntOf(ToValue(source))
      case Raised(_) => default
      case Ok(k) => if JInt(k) in userMapping then userMapping[JInt(k)] else default
  }

  /** The answer is the default or one of the mapped target ids; ids with the same integer value get the same answer. */
  lemma TargetUserIdRange(source: Json, other: Json, userMapping: map<Json, Json>, default: Json)
    ensures TargetUserId(source, userMapping, default) == default || TargetUserId(source, userMapping, default) in userMapping.Values
    ensures JTruthy(source) && JTruthy(other) && IntOf(ToValue(source)).Ok? && IntOf(ToValue(source)) == IntOf(ToValue(other)) ==>
      TargetUserId(source, userMapping, default) == TargetUserId(other, userMapping, default)
  {
  }

  /** The user id the author fallback reads: `member_id or created_by or author_id`. */
  function SourceUser(c: Json): Json
  {
    JOr(JOr(Field(c, "member_id"), Field(c, "created_by")), Field(c, "author_id"))
  }

  /**
   * The case's author. A truthy `author_uuid` is looked up, as text, in
   * `uuidMapping` (what `getattr(mappings, 'user_uuid_mapping', {})` gives),
   * defaulting to 1; otherwise the fallback id goes through the shared
   * target-user rule, whose `mappings.get_user_id` call may raise.
   */
  function Author(uuidMapping: map<string, Json>, getUserId: int -> Reply<Json>, c: Json): Reply<Json>
  {
    var uuid := Field(c, "author_uuid");
    if JTruthy(uuid) then Ok(if StrOf(uuid) in uuidMapping then uuidMapping[StrOf(uuid)] else JInt(1))
    else TargetUser(getUserId, SourceUser(c))
  }

  /**
   * With a truthy `author_uuid` the author is its mapped id, or 1; without
   * one a falsy, non-integer or zero fallback id gives 1. The store never has
   * a `user_uuid_mapping`, so as written every case with a uuid gets 1.
   */
  lemma AuthorCases(uuidMapping: map<string, Json>, getUserId: int -> Reply<Json>, c: Json)
    ensures var uuid := Field(c, "author_uuid");
      JTruthy(uuid) ==> Author(uuidMapping, getUserId, c) == Ok(if StrOf(uuid) in uuidMapping then uuidMapping[StrOf(uuid)] else JInt(1))
    ensures JTruthy(Field(c, "author_uuid")) ==> Author(map[], getUserId, c) == Ok(JInt(1))
    ensures !JTruthy(Field(c, "author_uuid")) && (!JTruthy(SourceUser(c)) || IntOf(ToValue(SourceUser(c))).Raised? || IntOf(ToValue(SourceUser(c))) == Ok(0)) ==>
      Author(uuidMapping, getUserId, c) == Ok(JInt(1))
    ensures !JTruthy(Field(c, "author_uuid")) ==> Author(uuidMapping, getUserId, c) == TargetUser(getUserId, SourceUser(c))
  {
  }

  // ---------------------------------------------------------- ids

  /**
   * The case id sent: with `preserve_ids`, a truthy id goes through
   * `preserve_or_hash_id` (an integer above the int32 range is hashed with
   * `digest`, the MD5 prefix of its text; a value that does not compare
   * with an integer raises TypeError); otherwise the id as it is.
   */
  function CaseId(digest: int -> nat, preserveIds: bool, c: Json): Reply<Json>
  {
    var id := Field(c, "id");
    if !JTruthy(id) || !preserveIds then Ok(id)
    else match id
      case JInt(i) => Ok(JInt(PreserveOrHashId(i, true, 0, digest(i))))
      case JBool(_) => Ok(id)
      case _ => Raised(TypeError("'<=' not supported"))
  }

  /** An id in the int32 range is kept; a larger one is replaced by a hash in that range. */
  lemma CaseIdKept(digest: int -> nat, c: Json)
    ensures Field(c, "id").JInt? && 0 < Field(c, "id").i <= MaxSafeId ==> CaseId(digest, true, c) == Ok(Field(c, "id"))
    ensures Field(c, "id").JInt? && Field(c, "id").i > MaxSafeId ==>
      CaseId(digest, true, c).Ok? && 0 <= CaseId(digest, true, c).value.i < MaxSafeId
    ensures CaseId(digest, false, c) == Ok(Field(c, "id"))
  {
  }

  /** `suite_id`: present only when the source suite is truthy and maps to a truthy target id. */
  function SuiteId(suites: map<Json, Json>, c: Json): (r: Option<Json>)
    ensures r.Some? <==> JTruthy(Field(c, "suite_id")) && Field(c, "suite_id") in suites && JTruthy(suites[Field(c, "suite_id")])
    ensures r.Some? ==> r.value == suites[Field(c, "suite_id")]
  {
    var source := Field(c, "suite_id");
    var target := if JTruthy(source) then Lookup(suites, source) else JNull;
    if JTruthy(target) then Some(target) else None
  }

  // ---------------------------------------------------------- plain fields

  /** One processed tag: a dict's title or name, or its text; a string as it is; anything else as text. */
  function Tag(tag: Json): Json
  {
    match tag
    case JObject(_) => JOr(JOr(Field(tag, "title"), Field(tag, "name")), JStr(StrOf(tag)))
    case JStr(_) => tag
    case _ => JStr(StrOf(tag))
  }

  /** `processed_tags`; a `tags` value that cannot be iterated raises TypeError. */
  function Tags(c: Json): Reply<seq<Json>>
  {
    match Iter(GetOr(c, "tags", JList([])))
    case None => Raised(NotIterable)
    case Some(items) => Ok(seq(|items|, i requires 0 <= i < |items| => Tag(items[i])))
  }

  /** `created_at` / `updated_at`: kept when a non-empty string, otherwise None. */
  function Timestamp(v: Json): Json
  {
    if JTruthy(v) && v.JStr? then v else JNull
  }

  /** `params`: a non-empty dict is kept; anything else becomes an empty dict. */
  function Params(c: Json): Json
  {
    var p := Field(c, "params");
    if JTruthy(p) && p.JObject? then p else JObject([])
  }

  // ---------------------------------------------------------- text and attachments

  /** `replace_attachment_hashes_in_text` on a value that may not be a string. */
  function Replaced(mapping: Dicts.ODict<string, string>, ws: Option<string>, v: Json): (r: Json)
    ensures !v.JStr? || mapping.entries == map[] ==> r == v
  {
    if v.JStr? then JStr(AttachmentText.ReplaceHashes(StrV(v.s), mapping, ws).s) else v
  }

  /** `attachment_mapping.get(h)` where only a non-empty target counts. */
  function MappedHash(mapping: Dicts.ODict<string, string>, h: Json): (r: Option<string>)
    ensures r.Some? <==> h.JStr? && h.s in mapping.entries && mapping.entries[h.s] != ""
    ensures r.Some? ==> r.value == mapping.entries[h.s]
  {
    if h.JStr? && h.s in mapping.entries && mapping.entries[h.s] != "" then Some(mapping.entries[h.s]) else None
  }

  /**
   * The hash a case attachment names: a string is one; a dict gives its
   * `hash`, or else the hash in its `url` (`/attachment/<hex>/`, as
   * written), and a `url` that is not a string raises TypeError.
   */
  function SourceHash(att: Json): Reply<Json>
  {
    match att
    case JStr(_) => Ok(att)
    case JObject(_) =>
      if Get(att, "hash").Some? then Ok(Get(att, "hash").value)
      else if Get(att, "url").Some? then
        (match Get(att, "url").value
         case JStr(u) => Ok(match AttachmentText.Search(u, AttachmentText.Segment) case Some(h) => JStr(h) case None => JNull)
         case _ => Raised(TypeError("expected string or bytes-like object")))
      else Ok(JNull)
    case _ => Ok(JNull)
  }

  function CaseHash(mapping: Dicts.ODict<string, string>): Json -> Option<string>
  {
    (h: Json) => if JTruthy(h) then MappedHash(mapping, h) else None
  }

  /** The case's target attachments: none without attachments or without a mapping. */
  function CaseAttachments(mapping: Dicts.ODict<string, string>, c: Json): (r: Reply<seq<string>>)
    ensures !JTruthy(GetOr(c, "attachments", JList([]))) || mapping.entries == map[] ==> r == Ok([])
  {
    var atts := JOr(GetOr(c, "attachments", JList([])), JList([]));
    if !JTruthy(atts) || mapping.entries == map[] then Ok([])
    else match Iter(atts)
      case None => Raised(NotIterable)
      case Some(items) => ItemAttachments(mapping, items)
  }

  /** The mapped hashes of the attachment items, or the exception of the first item without a hash. */
  function ItemAttachments(mapping: Dicts.ODict<string, string>, items: seq<Json>): Reply<seq<string>>
  {
    match Steps.MapAll(SourceHash, items)
    case Raised(e) => Raised(e)
    case Ok(hashes) => Ok(Steps.Collect(hashes, CaseHash(mapping)))
  }

  /**
   * The target attachments are the mapped hashes of the items, in the
   * items' order, an item whose hash is unmapped contributing nothing.
   */
  lemma CaseAttachmentsFrom(mapping: Dicts.ODict<string, string>, items: seq<Json>, v: string)
    requires Steps.MapAll(SourceHash, items).Ok?
    ensures var hashes := Steps.MapAll(SourceHash, items).value;
      && |hashes| == |items|
      && (v in Steps.Collect(hashes, CaseHash(mapping)) <==>
          exists i :: 0 <= i < |items| && JTruthy(hashes[i]) && hashes[i].JStr? && hashes[i].s in mapping.entries
            && mapping.entries[hashes[i].s] == v && v != "")
  {
    Steps.MapAllOk(SourceHash, items);
    var hashes := Steps.MapAll(SourceHash, items).value;
    Steps.CollectContents(hashes, CaseHash(mapping), v);
  }

  // ---------------------------------------------------------- parameters

  /** A parameter item with a title (or name) and truthy values; the values as a list. */
  function ItemEntry(item: Json): Option<Json>
  {
    var d := ToDict(item);
    var name := JOr(Field(d, "title"), Field(d, "name"));
    var values := JOr(Field(d, "values"), JList([]));
    if JTruthy(name) && JTruthy(values) then
      Some(JObject([("title", name), ("values", if values.JList? then values else JList([values]))]))
    else None
  }

  /** The target of a shared parameter id: its text is looked up first, then the id as it is. */
  function SharedTarget(spm: map<Json, Json>, sharedId: Json): Json
  {
    if !JTruthy(sharedId) then JNull
    else if JStr(StrOf(sharedId)) in spm then spm[JStr(StrOf(sharedId))]
    else Lookup(spm, sharedId)
  }

  /**
   * One item of `parameters`: a mapped shared parameter becomes
   * `{'shared_id': str(target)}`; a `single` one its item's entry; a `group`
   * one the entries of its items, when there are any.
   */
  function ParameterEntry(spm: map<Json, Json>, item: Json): Option<Json>
  {
    var d := ToDict(item);
    var ptype := Field(d, "type");
    var target := SharedTarget(spm, Field(d, "shared_id"));
    if JTruthy(target) then Some(JObject([("shared_id", JStr(StrOf(target)))]))
    else if ptype == JStr("single") && Get(d, "item").Some? then ItemEntry(Get(d, "item").value)
    else if ptype == JStr("group") && Get(d, "items").Some? && Get(d, "items").value.JList? then
      var group := Steps.Collect(Get(d, "items").value.items, ItemEntry);
      if group != [] then Some(JObject([("items", JList(group))])) else None
    else None
  }

  function EntryWith(spm: map<Json, Json>): Json -> Option<Json>
  {
    (item: Json) => ParameterEntry(spm, item)
  }

  /** The parameters structure: only for a non-empty `parameters` list whose items give some entry. */
  function CaseParameters(spm: map<Json, Json>, c: Json): (r: Option<seq<Json>>)
    ensures r.Some? ==> r.value != []
  {
    var sp := Field(c, "parameters");
    if JTruthy(sp) && sp.JList? then
      var list := Steps.Collect(sp.items, EntryWith(spm));
      if list != [] then Some(list) else None
    else None
  }

  /**
   * A shared parameter whose id (as text, or else as it is) is mapped to a
   * truthy target is sent as a reference to the target; the entries of the
   * structure are exactly the items' entries.
   */
  lemma ParameterEntries(spm: map<Json, Json>, c: Json, e: Json)
    ensures forall item :: JTruthy(SharedTarget(spm, Field(ToDict(item), "shared_id"))) ==>
      ParameterEntry(spm, item) == Some(JObject([("shared_id", JStr(StrOf(SharedTarget(spm, Field(ToDict(item), "shared_id")))))]))
    ensures forall s :: JTruthy(s) && JStr(StrOf(s)) in spm ==> SharedTarget(spm, s) == spm[JStr(StrOf(s))]
    ensures var sp := Field(c, "parameters");
      CaseParameters(spm, c).Some? ==>
        && sp.JList?
        && (e in CaseParameters(spm, c).value <==> exists i :: 0 <= i < |sp.items| && ParameterEntry(spm, sp.items[i]) == Some(e))
  {
    var sp := Field(c, "parameters");
    if sp.JList? {
      Steps.CollectContents(sp.items, EntryWith(spm), e);
    }
  }

  // ---------------------------------------------------------- the tables

  /** What a case is rewritten with. */
  datatype Tables = Tables(
    suites: map<Json, Json>, customFields: map<Json, Json>, milestones: map<Json, Json>,
    sharedSteps: map<Json, Json>, sharedParameters: map<Json, Json>,
    attachments: Dicts.ODict<string, string>, targetWorkspace: Option<string>,
    uuidMapping: map<string, Json>, getUserId: int -> Reply<Json>, digest: int -> nat, preserveIds: bool)

  // ---------------------------------------------------------- custom fields

  /** `custom_field_mapping.get(int(source))`; what `int()` raises escapes. */
  function FieldTarget(cfm: map<Json, Json>, source: Value): Reply<Json>
  {
    match IntOf(source)
    case Raised(e) => Raised(e)
    case Ok(k) => Ok(Lookup(cfm, JInt(k)))
  }

  /** The entry a mapped field contributes: keyed by the target's text, its value's text rewritten. */
  function FieldValue(t: Tables, target: Json, value: Json): Option<(string, Json)>
  {
    if JTruthy(target) then Some((StrOf(target), Replaced(t.attachments, t.targetWorkspace, value))) else None
  }

  /** One item of a `custom_fields` list: a dict with a non-null id. */
  function CustomFieldItem(t: Tables, item: Json): Reply<Option<(string, Json)>>
  {
    if !item.JObject? || Field(item, "id") == JNull then Ok(None)
    else match FieldTarget(t.customFields, ToValue(Field(item, "id")))
      case Raised(e) => Raised(e)
      case Ok(target) => Ok(FieldValue(t, target, Field(item, "value")))
  }

  /** One entry of a `custom_field` dict. */
  function CustomFieldEntry(t: Tables, entry: (string, Json)): Reply<Option<(string, Json)>>
  {
    match FieldTarget(t.customFields, StrV(entry.0))
    case Raised(e) => Raised(e)
    case Ok(target) => Ok(FieldValue(t, target, entry.1))
  }

  /**
   * `case_data['custom_field']`, from a truthy `custom_fields` list or else
   * a truthy `custom_field` dict (a truthy value that is not a dict has no
   * `items` and raises AttributeError).
   */
  function CustomFields(t: Tables, c: Json): Reply<map<string, Json>>
  {
    var list := Get(c, "custom_fields");
    var dict := Get(c, "custom_field");
    if list.Some? && JTruthy(list.value) then
      match Iter(list.value)
      case None => Raised(NotIterable)
      case Some(items) => Steps.Assign(ItemOutcomes(t, items))
    else if dict.Some? && JTruthy(dict.value) then
      if !dict.value.JObject? then Raised(AttributeError)
      else
        Steps.Assign(EntryOutcomes(t, dict.value.entries))
    else Ok(map[])
  }

  function ItemOutcomes(t: Tables, items: seq<Json>): seq<Reply<Option<(string, Json)>>>
  {
    seq(|items|, i requires 0 <= i < |items| => CustomFieldItem(t, items[i]))
  }

  function EntryOutcomes(t: Tables, es: seq<(string, Json)>): seq<Reply<Option<(string, Json)>>>
  {
    seq(|es|, i requires 0 <= i < |es| => CustomFieldEntry(t, es[i]))
  }

  /** A key of `custom_field` is the text of a truthy target that a source field id maps to. */
  lemma CustomFieldKeys(t: Tables, c: Json, k: string)
    requires CustomFields(t, c).Ok? && k in CustomFields(t, c).value
    ensures exists target :: JTruthy(target) && target in t.customFields.Values && StrOf(target) == k
  {
    var list := Get(c, "custom_fields");
    var dict := Get(c, "custom_field");
    if list.Some? && JTruthy(list.value) {
      var items := Iter(list.value).value;
      var outs := ItemOutcomes(t, items);
      Steps.AssignEntries(outs, k);
      var i :| 0 <= i < |outs| && Steps.Sets(outs[i], k);
      FieldKey(t, ToValue(Field(items[i], "id")), Field(items[i], "value"), k);
    } else {
      var es := dict.value.entries;
      var outs := EntryOutcomes(t, es);
      Steps.AssignEntries(outs, k);
      var i :| 0 <= i < |outs| && Steps.Sets(outs[i], k);
      FieldKey(t, StrV(es[i].0), es[i].1, k);
    }
  }

  lemma FieldKey(t: Tables, source: Value, value: Json, k: string)
    requires FieldTarget(t.customFields, source).Ok?
    requires var o := FieldValue(t, FieldTarget(t.customFields, source).value, value); o.Some? && o.value.0 == k
    ensures exists target :: JTruthy(target) && target in t.customFields.Values && StrOf(target) == k
  {
    var target := FieldTarget(t.customFields, source).value;
    assert JTruthy(target) && target in t.customFields.Values;
  }

  // ---------------------------------------------------------- steps

  /** The shared-step hash a step names (`shared`, `shared_step.hash` or `shared_step_hash`), null when none. */
  function SharedHash(d: Json): Json
  {
    if Get(d, "shared").Some? then Get(d, "shared").value
    else if Get(d, "shared_step").Some? then
      (var o := Get(d, "shared_step").value; if o.JObject? then Field(o, "hash") else JNull)
    else if Get(d, "shared_step_hash").Some? then Get(d, "shared_step_hash").value
    else JNull
  }

  function StepHash(mapping: Dicts.ODict<string, string>): Json -> Option<string>
  {
    (h: Json) => MappedHash(mapping, h)
  }

  /** A regular step's target attachments. */
  function StepAttachments(mapping: Dicts.ODict<string, string>, d: Json): Reply<seq<string>>
  {
    var atts := JOr(GetOr(d, "attachments", JList([])), JList([]));
    if !JTruthy(atts) || mapping.entries == map[] then Ok([])
    else match Iter(atts)
      case None => Raised(NotIterable)
      case Some(items) => Ok(Steps.Collect(items, StepHash(mapping)))
  }

  function Strings(xs: seq<string>): seq<Json>
  {
    seq(|xs|, i requires 0 <= i < |xs| => JStr(xs[i]))
  }

  /** A regular step, the `n`-th kept so far: its texts rewritten, its position defaulting to `n + 1`. */
  function RegularStep(t: Tables, d: Json, n: nat, atts: seq<string>): Json
  {
    JObject([
      ("action", Replaced(t.attachments, t.targetWorkspace, GetOr(d, "action", JStr("")))),
      ("expected_result", Replaced(t.attachments, t.targetWorkspace, Field(d, "expected_result"))),
      ("data", Replaced(t.attachments, t.targetWorkspace, Field(d, "data"))),
      ("position", GetOr(d, "position", JInt(n + 1))),
      ("attachments", JList(Strings(atts)))])
  }

  /**
   * One step, after `n` kept ones: a reference to a shared step becomes
   * `{'shared': target}`, or nothing when the hash is unmapped; any other
   * step is kept as a regular one.
   */
  function StepOutcome(t: Tables, step: Json, n: nat): Reply<Option<Json>>
  {
    var d := ToDict(step);
    var hash := SharedHash(d);
    if JTruthy(hash) then
      Ok(if JTruthy(Lookup(t.sharedSteps, hash)) then Some(JObject([("shared", Lookup(t.sharedSteps, hash))])) else None)
    else match StepAttachments(t.attachments, d)
      case Raised(e) => Raised(e)
      case Ok(atts) => Ok(Some(RegularStep(t, d, n, atts)))
  }

  /** `processed_steps`. */
  function ProcessSteps(t: Tables, steps: seq<Json>): Reply<seq<Json>>
  {
    if steps == [] then Ok([])
    else
      var n := |steps| - 1;
      match ProcessSteps(t, steps[..n])
      case Raised(e) => Raised(e)
      case Ok(done) =>
        match StepOutcome(t, steps[n], |done|)
        case Raised(e) => Raised(e)
        case Ok(o) => Ok(done + (if o.Some? then [o.value] else []))
  }

  /** The step `step` refers to the shared step `target`. */
  predicate RefersTo(t: Tables, step: Json, target: Json)
  {
    var hash := SharedHash(ToDict(step));
    JTruthy(hash) && JTruthy(target) && Lookup(t.sharedSteps, hash) == target
  }

  /**
   * A processed step has a `shared` key iff it is the reference to the
   * mapped target of some step's shared hash, and every such reference is
   * kept; a regular step never has one.
   */
  lemma {:induction false} SharedSteps(t: Tables, steps: seq<Json>, e: Json)
    requires ProcessSteps(t, steps).Ok?
    ensures e in ProcessSteps(t, steps).value && Get(e, "shared").Some? <==>
      exists i, target :: 0 <= i < |steps| && RefersTo(t, steps[i], target) && e == JObject([("shared", target)])
  {
    if steps != [] {
      var n := |steps| - 1;
      var init := steps[..n];
      SharedSteps(t, init, e);
      assert forall i :: 0 <= i < n ==> init[i] == steps[i];
      var done := ProcessSteps(t, init).value;
      var o := StepOutcome(t, steps[n], |done|).value;
      var extra := if o.Some? then [o.value] else [];
      var full := ProcessSteps(t, steps).value;
      assert full == done + extra;
      assert e in full <==> e in done || e in extra;
      assert e in extra <==> o == Some(e);
      OutcomeShared(t, steps[n], |done|, e);
      if e in full && Get(e, "shared").Some? {
        if e in done {
          var i, target :| 0 <= i < n && RefersTo(t, init[i], target) && e == JObject([("shared", target)]);
          assert 0 <= i < |steps| && RefersTo(t, steps[i], target);
        } else {
          var target :| RefersTo(t, steps[n], target) && e == JObject([("shared", target)]);
          assert 0 <= n < |steps| && RefersTo(t, steps[n], target);
        }
      }
      if exists i, target :: 0 <= i < |steps| && RefersTo(t, steps[i], target) && e == JObject([("shared", target)]) {
        var i, target :| 0 <= i < |steps| && RefersTo(t, steps[i], target) && e == JObject([("shared", target)]);
        assert Get(e, "shared") == Some(target);
        if i < n {
          assert RefersTo(t, init[i], target);
          assert e in done;
        } else {
          assert i == n && RefersTo(t, steps[n], target);
          assert o == Some(e);
        }
      }
    }
  }

  /** One step's outcome is a dict with a `shared` key iff the step refers to a shared step, and then it is the reference. */
  lemma OutcomeShared(t: Tables, step: Json, n: nat, e: Json)
    requires StepOutcome(t, step, n).Ok?
    ensures StepOutcome(t, step, n).value == Some(e) && Get(e, "shared").Some? <==>
      exists target :: RefersTo(t, step, target) && e == JObject([("shared", target)])
  {
    var d := ToDict(step);
    var hash := SharedHash(d);
    if JTruthy(hash) {
      var target := Lookup(t.sharedSteps, hash);
      if e == JObject([("shared", target)]) && JTruthy(target) {
        assert RefersTo(t, step, target);
      }
    } else {
      var atts := StepAttachments(t.attachments, d).value;
      RegularUnshared(t, d, n, atts);
      assert forall target :: !RefersTo(t, step, target);
    }
  }

  /** A regular step has no `shared` key. */
  lemma RegularUnshared(t: Tables, d: Json, n: nat, atts: seq<string>)
    ensures Get(RegularStep(t, d, n, atts), "shared").None?
  {
    var e := RegularStep(t, d, n, atts).entries;
    assert e[4..][1..] == [] && e[3..][1..] == e[4..] && e[2..][1..] == e[3..] && e[1..][1..] == e[2..];
    assert JGet(e, "shared") == JGet(e[1..], "shared") == JGet(e[2..], "shared") == JGet(e[3..], "shared")
      == JGet(e[4..], "shared") == JGet([], "shared");
  }

  /**
   * A regular step is kept at the position after the steps kept before it,
   * with the position it names or else that one (counting from 1).
   */
  lemma RegularPosition(t: Tables, steps: seq<Json>, i: nat)
    requires i < |steps| && ProcessSteps(t, steps[..i + 1]).Ok?
    requires !JTruthy(SharedHash(ToDict(steps[i])))
    ensures ProcessSteps(t, steps[..i]).Ok?
    ensures var before := ProcessSteps(t, steps[..i]).value;
      var after := ProcessSteps(t, steps[..i + 1]).value;
      && |after| == |before| + 1
      && after[..|before|] == before
      && Get(after[|before|], "position") == Some(GetOr(ToDict(steps[i]), "position", JInt(|before| + 1)))
  {
    assert steps[..i + 1][..i] == steps[..i];
    assert steps[..i + 1][i] == steps[i];
    var before := ProcessSteps(t, steps[..i]).value;
    var d := ToDict(steps[i]);
    var atts := StepAttachments(t.attachments, d).value;
    assert ProcessSteps(t, steps[..i + 1]).value == before + [RegularStep(t, d, |before|, atts)];
    RegularStepPosition(t, d, |before|, atts);
  }

  /** A regular step's `position` is the source's, or its place counting from 1. */
  lemma RegularStepPosition(t: Tables, d: Json, index: nat, atts: seq<string>)
    ensures Get(RegularStep(t, d, index, atts), "position") == Some(GetOr(d, "position", JInt(index + 1)))
  {
    var e := RegularStep(t, d, index, atts).entries;
    assert e[0].0 != "position" && e[1].0 != "position" && e[2].0 != "position" && e[3].0 == "position";
    assert JGet(e[3..], "position") == Some(GetOr(d, "position", JInt(index + 1)));
    assert e[2..][1..] == e[3..] && e[1..][1..] == e[2..];
    assert JGet(e, "position") == JGet(e[1..], "position") == JGet(e[2..], "position") == JGet(e[3..], "position");
  }

  /** `case_data['steps']`: only for a truthy `steps` value, which must be iterable. */
  function CaseSteps(t: Tables, c: Json): Reply<Option<seq<Json>>>
  {
    var s := Get(c, "steps");
    if s.Some? && JTruthy(s.value) then
      match Iter(s.value)
      case None => Raised(NotIterable)
      case Some(items) => (match ProcessSteps(t, items) case Raised(e) => Raised(e) case Ok(ps) => Ok(Some(ps)))
    else Ok(None)
  }

  // ---------------------------------------------------------- the case

  /** `case_data`; `parameters`, `steps`, `id` and `suite_id` only when present. */
  datatype CaseData = CaseData(
    title: Json, description: Json, preconditions: Json, postconditions: Json,
    severity: Json, priority: Json, caseType: Json, behavior: Json, automation: Json, status: Json,
    tags: seq<Json>, createdAt: Json, updatedAt: Json, authorId: Json, milestoneId: Json,
    attachments: seq<string>, isFlaky: Json, customField: map<string, Json>, params: Json,
    parameters: Option<seq<Json>>, steps: Option<seq<Json>>, id: Option<Json>, suiteId: Option<Json>)

  /** The milestone sent: the mapped one for a truthy source milestone, else None. */
  function Milestone(milestones: map<Json, Json>, c: Json): Json
  {
    if JTruthy(Field(c, "milestone_id")) then Lookup(milestones, Field(c, "milestone_id")) else JNull
  }

  /** The case data from the parts that can raise, computed in the order the function reads them. */
  function Assemble(t: Tables, c: Json, id: Json, tags: seq<Json>, author: Json, atts: seq<string>,
                    cf: map<string, Json>, steps: Option<seq<Json>>): CaseData
  {
    CaseData(
      GetOr(c, "title", JStr("")),
      Replaced(t.attachments, t.targetWorkspace, GetOr(c, "description", JStr(""))),
      Replaced(t.attachments, t.targetWorkspace, GetOr(c, "preconditions", JStr(""))),
      Replaced(t.attachments, t.targetWorkspace, GetOr(c, "postconditions", JStr(""))),
      GetOr(c, "severity", JInt(2)), GetOr(c, "priority", JInt(2)), GetOr(c, "type", JInt(1)),
      GetOr(c, "behavior", JInt(1)), GetOr(c, "automation", JInt(0)), GetOr(c, "status", JInt(1)),
      tags, Timestamp(Field(c, "created_at")), Timestamp(Field(c, "updated_at")), author,
      Milestone(t.milestones, c), atts, GetOr(c, "is_flaky", JInt(0)), cf, Params(c),
      CaseParameters(t.sharedParameters, c), steps,
      if JTruthy(id) then Some(id) else None,
      SuiteId(t.suites, c))
  }

  /**
   * `transform_case_data`. The parts that can raise are read in the source's
   * order (id, tags, author, attachments, custom fields, steps) and the first
   * exception escapes; the function never returns None.
   */
  function Transform(t: Tables, c: Json): Reply<CaseData>
  {
    match CaseId(t.digest, t.preserveIds, c)
    case Raised(e) => Raised(e)
    case Ok(id) =>
    match Tags(c)
    case Raised(e) => Raised(e)
    case Ok(tags) =>
    match Author(t.uuidMapping, t.getUserId, c)
    case Raised(e) => Raised(e)
    case Ok(author) =>
    match CaseAttachments(t.attachments, c)
    case Raised(e) => Raised(e)
    case Ok(atts) =>
    match CustomFields(t, c)
    case Raised(e) => Raised(e)
    case Ok(cf) =>
    match CaseSteps(t, c)
    case Raised(e) => Raised(e)
    case Ok(steps) => Ok(Assemble(t, c, id, tags, author, atts, cf, steps))
  }

  /**
   * What the transformed case carries: the suite only when it maps to a
   * truthy target, the author as the author rule gives it, the mapped
   * attachments and custom fields, and the steps and parameters as built.
   */
  lemma TransformParts(t: Tables, c: Json)
    requires Transform(t, c).Ok?
    ensures var d := Transform(t, c).value;
      && d.suiteId == SuiteId(t.suites, c)
      && Author(t.uuidMapping, t.getUserId, c) == Ok(d.authorId)
      && CaseAttachments(t.attachments, c) == Ok(d.attachments)
      && CustomFields(t, c) == Ok(d.customField)
      && CaseSteps(t, c) == Ok(d.steps)
      && d.parameters == CaseParameters(t.sharedParameters, c)
      && CaseId(t.digest, t.preserveIds, c).Ok?
      && (d.id.Some? <==> JTruthy(CaseId(t.digest, t.preserveIds, c).value))
  {
  }

  /** A case goes through the raw client iff one of its steps refers to a shared step or it has a parameters structure. */
  predicate Raw(d: CaseData)
  {
    || (d.steps.Some? && exists i :: 0 <= i < |d.steps.value| && Get(d.steps.value[i], "shared").Some?)
    || d.parameters.Some?
  }

  // ---------------------------------------------------------- the loops of transform_case_data

  /** The tags loop. */
  method ProcessTags(c: Json) returns (r: Reply<seq<Json>>)
    ensures r == Tags(c)
  {
    var it := Iter(GetOr(c, "tags", JList([])));
    if it.None? {
      return Raised(NotIterable);
    }
    var items := it.value;
    var processed: seq<Json> := [];
    for i := 0 to |items|
      invariant |processed| == i
      invariant forall j :: 0 <= j < i ==> processed[j] == Tag(items[j])
    {
      var tag := items[i];
      var name: Json;
      if tag.JObject? {
        name := JOr(JOr(Field(tag, "title"), Field(tag, "name")), JStr(StrOf(tag)));
      } else if tag.JStr? {
        name := tag;
      } else {
        name := JStr(StrOf(tag));
      }
      assert name == Tag(tag);
      processed := processed + [name];
    }
    assert processed == seq(|items|, i requires 0 <= i < |items| => Tag(items[i]));
    return Ok(processed);
  }

  /** The loop over the items of a group parameter. */
  method GroupItems(items: seq<Json>) returns (group: seq<Json>)
    ensures group == Steps.Collect(items, ItemEntry)
  {
    group := [];
    for i := 0 to |items|
      invariant group == Steps.Collect(items[..i], ItemEntry)
    {
      assert items[..i + 1][..i] == items[..i];
      var entry := ItemEntry(items[i]);
      if entry.Some? {
        group := group + [entry.value];
      }
    }
    assert items[..|items|] == items;
  }

  /** The loop that builds the parameters structure. */
  method BuildParameters(spm: map<Json, Json>, c: Json) returns (r: Option<seq<Json>>)
    ensures r == CaseParameters(spm, c)
  {
    var sp := Field(c, "parameters");
    if !(JTruthy(sp) && sp.JList?) {
      return None;
    }
    var list: seq<Json> := [];
    for i := 0 to |sp.items|
      invariant list == Steps.Collect(sp.items[..i], EntryWith(spm))
    {
      assert sp.items[..i + 1][..i] == sp.items[..i];
      var d := ToDict(sp.items[i]);
      var ptype := Field(d, "type");
      var target := SharedTarget(spm, Field(d, "shared_id"));
      if JTruthy(target) {
        list := list + [JObject([("shared_id", JStr(StrOf(target)))])];
      } else if ptype == JStr("single") && Get(d, "item").Some? {
        var entry := ItemEntry(Get(d, "item").value);
        if entry.Some? {
          list := list + [entry.value];
        }
      } else if ptype == JStr("group") && Get(d, "items").Some? && Get(d, "items").value.JList? {
        var group := GroupItems(Get(d, "items").value.items);
        if group != [] {
          list := list + [JObject([("items", JList(group))])];
        }
      }
    }
    assert sp.items[..|sp.items|] == sp.items;
    return if list != [] then Some(list) else None;
  }

  /** The case attachments loop. */
  method MapCaseAttachments(mapping: Dicts.ODict<string, string>, c: Json) returns (r: Reply<seq<string>>)
    ensures r == CaseAttachments(mapping, c)
  {
    var atts := JOr(GetOr(c, "attachments", JList([])), JList([]));
    if !JTruthy(atts) || mapping.entries == map[] {
      return Ok([]);
    }
    var it := Iter(atts);
    if it.None? {
      return Raised(NotIterable);
    }
    r := MapAttachmentItems(mapping, it.value);
  }

  /** The loop over a case's attachment items. */
  method MapAttachmentItems(mapping: Dicts.ODict<string, string>, items: seq<Json>) returns (r: Reply<seq<string>>)
    ensures r == ItemAttachments(mapping, items)
  {
    var mapped: seq<string> := [];
    ghost var hashes: seq<Json> := [];
    for i := 0 to |items|
      invariant Steps.MapAll(SourceHash, items[..i]) == Ok(hashes)
      invariant mapped == Steps.Collect(hashes, CaseHash(mapping))
    {
      Steps.MapAllSnoc(SourceHash, items, i, hashes);
      var h := SourceHash(items[i]);
      if h.Raised? {
        Steps.MapAllStop(SourceHash, items, i + 1);
        return Raised(h.exc);
      }
      Steps.CollectSnoc(hashes, h.value, CaseHash(mapping));
      hashes := hashes + [h.value];
      if JTruthy(h.value) {
        var m := MappedHash(mapping, h.value);
        if m.Some? {
          mapped := mapped + [m.value];
        }
      }
    }
    assert items[..|items|] == items;
    return Ok(mapped);
  }

  /** The custom-field loops, over the `custom_fields` list or else the `custom_field` dict. */
  method MapCustomFields(t: Tables, c: Json) returns (r: Reply<map<string, Json>>)
    ensures r == CustomFields(t, c)
  {
    var list := Get(c, "custom_fields");
    var dict := Get(c, "custom_field");
    if list.Some? && JTruthy(list.value) {
      var it := Iter(list.value);
      if it.None? {
        return Raised(NotIterable);
      }
      r := ListFields(t, it.value);
    } else if dict.Some? && JTruthy(dict.value) {
      if !dict.value.JObject? {
        return Raised(AttributeError);
      }
      r := DictFields(t, dict.value.entries);
    } else {
      r := Ok(map[]);
    }
  }

  method ListFields(t: Tables, items: seq<Json>) returns (r: Reply<map<string, Json>>)
    ensures r == Steps.Assign(ItemOutcomes(t, items))
  {
    ghost var outs := ItemOutcomes(t, items);
    var fields: map<string, Json> := map[];
    for i := 0 to |items|
      invariant Steps.Assign(outs[..i]) == Ok(fields)
    {
      var o := CustomFieldItem(t, items[i]);
      assert o == outs[i];
      if o.Raised? {
        Steps.AssignStops(outs, i);
        return Raised(o.exc);
      }
      Steps.AssignSnoc(outs, i, fields);
      if o.value.Some? {
        fields := fields[o.value.value.0 := o.value.value.1];
      }
    }
    assert outs[..|items|] == outs;
    return Ok(fields);
  }

  method DictFields(t: Tables, es: seq<(string, Json)>) returns (r: Reply<map<string, Json>>)
    ensures r == Steps.Assign(EntryOutcomes(t, es))
  {
    ghost var outs := EntryOutcomes(t, es);
    var fields: map<string, Json> := map[];
    for i := 0 to |es|
      invariant Steps.Assign(outs[..i]) == Ok(fields)
    {
      var o := CustomFieldEntry(t, es[i]);
      assert o == outs[i];
      if o.Raised? {
        Steps.AssignStops(outs, i);
        return Raised(o.exc);
      }
      Steps.AssignSnoc(outs, i, fields);
      if o.value.Some? {
        fields := fields[o.value.value.0 := o.value.value.1];
      }
    }
    assert outs[..|es|] == outs;
    return Ok(fields);
  }

  /** The loop over a regular step's attachments. */
  method MapStepAttachments(mapping: Dicts.ODict<string, string>, d: Json) returns (r: Reply<seq<string>>)
    ensures r == StepAttachments(mapping, d)
  {
    var atts := JOr(GetOr(d, "attachments", JList([])), JList([]));
    if !JTruthy(atts) || mapping.entries == map[] {
      return Ok([]);
    }
    var it := Iter(atts);
    if it.None? {
      return Raised(NotIterable);
    }
    var items := it.value;
    var mapped: seq<string> := [];
    for i := 0 to |items|
      invariant mapped == Steps.Collect(items[..i], StepHash(mapping))
    {
      assert items[..i + 1][..i] == items[..i];
      var m := MappedHash(mapping, items[i]);
      if m.Some? {
        mapped := mapped + [m.value];
      }
    }
    assert items[..|items|] == items;
    return Ok(mapped);
  }

  /** The steps loop. */
  method BuildSteps(t: Tables, steps: seq<Json>) returns (r: Reply<seq<Json>>)
    ensures r == ProcessSteps(t, steps)
  {
    var processed: seq<Json> := [];
    for i := 0 to |steps|
      invariant ProcessSteps(t, steps[..i]) == Ok(processed)
    {
      assert steps[..i + 1][..i] == steps[..i] && steps[..i + 1][i] == steps[i];
      ghost var o := StepOutcome(t, steps[i], |processed|);
      var d := ToDict(steps[i]);
      var hash := SharedHash(d);
      if JTruthy(hash) {
        var target := Lookup(t.sharedSteps, hash);
        if JTruthy(target) {
          assert o == Ok(Some(JObject([("shared", target)])));
          processed := processed + [JObject([("shared", target)])];
        } else {
          assert o == Ok(None);
          assert processed + [] == processed;
        }
      } else {
        var atts := MapStepAttachments(t.attachments, d);
        if atts.Raised? {
          RaisedStays(t, steps, i + 1);
          return Raised(atts.exc);
        }
        assert o == Ok(Some(RegularStep(t, d, |processed|, atts.value)));
        processed := processed + [RegularStep(t, d, |processed|, atts.value)];
      }
    }
    assert steps[..|steps|] == steps;
    return Ok(processed);
  }

  /** Once a prefix of the steps raises, so do all the steps. */
  lemma {:induction false} RaisedStays(t: Tables, steps: seq<Json>, k: nat)
    requires k <= |steps| && ProcessSteps(t, steps[..k]).Raised?
    ensures ProcessSteps(t, steps) == ProcessSteps(t, steps[..k])
    decreases |steps| - k
  {
    if k < |steps| {
      assert steps[..k + 1][..k] == steps[..k];
      RaisedStays(t, steps, k + 1);
    } else {
      assert steps[..k] == steps;
    }
  }

  /** `transform_case_data`, its loops as written. */
  method TransformCase(t: Tables, c: Json) returns (r: Reply<CaseData>)
    ensures r == Transform(t, c)
  {
    var id := CaseId(t.digest, t.preserveIds, c);
    if id.Raised? {
      return Raised(id.exc);
    }
    var tags := ProcessTags(c);
    if tags.Raised? {
      return Raised(tags.exc);
    }
    var author := Author(t.uuidMapping, t.getUserId, c);
    if author.Raised? {
      return Raised(author.exc);
    }
    var parameters := BuildParameters(t.sharedParameters, c);
    var atts := MapCaseAttachments(t.attachments, c);
    if atts.Raised? {
      return Raised(atts.exc);
    }
    var cf := MapCustomFields(t, c);
    if cf.Raised? {
      return Raised(cf.exc);
    }
    var steps: Option<seq<Json>> := None;
    var s := Get(c, "steps");
    if s.Some? && JTruthy(s.value) {
      var it := Iter(s.value);
      if it.None? {
        return Raised(NotIterable);
      }
      var ps := BuildSteps(t, it.value);
      if ps.Raised? {
        return Raised(ps.exc);
      }
      steps := Some(ps.value);
    }
    var d := Assemble(t, c, id.value, tags.value, author.value, atts.value, cf.value, steps);
    return Ok(d.(parameters := parameters));
  }

  // ---------------------------------------------------------- migrate_cases: the tables

  /** The batch size, which is also the listing's page size: 20 for an enterprise target, else 100. */
  function BatchLimit(enterprise: bool): (r: nat)
    ensures r > 0
  {
    if enterprise then 20 else 100
  }

  /** A dict's items, in iteration order. */
  function ItemsOf(d: Dicts.ODict<string, string>): seq<(string, string)>
  {
    seq(|d.keys|, i requires 0 <= i < |d.keys| => (d.keys[i], d.entries[d.keys[i]]))
  }

  /** The attachment mapping with every key also under its lower-case form, each item writing its lower-case key first. */
  function Normalize(ps: seq<(string, string)>): Dicts.ODict<string, string>
  {
    if ps == [] then Dicts.Empty()
    else
      var n := |ps| - 1;
      Dicts.Put(Dicts.Put(Normalize(ps[..n]), Lower(ps[n].0), ps[n].1), ps[n].0, ps[n].1)
  }

  /** The attachment mapping `migrate_cases` uses for project `code`: the store's, normalised, or none. */
  function AttachmentMapping(store: Dicts.ODict<string, Dicts.ODict<string, string>>, code: string): Dicts.ODict<string, string>
  {
    if code in store.entries then Normalize(ItemsOf(store.entries[code])) else Dicts.Empty()
  }

  /** The item `p` puts the key `k` in the normalised mapping. */
  predicate Names(p: (string, string), k: string)
  {
    p.0 == k || Lower(p.0) == k
  }

  /** The entries of the normalised mapping, as a plain table. */
  function NormalizedEntries(ps: seq<(string, string)>): map<string, string>
  {
    if ps == [] then map[]
    else
      var n := |ps| - 1;
      NormalizedEntries(ps[..n])[Lower(ps[n].0) := ps[n].1][ps[n].0 := ps[n].1]
  }

  /** The normalised mapping holds exactly the entries the items write. */
  lemma {:induction false} NormalizeAgree(ps: seq<(string, string)>)
    ensures Normalize(ps).entries == NormalizedEntries(ps)
  {
    if ps != [] {
      NormalizeAgree(ps[..|ps| - 1]);
    }
  }

  /** A key is in the normalised mapping iff it is a key of the original or the lower-case form of one. */
  lemma NormalizeKeys(ps: seq<(string, string)>, k: string)
    ensures k in Normalize(ps).entries <==> exists i :: 0 <= i < |ps| && Names(ps[i], k)
  {
    NormalizeAgree(ps);
    if k in NormalizedEntries(ps) {
      NormalizeValues(ps, k);
    }
    if i :| 0 <= i < |ps| && Names(ps[i], k) {
      NormalizePresent(ps, i, k);
    }
  }

  /** Every key an item names is present. */
  lemma {:induction false} NormalizePresent(ps: seq<(string, string)>, i: nat, k: string)
    requires i < |ps| && Names(ps[i], k)
    ensures k in NormalizedEntries(ps)
  {
    var n := |ps| - 1;
    if !Names(ps[n], k) {
      var init := ps[..n];
      assert init[i] == ps[i];
      NormalizePresent(init, i, k);
    }
  }

  /** Every value of the normalised mapping is the value of a key that names it. */
  lemma {:induction false} NormalizeValues(ps: seq<(string, string)>, k: string)
    requires k in NormalizedEntries(ps)
    ensures exists i :: 0 <= i < |ps| && Names(ps[i], k) && NormalizedEntries(ps)[k] == ps[i].1
  {
    var n := |ps| - 1;
    if !Names(ps[n], k) {
      var init := ps[..n];
      NormalizeValues(init, k);
      var i :| 0 <= i < n && Names(init[i], k) && NormalizedEntries(init)[k] == init[i].1;
      assert init[i] == ps[i];
    }
  }

  /** One item: the key it names holds its value, and every other key is as before. */
  lemma NormalizeStep(ps: seq<(string, string)>, k: string)
    requires ps != []
    ensures var n := |ps| - 1;
      if Names(ps[n], k) then k in Normalize(ps).entries && Normalize(ps).entries[k] == ps[n].1
      else
        && (k in Normalize(ps).entries <==> k in Normalize(ps[..n]).entries)
        && (k in Normalize(ps[..n]).entries ==> Normalize(ps).entries[k] == Normalize(ps[..n]).entries[k])
  {
    NormalizeAgree(ps);
    NormalizeAgree(ps[..|ps| - 1]);
  }

  /**
   * A key keeps its own value when no other key of the mapping has it as
   * its lower-case form (always so when the keys are already lower-case, as
   * the hex hashes are).
   */
  lemma {:induction false} NormalizeKeeps(ps: seq<(string, string)>, i: nat)
    requires i < |ps|
    requires forall j :: 0 <= j < |ps| && Names(ps[j], ps[i].0) ==> ps[j].0 == ps[i].0
    requires forall j, l :: 0 <= j < l < |ps| ==> ps[j].0 != ps[l].0
    ensures ps[i].0 in NormalizedEntries(ps) && NormalizedEntries(ps)[ps[i].0] == ps[i].1
  {
    var n := |ps| - 1;
    if i < n {
      var init := ps[..n];
      assert forall j :: 0 <= j < n ==> init[j] == ps[j];
      NormalizeKeeps(init, i);
      assert ps[n].0 != ps[i].0;
      assert !Names(ps[n], ps[i].0);
    }
  }

  /** The store's items are the dict's own: its keys, in order, with their values and no key twice. */
  lemma ItemsOfKeys(d: Dicts.ODict<string, string>)
    ensures |ItemsOf(d)| == |d.keys|
    ensures forall i :: 0 <= i < |d.keys| ==> ItemsOf(d)[i] == (d.keys[i], d.entries[d.keys[i]])
    ensures forall j, l :: 0 <= j < l < |ItemsOf(d)| ==> ItemsOf(d)[j].0 != ItemsOf(d)[l].0
  {
  }

  /** The store's shared-parameter table after `migrate_cases`: updated with the passed table when both are non-empty. */
  function SharedParameterStore(store: map<Json, Json>, passed: map<Json, Json>): map<Json, Json>
  {
    if store != map[] && passed != map[] then store + passed else store
  }

  /** The shared-parameter table the cases are rewritten with: the updated store's, or else the passed one. */
  function SharedParameterTable(store: map<Json, Json>, passed: map<Json, Json>): map<Json, Json>
  {
    if store != map[] then SharedParameterStore(store, passed) else passed
  }

  /** Passed entries win over the store's; the store's other entries stay. */
  lemma SharedParameterTableEntries(store: map<Json, Json>, passed: map<Json, Json>, k: Json)
    ensures k in SharedParameterTable(store, passed) <==> k in store || k in passed
    ensures k in passed ==> SharedParameterTable(store, passed)[k] == passed[k]
    ensures k in store && k !in passed ==> SharedParameterTable(store, passed)[k] == store[k]
    ensures store != map[] ==> SharedParameterStore(store, passed) == SharedParameterTable(store, passed)
  {
  }

  /** What each case is rewritten with, from the tables passed in and the store. */
  function TablesFor(suites: map<Json, Json>, customFields: map<Json, Json>, milestones: map<Json, Json>,
                     sharedSteps: map<Json, Json>, sharedParameters: map<Json, Json>,
                     attachments: Dicts.ODict<string, string>, targetWorkspace: Option<string>,
                     getUserId: int -> Reply<Json>, digest: int -> nat, preserveIds: bool): Tables
  {
    Tables(suites, customFields, milestones, sharedSteps, sharedParameters, attachments, targetWorkspace,
           map[], getUserId, digest, preserveIds)
  }

  // ---------------------------------------------------------- migrate_cases: the batches

  /** A transformed case with its source id (`case_dict.get('id')`). */
  function Prepare(t: Tables, c: Json): (r: Reply<(Json, CaseData)>)
    ensures r.Ok? <==> Transform(t, c).Ok?
    ensures r.Ok? ==> r.value == (Field(c, "id"), Transform(t, c).value)
  {
    match Transform(t, c)
    case Raised(e) => Raised(e)
    case Ok(d) => Ok((Field(c, "id"), d))
  }

  function PrepareWith(t: Tables): Json -> Reply<(Json, CaseData)>
  {
    (c: Json) => Prepare(t, c)
  }

  /** The transformed cases of a batch, in order; the first exception escapes. */
  function Prepared(t: Tables, batch: seq<Json>): Reply<seq<(Json, CaseData)>>
  {
    Steps.MapAll(PrepareWith(t), batch)
  }

  /** The cases for the bulk call, in order. */
  function PlainOf(ps: seq<(Json, CaseData)>): seq<(Json, CaseData)>
  {
    if ps == [] then []
    else
      var n := |ps| - 1;
      PlainOf(ps[..n]) + (if Raw(ps[n].1) then [] else [ps[n]])
  }

  /** The cases for the raw client, in order. */
  function RawOf(ps: seq<(Json, CaseData)>): seq<(Json, CaseData)>
  {
    if ps == [] then []
    else
      var n := |ps| - 1;
      RawOf(ps[..n]) + (if Raw(ps[n].1) then [ps[n]] else [])
  }

  /** One more case goes to the end of the list it belongs to. */
  lemma PartsSnoc(ps: seq<(Json, CaseData)>, p: (Json, CaseData))
    ensures PlainOf(ps + [p]) == PlainOf(ps) + (if Raw(p.1) then [] else [p])
    ensures RawOf(ps + [p]) == RawOf(ps) + (if Raw(p.1) then [p] else [])
  {
    assert (ps + [p])[..|ps|] == ps;
  }

  /**
   * Each transformed case goes to exactly one of the two lists: the raw
   * ones to the raw client, the others to the bulk call.
   */
  lemma {:induction false} PartitionOf(ps: seq<(Json, CaseData)>, p: (Json, CaseData))
    ensures |PlainOf(ps)| + |RawOf(ps)| == |ps|
    ensures p in PlainOf(ps) <==> p in ps && !Raw(p.1)
    ensures p in RawOf(ps) <==> p in ps && Raw(p.1)
  {
    if ps != [] {
      var n := |ps| - 1;
      PartitionOf(ps[..n], p);
      assert ps == ps[..n] + [ps[n]];
    }
  }

  function Cases(ps: seq<(Json, CaseData)>): seq<CaseData>
  {
    seq(|ps|, i requires 0 <= i < |ps| => ps[i].1)
  }

  function SourceIds(ps: seq<(Json, CaseData)>): seq<Json>
  {
    seq(|ps|, i requires 0 <= i < |ps| => ps[i].0)
  }

  /** Source ids paired with the returned ids by position, as far as both go. */
  function Zip(sids: seq<Json>, ids: seq<Json>): (r: seq<(Json, Json)>)
    ensures |r| == if |sids| < |ids| then |sids| else |ids|
    ensures forall i :: 0 <= i < |r| ==> r[i] == (sids[i], ids[i])
  {
    var n := if |sids| < |ids| then |sids| else |ids|;
    seq(n, i requires 0 <= i < n => (sids[i], ids[i]))
  }

  /** What the raw client's answer for one case maps: its first id, if it returned any. */
  function RawMapped(raw: CaseData -> seq<Json>, p: (Json, CaseData)): Option<(Json, Json)>
  {
    var ids := raw(p.1);
    if |ids| > 0 then Some((p.0, ids[0])) else None
  }

  function RawWith(raw: CaseData -> seq<Json>): ((Json, CaseData)) -> Option<(Json, Json)>
  {
    (p: (Json, CaseData)) => RawMapped(raw, p)
  }

  /**
   * The assignments a batch makes to the case mapping, in order: the bulk
   * call's ids for the plain cases (when there are any), then one per raw
   * case that the raw client answered. An exception from the bulk call (what
   * `retry_with_backoff` finally raises) escapes.
   */
  function Created(bulk: seq<CaseData> -> Reply<seq<Json>>, raw: CaseData -> seq<Json>,
                   plain: seq<(Json, CaseData)>, rawCases: seq<(Json, CaseData)>): Reply<seq<(Json, Json)>>
  {
    match FromBulk(bulk, plain)
    case Raised(e) => Raised(e)
    case Ok(z) => Ok(z + Steps.Collect(rawCases, RawWith(raw)))
  }

  /** The assignments one batch makes. */
  function BatchOutcome(t: Tables, bulk: seq<CaseData> -> Reply<seq<Json>>, raw: CaseData -> seq<Json>,
                        batch: seq<Json>): Reply<seq<(Json, Json)>>
  {
    match Prepared(t, batch)
    case Raised(e) => Raised(e)
    case Ok(ps) => Created(bulk, raw, PlainOf(ps), RawOf(ps))
  }

  /** The assignments of all the batches, in order; the first exception escapes. */
  function AllOutcomes(t: Tables, bulk: seq<CaseData> -> Reply<seq<Json>>, raw: CaseData -> seq<Json>,
                       batches: seq<seq<Json>>): Reply<seq<(Json, Json)>>
  {
    if batches == [] then Ok([])
    else
      var n := |batches| - 1;
      match AllOutcomes(t, bulk, raw, batches[..n])
      case Raised(e) => Raised(e)
      case Ok(done) =>
        match BatchOutcome(t, bulk, raw, batches[n])
        case Raised(e) => Raised(e)
        case Ok(more) => Ok(done + more)
  }

  /** The table the assignments leave, a later one winning. */
  function ToMap(ps: seq<(Json, Json)>): map<Json, Json>
  {
    if ps == [] then map[]
    else
      var n := |ps| - 1;
      ToMap(ps[..n])[ps[n].0 := ps[n].1]
  }

  /** The case mapping of the whole run over `cases`. */
  function Run(t: Tables, bulk: seq<CaseData> -> Reply<seq<Json>>, raw: CaseData -> seq<Json>,
               cases: seq<Json>, limit: nat): Reply<map<Json, Json>>
    requires limit > 0
  {
    match AllOutcomes(t, bulk, raw, ChunksOf(cases, limit))
    case Raised(e) => Raised(e)
    case Ok(ps) => Ok(ToMap(ps))
  }

  // ---------------------------------------------------------- migrate_cases: what the run maps

  /** A source id is mapped iff some assignment writes it, and it holds what the last one wrote. */
  lemma {:induction false} ToMapEntries(ps: seq<(Json, Json)>, k: Json)
    ensures k in ToMap(ps) <==> exists i :: 0 <= i < |ps| && ps[i].0 == k
    ensures k in ToMap(ps) ==> exists i :: 0 <= i < |ps| && ps[i] == (k, ToMap(ps)[k]) && forall j :: i < j < |ps| ==> ps[j].0 != k
  {
    if ps != [] {
      var n := |ps| - 1;
      var init := ps[..n];
      ToMapEntries(init, k);
      assert forall i :: 0 <= i < n ==> init[i] == ps[i];
      if ps[n].0 == k {
        assert ps[n] == (k, ToMap(ps)[k]);
      } else if k in ToMap(init) {
        var i :| 0 <= i < n && init[i] == (k, ToMap(init)[k]) && forall j :: i < j < n ==> init[j].0 != k;
        assert ps[i] == (k, ToMap(ps)[k]);
        assert forall j :: i < j < |ps| ==> ps[j].0 != k;
      } else {
        assert forall i :: 0 <= i < |ps| ==> ps[i].0 != k;
      }
    }
  }

  /** The bulk call of a batch sends at most `limit` cases, none of them raw; the raw client gets only raw ones. */
  lemma BulkBounded(t: Tables, cases: seq<Json>, limit: nat, b: nat, p: (Json, CaseData))
    requires limit > 0 && b < |ChunksOf(cases, limit)|
    requires Prepared(t, ChunksOf(cases, limit)[b]).Ok?
    ensures var ps := Prepared(t, ChunksOf(cases, limit)[b]).value;
      && |Cases(PlainOf(ps))| <= limit
      && (p in PlainOf(ps) ==> !Raw(p.1))
      && (p in RawOf(ps) ==> Raw(p.1))
  {
    var batch := ChunksOf(cases, limit)[b];
    ChunksOfPartition(cases, limit);
    Steps.MapAllOk(PrepareWith(t), batch);
    PartitionOf(Prepared(t, batch).value, p);
  }

  /** Every case of the batches is one of the source cases. */
  lemma {:induction false} ConcatMember(ss: seq<seq<Json>>, b: nat, i: nat)
    requires b < |ss| && i < |ss[b]|
    ensures ss[b][i] in Utils.Concat(ss)
  {
    if b > 0 {
      ConcatMember(ss[1..], b - 1, i);
    }
  }

  /** The source id of a transformed case is the id of a case of the batch. */
  lemma PreparedFrom(t: Tables, batch: seq<Json>, p: (Json, CaseData))
    requires Prepared(t, batch).Ok? && p in Prepared(t, batch).value
    ensures exists i :: 0 <= i < |batch| && p.0 == Field(batch[i], "id")
  {
    Steps.MapAllOk(PrepareWith(t), batch);
    var ps := Prepared(t, batch).value;
    var i :| 0 <= i < |ps| && ps[i] == p;
    assert PrepareWith(t)(batch[i]) == Ok(p);
  }

  /** The ids a batch maps are source ids of its cases. */
  lemma BatchFrom(t: Tables, bulk: seq<CaseData> -> Reply<seq<Json>>, raw: CaseData -> seq<Json>,
                  batch: seq<Json>, a: (Json, Json))
    requires BatchOutcome(t, bulk, raw, batch).Ok? && a in BatchOutcome(t, bulk, raw, batch).value
    ensures exists i :: 0 <= i < |batch| && a.0 == Field(batch[i], "id")
  {
    var ps := Prepared(t, batch).value;
    var plain := PlainOf(ps);
    var rawCases := RawOf(ps);
    var z := if plain == [] then [] else Zip(SourceIds(plain), bulk(Cases(plain)).value);
    assert BatchOutcome(t, bulk, raw, batch).value == z + Steps.Collect(rawCases, RawWith(raw));
    if a in z {
      var j :| 0 <= j < |z| && z[j] == a;
      PartitionOf(ps, plain[j]);
      PreparedFrom(t, batch, plain[j]);
    } else {
      Steps.CollectContents(rawCases, RawWith(raw), a);
      var j :| 0 <= j < |rawCases| && RawMapped(raw, rawCases[j]) == Some(a);
      PartitionOf(ps, rawCases[j]);
      PreparedFrom(t, batch, rawCases[j]);
    }
  }

  /** Every assignment of the run writes the source id of one of the batches' cases. */
  lemma {:induction false} AllFrom(t: Tables, bulk: seq<CaseData> -> Reply<seq<Json>>, raw: CaseData -> seq<Json>,
                                   batches: seq<seq<Json>>, a: (Json, Json))
    requires AllOutcomes(t, bulk, raw, batches).Ok? && a in AllOutcomes(t, bulk, raw, batches).value
    ensures exists b, i :: 0 <= b < |batches| && 0 <= i < |batches[b]| && a.0 == Field(batches[b][i], "id")
  {
    var n := |batches| - 1;
    var done := AllOutcomes(t, bulk, raw, batches[..n]).value;
    if a in done {
      AllFrom(t, bulk, raw, batches[..n], a);
      var b, i :| 0 <= b < n && 0 <= i < |batches[..n][b]| && a.0 == Field(batches[..n][b][i], "id");
      assert batches[..n][b] == batches[b];
    } else {
      BatchFrom(t, bulk, raw, batches[n], a);
    }
  }

  /** Only the ids of source cases are mapped. */
  lemma RunKeys(t: Tables, bulk: seq<CaseData> -> Reply<seq<Json>>, raw: CaseData -> seq<Json>,
                cases: seq<Json>, limit: nat, k: Json)
    requires limit > 0 && Run(t, bulk, raw, cases, limit).Ok? && k in Run(t, bulk, raw, cases, limit).value
    ensures exists c :: c in cases && Field(c, "id") == k
  {
    var batches := ChunksOf(cases, limit);
    var ps := AllOutcomes(t, bulk, raw, batches).value;
    ToMapEntries(ps, k);
    var j :| 0 <= j < |ps| && ps[j].0 == k;
    AllFrom(t, bulk, raw, batches, ps[j]);
    var b, i :| 0 <= b < |batches| && 0 <= i < |batches[b]| && ps[j].0 == Field(batches[b][i], "id");
    ConcatMember(batches, b, i);
    ChunksOfPartition(cases, limit);
  }

  /**
   * A plain case the bulk call answered for is mapped to the id at its
   * position in the answer, unless a later assignment writes its source id.
   */
  lemma BulkPairs(bulk: seq<CaseData> -> Reply<seq<Json>>, raw: CaseData -> seq<Json>,
                  plain: seq<(Json, CaseData)>, rawCases: seq<(Json, CaseData)>, j: nat)
    requires plain != [] && bulk(Cases(plain)).Ok? && j < |plain| && j < |bulk(Cases(plain)).value|
    ensures Created(bulk, raw, plain, rawCases).Ok?
    ensures Created(bulk, raw, plain, rawCases).value[j] == (plain[j].0, bulk(Cases(plain)).value[j])
  {
  }

  /** A raw case is mapped to the first id the raw client returned, when it returned any. */
  lemma RawPairs(raw: CaseData -> seq<Json>, rawCases: seq<(Json, CaseData)>, a: (Json, Json))
    ensures a in Steps.Collect(rawCases, RawWith(raw)) <==>
      exists j :: 0 <= j < |rawCases| && |raw(rawCases[j].1)| > 0 && a == (rawCases[j].0, raw(rawCases[j].1)[0])
  {
    Steps.CollectContents(rawCases, RawWith(raw), a);
  }

  // ---------------------------------------------------------- migrate_cases: the loops

  /** The loop that normalises the attachment mapping. */
  method NormalizeAttachments(m: Dicts.ODict<string, string>) returns (r: Dicts.ODict<string, string>)
    ensures r == Normalize(ItemsOf(m))
  {
    ghost var ps := ItemsOf(m);
    r := Dicts.Empty();
    for i := 0 to |m.keys|
      invariant r == Normalize(ps[..i])
    {
      assert ps[..i + 1][..i] == ps[..i] && ps[..i + 1][i] == (m.keys[i], m.entries[m.keys[i]]);
      var key := m.keys[i];
      var value := m.entries[key];
      r := Dicts.Put(r, Lower(key), value);
      r := Dicts.Put(r, key, value);
    }
    assert ps[..|m.keys|] == ps;
  }

  /** The loop that transforms a batch and sorts its cases into bulk and raw ones. */
  method PrepareBatch(t: Tables, batch: seq<Json>) returns (r: Reply<(seq<(Json, CaseData)>, seq<(Json, CaseData)>)>)
    ensures Prepared(t, batch).Raised? ==> r == Raised(Prepared(t, batch).exc)
    ensures Prepared(t, batch).Ok? ==> r == Ok((PlainOf(Prepared(t, batch).value), RawOf(Prepared(t, batch).value)))
  {
    var plain: seq<(Json, CaseData)> := [];
    var rawCases: seq<(Json, CaseData)> := [];
    ghost var ps: seq<(Json, CaseData)> := [];
    for i := 0 to |batch|
      invariant Prepared(t, batch[..i]) == Ok(ps)
      invariant plain == PlainOf(ps) && rawCases == RawOf(ps)
    {
      var d := TransformCase(t, batch[i]);
      Steps.MapAllSnoc(PrepareWith(t), batch, i, ps);
      assert PrepareWith(t)(batch[i]) == Prepare(t, batch[i]);
      if d.Raised? {
        Steps.MapAllStop(PrepareWith(t), batch, i + 1);
        return Raised(d.exc);
      }
      var sourceId := Field(batch[i], "id");
      PartsSnoc(ps, (sourceId, d.value));
      ps := ps + [(sourceId, d.value)];
      if Raw(d.value) {
        rawCases := rawCases + [(sourceId, d.value)];
      } else {
        plain := plain + [(sourceId, d.value)];
      }
    }
    assert batch[..|batch|] == batch;
    return Ok((plain, rawCases));
  }

  lemma ToMapSnoc(ps: seq<(Json, Json)>, a: (Json, Json))
    ensures ToMap(ps + [a]) == ToMap(ps)[a.0 := a.1]
  {
    assert (ps + [a])[..|ps|] == ps;
  }

  /** The assignments of the bulk call. */
  function FromBulk(bulk: seq<CaseData> -> Reply<seq<Json>>, plain: seq<(Json, CaseData)>): Reply<seq<(Json, Json)>>
  {
    if plain == [] then Ok([]) else
      match bulk(Cases(plain)) case Raised(e) => Raised(e) case Ok(ids) => Ok(Zip(SourceIds(plain), ids))
  }

  /** The bulk call for a batch's plain cases, then the raw calls, each writing into the case mapping. */
  method CreateBatch(bulk: seq<CaseData> -> Reply<seq<Json>>, raw: CaseData -> seq<Json>,
                     plain: seq<(Json, CaseData)>, rawCases: seq<(Json, CaseData)>,
                     mapping: map<Json, Json>, ghost done: seq<(Json, Json)>)
    returns (r: Reply<map<Json, Json>>)
    requires mapping == ToMap(done)
    ensures Created(bulk, raw, plain, rawCases).Raised? ==> r == Raised(Created(bulk, raw, plain, rawCases).exc)
    ensures Created(bulk, raw, plain, rawCases).Ok? ==> r == Ok(ToMap(done + Created(bulk, raw, plain, rawCases).value))
  {
    assert Created(bulk, raw, plain, rawCases) ==
      match FromBulk(bulk, plain) case Raised(e) => Raised(e) case Ok(z) => Ok(z + Steps.Collect(rawCases, RawWith(raw)));
    var fromBulk := BulkPart(bulk, plain, mapping, done);
    if fromBulk.Raised? {
      return fromBulk;
    }
    ghost var z := FromBulk(bulk, plain).value;
    var caseMapping := RawPart(raw, rawCases, fromBulk.value, done + z);
    assert done + z + Steps.Collect(rawCases, RawWith(raw)) == done + (z + Steps.Collect(rawCases, RawWith(raw)));
    return Ok(caseMapping);
  }

  /** The bulk call and the loop that pairs its ids with the source ids. */
  method BulkPart(bulk: seq<CaseData> -> Reply<seq<Json>>, plain: seq<(Json, CaseData)>,
                  mapping: map<Json, Json>, ghost done: seq<(Json, Json)>)
    returns (r: Reply<map<Json, Json>>)
    requires mapping == ToMap(done)
    ensures FromBulk(bulk, plain).Raised? ==> r == Raised(FromBulk(bulk, plain).exc)
    ensures FromBulk(bulk, plain).Ok? ==> r == Ok(ToMap(done + FromBulk(bulk, plain).value))
  {
    var caseMapping := mapping;
    if plain == [] {
      assert done + [] == done;
      return Ok(caseMapping);
    }
    var response := bulk(Cases(plain));
    if response.Raised? {
      return Raised(response.exc);
    }
    var ids := response.value;
    var sourceIds := SourceIds(plain);
    ghost var z: seq<(Json, Json)> := [];
    assert done + z == done;
    for idx := 0 to |sourceIds|
      invariant z == Zip(sourceIds[..idx], ids)
      invariant caseMapping == ToMap(done + z)
    {
      if idx < |ids| {
        assert Zip(sourceIds[..idx + 1], ids) == z + [(sourceIds[idx], ids[idx])];
        ToMapSnoc(done + z, (sourceIds[idx], ids[idx]));
        assert done + z + [(sourceIds[idx], ids[idx])] == done + (z + [(sourceIds[idx], ids[idx])]);
        caseMapping := caseMapping[sourceIds[idx] := ids[idx]];
        z := z + [(sourceIds[idx], ids[idx])];
      } else {
        assert Zip(sourceIds[..idx + 1], ids) == z;
      }
    }
    assert sourceIds[..|sourceIds|] == sourceIds;
    return Ok(caseMapping);
  }

  /** The loop of raw calls, one per raw case. */
  method RawPart(raw: CaseData -> seq<Json>, rawCases: seq<(Json, CaseData)>,
                 mapping: map<Json, Json>, ghost done: seq<(Json, Json)>)
    returns (caseMapping: map<Json, Json>)
    requires mapping == ToMap(done)
    ensures caseMapping == ToMap(done + Steps.Collect(rawCases, RawWith(raw)))
  {
    caseMapping := mapping;
    ghost var rs: seq<(Json, Json)> := [];
    assert done + rs == done;
    for j := 0 to |rawCases|
      invariant rs == Steps.Collect(rawCases[..j], RawWith(raw))
      invariant caseMapping == ToMap(done + rs)
    {
      assert rawCases[..j + 1][..j] == rawCases[..j];
      var createdIds := raw(rawCases[j].1);
      if |createdIds| > 0 {
        ToMapSnoc(done + rs, (rawCases[j].0, createdIds[0]));
        assert done + rs + [(rawCases[j].0, createdIds[0])] == done + (rs + [(rawCases[j].0, createdIds[0])]);
        caseMapping := caseMapping[rawCases[j].0 := createdIds[0]];
        rs := rs + [(rawCases[j].0, createdIds[0])];
      } else {
        assert rs + [] == rs;
      }
    }
    assert rawCases[..|rawCases|] == rawCases;
  }

  lemma {:induction false} AllOutcomesStays(t: Tables, bulk: seq<CaseData> -> Reply<seq<Json>>, raw: CaseData -> seq<Json>,
                                            batches: seq<seq<Json>>, k: nat)
    requires k <= |batches| && AllOutcomes(t, bulk, raw, batches[..k]).Raised?
    ensures AllOutcomes(t, bulk, raw, batches) == AllOutcomes(t, bulk, raw, batches[..k])
    decreases |batches| - k
  {
    if k < |batches| {
      assert batches[..k + 1][..k] == batches[..k];
      AllOutcomesStays(t, bulk, raw, batches, k + 1);
    } else {
      assert batches[..k] == batches;
    }
  }

  /** One more batch: its assignments follow the earlier ones, or its exception escapes. */
  lemma AllOutcomesSnoc(t: Tables, bulk: seq<CaseData> -> Reply<seq<Json>>, raw: CaseData -> seq<Json>,
                        batches: seq<seq<Json>>, b: nat, done: seq<(Json, Json)>)
    requires b < |batches| && AllOutcomes(t, bulk, raw, batches[..b]) == Ok(done)
    ensures var o := BatchOutcome(t, bulk, raw, batches[b]);
      AllOutcomes(t, bulk, raw, batches[..b + 1]) == if o.Raised? then Raised(o.exc) else Ok(done + o.value)
  {
    assert batches[..b + 1][..b] == batches[..b];
  }

  /** The batch loop of `migrate_cases`. */
  method CreateAll(t: Tables, bulk: seq<CaseData> -> Reply<seq<Json>>, raw: CaseData -> seq<Json>,
                   cases: seq<Json>, limit: nat)
    returns (r: Reply<map<Json, Json>>)
    requires limit > 0
    ensures r == Run(t, bulk, raw, cases, limit)
  {
    var batches := ChunksOf(cases, limit);
    var caseMapping: map<Json, Json> := map[];
    ghost var done: seq<(Json, Json)> := [];
    for b := 0 to |batches|
      invariant AllOutcomes(t, bulk, raw, batches[..b]) == Ok(done)
      invariant caseMapping == ToMap(done)
    {
      AllOutcomesSnoc(t, bulk, raw, batches, b, done);
      ghost var o := BatchOutcome(t, bulk, raw, batches[b]);
      var parts := PrepareBatch(t, batches[b]);
      if parts.Raised? {
        assert o == Raised(parts.exc);
        AllOutcomesStays(t, bulk, raw, batches, b + 1);
        return Raised(parts.exc);
      }
      assert o == Created(bulk, raw, parts.value.0, parts.value.1);
      var created := CreateBatch(bulk, raw, parts.value.0, parts.value.1, caseMapping, done);
      if created.Raised? {
        AllOutcomesStays(t, bulk, raw, batches, b + 1);
        return Raised(created.exc);
      }
      caseMapping := created.value;
      done := done + o.value;
    }
    assert batches[..|batches|] == batches;
    return Ok(caseMapping);
  }

  /** The tables `migrate_cases` transforms the cases of project `code` with, given the store before the call. */
  function CaseTables(suites: map<Json, Json>, customFields: map<Json, Json>, milestones: map<Json, Json>,
                      sharedSteps: map<Json, Json>, sharedParameters: map<Json, Json>,
                      getUserId: int -> Reply<Json>, digest: int -> nat, preserveIds: bool,
                      storedParameters: map<Json, Json>, attachments: Dicts.ODict<string, Dicts.ODict<string, string>>,
                      targetWorkspace: Option<string>, code: string): Tables
  {
    TablesFor(suites, customFields, milestones, sharedSteps, SharedParameterTable(storedParameters, sharedParameters),
              AttachmentMapping(attachments, code), targetWorkspace, getUserId, digest, preserveIds)
  }

  /** The source cases the listing returns, or its exception. */
  function Listed(fetch: nat -> Reply<seq<Json>>, limit: nat, bound: nat): Reply<seq<Json>>
    requires limit > 0 && Paging.Ends(fetch, limit, bound)
  {
    Paging.Outcome(Paging.ScanFrom(fetch, limit, 0, bound))
  }

  /** The attachment mapping for the project, normalised. */
  method AttachmentMappingFor(mappings: MigrationMappings, code: string) returns (m: Dicts.ODict<string, string>)
    ensures m == AttachmentMapping(mappings.attachments, code)
  {
    m := Dicts.Empty();
    if code in mappings.attachments.entries {
      m := NormalizeAttachments(mappings.attachments.entries[code]);
    }
  }

  /** The store's shared-parameter table, updated in place with the passed one, or else the passed one. */
  method UseSharedParameters(mappings: MigrationMappings, passed: map<Json, Json>) returns (spm: map<Json, Json>)
    modifies mappings`sharedParameters
    ensures mappings.sharedParameters == SharedParameterStore(old(mappings.sharedParameters), passed)
    ensures spm == SharedParameterTable(old(mappings.sharedParameters), passed)
  {
    spm := passed;
    if mappings.sharedParameters != map[] {
      if passed != map[] {
        mappings.sharedParameters := mappings.sharedParameters + passed;
      }
      spm := mappings.sharedParameters;
    }
  }

  /**
   * `migrate_cases` for the source project `codeSource`. `fetch(offset)` is
   * the listing `extract_cases` makes; `bulk` the retried SDK bulk call for
   * the target project, its answer reduced to the returned ids; `raw` the
   * raw client's bulk call for one case, which never raises (an HTTP or
   * network failure gives no ids). The store's shared-parameter table is
   * updated before the listing. Without source cases the project gets an
   * empty table and zero counts; an exception from the listing, a transform
   * or a bulk call escapes, leaving the case tables and the counts as they
   * were.
   */
  method MigrateCases(codeSource: string, enterprise: bool, fetch: nat -> Reply<seq<Json>>, ghost bound: nat,
                      suites: map<Json, Json>, customFields: map<Json, Json>, milestones: map<Json, Json>,
                      sharedSteps: map<Json, Json>, sharedParameters: map<Json, Json>,
                      getUserId: int -> Reply<Json>, digest: int -> nat, preserveIds: bool,
                      bulk: seq<CaseData> -> Reply<seq<Json>>, raw: CaseData -> seq<Json>,
                      mappings: MigrationMappings, stats: MigrationStats)
    returns (r: Reply<map<Json, Json>>)
    requires Paging.Ends(fetch, BatchLimit(enterprise), bound)
    requires stats.Valid()
    modifies mappings`sharedParameters, mappings`cases, stats
    ensures stats.Valid()
    ensures mappings.sharedParameters == SharedParameterStore(old(mappings.sharedParameters), sharedParameters)
    ensures Listed(fetch, BatchLimit(enterprise), bound).Raised? ==>
      r == Raised(Listed(fetch, BatchLimit(enterprise), bound).exc)
    ensures Listed(fetch, BatchLimit(enterprise), bound) == Ok([]) ==> r == Ok(map[])
    ensures Listed(fetch, BatchLimit(enterprise), bound).Ok? && Listed(fetch, BatchLimit(enterprise), bound).value != [] ==>
      r == Run(CaseTables(suites, customFields, milestones, sharedSteps, sharedParameters, getUserId, digest, preserveIds,
                          old(mappings.sharedParameters), mappings.attachments, mappings.targetWorkspaceHash, codeSource),
               bulk, raw, Listed(fetch, BatchLimit(enterprise), bound).value, BatchLimit(enterprise))
    ensures r.Raised? ==> unchanged(mappings`cases) && unchanged(stats)
    ensures r.Ok? ==>
      && Listed(fetch, BatchLimit(enterprise), bound).Ok?
      && mappings.cases == MergeInto(old(mappings.cases), codeSource, r.value)
      && stats.processed == Accumulate(old(stats.processed), "cases", |Listed(fetch, BatchLimit(enterprise), bound).value|)
      && stats.created == Accumulate(old(stats.created), "cases", |r.value|)
  {
    var limit := BatchLimit(enterprise);
    var attachmentMapping := AttachmentMappingFor(mappings, codeSource);
    var spm := UseSharedParameters(mappings, sharedParameters);
    var allCases := ExtractCases.ExtractCases(fetch, limit, bound);
    assert allCases == Listed(fetch, limit, bound);
    if allCases.Raised? {
      return Raised(allCases.exc);
    }
    var t := TablesFor(suites, customFields, milestones, sharedSteps, spm, attachmentMapping,
                       mappings.targetWorkspaceHash, getUserId, digest, preserveIds);
    assert t == CaseTables(suites, customFields, milestones, sharedSteps, sharedParameters, getUserId, digest, preserveIds,
                           old(mappings.sharedParameters), mappings.attachments, mappings.targetWorkspaceHash, codeSource);
    r := StoreCases(codeSource, t, bulk, raw, allCases.value, limit, mappings, stats);
  }

  /**
   * The part of `migrate_cases` after the listing: no cases give an empty
   * table and zero counts; otherwise the cases are created batch by batch
   * and, unless a batch raises, merged into the store and counted.
   */
  method StoreCases(codeSource: string, t: Tables, bulk: seq<CaseData> -> Reply<seq<Json>>, raw: CaseData -> seq<Json>,
                    cases: seq<Json>, limit: nat, mappings: MigrationMappings, stats: MigrationStats)
    returns (r: Reply<map<Json, Json>>)
    requires limit > 0 && stats.Valid()
    modifies mappings`cases, stats
    ensures stats.Valid()
    ensures cases == [] ==> r == Ok(map[])
    ensures cases != [] ==> r == Run(t, bulk, raw, cases, limit)
    ensures r.Raised? ==> unchanged(mappings`cases) && unchanged(stats)
    ensures r.Ok? ==>
      && mappings.cases == MergeInto(old(mappings.cases), codeSource, r.value)
      && stats.processed == Accumulate(old(stats.processed), "cases", |cases|)
      && stats.created == Accumulate(old(stats.created), "cases", |r.value|)
  {
    if cases == [] {
      mappings.cases := MergeInto(mappings.cases, codeSource, map[]);
      stats.AddEntity("cases", 0, 0);
      return Ok(map[]);
    }
    r := CreateAll(t, bulk, raw, cases, limit);
    if r.Raised? {
      return r;
    }
    mappings.cases := MergeInto(mappings.cases, codeSource, r.value);
    stats.AddEntity("cases", |cases|, |r.value|);
  }
}
