// migration/create/defects.py: a project's defects are created through the
// raw client, with the author, severity, milestone and attachment hashes
// mapped, and resolved afterwards when the source status says so.

module CreateDefects {
  import opened Py
  import opened Utils
  import Dicts
  import Steps
  import AttachmentText
  import ExtractAuthors

  /** The severity names, `severity_map`'s keys in the order of their values. */
  const SeverityNames: seq<string> := ["undefined", "blocker", "critical", "major", "normal", "minor", "trivial"]

  /** `severity_map.get(s, 0)`. */
  function Severity(s: string): (r: nat)
    ensures r < |SeverityNames|
  {
    if s == "undefined" then 0 else if s == "blocker" then 1 else if s == "critical" then 2
    else if s == "major" then 3 else if s == "normal" then 4 else if s == "minor" then 5
    else if s == "trivial" then 6 else 0
  }

  /** Each severity name maps to its position in the table; unknown names give 0. */
  lemma SeverityTable(s: string)
    ensures forall i :: 0 <= i < |SeverityNames| ==> Severity(SeverityNames[i]) == i
    ensures s !in SeverityNames ==> Severity(s) == 0
  {
  }

  /** `defect.get('severity', 'undefined').lower()`, looked up: a value that is not a string has no `lower` (AttributeError). */
  function SeverityOf(defect: Json): (r: Reply<nat>)
    ensures Get(defect, "severity").None? ==> r == Ok(0)
    ensures r.Raised? <==> Get(defect, "severity").Some? && !Get(defect, "severity").value.JStr?
    ensures r.Ok? ==> r.value == Severity(Lower(GetOr(defect, "severity", JStr("undefined")).s))
  {
    var severity := GetOr(defect, "severity", JStr("undefined"));
    if !severity.JStr? then Raised(AttributeError)
    else
      assert Lower("undefined") == "undefined";
      Ok(Severity(Lower(severity.s)))
  }

  /** The resolving statuses. */
  const ResolvedStatuses: seq<string> := ["resolved", "closed", "invalid", "duplicate"]

  /**
   * Whether the created defect is resolved: a string status that is one of
   * the resolving ones in any case, or a positive integer status (a Python
   * `bool` is an `int`, so `True` counts).
   */
  function ShouldResolve(status: Json): (r: bool)
    ensures status.JStr? ==> (r <==> Lower(status.s) in ResolvedStatuses)
    ensures status.JInt? ==> (r <==> status.i > 0)
    ensures !status.JStr? && !status.JInt? && !status.JBool? ==> !r
  {
    match status
    case JStr(s) => Lower(s) in ResolvedStatuses
    case JInt(i) => i > 0
    case JBool(b) => b
    case _ => false
  }

  /**
   * The milestone table the defects use: the argument when it is non-empty,
   * else the store's table for the source project, else empty.
   */
  function MilestoneTable(milestoneMapping: map<Json, Json>, stored: ProjectIds, code: string): (r: map<Json, Json>)
    ensures milestoneMapping != map[] ==> r == milestoneMapping
    ensures milestoneMapping == map[] ==> r == ProjectTable(stored, code)
  {
    if milestoneMapping != map[] then milestoneMapping
    else if code in stored then stored[code] else map[]
  }

  /** The target milestone: `None` unless the source milestone is truthy, `int()` accepts it and the table maps it. */
  function MilestoneOf(milestones: map<Json, Json>, defect: Json): (r: Json)
    ensures JTruthy(r) ==>
      && JTruthy(Field(defect, "milestone_id")) && IntOf(ToValue(Field(defect, "milestone_id"))).Ok?
      && JInt(IntOf(ToValue(Field(defect, "milestone_id"))).value) in milestones
      && r == milestones[JInt(IntOf(ToValue(Field(defect, "milestone_id"))).value)]
  {
    var source := Field(defect, "milestone_id");
    if !JTruthy(source) then JNull
    else match IntOf(ToValue(source))
      case Raised(_) => JNull
      case Ok(k) => Lookup(milestones, JInt(k))
  }

  /**
   * The source hash of one attachment item: a string is its own hash; a dict
   * gives `hash or attachment_hash or id`, else the hash in its `url`; other
   * items give none. `re.search` on a `url` that is not a string raises
   * TypeError.
   */
  function ItemHash(item: Json): (r: Reply<Json>)
    ensures item.JStr? ==> r == Ok(item)
    ensures !item.JStr? && !item.JObject? ==> r == Ok(JNull)
    ensures r.Raised? ==> r.exc.TypeError?
  {
    match item
    case JStr(_) => Ok(item)
    case JObject(_) =>
      var h := JOr(JOr(Field(item, "hash"), Field(item, "attachment_hash")), Field(item, "id"));
      var url := Field(item, "url");
      if JTruthy(h) || !JTruthy(url) then Ok(h)
      else if !url.JStr? then Raised(TypeError("expected string or bytes-like object"))
      else
        (match AttachmentText.Search(url.s, AttachmentText.Segment)
         case Some(found) => Ok(JStr(found))
         case None => Ok(h))
    case _ => Ok(JNull)
  }

  /** `mapping.get(key)` read as a Python truth value: the value when it is a non-empty string. */
  function Mapped(mapping: Dicts.ODict<string, string>, key: string): Option<string>
  {
    if key in mapping.entries && mapping.entries[key] != "" then Some(mapping.entries[key]) else None
  }

  /** The target hash for a source hash: the mapping tried with its lowercase, its own and its uppercase form. */
  function TargetHash(mapping: Dicts.ODict<string, string>, h: Json): (r: Option<string>)
    ensures !JTruthy(h) ==> r.None?
    ensures r.Some? ==> exists key ::
      key in [Lower(Strip(StrOf(h))), Strip(StrOf(h)), Upper(Strip(StrOf(h)))] && key in mapping.entries && r.value == Strip(mapping.entries[key])
  {
    if !JTruthy(h) then None
    else
      var s := Strip(StrOf(h));
      var m := if Mapped(mapping, Lower(s)).Some? then Mapped(mapping, Lower(s))
        else if Mapped(mapping, s).Some? then Mapped(mapping, s) else Mapped(mapping, Upper(s));
      if m.Some? then Some(Strip(m.value)) else None
  }

  /** The mapped hashes of the attachment items, in order; the first item that raises ends it. */
  function TargetHashes(mapping: Dicts.ODict<string, string>, items: seq<Json>): Reply<seq<string>>
  {
    match Steps.MapAll(ItemHash, items)
    case Raised(e) => Raised(e)
    case Ok(hashes) => Ok(Steps.Collect(hashes, (h: Json) => TargetHash(mapping, h)))
  }

  /**
   * The list raises iff some item does; otherwise every target hash comes
   * from an item, and an item whose hash is unmapped contributes nothing.
   */
  lemma TargetHashesFrom(mapping: Dicts.ODict<string, string>, items: seq<Json>, t: string)
    ensures TargetHashes(mapping, items).Ok? <==> forall i :: 0 <= i < |items| ==> ItemHash(items[i]).Ok?
    ensures TargetHashes(mapping, items).Ok? ==>
      (t in TargetHashes(mapping, items).value <==>
        exists i :: 0 <= i < |items| && TargetHash(mapping, ItemHash(items[i]).value) == Some(t))
  {
    Steps.MapAllOk(ItemHash, items);
    var r := Steps.MapAll(ItemHash, items);
    if r.Ok? {
      var f := (h: Json) => TargetHash(mapping, h);
      Steps.CollectContents(r.value, f, t);
      assert forall i :: 0 <= i < |items| ==> f(r.value[i]) == TargetHash(mapping, ItemHash(items[i]).value);
    }
  }

  /**
   * The defect's target attachments: none when it has no truthy
   * `attachments` or the mapping is empty; a truthy value that cannot be
   * iterated raises TypeError.
   */
  function Attachments(mapping: Dicts.ODict<string, string>, defect: Json): (r: Reply<seq<string>>)
    ensures !JTruthy(GetOr(defect, "attachments", JList([]))) || mapping.entries == map[] ==> r == Ok([])
  {
    var source := GetOr(defect, "attachments", JList([]));
    if !JTruthy(source) || mapping.entries == map[] then Ok([])
    else match Iter(source)
      case None => Raised(NotIterable)
      case Some(items) => TargetHashes(mapping, items)
  }

  /** `actual_result` with its attachment references rewritten when there is a mapping. */
  function ActualResult(mapping: Dicts.ODict<string, string>, targetWorkspace: Option<string>, defect: Json): (r: Json)
    ensures mapping.entries == map[] || !GetOr(defect, "actual_result", JStr("")).JStr? ==> r == GetOr(defect, "actual_result", JStr(""))
  {
    var actual := GetOr(defect, "actual_result", JStr(""));
    if mapping.entries == map[] || !actual.JStr? then actual
    else JStr(AttachmentText.ReplaceHashes(StrV(actual.s), mapping, targetWorkspace).s)
  }

  /** The defect data sent to `create_defect`; the milestone and the attachments only when there are some. */
  datatype DefectCreate = DefectCreate(
    title: Json, actualResult: Json, severity: nat, authorId: Json,
    milestoneId: Option<Json>, attachments: Option<seq<string>>)

  /** What the defects are migrated with. */
  datatype Tables = Tables(
    getUserId: int -> Reply<Json>, milestones: map<Json, Json>,
    attachmentMapping: Dicts.ODict<string, string>, targetWorkspace: Option<string>)

  /** The payload of a defect; the author, the severity and the attachments are read in that order, and the first raise escapes. */
  function Payload(t: Tables, defect: Json): (r: Reply<DefectCreate>)
    ensures r.Ok? ==> TargetUser(t.getUserId, JOr(Field(defect, "author_id"), Field(defect, "member_id"))) == Ok(r.value.authorId)
    ensures r.Ok? ==> SeverityOf(defect) == Ok(r.value.severity)
    ensures r.Ok? ==> (r.value.milestoneId.Some? <==> JTruthy(MilestoneOf(t.milestones, defect)))
    ensures r.Ok? ==> (r.value.attachments.Some? <==> Attachments(t.attachmentMapping, defect) != Ok([]))
    ensures r.Ok? && r.value.attachments.Some? ==> Attachments(t.attachmentMapping, defect) == Ok(r.value.attachments.value)
  {
    match TargetUser(t.getUserId, JOr(Field(defect, "author_id"), Field(defect, "member_id")))
    case Raised(e) => Raised(e)
    case Ok(author) =>
      match SeverityOf(defect)
      case Raised(e) => Raised(e)
      case Ok(severity) =>
        var milestone := MilestoneOf(t.milestones, defect);
        match Attachments(t.attachmentMapping, defect)
        case Raised(e) => Raised(e)
        case Ok(attachments) =>
          Ok(DefectCreate(GetOr(defect, "title", JStr("")), ActualResult(t.attachmentMapping, t.targetWorkspace, defect),
                          severity, author,
                          if JTruthy(milestone) then Some(milestone) else None,
                          if attachments != [] then Some(attachments) else None))
  }

  /**
   * One defect. `create(data)` is `create_defect`, answering the target id,
   * and `resolve(id)` is `resolve_defect`; neither exists on the raw client
   * as written. A defect without an id is skipped, one whose create raises
   * is skipped unmapped; an exception from reading the defect or from the
   * resolve escapes. An entry that is not a dict has no `get`, so it raises
   * AttributeError before anything else.
   */
  function Outcome(t: Tables, create: DefectCreate -> Reply<Json>, resolve: Json -> Reply<()>, defect: Json): (r: Reply<Option<(Json, Json)>>)
  {
    var id := Field(defect, "id");
    if !defect.JObject? then Raised(AttributeError)
    else if !JTruthy(id) then Ok(None)
    else match Payload(t, defect)
      case Raised(e) => Raised(e)
      case Ok(data) =>
        match create(data)
        case Raised(_) => Ok(None)
        case Ok(target) =>
          if !JTruthy(target) then Ok(None)
          else if ShouldResolve(Field(defect, "status")) && resolve(target).Raised? then Raised(resolve(target).exc)
          else Ok(Some((id, target)))
  }

  function Outcomes(t: Tables, create: DefectCreate -> Reply<Json>, resolve: Json -> Reply<()>, defects: seq<Json>): seq<Reply<Option<(Json, Json)>>>
  {
    seq(|defects|, i requires 0 <= i < |defects| => Outcome(t, create, resolve, defects[i]))
  }

  function Migrated(t: Tables, create: DefectCreate -> Reply<Json>, resolve: Json -> Reply<()>, defects: seq<Json>): Reply<map<Json, Json>>
  {
    Steps.Assign(Outcomes(t, create, resolve, defects))
  }

  /** The defect `defect` ends up mapping the source id `k`. */
  predicate Maps(t: Tables, create: DefectCreate -> Reply<Json>, resolve: Json -> Reply<()>, defect: Json, k: Json)
  {
    var p := Payload(t, defect);
    && defect.JObject? && Field(defect, "id") == k && JTruthy(k)
    && p.Ok? && create(p.value).Ok? && JTruthy(create(p.value).value)
    && !(ShouldResolve(Field(defect, "status")) && resolve(create(p.value).value).Raised?)
  }

  lemma OutcomeSets(t: Tables, create: DefectCreate -> Reply<Json>, resolve: Json -> Reply<()>, defect: Json, k: Json)
    ensures Steps.Sets(Outcome(t, create, resolve, defect), k) <==> Maps(t, create, resolve, defect, k)
    ensures Steps.Sets(Outcome(t, create, resolve, defect), k) ==>
      Outcome(t, create, resolve, defect).value.value.1 == create(Payload(t, defect).value).value
  {
  }

  /**
   * A source id is mapped iff one of its defects was read, created with a
   * truthy id and, when it had to be, resolved; a defect without an id or
   * whose create raised is never mapped.
   */
  lemma MigratedEntries(t: Tables, create: DefectCreate -> Reply<Json>, resolve: Json -> Reply<()>, defects: seq<Json>, k: Json)
    requires Migrated(t, create, resolve, defects).Ok?
    ensures k in Migrated(t, create, resolve, defects).value <==> exists i :: 0 <= i < |defects| && Maps(t, create, resolve, defects[i], k)
  {
    var outs := Outcomes(t, create, resolve, defects);
    Steps.AssignEntries(outs, k);
    forall i | 0 <= i < |defects|
      ensures Steps.Sets(outs[i], k) <==> Maps(t, create, resolve, defects[i], k)
    {
      OutcomeSets(t, create, resolve, defects[i], k);
    }
  }

  /**
   * A defect entry that is not a dict ends the loop: it raises
   * AttributeError itself, unless an earlier defect already raised, so no
   * later defect is created or resolved.
   */
  lemma NonDictStops(t: Tables, create: DefectCreate -> Reply<Json>, resolve: Json -> Reply<()>, defects: seq<Json>, i: nat)
    requires i < |defects| && !defects[i].JObject?
    ensures Migrated(t, create, resolve, defects).Raised?
    ensures (forall j :: 0 <= j < i ==> Outcome(t, create, resolve, defects[j]).Ok?) ==>
      Migrated(t, create, resolve, defects) == Raised(AttributeError)
  {
    var outs := Outcomes(t, create, resolve, defects);
    assert outs[i] == Raised(AttributeError);
    Steps.AssignOutcome(outs);
    if forall j :: 0 <= j < i ==> Outcome(t, create, resolve, defects[j]).Ok? {
      Steps.AssignOutcome(outs[..i]);
      assert forall j :: 0 <= j < i ==> outs[..i][j] == outs[j];
      Steps.AssignStops(outs, i);
    }
  }

  /** A defect dict whose create raises is skipped, not fatal; the create is never reached for an entry that is not a dict. */
  lemma CreateRaisesSkips(t: Tables, create: DefectCreate -> Reply<Json>, resolve: Json -> Reply<()>, defect: Json)
    requires Payload(t, defect).Ok? && create(Payload(t, defect).value).Raised?
    ensures defect.JObject? ==> Outcome(t, create, resolve, defect) == Ok(None)
    ensures !defect.JObject? ==> Outcome(t, create, resolve, defect) == Raised(AttributeError)
  {
  }

  /** As written `create_defect` always raises AttributeError: no defect is ever mapped. */
  lemma CreateAsWritten(t: Tables, resolve: Json -> Reply<()>, defects: seq<Json>)
    requires Migrated(t, _ => Raised(AttributeError), resolve, defects).Ok?
    ensures Migrated(t, _ => Raised(AttributeError), resolve, defects).value == map[]
  {
    var create: DefectCreate -> Reply<Json> := _ => Raised(AttributeError);
    var outs := Outcomes(t, create, resolve, defects);
    forall k
      ensures k !in Migrated(t, create, resolve, defects).value
    {
      Steps.AssignEntries(outs, k);
      forall i | 0 <= i < |defects|
        ensures !Steps.Sets(outs[i], k)
      {
        OutcomeSets(t, create, resolve, defects[i], k);
      }
    }
  }

  // ------------------------------------------------------------------ the migration

  /** The loop over a defect's attachment items. */
  method MapAttachments(mapping: Dicts.ODict<string, string>, items: seq<Json>) returns (r: Reply<seq<string>>)
    ensures r == TargetHashes(mapping, items)
  {
    ghost var f := (h: Json) => TargetHash(mapping, h);
    ghost var hashes: seq<Json> := [];
    var targetAttachments: seq<string> := [];
    for j := 0 to |items|
      invariant Steps.MapAll(ItemHash, items[..j]) == Ok(hashes)
      invariant targetAttachments == Steps.Collect(hashes, f)
    {
      var sourceHash := ItemHash(items[j]);
      Steps.MapAllSnoc(ItemHash, items, j, hashes);
      if sourceHash.Raised? {
        Steps.MapAllStop(ItemHash, items, j + 1);
        return Raised(sourceHash.exc);
      }
      Steps.CollectSnoc(hashes, sourceHash.value, f);
      hashes := hashes + [sourceHash.value];
      var mapped := TargetHash(mapping, sourceHash.value);
      assert mapped == f(sourceHash.value);
      if mapped.Some? {
        targetAttachments := targetAttachments + [mapped.value];
      }
    }
    assert items[..|items|] == items;
    return Ok(targetAttachments);
  }

  method BuildPayload(t: Tables, defect: Json) returns (r: Reply<DefectCreate>)
    ensures r == Payload(t, defect)
  {
    var author := TargetUser(t.getUserId, JOr(Field(defect, "author_id"), Field(defect, "member_id")));
    if author.Raised? {
      return Raised(author.exc);
    }
    var severity := SeverityOf(defect);
    if severity.Raised? {
      return Raised(severity.exc);
    }
    var milestone := MilestoneOf(t.milestones, defect);
    var sourceAttachments := GetOr(defect, "attachments", JList([]));
    var attachments: seq<string> := [];
    if JTruthy(sourceAttachments) && t.attachmentMapping.entries != map[] {
      var items := Iter(sourceAttachments);
      if items.None? {
        return Raised(NotIterable);
      }
      var mapped := MapAttachments(t.attachmentMapping, items.value);
      if mapped.Raised? {
        return Raised(mapped.exc);
      }
      attachments := mapped.value;
    }
    var data := DefectCreate(GetOr(defect, "title", JStr("")), ActualResult(t.attachmentMapping, t.targetWorkspace, defect),
                             severity.value, author.value,
                             if JTruthy(milestone) then Some(milestone) else None,
                             if attachments != [] then Some(attachments) else None);
    return Ok(data);
  }

  method MigrateDefect(t: Tables, create: DefectCreate -> Reply<Json>, resolve: Json -> Reply<()>, defect: Json)
    returns (o: Reply<Option<(Json, Json)>>)
    ensures o == Outcome(t, create, resolve, defect)
  {
    if !defect.JObject? {
      return Raised(AttributeError);
    }
    var id := Field(defect, "id");
    if !JTruthy(id) {
      return Ok(None);
    }
    var data := BuildPayload(t, defect);
    if data.Raised? {
      return Raised(data.exc);
    }
    var target := create(data.value);
    if target.Raised? || !JTruthy(target.value) {
      return Ok(None);
    }
    if ShouldResolve(Field(defect, "status")) {
      var resolved := resolve(target.value);
      if resolved.Raised? {
        return Raised(resolved.exc);
      }
    }
    return Ok(Some((id, target.value)));
  }

  /** The loop over the source defects. */
  method DefectLoop(t: Tables, create: DefectCreate -> Reply<Json>, resolve: Json -> Reply<()>, defects: seq<Json>)
    returns (r: Reply<map<Json, Json>>)
    ensures r == Migrated(t, create, resolve, defects)
  {
    ghost var outs := Outcomes(t, create, resolve, defects);
    var defectMapping: map<Json, Json> := map[];
    for i := 0 to |defects|
      invariant Steps.Assign(outs[..i]) == Ok(defectMapping)
    {
      var o := MigrateDefect(t, create, resolve, defects[i]);
      assert o == outs[i];
      if o.Raised? {
        Steps.AssignStops(outs, i);
        return Raised(o.exc);
      }
      Steps.AssignSnoc(outs, i, defectMapping);
      if o.value.Some? {
        defectMapping := defectMapping[o.value.value.0 := o.value.value.1];
      }
    }
    assert outs[..|defects|] == outs;
    return Ok(defectMapping);
  }

  /**
   * `migrate_defects` for the source project `codeSource`, given what
   * `extract_defects` returned. Without a target token it returns `{}`, and
   * so it does without source defects. Otherwise the loop runs, and then
   * updating `mappings.defects` raises AttributeError, since the store has
   * no such table: nothing is stored and no count recorded. `defectMapping`
   * is what the loop built.
   */
  method MigrateDefects(codeSource: string, codeTarget: string, targetApiKey: Json,
                        milestoneMapping: map<Json, Json>, attachmentMapping: Dicts.ODict<string, string>, defects: seq<Json>,
                        getUserId: int -> Reply<Json>, create: DefectCreate -> Reply<Json>, resolve: Json -> Reply<()>,
                        mappings: MigrationMappings)
    returns (r: Reply<map<Json, Json>>, defectMapping: map<Json, Json>)
    ensures !JTruthy(ExtractAuthors.ApiToken(targetApiKey)) || defects == [] ==> r == Ok(map[]) && defectMapping == map[]
    ensures JTruthy(ExtractAuthors.ApiToken(targetApiKey)) && defects != [] ==>
      var t := Tables(getUserId, MilestoneTable(milestoneMapping, mappings.milestones, codeSource),
                      attachmentMapping, mappings.targetWorkspaceHash);
      var m := Migrated(t, create, resolve, defects);
      && r.Raised?
      && (m.Raised? ==> r == Raised(m.exc) && defectMapping == map[])
      && (m.Ok? ==> r == Raised(AttributeError) && defectMapping == m.value)
  {
    defectMapping := map[];
    var token := ExtractAuthors.ApiToken(targetApiKey);
    if !JTruthy(token) {
      return Ok(map[]), map[];
    }
    var milestones := MilestoneTable(milestoneMapping, mappings.milestones, codeSource);
    if defects == [] {
      return Ok(map[]), map[];
    }
    var t := Tables(getUserId, milestones, attachmentMapping, mappings.targetWorkspaceHash);
    var m := DefectLoop(t, create, resolve, defects);
    if m.Raised? {
      return Raised(m.exc), map[];
    }
    return Raised(AttributeError), m.value;
  }
}
