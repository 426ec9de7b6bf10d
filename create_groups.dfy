// migration/create/groups.py: the source workspace's SCIM groups are matched
// by lowercased name to the target's, or created there; each mapped group
// then gets the target ids of its members.

module CreateGroups {
  import opened Py
  import opened Utils
  import Seqs
  import Steps
  import EG = ExtractGroups

  /**
   * The target's SCIM calls: `allGroups` is `get_all_groups()`, `create(name)`
   * is `create_group(name)` (the new id, or a falsy value when creation
   * failed). `add_users_to_group` only logs its outcome, so the model records
   * the calls it makes instead of their answers.
   */
  datatype ScimTarget = ScimTarget(allGroups: Reply<seq<Json>>, create: string -> Reply<Json>)

  // ---------------------------------------------------------- existing groups

  /**
   * One target group of the index loop: `group.get('displayName', '').lower()`
   * raises (and ends the loop, keeping what it has) for a group that is not a
   * dict or whose name is not a string; an empty name is skipped.
   */
  function IndexGroup(existing: map<string, Json>, group: Json): (map<string, Json>, bool)
  {
    if !group.JObject? then (existing, false)
    else
      var name := match Get(group, "displayName") case Some(n) => n case None => JStr("");
      if !name.JStr? then (existing, false)
      else if Lower(name.s) == "" then (existing, true)
      else (existing[Lower(name.s) := Field(group, "id")], true)
  }

  /** The index of the target's groups by lowercased name; an exception from the listing leaves it empty. */
  function ExistingByName(target: ScimTarget): map<string, Json>
  {
    match target.allGroups
    case Raised(_) => map[]
    case Ok(groups) => Seqs.FoldStop(IndexGroup, map[], groups).0
  }

  /** Every key of the index is a lowercased, non-empty name. */
  lemma IndexGroupLower(existing: map<string, Json>, group: Json)
    requires forall k :: k in existing ==> k != "" && Lower(k) == k
    ensures forall k :: k in IndexGroup(existing, group).0 ==> k != "" && Lower(k) == k
  {
    var name := match Get(group, "displayName") case Some(n) => n case None => JStr("");
    if group.JObject? && name.JStr? {
      LowerIdempotent(name.s);
    }
  }

  ghost predicate LowerKeys(existing: map<string, Json>)
  {
    forall k :: k in existing ==> k != "" && Lower(k) == k
  }

  lemma ExistingLower(target: ScimTarget)
    ensures LowerKeys(ExistingByName(target))
  {
    if target.allGroups.Ok? {
      forall b: map<string, Json>, g: Json | LowerKeys(b) ensures LowerKeys(IndexGroup(b, g).0) {
        IndexGroupLower(b, g);
      }
      Seqs.FoldStopKeeps(IndexGroup, LowerKeys, map[], target.allGroups.value);
    }
  }

  // --------------------------------------------------------------- members

  /**
   * The target id of one member, as a string: a string that `int()` reads
   * as an id, or an int, that `user_mapping` maps; anything else (an
   * unmapped id, a string `int()` rejects, another type) is dropped. A bool
   * passes Python's `isinstance(..., int)` test and is looked up as 1 or 0.
   */
  function MemberTarget(userMapping: map<Json, Json>, member: Json): Option<string>
  {
    match member
    case JStr(s) =>
      (match IntOf(StrV(s))
       case Ok(k) => if JInt(k) in userMapping then Some(StrOf(userMapping[JInt(k)])) else None
       case Raised(_) => None)
    case JInt(k) => if member in userMapping then Some(StrOf(userMapping[member])) else None
    case JBool(b) =>
      var k := JInt(if b then 1 else 0);
      if k in userMapping then Some(StrOf(userMapping[k])) else None
    case _ => None
  }

  /** A bool member is the int 1 or 0 to the lookup. */
  lemma BoolMemberAsInt(userMapping: map<Json, Json>, b: bool)
    ensures MemberTarget(userMapping, JBool(b)) == MemberTarget(userMapping, JInt(if b then 1 else 0))
  {
  }

  /** The target ids of the members, in order. */
  function MemberTargets(userMapping: map<Json, Json>, members: seq<Json>): (r: seq<string>)
    ensures |r| <= |members|
  {
    if members == [] then []
    else
      var n := |members| - 1;
      var t := MemberTarget(userMapping, members[n]);
      MemberTargets(userMapping, members[..n]) + (if t.Some? then [t.value] else [])
  }

  /** A target id is listed iff some member maps to it. */
  lemma MemberTargetsContents(userMapping: map<Json, Json>, members: seq<Json>, t: string)
    ensures t in MemberTargets(userMapping, members) <==>
      exists i :: 0 <= i < |members| && MemberTarget(userMapping, members[i]) == Some(t)
  {
    var f := (x: Json) => MemberTarget(userMapping, x);
    MemberTargetsCollect(userMapping, members, f);
    Steps.CollectContents(members, f, t);
  }

  lemma {:induction false} MemberTargetsCollect(userMapping: map<Json, Json>, members: seq<Json>, f: Json -> Option<string>)
    requires forall x :: f(x) == MemberTarget(userMapping, x)
    ensures MemberTargets(userMapping, members) == Steps.Collect(members, f)
  {
    if members != [] {
      MemberTargetsCollect(userMapping, members[..|members| - 1], f);
    }
  }

  // ----------------------------------------------------------- the loop

  /** A call `add_users_to_group(group, users)`. */
  datatype Patch = Patch(group: Json, users: seq<string>)

  /**
   * The loop's state: the group mapping, the name index, the lowered names
   * of the groups it created, and the membership calls made.
   */
  datatype GroupsRun = GroupsRun(mapping: map<Json, Json>, existing: map<string, Json>, created: seq<string>, patches: seq<Patch>)

  /** The membership call for a mapped group; none for an empty list. */
  function WithMembers(r: GroupsRun, group: EG.ExtractedGroup, target: Json, userMapping: map<Json, Json>): GroupsRun
  {
    var users := MemberTargets(userMapping, group.members);
    if group.members == [] || users == [] then r else r.(patches := r.patches + [Patch(target, users)])
  }

  /**
   * One source group: skipped without a truthy id and name; a name that is not
   * a string makes `lower()` raise, which escapes; an existing lowercased
   * name is reused; otherwise the group is created, and a failed or falsy
   * creation skips it.
   */
  function GroupStep(target: ScimTarget, userMapping: map<Json, Json>, r: GroupsRun, group: EG.ExtractedGroup): Reply<GroupsRun>
  {
    if !JTruthy(group.id) || !JTruthy(group.displayName) then Ok(r)
    else if !group.displayName.JStr? then Raised(AttributeError)
    else
      var name := group.displayName.s;
      var normalized := Lower(name);
      if normalized in r.existing then
        var t := r.existing[normalized];
        Ok(WithMembers(r.(mapping := r.mapping[group.id := t]), group, t, userMapping))
      else match target.create(name)
        case Raised(_) => Ok(r)
        case Ok(t) =>
          if !JTruthy(t) then Ok(r)
          else Ok(WithMembers(GroupsRun(r.mapping[group.id := t], r.existing[normalized := t], r.created + [normalized], r.patches),
                              group, t, userMapping))
  }

  /** The loop over the source groups, from `start`. */
  function GroupsFrom(target: ScimTarget, userMapping: map<Json, Json>, start: GroupsRun, groups: seq<EG.ExtractedGroup>): Reply<GroupsRun>
  {
    if groups == [] then Ok(start)
    else match GroupsFrom(target, userMapping, start, groups[..|groups| - 1])
      case Raised(e) => Raised(e)
      case Ok(r) => GroupStep(target, userMapping, r, groups[|groups| - 1])
  }

  /** What the whole loop keeps true about its state. */
  ghost predicate Consistent(start: map<string, Json>, r: GroupsRun)
  {
    && LowerKeys(r.existing)
    && start.Keys <= r.existing.Keys
    && (forall i :: 0 <= i < |r.created| ==> r.created[i] in r.existing && r.created[i] !in start)
    && Seqs.NoDup(r.created)
    && (forall i :: 0 <= i < |r.patches| ==> r.patches[i].users != [])
  }

  /**
   * At most one group is created per lowercased name, never for a name the
   * target already had, and every created name is indexed so later groups
   * of that name reuse it; no membership call has an empty list.
   */
  lemma {:induction false} GroupsConsistent(target: ScimTarget, userMapping: map<Json, Json>, start: GroupsRun,
                                            groups: seq<EG.ExtractedGroup>)
    requires start.created == [] && start.patches == [] && LowerKeys(start.existing)
    requires GroupsFrom(target, userMapping, start, groups).Ok?
    ensures Consistent(start.existing, GroupsFrom(target, userMapping, start, groups).value)
  {
    if groups != [] {
      var n := |groups| - 1;
      GroupsConsistent(target, userMapping, start, groups[..n]);
      var r := GroupsFrom(target, userMapping, start, groups[..n]).value;
      var g := groups[n];
      if JTruthy(g.id) && JTruthy(g.displayName) && g.displayName.JStr? {
        LowerIdempotent(g.displayName.s);
        var normalized := Lower(g.displayName.s);
        if normalized !in r.existing {
          var out := GroupsFrom(target, userMapping, start, groups).value;
          forall i | 0 <= i < |out.created| ensures out.created[i] in out.existing && out.created[i] !in start.existing {
            if i < |r.created| {
              assert out.created[i] == r.created[i];
            }
          }
        }
      }
    }
  }

  /** A source id is mapped only when it was mapped before or one of its groups has a truthy id and a display name. */
  lemma {:induction false} GroupsMappedFrom(target: ScimTarget, userMapping: map<Json, Json>, start: GroupsRun,
                                            groups: seq<EG.ExtractedGroup>, id: Json)
    requires GroupsFrom(target, userMapping, start, groups).Ok?
    ensures id in GroupsFrom(target, userMapping, start, groups).value.mapping ==>
      id in start.mapping || exists i :: 0 <= i < |groups| && groups[i].id == id && JTruthy(id) && JTruthy(groups[i].displayName)
  {
    if groups != [] {
      var n := |groups| - 1;
      GroupsMappedFrom(target, userMapping, start, groups[..n], id);
      assert forall i :: 0 <= i < n ==> groups[..n][i] == groups[i];
    }
  }

  /**
   * `config = config or {}` then `config.get('groups', {}).get('create', False)`:
   * a falsy config reads as `{}`; a truthy one that is not a dict, or a
   * `groups` entry that is not a dict, makes `.get` raise AttributeError.
   */
  function CreateOption(config: Json): (r: Reply<bool>)
    ensures r.Raised? ==> r.exc == AttributeError
    ensures !JTruthy(config) ==> r == Ok(false)
    ensures JTruthy(config) && !config.JObject? ==> r.Raised?
    ensures config.JObject? ==>
      (r.Raised? <==> Get(config, "groups").Some? && !Get(config, "groups").value.JObject?)
    ensures r == Ok(true) <==>
      config.JObject? && Get(config, "groups").Some? && Get(config, "groups").value.JObject?
      && JTruthy(Field(Get(config, "groups").value, "create"))
  {
    var cfg := if JTruthy(config) then config else JObject([]);
    if !cfg.JObject? then Raised(AttributeError)
    else
      var section := GetOr(cfg, "groups", JObject([]));
      if !section.JObject? then Raised(AttributeError)
      else Ok(JTruthy(GetOr(section, "create", JBool(false))))
  }

  /**
   * `migrate_groups`. `scim` says whether the target has a SCIM client,
   * `config` is the configuration it reads the `groups.create` option from,
   * `sourceScim` and `sourceGroups` what `extract_groups` reads. The option
   * is read first, and reading it may raise; then without SCIM or with
   * creation off nothing happens. The mapping is merged into the store's groups.
   */
  method MigrateGroups(scim: bool, config: Json, sourceScim: bool, sourceGroups: Reply<seq<Json>>, target: ScimTarget,
                       userMapping: map<Json, Json>, mappings: MigrationMappings, stats: MigrationStats)
    returns (r: Reply<map<Json, Json>>, ghost patches: seq<Patch>)
    requires stats.Valid()
    modifies mappings`groups, stats
    ensures stats.Valid()
    ensures CreateOption(config).Raised? ==>
      r == Raised(AttributeError) && unchanged(mappings`groups) && unchanged(stats)
    ensures CreateOption(config).Ok? && (!scim || !CreateOption(config).value) ==>
      r == Ok(map[]) && unchanged(mappings`groups) && unchanged(stats)
    ensures scim && CreateOption(config) == Ok(true) ==>
      var groups := if sourceScim && sourceGroups.Ok? then EG.Collected(sourceGroups.value) else [];
      var out := GroupsFrom(target, userMapping, GroupsRun(map[], ExistingByName(target), [], []), groups);
      if out.Raised? then r == Raised(out.exc) && unchanged(mappings`groups) && unchanged(stats)
      else
        && r == Ok(out.value.mapping)
        && patches == out.value.patches
        && mappings.groups == old(mappings.groups) + out.value.mapping
        && stats.processed == Accumulate(old(stats.processed), "groups", |groups|)
        && stats.created == Accumulate(old(stats.created), "groups", |out.value.mapping|)
  {
    patches := [];
    var createGroups := CreateOption(config);
    if createGroups.Raised? {
      return Raised(createGroups.exc), [];
    }
    if !scim || !createGroups.value {
      return Ok(map[]), [];
    }
    var groups := EG.ExtractGroups(sourceScim, sourceGroups);
    var existing := IndexExisting(target);
    var out := RunGroups(target, userMapping, GroupsRun(map[], existing, [], []), groups);
    if out.Raised? {
      return Raised(out.exc), [];
    }
    var run := out.value;
    mappings.groups := mappings.groups + run.mapping;
    stats.AddEntity("groups", |groups|, |run.mapping|);
    return Ok(run.mapping), run.patches;
  }

  /** The loop over the source groups, from the state `start`. */
  method RunGroups(target: ScimTarget, userMapping: map<Json, Json>, start: GroupsRun, groups: seq<EG.ExtractedGroup>)
    returns (out: Reply<GroupsRun>)
    ensures out == GroupsFrom(target, userMapping, start, groups)
  {
    var run := start;
    for i := 0 to |groups|
      invariant GroupsFrom(target, userMapping, start, groups[..i]) == Ok(run)
    {
      assert groups[..i + 1][..i] == groups[..i];
      var next := MigrateGroup(target, userMapping, run, groups[i]);
      if next.Raised? {
        GroupsStop(target, userMapping, start, groups, i + 1);
        return next;
      }
      run := next.value;
    }
    assert groups[..|groups|] == groups;
    return Ok(run);
  }

  /** Once `lower()` has raised, the loop is over. */
  lemma {:induction false} GroupsStop(target: ScimTarget, userMapping: map<Json, Json>, start: GroupsRun,
                                      groups: seq<EG.ExtractedGroup>, k: nat)
    requires k <= |groups| && GroupsFrom(target, userMapping, start, groups[..k]).Raised?
    ensures GroupsFrom(target, userMapping, start, groups) == GroupsFrom(target, userMapping, start, groups[..k])
    decreases |groups| - k
  {
    if k < |groups| {
      assert groups[..k + 1][..k] == groups[..k];
      GroupsStop(target, userMapping, start, groups, k + 1);
    } else {
      assert groups[..k] == groups;
    }
  }

  /** The loop over the target's groups, inside its `try`. */
  method IndexExisting(target: ScimTarget) returns (existing: map<string, Json>)
    ensures existing == ExistingByName(target)
  {
    if target.allGroups.Raised? {
      return map[];
    }
    var r := Seqs.FoldStopFrom(IndexGroup, map[], [], map[], target.allGroups.value);
    assert [] + target.allGroups.value == target.allGroups.value;
    return r.0;
  }

  /** One turn of the loop over the source groups. */
  method MigrateGroup(target: ScimTarget, userMapping: map<Json, Json>, r: GroupsRun, group: EG.ExtractedGroup)
    returns (next: Reply<GroupsRun>)
    ensures next == GroupStep(target, userMapping, r, group)
  {
    if !JTruthy(group.id) || !JTruthy(group.displayName) {
      return Ok(r);
    }
    if !group.displayName.JStr? {
      return Raised(AttributeError);
    }
    var name := group.displayName.s;
    var normalized := Lower(name);
    var run := r;
    var targetId: Json;
    if normalized in run.existing {
      targetId := run.existing[normalized];
      run := run.(mapping := run.mapping[group.id := targetId]);
    } else {
      var created := target.create(name);
      if created.Raised? || !JTruthy(created.value) {
        return Ok(r);
      }
      targetId := created.value;
      run := GroupsRun(run.mapping[group.id := targetId], run.existing[normalized := targetId], run.created + [normalized], run.patches);
    }
    if group.members != [] {
      var users := AddMembers(userMapping, group.members);
      if users != [] {
        run := run.(patches := run.patches + [Patch(targetId, users)]);
      }
    }
    return Ok(run);
  }

  /** One more member adds its target, if it has one. */
  lemma MemberTargetsStep(userMapping: map<Json, Json>, members: seq<Json>, j: nat)
    requires j < |members|
    ensures var t := MemberTarget(userMapping, members[j]);
      MemberTargets(userMapping, members[..j + 1]) == MemberTargets(userMapping, members[..j]) + (if t.Some? then [t.value] else [])
  {
    assert members[..j + 1][..j] == members[..j];
  }

  /** The loop over one group's members. */
  method AddMembers(userMapping: map<Json, Json>, members: seq<Json>) returns (users: seq<string>)
    ensures users == MemberTargets(userMapping, members)
  {
    users := [];
    for j := 0 to |members|
      invariant users == MemberTargets(userMapping, members[..j])
    {
      MemberTargetsStep(userMapping, members, j);
      var member := members[j];
      if member.JStr? {
        var parsed := IntOf(StrV(member.s));
        if parsed.Ok? && JInt(parsed.value) in userMapping {
          users := users + [StrOf(userMapping[JInt(parsed.value)])];
        }
      } else if member.JInt? {
        if member in userMapping {
          users := users + [StrOf(userMapping[member])];
        }
      } else if member.JBool? {
        var k := JInt(if member.b then 1 else 0);
        if k in userMapping {
          users := users + [StrOf(userMapping[k])];
        }
      }
    }
    assert members[..|members|] == members;
  }
}
