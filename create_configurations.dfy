// migration/create/configurations.py: every configuration group is created
// in the target; the configurations nested in a created group are reused
// when already mapped or created inside the new group.

module CreateConfigurations {
  import opened Py
  import opened Utils
  import Steps

  datatype ConfigurationGroupCreate = ConfigurationGroupCreate(title: Json)
  datatype ConfigurationCreate = ConfigurationCreate(title: Json, groupId: Json)

  /** The configurations of a group: the first of `configs`, `configurations`, `entities` that is present. */
  function ConfigsOf(group: Json): (r: Option<Json>)
    ensures r.Some? <==> Get(group, "configs").Some? || Get(group, "configurations").Some? || Get(group, "entities").Some?
    ensures Get(group, "configs").Some? ==> r == Get(group, "configs")
  {
    if Get(group, "configs").Some? then Get(group, "configs")
    else if Get(group, "configurations").Some? then Get(group, "configurations")
    else Get(group, "entities")
  }

  /** `len(v)`: the number of items a loop over `v` visits; TypeError for a value without a length. */
  function Len(v: Json): (r: Reply<nat>)
    ensures r.Ok? <==> Iter(v).Some?
    ensures v.JList? ==> r == Ok(|v.items|)
  {
    match Iter(v) case Some(xs) => Ok(|xs|) case None => Raised(TypeError("object has no len()"))
  }

  /** The group's outcome: its `title` is required (KeyError), and a truthy target id maps its source id. */
  function GroupOut(createGroup: ConfigurationGroupCreate -> Reply<Json>, group: Json): Reply<Option<(Json, Json)>>
  {
    match Get(group, "title")
    case None => Raised(KeyError)
    case Some(title) =>
      match createGroup(ConfigurationGroupCreate(title))
      case Raised(e) => Raised(e)
      case Ok(t) => if JTruthy(t) then Ok(Some((Field(group, "id"), t))) else Ok(None)
  }

  /**
   * One configuration of a group created as `target`: skipped without a
   * truthy title; reused when its id is in the project's configuration
   * table; otherwise created in `target`, a truthy id mapping it.
   */
  function ConfigOut(createConfig: ConfigurationCreate -> Reply<Json>, existing: map<Json, Json>, target: Json, config: Json)
    : Reply<Option<(Json, Json)>>
  {
    var title := Field(ToDict(config), "title");
    var id := Field(ToDict(config), "id");
    if !JTruthy(title) then Ok(None)
    else if id in existing then Ok(Some((id, existing[id])))
    else match createConfig(ConfigurationCreate(title, target))
      case Raised(e) => Raised(e)
      case Ok(t) => if JTruthy(t) then Ok(Some((id, t))) else Ok(None)
  }

  function ConfigEvents(createConfig: ConfigurationCreate -> Reply<Json>, existing: map<Json, Json>, target: Json, configs: seq<Json>)
    : seq<Steps.Tagged<Json, Json>>
  {
    seq(|configs|, j requires 0 <= j < |configs| => Steps.Tagged(false, ConfigOut(createConfig, existing, target, configs[j])))
  }

  /**
   * The configurations a group created as `target` goes through: none when
   * its list is absent or falsy; a TypeError when a truthy list is not
   * iterable.
   */
  function NestedEvents(createConfig: ConfigurationCreate -> Reply<Json>, existing: map<Json, Json>, target: Json, group: Json)
    : seq<Steps.Tagged<Json, Json>>
  {
    match ConfigsOf(group)
    case None => []
    case Some(list) =>
      if !JTruthy(list) then []
      else match Iter(list)
        case None => [Steps.Tagged(false, Raised(NotIterable))]
        case Some(configs) => ConfigEvents(createConfig, existing, target, configs)
  }

  /** What one group contributes to the loop: its own outcome, then its configurations' when it was created. */
  function GroupEvents(createGroup: ConfigurationGroupCreate -> Reply<Json>, createConfig: ConfigurationCreate -> Reply<Json>,
                       existing: map<Json, Json>, group: Json): seq<Steps.Tagged<Json, Json>>
  {
    var o := GroupOut(createGroup, group);
    [Steps.Tagged(true, o)] +
      (if o.Ok? && o.value.Some? then NestedEvents(createConfig, existing, o.value.value.1, group) else [])
  }

  function Events(createGroup: ConfigurationGroupCreate -> Reply<Json>, createConfig: ConfigurationCreate -> Reply<Json>,
                  existing: map<Json, Json>, groups: seq<Json>): seq<Steps.Tagged<Json, Json>>
  {
    Steps.ConcatMap(groups, (g: Json) => GroupEvents(createGroup, createConfig, existing, g))
  }

  /** The group mapping and the configuration mapping the loop builds; the first exception escapes. */
  function Migrated(createGroup: ConfigurationGroupCreate -> Reply<Json>, createConfig: ConfigurationCreate -> Reply<Json>,
                    existing: map<Json, Json>, groups: seq<Json>): Reply<(map<Json, Json>, map<Json, Json>)>
  {
    Steps.AssignBoth(Events(createGroup, createConfig, existing, groups))
  }

  /** The outcomes of the loop are exactly the outcomes of its groups. */
  lemma EventsMembers(createGroup: ConfigurationGroupCreate -> Reply<Json>, createConfig: ConfigurationCreate -> Reply<Json>,
                      existing: map<Json, Json>, groups: seq<Json>, e: Steps.Tagged<Json, Json>)
    ensures e in Events(createGroup, createConfig, existing, groups) <==>
      exists i :: 0 <= i < |groups| && e in GroupEvents(createGroup, createConfig, existing, groups[i])
  {
    Steps.ConcatMapMembers(groups, (g: Json) => GroupEvents(createGroup, createConfig, existing, g), e);
  }

  /** The group `group` is created with a truthy id and maps the source id `k`. */
  predicate GroupMaps(createGroup: ConfigurationGroupCreate -> Reply<Json>, group: Json, k: Json)
  {
    Steps.Sets(GroupOut(createGroup, group), k)
  }

  /** The configuration `config` of a group created as `target` maps the source id `k`. */
  predicate ConfigMaps(createConfig: ConfigurationCreate -> Reply<Json>, existing: map<Json, Json>, target: Json, config: Json, k: Json)
  {
    Steps.Sets(ConfigOut(createConfig, existing, target, config), k)
  }

  lemma GroupOutSets(createGroup: ConfigurationGroupCreate -> Reply<Json>, group: Json, k: Json)
    ensures GroupMaps(createGroup, group, k) <==>
      && Get(group, "title").Some? && Field(group, "id") == k
      && createGroup(ConfigurationGroupCreate(Get(group, "title").value)).Ok?
      && JTruthy(createGroup(ConfigurationGroupCreate(Get(group, "title").value)).value)
  {
  }

  lemma ConfigOutSets(createConfig: ConfigurationCreate -> Reply<Json>, existing: map<Json, Json>, target: Json, config: Json, k: Json)
    ensures ConfigMaps(createConfig, existing, target, config, k) <==>
      && Field(ToDict(config), "id") == k && JTruthy(Field(ToDict(config), "title"))
      && (k in existing ||
          (createConfig(ConfigurationCreate(Field(ToDict(config), "title"), target)).Ok?
           && JTruthy(createConfig(ConfigurationCreate(Field(ToDict(config), "title"), target)).value)))
    ensures ConfigMaps(createConfig, existing, target, config, k) && k in existing ==>
      ConfigOut(createConfig, existing, target, config).value.value.1 == existing[k]
  {
  }

  /** Some configuration listed under `group` maps `k` in the target the group was created as. */
  predicate NestedMaps(createGroup: ConfigurationGroupCreate -> Reply<Json>, createConfig: ConfigurationCreate -> Reply<Json>,
                       existing: map<Json, Json>, group: Json, k: Json)
  {
    var o := GroupOut(createGroup, group);
    && o.Ok? && o.value.Some?
    && ConfigsOf(group).Some? && JTruthy(ConfigsOf(group).value) && Iter(ConfigsOf(group).value).Some?
    && exists j :: 0 <= j < |Iter(ConfigsOf(group).value).value|
         && ConfigMaps(createConfig, existing, o.value.value.1, Iter(ConfigsOf(group).value).value[j], k)
  }

  /** A group contributes its own outcome first; what follows are its configurations' outcomes. */
  lemma GroupEventsShape(createGroup: ConfigurationGroupCreate -> Reply<Json>, createConfig: ConfigurationCreate -> Reply<Json>,
                         existing: map<Json, Json>, group: Json)
    ensures var evs := GroupEvents(createGroup, createConfig, existing, group);
      && |evs| >= 1 && evs[0] == Steps.Tagged(true, GroupOut(createGroup, group))
      && (forall i :: 1 <= i < |evs| ==> !evs[i].outer)
  {
  }

  /** Only the group's own outcome goes to the group table. */
  lemma GroupEventsOuter(createGroup: ConfigurationGroupCreate -> Reply<Json>, createConfig: ConfigurationCreate -> Reply<Json>,
                         existing: map<Json, Json>, group: Json, k: Json)
    ensures (exists e :: e in GroupEvents(createGroup, createConfig, existing, group) && Steps.SetsIn(e, true, k)) <==>
      GroupMaps(createGroup, group, k)
  {
    var evs := GroupEvents(createGroup, createConfig, existing, group);
    GroupEventsShape(createGroup, createConfig, existing, group);
    if exists e :: e in evs && Steps.SetsIn(e, true, k) {
      var e :| e in evs && Steps.SetsIn(e, true, k);
      var i :| 0 <= i < |evs| && evs[i] == e;
      assert i == 0;
    }
    if GroupMaps(createGroup, group, k) {
      assert evs[0] in evs && Steps.SetsIn(evs[0], true, k);
    }
  }

  /** The configuration table gets the outcomes of the configurations listed under a created group. */
  lemma GroupEventsInner(createGroup: ConfigurationGroupCreate -> Reply<Json>, createConfig: ConfigurationCreate -> Reply<Json>,
                         existing: map<Json, Json>, group: Json, k: Json)
    ensures (exists e :: e in GroupEvents(createGroup, createConfig, existing, group) && Steps.SetsIn(e, false, k)) <==>
      NestedMaps(createGroup, createConfig, existing, group, k)
  {
    var o := GroupOut(createGroup, group);
    var evs := GroupEvents(createGroup, createConfig, existing, group);
    if o.Ok? && o.value.Some? {
      var t := o.value.value.1;
      var nested := NestedEvents(createConfig, existing, t, group);
      assert evs == [Steps.Tagged(true, o)] + nested;
      if ConfigsOf(group).Some? && JTruthy(ConfigsOf(group).value) && Iter(ConfigsOf(group).value).Some? {
        var configs := Iter(ConfigsOf(group).value).value;
        assert nested == ConfigEvents(createConfig, existing, t, configs);
        if exists e :: e in evs && Steps.SetsIn(e, false, k) {
          var e :| e in evs && Steps.SetsIn(e, false, k);
          assert e in nested;
          var j :| 0 <= j < |nested| && nested[j] == e;
          assert ConfigMaps(createConfig, existing, t, configs[j], k);
        }
        if NestedMaps(createGroup, createConfig, existing, group, k) {
          var j :| 0 <= j < |configs| && ConfigMaps(createConfig, existing, t, configs[j], k);
          assert nested[j] in evs;
        }
      } else {
        assert nested == [] || nested == [Steps.Tagged(false, Raised(NotIterable))];
      }
    } else {
      assert evs == [Steps.Tagged(true, o)];
    }
  }

  /** A source group id is mapped iff some group with it was created with a truthy id. */
  lemma MigratedGroups(createGroup: ConfigurationGroupCreate -> Reply<Json>, createConfig: ConfigurationCreate -> Reply<Json>,
                       existing: map<Json, Json>, groups: seq<Json>, k: Json)
    requires Migrated(createGroup, createConfig, existing, groups).Ok?
    ensures k in Migrated(createGroup, createConfig, existing, groups).value.0 <==>
      exists i :: 0 <= i < |groups| && GroupMaps(createGroup, groups[i], k)
  {
    var evs := Events(createGroup, createConfig, existing, groups);
    Steps.AssignBothEntries(evs, true, k);
    if exists i :: 0 <= i < |evs| && Steps.SetsIn(evs[i], true, k) {
      var i :| 0 <= i < |evs| && Steps.SetsIn(evs[i], true, k);
      EventsMembers(createGroup, createConfig, existing, groups, evs[i]);
      var g :| 0 <= g < |groups| && evs[i] in GroupEvents(createGroup, createConfig, existing, groups[g]);
      GroupEventsOuter(createGroup, createConfig, existing, groups[g], k);
    }
    if exists g :: 0 <= g < |groups| && GroupMaps(createGroup, groups[g], k) {
      var g :| 0 <= g < |groups| && GroupMaps(createGroup, groups[g], k);
      GroupEventsOuter(createGroup, createConfig, existing, groups[g], k);
      var e :| e in GroupEvents(createGroup, createConfig, existing, groups[g]) && Steps.SetsIn(e, true, k);
      EventsMembers(createGroup, createConfig, existing, groups, e);
    }
  }

  /**
   * A source configuration id is mapped iff some configuration with it is
   * listed under a group that was created, and was already mapped or was
   * created in that group's target with a truthy id.
   */
  lemma MigratedConfigs(createGroup: ConfigurationGroupCreate -> Reply<Json>, createConfig: ConfigurationCreate -> Reply<Json>,
                        existing: map<Json, Json>, groups: seq<Json>, k: Json)
    requires Migrated(createGroup, createConfig, existing, groups).Ok?
    ensures k in Migrated(createGroup, createConfig, existing, groups).value.1 <==>
      exists i :: 0 <= i < |groups| && NestedMaps(createGroup, createConfig, existing, groups[i], k)
  {
    var evs := Events(createGroup, createConfig, existing, groups);
    Steps.AssignBothEntries(evs, false, k);
    if exists i :: 0 <= i < |evs| && Steps.SetsIn(evs[i], false, k) {
      var i :| 0 <= i < |evs| && Steps.SetsIn(evs[i], false, k);
      EventsMembers(createGroup, createConfig, existing, groups, evs[i]);
      var g :| 0 <= g < |groups| && evs[i] in GroupEvents(createGroup, createConfig, existing, groups[g]);
      GroupEventsInner(createGroup, createConfig, existing, groups[g], k);
    }
    if exists g :: 0 <= g < |groups| && NestedMaps(createGroup, createConfig, existing, groups[g], k) {
      var g :| 0 <= g < |groups| && NestedMaps(createGroup, createConfig, existing, groups[g], k);
      GroupEventsInner(createGroup, createConfig, existing, groups[g], k);
      var e :| e in GroupEvents(createGroup, createConfig, existing, groups[g]) && Steps.SetsIn(e, false, k);
      EventsMembers(createGroup, createConfig, existing, groups, e);
    }
  }

  /** The loop finishes iff none of its outcomes raised. */
  lemma MigratedFailure(createGroup: ConfigurationGroupCreate -> Reply<Json>, createConfig: ConfigurationCreate -> Reply<Json>,
                        existing: map<Json, Json>, groups: seq<Json>)
    ensures Migrated(createGroup, createConfig, existing, groups).Ok? <==>
      forall e :: e in Events(createGroup, createConfig, existing, groups) ==> e.out.Ok?
  {
    Steps.AssignBothOutcome(Events(createGroup, createConfig, existing, groups));
  }

  /** `total_configs`: the lengths of the groups' configuration lists; `len` of a value without one raises. */
  function TotalConfigs(groups: seq<Json>): Reply<nat>
  {
    if groups == [] then Ok(0)
    else
      var n := |groups| - 1;
      match TotalConfigs(groups[..n])
      case Raised(e) => Raised(e)
      case Ok(total) =>
        match ConfigsOf(groups[n])
        case None => Ok(total)
        case Some(list) =>
          match Len(list)
          case Raised(e) => Raised(e)
          case Ok(c) => Ok(total + c)
  }

  /** The number of configuration outcomes of one group that finishes is at most the length of its list. */
  lemma GroupEventsCount(createGroup: ConfigurationGroupCreate -> Reply<Json>, createConfig: ConfigurationCreate -> Reply<Json>,
                         existing: map<Json, Json>, group: Json)
    requires ConfigsOf(group).Some? ==> Len(ConfigsOf(group).value).Ok?
    ensures Steps.CountIn(GroupEvents(createGroup, createConfig, existing, group), false) <=
      if ConfigsOf(group).Some? then Len(ConfigsOf(group).value).value else 0
  {
    var o := GroupOut(createGroup, group);
    var evs := GroupEvents(createGroup, createConfig, existing, group);
    Steps.CountInAppend([Steps.Tagged(true, o)], evs[1..], false);
    assert [Steps.Tagged(true, o)] + evs[1..] == evs;
    var nested := evs[1..];
    if nested != [] {
      var list := ConfigsOf(group).value;
      var configs := Iter(list).value;
      assert nested == ConfigEvents(createConfig, existing, o.value.value.1, configs);
      CountInAtMost(nested);
    }
  }

  lemma {:induction false} CountInAtMost(events: seq<Steps.Tagged<Json, Json>>)
    ensures Steps.CountIn(events, false) <= |events|
  {
    if events != [] {
      CountInAtMost(events[..|events| - 1]);
    }
  }

  /**
   * The recorded counts are consistent: no more groups are mapped than were
   * listed, and no more configurations than `total_configs` counts.
   */
  lemma {:induction false} MigratedCounts(createGroup: ConfigurationGroupCreate -> Reply<Json>, createConfig: ConfigurationCreate -> Reply<Json>,
                                          existing: map<Json, Json>, groups: seq<Json>)
    requires Migrated(createGroup, createConfig, existing, groups).Ok? && TotalConfigs(groups).Ok?
    ensures |Migrated(createGroup, createConfig, existing, groups).value.0| <= |groups|
    ensures |Migrated(createGroup, createConfig, existing, groups).value.1| <= TotalConfigs(groups).value
  {
    var evs := Events(createGroup, createConfig, existing, groups);
    Steps.AssignBothSize(evs, true);
    Steps.AssignBothSize(evs, false);
    EventsCount(createGroup, createConfig, existing, groups);
  }

  lemma {:induction false} EventsCount(createGroup: ConfigurationGroupCreate -> Reply<Json>, createConfig: ConfigurationCreate -> Reply<Json>,
                                       existing: map<Json, Json>, groups: seq<Json>)
    requires TotalConfigs(groups).Ok?
    ensures Steps.CountIn(Events(createGroup, createConfig, existing, groups), true) == |groups|
    ensures Steps.CountIn(Events(createGroup, createConfig, existing, groups), false) <= TotalConfigs(groups).value
  {
    if groups != [] {
      var n := |groups| - 1;
      var init := Events(createGroup, createConfig, existing, groups[..n]);
      var last := GroupEvents(createGroup, createConfig, existing, groups[n]);
      EventsCount(createGroup, createConfig, existing, groups[..n]);
      Steps.CountInAppend(init, last, true);
      Steps.CountInAppend(init, last, false);
      GroupEventsCount(createGroup, createConfig, existing, groups[n]);
      GroupOuterCount(createGroup, createConfig, existing, groups[n]);
    }
  }

  lemma GroupOuterCount(createGroup: ConfigurationGroupCreate -> Reply<Json>, createConfig: ConfigurationCreate -> Reply<Json>,
                        existing: map<Json, Json>, group: Json)
    ensures Steps.CountIn(GroupEvents(createGroup, createConfig, existing, group), true) == 1
  {
    var evs := GroupEvents(createGroup, createConfig, existing, group);
    Steps.CountInAppend([evs[0]], evs[1..], true);
    assert [evs[0]] + evs[1..] == evs;
    assert forall e :: e in evs[1..] ==> !e.outer;
    InnerCount(evs[1..]);
  }

  lemma {:induction false} InnerCount(events: seq<Steps.Tagged<Json, Json>>)
    requires forall e :: e in events ==> !e.outer
    ensures Steps.CountIn(events, true) == 0
  {
    if events != [] {
      assert events[|events| - 1] in events;
      InnerCount(events[..|events| - 1]);
    }
  }

  /** One configuration of a group created as `target`. */
  method MigrateConfig(createConfig: ConfigurationCreate -> Reply<Json>, existing: map<Json, Json>, target: Json, config: Json)
    returns (o: Reply<Option<(Json, Json)>>)
    ensures o == ConfigOut(createConfig, existing, target, config)
  {
    var configDict := ToDict(config);
    var title := Field(configDict, "title");
    var sourceConfigId := Field(configDict, "id");
    if !JTruthy(title) {
      return Ok(None);
    }
    if sourceConfigId in existing {
      return Ok(Some((sourceConfigId, existing[sourceConfigId])));
    }
    var response := createConfig(ConfigurationCreate(title, target));
    if response.Raised? {
      return Raised(response.exc);
    }
    if JTruthy(response.value) {
      return Ok(Some((sourceConfigId, response.value)));
    }
    return Ok(None);
  }

  /** The loop over the configurations of a group created as `target`, continuing the tables `gm` and `cm`. */
  method MigrateNested(createConfig: ConfigurationCreate -> Reply<Json>, existing: map<Json, Json>, target: Json, configs: seq<Json>,
                       ghost before: seq<Steps.Tagged<Json, Json>>, gm: map<Json, Json>, cm: map<Json, Json>)
    returns (res: Reply<(map<Json, Json>, map<Json, Json>)>)
    requires Steps.AssignBoth(before) == Ok((gm, cm))
    ensures res == Steps.AssignBoth(before + ConfigEvents(createConfig, existing, target, configs))
  {
    ghost var evs := ConfigEvents(createConfig, existing, target, configs);
    var configMapping := cm;
    assert before + evs[..0] == before;
    for j := 0 to |configs|
      invariant Steps.AssignBoth(before + evs[..j]) == Ok((gm, configMapping))
    {
      Steps.ContinuedAt(before, evs, j);
      var o := MigrateConfig(createConfig, existing, target, configs[j]);
      assert evs[j] == Steps.Tagged(false, o);
      if o.Raised? {
        Steps.AssignBothStops(before + evs, |before| + j);
        return Raised(o.exc);
      }
      Steps.AssignBothStep(before + evs[..j], evs[j], (gm, configMapping));
      if o.value.Some? {
        configMapping := configMapping[o.value.value.0 := o.value.value.1];
      }
    }
    assert evs[..|configs|] == evs;
    return Ok((gm, configMapping));
  }

  /** One group: created, then, when created with a truthy id, its configurations. */
  method MigrateGroup(createGroup: ConfigurationGroupCreate -> Reply<Json>, createConfig: ConfigurationCreate -> Reply<Json>,
                      existing: map<Json, Json>, group: Json,
                      ghost before: seq<Steps.Tagged<Json, Json>>, gm: map<Json, Json>, cm: map<Json, Json>)
    returns (res: Reply<(map<Json, Json>, map<Json, Json>)>)
    requires Steps.AssignBoth(before) == Ok((gm, cm))
    ensures res == Steps.AssignBoth(before + GroupEvents(createGroup, createConfig, existing, group))
  {
    var o := CreateGroup(createGroup, group);
    ghost var head := before + [Steps.Tagged(true, o)];
    Steps.AssignBothStep(before, Steps.Tagged(true, o), (gm, cm));
    ghost var rest := if o.Ok? && o.value.Some? then NestedEvents(createConfig, existing, o.value.value.1, group) else [];
    assert GroupEvents(createGroup, createConfig, existing, group) == [Steps.Tagged(true, o)] + rest;
    Steps.AppendAssoc(before, [Steps.Tagged(true, o)], rest);
    if o.Raised? || o.value.None? {
      assert head + rest == head;
      return if o.Raised? then Raised(o.exc) else Ok((gm, cm));
    }
    var targetGroupId := o.value.value.1;
    var groupMapping := gm[o.value.value.0 := targetGroupId];
    var configsList := ConfigsOf(group);
    if configsList.None? || !JTruthy(configsList.value) {
      assert head + rest == head;
      return Ok((groupMapping, cm));
    }
    var configs := Iter(configsList.value);
    if configs.None? {
      Steps.AssignBothStep(head, Steps.Tagged(false, Raised(NotIterable)), (groupMapping, cm));
      return Raised(NotIterable);
    }
    assert rest == ConfigEvents(createConfig, existing, targetGroupId, configs.value);
    res := MigrateNested(createConfig, existing, targetGroupId, configs.value, head, groupMapping, cm);
  }

  /** Creating one group: the title lookup, then the create request; a falsy id maps nothing. */
  method CreateGroup(createGroup: ConfigurationGroupCreate -> Reply<Json>, group: Json) returns (o: Reply<Option<(Json, Json)>>)
    ensures o == GroupOut(createGroup, group)
  {
    var title := Get(group, "title");
    if title.None? {
      return Raised(KeyError);
    }
    var response := createGroup(ConfigurationGroupCreate(title.value));
    if response.Raised? {
      return Raised(response.exc);
    }
    var targetGroupId := response.value;
    if !JTruthy(targetGroupId) {
      return Ok(None);
    }
    return Ok(Some((Field(group, "id"), targetGroupId)));
  }

  /** The loop that counts `total_configs`. */
  method CountConfigs(groups: seq<Json>) returns (r: Reply<nat>)
    ensures r == TotalConfigs(groups)
  {
    var total: nat := 0;
    for i := 0 to |groups|
      invariant TotalConfigs(groups[..i]) == Ok(total)
    {
      assert groups[..i + 1][..i] == groups[..i];
      var list := ConfigsOf(groups[i]);
      if list.Some? {
        var c := Len(list.value);
        if c.Raised? {
          TotalStops(groups, i + 1);
          return Raised(c.exc);
        }
        total := total + c.value;
      }
    }
    assert groups[..|groups|] == groups;
    return Ok(total);
  }

  lemma {:induction false} TotalStops(groups: seq<Json>, k: nat)
    requires k <= |groups| && TotalConfigs(groups[..k]).Raised?
    ensures TotalConfigs(groups) == TotalConfigs(groups[..k])
    decreases |groups| - k
  {
    if k < |groups| {
      assert groups[..k + 1][..k] == groups[..k];
      TotalStops(groups, k + 1);
    } else {
      assert groups[..k] == groups;
    }
  }

  /** The loop over the groups, each followed by its configurations. */
  method GroupLoop(createGroup: ConfigurationGroupCreate -> Reply<Json>, createConfig: ConfigurationCreate -> Reply<Json>,
                   existing: map<Json, Json>, groups: seq<Json>)
    returns (r: Reply<(map<Json, Json>, map<Json, Json>)>)
    ensures r == Migrated(createGroup, createConfig, existing, groups)
  {
    ghost var f := (g: Json) => GroupEvents(createGroup, createConfig, existing, g);
    var groupMapping: map<Json, Json> := map[];
    var configMapping: map<Json, Json> := map[];
    for i := 0 to |groups|
      invariant Steps.AssignBoth(Events(createGroup, createConfig, existing, groups[..i])) == Ok((groupMapping, configMapping))
    {
      assert groups[..i + 1][..i] == groups[..i];
      var res := MigrateGroup(createGroup, createConfig, existing, groups[i],
                              Events(createGroup, createConfig, existing, groups[..i]), groupMapping, configMapping);
      if res.Raised? {
        Steps.ConcatMapPrefix(groups, i + 1, f);
        Steps.AssignBothPrefix(Events(createGroup, createConfig, existing, groups[..i + 1]), Events(createGroup, createConfig, existing, groups));
        return Raised(res.exc);
      }
      groupMapping, configMapping := res.value.0, res.value.1;
    }
    assert groups[..|groups|] == groups;
    return Ok((groupMapping, configMapping));
  }

  /**
   * `migrate_configurations` for the project `code`, given what
   * `extract_configurations` returned. Both tables are merged into the
   * project's entries, then `total_configs` is counted (a `len` that raises
   * escapes after the merge, before the counts are recorded) and both
   * counts recorded.
   */
  method MigrateConfigurations(code: string, groups: seq<Json>,
                               createGroup: ConfigurationGroupCreate -> Reply<Json>, createConfig: ConfigurationCreate -> Reply<Json>,
                               mappings: MigrationMappings, stats: MigrationStats)
    returns (r: Reply<(map<Json, Json>, map<Json, Json>)>)
    requires stats.Valid()
    modifies mappings`configurationGroups, mappings`configurations, stats
    ensures stats.Valid()
    ensures var m := Migrated(createGroup, createConfig, ProjectTable(old(mappings.configurations), code), groups);
      if m.Raised? then r == Raised(m.exc) && unchanged(mappings`configurationGroups, mappings`configurations) && unchanged(stats)
      else
        && mappings.configurationGroups == MergeInto(old(mappings.configurationGroups), code, m.value.0)
        && mappings.configurations == MergeInto(old(mappings.configurations), code, m.value.1)
        && match TotalConfigs(groups)
           case Raised(e) => r == Raised(e) && unchanged(stats)
           case Ok(total) =>
             && r == m
             && stats.processed == Accumulate(Accumulate(old(stats.processed), "configuration_groups", |groups|), "configurations", total)
             && stats.created == Accumulate(Accumulate(old(stats.created), "configuration_groups", |m.value.0|), "configurations", |m.value.1|)
  {
    var existing := ProjectTable(mappings.configurations, code);
    var m := GroupLoop(createGroup, createConfig, existing, groups);
    if m.Raised? {
      return Raised(m.exc);
    }
    var (groupMapping, configMapping) := m.value;
    var mergedGroups := MergeInto(mappings.configurationGroups, code, groupMapping);
    var mergedConfigs := MergeInto(mappings.configurations, code, configMapping);
    mappings.configurationGroups, mappings.configurations := mergedGroups, mergedConfigs;
    var total := CountConfigs(groups);
    if total.Raised? {
      return Raised(total.exc);
    }
    stats.AddEntity("configuration_groups", |groups|, |groupMapping|);
    stats.AddEntity("configurations", total.value, |configMapping|);
    return Ok((groupMapping, configMapping));
  }
}
