// migration/extract/groups.py: the groups of the source workspace, read from
// SCIM, each reduced to its id, display name and member ids.

module ExtractGroups {
  import opened Py

  /** The record kept for one group. */
  datatype ExtractedGroup = ExtractedGroup(id: Json, displayName: Json, members: seq<Json>)

  /** A member's id: a dict's 'value', anything else as it is. */
  function MemberId(member: Json): Json
  {
    if member.JObject? then Field(member, "value") else member
  }

  /** The truthy member ids, in order. */
  function MemberIds(members: seq<Json>): (r: seq<Json>)
    ensures |r| <= |members|
    ensures forall i :: 0 <= i < |r| ==> JTruthy(r[i])
  {
    if members == [] then []
    else
      var n := |members| - 1;
      var id := MemberId(members[n]);
      MemberIds(members[..n]) + (if JTruthy(id) then [id] else [])
  }

  lemma {:induction false} MemberIdsContents(members: seq<Json>, id: Json)
    ensures id in MemberIds(members) <==> JTruthy(id) && exists i :: 0 <= i < |members| && MemberId(members[i]) == id
  {
    if members != [] {
      var n := |members| - 1;
      MemberIdsContents(members[..n], id);
      assert members == members[..n] + [members[n]];
    }
  }

  /**
   * The record of one group; `None` where the loop raises: the group is not a
   * dict, or its `members` cannot be iterated.
   */
  function GroupRecord(group: Json): (r: Option<ExtractedGroup>)
    ensures r.Some? ==> group.JObject? && r.value.id == Field(group, "id") && r.value.displayName == Field(group, "displayName")
  {
    if !group.JObject? then None
    else
      var members := match Get(group, "members") case Some(m) => m case None => JList([]);
      match Iter(members)
      case None => None
      case Some(items) => Some(ExtractedGroup(Field(group, "id"), Field(group, "displayName"), MemberIds(items)))
  }

  /** The records of the groups up to the first one that raises. */
  function Collected(groups: seq<Json>): seq<ExtractedGroup>
  {
    if groups == [] then []
    else match GroupRecord(groups[0])
      case None => []
      case Some(g) => [g] + Collected(groups[1..])
  }

  /**
   * The records are those of the first groups, in order; when fewer than
   * all, the next group is the one that raised.
   */
  lemma {:induction false} CollectedPrefix(groups: seq<Json>)
    ensures |Collected(groups)| <= |groups|
    ensures forall i :: 0 <= i < |Collected(groups)| ==> GroupRecord(groups[i]) == Some(Collected(groups)[i])
    ensures |Collected(groups)| < |groups| ==> GroupRecord(groups[|Collected(groups)|]).None?
  {
    if groups != [] && GroupRecord(groups[0]).Some? {
      CollectedPrefix(groups[1..]);
    }
  }

  /**
   * `extract_groups`. `scim` says whether the source service has a SCIM
   * client; `allGroups` is its `get_all_groups()`. Without SCIM, or when the
   * call raises, there are no groups.
   */
  method ExtractGroups(scim: bool, allGroups: Reply<seq<Json>>) returns (groups: seq<ExtractedGroup>)
    ensures groups == if scim && allGroups.Ok? then Collected(allGroups.value) else []
  {
    groups := [];
    if !scim || allGroups.Raised? {
      return;
    }
    var scimGroups := allGroups.value;
    var i := 0;
    while i < |scimGroups|
      invariant 0 <= i <= |scimGroups|
      invariant groups + Collected(scimGroups[i..]) == Collected(scimGroups)
    {
      var record := ReadGroup(scimGroups[i]);
      CollectedStep(scimGroups, i);
      if record.None? {
        assert groups + [] == groups;
        return;
      }
      groups := groups + [record.value];
      i := i + 1;
    }
    assert scimGroups[i..] == [];
    assert groups + [] == groups;
  }

  lemma CollectedStep(groups: seq<Json>, i: nat)
    requires i < |groups|
    ensures Collected(groups[i..]) == match GroupRecord(groups[i])
      case None => []
      case Some(g) => [g] + Collected(groups[i + 1..])
  {
    assert groups[i..][0] == groups[i] && groups[i..][1..] == groups[i + 1..];
  }

  /** One turn of the loop: the group's record, or `None` where the loop raises. */
  method ReadGroup(group: Json) returns (r: Option<ExtractedGroup>)
    ensures r == GroupRecord(group)
  {
    if !group.JObject? {
      return None;
    }
    var members := match Get(group, "members") case Some(m) => m case None => JList([]);
    var items := Iter(members);
    if items.None? {
      return None;
    }
    var ids := ReadMembers(items.value);
    return Some(ExtractedGroup(Field(group, "id"), Field(group, "displayName"), ids));
  }

  /** The loop over the members of one group. */
  method ReadMembers(members: seq<Json>) returns (ids: seq<Json>)
    ensures ids == MemberIds(members)
  {
    ids := [];
    for j := 0 to |members|
      invariant ids == MemberIds(members[..j])
    {
      assert members[..j + 1][..j] == members[..j];
      var member := members[j];
      var memberId := if member.JObject? then Field(member, "value") else member;
      if JTruthy(memberId) {
        ids := ids + [memberId];
      }
    }
    assert members[..|members|] == members;
  }
}
