// migration/create/users.py: users are not created; each source user is
// mapped to the target user with exactly the same email.

module CreateUsers {
  import opened Py
  import opened Utils
  import opened Paging
  import ExtractUsers
  import Seqs

  const Limit: nat := 100

  /** `to_dict(user).get('email', '')`. */
  function TargetEmail(user: Json): Json
  {
    match Get(ToDict(user), "email") case Some(e) => e case None => JStr("")
  }

  /** `to_dict(user).get('id')`. */
  function TargetId(user: Json): Json
  {
    Field(ToDict(user), "id")
  }

  /** The target user `user` is the match for the source id `k`. */
  predicate MatchesSource(sourceUsers: map<Json, Json>, emailOf: Json -> Json, user: Json, k: Json)
  {
    emailOf(user) in sourceUsers && sourceUsers[emailOf(user)] == k
  }

  /** The source-to-target table after the target users `users`, in order, reading them with `emailOf` and `idOf`. */
  function MatchedBy(sourceUsers: map<Json, Json>, users: seq<Json>, emailOf: Json -> Json, idOf: Json -> Json): map<Json, Json>
  {
    if users == [] then map[]
    else
      var n := |users| - 1;
      var m := MatchedBy(sourceUsers, users[..n], emailOf, idOf);
      var email := emailOf(users[n]);
      if email in sourceUsers then m[sourceUsers[email] := idOf(users[n])] else m
  }

  /** The table `map_users` builds. */
  function Matched(sourceUsers: map<Json, Json>, users: seq<Json>): map<Json, Json>
  {
    MatchedBy(sourceUsers, users, TargetEmail, TargetId)
  }

  /**
   * A source id is mapped iff some target user has its email (compared
   * exactly, case included), and it maps to the id of the last such user.
   */
  lemma {:induction false} MatchedEntries(sourceUsers: map<Json, Json>, users: seq<Json>, emailOf: Json -> Json, idOf: Json -> Json, k: Json)
    ensures k in MatchedBy(sourceUsers, users, emailOf, idOf) <==>
      exists i :: 0 <= i < |users| && MatchesSource(sourceUsers, emailOf, users[i], k)
    ensures k in MatchedBy(sourceUsers, users, emailOf, idOf) ==>
      exists i :: 0 <= i < |users| && MatchesSource(sourceUsers, emailOf, users[i], k)
        && MatchedBy(sourceUsers, users, emailOf, idOf)[k] == idOf(users[i])
        && forall j :: i < j < |users| ==> !MatchesSource(sourceUsers, emailOf, users[j], k)
  {
    if users != [] {
      var n := |users| - 1;
      var init := users[..n];
      MatchedEntries(sourceUsers, init, emailOf, idOf, k);
      assert forall i :: 0 <= i < n ==> init[i] == users[i];
      if !MatchesSource(sourceUsers, emailOf, users[n], k) && k in MatchedBy(sourceUsers, init, emailOf, idOf) {
        var i :| 0 <= i < n && MatchesSource(sourceUsers, emailOf, init[i], k)
          && MatchedBy(sourceUsers, init, emailOf, idOf)[k] == idOf(init[i])
          && forall j :: i < j < n ==> !MatchesSource(sourceUsers, emailOf, init[j], k);
        assert forall j :: i < j < |users| ==> !MatchesSource(sourceUsers, emailOf, users[j], k);
      }
    }
  }

  /** Only source ids are mapped. */
  lemma {:induction false} MatchedKeys(sourceUsers: map<Json, Json>, users: seq<Json>, emailOf: Json -> Json, idOf: Json -> Json)
    ensures MatchedBy(sourceUsers, users, emailOf, idOf).Keys <= sourceUsers.Values
  {
    if users != [] {
      MatchedKeys(sourceUsers, users[..|users| - 1], emailOf, idOf);
    }
  }

  /**
   * `map_users`. `fetch(offset)` is the retried `get_authors(limit=100,
   * offset, type='user')` normalised to its entities (an empty response reads
   * as an empty page). The user table is replaced, not merged; an exception
   * from the listing escapes before anything is stored.
   */
  method MapUsers(sourceUsers: map<Json, Json>, fetch: nat -> Reply<seq<Json>>, ghost bound: nat,
                  mappings: MigrationMappings, stats: MigrationStats)
    returns (r: Reply<map<Json, Json>>)
    requires Ends(fetch, Limit, bound)
    requires stats.Valid()
    modifies mappings`users, stats
    ensures stats.Valid()
    ensures var s := ScanFrom(fetch, Limit, 0, bound);
      if s.failure.Some? then r == Raised(s.failure.value) && unchanged(mappings`users) && unchanged(stats)
      else
        && r == Ok(Matched(sourceUsers, Items(s)))
        && mappings.users == r.value
        && stats.processed == Accumulate(old(stats.processed), "users", |sourceUsers|)
        && stats.created == Accumulate(old(stats.created), "users", |r.value|)
  {
    var matched := MatchAll(sourceUsers, fetch, bound);
    if matched.Raised? {
      return matched;
    }
    mappings.users := matched.value;
    stats.AddEntity("users", |sourceUsers|, |matched.value|);
    return matched;
  }

  /** The paging loop of `map_users`: every page of target users matched in turn, the first exception escaping. */
  method MatchAll(sourceUsers: map<Json, Json>, fetch: nat -> Reply<seq<Json>>, ghost bound: nat)
    returns (r: Reply<map<Json, Json>>)
    requires Ends(fetch, Limit, bound)
    ensures var s := ScanFrom(fetch, Limit, 0, bound);
      r == if s.failure.Some? then Raised(s.failure.value) else Ok(Matched(sourceUsers, Items(s)))
  {
    var userMapping: map<Json, Json> := map[];
    var offset: nat := 0;
    ghost var seen: seq<Json> := [];
    ReadFromStart(fetch, Limit, bound);
    while true
      invariant ReadUpTo(fetch, Limit, bound, offset, seen)
      invariant userMapping == Matched(sourceUsers, seen)
      decreases if offset <= bound then bound - offset + 1 else 0
    {
      var response := fetch(offset);
      Turn(fetch, Limit, bound, offset, seen);
      if response.Raised? {
        return Raised(response.exc);
      }
      var entities := response.value;
      if entities == [] {
        assert seen + entities == seen;
        return Ok(userMapping);
      }
      userMapping := MatchPage(sourceUsers, userMapping, seen, entities);
      if |entities| < Limit {
        return Ok(userMapping);
      }
      seen := seen + entities;
      offset := offset + Limit;
    }
  }

  /** The loop over one page of target users. */
  method MatchPage(sourceUsers: map<Json, Json>, userMapping: map<Json, Json>, ghost before: seq<Json>, entities: seq<Json>)
    returns (m: map<Json, Json>)
    requires userMapping == Matched(sourceUsers, before)
    ensures m == Matched(sourceUsers, before + entities)
  {
    m := userMapping;
    assert before + entities[..0] == before;
    for j := 0 to |entities|
      invariant m == Matched(sourceUsers, before + entities[..j])
    {
      ghost var xs := before + entities[..j + 1];
      assert xs[..|xs| - 1] == before + entities[..j] && xs[|xs| - 1] == entities[j];
      var userDict := ToDict(entities[j]);
      var email := match Get(userDict, "email") case Some(e) => e case None => JStr("");
      if email in sourceUsers {
        m := m[sourceUsers[email] := Field(userDict, "id")];
      }
    }
    assert entities[..|entities|] == entities;
  }

  /**
   * `migrate_users`: `extract_users` on the source, then `map_users`. An
   * exception from the extraction escapes with nothing changed.
   */
  method MigrateUsers(source: nat -> Reply<seq<Json>>, ghost sourceBound: nat, fetch: nat -> Reply<seq<Json>>, ghost bound: nat,
                      mappings: MigrationMappings, stats: MigrationStats)
    returns (r: Reply<map<Json, Json>>)
    requires Ends(source, ExtractUsers.Limit, sourceBound) && Ends(fetch, Limit, bound)
    requires stats.Valid()
    modifies mappings`users, stats
    ensures stats.Valid()
    ensures var s := ScanFrom(source, ExtractUsers.Limit, 0, sourceBound);
      var t := ScanFrom(fetch, Limit, 0, bound);
      if s.failure.Some? then r == Raised(s.failure.value) && unchanged(mappings`users) && unchanged(stats)
      else if t.failure.Some? then r == Raised(t.failure.value) && unchanged(mappings`users) && unchanged(stats)
      else
        var sourceUsers := Seqs.Index(Items(s), ExtractUsers.Email, ExtractUsers.UserId);
        && r == Ok(Matched(sourceUsers, Items(t)))
        && mappings.users == r.value
        && stats.processed == Accumulate(old(stats.processed), "users", |sourceUsers|)
        && stats.created == Accumulate(old(stats.created), "users", |r.value|)
  {
    var sourceUsers := ExtractUsers.ExtractUsers(source, sourceBound);
    if sourceUsers.Raised? {
      return Raised(sourceUsers.exc);
    }
    r := MapUsers(sourceUsers.value, fetch, bound, mappings, stats);
  }
}
