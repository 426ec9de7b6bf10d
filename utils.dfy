// migration/utils.py: the mapping store that every migrator reads and
// updates, its checkpoint file, the statistics accumulator, the retry policy
// wrapped around remote calls, list chunking and UUID conversion.

module Utils {
  import opened Py
  import opened Dicts

  /**
   * Source id (or hash) to target id, per project code. Ids are kept as the
   * JSON values the APIs return: a lookup with `5` does not find the key `"5"`.
   */
  type ProjectIds = map<string, map<Json, Json>>

  /**
   * `table.setdefault(code, {}).update(m)`, the merge every migrator ends
   * with: other projects and older entries stay, the new entries win.
   */
  function MergeInto(table: ProjectIds, code: string, m: map<Json, Json>): (r: ProjectIds)
    ensures r.Keys == table.Keys + {code}
    ensures forall c :: c in table && c != code ==> r[c] == table[c]
    ensures forall k :: k in r[code] <==> k in m || (code in table && k in table[code])
    ensures forall k :: k in m ==> r[code][k] == m[k]
    ensures code in table ==> forall k :: k in table[code] && k !in m ==> r[code][k] == table[code][k]
  {
    table[code := (if code in table then table[code] else map[]) + m]
  }

  /** The table a migrator consults for a project: `table.get(code, {})`. */
  function ProjectTable(table: ProjectIds, code: string): map<Json, Json>
  {
    if code in table then table[code] else map[]
  }

  /**
   * The target user the migrators compute for a source user id: 1 when the
   * id is falsy, `int()` rejects it or it is 0; otherwise what
   * `mappings.get_user_id` answers, whose ValueError or TypeError also gives 1
   * and whose other exceptions escape. The store has no such member, so the
   * answer is a parameter.
   */
  function TargetUser(getUserId: int -> Reply<Json>, source: Json): (r: Reply<Json>)
    ensures !JTruthy(source) ==> r == Ok(JInt(1))
    ensures IntOf(ToValue(source)) == Ok(0) ==> r == Ok(JInt(1))
    ensures JTruthy(source) && IntOf(ToValue(source)).Raised? ==> r == Ok(JInt(1))
    ensures JTruthy(source) && IntOf(ToValue(source)).Ok? && IntOf(ToValue(source)).value != 0 ==>
      var answer := getUserId(IntOf(ToValue(source)).value);
      r == if answer.Raised? && (answer.exc.ValueError? || answer.exc.TypeError?) then Ok(JInt(1)) else answer
  {
    if !JTruthy(source) then Ok(JInt(1))
    else match IntOf(ToValue(source))
      case Raised(_) => Ok(JInt(1))
      case Ok(k) =>
        if k == 0 then Ok(JInt(1))
        else match getUserId(k)
          case Ok(t) => Ok(t)
          case Raised(e) => if e.ValueError? || e.TypeError? then Ok(JInt(1)) else Raised(e)
  }

  /** With the store as written (no `get_user_id`), every non-zero integer id raises AttributeError. */
  lemma TargetUserAsWritten(source: Json)
    requires JTruthy(source) && IntOf(ToValue(source)).Ok? && IntOf(ToValue(source)).value != 0
    ensures TargetUser(_ => Raised(AttributeError), source) == Raised(AttributeError)
  {
  }

  /**
   * An entry of the queue of runs to complete once their results are in: the
   * target project code, the `is_completed` flag (always set when queued), the
   * source run's own `is_completed` value and whether it had an end time.
   */
  datatype RunCompletion = RunCompletion(projectCode: string, isCompleted: bool, sourceIsCompleted: Json, hasEndTime: bool)

  /**
   * What `migrate_projects` returns for each project it created or found in
   * the target: the source and target codes and ids. Every later step reads
   * its projects from these records.
   */
  datatype ProjectPair = ProjectPair(sourceCode: string, targetCode: string, sourceId: Json, targetId: Json)

  /** Everything a MigrationMappings object holds. */
  datatype Store = Store(
    projects: map<string, string>,
    suites: ProjectIds,
    cases: ProjectIds,
    runs: ProjectIds,
    milestones: ProjectIds,
    configurations: ProjectIds,
    configurationGroups: ProjectIds,
    environments: ProjectIds,
    sharedSteps: ProjectIds,
    sharedParameters: map<Json, Json>,
    customFields: map<Json, Json>,
    users: map<Json, Json>,
    attachments: ODict<string, ODict<string, string>>,
    plans: ProjectIds,
    targetWorkspaceHash: Option<string>,
    // attributes attached at run time by individual migrators, never saved
    groups: map<Json, Json>,
    runsToComplete: map<string, ODict<Json, RunCompletion>>,
    authorUuidToId: map<Json, int>)

  function EmptyStore(): Store
  {
    Store(map[], map[], map[], map[], map[], map[], map[], map[], map[], map[], map[], map[],
          Empty(), map[], None, map[], map[], map[])
  }

  /**
   * The checkpoint file. A table is `None` when its key is missing from the
   * JSON object; `targetWorkspaceHash` is `None` when missing or null.
   */
  datatype MappingsFile = MappingsFile(
    projects: Option<map<string, string>>,
    suites: Option<ProjectIds>,
    cases: Option<ProjectIds>,
    runs: Option<ProjectIds>,
    milestones: Option<ProjectIds>,
    configurations: Option<ProjectIds>,
    configurationGroups: Option<ProjectIds>,
    environments: Option<ProjectIds>,
    sharedSteps: Option<ProjectIds>,
    sharedParameters: Option<map<Json, Json>>,
    customFields: Option<map<Json, Json>>,
    users: Option<map<Json, Json>>,
    attachments: Option<ODict<string, ODict<string, string>>>,
    plans: Option<ProjectIds>,
    targetWorkspaceHash: Option<string>)

  function OrEmpty<K, V>(o: Option<map<K, V>>): map<K, V>
  {
    if o.Some? then o.value else map[]
  }

  /** What `save_to_file` writes: the fourteen tables, and not the workspace hash. */
  function Saved(s: Store): (f: MappingsFile)
    ensures f.targetWorkspaceHash.None?
    ensures f.projects == Some(s.projects) && f.cases == Some(s.cases) && f.attachments == Some(s.attachments)
  {
    MappingsFile(Some(s.projects), Some(s.suites), Some(s.cases), Some(s.runs), Some(s.milestones),
                 Some(s.configurations), Some(s.configurationGroups), Some(s.environments),
                 Some(s.sharedSteps), Some(s.sharedParameters), Some(s.customFields), Some(s.users),
                 Some(s.attachments), Some(s.plans), None)
  }

  /**
   * What `load_from_file` leaves in the store: nothing changes when the file
   * is missing; otherwise every table is replaced by the file's, a missing
   * table becoming empty, and the workspace hash by the file's (if any).
   */
  function Loaded(s: Store, file: Option<MappingsFile>): Store
  {
    match file
    case None => s
    case Some(f) =>
      s.(projects := OrEmpty(f.projects), suites := OrEmpty(f.suites), cases := OrEmpty(f.cases),
         runs := OrEmpty(f.runs), milestones := OrEmpty(f.milestones),
         configurations := OrEmpty(f.configurations), configurationGroups := OrEmpty(f.configurationGroups),
         environments := OrEmpty(f.environments), sharedSteps := OrEmpty(f.sharedSteps),
         sharedParameters := OrEmpty(f.sharedParameters), customFields := OrEmpty(f.customFields),
         users := OrEmpty(f.users),
         attachments := if f.attachments.Some? then f.attachments.value else Empty(),
         plans := OrEmpty(f.plans), targetWorkspaceHash := f.targetWorkspaceHash)
  }

  /** Reloading a checkpoint restores every table and forgets the workspace hash. */
  lemma LoadAfterSave(s: Store, before: Store)
    ensures Loaded(before, Some(Saved(s))) == s.(targetWorkspaceHash := None, groups := before.groups,
      runsToComplete := before.runsToComplete, authorUuidToId := before.authorUuidToId)
  {
  }

  /** A checkpoint is a fixpoint: saving what was just loaded from a save writes the same file. */
  lemma SaveLoadSave(s: Store, before: Store)
    ensures Saved(Loaded(before, Some(Saved(s)))) == Saved(s)
  {
  }

  class MigrationMappings {
    var projects: map<string, string>
    var suites: ProjectIds
    var cases: ProjectIds
    var runs: ProjectIds
    var milestones: ProjectIds
    var configurations: ProjectIds
    var configurationGroups: ProjectIds
    var environments: ProjectIds
    var sharedSteps: ProjectIds
    var sharedParameters: map<Json, Json>
    var customFields: map<Json, Json>
    var users: map<Json, Json>
    var attachments: ODict<string, ODict<string, string>>
    var plans: ProjectIds
    var targetWorkspaceHash: Option<string>
    var groups: map<Json, Json>
    var runsToComplete: map<string, ODict<Json, RunCompletion>>
    var authorUuidToId: map<Json, int>

    function Value(): Store
      reads this
    {
      Store(projects, suites, cases, runs, milestones, configurations, configurationGroups,
            environments, sharedSteps, sharedParameters, customFields, users, attachments, plans,
            targetWorkspaceHash, groups, runsToComplete, authorUuidToId)
    }

    constructor ()
      ensures Value() == EmptyStore()
    {
      projects, suites, cases, runs, milestones := map[], map[], map[], map[], map[];
      configurations, configurationGroups, environments := map[], map[], map[];
      sharedSteps, sharedParameters, customFields, users := map[], map[], map[], map[];
      attachments, plans, targetWorkspaceHash := Empty(), map[], None;
      groups, runsToComplete, authorUuidToId := map[], map[], map[];
    }

    /** Replaces the whole content (used to apply the effect of a migration step). */
    method SetValue(s: Store)
      modifies this
      ensures Value() == s
    {
      SetTables(s);
      SetHashTables(s);
      SetAttributes(s);
    }

    method SetTables(s: Store)
      modifies this`projects, this`suites, this`cases, this`runs, this`milestones, this`configurations
      ensures projects == s.projects && suites == s.suites && cases == s.cases
      ensures runs == s.runs && milestones == s.milestones && configurations == s.configurations
    {
      projects := s.projects; suites := s.suites; cases := s.cases;
      runs := s.runs; milestones := s.milestones; configurations := s.configurations;
    }

    method SetHashTables(s: Store)
      modifies this`configurationGroups, this`environments, this`sharedSteps, this`sharedParameters,
        this`customFields, this`users
      ensures configurationGroups == s.configurationGroups && environments == s.environments
      ensures sharedSteps == s.sharedSteps && sharedParameters == s.sharedParameters
      ensures customFields == s.customFields && users == s.users
    {
      configurationGroups := s.configurationGroups; environments := s.environments;
      sharedSteps := s.sharedSteps; sharedParameters := s.sharedParameters;
      customFields := s.customFields; users := s.users;
    }

    method SetAttributes(s: Store)
      modifies this`attachments, this`plans, this`targetWorkspaceHash, this`groups, this`runsToComplete,
        this`authorUuidToId
      ensures attachments == s.attachments && plans == s.plans && targetWorkspaceHash == s.targetWorkspaceHash
      ensures groups == s.groups && runsToComplete == s.runsToComplete && authorUuidToId == s.authorUuidToId
    {
      attachments := s.attachments; plans := s.plans; targetWorkspaceHash := s.targetWorkspaceHash;
      groups := s.groups; runsToComplete := s.runsToComplete; authorUuidToId := s.authorUuidToId;
    }

    method SaveToFile() returns (file: MappingsFile)
      ensures file == Saved(Value())
    {
      file := MappingsFile(Some(projects), Some(suites), Some(cases), Some(runs), Some(milestones),
                           Some(configurations), Some(configurationGroups), Some(environments),
                           Some(sharedSteps), Some(sharedParameters), Some(customFields), Some(users),
                           Some(attachments), Some(plans), None);
    }

    /** `file` is `None` when the file does not exist. */
    method LoadFromFile(file: Option<MappingsFile>)
      modifies this
      ensures Value() == Loaded(old(Value()), file)
    {
      if file.Some? {
        SetValue(Loaded(Value(), file));
      }
    }
  }

  // ------------------------------------------------------------ statistics

  /** A count after `add_entity`: the new amount is added to the old one, a new kind starts from it. */
  function Accumulate(counts: map<string, int>, kind: string, n: int): (r: map<string, int>)
    ensures kind in r && r[kind] == (if kind in counts then counts[kind] else 0) + n
    ensures forall k :: k in counts && k != kind ==> k in r && r[k] == counts[k]
    ensures r.Keys == counts.Keys + {kind}
  {
    counts[kind := (if kind in counts then counts[kind] else 0) + n]
  }

  /** Counts accumulate: two records of a kind add up to one record of the sums. */
  lemma AccumulateTwice(counts: map<string, int>, kind: string, a: int, b: int)
    ensures Accumulate(Accumulate(counts, kind, a), kind, b) == Accumulate(counts, kind, a + b)
  {
  }

  class MigrationStats {
    var processed: map<string, int>
    var created: map<string, int>

    /** Both tables always hold the same kinds. */
    predicate Valid()
      reads this
    {
      processed.Keys == created.Keys
    }

    constructor ()
      ensures Valid() && processed == map[] && created == map[]
    {
      processed, created := map[], map[];
    }

    method AddEntity(kind: string, sourceCount: int, targetCount: int)
      requires Valid()
      modifies this
      ensures Valid()
      ensures processed == Accumulate(old(processed), kind, sourceCount)
      ensures created == Accumulate(old(created), kind, targetCount)
    {
      if kind in processed {
        processed := processed[kind := processed[kind] + sourceCount];
        created := created[kind := created[kind] + targetCount];
      } else {
        processed := processed[kind := sourceCount];
        created := created[kind := targetCount];
      }
    }
  }

  // ------------------------------------------------------------------ retry

  /** What one attempt of the wrapped function does. */
  datatype Attempt<+T> = Returns(result: T) | Throws(exc: Exc)

  /** Too-many-requests and server errors are retried; other API errors are not. */
  predicate Retryable(e: Exc)
  {
    e.ApiException? && (e.status == 429 || e.status >= 500)
  }

  /**
   * A 404 whose body, or the wrapped function's name, mentions an attachment
   * is taken as "attachment not found" and turned into a `None` result. A body
   * that parses as JSON is searched as the `str()` of the parsed value.
   */
  predicate AttachmentNotFound(e: Exc, funcName: string)
  {
    e.ApiException? && e.status == 404
      && ((e.body != "" && Contains(Lower(ErrorText(e)), "attachment")) || Contains(Lower(funcName), "attachment"))
  }

  /** The text searched in a 404 body: `str(json.loads(body))`, or the body itself when it is not JSON. */
  function ErrorText(e: Exc): string
    requires e.ApiException?
  {
    match e.loaded
    case Some(j) => StrOf(j)
    case None => e.body
  }

  datatype RetryRun<+T> = RetryRun(result: Reply<Option<T>>, calls: nat)

  /** The outcome of the attempts from `attempt` on (`attempt < maxRetries`). */
  function RetryFrom<T>(call: nat -> Attempt<T>, maxRetries: int, funcName: string, attempt: nat): (run: RetryRun<T>)
    requires attempt < maxRetries
    ensures attempt < run.calls <= maxRetries
    ensures run.result.Raised? ==> call(run.calls - 1) == Throws(run.result.exc)
    decreases maxRetries - attempt
  {
    match call(attempt)
    case Returns(v) => RetryRun(Ok(Some(v)), attempt + 1)
    case Throws(e) =>
      if e.ApiException? then
        if Retryable(e) && attempt < maxRetries - 1 then RetryFrom(call, maxRetries, funcName, attempt + 1)
        else if AttachmentNotFound(e, funcName) then RetryRun(Ok(None), attempt + 1)
        else RetryRun(Raised(e), attempt + 1)
      else if attempt < maxRetries - 1 then RetryFrom(call, maxRetries, funcName, attempt + 1)
      else RetryRun(Raised(e), attempt + 1)
  }

  /** `retry_with_backoff`: the result and the number of calls made. */
  function Retry<T>(call: nat -> Attempt<T>, maxRetries: int, funcName: string): RetryRun<T>
  {
    if maxRetries <= 0 then RetryRun(Ok(None), 0) else RetryFrom(call, maxRetries, funcName, 0)
  }

  /**
   * Calls `call(0)`, `call(1)`, ... until one returns, raises something that
   * is not retried, or the retries run out. Before attempt `i + 1` it sleeps
   * `base_delay * 2^i`; `backoffs` lists those exponents in order.
   */
  method RetryWithBackoff<T>(call: nat -> Attempt<T>, maxRetries: int, funcName: string)
    returns (r: Reply<Option<T>>, calls: nat, backoffs: seq<nat>)
    ensures RetryRun(r, calls) == Retry(call, maxRetries, funcName)
    ensures |backoffs| == (if calls == 0 then 0 else calls - 1)
    ensures forall i :: 0 <= i < |backoffs| ==> backoffs[i] == i
  {
    var attempt: nat := 0;
    backoffs := [];
    while attempt < maxRetries
      invariant attempt == 0 || attempt < maxRetries
      invariant attempt < maxRetries ==> Retry(call, maxRetries, funcName) == RetryFrom(call, maxRetries, funcName, attempt)
      invariant |backoffs| == attempt
      invariant forall i :: 0 <= i < |backoffs| ==> backoffs[i] == i
      decreases maxRetries - attempt
    {
      match call(attempt)
      case Returns(v) =>
        return Ok(Some(v)), attempt + 1, backoffs;
      case Throws(e) =>
        if e.ApiException? {
          if Retryable(e) && attempt < maxRetries - 1 {
            backoffs := backoffs + [attempt];
            attempt := attempt + 1;
            continue;
          }
          if AttachmentNotFound(e, funcName) {
            return Ok(None), attempt + 1, backoffs;
          }
          return Raised(e), attempt + 1, backoffs;
        } else {
          if attempt < maxRetries - 1 {
            backoffs := backoffs + [attempt];
            attempt := attempt + 1;
            continue;
          }
          return Raised(e), attempt + 1, backoffs;
        }
    }
    // Every retried attempt is followed by another one, so the loop only ends
    // here when it never started: no exception was kept and None is returned.
    r, calls := Ok(None), 0;
  }

  /** An attempt that fails with a retried error. */
  predicate RetriedFailure<T>(a: Attempt<T>)
  {
    a.Throws? && (Retryable(a.exc) || !a.exc.ApiException?)
  }

  /** When every attempt fails with a retried error, all `maxRetries` calls are made and the last error is raised. */
  lemma {:induction false} RetryExhausts<T>(call: nat -> Attempt<T>, maxRetries: int, funcName: string, attempt: nat)
    requires attempt < maxRetries
    requires forall i: nat :: i < maxRetries ==> RetriedFailure(call(i))
    ensures call(maxRetries - 1).Throws?
    ensures RetryFrom(call, maxRetries, funcName, attempt) == RetryRun(Raised(call(maxRetries - 1).exc), maxRetries)
    decreases maxRetries - attempt
  {
    assert RetriedFailure(call(attempt));
    if attempt < maxRetries - 1 {
      RetryExhausts(call, maxRetries, funcName, attempt + 1);
    } else {
      var e := call(attempt).exc;
      if e.ApiException? {
        assert Retryable(e);
        assert !AttachmentNotFound(e, funcName);
      }
    }
  }

  /** The first successful attempt after retried failures ends the retries with its result. */
  lemma {:induction false} RetryReturnsFirstSuccess<T>(call: nat -> Attempt<T>, maxRetries: int, funcName: string, attempt: nat, k: nat)
    requires attempt <= k < maxRetries
    requires forall i: nat :: attempt <= i < k ==> RetriedFailure(call(i))
    requires call(k).Returns?
    ensures RetryFrom(call, maxRetries, funcName, attempt) == RetryRun(Ok(Some(call(k).result)), k + 1)
    decreases k - attempt
  {
    if attempt < k {
      assert RetriedFailure(call(attempt));
      RetryReturnsFirstSuccess(call, maxRetries, funcName, attempt + 1, k);
    }
  }

  /** An API error that is neither retried nor an attachment 404 is raised after one call. */
  lemma RetryRaisesClientError<T>(call: nat -> Attempt<T>, maxRetries: int, funcName: string)
    requires maxRetries > 0
    requires call(0).Throws? && call(0).exc.ApiException? && !Retryable(call(0).exc)
    requires !AttachmentNotFound(call(0).exc, funcName)
    ensures Retry(call, maxRetries, funcName) == RetryRun(Raised(call(0).exc), 1)
  {
  }

  /** An attachment-not-found 404 is swallowed: the call yields None instead of raising. */
  lemma RetrySwallowsMissingAttachment<T>(call: nat -> Attempt<T>, maxRetries: int, funcName: string)
    requires maxRetries > 0
    requires call(0).Throws? && AttachmentNotFound(call(0).exc, funcName)
    ensures Retry(call, maxRetries, funcName) == RetryRun(Ok(None), 1)
  {
  }

  /**
   * A JSON body whose escape spells the word is searched after decoding:
   * `"\u0061ttachment"` does not contain "attachment" as written, but its
   * parsed value does, so the 404 gives `None` after one call.
   */
  lemma DecodedBodyMentionsAttachment(call: nat -> Attempt<int>)
    requires call(0) == Throws(ApiException(404, "\"\\u0061ttachment\"", Some(JStr("attachment"))))
    ensures Retry(call, 3, "get_case") == RetryRun(Ok(None), 1)
  {
    var e := call(0).exc;
    assert Lower(ErrorText(e)) == "attachment";
    ContainsAt(Lower(ErrorText(e)), "attachment", 0);
    RetrySwallowsMissingAttachment(call, 3, "get_case");
  }

  // ----------------------------------------------------------------- chunks

  function Concat<T>(ss: seq<seq<T>>): seq<T>
  {
    if ss == [] then [] else ss[0] + Concat(ss[1..])
  }

  /** Consecutive slices of `n` elements, the last one possibly shorter. */
  function ChunksOf<T>(lst: seq<T>, n: nat): seq<seq<T>>
    requires n > 0
    decreases |lst|
  {
    if lst == [] then []
    else if |lst| <= n then [lst]
    else [lst[..n]] + ChunksOf(lst[n..], n)
  }

  /** The chunks put back together are the list; each is non-empty and at most `n` long, and only the last may be short. */
  lemma {:induction false} ChunksOfPartition<T>(lst: seq<T>, n: nat)
    requires n > 0
    ensures Concat(ChunksOf(lst, n)) == lst
    ensures forall i :: 0 <= i < |ChunksOf(lst, n)| ==> 0 < |ChunksOf(lst, n)[i]| <= n
    ensures forall i :: 0 <= i < |ChunksOf(lst, n)| - 1 ==> |ChunksOf(lst, n)[i]| == n
    decreases |lst|
  {
    if |lst| > n {
      ChunksOfPartition(lst[n..], n);
      var rest := ChunksOf(lst[n..], n);
      assert ChunksOf(lst, n) == [lst[..n]] + rest;
      assert ([lst[..n]] + rest)[1..] == rest;
      assert lst[..n] + lst[n..] == lst;
    }
  }

  /**
   * `chunks(lst, n)`. A step of 0 makes `range` raise ValueError; a negative
   * step gives no chunk at all.
   */
  method Chunks<T>(lst: seq<T>, n: int) returns (r: Reply<seq<seq<T>>>)
    ensures r.Raised? <==> n == 0
    ensures r.Raised? ==> r.exc == ValueError
    ensures n < 0 ==> r == Ok([])
    ensures n > 0 ==> r == Ok(ChunksOf(lst, n))
  {
    if n == 0 {
      return Raised(ValueError);
    }
    if n < 0 {
      return Ok([]);
    }
    var out: seq<seq<T>> := [];
    var i := 0;
    while i < |lst|
      invariant 0 <= i <= |lst|
      invariant out + ChunksOf(lst[i..], n) == ChunksOf(lst, n)
      decreases |lst| - i
    {
      var end := if i + n < |lst| then i + n else |lst|;
      assert ChunksOf(lst[i..], n) == [lst[i..end]] + ChunksOf(lst[end..], n) by {
        var t := lst[i..];
        if end == |lst| {
          assert t == lst[i..end];
          assert lst[end..] == [];
          assert ChunksOf(t, n) == [t];
        } else {
          assert t[..n] == lst[i..end];
          assert t[n..] == lst[end..];
        }
      }
      out := out + [lst[i..end]];
      i := end;
    }
    assert lst[i..] == [];
    assert ChunksOf(lst[i..], n) == [];
    assert out + [] == out;
    return Ok(out);
  }

  // ------------------------------------------------------------------ UUIDs

  predicate NoUuid(j: Json)
  {
    match j
    case JUuid(_) => false
    case JList(items) => forall i :: 0 <= i < |items| ==> NoUuid(items[i])
    case JObject(es) => forall i :: 0 <= i < |es| ==> NoUuid(es[i].1)
    case _ => true
  }

  /** `r` is `j` with every UUID replaced by its text, keys and order kept. */
  predicate UuidsAsText(j: Json, r: Json)
  {
    match j
    case JUuid(t) => r == JStr(t)
    case JList(items) =>
      r.JList? && |r.items| == |items| && forall i :: 0 <= i < |items| ==> UuidsAsText(items[i], r.items[i])
    case JObject(es) =>
      r.JObject? && |r.entries| == |es|
        && forall i :: 0 <= i < |es| ==> r.entries[i].0 == es[i].0 && UuidsAsText(es[i].1, r.entries[i].1)
    case _ => r == j
  }

  /** `convert_uuids_to_strings`. */
  function ConvertUuids(j: Json): (r: Json)
    ensures NoUuid(r)
    ensures UuidsAsText(j, r)
  {
    match j
    case JUuid(t) => JStr(t)
    case JList(items) => JList(seq(|items|, i requires 0 <= i < |items| => ConvertUuids(items[i])))
    case JObject(es) => JObject(seq(|es|, i requires 0 <= i < |es| => (es[i].0, ConvertUuids(es[i].1))))
    case _ => j
  }

  /** A value with no UUID left is returned unchanged, so the conversion is idempotent. */
  lemma {:induction false} ConvertUuidsKeepsUuidFree(j: Json)
    requires NoUuid(j)
    ensures ConvertUuids(j) == j
  {
    match j
    case JList(items) =>
      forall i | 0 <= i < |items| ensures ConvertUuids(items[i]) == items[i] {
        ConvertUuidsKeepsUuidFree(items[i]);
      }
    case JObject(es) =>
      forall i | 0 <= i < |es| ensures ConvertUuids(es[i].1) == es[i].1 {
        ConvertUuidsKeepsUuidFree(es[i].1);
      }
      assert ConvertUuids(j).entries == es;
    case _ =>
  }

  // --------------------------------------------------------------- ids

  const MaxSafeId: int := 0x7FFF_FFFF

  /**
   * `preserve_or_hash_id`. The clock and the digest are inputs: `clockMillis`
   * is `int(time.time() * 1000)` and `digestPrefix` the integer value of the
   * first eight hex digits of the MD5 of the id's decimal text. Python's `%`
   * by a positive number is never negative, like Dafny's.
   */
  function PreserveOrHashId(id: int, preserve: bool, clockMillis: int, digestPrefix: nat): (r: int)
    ensures r <= MaxSafeId
    ensures id <= MaxSafeId && preserve ==> r == id
    ensures id > MaxSafeId ==> 0 <= r < MaxSafeId && r == digestPrefix % MaxSafeId
    ensures id <= MaxSafeId && !preserve ==> 0 <= r < MaxSafeId
  {
    if id <= MaxSafeId then
      if preserve then id else clockMillis % MaxSafeId
    else digestPrefix % MaxSafeId
  }
}
