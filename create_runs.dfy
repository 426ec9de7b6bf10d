// migration/create/runs.py: every source run is created in the target with
// its cases, configurations, author, milestone and plan remapped; created runs
// that are completed in the source are queued for completion after their
// results are migrated.

module CreateRuns {
  import opened Py
  import opened Utils
  import Dicts
  import opened Paging
  import opened Seqs
  import ExtractRuns
  import Steps

  /**
   * A `RunCreate`. The optional parts are left out of the payload unless
   * `Some`; `formatTime` stands for `format_datetime`.
   */
  datatype RunCreate = RunCreate(
    title: Json, description: Json, authorId: Json,
    startTime: Option<Json>, endTime: Option<Json>,
    cases: Option<seq<Json>>, configurations: Option<seq<Json>>,
    milestoneId: Option<Json>, planId: Option<Json>)

  /** A run the target accepted: source id, target id, and its completion entry when it is queued. */
  datatype Created = Created(source: Json, target: Json, completion: Option<RunCompletion>)

  /** `migrate_runs._runs_to_complete`: an attribute of the function object, kept between calls until deleted. */
  class FunctionAttributes {
    var runsToComplete: Option<Dicts.ODict<Json, RunCompletion>>

    constructor ()
      ensures runsToComplete == None
    {
      runsToComplete := None;
    }
  }

  /** The source configuration id of one entry of a run's `configurations`: an int itself, or a dict's `id or configuration_id`. */
  function ItemConfigId(item: Json): Json
  {
    match item
    case JInt(_) => item
    case JBool(_) => item
    case JObject(_) => JOr(Field(item, "id"), Field(item, "configuration_id"))
    case _ => JNull
  }

  /**
   * The fallback case list, used when `extract_run_cases` found none: the run's
   * own `cases` mapped through the case mapping, once each in first-seen
   * order. A truthy value that is not iterable raises TypeError, and `int()`
   * may raise.
   */
  function FallbackCases(run: Json, caseMapping: map<Json, Json>): Reply<seq<Json>>
  {
    var sourceCases := GetOr(run, "cases", JList([]));
    if !JTruthy(sourceCases) then Ok([])
    else match Iter(sourceCases)
      case None => Raised(NotIterable)
      case Some(items) => ExtractRuns.Deduped(ExtractRuns.MappedTargets(items, ExtractRuns.ItemCaseId, caseMapping))
  }

  /** The target case ids of a run: what `extract_run_cases` returned, or the fallback when that is empty. */
  function TargetCases(found: seq<Json>, run: Json, caseMapping: map<Json, Json>): Reply<seq<Json>>
  {
    if found != [] then Ok(found) else FallbackCases(run, caseMapping)
  }

  /** The run's `configurations` mapped through the configuration mapping, in order, repeats kept. */
  function TargetConfigs(run: Json, configMapping: map<Json, Json>): Reply<seq<Json>>
  {
    var sourceConfigs := GetOr(run, "configurations", JList([]));
    if !JTruthy(sourceConfigs) then Ok([])
    else match Iter(sourceConfigs)
      case None => Raised(NotIterable)
      case Some(items) => ExtractRuns.MappedTargets(items, ItemConfigId, configMapping)
  }

  /** The source author: `user_id or created_by or author_id or member_id`. */
  function SourceUser(run: Json): Json
  {
    JOr(JOr(JOr(Field(run, "user_id"), Field(run, "created_by")), Field(run, "author_id")), Field(run, "member_id"))
  }

  /** The run's target author (see `Utils.TargetUser`). */
  function Author(getUserId: int -> Reply<Json>, run: Json): Reply<Json>
  {
    TargetUser(getUserId, SourceUser(run))
  }

  /** `mapping.get(run[key])` when `run[key]` is truthy and it maps to a truthy id. */
  function MappedRef(run: Json, key: string, mapping: map<Json, Json>): (r: Option<Json>)
    ensures r.Some? ==> JTruthy(Field(run, key)) && Field(run, key) in mapping && r.value == mapping[Field(run, key)] && JTruthy(r.value)
    ensures r.None? ==> !JTruthy(Field(run, key)) || !JTruthy(Lookup(mapping, Field(run, key)))
  {
    var id := Field(run, key);
    if JTruthy(id) && JTruthy(Lookup(mapping, id)) then Some(mapping[id]) else None
  }

  /** `Some(v)` when `v` is truthy. */
  function IfTruthy(v: Json): (r: Option<Json>)
    ensures r.Some? <==> JTruthy(v)
    ensures r.Some? ==> r.value == v
  {
    if JTruthy(v) then Some(v) else None
  }

  function IfNonEmpty(xs: seq<Json>): (r: Option<seq<Json>>)
    ensures r.Some? <==> xs != []
    ensures r.Some? ==> r.value == xs
  {
    if xs != [] then Some(xs) else None
  }

  /** The input a source run is created from. */
  datatype Tables = Tables(
    caseMapping: map<Json, Json>, configMapping: map<Json, Json>,
    milestoneMapping: map<Json, Json>, planMapping: map<Json, Json>,
    getUserId: int -> Reply<Json>, formatTime: Json -> Json)

  /** The payload of a run with the case list `found` from `extract_run_cases`. */
  function Payload(t: Tables, found: seq<Json>, run: Json): Reply<RunCreate>
  {
    match TargetCases(found, run, t.caseMapping)
    case Raised(e) => Raised(e)
    case Ok(cases) =>
      match TargetConfigs(run, t.configMapping)
      case Raised(e) => Raised(e)
      case Ok(configs) =>
        match Author(t.getUserId, run)
        case Raised(e) => Raised(e)
        case Ok(author) =>
          Ok(RunCreate(
            GetOr(run, "title", JStr("")), GetOr(run, "description", JStr("")), author,
            IfTruthy(t.formatTime(Field(run, "start_time"))), IfTruthy(t.formatTime(Field(run, "end_time"))),
            IfNonEmpty(cases), IfNonEmpty(configs),
            MappedRef(run, "milestone_id", t.milestoneMapping), MappedRef(run, "plan_id", t.planMapping)))
  }

  /** The completion entry of a run created as `target`: queued iff `is_completed` or `end_time` is truthy. */
  function Completion(codeTarget: string, run: Json): (r: Option<RunCompletion>)
    ensures r.Some? <==> JTruthy(GetOr(run, "is_completed", JBool(false))) || JTruthy(Field(run, "end_time"))
    ensures r.Some? ==> r.value.projectCode == codeTarget && r.value.isCompleted
  {
    var isCompleted := GetOr(run, "is_completed", JBool(false));
    var hasEndTime := JTruthy(Field(run, "end_time"));
    if JTruthy(isCompleted) || hasEndTime then Some(RunCompletion(codeTarget, true, isCompleted, hasEndTime)) else None
  }

  /**
   * One run: every run is sent (no mapping is consulted first); a truthy
   * target id maps it. `create` answers the new id (null when none).
   */
  function Outcome(t: Tables, runCases: Json -> seq<Json>, create: RunCreate -> Reply<Json>, codeTarget: string, run: Json)
    : Reply<Option<Created>>
  {
    var id := Field(run, "id");
    match Payload(t, runCases(id), run)
    case Raised(e) => Raised(e)
    case Ok(p) =>
      match create(p)
      case Raised(e) => Raised(e)
      case Ok(target) => if JTruthy(target) then Ok(Some(Created(id, target, Completion(codeTarget, run)))) else Ok(None)
  }

  function Outcomes(t: Tables, runCases: Json -> seq<Json>, create: RunCreate -> Reply<Json>, codeTarget: string, runs: seq<Json>)
    : seq<Reply<Option<Created>>>
  {
    seq(|runs|, i requires 0 <= i < |runs| => Outcome(t, runCases, create, codeTarget, runs[i]))
  }

  /** What the loop leaves behind: the run mapping, the function attribute, and the exception that ended it. */
  datatype Progress = Progress(mapping: map<Json, Json>, queue: Option<Dicts.ODict<Json, RunCompletion>>, failure: Option<Exc>)

  /** Queues a completion entry, creating the attribute when it does not exist yet. */
  function Enqueue(queue: Option<Dicts.ODict<Json, RunCompletion>>, target: Json, c: RunCompletion): Dicts.ODict<Json, RunCompletion>
  {
    Dicts.Put(if queue.Some? then queue.value else Dicts.Empty(), target, c)
  }

  /** The loop over the outcomes, from the attribute `attr`; the queue keeps what was added before an exception. */
  function Loop(outs: seq<Reply<Option<Created>>>, attr: Option<Dicts.ODict<Json, RunCompletion>>): Progress
  {
    if outs == [] then Progress(map[], attr, None)
    else
      var n := |outs| - 1;
      var p := Loop(outs[..n], attr);
      if p.failure.Some? then p
      else match outs[n]
        case Raised(e) => Progress(p.mapping, p.queue, Some(e))
        case Ok(None) => p
        case Ok(Some(c)) =>
          Progress(p.mapping[c.source := c.target],
                   if c.completion.Some? then Some(Enqueue(p.queue, c.target, c.completion.value)) else p.queue,
                   None)
  }

  /** The outcome as an entry of the run mapping. */
  function Entry(o: Reply<Option<Created>>): Reply<Option<(Json, Json)>>
  {
    match o case Raised(e) => Raised(e) case Ok(None) => Ok(None) case Ok(Some(c)) => Ok(Some((c.source, c.target)))
  }

  function Entries(outs: seq<Reply<Option<Created>>>): seq<Reply<Option<(Json, Json)>>>
  {
    seq(|outs|, i requires 0 <= i < |outs| => Entry(outs[i]))
  }

  /** The run mapping is the generic loop over the runs' entries; the loop fails iff that loop does, with the same exception. */
  lemma {:induction false} LoopMapping(outs: seq<Reply<Option<Created>>>, attr: Option<Dicts.ODict<Json, RunCompletion>>)
    ensures Loop(outs, attr).failure.None? <==> Steps.Assign(Entries(outs)).Ok?
    ensures Loop(outs, attr).failure.None? ==> Loop(outs, attr).mapping == Steps.Assign(Entries(outs)).value
    ensures Loop(outs, attr).failure.Some? ==> Steps.Assign(Entries(outs)) == Raised(Loop(outs, attr).failure.value)
  {
    if outs != [] {
      var n := |outs| - 1;
      LoopMapping(outs[..n], attr);
      assert Entries(outs)[..n] == Entries(outs[..n]);
    }
  }

  /**
   * A target run is queued iff it was queued before the call, or a run
   * created as it (before any exception) is completed or has an end time;
   * queued entries are never removed.
   */
  lemma {:induction false} LoopQueue(outs: seq<Reply<Option<Created>>>, attr: Option<Dicts.ODict<Json, RunCompletion>>, target: Json)
    ensures attr.Some? ==> Loop(outs, attr).queue.Some? && attr.value.entries.Keys <= Loop(outs, attr).queue.value.entries.Keys
    ensures var q := Loop(outs, attr).queue;
      (q.Some? && target in q.value.entries) <==>
        (attr.Some? && target in attr.value.entries) ||
        exists i :: 0 <= i < |outs| && Queues(outs[i], target) && forall j :: 0 <= j < i ==> outs[j].Ok?
  {
    if outs != [] {
      var n := |outs| - 1;
      LoopQueue(outs[..n], attr, target);
      assert forall i :: 0 <= i < n ==> outs[..n][i] == outs[i];
      var p := Loop(outs[..n], attr);
      if p.failure.Some? {
        LoopFailed(outs[..n], attr);
        var i :| 0 <= i < n && outs[i].Raised?;
        assert !(forall j :: 0 <= j < n ==> outs[j].Ok?);
      } else {
        LoopOk(outs[..n], attr);
      }
    }
  }

  /** The outcome creates a run as `target` and queues it. */
  predicate Queues(o: Reply<Option<Created>>, target: Json)
  {
    o.Ok? && o.value.Some? && o.value.value.target == target && o.value.value.completion.Some?
  }

  lemma {:induction false} LoopFailed(outs: seq<Reply<Option<Created>>>, attr: Option<Dicts.ODict<Json, RunCompletion>>)
    requires Loop(outs, attr).failure.Some?
    ensures exists i :: 0 <= i < |outs| && outs[i].Raised?
  {
    var n := |outs| - 1;
    if Loop(outs[..n], attr).failure.Some? {
      LoopFailed(outs[..n], attr);
      assert forall i :: 0 <= i < n ==> outs[..n][i] == outs[i];
    }
  }

  lemma {:induction false} LoopOk(outs: seq<Reply<Option<Created>>>, attr: Option<Dicts.ODict<Json, RunCompletion>>)
    requires Loop(outs, attr).failure.None?
    ensures forall i :: 0 <= i < |outs| ==> outs[i].Ok?
  {
    if outs != [] {
      var n := |outs| - 1;
      LoopOk(outs[..n], attr);
      assert forall i :: 0 <= i < n ==> outs[..n][i] == outs[i];
    }
  }

  /**
   * The fallback case list holds each target once, in the order of first
   * occurrence, and exactly the truthy targets of the run's mapped cases.
   */
  lemma FallbackCasesMapped(run: Json, caseMapping: map<Json, Json>, items: seq<Json>, t: Json)
    requires JTruthy(GetOr(run, "cases", JList([]))) && Iter(GetOr(run, "cases", JList([]))) == Some(items)
    requires FallbackCases(run, caseMapping).Ok?
    ensures NoDup(FallbackCases(run, caseMapping).value)
    ensures t in FallbackCases(run, caseMapping).value <==>
      exists i :: 0 <= i < |items| && ExtractRuns.Target(ExtractRuns.ItemCaseId(items[i]), caseMapping) == Ok(Some(t))
    ensures t in FallbackCases(run, caseMapping).value ==> JTruthy(t) && t in caseMapping.Values
    ensures var all := ExtractRuns.MappedTargets(items, ExtractRuns.ItemCaseId, caseMapping).value;
      var r := FallbackCases(run, caseMapping).value;
      forall i, j :: 0 <= i < j < |r| ==> FirstIndex(all, r[i]) < FirstIndex(all, r[j])
  {
    var all := ExtractRuns.MappedTargets(items, ExtractRuns.ItemCaseId, caseMapping);
    ExtractRuns.MappedTargetsMembers(items, ExtractRuns.ItemCaseId, caseMapping, t);
    forall i, j | 0 <= i < j < |Dedup(all.value)| ensures FirstIndex(all.value, Dedup(all.value)[i]) < FirstIndex(all.value, Dedup(all.value)[j]) {
      DedupFirstSeen(all.value, i, j);
    }
  }

  /** The configuration list holds exactly the truthy targets of the run's mapped configurations. */
  lemma TargetConfigsMapped(run: Json, configMapping: map<Json, Json>, items: seq<Json>, t: Json)
    requires JTruthy(GetOr(run, "configurations", JList([]))) && Iter(GetOr(run, "configurations", JList([]))) == Some(items)
    requires TargetConfigs(run, configMapping).Ok?
    ensures t in TargetConfigs(run, configMapping).value <==>
      exists i :: 0 <= i < |items| && ExtractRuns.Target(ItemConfigId(items[i]), configMapping) == Ok(Some(t))
    ensures t in TargetConfigs(run, configMapping).value ==> JTruthy(t) && t in configMapping.Values
  {
    ExtractRuns.MappedTargetsMembers(items, ItemConfigId, configMapping, t);
  }

  /**
   * The optional parts of the payload: start and end times only when
   * formatted to something truthy, cases and configurations only when
   * non-empty, milestone and plan only when mapped to a truthy id.
   */
  lemma PayloadOptional(t: Tables, found: seq<Json>, run: Json)
    requires Payload(t, found, run).Ok?
    ensures var p := Payload(t, found, run).value;
      && (p.startTime.Some? <==> JTruthy(t.formatTime(Field(run, "start_time"))))
      && (p.endTime.Some? <==> JTruthy(t.formatTime(Field(run, "end_time"))))
      && (p.cases.Some? <==> TargetCases(found, run, t.caseMapping).value != [])
      && (p.cases.Some? ==> p.cases.value == TargetCases(found, run, t.caseMapping).value)
      && (p.configurations.Some? <==> TargetConfigs(run, t.configMapping).value != [])
      && (p.milestoneId.Some? ==> Field(run, "milestone_id") in t.milestoneMapping && p.milestoneId.value == t.milestoneMapping[Field(run, "milestone_id")])
      && (p.planId.Some? ==> Field(run, "plan_id") in t.planMapping && p.planId.value == t.planMapping[Field(run, "plan_id")])
      && p.title == GetOr(run, "title", JStr("")) && p.description == GetOr(run, "description", JStr(""))
  {
  }

  /**
   * Every run whose payload builds is sent, and it is mapped, with its own
   * completion entry, iff the target answers a truthy id.
   */
  lemma OutcomeCreates(t: Tables, runCases: Json -> seq<Json>, create: RunCreate -> Reply<Json>, codeTarget: string, run: Json)
    requires Outcome(t, runCases, create, codeTarget, run).Ok?
    ensures var p := Payload(t, runCases(Field(run, "id")), run);
      && p.Ok? && create(p.value).Ok?
      && (Outcome(t, runCases, create, codeTarget, run).value.Some? <==> JTruthy(create(p.value).value))
      && (Outcome(t, runCases, create, codeTarget, run).value.Some? ==>
            Outcome(t, runCases, create, codeTarget, run).value.value
              == Created(Field(run, "id"), create(p.value).value, Completion(codeTarget, run)))
  {
  }

  /** The loop over a run's configurations. */
  method MapConfigs(items: seq<Json>, configMapping: map<Json, Json>) returns (r: Reply<seq<Json>>)
    ensures r == ExtractRuns.MappedTargets(items, ItemConfigId, configMapping)
  {
    var targetConfigs: seq<Json> := [];
    for j := 0 to |items|
      invariant ExtractRuns.MappedTargets(items[..j], ItemConfigId, configMapping) == Ok(targetConfigs)
    {
      assert items[..j + 1][..j] == items[..j];
      var target := ExtractRuns.TargetOf(ItemConfigId(items[j]), configMapping);
      if target.Raised? {
        ExtractRuns.MappedTargetsRaised(items[..j + 1], items[j + 1..], ItemConfigId, configMapping);
        assert items[..j + 1] + items[j + 1..] == items;
        return Raised(target.exc);
      }
      if target.value.Some? {
        targetConfigs := targetConfigs + [target.value.value];
      }
    }
    assert items[..|items|] == items;
    return Ok(targetConfigs);
  }

  method AuthorOf(getUserId: int -> Reply<Json>, run: Json) returns (r: Reply<Json>)
    ensures r == Author(getUserId, run)
  {
    var sourceUserId := SourceUser(run);
    if !JTruthy(sourceUserId) {
      return Ok(JInt(1));
    }
    var asInt := IntOf(ToValue(sourceUserId));
    if asInt.Raised? {
      return Ok(JInt(1));
    }
    if asInt.value == 0 {
      return Ok(JInt(1));
    }
    var target := getUserId(asInt.value);
    if target.Raised? && (target.exc.ValueError? || target.exc.TypeError?) {
      return Ok(JInt(1));
    }
    return target;
  }

  method BuildPayload(t: Tables, found: seq<Json>, run: Json) returns (p: Reply<RunCreate>)
    ensures p == Payload(t, found, run)
  {
    var targetCases := BuildTargetCases(found, run, t.caseMapping);
    if targetCases.Raised? {
      return Raised(targetCases.exc);
    }
    var targetConfigs := BuildTargetConfigs(run, t.configMapping);
    if targetConfigs.Raised? {
      return Raised(targetConfigs.exc);
    }
    var author := AuthorOf(t.getUserId, run);
    if author.Raised? {
      return Raised(author.exc);
    }
    return Ok(RunCreate(
      GetOr(run, "title", JStr("")), GetOr(run, "description", JStr("")), author.value,
      IfTruthy(t.formatTime(Field(run, "start_time"))), IfTruthy(t.formatTime(Field(run, "end_time"))),
      IfNonEmpty(targetCases.value), IfNonEmpty(targetConfigs.value),
      MappedRef(run, "milestone_id", t.milestoneMapping), MappedRef(run, "plan_id", t.planMapping)));
  }

  /** The cases of the payload: those found, or else the run's own `cases` mapped. */
  method BuildTargetCases(found: seq<Json>, run: Json, caseMapping: map<Json, Json>) returns (r: Reply<seq<Json>>)
    ensures r == TargetCases(found, run, caseMapping)
  {
    if found != [] {
      return Ok(found);
    }
    var sourceCases := GetOr(run, "cases", JList([]));
    if !JTruthy(sourceCases) {
      return Ok([]);
    }
    var items := Iter(sourceCases);
    if items.None? {
      return Raised(NotIterable);
    }
    assert [] + items.value == items.value;
    r := ExtractRuns.AddTargets([], [], items.value, ExtractRuns.ItemCaseId, caseMapping);
  }

  /** The configurations of the payload. */
  method BuildTargetConfigs(run: Json, configMapping: map<Json, Json>) returns (r: Reply<seq<Json>>)
    ensures r == TargetConfigs(run, configMapping)
  {
    var sourceConfigs := GetOr(run, "configurations", JList([]));
    if !JTruthy(sourceConfigs) {
      return Ok([]);
    }
    var items := Iter(sourceConfigs);
    if items.None? {
      return Raised(NotIterable);
    }
    r := MapConfigs(items.value, configMapping);
  }

  method MigrateRun(t: Tables, runCases: Json -> seq<Json>, create: RunCreate -> Reply<Json>, codeTarget: string, run: Json)
    returns (o: Reply<Option<Created>>)
    ensures o == Outcome(t, runCases, create, codeTarget, run)
  {
    var sourceRunId := Field(run, "id");
    var payload := BuildPayload(t, runCases(sourceRunId), run);
    if payload.Raised? {
      return Raised(payload.exc);
    }
    var response := create(payload.value);
    if response.Raised? {
      return Raised(response.exc);
    }
    if !JTruthy(response.value) {
      return Ok(None);
    }
    return Ok(Some(Created(sourceRunId, response.value, Completion(codeTarget, run))));
  }

  /**
   * `migrate_runs` from the project `codeSource` into `codeTarget`.
   * `fetch(offset)` is the retried `get_runs` page, `runCases(id)` what
   * `extract_run_cases` returns for a run. The user mapping argument is
   * only normalised, never read, so it is not a parameter. An exception
   * from the listing changes nothing; one from a run escapes with the
   * queued completions left on the function attribute; otherwise the run
   * mapping is merged, the queue moves to the store under `codeSource` and
   * the attribute is deleted, and the counts are recorded.
   */
  method MigrateRuns(codeSource: string, codeTarget: string, fetch: nat -> Reply<seq<Json>>, ghost bound: nat,
                     t: Tables, runCases: Json -> seq<Json>, create: RunCreate -> Reply<Json>,
                     attrs: FunctionAttributes, mappings: MigrationMappings, stats: MigrationStats)
    returns (r: Reply<map<Json, Json>>)
    requires Ends(fetch, ExtractRuns.Limit, bound)
    requires stats.Valid()
    modifies attrs, mappings`runs, mappings`runsToComplete, stats
    ensures stats.Valid()
    ensures var s := ScanFrom(fetch, ExtractRuns.Limit, 0, bound);
      if s.failure.Some? then
        r == Raised(s.failure.value) && unchanged(attrs) && unchanged(mappings`runs, mappings`runsToComplete) && unchanged(stats)
      else
        var runs := Items(s);
        var p := Loop(Outcomes(t, runCases, create, codeTarget, runs), old(attrs.runsToComplete));
        if p.failure.Some? then
          && r == Raised(p.failure.value) && attrs.runsToComplete == p.queue
          && unchanged(mappings`runs, mappings`runsToComplete) && unchanged(stats)
        else
          && r == Ok(p.mapping)
          && mappings.runs == MergeInto(old(mappings.runs), codeSource, p.mapping)
          && mappings.runsToComplete == (if p.queue.Some? then old(mappings.runsToComplete)[codeSource := p.queue.value] else old(mappings.runsToComplete))
          && attrs.runsToComplete.None?
          && stats.processed == Accumulate(old(stats.processed), "runs", |runs|)
          && stats.created == Accumulate(old(stats.created), "runs", |p.mapping|)
  {
    var sourceRuns := ExtractRuns.ExtractRuns(fetch, bound);
    if sourceRuns.Raised? {
      return Raised(sourceRuns.exc);
    }
    var runs := sourceRuns.value;
    var failure, runMapping := RunLoop(t, runCases, create, codeTarget, runs, attrs);
    if failure.Some? {
      return Raised(failure.value);
    }
    Finish(codeSource, runMapping, |runs|, attrs, mappings, stats);
    return Ok(runMapping);
  }

  /** The end of a finished run loop: merge the run table, move the queue to the store, record the counts. */
  method Finish(codeSource: string, runMapping: map<Json, Json>, runCount: nat,
                attrs: FunctionAttributes, mappings: MigrationMappings, stats: MigrationStats)
    requires stats.Valid()
    modifies attrs, mappings`runs, mappings`runsToComplete, stats
    ensures stats.Valid()
    ensures mappings.runs == MergeInto(old(mappings.runs), codeSource, runMapping)
    ensures mappings.runsToComplete ==
      (if old(attrs.runsToComplete).Some? then old(mappings.runsToComplete)[codeSource := old(attrs.runsToComplete).value]
       else old(mappings.runsToComplete))
    ensures attrs.runsToComplete.None?
    ensures stats.processed == Accumulate(old(stats.processed), "runs", runCount)
    ensures stats.created == Accumulate(old(stats.created), "runs", |runMapping|)
  {
    var merged := MergeInto(mappings.runs, codeSource, runMapping);
    var queue := attrs.runsToComplete;
    var moved := if queue.Some? then mappings.runsToComplete[codeSource := queue.value] else mappings.runsToComplete;
    mappings.runs, mappings.runsToComplete := merged, moved;
    attrs.runsToComplete := None;
    stats.AddEntity("runs", runCount, |runMapping|);
  }

  /** The loop over the source runs; it changes only the function attribute. */
  method RunLoop(t: Tables, runCases: Json -> seq<Json>, create: RunCreate -> Reply<Json>, codeTarget: string, runs: seq<Json>,
                 attrs: FunctionAttributes)
    returns (failure: Option<Exc>, runMapping: map<Json, Json>)
    modifies attrs
    ensures var p := Loop(Outcomes(t, runCases, create, codeTarget, runs), old(attrs.runsToComplete));
      failure == p.failure && attrs.runsToComplete == p.queue && (failure.None? ==> runMapping == p.mapping)
  {
    ghost var attr := attrs.runsToComplete;
    ghost var outs := Outcomes(t, runCases, create, codeTarget, runs);
    runMapping := map[];
    for i := 0 to |runs|
      invariant Loop(outs[..i], attr) == Progress(runMapping, attrs.runsToComplete, None)
    {
      var o := MigrateRun(t, runCases, create, codeTarget, runs[i]);
      LoopNext(outs, i, attr, o);
      if o.Raised? {
        LoopStops(outs, i + 1, attr);
        return Some(o.exc), runMapping;
      }
      if o.value.Some? {
        var c := o.value.value;
        runMapping := runMapping[c.source := c.target];
        if c.completion.Some? {
          attrs.runsToComplete := Some(Enqueue(attrs.runsToComplete, c.target, c.completion.value));
        }
      }
    }
    assert outs[..|runs|] == outs;
    return None, runMapping;
  }

  /** One more outcome after a prefix that finished. */
  lemma LoopNext(outs: seq<Reply<Option<Created>>>, i: nat, attr: Option<Dicts.ODict<Json, RunCompletion>>, o: Reply<Option<Created>>)
    requires i < |outs| && outs[i] == o && Loop(outs[..i], attr).failure.None?
    ensures var p := Loop(outs[..i], attr);
      Loop(outs[..i + 1], attr) ==
        match o
        case Raised(e) => Progress(p.mapping, p.queue, Some(e))
        case Ok(None) => p
        case Ok(Some(c)) =>
          Progress(p.mapping[c.source := c.target],
                   if c.completion.Some? then Some(Enqueue(p.queue, c.target, c.completion.value)) else p.queue,
                   None)
  {
    assert outs[..i + 1][..i] == outs[..i];
  }

  /** Once the loop has failed, later runs change nothing. */
  lemma {:induction false} LoopStops(outs: seq<Reply<Option<Created>>>, k: nat, attr: Option<Dicts.ODict<Json, RunCompletion>>)
    requires k <= |outs| && Loop(outs[..k], attr).failure.Some?
    ensures Loop(outs, attr) == Loop(outs[..k], attr)
    decreases |outs| - k
  {
    if k < |outs| {
      assert outs[..k + 1][..k] == outs[..k];
      LoopStops(outs, k + 1, attr);
    } else {
      assert outs[..k] == outs;
    }
  }
}
