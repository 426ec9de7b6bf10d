// migration/create/results.py: the results of every migrated run are sent in
// bulk to the target run, then the queued runs are completed.

module CreateResults {
  import opened Py
  import opened Utils
  import Dicts
  import Steps
  import ExtractAuthors
  import Paging

  const ChunkSize: nat := 500

  /** A result in the bulk format: exactly these three fields. */
  datatype ResultCreate = ResultCreate(caseId: Json, status: string, authorId: Json)

  /** The `status_id` table. */
  function StatusName(k: int): string
    requires 1 <= k <= 5
  {
    if k == 1 then "passed" else if k == 2 then "blocked" else if k == 3 then "skipped" else if k == 4 then "retest" else "failed"
  }

  /**
   * `status_id in status_map` for a truthy `status_id`: the table key it
   * equals (`True` equals 1), none for other hashable values, TypeError for a
   * list or dict.
   */
  function StatusKey(id: Json): (r: Reply<Option<int>>)
    ensures r.Ok? && r.value.Some? ==> 1 <= r.value.value <= 5
    ensures id.JInt? ==> r == Ok(if 1 <= id.i <= 5 then Some(id.i) else None)
  {
    match id
    case JInt(i) => Ok(if 1 <= i <= 5 then Some(i) else None)
    case JBool(b) => Ok(if b then Some(1) else None)
    case JList(_) => Raised(TypeError("unhashable type"))
    case JObject(_) => Raised(TypeError("unhashable type"))
    case _ => Ok(None)
  }

  /** The status named by a lower-cased `status` string; anything unknown is "skipped". */
  function StatusByName(s: string): (r: string)
    ensures s in ["passed", "pass"] ==> r == "passed"
    ensures s in ["failed", "fail"] ==> r == "failed"
    ensures s in ["blocked", "block"] ==> r == "blocked"
    ensures s in ["skipped", "skip"] ==> r == "skipped"
    ensures s in ["retest", "retry"] ==> r == "retest"
    ensures s !in ["passed", "pass", "failed", "fail", "blocked", "block", "retest", "retry"] ==> r == "skipped"
  {
    if s in ["passed", "pass"] then "passed"
    else if s in ["failed", "fail"] then "failed"
    else if s in ["blocked", "block"] then "blocked"
    else if s in ["skipped", "skip"] then "skipped"
    else if s in ["retest", "retry"] then "retest"
    else "skipped"
  }

  /**
   * The status of a result: by `status_id` when it is a table key, else by
   * the lower-cased `status` string, else "skipped". A truthy `status` that
   * is not a string has no `lower` (AttributeError), looked up even when
   * `status_id` decides.
   */
  function Status(result: Json): (r: Reply<string>)
    ensures r.Ok? ==> r.value in ["passed", "blocked", "skipped", "retest", "failed"]
  {
    var statusId := Field(result, "status_id");
    var status := Field(result, "status");
    if JTruthy(status) && !status.JStr? then Raised(AttributeError)
    else
      var statusStr := if JTruthy(status) then Some(Lower(status.s)) else None;
      match (if JTruthy(statusId) then StatusKey(statusId) else Ok(None))
      case Raised(e) => Raised(e)
      case Ok(Some(k)) => Ok(StatusName(k))
      case Ok(None) => if statusStr.Some? then Ok(StatusByName(Lower(statusStr.value))) else Ok("skipped")
  }

  /** `status_id` 1..5 decides the status whenever `status` does not raise. */
  lemma StatusById(result: Json, k: int)
    requires Field(result, "status_id") == JInt(k) && 1 <= k <= 5
    requires !JTruthy(Field(result, "status")) || Field(result, "status").JStr?
    ensures Status(result) == Ok(StatusName(k))
  {
  }

  /** Without a usable `status_id`, a `status` string decides by its lower-cased form. */
  lemma StatusByString(result: Json, s: string)
    requires s != [] && Field(result, "status") == JStr(s)
    requires var id := Field(result, "status_id"); !JTruthy(id) || StatusKey(id) == Ok(None)
    ensures Status(result) == Ok(StatusByName(Lower(s)))
  {
    LowerIdempotent(s);
  }

  /**
   * The target author: 1 unless `author_uuid` is truthy and the author table
   * gives it an id, which is then mapped as every migrator maps a user id
   * (`Utils.TargetUser`). A list or dict `author_uuid` cannot be looked up
   * (TypeError).
   */
  function Author(getUserId: int -> Reply<Json>, authors: map<Json, int>, result: Json): (r: Reply<Json>)
    ensures !JTruthy(Field(result, "author_uuid")) ==> r == Ok(JInt(1))
    ensures Hashable(Field(result, "author_uuid")) && Field(result, "author_uuid") !in authors ==> r == Ok(JInt(1))
    ensures Hashable(Field(result, "author_uuid")) && Field(result, "author_uuid") in authors ==>
      (authors[Field(result, "author_uuid")] == 0 ==> r == Ok(JInt(1)))
    ensures JTruthy(Field(result, "author_uuid")) && Hashable(Field(result, "author_uuid")) && Field(result, "author_uuid") in authors ==>
      r == TargetUser(getUserId, JInt(authors[Field(result, "author_uuid")]))
  {
    var uuid := Field(result, "author_uuid");
    if !JTruthy(uuid) then Ok(JInt(1))
    else if !Hashable(uuid) then Raised(TypeError("unhashable type"))
    else if uuid !in authors then Ok(JInt(1))
    else TargetUser(getUserId, JInt(authors[uuid]))
  }

  /** `transform_result_data`. */
  function Transform(getUserId: int -> Reply<Json>, authors: map<Json, int>, result: Json, targetCaseId: Json): (r: Reply<ResultCreate>)
    ensures r.Ok? ==> r.value.caseId == targetCaseId && Status(result).Ok? && r.value.status == Status(result).value
    ensures r.Ok? ==> Author(getUserId, authors, result) == Ok(r.value.authorId)
  {
    match Status(result)
    case Raised(e) => Raised(e)
    case Ok(status) =>
      match Author(getUserId, authors, result)
      case Raised(e) => Raised(e)
      case Ok(author) => Ok(ResultCreate(targetCaseId, status, author))
  }

  /** What one source result adds to the bulk list: nothing when its case is unmapped or its transformation raises. */
  function Prepare(caseMapping: map<Json, Json>, getUserId: int -> Reply<Json>, authors: map<Json, int>, result: Json): Option<ResultCreate>
  {
    var target := Lookup(caseMapping, Field(result, "case_id"));
    if !JTruthy(target) then None
    else match Transform(getUserId, authors, result, target)
      case Ok(rc) => Some(rc)
      case Raised(_) => None
  }

  function Prepared(caseMapping: map<Json, Json>, getUserId: int -> Reply<Json>, authors: map<Json, int>, results: seq<Json>): seq<ResultCreate>
  {
    Steps.Collect(results, (r: Json) => Prepare(caseMapping, getUserId, authors, r))
  }

  /** Only results whose case maps to a truthy target are sent, with that target as their case. */
  lemma PreparedMapped(caseMapping: map<Json, Json>, getUserId: int -> Reply<Json>, authors: map<Json, int>, results: seq<Json>, rc: ResultCreate)
    ensures rc in Prepared(caseMapping, getUserId, authors, results) ==>
      exists i :: 0 <= i < |results| && Field(results[i], "case_id") in caseMapping
        && rc.caseId == caseMapping[Field(results[i], "case_id")] && JTruthy(rc.caseId)
        && Transform(getUserId, authors, results[i], rc.caseId) == Ok(rc)
  {
    Steps.CollectContents(results, (r: Json) => Prepare(caseMapping, getUserId, authors, r), rc);
  }

  lemma {:induction false} CollectAtMost<T, U>(xs: seq<T>, f: T -> Option<U>)
    ensures |Steps.Collect(xs, f)| <= |xs|
  {
    if xs != [] {
      CollectAtMost(xs[..|xs| - 1], f);
    }
  }

  /** The bulk call for one chunk: the chunk's length when it answers truthy, 0 when it answers falsy or raises. */
  function ChunkCreated(bulk: (string, int, seq<ResultCreate>) -> Reply<bool>, code: string, targetRunId: Json, chunk: seq<ResultCreate>): nat
  {
    match IntOf(ToValue(targetRunId))
    case Raised(_) => 0
    case Ok(id) => if bulk(code, id, chunk) == Ok(true) then |chunk| else 0
  }

  function ChunksCreated(bulk: (string, int, seq<ResultCreate>) -> Reply<bool>, code: string, targetRunId: Json, chunks: seq<seq<ResultCreate>>): nat
  {
    if chunks == [] then 0
    else ChunksCreated(bulk, code, targetRunId, chunks[..|chunks| - 1]) + ChunkCreated(bulk, code, targetRunId, chunks[|chunks| - 1])
  }

  lemma {:induction false} ChunksCreatedAtMost(bulk: (string, int, seq<ResultCreate>) -> Reply<bool>, code: string, targetRunId: Json, chunks: seq<seq<ResultCreate>>)
    ensures ChunksCreated(bulk, code, targetRunId, chunks) <= |Concat(chunks)|
  {
    if chunks != [] {
      var n := |chunks| - 1;
      ChunksCreatedAtMost(bulk, code, targetRunId, chunks[..n]);
      Paging.ConcatSnoc(chunks[..n], chunks[n]);
      assert chunks[..n] + [chunks[n]] == chunks;
    }
  }

  /**
   * The input the results of one run are migrated with. `resultsOf(id)` is
   * `extract_results` on the source run `id`: the results its paging loop
   * read, or the exception of a `get_results` call whose retries ran out,
   * which no `try` of `migrate_results` catches.
   */
  datatype Tables = Tables(
    caseMapping: map<Json, Json>, getUserId: int -> Reply<Json>, authors: map<Json, int>,
    resultsOf: Json -> Reply<seq<Json>>, bulk: (string, int, seq<ResultCreate>) -> Reply<bool>)

  /** What one run adds to `total_results` and `created_results`, or the exception of its extraction. */
  function RunCounts(t: Tables, code: string, run: (Json, Json)): Reply<(nat, nat)>
  {
    match t.resultsOf(run.0)
    case Raised(e) => Raised(e)
    case Ok(results) =>
      var prepared := Prepared(t.caseMapping, t.getUserId, t.authors, results);
      if results == [] || prepared == [] then Ok((|results|, 0))
      else Ok((|results|, ChunksCreated(t.bulk, code, run.1, ChunksOf(prepared, ChunkSize))))
  }

  /** `total_results` and `created_results` after the runs, in order; the first extraction that raises ends the loop. */
  function Counts(t: Tables, code: string, runs: seq<(Json, Json)>): Reply<(nat, nat)>
  {
    if runs == [] then Ok((0, 0))
    else
      match Counts(t, code, runs[..|runs| - 1])
      case Raised(e) => Raised(e)
      case Ok(c) =>
        match RunCounts(t, code, runs[|runs| - 1])
        case Raised(e) => Raised(e)
        case Ok(d) => Ok((c.0 + d.0, c.1 + d.1))
  }

  /** The number of source results extracted for the runs, an extraction that raises reading as none. */
  function SourceTotal(t: Tables, runs: seq<(Json, Json)>): nat
  {
    if runs == [] then 0
    else
      var results := t.resultsOf(runs[|runs| - 1].0);
      SourceTotal(t, runs[..|runs| - 1]) + (if results.Ok? then |results.value| else 0)
  }

  /**
   * When no extraction raises, the total counts every source result of every
   * run, and no more results are counted as created than were counted in
   * total.
   */
  lemma {:induction false} CountsBound(t: Tables, code: string, runs: seq<(Json, Json)>)
    requires Counts(t, code, runs).Ok?
    ensures Counts(t, code, runs).value.0 == SourceTotal(t, runs)
    ensures Counts(t, code, runs).value.1 <= Counts(t, code, runs).value.0
  {
    if runs != [] {
      var n := |runs| - 1;
      CountsBound(t, code, runs[..n]);
      var results := t.resultsOf(runs[n].0).value;
      var prepared := Prepared(t.caseMapping, t.getUserId, t.authors, results);
      CollectAtMost(results, (r: Json) => Prepare(t.caseMapping, t.getUserId, t.authors, r));
      if results != [] && prepared != [] {
        ChunksCreatedAtMost(t.bulk, code, runs[n].1, ChunksOf(prepared, ChunkSize));
        ChunksOfPartition(prepared, ChunkSize);
      }
    }
  }

  /**
   * The loop over the run mapping raises iff the extraction of some run's
   * results raises, and then it is the first such extraction's exception.
   */
  lemma {:induction false} CountsRaised(t: Tables, code: string, runs: seq<(Json, Json)>)
    ensures Counts(t, code, runs).Raised? <==> exists i :: 0 <= i < |runs| && t.resultsOf(runs[i].0).Raised?
    ensures Counts(t, code, runs).Raised? ==>
      exists i :: 0 <= i < |runs| && t.resultsOf(runs[i].0) == Raised(Counts(t, code, runs).exc) &&
        forall j :: 0 <= j < i ==> t.resultsOf(runs[j].0).Ok?
  {
    if runs != [] {
      var n := |runs| - 1;
      CountsRaised(t, code, runs[..n]);
      assert forall i :: 0 <= i < n ==> runs[..n][i] == runs[i];
    }
  }

  /**
   * `create_results_bulk` does not exist on the raw client, so as written
   * every bulk call raises AttributeError, which is caught: nothing is ever
   * counted as created.
   */
  lemma {:induction false} BulkAsWritten(t: Tables, code: string, runs: seq<(Json, Json)>)
    requires t.bulk == ((code: string, id: int, chunk: seq<ResultCreate>) => Raised(AttributeError))
    requires Counts(t, code, runs).Ok?
    ensures Counts(t, code, runs).value.1 == 0
  {
    if runs != [] {
      var n := |runs| - 1;
      BulkAsWritten(t, code, runs[..n]);
      var prepared := Prepared(t.caseMapping, t.getUserId, t.authors, t.resultsOf(runs[n].0).value);
      NothingCreated(t.bulk, code, runs[n].1, ChunksOf(prepared, ChunkSize));
    }
  }

  lemma {:induction false} NothingCreated(bulk: (string, int, seq<ResultCreate>) -> Reply<bool>, code: string, targetRunId: Json, chunks: seq<seq<ResultCreate>>)
    requires bulk == ((code: string, id: int, chunk: seq<ResultCreate>) => Raised(AttributeError))
    ensures ChunksCreated(bulk, code, targetRunId, chunks) == 0
  {
    if chunks != [] {
      NothingCreated(bulk, code, targetRunId, chunks[..|chunks| - 1]);
    }
  }

  /** The `complete_run` calls for a project's queue: one per queued run with `is_completed`, in queue order. */
  function CompletionCalls(queue: Dicts.ODict<Json, RunCompletion>): seq<(string, Json)>
  {
    Steps.Collect(queue.keys, (k: Json) =>
      if k in queue.entries && queue.entries[k].isCompleted then Some((queue.entries[k].projectCode, k)) else None)
  }

  /** A target run gets a `complete_run` call iff it is queued with `is_completed`, in its queued project. */
  lemma CompletionCallsQueued(queue: Dicts.ODict<Json, RunCompletion>, code: string, id: Json)
    ensures (code, id) in CompletionCalls(queue) <==>
      id in queue.entries && queue.entries[id].isCompleted && queue.entries[id].projectCode == code
  {
    var f := (k: Json) => if k in queue.entries && queue.entries[k].isCompleted then Some((queue.entries[k].projectCode, k)) else None;
    Steps.CollectContents(queue.keys, f, (code, id));
    if id in queue.entries {
      var i :| 0 <= i < |queue.keys| && queue.keys[i] == id;
      assert f(queue.keys[i]) == f(id);
    }
  }

  // ------------------------------------------------------------------ the migration

  /** The loop over one run's source results: every result is counted, those with a mapped case are transformed and kept. */
  method PrepareRun(t: Tables, results: seq<Json>) returns (counted: nat, prepared: seq<ResultCreate>)
    ensures counted == |results|
    ensures prepared == Prepared(t.caseMapping, t.getUserId, t.authors, results)
  {
    counted, prepared := 0, [];
    for j := 0 to |results|
      invariant counted == j
      invariant prepared == Prepared(t.caseMapping, t.getUserId, t.authors, results[..j])
    {
      assert results[..j + 1][..j] == results[..j];
      counted := counted + 1;
      var targetCaseId := Lookup(t.caseMapping, Field(results[j], "case_id"));
      if !JTruthy(targetCaseId) {
        continue;
      }
      var data := Transform(t.getUserId, t.authors, results[j], targetCaseId);
      if data.Ok? {
        prepared := prepared + [data.value];
      }
    }
    assert results[..|results|] == results;
  }

  /** The loop over one run's chunks: each bulk call that answers truthy counts its chunk as created. */
  method SendChunks(bulk: (string, int, seq<ResultCreate>) -> Reply<bool>, code: string, targetRunId: Json, chunks: seq<seq<ResultCreate>>)
    returns (created: nat)
    ensures created == ChunksCreated(bulk, code, targetRunId, chunks)
  {
    created := 0;
    for j := 0 to |chunks|
      invariant created == ChunksCreated(bulk, code, targetRunId, chunks[..j])
    {
      assert chunks[..j + 1][..j] == chunks[..j];
      var chunk := chunks[j];
      if chunk == [] {
        continue;
      }
      var id := IntOf(ToValue(targetRunId));
      if id.Raised? {
        continue;
      }
      var success := bulk(code, id.value, chunk);
      if success == Ok(true) {
        created := created + |chunk|;
      }
    }
    assert chunks[..|chunks|] == chunks;
  }

  /** The loop over the run mapping, giving `total_results` and `created_results`, or the exception of an extraction. */
  method CountResults(t: Tables, code: string, runs: seq<(Json, Json)>) returns (r: Reply<(nat, nat)>)
    ensures r == Counts(t, code, runs)
  {
    var total, created := 0, 0;
    for i := 0 to |runs|
      invariant Counts(t, code, runs[..i]) == Ok((total, created))
    {
      assert runs[..i + 1][..i] == runs[..i];
      var extracted := t.resultsOf(runs[i].0);
      if extracted.Raised? {
        CountsStop(t, code, runs, i);
        return Raised(extracted.exc);
      }
      var sourceResults := extracted.value;
      if sourceResults == [] {
        continue;
      }
      var counted, prepared := PrepareRun(t, sourceResults);
      total := total + counted;
      if prepared != [] {
        var chunkList := Chunks(prepared, ChunkSize);
        var sent := SendChunks(t.bulk, code, runs[i].1, chunkList.value);
        created := created + sent;
      }
    }
    assert runs[..|runs|] == runs;
    return Ok((total, created));
  }

  /** An extraction that raises after a finished prefix is what the whole loop raises. */
  lemma {:induction false} CountsStop(t: Tables, code: string, runs: seq<(Json, Json)>, i: nat)
    requires i < |runs| && Counts(t, code, runs[..i]).Ok? && t.resultsOf(runs[i].0).Raised?
    ensures Counts(t, code, runs) == Raised(t.resultsOf(runs[i].0).exc)
    decreases |runs| - i
  {
    assert runs[..i + 1][..i] == runs[..i];
    if i + 1 < |runs| {
      CountsRaisedStays(t, code, runs, i + 1);
    } else {
      assert runs[..i + 1] == runs;
    }
  }

  /** Once a prefix of the runs raises, the remaining runs change nothing. */
  lemma {:induction false} CountsRaisedStays(t: Tables, code: string, runs: seq<(Json, Json)>, k: nat)
    requires k <= |runs| && Counts(t, code, runs[..k]).Raised?
    ensures Counts(t, code, runs) == Counts(t, code, runs[..k])
    decreases |runs| - k
  {
    if k < |runs| {
      assert runs[..k + 1][..k] == runs[..k];
      CountsRaisedStays(t, code, runs, k + 1);
    } else {
      assert runs[..k] == runs;
    }
  }

  /** The loop over a project's completion queue, giving the `complete_run` calls in order. */
  method CompleteRuns(queue: Dicts.ODict<Json, RunCompletion>) returns (calls: seq<(string, Json)>)
    ensures calls == CompletionCalls(queue)
  {
    var f := (k: Json) => if k in queue.entries && queue.entries[k].isCompleted then Some((queue.entries[k].projectCode, k)) else None;
    calls := [];
    for j := 0 to |queue.keys|
      invariant calls == Steps.Collect(queue.keys[..j], f)
    {
      assert queue.keys[..j + 1][..j] == queue.keys[..j];
      var k := queue.keys[j];
      var info := queue.entries[k];
      if info.isCompleted {
        calls := calls + [(info.projectCode, k)];
      }
    }
    assert queue.keys[..|queue.keys|] == queue.keys;
  }

  /**
   * `migrate_results`. `runs` is the run mapping's items in order and
   * `t.authors` the result of `extract_authors` on the source, stored first.
   * Without a target token or host nothing else happens. Otherwise an
   * extraction of a run's results that raises escapes with the stats
   * unchanged and no run completed. Failing that, the counts are recorded,
   * the queued runs of the source project are completed (the calls are
   * returned; their exceptions are swallowed), and storing the hash table
   * raises AttributeError because `mappings.result_hashes` does not exist.
   */
  method MigrateResults(codeSource: string, codeTarget: string, runs: seq<(Json, Json)>,
                        targetHost: string, targetApiKey: Json, t: Tables,
                        mappings: MigrationMappings, stats: MigrationStats)
    returns (r: Reply<()>, calls: seq<(string, Json)>)
    requires stats.Valid()
    modifies mappings`authorUuidToId, stats
    ensures stats.Valid()
    ensures mappings.authorUuidToId == t.authors
    ensures !JTruthy(ExtractAuthors.ApiToken(targetApiKey)) || targetHost == "" ==>
      r == Ok(()) && calls == [] && unchanged(stats)
    ensures JTruthy(ExtractAuthors.ApiToken(targetApiKey)) && targetHost != "" && Counts(t, codeTarget, runs).Raised? ==>
      r == Raised(Counts(t, codeTarget, runs).exc) && calls == [] && unchanged(stats)
    ensures JTruthy(ExtractAuthors.ApiToken(targetApiKey)) && targetHost != "" && Counts(t, codeTarget, runs).Ok? ==>
      && r == Raised(AttributeError)
      && stats.processed == Accumulate(old(stats.processed), "results", Counts(t, codeTarget, runs).value.0)
      && stats.created == Accumulate(old(stats.created), "results", Counts(t, codeTarget, runs).value.1)
      && calls == (if codeSource in mappings.runsToComplete then CompletionCalls(mappings.runsToComplete[codeSource]) else [])
  {
    mappings.authorUuidToId := t.authors;
    var token := ExtractAuthors.ApiToken(targetApiKey);
    if !JTruthy(token) || targetHost == "" {
      return Ok(()), [];
    }
    var counts := CountResults(t, codeTarget, runs);
    if counts.Raised? {
      return Raised(counts.exc), [];
    }
    var (total, created) := counts.value;
    stats.AddEntity("results", total, created);
    calls := [];
    if codeSource in mappings.runsToComplete {
      calls := CompleteRuns(mappings.runsToComplete[codeSource]);
    }
    r := Raised(AttributeError);
  }
}
