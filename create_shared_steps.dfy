// migration/create/shared_steps.py: every hashed shared step of a project
// is created in the target (the store is not consulted first) and its hash
// mapped to the new one.

module CreateSharedSteps {
  import opened Py
  import opened Utils
  import opened Paging
  import Steps
  import Seqs
  import ExtractSharedSteps

  /** A `SharedStepContentCreate`. */
  datatype StepContent = StepContent(action: string, expectedResult: Json)

  /** A `SharedStepCreate`. */
  datatype SharedStepCreate = SharedStepCreate(title: Json, steps: seq<StepContent>)

  /**
   * One step of a shared step: the action stripped, `'No action'` when that
   * leaves nothing; the expected result falls back from `expected_result` to
   * `expected`. An action that is present but not a string makes `strip()`
   * raise.
   */
  function Content(item: Json): (r: Reply<StepContent>)
    ensures r.Ok? <==> (Get(ToDict(item), "action").None? || Get(ToDict(item), "action").value.JStr?)
    ensures r.Raised? ==> r.exc == AttributeError
    ensures r.Ok? ==> var a := r.value.action; a != "" && !IsSpace(a[0]) && !IsSpace(a[|a| - 1])
    ensures r.Ok? ==> r.value.expectedResult == JOr(Field(ToDict(item), "expected_result"), Field(ToDict(item), "expected"))
  {
    var d := ToDict(item);
    var action := match Get(d, "action") case Some(a) => a case None => JStr("");
    if !action.JStr? then Raised(AttributeError)
    else
      var stripped := Strip(action.s);
      StripEnds(action.s);
      Ok(StepContent(if stripped == "" then "No action" else stripped, JOr(Field(d, "expected_result"), Field(d, "expected"))))
  }

  /** What `strip()` leaves has no whitespace at either end. */
  lemma StripEnds(s: string)
    ensures var t := Strip(s); t != [] ==> !IsSpace(t[0]) && !IsSpace(t[|t| - 1])
  {
    var l := StripLeft(s);
    var t := StripRight(l);
    if t != [] {
      assert t[0] == l[0];
    }
  }

  /** The contents of all steps, in order; the first failing step raises. */
  function Contents(items: seq<Json>): Reply<seq<StepContent>>
  {
    Steps.MapAll(Content, items)
  }

  /** Every step passes, in order, or the payload is not built. */
  lemma ContentsAll(items: seq<Json>)
    ensures Contents(items).Ok? <==> forall i :: 0 <= i < |items| ==> Content(items[i]).Ok?
    ensures Contents(items).Ok? ==>
      |Contents(items).value| == |items| && forall i :: 0 <= i < |items| ==> Content(items[i]) == Ok(Contents(items).value[i])
  {
    Steps.MapAllOk(Content, items);
  }

  /**
   * The payload for a shared step: its `steps` (absent reads as none; a
   * value that is not iterable raises TypeError), then its title (absent
   * raises KeyError).
   */
  function Payload(step: Json): Reply<SharedStepCreate>
  {
    var items := match Get(step, "steps") case Some(v) => Iter(v) case None => Some([]);
    if items.None? then Raised(NotIterable)
    else match Contents(items.value)
      case Raised(e) => Raised(e)
      case Ok(contents) =>
        match Get(step, "title")
        case None => Raised(KeyError)
        case Some(title) => Ok(SharedStepCreate(title, contents))
  }

  /**
   * One shared step. `create(payload)` is the retried `create_shared_step`
   * call, answering the result's `hash` when the response has a true status
   * and a truthy result carrying one, and nothing otherwise.
   */
  function Outcome(create: SharedStepCreate -> Reply<Option<Json>>, step: Json): Reply<Option<(Json, Json)>>
  {
    var hash := Field(step, "hash");
    if !JTruthy(hash) then Ok(None)
    else match Payload(step)
      case Raised(e) => Raised(e)
      case Ok(p) =>
        match create(p)
        case Raised(e) => Raised(e)
        case Ok(None) => Ok(None)
        case Ok(Some(target)) => Ok(Some((hash, target)))
  }

  function Outcomes(create: SharedStepCreate -> Reply<Option<Json>>, steps: seq<Json>): seq<Reply<Option<(Json, Json)>>>
  {
    seq(|steps|, i requires 0 <= i < |steps| => Outcome(create, steps[i]))
  }

  function Migrated(create: SharedStepCreate -> Reply<Option<Json>>, steps: seq<Json>): Reply<map<Json, Json>>
  {
    Steps.Assign(Outcomes(create, steps))
  }

  /** The shared step `step` ends up mapping the hash `h`. */
  predicate Maps(create: SharedStepCreate -> Reply<Option<Json>>, step: Json, h: Json)
  {
    Field(step, "hash") == h && JTruthy(h) && Payload(step).Ok? && create(Payload(step).value).Ok? && create(Payload(step).value).value.Some?
  }

  /**
   * A hash is mapped iff one of its shared steps was created with a hash in
   * the response, and it maps to the hash the last such create answered.
   */
  lemma MigratedEntries(create: SharedStepCreate -> Reply<Option<Json>>, steps: seq<Json>, h: Json)
    requires Migrated(create, steps).Ok?
    ensures h in Migrated(create, steps).value <==> exists i :: 0 <= i < |steps| && Maps(create, steps[i], h)
    ensures h in Migrated(create, steps).value ==>
      exists i :: 0 <= i < |steps| && Maps(create, steps[i], h) &&
        Migrated(create, steps).value[h] == create(Payload(steps[i]).value).value.value &&
        forall j :: i < j < |steps| ==> !Maps(create, steps[j], h)
  {
    var outs := Outcomes(create, steps);
    Steps.AssignEntries(outs, h);
    assert forall i :: 0 <= i < |steps| ==> outs[i] == Outcome(create, steps[i]);
  }

  /** The loop stops at the first shared step whose payload or create raises. */
  lemma MigratedFailure(create: SharedStepCreate -> Reply<Option<Json>>, steps: seq<Json>)
    ensures Migrated(create, steps).Raised? <==> exists i :: 0 <= i < |steps| && Outcome(create, steps[i]).Raised?
  {
    var outs := Outcomes(create, steps);
    Steps.AssignOutcome(outs);
    assert forall i :: 0 <= i < |steps| ==> outs[i] == Outcome(create, steps[i]);
  }

  /** The loop over the steps of one shared step. */
  method ProcessSteps(items: seq<Json>) returns (r: Reply<seq<StepContent>>)
    ensures r == Contents(items)
  {
    var processed: seq<StepContent> := [];
    for j := 0 to |items|
      invariant Contents(items[..j]) == Ok(processed)
    {
      assert items[..j + 1][..j] == items[..j];
      var c := Content(items[j]);
      if c.Raised? {
        Steps.MapAllStop(Content, items, j + 1);
        return Raised(c.exc);
      }
      processed := processed + [c.value];
    }
    assert items[..|items|] == items;
    return Ok(processed);
  }

  method MigrateSharedStep(create: SharedStepCreate -> Reply<Option<Json>>, step: Json)
    returns (o: Reply<Option<(Json, Json)>>)
    ensures o == Outcome(create, step)
  {
    var hash := Field(step, "hash");
    if !JTruthy(hash) {
      return Ok(None);
    }
    var items := match Get(step, "steps") case Some(v) => Iter(v) case None => Some([]);
    if items.None? {
      return Raised(NotIterable);
    }
    var contents := ProcessSteps(items.value);
    if contents.Raised? {
      return Raised(contents.exc);
    }
    var title := Get(step, "title");
    if title.None? {
      return Raised(KeyError);
    }
    var response := create(SharedStepCreate(title.value, contents.value));
    if response.Raised? {
      return Raised(response.exc);
    }
    if response.value.Some? {
      return Ok(Some((hash, response.value.value)));
    }
    return Ok(None);
  }

  /**
   * `migrate_shared_steps` for the project `code`: `extract_shared_steps`
   * on the source (`fetch` as there), a create per hashed step, then the
   * mapping merged into the project's table and the counts recorded.
   */
  method MigrateSharedSteps(code: string, fetch: nat -> Reply<seq<Json>>, ghost bound: nat,
                            create: SharedStepCreate -> Reply<Option<Json>>, mappings: MigrationMappings, stats: MigrationStats)
    returns (r: Reply<map<Json, Json>>)
    requires Ends(fetch, ExtractSharedSteps.Limit, bound)
    requires stats.Valid()
    modifies mappings`sharedSteps, stats
    ensures stats.Valid()
    ensures var s := ScanFrom(fetch, ExtractSharedSteps.Limit, 0, bound);
      if s.failure.Some? then r == Raised(s.failure.value) && unchanged(mappings`sharedSteps) && unchanged(stats)
      else
        var steps := Seqs.Filter(Items(s), ExtractSharedSteps.HasHash);
        && r == Migrated(create, steps)
        && (r.Raised? ==> unchanged(mappings`sharedSteps) && unchanged(stats))
        && (r.Ok? ==>
          && mappings.sharedSteps == MergeInto(old(mappings.sharedSteps), code, r.value)
          && stats.processed == Accumulate(old(stats.processed), "shared_steps", |steps|)
          && stats.created == Accumulate(old(stats.created), "shared_steps", |r.value|))
  {
    var extracted := ExtractSharedSteps.ExtractSharedSteps(fetch, bound);
    if extracted.Raised? {
      return Raised(extracted.exc);
    }
    var steps := extracted.value;
    ghost var outs := Outcomes(create, steps);
    var mapping: map<Json, Json> := map[];
    for i := 0 to |steps|
      invariant Steps.Assign(outs[..i]) == Ok(mapping)
      invariant unchanged(stats) && unchanged(mappings`sharedSteps)
    {
      assert outs[..i + 1][..i] == outs[..i];
      var o := MigrateSharedStep(create, steps[i]);
      if o.Raised? {
        Steps.AssignStops(outs, i);
        return Raised(o.exc);
      }
      if o.value.Some? {
        mapping := mapping[o.value.value.0 := o.value.value.1];
      }
    }
    assert outs[..|steps|] == outs;
    mappings.sharedSteps := MergeInto(mappings.sharedSteps, code, mapping);
    stats.AddEntity("shared_steps", |steps|, |mapping|);
    return Ok(mapping);
  }
}
