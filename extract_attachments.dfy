// migration/extract/attachments.py: the attachment hashes of a project and
// the hash-to-URL table of its image links, read from its cases (attachment
// lists, text fields, custom fields, steps) and from the results of its runs.

module ExtractAttachments {
  import opened Py
  import Dicts
  import opened Paging
  import opened Seqs
  import opened AttachmentText
  import Utils

  const Limit := 100
  const CaseTextFields: seq<string> := ["description", "preconditions", "postconditions"]
  const CaseStepTextFields: seq<string> := ["action", "expected_result", "data"]
  const ResultTextFields: seq<string> := ["comment"]
  const ResultStepTextFields: seq<string> := ["action", "expected_result", "comment"]

  /** The hashes collected and the hash-to-URL table of the image links collected. */
  datatype Found = Found(hashes: set<string>, urls: map<string, string>)

  const NoneFound := Found({}, map[])

  /** What the listed text fields of `data` add: their hashes, and their URLs over the earlier ones. */
  function WithTexts(f: Found, data: Json, fields: seq<string>): Found
  {
    Found(f.hashes + FieldsHashes(data, fields), f.urls + FieldsUrls(data, fields))
  }

  // ------------------------------------------------------------------ cases

  /**
   * One item of a case's attachment list: a string is the hash itself, a
   * dict gives its 'hash' or else the hash in its 'url'; both lowercased. A
   * 'url' that is not a string makes `re.search` raise, which ends the scan
   * (`false`).
   */
  function AddAttachment(hashes: set<string>, item: Json): (set<string>, bool)
  {
    match item
    case JStr(s) => (hashes + {Lower(s)}, true)
    case JObject(es) =>
      (match JGet(es, "hash")
       case Some(h) => (hashes + {Lower(StrOf(h))}, true)
       case None =>
         match JGet(es, "url")
         case None => (hashes, true)
         case Some(u) =>
           if !u.JStr? then (hashes, false)
           else match Search(u.s, Segment)
             case Some(h) => (hashes + {Lower(h)}, true)
             case None => (hashes, true))
    case _ => (hashes, true)
  }

  /** A step's attachments: `str(att).lower()` of each truthy entry. */
  function StepAttachments(items: seq<Json>): set<string>
  {
    set a | a in items && JTruthy(a) :: Lower(StrOf(a))
  }

  /** One step of a case: its attachments, then its text fields. A truthy 'attachments' that is not iterable raises. */
  function CaseStep(f: Found, step: Json): (Found, bool)
  {
    var sd := ToDict(step);
    var atts := Field(sd, "attachments");
    if !JTruthy(atts) then (WithTexts(f, sd, CaseStepTextFields), true)
    else match Iter(atts)
      case None => (f, false)
      case Some(items) => (WithTexts(f.(hashes := f.hashes + StepAttachments(items)), sd, CaseStepTextFields), true)
  }

  /**
   * The body of the loop over one case: its attachment list, its text fields,
   * its custom fields, its steps. `false` when something raised; what was
   * added before that stays.
   */
  function CaseFound(f: Found, c: Json): (Found, bool)
  {
    var cd := ToDict(c);
    var atts := Field(cd, "attachments");
    var listed :=
      if !JTruthy(atts) then (f, true)
      else match Iter(atts)
        case None => (f, false)
        case Some(items) =>
          var added := FoldStop(AddAttachment, f.hashes, items);
          (f.(hashes := added.0), added.1);
    if !listed.1 then listed
    else
      var texts := WithTexts(listed.0, cd, CaseTextFields);
      var cf := Field(cd, "custom_fields");
      var custom := if JTruthy(cf) then WithTexts(texts, JObject([("custom_fields", cf)]), ["custom_fields"]) else texts;
      var steps := Field(cd, "steps");
      if !JTruthy(steps) then (custom, true)
      else match Iter(steps)
        case None => (custom, false)
        case Some(ss) => FoldStop(CaseStep, custom, ss)
  }

  /** What the cases give, gone through in order up to the first that raises. */
  function CasesFound(cases: seq<Json>): Found
  {
    FoldStop(CaseFound, NoneFound, cases).0
  }

  /**
   * `extract_attachment_hashes_from_cases`: the project's cases, 100 per
   * page, until an empty or short page; anything raised ends the loop and
   * the hashes and URLs collected so far are returned.
   */
  method HashesFromCases(cases: nat -> Reply<seq<Json>>, ghost bound: nat) returns (found: Found)
    requires Ends(cases, Limit, bound)
    ensures found == CasesFound(Items(ScanFrom(cases, Limit, 0, bound)))
  {
    found := FoldScan(cases, Limit, bound, CaseFound, NoneFound);
  }

  // ---------------------------------------------------------------- results

  /** The string entries of a result's attachment list, as they are. */
  function AttachmentStrings(items: seq<Json>): set<string>
  {
    set h | h in items && h.JStr? :: h.s
  }

  /** One step of a result: the text fields of a dict; anything else adds nothing. */
  function ResultStep(f: Found, step: Json): (Found, bool)
  {
    (WithTexts(f, ToDict(step), ResultStepTextFields), true)
  }

  /**
   * The body of the loop over one result: its attachment list when it is a
   * list, its comment, the text fields of its steps. A truthy 'steps' that
   * is not iterable raises.
   */
  function ResultFound(f: Found, result: Json): (Found, bool)
  {
    var rd := ToDict(result);
    var atts := Field(rd, "attachments");
    var listed := if JTruthy(atts) && atts.JList? then f.(hashes := f.hashes + AttachmentStrings(atts.items)) else f;
    var texts := WithTexts(listed, rd, ResultTextFields);
    var steps := Field(rd, "steps");
    if !JTruthy(steps) then (texts, true)
    else match Iter(steps)
      case None => (texts, false)
      case Some(ss) => FoldStop(ResultStep, texts, ss)
  }

  /** The run id the results of a run are asked for with: `str(run_dict.get('id'))`. */
  function RunKey(run: Json): string
  {
    StrOf(Field(ToDict(run), "id"))
  }

  /** Every run's listing of results ends (see `Ends`). */
  ghost predicate ResultsEnd(results: string -> nat -> Reply<seq<Json>>, bound: nat)
  {
    forall key :: Ends(results(key), Limit, bound)
  }

  /** One run: its results, 100 per page, up to the first exception, which ends only this run's loop. */
  function RunFound(results: string -> nat -> Reply<seq<Json>>, bound: nat, f: Found, run: Json): Found
    requires ResultsEnd(results, bound)
  {
    FoldStop(ResultFound, f, Items(ScanFrom(results(RunKey(run)), Limit, 0, bound))).0
  }

  /** The runs, one after another. */
  function RunsFound(results: string -> nat -> Reply<seq<Json>>, bound: nat, f: Found, runs: seq<Json>): Found
    requires ResultsEnd(results, bound)
  {
    if runs == [] then f
    else RunFound(results, bound, RunsFound(results, bound, f, runs[..|runs| - 1]), runs[|runs| - 1])
  }

  /** What the results of all runs give; an exception from the runs listing ends the outer loop. */
  function ResultsFound(runs: nat -> Reply<seq<Json>>, runsBound: nat,
                        results: string -> nat -> Reply<seq<Json>>, bound: nat): Found
    requires Ends(runs, Limit, runsBound) && ResultsEnd(results, bound)
  {
    RunsFound(results, bound, NoneFound, Items(ScanFrom(runs, Limit, 0, runsBound)))
  }

  /** `extract_attachment_hashes_from_results`. */
  method HashesFromResults(runs: nat -> Reply<seq<Json>>, results: string -> nat -> Reply<seq<Json>>,
                           ghost runsBound: nat, ghost bound: nat)
    returns (found: Found)
    requires Ends(runs, Limit, runsBound) && ResultsEnd(results, bound)
    ensures found == ResultsFound(runs, runsBound, results, bound)
  {
    found := NoneFound;
    var offset: nat := 0;
    ghost var done: seq<seq<Json>> := [];
    while true
      invariant ScanFrom(runs, Limit, 0, runsBound) == Prefixed(done, ScanFrom(runs, Limit, offset, runsBound))
      invariant found == RunsFound(results, bound, NoneFound, Utils.Concat(done))
      decreases if offset <= runsBound then runsBound - offset + 1 else 0
    {
      var response := runs(offset);
      RunsAt(runs, runsBound, results, bound, offset, done);
      if response.Raised? || response.value == [] {
        return;
      }
      var entities := response.value;
      found := RunsPage(results, bound, found, Utils.Concat(done), entities);
      if |entities| < Limit {
        return;
      }
      done := done + [entities];
      offset := offset + Limit;
    }
  }

  /** What a turn of the runs loop at `offset` means for the whole outcome. */
  lemma RunsAt(runs: nat -> Reply<seq<Json>>, runsBound: nat, results: string -> nat -> Reply<seq<Json>>, bound: nat,
               offset: nat, done: seq<seq<Json>>)
    requires Ends(runs, Limit, runsBound) && ResultsEnd(results, bound)
    requires ScanFrom(runs, Limit, 0, runsBound) == Prefixed(done, ScanFrom(runs, Limit, offset, runsBound))
    ensures runs(offset).Raised? || runs(offset) == Ok([]) ==>
      ResultsFound(runs, runsBound, results, bound) == RunsFound(results, bound, NoneFound, Utils.Concat(done))
    ensures runs(offset).Ok? && 0 < |runs(offset).value| < Limit ==>
      ResultsFound(runs, runsBound, results, bound) == RunsFound(results, bound, NoneFound, Utils.Concat(done) + runs(offset).value)
    ensures Full(runs(offset), Limit) ==>
      && offset < runsBound
      && ScanFrom(runs, Limit, 0, runsBound) == Prefixed(done + [runs(offset).value], ScanFrom(runs, Limit, offset + Limit, runsBound))
      && Utils.Concat(done + [runs(offset).value]) == Utils.Concat(done) + runs(offset).value
  {
    ItemsAt(runs, Limit, offset, runsBound, done);
    if runs(offset).Raised? || runs(offset) == Ok([]) {
      assert Utils.Concat(done) + [] == Utils.Concat(done);
    }
  }

  /** The loop over the runs of one page, each with its own loop over its results. */
  method RunsPage(results: string -> nat -> Reply<seq<Json>>, ghost bound: nat, f: Found,
                  ghost before: seq<Json>, entities: seq<Json>)
    returns (found: Found)
    requires ResultsEnd(results, bound)
    requires f == RunsFound(results, bound, NoneFound, before)
    ensures found == RunsFound(results, bound, NoneFound, before + entities)
  {
    found := f;
    assert before + entities[..0] == before;
    for j := 0 to |entities|
      invariant found == RunsFound(results, bound, NoneFound, before + entities[..j])
    {
      RunsFoundSnoc(results, bound, before, entities, j);
      var run := entities[j];
      found := FoldScan(results(RunKey(run)), Limit, bound, ResultFound, found);
    }
    assert entities[..|entities|] == entities;
  }

  lemma RunsFoundSnoc(results: string -> nat -> Reply<seq<Json>>, bound: nat, before: seq<Json>, entities: seq<Json>, j: nat)
    requires ResultsEnd(results, bound)
    requires j < |entities|
    ensures RunsFound(results, bound, NoneFound, before + entities[..j + 1])
         == RunFound(results, bound, RunsFound(results, bound, NoneFound, before + entities[..j]), entities[j])
  {
    var xs := before + entities[..j + 1];
    assert xs[..|xs| - 1] == before + entities[..j] && xs[|xs| - 1] == entities[j];
  }

  // --------------------------------------------------------------- projects

  /** One project's hashes and URLs: the union of the two sets; a result's URL wins over a case's. */
  function ProjectFound(cases: Found, results: Found): (r: Found)
    ensures forall h :: h in r.hashes <==> h in cases.hashes || h in results.hashes
    ensures forall h :: h in r.urls <==> h in cases.urls || h in results.urls
    ensures forall h :: h in results.urls ==> r.urls[h] == results.urls[h]
    ensures forall h :: h in cases.urls && h !in results.urls ==> r.urls[h] == cases.urls[h]
  {
    Found(cases.hashes + results.hashes, cases.urls + results.urls)
  }

  /**
   * The remote side, per source project code: its cases listing, its runs
   * listing, and the results listing of each of its runs.
   */
  datatype Source = Source(
    cases: string -> nat -> Reply<seq<Json>>,
    runs: string -> nat -> Reply<seq<Json>>,
    results: string -> string -> nat -> Reply<seq<Json>>)

  /** Every listing of the source ends. */
  ghost predicate SourceEnds(src: Source, bound: nat)
  {
    forall code :: Ends(src.cases(code), Limit, bound) && Ends(src.runs(code), Limit, bound) && ResultsEnd(src.results(code), bound)
  }

  /** What one project gives. */
  function ProjectAttachments(src: Source, bound: nat, code: string): Found
    requires SourceEnds(src, bound)
  {
    ProjectFound(
      CasesFound(Items(ScanFrom(src.cases(code), Limit, 0, bound))),
      ResultsFound(src.runs(code), bound, src.results(code), bound))
  }

  /** The dict of `extract_all_attachment_hashes`, keyed by source code; a repeated code is overwritten in place. */
  function AllFound(src: Source, bound: nat, projects: seq<Utils.ProjectPair>): Dicts.ODict<string, Found>
    requires SourceEnds(src, bound)
  {
    if projects == [] then Dicts.Empty()
    else
      var p := projects[|projects| - 1];
      Dicts.Put(AllFound(src, bound, projects[..|projects| - 1]), p.sourceCode, ProjectAttachments(src, bound, p.sourceCode))
  }

  /** `extract_all_attachment_hashes`. */
  method ExtractAllAttachmentHashes(src: Source, ghost bound: nat, projects: seq<Utils.ProjectPair>)
    returns (all: Dicts.ODict<string, Found>)
    requires SourceEnds(src, bound)
    ensures all == AllFound(src, bound, projects)
  {
    all := Dicts.Empty();
    for i := 0 to |projects|
      invariant all == AllFound(src, bound, projects[..i])
    {
      assert projects[..i + 1][..i] == projects[..i];
      var code := projects[i].sourceCode;
      var caseFound := HashesFromCases(src.cases(code), bound);
      var resultFound := HashesFromResults(src.runs(code), src.results(code), bound, bound);
      all := Dicts.Put(all, code, ProjectFound(caseFound, resultFound));
    }
    assert projects[..|projects|] == projects;
  }

  // ---------------------------------------------------------------- properties

  predicate AllLower(hashes: set<string>)
  {
    forall h :: h in hashes ==> Lower(h) == h
  }

  predicate FoundLower(f: Found)
  {
    AllLower(f.hashes)
  }

  lemma TextsLower(f: Found, data: Json, fields: seq<string>)
    requires FoundLower(f)
    ensures FoundLower(WithTexts(f, data, fields))
  {
    forall h | h in FieldsHashes(data, fields) ensures Lower(h) == h {
      FieldHashFacts(data, fields, h);
    }
  }

  lemma AddAttachmentLower(hashes: set<string>, item: Json)
    requires AllLower(hashes)
    ensures AllLower(AddAttachment(hashes, item).0)
  {
    forall h | h in AddAttachment(hashes, item).0 && h !in hashes ensures Lower(h) == h {
      var x :| Lower(x) == h;
      LowerIdempotent(x);
    }
  }

  lemma CaseStepLower(f: Found, step: Json)
    requires FoundLower(f)
    ensures FoundLower(CaseStep(f, step).0)
  {
    var sd := ToDict(step);
    var atts := Field(sd, "attachments");
    if JTruthy(atts) && Iter(atts).Some? {
      var items := Iter(atts).value;
      forall h | h in StepAttachments(items) ensures Lower(h) == h {
        var a :| a in items && JTruthy(a) && Lower(StrOf(a)) == h;
        LowerIdempotent(StrOf(a));
      }
      TextsLower(f.(hashes := f.hashes + StepAttachments(items)), sd, CaseStepTextFields);
    } else if !JTruthy(atts) {
      TextsLower(f, sd, CaseStepTextFields);
    }
  }

  lemma CaseFoundLower(f: Found, c: Json)
    requires FoundLower(f)
    ensures FoundLower(CaseFound(f, c).0)
  {
    var cd := ToDict(c);
    var atts := Field(cd, "attachments");
    var listed :=
      if !JTruthy(atts) then (f, true)
      else match Iter(atts)
        case None => (f, false)
        case Some(items) =>
          var added := FoldStop(AddAttachment, f.hashes, items);
          (f.(hashes := added.0), added.1);
    if JTruthy(atts) && Iter(atts).Some? {
      forall b: set<string>, x: Json | AllLower(b) ensures AllLower(AddAttachment(b, x).0) {
        AddAttachmentLower(b, x);
      }
      FoldStopKeeps(AddAttachment, AllLower, f.hashes, Iter(atts).value);
    }
    assert FoundLower(listed.0);
    if listed.1 {
      var texts := WithTexts(listed.0, cd, CaseTextFields);
      TextsLower(listed.0, cd, CaseTextFields);
      var cf := Field(cd, "custom_fields");
      var custom := if JTruthy(cf) then WithTexts(texts, JObject([("custom_fields", cf)]), ["custom_fields"]) else texts;
      if JTruthy(cf) {
        TextsLower(texts, JObject([("custom_fields", cf)]), ["custom_fields"]);
      }
      var steps := Field(cd, "steps");
      if JTruthy(steps) && Iter(steps).Some? {
        forall b: Found, x: Json | FoundLower(b) ensures FoundLower(CaseStep(b, x).0) {
          CaseStepLower(b, x);
        }
        FoldStopKeeps(CaseStep, FoundLower, custom, Iter(steps).value);
      }
    }
  }

  /**
   * Every hash collected from cases is lowercased, whether it comes from an
   * attachment string, a dict's 'hash', a dict's 'url', a step attachment or
   * a text field.
   */
  lemma CaseHashesLowered(cases: seq<Json>)
    ensures forall h :: h in CasesFound(cases).hashes ==> Lower(h) == h
  {
    forall b: Found, x: Json | FoundLower(b) ensures FoundLower(CaseFound(b, x).0) {
      CaseFoundLower(b, x);
    }
    FoldStopKeeps(CaseFound, FoundLower, NoneFound, cases);
  }

  /**
   * A result's attachment list is kept as it is: every string in it is
   * collected, upper case included; other entries are not looked at.
   */
  lemma ResultAttachmentsKept(f: Found, result: Json, s: string)
    requires var atts := Field(ToDict(result), "attachments"); atts.JList? && JStr(s) in atts.items
    ensures s in ResultFound(f, result).0.hashes
  {
    var rd := ToDict(result);
    var atts := Field(rd, "attachments");
    assert atts.items != [];
    var listed := f.(hashes := f.hashes + AttachmentStrings(atts.items));
    assert s in listed.hashes;
    var texts := WithTexts(listed, rd, ResultTextFields);
    var steps := Field(rd, "steps");
    if JTruthy(steps) && Iter(steps).Some? {
      var has := (g: Found) => s in g.hashes;
      forall b: Found, x: Json | has(b) ensures has(ResultStep(b, x).0) {
      }
      FoldStopKeeps(ResultStep, has, texts, Iter(steps).value);
    }
  }

  /** Going through a case only adds hashes. */
  lemma CaseFoundGrows(f: Found, c: Json)
    ensures f.hashes <= CaseFound(f, c).0.hashes
  {
    var cd := ToDict(c);
    var atts := Field(cd, "attachments");
    if JTruthy(atts) && Iter(atts).Some? {
      var has := (hs: set<string>) => f.hashes <= hs;
      forall b: set<string>, x: Json | has(b) ensures has(AddAttachment(b, x).0) {
      }
      FoldStopKeeps(AddAttachment, has, f.hashes, Iter(atts).value);
    }
    var steps := Field(cd, "steps");
    if JTruthy(steps) && Iter(steps).Some? {
      var has := (g: Found) => f.hashes <= g.hashes;
      forall b: Found, x: Json | has(b) ensures has(CaseStep(b, x).0) {
      }
      var listed :=
        if !JTruthy(atts) then (f, true)
        else match Iter(atts)
          case None => (f, false)
          case Some(items) =>
            var added := FoldStop(AddAttachment, f.hashes, items);
            (f.(hashes := added.0), added.1);
      var texts := WithTexts(listed.0, cd, CaseTextFields);
      var cf := Field(cd, "custom_fields");
      var custom := if JTruthy(cf) then WithTexts(texts, JObject([("custom_fields", cf)]), ["custom_fields"]) else texts;
      FoldStopKeeps(CaseStep, has, custom, Iter(steps).value);
    }
  }

  /**
   * An exception ends the loop over the cases but keeps what was collected:
   * the hashes of any first cases are among those returned.
   */
  lemma {:induction false} CasesKeepEarlier(xs: seq<Json>, ys: seq<Json>)
    ensures CasesFound(xs).hashes <= CasesFound(xs + ys).hashes
    decreases |ys|
  {
    if ys == [] {
      assert xs + ys == xs;
    } else {
      var n := |ys| - 1;
      CasesKeepEarlier(xs, ys[..n]);
      assert xs + ys == (xs + ys[..n]) + [ys[n]];
      FoldStopLast(CaseFound, NoneFound, xs + ys, xs + ys[..n], ys[n]);
      var r := FoldStop(CaseFound, NoneFound, xs + ys[..n]);
      if r.1 {
        CaseFoundGrows(r.0, ys[n]);
      }
    }
  }

  /** The entries of the dict `extract_all_attachment_hashes` builds, as a plain map. */
  function AllFoundEntriesMap(src: Source, bound: nat, projects: seq<Utils.ProjectPair>): map<string, Found>
    requires SourceEnds(src, bound)
  {
    if projects == [] then map[]
    else
      var p := projects[|projects| - 1];
      AllFoundEntriesMap(src, bound, projects[..|projects| - 1])[p.sourceCode := ProjectAttachments(src, bound, p.sourceCode)]
  }

  lemma {:induction false} AllFoundAgree(src: Source, bound: nat, projects: seq<Utils.ProjectPair>)
    requires SourceEnds(src, bound)
    ensures AllFound(src, bound, projects).entries == AllFoundEntriesMap(src, bound, projects)
  {
    if projects != [] {
      AllFoundAgree(src, bound, projects[..|projects| - 1]);
    }
  }

  /**
   * The dict has one key per source code of the projects, and each code's
   * value is what that project gives (a repeated code gives the same value).
   */
  lemma AllFoundEntries(src: Source, bound: nat, projects: seq<Utils.ProjectPair>, code: string)
    requires SourceEnds(src, bound)
    ensures code in AllFound(src, bound, projects).entries <==> exists i :: 0 <= i < |projects| && projects[i].sourceCode == code
    ensures code in AllFound(src, bound, projects).entries ==>
      AllFound(src, bound, projects).entries[code] == ProjectAttachments(src, bound, code)
  {
    AllFoundAgree(src, bound, projects);
    AllFoundMapEntries(src, bound, projects, code);
  }

  lemma AllFoundMapEntries(src: Source, bound: nat, projects: seq<Utils.ProjectPair>, code: string)
    requires SourceEnds(src, bound)
    ensures code in AllFoundEntriesMap(src, bound, projects) <==> exists i :: 0 <= i < |projects| && projects[i].sourceCode == code
    ensures code in AllFoundEntriesMap(src, bound, projects) ==>
      AllFoundEntriesMap(src, bound, projects)[code] == ProjectAttachments(src, bound, code)
  {
    var key := (p: Utils.ProjectPair) => p.sourceCode;
    var val := (p: Utils.ProjectPair) => if SourceEnds(src, bound) then ProjectAttachments(src, bound, p.sourceCode) else Found({}, map[]);
    AllFoundIndexed(src, bound, projects, key, val);
    IndexLastWins(projects, key, val, code);
  }

  /** The plain map is the index of the projects by source code. */
  lemma {:induction false} AllFoundIndexed(src: Source, bound: nat, projects: seq<Utils.ProjectPair>,
                                           key: Utils.ProjectPair -> string, val: Utils.ProjectPair -> Found)
    requires SourceEnds(src, bound)
    requires forall p :: key(p) == p.sourceCode && val(p) == ProjectAttachments(src, bound, p.sourceCode)
    ensures AllFoundEntriesMap(src, bound, projects) == Index(projects, key, val)
  {
    if projects != [] {
      AllFoundIndexed(src, bound, projects[..|projects| - 1], key, val);
    }
  }
}
