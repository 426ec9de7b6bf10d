// migration/create/attachments.py: moving the attachments of every project to
// the target workspace once each. The target's existing hashes are collected
// first; then every distinct source hash is reused, matched in the target, or
// downloaded and uploaded; finally each project's hash table in the store is
// filled from the workspace-wide result.

module CreateAttachments {
  import opened Py
  import opened Dicts
  import opened Paging
  import opened Seqs
  import opened Utils
  import AttachmentText
  import EA = ExtractAttachments

  const Limit := 100
  const TeamSegment: string := "/public/team/"

  // -------------------------------------------- check_existing_attachments_in_target

  /**
   * `if att_hash: add(att_hash.lower())`: a falsy hash adds nothing, a string
   * is added lowercased, and anything else has no `lower` and raises.
   */
  function AddLowered(hashes: set<string>, h: Json): (set<string>, bool)
  {
    if !JTruthy(h) then (hashes, true)
    else if h.JStr? then (hashes + {Lower(h.s)}, true)
    else (hashes, false)
  }

  /**
   * One attachment item of a target case: a string is the hash, a dict gives
   * its 'hash' as it is, or else the hash in its 'url'. A 'url' that is not
   * a string makes `re.search` raise.
   */
  function ExistingItem(hashes: set<string>, item: Json): (set<string>, bool)
  {
    match item
    case JStr(_) => AddLowered(hashes, item)
    case JObject(es) =>
      (match JGet(es, "hash")
       case Some(h) => AddLowered(hashes, h)
       case None =>
         match JGet(es, "url")
         case None => (hashes, true)
         case Some(u) =>
           if !u.JStr? then (hashes, false)
           else match AttachmentText.Search(u.s, AttachmentText.Segment)
             case Some(h) => AddLowered(hashes, JStr(h))
             case None => (hashes, true))
    case _ => (hashes, true)
  }

  /** The body of the loop over one target case. */
  function ExistingCase(hashes: set<string>, c: Json): (set<string>, bool)
  {
    var atts := Field(ToDict(c), "attachments");
    if !JTruthy(atts) then (hashes, true)
    else match Iter(atts)
      case None => (hashes, false)
      case Some(items) => FoldStop(ExistingItem, hashes, items)
  }

  /** The cases listing of every target project ends (see `Ends`). */
  ghost predicate CasesEnd(cases: string -> nat -> Reply<seq<Json>>, bound: nat)
  {
    forall code :: Ends(cases(code), Limit, bound)
  }

  /** The existing hashes: per project, its target cases up to the first exception, which ends that project's loop. */
  function ExistingIn(cases: string -> nat -> Reply<seq<Json>>, bound: nat, projects: seq<ProjectPair>): set<string>
    requires CasesEnd(cases, bound)
  {
    if projects == [] then {}
    else
      var p := projects[|projects| - 1];
      FoldStop(ExistingCase, ExistingIn(cases, bound, projects[..|projects| - 1]),
               Items(ScanFrom(cases(p.targetCode), Limit, 0, bound))).0
  }

  /** `check_existing_attachments_in_target`; `cases` lists the cases of a target project. */
  method CheckExistingAttachmentsInTarget(cases: string -> nat -> Reply<seq<Json>>, ghost bound: nat,
                                          projects: seq<ProjectPair>)
    returns (existing: set<string>)
    requires CasesEnd(cases, bound)
    ensures existing == ExistingIn(cases, bound, projects)
  {
    existing := {};
    for i := 0 to |projects|
      invariant existing == ExistingIn(cases, bound, projects[..i])
    {
      assert projects[..i + 1][..i] == projects[..i];
      existing := FoldScan(cases(projects[i].targetCode), Limit, bound, ExistingCase, existing);
    }
    assert projects[..|projects|] == projects;
  }

  predicate AllLower(hashes: set<string>)
  {
    forall h :: h in hashes ==> Lower(h) == h
  }

  lemma ExistingItemLower(hashes: set<string>, item: Json)
    requires AllLower(hashes)
    ensures AllLower(ExistingItem(hashes, item).0)
  {
    forall h | h in ExistingItem(hashes, item).0 && h !in hashes ensures Lower(h) == h {
      var x :| Lower(x) == h;
      LowerIdempotent(x);
    }
  }

  lemma ExistingCaseLower(hashes: set<string>, c: Json)
    requires AllLower(hashes)
    ensures AllLower(ExistingCase(hashes, c).0)
  {
    var atts := Field(ToDict(c), "attachments");
    if JTruthy(atts) && Iter(atts).Some? {
      forall b: set<string>, x: Json | AllLower(b) ensures AllLower(ExistingItem(b, x).0) {
        ExistingItemLower(b, x);
      }
      FoldStopKeeps(ExistingItem, AllLower, hashes, Iter(atts).value);
    }
  }

  /**
   * Every existing hash is lowercased, whether it comes from a string item,
   * a dict's 'hash' or the hash in a dict's 'url'.
   */
  lemma {:induction false} ExistingLowered(cases: string -> nat -> Reply<seq<Json>>, bound: nat, projects: seq<ProjectPair>)
    requires CasesEnd(cases, bound)
    ensures forall h :: h in ExistingIn(cases, bound, projects) ==> Lower(h) == h
  {
    if projects != [] {
      var p := projects[|projects| - 1];
      ExistingLowered(cases, bound, projects[..|projects| - 1]);
      forall b: set<string>, x: Json | AllLower(b) ensures AllLower(ExistingCase(b, x).0) {
        ExistingCaseLower(b, x);
      }
      FoldStopKeeps(ExistingCase, AllLower, ExistingIn(cases, bound, projects[..|projects| - 1]),
                    Items(ScanFrom(cases(p.targetCode), Limit, 0, bound)));
    }
  }

  // ------------------------------------------------------------ upload_attachment

  /** The first item of an upload response: its hash and its URL, where it has them. */
  datatype UploadItem = UploadItem(hash: Option<string>, url: Option<string>)

  /** `not mappings.target_workspace_hash`. */
  predicate Unset(ws: Option<string>)
  {
    ws.None? || ws.value == ""
  }

  /**
   * The workspace hash after an upload whose URL is `url`: captured from
   * `/public/team/<hex>/` in the URL when there is none yet.
   */
  function CapturedWorkspace(ws: Option<string>, url: Option<string>): (r: Option<string>)
    ensures r != ws ==> Unset(ws) && url.Some? && AttachmentText.Search(url.value, TeamSegment) == r
    ensures Unset(ws) && url.Some? && AttachmentText.Search(url.value, TeamSegment).Some? ==>
      r == AttachmentText.Search(url.value, TeamSegment)
    ensures !Unset(ws) ==> r == ws
  {
    if url.Some? && url.value != "" && Unset(ws) then
      match AttachmentText.Search(url.value, TeamSegment)
      case Some(w) => Some(w)
      case None => ws
    else ws
  }

  /**
   * `upload_attachment`: `upload` is the answer of the remote upload (`None`
   * for an empty answer); the target hash is returned and the workspace hash
   * of the store may be captured.
   */
  method UploadAttachment(upload: Reply<Option<UploadItem>>, mappings: MigrationMappings)
    returns (targetHash: Reply<Option<string>>)
    modifies mappings`targetWorkspaceHash
    ensures upload.Raised? ==> targetHash == Raised(upload.exc)
    ensures upload == Ok(None) ==> targetHash == Ok(None)
    ensures upload.Ok? && upload.value.Some? ==> targetHash == Ok(upload.value.value.hash)
    ensures mappings.targetWorkspaceHash ==
      if upload.Ok? && upload.value.Some? then CapturedWorkspace(old(mappings.targetWorkspaceHash), upload.value.value.url)
      else old(mappings.targetWorkspaceHash)
  {
    if upload.Raised? {
      return Raised(upload.exc);
    }
    if upload.value.None? {
      return Ok(None);
    }
    var item := upload.value.value;
    if item.url.Some? && item.url.value != "" && Unset(mappings.targetWorkspaceHash) {
      var workspaceMatch := AttachmentText.Search(item.url.value, TeamSegment);
      if workspaceMatch.Some? {
        mappings.targetWorkspaceHash := workspaceMatch;
      }
    }
    return Ok(item.hash);
  }

  // ------------------------------------------------------ the per-hash decisions

  /** What `download_attachment` gives: the content (empty when nothing could be read) and a file name. */
  datatype Download = Download(content: seq<int>, filename: string)

  /**
   * The remote side of the target workspace: its cases listing per project
   * code; the answer of the `n`-th `get_attachment` call for a hash (the loop
   * asks once per project); the download of a source attachment by hash and
   * markdown URL; the upload of a file into a project; and the order in
   * which a set of hashes is iterated, which `SetOrder` constrains.
   */
  datatype Remote = Remote(
    cases: string -> nat -> Reply<seq<Json>>,
    check: string -> nat -> Reply<Json>,
    download: (string, Option<string>) -> Reply<Download>,
    upload: (string, string, seq<int>) -> Reply<Option<UploadItem>>,
    order: set<string> -> seq<string>)

  /** `xs` goes over the set `s`, visiting each of its members exactly once. */
  ghost predicate Enumerates(s: set<string>, xs: seq<string>)
  {
    multiset(xs) == multiset(s)
  }

  /** Iterating any set goes over it, in an order the model leaves open. */
  ghost predicate SetOrder(remote: Remote)
  {
    forall s :: Enumerates(s, remote.order(s))
  }

  /** What the decisions read and never change. */
  datatype Env = Env(
    stored: ODict<string, ODict<string, string>>,
    existing: set<string>,
    byCode: map<string, set<string>>,
    urls: map<string, string>,
    projects: seq<ProjectPair>,
    remote: Remote)

  /** What the loop over the hashes updates: the global mapping, the upload count and the workspace hash. */
  datatype Progress = Progress(mapping: map<string, string>, migrated: nat, workspace: Option<string>)

  /** The reuse test over the project tables `codes`, in store order: the lowercased hash first, then the raw one. */
  function MappedIn(stored: ODict<string, ODict<string, string>>, codes: seq<string>, lower: string, raw: string): Option<string>
    requires forall i :: 0 <= i < |codes| ==> codes[i] in stored.entries
  {
    if codes == [] then None
    else
      var table := stored.entries[codes[0]];
      if lower in table.entries then Some(table.entries[lower])
      else if raw in table.entries then Some(table.entries[raw])
      else MappedIn(stored, codes[1..], lower, raw)
  }

  /** The target an earlier migration recorded for the hash, if any project's table has it. */
  function Reused(stored: ODict<string, ODict<string, string>>, lower: string, raw: string): Option<string>
  {
    MappedIn(stored, stored.keys, lower, raw)
  }

  /** Whether one of the first `n` `get_attachment` calls for the hash answered something truthy. */
  function InTarget(check: string -> nat -> Reply<Json>, h: string, n: nat): bool
  {
    if n == 0 then false
    else InTarget(check, h, n - 1) || (check(h)(n - 1).Ok? && JTruthy(check(h)(n - 1).value))
  }

  /** The first project whose collected hashes contain the hash. */
  function SourceProject(byCode: map<string, set<string>>, projects: seq<ProjectPair>, h: string): (r: Option<ProjectPair>)
    ensures r.Some? ==> r.value in projects && r.value.sourceCode in byCode && h in byCode[r.value.sourceCode]
    ensures r.None? ==> forall p :: p in projects ==> !(p.sourceCode in byCode && h in byCode[p.sourceCode])
  {
    if projects == [] then None
    else
      var p := projects[0];
      if p.sourceCode in byCode && h in byCode[p.sourceCode] then Some(p)
      else
        var r := SourceProject(byCode, projects[1..], h);
        assert forall q :: q in projects ==> q == p || q in projects[1..];
        r
  }

  /** Download, upload, and the record of the new target hash, for hash `h` from project `sp`. */
  function Transfer(env: Env, p: Progress, h: string, sp: ProjectPair): Progress
  {
    match env.remote.download(h, if h in env.urls then Some(env.urls[h]) else None)
    case Raised(_) => p
    case Ok(d) =>
      if d.content == [] then p
      else match env.remote.upload(sp.targetCode, d.filename, d.content)
        case Raised(_) => p
        case Ok(None) => p
        case Ok(Some(item)) =>
          var ws := CapturedWorkspace(p.workspace, item.url);
          if item.hash.Some? && item.hash.value != "" then
            Progress(p.mapping[h := item.hash.value], p.migrated + 1, ws)
          else p.(workspace := ws)
  }

  /**
   * The decision for one hash of the global set: reuse a recorded target;
   * map a hash the target already has to itself; skip a hash no project
   * holds in lower case; otherwise transfer it.
   */
  function Decide(env: Env, p: Progress, raw: string): Progress
  {
    var h := Lower(raw);
    match Reused(env.stored, h, raw)
    case Some(t) => p.(mapping := p.mapping[h := t])
    case None =>
      if h in env.existing || InTarget(env.remote.check, h, |env.projects|) then p.(mapping := p.mapping[h := h])
      else match SourceProject(env.byCode, env.projects, h)
        case None => p
        case Some(sp) => if sp.sourceCode == "" then p else Transfer(env, p, h, sp)
  }

  /** The loop over the global set, in iteration order. */
  function Decided(env: Env, p: Progress, hashes: seq<string>): Progress
  {
    if hashes == [] then p
    else Decide(env, Decided(env, p, hashes[..|hashes| - 1]), hashes[|hashes| - 1])
  }

  // ------------------------------------------------------------ the projection

  /** The global target of a project hash: its lowercased form's, else its own; empty targets do not count. */
  function GlobalTarget(mapping: map<string, string>, h: string): Option<string>
  {
    if Lower(h) in mapping && mapping[Lower(h)] != "" then Some(mapping[Lower(h)])
    else if h in mapping && mapping[h] != "" then Some(mapping[h])
    else None
  }

  /** One project's table after its hashes: each mapped hash under its lowercased key, and under its raw key if different. */
  function Projected(table: ODict<string, string>, hashes: seq<string>, mapping: map<string, string>): ODict<string, string>
  {
    if hashes == [] then table
    else
      var t := Projected(table, hashes[..|hashes| - 1], mapping);
      var h := hashes[|hashes| - 1];
      match GlobalTarget(mapping, h)
      case None => t
      case Some(target) =>
        var lowered := Put(t, Lower(h), target);
        if Lower(h) != h then Put(lowered, h, target) else lowered
  }

  /** The store's attachment tables after the projection over `projects`. */
  function ProjectedAll(stored: ODict<string, ODict<string, string>>, env: Env, projects: seq<ProjectPair>,
                        mapping: map<string, string>): ODict<string, ODict<string, string>>
  {
    if projects == [] then stored
    else
      var a := ProjectedAll(stored, env, projects[..|projects| - 1], mapping);
      var code := projects[|projects| - 1].sourceCode;
      var withTable := if code in a.entries then a else Put(a, code, Empty());
      if code in env.byCode then
        Put(withTable, code, Projected(withTable.entries[code], env.remote.order(env.byCode[code]), mapping))
      else withTable
  }

  // --------------------------------------------------------- the whole function

  /** The hashes of the projects `codes`, per source code. */
  function ByCode(all: ODict<string, EA.Found>, codes: seq<string>): map<string, set<string>>
    requires forall i :: 0 <= i < |codes| ==> codes[i] in all.entries
  {
    if codes == [] then map[]
    else
      var code := codes[|codes| - 1];
      ByCode(all, codes[..|codes| - 1])[code := all.entries[code].hashes]
  }

  /** Every project of the collection is there, with its own hashes. */
  lemma {:induction false} ByCodeEntries(all: ODict<string, EA.Found>, codes: seq<string>, code: string)
    requires forall i :: 0 <= i < |codes| ==> codes[i] in all.entries
    ensures code in ByCode(all, codes) <==> code in codes
    ensures code in ByCode(all, codes) ==> ByCode(all, codes)[code] == all.entries[code].hashes
  {
    if codes != [] {
      var n := |codes| - 1;
      ByCodeEntries(all, codes[..n], code);
      assert codes == codes[..n] + [codes[n]];
    }
  }

  /** The union of the hashes of the projects `codes`. */
  function Union(all: ODict<string, EA.Found>, codes: seq<string>): set<string>
    requires forall i :: 0 <= i < |codes| ==> codes[i] in all.entries
  {
    if codes == [] then {} else Union(all, codes[..|codes| - 1]) + all.entries[codes[|codes| - 1]].hashes
  }

  /** The URL tables of the projects `codes`, merged in order: a later project's URL wins. */
  function MergedUrls(all: ODict<string, EA.Found>, codes: seq<string>): map<string, string>
    requires forall i :: 0 <= i < |codes| ==> codes[i] in all.entries
  {
    if codes == [] then map[] else MergedUrls(all, codes[..|codes| - 1]) + all.entries[codes[|codes| - 1]].urls
  }

  /** The environment the decisions run in, after both collection steps. */
  function EnvOf(src: EA.Source, bound: nat, remote: Remote, projects: seq<ProjectPair>,
                 stored: ODict<string, ODict<string, string>>): Env
    requires EA.SourceEnds(src, bound) && CasesEnd(remote.cases, bound)
  {
    var all := EA.AllFound(src, bound, projects);
    Env(stored, ExistingIn(remote.cases, bound, projects), ByCode(all, all.keys), MergedUrls(all, all.keys), projects, remote)
  }

  /** The global set: every hash of every project. */
  function GlobalSet(src: EA.Source, bound: nat, projects: seq<ProjectPair>): set<string>
    requires EA.SourceEnds(src, bound)
  {
    var all := EA.AllFound(src, bound, projects);
    Union(all, all.keys)
  }

  /**
   * `migrate_attachments_workspace`. The store's attachment tables become the
   * projection of the decisions, its workspace hash is the one the uploads
   * captured, and the stats record the number of distinct hashes and the
   * number uploaded.
   */
  method MigrateAttachmentsWorkspace(src: EA.Source, remote: Remote, ghost bound: nat, projects: seq<ProjectPair>,
                                     mappings: MigrationMappings, stats: MigrationStats)
    returns (r: ODict<string, ODict<string, string>>)
    requires EA.SourceEnds(src, bound) && CasesEnd(remote.cases, bound)
    requires SetOrder(remote)
    requires stats.Valid()
    modifies mappings`attachments, mappings`targetWorkspaceHash, stats
    ensures stats.Valid()
    ensures
      var env := EnvOf(src, bound, remote, projects, old(mappings.attachments));
      var global := GlobalSet(src, bound, projects);
      var done := Decided(env, Progress(map[], 0, old(mappings.targetWorkspaceHash)), remote.order(global));
      && mappings.attachments == ProjectedAll(old(mappings.attachments), env, projects, done.mapping)
      && mappings.targetWorkspaceHash == done.workspace
      && stats.processed == Accumulate(old(stats.processed), "attachments", |global|)
      && stats.created == Accumulate(old(stats.created), "attachments", done.migrated)
      && done.migrated <= |global|
      && (forall k :: k in done.mapping ==> exists h :: h in global && Lower(h) == k)
      && (forall h :: h in global && (Reused(env.stored, Lower(h), h).Some? || Lower(h) in env.existing) ==>
            Lower(h) in done.mapping)
    ensures r == mappings.attachments
  {
    var existing := CheckExistingAttachmentsInTarget(remote.cases, bound, projects);
    var all := EA.ExtractAllAttachmentHashes(src, bound, projects);
    var byCode, global, urls := Collect(all);
    var env := Env(mappings.attachments, existing, byCode, urls, projects, remote);
    assert env == EnvOf(src, bound, remote, projects, mappings.attachments);
    var totalUnique := |global|;
    var order := remote.order(global);
    var progress := Progress(map[], 0, mappings.targetWorkspaceHash);
    ghost var start := progress;
    for i := 0 to |order|
      invariant progress == Decided(env, start, order[..i])
      invariant mappings.targetWorkspaceHash == progress.workspace
      invariant mappings.attachments == env.stored
      invariant unchanged(stats)
    {
      assert order[..i + 1][..i] == order[..i];
      progress := DecideHash(env, progress, order[i], mappings);
    }
    assert order[..|order|] == order;
    GlobalDecidedBounds(env, start, global, order);
    forall h | h in global && (Reused(env.stored, Lower(h), h).Some? || Lower(h) in env.existing)
      ensures Lower(h) in progress.mapping
    {
      GlobalDecidedCovers(env, start, global, order, h);
    }
    var projected := ProjectAll(env, projects, progress.mapping, mappings.attachments);
    mappings.attachments := projected;
    stats.AddEntity("attachments", totalUnique, progress.migrated);
    return mappings.attachments;
  }

  /** The loop over the projects' collections: the hashes per code, their union, and the merged URLs. */
  method Collect(all: ODict<string, EA.Found>)
    returns (byCode: map<string, set<string>>, global: set<string>, urls: map<string, string>)
    ensures byCode == ByCode(all, all.keys) && global == Union(all, all.keys) && urls == MergedUrls(all, all.keys)
  {
    byCode, global, urls := map[], {}, map[];
    for i := 0 to |all.keys|
      invariant byCode == ByCode(all, all.keys[..i])
      invariant global == Union(all, all.keys[..i]) && urls == MergedUrls(all, all.keys[..i])
    {
      var code := all.keys[i];
      assert all.keys[..i + 1][..i] == all.keys[..i];
      byCode := byCode[code := all.entries[code].hashes];
      global := global + all.entries[code].hashes;
      urls := urls + all.entries[code].urls;
    }
    assert all.keys[..|all.keys|] == all.keys;
  }

  /** One turn of the loop over the global set. */
  method DecideHash(env: Env, p: Progress, raw: string, mappings: MigrationMappings) returns (next: Progress)
    requires mappings.targetWorkspaceHash == p.workspace
    modifies mappings`targetWorkspaceHash
    ensures next == Decide(env, p, raw)
    ensures mappings.targetWorkspaceHash == next.workspace
  {
    var h := Lower(raw);
    var reused := FindMapped(env.stored, h, raw);
    if reused.Some? {
      return p.(mapping := p.mapping[h := reused.value]);
    }
    if h in env.existing {
      return p.(mapping := p.mapping[h := h]);
    }
    var inTarget := AskTarget(env.remote.check, h, |env.projects|);
    if inTarget {
      return p.(mapping := p.mapping[h := h]);
    }
    var sp := FindSourceProject(env.byCode, env.projects, h);
    if sp.None? || sp.value.sourceCode == "" {
      return p;
    }
    var markdownUrl := if h in env.urls then Some(env.urls[h]) else None;
    var download := env.remote.download(h, markdownUrl);
    if download.Raised? || download.value.content == [] {
      return p;
    }
    var file := download.value;
    var targetHash := UploadAttachment(env.remote.upload(sp.value.targetCode, file.filename, file.content), mappings);
    next := p.(workspace := mappings.targetWorkspaceHash);
    if targetHash.Ok? && targetHash.value.Some? && targetHash.value.value != "" {
      next := Progress(p.mapping[h := targetHash.value.value], p.migrated + 1, mappings.targetWorkspaceHash);
    }
  }

  /** The loop over the project tables of the store, stopping at the first that has the hash. */
  method FindMapped(stored: ODict<string, ODict<string, string>>, lower: string, raw: string) returns (r: Option<string>)
    ensures r == Reused(stored, lower, raw)
  {
    var i := 0;
    while i < |stored.keys|
      invariant 0 <= i <= |stored.keys|
      invariant MappedIn(stored, stored.keys[i..], lower, raw) == Reused(stored, lower, raw)
    {
      var table := stored.entries[stored.keys[i]];
      assert stored.keys[i..][0] == stored.keys[i] && stored.keys[i..][1..] == stored.keys[i + 1..];
      if lower in table.entries {
        return Some(table.entries[lower]);
      }
      if raw in table.entries {
        return Some(table.entries[raw]);
      }
      i := i + 1;
    }
    return None;
  }

  /** The loop that asks the target for the hash once per project, stopping at a truthy answer. */
  method AskTarget(check: string -> nat -> Reply<Json>, h: string, n: nat) returns (found: bool)
    ensures found == InTarget(check, h, n)
  {
    found := false;
    for i := 0 to n
      invariant found == InTarget(check, h, i)
    {
      var response := check(h)(i);
      if response.Ok? && JTruthy(response.value) {
        InTargetGrows(check, h, i + 1, n);
        return true;
      }
    }
  }

  lemma {:induction false} InTargetGrows(check: string -> nat -> Reply<Json>, h: string, m: nat, n: nat)
    requires m <= n && InTarget(check, h, m)
    ensures InTarget(check, h, n)
    decreases n - m
  {
    if m < n {
      InTargetGrows(check, h, m + 1, n);
    }
  }

  /** The loop over the projects looking for one that holds the hash. */
  method FindSourceProject(byCode: map<string, set<string>>, projects: seq<ProjectPair>, h: string)
    returns (r: Option<ProjectPair>)
    ensures r == SourceProject(byCode, projects, h)
  {
    var i := 0;
    while i < |projects|
      invariant 0 <= i <= |projects|
      invariant SourceProject(byCode, projects[i..], h) == SourceProject(byCode, projects, h)
    {
      assert projects[i..][0] == projects[i] && projects[i..][1..] == projects[i + 1..];
      var code := projects[i].sourceCode;
      if code in byCode && h in byCode[code] {
        return Some(projects[i]);
      }
      i := i + 1;
    }
    return None;
  }

  /** The loop over the projects that fills the store's tables. */
  method ProjectAll(env: Env, projects: seq<ProjectPair>, mapping: map<string, string>,
                    stored: ODict<string, ODict<string, string>>)
    returns (a: ODict<string, ODict<string, string>>)
    ensures a == ProjectedAll(stored, env, projects, mapping)
  {
    a := stored;
    for i := 0 to |projects|
      invariant a == ProjectedAll(stored, env, projects[..i], mapping)
    {
      assert projects[..i + 1][..i] == projects[..i];
      var code := projects[i].sourceCode;
      if code !in a.entries {
        a := Put(a, code, Empty());
      }
      if code in env.byCode {
        var table := ProjectHashes(a.entries[code], env.remote.order(env.byCode[code]), mapping);
        a := Put(a, code, table);
      }
    }
    assert projects[..|projects|] == projects;
  }

  /** The loop over one project's hashes. */
  method ProjectHashes(table: ODict<string, string>, hashes: seq<string>, mapping: map<string, string>)
    returns (t: ODict<string, string>)
    ensures t == Projected(table, hashes, mapping)
  {
    t := table;
    for j := 0 to |hashes|
      invariant t == Projected(table, hashes[..j], mapping)
    {
      assert hashes[..j + 1][..j] == hashes[..j];
      var h := hashes[j];
      var normalized := Lower(h);
      var target := if normalized in mapping && mapping[normalized] != "" then Some(mapping[normalized])
                    else if h in mapping && mapping[h] != "" then Some(mapping[h]) else None;
      if target.Some? {
        t := Put(t, normalized, target.value);
        if normalized != h {
          t := Put(t, h, target.value);
        }
      }
    }
    assert hashes[..|hashes|] == hashes;
  }

  // -------------------------------------------------------------- properties

  /**
   * The reuse test finds a target exactly when some project table of the
   * store has the lowercased or the raw hash, and it takes the first such
   * table in store order, preferring the lowercased key.
   */
  lemma {:induction false} MappedInFirst(stored: ODict<string, ODict<string, string>>, codes: seq<string>, lower: string, raw: string)
    requires forall i :: 0 <= i < |codes| ==> codes[i] in stored.entries
    ensures MappedIn(stored, codes, lower, raw).Some? <==>
      exists i :: 0 <= i < |codes| && Holds(stored.entries[codes[i]], lower, raw)
    ensures MappedIn(stored, codes, lower, raw).Some? ==>
      exists i :: 0 <= i < |codes| && Holds(stored.entries[codes[i]], lower, raw)
        && (forall j :: 0 <= j < i ==> !Holds(stored.entries[codes[j]], lower, raw))
        && MappedIn(stored, codes, lower, raw) == Some(Pick(stored.entries[codes[i]], lower, raw))
  {
    if codes != [] {
      var rest := codes[1..];
      MappedInFirst(stored, rest, lower, raw);
      assert forall i :: 0 <= i < |rest| ==> rest[i] == codes[i + 1];
      if !Holds(stored.entries[codes[0]], lower, raw) && MappedIn(stored, rest, lower, raw).Some? {
        var i :| 0 <= i < |rest| && Holds(stored.entries[rest[i]], lower, raw)
          && (forall j :: 0 <= j < i ==> !Holds(stored.entries[rest[j]], lower, raw))
          && MappedIn(stored, rest, lower, raw) == Some(Pick(stored.entries[rest[i]], lower, raw));
        assert forall j :: 0 <= j < i + 1 ==> !Holds(stored.entries[codes[j]], lower, raw);
      }
    }
  }

  /** A table that has the hash in lowercased or raw form. */
  predicate Holds(table: ODict<string, string>, lower: string, raw: string)
  {
    lower in table.entries || raw in table.entries
  }

  /** The target such a table gives: the lowercased key's first. */
  function Pick(table: ODict<string, string>, lower: string, raw: string): string
    requires Holds(table, lower, raw)
  {
    if lower in table.entries then table.entries[lower] else table.entries[raw]
  }

  /**
   * The workspace hash changes at most once over the loop: a set one stays,
   * and a new one is what `/public/team/<hex>/` matched in an upload URL.
   */
  lemma {:induction false} WorkspaceCapturedOnce(env: Env, p: Progress, hashes: seq<string>)
    ensures !Unset(p.workspace) ==> Decided(env, p, hashes).workspace == p.workspace
    ensures Decided(env, p, hashes).workspace != p.workspace ==>
      Unset(p.workspace) && exists url :: AttachmentText.Search(url, TeamSegment) == Decided(env, p, hashes).workspace
  {
    if hashes != [] {
      var before := Decided(env, p, hashes[..|hashes| - 1]);
      WorkspaceCapturedOnce(env, p, hashes[..|hashes| - 1]);
      DecideWorkspace(env, before, hashes[|hashes| - 1]);
    }
  }

  lemma DecideWorkspace(env: Env, p: Progress, raw: string)
    ensures !Unset(p.workspace) ==> Decide(env, p, raw).workspace == p.workspace
    ensures Decide(env, p, raw).workspace != p.workspace ==>
      Unset(p.workspace) && exists url :: AttachmentText.Search(url, TeamSegment) == Decide(env, p, raw).workspace
  {
    var r := Decide(env, p, raw);
    if r.workspace != p.workspace {
      var h := Lower(raw);
      var sp := SourceProject(env.byCode, env.projects, h).value;
      var d := env.remote.download(h, if h in env.urls then Some(env.urls[h]) else None).value;
      var item := env.remote.upload(sp.targetCode, d.filename, d.content).value.value;
      assert r.workspace == CapturedWorkspace(p.workspace, item.url);
      assert AttachmentText.Search(item.url.value, TeamSegment) == r.workspace;
    }
  }

  /**
   * The decision chain for one hash: a recorded target is reused, and a hash
   * the target already has maps to itself, both without a transfer; a hash no
   * project holds, or whose download is empty, is skipped; only an upload that
   * answers a hash counts, and no key but the lowercased hash changes.
   */
  lemma DecideChain(env: Env, p: Progress, raw: string)
    ensures var h := Lower(raw);
      var d := Decide(env, p, raw);
      var reused := Reused(env.stored, h, raw);
      && (reused.Some? ==> d == p.(mapping := p.mapping[h := reused.value]))
      && (reused.None? && (h in env.existing || InTarget(env.remote.check, h, |env.projects|)) ==>
            d == p.(mapping := p.mapping[h := h]))
      && (reused.None? && h !in env.existing && !InTarget(env.remote.check, h, |env.projects|) ==>
            && (SourceProject(env.byCode, env.projects, h).None? ==> d == p)
            && (SourceProject(env.byCode, env.projects, h).Some? ==>
                  var sp := SourceProject(env.byCode, env.projects, h).value;
                  var download := env.remote.download(h, if h in env.urls then Some(env.urls[h]) else None);
                  sp.sourceCode != "" && download.Ok? && download.value.content == [] ==> d == p))
      && p.migrated <= d.migrated <= p.migrated + 1
      && (d.migrated == p.migrated + 1 ==> reused.None? && h !in env.existing && h in d.mapping && d.mapping[h] != "")
      && (forall k :: k != h ==> (k in d.mapping <==> k in p.mapping))
      && (forall k :: k != h && k in p.mapping ==> d.mapping[k] == p.mapping[k])
  {
  }

  /**
   * Only uploads count, at most one per hash, and every key the loop adds to
   * the global mapping is the lowercased form of a hash it went over.
   */
  lemma {:induction false} DecidedBounds(env: Env, p: Progress, hashes: seq<string>, k: string)
    ensures p.migrated <= Decided(env, p, hashes).migrated <= p.migrated + |hashes|
    ensures k in Decided(env, p, hashes).mapping ==> k in p.mapping || exists i :: 0 <= i < |hashes| && Lower(hashes[i]) == k
  {
    if hashes != [] {
      var n := |hashes| - 1;
      DecidedBounds(env, p, hashes[..n], k);
      if k in Decided(env, p, hashes[..n]).mapping && k !in p.mapping {
        var i :| 0 <= i < n && Lower(hashes[..n][i]) == k;
        assert hashes[..n][i] == hashes[i];
      }
    }
  }

  /**
   * The loop over a set: at most one upload per member of the set, and every
   * key it adds is the lowercased form of a member.
   */
  lemma GlobalDecidedBounds(env: Env, p: Progress, s: set<string>, xs: seq<string>)
    requires Enumerates(s, xs)
    ensures Decided(env, p, xs).migrated <= p.migrated + |s|
    ensures forall k :: k in Decided(env, p, xs).mapping ==> k in p.mapping || exists h :: h in s && Lower(h) == k
  {
    forall k | k in Decided(env, p, xs).mapping
      ensures k in p.mapping || exists h :: h in s && Lower(h) == k
    {
      DecidedBounds(env, p, xs, k);
      if k !in p.mapping {
        var i :| 0 <= i < |xs| && Lower(xs[i]) == k;
        assert xs[i] in multiset(xs);
        assert xs[i] in s;
      }
    }
    DecidedBounds(env, p, xs, "");
    assert |xs| == |multiset(xs)| == |multiset(s)| == |s|;
  }

  /** A decision never removes a key. */
  lemma DecideGrows(env: Env, p: Progress, raw: string, k: string)
    requires k in p.mapping
    ensures k in Decide(env, p, raw).mapping
  {
  }

  /** The loop never removes a key. */
  lemma {:induction false} DecidedGrows(env: Env, p: Progress, hashes: seq<string>, k: string)
    requires k in p.mapping
    ensures k in Decided(env, p, hashes).mapping
  {
    if hashes != [] {
      DecidedGrows(env, p, hashes[..|hashes| - 1], k);
      DecideGrows(env, Decided(env, p, hashes[..|hashes| - 1]), hashes[|hashes| - 1], k);
    }
  }

  /**
   * Every member of the set is decided: one already recorded in a project
   * table, or one the target already holds, ends up mapped under its
   * lowercased form, whatever the iteration order.
   */
  lemma GlobalDecidedCovers(env: Env, p: Progress, s: set<string>, xs: seq<string>, h: string)
    requires Enumerates(s, xs) && h in s
    requires Reused(env.stored, Lower(h), h).Some? || Lower(h) in env.existing
    ensures Lower(h) in Decided(env, p, xs).mapping
  {
    assert h in multiset(s);
    assert h in multiset(xs);
    var i :| 0 <= i < |xs| && xs[i] == h;
    DecidedCovers(env, p, xs, i);
  }

  /** A hash the loop goes over that is reused or already in the target stays mapped to the end. */
  lemma {:induction false} DecidedCovers(env: Env, p: Progress, xs: seq<string>, i: nat)
    requires i < |xs|
    requires Reused(env.stored, Lower(xs[i]), xs[i]).Some? || Lower(xs[i]) in env.existing
    ensures Lower(xs[i]) in Decided(env, p, xs).mapping
  {
    var n := |xs| - 1;
    var pre := Decided(env, p, xs[..n]);
    if i < n {
      assert xs[..n][i] == xs[i];
      DecidedCovers(env, p, xs[..n], i);
      DecideGrows(env, pre, xs[n], Lower(xs[i]));
    } else {
      assert Lower(xs[i]) in Decide(env, pre, xs[i]).mapping;
    }
  }

  /** Keys only grow under the projection, and a key no hash names keeps its entry. */
  lemma {:induction false} ProjectedKeeps(table: ODict<string, string>, hashes: seq<string>, mapping: map<string, string>, k: string)
    ensures k in table.entries ==> k in Projected(table, hashes, mapping).entries
    ensures (forall i :: 0 <= i < |hashes| ==> Lower(hashes[i]) != k && hashes[i] != k) ==>
      (k in Projected(table, hashes, mapping).entries <==> k in table.entries)
      && (k in table.entries ==> Projected(table, hashes, mapping).entries[k] == table.entries[k])
  {
    if hashes != [] {
      var n := |hashes| - 1;
      ProjectedKeeps(table, hashes[..n], mapping, k);
      assert forall i :: 0 <= i < n ==> hashes[..n][i] == hashes[i];
    }
  }

  /** Every hash with a global target ends up under its lowercased key. */
  lemma {:induction false} ProjectedCovers(table: ODict<string, string>, hashes: seq<string>, mapping: map<string, string>, i: nat)
    requires i < |hashes| && GlobalTarget(mapping, hashes[i]).Some?
    ensures Lower(hashes[i]) in Projected(table, hashes, mapping).entries
    ensures hashes[i] in Projected(table, hashes, mapping).entries
  {
    var n := |hashes| - 1;
    if i < n {
      ProjectedCovers(table, hashes[..n], mapping, i);
      ProjectedKeeps(Projected(table, hashes[..n], mapping), [hashes[n]], mapping, Lower(hashes[i]));
      ProjectedKeeps(Projected(table, hashes[..n], mapping), [hashes[n]], mapping, hashes[i]);
      assert [hashes[n]][..0] == [];
    }
  }

  /**
   * A lowercased key with a target of its own in the global mapping holds
   * that target once any hash with that lowercased form has been projected.
   */
  lemma {:induction false} ProjectedLowerTarget(table: ODict<string, string>, hashes: seq<string>, mapping: map<string, string>, k: string, i: nat)
    requires Lower(k) == k && k in mapping && mapping[k] != ""
    requires i < |hashes| && Lower(hashes[i]) == k
    ensures k in Projected(table, hashes, mapping).entries && Projected(table, hashes, mapping).entries[k] == mapping[k]
  {
    var n := |hashes| - 1;
    var h := hashes[n];
    var t := Projected(table, hashes[..n], mapping);
    if Lower(h) == k {
      assert GlobalTarget(mapping, h) == Some(mapping[k]);
    } else {
      ProjectedLowerTarget(table, hashes[..n], mapping, k, i);
      assert h != k;
      ProjectedCovers(table, hashes[..n], mapping, i);
      assert k in t.entries;
    }
  }

  /** The global set holds exactly the hashes of the collected projects. */
  lemma {:induction false} UnionMembers(all: ODict<string, EA.Found>, codes: seq<string>, h: string)
    requires forall i :: 0 <= i < |codes| ==> codes[i] in all.entries
    ensures h in Union(all, codes) <==> exists i :: 0 <= i < |codes| && h in all.entries[codes[i]].hashes
  {
    if codes != [] {
      var n := |codes| - 1;
      UnionMembers(all, codes[..n], h);
      assert forall i :: 0 <= i < n ==> codes[..n][i] == codes[i];
    }
  }
}
