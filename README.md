# qase-workspace-migration, modelled in Dafny

The system copies a whole Qase test-management workspace from one instance to
another. It first extracts projects, users, groups, suites, cases, runs,
results and attachments through the Qase API and the SCIM API of the source
instance. It then recreates them on the target instance. A store of
source-to-target id tables (`MigrationMappings`) and a table of counters
(`MigrationStats`) carry the state from one migration step to the next.

The model is a set of Dafny modules, one per source file of the core:

- `Utils` holds the mapping store and statistics as classes whose fields the
  operations update in place. It also holds the retry policy
  (`retry_with_backoff`), `chunks`, `preserve_or_hash_id` and the
  UUID-to-string conversion.
- `AttachmentText` rewrites attachment URLs and hashes in free text. It
  models the two regular-expression passes of `replace_attachment_hashes_in_text`
  character by character, and proves that they find and replace exactly the
  mapped hashes.
- `Extract`, `ExtractRuns`, `ExtractAuthors`, `ExtractGroups` and
  `ExtractAttachments` model the extractors. Each is a scan over pages
  fetched from an oracle, and each is proved against a specification
  function over the sequence of pages.
- `Create*` model the per-entity migrators: projects, users, groups,
  custom fields, configurations, environments, shared parameters, shared
  steps, suites, milestones, cases, plans, runs, results, defects and
  attachments. Every remote call is an oracle function from a request to a
  reply, which is either a response or a raised exception. The methods are
  proved to build exactly the mapping a specification function gives and to
  leave the store and the statistics in a stated state.
- `Scim` models the SCIM client: its base URL, its retry loop for HTTP 429,
  its paging and its create and patch calls.
- `QaseService` models the host names and URLs the service derives from its
  settings.
- `MigrateWorkspace` models `parse_args` and the orchestration in `main`:
  the order of the steps, how each step's failure is absorbed, and the
  checkpoint written after each step.
- `Py`, `Dicts`, `Seqs`, `Steps` and `Paging` are supporting modules. They
  provide Python values and exceptions, insertion-ordered dictionaries,
  sequence folds, the shapes of a step, and paged scans.

Some calls in the code go to members that do not exist: `mappings.get_user_id`
and the raw client's `create_results_bulk`, `create_defect` and
`resolve_defect`. Two calls in `main` pass more arguments than the callee
accepts (`migrate_users` and `migrate_results`). The model takes each of these
calls as a parameter, an oracle from the request to its reply, so the
surrounding logic is stated for any answer. A companion lemma then plugs in
the exception Python raises and states what the code as written does:
`Utils.TargetUserAsWritten`, `CreateResults.BulkAsWritten`,
`CreateDefects.CreateAsWritten`, `MigrateWorkspace.UsersAsWritten` and
`MigrateWorkspace.ResultsAsWritten`. The two store tables that are never
initialised, `mappings.defects` and `mappings.result_hashes`, raise
`AttributeError` in the model itself.

## Model

| member | source | states |
|---|---|---|
| Utils.MergeInto | migration/create/cases.py:486-488 | the merge every migrator ends with: the project's table gains the new entries, which win over older ones; older entries and other projects' tables stay |
| Utils.TargetUser | migration/create/runs.py:94-106 | a falsy id, an id `int()` rejects, and the id 0 give user 1; otherwise the store's user lookup answers, and its ValueError or TypeError also gives 1 |
| Utils.TargetUserAsWritten | migration/create/runs.py:99-104 | the store has no `get_user_id`, so every non-zero integer author id raises AttributeError |
| Utils.Saved | migration/utils.py:42-61 | a checkpoint holds the fourteen tables and no workspace hash |
| Utils.LoadAfterSave | migration/utils.py:63-85 | reloading a checkpoint restores every saved table, sets the workspace hash to None and leaves the unsaved attributes as they were |
| Utils.SaveLoadSave | migration/utils.py:42-85 | saving what was just loaded from a checkpoint writes the same checkpoint |
| Utils.MigrationMappings.constructor | migration/utils.py:25-40 | a new store has every table empty and no workspace hash |
| Utils.MigrationMappings.SetValue | migration/utils.py:25-40 | the store's content becomes the given one, attribute by attribute |
| Utils.MigrationMappings.SaveToFile | migration/utils.py:42-61 | the file written is the checkpoint of the current content |
| Utils.MigrationMappings.LoadFromFile | migration/utils.py:63-85 | a missing file changes nothing; otherwise every table is the file's entry or {} when the key is missing, and the workspace hash is the file's or None |
| Utils.Accumulate | migration/utils.py:95-102 | the first record of a kind stores the count, a later one adds to it, and other kinds keep their counts |
| Utils.AccumulateTwice | migration/utils.py:95-102 | two records of a kind add up to one record of the sums |
| Utils.MigrationStats.constructor | migration/utils.py:90-93 | both counters start empty |
| Utils.MigrationStats.AddEntity | migration/utils.py:95-102 | processed and created counts accumulate independently per kind, and both tables keep the same kinds |
| Utils.RetryFrom | migration/utils.py:204-254 | the attempts from a given one on make at least one and at most the remaining calls, and a raised outcome is what the last call raised |
| Utils.RetryWithBackoff | migration/utils.py:189-254 | the loop calls the function at most `max_retries` times and sleeps once before every call but the first, the i-th sleep being `base_delay * 2^i`; its outcome is the retry policy's |
| Utils.RetryExhausts | migration/utils.py:204-250 | a function that always fails with 429, a status of 500 or more, or a non-API exception is called `max_retries` times and the last exception propagates |
| Utils.RetryReturnsFirstSuccess | migration/utils.py:204-207 | the first successful result is returned as it is, after as many calls as it took |
| Utils.RetryRaisesClientError | migration/utils.py:215-243 | any other API error that is not an attachment 404 is raised after one call |
| Utils.RetrySwallowsMissingAttachment | migration/utils.py:216-233 | a 404 whose body mentions an attachment, or whose function name does, gives None after one call; a body that parses as JSON is searched as `str()` of the parsed value, any other body as it is |
| Utils.DecodedBodyMentionsAttachment | migration/utils.py:216-225 | a JSON body `"\u0061ttachment"` is searched after decoding, so the 404 gives None after one call |
| Utils.ChunksOfPartition | migration/utils.py:319-331 | chunks concatenate back to the list; each is non-empty and at most n long, and only the last may be shorter |
| Utils.Chunks | migration/utils.py:319-331 | a size of 0 raises ValueError, a negative size yields no chunk, and a positive one yields the partition above |
| Utils.ConvertUuids | migration/utils.py:380-397 | no UUID is left; the shape of dicts and lists is kept, UUIDs become their text and every other leaf is unchanged |
| Utils.ConvertUuidsKeepsUuidFree | migration/utils.py:380-397 | a value without UUIDs is returned unchanged, so the conversion is idempotent |
| Utils.PreserveOrHashId | migration/utils.py:132-150 | the result never exceeds the 32-bit maximum; an id within range is kept when preserving, an id out of range becomes its digest prefix modulo the maximum |
| AttachmentText.SegmentAt | migration/transform/attachments.py:32-33 | a match is the literal (any case), a run of 32 to 64 hex digits and a '/' |
| AttachmentText.FindAll | migration/transform/attachments.py:33 | every found hash is 32 to 64 hex digits and was captured by a match in the text |
| AttachmentText.TextHashFacts | migration/transform/attachments.py:24-38 | every hash collected from a text is lower-case hex of length 32 to 64 and occurs in the text as `/attachment/<hash>/` |
| AttachmentText.TextHashesEmpty | migration/transform/attachments.py:24-25 | the empty text holds no hash |
| AttachmentText.ExtractHashesFromText | migration/transform/attachments.py:11-38 | an empty or non-string input gives the empty set; otherwise the set of the lowercased matches, each lower-case hex of length 32 to 64 occurring in the text |
| AttachmentText.LastUrlSegment | migration/transform/attachments.py:60 | the greedy URL part ends at the last `/attachment/` segment before the closing parenthesis |
| AttachmentText.FindImageLinks | migration/transform/attachments.py:60-61 | every captured link starts with https:// (any case), holds no ')' and carries a 32 to 64 hex-digit hash |
| AttachmentText.ImageLinkFacts | migration/transform/attachments.py:60 | one captured image link is an https URL without ')' and a 32 to 64 hex-digit hash |
| AttachmentText.UrlMapLastWins | migration/transform/attachments.py:62-64 | the URL table's keys are exactly the links' hashes, each holding the URL of the last link with that hash |
| AttachmentText.ExtractUrlsFromText | migration/transform/attachments.py:41-65 | an empty or non-string input gives {}; otherwise only https URLs inside image links are captured, keyed by the hash as written and not lowercased |
| AttachmentText.TextsHashesMembers | migration/transform/attachments.py:79-112 | a hash of a field's texts comes from one of its string texts, and each such hash is collected |
| AttachmentText.FieldsHashesMembers | migration/transform/attachments.py:79-112 | a hash is collected iff it occurs in a text of one of the listed fields |
| AttachmentText.ExtractHashesFromTexts | migration/transform/attachments.py:86-110 | the loop over one field's texts collects the union of their hashes |
| AttachmentText.ExtractHashesFromDict | migration/transform/attachments.py:68-112 | the union over the listed fields only, reading strings, list items that are strings or dicts with 'value', and dicts with 'value'; every hash is lower-case hex of length 32 to 64 |
| AttachmentText.FieldHashFacts | migration/transform/attachments.py:68-112 | every hash collected from a dict is lower-case hex of length 32 to 64 |
| AttachmentText.FieldsUrlsFrom | migration/transform/attachments.py:115-151 | every URL collected from a dict comes from an https image link in a text of a listed field, under that link's hash |
| AttachmentText.TextsUrlsFrom | migration/transform/attachments.py:121-149 | every URL collected from a field's texts comes from an image link in one of them |
| AttachmentText.LookupHash | migration/transform/attachments.py:179-216 | the value for the lowercased hash when it is truthy, else the value of the first key whose lowercase form equals it; an empty value counts as unmapped |
| AttachmentText.LookupHashNoCiKey | migration/transform/attachments.py:183-190 | a hash with no case-insensitive key in the mapping is unmapped |
| AttachmentText.TeamUrlAt | migration/transform/attachments.py:173 | a matched team URL has https://, a host, `/public/team/`, a workspace hash, `/attachment/` in any case, a 32 to 64 hex-digit hash and a suffix starting with '/' |
| AttachmentText.ReplaceHashes | migration/transform/attachments.py:154-222 | an empty or non-string text, or an empty mapping, is returned unchanged; a string stays a string |
| AttachmentText.ReplaceUnmappedUnchanged | migration/transform/attachments.py:183-220 | a text whose matched hashes all lack a case-insensitive key comes back byte for byte |
| AttachmentTextShapes.ReplaceLoneSegment | migration/transform/attachments.py:204-222 | a lone `/attachment/<hash>/` whose hash is mapped becomes `/attachment/<target>/` |
| AttachmentTextShapes.SubTeamUrlText | migration/transform/attachments.py:175-201 | the full-URL pass on a team URL keeps prefix, `/attachment/` and suffix, replaces a mapped hash, and puts the target workspace hash in when one is given; an unmapped URL is left as it is |
| Paging.ScanOffsets | migration/extract/cases.py:28-47 | page i of a scan is the non-empty answer at offset `i * limit` past the start |
| Paging.ScanFullPages | migration/extract/cases.py:45-47 | every page but the last is full |
| Paging.ScanStops | migration/extract/cases.py:39-46 | a scan ends at an exception, an empty page or a short page, and at nothing else |
| Paging.ItemsPrefixed | migration/extract/cases.py:43 | the entities read are the earlier pages' followed by the remaining scan's |
| Paging.JoinLast | migration/extract/cases.py:39-46 | a last answer that raises, is empty or is short ends the scan with its exception or its entities |
| Paging.JoinStep | migration/extract/cases.py:45-47 | after a full page the scan goes on at the next offset, which is below the bound |
| Paging.ItemsAt | migration/extract/cases.py:30-47 | one turn of the loop, seen from its offset: the entities read from 0 are those read so far, this page's and the rest of the scan's |
| Paging.ReadAll | migration/extract/cases.py:28-47 | the offset/limit loop returns every entity of the scan in order, or the first exception |
| Paging.FoldScan | migration/extract/attachments.py:36-102 | a paging loop inside a `try` whose body handles each entity ends at the first exception and keeps what was collected before it |
| ExtractCases.ExtractCases | migration/extract/cases.py:13-50 | the cases are the scan's entities in order, or the listing's exception |
| ExtractProjects.ExtractProjects | migration/extract/projects.py:13-61 | the projects are the scan's entities that `only_projects` selects, in order, or the listing's exception |
| ExtractProjects.SelectFrom | migration/extract/projects.py:44-53 | the selection loop over one page extends the filtered list by that page's selected projects |
| ExtractProjects.KeptProjects | migration/extract/projects.py:45-51 | with a non-empty `only_projects` a project is kept iff its code is listed, a missing code counting as "UNKNOWN" |
| ExtractUsers.ExtractUsers | migration/extract/users.py:13-49 | the email-to-id table of every user the scan read, or the listing's exception |
| Paging.IndexPage | migration/extract/users.py:39-41 | one page overwrites the table entry of each of its users' emails (the loop over a page, for any key and value) |
| ExtractUsers.UsersByEmail | migration/extract/users.py:39-41 | an email is a key iff some user has it, and it holds the id of the last such user; the table has at most as many keys as users |
| ExtractSharedSteps.ExtractSharedSteps | migration/extract/shared_steps.py:13-55 | the shared steps with a hash, in order, or the listing's exception |
| ExtractSharedSteps.KeepHashed | migration/extract/shared_steps.py:43-47 | one page extends the list by its steps that have a hash |
| ExtractSharedSteps.KeptSteps | migration/extract/shared_steps.py:45-47 | a step is kept iff it was listed and has a hash |
| ExtractSuites.ExtractSuites | migration/extract/suites.py:13-63 | the two tables built from every suite the scan read, or the listing's exception |
| ExtractSuites.TablesStep | migration/extract/suites.py:47-55 | a suite with an id is stored under its id and appended to its parent's child list; one without an id changes nothing |
| ExtractSuites.AddSuites | migration/extract/suites.py:47-55 | one page extends both tables by its suites |
| ExtractSuites.AllSuitesContents | migration/extract/suites.py:48-51 | `all_suites` holds exactly the ids of the suites that have one, each under its own id |
| ExtractSuites.ParentChildContents | migration/extract/suites.py:52-55 | a parent is a key iff some suite with an id names it, and its list holds those suites' ids in listing order |
| ExtractRuns.ExtractRuns | migration/extract/runs.py:13-49 | the runs are the scan's entities in order, or the listing's exception |
| ExtractRuns.Target | migration/extract/runs.py:102-104 | a case id that yields a target yields a truthy value of the case mapping |
| ExtractRuns.MappedTargetsRaised | migration/extract/runs.py:103-130 | once an `int()` of a case id raises, later items change nothing |
| ExtractRuns.MappedTargetsOk | migration/extract/runs.py:103-130 | when the collection succeeds, every item's lookup succeeded |
| ExtractRuns.MappedTargetsMembers | migration/extract/runs.py:102-132 | a target is collected iff some item's case id maps to it, and it is a truthy value of the case mapping |
| ExtractRuns.ExtractRunCases | migration/extract/runs.py:52-145 | the run's case list is read first; a TypeError mentioning the keyword falls back to the paged tests; any other failure gives [] |
| ExtractRuns.FromTests | migration/extract/runs.py:109-141 | the fallback returns the mapped targets of the tests read, deduplicated in first-seen order, or [] on an exception |
| ExtractRuns.TestsStop | migration/extract/runs.py:121-138 | an exception at a page gives [], an empty page ends with the targets collected so far |
| ExtractRuns.TestsPage | migration/extract/runs.py:122-136 | one page of tests: a failing lookup gives [], a short page ends with the deduplicated targets, a full page goes on at the next offset |
| ExtractRuns.AddTargets | migration/extract/runs.py:126-132 | the loop over one page extends the deduplicated target list by that page's new mapped targets |
| ExtractRuns.AddTargetStep | migration/extract/runs.py:128-132 | one item adds its target only when it is mapped and not already listed |
| ExtractRuns.TargetOf | migration/extract/runs.py:102-104 | the lookup of one case id is the `Target` rule |
| ExtractRuns.RunCasesMapped | migration/extract/runs.py:52-145 | the run's case list has no duplicates and holds only truthy mapped targets |
| ExtractAuthors.ApiToken | migration/extract/authors.py:26-32 | a non-dict API key gives None; a truthy token is one of TokenAuth, Token and token, in that order |
| ExtractAuthors.ApiBase | migration/extract/authors.py:42-44 | the base is the host without trailing slashes, with `/v1` appended unless it already ends with it |
| ExtractAuthors.Listed | migration/extract/authors.py:61-68 | a page is read only from a 200 response whose body parses |
| ExtractAuthors.AuthorEntry | migration/extract/authors.py:71-75 | an author with a truthy uuid and id is stored as uuid to `int(id)`; one without is skipped |
| ExtractAuthors.Record | migration/extract/authors.py:71-75 | recording a page succeeds iff every author's entry can be computed |
| ExtractAuthors.RecordContents | migration/extract/authors.py:71-75 | recording keeps every earlier author, and a uuid present afterwards was there before or comes from the page |
| ExtractAuthors.AuthorsStep | migration/extract/authors.py:49-92 | an unreadable page stops the loop with the table so far; a last page is recorded and stops it; otherwise the loop goes on at the next offset |
| ExtractAuthors.ExtractAuthors | migration/extract/authors.py:12-95 | a missing token or base URL returns {} before any request; otherwise the table the paging loop builds |
| ExtractAuthors.ReadAuthors | migration/extract/authors.py:46-92 | the paging loop's table is the one the page rule defines |
| ExtractAuthors.AuthorsPage | migration/extract/authors.py:50-92 | one loop turn records its page and says whether another one follows |
| ExtractAuthors.RecordAuthors | migration/extract/authors.py:71-75 | the loop over a page computes the page record |
| ExtractAuthors.StopsRecording | migration/extract/authors.py:71-92 | an exception in an author ends the page with the authors recorded before it |
| ExtractAuthors.StopsOnUnexpected | migration/extract/authors.py:61-92 | a failing request, a non-200 status, an unparsable or non-object body stops with the table unchanged |
| ExtractAuthors.StopsOnShortPageOrTotal | migration/extract/authors.py:77-80 | a page shorter than the limit, or one reaching the total, is the last |
| ExtractGroups.MemberIds | migration/extract/groups.py:39-43 | member ids are the truthy ones, at most one per member |
| ExtractGroups.MemberIdsContents | migration/extract/groups.py:40-43 | an id is kept iff it is truthy and some member (a dict's 'value' or a bare value) has it |
| ExtractGroups.GroupRecord | migration/extract/groups.py:32-43 | a group record carries the group's id and displayName |
| ExtractGroups.CollectedPrefix | migration/extract/groups.py:29-49 | the collected groups are the records of a prefix of the SCIM groups, ending at the first group that raises |
| ExtractGroups.ExtractGroups | migration/extract/groups.py:12-56 | without a SCIM client, or when listing fails, no group; otherwise the collected records |
| ExtractGroups.CollectedStep | migration/extract/groups.py:31-45 | a group that raises ends the collection; one that does not is appended |
| ExtractGroups.ReadGroup | migration/extract/groups.py:32-43 | the loop body computes one group's record |
| ExtractGroups.ReadMembers | migration/extract/groups.py:39-43 | the member loop computes the member ids |
| ExtractAttachments.HashesFromCases | migration/extract/attachments.py:20-104 | the hashes and URLs gathered from every case the scan read, an exception ending the scan with what was gathered |
| ExtractAttachments.HashesFromResults | migration/extract/attachments.py:107-202 | the hashes and URLs gathered from the results of every run the scan read, run by run |
| ExtractAttachments.RunsAt | migration/extract/attachments.py:124-200 | one turn of the run paging loop, seen from its offset |
| ExtractAttachments.RunsPage | migration/extract/attachments.py:137-194 | one page of runs adds each run's results in order |
| ExtractAttachments.RunsFoundSnoc | migration/extract/attachments.py:137-194 | the runs of a page are handled one after the other |
| ExtractAttachments.ProjectFound | migration/extract/attachments.py:223-224 | a project's hashes are the union of its case and result hashes; its URLs merge both, the result's winning |
| ExtractAttachments.ExtractAllAttachmentHashes | migration/extract/attachments.py:205-228 | the table built over the project list, in order |
| ExtractAttachments.CaseStepLower | migration/extract/attachments.py:85-96 | a case step adds only lowercase hashes |
| ExtractAttachments.CaseFoundLower | migration/extract/attachments.py:49-96 | a case adds only lowercase hashes |
| ExtractAttachments.CaseHashesLowered | migration/extract/attachments.py:49-96 | every hash gathered from cases is lowercase |
| ExtractAttachments.ResultAttachmentsKept | migration/extract/attachments.py:162-166 | a string in a result's attachments list is gathered as written, without lowercasing |
| ExtractAttachments.CaseFoundGrows | migration/extract/attachments.py:49-96 | a case never removes a hash |
| ExtractAttachments.CasesKeepEarlier | migration/extract/attachments.py:36-102 | later cases never remove a hash gathered from earlier ones |
| ExtractAttachments.AllFoundEntries | migration/extract/attachments.py:217-226 | a project code is a key iff some listed project has it, and holds that project's hashes and URLs |
| CreateAttachments.CheckExistingAttachmentsInTarget | migration/create/attachments.py:21-81 | the existing set is what the per-project loops over the target's cases collect, a failing page ending that project's loop |
| CreateAttachments.ExistingItemLower | migration/create/attachments.py:59-71 | an attachment item adds only a lowercased hash |
| CreateAttachments.ExistingCaseLower | migration/create/attachments.py:57-71 | a case adds only lowercased hashes |
| CreateAttachments.ExistingLowered | migration/create/attachments.py:57-71 | every hash of the existing set is lowercase, whether it came from a string item, a dict 'hash' or the URL pattern |
| CreateAttachments.CapturedWorkspace | migration/create/attachments.py:233-236 | the workspace hash changes only when unset and the upload URL holds `/public/team/<hex>/`, and then becomes that hex |
| CreateAttachments.UploadAttachment | migration/create/attachments.py:185-238 | an upload exception propagates, an empty response gives None, otherwise the answered hash; the store's workspace hash is captured from the URL only when unset |
| CreateAttachments.SourceProject | migration/create/attachments.py:328-336 | the project chosen is a listed one whose collected hashes hold the hash; none is chosen only when no project holds it |
| CreateAttachments.DecideChain | migration/create/attachments.py:282-359 | a recorded target is reused and an existing hash maps to itself, both without a download; a hash no project holds, or whose download is empty, is skipped; only an upload that answers a hash counts; no other key changes |
| CreateAttachments.ByCodeEntries | migration/create/attachments.py:270-271 | every collected project is keyed by its code with its own hashes |
| CreateAttachments.UnionMembers | migration/create/attachments.py:270-272 | the global set holds exactly the hashes of the collected projects |
| CreateAttachments.MappedInFirst | migration/create/attachments.py:286-296 | the reuse test finds a target iff some project table holds the lowercased or the raw hash, and it takes the first such table, lowercase tried first |
| CreateAttachments.InTargetGrows | migration/create/attachments.py:307-318 | once one `get_attachment` answer is truthy, asking more times still finds it |
| CreateAttachments.WorkspaceCapturedOnce | migration/create/attachments.py:233-353 | over the whole loop the workspace hash changes at most from unset to a hash matched in an upload URL |
| CreateAttachments.DecideWorkspace | migration/create/attachments.py:233-353 | one hash's decision changes the workspace hash only from unset to a hash matched in an upload URL |
| CreateAttachments.DecidedBounds | migration/create/attachments.py:282-359 | the upload count grows by at most one per hash, and every key added is the lowercased form of a hash the loop went over |
| CreateAttachments.ProjectedKeeps | migration/create/attachments.py:361-374 | the projection keeps every older entry, and an entry no hash names stays as it was |
| CreateAttachments.ProjectedCovers | migration/create/attachments.py:368-374 | a project hash with a global target is stored under its lowercased key and under its raw key |
| CreateAttachments.ProjectedLowerTarget | migration/create/attachments.py:369-372 | a lowercase key holds the global target of its lowercase form |
| CreateAttachments.MigrateAttachmentsWorkspace | migration/create/attachments.py:241-378 | with set iteration visiting every member once, the store's tables become the projection of the per-hash decisions over the global set, the workspace hash is the captured one, and the stats record the number of distinct hashes and of uploads; at most one upload per distinct hash, every key decided is the lowercased form of a hash of the set, and every hash already recorded in a project table or present in the target is mapped |
| CreateAttachments.GlobalDecidedBounds | migration/create/attachments.py:282-359 | the loop over a set makes at most one upload per member, and every key it adds is the lowercased form of a member |
| CreateAttachments.GlobalDecidedCovers | migration/create/attachments.py:282-304 | whatever the iteration order, a member of the set that is already recorded in a project table or present in the target ends up mapped under its lowercased form |
| CreateAttachments.DecidedCovers | migration/create/attachments.py:282-304 | a hash the loop goes over that is reused or already in the target stays mapped to the end of the loop |
| CreateAttachments.DecidedGrows | migration/create/attachments.py:282-359 | the loop over the hashes never removes a key of the global mapping |
| CreateAttachments.Collect | migration/create/attachments.py:266-273 | the collection loop builds the per-project sets, the global set and the merged URL table |
| CreateAttachments.DecideHash | migration/create/attachments.py:283-359 | one loop turn makes the decision the chain defines, and keeps the store's workspace hash in step with it |
| CreateAttachments.FindMapped | migration/create/attachments.py:285-296 | the reuse loop computes the reuse test |
| CreateAttachments.AskTarget | migration/create/attachments.py:306-323 | the loop asks once per project and stops at the first truthy answer |
| CreateAttachments.FindSourceProject | migration/create/attachments.py:328-336 | the project loop finds the first project holding the hash |
| CreateAttachments.ProjectAll | migration/create/attachments.py:361-374 | the projection loop over the projects computes the projected tables |
| CreateAttachments.ProjectHashes | migration/create/attachments.py:367-374 | the loop over one project's hashes computes its projected table |
| CreateResults.StatusKey | migration/create/results.py:27-37 | only a `status_id` from 1 to 5 selects a status by number |
| CreateResults.StatusByName | migration/create/results.py:39-54 | pass/fail/block/skip/retry and their long forms map to passed/failed/blocked/skipped/retest; any other string gives skipped |
| CreateResults.Status | migration/create/results.py:26-54 | a computed status is always one of the five names |
| CreateResults.StatusById | migration/create/results.py:27-38 | a `status_id` of 1 to 5 gives passed, blocked, skipped, retest or failed, whatever the status string says |
| CreateResults.StatusByString | migration/create/results.py:35-54 | without a valid `status_id`, a non-empty status string is mapped by its lowercase form |
| CreateResults.Author | migration/create/results.py:56-70 | no author uuid, an unknown one, or a source id of 0 give user 1; otherwise the author's source id goes through the store's user lookup |
| CreateResults.Transform | migration/create/results.py:72-76 | a transformed result holds exactly the target case id, the mapped status and the mapped author |
| CreateResults.PreparedMapped | migration/create/results.py:135-156 | every prepared result comes from a source result whose case is mapped to a truthy target, transformed with that target |
| CreateResults.CollectAtMost | migration/create/results.py:135-156 | no more results are prepared than were read |
| CreateResults.ChunksCreatedAtMost | migration/create/results.py:158-173 | the created count is at most the number of prepared results |
| CreateResults.CountsBound | migration/create/results.py:124-141 | when no extraction raises, the total counts every source result, mapped or not, and the created count never exceeds it |
| CreateResults.CountsRaised | migration/create/results.py:127-129 | the loop over the run mapping raises iff `extract_results` raises for some run, and then with the first such run's exception, every earlier run's extraction having succeeded |
| CreateResults.CountsStop | migration/create/results.py:127-129 | an extraction that raises after the earlier runs were counted is what the whole loop raises |
| CreateResults.CountsRaisedStays | migration/create/results.py:127-129 | once a prefix of the runs raises, the remaining runs change nothing |
| CreateResults.BulkAsWritten | migration/create/results.py:166-173 | the raw client has no `create_results_bulk`, so when the loop completes no result is counted as created |
| CreateResults.NothingCreated | migration/create/results.py:166-173 | with the bulk call raising AttributeError, every chunk fails and nothing counts |
| CreateResults.CompletionCallsQueued | migration/create/results.py:208-219 | `complete_run` is called for a queued run iff its `is_completed` flag is set, on its own project code |
| CreateResults.PrepareRun | migration/create/results.py:132-156 | every result read is counted, and the prepared list is the mapped and transformable ones |
| CreateResults.SendChunks | migration/create/results.py:158-204 | chunks of at most 500 are sent, and `created` grows by a chunk's length only when its call succeeds |
| CreateResults.CountResults | migration/create/results.py:124-204 | the loop over the run mapping computes both totals, or the exception of the first run whose `extract_results` raises |
| CreateResults.CompleteRuns | migration/create/results.py:208-219 | the completion loop makes exactly the calls the queue calls for |
| CreateResults.MigrateResults | migration/create/results.py:79-226 | the author table is stored first; a missing token or base URL returns before any processing with the stats unchanged; an `extract_results` that raises escapes with the stats unchanged and no run completed; otherwise the counts are recorded, the queued runs completed, and the final merge into the missing `result_hashes` raises AttributeError |
| CreateRuns.FunctionAttributes.constructor | migration/create/runs.py:162-163 | before any run is queued the function carries no completion queue |
| CreateRuns.MappedRef | migration/create/runs.py:128-135 | a milestone or plan is referenced only when the run's id is truthy and maps to a truthy target, which is then the value used |
| CreateRuns.IfTruthy | migration/create/runs.py:115-122 | a formatted time is included iff it is truthy, as it is |
| CreateRuns.IfNonEmpty | migration/create/runs.py:124-127 | a case or configuration list is included iff it is non-empty, as it is |
| CreateRuns.Completion | migration/create/runs.py:158-169 | a created run is queued iff `is_completed` or `end_time` is truthy, with the target code and the flag set |
| CreateRuns.LoopMapping | migration/create/runs.py:52-169 | the run loop finishes iff no run raised, and then its mapping is the created runs' source-to-target table |
| CreateRuns.LoopQueue | migration/create/runs.py:161-169 | an existing queue is kept, and a target is queued iff it was queued before or a completed run created it before any run raised |
| CreateRuns.LoopFailed | migration/create/runs.py:52-169 | a failed loop was stopped by some run that raised |
| CreateRuns.LoopOk | migration/create/runs.py:52-169 | a finished loop had every run succeed |
| CreateRuns.FallbackCasesMapped | migration/create/runs.py:59-74 | the fallback case list has no duplicates, holds exactly the mapped targets of the run's cases, each a truthy mapped value, in first-seen order |
| CreateRuns.TargetConfigsMapped | migration/create/runs.py:76-91 | the configurations kept are exactly the mapped targets of the run's configurations, truthy mapped values |
| CreateRuns.PayloadOptional | migration/create/runs.py:108-135 | start and end times, cases, configurations, milestone and plan are in the payload only when non-null or mapped; title and description default to '' |
| CreateRuns.OutcomeCreates | migration/create/runs.py:137-169 | every run that reaches the end triggers a create, and is mapped iff the create answers a truthy id, with its completion entry |
| CreateRuns.MapConfigs | migration/create/runs.py:78-91 | the configuration loop computes the mapped configuration list |
| CreateRuns.AuthorOf | migration/create/runs.py:94-106 | the author computation is the target-user rule applied to the first present of user_id, created_by, author_id and member_id |
| CreateRuns.BuildPayload | migration/create/runs.py:108-135 | the payload built step by step is the payload rule |
| CreateRuns.BuildTargetCases | migration/create/runs.py:59-74 | the case list computed step by step is the specified case list: the cases found for the run, else its mapped, deduplicated source cases |
| CreateRuns.BuildTargetConfigs | migration/create/runs.py:76-91 | the configuration list computed step by step is the specified list of mapped configurations |
| CreateRuns.MigrateRun | migration/create/runs.py:53-169 | one loop turn computes the run's outcome |
| CreateRuns.MigrateRuns | migration/create/runs.py:16-182 | a listing failure or a raising run changes no table or stats; otherwise the run table is merged, the queue moves to the store under the source code and leaves the function, and stats record (#source runs, #mapped) |
| CreateRuns.RunLoop | migration/create/runs.py:52-169 | the loop over runs computes the mapping, the queue on the function and the first failure |
| CreateRuns.LoopNext | migration/create/runs.py:145-169 | one run adds its mapping and, when it is completed, its queue entry |
| CreateRuns.LoopStops | migration/create/runs.py:52-169 | a run that raises ends the loop |
| CreatePlans.TargetCasesContents | migration/create/plans.py:65-71 | a target case id is collected iff some case item's `case_id` maps to it |
| CreatePlans.CaseTargetOfIs | migration/create/plans.py:66-70 | a case item contributes iff its `case_id` is truthy and mapped, and then contributes the mapped id |
| CreatePlans.TargetCasesOrder | migration/create/plans.py:65-71 | target case ids keep the source order |
| CreatePlans.OutcomeSets | migration/create/plans.py:45-103 | a plan maps its id iff it has a truthy id and is already mapped, or has a title and a mapped case and the create answered a truthy id; a reused id keeps its target |
| CreatePlans.ReuseMapped | migration/create/plans.py:50-53 | a plan whose raw id is in the project's plan table is reused without a request |
| CreatePlans.SkipUnmappedCases | migration/create/plans.py:73-75 | a plan with no mapped case is skipped without a request |
| CreatePlans.MigratedEntries | migration/create/plans.py:45-103 | a source id is in the new mapping iff one of its plans maps it, and a reused id keeps its stored target |
| CreatePlans.MapCases | migration/create/plans.py:62-71 | the case loop computes the target case list |
| CreatePlans.BuildPayload | migration/create/plans.py:59-83 | the payload built is the payload rule: title, remapped cases, description only if truthy |
| CreatePlans.MigratePlan | migration/create/plans.py:46-103 | one loop turn computes the plan's outcome |
| CreatePlans.MigratePlans | migration/create/plans.py:36-110 | an exception leaves the table and stats; otherwise the project's plan table is merged with the new mapping and stats record (#plans, #mapped) |
| CreateCustomFields.IndexFieldKey | migration/create/custom_fields.py:48-57 | an existing field with a title and an id is indexed under `title.strip().lower()` |
| CreateCustomFields.ExistingLower | migration/create/custom_fields.py:29-61 | every key of the existing-field index is in lower case |
| CreateCustomFields.GetExistingCustomFields | migration/create/custom_fields.py:14-61 | the paging loop builds the index the indexing rule defines |
| CreateCustomFields.Position | migration/create/custom_fields.py:98-118 | a listed name's position is where it is listed; an unlisted name gives 0 |
| CreateCustomFields.Code | migration/create/custom_fields.py:103-118 | a string is looked up lowercased in the table, unknown strings giving 0; an int passes as it is; other values give 0 |
| CreateCustomFields.CodeTables | migration/create/custom_fields.py:98-118 | case/run/defect give 0/1/2, and string, number, text, selectbox, checkbox, radio, multiselect, url, user, date give 0 to 9 |
| CreateCustomFields.CandidateInjective | migration/create/custom_fields.py:129-131 | different suffix numbers give different candidate titles |
| CreateCustomFields.CandidatesBound | migration/create/custom_fields.py:129-131 | the suffix search cannot find more taken candidates than there are seen titles, so it ends |
| CreateCustomFields.FreeCandidate | migration/create/custom_fields.py:129-131 | the suffix search ends on an unseen title, the first free suffix from where it started |
| CreateCustomFields.Unique | migration/create/custom_fields.py:126-132 | the title chosen is unseen: the title itself when new, else the title with the smallest free " (k)" suffix |
| CreateCustomFields.OptionsShape | migration/create/custom_fields.py:120-143 | one option per value, ids 1..n in input order, pairwise-distinct titles, and the seen set is exactly their titles |
| CreateCustomFields.OptionKeepsTitle | migration/create/custom_fields.py:129-133 | a value whose title was not seen keeps it |
| CreateCustomFields.Payload | migration/create/custom_fields.py:98-159 | entity and type are the table codes, `projects_codes` is None iff the field is enabled for all projects, and an empty option list is sent as None |
| CreateCustomFields.BuildPayload | migration/create/custom_fields.py:98-159 | the payload built step by step, options first, is the payload rule, including the NotIterable and option exceptions |
| CreateCustomFields.OutcomeCases | migration/create/custom_fields.py:84-96 | no title gives False, a non-string title raises AttributeError, a normalised title already in the target maps the source id to the existing one without a create |
| CreateCustomFields.OutcomeSets | migration/create/custom_fields.py:84-188 | a field maps its id iff it matched an existing title or its create answered an id |
| CreateCustomFields.MigratedEntries | migration/create/custom_fields.py:214-219 | the returned mapping holds exactly the ids of fields whose create returned True |
| CreateCustomFields.UniqueTitle | migration/create/custom_fields.py:126-132 | the while loop computes the unique title |
| CreateCustomFields.BuildOptions | migration/create/custom_fields.py:120-143 | the value loop computes the option list |
| CreateCustomFields.OptionsStop | migration/create/custom_fields.py:124-143 | a value that raises ends the option list with that exception |
| CreateCustomFields.CreateCustomField | migration/create/custom_fields.py:64-188 | the outcome is the decision rule, and `mappings.custom_fields` gains exactly the source id's target when it returns True |
| CreateCustomFields.FieldLoop | migration/create/custom_fields.py:214-219 | the field loop returns the mapping and leaves in the store every entry written before an exception |
| CreateCustomFields.MigrateCustomFields | migration/create/custom_fields.py:191-222 | the store gains the fields' targets, and stats record (#source, #mapped) when no field raised |
| CreateSharedParameters.IndexedEntries | migration/create/shared_parameters.py:46-53 | an index entry was there before or comes from a listed parameter with that normalised title |
| CreateSharedParameters.IndexFieldEntry | migration/create/shared_parameters.py:47-53 | one entity adds at most its own normalised title |
| CreateSharedParameters.ExistingEntries | migration/create/shared_parameters.py:46-53 | every key of the index is the normalised title of a listed parameter, holding its id |
| CreateSharedParameters.GetExistingSharedParameters | migration/create/shared_parameters.py:13-68 | the paging loop builds the index the indexing rule defines |
| CreateSharedParameters.ParametersListEntries | migration/create/shared_parameters.py:141-151 | the list keeps exactly the items with a title and values, wrapping scalar values in a list, in order |
| CreateSharedParameters.CollectAtMost | migration/create/shared_parameters.py:141-151 | the list is never longer than the items |
| CreateSharedParameters.PayloadShape | migration/create/shared_parameters.py:156-169 | the payload holds no UUID, carries the converted parameters list, and has `project_codes` iff the parameter is not enabled for all and the list is non-empty |
| CreateSharedParameters.OutcomeCases | migration/create/shared_parameters.py:107-154 | no id skips; a stored id is reused without a request; a normalised-title match reuses the existing id without a request; an empty parameters list never creates |
| CreateSharedParameters.StepKeeps | migration/create/shared_parameters.py:107-185 | one parameter never changes or removes a stored entry |
| CreateSharedParameters.OutcomeActs | migration/create/shared_parameters.py:113-130 | a reuse reads the stored target; a match or a create is only for an id not stored |
| CreateSharedParameters.ApplyKeeps | migration/create/shared_parameters.py:113-179 | applying a decision keeps the stored entries |
| CreateSharedParameters.MigratedKeeps | migration/create/shared_parameters.py:107-185 | the loop keeps every stored entry |
| CreateSharedParameters.MergeKeepsStored | migration/create/shared_parameters.py:188-190 | after the merge every stored entry keeps its target, and the keys are the stored ones and the new mapping's |
| CreateSharedParameters.BuildParametersList | migration/create/shared_parameters.py:141-151 | the item loop computes the parameters list |
| CreateSharedParameters.MigrateParameter | migration/create/shared_parameters.py:107-185 | one parameter's outcome is the decision rule, and only a title match writes the store at once |
| CreateSharedParameters.ParameterLoop | migration/create/shared_parameters.py:107-185 | the loop computes the mapping and the store's immediate writes |
| CreateSharedParameters.MigrateSharedParameters | migration/create/shared_parameters.py:71-193 | an exception leaves the immediate writes and the stats; otherwise the store is merged with the run's mapping and stats record (#extracted, #mapped) |
| CreateDefects.Severity | migration/create/defects.py:100-109 | a severity name maps to a value below the number of known names |
| CreateDefects.SeverityTable | migration/create/defects.py:101-109 | each known severity name maps to its position in the table (undefined 0 through trivial 6); any other name maps to 0 |
| CreateDefects.SeverityOf | migration/create/defects.py:130-131 | a missing severity reads as 0; the lookup raises exactly when the severity is present and not a string (`.lower()` on a non-string); otherwise it is the table value of the lower-cased name |
| CreateDefects.ShouldResolve | migration/create/defects.py:172-180 | a string status resolves iff its lower-case form is resolved, closed, invalid or duplicate; an int status iff it is positive; None and other kinds never resolve |
| CreateDefects.MilestoneTable | migration/create/defects.py:64-77 | a non-empty milestone mapping argument is used as given; an empty one falls back to the stored milestone table of the source project |
| CreateDefects.MilestoneOf | migration/create/defects.py:133-141 | a truthy target milestone is only ever found when the defect's milestone_id is truthy, converts with int(), and that int is a key of the milestone table, whose value it is |
| CreateDefects.ItemHash | migration/create/defects.py:146-155 | a string attachment item is its own hash; an item that is neither string nor dict has none; reading a dict item can fail only with TypeError |
| CreateDefects.TargetHash | migration/create/defects.py:157-165 | a falsy hash maps to nothing; a mapped hash is the stripped value stored under the lower-case, as-is or upper-case form of the stripped hash |
| CreateDefects.TargetHashesFrom | migration/create/defects.py:143-165 | the attachment loop succeeds iff every item can be read, and then a target hash is collected iff some item maps to it |
| CreateDefects.Attachments | migration/create/defects.py:143-145 | no attachment items, or no attachment mapping, gives an empty attachment list |
| CreateDefects.ActualResult | migration/create/defects.py:167-170 | the actual result is rewritten only when there is an attachment mapping and the text is a string; otherwise it is passed through unchanged |
| CreateDefects.Payload | migration/create/defects.py:116-193 | a built payload carries the mapped author, the severity of the defect, a milestone exactly when one was mapped, and attachments exactly when some mapped |
| CreateDefects.OutcomeSets | migration/create/defects.py:195-205 | a defect records a source id iff it has that truthy id, its payload builds, create returns a truthy id and, when it must be resolved, the resolve call does not raise; the value recorded is the created id |
| CreateDefects.MigratedEntries | migration/create/defects.py:111-205 | a source id is in the defect mapping iff some defect of the list records it |
| CreateDefects.CreateRaisesSkips | migration/create/defects.py:111-199 | a defect dict whose create call raises is skipped, not fatal; an entry that is not a dict raises AttributeError before the create |
| CreateDefects.NonDictStops | migration/create/defects.py:111-112 | a defect entry that is not a dict makes the loop raise: AttributeError from its `get`, unless an earlier defect raised first |
| CreateDefects.CreateAsWritten | migration/create/defects.py:195-202 | with a raw client that has no create_defect, so every create raises AttributeError, no defect is ever mapped |
| CreateDefects.MapAttachments | migration/create/defects.py:146-165 | the attachment loop computes the collected target hashes, or the error of the first unreadable item |
| CreateDefects.BuildPayload | migration/create/defects.py:116-193 | builds the defect payload that the payload specification describes |
| CreateDefects.MigrateDefect | migration/create/defects.py:111-205 | one loop iteration produces the outcome the specification gives for that defect, including the AttributeError of an entry that is not a dict |
| CreateDefects.DefectLoop | migration/create/defects.py:111-205 | the loop builds the mapping of all recorded defects, or stops with the first escaping exception, such as the AttributeError of an entry that is not a dict |
| CreateDefects.MigrateDefects | migration/create/defects.py:14-212 | no target token, or no source defects, returns an empty mapping; otherwise the call always raises: the loop's exception, or AttributeError when the mapping is merged into a stores table that does not exist, with the loop's mapping left built but not stored |
| CreateConfigurations.ConfigsOf | migration/create/configurations.py:69-75 | a group has a configuration list iff it has a configs, configurations or entities key, and configs wins when present |
| CreateConfigurations.Len | migration/create/configurations.py:125-132 | len() succeeds exactly on iterable values and is the item count of a list |
| CreateConfigurations.EventsMembers | migration/create/configurations.py:44-114 | the steps of the whole loop are exactly the steps of its groups |
| CreateConfigurations.GroupOutSets | migration/create/configurations.py:44-66 | a group maps its source id iff it has a title and creating a group of that title returns a truthy id |
| CreateConfigurations.ConfigOutSets | migration/create/configurations.py:78-114 | a configuration maps its source id iff it has a truthy title and its id is already in the project's stored configuration table, where the stored target is reused, or creating it in the new group returns a truthy id |
| CreateConfigurations.GroupEventsShape | migration/create/configurations.py:44-114 | each group contributes its own outcome first, followed only by configuration outcomes |
| CreateConfigurations.GroupEventsOuter | migration/create/configurations.py:53-66 | a group's steps set a group-mapping entry iff the group maps that source id |
| CreateConfigurations.GroupEventsInner | migration/create/configurations.py:64-114 | a group's steps set a configuration-mapping entry iff the group was created and one of its configurations maps that source id |
| CreateConfigurations.MigratedGroups | migration/create/configurations.py:44-66 | a source group id is in the group mapping iff some group of the list maps it |
| CreateConfigurations.MigratedConfigs | migration/create/configurations.py:64-114 | a source configuration id is in the configuration mapping iff some created group has a configuration that maps it |
| CreateConfigurations.MigratedFailure | migration/create/configurations.py:44-114 | the loop completes iff no step raises: a missing group title, a failing create, or a truthy configuration list that cannot be iterated |
| CreateConfigurations.GroupEventsCount | migration/create/configurations.py:77-114 | a group contributes at most as many configuration outcomes as its list has entries |
| CreateConfigurations.CountInAtMost | migration/create/configurations.py:44-114 | a step sequence holds at most as many steps of one kind as it has steps |
| CreateConfigurations.MigratedCounts | migration/create/configurations.py:124-135 | the group mapping has at most as many entries as there are groups, and the configuration mapping at most the counted total |
| CreateConfigurations.EventsCount | migration/create/configurations.py:44-132 | the loop takes exactly one group step per group and at most the counted total of configuration steps |
| CreateConfigurations.GroupOuterCount | migration/create/configurations.py:44-66 | each group contributes exactly one group step |
| CreateConfigurations.InnerCount | migration/create/configurations.py:78-114 | a run of configuration steps holds no group step |
| CreateConfigurations.MigrateConfig | migration/create/configurations.py:79-114 | one configuration iteration produces the outcome its specification gives |
| CreateConfigurations.MigrateNested | migration/create/configurations.py:77-114 | the inner loop extends both mappings exactly as its configurations' outcomes say |
| CreateConfigurations.MigrateGroup | migration/create/configurations.py:44-114 | one group iteration extends both mappings exactly as the group's steps say |
| CreateConfigurations.CountConfigs | migration/create/configurations.py:125-132 | the count loop computes the total of the groups' list lengths, or the first len() error |
| CreateConfigurations.TotalStops | migration/create/configurations.py:125-132 | once the count raises on a prefix of the groups, the rest does not change the result |
| CreateConfigurations.MigrateConfigurations | migration/create/configurations.py:14-136 | an exception in the loop leaves the stores and the stats unchanged; otherwise both mappings are merged into the project's entries; then a failing count escapes with the stats unchanged, and a successful one records the group and configuration counts and returns both mappings |
| CreateEnvironments.Payload | migration/create/environments.py:53-68 | the payload carries the environment's title; its slug and host, or '' when they are falsy; and its description only when that is truthy |
| CreateEnvironments.ReuseMapped | migration/create/environments.py:48-51 | an environment whose id is already in the project's stored table is mapped to the stored target without a create call |
| CreateEnvironments.OutcomeSets | migration/create/environments.py:43-88 | an environment maps its source id iff the id is truthy and either already stored, keeping the stored target, or the environment has a title and the create returns a truthy id |
| CreateEnvironments.MigratedEntries | migration/create/environments.py:43-88 | a source id is in the mapping iff some environment maps it, and an already-stored id keeps its stored target |
| CreateEnvironments.MigratedFailure | migration/create/environments.py:43-88 | the loop raises iff the create call of some environment raises |
| CreateEnvironments.MigrateEnvironment | migration/create/environments.py:44-88 | one loop iteration produces the outcome its specification gives |
| CreateEnvironments.MigrateEnvironments | migration/create/environments.py:14-95 | returns the loop's mapping; on success it is merged into the project's stored entries and the processed and created counts are recorded; on an exception the stores and stats are unchanged |
| CreateSharedSteps.Content | migration/create/shared_steps.py:50-60 | a step item converts iff its action is absent or a string (otherwise `.strip()` raises AttributeError); the action sent is never empty and has no surrounding whitespace; the expected result is expected_result, or expected when that is falsy |
| CreateSharedSteps.StripEnds | migration/create/shared_steps.py:51 | a stripped string that is not empty starts and ends with a character that is not whitespace in the sense of `str.isspace` |
| Py.StripUnicodeSpaces | migration/create/shared_steps.py:51 | `strip()` also removes Unicode spaces such as the no-break and the ideographic space |
| Py.ParseIntUnderscore | migration/create/groups.py:109 | `int()` accepts a single underscore between two digits and skips it |
| Py.ParseIntMisplacedUnderscore | migration/create/groups.py:109 | `int()` rejects a leading, trailing or doubled underscore |
| CreateSharedSteps.ContentsAll | migration/create/shared_steps.py:48-60 | the step list converts iff every item converts, and then holds one content per item, in order |
| CreateSharedSteps.MigratedEntries | migration/create/shared_steps.py:43-77 | a source hash is mapped iff one of its shared steps was created with a hash in the response, and it maps to the hash the last such create answered |
| CreateSharedSteps.MigratedFailure | migration/create/shared_steps.py:43-77 | the loop raises iff some shared step raises: its steps cannot be converted, it has no title, or its create raises |
| CreateSharedSteps.ProcessSteps | migration/create/shared_steps.py:48-60 | the inner loop computes the converted step list, or the first conversion error |
| CreateSharedSteps.MigrateSharedStep | migration/create/shared_steps.py:44-77 | one loop iteration produces the outcome its specification gives |
| CreateSharedSteps.MigrateSharedSteps | migration/create/shared_steps.py:14-84 | a failing page fetch escapes with the stores and stats unchanged; otherwise the hashed shared steps go through the loop; on success its mapping is merged into the project's stored entries and the counts recorded; on failure nothing changes |
| CreateSuites.Title | migration/create/suites.py:29-31 | a suite is sent with its truthy title, else its truthy name, else "Suite " followed by its source id |
| CreateSuites.VisitAbsent | migration/create/suites.py:24-25 | a suite id that is not among the extracted suites sends no request and changes nothing |
| CreateSuites.AppendCall | migration/create/suites.py:40-45 | recording one more request keeps every earlier request sound and the mapping explained by them |
| CreateSuites.AfterParentKept | migration/create/suites.py:58-67 | once a parent's create has answered its target id, that stays true as the walk goes on |
| CreateSuites.VisitSound | migration/create/suites.py:14-69 | migrating a root, or a listed child after its parent was created, keeps the walk sound: every request is for an extracted suite, a root is sent with no parent, a child is sent under the target id its parent's earlier request answered, and every mapped suite maps to the id its own request answered; earlier requests are kept |
| CreateSuites.ChildrenSound | migration/create/suites.py:61-69 | migrating the listed children of a created suite keeps the walk sound and only extends it |
| CreateSuites.RootsSound | migration/create/suites.py:101-106 | migrating the root suites in order keeps the walk sound |
| CreateSuites.MigratedSound | migration/create/suites.py:96-106 | the whole walk, from the roots listed under no parent, is sound: each request has its parent created first, under that parent's new id |
| CreateSuites.MigrateSuite | migration/create/suites.py:14-69 | the recursive method computes what the suite walk specification gives, including the RecursionError when the depth bound runs out |
| CreateSuites.MigrateChildren | migration/create/suites.py:61-69 | the loop over a suite's children computes the specified walk, stopping at the first child that raises |
| CreateSuites.MigrateSuites | migration/create/suites.py:72-113 | a failing page fetch or an exception from a root escapes with the stores and stats unchanged; otherwise the walk's mapping is returned and merged into the project's stored entries, and the counts of extracted and mapped suites are recorded |
| CreateMilestones.Payload | migration/create/milestones.py:23-28 | building a milestone's payload raises KeyError exactly when it has no title; otherwise it carries the title, the description or '' when absent, and the status or 'active' when absent |
| CreateMilestones.ExtendsTrans | migration/create/milestones.py:14-63 | a walk that extends one that extends a third extends the third |
| CreateMilestones.AppendCall | migration/create/milestones.py:30-34 | recording one more request keeps every earlier request sound and the mapping explained by them |
| CreateMilestones.AfterParentKept | migration/create/milestones.py:57-63 | once a parent's create has answered a truthy target id, that stays true as the walk goes on |
| CreateMilestones.CallSound | migration/create/milestones.py:23-34 | sending a listed milestone's payload, as a root or as the child of an already created parent, keeps the walk sound |
| CreateMilestones.RecordSound | migration/create/milestones.py:36-57 | mapping the source id to the id the last request answered keeps the mapping explained by a request, and a truthy answer makes that id an already created parent |
| CreateMilestones.ChildrenListed | migration/create/milestones.py:58 | the children of a source id are listed milestones whose parent_id equals it |
| CreateMilestones.VisitSound | migration/create/milestones.py:14-63 | migrating a root, or a child after its parent was created, keeps the walk sound: every request is for a listed milestone and sends its payload, a root has a falsy parent_id, a child's parent was created by an earlier request, and each mapped id is what a request for that milestone answered; earlier requests are kept |
| CreateMilestones.ChildrenSound | migration/create/milestones.py:58-63 | migrating the children of a created milestone keeps the walk sound and only extends it |
| CreateMilestones.RootsSound | migration/create/milestones.py:95-100 | migrating the root milestones in order keeps the walk sound |
| CreateMilestones.MigratedSound | migration/create/milestones.py:90-100 | the whole walk from the milestones with a falsy parent_id is sound: no child is sent before its parent was created |
| CreateMilestones.CreateMilestone | migration/create/milestones.py:14-63 | the recursive method computes what the milestone walk specification gives, including the RecursionError when the depth bound runs out |
| CreateMilestones.ListChildren | migration/create/milestones.py:58 | the comprehension computes the milestones whose parent_id is the given source id, in list order |
| CreateMilestones.CreateChildren | migration/create/milestones.py:59-63 | the loop over a milestone's children computes the specified walk, the first exception escaping |
| CreateMilestones.MigrateMilestones | migration/create/milestones.py:66-107 | an exception anywhere in the walk escapes with the stores and stats unchanged; otherwise the walk's mapping is returned and merged into the project's stored entries, and the counts of listed and mapped milestones are recorded |
| CreateProjects.Recorded | migration/create/projects.py:45-114 | the project table gains exactly the source code to target code entry of a returned pair, and is unchanged when create_project returns None or raises |
| CreateProjects.PairOfProject | migration/create/projects.py:46-118 | a returned pair carries the project's own code as source code and its own id as source id |
| CreateProjects.ExistingNotCreated | migration/create/projects.py:35-51 | a project whose code already exists in the target is mapped without any create call, to the existing project's code or, when that has none, its own code |
| CreateProjects.CreateErrorsEscape | migration/create/projects.py:108-126 | when the project is not found and creating it raises, the exception escapes iff it is not a 400 whose body says the project already exists, and it is then the create's own exception |
| CreateProjects.CreateProjectIn | migration/create/projects.py:15-126 | create_project computes the specified outcome and records a returned pair in the project table |
| CreateProjects.Outcomes | migration/create/projects.py:157-160 | there is one create_project outcome per source project, in order |
| CreateProjects.FoldedPairs | migration/create/projects.py:156-161 | without an exception, the returned list holds at most one pair per project, exactly the pairs create_project returned, and each returned source code is in the project table |
| CreateProjects.FoldedFailure | migration/create/projects.py:156-161 | an exception that ends the loop is the first raised outcome, every earlier outcome having succeeded |
| CreateProjects.FoldedStops | migration/create/projects.py:156-161 | once a prefix of the loop raises, the remaining projects change nothing |
| CreateProjects.MigrateProjects | migration/create/projects.py:129-163 | a failing extraction escapes with the table and stats unchanged; otherwise the table is what the loop left, and an exception escapes with the stats unchanged, while a completed loop returns the mapped pairs and records the counts of source and mapped projects |
| CreateProjects.ProjectLoop | migration/create/projects.py:157-160 | the project table and the returned pairs are what the fold over the create outcomes gives, the first exception escaping with the projects mapped before it kept |
| CreateUsers.MatchedEntries | migration/create/users.py:51-57 | a source user id is mapped iff some target user has one of its emails, compared exactly, and it maps to the id of the last such target user |
| CreateUsers.MatchedKeys | migration/create/users.py:54-57 | only ids of source users are ever mapped |
| CreateUsers.MapUsers | migration/create/users.py:14-65 | a failing page of target authors escapes with the user table and stats unchanged; otherwise the user table is replaced by the email matching over all target users, which is returned, and the counts of source and mapped users are recorded |
| CreateUsers.MatchAll | migration/create/users.py:34-61 | the paging loop over target authors: the first failing page escapes, otherwise the table is what matching every user read, in order, gives |
| CreateUsers.MatchPage | migration/create/users.py:51-57 | matching one more page extends the table exactly as matching the concatenated target users would |
| CreateUsers.MigrateUsers | migration/create/users.py:68-91 | a failing page of either workspace escapes with nothing changed; otherwise the source users are indexed by email and matched against all target users as map_users does |
| CreateGroups.IndexGroupLower | migration/create/groups.py:58-61 | indexing one target group keeps every key of the name index non-empty and lowercased |
| CreateGroups.ExistingLower | migration/create/groups.py:55-63 | every key of the index of target groups is a non-empty, lowercased display name, whether the listing succeeded, stopped part way or failed |
| CreateGroups.MemberTargets | migration/create/groups.py:100-121 | a group never has more target member ids than it has source members |
| CreateGroups.MemberTargetsContents | migration/create/groups.py:104-121 | a target id is sent for a group iff some member, an int, a bool (read as 1 or 0) or a numeric string, is mapped to it by the user mapping |
| CreateGroups.BoolMemberAsInt | migration/create/groups.py:116-120 | a bool member passes the int test and is looked up as 1 or 0 |
| CreateGroups.GroupsConsistent | migration/create/groups.py:69-133 | over the whole loop at most one group is created per lowercased name, never one the target already had, every created name is indexed so that later groups of that name reuse it, and no membership call has an empty user list |
| CreateGroups.GroupsMappedFrom | migration/create/groups.py:69-97 | a source group id is only mapped when some source group has it as a truthy id and has a truthy display name |
| CreateGroups.CreateOption | migration/create/groups.py:38-39 | a falsy config reads as `{}`; a truthy config that is not a dict, or a `groups` entry that is not a dict, raises AttributeError; otherwise the option is on iff `groups.create` is truthy |
| CreateGroups.MigrateGroups | migration/create/groups.py:13-144 | the `groups.create` option is read first, and an AttributeError there escapes with nothing changed; then without a target SCIM client, or with group creation disabled, nothing is done and an empty mapping is returned; otherwise a display name that is not a string escapes with nothing changed, and a completed loop returns its mapping, merges it into the stored groups, records the counts and makes exactly the loop's membership calls |
| CreateGroups.GroupsStop | migration/create/groups.py:69-133 | once a prefix of the loop raises, the remaining groups change nothing |
| CreateGroups.IndexExisting | migration/create/groups.py:55-63 | the index loop computes the specified name index of the target groups |
| CreateGroups.MigrateGroup | migration/create/groups.py:70-133 | one loop iteration computes the specified step for that source group |
| CreateGroups.RunGroups | migration/create/groups.py:69-133 | the loop over source groups computes the specified run: the first raising group stops it, otherwise every group's step is applied in order |
| CreateGroups.AddMembers | migration/create/groups.py:103-121 | the member loop computes the specified target member ids, in order |
| CreateCases.TargetUserId | migration/create/cases.py:20-47 | a falsy source user id, or one int() rejects, gives the default; otherwise the mapped target of that integer, or the default when it is unmapped |
| CreateCases.TargetUserIdRange | migration/create/cases.py:40-47 | the answer is always the default or one of the mapped target ids, and two source ids with the same integer value get the same answer |
| CreateCases.AuthorCases | migration/create/cases.py:105-127 | a case with a truthy author_uuid gets the uuid's mapped user or 1, so 1 with the empty uuid table the store has; without one, a falsy, non-integer or zero fallback id gives 1, and the fallback member_id, created_by or author_id otherwise goes through the store's user lookup |
| CreateCases.CaseIdKept | migration/create/cases.py:74-76 | with ids preserved a positive id within the int32 range is kept and a larger one replaced by a hash within that range; without preservation the id is sent as it is |
| CreateCases.SuiteId | migration/create/cases.py:68-72 | the case is sent with a suite iff its source suite is truthy and maps to a truthy target, which is the suite sent |
| CreateCases.Replaced | migration/create/cases.py:266-275 | a value that is not a string, or any value when there is no attachment mapping, is left unchanged by the hash rewriting |
| CreateCases.MappedHash | migration/create/cases.py:259-262 | a hash maps iff it is a string key of the attachment mapping with a non-empty target, which is what it maps to |
| CreateCases.CaseAttachments | migration/create/cases.py:243-263 | a case without attachments, or with no attachment mapping, has an empty attachment list |
| CreateCases.CaseAttachmentsFrom | migration/create/cases.py:246-262 | when every item can be read, there is one source hash per item, and a target hash is sent iff some item's hash is a key of the mapping whose non-empty target it is |
| CreateCases.CaseParameters | migration/create/cases.py:233-235 | a parameters structure is only sent when it is non-empty |
| CreateCases.ParameterEntries | migration/create/cases.py:173-235 | a parameter whose shared id maps, first as text and then as it is, to a truthy target is sent as a reference to that target's text; and the structure's entries are exactly the entries of the case's parameter items |
| CreateCases.CustomFieldKeys | migration/create/cases.py:277-296 | every custom_field key sent is the text of a truthy target field id of the custom field mapping |
| CreateCases.FieldKey | migration/create/cases.py:283-288 | a source field that maps to a target contributes a value under the text of a truthy target field id |
| CreateCases.SharedSteps | migration/create/cases.py:298-324 | a processed step is a shared-step reference iff it is the reference to the mapped target of some step's shared hash, and every such reference is kept |
| CreateCases.RegularPosition | migration/create/cases.py:326-353 | a regular step is appended after the steps kept before it, with its own position or, by default, one more than the number kept so far |
| CreateCases.RegularStepPosition | migration/create/cases.py:346-352 | a regular step dict carries the source `position`, or else its place counting from 1 |
| CreateCases.TransformParts | migration/create/cases.py:50-357 | a transformed case carries the mapped suite, the author, attachments, custom fields, steps and parameters as each rule gives them, and an id exactly when the preserved or hashed case id is truthy |
| CreateCases.ProcessTags | migration/create/cases.py:78-87 | the tags loop computes the processed tags, or the TypeError of a value that cannot be iterated |
| CreateCases.GroupItems | migration/create/cases.py:217-227 | the loop over a group parameter's items collects exactly the entries its items give |
| CreateCases.BuildParameters | migration/create/cases.py:173-235 | the parameters loop computes the specified parameters structure |
| CreateCases.MapCaseAttachments | migration/create/cases.py:243-263 | the case attachments loop computes the specified target attachments |
| CreateCases.MapAttachmentItems | migration/create/cases.py:246-262 | the loop over the attachment items gives the mapped hashes, in order, or the exception of the first item whose hash cannot be read |
| CreateCases.MapCustomFields | migration/create/cases.py:277-296 | the custom field loops compute the specified custom_field dict, or the first exception of int() or of a non-dict value |
| CreateCases.ListFields | migration/create/cases.py:278-288 | the loop over a custom_fields list assigns exactly the outcomes of its items |
| CreateCases.DictFields | migration/create/cases.py:290-296 | the loop over a custom_field dict assigns exactly the outcomes of its entries |
| CreateCases.MapStepAttachments | migration/create/cases.py:328-334 | the loop over a regular step's attachments computes the specified target attachments |
| CreateCases.BuildSteps | migration/create/cases.py:298-355 | the steps loop computes the specified processed steps |
| CreateCases.RaisedStays | migration/create/cases.py:298-355 | once a prefix of the steps raises, the remaining steps change nothing |
| CreateCases.TransformCase | migration/create/cases.py:50-357 | transform_case_data, its loops as written, computes the specified case data or the first exception |
| CreateCases.BatchLimit | migration/create/cases.py:386 | the batch size is always positive |
| CreateCases.NormalizeKeys | migration/create/cases.py:393-400 | a key is in the normalised attachment mapping iff it is a key of the stored mapping or the lower-case form of one |
| CreateCases.NormalizeAgree | migration/create/cases.py:393-400 | the normalised mapping holds exactly the entries its items write, each item writing its lower-case key and then its own key |
| CreateCases.NormalizePresent | migration/create/cases.py:396-399 | every key an item names is present in the entries of the normalised mapping |
| CreateCases.NormalizeValues | migration/create/cases.py:396-399 | every value in the entries of the normalised mapping is the value of an item that names its key |
| CreateCases.NormalizeStep | migration/create/cases.py:397-399 | each item sets the keys it names to its value and leaves every other key as before |
| CreateCases.NormalizeKeeps | migration/create/cases.py:396-400 | a key keeps its own value when no other key of the mapping has it as its lower-case form |
| CreateCases.ItemsOfKeys | migration/create/cases.py:397 | a dict's items are its keys in order, each with its value, and no key twice |
| CreateCases.SharedParameterTableEntries | migration/create/cases.py:402-409 | the table the cases use has the stored and the passed shared parameters, a passed entry winning over a stored one; the store is updated with the passed table only when it was non-empty |
| CreateCases.PartitionOf | migration/create/cases.py:445-449 | each transformed case goes to exactly one of the bulk call and the raw client: the raw client gets exactly the cases with a shared-step reference or a parameters structure |
| CreateCases.Zip | migration/create/cases.py:473-476 | source ids are paired with the returned ids by position, as far as both lists go |
| CreateCases.ToMapEntries | migration/create/cases.py:474-483 | a source id is mapped iff some assignment writes it, and it holds what the last such assignment wrote |
| CreateCases.BulkBounded | migration/create/cases.py:419-449 | a bulk call sends at most one batch of cases, none of them raw, and the raw client gets only raw ones |
| CreateCases.ConcatMember | migration/create/cases.py:422-423 | every case of a batch is one of the listed cases |
| CreateCases.PreparedFrom | migration/create/cases.py:428-449 | the source id of a transformed case is the id of a case of its batch |
| CreateCases.BatchFrom | migration/create/cases.py:452-483 | the ids a batch maps are source ids of its own cases |
| CreateCases.AllFrom | migration/create/cases.py:422-483 | every assignment of the run writes the source id of a case of some batch |
| CreateCases.RunKeys | migration/create/cases.py:411-487 | only ids of listed source cases are ever mapped |
| CreateCases.BulkPairs | migration/create/cases.py:452-476 | a plain case the bulk call answered for is mapped to the id at its position in the answer |
| CreateCases.RawPairs | migration/create/cases.py:478-483 | a raw case is mapped to the first id the raw client returned for it, when it returned any |
| CreateCases.NormalizeAttachments | migration/create/cases.py:396-400 | the normalising loop computes the specified normalised mapping |
| CreateCases.PrepareBatch | migration/create/cases.py:425-449 | the batch loop transforms every case and splits them into the bulk and raw lists, or the first transform exception escapes |
| CreateCases.ToMapSnoc | migration/create/cases.py:476 | one more assignment overwrites exactly its own source id |
| CreateCases.CreateBatch | migration/create/cases.py:451-483 | creating a batch extends the case mapping with exactly the batch's assignments, or the bulk call's exception escapes |
| CreateCases.BulkPart | migration/create/cases.py:452-476 | the bulk part extends the case mapping with exactly its positional pairs, or its exception escapes |
| CreateCases.RawPart | migration/create/cases.py:478-483 | the raw part extends the case mapping with one entry per raw case that received an id |
| CreateCases.AllOutcomesStays | migration/create/cases.py:422-483 | once a prefix of the batches raises, the remaining batches change nothing |
| CreateCases.CreateAll | migration/create/cases.py:419-483 | the batch loop computes the specified case mapping over all listed cases |
| CreateCases.AttachmentMappingFor | migration/create/cases.py:393-400 | the project's attachment mapping is the stored one, normalised, or empty when nothing is stored |
| CreateCases.UseSharedParameters | migration/create/cases.py:402-409 | the stored shared-parameter table is updated with the passed one when both are non-empty, and the cases use the specified table |
| CreateCases.MigrateCases | migration/create/cases.py:360-490 | a failing listing escapes with the case tables and stats unchanged; no source cases give an empty table entry and zero counts; otherwise the run's exception escapes with nothing stored, or its mapping is merged into the project's cases and the counts of listed and mapped cases are recorded; the shared-parameter store is updated in every case |
| Scim.BaseUrl | migration/utils/scim_client.py:29-30 | the SCIM base URL is the scheme the ssl flag selects, the host, then /scim/v2 |
| Scim.BaseUrlInjective | migration/utils/scim_client.py:29-30 | different hosts or ssl flags never give the same base URL |
| Scim.RetryFrom | migration/utils/scim_client.py:55-91 | from any attempt the retry loop makes at least one more request and never more than one more than the retry limit in all |
| Scim.RetryReturnsFirstAnswer | migration/utils/scim_client.py:55-81 | after requests that were rate-limited or threw, the first response that is not a 429 is returned, after exactly that many requests |
| Scim.RetryExhausts | migration/utils/scim_client.py:70-91 | when every attempt is rate-limited or throws, exactly retry-limit-plus-one requests are made, and the last response is returned or the last exception re-raised |
| Scim.ListFromExtends | migration/utils/scim_client.py:117-141 | paging only appends: what was collected is kept as a prefix, followed by the first page's resources |
| Scim.ListOnePage | migration/utils/scim_client.py:130-141 | when the first page already reaches totalResults or is short, the listing is exactly that page |
| Scim.FindByNameFirst | migration/utils/scim_client.py:185-189 | the search after a conflict succeeds iff every entry up to the first match has a readable name; it returns the id of the first entry whose name equals the given one ignoring case, and None when no entry matches |
| Scim.Client.constructor | migration/utils/scim_client.py:16-36 | the client keeps its token, host and ssl flag, and its base URL is the one they determine |
| Scim.Client.RequestWithRetry | migration/utils/scim_client.py:38-91 | the request method makes the requests the retry specification gives and the same final answer, waiting before each retry with backoff exponent equal to the attempt number |
| Scim.Client.GetPage | migration/utils/scim_client.py:93-115 | a page request with count and the 1-based startIndex gives the response body on 200 and an empty page otherwise, and a transport exception escapes |
| Scim.Client.GetAll | migration/utils/scim_client.py:117-141 | the paging loop computes the specified concatenation of pages, stopping when the collected count reaches totalResults or a page is short |
| Scim.Client.CreatedCases | migration/utils/scim_client.py:143-192 | a 200 or 201 answers the response's truthy id or None; a 409 answers the id of the existing entry with that name; any other status answers None; an exception escapes |
| Scim.Client.Create | migration/utils/scim_client.py:143-192 | the create method computes the specified create outcome |
| Scim.Client.CreateUser | migration/utils/scim_client.py:143-192 | a user is created with its SCIM user payload on the Users endpoint, resolving a conflict by userName |
| Scim.Client.CreateGroup | migration/utils/scim_client.py:244-281 | a group is created with its payload on the Groups endpoint, resolving a conflict by displayName |
| Scim.Client.AddUsersToGroup | migration/utils/scim_client.py:283-317 | an empty id list answers True without a request; otherwise one retried PATCH on the group answers whether its status is 200 or 204, or its exception escapes |
| Scim.FindFirst | migration/utils/scim_client.py:186-189 | the search loop computes the specified first match |
| QaseService.ScimHost | qase_service.py:33-41 | the SCIM host is the explicit one when given, else the API host for an enterprise instance, else app.qase.io |
| QaseService.Delimiter | qase_service.py:47 | the API host is joined with '-' exactly for an enterprise instance on a host other than qase.io, and with '.' otherwise |
| QaseService.New | qase_service.py:14-74 | a service derives its SCIM host and its v1 and v2 API URLs from its settings, and has a SCIM client exactly when a non-empty SCIM token is given, configured with that token, the SCIM host and the ssl flag |
| QaseService.ApiUrlShape | qase_service.py:46-50 | the v1 and v2 URLs differ only in their last digit, and each reads back as scheme, "api", the delimiter and the host |
| QaseService.ApiUrlInjective | qase_service.py:49 | two services of the same scheme and kind with different hosts have different API URLs |
| MigrateWorkspace.ConfigDefaults | migrate_workspace.py:62-88 | defaults are read from the config file exactly when it exists, parses, and is a dict whose source, target and options sections are dicts; otherwise there are none |
| MigrateWorkspace.ParseArgs | migrate_workspace.py:60-146 | parsing succeeds iff both tokens are present from the command line or the config, the source token being checked first, and a missing token names its option |
| MigrateWorkspace.ParseArgsFlags | migrate_workspace.py:60-146 | a flag is on iff it is given or the config value is truthy, and with a config file that leaves ssl out SSL is on |
| MigrateWorkspace.ParseArgsStrings | migrate_workspace.py:60-146 | command-line strings win over the config; without either the host is qase.io and the mappings file mappings.json; a given skip list keeps its length |
| MigrateWorkspace.TalliedAppend | migration/utils.py:95-102 | replaying two runs of add_entity calls gives the same counts as replaying their concatenation |
| MigrateWorkspace.Save | migrate_workspace.py:223 | a checkpoint appends the current store to the saved files and changes nothing else |
| MigrateWorkspace.Guarded | migrate_workspace.py:313-323 | a step inside its own try goes on iff it returned or raised an ordinary exception, handing on its value or the fallback, with a checkpoint of whatever store it left; a keyboard interrupt escapes unsaved |
| MigrateWorkspace.Unguarded | migrate_workspace.py:279-283 | a workspace step outside an inner try goes on and is checkpointed iff it returned; whatever it raises escapes |
| MigrateWorkspace.NotIn | migrate_workspace.py:215 | for a list of skip codes the test is list membership, and the test raises exactly when the skip value is not a container |
| MigrateWorkspace.KeptList | migrate_workspace.py:214-215 | with a skip list, the kept projects are exactly those whose source code the list does not hold, in their original order |
| MigrateWorkspace.KeptRaises | migrate_workspace.py:215 | a skip value that is not a container makes the filter raise iff there is a project to test |
| MigrateWorkspace.RekeyedOk | migrate_workspace.py:236-239 | rebuilding the user mapping with int keys succeeds iff every key converts with int() |
| MigrateWorkspace.RekeyedKeys | migrate_workspace.py:239 | after a successful rebuild every key is an int and every original key's conversion is present |
| MigrateWorkspace.RekeyedValues | migrate_workspace.py:239 | each value of the rebuilt mapping is the value of an original key that converts to its key |
| MigrateWorkspace.FallbackMapping | migrate_workspace.py:255-264 | the fallback user mapping succeeds iff the source has no users, and is then empty, since `.get` on an email key raises |
| MigrateWorkspace.UsersDisabled | migrate_workspace.py:266-274 | with users.migrate off, the handed-on user mapping is empty, the users table is emptied and checkpointed, and the user and group migrators are not consulted |
| MigrateWorkspace.UsersAsWritten | migrate_workspace.py:229-265 | since migrate_users is called with one argument too many, the user step never hands on a mapping other than {}; with source users the fallback raises too and the users table keeps what it held; without any the table is emptied and a zero count recorded |
| MigrateWorkspace.Codes | migrate_workspace.py:288 | the project codes list holds each project's source code, in order |
| MigrateWorkspace.AllProjectsStop | migrate_workspace.py:304-458 | once the project loop has stopped at an escaping exception, the remaining projects change nothing |
| MigrateWorkspace.Record | migration/utils.py:95-102 | replaying a migrator's add_entity calls leaves exactly the replayed processed and created counts |
| MigrateWorkspace.Perform | migrate_workspace.py:313-318 | applying a migrator's run leaves the store it returned with and its counts recorded |
| MigrateWorkspace.Checkpoint | migrate_workspace.py:223 | saving appends the current mappings to the checkpoints |
| MigrateWorkspace.Step | migrate_workspace.py:313-323 | one step of the driver has the effect the guarded or unguarded step specification gives |
| MigrateWorkspace.MigrateProjectsStep | migrate_workspace.py:206-216 | step 1 computes the specified projects step: migrate_projects then the skip filter |
| MigrateWorkspace.UserFallback | migrate_workspace.py:251-265 | the user fallback computes the specified fallback and its checkpoint |
| MigrateWorkspace.MigrateUsersStep | migrate_workspace.py:225-274 | steps 2 and 2.5 compute the specified user and group step |
| MigrateWorkspace.MigrateWorkspaceSteps | migrate_workspace.py:276-302 | steps 3 to 5 compute the specified workspace steps |
| MigrateWorkspace.MigrateEarly | migrate_workspace.py:312-376 | a project's first five steps compute the specified early steps |
| MigrateWorkspace.MigrateLate | migrate_workspace.py:378-447 | a project's last four steps compute the specified late steps |
| MigrateWorkspace.MigrateEachProject | migrate_workspace.py:304-458 | the loop over projects computes the specified per-project run |
| MigrateWorkspace.Drive | migrate_workspace.py:202-474 | the outer try and its handlers leave the store, counts, checkpoints and ending the specification gives |
| MigrateWorkspace.Migrate | migrate_workspace.py:149-474 | main leaves the store, counts, checkpoints and ending the specification gives |
| MigrateWorkspace.ExtendsTrans | migrate_workspace.py:202-474 | keeping earlier checkpoints is transitive |
| MigrateWorkspace.UsersStepExtends | migrate_workspace.py:225-274 | the user step never drops or rewrites an earlier checkpoint |
| MigrateWorkspace.WorkspaceStepsExtends | migrate_workspace.py:276-302 | the workspace steps never drop or rewrite an earlier checkpoint |
| MigrateWorkspace.GuardedExtends | migrate_workspace.py:313-323 | a guarded step never drops or rewrites an earlier checkpoint |
| MigrateWorkspace.EarlyStepsExtends | migrate_workspace.py:312-376 | a project's early steps never drop or rewrite an earlier checkpoint |
| MigrateWorkspace.LateStepsExtends | migrate_workspace.py:378-447 | a project's late steps never drop or rewrite an earlier checkpoint |
| MigrateWorkspace.ProjectStepsExtends | migrate_workspace.py:304-447 | a project's nine steps never drop or rewrite an earlier checkpoint |
| MigrateWorkspace.AllProjectsExtends | migrate_workspace.py:304-458 | the project loop never drops or rewrites an earlier checkpoint |
| MigrateWorkspace.DrivenSaves | migrate_workspace.py:202-474 | a run that finds no projects ends without a checkpoint of its own; one that completes or fails ends with a checkpoint holding the final store |
| MigrateWorkspace.EndingSaves | migrate_workspace.py:149-474 | a usage error, a crash before the try, or an empty project list writes no checkpoint; a run that completes or fails writes a last checkpoint holding the store it left, and a failure exits with status 1 |
| MigrateWorkspace.ProjectsStepKept | migrate_workspace.py:206-216 | step 1 hands on exactly the projects the skip filter kept, with the store and counts migrate_projects left |
| MigrateWorkspace.DrivenAfterProjects | migrate_workspace.py:217-474 | after a non-empty step 1 the run does not end as having no projects, and every later checkpoint follows the first one |
| MigrateWorkspace.DrivenFirst | migrate_workspace.py:206-223 | the run ends with no projects iff the filtered list is empty, writing no checkpoint; otherwise the first checkpoint holds the store step 1 left |
| MigrateWorkspace.ResumeLoadsFirst | migrate_workspace.py:196-223 | step 1 starts from the store loaded from the mappings file on --resume and the empty store otherwise; the first checkpoint holds what step 1 left, and an empty project list ends the run before any checkpoint |
| MigrateWorkspace.EarlyChain | migrate_workspace.py:312-376 | without a keyboard interrupt the first five steps run in order, each on the store the previous one left, each checkpointed, and a failed step hands on {} |
| MigrateWorkspace.LateChain | migrate_workspace.py:378-447 | without a keyboard interrupt cases get the earlier mappings, plans and runs the case mapping, results the run and case mappings, each step on the store the previous one left and each checkpointed |
| MigrateWorkspace.AllProjectsRun | migrate_workspace.py:304-449 | without a keyboard interrupt every project runs all nine steps and writes nine checkpoints |
| MigrateWorkspace.ResultsAsWritten | migrate_workspace.py:433-447 | because migrate_results is called with one argument too many, a project's last step changes nothing and its checkpoint repeats the one written after runs |

## Left out

- Paging.Ends, Scim.Ends, Scim.EndsOver, ExtractAuthors.AuthorsEnd, ExtractAuthors.PagesEnd, CreateAttachments.CasesEnd, ExtractAttachments.ResultsEnd and ExtractAttachments.SourceEnds: every paged loop (the `while True` page loops of the extractors and migrators, and the SCIM `get_all`) is modelled under the precondition that the remote listing stops answering full pages past some offset. A listing that answers a full page at every offset, on which the Python loops never end, is assumed away.
- Py.Lower: `str.lower()` is modelled on ASCII letters only. Python lowers every Unicode letter (`"PRIORITÄT".lower()` is `"priorität"`), and its `'\u212a'` (the Kelvin sign) lowers to `k`. The model keeps every non-ASCII character as it is. For the substring tests on "attachment", "already exists" and "include" this changes nothing; for the title, name and email comparisons below it does.
- Py.Upper: likewise ASCII only.
- IndexFieldKey (CreateCustomFields.IndexFieldKey): the `strip().lower()` key lowers ASCII letters only, so two titles that differ only in the case of a non-ASCII letter get different keys (see Py.Lower).
- ExistingLower (CreateCustomFields.ExistingLower): "lower case" is ASCII lower case (see Py.Lower).
- OutcomeCases (CreateCustomFields.OutcomeCases): the normalised-title match folds ASCII case only, so the model creates a second field where Python would reuse one whose title differs only in the case of a non-ASCII letter (see Py.Lower).
- IndexedEntries (CreateSharedParameters.IndexedEntries): the normalised title folds ASCII case only (see Py.Lower).
- IndexFieldEntry (CreateSharedParameters.IndexFieldEntry): the normalised title folds ASCII case only (see Py.Lower).
- ExistingEntries (CreateSharedParameters.ExistingEntries): the normalised title folds ASCII case only (see Py.Lower).
- OutcomeCases (CreateSharedParameters.OutcomeCases): the title match folds ASCII case only, so a parameter whose title differs from a target one only in the case of a non-ASCII letter is created rather than reused (see Py.Lower).
- IndexGroupLower (CreateGroups.IndexGroupLower): the keys are display names with ASCII letters lowered (see Py.Lower).
- ExistingLower (CreateGroups.ExistingLower): the keys are display names with ASCII letters lowered (see Py.Lower).
- GroupsConsistent (CreateGroups.GroupsConsistent): "per lowercased name" means ASCII-lowered, so two source groups whose names differ only in the case of a non-ASCII letter are two names for the model and one for Python (see Py.Lower).
- FindByNameFirst (Scim.FindByNameFirst): "ignoring case" ignores ASCII case only (see Py.Lower).
- CreateCustomFields.Code: the enum lookup lowers ASCII only, so a type name spelled with the Kelvin sign for `k` is unknown to the model and known to Python (see Py.Lower).
- Py.ParseInt: `int()` also accepts the decimal digits of other scripts (such as `"٣"`); the model accepts ASCII digits only. Underscores between digits and Unicode whitespace around the number are modelled.
- Py.Json: JSON floats are not modelled, so neither is `int()` of a float id; every number is an integer.
- Py.StrRepr: `repr()` of a string escapes the control characters of Latin-1 as Python does; a character beyond Latin-1 that Python deems unprintable is written as it is instead of as a `\u` or `\U` escape.
- AttachmentText.CiAt: `re.IGNORECASE` is modelled as ASCII case folding. For `/attachment/` and the hex digits this is what Python matches; for `https://` and `/public/team/` Python also accepts `ſ` for `s` and `ı` or `İ` for `i`, which the model does not.
- Utils.AttachmentNotFound: what `json.loads` makes of a 404 body is part of the exception (its `loaded` field) rather than computed from the body's text.

- Remote I/O: every HTTP and SDK call is an oracle whose reply the model takes as a parameter. The raw client's own transport is not modelled, and so neither is a non-JSON SCIM body.
- Logging, `print_summary`, the per-project summary lines and the error timestamps are presentation only.
- The SDK client objects that `QaseService` builds are not modelled, only the settings and URLs they are configured with.
- `download_attachment` and its URL and base64 fallbacks transfer bytes. The model treats a download as an oracle outcome.
- Sleeps are recorded only as the retry exponent or delay that would be slept. Floating-point delays are not modelled.
- `preserve_or_hash_id`: all three branches are modelled, but the clock reading and the md5 digest prefix are parameters (`clockMillis`, `digestPrefix`); neither is computed.
- `format_date` and `format_datetime` wrap `datetime` parsing. Dates are passed through as opaque values.
- Response unwrapping (`to_dict`, `extract_entities_from_response` and the per-migrator `hasattr` chains) is folded into one normalised response type per oracle.
- File I/O and JSON encoding in save and load are left out: a save is a snapshot copy of the store, and a load restores one. Failures to read or write the file are not modelled.
- `int()` on a key that is not numeric, lookups with an unhashable key, and pydantic validation errors are not modelled beyond the error paths the code itself catches.
- `main` imports `migrate_shared_parameters`, `migrate_environments`, `migrate_plans` and `migrate_groups` from `migration.create` (migrate_workspace.py:17-33), but migration/create/__init__.py:4-14 does not export them. As written the import raises and `main` never starts; the orchestrator model assumes the names resolve.
- `SystemExit` and `KeyboardInterrupt` are one interrupt outcome of a step. The exit status and the message are not modelled.
- Python's dict literal keeps the last of two equal keys. The model's `Json` objects read the first entry for a key, which agrees with Python whenever keys are distinct, as they are in every object the code builds.
- The recursive walks over suites and milestones carry a call bound that stands for Python's recursion limit. Past it they raise `RecursionError`. The actual limit value is not modelled.
- The re-coercion of a string-keyed user mapping to int keys after a load is the identity in the model, because a snapshot keeps the key type.
- The `user_mapping` parameters that some migrators accept and never read are dropped.
- `mappings.result_hashes` is never initialised, so storing the result hash table raises `AttributeError`. The contents of that table are not modelled.
- The exception raised when the configuration lacks a host or an API key is not modelled. The host and token are parameters.
- The order of the run mapping's entries is an input, and so is the order in which a Python set is iterated. `CreateAttachments.SetOrder` requires only that this order visits every member of the set exactly once.
- `original_title` in custom-field creation is only logged.
- Python's `True` and `False` used as integers are written as 1 and 0.
- Lookups keyed by a `Json` value treat `true` and `1` (and `false` and `0`) as different keys, where a Python dict finds one under the other. This affects a bool milestone or plan id in CreateRuns.MappedRef (runs.py:129), a bool `suite_id` in CreateCases.SuiteId (cases.py:72), and a table whose keys are themselves bools. CreateGroups.MemberTarget does read a bool member as 1 or 0, as groups.py:116-120 does.
- The migrators of shared parameters read their responses through one normalised shape.
- The extractors for milestones, results, custom fields, environments, plans, configurations, shared parameters and defects add nothing to the paging loop that `Extract` models for cases. They are not modelled separately. `migrate_results` takes `extract_results` as one oracle per run, `Tables.resultsOf`, which answers the results read or the exception of a `get_results` call whose retries ran out.
- `migrate_defects` is not called by `main`. Its model stands alone.
- AttachmentText.ReplaceHashes: that the second pass also rewrites hashes the first pass produced is stated only by the definition, which runs the second pass over the first pass's output. No separate lemma states it.
