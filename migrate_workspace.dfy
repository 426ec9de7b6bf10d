// migrate_workspace.py: the command line and its config-file defaults, and the
// driver `main`, which runs the migration steps in a fixed order, checkpoints
// the mappings store after each of them, and on an escaping error saves once
// more and exits with status 1.
//
// Every migrator is an oracle here: given its arguments and the store as it
// is when the step starts, it answers what the step returned or raised, the
// store it left behind (a migrator that raises may have recorded part of its
// work) and the `add_entity` calls it made. The per-migrator models live in
// their own modules; this one is about the order, the checkpoints and the
// recovery of the driver.

module MigrateWorkspace {
  import opened Py
  import opened Utils
  import Dicts
  import Seqs

  // ------------------------------------------------------------ parse_args

  /**
   * What the command line gives. A string option left out is `None`; a
   * `store_true` flag left out is `false`; `--skip-projects` and
   * `--only-projects` take one or more codes.
   */
  datatype CommandLine = CommandLine(
    sourceToken: Option<string>, sourceHost: Option<string>, sourceEnterprise: bool, sourceSsl: bool,
    targetToken: Option<string>, targetHost: Option<string>, targetEnterprise: bool, targetSsl: bool,
    mappingsFile: Option<string>, preserveIds: bool,
    skipProjects: Option<seq<string>>, onlyProjects: Option<seq<string>>, resume: bool)

  /** `config_defaults` when it could be built: one value per option, as the config file spells it. */
  datatype Defaults = Defaults(
    sourceToken: Json, sourceHost: Json, sourceEnterprise: Json, sourceSsl: Json,
    targetToken: Json, targetHost: Json, targetEnterprise: Json, targetSsl: Json,
    mappingsFile: Json, preserveIds: Json, skipProjects: Json, onlyProjects: Json, resume: Json)

  /** The parsed arguments. Values taken from the config file keep whatever JSON type they have there. */
  datatype Args = Args(
    sourceToken: Json, sourceHost: Json, sourceEnterprise: Json, sourceSsl: Json,
    targetToken: Json, targetHost: Json, targetEnterprise: Json, targetSsl: Json,
    mappingsFile: Json, preserveIds: Json, skipProjects: Json, onlyProjects: Json, resume: Json)

  /** `parser.error` (exit status 2) names the missing option; otherwise the arguments. */
  datatype Parsed = Parsed(args: Args) | UsageError(option: string)

  const DefaultHost: string := "qase.io"
  const DefaultMappingsFile: string := "mappings.json"

  /** A dict-valued section of the config: `config.get(name, {})`. */
  function Section(config: Json, name: string): Json
  {
    GetOr(config, name, JObject([]))
  }

  /**
   * `config_defaults`. `configFile` is `None` when config.json is missing or
   * is not valid JSON. Any `.get` on a value that is not a dict raises
   * AttributeError, which the surrounding `except` turns into no defaults.
   */
  function ConfigDefaults(configFile: Option<Json>): (r: Option<Defaults>)
    ensures r.Some? <==>
      (&& configFile.Some? && configFile.value.JObject?
       && Section(configFile.value, "source").JObject? && Section(configFile.value, "target").JObject?
       && Section(configFile.value, "options").JObject?)
  {
    if configFile.None? || !configFile.value.JObject? then None
    else
      var c := configFile.value;
      var src, tgt, opts := Section(c, "source"), Section(c, "target"), Section(c, "options");
      if !(src.JObject? && tgt.JObject? && opts.JObject?) then None
      else Some(Defaults(
        Field(src, "api_token"), GetOr(src, "host", JStr(DefaultHost)),
        GetOr(src, "enterprise", JBool(false)), GetOr(src, "ssl", JBool(true)),
        Field(tgt, "api_token"), GetOr(tgt, "host", JStr(DefaultHost)),
        GetOr(tgt, "enterprise", JBool(false)), GetOr(tgt, "ssl", JBool(true)),
        GetOr(opts, "mappings_file", JStr(DefaultMappingsFile)), GetOr(opts, "preserve_ids", JBool(false)),
        JOr(Field(opts, "skip_projects"), JList([])), JOr(Field(opts, "only_projects"), JList([])),
        GetOr(opts, "resume", JBool(false))))
  }

  /** A string option: the command line's value, else its argparse default. */
  function StringOption(given: Option<string>, default: Json): Json
  {
    if given.Some? then JStr(given.value) else default
  }

  /** A `nargs='+'` option: the command line's list, else its argparse default. */
  function ListOption(given: Option<seq<string>>, default: Json): Json
  {
    if given.Some? then JList(seq(|given.value|, i requires 0 <= i < |given.value| => JStr(given.value[i])))
    else default
  }

  /** A `store_true` flag after the fix-up: an absent flag takes its fallback. */
  function FlagOption(given: bool, fallback: Json): Json
  {
    if given then JBool(true) else fallback
  }

  /** The argparse defaults when there is no config: no tokens, qase.io, mappings.json, flags off. */
  const NoConfig: Defaults := Defaults(
    JNull, JStr(DefaultHost), JBool(false), JBool(false), JNull, JStr(DefaultHost), JBool(false), JBool(false),
    JStr(DefaultMappingsFile), JBool(false), JNull, JNull, JBool(false))

  /**
   * `parse_args()`.
   *
   * Both tokens are required, the source one checked first; a token is
   * present when the command line gives a non-empty one or, failing that,
   * the config file gives a truthy one. A boolean option is on when its flag
   * is given or, with config defaults, when the config value is truthy, so
   * without a config file it is on only when given, and with a config file
   * that leaves `ssl` out SSL is on. The command line's strings win over the
   * config file's; without either the hosts are qase.io and the mappings file
   * is mappings.json.
   */
  function ParseArgs(cmd: CommandLine, configFile: Option<Json>): (r: Parsed)
    ensures var d := ConfigDefaults(configFile);
      var src := if cmd.sourceToken.Some? then JStr(cmd.sourceToken.value) else if d.Some? then d.value.sourceToken else JNull;
      var tgt := if cmd.targetToken.Some? then JStr(cmd.targetToken.value) else if d.Some? then d.value.targetToken else JNull;
      && (r.Parsed? <==> JTruthy(src) && JTruthy(tgt))
      && (!JTruthy(src) ==> r == UsageError("--source-token"))
      && (JTruthy(src) && !JTruthy(tgt) ==> r == UsageError("--target-token"))
      && (r.Parsed? ==> r.args.sourceToken == src && r.args.targetToken == tgt)
  {
    var d := ConfigDefaults(configFile);
    var e := if d.Some? then d.value else NoConfig;
    var args := Args(
      StringOption(cmd.sourceToken, e.sourceToken), StringOption(cmd.sourceHost, e.sourceHost),
      FlagOption(cmd.sourceEnterprise, e.sourceEnterprise), FlagOption(cmd.sourceSsl, e.sourceSsl),
      StringOption(cmd.targetToken, e.targetToken), StringOption(cmd.targetHost, e.targetHost),
      FlagOption(cmd.targetEnterprise, e.targetEnterprise), FlagOption(cmd.targetSsl, e.targetSsl),
      StringOption(cmd.mappingsFile, e.mappingsFile), FlagOption(cmd.preserveIds, e.preserveIds),
      ListOption(cmd.skipProjects, e.skipProjects), ListOption(cmd.onlyProjects, e.onlyProjects),
      FlagOption(cmd.resume, e.resume));
    if !JTruthy(args.sourceToken) then UsageError("--source-token")
    else if !JTruthy(args.targetToken) then UsageError("--target-token")
    else Parsed(args)
  }

  /**
   * A boolean option is on when its flag is given or, with config defaults,
   * when the config value is truthy; with a config file that leaves `ssl`
   * out, SSL is on.
   */
  lemma ParseArgsFlags(cmd: CommandLine, configFile: Option<Json>)
    ensures var r := ParseArgs(cmd, configFile);
      r.Parsed? ==>
        var a := r.args;
        var d := ConfigDefaults(configFile);
        && (JTruthy(a.sourceSsl) <==> cmd.sourceSsl || (d.Some? && JTruthy(d.value.sourceSsl)))
        && (JTruthy(a.targetSsl) <==> cmd.targetSsl || (d.Some? && JTruthy(d.value.targetSsl)))
        && (JTruthy(a.sourceEnterprise) <==> cmd.sourceEnterprise || (d.Some? && JTruthy(d.value.sourceEnterprise)))
        && (JTruthy(a.targetEnterprise) <==> cmd.targetEnterprise || (d.Some? && JTruthy(d.value.targetEnterprise)))
        && (JTruthy(a.preserveIds) <==> cmd.preserveIds || (d.Some? && JTruthy(d.value.preserveIds)))
        && (JTruthy(a.resume) <==> cmd.resume || (d.Some? && JTruthy(d.value.resume)))
        && (d.Some? && !cmd.sourceSsl && Get(Section(configFile.value, "source"), "ssl").None? ==> a.sourceSsl == JBool(true))
  {
  }

  /** The command line's strings win over the config file's; without either the host is qase.io and the mappings file mappings.json. */
  lemma ParseArgsStrings(cmd: CommandLine, configFile: Option<Json>)
    ensures var r := ParseArgs(cmd, configFile);
      r.Parsed? ==>
        var a := r.args;
        var d := ConfigDefaults(configFile);
        && (cmd.sourceHost.Some? ==> a.sourceHost == JStr(cmd.sourceHost.value))
        && (cmd.targetHost.Some? ==> a.targetHost == JStr(cmd.targetHost.value))
        && (cmd.mappingsFile.Some? ==> a.mappingsFile == JStr(cmd.mappingsFile.value))
        && (cmd.sourceHost.None? && d.None? ==> a.sourceHost == JStr(DefaultHost))
        && (cmd.mappingsFile.None? && d.None? ==> a.mappingsFile == JStr(DefaultMappingsFile))
        && (cmd.sourceHost.None? && d.Some? ==> a.sourceHost == GetOr(Section(configFile.value, "source"), "host", JStr(DefaultHost)))
        && (cmd.skipProjects.None? && d.None? ==> a.skipProjects == JNull)
        && (cmd.skipProjects.Some? ==> a.skipProjects.JList? && |a.skipProjects.items| == |cmd.skipProjects.value|)
  {
  }

  // --------------------------------------------------------- step results

  type Ids = map<Json, Json>

  /** One `stats.add_entity(kind, source_count, target_count)` call. */
  datatype Tally = Tally(kind: string, sourceCount: int, targetCount: int)

  /** What a migrator did: its return value or exception, the store it left, its `add_entity` calls in order. */
  datatype StepRun<+T> = StepRun(outcome: Reply<T>, store: Store, added: seq<Tally>)

  /** The store, the two statistics tables, and every checkpoint written so far, oldest first. */
  datatype Progress = Progress(store: Store, processed: map<string, int>, created: map<string, int>, saves: seq<MappingsFile>)

  /** A stage either goes on with its value or lets an exception escape. */
  datatype Flow<+T> = Next(value: T, progress: Progress) | Stop(exc: Exc, progress: Progress)

  /** Counts after a sequence of `add_entity` calls; `target` picks the created counts. */
  function Tallied(counts: map<string, int>, added: seq<Tally>, target: bool): map<string, int>
  {
    if added == [] then counts
    else
      var a := added[|added| - 1];
      Accumulate(Tallied(counts, added[..|added| - 1], target), a.kind, if target then a.targetCount else a.sourceCount)
  }

  /** Replaying two runs of calls is replaying their concatenation. */
  lemma {:induction false} TalliedAppend(counts: map<string, int>, xs: seq<Tally>, ys: seq<Tally>, target: bool)
    ensures Tallied(Tallied(counts, xs, target), ys, target) == Tallied(counts, xs + ys, target)
    decreases |ys|
  {
    if ys != [] {
      var n := |ys| - 1;
      assert (xs + ys)[..|xs| + n] == xs + ys[..n];
      TalliedAppend(counts, xs, ys[..n], target);
    } else {
      assert xs + ys == xs;
    }
  }

  /** The state after a migrator returns or raises. */
  function Apply<T>(p: Progress, run: StepRun<T>): Progress
  {
    Progress(run.store, Tallied(p.processed, run.added, false), Tallied(p.created, run.added, true), p.saves)
  }

  /** `mappings.save_to_file(args.mappings_file)`. */
  function Save(p: Progress): (q: Progress)
    ensures q.store == p.store && q.processed == p.processed && q.created == p.created
    ensures q.saves == p.saves + [Saved(p.store)]
  {
    p.(saves := p.saves + [Saved(p.store)])
  }

  const Interrupt: Exc := OtherException("KeyboardInterrupt")

  /** Caught by `except Exception`: everything but a KeyboardInterrupt, which is a `BaseException`. */
  predicate IsException(e: Exc)
  {
    e != Interrupt
  }

  /** The value the step hands on: what it returned, or the fallback after a caught failure. */
  function ValueOr<T>(r: Reply<T>, fallback: T): T
  {
    if r.Ok? then r.value else fallback
  }

  /**
   * A step inside `try: x = step(...); save` / `except Exception: x = fallback; save`.
   * The checkpoint holds whatever the step left in the store, whether it
   * returned or raised; only a KeyboardInterrupt escapes, unsaved.
   */
  function Guarded<T>(p: Progress, run: StepRun<T>, fallback: T): (f: Flow<T>)
    ensures f.Next? <==> run.outcome.Ok? || IsException(run.outcome.exc)
    ensures f.Next? ==> f.value == ValueOr(run.outcome, fallback) && f.progress == Save(Apply(p, run))
    ensures f.Stop? ==> f.exc == run.outcome.exc && f.progress == Apply(p, run)
  {
    match run.outcome
    case Ok(v) => Next(v, Save(Apply(p, run)))
    case Raised(e) => if IsException(e) then Next(fallback, Save(Apply(p, run))) else Stop(e, Apply(p, run))
  }

  /** A workspace step outside any inner `try`: it is saved when it returns, and whatever it raises escapes. */
  function Unguarded<T>(p: Progress, run: StepRun<T>): (f: Flow<T>)
    ensures f.Next? <==> run.outcome.Ok?
    ensures f.Next? ==> f.value == run.outcome.value && f.progress == Save(Apply(p, run))
    ensures f.Stop? ==> f.exc == run.outcome.exc && f.progress == Apply(p, run)
  {
    match run.outcome
    case Ok(v) => Next(v, Save(Apply(p, run)))
    case Raised(e) => Stop(e, Apply(p, run))
  }

  // ----------------------------------------------------------- migrators

  /** What `migrate_cases` is given besides the project codes. */
  datatype CaseInputs = CaseInputs(suites: Ids, customFields: Ids, milestones: Ids, sharedSteps: Ids,
                                   sharedParameters: Ids, users: Ids, preserveIds: Json)

  /** What `migrate_runs` is given besides the project codes. */
  datatype RunInputs = RunInputs(cases: Ids, configurations: Ids, milestones: Ids, plans: Ids, users: Ids)

  /** What `migrate_results` is given besides the project codes: one positional argument more than it takes. */
  datatype ResultInputs = ResultInputs(runs: Ids, cases: Ids, users: Ids)

  /** The per-project migrators, each called with the source and target codes. */
  datatype ProjectMigrators = ProjectMigrators(
    milestones: (string, string, Store) -> StepRun<Ids>,
    configurations: (string, string, Store) -> StepRun<(Ids, Ids)>,
    environments: (string, string, Store) -> StepRun<Ids>,
    sharedSteps: (string, string, Store) -> StepRun<Ids>,
    suites: (string, string, Store) -> StepRun<Ids>,
    cases: (string, string, CaseInputs, Store) -> StepRun<Ids>,
    plans: (string, string, Ids, Store) -> StepRun<Ids>,
    runs: (string, string, RunInputs, Store) -> StepRun<Ids>,
    results: (string, string, ResultInputs, Store) -> StepRun<()>)

  /**
   * The workspace-level migrators; `sourceUsers` is what `extract_users` on
   * the source service answers, which only the user fallback asks for.
   */
  datatype Migrators = Migrators(
    projects: (Json, Store) -> StepRun<seq<ProjectPair>>,
    users: Store -> StepRun<Dicts.ODict<Json, Json>>,
    groups: (Ids, Store) -> StepRun<Ids>,
    sourceUsers: Reply<Ids>,
    customFields: Store -> StepRun<Ids>,
    sharedParameters: (seq<string>, Store) -> StepRun<Ids>,
    attachments: (seq<ProjectPair>, Store) -> StepRun<Ids>,
    perProject: ProjectMigrators)

  /** `migrate_users` is called with five arguments and takes four, so the call itself raises. */
  const UsersArity: Exc := TypeError("migrate_users() takes 4 positional arguments but 5 were given")

  /** `migrate_results` is called with nine arguments and takes eight, so the call itself raises. */
  const ResultsArity: Exc := TypeError("migrate_results() takes 8 positional arguments but 9 were given")

  // ------------------------------------------------------- project step

  /** `args.only_projects if args.only_projects else None`. */
  function OnlyProjects(args: Args): Json
  {
    if JTruthy(args.onlyProjects) then args.onlyProjects else JNull
  }

  /** `code not in container` for the value `--skip-projects` or the config gave. */
  function NotIn(container: Json, code: string): (r: Reply<bool>)
    ensures container.JList? ==> r == Ok(JStr(code) !in container.items)
    ensures r.Raised? <==> !(container.JList? || container.JStr? || container.JObject?)
  {
    match container
    case JList(items) => Ok(JStr(code) !in items)
    case JStr(s) => Ok(!Contains(s, code))
    case JObject(es) => Ok(JGet(es, code).None?)
    case _ => Raised(TypeError("argument of type is not iterable"))
  }

  /** `[p for p in projects if p['source_code'] not in skip]`. */
  function Kept(projects: seq<ProjectPair>, skip: Json): Reply<seq<ProjectPair>>
  {
    if projects == [] then Ok([])
    else
      var n := |projects| - 1;
      match Kept(projects[..n], skip)
      case Raised(e) => Raised(e)
      case Ok(kept) =>
        match NotIn(skip, projects[n].sourceCode)
        case Raised(e) => Raised(e)
        case Ok(keep) => Ok(kept + if keep then [projects[n]] else [])
  }

  /** The projects not listed in a skip list, in their order. */
  predicate Unskipped(skip: seq<Json>, p: ProjectPair)
  {
    JStr(p.sourceCode) !in skip
  }

  /**
   * With a skip list, the kept projects are those whose source code the
   * list does not hold, in the order `migrate_projects` returned them.
   */
  lemma {:induction false} KeptList(projects: seq<ProjectPair>, skip: Json)
    requires skip.JList?
    ensures Kept(projects, skip) == Ok(Seqs.Filter(projects, p => Unskipped(skip.items, p)))
    ensures forall p :: p in Kept(projects, skip).value <==> p in projects && JStr(p.sourceCode) !in skip.items
  {
    if projects != [] {
      KeptList(projects[..|projects| - 1], skip);
    }
    forall p {
      Seqs.FilterMembers(projects, q => Unskipped(skip.items, q), p);
    }
  }

  /** A skip value that is no container makes the filter raise as soon as there is a project to test. */
  lemma {:induction false} KeptRaises(projects: seq<ProjectPair>, skip: Json)
    requires !(skip.JList? || skip.JStr? || skip.JObject?)
    ensures Kept(projects, skip).Raised? <==> projects != []
  {
    if projects != [] {
      var n := |projects| - 1;
      if n > 0 {
        KeptRaises(projects[..n], skip);
      }
    }
  }

  /** Step 1: `migrate_projects`, then the skip filter; anything raised escapes, unsaved. */
  function ProjectsStep(m: Migrators, args: Args, p: Progress): Flow<seq<ProjectPair>>
  {
    var run := m.projects(OnlyProjects(args), p.store);
    var q := Apply(p, run);
    if run.outcome.Raised? then Stop(run.outcome.exc, q)
    else if !JTruthy(args.skipProjects) then Next(run.outcome.value, q)
    else
      match Kept(run.outcome.value, args.skipProjects)
      case Ok(kept) => Next(kept, q)
      case Raised(e) => Stop(e, q)
  }

  // --------------------------------------------------------- user step

  /**
   * A dict comprehension that rebuilds keys in order: key `k` becomes
   * `JInt(conv(k))` with value `val(k)`, a later key overwriting an earlier
   * one, and the first key `conv` raises on stops it.
   */
  function RekeyWith(keys: seq<Json>, val: Json -> Json, conv: Json -> Reply<int>): Reply<Ids>
  {
    if keys == [] then Ok(map[])
    else
      var n := |keys| - 1;
      match RekeyWith(keys[..n], val, conv)
      case Raised(e) => Raised(e)
      case Ok(r) =>
        match conv(keys[n])
        case Raised(e) => Raised(e)
        case Ok(i) => Ok(r[JInt(i) := val(keys[n])])
  }

  lemma {:induction false} RekeyWithOk(keys: seq<Json>, val: Json -> Json, conv: Json -> Reply<int>)
    ensures RekeyWith(keys, val, conv).Ok? <==> forall i :: 0 <= i < |keys| ==> conv(keys[i]).Ok?
  {
    if keys != [] {
      var n := |keys| - 1;
      RekeyWithOk(keys[..n], val, conv);
      assert forall i :: 0 <= i < n ==> keys[..n][i] == keys[i];
    }
  }

  lemma {:induction false} RekeyWithKeys(keys: seq<Json>, val: Json -> Json, conv: Json -> Reply<int>)
    requires RekeyWith(keys, val, conv).Ok?
    ensures forall j :: j in RekeyWith(keys, val, conv).value ==> j.JInt?
    ensures forall i :: 0 <= i < |keys| ==> conv(keys[i]).Ok? && JInt(conv(keys[i]).value) in RekeyWith(keys, val, conv).value
  {
    if keys != [] {
      var n := |keys| - 1;
      RekeyWithKeys(keys[..n], val, conv);
      assert forall i :: 0 <= i < n ==> keys[..n][i] == keys[i];
    }
  }

  lemma {:induction false} RekeyWithValues(keys: seq<Json>, val: Json -> Json, conv: Json -> Reply<int>, j: Json)
    requires RekeyWith(keys, val, conv).Ok? && j in RekeyWith(keys, val, conv).value
    ensures j.JInt?
    ensures exists i :: 0 <= i < |keys| && conv(keys[i]) == Ok(j.i) && RekeyWith(keys, val, conv).value[j] == val(keys[i])
  {
    var n := |keys| - 1;
    var r0 := RekeyWith(keys[..n], val, conv).value;
    var i0 := conv(keys[n]).value;
    assert RekeyWith(keys, val, conv).value == r0[JInt(i0) := val(keys[n])];
    if j != JInt(i0) {
      RekeyWithValues(keys[..n], val, conv, j);
      var i :| 0 <= i < n && conv(keys[..n][i]) == Ok(j.i) && r0[j] == val(keys[..n][i]);
      assert keys[..n][i] == keys[i];
    }
  }

  /** `{int(k): v for k, v in user_mapping.items()}` over the mapping's keys in order. */
  function Rekeyed(keys: seq<Json>, entries: Ids): Reply<Ids>
    requires forall i :: 0 <= i < |keys| ==> keys[i] in entries
  {
    RekeyWith(keys, k => if k in entries then entries[k] else JNull, k => IntOf(ToValue(k)))
  }

  /** The rebuild succeeds exactly when every key converts with `int()`. */
  lemma RekeyedOk(keys: seq<Json>, entries: Ids)
    requires forall i :: 0 <= i < |keys| ==> keys[i] in entries
    ensures Rekeyed(keys, entries).Ok? <==> forall i :: 0 <= i < |keys| ==> IntOf(ToValue(keys[i])).Ok?
  {
    RekeyWithOk(keys, k => if k in entries then entries[k] else JNull, k => IntOf(ToValue(k)));
  }

  /** After a successful rebuild every key is an int and every source key's conversion is present. */
  lemma RekeyedKeys(keys: seq<Json>, entries: Ids)
    requires forall i :: 0 <= i < |keys| ==> keys[i] in entries
    requires Rekeyed(keys, entries).Ok?
    ensures forall j :: j in Rekeyed(keys, entries).value ==> j.JInt?
    ensures forall i :: 0 <= i < |keys| ==>
      IntOf(ToValue(keys[i])).Ok? && JInt(IntOf(ToValue(keys[i])).value) in Rekeyed(keys, entries).value
  {
    RekeyWithKeys(keys, k => if k in entries then entries[k] else JNull, k => IntOf(ToValue(k)));
  }

  /** Each value of a rebuilt mapping is the value of a source key that converts to its key. */
  lemma RekeyedValues(keys: seq<Json>, entries: Ids, j: Json)
    requires forall i :: 0 <= i < |keys| ==> keys[i] in entries
    requires Rekeyed(keys, entries).Ok? && j in Rekeyed(keys, entries).value
    ensures j.JInt?
    ensures exists i :: 0 <= i < |keys| && IntOf(ToValue(keys[i])) == Ok(j.i) && Rekeyed(keys, entries).value[j] == entries[keys[i]]
  {
    var val := k => if k in entries then entries[k] else JNull;
    var conv := k => IntOf(ToValue(k));
    RekeyWithValues(keys, val, conv, j);
    var i :| 0 <= i < |keys| && conv(keys[i]) == Ok(j.i) && RekeyWith(keys, val, conv).value[j] == val(keys[i]);
    assert IntOf(ToValue(keys[i])) == Ok(j.i) && Rekeyed(keys, entries).value[j] == entries[keys[i]];
  }

  /** The user mapping after the key fix-up: rebuilt with int keys when its first key is a string. */
  function UserKeys(d: Dicts.ODict<Json, Json>): Reply<Ids>
  {
    if d.keys != [] && d.keys[0].JStr? then Rekeyed(d.keys, d.entries) else Ok(d.entries)
  }

  /**
   * The fallback mapping `{user.get('id'): default for user in source_users if user.get('id')}`.
   * `source_users` is the dict `extract_users` returns, keyed by email, so
   * the loop visits its keys; `.get` on a key (never a dict) raises
   * AttributeError as soon as there is one.
   */
  function FallbackMapping(sourceUsers: Ids): (r: Reply<Ids>)
    ensures r.Ok? <==> sourceUsers == map[]
    ensures r.Ok? ==> r.value == map[]
  {
    if sourceUsers == map[] then Ok(map[]) else Raised(AttributeError)
  }

  /** The `except` branch of the user step: the fallback mapping, else `{}`; then a checkpoint. */
  function Fallback(sourceUsers: Reply<Ids>, p: Progress): Flow<Ids>
  {
    match sourceUsers
    case Raised(e) => if IsException(e) then Next(map[], Save(p)) else Stop(e, p)
    case Ok(users) =>
      match FallbackMapping(users)
      case Ok(um) =>
        Next(um, Save(Progress(p.store.(users := um), Accumulate(p.processed, "users", |users|),
                               Accumulate(p.created, "users", |um|), p.saves)))
      case Raised(_) => Next(map[], Save(p))
  }

  /** Step 2 and 2.5: users and groups when `users.migrate` is truthy, else an empty user table. */
  function UsersStep(m: Migrators, config: Json, p: Progress): Flow<Ids>
  {
    var uc := Section(config, "users");
    if !uc.JObject? then Stop(AttributeError, p)
    else if !JTruthy(GetOr(uc, "migrate", JBool(false))) then
      Next(map[], Save(p.(store := p.store.(users := map[]))))
    else
      var run := m.users(p.store);
      var q := Apply(p, run);
      var um := if run.outcome.Ok? then UserKeys(run.outcome.value) else Raised(run.outcome.exc);
      if um.Raised? then
        if IsException(um.exc) then Fallback(m.sourceUsers, q) else Stop(um.exc, q)
      else
        var g := Guarded(Save(q), m.groups(um.value, run.store), map[]);
        if g.Stop? then Stop(g.exc, g.progress) else Next(um.value, g.progress)
  }

  /**
   * With `users.migrate` off, the user mapping is `{}`, the users table is
   * emptied and checkpointed, and neither the user, group nor extraction
   * answers matter.
   */
  lemma UsersDisabled(m: Migrators, m2: Migrators, config: Json, p: Progress)
    requires Section(config, "users").JObject? && !JTruthy(GetOr(Section(config, "users"), "migrate", JBool(false)))
    ensures UsersStep(m, config, p) == Next(map[], Save(p.(store := p.store.(users := map[]))))
    ensures UsersStep(m2, config, p) == UsersStep(m, config, p)
  {
  }

  /**
   * As written the user step always raises (the call has one argument too
   * many), so whatever groups would do, the mapping handed on is `{}`. When
   * the source has users the fallback raises too and the users table keeps
   * whatever it held (a resumed table survives); when it has none, the table
   * is emptied and a zero count recorded.
   */
  lemma UsersAsWritten(m: Migrators, m2: Migrators, config: Json, p: Progress)
    requires Section(config, "users").JObject? && JTruthy(GetOr(Section(config, "users"), "migrate", JBool(false)))
    requires m.users(p.store) == StepRun(Raised(UsersArity), p.store, [])
    requires m2.users(p.store) == m.users(p.store) && m2.sourceUsers == m.sourceUsers
    ensures UsersStep(m2, config, p) == UsersStep(m, config, p)
    ensures m.sourceUsers != Raised(Interrupt) ==> UsersStep(m, config, p).Next? && UsersStep(m, config, p).value == map[]
    ensures m.sourceUsers.Ok? && m.sourceUsers.value != map[] ==> UsersStep(m, config, p) == Next(map[], Save(p))
    ensures m.sourceUsers == Ok(map[]) ==>
      UsersStep(m, config, p) == Next(map[], Save(Progress(p.store.(users := map[]), Accumulate(p.processed, "users", 0),
                                                          Accumulate(p.created, "users", 0), p.saves)))
  {
    assert Apply(p, m.users(p.store)) == p;
  }

  // ---------------------------------------------------- workspace steps

  function Codes(projects: seq<ProjectPair>): (r: seq<string>)
    ensures |r| == |projects| && forall i :: 0 <= i < |projects| ==> r[i] == projects[i].sourceCode
  {
    seq(|projects|, i requires 0 <= i < |projects| => projects[i].sourceCode)
  }

  /** Steps 3 to 5: custom fields, shared parameters, attachments; none of them is inside an inner `try`. */
  function WorkspaceSteps(m: Migrators, projects: seq<ProjectPair>, p: Progress): Flow<(Ids, Ids)>
  {
    var c := Unguarded(p, m.customFields(p.store));
    if c.Stop? then Stop(c.exc, c.progress) else
    var s := Unguarded(c.progress, m.sharedParameters(Codes(projects), c.progress.store));
    if s.Stop? then Stop(s.exc, s.progress) else
    var a := Unguarded(s.progress, m.attachments(projects, s.progress.store));
    if a.Stop? then Stop(a.exc, a.progress) else Next((c.value, s.value), a.progress)
  }

  // ------------------------------------------------------ project steps

  /** The workspace mappings every project's steps are given. */
  datatype Carried = Carried(users: Ids, customFields: Ids, sharedParameters: Ids, preserveIds: Json)

  /** The mappings of a project's first five steps, each `{}` when its step failed. */
  datatype Earlier = Earlier(milestones: Ids, configGroups: Ids, configurations: Ids, environments: Ids,
                             sharedSteps: Ids, suites: Ids)

  function EarlySteps(pm: ProjectMigrators, s: string, t: string, p: Progress): Flow<Earlier>
  {
    var f1 := Guarded(p, pm.milestones(s, t, p.store), map[]);
    if f1.Stop? then Stop(f1.exc, f1.progress) else
    var f2 := Guarded(f1.progress, pm.configurations(s, t, f1.progress.store), (map[], map[]));
    if f2.Stop? then Stop(f2.exc, f2.progress) else
    var f3 := Guarded(f2.progress, pm.environments(s, t, f2.progress.store), map[]);
    if f3.Stop? then Stop(f3.exc, f3.progress) else
    var f4 := Guarded(f3.progress, pm.sharedSteps(s, t, f3.progress.store), map[]);
    if f4.Stop? then Stop(f4.exc, f4.progress) else
    var f5 := Guarded(f4.progress, pm.suites(s, t, f4.progress.store), map[]);
    if f5.Stop? then Stop(f5.exc, f5.progress) else
    Next(Earlier(f1.value, f2.value.0, f2.value.1, f3.value, f4.value, f5.value), f5.progress)
  }

  function LateSteps(pm: ProjectMigrators, s: string, t: string, e: Earlier, w: Carried, p: Progress): Flow<()>
  {
    var inputs := CaseInputs(e.suites, w.customFields, e.milestones, e.sharedSteps, w.sharedParameters, w.users, w.preserveIds);
    var f6 := Guarded(p, pm.cases(s, t, inputs, p.store), map[]);
    if f6.Stop? then Stop(f6.exc, f6.progress) else
    var f7 := Guarded(f6.progress, pm.plans(s, t, f6.value, f6.progress.store), map[]);
    if f7.Stop? then Stop(f7.exc, f7.progress) else
    var f8 := Guarded(f7.progress, pm.runs(s, t, RunInputs(f6.value, e.configurations, e.milestones, f7.value, w.users), f7.progress.store), map[]);
    if f8.Stop? then Stop(f8.exc, f8.progress) else
    var f9 := Guarded(f8.progress, pm.results(s, t, ResultInputs(f8.value, f6.value, w.users), f8.progress.store), ());
    if f9.Stop? then Stop(f9.exc, f9.progress) else Next((), f9.progress)
  }

  /** The body of the loop over projects: nine guarded steps. */
  function ProjectSteps(pm: ProjectMigrators, project: ProjectPair, w: Carried, p: Progress): Flow<()>
  {
    var e := EarlySteps(pm, project.sourceCode, project.targetCode, p);
    if e.Stop? then Stop(e.exc, e.progress)
    else LateSteps(pm, project.sourceCode, project.targetCode, e.value, w, e.progress)
  }

  /** The loop over projects, stopping at the first escaping exception. */
  function AllProjects(pm: ProjectMigrators, projects: seq<ProjectPair>, w: Carried, p: Progress): Flow<()>
  {
    if projects == [] then Next((), p)
    else
      var f := AllProjects(pm, projects[..|projects| - 1], w, p);
      if f.Stop? then f else ProjectSteps(pm, projects[|projects| - 1], w, f.progress)
  }

  /** A loop over `xs` that runs `step` on each until one stops: the shape of the project loop. */
  function FlowAll<T>(step: (T, Progress) -> Flow<()>, xs: seq<T>, p: Progress): Flow<()>
  {
    if xs == [] then Next((), p)
    else
      var f := FlowAll(step, xs[..|xs| - 1], p);
      if f.Stop? then f else step(xs[|xs| - 1], f.progress)
  }

  lemma {:induction false} FlowAllStop<T>(step: (T, Progress) -> Flow<()>, xs: seq<T>, k: nat, p: Progress)
    requires k <= |xs| && FlowAll(step, xs[..k], p).Stop?
    ensures FlowAll(step, xs, p) == FlowAll(step, xs[..k], p)
    decreases |xs| - k
  {
    if k < |xs| {
      var n := |xs| - 1;
      assert xs[..n][..k] == xs[..k];
      FlowAllStop(step, xs[..n], k, p);
    } else {
      assert xs[..k] == xs;
    }
  }

  lemma {:induction false} AllProjectsFlow(pm: ProjectMigrators, projects: seq<ProjectPair>, w: Carried, p: Progress)
    ensures AllProjects(pm, projects, w, p) == FlowAll((x, q) => ProjectSteps(pm, x, w, q), projects, p)
  {
    if projects != [] {
      AllProjectsFlow(pm, projects[..|projects| - 1], w, p);
    }
  }

  /** Once the loop stopped, the projects after that change nothing. */
  lemma AllProjectsStop(pm: ProjectMigrators, projects: seq<ProjectPair>, k: nat, w: Carried, p: Progress)
    requires k <= |projects|
    requires AllProjects(pm, projects[..k], w, p).Stop?
    ensures AllProjects(pm, projects, w, p) == AllProjects(pm, projects[..k], w, p)
  {
    var step := (x, q) => ProjectSteps(pm, x, w, q);
    AllProjectsFlow(pm, projects, w, p);
    AllProjectsFlow(pm, projects[..k], w, p);
    FlowAllStop(step, projects, k, p);
  }

  // ------------------------------------------------------------- main

  /** How `main` ends. */
  datatype Ending =
    | BadUsage(option: string)    // parser.error: nothing runs
    | Crashed(exc: Exc)           // raised before the outer `try`: nothing is saved
    | NoProjects                  // "No projects to migrate!": returns before any checkpoint
    | Completed                   // every step ran; a final checkpoint
    | Failed(exc: Exc)            // caught by the outer handler: a checkpoint, then exit 1

  function ExitStatus(e: Ending): int
  {
    match e
    case BadUsage(_) => 2
    case Crashed(_) => 1
    case NoProjects => 0
    case Completed => 0
    case Failed(_) => 1
  }

  datatype Outcome = Outcome(ending: Ending, progress: Progress)

  /** `main`'s config: the loaded file, or `{}`. */
  function MainConfig(configFile: Option<Json>): Json
  {
    if configFile.Some? then configFile.value else JObject([])
  }

  /** Reading the SCIM settings needs the config and its two sections to be dicts. */
  predicate Readable(config: Json)
  {
    config.JObject? && Section(config, "source").JObject? && Section(config, "target").JObject?
  }

  /** The store when step 1 begins: loaded from the mappings file on `--resume`, else empty. */
  function Start(args: Args, stored: Option<MappingsFile>): Store
  {
    if JTruthy(args.resume) then Loaded(EmptyStore(), stored) else EmptyStore()
  }

  function Aborted<T>(f: Flow<T>): Outcome
    requires f.Stop?
  {
    Outcome(Failed(f.exc), Save(f.progress))
  }

  /** The outer `try` of `main`. */
  function Driven(m: Migrators, args: Args, config: Json, p: Progress): Outcome
  {
    var f := ProjectsStep(m, args, p);
    if f.Stop? then Aborted(f)
    else if f.value == [] then Outcome(NoProjects, f.progress)
    else PastProjects(m, args, config, f.value, Save(f.progress))
  }

  /** Steps 2 to 4, after a non-empty step 1 and its checkpoint `p`. */
  function PastProjects(m: Migrators, args: Args, config: Json, projects: seq<ProjectPair>, p: Progress): Outcome
  {
    var u := UsersStep(m, config, p);
    if u.Stop? then Aborted(u) else PastUsers(m, args, projects, u.value, u.progress)
  }

  /** Steps 3 and 4, with the user mapping `users` of step 2. */
  function PastUsers(m: Migrators, args: Args, projects: seq<ProjectPair>, users: Ids, p: Progress): Outcome
  {
    var w := WorkspaceSteps(m, projects, p);
    if w.Stop? then Aborted(w) else
    var e := AllProjects(m.perProject, projects, Carried(users, w.value.0, w.value.1, args.preserveIds), w.progress);
    if e.Stop? then Aborted(e) else Outcome(Completed, Save(e.progress))
  }

  /**
   * `main()`. `configFile` is config.json (`None` when missing or not JSON),
   * `stored` the mappings file as it is when `main` starts (`None` when
   * missing).
   */
  function Migration(cmd: CommandLine, configFile: Option<Json>, stored: Option<MappingsFile>, m: Migrators): Outcome
  {
    Main(ParseArgs(cmd, configFile), MainConfig(configFile), stored, m)
  }

  /** `main()` once the command line is parsed and the configuration read into `config`. */
  function Main(parsed: Parsed, config: Json, stored: Option<MappingsFile>, m: Migrators): Outcome
  {
    var blank := Progress(EmptyStore(), map[], map[], []);
    if parsed.UsageError? then Outcome(BadUsage(parsed.option), blank)
    else if !Readable(config) then Outcome(Crashed(AttributeError), blank)
    else Driven(m, parsed.args, config, Progress(Start(parsed.args, stored), map[], map[], []))
  }

  // ------------------------------------------------------ the driver

  /** The live objects and the checkpoints written so far, as a `Progress`. */
  function Now(mappings: MigrationMappings, stats: MigrationStats, saves: seq<MappingsFile>): Progress
    reads mappings, stats
  {
    Progress(mappings.Value(), stats.processed, stats.created, saves)
  }

  /** The live objects hold the store and counts of `p`. */
  predicate At(mappings: MigrationMappings, stats: MigrationStats, p: Progress)
    reads mappings, stats
  {
    mappings.Value() == p.store && stats.processed == p.processed && stats.created == p.created
  }

  /** Replays a migrator's `add_entity` calls. */
  method Record(stats: MigrationStats, added: seq<Tally>)
    requires stats.Valid()
    modifies stats
    ensures stats.Valid()
    ensures stats.processed == Tallied(old(stats.processed), added, false)
    ensures stats.created == Tallied(old(stats.created), added, true)
  {
    for i := 0 to |added|
      invariant stats.Valid()
      invariant stats.processed == Tallied(old(stats.processed), added[..i], false)
      invariant stats.created == Tallied(old(stats.created), added[..i], true)
    {
      assert added[..i + 1][..i] == added[..i];
      stats.AddEntity(added[i].kind, added[i].sourceCount, added[i].targetCount);
    }
    assert added[..|added|] == added;
  }

  /** Applies what a migrator did to the live objects. */
  method Perform<T>(run: StepRun<T>, mappings: MigrationMappings, stats: MigrationStats)
    requires stats.Valid()
    modifies mappings, stats
    ensures stats.Valid()
    ensures At(mappings, stats, Apply(old(Now(mappings, stats, [])), run))
  {
    mappings.SetValue(run.store);
    Record(stats, run.added);
  }

  /** `mappings.save_to_file(args.mappings_file)`, appended to the checkpoints. */
  method Checkpoint(mappings: MigrationMappings, saves: seq<MappingsFile>) returns (r: seq<MappingsFile>)
    ensures r == saves + [Saved(mappings.Value())]
  {
    var file := mappings.SaveToFile();
    r := saves + [file];
  }

  /** One migration step, inside an inner `try` when `guarded`. */
  method Step<T>(run: StepRun<T>, fallback: T, guarded: bool, mappings: MigrationMappings, stats: MigrationStats,
                 saves: seq<MappingsFile>) returns (f: Flow<T>)
    requires stats.Valid()
    modifies mappings, stats
    ensures stats.Valid() && At(mappings, stats, f.progress)
    ensures f == if guarded then Guarded(old(Now(mappings, stats, saves)), run, fallback)
                 else Unguarded(old(Now(mappings, stats, saves)), run)
  {
    Perform(run, mappings, stats);
    if run.outcome.Ok? || (guarded && IsException(run.outcome.exc)) {
      var saved := Checkpoint(mappings, saves);
      f := Next(ValueOr(run.outcome, fallback), Now(mappings, stats, saved));
    } else {
      f := Stop(run.outcome.exc, Now(mappings, stats, saves));
    }
  }

  method MigrateProjectsStep(m: Migrators, args: Args, mappings: MigrationMappings, stats: MigrationStats,
                             saves: seq<MappingsFile>) returns (f: Flow<seq<ProjectPair>>)
    requires stats.Valid()
    modifies mappings, stats
    ensures stats.Valid() && At(mappings, stats, f.progress)
    ensures f == ProjectsStep(m, args, old(Now(mappings, stats, saves)))
  {
    var run := m.projects(OnlyProjects(args), mappings.Value());
    Perform(run, mappings, stats);
    var now := Now(mappings, stats, saves);
    if run.outcome.Raised? {
      return Stop(run.outcome.exc, now);
    }
    var projects := run.outcome.value;
    if JTruthy(args.skipProjects) {
      var kept := Kept(projects, args.skipProjects);
      if kept.Raised? {
        return Stop(kept.exc, now);
      }
      projects := kept.value;
    }
    return Next(projects, now);
  }

  method UserFallback(sourceUsers: Reply<Ids>, mappings: MigrationMappings, stats: MigrationStats,
                      saves: seq<MappingsFile>) returns (f: Flow<Ids>)
    requires stats.Valid()
    modifies mappings, stats
    ensures stats.Valid() && At(mappings, stats, f.progress)
    ensures f == Fallback(sourceUsers, old(Now(mappings, stats, saves)))
  {
    if sourceUsers.Raised? && !IsException(sourceUsers.exc) {
      return Stop(sourceUsers.exc, Now(mappings, stats, saves));
    }
    var um := if sourceUsers.Ok? then FallbackMapping(sourceUsers.value) else Raised(sourceUsers.exc);
    if um.Ok? {
      mappings.users := um.value;
      stats.AddEntity("users", |sourceUsers.value|, |um.value|);
    }
    var saved := Checkpoint(mappings, saves);
    return Next(ValueOr(um, map[]), Now(mappings, stats, saved));
  }

  method MigrateUsersStep(m: Migrators, config: Json, mappings: MigrationMappings, stats: MigrationStats,
                          saves: seq<MappingsFile>) returns (f: Flow<Ids>)
    requires stats.Valid()
    modifies mappings, stats
    ensures stats.Valid() && At(mappings, stats, f.progress)
    ensures f == UsersStep(m, config, old(Now(mappings, stats, saves)))
  {
    var uc := Section(config, "users");
    if !uc.JObject? {
      return Stop(AttributeError, Now(mappings, stats, saves));
    }
    if !JTruthy(GetOr(uc, "migrate", JBool(false))) {
      mappings.users := map[];
      var saved := Checkpoint(mappings, saves);
      return Next(map[], Now(mappings, stats, saved));
    }
    var run := m.users(mappings.Value());
    Perform(run, mappings, stats);
    var um := if run.outcome.Ok? then UserKeys(run.outcome.value) else Raised(run.outcome.exc);
    if um.Raised? {
      if !IsException(um.exc) {
        return Stop(um.exc, Now(mappings, stats, saves));
      }
      f := UserFallback(m.sourceUsers, mappings, stats, saves);
      return;
    }
    var saved := Checkpoint(mappings, saves);
    var g := Step(m.groups(um.value, mappings.Value()), map[], true, mappings, stats, saved);
    if g.Stop? {
      return Stop(g.exc, g.progress);
    }
    return Next(um.value, g.progress);
  }

  method MigrateWorkspaceSteps(m: Migrators, projects: seq<ProjectPair>, mappings: MigrationMappings,
                               stats: MigrationStats, saves: seq<MappingsFile>) returns (f: Flow<(Ids, Ids)>)
    requires stats.Valid()
    modifies mappings, stats
    ensures stats.Valid() && At(mappings, stats, f.progress)
    ensures f == WorkspaceSteps(m, projects, old(Now(mappings, stats, saves)))
  {
    var c := Step(m.customFields(mappings.Value()), map[], false, mappings, stats, saves);
    if c.Stop? {
      return Stop(c.exc, c.progress);
    }
    var s := Step(m.sharedParameters(Codes(projects), mappings.Value()), map[], false, mappings, stats, c.progress.saves);
    if s.Stop? {
      return Stop(s.exc, s.progress);
    }
    var a := Step(m.attachments(projects, mappings.Value()), map[], false, mappings, stats, s.progress.saves);
    if a.Stop? {
      return Stop(a.exc, a.progress);
    }
    return Next((c.value, s.value), a.progress);
  }

  method MigrateEarly(pm: ProjectMigrators, s: string, t: string, mappings: MigrationMappings,
                      stats: MigrationStats, saves: seq<MappingsFile>) returns (f: Flow<Earlier>)
    requires stats.Valid()
    modifies mappings, stats
    ensures stats.Valid() && At(mappings, stats, f.progress)
    ensures f == EarlySteps(pm, s, t, old(Now(mappings, stats, saves)))
  {
    var f1 := Step(pm.milestones(s, t, mappings.Value()), map[], true, mappings, stats, saves);
    if f1.Stop? {
      return Stop(f1.exc, f1.progress);
    }
    var f2 := Step(pm.configurations(s, t, mappings.Value()), (map[], map[]), true, mappings, stats, f1.progress.saves);
    if f2.Stop? {
      return Stop(f2.exc, f2.progress);
    }
    var f3 := Step(pm.environments(s, t, mappings.Value()), map[], true, mappings, stats, f2.progress.saves);
    if f3.Stop? {
      return Stop(f3.exc, f3.progress);
    }
    var f4 := Step(pm.sharedSteps(s, t, mappings.Value()), map[], true, mappings, stats, f3.progress.saves);
    if f4.Stop? {
      return Stop(f4.exc, f4.progress);
    }
    var f5 := Step(pm.suites(s, t, mappings.Value()), map[], true, mappings, stats, f4.progress.saves);
    if f5.Stop? {
      return Stop(f5.exc, f5.progress);
    }
    return Next(Earlier(f1.value, f2.value.0, f2.value.1, f3.value, f4.value, f5.value), f5.progress);
  }

  method MigrateLate(pm: ProjectMigrators, s: string, t: string, e: Earlier, w: Carried, mappings: MigrationMappings,
                     stats: MigrationStats, saves: seq<MappingsFile>) returns (f: Flow<()>)
    requires stats.Valid()
    modifies mappings, stats
    ensures stats.Valid() && At(mappings, stats, f.progress)
    ensures f == LateSteps(pm, s, t, e, w, old(Now(mappings, stats, saves)))
  {
    var inputs := CaseInputs(e.suites, w.customFields, e.milestones, e.sharedSteps, w.sharedParameters, w.users, w.preserveIds);
    var f6 := Step(pm.cases(s, t, inputs, mappings.Value()), map[], true, mappings, stats, saves);
    if f6.Stop? {
      return Stop(f6.exc, f6.progress);
    }
    var f7 := Step(pm.plans(s, t, f6.value, mappings.Value()), map[], true, mappings, stats, f6.progress.saves);
    if f7.Stop? {
      return Stop(f7.exc, f7.progress);
    }
    var runInputs := RunInputs(f6.value, e.configurations, e.milestones, f7.value, w.users);
    var f8 := Step(pm.runs(s, t, runInputs, mappings.Value()), map[], true, mappings, stats, f7.progress.saves);
    if f8.Stop? {
      return Stop(f8.exc, f8.progress);
    }
    var f9 := Step(pm.results(s, t, ResultInputs(f8.value, f6.value, w.users), mappings.Value()), (), true,
                   mappings, stats, f8.progress.saves);
    if f9.Stop? {
      return Stop(f9.exc, f9.progress);
    }
    return Next((), f9.progress);
  }

  /** The loop over projects. */
  method MigrateEachProject(pm: ProjectMigrators, projects: seq<ProjectPair>, w: Carried, mappings: MigrationMappings,
                            stats: MigrationStats, saves: seq<MappingsFile>) returns (f: Flow<()>)
    requires stats.Valid()
    modifies mappings, stats
    ensures stats.Valid() && At(mappings, stats, f.progress)
    ensures f == AllProjects(pm, projects, w, old(Now(mappings, stats, saves)))
  {
    var p := Now(mappings, stats, saves);
    f := Next((), p);
    for i := 0 to |projects|
      invariant stats.Valid() && At(mappings, stats, f.progress)
      invariant f.Next? && f == AllProjects(pm, projects[..i], w, p)
    {
      assert projects[..i + 1][..i] == projects[..i];
      var project := projects[i];
      var e := MigrateEarly(pm, project.sourceCode, project.targetCode, mappings, stats, f.progress.saves);
      var g: Flow<()>;
      if e.Stop? {
        g := Stop(e.exc, e.progress);
      } else {
        g := MigrateLate(pm, project.sourceCode, project.targetCode, e.value, w, mappings, stats, e.progress.saves);
      }
      if g.Stop? {
        AllProjectsStop(pm, projects, i + 1, w, p);
        return g;
      }
      f := g;
    }
    assert projects[..|projects|] == projects;
  }

  /** The outer `try` of `main` and its handlers. */
  method Drive(m: Migrators, args: Args, config: Json, mappings: MigrationMappings, stats: MigrationStats)
    returns (ending: Ending, saves: seq<MappingsFile>)
    requires stats.Valid()
    modifies mappings, stats
    ensures stats.Valid()
    ensures Outcome(ending, Now(mappings, stats, saves)) == Driven(m, args, config, old(Now(mappings, stats, [])))
  {
    var f := MigrateProjectsStep(m, args, mappings, stats, []);
    if f.Stop? {
      saves := Checkpoint(mappings, f.progress.saves);
      return Failed(f.exc), saves;
    }
    if f.value == [] {
      return NoProjects, f.progress.saves;
    }
    var saved := Checkpoint(mappings, f.progress.saves);
    ending, saves := DriveOn(m, args, config, f.value, mappings, stats, saved);
  }

  /** Steps 2 to 4 of the outer `try`, after the checkpoint `saved` of step 1. */
  method DriveOn(m: Migrators, args: Args, config: Json, projects: seq<ProjectPair>,
                 mappings: MigrationMappings, stats: MigrationStats, saved: seq<MappingsFile>)
    returns (ending: Ending, saves: seq<MappingsFile>)
    requires stats.Valid()
    modifies mappings, stats
    ensures stats.Valid()
    ensures Outcome(ending, Now(mappings, stats, saves)) == PastProjects(m, args, config, projects, old(Now(mappings, stats, saved)))
  {
    var u := MigrateUsersStep(m, config, mappings, stats, saved);
    if u.Stop? {
      saves := Checkpoint(mappings, u.progress.saves);
      return Failed(u.exc), saves;
    }
    ending, saves := DriveWorkspace(m, args, projects, u.value, mappings, stats, u.progress.saves);
  }

  /** Steps 3 and 4 of the outer `try`, with the user mapping `users`. */
  method DriveWorkspace(m: Migrators, args: Args, projects: seq<ProjectPair>, users: Ids,
                        mappings: MigrationMappings, stats: MigrationStats, saved: seq<MappingsFile>)
    returns (ending: Ending, saves: seq<MappingsFile>)
    requires stats.Valid()
    modifies mappings, stats
    ensures stats.Valid()
    ensures Outcome(ending, Now(mappings, stats, saves)) == PastUsers(m, args, projects, users, old(Now(mappings, stats, saved)))
  {
    var w := MigrateWorkspaceSteps(m, projects, mappings, stats, saved);
    if w.Stop? {
      saves := Checkpoint(mappings, w.progress.saves);
      return Failed(w.exc), saves;
    }
    var carried := Carried(users, w.value.0, w.value.1, args.preserveIds);
    var e := MigrateEachProject(m.perProject, projects, carried, mappings, stats, w.progress.saves);
    saves := Checkpoint(mappings, e.progress.saves);
    ending := if e.Stop? then Failed(e.exc) else Completed;
  }

  /**
   * `main()`: the store and statistics it leaves, the checkpoints it wrote
   * in order, and how it ended.
   */
  method Migrate(cmd: CommandLine, configFile: Option<Json>, stored: Option<MappingsFile>, m: Migrators)
    returns (ending: Ending, saves: seq<MappingsFile>, mappings: MigrationMappings, stats: MigrationStats)
    ensures Outcome(ending, Now(mappings, stats, saves)) == Migration(cmd, configFile, stored, m)
  {
    var parsed := ParseArgs(cmd, configFile);
    var config := MainConfig(configFile);
    ending, saves, mappings, stats := RunMain(parsed, config, stored, m);
  }

  /** `main()` after `parse_args`, with the configuration `config` read. */
  method RunMain(parsed: Parsed, config: Json, stored: Option<MappingsFile>, m: Migrators)
    returns (ending: Ending, saves: seq<MappingsFile>, mappings: MigrationMappings, stats: MigrationStats)
    ensures Outcome(ending, Now(mappings, stats, saves)) == Main(parsed, config, stored, m)
  {
    mappings := new MigrationMappings();
    stats := new MigrationStats();
    saves := [];
    if parsed.UsageError? {
      return BadUsage(parsed.option), saves, mappings, stats;
    }
    if !Readable(config) {
      return Crashed(AttributeError), saves, mappings, stats;
    }
    if JTruthy(parsed.args.resume) {
      mappings.LoadFromFile(stored);
    }
    ending, saves := Drive(m, parsed.args, config, mappings, stats);
  }

  // ----------------------------------------------------------- properties

  /** `q` holds every checkpoint `p` holds, and maybe more after them. */
  predicate Extends(p: Progress, q: Progress)
  {
    |p.saves| <= |q.saves| && q.saves[..|p.saves|] == p.saves
  }

  /** A run that extends one holding a single checkpoint starts with that checkpoint. */
  lemma ExtendsFirst(p: Progress, q: Progress)
    requires |p.saves| == 1 && Extends(p, q)
    ensures q.saves != [] && q.saves[0] == p.saves[0]
  {
    assert q.saves[..1][0] == q.saves[0];
  }

  lemma ExtendsTrans(p: Progress, q: Progress, r: Progress)
    requires Extends(p, q) && Extends(q, r)
    ensures Extends(p, r)
  {
    assert r.saves[..|p.saves|] == r.saves[..|q.saves|][..|p.saves|];
  }

  lemma UsersStepExtends(m: Migrators, config: Json, p: Progress)
    ensures Extends(p, UsersStep(m, config, p).progress)
  {
    var uc := Section(config, "users");
    if !uc.JObject? {
      assert UsersStep(m, config, p).progress == p;
    } else if !JTruthy(GetOr(uc, "migrate", JBool(false))) {
      assert UsersStep(m, config, p).progress == Save(p.(store := p.store.(users := map[])));
    } else {
      var run := m.users(p.store);
      var q := Apply(p, run);
      assert q.saves == p.saves;
      var um := if run.outcome.Ok? then UserKeys(run.outcome.value) else Raised(run.outcome.exc);
      if um.Raised? {
        FallbackExtends(m.sourceUsers, q);
        assert UsersStep(m, config, p) == (if IsException(um.exc) then Fallback(m.sourceUsers, q) else Stop(um.exc, q));
      } else {
        var g := Guarded(Save(q), m.groups(um.value, run.store), map[]);
        GuardedExtends(Save(q), m.groups(um.value, run.store), map[]);
        ExtendsTrans(p, Save(q), g.progress);
        assert UsersStep(m, config, p).progress == g.progress;
      }
    }
  }

  lemma FallbackExtends(sourceUsers: Reply<Ids>, p: Progress)
    ensures Extends(p, Fallback(sourceUsers, p).progress)
  {
  }

  lemma WorkspaceStepsExtends(m: Migrators, projects: seq<ProjectPair>, p: Progress)
    ensures Extends(p, WorkspaceSteps(m, projects, p).progress)
  {
    var c := Unguarded(p, m.customFields(p.store));
    if c.Next? {
      var s := Unguarded(c.progress, m.sharedParameters(Codes(projects), c.progress.store));
      ExtendsTrans(p, c.progress, s.progress);
      if s.Next? {
        var a := Unguarded(s.progress, m.attachments(projects, s.progress.store));
        ExtendsTrans(p, s.progress, a.progress);
      }
    }
  }

  lemma GuardedExtends<T>(p: Progress, run: StepRun<T>, fallback: T)
    ensures Extends(p, Guarded(p, run, fallback).progress)
  {
  }

  lemma EarlyStepsExtends(pm: ProjectMigrators, s: string, t: string, p: Progress)
    ensures Extends(p, EarlySteps(pm, s, t, p).progress)
  {
    var f1 := Guarded(p, pm.milestones(s, t, p.store), map[]);
    GuardedExtends(p, pm.milestones(s, t, p.store), map[]);
    if f1.Stop? {
      assert EarlySteps(pm, s, t, p).progress == f1.progress;
      return;
    }
    var f2 := Guarded(f1.progress, pm.configurations(s, t, f1.progress.store), (map[], map[]));
    GuardedExtends(f1.progress, pm.configurations(s, t, f1.progress.store), (map[], map[]));
    ExtendsTrans(p, f1.progress, f2.progress);
    if f2.Stop? {
      assert EarlySteps(pm, s, t, p).progress == f2.progress;
      return;
    }
    var f3 := Guarded(f2.progress, pm.environments(s, t, f2.progress.store), map[]);
    GuardedExtends(f2.progress, pm.environments(s, t, f2.progress.store), map[]);
    ExtendsTrans(p, f2.progress, f3.progress);
    if f3.Stop? {
      assert EarlySteps(pm, s, t, p).progress == f3.progress;
      return;
    }
    var f4 := Guarded(f3.progress, pm.sharedSteps(s, t, f3.progress.store), map[]);
    GuardedExtends(f3.progress, pm.sharedSteps(s, t, f3.progress.store), map[]);
    ExtendsTrans(p, f3.progress, f4.progress);
    if f4.Stop? {
      assert EarlySteps(pm, s, t, p).progress == f4.progress;
      return;
    }
    var f5 := Guarded(f4.progress, pm.suites(s, t, f4.progress.store), map[]);
    GuardedExtends(f4.progress, pm.suites(s, t, f4.progress.store), map[]);
    ExtendsTrans(p, f4.progress, f5.progress);
    assert EarlySteps(pm, s, t, p).progress == f5.progress;
  }

  lemma LateStepsExtends(pm: ProjectMigrators, s: string, t: string, e: Earlier, w: Carried, p: Progress)
    ensures Extends(p, LateSteps(pm, s, t, e, w, p).progress)
  {
    var inputs := CaseInputs(e.suites, w.customFields, e.milestones, e.sharedSteps, w.sharedParameters, w.users, w.preserveIds);
    var r6 := pm.cases(s, t, inputs, p.store);
    var f6 := Guarded(p, r6, map[]);
    GuardedExtends(p, r6, map[]);
    if f6.Stop? {
      assert LateSteps(pm, s, t, e, w, p).progress == f6.progress;
      return;
    }
    var r7 := pm.plans(s, t, f6.value, f6.progress.store);
    var f7 := Guarded(f6.progress, r7, map[]);
    GuardedExtends(f6.progress, r7, map[]);
    ExtendsTrans(p, f6.progress, f7.progress);
    if f7.Stop? {
      assert LateSteps(pm, s, t, e, w, p).progress == f7.progress;
      return;
    }
    var r8 := pm.runs(s, t, RunInputs(f6.value, e.configurations, e.milestones, f7.value, w.users), f7.progress.store);
    var f8 := Guarded(f7.progress, r8, map[]);
    GuardedExtends(f7.progress, r8, map[]);
    ExtendsTrans(p, f7.progress, f8.progress);
    if f8.Stop? {
      assert LateSteps(pm, s, t, e, w, p).progress == f8.progress;
      return;
    }
    var r9 := pm.results(s, t, ResultInputs(f8.value, f6.value, w.users), f8.progress.store);
    var f9 := Guarded(f8.progress, r9, ());
    GuardedExtends(f8.progress, r9, ());
    ExtendsTrans(p, f8.progress, f9.progress);
    assert LateSteps(pm, s, t, e, w, p).progress == f9.progress;
  }

  lemma ProjectStepsExtends(pm: ProjectMigrators, project: ProjectPair, w: Carried, p: Progress)
    ensures Extends(p, ProjectSteps(pm, project, w, p).progress)
  {
    var e := EarlySteps(pm, project.sourceCode, project.targetCode, p);
    EarlyStepsExtends(pm, project.sourceCode, project.targetCode, p);
    if e.Next? {
      LateStepsExtends(pm, project.sourceCode, project.targetCode, e.value, w, e.progress);
      ExtendsTrans(p, e.progress, ProjectSteps(pm, project, w, p).progress);
    }
  }

  lemma {:induction false} AllProjectsExtends(pm: ProjectMigrators, projects: seq<ProjectPair>, w: Carried, p: Progress)
    ensures Extends(p, AllProjects(pm, projects, w, p).progress)
  {
    if projects != [] {
      var n := |projects| - 1;
      var f := AllProjects(pm, projects[..n], w, p);
      AllProjectsExtends(pm, projects[..n], w, p);
      if f.Next? {
        ProjectStepsExtends(pm, projects[n], w, f.progress);
        ExtendsTrans(p, f.progress, AllProjects(pm, projects, w, p).progress);
      }
    }
  }

  /** Within the outer `try`: the final checkpoint of a run that got past step 1 holds the store it left. */
  lemma DrivenSaves(m: Migrators, args: Args, config: Json, p: Progress)
    ensures var o := Driven(m, args, config, p);
      && (o.ending.NoProjects? || o.ending.Completed? || o.ending.Failed?)
      && (o.ending.NoProjects? ==> o.progress.saves == p.saves)
      && (o.ending.Completed? || o.ending.Failed? ==>
            o.progress.saves != [] && o.progress.saves[|o.progress.saves| - 1] == Saved(o.progress.store))
  {
    var f := ProjectsStep(m, args, p);
    if f.Next? && f.value != [] {
      PastProjectsSaves(m, args, config, f.value, Save(f.progress));
    }
  }

  /** Past step 1 the run ends in the outer handler or completes, and its last checkpoint holds the store it left. */
  lemma PastProjectsSaves(m: Migrators, args: Args, config: Json, projects: seq<ProjectPair>, p: Progress)
    ensures var o := PastProjects(m, args, config, projects, p);
      && (o.ending.Completed? || o.ending.Failed?)
      && o.progress.saves != [] && o.progress.saves[|o.progress.saves| - 1] == Saved(o.progress.store)
  {
    var u := UsersStep(m, config, p);
    if u.Next? {
      var w := WorkspaceSteps(m, projects, u.progress);
      if w.Next? {
        var e := AllProjects(m.perProject, projects, Carried(u.value, w.value.0, w.value.1, args.preserveIds), w.progress);
        assert PastProjects(m, args, config, projects, p).progress == Save(e.progress);
      }
    }
  }

  /**
   * Only a run that reaches the outer handler or the end writes a final
   * checkpoint, and it holds the store as the run left it; a usage error, a
   * crash before the `try`, or an empty project list writes nothing. A
   * failure exits with status 1.
   */
  lemma EndingSaves(cmd: CommandLine, configFile: Option<Json>, stored: Option<MappingsFile>, m: Migrators)
    ensures var o := Migration(cmd, configFile, stored, m);
      && (o.ending.BadUsage? || o.ending.Crashed? || o.ending.NoProjects? ==> o.progress.saves == [])
      && (o.ending.Completed? || o.ending.Failed? ==>
            o.progress.saves != [] && o.progress.saves[|o.progress.saves| - 1] == Saved(o.progress.store))
      && (o.ending.Failed? ==> ExitStatus(o.ending) == 1)
  {
    MainSaves(ParseArgs(cmd, configFile), MainConfig(configFile), stored, m);
  }

  lemma MainSaves(parsed: Parsed, config: Json, stored: Option<MappingsFile>, m: Migrators)
    ensures var o := Main(parsed, config, stored, m);
      && (o.ending.BadUsage? || o.ending.Crashed? || o.ending.NoProjects? ==> o.progress.saves == [])
      && (o.ending.Completed? || o.ending.Failed? ==>
            o.progress.saves != [] && o.progress.saves[|o.progress.saves| - 1] == Saved(o.progress.store))
      && (o.ending.Failed? ==> ExitStatus(o.ending) == 1)
  {
    MainSavesNone(parsed, config, stored, m);
    MainSavesLast(parsed, config, stored, m);
  }

  lemma MainSavesNone(parsed: Parsed, config: Json, stored: Option<MappingsFile>, m: Migrators)
    ensures var o := Main(parsed, config, stored, m);
      o.ending.BadUsage? || o.ending.Crashed? || o.ending.NoProjects? ==> o.progress.saves == []
  {
    if parsed.Parsed? && Readable(config) {
      DrivenSaves(m, parsed.args, config, Progress(Start(parsed.args, stored), map[], map[], []));
    }
  }

  lemma MainSavesLast(parsed: Parsed, config: Json, stored: Option<MappingsFile>, m: Migrators)
    ensures var o := Main(parsed, config, stored, m);
      o.ending.Completed? || o.ending.Failed? ==>
        o.progress.saves != [] && o.progress.saves[|o.progress.saves| - 1] == Saved(o.progress.store)
  {
    if parsed.Parsed? && Readable(config) {
      DrivenSaves(m, parsed.args, config, Progress(Start(parsed.args, stored), map[], map[], []));
    }
  }

  /** Step 1 hands on the projects the skip filter kept, with the store and counts `migrate_projects` left. */
  lemma ProjectsStepKept(m: Migrators, args: Args, p: Progress)
    ensures var first := m.projects(OnlyProjects(args), p.store);
      var f := ProjectsStep(m, args, p);
      var kept := if first.outcome.Ok? && JTruthy(args.skipProjects) then Kept(first.outcome.value, args.skipProjects)
                  else first.outcome;
      && f.progress == Apply(p, first)
      && (f.Next? <==> kept.Ok?)
      && (f.Next? ==> f.value == kept.value)
  {
  }

  /** After a non-empty step 1 the run ends past it, and every later checkpoint follows the first. */
  lemma DrivenAfterProjects(m: Migrators, args: Args, config: Json, p: Progress)
    requires ProjectsStep(m, args, p).Next? && ProjectsStep(m, args, p).value != []
    ensures !Driven(m, args, config, p).ending.NoProjects?
    ensures Extends(Save(ProjectsStep(m, args, p).progress), Driven(m, args, config, p).progress)
  {
    var f := ProjectsStep(m, args, p);
    PastProjectsSaves(m, args, config, f.value, Save(f.progress));
    PastProjectsExtends(m, args, config, f.value, Save(f.progress));
  }

  /** Every checkpoint past step 1 follows the one step 1 wrote. */
  lemma PastProjectsExtends(m: Migrators, args: Args, config: Json, projects: seq<ProjectPair>, p1: Progress)
    ensures Extends(p1, PastProjects(m, args, config, projects, p1).progress)
  {
    var o := PastProjects(m, args, config, projects, p1);
    var u := UsersStep(m, config, p1);
    UsersStepExtends(m, config, p1);
    if u.Next? {
      var w := WorkspaceSteps(m, projects, u.progress);
      WorkspaceStepsExtends(m, projects, u.progress);
      ExtendsTrans(p1, u.progress, w.progress);
      if w.Next? {
        var carried := Carried(u.value, w.value.0, w.value.1, args.preserveIds);
        var e := AllProjects(m.perProject, projects, carried, w.progress);
        AllProjectsExtends(m.perProject, projects, carried, w.progress);
        ExtendsTrans(p1, w.progress, e.progress);
        ExtendsTrans(p1, e.progress, Save(e.progress));
        assert o.progress == Save(e.progress);
      } else {
        ExtendsTrans(p1, w.progress, Save(w.progress));
      }
    } else {
      ExtendsTrans(p1, u.progress, Save(u.progress));
    }
  }

  /**
   * Within the outer `try`: the first checkpoint, written after step 1 or by
   * the handler when it raised, holds the store step 1 left; an empty
   * project list, after the skip filter, writes none.
   */
  lemma DrivenFirst(m: Migrators, args: Args, config: Json, p: Progress)
    requires p.saves == []
    ensures var first := m.projects(OnlyProjects(args), p.store);
      var o := Driven(m, args, config, p);
      var kept := if first.outcome.Ok? && JTruthy(args.skipProjects) then Kept(first.outcome.value, args.skipProjects)
                  else first.outcome;
      && (o.ending == NoProjects <==> kept == Ok([]))
      && (o.ending == NoProjects ==> o.progress.saves == [] && o.progress.store == first.store)
      && (o.ending != NoProjects ==> o.progress.saves != [] && o.progress.saves[0] == Saved(first.store))
  {
    var f := ProjectsStep(m, args, p);
    ProjectsStepKept(m, args, p);
    if f.Next? && f.value != [] {
      DrivenAfterProjects(m, args, config, p);
      var o := Driven(m, args, config, p);
      ExtendsFirst(Save(f.progress), o.progress);
    } else {
      assert Driven(m, args, config, p).ending == NoProjects <==> f.Next?;
    }
  }

  /**
   * The first step sees the store loaded from the mappings file when
   * resuming, and the empty store otherwise; the first checkpoint holds the
   * store that step left, and an empty project list ends the run before any
   * checkpoint.
   */
  lemma ResumeLoadsFirst(cmd: CommandLine, configFile: Option<Json>, stored: Option<MappingsFile>, m: Migrators)
    requires ParseArgs(cmd, configFile).Parsed? && Readable(MainConfig(configFile))
    ensures var args := ParseArgs(cmd, configFile).args;
      var first := m.projects(OnlyProjects(args), if JTruthy(args.resume) then Loaded(EmptyStore(), stored) else EmptyStore());
      var o := Migration(cmd, configFile, stored, m);
      var kept := if first.outcome.Ok? && JTruthy(args.skipProjects) then Kept(first.outcome.value, args.skipProjects)
                  else first.outcome;
      && (o.ending == NoProjects <==> kept == Ok([]))
      && (o.ending == NoProjects ==> o.progress.saves == [] && o.progress.store == first.store)
      && (o.ending != NoProjects ==> o.progress.saves != [] && o.progress.saves[0] == Saved(first.store))
  {
    var args := ParseArgs(cmd, configFile).args;
    MainFirst(args, MainConfig(configFile), stored, m);
  }

  lemma MainFirst(args: Args, config: Json, stored: Option<MappingsFile>, m: Migrators)
    requires Readable(config)
    ensures var first := m.projects(OnlyProjects(args), if JTruthy(args.resume) then Loaded(EmptyStore(), stored) else EmptyStore());
      var o := Main(Parsed(args), config, stored, m);
      var kept := if first.outcome.Ok? && JTruthy(args.skipProjects) then Kept(first.outcome.value, args.skipProjects)
                  else first.outcome;
      && (o.ending == NoProjects <==> kept == Ok([]))
      && (o.ending == NoProjects ==> o.progress.saves == [] && o.progress.store == first.store)
      && (o.ending != NoProjects ==> o.progress.saves != [] && o.progress.saves[0] == Saved(first.store))
  {
    DrivenFirst(m, args, config, Progress(Start(args, stored), map[], map[], []));
  }

  /** No per-project migrator ever raises a KeyboardInterrupt. */
  ghost predicate NeverInterrupted(pm: ProjectMigrators)
  {
    && (forall s, t, st :: pm.milestones(s, t, st).outcome != Raised(Interrupt))
    && (forall s, t, st :: pm.configurations(s, t, st).outcome != Raised(Interrupt))
    && (forall s, t, st :: pm.environments(s, t, st).outcome != Raised(Interrupt))
    && (forall s, t, st :: pm.sharedSteps(s, t, st).outcome != Raised(Interrupt))
    && (forall s, t, st :: pm.suites(s, t, st).outcome != Raised(Interrupt))
    && (forall s, t, x, st :: pm.cases(s, t, x, st).outcome != Raised(Interrupt))
    && (forall s, t, x, st :: pm.plans(s, t, x, st).outcome != Raised(Interrupt))
    && (forall s, t, x, st :: pm.runs(s, t, x, st).outcome != Raised(Interrupt))
    && (forall s, t, x, st :: pm.results(s, t, x, st).outcome != Raised(Interrupt))
  }

  /**
   * The first five steps of a project run one after the other, each on the
   * store the one before left, each checkpointed; a failed step hands on
   * `{}` (two of them for configurations).
   */
  lemma EarlyChain(pm: ProjectMigrators, s: string, t: string, p: Progress)
    requires NeverInterrupted(pm)
    ensures var r1 := pm.milestones(s, t, p.store);
      var r2 := pm.configurations(s, t, r1.store);
      var r3 := pm.environments(s, t, r2.store);
      var r4 := pm.sharedSteps(s, t, r3.store);
      var r5 := pm.suites(s, t, r4.store);
      var f := EarlySteps(pm, s, t, p);
      && f.Next?
      && f.value == Earlier(ValueOr(r1.outcome, map[]), ValueOr(r2.outcome, (map[], map[])).0,
                            ValueOr(r2.outcome, (map[], map[])).1, ValueOr(r3.outcome, map[]),
                            ValueOr(r4.outcome, map[]), ValueOr(r5.outcome, map[]))
      && f.progress.store == r5.store
      && f.progress.saves == p.saves + [Saved(r1.store), Saved(r2.store), Saved(r3.store), Saved(r4.store), Saved(r5.store)]
  {
    var r1 := pm.milestones(s, t, p.store);
    var f1 := Guarded(p, r1, map[]);
    GuardedOn(p, r1, map[]);
    var r2 := pm.configurations(s, t, r1.store);
    var f2 := Guarded(f1.progress, r2, (map[], map[]));
    GuardedOn(f1.progress, r2, (map[], map[]));
    var r3 := pm.environments(s, t, r2.store);
    var f3 := Guarded(f2.progress, r3, map[]);
    GuardedOn(f2.progress, r3, map[]);
    var r4 := pm.sharedSteps(s, t, r3.store);
    var f4 := Guarded(f3.progress, r4, map[]);
    GuardedOn(f3.progress, r4, map[]);
    var r5 := pm.suites(s, t, r4.store);
    var f5 := Guarded(f4.progress, r5, map[]);
    GuardedOn(f4.progress, r5, map[]);
    assert EarlySteps(pm, s, t, p) == Next(Earlier(f1.value, f2.value.0, f2.value.1, f3.value, f4.value, f5.value), f5.progress);
    assert f5.progress.saves == p.saves + [Saved(r1.store), Saved(r2.store), Saved(r3.store), Saved(r4.store), Saved(r5.store)];
  }

  /** A step that raises no KeyboardInterrupt goes on, with its store and one more checkpoint. */
  lemma GuardedOn<T>(p: Progress, run: StepRun<T>, fallback: T)
    requires run.outcome != Raised(Interrupt)
    ensures var f := Guarded(p, run, fallback);
      && f.Next? && f.value == ValueOr(run.outcome, fallback)
      && f.progress.store == run.store && f.progress.saves == p.saves + [Saved(run.store)]
  {
  }

  /**
   * The last four steps of a project, each on the store the one before left
   * and each checkpointed: cases get the earlier mappings (each `{}` if its
   * step failed), plans and runs get the case mapping, results get the run
   * and case mappings.
   */
  lemma LateChain(pm: ProjectMigrators, s: string, t: string, e: Earlier, w: Carried, p: Progress)
    requires NeverInterrupted(pm)
    ensures var r6 := pm.cases(s, t, CaseInputs(e.suites, w.customFields, e.milestones, e.sharedSteps,
                                                w.sharedParameters, w.users, w.preserveIds), p.store);
      var cases := ValueOr(r6.outcome, map[]);
      var r7 := pm.plans(s, t, cases, r6.store);
      var r8 := pm.runs(s, t, RunInputs(cases, e.configurations, e.milestones, ValueOr(r7.outcome, map[]), w.users), r7.store);
      var r9 := pm.results(s, t, ResultInputs(ValueOr(r8.outcome, map[]), cases, w.users), r8.store);
      var f := LateSteps(pm, s, t, e, w, p);
      && f.Next?
      && f.progress.store == r9.store
      && f.progress.saves == p.saves + [Saved(r6.store), Saved(r7.store), Saved(r8.store), Saved(r9.store)]
  {
    var inputs := CaseInputs(e.suites, w.customFields, e.milestones, e.sharedSteps, w.sharedParameters, w.users, w.preserveIds);
    var r6 := pm.cases(s, t, inputs, p.store);
    var f6 := Guarded(p, r6, map[]);
    var r7 := pm.plans(s, t, f6.value, r6.store);
    var f7 := Guarded(f6.progress, r7, map[]);
    var r8 := pm.runs(s, t, RunInputs(f6.value, e.configurations, e.milestones, f7.value, w.users), r7.store);
    var f8 := Guarded(f7.progress, r8, map[]);
    var r9 := pm.results(s, t, ResultInputs(f8.value, f6.value, w.users), r8.store);
    var f9 := Guarded(f8.progress, r9, ());
    assert LateSteps(pm, s, t, e, w, p) == Next((), f9.progress);
    assert f9.progress.saves == p.saves + [Saved(r6.store), Saved(r7.store), Saved(r8.store), Saved(r9.store)];
  }

  /** Without a KeyboardInterrupt every project runs all nine steps and writes nine checkpoints. */
  lemma {:induction false} AllProjectsRun(pm: ProjectMigrators, projects: seq<ProjectPair>, w: Carried, p: Progress)
    requires NeverInterrupted(pm)
    ensures AllProjects(pm, projects, w, p).Next?
    ensures |AllProjects(pm, projects, w, p).progress.saves| == |p.saves| + 9 * |projects|
  {
    if projects != [] {
      var n := |projects| - 1;
      AllProjectsRun(pm, projects[..n], w, p);
      var f := AllProjects(pm, projects[..n], w, p);
      var project := projects[n];
      EarlyChain(pm, project.sourceCode, project.targetCode, f.progress);
      var e := EarlySteps(pm, project.sourceCode, project.targetCode, f.progress);
      LateChain(pm, project.sourceCode, project.targetCode, e.value, w, e.progress);
    }
  }

  /**
   * As written `migrate_results` raises on every call (one argument too
   * many), so a project's last step changes nothing and its checkpoint
   * repeats the one after runs.
   */
  lemma ResultsAsWritten(pm: ProjectMigrators, project: ProjectPair, w: Carried, p: Progress)
    requires NeverInterrupted(pm)
    requires forall s, t, x, st :: pm.results(s, t, x, st) == StepRun(Raised(ResultsArity), st, [])
    ensures var f := ProjectSteps(pm, project, w, p);
      && f.Next? && |f.progress.saves| == |p.saves| + 9
      && f.progress.saves[|p.saves| + 8] == f.progress.saves[|p.saves| + 7] == Saved(f.progress.store)
  {
    var s, t := project.sourceCode, project.targetCode;
    EarlyChain(pm, s, t, p);
    var e := EarlySteps(pm, s, t, p);
    LateChain(pm, s, t, e.value, w, e.progress);
  }
}
