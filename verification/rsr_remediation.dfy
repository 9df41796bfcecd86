/** Auto-remediation (src/rsr/remediation.rs): for a requirement that is
    not met, the remediator creates the directories and files it asks for,
    or removes the files it forbids, and reports each action it takes. In
    a dry run it reports the same actions and changes nothing.

    The file system is a value: the directories and the files, with their
    contents, that exist, keyed by their path relative to the project
    root. The long built-in file texts are given as `texts`. The file
    operations on it never fail: a write below a file is accepted and a
    read of a directory gives the empty text, so the I/O errors the
    source passes on are not part of this model. */
module Remediation {
  import opened Wrappers
  import opened Strings
  import opened Errors
  import opened Requirements
  import Compliance
  import Seqs
  import Executors

  // ---------------------------------------------------------------------
  // The file system

  datatype Fs = Fs(dirs: set<string>, files: map<string, string>)

  predicate Exists(fs: Fs, p: string) {
    p in fs.dirs || p in fs.files
  }

  /** `create_dir_all`: the directory and every one above it. */
  function CreateDirAll(fs: Fs, p: string): Fs {
    fs.(dirs := fs.dirs + {p} + Executors.Ancestors(p))
  }

  /** `fs::write`. */
  function WriteFile(fs: Fs, p: string, content: string): Fs {
    fs.(files := fs.files[p := content])
  }

  /** `read_to_string`. */
  function ReadText(fs: Fs, p: string): string {
    if p in fs.files then fs.files[p] else ""
  }

  /** `remove_dir_all` for a directory, `remove_file` otherwise. */
  function Remove(fs: Fs, p: string): Fs {
    if p in fs.dirs then
      Fs(set d | d in fs.dirs && d != p && !Executors.Under(d, p),
         map f | f in fs.files && f != p && !Executors.Under(f, p) :: fs.files[f])
    else fs.(files := fs.files - {p})
  }

  // ---------------------------------------------------------------------
  // Actions and results

  /** What an action does; its description and the files it affects
      follow from it. */
  datatype Step =
    | CreateSchemasDir | CreateCueSchema
    | CreatePipeline | CreateConfigDir | CreateExampleConfig
    | CreateEnvironmentsDir | CreateBaseConfig | CreateEnvConfig(env: string) | AddGenerationStages
    | EnableCaching | IgnoreCache
    | CreateRequired(file: string) | RemoveForbidden(file: string)

  function Description(s: Step): string {
    match s
    case CreateSchemasDir => "Create schemas directory"
    case CreateCueSchema => "Create CUE schema template"
    case CreatePipeline => "Create .conflow.yaml pipeline"
    case CreateConfigDir => "Create config directory"
    case CreateExampleConfig => "Create example configuration"
    case CreateEnvironmentsDir => "Create environments directory"
    case CreateBaseConfig => "Create base Nickel configuration"
    case CreateEnvConfig(env) => "Create " + env + " environment config"
    case AddGenerationStages => "Add environment generation stages to pipeline"
    case EnableCaching => "Enable caching in pipeline"
    case IgnoreCache => "Add cache directory to .gitignore"
    case CreateRequired(file) => "Create required file: " + file
    case RemoveForbidden(file) => "Remove forbidden file: " + file
  }

  function FilesAffected(s: Step): seq<string> {
    match s
    case CreateSchemasDir => ["schemas/"]
    case CreateCueSchema => [SchemaFile]
    case CreatePipeline => [PipelineFile]
    case CreateConfigDir => ["config/"]
    case CreateExampleConfig => [ExampleFile]
    case CreateEnvironmentsDir => ["environments/"]
    case CreateBaseConfig => [BaseFile]
    case CreateEnvConfig(env) => [EnvFile(env)]
    case AddGenerationStages => [PipelineFile]
    case EnableCaching => [PipelineFile]
    case IgnoreCache => [Gitignore]
    case CreateRequired(file) => [file]
    case RemoveForbidden(file) => [file]
  }

  datatype RemediationAction = RemediationAction(step: Step, completed: bool)

  datatype RemediationResult = RemediationResult(
    requirementId: string,
    success: bool,
    actions: seq<RemediationAction>,
    error: Option<string>)

  /** The actions taken so far and the file system they left. */
  datatype Run = Run(actions: seq<RemediationAction>, fs: Fs)

  /** One guarded action: when `needed`, it is reported as completed and,
      outside a dry run, its `effect` becomes the file system. */
  function Act(run: Run, needed: bool, step: Step, dryRun: bool, effect: Fs): Run {
    if needed then Run(run.actions + [RemediationAction(step, true)], if dryRun then run.fs else effect)
    else run
  }

  // ---------------------------------------------------------------------
  // The requirement-specific remediations

  const SchemasDir := "schemas"
  const SchemaFile := "schemas/config.cue"
  const PipelineFile := ".conflow.yaml"
  const ConfigDir := "config"
  const ExampleFile := "config/example.yaml"
  const EnvDir := "environments"
  const BaseFile := "environments/base.ncl"
  const Gitignore := ".gitignore"

  function EnvFile(env: string): string {
    "environments/" + env + ".ncl"
  }

  const Environments := ["development", "staging", "production"]

  /** The texts the remediations write or append. */
  datatype Body =
    | CueSchemaBody | PipelineBody | BaseConfigBody | GenerationStagesBody
    | ExampleConfigBody | CacheConfigBody | GitignoreBody | EnvConfigBody(env: string)

  const ExampleConfigText := "# Example configuration\nversion: \"1.0\"\nname: my-app\nenvironment: development\n"
  const CacheConfigText := "\n# Caching configuration\ncache:\n  enabled: true\n  directory: .conflow-cache\n"
  const GitignoreEntry := "\n# conflow cache\n.conflow-cache/\n"

  function EnvSettings(env: string): string {
    if env == "development" then "debug = true,\n  log_level = \"debug\","
    else if env == "staging" then "log_level = \"info\",\n  features.new_ui = true,"
    else if env == "production" then "log_level = \"warn\",\n  database.pool_size = 50,"
    else ""
  }

  function EnvConfigText(env: string): string {
    "# " + env + " environment configuration\nlet base = import \"base.ncl\" in\n\nbase & {\n  environment = \""
    + env + "\",\n  " + EnvSettings(env) + "\n}\n"
  }

  /** The short texts are the source's own; the long ones (the CUE schema,
      the pipeline, the Nickel base and the generation stages) are not
      part of this model. */
  ghost predicate SourceTexts(texts: Body -> string) {
    && texts(ExampleConfigBody) == ExampleConfigText
    && texts(CacheConfigBody) == CacheConfigText
    && texts(GitignoreBody) == GitignoreEntry
    && forall env :: texts(EnvConfigBody(env)) == EnvConfigText(env)
  }

  /** `remediate_config_001`: the schemas directory and a CUE schema. */
  function Config001(fs: Fs, dryRun: bool, texts: Body -> string): Run {
    var r := Act(Run([], fs), !Exists(fs, SchemasDir), CreateSchemasDir, dryRun, CreateDirAll(fs, SchemasDir));
    Act(r, !Exists(r.fs, SchemaFile), CreateCueSchema, dryRun, WriteFile(r.fs, SchemaFile, texts(CueSchemaBody)))
  }

  /** `remediate_config_002`: a pipeline, and a config directory with an
      example configuration when there is none. */
  function Config002(fs: Fs, dryRun: bool, texts: Body -> string): Run {
    var r := Act(Run([], fs), !Exists(fs, PipelineFile), CreatePipeline, dryRun, WriteFile(fs, PipelineFile, texts(PipelineBody)));
    if Exists(r.fs, ConfigDir) then r
    else
      var r' := Act(r, true, CreateConfigDir, dryRun, CreateDirAll(r.fs, ConfigDir));
      Act(r', true, CreateExampleConfig, dryRun, WriteFile(r'.fs, ExampleFile, texts(ExampleConfigBody)))
  }

  /** The environment loop of `remediate_config_003`, over `envs[..n]`. */
  function EnvConfigs(envs: seq<string>, n: nat, run: Run, dryRun: bool, texts: Body -> string): Run
    requires n <= |envs|
  {
    if n == 0 then run
    else
      var r := EnvConfigs(envs, n - 1, run, dryRun, texts);
      var env := envs[n - 1];
      Act(r, !Exists(r.fs, EnvFile(env)), CreateEnvConfig(env), dryRun, WriteFile(r.fs, EnvFile(env), texts(EnvConfigBody(env))))
  }

  /** The pipeline step of `remediate_config_003`: generation stages are
      appended to a pipeline that has none. */
  function AddStages(r: Run, dryRun: bool, texts: Body -> string): Run {
    var content := ReadText(r.fs, PipelineFile);
    Act(r, Exists(r.fs, PipelineFile) && !Contains(content, "generate-"), AddGenerationStages, dryRun,
        WriteFile(r.fs, PipelineFile, content + texts(GenerationStagesBody)))
  }

  /** `remediate_config_003`: the environments directory, a base and one
      configuration per environment, and generation stages. */
  function Config003(fs: Fs, dryRun: bool, texts: Body -> string): Run {
    var r := Act(Run([], fs), !Exists(fs, EnvDir), CreateEnvironmentsDir, dryRun, CreateDirAll(fs, EnvDir));
    var r' := Act(r, !Exists(r.fs, BaseFile), CreateBaseConfig, dryRun, WriteFile(r.fs, BaseFile, texts(BaseConfigBody)));
    AddStages(EnvConfigs(Environments, |Environments|, r', dryRun, texts), dryRun, texts)
  }

  /** `remediate_config_004`: caching in the pipeline and the cache
      directory in `.gitignore`. */
  function Config004(fs: Fs, dryRun: bool, texts: Body -> string): Run {
    var content := ReadText(fs, PipelineFile);
    var r := Act(Run([], fs), Exists(fs, PipelineFile) && !Contains(content, "cache:"), EnableCaching, dryRun,
                 WriteFile(fs, PipelineFile, content + texts(CacheConfigBody)));
    var ignoreExists := Exists(r.fs, Gitignore);
    var needed := if ignoreExists then !Contains(ReadText(r.fs, Gitignore), ".conflow-cache") else true;
    var ignore := if ignoreExists then ReadText(r.fs, Gitignore) + texts(GitignoreBody) else texts(GitignoreBody);
    Act(r, needed, IgnoreCache, dryRun, WriteFile(r.fs, Gitignore, ignore))
  }

  /** The loop of `remediate_config_003` over the environments. */
  method CreateEnvConfigs(run: Run, dryRun: bool, texts: Body -> string) returns (r: Run)
    ensures r == EnvConfigs(Environments, |Environments|, run, dryRun, texts)
  {
    r := run;
    var envs := Environments;
    for i := 0 to |envs|
      invariant r == EnvConfigs(envs, i, run, dryRun, texts)
    {
      var path := EnvFile(envs[i]);
      if !Exists(r.fs, path) {
        var fs := r.fs;
        if !dryRun {
          fs := WriteFile(fs, path, texts(EnvConfigBody(envs[i])));
        }
        r := Run(r.actions + [RemediationAction(CreateEnvConfig(envs[i]), true)], fs);
      }
    }
  }

  /** `remediate_config_003`. */
  method RemediateConfig003(fs: Fs, dryRun: bool, texts: Body -> string) returns (r: Run)
    ensures r == Config003(fs, dryRun, texts)
  {
    r := Act(Run([], fs), !Exists(fs, EnvDir), CreateEnvironmentsDir, dryRun, CreateDirAll(fs, EnvDir));
    r := Act(r, !Exists(r.fs, BaseFile), CreateBaseConfig, dryRun, WriteFile(r.fs, BaseFile, texts(BaseConfigBody)));
    r := CreateEnvConfigs(r, dryRun, texts);
    r := AddStages(r, dryRun, texts);
  }

  // ---------------------------------------------------------------------
  // Generic remediation

  /** The loop over the required files, `files[..n]`: each missing one is
      created, with the directories above it. */
  function CreateMissing(files: seq<string>, n: nat, run: Run, dryRun: bool): Run
    requires n <= |files|
  {
    if n == 0 then run
    else
      var r := CreateMissing(files, n - 1, run, dryRun);
      var file := files[n - 1];
      Act(r, !Exists(r.fs, file), CreateRequired(file), dryRun,
          WriteFile(r.fs.(dirs := r.fs.dirs + Executors.Ancestors(file)), file, ""))
  }

  /** The loop over the forbidden files, `files[..n]`: each present one is
      removed. */
  function RemovePresent(files: seq<string>, n: nat, run: Run, dryRun: bool): Run
    requires n <= |files|
  {
    if n == 0 then run
    else
      var r := RemovePresent(files, n - 1, run, dryRun);
      var file := files[n - 1];
      Act(r, Exists(r.fs, file), RemoveForbidden(file), dryRun, Remove(r.fs, file))
  }

  /** `remediate_generic`: first the required files, then the forbidden. */
  function Generic(req: Requirement, fs: Fs, dryRun: bool): Run {
    var v := req.validation;
    var r := CreateMissing(v.fileExists, |v.fileExists|, Run([], fs), dryRun);
    RemovePresent(v.fileAbsent, |v.fileAbsent|, r, dryRun)
  }

  /** `remediate_generic`, with its two loops. */
  method RemediateGeneric(req: Requirement, fs: Fs, dryRun: bool) returns (r: Run)
    ensures r == Generic(req, fs, dryRun)
  {
    var required := req.validation.fileExists;
    var forbidden := req.validation.fileAbsent;
    r := Run([], fs);
    for i := 0 to |required|
      invariant r == CreateMissing(required, i, Run([], fs), dryRun)
    {
      var file := required[i];
      if !Exists(r.fs, file) {
        var next := r.fs;
        if !dryRun {
          next := next.(dirs := next.dirs + Executors.Ancestors(file));
          next := WriteFile(next, file, "");
        }
        r := Run(r.actions + [RemediationAction(CreateRequired(file), true)], next);
      }
    }
    ghost var created := r;
    for i := 0 to |forbidden|
      invariant r == RemovePresent(forbidden, i, created, dryRun)
    {
      var file := forbidden[i];
      if Exists(r.fs, file) {
        var next := r.fs;
        if !dryRun {
          next := Remove(next, file);
        }
        r := Run(r.actions + [RemediationAction(RemoveForbidden(file), true)], next);
      }
    }
  }

  // ---------------------------------------------------------------------
  // The remediator

  datatype AutoRemediator = AutoRemediator(registry: map<string, Requirement>, dryRun: bool)

  /** `new`: the built-in requirements, changing files. */
  function New(): (a: AutoRemediator)
    ensures a.registry == BuiltinMap() && !a.dryRun
  {
    AutoRemediator(BuiltinMap(), false)
  }

  /** `with_registry`. */
  function WithRegistry(registry: map<string, Requirement>): (a: AutoRemediator)
    ensures a.registry == registry && !a.dryRun
  {
    AutoRemediator(registry, false)
  }

  /** `dry_run`: only the flag changes. */
  function DryRun(a: AutoRemediator, dryRun: bool): (b: AutoRemediator)
    ensures b.registry == a.registry && b.dryRun == dryRun
  {
    a.(dryRun := dryRun)
  }

  const NoAutoFix := "Auto-fix not available for this requirement"
  const SomeFailed := "Some remediation actions failed"

  /** The dispatch of `remediate` on the requirement id. */
  function Dispatch(id: string, req: Requirement, fs: Fs, dryRun: bool, texts: Body -> string): Run {
    if id == "RSR-CONFIG-001" then Config001(fs, dryRun, texts)
    else if id == "RSR-CONFIG-002" then Config002(fs, dryRun, texts)
    else if id == "RSR-CONFIG-003" then Config003(fs, dryRun, texts)
    else if id == "RSR-CONFIG-004" then Config004(fs, dryRun, texts)
    else Generic(req, fs, dryRun)
  }

  predicate AllCompleted(actions: seq<RemediationAction>) {
    forall i :: 0 <= i < |actions| ==> actions[i].completed
  }

  /** What `remediate` returns, with the file system it leaves. */
  function Remediation(a: AutoRemediator, result: Compliance.RequirementResult, fs: Fs, texts: Body -> string)
    : (r: Result<(RemediationResult, Fs), ConflowError>)
    ensures r.Err? <==> result.requirementId !in a.registry
    ensures r.Err? ==> r.error == ExecutionFailed("Unknown requirement: " + result.requirementId, None)
    ensures r.Ok? ==> r.value.0.requirementId == result.requirementId
    ensures r.Ok? && !a.registry[result.requirementId].remediation.autoFix ==>
      !r.value.0.success && r.value.0.actions == [] && r.value.0.error == Some(NoAutoFix) && r.value.1 == fs
    ensures r.Ok? && a.registry[result.requirementId].remediation.autoFix ==>
      (r.value.0.success <==> AllCompleted(r.value.0.actions))
    ensures r.Ok? ==> (r.value.0.error.None? <==> r.value.0.success)
  {
    var id := result.requirementId;
    if id !in a.registry then Err(ExecutionFailed("Unknown requirement: " + id, None))
    else
      var req := a.registry[id];
      if !req.remediation.autoFix then Ok((RemediationResult(id, false, [], Some(NoAutoFix)), fs))
      else
        var run := Dispatch(id, req, fs, a.dryRun, texts);
        var done := AllCompleted(run.actions);
        Ok((RemediationResult(id, done, run.actions, if done then None else Some(SomeFailed)), run.fs))
  }

  /** The dispatch of `remediate`, running the chosen remediation. */
  method RunRemediation(id: string, req: Requirement, fs: Fs, dryRun: bool, texts: Body -> string) returns (run: Run)
    ensures run == Dispatch(id, req, fs, dryRun, texts)
  {
    if id == "RSR-CONFIG-001" {
      run := Config001(fs, dryRun, texts);
    } else if id == "RSR-CONFIG-002" {
      run := Config002(fs, dryRun, texts);
    } else if id == "RSR-CONFIG-003" {
      run := RemediateConfig003(fs, dryRun, texts);
    } else if id == "RSR-CONFIG-004" {
      run := Config004(fs, dryRun, texts);
    } else {
      run := RemediateGeneric(req, fs, dryRun);
    }
  }

  /** `actions.iter().all(|a| a.completed)`. */
  method AllDone(actions: seq<RemediationAction>) returns (done: bool)
    ensures done == AllCompleted(actions)
  {
    done := true;
    for i := 0 to |actions|
      invariant done == AllCompleted(actions[..i])
    {
      done := done && actions[i].completed;
    }
    assert actions[..|actions|] == actions;
  }

  /** `remediate`. */
  method Remediate(a: AutoRemediator, result: Compliance.RequirementResult, fs: Fs, texts: Body -> string)
    returns (r: Result<(RemediationResult, Fs), ConflowError>)
    ensures r == Remediation(a, result, fs, texts)
  {
    var id := result.requirementId;
    if id !in a.registry {
      return Err(ExecutionFailed("Unknown requirement: " + id, None));
    }
    var req := a.registry[id];
    if !req.remediation.autoFix {
      return Ok((RemediationResult(id, false, [], Some(NoAutoFix)), fs));
    }
    var run := RunRemediation(id, req, fs, a.dryRun, texts);
    var done := AllDone(run.actions);
    r := Ok((RemediationResult(id, done, run.actions, if done then None else Some(SomeFailed)), run.fs));
  }

  /** `remediate_all` over `results[..n]`: each unmet result is remediated
      in turn, and the first failure ends the run. */
  function Remediations(a: AutoRemediator, results: seq<Compliance.RequirementResult>, n: nat, fs: Fs, texts: Body -> string)
    : Result<(seq<RemediationResult>, Fs), ConflowError>
    requires n <= |results|
  {
    if n == 0 then Ok(([], fs))
    else
      match Remediations(a, results, n - 1, fs, texts)
      case Err(e) => Err(e)
      case Ok((done, fs')) =>
        if results[n - 1].met then Ok((done, fs'))
        else
          match Remediation(a, results[n - 1], fs', texts)
          case Err(e) => Err(e)
          case Ok((one, fs'')) => Ok((done + [one], fs''))
  }

  /** `remediate_all`. */
  method RemediateAll(a: AutoRemediator, results: seq<Compliance.RequirementResult>, fs: Fs, texts: Body -> string)
    returns (r: Result<(seq<RemediationResult>, Fs), ConflowError>)
    ensures r == Remediations(a, results, |results|, fs, texts)
  {
    var done: seq<RemediationResult> := [];
    var current := fs;
    for i := 0 to |results|
      invariant Remediations(a, results, i, fs, texts) == Ok((done, current))
    {
      if !results[i].met {
        var one := Remediate(a, results[i], current, texts);
        if one.Err? {
          RemediationsStopAtError(a, results, i + 1, fs, texts);
          return Err(one.error);
        }
        done, current := done + [one.value.0], one.value.1;
      }
    }
    r := Ok((done, current));
  }

  /** Once a prefix fails, every longer one fails the same way. */
  lemma {:induction false} RemediationsStopAtError(a: AutoRemediator, results: seq<Compliance.RequirementResult>, n: nat, fs: Fs, texts: Body -> string)
    requires n <= |results| && Remediations(a, results, n, fs, texts).Err?
    ensures Remediations(a, results, |results|, fs, texts) == Err(Remediations(a, results, n, fs, texts).error)
    decreases |results| - n
  {
    if n < |results| {
      RemediationsStopAtError(a, results, n + 1, fs, texts);
    }
  }

  // ---------------------------------------------------------------------
  // Properties

  /** The ids of the unmet results among `results[..n]`, in order. */
  function UnmetIds(results: seq<Compliance.RequirementResult>, n: nat): seq<string>
    requires n <= |results|
  {
    if n == 0 then []
    else if results[n - 1].met then UnmetIds(results, n - 1)
    else UnmetIds(results, n - 1) + [results[n - 1].requirementId]
  }

  function IdsOf(rs: seq<RemediationResult>): (ids: seq<string>)
    ensures |ids| == |rs| && forall i :: 0 <= i < |rs| ==> ids[i] == rs[i].requirementId
  {
    if rs == [] then [] else IdsOf(rs[..|rs| - 1]) + [rs[|rs| - 1].requirementId]
  }

  /** `remediate_all` remediates exactly the unmet results, in their
      order, and fails exactly when one of them names an unknown
      requirement. */
  lemma {:induction false} RemediatesUnmetInOrder(a: AutoRemediator, results: seq<Compliance.RequirementResult>, n: nat, fs: Fs, texts: Body -> string)
    requires n <= |results|
    ensures var r := Remediations(a, results, n, fs, texts);
      && (r.Ok? ==> IdsOf(r.value.0) == UnmetIds(results, n))
      && (r.Err? <==> exists i :: 0 <= i < n && !results[i].met && results[i].requirementId !in a.registry)
    decreases n
  {
    if n > 0 {
      RemediatesUnmetInOrder(a, results, n - 1, fs, texts);
      var prev := Remediations(a, results, n - 1, fs, texts);
      if prev.Ok? && !results[n - 1].met {
        var done := prev.value.0;
        var one := Remediation(a, results[n - 1], prev.value.1, texts);
        if one.Ok? {
          assert (done + [one.value.0])[..|done|] == done;
        }
      }
    }
  }

  /** Every action any remediation takes is completed. */
  lemma DispatchCompletes(id: string, req: Requirement, fs: Fs, dryRun: bool, texts: Body -> string)
    ensures AllCompleted(Dispatch(id, req, fs, dryRun, texts).actions)
  {
    if id == "RSR-CONFIG-001" {
      var r := Act(Run([], fs), !Exists(fs, SchemasDir), CreateSchemasDir, dryRun, CreateDirAll(fs, SchemasDir));
      ActCompletes(Run([], fs), !Exists(fs, SchemasDir), CreateSchemasDir, dryRun, CreateDirAll(fs, SchemasDir));
      ActCompletes(r, !Exists(r.fs, SchemaFile), CreateCueSchema, dryRun, WriteFile(r.fs, SchemaFile, texts(CueSchemaBody)));
    } else if id == "RSR-CONFIG-002" {
      Config002Completes(fs, dryRun, texts);
    } else if id == "RSR-CONFIG-003" {
      Config003Completes(fs, dryRun, texts);
    } else if id == "RSR-CONFIG-004" {
      Config004Completes(fs, dryRun, texts);
    } else {
      var v := req.validation;
      CreateMissingCompletes(v.fileExists, |v.fileExists|, Run([], fs), dryRun);
      var r := CreateMissing(v.fileExists, |v.fileExists|, Run([], fs), dryRun);
      RemovePresentCompletes(v.fileAbsent, |v.fileAbsent|, r, dryRun);
    }
  }

  lemma ActCompletes(run: Run, needed: bool, step: Step, dryRun: bool, effect: Fs)
    requires AllCompleted(run.actions)
    ensures AllCompleted(Act(run, needed, step, dryRun, effect).actions)
  {
  }

  lemma Config002Completes(fs: Fs, dryRun: bool, texts: Body -> string)
    ensures AllCompleted(Config002(fs, dryRun, texts).actions)
  {
    var r := Act(Run([], fs), !Exists(fs, PipelineFile), CreatePipeline, dryRun, WriteFile(fs, PipelineFile, texts(PipelineBody)));
    ActCompletes(Run([], fs), !Exists(fs, PipelineFile), CreatePipeline, dryRun, WriteFile(fs, PipelineFile, texts(PipelineBody)));
    var r' := Act(r, true, CreateConfigDir, dryRun, CreateDirAll(r.fs, ConfigDir));
    ActCompletes(r, true, CreateConfigDir, dryRun, CreateDirAll(r.fs, ConfigDir));
    ActCompletes(r', true, CreateExampleConfig, dryRun, WriteFile(r'.fs, ExampleFile, texts(ExampleConfigBody)));
  }

  lemma Config003Completes(fs: Fs, dryRun: bool, texts: Body -> string)
    ensures AllCompleted(Config003(fs, dryRun, texts).actions)
  {
    var r := Act(Run([], fs), !Exists(fs, EnvDir), CreateEnvironmentsDir, dryRun, CreateDirAll(fs, EnvDir));
    ActCompletes(Run([], fs), !Exists(fs, EnvDir), CreateEnvironmentsDir, dryRun, CreateDirAll(fs, EnvDir));
    var r' := Act(r, !Exists(r.fs, BaseFile), CreateBaseConfig, dryRun, WriteFile(r.fs, BaseFile, texts(BaseConfigBody)));
    ActCompletes(r, !Exists(r.fs, BaseFile), CreateBaseConfig, dryRun, WriteFile(r.fs, BaseFile, texts(BaseConfigBody)));
    EnvConfigsComplete(Environments, |Environments|, r', dryRun, texts);
    var e := EnvConfigs(Environments, |Environments|, r', dryRun, texts);
    var content := ReadText(e.fs, PipelineFile);
    ActCompletes(e, Exists(e.fs, PipelineFile) && !Contains(content, "generate-"), AddGenerationStages, dryRun,
                 WriteFile(e.fs, PipelineFile, content + texts(GenerationStagesBody)));
  }

  lemma Config004Completes(fs: Fs, dryRun: bool, texts: Body -> string)
    ensures AllCompleted(Config004(fs, dryRun, texts).actions)
  {
    var content := ReadText(fs, PipelineFile);
    var r := Act(Run([], fs), Exists(fs, PipelineFile) && !Contains(content, "cache:"), EnableCaching, dryRun,
                 WriteFile(fs, PipelineFile, content + texts(CacheConfigBody)));
    ActCompletes(Run([], fs), Exists(fs, PipelineFile) && !Contains(content, "cache:"), EnableCaching, dryRun,
                 WriteFile(fs, PipelineFile, content + texts(CacheConfigBody)));
    var ignoreExists := Exists(r.fs, Gitignore);
    var needed := if ignoreExists then !Contains(ReadText(r.fs, Gitignore), ".conflow-cache") else true;
    var ignore := if ignoreExists then ReadText(r.fs, Gitignore) + texts(GitignoreBody) else texts(GitignoreBody);
    ActCompletes(r, needed, IgnoreCache, dryRun, WriteFile(r.fs, Gitignore, ignore));
  }

  lemma {:induction false} CreateMissingCompletes(files: seq<string>, n: nat, run: Run, dryRun: bool)
    requires n <= |files| && AllCompleted(run.actions)
    ensures AllCompleted(CreateMissing(files, n, run, dryRun).actions)
  {
    if n > 0 {
      CreateMissingCompletes(files, n - 1, run, dryRun);
    }
  }

  lemma {:induction false} RemovePresentCompletes(files: seq<string>, n: nat, run: Run, dryRun: bool)
    requires n <= |files| && AllCompleted(run.actions)
    ensures AllCompleted(RemovePresent(files, n, run, dryRun).actions)
  {
    if n > 0 {
      RemovePresentCompletes(files, n - 1, run, dryRun);
    }
  }

  lemma {:induction false} EnvConfigsComplete(envs: seq<string>, n: nat, run: Run, dryRun: bool, texts: Body -> string)
    requires n <= |envs| && AllCompleted(run.actions)
    ensures AllCompleted(EnvConfigs(envs, n, run, dryRun, texts).actions)
  {
    if n > 0 {
      EnvConfigsComplete(envs, n - 1, run, dryRun, texts);
    }
  }

  /** An automatically fixable requirement is always remediated
      successfully: no action can fail, so the "some actions failed"
      error never occurs. */
  lemma AutoFixSucceeds(a: AutoRemediator, result: Compliance.RequirementResult, fs: Fs, texts: Body -> string)
    requires result.requirementId in a.registry && a.registry[result.requirementId].remediation.autoFix
    ensures Remediation(a, result, fs, texts).Ok?
    ensures Remediation(a, result, fs, texts).value.0.success
    ensures Remediation(a, result, fs, texts).value.0.error == None
  {
    DispatchCompletes(result.requirementId, a.registry[result.requirementId], fs, a.dryRun, texts);
  }

  // ---------------------------------------------------------------------
  // Dry runs and the generic counts

  /** A dry run never changes the file system. */
  lemma ActDry(run: Run, needed: bool, step: Step, effect: Fs)
    ensures Act(run, needed, step, true, effect).fs == run.fs
  {
  }

  /** The actions for the missing files of `files[..n]`, in order. */
  function MissingActions(files: seq<string>, n: nat, fs: Fs): seq<RemediationAction>
    requires n <= |files|
  {
    if n == 0 then []
    else MissingActions(files, n - 1, fs)
         + (if !Exists(fs, files[n - 1]) then [RemediationAction(CreateRequired(files[n - 1]), true)] else [])
  }

  /** The actions for the present files of `files[..n]`, in order. */
  function PresentActions(files: seq<string>, n: nat, fs: Fs): seq<RemediationAction>
    requires n <= |files|
  {
    if n == 0 then []
    else PresentActions(files, n - 1, fs)
         + (if Exists(fs, files[n - 1]) then [RemediationAction(RemoveForbidden(files[n - 1]), true)] else [])
  }

  /** No path equals another or lies below another. */
  ghost predicate Independent(paths: seq<string>) {
    forall i, j :: 0 <= i < |paths| && 0 <= j < |paths| && i != j ==> paths[i] != paths[j] && !Executors.Under(paths[i], paths[j])
  }

  /** Creating the missing files of `files[..n]` leaves alone every path
      that is none of them and above none of them. */
  lemma {:induction false} CreateMissingKeeps(files: seq<string>, n: nat, run: Run, dryRun: bool, q: string)
    requires n <= |files|
    requires forall k :: 0 <= k < n ==> files[k] != q && !Executors.Under(files[k], q)
    ensures Exists(CreateMissing(files, n, run, dryRun).fs, q) == Exists(run.fs, q)
  {
    if n > 0 {
      CreateMissingKeeps(files, n - 1, run, dryRun, q);
    }
  }

  /** Removing the present files of `files[..n]` leaves alone every path
      that is none of them and below none of them. */
  lemma {:induction false} RemovePresentKeeps(files: seq<string>, n: nat, run: Run, dryRun: bool, q: string)
    requires n <= |files|
    requires forall k :: 0 <= k < n ==> files[k] != q && !Executors.Under(q, files[k])
    ensures Exists(RemovePresent(files, n, run, dryRun).fs, q) == Exists(run.fs, q)
  {
    if n > 0 {
      RemovePresentKeeps(files, n - 1, run, dryRun, q);
    }
  }

  /** One creation per file missing beforehand, in order, when the run is
      dry or the files are independent; a dry run changes nothing. */
  lemma {:induction false} CreateMissingActions(files: seq<string>, n: nat, run: Run, dryRun: bool)
    requires n <= |files|
    requires dryRun || Independent(files)
    ensures CreateMissing(files, n, run, dryRun).actions == run.actions + MissingActions(files, n, run.fs)
    ensures dryRun ==> CreateMissing(files, n, run, dryRun).fs == run.fs
  {
    if n == 0 {
      Seqs.AppendNil(run.actions);
    } else {
      CreateMissingActions(files, n - 1, run, dryRun);
      if !dryRun {
        CreateMissingKeeps(files, n - 1, run, dryRun, files[n - 1]);
      }
    }
  }

  /** One removal per file present beforehand, in order, under the same
      conditions. */
  lemma {:induction false} RemovePresentActions(files: seq<string>, n: nat, run: Run, dryRun: bool)
    requires n <= |files|
    requires dryRun || Independent(files)
    ensures RemovePresent(files, n, run, dryRun).actions == run.actions + PresentActions(files, n, run.fs)
    ensures dryRun ==> RemovePresent(files, n, run, dryRun).fs == run.fs
  {
    if n == 0 {
      Seqs.AppendNil(run.actions);
    } else {
      RemovePresentActions(files, n - 1, run, dryRun);
      if !dryRun {
        RemovePresentKeeps(files, n - 1, run, dryRun, files[n - 1]);
      }
    }
  }

  /** A present-file check is decided by each path's existence alone. */
  lemma {:induction false} PresentActionsAgree(files: seq<string>, n: nat, a: Fs, b: Fs)
    requires n <= |files|
    requires forall k :: 0 <= k < n ==> Exists(a, files[k]) == Exists(b, files[k])
    ensures PresentActions(files, n, a) == PresentActions(files, n, b)
  {
    if n > 0 {
      PresentActionsAgree(files, n - 1, a, b);
    }
  }

  /** Generic remediation takes one action per missing required file and
      one per present forbidden file, in order, when the run is dry or no
      listed path equals or lies below another; a dry run changes
      nothing. */
  lemma GenericActions(req: Requirement, fs: Fs, dryRun: bool)
    requires dryRun || Independent(req.validation.fileExists + req.validation.fileAbsent)
    ensures var v := req.validation;
      Generic(req, fs, dryRun).actions
      == MissingActions(v.fileExists, |v.fileExists|, fs) + PresentActions(v.fileAbsent, |v.fileAbsent|, fs)
    ensures dryRun ==> Generic(req, fs, dryRun).fs == fs
  {
    var v := req.validation;
    if !dryRun {
      IndependentParts(v.fileExists, v.fileAbsent);
    }
    CreateMissingActions(v.fileExists, |v.fileExists|, Run([], fs), dryRun);
    var r := CreateMissing(v.fileExists, |v.fileExists|, Run([], fs), dryRun);
    RemovePresentActions(v.fileAbsent, |v.fileAbsent|, r, dryRun);
    if !dryRun {
      forall k | 0 <= k < |v.fileAbsent| ensures Exists(r.fs, v.fileAbsent[k]) == Exists(fs, v.fileAbsent[k]) {
        CreateMissingKeeps(v.fileExists, |v.fileExists|, Run([], fs), dryRun, v.fileAbsent[k]);
      }
      PresentActionsAgree(v.fileAbsent, |v.fileAbsent|, r.fs, fs);
    }
  }

  /** Both halves of an independent list are independent, and no path of
      one equals or lies above a path of the other. */
  lemma IndependentParts(a: seq<string>, b: seq<string>)
    requires Independent(a + b)
    ensures Independent(a) && Independent(b)
    ensures forall m, k :: 0 <= m < |a| && 0 <= k < |b| ==> a[m] != b[k] && !Executors.Under(a[m], b[k])
  {
    var all := a + b;
    forall i, j | 0 <= i < |a| && 0 <= j < |a| && i != j
      ensures a[i] != a[j] && !Executors.Under(a[i], a[j]) {
      assert all[i] == a[i] && all[j] == a[j];
    }
    forall i, j | 0 <= i < |b| && 0 <= j < |b| && i != j
      ensures b[i] != b[j] && !Executors.Under(b[i], b[j]) {
      assert all[|a| + i] == b[i] && all[|a| + j] == b[j];
    }
    forall m, k | 0 <= m < |a| && 0 <= k < |b|
      ensures a[m] != b[k] && !Executors.Under(a[m], b[k]) {
      assert all[m] == a[m] && all[|a| + k] == b[k];
    }
  }

  /** A required and a forbidden path that coincide show that the two
      modes can differ: the real run creates the file and then removes
      it, while the dry run only reports the creation. */
  lemma DryRunCanDiffer(req: Requirement)
    requires req.validation.fileExists == ["a"] && req.validation.fileAbsent == ["a"]
    ensures |Generic(req, Fs({}, map[]), false).actions| == 2
    ensures |Generic(req, Fs({}, map[]), true).actions| == 1
  {
    var fs := Fs({}, map[]);
    var v := req.validation;
    var wet := CreateMissing(v.fileExists, 1, Run([], fs), false);
    assert CreateMissing(v.fileExists, 0, Run([], fs), false) == Run([], fs);
    assert "a" in wet.fs.files;
    assert RemovePresent(v.fileAbsent, 0, wet, false) == wet;
    var dry := CreateMissing(v.fileExists, 1, Run([], fs), true);
    assert CreateMissing(v.fileExists, 0, Run([], fs), true) == Run([], fs);
    assert dry.fs == fs;
    assert RemovePresent(v.fileAbsent, 0, dry, true) == dry;
  }

  /** Creating a directory leaves alone every other path not above it. */
  lemma CreateDirKeeps(fs: Fs, p: string, q: string)
    requires q != p && !Executors.Under(p, q)
    ensures Exists(CreateDirAll(fs, p), q) == Exists(fs, q)
    ensures ReadText(CreateDirAll(fs, p), q) == ReadText(fs, q)
  {
  }

  /** The actions for the environment files of `envs[..n]` missing in
      `fs`, in order. */
  function EnvActions(envs: seq<string>, n: nat, fs: Fs): seq<RemediationAction>
    requires n <= |envs|
  {
    if n == 0 then []
    else EnvActions(envs, n - 1, fs)
         + (if !Exists(fs, EnvFile(envs[n - 1])) then [RemediationAction(CreateEnvConfig(envs[n - 1]), true)] else [])
  }

  lemma {:induction false} EnvConfigsKeeps(envs: seq<string>, n: nat, run: Run, dryRun: bool, texts: Body -> string, q: string)
    requires n <= |envs|
    requires forall k :: 0 <= k < n ==> EnvFile(envs[k]) != q
    ensures Exists(EnvConfigs(envs, n, run, dryRun, texts).fs, q) == Exists(run.fs, q)
    ensures ReadText(EnvConfigs(envs, n, run, dryRun, texts).fs, q) == ReadText(run.fs, q)
  {
    if n > 0 {
      EnvConfigsKeeps(envs, n - 1, run, dryRun, texts, q);
    }
  }

  /** One environment file per missing one, in order, when the run is dry
      or the environment files differ; a dry run changes nothing. */
  lemma {:induction false} EnvConfigsActions(envs: seq<string>, n: nat, run: Run, dryRun: bool, texts: Body -> string)
    requires n <= |envs|
    requires dryRun || forall i, j :: 0 <= i < j < |envs| ==> EnvFile(envs[i]) != EnvFile(envs[j])
    ensures EnvConfigs(envs, n, run, dryRun, texts).actions == run.actions + EnvActions(envs, n, run.fs)
    ensures dryRun ==> EnvConfigs(envs, n, run, dryRun, texts).fs == run.fs
  {
    if n == 0 {
      Seqs.AppendNil(run.actions);
    } else {
      EnvConfigsActions(envs, n - 1, run, dryRun, texts);
      if !dryRun {
        EnvConfigsKeeps(envs, n - 1, run, dryRun, texts, EnvFile(envs[n - 1]));
      }
    }
  }

  lemma {:induction false} EnvActionsAgree(envs: seq<string>, n: nat, a: Fs, b: Fs)
    requires n <= |envs|
    requires forall k :: 0 <= k < n ==> Exists(a, EnvFile(envs[k])) == Exists(b, EnvFile(envs[k]))
    ensures EnvActions(envs, n, a) == EnvActions(envs, n, b)
  {
    if n > 0 {
      EnvActionsAgree(envs, n - 1, a, b);
    }
  }

  lemma Config001DrySame(fs: Fs, texts: Body -> string)
    ensures Config001(fs, true, texts).actions == Config001(fs, false, texts).actions
    ensures Config001(fs, true, texts).fs == fs
  {
    CreateDirKeeps(fs, SchemasDir, SchemaFile);
  }

  lemma Config002DrySame(fs: Fs, texts: Body -> string)
    ensures Config002(fs, true, texts).actions == Config002(fs, false, texts).actions
    ensures Config002(fs, true, texts).fs == fs
  {
    assert |PipelineFile| != |ConfigDir|;
  }

  /** The environment files differ from each other, from the pipeline and
      from the environments directory, which lies below none of them. */
  lemma EnvFilesApart()
    ensures forall i, j :: 0 <= i < j < |Environments| ==> EnvFile(Environments[i]) != EnvFile(Environments[j])
    ensures forall k :: 0 <= k < |Environments| ==>
      EnvFile(Environments[k]) != PipelineFile && EnvFile(Environments[k]) != EnvDir && !Executors.Under(EnvDir, EnvFile(Environments[k]))
  {
    var envs := Environments;
    assert |EnvFile(envs[0])| == 28 && |EnvFile(envs[1])| == 24 && |EnvFile(envs[2])| == 27;
  }

  /** From two runs that took the same actions and agree on the
      environment files, the environment stage takes the same actions. */
  lemma EnvStageDrySame(wet: Run, dry: Run, texts: Body -> string)
    requires dry.actions == wet.actions
    requires forall k :: 0 <= k < |Environments| ==>
      Exists(wet.fs, EnvFile(Environments[k])) == Exists(dry.fs, EnvFile(Environments[k]))
    ensures EnvConfigs(Environments, |Environments|, dry, true, texts).actions
         == EnvConfigs(Environments, |Environments|, wet, false, texts).actions
    ensures EnvConfigs(Environments, |Environments|, dry, true, texts).fs == dry.fs
    ensures Exists(EnvConfigs(Environments, |Environments|, wet, false, texts).fs, PipelineFile) == Exists(wet.fs, PipelineFile)
    ensures ReadText(EnvConfigs(Environments, |Environments|, wet, false, texts).fs, PipelineFile) == ReadText(wet.fs, PipelineFile)
  {
    EnvFilesApart();
    EnvConfigsActions(Environments, |Environments|, wet, false, texts);
    EnvConfigsActions(Environments, |Environments|, dry, true, texts);
    EnvActionsAgree(Environments, |Environments|, wet.fs, dry.fs);
    EnvConfigsKeeps(Environments, |Environments|, wet, false, texts, PipelineFile);
  }

  lemma Config003DrySame(fs: Fs, texts: Body -> string)
    ensures Config003(fs, true, texts).actions == Config003(fs, false, texts).actions
    ensures Config003(fs, true, texts).fs == fs
  {
    var w1 := Act(Run([], fs), !Exists(fs, EnvDir), CreateEnvironmentsDir, false, CreateDirAll(fs, EnvDir));
    var d1 := Act(Run([], fs), !Exists(fs, EnvDir), CreateEnvironmentsDir, true, CreateDirAll(fs, EnvDir));
    CreateDirKeeps(fs, EnvDir, BaseFile);
    CreateDirKeeps(fs, EnvDir, PipelineFile);
    var w2 := Act(w1, !Exists(w1.fs, BaseFile), CreateBaseConfig, false, WriteFile(w1.fs, BaseFile, texts(BaseConfigBody)));
    var d2 := Act(d1, !Exists(d1.fs, BaseFile), CreateBaseConfig, true, WriteFile(d1.fs, BaseFile, texts(BaseConfigBody)));
    EnvFilesApart();
    forall k | 0 <= k < |Environments| ensures Exists(w2.fs, EnvFile(Environments[k])) == Exists(fs, EnvFile(Environments[k])) {
      CreateDirKeeps(fs, EnvDir, EnvFile(Environments[k]));
      assert |EnvFile(Environments[k])| > |BaseFile|;
    }
    EnvStageDrySame(w2, d2, texts);
  }

  lemma Config004DrySame(fs: Fs, texts: Body -> string)
    ensures Config004(fs, true, texts).actions == Config004(fs, false, texts).actions
    ensures Config004(fs, true, texts).fs == fs
  {
    assert |PipelineFile| != |Gitignore|;
  }

  predicate IsConfigId(id: string) {
    id == "RSR-CONFIG-001" || id == "RSR-CONFIG-002" || id == "RSR-CONFIG-003" || id == "RSR-CONFIG-004"
  }

  /** A dry run reports the actions the real run takes, and changes
      nothing: always for the four configuration requirements, and for
      any other when its listed paths are independent. */
  lemma DispatchDrySame(id: string, req: Requirement, fs: Fs, texts: Body -> string)
    requires IsConfigId(id) || Independent(req.validation.fileExists + req.validation.fileAbsent)
    ensures Dispatch(id, req, fs, true, texts).actions == Dispatch(id, req, fs, false, texts).actions
    ensures Dispatch(id, req, fs, true, texts).fs == fs
  {
    if id == "RSR-CONFIG-001" {
      Config001DrySame(fs, texts);
    } else if id == "RSR-CONFIG-002" {
      Config002DrySame(fs, texts);
    } else if id == "RSR-CONFIG-003" {
      Config003DrySame(fs, texts);
    } else if id == "RSR-CONFIG-004" {
      Config004DrySame(fs, texts);
    } else {
      GenericActions(req, fs, true);
      GenericActions(req, fs, false);
    }
  }

  /** `remediate` in a dry run gives the same result as the real run and
      leaves the file system as it was. */
  lemma DryRunReportsSame(a: AutoRemediator, result: Compliance.RequirementResult, fs: Fs, texts: Body -> string)
    requires result.requirementId in a.registry ==>
      IsConfigId(result.requirementId) || Independent(a.registry[result.requirementId].validation.fileExists
                                                      + a.registry[result.requirementId].validation.fileAbsent)
    ensures var dry := Remediation(DryRun(a, true), result, fs, texts);
      var wet := Remediation(DryRun(a, false), result, fs, texts);
      dry.Ok? == wet.Ok? && (dry.Ok? ==> dry.value.0 == wet.value.0 && dry.value.1 == fs)
  {
    var id := result.requirementId;
    if id in a.registry {
      DispatchDrySame(id, a.registry[id], fs, texts);
    }
  }
}
