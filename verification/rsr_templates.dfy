/** Project templates (src/rsr/templates.rs): a registry of named templates,
    each a list of directories and files, and the generator that creates
    them under a target directory, skipping existing files that may not be
    overwritten and substituting variables into the file contents.

    The file system is the set of paths that exist; a created directory or
    written file joins it. The text of the built-in file bodies is given
    to the generator as `bodies`. */
module Templates {
  import opened Wrappers
  import opened Strings
  import opened Errors
  import Executors

  datatype TemplateType =
    | CueValidation | NickelGeneration | FullPipeline | MultiEnv
    | Kubernetes | Terraform | Helm | DockerCompose | Custom

  /** `TemplateType::as_str`. */
  function AsStr(t: TemplateType): string {
    match t
    case CueValidation => "cue-validation"
    case NickelGeneration => "nickel-generation"
    case FullPipeline => "full-pipeline"
    case MultiEnv => "multi-env"
    case Kubernetes => "kubernetes"
    case Terraform => "terraform"
    case Helm => "helm"
    case DockerCompose => "docker-compose"
    case Custom => "custom"
  }

  /** `TemplateType::description`. */
  function Description(t: TemplateType): string {
    match t
    case CueValidation => "Simple CUE schema validation"
    case NickelGeneration => "Programmatic config generation with Nickel"
    case FullPipeline => "Generate, validate, and export pipeline"
    case MultiEnv => "Multi-environment configuration management"
    case Kubernetes => "Kubernetes manifest validation"
    case Terraform => "Terraform configuration validation"
    case Helm => "Helm chart configuration"
    case DockerCompose => "Docker Compose configuration"
    case Custom => "Custom template"
  }

  /** Each template type has a name of its own. */
  lemma AsStrDistinct(a: TemplateType, b: TemplateType)
    ensures AsStr(a) == AsStr(b) ==> a == b
  {
    if a != b {
      assert AsStr(a)[0] != AsStr(b)[0] || AsStr(a)[1] != AsStr(b)[1] || |AsStr(a)| != |AsStr(b)|;
    }
  }

  /** The built-in file bodies. */
  datatype Stock =
    | CueValidationPipeline | CueSchema | ExampleConfig
    | NickelPipeline | NickelConfig | FullPipelineFile
    | MultiEnvPipeline | MultiEnvBase | MultiEnvDev | MultiEnvStaging | MultiEnvProd
    | K8sPipeline | K8sSchema | K8sDeployment
    | TerraformPipeline | TerraformSchema
    | HelmPipeline | HelmValuesSchema | HelmValues
    | ComposePipeline | ComposeSchema

  /** A file's content: a built-in body or a text of its own. */
  datatype Content = StockBody(stock: Stock) | Inline(text: string)

  datatype TemplateFile = TemplateFile(path: string, content: Content, overwrite: bool)

  datatype TemplateVariable = TemplateVariable(description: string, default: string, required: bool)

  datatype Template = Template(
    name: string,
    templateType: TemplateType,
    description: string,
    files: seq<TemplateFile>,
    directories: seq<string>,
    variables: map<string, TemplateVariable>)

  datatype GenerationResult = GenerationResult(
    templateName: string,
    filesCreated: seq<string>,
    filesSkipped: seq<string>,
    directoriesCreated: seq<string>)

  // ---------------------------------------------------------------------
  // The built-in templates

  function Keep(path: string, stock: Stock): TemplateFile {
    TemplateFile(path, StockBody(stock), false)
  }

  const Pipeline := ".conflow.yaml"

  /** The directories a built-in template creates. */
  function DirectoriesOf(t: TemplateType): seq<string> {
    match t
    case CueValidation => ["schemas", "config"]
    case NickelGeneration => ["nickel", "dist"]
    case FullPipeline => ["schemas", "nickel", "dist"]
    case MultiEnv => ["environments", "schemas", "dist"]
    case Kubernetes => ["k8s", "schemas"]
    case Terraform => ["terraform", "schemas"]
    case Helm => ["chart", "schemas"]
    case DockerCompose => ["schemas"]
    case Custom => []
  }

  /** The files a built-in template writes; none may overwrite. */
  function FilesOf(t: TemplateType): seq<TemplateFile> {
    match t
    case CueValidation =>
      [Keep(Pipeline, CueValidationPipeline), Keep("schemas/config.cue", CueSchema), Keep("config/example.yaml", ExampleConfig)]
    case NickelGeneration =>
      [Keep(Pipeline, NickelPipeline), Keep("nickel/config.ncl", NickelConfig)]
    case FullPipeline =>
      [Keep(Pipeline, FullPipelineFile), Keep("schemas/config.cue", CueSchema), Keep("nickel/config.ncl", NickelConfig)]
    case MultiEnv =>
      [Keep(Pipeline, MultiEnvPipeline), Keep("environments/base.ncl", MultiEnvBase),
       Keep("environments/development.ncl", MultiEnvDev), Keep("environments/staging.ncl", MultiEnvStaging),
       Keep("environments/production.ncl", MultiEnvProd)]
    case Kubernetes =>
      [Keep(Pipeline, K8sPipeline), Keep("schemas/k8s.cue", K8sSchema), Keep("k8s/deployment.yaml", K8sDeployment)]
    case Terraform =>
      [Keep(Pipeline, TerraformPipeline), Keep("schemas/tfvars.cue", TerraformSchema)]
    case Helm =>
      [Keep(Pipeline, HelmPipeline), Keep("schemas/values.cue", HelmValuesSchema), Keep("chart/values.yaml", HelmValues)]
    case DockerCompose =>
      [Keep(Pipeline, ComposePipeline), Keep("schemas/compose.cue", ComposeSchema)]
    case Custom => []
  }

  /** The variables a built-in template declares. */
  function VariablesOf(t: TemplateType): map<string, TemplateVariable> {
    match t
    case CueValidation => map["project_name" := TemplateVariable("Project name", "my-project", true)]
    case NickelGeneration => map["project_name" := TemplateVariable("Project name", "my-project", true)]
    case Kubernetes => map["app_name" := TemplateVariable("Application name", "my-app", true)]
    case _ => map[]
  }

  /** The built-in template of a type: named by the type and described by
      its description. */
  function BuiltinOf(t: TemplateType): (b: Template)
    ensures b.name == AsStr(t) && b.templateType == t && b.description == Description(t)
  {
    Template(AsStr(t), t, Description(t), FilesOf(t), DirectoriesOf(t), VariablesOf(t))
  }

  /** The types `new` registers a template for: every type but `Custom`. */
  const BuiltinTypes: seq<TemplateType> :=
    [CueValidation, NickelGeneration, FullPipeline, MultiEnv, Kubernetes, Terraform, Helm, DockerCompose]

  /** Every template is registered under its own name. */
  ghost predicate Keyed(m: map<string, Template>) {
    forall name :: name in m ==> m[name].name == name
  }

  /** The registry after registering the built-in template of each type
      in `ts`, in order. */
  function Registered(ts: seq<TemplateType>): map<string, Template> {
    if ts == [] then map[]
    else Registered(ts[..|ts| - 1])[AsStr(ts[|ts| - 1]) := BuiltinOf(ts[|ts| - 1])]
  }

  /** Registering built-ins files each under its type's name, and nothing
      else. */
  lemma {:induction false} RegisteredHolds(ts: seq<TemplateType>)
    ensures Keyed(Registered(ts))
    ensures Registered(ts).Keys == set t | t in ts :: AsStr(t)
    ensures forall t :: t in ts ==> Registered(ts)[AsStr(t)] == BuiltinOf(t)
    decreases |ts|
  {
    if ts != [] {
      var init := ts[..|ts| - 1];
      var last := ts[|ts| - 1];
      RegisteredHolds(init);
      assert ts == init + [last];
      forall t | t in ts ensures Registered(ts)[AsStr(t)] == BuiltinOf(t) {
        if t != last {
          assert t in init;
          AsStrDistinct(t, last);
        }
      }
    }
  }

  /** Different types have different names, so a set of types has as
      many names as members. */
  lemma {:induction false} NameCount(types: set<TemplateType>)
    ensures |set t | t in types :: AsStr(t)| == |types|
    decreases |types|
  {
    if types != {} {
      var x :| x in types;
      var rest := types - {x};
      NameCount(rest);
      forall t | t in rest ensures AsStr(t) != AsStr(x) {
        AsStrDistinct(t, x);
      }
      assert (set t | t in types :: AsStr(t)) == (set t | t in rest :: AsStr(t)) + {AsStr(x)};
    }
  }

  // ---------------------------------------------------------------------
  // Variable substitution

  /** `str::replace`: every occurrence of the non-empty `p`, found from the
      left without overlapping, is replaced by `v`. */
  function Replace(s: string, p: string, v: string): string
    requires |p| > 0
    decreases |s|
  {
    if |s| < |p| then s
    else if s[..|p|] == p then v + Replace(s[|p|..], p, v)
    else [s[0]] + Replace(s[1..], p, v)
  }

  /** A text without the pattern is left as it is. */
  lemma {:induction false} ReplaceAbsent(s: string, p: string, v: string)
    requires |p| > 0 && !Contains(s, p)
    ensures Replace(s, p, v) == s
    decreases |s|
  {
    if |s| >= |p| {
      ReplaceAbsent(s[1..], p, v);
      assert s == [s[0]] + s[1..];
    }
  }

  /** Replacing a pattern by itself changes nothing. */
  lemma {:induction false} ReplaceSelf(s: string, p: string)
    requires |p| > 0
    ensures Replace(s, p, p) == s
    decreases |s|
  {
    if |s| >= |p| {
      if s[..|p|] == p {
        ReplaceSelf(s[|p|..], p);
        assert s == s[..|p|] + s[|p|..];
      } else {
        ReplaceSelf(s[1..], p);
        assert s == [s[0]] + s[1..];
      }
    }
  }

  /** The first occurrence is replaced by the value and the scan goes on
      after it: `a` has no occurrence starting within it. */
  lemma {:induction false} ReplaceFirst(a: string, p: string, b: string, v: string)
    requires |p| > 0
    requires forall i :: 0 <= i < |a| ==> (a + p + b)[i..][..|p|] != p
    ensures Replace(a + p + b, p, v) == a + v + Replace(b, p, v)
    decreases |a|
  {
    var s := a + p + b;
    if a == [] {
      assert s == p + b;
      assert s[..|p|] == p;
      assert s[|p|..] == b;
    } else {
      var rest := a[1..] + p + b;
      assert s[0..][..|p|] == s[..|p|];
      assert s[1..] == rest;
      assert Replace(s, p, v) == [s[0]] + Replace(rest, p, v);
      NoMatchWithinTail(a, p, b);
      ReplaceFirst(a[1..], p, b, v);
      assert [s[0]] + (a[1..] + v + Replace(b, p, v)) == a + v + Replace(b, p, v);
    }
  }

  /** No occurrence starts within `a` after its first character either. */
  lemma NoMatchWithinTail(a: string, p: string, b: string)
    requires a != []
    requires forall i :: 0 <= i < |a| ==> (a + p + b)[i..][..|p|] != p
    ensures forall i :: 0 <= i < |a[1..]| ==> (a[1..] + p + b)[i..][..|p|] != p
  {
    var s := a + p + b;
    var rest := a[1..] + p + b;
    forall i | 0 <= i < |a[1..]| ensures rest[i..][..|p|] != p {
      assert rest[i..] == s[i + 1..];
    }
  }

  /** The two placeholder spellings of a variable. */
  function Braced(key: string): string {
    "{{ " + key + " }}"
  }

  function Dollar(key: string): string {
    "${" + key + "}"
  }

  /** One variable substituted: first the braced, then the dollar form. */
  function SubstituteKey(s: string, key: string, value: string): string {
    Replace(Replace(s, Braced(key), value), Dollar(key), value)
  }

  /** The variables substituted in the order `order` visits them. */
  function SubstituteAll(s: string, order: seq<string>, vars: map<string, string>): string
    requires forall i :: 0 <= i < |order| ==> order[i] in vars
  {
    if order == [] then s
    else
      var key := order[|order| - 1];
      SubstituteKey(SubstituteAll(s, order[..|order| - 1], vars), key, vars[key])
  }

  /** `xs` lists the set `s`, each member once. */
  ghost predicate Enumerates(xs: seq<string>, s: set<string>) {
    && (forall i, j :: 0 <= i < j < |xs| ==> xs[i] != xs[j])
    && (forall x :: x in s <==> x in xs)
  }

  /** A list of a set, each member once, is as long as the set is large. */
  lemma {:induction false} EnumeratesSize(xs: seq<string>, s: set<string>)
    requires Enumerates(xs, s)
    ensures |xs| == |s|
    decreases |xs|
  {
    if xs == [] {
      assert s == {};
    } else {
      var last := xs[|xs| - 1];
      var init := xs[..|xs| - 1];
      assert xs == init + [last];
      assert last !in init by {
        forall i | 0 <= i < |init| ensures init[i] != last {
          assert init[i] == xs[i];
        }
      }
      assert Enumerates(init, s - {last});
      EnumeratesSize(init, s - {last});
    }
  }

  /** The keys of a map, in the unspecified order of its iteration. */
  method KeysOf<V>(m: map<string, V>) returns (keys: seq<string>)
    ensures Enumerates(keys, m.Keys)
  {
    keys := [];
    var remaining := m.Keys;
    while remaining != {}
      invariant remaining <= m.Keys
      invariant forall i, j :: 0 <= i < j < |keys| ==> keys[i] != keys[j]
      invariant forall x :: x in keys <==> x in m.Keys - remaining
      decreases |remaining|
    {
      var key :| key in remaining;
      assert key !in keys;
      keys := keys + [key];
      remaining := remaining - {key};
    }
  }

  /** `substitute_variables`, visiting the variables in `order`. */
  method SubstituteVariables(content: string, vars: map<string, string>, order: seq<string>) returns (result: string)
    requires Enumerates(order, vars.Keys)
    ensures result == SubstituteAll(content, order, vars)
  {
    result := content;
    for i := 0 to |order|
      invariant result == SubstituteAll(content, order[..i], vars)
    {
      assert order[..i + 1][..i] == order[..i];
      var key := order[i];
      result := Replace(result, Braced(key), vars[key]);
      result := Replace(result, Dollar(key), vars[key]);
    }
    assert order[..|order|] == order;
  }

  /** Without variables the content is unchanged. */
  lemma NoVariablesNoChange(content: string, order: seq<string>)
    requires Enumerates(order, {})
    ensures order == [] && SubstituteAll(content, order, map[]) == content
  {
    EnumeratesSize(order, {});
  }

  /** With a single variable, each placeholder occurrence is replaced by
      its value: every braced one, then every dollar one. */
  lemma SingleVariable(content: string, key: string, value: string, order: seq<string>)
    requires Enumerates(order, map[key := value].Keys)
    ensures order == [key]
    ensures SubstituteAll(content, order, map[key := value]) == Replace(Replace(content, Braced(key), value), Dollar(key), value)
  {
    EnumeratesSize(order, {key});
    assert order[0] in order;
  }

  // ---------------------------------------------------------------------
  // Generation

  /** The paths that exist once `path` has been made, by `create_dir_all`
      of it or by a write after `create_dir_all` of its parent: the path
      and every directory above it. */
  function WithAncestors(present: set<string>, path: string): (after: set<string>)
    ensures present <= after && path in after
  {
    present + {path} + Executors.Ancestors(path)
  }

  /** Every directory above an existing path exists, as in a real file
      system. */
  ghost predicate UpClosed(present: set<string>) {
    forall p :: p in present ==> Executors.Ancestors(p) <= present
  }

  /** Making a path keeps the existing paths closed under parents. */
  lemma UpClosedWith(present: set<string>, path: string)
    requires UpClosed(present)
    ensures UpClosed(WithAncestors(present, path))
  {
    forall p | p in WithAncestors(present, path) ensures Executors.Ancestors(p) <= WithAncestors(present, path) {
      if p in Executors.Ancestors(path) {
        Executors.AncestorsClosed(path, p);
      }
    }
  }

  /** Every path that making each of `paths` in turn brings into
      existence: the paths and the directories above them. */
  ghost function Covered(paths: seq<string>): set<string>
    decreases |paths|
  {
    if paths == [] then {} else {paths[0]} + Executors.Ancestors(paths[0]) + Covered(paths[1..])
  }

  /** Covering the first `k + 1` paths is making the first, then covering
      the next `k`. */
  lemma CoveredCons(paths: seq<string>, k: nat)
    requires k < |paths|
    ensures Covered(paths[..k + 1]) == {paths[0]} + Executors.Ancestors(paths[0]) + Covered(paths[1..][..k])
  {
    assert paths[..k + 1][1..] == paths[1..][..k];
  }

  /** Each directory's full path under the target. */
  function DirTargets(dirs: seq<string>, target: string): (paths: seq<string>)
    ensures |paths| == |dirs| && forall i :: 0 <= i < |dirs| ==> paths[i] == Executors.JoinPath(target, dirs[i])
  {
    if dirs == [] then [] else [Executors.JoinPath(target, dirs[0])] + DirTargets(dirs[1..], target)
  }

  /** The directories created and the paths that exist afterwards. */
  datatype Made = Made(created: seq<string>, present: set<string>)

  /** The directory loop of `generate`: each missing directory is created
      with every directory above it, and recorded. */
  function MakeDirs(dirs: seq<string>, target: string, present: set<string>): Made
    decreases |dirs|
  {
    if dirs == [] then Made([], present)
    else
      var path := Executors.JoinPath(target, dirs[0]);
      if path !in present then
        var rest := MakeDirs(dirs[1..], target, WithAncestors(present, path));
        Made([dirs[0]] + rest.created, rest.present)
      else MakeDirs(dirs[1..], target, present)
  }

  /** The files created and skipped, the contents written by full path,
      and the paths that exist afterwards. */
  datatype Writes = Writes(created: seq<string>, skipped: seq<string>, written: map<string, string>, present: set<string>)

  /** The file loop of `generate`: an existing path that may not be
      overwritten is skipped; any other is written with `render`, after
      its parent directory is created with every directory above it. */
  function WriteFiles(files: seq<TemplateFile>, target: string, present: set<string>, render: TemplateFile -> string): Writes
    decreases |files|
  {
    if files == [] then Writes([], [], map[], present)
    else
      var f := files[0];
      var path := Executors.JoinPath(target, f.path);
      if path in present && !f.overwrite then
        var rest := WriteFiles(files[1..], target, present, render);
        Writes(rest.created, [f.path] + rest.skipped, rest.written, rest.present)
      else
        var rest := WriteFiles(files[1..], target, WithAncestors(present, path), render);
        Writes([f.path] + rest.created, rest.skipped, map[path := render(f)] + rest.written, rest.present)
  }

  function BodyText(c: Content, bodies: Stock -> string): string {
    match c
    case StockBody(s) => bodies(s)
    case Inline(text) => text
  }

  /** What a file's content becomes once the variables are substituted. */
  function Render(vars: map<string, string>, order: seq<string>, bodies: Stock -> string): TemplateFile -> string
    requires forall i :: 0 <= i < |order| ==> order[i] in vars
  {
    (f: TemplateFile) => SubstituteAll(BodyText(f.content, bodies), order, vars)
  }

  function NotFound(name: string, names: seq<string>): ConflowError {
    ExecutionFailed("Template not found: " + name, Some("Available templates: " + Join(names, ", ")))
  }

  /** The outcome of `generate` and the files it writes. */
  function Generation(templates: map<string, Template>, name: string, target: string, vars: map<string, string>,
                      order: seq<string>, names: seq<string>, present: set<string>, bodies: Stock -> string)
    : (Result<GenerationResult, ConflowError>, map<string, string>)
    requires forall i :: 0 <= i < |order| ==> order[i] in vars
  {
    if name !in templates then (Err(NotFound(name, names)), map[])
    else
      var t := templates[name];
      var made := MakeDirs(t.directories, target, present);
      var writes := WriteFiles(t.files, target, made.present, Render(vars, order, bodies));
      (Ok(GenerationResult(name, writes.created, writes.skipped, made.created)), writes.written)
  }

  /** Every file is either created or skipped, never both and never
      dropped. */
  lemma {:induction false} WriteFilesPartition(files: seq<TemplateFile>, target: string, present: set<string>, render: TemplateFile -> string)
    ensures var w := WriteFiles(files, target, present, render);
      |w.created| + |w.skipped| == |files|
      && multiset(w.created + w.skipped) == multiset(PathsOf(files))
    decreases |files|
  {
    if files != [] {
      var path := Executors.JoinPath(target, files[0].path);
      var after := if path in present && !files[0].overwrite then present else WithAncestors(present, path);
      WriteFilesPartition(files[1..], target, after, render);
      assert PathsOf(files) == [files[0].path] + PathsOf(files[1..]);
    }
  }

  function TargetsOf(files: seq<TemplateFile>, target: string): (paths: seq<string>)
    ensures |paths| == |files| && forall i :: 0 <= i < |files| ==> paths[i] == Executors.JoinPath(target, files[i].path)
  {
    if files == [] then [] else [Executors.JoinPath(target, files[0].path)] + TargetsOf(files[1..], target)
  }

  function PathsOf(files: seq<TemplateFile>): (paths: seq<string>)
    ensures |paths| == |files| && forall i :: 0 <= i < |files| ==> paths[i] == files[i].path
  {
    if files == [] then [] else [files[0].path] + PathsOf(files[1..])
  }

  /** The full paths of the files are pairwise different. */
  predicate DistinctTargets(files: seq<TemplateFile>, target: string) {
    forall i, j :: 0 <= i < j < |files| ==> Executors.JoinPath(target, files[i].path) != Executors.JoinPath(target, files[j].path)
  }

  /** File `i` meets an existing path and may not be overwritten: its
      path existed beforehand or was made, as a directory above an
      earlier file, by the loop itself. */
  ghost predicate SkippedAt(files: seq<TemplateFile>, target: string, present: set<string>, i: nat)
    requires i < |files|
  {
    Executors.JoinPath(target, files[i].path) in present + Covered(TargetsOf(files, target)[..i]) && !files[i].overwrite
  }

  /** With pairwise different targets and a file system closed under
      parents, a file is skipped exactly when it meets an existing path
      and may not be overwritten, and created otherwise. */
  lemma {:induction false} SkipRule(files: seq<TemplateFile>, target: string, present: set<string>, render: TemplateFile -> string)
    requires DistinctTargets(files, target) && UpClosed(present)
    ensures var w := WriteFiles(files, target, present, render);
      forall i :: 0 <= i < |files| ==>
        && (files[i].path in w.skipped <==> SkippedAt(files, target, present, i))
        && (files[i].path in w.created <==> !SkippedAt(files, target, present, i))
    decreases |files|
  {
    if files != [] {
      var f := files[0];
      var path := Executors.JoinPath(target, f.path);
      var skip := path in present && !f.overwrite;
      var after := if skip then present else WithAncestors(present, path);
      var rest := files[1..];
      DistinctRest(files, target);
      if !skip {
        UpClosedWith(present, path);
      }
      SkipRule(rest, target, after, render);
      CoveredShift(files, target, present, after);
      var tail := WriteFiles(rest, target, after, render);
      forall i | 0 <= i < |rest| ensures rest[i].path != f.path {
        assert rest[i] == files[i + 1];
      }
      WriteFilesMembers(rest, target, after, render);
      assert f.path !in tail.created && f.path !in tail.skipped;
      var w := WriteFiles(files, target, present, render);
      forall i | 0 <= i < |files|
        ensures && (files[i].path in w.skipped <==> SkippedAt(files, target, present, i))
                && (files[i].path in w.created <==> !SkippedAt(files, target, present, i))
      {
        if i == 0 {
          assert TargetsOf(files, target)[..0] == [];
        } else {
          assert files[i] == rest[i - 1];
          assert SkippedAt(files, target, present, i) == SkippedAt(rest, target, after, i - 1);
        }
      }
    }
  }

  /** The targets after the first are still pairwise different. */
  lemma DistinctRest(files: seq<TemplateFile>, target: string)
    requires files != [] && DistinctTargets(files, target)
    ensures DistinctTargets(files[1..], target)
    ensures forall i :: 1 <= i < |files| ==> Executors.JoinPath(target, files[i].path) != Executors.JoinPath(target, files[0].path)
  {
    var rest := files[1..];
    forall i, j | 0 <= i < j < |rest| ensures Executors.JoinPath(target, rest[i].path) != Executors.JoinPath(target, rest[j].path) {
      assert rest[i] == files[i + 1] && rest[j] == files[j + 1];
    }
  }

  /** With pairwise different targets, each created file's full path
      holds its rendered content. */
  lemma {:induction false} CreatedWritten(files: seq<TemplateFile>, target: string, present: set<string>, render: TemplateFile -> string)
    requires DistinctTargets(files, target)
    ensures var w := WriteFiles(files, target, present, render);
      forall i :: 0 <= i < |files| && files[i].path in w.created ==>
        Executors.JoinPath(target, files[i].path) in w.written
        && w.written[Executors.JoinPath(target, files[i].path)] == render(files[i])
    decreases |files|
  {
    if files != [] {
      var f := files[0];
      var path := Executors.JoinPath(target, f.path);
      var after := if path in present && !f.overwrite then present else WithAncestors(present, path);
      var rest := files[1..];
      DistinctRest(files, target);
      CreatedWritten(rest, target, after, render);
      WriteFilesMembers(rest, target, after, render);
      var tail := WriteFiles(rest, target, after, render);
      forall i | 0 <= i < |rest| ensures rest[i].path != f.path && Executors.JoinPath(target, rest[i].path) != path {
        assert rest[i] == files[i + 1];
      }
      assert f.path !in tail.created;
      assert path !in tail.written;
      forall i | 1 <= i < |files| ensures files[i] == rest[i - 1] {
      }
    }
  }

  /** Afterwards exactly the paths that existed, the files and the
      directories above them exist, on a file system closed under
      parents. */
  lemma {:induction false} WriteFilesPresent(files: seq<TemplateFile>, target: string, present: set<string>, render: TemplateFile -> string)
    requires UpClosed(present)
    ensures WriteFiles(files, target, present, render).present == present + Covered(TargetsOf(files, target))
    decreases |files|
  {
    if files != [] {
      var path := Executors.JoinPath(target, files[0].path);
      var after := if path in present && !files[0].overwrite then present else WithAncestors(present, path);
      if !(path in present && !files[0].overwrite) {
        UpClosedWith(present, path);
      }
      WriteFilesPresent(files[1..], target, after, render);
      CoveredShift(files, target, present, after);
    }
  }

  /** What exists before file `k + 1` of the loop, seen from the state
      after the first file: the same paths as from the start. */
  lemma CoveredShift(files: seq<TemplateFile>, target: string, present: set<string>, after: set<string>)
    requires files != [] && UpClosed(present)
    requires var path := Executors.JoinPath(target, files[0].path);
      after == (if path in present && !files[0].overwrite then present else WithAncestors(present, path))
    ensures forall k :: 0 <= k <= |files| - 1 ==>
      after + Covered(TargetsOf(files[1..], target)[..k]) == present + Covered(TargetsOf(files, target)[..k + 1])
    ensures after + Covered(TargetsOf(files[1..], target)) == present + Covered(TargetsOf(files, target))
  {
    var t := TargetsOf(files, target);
    var path := t[0];
    assert t[1..] == TargetsOf(files[1..], target);
    if path in present {
      assert {path} + Executors.Ancestors(path) <= present;
    }
    forall k | 0 <= k <= |files| - 1
      ensures after + Covered(TargetsOf(files[1..], target)[..k]) == present + Covered(t[..k + 1])
    {
      CoveredCons(t, k);
    }
    assert t[..|t|] == t && t[1..][..|t| - 1] == t[1..];
  }

  /** Only the files' own paths are created or skipped, and only their
      full paths are written. */
  lemma {:induction false} WriteFilesMembers(files: seq<TemplateFile>, target: string, present: set<string>, render: TemplateFile -> string)
    ensures var w := WriteFiles(files, target, present, render);
      && (forall p :: p in w.created || p in w.skipped ==> p in PathsOf(files))
      && (forall q :: q in w.written ==> q in TargetsOf(files, target))
    decreases |files|
  {
    if files != [] {
      var path := Executors.JoinPath(target, files[0].path);
      var after := if path in present && !files[0].overwrite then present else WithAncestors(present, path);
      WriteFilesMembers(files[1..], target, after, render);
      assert PathsOf(files) == [files[0].path] + PathsOf(files[1..]);
      assert TargetsOf(files, target) == [path] + TargetsOf(files[1..], target);
    }
  }

  /** Directory `i` meets no existing path: its full path neither
      existed beforehand nor was made, as the directory above an earlier
      one, by the loop itself. */
  ghost predicate RecordedAt(dirs: seq<string>, target: string, present: set<string>, i: nat)
    requires i < |dirs|
  {
    Executors.JoinPath(target, dirs[i]) !in present + Covered(DirTargets(dirs, target)[..i])
  }

  /** With pairwise different full paths and a file system closed under
      parents, a directory is recorded as created exactly when it meets no
      existing path, and only the template's directories are recorded. */
  lemma {:induction false} MakeDirsRule(dirs: seq<string>, target: string, present: set<string>)
    requires DistinctDirTargets(dirs, target) && UpClosed(present)
    ensures forall i :: 0 <= i < |dirs| ==> (dirs[i] in MakeDirs(dirs, target, present).created <==> RecordedAt(dirs, target, present, i))
    ensures forall d :: d in MakeDirs(dirs, target, present).created ==> d in dirs
    decreases |dirs|
  {
    if dirs != [] {
      var path := Executors.JoinPath(target, dirs[0]);
      var rest := dirs[1..];
      var after := if path !in present then WithAncestors(present, path) else present;
      DistinctDirsRest(dirs, target);
      if path !in present {
        UpClosedWith(present, path);
      }
      MakeDirsRule(rest, target, after);
      DirsShift(dirs, target, present, after);
      var m := MakeDirs(dirs, target, present);
      forall i | 0 <= i < |dirs| ensures dirs[i] in m.created <==> RecordedAt(dirs, target, present, i) {
        if i == 0 {
          assert DirTargets(dirs, target)[..0] == [];
        } else {
          assert dirs[i] == rest[i - 1];
          assert RecordedAt(dirs, target, present, i) == RecordedAt(rest, target, after, i - 1);
        }
      }
    }
  }

  /** The directories' full paths are pairwise different. */
  predicate DistinctDirTargets(dirs: seq<string>, target: string) {
    forall i, j :: 0 <= i < j < |dirs| ==> Executors.JoinPath(target, dirs[i]) != Executors.JoinPath(target, dirs[j])
  }

  /** The directories after the first still have pairwise different full
      paths, and none is the first. */
  lemma DistinctDirsRest(dirs: seq<string>, target: string)
    requires dirs != [] && DistinctDirTargets(dirs, target)
    ensures DistinctDirTargets(dirs[1..], target)
    ensures forall i :: 0 <= i < |dirs| - 1 ==> dirs[1..][i] != dirs[0]
  {
    var rest := dirs[1..];
    forall i, j | 0 <= i < j < |rest| ensures Executors.JoinPath(target, rest[i]) != Executors.JoinPath(target, rest[j]) {
      assert rest[i] == dirs[i + 1] && rest[j] == dirs[j + 1];
    }
    forall i | 0 <= i < |rest| ensures rest[i] != dirs[0] {
      assert rest[i] == dirs[i + 1];
    }
  }

  /** What exists before directory `k + 1`, seen from the state after the
      first directory: the same paths as from the start. */
  lemma DirsShift(dirs: seq<string>, target: string, present: set<string>, after: set<string>)
    requires dirs != [] && UpClosed(present)
    requires var path := Executors.JoinPath(target, dirs[0]);
      after == (if path !in present then WithAncestors(present, path) else present)
    ensures forall k :: 0 <= k <= |dirs| - 1 ==>
      after + Covered(DirTargets(dirs[1..], target)[..k]) == present + Covered(DirTargets(dirs, target)[..k + 1])
    ensures after + Covered(DirTargets(dirs[1..], target)) == present + Covered(DirTargets(dirs, target))
  {
    var t := DirTargets(dirs, target);
    var path := t[0];
    assert t[1..] == DirTargets(dirs[1..], target);
    if path in present {
      assert {path} + Executors.Ancestors(path) <= present;
    }
    forall k | 0 <= k <= |dirs| - 1
      ensures after + Covered(DirTargets(dirs[1..], target)[..k]) == present + Covered(t[..k + 1])
    {
      CoveredCons(t, k);
    }
    assert t[..|t|] == t && t[1..][..|t| - 1] == t[1..];
  }

  /** Afterwards exactly the paths that existed, the directories and the
      directories above them exist, on a file system closed under
      parents. */
  lemma {:induction false} MakeDirsPresent(dirs: seq<string>, target: string, present: set<string>)
    requires UpClosed(present)
    ensures MakeDirs(dirs, target, present).present == present + Covered(DirTargets(dirs, target))
    decreases |dirs|
  {
    if dirs != [] {
      var path := Executors.JoinPath(target, dirs[0]);
      var after := if path !in present then WithAncestors(present, path) else present;
      if path !in present {
        UpClosedWith(present, path);
      }
      MakeDirsPresent(dirs[1..], target, after);
      DirsShift(dirs, target, present, after);
    }
  }

  /** A directory made as the parent of an earlier one is not recorded:
      for the directories "a/b" then "a", only "a/b" is created. */
  lemma NestedDirectoryMadeOnce()
    ensures MakeDirs(["a/b", "a"], "t", {}).created == ["a/b"]
  {
    var p := Executors.JoinPath("t", "a/b");
    assert p == "t/a/b";
    assert p[1] == '/' && p[..1] == "t";
    assert p[3] == '/' && p[..3] == "t/a";
    assert Executors.JoinPath("t", "a") == "t/a";
    assert "t/a" in Executors.Ancestors(p);
    var dirs := ["a/b", "a"];
    assert dirs[1..] == ["a"] && dirs[1..][1..] == [];
  }

  /** A file whose path was made a directory for an earlier file is
      skipped when it may not be overwritten: with "a/b" written first,
      "a" exists when the loop reaches it. */
  lemma FileAboveEarlierFileSkipped(body: Content, render: TemplateFile -> string)
    ensures WriteFiles([TemplateFile("a/b", body, false), TemplateFile("a", body, false)], "t", {}, render).skipped == ["a"]
  {
    var p := Executors.JoinPath("t", "a/b");
    assert p == "t/a/b";
    assert p[3] == '/' && p[..3] == "t/a";
    var q := Executors.JoinPath("t", "a");
    assert q == "t/a";
    var after := WithAncestors({}, p);
    assert q in after;
    var files := [TemplateFile("a/b", body, false), TemplateFile("a", body, false)];
    assert files[1..] == [TemplateFile("a", body, false)] && files[1..][1..] == [];
    var one := files[1..];
    assert Executors.JoinPath("t", one[0].path) in after && !one[0].overwrite;
    assert WriteFiles(one[1..], "t", after, render).skipped == [];
    var last := WriteFiles(one, "t", after, render);
    assert last.skipped == ["a"];
    assert WriteFiles(files, "t", {}, render).skipped == last.skipped;
  }


  lemma {:induction false} MakeDirsGrows(dirs: seq<string>, target: string, present: set<string>)
    ensures present <= MakeDirs(dirs, target, present).present
    decreases |dirs|
  {
    if dirs != [] {
      var path := Executors.JoinPath(target, dirs[0]);
      MakeDirsGrows(dirs[1..], target, if path !in present then WithAncestors(present, path) else present);
    }
  }

  // ---------------------------------------------------------------------
  // The generator

  class TemplateGenerator {
    var templates: map<string, Template>

    /** `new`: the built-in templates, registered in turn. */
    constructor()
      ensures templates == Registered(BuiltinTypes)
    {
      templates := map[];
      new;
      var types := BuiltinTypes;
      for i := 0 to |types|
        invariant templates == Registered(types[..i])
      {
        assert types[..i + 1][..i] == types[..i];
        Register(BuiltinOf(types[i]));
      }
      assert types[..|types|] == types;
    }

    /** `get`. */
    function Get(name: string): (r: Option<Template>)
      reads this
      ensures r.Some? <==> name in templates
      ensures r.Some? ==> r.value == templates[name]
    {
      if name in templates then Some(templates[name]) else None
    }

    /** `register`: a template replaces any of the same name. */
    method Register(t: Template)
      modifies this
      ensures templates == old(templates)[t.name := t]
      ensures Keyed(old(templates)) ==> Keyed(templates)
    {
      templates := templates[t.name := t];
    }

    /** `generate`: an unknown name fails naming the known ones; otherwise
        the missing directories are created, then each file is written or
        skipped. `written` holds the content written at each full path. */
    method Generate(name: string, target: string, vars: map<string, string>, present: set<string>, bodies: Stock -> string)
      returns (r: Result<GenerationResult, ConflowError>, written: map<string, string>, ghost order: seq<string>, ghost names: seq<string>)
      ensures Enumerates(order, vars.Keys) && Enumerates(names, templates.Keys)
      ensures (r, written) == Generation(templates, name, target, vars, order, names, present, bodies)
    {
      var keys := KeysOf(vars);
      var known := KeysOf(templates);
      order, names := keys, known;
      var found := Get(name);
      if found.None? {
        r, written := Err(NotFound(name, known)), map[];
        return;
      }
      var t := found.value;
      var created, after := CreateDirectories(t.directories, target, present);
      var writes := CreateFiles(t.files, target, after, vars, keys, bodies);
      r := Ok(GenerationResult(name, writes.created, writes.skipped, created));
      written := writes.written;
    }
  }

  /** The directory loop of `generate`. */
  method CreateDirectories(dirs: seq<string>, target: string, present: set<string>) returns (created: seq<string>, after: set<string>)
    ensures Made(created, after) == MakeDirs(dirs, target, present)
  {
    created, after := [], present;
    for i := 0 to |dirs|
      invariant created + MakeDirs(dirs[i..], target, after).created == MakeDirs(dirs, target, present).created
      invariant MakeDirs(dirs[i..], target, after).present == MakeDirs(dirs, target, present).present
    {
      assert dirs[i..][1..] == dirs[i + 1..];
      var path := Executors.JoinPath(target, dirs[i]);
      if path !in after {
        after := WithAncestors(after, path);
        created := created + [dirs[i]];
      }
    }
    assert dirs[|dirs|..] == [];
  }

  /** The file loop after `i` files: what it has produced, followed by
      what the remaining files produce, is what all files produce. */
  ghost predicate WrittenSoFar(files: seq<TemplateFile>, i: nat, target: string, after: set<string>, render: TemplateFile -> string,
                               created: seq<string>, skipped: seq<string>, written: map<string, string>, full: Writes)
    requires i <= |files|
  {
    var rest := WriteFiles(files[i..], target, after, render);
    && created + rest.created == full.created
    && skipped + rest.skipped == full.skipped
    && written + rest.written == full.written
    && rest.present == full.present
  }

  /** Skipping file `i` keeps the loop's account. */
  lemma SkipStep(files: seq<TemplateFile>, i: nat, target: string, after: set<string>, render: TemplateFile -> string,
                 created: seq<string>, skipped: seq<string>, written: map<string, string>, full: Writes)
    requires i < |files| && WrittenSoFar(files, i, target, after, render, created, skipped, written, full)
    requires Executors.JoinPath(target, files[i].path) in after && !files[i].overwrite
    ensures WrittenSoFar(files, i + 1, target, after, render, created, skipped + [files[i].path], written, full)
  {
    assert files[i..][1..] == files[i + 1..];
    var rest := WriteFiles(files[i + 1..], target, after, render);
    assert skipped + ([files[i].path] + rest.skipped) == (skipped + [files[i].path]) + rest.skipped;
  }

  /** Writing file `i` keeps the loop's account. */
  lemma WriteStep(files: seq<TemplateFile>, i: nat, target: string, after: set<string>, render: TemplateFile -> string,
                  created: seq<string>, skipped: seq<string>, written: map<string, string>, full: Writes)
    requires i < |files| && WrittenSoFar(files, i, target, after, render, created, skipped, written, full)
    requires !(Executors.JoinPath(target, files[i].path) in after && !files[i].overwrite)
    ensures var path := Executors.JoinPath(target, files[i].path);
      WrittenSoFar(files, i + 1, target, WithAncestors(after, path), render,
                   created + [files[i].path], skipped, written + map[path := render(files[i])], full)
  {
    assert files[i..][1..] == files[i + 1..];
    var path := Executors.JoinPath(target, files[i].path);
    var rest := WriteFiles(files[i + 1..], target, WithAncestors(after, path), render);
    assert created + ([files[i].path] + rest.created) == (created + [files[i].path]) + rest.created;
    assert written + (map[path := render(files[i])] + rest.written) == (written + map[path := render(files[i])]) + rest.written;
  }

  /** The file loop of `generate`. */
  method CreateFiles(files: seq<TemplateFile>, target: string, present: set<string>, vars: map<string, string>,
                     order: seq<string>, bodies: Stock -> string) returns (w: Writes)
    requires Enumerates(order, vars.Keys)
    ensures w == WriteFiles(files, target, present, Render(vars, order, bodies))
  {
    ghost var render := Render(vars, order, bodies);
    ghost var full := WriteFiles(files, target, present, render);
    var created, skipped, written, after := [], [], map[], present;
    for i := 0 to |files|
      invariant WrittenSoFar(files, i, target, after, render, created, skipped, written, full)
    {
      var f := files[i];
      var path := Executors.JoinPath(target, f.path);
      if path in after && !f.overwrite {
        SkipStep(files, i, target, after, render, created, skipped, written, full);
        skipped := skipped + [f.path];
      } else {
        var content := SubstituteVariables(BodyText(f.content, bodies), vars, order);
        assert content == render(f);
        WriteStep(files, i, target, after, render, created, skipped, written, full);
        written := written + map[path := content];
        created := created + [f.path];
        after := WithAncestors(after, path);
      }
    }
    assert files[|files|..] == [];
    w := Writes(created, skipped, written, after);
  }

  /** Into a target where no file's path exists yet, nor is made as a
      directory above an earlier file, every file is created and none
      skipped. */
  lemma {:induction false} FreshTargetCreatesAll(files: seq<TemplateFile>, target: string, present: set<string>, render: TemplateFile -> string)
    requires forall i :: 0 <= i < |files| ==> Executors.JoinPath(target, files[i].path) !in present + Covered(TargetsOf(files, target)[..i])
    ensures WriteFiles(files, target, present, render).created == PathsOf(files)
    ensures WriteFiles(files, target, present, render).skipped == []
    decreases |files|
  {
    if files != [] {
      var t := TargetsOf(files, target);
      var path := t[0];
      var rest := files[1..];
      var after := WithAncestors(present, path);
      assert t[..0] == [];
      assert t[1..] == TargetsOf(rest, target);
      forall i | 0 <= i < |rest| ensures Executors.JoinPath(target, rest[i].path) !in after + Covered(TargetsOf(rest, target)[..i]) {
        assert rest[i] == files[i + 1];
        CoveredCons(t, i);
      }
      FreshTargetCreatesAll(rest, target, after, render);
      assert PathsOf(files) == [files[0].path] + PathsOf(rest);
    }
  }

  /** `generate` fails exactly for an unknown template, naming it and the
      known ones and writing nothing; otherwise it reports the template's
      name and accounts for every file as created or skipped. */
  lemma GenerateOutcome(templates: map<string, Template>, name: string, target: string, vars: map<string, string>,
                        order: seq<string>, names: seq<string>, present: set<string>, bodies: Stock -> string)
    requires Enumerates(order, vars.Keys)
    ensures var (r, written) := Generation(templates, name, target, vars, order, names, present, bodies);
      && (r.Err? <==> name !in templates)
      && (r.Err? ==> r.error == ExecutionFailed("Template not found: " + name, Some("Available templates: " + Join(names, ", "))) && written == map[])
      && (r.Ok? ==> r.value.templateName == name
                    && |r.value.filesCreated| + |r.value.filesSkipped| == |templates[name].files|
                    && multiset(r.value.filesCreated + r.value.filesSkipped) == multiset(PathsOf(templates[name].files)))
  {
    if name in templates {
      var t := templates[name];
      var made := MakeDirs(t.directories, target, present);
      WriteFilesPartition(t.files, target, made.present, Render(vars, order, bodies));
    }
  }

  /** `register` then `get` gives the registered template. */
  lemma RegisterThenGet(templates: map<string, Template>, t: Template)
    ensures t.name in templates[t.name := t] && templates[t.name := t][t.name] == t
  {
  }

  /** The built-in types are eight different ones, none of them `Custom`. */
  lemma BuiltinTypesDistinct()
    ensures |set t | t in BuiltinTypes| == 8
    ensures Custom !in BuiltinTypes
  {
    assert (set t | t in BuiltinTypes) ==
      {CueValidation, NickelGeneration, FullPipeline, MultiEnv, Kubernetes, Terraform, Helm, DockerCompose};
  }

  /** The registry `new` builds has one template per built-in type, each
      under the type's name. */
  lemma {:induction false} BuiltinRegistry()
    ensures Keyed(Registered(BuiltinTypes))
    ensures Registered(BuiltinTypes).Keys == set t | t in BuiltinTypes :: AsStr(t)
    ensures |Registered(BuiltinTypes).Keys| == 8
    ensures AsStr(Custom) !in Registered(BuiltinTypes)
  {
    var ts := BuiltinTypes;
    RegisteredHolds(ts);
    BuiltinTypesDistinct();
    var types := set t | t in ts;
    NameCount(types);
    assert (set t | t in types :: AsStr(t)) == set t | t in ts :: AsStr(t);
    forall t | t in ts ensures AsStr(t) != AsStr(Custom) {
      AsStrDistinct(t, Custom);
    }
  }

  /** The module's own test: the built-ins include at least six templates,
      among them "cue-validation" and "kubernetes". */
  lemma BuiltinNames()
    ensures |Registered(BuiltinTypes).Keys| >= 6
    ensures "cue-validation" in Registered(BuiltinTypes) && "kubernetes" in Registered(BuiltinTypes)
  {
    BuiltinRegistry();
    assert CueValidation in BuiltinTypes && Kubernetes in BuiltinTypes;
  }
}
