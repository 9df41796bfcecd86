/** The pipeline document (src/pipeline/definition.rs): a named list of
    stages, each running one tool on some input, plus the defaults the
    loader fills in. Paths are strings; environment maps are Dafny maps. */
module Definition {
  import opened Wrappers

  datatype CueCommand = Vet | Export | Eval | Fmt | Def
  datatype NickelCommand = NExport | Typecheck | Query | Format
  datatype OutputFormat = Json | Yaml | Toml | CueFormat | Text

  datatype Tool =
    | Cue(command: CueCommand, schemas: seq<string>, flags: seq<string>, outFormat: Option<OutputFormat>)
    | Nickel(nickelCommand: NickelCommand, file: Option<string>, nickelFlags: seq<string>, format: Option<OutputFormat>)
    | Shell(shellCommand: string, shell: string)

  datatype Input =
    | Single(pattern: string)
    | Multiple(patternList: seq<string>)
    | FromStage(fromStage: string)
  {
    /** The producing stage named by a `from_stage` input. */
    function ReferencesStage(): (r: Option<string>)
      ensures r.Some? <==> this.FromStage?
      ensures r.Some? ==> r.value == fromStage
    {
      match this
      case FromStage(n) => Some(n)
      case _ => None
    }

    /** The glob patterns of a file input; a `from_stage` input has none. */
    function Patterns(): (ps: seq<string>)
      ensures this.Single? ==> ps == [pattern]
      ensures this.Multiple? ==> ps == patternList
      ensures this.FromStage? ==> ps == []
    {
      match this
      case Single(s) => [s]
      case Multiple(v) => v
      case FromStage(_) => []
    }
  }

  datatype Output =
    | File(filePath: string)
    | Formatted(formattedPath: string, outputFormat: OutputFormat)
  {
    /** The output path, whichever form the output was written in. */
    function Path(): (p: string)
      ensures this.File? ==> p == filePath
      ensures this.Formatted? ==> p == formattedPath
    {
      match this
      case File(p) => p
      case Formatted(p, _) => p
    }

    /** The declared output format; a bare path declares none. */
    function Format(): (f: Option<OutputFormat>)
      ensures f.None? <==> this.File?
      ensures this.Formatted? ==> f == Some(outputFormat)
    {
      match this
      case File(_) => None
      case Formatted(_, fmt) => Some(fmt)
    }
  }

  datatype CacheInvalidation = ContentHash | Mtime | Manual

  datatype CacheConfig = CacheConfig(enabled: bool, directory: string, invalidation: CacheInvalidation)

  /** Declared but never consulted by the executor. */
  datatype StageCondition =
    | FileExists(conditionPath: string)
    | EnvSet(variable: string)
    | EnvEquals(envVar: string, envValue: string)
    | Always
    | Never

  datatype Stage = Stage(
    name: string,
    description: Option<string>,
    tool: Tool,
    input: Input,
    output: Option<Output>,
    dependsOn: seq<string>,
    allowFailure: bool,
    env: map<string, string>,
    condition: Option<StageCondition>)

  datatype Pipeline = Pipeline(
    version: string,
    name: string,
    description: Option<string>,
    stages: seq<Stage>,
    env: map<string, string>,
    cache: CacheConfig)

  const DefaultVersion: string := "1"
  const DefaultShell: string := "bash"
  const DefaultCacheDirectory: string := ".conflow/cache"

  /** The cache settings used when the document has no `cache` section. */
  function DefaultCacheConfig(): (c: CacheConfig)
    ensures c.enabled && c.directory == ".conflow/cache" && c.invalidation == ContentHash
  {
    CacheConfig(true, DefaultCacheDirectory, ContentHash)
  }

  /** The name the executor registry knows a stage's tool by. */
  function ToolName(t: Tool): (n: string)
    ensures t.Cue? <==> n == "cue"
    ensures t.Nickel? <==> n == "nickel"
    ensures t.Shell? <==> n == "shell"
  {
    match t
    case Cue(_, _, _, _) => "cue"
    case Nickel(_, _, _, _) => "nickel"
    case Shell(_, _) => "shell"
  }

  function CueCommandName(c: CueCommand): string {
    match c
    case Vet => "vet"
    case Export => "export"
    case Eval => "eval"
    case Fmt => "fmt"
    case Def => "def"
  }

  function NickelCommandName(c: NickelCommand): string {
    match c
    case NExport => "export"
    case Typecheck => "typecheck"
    case Query => "query"
    case Format => "format"
  }

  function OutputFormatName(f: OutputFormat): string {
    match f
    case Json => "json"
    case Yaml => "yaml"
    case Toml => "toml"
    case CueFormat => "cue"
    case Text => "text"
  }

  predicate IsLowerWord(s: string) {
    |s| > 0 && forall i :: 0 <= i < |s| ==> 'a' <= s[i] <= 'z'
  }

  /** Each command and format prints as a distinct lower-case word, so the
      printed name identifies the variant. */
  lemma DisplayNamesDistinct()
    ensures forall a: CueCommand, b: CueCommand :: CueCommandName(a) == CueCommandName(b) ==> a == b
    ensures forall a: NickelCommand, b: NickelCommand :: NickelCommandName(a) == NickelCommandName(b) ==> a == b
    ensures forall a: OutputFormat, b: OutputFormat :: OutputFormatName(a) == OutputFormatName(b) ==> a == b
    ensures forall a: CueCommand :: IsLowerWord(CueCommandName(a))
    ensures forall a: NickelCommand :: IsLowerWord(NickelCommandName(a))
    ensures forall a: OutputFormat :: IsLowerWord(OutputFormatName(a))
  {
    forall a: CueCommand, b: CueCommand | CueCommandName(a) == CueCommandName(b) ensures a == b {
      match a
      case Vet => assert CueCommandName(a)[0] == 'v';
      case Export => assert CueCommandName(a)[0] == 'e' && CueCommandName(a)[1] == 'x';
      case Eval => assert CueCommandName(a)[0] == 'e' && CueCommandName(a)[1] == 'v';
      case Fmt => assert CueCommandName(a)[0] == 'f';
      case Def => assert CueCommandName(a)[0] == 'd';
    }
    forall a: NickelCommand, b: NickelCommand | NickelCommandName(a) == NickelCommandName(b) ensures a == b {
      match a
      case NExport => assert NickelCommandName(a)[0] == 'e';
      case Typecheck => assert NickelCommandName(a)[0] == 't';
      case Query => assert NickelCommandName(a)[0] == 'q';
      case Format => assert NickelCommandName(a)[0] == 'f';
    }
    forall a: OutputFormat, b: OutputFormat | OutputFormatName(a) == OutputFormatName(b) ensures a == b {
      match a
      case Json => assert OutputFormatName(a)[0] == 'j';
      case Yaml => assert OutputFormatName(a)[0] == 'y';
      case Toml => assert OutputFormatName(a)[0] == 't' && OutputFormatName(a)[1] == 'o';
      case CueFormat => assert OutputFormatName(a)[0] == 'c';
      case Text => assert OutputFormatName(a)[0] == 't' && OutputFormatName(a)[1] == 'e';
    }
  }

  /** `i` is the position of the first stage called `name`. */
  predicate FirstNamed(stages: seq<Stage>, name: string, i: int) {
    0 <= i < |stages| && stages[i].name == name && forall j :: 0 <= j < i ==> stages[j].name != name
  }

  /** The first stage carrying `name`, or `None` when no stage does. */
  function GetStage(stages: seq<Stage>, name: string): (r: Option<Stage>)
    ensures r.None? <==> forall i :: 0 <= i < |stages| ==> stages[i].name != name
    ensures r.Some? ==> exists i :: FirstNamed(stages, name, i) && stages[i] == r.value
  {
    if stages == [] then None
    else if stages[0].name == name then Some(stages[0])
    else
      var r := GetStage(stages[1..], name);
      if r.Some? then
        var i :| FirstNamed(stages[1..], name, i) && stages[1..][i] == r.value;
        assert FirstNamed(stages, name, i + 1);
        r
      else r
  }

  /** The stage names in declaration order. */
  function StageNames(stages: seq<Stage>): (ns: seq<string>)
    ensures |ns| == |stages|
    ensures forall i :: 0 <= i < |stages| ==> ns[i] == stages[i].name
  {
    seq(|stages|, i requires 0 <= i < |stages| => stages[i].name)
  }

  /** A name is declared iff `get_stage` finds it. */
  lemma GetStageFindsDeclared(stages: seq<Stage>, name: string)
    ensures GetStage(stages, name).Some? <==> name in StageNames(stages)
    ensures GetStage(stages, name).Some? ==> GetStage(stages, name).value.name == name
  {
    var ns := StageNames(stages);
    if name in ns {
      var i :| 0 <= i < |ns| && ns[i] == name;
      assert stages[i].name == name;
    }
  }
}
