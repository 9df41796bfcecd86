/** The requirements a project is checked against (src/rsr/requirements.rs):
    their classes and weights, the four built-in configuration
    requirements, and the registry that holds them by id. */
module Requirements {
  import opened Wrappers

  datatype RequirementClass = Mandatory | Preferential | Advisory

  /** Position in decreasing importance. */
  function ClassRank(c: RequirementClass): nat {
    match c
    case Mandatory => 0
    case Preferential => 1
    case Advisory => 2
  }

  /** A class's share of the score: mandatory 1.0, preferential 0.5,
      advisory 0.2. */
  function Weight(c: RequirementClass): (w: real)
    ensures 0.0 < w <= 1.0
  {
    match c
    case Mandatory => 1.0
    case Preferential => 0.5
    case Advisory => 0.2
  }

  /** A more important class always weighs more. */
  lemma WeightFollowsRank(a: RequirementClass, b: RequirementClass)
    ensures ClassRank(a) < ClassRank(b) <==> Weight(a) > Weight(b)
    ensures Weight(a) == Weight(b) <==> a == b
  {
  }

  datatype PatternCheck = PatternCheck(file: string, pattern: string, shouldMatch: bool)

  datatype CueValidation = CueValidation(files: seq<string>, schema: string)

  datatype ValidationChecks = ValidationChecks(
    fileExists: seq<string>,
    fileAbsent: seq<string>,
    patterns: seq<PatternCheck>,
    cueValidate: seq<CueValidation>,
    conflowValid: bool,
    shellCheck: Option<string>)

  datatype RemediationTemplate = RemediationTemplate(
    name: string,
    description: Text,
    conflowTemplate: Option<string>,
    generates: seq<string>)

  datatype RemediationOptions = RemediationOptions(
    autoFix: bool,
    templates: seq<RemediationTemplate>,
    manualSteps: seq<Text>,
    docsUrl: Option<Text>)

  datatype Requirement = Requirement(
    id: string,
    name: Text,
    reqClass: RequirementClass,
    description: Text,
    validation: ValidationChecks,
    remediation: RemediationOptions,
    related: seq<string>,
    tags: seq<string>)

  function NoChecks(): ValidationChecks {
    ValidationChecks([], [], [], [], false, None)
  }

  /** The wording of the built-in requirements' prose, kept apart from
      the data so that reasoning about ids and checks does not carry it
      along; `Spell` gives the text. */
  datatype Wording =
    | Config001Name
    | Config001Description
    | AddCueSchemaValidation
    | CreateCueSchemaStep
    | AddValidationStep
    | Config001Docs
    | Config002Name
    | Config002Description
    | SimpleSchemaValidation
    | ProgrammaticGeneration
    | GenerateValidateExport
    | RunInitStep
    | DefineStagesStep
    | ReplaceScriptsStep
    | Config002Docs
    | Config003Name
    | Config003Description
    | MultiEnvGeneration
    | BaseInNickelStep
    | OverridesStep
    | GenerateAllStep
    | Config003Docs
    | Config004Name
    | Config004Description
    | AddCacheConfigStep
    | GitignoreCacheStep
    | Config004Docs

  /** A piece of prose: one of the built-in wordings or a text given by a
      registered requirement. */
  datatype Text = Builtin(wording: Wording) | Given(s: string)

  function Spell(t: Text): string {
    match t
    case Given(s) => s
    case Builtin(w) => match w
      case Config001Name => "Configuration validation"
      case Config001Description => "Configuration files must be validated against a schema"
      case AddCueSchemaValidation => "Add CUE schema validation"
      case CreateCueSchemaStep => "Create a CUE schema for your configuration"
      case AddValidationStep => "Add validation to your build process"
      case Config001Docs => "https://rsr.dev/requirements/config-001"
      case Config002Name => "Configuration pipeline orchestration"
      case Config002Description => "Use conflow for configuration pipeline orchestration instead of ad-hoc scripts"
      case SimpleSchemaValidation => "Simple schema validation"
      case ProgrammaticGeneration => "Programmatic config generation"
      case GenerateValidateExport => "Generate + validate + export"
      case RunInitStep => "Run 'conflow init' to create a pipeline"
      case DefineStagesStep => "Define stages for your config workflow"
      case ReplaceScriptsStep => "Replace ad-hoc scripts with conflow run"
      case Config002Docs => "https://rsr.dev/requirements/config-002"
      case Config003Name => "Multi-environment configuration"
      case Config003Description => "Environment-specific configurations should be generated, not duplicated"
      case MultiEnvGeneration => "Multi-environment config generation"
      case BaseInNickelStep => "Create a base configuration in Nickel"
      case OverridesStep => "Create environment-specific overrides"
      case GenerateAllStep => "Use conflow to generate all environments"
      case Config003Docs => "https://rsr.dev/requirements/config-003"
      case Config004Name => "Configuration caching"
      case Config004Description => "Configuration generation should use caching to avoid redundant work"
      case AddCacheConfigStep => "Add cache configuration to .conflow.yaml"
      case GitignoreCacheStep => "Ensure cache directory is in .gitignore"
      case Config004Docs => "https://rsr.dev/requirements/config-004"
  }

  function Config001(): Requirement {
    Requirement(
      "RSR-CONFIG-001", Builtin(Config001Name), Mandatory,
      Builtin(Config001Description),
      NoChecks(),
      RemediationOptions(
        true,
        [RemediationTemplate("cue-validation", Builtin(AddCueSchemaValidation), Some("cue-validation"),
          [".conflow.yaml", "schemas/config.cue"])],
        [Builtin(CreateCueSchemaStep), Builtin(AddValidationStep)],
        Some(Builtin(Config001Docs))),
      ["RSR-CONFIG-002"],
      ["config", "validation"])
  }

  function Config002(): Requirement {
    Requirement(
      "RSR-CONFIG-002", Builtin(Config002Name), Preferential,
      Builtin(Config002Description),
      NoChecks().(fileExists := [".conflow.yaml"], conflowValid := true),
      RemediationOptions(
        true,
        [RemediationTemplate("cue-validation", Builtin(SimpleSchemaValidation), Some("cue-validation"), [".conflow.yaml"]),
         RemediationTemplate("nickel-generation", Builtin(ProgrammaticGeneration), Some("nickel-generation"), [".conflow.yaml"]),
         RemediationTemplate("full-pipeline", Builtin(GenerateValidateExport), Some("full-pipeline"), [".conflow.yaml"])],
        [Builtin(RunInitStep), Builtin(DefineStagesStep),
         Builtin(ReplaceScriptsStep)],
        Some(Builtin(Config002Docs))),
      ["RSR-CONFIG-001", "RSR-CONFIG-003"],
      ["config", "orchestration", "conflow"])
  }

  function Config003(): Requirement {
    Requirement(
      "RSR-CONFIG-003", Builtin(Config003Name), Preferential,
      Builtin(Config003Description),
      NoChecks().(patterns := [PatternCheck(".conflow.yaml", "generate-.*env|environment", true)], conflowValid := true),
      RemediationOptions(
        true,
        [RemediationTemplate("multi-env", Builtin(MultiEnvGeneration), Some("multi-env"),
          [".conflow.yaml", "environments/"])],
        [Builtin(BaseInNickelStep), Builtin(OverridesStep),
         Builtin(GenerateAllStep)],
        Some(Builtin(Config003Docs))),
      ["RSR-CONFIG-002"],
      ["config", "environments", "dry"])
  }

  function Config004(): Requirement {
    Requirement(
      "RSR-CONFIG-004", Builtin(Config004Name), Advisory,
      Builtin(Config004Description),
      NoChecks().(patterns := [PatternCheck(".conflow.yaml", "cache:\\s*\\n\\s*enabled:\\s*true", true)]),
      RemediationOptions(
        true,
        [],
        [Builtin(AddCacheConfigStep), Builtin(GitignoreCacheStep)],
        Some(Builtin(Config004Docs))),
      ["RSR-CONFIG-002"],
      ["config", "performance", "caching"])
  }

  /** `builtin_config_requirements`. */
  function Builtins(): seq<Requirement> {
    [Config001(), Config002(), Config003(), Config004()]
  }

  /** The built-ins keyed by id. */
  function BuiltinMap(): map<string, Requirement> {
    map["RSR-CONFIG-001" := Config001(), "RSR-CONFIG-002" := Config002(),
        "RSR-CONFIG-003" := Config003(), "RSR-CONFIG-004" := Config004()]
  }

  /** Inserting the first `n` requirements of `rs`, each under its id, a
      later one replacing an earlier one with the same id. */
  function InsertAll(m: map<string, Requirement>, rs: seq<Requirement>, n: nat): map<string, Requirement>
    requires n <= |rs|
  {
    if n == 0 then m else InsertAll(m, rs, n - 1)[rs[n - 1].id := rs[n - 1]]
  }

  /** Every entry is filed under its own id. */
  ghost predicate Keyed(m: map<string, Requirement>) {
    forall id :: id in m ==> m[id].id == id
  }

  lemma {:induction false} InsertAllKeyed(m: map<string, Requirement>, rs: seq<Requirement>, n: nat)
    requires n <= |rs| && Keyed(m)
    ensures Keyed(InsertAll(m, rs, n))
    ensures forall i :: 0 <= i < n ==> rs[i].id in InsertAll(m, rs, n)
    ensures forall id :: id in InsertAll(m, rs, n) ==> id in m || exists i :: 0 <= i < n && rs[i].id == id
  {
    if n > 0 {
      InsertAllKeyed(m, rs, n - 1);
    }
  }

  /** The built-in ids are distinct, so inserting them one after the other
      loses none: the registry holds exactly the four built-ins. */
  lemma BuiltinsInserted()
    ensures InsertAll(map[], Builtins(), 4) == BuiltinMap()
    ensures Keyed(BuiltinMap())
    ensures |BuiltinMap()| == 4
    ensures forall i, j :: 0 <= i < j < |Builtins()| ==> Builtins()[i].id != Builtins()[j].id
  {
    var ids := ["RSR-CONFIG-001", "RSR-CONFIG-002", "RSR-CONFIG-003", "RSR-CONFIG-004"];
    assert ids[0][13] == '1' && ids[1][13] == '2' && ids[2][13] == '3' && ids[3][13] == '4';
    assert BuiltinMap().Keys == {ids[0], ids[1], ids[2], ids[3]};
  }

  /** `get`. */
  function Lookup(m: map<string, Requirement>, id: string): (r: Option<Requirement>)
    ensures r.Some? <==> id in m
    ensures r.Some? ==> r.value == m[id]
  {
    if id in m then Some(m[id]) else None
  }

  /** `by_tag`: the requirements whose tags include `tag`. The source
      lists them in map order, which is unspecified, so this is a set. */
  function WithTag(m: map<string, Requirement>, tag: string): (rs: set<Requirement>)
    ensures forall r :: r in rs <==> r in m.Values && tag in r.tags
  {
    set id | id in m && tag in m[id].tags :: m[id]
  }

  /** `by_class`, likewise. */
  function OfClass(m: map<string, Requirement>, c: RequirementClass): (rs: set<Requirement>)
    ensures forall r :: r in rs <==> r in m.Values && r.reqClass == c
  {
    set id | id in m && m[id].reqClass == c :: m[id]
  }

  /** `RsrRequirementRegistry`. */
  class RequirementRegistry {
    var requirements: map<string, Requirement>

    /** `new`: the built-ins, inserted one by one. */
    constructor()
      ensures requirements == BuiltinMap() && Keyed(requirements)
    {
      var m := map[];
      var builtins := Builtins();
      for i := 0 to |builtins|
        invariant m == InsertAll(map[], builtins, i)
      {
        m := m[builtins[i].id := builtins[i]];
      }
      BuiltinsInserted();
      requirements := m;
    }

    function Get(id: string): (r: Option<Requirement>)
      reads this
      ensures r == Lookup(requirements, id)
    {
      if id in requirements then Some(requirements[id]) else None
    }

    function ByTag(tag: string): (rs: set<Requirement>)
      reads this
      ensures rs == WithTag(requirements, tag)
    {
      set id | id in requirements && tag in requirements[id].tags :: requirements[id]
    }

    function ByClass(c: RequirementClass): (rs: set<Requirement>)
      reads this
      ensures rs == OfClass(requirements, c)
    {
      set id | id in requirements && requirements[id].reqClass == c :: requirements[id]
    }

    /** `register`: files the requirement under its id, replacing any
        earlier one. */
    method Register(r: Requirement)
      modifies this
      ensures requirements == old(requirements)[r.id := r]
      ensures Keyed(old(requirements)) ==> Keyed(requirements)
    {
      requirements := requirements[r.id := r];
    }
  }

  /** After `register(r)`, `get(r.id)` is `r` and every other id is as
      before. */
  lemma RegisterThenGet(m: map<string, Requirement>, r: Requirement, id: string)
    ensures Lookup(m[r.id := r], r.id) == Some(r)
    ensures id != r.id ==> Lookup(m[r.id := r], id) == Lookup(m, id)
  {
  }

  /** After `register(r)`, `by_tag(t)` gains `r` when it carries `t`, and
      loses only the requirement `r` replaced. */
  lemma RegisterThenByTag(m: map<string, Requirement>, r: Requirement, tag: string)
    ensures tag in r.tags ==> r in WithTag(m[r.id := r], tag)
    ensures WithTag(m[r.id := r], tag) <= WithTag(m, tag) + {r}
    ensures r.id !in m ==> WithTag(m, tag) <= WithTag(m[r.id := r], tag)
  {
    assert m[r.id := r][r.id] == r;
    if r.id !in m {
      forall q | q in WithTag(m, tag) ensures q in WithTag(m[r.id := r], tag) {
        var id :| id in m && m[id] == q;
        assert m[r.id := r][id] == q;
      }
    }
  }

  /** An id that was never registered is not found. */
  lemma UnknownIdMissing(id: string)
    requires id !in {"RSR-CONFIG-001", "RSR-CONFIG-002", "RSR-CONFIG-003", "RSR-CONFIG-004"}
    ensures Lookup(BuiltinMap(), id) == None
  {
  }

  /** The registry's own expectations: RSR-CONFIG-002 is preferential and
      asks for a valid pipeline, and every built-in is tagged "config". */
  lemma BuiltinFacts()
    ensures Lookup(BuiltinMap(), "RSR-CONFIG-002").Some?
    ensures Lookup(BuiltinMap(), "RSR-CONFIG-002").value.reqClass == Preferential
    ensures Lookup(BuiltinMap(), "RSR-CONFIG-002").value.validation.conflowValid
    ensures forall r :: r in BuiltinMap().Values ==> r in WithTag(BuiltinMap(), "config")
  {
  }
}
