/** Pipeline validation (src/pipeline/validation.rs). `validate` never
    fails: it gathers every problem into an error list and every doubtful
    but acceptable setting into a warning list, and validity means no
    errors. The specification functions below say which messages a
    pipeline produces; the methods build the two lists the way the source
    does and are proved to produce exactly those messages. */
module Validation {
  import opened Wrappers
  import opened Strings
  import opened Errors
  import opened Definition
  import Dag
  import Seqs

  // ---------------------------------------------------------------------
  // Messages

  /** The separator the cycle message joins stage names with, character
      for character as it stands in the source file (a mis-encoded arrow). */
  const CycleSeparator: string := " \U{E2}\U{2020}\U{2019} "

  /** One problem `validate` can report. The lists hold these values;
      `Text` gives the message the source formats for each. */
  datatype Issue =
    | NoStages
    | DuplicateName(name: string)
    | Cycle(cycleStages: seq<string>)
    | UnknownStageDependency(stage: string, dependency: string)
    | OtherDagError
    | ShellCommandEmpty(shellStage: string)
    | UnknownInput(inputStage: string, from: string)
    | EmptyPattern(patternStage: string)
    | EmptyList(listStage: string)
    | CueVetWithoutSchemas(cueStage: string)
    | NickelExportWithoutFile(nickelStage: string)
    | ImplicitDependency(dependentStage: string, producer: string)
  {
    /** The message text. `OtherDagError` stands for "DAG validation
        error: " followed by the error's display text, which is not
        rendered here; `BuildErrorKinds` shows it never arises. */
    function Text(): string {
      match this
      case NoStages => "Pipeline has no stages defined"
      case DuplicateName(n) => "Duplicate stage name: '" + n + "'"
      case Cycle(names) => "Circular dependency: " + Join(names, CycleSeparator)
      case UnknownStageDependency(st, d) => "Stage '" + st + "' depends on unknown stage '" + d + "'"
      case OtherDagError => "DAG validation error"
      case ShellCommandEmpty(st) => "Stage '" + st + "': Shell command is empty"
      case UnknownInput(st, f) => "Stage '" + st + "': Input references unknown stage '" + f + "'"
      case EmptyPattern(st) => "Stage '" + st + "': Input pattern is empty"
      case EmptyList(st) => "Stage '" + st + "': Input list is empty"
      case CueVetWithoutSchemas(st) =>
        "Stage '" + st + "': CUE vet command without schemas - validation will be minimal"
      case NickelExportWithoutFile(st) =>
        "Stage '" + st + "': Nickel export without explicit file - ensure input provides it"
      case ImplicitDependency(st, f) =>
        "Stage '" + st + "': References stage '" + f
          + "' output but doesn't declare dependency. This will be added implicitly."
    }
  }

  // ---------------------------------------------------------------------
  // The result being accumulated

  /** `ValidationResult`: the errors and warnings found so far. */
  class ValidationResult {
    var errors: seq<Issue>
    var warnings: seq<Issue>

    constructor ()
      ensures errors == [] && warnings == []
    {
      errors := [];
      warnings := [];
    }

    method AddError(message: Issue)
      modifies this
      ensures errors == old(errors) + [message] && warnings == old(warnings)
    {
      errors := errors + [message];
    }

    method AddWarning(message: Issue)
      modifies this
      ensures warnings == old(warnings) + [message] && errors == old(errors)
    {
      warnings := warnings + [message];
    }

    /** Valid means no errors; warnings play no part. */
    function IsValid(): (b: bool)
      reads this
      ensures b <==> |errors| == 0
    {
      errors == []
    }

    function HasWarnings(): (b: bool)
      reads this
      ensures b <==> |warnings| > 0
    {
      warnings != []
    }
  }

  // ---------------------------------------------------------------------
  // Which messages a pipeline produces

  /** The names of the stages, as a set. */
  function NameSet(stages: seq<Stage>): (names: set<string>)
    ensures forall i :: 0 <= i < |stages| ==> stages[i].name in names
    ensures forall n :: n in names ==> exists i :: 0 <= i < |stages| && stages[i].name == n
  {
    set i | 0 <= i < |stages| :: stages[i].name
  }

  /** One "Duplicate stage name" error for every stage whose name an
      earlier stage already had, in declaration order. */
  function DuplicateErrors(stages: seq<Stage>): (errs: seq<Issue>)
  {
    if stages == [] then []
    else
      var prev := stages[..|stages| - 1];
      var last := stages[|stages| - 1];
      DuplicateErrors(prev) + (if last.name in NameSet(prev) then [DuplicateName(last.name)] else [])
  }

  /** The one error a failed graph build contributes, or none. */
  function DagErrors(stages: seq<Stage>): (errs: seq<Issue>)
  {
    var built := Dag.BuildSpec(stages);
    if built.Ok? then [] else DagIssue(built.error)
  }

  /** How `validate` words a graph-build error. */
  function DagIssue(e: ConflowError): (errs: seq<Issue>)
  {
    if e.CircularDependency? then [Cycle(e.stages)]
    else if e.UnknownDependency? then [UnknownStageDependency(e.dependent, e.dependency)]
    else [OtherDagError]
  }

  /** The error the tool check reports: an empty shell command. */
  function ToolErrors(s: Stage): (errs: seq<Issue>)
  {
    if s.tool.Shell? && s.tool.shellCommand == "" then [ShellCommandEmpty(s.name)] else []
  }

  /** The error the input-reference check reports: a `from_stage` naming
      no stage. */
  function ReferenceErrors(s: Stage, stages: seq<Stage>): (errs: seq<Issue>)
  {
    match s.input
    case FromStage(f) => if GetStage(stages, f).None? then [UnknownInput(s.name, f)] else []
    case _ => []
  }

  /** The error the pattern check reports: an empty pattern or list. */
  function PatternErrors(s: Stage): (errs: seq<Issue>)
  {
    match s.input
    case Single(p) => if p == "" then [EmptyPattern(s.name)] else []
    case Multiple(v) => if v == [] then [EmptyList(s.name)] else []
    case FromStage(_) => []
  }

  /** The errors `validate_stage` reports for one stage, in order. */
  function StageErrors(s: Stage, stages: seq<Stage>): (errs: seq<Issue>)
  {
    ToolErrors(s) + ReferenceErrors(s, stages) + PatternErrors(s)
  }

  /** The warning the tool check reports: `vet` without schemas, or a
      Nickel `export` with neither file nor file input. */
  function ToolWarnings(s: Stage): (warns: seq<Issue>)
  {
    match s.tool
    case Cue(command, schemas, _, _) =>
      if command == Vet && schemas == [] then [CueVetWithoutSchemas(s.name)] else []
    case Nickel(command, file, _, _) =>
      if command == NExport && file.None? && s.input.FromStage? then [NickelExportWithoutFile(s.name)] else []
    case Shell(_, _) => []
  }

  /** The warning for a `from_stage` that `depends_on` does not list. */
  function DependencyWarnings(s: Stage): (warns: seq<Issue>)
  {
    match s.input
    case FromStage(f) => if f !in s.dependsOn then [ImplicitDependency(s.name, f)] else []
    case _ => []
  }

  /** The warnings `validate_stage` reports for one stage, in order. */
  function StageWarnings(s: Stage): (warns: seq<Issue>)
  {
    ToolWarnings(s) + DependencyWarnings(s)
  }

  /** The errors of the first `n` stages, in stage order. */
  function AllStageErrors(stages: seq<Stage>, n: nat): (errs: seq<Issue>)
    requires n <= |stages|
  {
    Seqs.Gather(stages, n, s => StageErrors(s, stages))
  }

  /** The warnings of the first `n` stages, in stage order. */
  function AllStageWarnings(stages: seq<Stage>, n: nat): (warns: seq<Issue>)
    requires n <= |stages|
  {
    Seqs.Gather(stages, n, StageWarnings)
  }

  /** Every error `validate` reports, in the order it reports them. */
  function ValidationErrors(p: Pipeline): (errs: seq<Issue>)
  {
    (if p.stages == [] then [NoStages] else [])
    + DuplicateErrors(p.stages)
    + DagErrors(p.stages)
    + AllStageErrors(p.stages, |p.stages|)
  }

  /** Every warning `validate` reports, in the order it reports them. */
  function ValidationWarnings(p: Pipeline): (warns: seq<Issue>)
  {
    AllStageWarnings(p.stages, |p.stages|)
  }

  // ---------------------------------------------------------------------
  // The validator

  method ValidateCueStage(stage: Stage, schemas: seq<string>, result: ValidationResult)
    requires stage.tool.Cue? && schemas == stage.tool.schemas
    modifies result
    ensures result.errors == old(result.errors)
    ensures result.warnings == old(result.warnings)
      + (if stage.tool.command == Vet && schemas == [] then [CueVetWithoutSchemas(stage.name)] else [])
  {
    if stage.tool.command == Vet {
      if schemas == [] {
        result.AddWarning(CueVetWithoutSchemas(stage.name));
      }
    }
  }

  method ValidateNickelStage(stage: Stage, file: Option<string>, result: ValidationResult)
    requires stage.tool.Nickel? && file == stage.tool.file
    modifies result
    ensures result.errors == old(result.errors)
    ensures result.warnings == old(result.warnings)
      + (if stage.tool.nickelCommand == NExport && file.None? && stage.input.FromStage?
         then [NickelExportWithoutFile(stage.name)] else [])
  {
    if stage.tool.nickelCommand == NExport {
      if file.None? {
        if !(stage.input.Single? || stage.input.Multiple?) {
          result.AddWarning(NickelExportWithoutFile(stage.name));
        }
      }
    }
  }

  /** The tool part of `validate_stage`. */
  method ValidateTool(stage: Stage, result: ValidationResult)
    modifies result
    ensures result.errors == old(result.errors) + ToolErrors(stage)
    ensures result.warnings == old(result.warnings) + ToolWarnings(stage)
  {
    match stage.tool {
      case Cue(_, schemas, _, _) =>
        ValidateCueStage(stage, schemas, result);
      case Nickel(_, file, _, _) =>
        ValidateNickelStage(stage, file, result);
      case Shell(command, _) =>
        if command == "" {
          result.AddError(ShellCommandEmpty(stage.name));
        }
    }
  }

  /** The input-reference part of `validate_stage`. */
  method ValidateReference(stage: Stage, pipeline: Pipeline, result: ValidationResult)
    modifies result
    ensures result.errors == old(result.errors) + ReferenceErrors(stage, pipeline.stages)
    ensures result.warnings == old(result.warnings) + DependencyWarnings(stage)
  {
    if stage.input.FromStage? {
      var from := stage.input.fromStage;
      if GetStage(pipeline.stages, from).None? {
        result.AddError(UnknownInput(stage.name, from));
      }
      if from !in stage.dependsOn {
        result.AddWarning(ImplicitDependency(stage.name, from));
      }
    }
  }

  /** The pattern part of `validate_stage`. */
  method ValidatePatterns(stage: Stage, result: ValidationResult)
    modifies result
    ensures result.errors == old(result.errors) + PatternErrors(stage)
    ensures result.warnings == old(result.warnings)
  {
    match stage.input {
      case Single(s) =>
        if s == "" {
          result.AddError(EmptyPattern(stage.name));
        }
      case Multiple(v) =>
        if v == [] {
          result.AddError(EmptyList(stage.name));
        }
      case FromStage(_) =>
    }
  }

  method ValidateStage(stage: Stage, pipeline: Pipeline, result: ValidationResult)
    modifies result
    ensures result.errors == old(result.errors) + StageErrors(stage, pipeline.stages)
    ensures result.warnings == old(result.warnings) + StageWarnings(stage)
  {
    var e0, w0 := result.errors, result.warnings;
    var te, re, pe := ToolErrors(stage), ReferenceErrors(stage, pipeline.stages), PatternErrors(stage);
    ValidateTool(stage, result);
    ValidateReference(stage, pipeline, result);
    ValidatePatterns(stage, result);
    Seqs.AppendAssoc(e0, te, re);
    Seqs.AppendAssoc(e0, te + re, pe);
  }

  /** The duplicate-name scan of `validate`, with the set of names seen. */
  method CheckDuplicateNames(stages: seq<Stage>, result: ValidationResult)
    modifies result
    ensures result.errors == old(result.errors) + DuplicateErrors(stages)
    ensures result.warnings == old(result.warnings)
  {
    var seen: set<string> := {};
    var i := 0;
    while i < |stages|
      invariant 0 <= i <= |stages|
      invariant seen == NameSet(stages[..i])
      invariant result.errors == old(result.errors) + DuplicateErrors(stages[..i])
      invariant result.warnings == old(result.warnings)
    {
      var name := stages[i].name;
      assert stages[..i + 1][..i] == stages[..i];
      NameSetSnoc(stages[..i + 1]);
      if name in seen {
        result.AddError(DuplicateName(name));
      } else {
        seen := seen + {name};
      }
      i := i + 1;
    }
    assert stages[..i] == stages;
  }

  /** The graph check of `validate`. */
  method CheckDag(pipeline: Pipeline, result: ValidationResult)
    modifies result
    ensures result.errors == old(result.errors) + DagErrors(pipeline.stages)
    ensures result.warnings == old(result.warnings)
  {
    var built := Dag.Build(pipeline);
    if built.Err? {
      var e := built.error;
      if e.CircularDependency? {
        result.AddError(Cycle(e.stages));
      } else if e.UnknownDependency? {
        result.AddError(UnknownStageDependency(e.dependent, e.dependency));
      } else {
        result.AddError(OtherDagError);
      }
    }
  }

  /** The per-stage loop of `validate`. */
  method ValidateStages(pipeline: Pipeline, result: ValidationResult)
    modifies result
    ensures result.errors == old(result.errors) + AllStageErrors(pipeline.stages, |pipeline.stages|)
    ensures result.warnings == old(result.warnings) + AllStageWarnings(pipeline.stages, |pipeline.stages|)
  {
    var stages := pipeline.stages;
    var e0, w0 := result.errors, result.warnings;
    var i := 0;
    while i < |stages|
      invariant 0 <= i <= |stages|
      invariant result.errors == e0 + AllStageErrors(stages, i)
      invariant result.warnings == w0 + AllStageWarnings(stages, i)
    {
      Seqs.AppendAssoc(e0, AllStageErrors(stages, i), StageErrors(stages[i], stages));
      Seqs.AppendAssoc(w0, AllStageWarnings(stages, i), StageWarnings(stages[i]));
      ValidateStage(stages[i], pipeline, result);
      i := i + 1;
    }
  }

  /** `validate`: always `Ok`, with exactly the errors and warnings the
      specification functions above list. */
  method Validate(pipeline: Pipeline) returns (r: Result<ValidationResult, ConflowError>)
    ensures r.Ok? && fresh(r.value)
    ensures r.value.errors == ValidationErrors(pipeline)
    ensures r.value.warnings == ValidationWarnings(pipeline)
  {
    var result := new ValidationResult();
    if pipeline.stages == [] {
      result.AddError(NoStages);
    }
    CheckDuplicateNames(pipeline.stages, result);
    CheckDag(pipeline, result);
    ValidateStages(pipeline, result);
    return Ok(result);
  }

  // ---------------------------------------------------------------------
  // What the lists say

  /** An empty pipeline is invalid, and the only complaint is that it has
      no stages. */
  lemma EmptyPipelineInvalid(p: Pipeline)
    requires p.stages == []
    ensures ValidationErrors(p) == [NoStages]
    ensures ValidationWarnings(p) == []
  {
    Dag.BuildOutcome(p.stages);
    Dag.NoEdgesNoCycle();
  }

  /** Each stage whose name repeats an earlier one adds one error, so there
      are exactly as many duplicate errors as stages beyond the distinct
      names. */
  lemma {:induction false} DuplicateCount(stages: seq<Stage>)
    ensures |DuplicateErrors(stages)| == |stages| - |NameSet(stages)|
    decreases |stages|
  {
    if stages != [] {
      var prev := stages[..|stages| - 1];
      var last := stages[|stages| - 1];
      DuplicateCount(prev);
      NameSetSnoc(stages);
    }
  }

  lemma NameSetSnoc(stages: seq<Stage>)
    requires stages != []
    ensures NameSet(stages) == NameSet(stages[..|stages| - 1]) + {stages[|stages| - 1].name}
  {
    var prev := stages[..|stages| - 1];
    assert forall i :: 0 <= i < |prev| ==> prev[i] == stages[i];
  }

  /** There is no duplicate error exactly when the names are distinct. */
  lemma {:induction false} NoDuplicatesIffDistinct(stages: seq<Stage>)
    ensures DuplicateErrors(stages) == [] <==> Dag.DistinctNames(stages)
    decreases |stages|
  {
    if stages != [] {
      var prev := stages[..|stages| - 1];
      var last := stages[|stages| - 1];
      NoDuplicatesIffDistinct(prev);
      assert forall i :: 0 <= i < |prev| ==> prev[i] == stages[i];
      if last.name in NameSet(prev) {
        var i :| 0 <= i < |prev| && prev[i].name == last.name;
        assert stages[i].name == stages[|stages| - 1].name;
      }
    }
  }

  /** The graph builder only ever fails with an unknown reference or a
      cycle, so `validate`'s catch-all branch is never taken. */
  lemma BuildErrorKinds(stages: seq<Stage>)
    ensures Dag.BuildSpec(stages).Err? ==>
      Dag.BuildSpec(stages).error.UnknownDependency? || Dag.BuildSpec(stages).error.CircularDependency?
  {
    var nti := Dag.NameIndex(stages);
    assert forall i :: 0 <= i < |stages| ==> stages[i].name in nti;
    Dag.BuildEdgesUnknown(stages, nti);
  }

  /** A failed build contributes exactly one error, and only a failed
      build contributes one; it is never the catch-all message. */
  lemma DagErrorsCount(stages: seq<Stage>)
    ensures |DagErrors(stages)| == (if Dag.BuildSpec(stages).Ok? then 0 else 1)
    ensures DagErrors(stages) != [OtherDagError]
  {
    BuildErrorKinds(stages);
  }

  /** An unknown reference anywhere makes the graph check report an
      unknown-dependency error naming a stage and a name it refers to. */
  lemma UnknownReferenceReported(stages: seq<Stage>, i: nat, d: string)
    requires i < |stages| && Dag.RefersTo(stages[i], d) && d !in Dag.NameIndex(stages)
    ensures exists j, e ::
      (0 <= j < |stages| && Dag.RefersTo(stages[j], e) && e !in Dag.NameIndex(stages)
       && DagErrors(stages) == [UnknownStageDependency(stages[j].name, e)])
  {
    Dag.BuildOutcome(stages);
    var nti := Dag.NameIndex(stages);
    assert forall k :: 0 <= k < |stages| ==> stages[k].name in nti;
    Dag.BuildEdgesUnknown(stages, nti);
    var err := Dag.BuildSpec(stages).error;
    var j :| 0 <= j < |stages| && stages[j].name == err.dependent && Dag.RefersTo(stages[j], err.dependency);
    assert DagErrors(stages) == [UnknownStageDependency(stages[j].name, err.dependency)];
  }

  /** A stage produces no error exactly when its shell command (if any) is
      non-empty, its `from_stage` (if any) names a stage, and its pattern or
      pattern list (if any) is non-empty. */
  lemma StageErrorsIff(s: Stage, stages: seq<Stage>)
    ensures StageErrors(s, stages) == [] <==>
      !(s.tool.Shell? && s.tool.shellCommand == "")
      && !(s.input.FromStage? && s.input.fromStage !in StageNames(stages))
      && !(s.input.Single? && s.input.pattern == "")
      && !(s.input.Multiple? && s.input.patternList == [])
  {
    if s.input.FromStage? {
      GetStageFindsDeclared(stages, s.input.fromStage);
    }
  }

  /** `depends_on` never affects a stage's errors; a `from_stage` it does
      not list only adds the warning that the dependency is implicit. */
  lemma DependsOnOnlyWarns(s: Stage, stages: seq<Stage>, deps: seq<string>)
    ensures StageErrors(s.(dependsOn := deps), stages) == StageErrors(s, stages)
    ensures DependencyWarnings(s) != [] <==> s.input.FromStage? && s.input.fromStage !in s.dependsOn
    ensures ToolWarnings(s.(dependsOn := deps)) == ToolWarnings(s)
  {
  }

  /** `vet` without schemas and a Nickel `export` with neither file nor
      file input are warnings; the tool never causes an error except an
      empty shell command. */
  lemma ToolChecksOnlyWarn(s: Stage)
    ensures ToolWarnings(s) != [] <==>
      (s.tool.Cue? && s.tool.command == Vet && s.tool.schemas == [])
      || (s.tool.Nickel? && s.tool.nickelCommand == NExport && s.tool.file.None? && s.input.FromStage?)
    ensures ToolErrors(s) != [] <==> s.tool.Shell? && s.tool.shellCommand == ""
  {
  }

  /** A pipeline is valid exactly when it has stages, no repeated name,
      builds into a graph, and every stage passes its own checks. */
  lemma ValidIff(p: Pipeline)
    ensures ValidationErrors(p) == [] <==>
      p.stages != [] && Dag.DistinctNames(p.stages) && Dag.BuildSpec(p.stages).Ok?
      && forall i :: 0 <= i < |p.stages| ==> StageErrors(p.stages[i], p.stages) == []
  {
    NoDuplicatesIffDistinct(p.stages);
    DagErrorsCount(p.stages);
    Seqs.GatherEmpty(p.stages, |p.stages|, s => StageErrors(s, p.stages));
  }

  /** A `from_stage` input that `depends_on` does not list always draws
      the implicit-dependency warning, whatever else the pipeline holds. */
  lemma ImplicitDependencyWarned(p: Pipeline, i: nat)
    requires i < |p.stages| && p.stages[i].input.FromStage?
    requires p.stages[i].input.fromStage !in p.stages[i].dependsOn
    ensures ImplicitDependency(p.stages[i].name, p.stages[i].input.fromStage) in ValidationWarnings(p)
  {
    var s := p.stages[i];
    assert ImplicitDependency(s.name, s.input.fromStage) in StageWarnings(s);
    Seqs.GatherContains(p.stages, |p.stages|, StageWarnings, i, ImplicitDependency(s.name, s.input.fromStage));
  }
}
