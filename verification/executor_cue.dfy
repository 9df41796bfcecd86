/** The CUE executor (src/executors/cue.rs): the `cue` argument list a
    stage turns into, and how the finished process becomes a result. */
module CueExec {
  import opened Wrappers
  import opened Errors
  import opened Definition
  import opened Executors
  import Seqs

  /** A schema argument: absolute paths are kept, relative ones are
      joined below the working directory. */
  function SchemaPath(workingDir: string): string -> string
  {
    s => if IsAbsolute(s) then s else JoinPath(workingDir, s)
  }

  /** `--out <format>`, only for `export` with an output format. */
  function OutFlag(command: CueCommand, outFormat: Option<OutputFormat>): (flag: seq<string>)
    ensures flag != [] <==> command == Export && outFormat.Some?
    ensures flag != [] ==> flag == ["--out", OutputFormatName(outFormat.value)]
  {
    if command == Export && outFormat.Some? then ["--out", OutputFormatName(outFormat.value)] else []
  }

  /** The arguments after the program name: the command, the schemas, the
      input files, the output format and the custom flags. */
  function CueArgs(command: CueCommand, schemas: seq<string>, inputs: seq<string>,
                   outFormat: Option<OutputFormat>, flags: seq<string>, workingDir: string): seq<string>
  {
    [CueCommandName(command)] + Seqs.MapPrefix(schemas, |schemas|, SchemaPath(workingDir))
    + inputs + OutFlag(command, outFormat) + flags
  }

  /** The input files: those resolved from an earlier stage when given,
      otherwise the glob of the input patterns, or none without patterns. */
  function CueInputs(stage: Stage, workingDir: string, resolved: Option<seq<string>>, glob: Matcher): (r: Result<seq<string>, ConflowError>)
    ensures resolved.Some? ==> r == Ok(resolved.value)
    ensures resolved.None? && stage.input.Patterns() == [] ==> r == Ok([])
    ensures resolved.None? && stage.input.Patterns() != [] ==>
      r == ResolvedGlobs(stage.input.Patterns(), workingDir, glob)
  {
    if resolved.Some? then Ok(resolved.value)
    else if stage.input.Patterns() == [] then Ok([])
    else ResolvedGlobs(stage.input.Patterns(), workingDir, glob)
  }

  /** What `build_command` yields: the command and the input files, or
      `InvalidStage` for a stage that does not run CUE. */
  function CommandFor(cueBin: string, stage: Stage, workingDir: string, resolved: Option<seq<string>>, glob: Matcher): (r: Result<(Command, seq<string>), ConflowError>)
  {
    if !stage.tool.Cue? then Err(InvalidStage(stage.name, "Expected CUE tool"))
    else
      var inputs :- CueInputs(stage, workingDir, resolved, glob);
      var t := stage.tool;
      Ok((Command(cueBin, CueArgs(t.command, t.schemas, inputs, t.outFormat, t.flags, workingDir), workingDir, map[]), inputs))
  }

  /** `build_command`, appending the arguments one at a time. */
  method BuildCommand(cueBin: string, stage: Stage, workingDir: string, resolved: Option<seq<string>>, glob: Matcher)
    returns (r: Result<(Command, seq<string>), ConflowError>)
    ensures r == CommandFor(cueBin, stage, workingDir, resolved, glob)
  {
    if !stage.tool.Cue? {
      return Err(InvalidStage(stage.name, "Expected CUE tool"));
    }
    var command, schemas, flags, outFormat := stage.tool.command, stage.tool.schemas, stage.tool.flags, stage.tool.outFormat;
    var args := [CueCommandName(command)];
    var inputs: seq<string>;
    if resolved.Some? {
      inputs := resolved.value;
    } else {
      var patterns := stage.input.Patterns();
      if patterns == [] {
        inputs := [];
      } else {
        var globbed := ResolveGlobs(patterns, workingDir, glob);
        if globbed.Err? {
          return Err(globbed.error);
        }
        inputs := globbed.value;
      }
    }
    var i := 0;
    while i < |schemas|
      invariant 0 <= i <= |schemas|
      invariant args == [CueCommandName(command)] + Seqs.MapPrefix(schemas, i, SchemaPath(workingDir))
    {
      var path := if IsAbsolute(schemas[i]) then schemas[i] else JoinPath(workingDir, schemas[i]);
      Seqs.AppendAssoc([CueCommandName(command)], Seqs.MapPrefix(schemas, i, SchemaPath(workingDir)), [path]);
      args := args + [path];
      i := i + 1;
    }
    args := Seqs.AppendEach(args, inputs);
    args := args + OutFlag(command, outFormat);
    args := Seqs.AppendEach(args, flags);
    return Ok((Command(cueBin, args, workingDir, map[]), inputs));
  }

  /** The argument order: the command first, then one argument per schema,
      then the inputs, then `--out` when it applies, and the flags last. */
  lemma CueArgsLayout(command: CueCommand, schemas: seq<string>, inputs: seq<string>,
                      outFormat: Option<OutputFormat>, flags: seq<string>, workingDir: string)
    ensures var args := CueArgs(command, schemas, inputs, outFormat, flags, workingDir);
      var s, n, o := |schemas|, |inputs|, |OutFlag(command, outFormat)|;
      && |args| == 1 + s + n + o + |flags|
      && args[0] == CueCommandName(command)
      && (forall k :: 0 <= k < s ==> args[1 + k] == SchemaPath(workingDir)(schemas[k]))
      && args[1 + s..1 + s + n] == inputs
      && args[1 + s + n..1 + s + n + o] == OutFlag(command, outFormat)
      && args[1 + s + n + o..] == flags
  {
  }

  /** `execute`: build the command, run it with the merged environment
      and map the outcome; a process that cannot be started is a
      `ToolExecutionFailed` error for "cue". */
  function Execute(cueBin: string, stage: Stage, workingDir: string, env: map<string, string>,
                   resolved: Option<seq<string>>, glob: Matcher, run: Runner, write: Writer): (r: Result<ExecutionResult, ConflowError>)
    ensures CommandFor(cueBin, stage, workingDir, resolved, glob).Err? ==>
      r == Err(CommandFor(cueBin, stage, workingDir, resolved, glob).error)
    ensures CommandFor(cueBin, stage, workingDir, resolved, glob).Ok? ==>
      var cmd := CommandFor(cueBin, stage, workingDir, resolved, glob).value.0.(env := env);
      && (run(cmd).Err? ==> r.Err? && r.error.ToolExecutionFailed? && r.error.tool == "cue")
      && (run(cmd).Ok? ==> r == ToolRunResult(stage, run(cmd).value, workingDir, write))
  {
    var built :- CommandFor(cueBin, stage, workingDir, resolved, glob);
    var cmd := built.0.(env := env);
    match run(cmd)
    case Err(e) => Err(ToolExecutionFailed("cue", e, Some("Ensure CUE is installed and accessible")))
    case Ok(out) => ToolRunResult(stage, out, workingDir, write)
  }

  /** A stage that does not run CUE fails before any process starts. */
  lemma ExecuteRejectsOtherTools(cueBin: string, stage: Stage, workingDir: string, env: map<string, string>,
                                 resolved: Option<seq<string>>, glob: Matcher, run: Runner, write: Writer)
    requires !stage.tool.Cue?
    ensures Execute(cueBin, stage, workingDir, env, resolved, glob, run, write)
      == Err(InvalidStage(stage.name, "Expected CUE tool"))
  {
  }

  /** `check_available`: the binary found at construction still exists. */
  function CheckAvailable(cueBin: string, existing: set<string>): (r: Result<bool, ConflowError>)
    ensures r.Ok? && (r.value <==> cueBin in existing)
  {
    Ok(cueBin in existing)
  }

  /** `validate_stage`: accepts exactly the CUE stages. */
  function ValidateStage(stage: Stage): (r: Result<(), ConflowError>)
    ensures r.Ok? <==> stage.tool.Cue?
    ensures r.Err? ==> r.error == InvalidStage(stage.name, "Not a CUE stage")
  {
    if stage.tool.Cue? then Ok(()) else Err(InvalidStage(stage.name, "Not a CUE stage"))
  }
}
