/** The Nickel executor (src/executors/nickel.rs): which input file a
    stage hands to `nickel`, the argument list, and the result mapping. */
module NickelExec {
  import opened Wrappers
  import opened Errors
  import opened Definition
  import opened Executors
  import Seqs

  /** The value of `--format`: JSON, YAML and TOML by name, anything else
      falls back to JSON. */
  function FormatName(f: OutputFormat): (name: string)
    ensures f == OutputFormat.Yaml <==> name == "yaml"
    ensures f == OutputFormat.Toml <==> name == "toml"
    ensures f != OutputFormat.Yaml && f != OutputFormat.Toml <==> name == "json"
  {
    match f
    case Json => "json"
    case Yaml => "yaml"
    case Toml => "toml"
    case CueFormat => "json"
    case Text => "json"
  }

  /** `--format <name>`, only for `export` with a format. */
  function FormatFlag(command: NickelCommand, format: Option<OutputFormat>): (flag: seq<string>)
    ensures flag != [] <==> command == NExport && format.Some?
    ensures flag != [] ==> flag == ["--format", FormatName(format.value)]
  {
    if command == NExport && format.Some? then ["--format", FormatName(format.value)] else []
  }

  /** Only the first input file is passed. */
  function FirstInput(inputs: seq<string>): (arg: seq<string>)
    ensures |arg| == (if inputs == [] then 0 else 1)
    ensures inputs != [] ==> arg[0] == inputs[0]
  {
    if inputs == [] then [] else [inputs[0]]
  }

  /** The arguments: the command, the first input, the format, the flags. */
  function NickelArgs(command: NickelCommand, inputs: seq<string>, format: Option<OutputFormat>, flags: seq<string>): seq<string>
  {
    [NickelCommandName(command)] + FirstInput(inputs) + FormatFlag(command, format) + flags
  }

  /** The input files, by priority: those resolved from an earlier stage,
      then the tool's `file` joined below the working directory, then the
      glob of the input patterns, and otherwise none. */
  function NickelInputs(stage: Stage, workingDir: string, resolved: Option<seq<string>>, glob: Matcher): (r: Result<seq<string>, ConflowError>)
    requires stage.tool.Nickel?
    ensures resolved.Some? ==> r == Ok(resolved.value)
    ensures resolved.None? && stage.tool.file.Some? ==> r == Ok([JoinPath(workingDir, stage.tool.file.value)])
    ensures resolved.None? && stage.tool.file.None? && stage.input.Patterns() == [] ==> r == Ok([])
    ensures resolved.None? && stage.tool.file.None? && stage.input.Patterns() != [] ==>
      r == ResolvedGlobs(stage.input.Patterns(), workingDir, glob)
  {
    if resolved.Some? then Ok(resolved.value)
    else if stage.tool.file.Some? then Ok([JoinPath(workingDir, stage.tool.file.value)])
    else if stage.input.Patterns() == [] then Ok([])
    else ResolvedGlobs(stage.input.Patterns(), workingDir, glob)
  }

  /** What `build_command` yields, or `InvalidStage` for a stage that does
      not run Nickel. */
  function CommandFor(nickelBin: string, stage: Stage, workingDir: string, resolved: Option<seq<string>>, glob: Matcher): (r: Result<(Command, seq<string>), ConflowError>)
  {
    if !stage.tool.Nickel? then Err(InvalidStage(stage.name, "Expected Nickel tool"))
    else
      var inputs :- NickelInputs(stage, workingDir, resolved, glob);
      var t := stage.tool;
      Ok((Command(nickelBin, NickelArgs(t.nickelCommand, inputs, t.format, t.nickelFlags), workingDir, map[]), inputs))
  }

  /** `build_command`, appending the arguments one at a time. */
  method BuildCommand(nickelBin: string, stage: Stage, workingDir: string, resolved: Option<seq<string>>, glob: Matcher)
    returns (r: Result<(Command, seq<string>), ConflowError>)
    ensures r == CommandFor(nickelBin, stage, workingDir, resolved, glob)
  {
    if !stage.tool.Nickel? {
      return Err(InvalidStage(stage.name, "Expected Nickel tool"));
    }
    var command, file, flags, format := stage.tool.nickelCommand, stage.tool.file, stage.tool.nickelFlags, stage.tool.format;
    var args := [NickelCommandName(command)];
    var inputs: seq<string>;
    if resolved.Some? {
      inputs := resolved.value;
    } else if file.Some? {
      inputs := [JoinPath(workingDir, file.value)];
    } else {
      var patterns := stage.input.Patterns();
      if patterns == [] {
        inputs := [];
      } else {
        var globbed := ResolveGlobs(patterns, workingDir, glob);
        if globbed.Err? {
          return Err(globbed.error);
        }
        inputs := globbed.value;
      }
    }
    args := args + FirstInput(inputs);
    args := args + FormatFlag(command, format);
    args := Seqs.AppendEach(args, flags);
    return Ok((Command(nickelBin, args, workingDir, map[]), inputs));
  }

  /** At most one input reaches the command line, right after the command,
      and the custom flags always come last. */
  lemma NickelArgsLayout(command: NickelCommand, inputs: seq<string>, format: Option<OutputFormat>, flags: seq<string>)
    ensures var args := NickelArgs(command, inputs, format, flags);
      var i, f := |FirstInput(inputs)|, |FormatFlag(command, format)|;
      && |args| == 1 + i + f + |flags|
      && i <= 1
      && args[0] == NickelCommandName(command)
      && (inputs != [] ==> args[1] == inputs[0])
      && args[1 + i..1 + i + f] == FormatFlag(command, format)
      && args[1 + i + f..] == flags
  {
  }

  /** `execute`: build the command, run it with the merged environment
      and map the outcome exactly as the CUE executor does; a process that
      cannot be started is a `ToolExecutionFailed` error for "nickel". */
  function Execute(nickelBin: string, stage: Stage, workingDir: string, env: map<string, string>,
                   resolved: Option<seq<string>>, glob: Matcher, run: Runner, write: Writer): (r: Result<ExecutionResult, ConflowError>)
    ensures CommandFor(nickelBin, stage, workingDir, resolved, glob).Err? ==>
      r == Err(CommandFor(nickelBin, stage, workingDir, resolved, glob).error)
    ensures CommandFor(nickelBin, stage, workingDir, resolved, glob).Ok? ==>
      var cmd := CommandFor(nickelBin, stage, workingDir, resolved, glob).value.0.(env := env);
      && (run(cmd).Err? ==> r.Err? && r.error.ToolExecutionFailed? && r.error.tool == "nickel")
      && (run(cmd).Ok? ==> r == ToolRunResult(stage, run(cmd).value, workingDir, write))
  {
    var built :- CommandFor(nickelBin, stage, workingDir, resolved, glob);
    var cmd := built.0.(env := env);
    match run(cmd)
    case Err(e) => Err(ToolExecutionFailed("nickel", e, Some("Ensure Nickel is installed and accessible")))
    case Ok(out) => ToolRunResult(stage, out, workingDir, write)
  }

  /** A stage that does not run Nickel fails before any process starts. */
  lemma ExecuteRejectsOtherTools(nickelBin: string, stage: Stage, workingDir: string, env: map<string, string>,
                                 resolved: Option<seq<string>>, glob: Matcher, run: Runner, write: Writer)
    requires !stage.tool.Nickel?
    ensures Execute(nickelBin, stage, workingDir, env, resolved, glob, run, write)
      == Err(InvalidStage(stage.name, "Expected Nickel tool"))
  {
  }

  /** `check_available`: the binary found at construction still exists. */
  function CheckAvailable(nickelBin: string, existing: set<string>): (r: Result<bool, ConflowError>)
    ensures r.Ok? && (r.value <==> nickelBin in existing)
  {
    Ok(nickelBin in existing)
  }

  /** `validate_stage`: accepts exactly the Nickel stages. */
  function ValidateStage(stage: Stage): (r: Result<(), ConflowError>)
    ensures r.Ok? <==> stage.tool.Nickel?
    ensures r.Err? ==> r.error == InvalidStage(stage.name, "Not a Nickel stage")
  {
    if stage.tool.Nickel? then Ok(()) else Err(InvalidStage(stage.name, "Not a Nickel stage"))
  }
}
