/** The error type shared by every component (src/errors/mod.rs) and the
    helpers that attach installation or diagnosis hints to tool errors. */
module Errors {
  import opened Wrappers
  import opened Strings

  datatype ConflowError =
    | ToolNotFound(tool: string, suggestion: string)
    | ToolExecutionFailed(tool: string, error: string, help: Option<string>)
    | ExecutorNotFound(executorTool: string)
    | PipelineNotFound(pipelinePath: string)
    | InvalidPipeline(reason: string, pipelineHelp: Option<string>)
    | InvalidStage(stage: string, stageReason: string)
    | CircularDependency(stages: seq<string>)
    | UnknownDependency(dependent: string, dependency: string)
    | StageNotFound(missingStage: string)
    | StageFailed(failedStage: string, stderr: string, failureHelp: Option<string>)
    | ExecutionFailed(message: string, executionHelp: Option<string>)
    | FileNotFound(path: string, fileHelp: Option<string>)
    | FileReadError(readPath: string, readError: string)
    | FileWriteError(writePath: string, writeError: string)
    | NoInputFiles(pattern: string)
    | CacheError(cacheMessage: string)
    | CueValidationFailed(cueFile: string, line: Option<nat>, column: Option<nat>, cueMessage: string, cueHelp: Option<string>)
    | NickelTypeError(nickelFile: string, nickelMessage: string, nickelHelp: Option<string>)
    | FormatDetectionFailed(detectPath: string)
    | Io(ioMessage: string)
    | Yaml(yamlMessage: string)
    | Json(jsonMessage: string)
    | Toml(tomlMessage: string)
    | GlobPattern(globMessage: string)

  const CueInstallHint := "Install CUE: https://cuelang.org/docs/install/"
  const NickelInstallHint := "Install Nickel: https://nickel-lang.org/getting-started/"

  const CueUndefinedFieldHelp := "A field is used but not defined in the schema. Check your CUE definitions."
  const CueConflictHelp := "Two values cannot be unified. This often means a constraint was violated."
  const CueTypeMismatchHelp := "Type mismatch detected. Verify your data matches the expected types."
  const NickelTypeHelp := "Type mismatch in Nickel code. Check function arguments and return types."
  const NickelUnboundHelp := "A variable or function is used but not defined. Check for typos."
  const NickelContractHelp := "A value doesn't satisfy its contract. Review your type annotations."

  /** A `ToolNotFound` error for `tool`, with a specific installation hint
      for "cue" and "nickel" and a generic one naming the tool otherwise. */
  function ToolNotFoundError(tool: string): (e: ConflowError)
    ensures e.ToolNotFound? && e.tool == tool
    ensures tool == "cue" ==> e.suggestion == CueInstallHint
    ensures tool == "nickel" ==> e.suggestion == NickelInstallHint
    ensures tool != "cue" && tool != "nickel" ==>
      StartsWith(e.suggestion, "Install " + tool) && e.suggestion != CueInstallHint && e.suggestion != NickelInstallHint
  {
    var suggestion :=
      if tool == "cue" then CueInstallHint
      else if tool == "nickel" then NickelInstallHint
      else "Install " + tool + " and ensure it's in your PATH";
    if tool != "cue" && tool != "nickel" then
      assert suggestion[..|"Install " + tool|] == "Install " + tool;
      assert suggestion[|suggestion| - 4..] == "PATH";
      assert CueInstallHint[|CueInstallHint| - 4..] != "PATH";
      assert NickelInstallHint[|NickelInstallHint| - 4..] != "PATH";
      ToolNotFound(tool, suggestion)
    else
      ToolNotFound(tool, suggestion)
  }

  /** Hint for a CUE error output: the first of "undefined field",
      "conflicting values", "cannot use" that occurs decides it. */
  function ParseCueError(stderr: string): (help: Option<string>)
    ensures help.None? <==>
      !Contains(stderr, "undefined field") && !Contains(stderr, "conflicting values") && !Contains(stderr, "cannot use")
    ensures Contains(stderr, "undefined field") ==> help == Some(CueUndefinedFieldHelp)
    ensures !Contains(stderr, "undefined field") && Contains(stderr, "conflicting values") ==> help == Some(CueConflictHelp)
    ensures !Contains(stderr, "undefined field") && !Contains(stderr, "conflicting values") && Contains(stderr, "cannot use") ==>
      help == Some(CueTypeMismatchHelp)
  {
    if Contains(stderr, "undefined field") then Some(CueUndefinedFieldHelp)
    else if Contains(stderr, "conflicting values") then Some(CueConflictHelp)
    else if Contains(stderr, "cannot use") then Some(CueTypeMismatchHelp)
    else None
  }

  /** Hint for a Nickel error output: the first of "type error",
      "unbound identifier", "contract violation" that occurs decides it. */
  function ParseNickelError(stderr: string): (help: Option<string>)
    ensures help.None? <==>
      !Contains(stderr, "type error") && !Contains(stderr, "unbound identifier") && !Contains(stderr, "contract violation")
    ensures Contains(stderr, "type error") ==> help == Some(NickelTypeHelp)
    ensures !Contains(stderr, "type error") && Contains(stderr, "unbound identifier") ==> help == Some(NickelUnboundHelp)
    ensures !Contains(stderr, "type error") && !Contains(stderr, "unbound identifier") && Contains(stderr, "contract violation") ==>
      help == Some(NickelContractHelp)
  {
    if Contains(stderr, "type error") then Some(NickelTypeHelp)
    else if Contains(stderr, "unbound identifier") then Some(NickelUnboundHelp)
    else if Contains(stderr, "contract violation") then Some(NickelContractHelp)
    else None
  }

  /** Hint dispatch by tool name: CUE and Nickel outputs go to their own
      parsers, any other tool gets no hint. */
  function GenerateHelpForToolError(tool: string, stderr: string): (help: Option<string>)
    ensures tool == "cue" ==> help == ParseCueError(stderr)
    ensures tool == "nickel" ==> help == ParseNickelError(stderr)
    ensures tool != "cue" && tool != "nickel" ==> help.None?
  {
    if tool == "cue" then ParseCueError(stderr)
    else if tool == "nickel" then ParseNickelError(stderr)
    else None
  }

  /** A `StageFailed` error keeping the stage name and the error output
      verbatim, with the hint for the tool that produced it. */
  function StageFailedWithHelp(stage: string, stderr: string, tool: string): (e: ConflowError)
    ensures e.StageFailed? && e.failedStage == stage && e.stderr == stderr
    ensures e.failureHelp == GenerateHelpForToolError(tool, stderr)
    ensures tool != "cue" && tool != "nickel" ==> e.failureHelp.None?
  {
    StageFailed(stage, stderr, GenerateHelpForToolError(tool, stderr))
  }

  /** The CUE and Nickel hints never coincide, so a hint names its tool. */
  lemma HintsAreToolSpecific(stderr: string)
    ensures ParseCueError(stderr).Some? && ParseNickelError(stderr).Some? ==>
      ParseCueError(stderr) != ParseNickelError(stderr)
  {
  }

  /** An error output mentioning "undefined field" and "type error" gets a
      different hint from each tool. */
  lemma CueAndNickelDiffer()
    ensures GenerateHelpForToolError("cue", "undefined field; type error") == Some(CueUndefinedFieldHelp)
    ensures GenerateHelpForToolError("nickel", "undefined field; type error") == Some(NickelTypeHelp)
    ensures GenerateHelpForToolError("shell", "undefined field; type error") == None
  {
    ContainsAt("undefined field; type error", "undefined field", 0);
    ContainsAt("undefined field; type error", "type error", 17);
  }
}
