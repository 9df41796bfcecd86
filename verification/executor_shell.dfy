/** The shell executor (src/executors/shell.rs): a stage's command run as
    `<shell> -c <command>` in the working directory. */
module ShellExec {
  import opened Wrappers
  import opened Errors
  import opened Definition
  import opened Executors
  import Validation

  /** The invocation: the stage's shell with `-c` and the command. */
  function ShellCommand(shell: string, command: string, workingDir: string, env: map<string, string>): (cmd: Command)
    ensures cmd.program == shell && cmd.args == ["-c", command]
    ensures cmd.dir == workingDir && cmd.env == env
  {
    Command(shell, ["-c", command], workingDir, env)
  }

  /** The outputs a successful shell stage reports: its declared output
      path as written, not joined below the working directory. */
  function DeclaredOutputs(stage: Stage): (outputs: seq<string>)
    ensures stage.output.None? ==> outputs == []
    ensures stage.output.Some? ==> outputs == [stage.output.value.Path()]
  {
    if stage.output.Some? then [stage.output.value.Path()] else []
  }

  /** `execute`. Stages for other tools are rejected; a shell that cannot
      be started is a `ToolExecutionFailed` error for "shell"; otherwise
      both streams are kept, success exits 0 with the declared outputs,
      failure reports the exit code (or -1 after a signal) and no
      outputs. Nothing is written by this executor. */
  function Execute(stage: Stage, workingDir: string, env: map<string, string>, run: Runner): (r: Result<ExecutionResult, ConflowError>)
    ensures !stage.tool.Shell? ==> r == Err(InvalidStage(stage.name, "Expected Shell tool"))
    ensures stage.tool.Shell? ==>
      var out := run(ShellCommand(stage.tool.shell, stage.tool.shellCommand, workingDir, env));
      && (out.Err? <==> r.Err?)
      && (r.Err? ==> r.error.ToolExecutionFailed? && r.error.tool == "shell")
      && (r.Ok? ==> r.value.success == out.value.succeeded && !r.value.cacheHit
                    && r.value.stdout == out.value.stdout && r.value.stderr == out.value.stderr)
      && (r.Ok? && out.value.succeeded ==> r.value.exitCode == 0 && r.value.outputs == DeclaredOutputs(stage))
      && (r.Ok? && !out.value.succeeded ==> r.value.exitCode == out.value.code.UnwrapOr(-1) && r.value.outputs == [])
  {
    match stage.tool
    case Shell(command, shell) =>
      (match run(ShellCommand(shell, command, workingDir, env))
       case Err(e) => Err(ToolExecutionFailed("shell", e, Some("Shell '" + shell + "' may not be available")))
       case Ok(out) =>
         if out.succeeded then
           Ok(ExecutionResult(true, out.stdout, out.stderr, 0, DeclaredOutputs(stage), out.elapsed, false))
         else
           Ok(ExecutionResult(false, out.stdout, out.stderr, out.code.UnwrapOr(-1), [], out.elapsed, false)))
    case _ => Err(InvalidStage(stage.name, "Expected Shell tool"))
  }

  /** `check_available`: a shell is assumed to exist. */
  function CheckAvailable(): (r: Result<bool, ConflowError>)
    ensures r == Ok(true)
  {
    Ok(true)
  }

  /** `validate_stage`: accepts exactly the shell stages with a non-empty
      command. */
  function ValidateStage(stage: Stage): (r: Result<(), ConflowError>)
    ensures r.Ok? <==> stage.tool.Shell? && stage.tool.shellCommand != ""
    ensures !stage.tool.Shell? ==> r == Err(InvalidStage(stage.name, "Not a Shell stage"))
    ensures stage.tool.Shell? && stage.tool.shellCommand == "" ==>
      r == Err(InvalidStage(stage.name, "Shell command is empty"))
  {
    match stage.tool
    case Shell(command, _) =>
      if command == "" then Err(InvalidStage(stage.name, "Shell command is empty")) else Ok(())
    case _ => Err(InvalidStage(stage.name, "Not a Shell stage"))
  }

  /** On shell stages the executor's check and the pipeline validator
      agree: the executor accepts exactly the stages the validator raises
      no tool error for. */
  lemma ValidatorAgrees(stage: Stage)
    requires stage.tool.Shell?
    ensures ValidateStage(stage).Ok? <==> Validation.ToolErrors(stage) == []
  {
  }
}
