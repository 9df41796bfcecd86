/** The executor layer shared by the three tools (src/executors/mod.rs):
    the result record every run produces, path joining and glob
    resolution, the registry of built-in executors, and the command and
    process records the tool modules build and consume.

    A subprocess is an oracle `Runner` from the command to what the
    process reported; the glob library is a `Matcher` from a full
    pattern to its readable matches or a pattern error; the file
    operations are a `Writer`: creating a directory with its ancestors,
    and writing a file, each with an optional error message. */
module Executors {
  import opened Wrappers
  import opened Strings
  import opened Errors
  import opened Definition
  import Seqs

  /** `ExecutionResult`. `duration` is in nanoseconds. */
  datatype ExecutionResult = ExecutionResult(
    success: bool,
    stdout: string,
    stderr: string,
    exitCode: int,
    outputs: seq<string>,
    duration: nat,
    cacheHit: bool)

  /** `ExecutionResult::success`. */
  function Succeeded(stdout: string, duration: nat, outputs: seq<string>): (r: ExecutionResult)
    ensures r.success && r.exitCode == 0 && r.stderr == [] && !r.cacheHit
    ensures r.stdout == stdout && r.outputs == outputs && r.duration == duration
  {
    ExecutionResult(true, stdout, "", 0, outputs, duration, false)
  }

  /** `ExecutionResult::failure`. */
  function Failed(stderr: string, exitCode: int, duration: nat): (r: ExecutionResult)
    ensures !r.success && r.stdout == [] && r.outputs == [] && !r.cacheHit
    ensures r.stderr == stderr && r.exitCode == exitCode && r.duration == duration
  {
    ExecutionResult(false, "", stderr, exitCode, [], duration, false)
  }

  /** `ExecutionResult::with_cache_hit`: marks the result as served from
      the cache and changes nothing else. */
  function WithCacheHit(r: ExecutionResult): (h: ExecutionResult)
    ensures h.cacheHit
    ensures h.(cacheHit := r.cacheHit) == r
  {
    r.(cacheHit := true)
  }

  /** The two constructors never agree: one succeeds, the other fails,
      and marking a result as a cache hit does not change which. */
  lemma ConstructorsDisagree(out: string, err: string, code: int, d1: nat, d2: nat, outputs: seq<string>)
    ensures Succeeded(out, d1, outputs) != Failed(err, code, d2)
    ensures WithCacheHit(Succeeded(out, d1, outputs)).success
    ensures !WithCacheHit(Failed(err, code, d2)).success
    ensures WithCacheHit(WithCacheHit(Failed(err, code, d2))) == WithCacheHit(Failed(err, code, d2))
  {
  }

  // ---------------------------------------------------------------------
  // Paths

  /** A Unix path is absolute when it starts at the root. */
  predicate IsAbsolute(p: string) {
    |p| > 0 && p[0] == '/'
  }

  /** `Path::join`: an absolute `p` replaces `base`; otherwise `p` is
      appended after a separator, unless `base` is empty or already ends
      with one. */
  function JoinPath(base: string, p: string): (r: string)
    ensures IsAbsolute(p) ==> r == p
    ensures !IsAbsolute(p) ==> StartsWith(r, base) && |r| >= |base| + |p| && r[|r| - |p|..] == p
  {
    if IsAbsolute(p) then p
    else if base == [] || base[|base| - 1] == '/' then base + p
    else base + "/" + p
  }

  /** `q` lies strictly below the directory `x`. */
  predicate Under(q: string, x: string) {
    |x| < |q| && q[..|x|] == x && q[|x|] == '/'
  }

  /** The directories strictly above `p`: what `create_dir_all` creates
      besides `p` itself, and what it creates for the parent of a file at
      `p`. */
  function Ancestors(p: string): (a: set<string>)
    ensures forall d :: d in a ==> Under(p, d)
  {
    set i | 0 < i < |p| && p[i] == '/' :: p[..i]
  }

  /** The directories above a directory above `p` are above `p` too. */
  lemma AncestorsClosed(p: string, q: string)
    requires q in Ancestors(p)
    ensures Ancestors(q) <= Ancestors(p)
  {
    var i :| 0 < i < |p| && p[i] == '/' && q == p[..i];
    forall d | d in Ancestors(q) ensures d in Ancestors(p) {
      var k :| 0 < k < |q| && q[k] == '/' && d == q[..k];
      assert p[k] == '/' && d == p[..k];
    }
  }

  /** Joining a relative path below an absolute directory stays absolute,
      so joining it again below any directory changes nothing. */
  lemma JoinAbsoluteBase(base: string, p: string, other: string)
    requires IsAbsolute(base)
    ensures IsAbsolute(JoinPath(base, p))
    ensures JoinPath(other, JoinPath(base, p)) == JoinPath(base, p)
  {
  }

  // ---------------------------------------------------------------------
  // Glob resolution

  /** The glob library: the readable matches of a full pattern, or the
      message of a pattern error. */
  type Matcher = string -> Result<seq<string>, string>

  /** The pattern handed to the glob library: kept when absolute,
      otherwise joined below `base`. */
  function FullPattern(pattern: string, base: string): (full: string)
    ensures IsAbsolute(pattern) ==> full == pattern
    ensures !IsAbsolute(pattern) ==> full == JoinPath(base, pattern)
  {
    if IsAbsolute(pattern) then pattern else JoinPath(base, pattern)
  }

  /** What one pattern contributes to `resolve_globs`: its matches, a
      `GlobPattern` error, or `NoInputFiles` naming the pattern as written
      when nothing matches. */
  function PatternMatches(pattern: string, base: string, glob: Matcher): (r: Result<seq<string>, ConflowError>)
    ensures r.Ok? ==> r.value != [] && glob(FullPattern(pattern, base)) == Ok(r.value)
    ensures r.Err? ==> r.error == (if glob(FullPattern(pattern, base)).Err?
                                   then GlobPattern(glob(FullPattern(pattern, base)).error)
                                   else NoInputFiles(pattern))
  {
    match glob(FullPattern(pattern, base))
    case Err(m) => Err(GlobPattern(m))
    case Ok(ms) => if ms == [] then Err(NoInputFiles(pattern)) else Ok(ms)
  }

  /** `resolve_globs` over the first `n` patterns: the first failure, or
      the matches of every pattern concatenated in pattern order. */
  function GlobPrefix(patterns: seq<string>, n: nat, base: string, glob: Matcher): (r: Result<seq<string>, ConflowError>)
    requires n <= |patterns|
  {
    if n == 0 then Ok([])
    else
      match GlobPrefix(patterns, n - 1, base, glob)
      case Err(e) => Err(e)
      case Ok(files) =>
        match PatternMatches(patterns[n - 1], base, glob)
        case Err(e) => Err(e)
        case Ok(ms) => Ok(files + ms)
  }

  function ResolvedGlobs(patterns: seq<string>, base: string, glob: Matcher): (r: Result<seq<string>, ConflowError>)
  {
    GlobPrefix(patterns, |patterns|, base, glob)
  }

  /** `resolve_globs`: resolves the patterns one after the other and stops
      at the first that fails or matches nothing. */
  method ResolveGlobs(patterns: seq<string>, base: string, glob: Matcher) returns (r: Result<seq<string>, ConflowError>)
    ensures r == ResolvedGlobs(patterns, base, glob)
  {
    var files: seq<string> := [];
    var i := 0;
    while i < |patterns|
      invariant 0 <= i <= |patterns|
      invariant GlobPrefix(patterns, i, base, glob) == Ok(files)
    {
      var full := if IsAbsolute(patterns[i]) then patterns[i] else JoinPath(base, patterns[i]);
      var matched := glob(full);
      if matched.Err? {
        r := Err(GlobPattern(matched.error));
        GlobPrefixErrStays(patterns, i + 1, |patterns|, base, glob);
        return;
      }
      if matched.value == [] {
        r := Err(NoInputFiles(patterns[i]));
        GlobPrefixErrStays(patterns, i + 1, |patterns|, base, glob);
        return;
      }
      files := files + matched.value;
      i := i + 1;
    }
    return Ok(files);
  }

  /** Once a pattern fails, resolution fails with that error whatever the
      later patterns are. */
  lemma {:induction false} GlobPrefixErrStays(patterns: seq<string>, k: nat, n: nat, base: string, glob: Matcher)
    requires k <= n <= |patterns| && GlobPrefix(patterns, k, base, glob).Err?
    ensures GlobPrefix(patterns, n, base, glob) == GlobPrefix(patterns, k, base, glob)
    decreases n
  {
    if k < n {
      GlobPrefixErrStays(patterns, k, n - 1, base, glob);
    }
  }

  /** The matches a successful pattern contributes. */
  function MatchesOf(base: string, glob: Matcher): string -> seq<string>
  {
    p => if glob(FullPattern(p, base)).Ok? then glob(FullPattern(p, base)).value else []
  }

  /** Resolution succeeds exactly when every pattern is valid and matches
      something, and then yields all the matches in pattern order. */
  lemma {:induction false} GlobPrefixOk(patterns: seq<string>, n: nat, base: string, glob: Matcher)
    requires n <= |patterns|
    ensures GlobPrefix(patterns, n, base, glob).Ok? <==>
      forall k :: 0 <= k < n ==> PatternMatches(patterns[k], base, glob).Ok?
    ensures GlobPrefix(patterns, n, base, glob).Ok? ==>
      GlobPrefix(patterns, n, base, glob).value == Seqs.Gather(patterns, n, MatchesOf(base, glob))
  {
    if GlobPrefix(patterns, n, base, glob).Ok? {
      GlobPrefixAllMatched(patterns, n, base, glob);
      GlobPrefixValue(patterns, n, base, glob);
    } else {
      GlobPrefixFirstFailure(patterns, n, base, glob);
      var k :| 0 <= k < n && FailsFirstAt(patterns, k, base, glob, GlobPrefix(patterns, n, base, glob));
      assert !PatternMatches(patterns[k], base, glob).Ok?;
    }
  }

  /** A successful resolution yields the matches in pattern order. */
  lemma {:induction false} GlobPrefixValue(patterns: seq<string>, n: nat, base: string, glob: Matcher)
    requires n <= |patterns| && GlobPrefix(patterns, n, base, glob).Ok?
    ensures GlobPrefix(patterns, n, base, glob).value == Seqs.Gather(patterns, n, MatchesOf(base, glob))
  {
    if n > 0 {
      GlobPrefixValue(patterns, n - 1, base, glob);
      var here := PatternMatches(patterns[n - 1], base, glob);
      assert MatchesOf(base, glob)(patterns[n - 1]) == here.value;
    }
  }

  /** A successful resolution had every pattern match. */
  lemma {:induction false} GlobPrefixAllMatched(patterns: seq<string>, n: nat, base: string, glob: Matcher)
    requires n <= |patterns| && GlobPrefix(patterns, n, base, glob).Ok?
    ensures forall k :: 0 <= k < n ==> PatternMatches(patterns[k], base, glob).Ok?
  {
    if n > 0 {
      GlobPrefixAllMatched(patterns, n - 1, base, glob);
    }
  }

  /** The pattern at `k` is the first that fails, and fails with `e`. */
  ghost predicate FailsFirstAt(patterns: seq<string>, k: nat, base: string, glob: Matcher, e: Result<seq<string>, ConflowError>)
    requires k < |patterns|
  {
    && (forall j :: 0 <= j < k ==> PatternMatches(patterns[j], base, glob).Ok?)
    && PatternMatches(patterns[k], base, glob) == e
  }

  /** A failed resolution reports the first pattern that fails: every
      earlier pattern matched, and the error is that pattern's own. */
  lemma {:induction false} GlobPrefixFirstFailure(patterns: seq<string>, n: nat, base: string, glob: Matcher)
    requires n <= |patterns| && GlobPrefix(patterns, n, base, glob).Err?
    ensures exists k :: 0 <= k < n && FailsFirstAt(patterns, k, base, glob, GlobPrefix(patterns, n, base, glob))
  {
    var prev := GlobPrefix(patterns, n - 1, base, glob);
    if prev.Err? {
      GlobPrefixFirstFailure(patterns, n - 1, base, glob);
      var k :| 0 <= k < n - 1 && FailsFirstAt(patterns, k, base, glob, prev);
      assert GlobPrefix(patterns, n, base, glob) == prev;
      assert FailsFirstAt(patterns, k, base, glob, GlobPrefix(patterns, n, base, glob));
    } else {
      GlobPrefixAllMatched(patterns, n - 1, base, glob);
      assert PatternMatches(patterns[n - 1], base, glob) == GlobPrefix(patterns, n, base, glob);
      assert FailsFirstAt(patterns, n - 1, base, glob, GlobPrefix(patterns, n, base, glob));
    }
  }

  // ---------------------------------------------------------------------
  // Executor registry

  /** The built-in executors; a CUE or Nickel executor remembers the
      binary `which` found for it. */
  datatype ExecutorKind =
    | CueExecutor(cueBin: string)
    | NickelExecutor(nickelBin: string)
    | ShellExecutor

  /** `create_default_executors`: CUE and Nickel when `which` finds their
      binaries, and the shell executor always. */
  method CreateDefaultExecutors(which: string -> Option<string>) returns (executors: map<string, ExecutorKind>)
    ensures "shell" in executors && executors["shell"] == ShellExecutor
    ensures executors.Keys <= {"cue", "nickel", "shell"}
    ensures "cue" in executors <==> which("cue").Some?
    ensures "cue" in executors ==> executors["cue"] == CueExecutor(which("cue").value)
    ensures "nickel" in executors <==> which("nickel").Some?
    ensures "nickel" in executors ==> executors["nickel"] == NickelExecutor(which("nickel").value)
  {
    executors := map[];
    var cue := which("cue");
    if cue.Some? {
      executors := executors["cue" := CueExecutor(cue.value)];
    }
    var nickel := which("nickel");
    if nickel.Some? {
      executors := executors["nickel" := NickelExecutor(nickel.value)];
    }
    executors := executors["shell" := ShellExecutor];
  }

  // ---------------------------------------------------------------------
  // Processes

  /** A command as the tool modules build it: program, arguments in
      order, working directory and the variables added to the inherited
      environment. */
  datatype Command = Command(program: string, args: seq<string>, dir: string, env: map<string, string>)

  /** What a finished process reported: whether its status was success,
      and its exit code, `None` when it was
      ended by a signal. */
  datatype ProcessOutput = ProcessOutput(succeeded: bool, code: Option<int>, stdout: string, stderr: string, elapsed: nat)

  /** A subprocess: what running the command reported, or the message of
      a spawn failure. */
  type Runner = Command -> Result<ProcessOutput, string>

  /** The file operations: `create_dir_all` of a directory and `write`
      of a file, each `None` on success or the error message. */
  datatype Writer = Writer(createDirAll: string -> Option<string>, writeFile: (string, string) -> Option<string>)

  /** `Path::parent` of a path with a file name: what precedes its last
      separator (the root when that separator is the first character), or
      the empty path when it has none. */
  function Parent(p: string): (d: string)
    ensures |d| <= |p| && (d == [] || d == "/" || d == p[..|d|])
    decreases |p|
  {
    if p == [] then []
    else if p[|p| - 1] == '/' then (if |p| == 1 then "/" else p[..|p| - 1])
    else Parent(p[..|p| - 1])
  }

  /** `write_output` of the CUE and Nickel executors: nothing without a
      declared output; otherwise the output path is joined below the
      working directory, its parent directory is created unless it is
      empty, and stdout is written to it, which becomes the one output.
      A failure names the parent for the directory and the output path
      for the write. */
  function WriteOutput(stage: Stage, stdout: string, workingDir: string, write: Writer): (r: Result<seq<string>, ConflowError>)
    ensures stage.output.None? ==> r == Ok([])
    ensures stage.output.Some? ==>
      var path := JoinPath(workingDir, stage.output.value.Path());
      var parent := Parent(path);
      var dirError := if parent == [] then None else write.createDirAll(parent);
      && (dirError.Some? ==> r == Err(FileWriteError(parent, dirError.value)))
      && (dirError.None? && write.writeFile(path, stdout).Some? ==> r == Err(FileWriteError(path, write.writeFile(path, stdout).value)))
      && (dirError.None? && write.writeFile(path, stdout).None? ==> r == Ok([path]))
  {
    match stage.output
    case None => Ok([])
    case Some(out) =>
      var path := JoinPath(workingDir, out.Path());
      var parent := Parent(path);
      var dirError := if parent == [] then None else write.createDirAll(parent);
      if dirError.Some? then Err(FileWriteError(parent, dirError.value))
      else
        match write.writeFile(path, stdout)
        case Some(e) => Err(FileWriteError(path, e))
        case None => Ok([path])
  }

  /** How the CUE and Nickel executors turn a finished process into a
      result: success keeps both streams, exits 0 and reports the written
      output; failure keeps both streams, reports the exit code (or -1
      after a signal) and no outputs. */
  function ToolRunResult(stage: Stage, out: ProcessOutput, workingDir: string, write: Writer): (r: Result<ExecutionResult, ConflowError>)
    ensures out.succeeded ==> (r.Ok? <==> WriteOutput(stage, out.stdout, workingDir, write).Ok?)
    ensures r.Ok? ==> r.value.success == out.succeeded && !r.value.cacheHit
    ensures r.Ok? ==> r.value.stdout == out.stdout && r.value.stderr == out.stderr
    ensures r.Ok? && out.succeeded ==>
      (r.value.exitCode == 0 && r.value.outputs == WriteOutput(stage, out.stdout, workingDir, write).value)
    ensures !out.succeeded ==>
      (r.Ok? && r.value.outputs == [] && r.value.exitCode == out.code.UnwrapOr(-1))
  {
    if out.succeeded then
      var outputs :- WriteOutput(stage, out.stdout, workingDir, write);
      Ok(ExecutionResult(true, out.stdout, out.stderr, 0, outputs, out.elapsed, false))
    else
      Ok(ExecutionResult(false, out.stdout, out.stderr, out.code.UnwrapOr(-1), [], out.elapsed, false))
  }
}
