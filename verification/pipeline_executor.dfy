/** The pipeline executor (src/pipeline/executor.rs): it orders the stages
    by their dependencies, keeps the ones asked for, and runs them one by
    one, serving a stage from the cache when it can, storing what
    succeeded, and stopping at the first failure a stage does not allow.

    The run loop is a method on the executor object; what it computes is
    the ghost function `RunFrom`, one `StepOf` per stage, and the
    properties of a run are lemmas about that function. */
module PipelineExec {
  import opened Wrappers
  import opened Errors
  import opened Definition
  import opened Executors
  import opened CacheTypes
  import opened CacheHash
  import opened CacheStore
  import Dag
  import CueExec
  import NickelExec
  import ShellExec

  /** `ExecutionOptions`. */
  datatype ExecutionOptions = ExecutionOptions(noCache: bool, dryRun: bool, stages: seq<string>, verbose: bool)

  /** `PipelineResult`, without the wall-clock duration. */
  datatype PipelineResult = PipelineResult(results: map<string, ExecutionResult>, success: bool)

  /** What the built-in executors reach outside the model: file matching,
      starting processes, writing files, and the files that exist (for
      `check_available`). */
  datatype SystemIo = SystemIo(glob: Matcher, run: Runner, write: Writer, existing: set<string>)

  /** `Executor::execute`, dispatched on the registered executor. */
  function RunExecutor(kind: ExecutorKind, stage: Stage, workingDir: string, env: map<string, string>,
                       resolved: Option<seq<string>>, io: SystemIo): Result<ExecutionResult, ConflowError>
  {
    match kind
    case CueExecutor(bin) => CueExec.Execute(bin, stage, workingDir, env, resolved, io.glob, io.run, io.write)
    case NickelExecutor(bin) => NickelExec.Execute(bin, stage, workingDir, env, resolved, io.glob, io.run, io.write)
    case ShellExecutor => ShellExec.Execute(stage, workingDir, env, io.run)
  }

  /** `Executor::check_available`, dispatched on the registered executor. */
  function Availability(kind: ExecutorKind, io: SystemIo): Result<bool, ConflowError>
  {
    match kind
    case CueExecutor(bin) => CueExec.CheckAvailable(bin, io.existing)
    case NickelExecutor(bin) => NickelExec.CheckAvailable(bin, io.existing)
    case ShellExecutor => ShellExec.CheckAvailable()
  }

  // ---------------------------------------------------------------------
  // One stage

  /** The environment a stage runs with: the pipeline's variables, with
      the stage's own taking precedence on a shared name. */
  function MergeEnv(global: map<string, string>, local: map<string, string>): (env: map<string, string>)
    ensures env.Keys == global.Keys + local.Keys
    ensures forall k :: k in local ==> env[k] == local[k]
    ensures forall k :: k in global && k !in local ==> env[k] == global[k]
  {
    global + local
  }

  function NotExecutedMessage(stage: Stage, producer: string): string {
    "Stage '" + stage.name + "' depends on '" + producer + "' which hasn't been executed"
  }

  /** `resolve_stage_input`: a stage reading another stage's output gets
      that stage's recorded outputs, and fails when there is no record;
      any other stage resolves to nothing. */
  function ResolveStageInput(stage: Stage, previous: map<string, ExecutionResult>): (r: Result<Option<seq<string>>, ConflowError>)
    ensures r.Ok? && r.value.Some? <==> stage.input.FromStage? && stage.input.fromStage in previous
    ensures r.Ok? && r.value.Some? ==> r.value.value == previous[stage.input.fromStage].outputs
    ensures r.Err? <==> stage.input.FromStage? && stage.input.fromStage !in previous
    ensures r.Err? ==> r.error == ExecutionFailed(NotExecutedMessage(stage, stage.input.fromStage), None)
  {
    match stage.input.ReferencesStage()
    case None => Ok(None)
    case Some(producer) =>
      if producer in previous then Ok(Some(previous[producer].outputs))
      else Err(ExecutionFailed(NotExecutedMessage(stage, producer), None))
  }

  /** Once the producer's result is recorded, a stage reading its output
      resolves to exactly the producer's outputs, whatever else was
      recorded before. */
  lemma ResolveAfterProducer(stage: Stage, previous: map<string, ExecutionResult>, result: ExecutionResult)
    requires stage.input.FromStage?
    ensures ResolveStageInput(stage, previous[stage.input.fromStage := result]) == Ok(Some(result.outputs))
  {
  }

  /** `execute_stage`: the executor registered for the stage's tool, else
      `ExecutorNotFound`; then the input resolution; then the executor. */
  function ExecuteStage(executors: map<string, ExecutorKind>, stage: Stage, workingDir: string,
                        env: map<string, string>, previous: map<string, ExecutionResult>, io: SystemIo)
    : (r: Result<ExecutionResult, ConflowError>)
    ensures ToolName(stage.tool) !in executors ==> r == Err(ExecutorNotFound(ToolName(stage.tool)))
    ensures ToolName(stage.tool) in executors && ResolveStageInput(stage, previous).Err? ==>
      r == ResolveStageInput(stage, previous).PropagateFailure()
    ensures ToolName(stage.tool) in executors && ResolveStageInput(stage, previous).Ok? ==>
      r == RunExecutor(executors[ToolName(stage.tool)], stage, workingDir, env, ResolveStageInput(stage, previous).value, io)
  {
    var tool := ToolName(stage.tool);
    if tool !in executors then Err(ExecutorNotFound(tool))
    else
      var resolved :- ResolveStageInput(stage, previous);
      RunExecutor(executors[tool], stage, workingDir, env, resolved, io)
  }

  // ---------------------------------------------------------------------
  // Which stages run

  predicate Indices(todo: seq<nat>, n: nat) {
    forall k :: 0 <= k < |todo| ==> todo[k] < n
  }

  /** The entries of `order` whose stage is named in `names`, in order. */
  function Selected(order: seq<nat>, stages: seq<Stage>, names: seq<string>): (r: seq<nat>)
    requires Indices(order, |stages|)
    ensures Indices(r, |stages|)
    ensures forall x :: x in r <==> x in order && stages[x].name in names
    ensures |r| <= |order|
  {
    if order == [] then []
    else
      var last := order[|order| - 1];
      var rest := Selected(order[..|order| - 1], stages, names);
      assert forall x :: x in order <==> x in order[..|order| - 1] || x == last;
      if stages[last].name in names then rest + [last] else rest
  }

  /** Stages kept by the filter come in the order the whole run would
      have taken them. */
  lemma {:induction false} SelectedKeepsOrder(order: seq<nat>, stages: seq<Stage>, names: seq<string>, i: nat, j: nat)
    returns (a: nat, b: nat)
    requires Indices(order, |stages|)
    requires i < j < |order|
    requires stages[order[i]].name in names && stages[order[j]].name in names
    ensures a < b < |Selected(order, stages, names)|
    ensures Selected(order, stages, names)[a] == order[i] && Selected(order, stages, names)[b] == order[j]
    decreases |order|
  {
    var prefix := order[..|order| - 1];
    var last := order[|order| - 1];
    var rest := Selected(prefix, stages, names);
    var r := Selected(order, stages, names);
    assert r == if stages[last].name in names then rest + [last] else rest;
    if j == |order| - 1 {
      assert order[i] == prefix[i];
      assert order[i] in rest;
      a :| 0 <= a < |rest| && rest[a] == order[i];
      b := |rest|;
    } else {
      assert order[i] == prefix[i] && order[j] == prefix[j];
      a, b := SelectedKeepsOrder(prefix, stages, names, i, j);
      assert r[a] == rest[a] && r[b] == rest[b];
    }
  }

  /** The stages to run: all of the order without a filter, otherwise the
      ones the filter names. */
  function StagesToRun(order: seq<nat>, stages: seq<Stage>, filter: seq<string>): (r: seq<nat>)
    requires Indices(order, |stages|)
    ensures Indices(r, |stages|)
    ensures filter == [] ==> r == order
    ensures filter != [] ==> forall x :: x in r <==> x in order && stages[x].name in filter
  {
    if filter == [] then order else Selected(order, stages, filter)
  }

  /** `DagBuilder::build`, `topological_order`, and the filter. */
  function PlanOf(p: Pipeline, filter: seq<string>): (r: Result<seq<nat>, ConflowError>)
    ensures r.Ok? ==> Indices(r.value, |p.stages|)
  {
    match Dag.BuildSpec(p.stages)
    case Err(e) => Err(e)
    case Ok(dag) =>
      match Dag.TopologicalOrder(dag)
      case Err(e) => Err(e)
      case Ok(order) => Ok(StagesToRun(order, p.stages, filter))
  }

  /** Builds the graph, orders it and applies the filter. */
  method Plan(p: Pipeline, filter: seq<string>) returns (r: Result<seq<nat>, ConflowError>)
    ensures r == PlanOf(p, filter)
  {
    var dag := Dag.Build(p);
    if dag.Err? {
      return Err(dag.error);
    }
    // `build` has already rejected cycles, so the ordering succeeds.
    var order := Dag.TopologicalOrder(dag.value);
    assert order.Ok?;
    return Ok(StagesToRun(order.value, p.stages, filter));
  }

  // ---------------------------------------------------------------------
  // The run, as a function of its inputs

  /** Running a stage given the results recorded so far. */
  type StageAttempt = (Stage, map<string, ExecutionResult>) -> Result<ExecutionResult, ConflowError>

  /** The cache key of a stage. */
  type StageKeyer = Stage -> Result<string, ConflowError>

  /** What the model holds fixed for a whole run: the pipeline's stages,
      how a stage is run, how its cache key is found, whether the cache is
      consulted, the cache directory, one view of the files, and the time
      stamped on stored entries. The source reads the disk again at each
      stage's turn, so there a stage's key, input glob and output check see
      what earlier stages wrote; here they see the files as they were when
      the run began. */
  datatype RunContext = RunContext(
    stages: seq<Stage>,
    attempt: StageAttempt,
    key: StageKeyer,
    caching: bool,
    cacheDir: string,
    fs: Files,
    now: int)

  /** What a run has so far: the recorded results, whether every stage
      that had to succeed did, and the cache's entries. */
  datatype RunState = RunState(results: map<string, ExecutionResult>, success: bool, entries: map<string, CachedEntry>)

  /** The outcome of one stage: go on, end the run, or abort it with an
      error (keeping the cache entries as they were then). */
  datatype StepOutcome =
    | Continue(next: RunState)
    | Stop(last: RunState)
    | Abort(error: ConflowError, entries: map<string, CachedEntry>)
  {
    /** The cache entries the step leaves. */
    function Entries(): map<string, CachedEntry> {
      match this
      case Continue(next) => next.entries
      case Stop(last) => last.entries
      case Abort(_, entries) => entries
    }
  }

  lemma ItemsRemove(env: map<string, string>, k: string)
    requires k in env
    ensures multiset(env.Items) == multiset{(k, env[k])} + multiset((env - {k}).Items)
  {
    var rest := env - {k};
    var x := (k, env[k]);
    forall y | y in env.Items ensures y in rest.Items + {x} {
      if y.0 != k {
        assert y.0 in rest && rest[y.0] == y.1;
      }
    }
    forall y | y in rest.Items ensures y in env.Items {
      assert y.0 in env && env[y.0] == y.1;
    }
    assert x in env.Items;
    assert env.Items == rest.Items + {x};
    assert x !in rest.Items;
  }

  /** Some enumeration of a map's entries. */
  ghost function Enumerate(env: map<string, string>): (pairs: seq<(string, string)>)
    ensures IsEnumeration(pairs, env)
    decreases |env|
  {
    if env == map[] then []
    else
      var k :| k in env;
      ItemsRemove(env, k);
      [(k, env[k])] + Enumerate(env - {k})
  }

  /** `execute_stage` with the registry, the working directory and the
      stage's merged environment. */
  function AttemptWith(executors: map<string, ExecutorKind>, workingDir: string, globalEnv: map<string, string>,
                       io: SystemIo): StageAttempt
  {
    (stage: Stage, results: map<string, ExecutionResult>) =>
      ExecuteStage(executors, stage, workingDir, MergeEnv(globalEnv, stage.env), results, io)
  }

  /** The cache key of a stage below `baseDir`; it does not depend on how
      the stage's environment is enumerated (`StageKeyOrderFree`). */
  ghost function KeyWith(baseDir: string, keys: KeyContext): StageKeyer {
    (stage: Stage) => CanonicalKey(stage, baseDir, keys)
  }

  /** The key of a stage with its environment taken in some fixed order. */
  ghost function CanonicalKey(stage: Stage, baseDir: string, keys: KeyContext): Result<string, ConflowError> {
    KeyOf(stage, baseDir, Enumerate(stage.env), keys)
  }

  /** `key` gives every stage the key the cache below `baseDir` computes
      for it. */
  ghost predicate KeysFit(key: StageKeyer, baseDir: string, keys: KeyContext) {
    forall stage: Stage {:trigger CanonicalKey(stage, baseDir, keys)} :: key(stage) == CanonicalKey(stage, baseDir, keys)
  }

  lemma KeyWithFits(baseDir: string, keys: KeyContext)
    ensures KeysFit(KeyWith(baseDir, keys), baseDir, keys)
  {
  }

  /** The cache lookup: the cached result, if any, and the entries after
      `get`; a key that cannot be computed counts as a miss. */
  ghost function Lookup(rc: RunContext, stage: Stage, entries: map<string, CachedEntry>)
    : (Option<ExecutionResult>, map<string, CachedEntry>)
  {
    var key := rc.key(stage);
    if !rc.caching || key.Err? then (None, entries)
    else
      var path := CachePath(rc.cacheDir, key.value);
      (Found(entries, path, rc.fs), AfterGet(entries, path, rc.fs))
  }

  /** The entries after a finished stage: a successful result is stored
      under its key when the cache is consulted; a failure, or a key that
      cannot be computed, leaves them alone. */
  ghost function Stored(rc: RunContext, stage: Stage, result: ExecutionResult, entries: map<string, CachedEntry>)
    : map<string, CachedEntry>
  {
    var key := rc.key(stage);
    if rc.caching && result.success && key.Ok? then
      entries[CachePath(rc.cacheDir, key.value) := NewEntry(stage, key.value, result, rc.now)]
    else entries
  }

  /** What the loop does with the outcome of running a stage the cache
      did not serve: an error aborts the run; a result is recorded, a
      success is stored, and a failure the stage does not allow ends the
      run with the success flag cleared. */
  ghost function AfterAttempt(rc: RunContext, stage: Stage, st: RunState, entries: map<string, CachedEntry>,
                              attempt: Result<ExecutionResult, ConflowError>): StepOutcome
  {
    match attempt
    case Err(e) => Abort(e, entries)
    case Ok(result) =>
      var next := st.(results := st.results[stage.name := result], entries := Stored(rc, stage, result, entries));
      if !result.success && !stage.allowFailure then Stop(next.(success := false))
      else Continue(next)
  }

  /** One iteration of the run loop for the stage at `idx`. */
  ghost function StepOf(rc: RunContext, idx: nat, st: RunState): StepOutcome
    requires idx < |rc.stages|
  {
    var stage := rc.stages[idx];
    var (hit, entries) := Lookup(rc, stage, st.entries);
    if hit.Some? then Continue(st.(results := st.results[stage.name := hit.value], entries := entries))
    else AfterAttempt(rc, stage, st, entries, rc.attempt(stage, st.results))
  }

  /** The run over the stages `todo`: the final state, and the error that
      aborted it, if one did. */
  ghost function RunFrom(rc: RunContext, todo: seq<nat>, st: RunState): (RunState, Option<ConflowError>)
    requires Indices(todo, |rc.stages|)
    decreases |todo|
  {
    if todo == [] then (st, None)
    else
      match StepOf(rc, todo[0], st)
      case Continue(next) => RunFrom(rc, todo[1..], next)
      case Stop(last) => (last, None)
      case Abort(e, entries) => (st.(entries := entries), Some(e))
  }

  /** What `execute` returns, and the cache entries it leaves: the
      planning error; for a dry run no results, success, and the cache
      untouched; otherwise the run's error, or its results and success
      flag. */
  ghost function ExecuteOutcome(rc: RunContext, plan: Result<seq<nat>, ConflowError>, dryRun: bool,
                                entries: map<string, CachedEntry>)
    : (Result<PipelineResult, ConflowError>, map<string, CachedEntry>)
    requires plan.Ok? ==> Indices(plan.value, |rc.stages|)
  {
    match plan
    case Err(e) => (Err(e), entries)
    case Ok(todo) =>
      if dryRun then (Ok(PipelineResult(map[], true)), entries)
      else
        var run := RunFrom(rc, todo, RunState(map[], true, entries));
        match run.1
        case Some(e) => (Err(e), run.0.entries)
        case None => (Ok(PipelineResult(run.0.results, run.0.success)), run.0.entries)
  }

  // ---------------------------------------------------------------------
  // Properties of one step

  /** Every entry the cache holds after some steps that was not there before holds a
      successful result. */
  ghost predicate NewEntriesSucceeded(before: map<string, CachedEntry>, after: map<string, CachedEntry>) {
    forall p :: p in after ==> (p in before && after[p] == before[p]) || after[p].result.success
  }

  /** The lookup only ever drops entries, and without the cache it does
      nothing. */
  lemma LookupShrinks(rc: RunContext, stage: Stage, entries: map<string, CachedEntry>)
    ensures NewEntriesSucceeded(entries, Lookup(rc, stage, entries).1)
    ensures !rc.caching ==> Lookup(rc, stage, entries) == (None, entries)
  {
  }

  /** What follows an attempt: the stage's result is recorded, only a
      success reaches the cache, and only a failure the stage does not
      allow ends the run. */
  lemma AfterAttemptShape(rc: RunContext, stage: Stage, st: RunState, entries: map<string, CachedEntry>,
                          attempt: Result<ExecutionResult, ConflowError>)
    ensures var o := AfterAttempt(rc, stage, st, entries, attempt);
      && (o.Abort? <==> attempt.Err?)
      && (o.Continue? ==> o.next.results.Keys == st.results.Keys + {stage.name} && o.next.success == st.success)
      && (o.Stop? ==> attempt.Ok? && !attempt.value.success && !stage.allowFailure && !o.last.success)
      && (o.Stop? ==> o.last.results.Keys == st.results.Keys + {stage.name} && o.last.results[stage.name] == attempt.value)
      && NewEntriesSucceeded(entries, o.Entries())
      && (!rc.caching ==> o.Entries() == entries)
  {
  }

  /** A step records the stage's result and keeps the success flag, or
      records its failure and ends the run with the flag cleared. */
  lemma StepShape(rc: RunContext, idx: nat, st: RunState)
    requires idx < |rc.stages|
    ensures var name := rc.stages[idx].name; var o := StepOf(rc, idx, st);
      && (o.Continue? ==> o.next.results.Keys == st.results.Keys + {name} && o.next.success == st.success)
      && (o.Stop? ==> o.last.results.Keys == st.results.Keys + {name} && !o.last.success)
      && (o.Stop? ==> !rc.stages[idx].allowFailure && !o.last.results[name].success)
  {
    var stage := rc.stages[idx];
    var (hit, entries) := Lookup(rc, stage, st.entries);
    if hit.None? {
      AfterAttemptShape(rc, stage, st, entries, rc.attempt(stage, st.results));
    }
  }

  /** A cache hit records the cached result and runs nothing: the step
      is the same however stages would be run. */
  lemma HitSkipsExecution(rc: RunContext, idx: nat, st: RunState, other: StageAttempt)
    requires idx < |rc.stages|
    requires Lookup(rc, rc.stages[idx], st.entries).0.Some?
    ensures StepOf(rc, idx, st) == StepOf(rc.(attempt := other), idx, st)
    ensures StepOf(rc, idx, st).Continue?
    ensures var hit := Lookup(rc, rc.stages[idx], st.entries).0.value;
      StepOf(rc, idx, st).next.results == st.results[rc.stages[idx].name := hit] && hit.cacheHit
  {
  }

  /** A stage whose key cannot be computed runs as if the cache were not
      there: the failed read is a miss and the failed store is ignored. */
  lemma KeyErrorIsMiss(rc: RunContext, idx: nat, st: RunState)
    requires idx < |rc.stages|
    requires rc.key(rc.stages[idx]).Err?
    ensures StepOf(rc, idx, st) == StepOf(rc.(caching := false), idx, st)
  {
  }

  /** Without the cache, a step leaves the entries alone. */
  lemma NoCacheNoEntries(rc: RunContext, idx: nat, st: RunState)
    requires idx < |rc.stages| && !rc.caching
    ensures StepOf(rc, idx, st).Entries() == st.entries
  {
    var stage := rc.stages[idx];
    LookupShrinks(rc, stage, st.entries);
    AfterAttemptShape(rc, stage, st, st.entries, rc.attempt(stage, st.results));
  }

  /** A stage with no registered executor that the cache cannot serve
      aborts the run with `ExecutorNotFound`. */
  lemma MissingExecutorAborts(rc: RunContext, idx: nat, st: RunState, executors: map<string, ExecutorKind>,
                               workingDir: string, globalEnv: map<string, string>, io: SystemIo)
    requires idx < |rc.stages|
    requires rc.attempt == AttemptWith(executors, workingDir, globalEnv, io)
    requires Lookup(rc, rc.stages[idx], st.entries).0.None?
    requires ToolName(rc.stages[idx].tool) !in executors
    ensures StepOf(rc, idx, st) == Abort(ExecutorNotFound(ToolName(rc.stages[idx].tool)), Lookup(rc, rc.stages[idx], st.entries).1)
  {
  }

  /** A failure the stage allows is recorded and the run goes on with its
      success flag unchanged; a failure it does not allow is recorded,
      clears the flag and ends the run. */
  lemma FailureHandling(rc: RunContext, idx: nat, st: RunState)
    requires idx < |rc.stages|
    requires Lookup(rc, rc.stages[idx], st.entries).0.None?
    requires rc.attempt(rc.stages[idx], st.results).Ok? && !rc.attempt(rc.stages[idx], st.results).value.success
    ensures var stage := rc.stages[idx];
      var r := rc.attempt(stage, st.results);
      var entries := Lookup(rc, stage, st.entries).1;
      var recorded := st.(results := st.results[stage.name := r.value], entries := entries);
      && (stage.allowFailure ==> StepOf(rc, idx, st) == Continue(recorded))
      && (!stage.allowFailure ==> StepOf(rc, idx, st) == Stop(recorded.(success := false)))
  {
  }

  lemma StepStoresOnlySuccesses(rc: RunContext, idx: nat, st: RunState)
    requires idx < |rc.stages|
    ensures NewEntriesSucceeded(st.entries, StepOf(rc, idx, st).Entries())
  {
    var stage := rc.stages[idx];
    var (hit, entries) := Lookup(rc, stage, st.entries);
    LookupShrinks(rc, stage, st.entries);
    if hit.None? {
      AfterAttemptShape(rc, stage, st, entries, rc.attempt(stage, st.results));
    }
  }

  // ---------------------------------------------------------------------
  // Properties of a run

  function NamesOf(stages: seq<Stage>, todo: seq<nat>): (names: set<string>)
    requires Indices(todo, |stages|)
    ensures forall k :: 0 <= k < |todo| ==> stages[todo[k]].name in names
    ensures forall x :: x in names ==> exists k :: 0 <= k < |todo| && stages[todo[k]].name == x
  {
    set k | 0 <= k < |todo| :: stages[todo[k]].name
  }

  /** The names of the first `m + 1` stages to run: the first stage's
      name and the names of the `m` after it. */
  lemma NamesOfTake(stages: seq<Stage>, todo: seq<nat>, m: nat)
    requires Indices(todo, |stages|) && m < |todo|
    ensures NamesOf(stages, todo[..m + 1]) == {stages[todo[0]].name} + NamesOf(stages, todo[1..][..m])
  {
    assert todo[..m + 1][0] == todo[0] && todo[..m + 1][1..] == todo[1..][..m];
    NamesOfCons(stages, todo[..m + 1]);
  }

  lemma NamesOfCons(stages: seq<Stage>, t: seq<nat>)
    requires Indices(t, |stages|) && t != []
    ensures NamesOf(stages, t) == {stages[t[0]].name} + NamesOf(stages, t[1..])
  {
    var a := NamesOf(stages, t);
    var b := NamesOf(stages, t[1..]);
    forall x | x in a ensures x == stages[t[0]].name || x in b {
      var k :| 0 <= k < |t| && stages[t[k]].name == x;
      if k > 0 {
        assert t[1..][k - 1] == t[k];
      }
    }
    forall x | x in b ensures x in a {
      var k :| 0 <= k < |t[1..]| && stages[t[1..][k]].name == x;
      assert t[1..][k] == t[k + 1];
    }
  }

  /** The run from the `i`-th stage on is that stage's step followed by
      the run from the next one. */
  lemma RunFromStep(rc: RunContext, todo: seq<nat>, i: nat, st: RunState)
    requires Indices(todo, |rc.stages|) && i < |todo|
    ensures StepOf(rc, todo[i], st).Continue? ==>
      RunFrom(rc, todo[i..], st) == RunFrom(rc, todo[i + 1..], StepOf(rc, todo[i], st).next)
    ensures StepOf(rc, todo[i], st).Stop? ==> RunFrom(rc, todo[i..], st) == (StepOf(rc, todo[i], st).last, None)
    ensures StepOf(rc, todo[i], st).Abort? ==>
      RunFrom(rc, todo[i..], st) == (st.(entries := StepOf(rc, todo[i], st).entries), Some(StepOf(rc, todo[i], st).error))
    ensures StepOf(rc, todo[i], st).Continue? ==> StepOf(rc, todo[i], st).next.success == st.success
  {
    assert todo[i..][0] == todo[i] && todo[i..][1..] == todo[i + 1..];
    StepShape(rc, todo[i], st);
  }

  /** The final state `fin` of a run from `st` over `todo` recorded the
      first `m` stages; `stopped` says whether the last of them failed
      without being allowed to. */
  ghost predicate RecordsPrefix(rc: RunContext, todo: seq<nat>, st: RunState, fin: RunState, m: nat, stopped: bool)
    requires Indices(todo, |rc.stages|)
  {
    && m <= |todo|
    && fin.results.Keys == st.results.Keys + NamesOf(rc.stages, todo[..m])
    && (!stopped ==> m == |todo| && fin.success == st.success)
    && (stopped ==> 0 < m && !fin.success)
    && (stopped ==>
         var stage := rc.stages[todo[m - 1]];
         !stage.allowFailure && !fin.results[stage.name].success)
  }

  /** A run records a result for a prefix of its stages: all of them, or
      up to and including the first stage whose failure it does not
      allow, which is then recorded as failed and clears the success flag;
      no stage after it has a result. */
  lemma {:induction false} RunRecordsPrefix(rc: RunContext, todo: seq<nat>, st: RunState)
    returns (m: nat, stopped: bool)
    requires Indices(todo, |rc.stages|)
    requires RunFrom(rc, todo, st).1.None?
    ensures m <= |todo|
    ensures RunFrom(rc, todo, st).0.results.Keys == st.results.Keys + NamesOf(rc.stages, todo[..m])
    ensures !stopped ==> m == |todo| && RunFrom(rc, todo, st).0.success == st.success
    ensures stopped ==> 0 < m && !RunFrom(rc, todo, st).0.success
    ensures stopped ==>
      var stage := rc.stages[todo[m - 1]];
      !stage.allowFailure && !RunFrom(rc, todo, st).0.results[stage.name].success
  {
    m, stopped := RunRecords(rc, todo, st);
  }

  /** `RunRecordsPrefix` by induction over the stages still to run. */
  lemma {:induction false} RunRecords(rc: RunContext, todo: seq<nat>, st: RunState)
    returns (m: nat, stopped: bool)
    requires Indices(todo, |rc.stages|)
    requires RunFrom(rc, todo, st).1.None?
    ensures RecordsPrefix(rc, todo, st, RunFrom(rc, todo, st).0, m, stopped)
    decreases |todo|
  {
    if todo == [] {
      m, stopped := 0, false;
      assert NamesOf(rc.stages, todo[..0]) == {};
    } else {
      var o := StepOf(rc, todo[0], st);
      StepShape(rc, todo[0], st);
      if o.Continue? {
        assert RunFrom(rc, todo, st) == RunFrom(rc, todo[1..], o.next);
        var m', stopped' := RunRecords(rc, todo[1..], o.next);
        m, stopped := m' + 1, stopped';
        RecordsPrefixCons(rc, todo, st, o.next, RunFrom(rc, todo, st).0, m', stopped');
      } else if o.Stop? {
        assert RunFrom(rc, todo, st) == (o.last, None);
        m, stopped := 1, true;
        RecordsPrefixStop(rc, todo, st, o.last);
      } else {
        assert false;
      }
    }
  }

  /** A stage whose failure is not allowed ends the recorded prefix. */
  lemma RecordsPrefixStop(rc: RunContext, todo: seq<nat>, st: RunState, last: RunState)
    requires Indices(todo, |rc.stages|) && todo != []
    requires var name := rc.stages[todo[0]].name;
      last.results.Keys == st.results.Keys + {name} && !last.success
      && !rc.stages[todo[0]].allowFailure && !last.results[name].success
    ensures RecordsPrefix(rc, todo, st, last, 1, true)
  {
    NamesOfTake(rc.stages, todo, 0);
    assert NamesOf(rc.stages, todo[1..][..0]) == {};
  }

  /** A stage that lets the run go on extends the recorded prefix by
      itself. */
  lemma RecordsPrefixCons(rc: RunContext, todo: seq<nat>, st: RunState, next: RunState, fin: RunState, m: nat, stopped: bool)
    requires Indices(todo, |rc.stages|) && todo != []
    requires next.results.Keys == st.results.Keys + {rc.stages[todo[0]].name} && next.success == st.success
    requires RecordsPrefix(rc, todo[1..], next, fin, m, stopped)
    ensures RecordsPrefix(rc, todo, st, fin, m + 1, stopped)
  {
    NamesOfTake(rc.stages, todo, m);
    if stopped {
      assert todo[m] == todo[1..][m - 1];
    }
  }

  /** Across a whole run, every entry the cache gains holds a successful
      result, and without the cache the entries do not change. */
  lemma {:induction false} RunStoresOnlySuccesses(rc: RunContext, todo: seq<nat>, st: RunState)
    requires Indices(todo, |rc.stages|)
    ensures NewEntriesSucceeded(st.entries, RunFrom(rc, todo, st).0.entries)
    ensures !rc.caching ==> RunFrom(rc, todo, st).0.entries == st.entries
    decreases |todo|
  {
    if todo != [] {
      StepStoresOnlySuccesses(rc, todo[0], st);
      if !rc.caching {
        NoCacheNoEntries(rc, todo[0], st);
      }
      match StepOf(rc, todo[0], st)
      case Continue(next) =>
        RunStoresOnlySuccesses(rc, todo[1..], next);
      case Stop(_) =>
      case Abort(_, _) =>
    }
  }

  // ---------------------------------------------------------------------
  // The executor object

  /** Iterating a stage's environment map: the order is whatever the map
      yields. */
  method EnvPairs(env: map<string, string>) returns (pairs: seq<(string, string)>)
    ensures IsEnumeration(pairs, env)
  {
    pairs := [];
    var rest := env;
    while rest != map[]
      invariant multiset(pairs) + multiset(rest.Items) == multiset(env.Items)
      decreases |rest|
    {
      var k :| k in rest;
      ItemsRemove(rest, k);
      pairs := pairs + [(k, rest[k])];
      rest := rest - {k};
    }
  }

  /** The tools the stages use. */
  function ToolNames(stages: seq<Stage>): (names: set<string>)
    ensures forall i :: 0 <= i < |stages| ==> ToolName(stages[i].tool) in names
    ensures forall t :: t in names ==> exists i :: 0 <= i < |stages| && ToolName(stages[i].tool) == t
  {
    set i | 0 <= i < |stages| :: ToolName(stages[i].tool)
  }

  /** A tool is missing when no executor is registered for it or its
      executor does not report itself available. */
  predicate ToolMissing(executors: map<string, ExecutorKind>, io: SystemIo, tool: string) {
    tool !in executors || Availability(executors[tool], io) != Ok(true)
  }

  class PipelineExecutor {
    var executors: map<string, ExecutorKind>
    var cache: Option<FilesystemCache>

    /** `PipelineExecutor::new`: no executors and no cache. */
    constructor()
      ensures executors == map[] && cache == None
    {
      executors := map[];
      cache := None;
    }

    /** `register_executor`: a later registration for a tool replaces an
        earlier one. */
    method RegisterExecutor(name: string, executor: ExecutorKind)
      modifies this
      ensures executors == old(executors)[name := executor] && cache == old(cache)
    {
      executors := executors[name := executor];
    }

    /** `with_cache`. */
    method WithCache(c: FilesystemCache)
      modifies this
      ensures cache == Some(c) && executors == old(executors)
    {
      cache := Some(c);
    }

    function CacheFrame(): set<object>
      reads this
    {
      if cache.Some? then {cache.value} else {}
    }

    /** The cache's entries; none without a cache. */
    function CacheEntries(): map<string, CachedEntry>
      reads this, CacheFrame()
    {
      if cache.Some? then cache.value.entries else map[]
    }

    ghost function Context(p: Pipeline, workingDir: string, options: ExecutionOptions, keys: KeyContext, io: SystemIo, now: int)
      : RunContext
      reads this
    {
      RunContext(p.stages, AttemptWith(executors, workingDir, p.env, io),
                 KeyWith(if cache.Some? then cache.value.baseDir else "", keys),
                 !options.noCache && cache.Some?,
                 if cache.Some? then cache.value.cacheDir else "",
                 keys.fs, now)
    }

    /** `execute`: plan the run; a dry run stops there with no results and
        success; otherwise the stages run as `RunFrom` says, and the cache
        ends with the entries the run left. */
    method Execute(p: Pipeline, workingDir: string, options: ExecutionOptions, keys: KeyContext, io: SystemIo, now: int)
      returns (r: Result<PipelineResult, ConflowError>)
      requires !options.noCache && cache.Some? ==> PlainKeys(keys.digest)
      modifies CacheFrame()
      ensures (r, CacheEntries()) == ExecuteOutcome(Context(p, workingDir, options, keys, io, now),
                                                    PlanOf(p, options.stages), options.dryRun, old(CacheEntries()))
    {
      ghost var rc := Context(p, workingDir, options, keys, io, now);
      if cache.Some? {
        KeyWithFits(cache.value.baseDir, keys);
      }
      var attempt := AttemptWith(executors, workingDir, p.env, io);
      r := ExecutePlanned(p, options, keys, now, attempt, rc);
    }

    /** `execute` once the way a stage is run is fixed. */
    method ExecutePlanned(p: Pipeline, options: ExecutionOptions, keys: KeyContext, now: int, attempt: StageAttempt,
                          ghost rc: RunContext)
      returns (r: Result<PipelineResult, ConflowError>)
      requires rc.stages == p.stages && rc.attempt == attempt
      requires rc.caching == (!options.noCache && cache.Some?) && rc.now == now && rc.fs == keys.fs
      requires cache.Some? ==> rc.cacheDir == cache.value.cacheDir && KeysFit(rc.key, cache.value.baseDir, keys)
      requires rc.caching ==> PlainKeys(keys.digest)
      modifies CacheFrame()
      ensures (r, CacheEntries()) == ExecuteOutcome(rc, PlanOf(p, options.stages), options.dryRun, old(CacheEntries()))
    {
      var plan := Plan(p, options.stages);
      if plan.Err? {
        return Err(plan.error);
      }
      if options.dryRun {
        return Ok(PipelineResult(map[], true));
      }
      r := RunStages(p.stages, plan.value, attempt, options, keys, now, rc);
    }

    /** The loop of `execute` over the stages to run, in order. */
    method RunStages(stages: seq<Stage>, todo: seq<nat>, attempt: StageAttempt, options: ExecutionOptions,
                     keys: KeyContext, now: int, ghost rc: RunContext)
      returns (r: Result<PipelineResult, ConflowError>)
      requires Indices(todo, |stages|)
      requires rc.stages == stages && rc.attempt == attempt
      requires rc.caching == (!options.noCache && cache.Some?) && rc.now == now && rc.fs == keys.fs
      requires cache.Some? ==> rc.cacheDir == cache.value.cacheDir && KeysFit(rc.key, cache.value.baseDir, keys)
      requires rc.caching ==> PlainKeys(keys.digest)
      modifies CacheFrame()
      ensures var run := RunFrom(rc, todo, RunState(map[], true, old(CacheEntries())));
        && CacheEntries() == run.0.entries
        && r == (if run.1.Some? then Err(run.1.value) else Ok(PipelineResult(run.0.results, run.0.success)))
    {
      ghost var final := RunFrom(rc, todo, RunState(map[], true, CacheEntries()));
      ghost var st := RunState(map[], true, CacheEntries());
      var results: map<string, ExecutionResult> := map[];
      var i := 0;
      while i < |todo|
        invariant 0 <= i <= |todo|
        invariant st == RunState(results, true, CacheEntries())
        invariant final == RunFrom(rc, todo[i..], st)
      {
        RunFromStep(rc, todo, i, st);
        var step := RunStage(stages[todo[i]], attempt, options, keys, now, results, rc, todo[i]);
        match step
        case Abort(e, entries) =>
          assert final == (st.(entries := entries), Some(e));
          return Err(e);
        case Stop(last) =>
          assert final == (last, None);
          return Ok(PipelineResult(last.results, false));
        case Continue(next) =>
          results, st := next.results, next;
        i := i + 1;
      }
      assert todo[i..] == [];
      return Ok(PipelineResult(results, true));
    }

    /** One pass of the loop in `execute`: the cache first, when it is
        consulted; otherwise run the stage, store a success, and report a
        failure the stage does not allow as the end of the run. */
    method RunStage(stage: Stage, attempt: StageAttempt, options: ExecutionOptions, keys: KeyContext, now: int,
                    results: map<string, ExecutionResult>, ghost rc: RunContext, ghost idx: nat)
      returns (step: StepOutcome)
      requires idx < |rc.stages| && rc.stages[idx] == stage && rc.attempt == attempt
      requires rc.caching == (!options.noCache && cache.Some?) && rc.now == now && rc.fs == keys.fs
      requires cache.Some? ==> rc.cacheDir == cache.value.cacheDir
      requires cache.Some? ==> KeysFit(rc.key, cache.value.baseDir, keys)
      requires rc.caching ==> PlainKeys(keys.digest)
      modifies CacheFrame()
      ensures step == StepOf(rc, idx, RunState(results, true, old(CacheEntries())))
      ensures CacheEntries() == step.Entries()
    {
      ghost var st := RunState(results, true, CacheEntries());
      var caching := !options.noCache && cache.Some?;
      var hit := LookupStage(stage, keys, caching, rc);
      if hit.Some? {
        return Continue(RunState(results[stage.name := hit.value], true, CacheEntries()));
      }
      var result := attempt(stage, results);
      if result.Err? {
        return Abort(result.error, CacheEntries());
      }
      if result.value.success {
        StoreStage(stage, keys, caching, result.value, now, rc);
      } else if !stage.allowFailure {
        return Stop(RunState(results[stage.name := result.value], false, CacheEntries()));
      }
      return Continue(RunState(results[stage.name := result.value], true, CacheEntries()));
    }

    /** The cache read of the loop: only when the cache is consulted, and
        an error reading it is a miss. */
    method LookupStage(stage: Stage, keys: KeyContext, caching: bool, ghost rc: RunContext)
      returns (hit: Option<ExecutionResult>)
      requires caching == rc.caching && (caching ==> cache.Some?) && rc.fs == keys.fs
      requires cache.Some? ==> rc.cacheDir == cache.value.cacheDir
      requires cache.Some? ==> KeysFit(rc.key, cache.value.baseDir, keys)
      requires caching ==> PlainKeys(keys.digest)
      modifies CacheFrame()
      ensures (hit, CacheEntries()) == Lookup(rc, stage, old(CacheEntries()))
    {
      if caching {
        var pairs := EnvPairs(stage.env);
        StageKeyOrderFree(stage, cache.value.baseDir, pairs, Enumerate(stage.env),
                          keys.codec, keys.glob, keys.fs, keys.digest);
        assert rc.key(stage) == CanonicalKey(stage, cache.value.baseDir, keys);
        var cached := cache.value.Get(stage, pairs, keys);
        if cached.Ok? && cached.value.Some? {
          return cached.value;
        }
      }
      return None;
    }

    /** The cache write of the loop for a successful result; an error
        writing it is ignored. */
    method StoreStage(stage: Stage, keys: KeyContext, caching: bool, result: ExecutionResult, now: int, ghost rc: RunContext)
      requires caching == rc.caching && (caching ==> cache.Some?) && rc.now == now
      requires cache.Some? ==> rc.cacheDir == cache.value.cacheDir
      requires cache.Some? ==> KeysFit(rc.key, cache.value.baseDir, keys)
      requires caching ==> PlainKeys(keys.digest)
      requires result.success
      modifies CacheFrame()
      ensures CacheEntries() == Stored(rc, stage, result, old(CacheEntries()))
    {
      if caching {
        var pairs := EnvPairs(stage.env);
        StageKeyOrderFree(stage, cache.value.baseDir, pairs, Enumerate(stage.env),
                          keys.codec, keys.glob, keys.fs, keys.digest);
        assert rc.key(stage) == CanonicalKey(stage, cache.value.baseDir, keys);
        var _ := cache.value.Store(stage, pairs, keys, result, now);
      }
    }

    /** `check_tools`: every tool the stages use, each reported once, that
        has no executor or whose executor is not available. */
    method CheckTools(p: Pipeline, io: SystemIo) returns (missing: seq<string>)
      ensures forall t :: t in missing <==> t in ToolNames(p.stages) && ToolMissing(executors, io, t)
      ensures forall i, j :: 0 <= i < j < |missing| ==> missing[i] != missing[j]
    {
      missing := [];
      var left := ToolNames(p.stages);
      while left != {}
        invariant left <= ToolNames(p.stages)
        invariant forall t :: t in missing <==> t in ToolNames(p.stages) - left && ToolMissing(executors, io, t)
        invariant forall i, j :: 0 <= i < j < |missing| ==> missing[i] != missing[j]
        decreases |left|
      {
        var tool :| tool in left;
        assert tool !in missing;
        if tool in executors {
          match Availability(executors[tool], io)
          case Ok(true) =>
          case Ok(false) => missing := missing + [tool];
          case Err(_) => missing := missing + [tool];
        } else {
          missing := missing + [tool];
        }
        left := left - {tool};
      }
    }
  }
}
