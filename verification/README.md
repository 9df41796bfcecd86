# conflow, modelled in Dafny

conflow orchestrates CUE, Nickel and shell tools as a pipeline of stages.
Each stage names a tool, its inputs (glob patterns, or the output of an
earlier stage), an optional output and environment variables; stages are
ordered by a dependency graph, run one after the other, and their results
are cached under a content hash. Around this engine sit a compliance
checker for the RSR ("Rhodium Standard Repository") requirements, with a
history of past reports and their diffs, per-project exceptions,
registries of requirements, schemas and templates, automatic remediation
and a JSON-RPC hook interface, plus a configuration analyzer that
recommends a tool.

This project models that core, one Dafny module per source file, and
proves what each part promises:

- `pipeline_definition.dfy`, `pipeline_dag.dfy`, `pipeline_validation.dfy`:
  stages and their inputs and outputs; the dependency graph, its
  construction from `depends_on` and `from_stage`, cycle rejection,
  topological order, dependency and reachability queries, and the text
  listing; the validator that collects errors and warnings.
- `pipeline_executor.dfy`: the sequential run loop over the topological
  order, with cache lookup, input resolution from earlier results, failure
  handling and storing of successful results.
- `cache_hash.dfy`, `cache_store.dfy`, `cache_types.dfy`: the byte feed a
  stage's cache key is hashed from, the on-disk entry layout, and the cache
  operations over a map of entries.
- `executors.dfy`, `executor_cue.dfy`, `executor_nickel.dfy`,
  `executor_shell.dfy`: result constructors, glob resolution, argument
  lists, and the mapping from a process outcome to a stage result.
- `rsr_requirements.dfy`, `rsr_compliance.dfy`, `rsr_config.dfy`,
  `rsr_diff.dfy`, `rsr_templates.dfy`, `rsr_remediation.dfy`,
  `rsr_schemas.dfy`, `rsr_hooks.dfy`: the compliance subsystem.
- `analyzer_complexity.dfy`, `analyzer_patterns.dfy`,
  `analyzer_detector.dfy`, `analyzer_recommender.dfy`: the analyzer.
- `utils_spinner.dfy`, `cli.dfy`, `errors.dfy`: the stage progress state
  machine, duration formatting and option parsing, and error help.
- `wrappers.dfy`, `seqs.dfy`, `strings.dfy`, `ordering.dfy`,
  `path_order.dfy`: shared `Option`/`Result` types, sequence and string
  helpers, and the orders the source sorts by (`str` order, and Rust's
  component-wise `Path` order).

What the code does with the world outside it is given to the model as
parameters: the file system as sets of existing paths and maps of file
contents, subprocess outcomes, the glob matcher, the regular-expression
matcher, the JSON/YAML serialisers and parsers, the BLAKE3 digest of a
byte feed, and the clock. Where the source iterates a `HashMap` (the
registries, the YAML overrides), the model takes the iteration order as a
parameter and states its properties for every order. The one exception
is a stage's cache key: `hash_stage` feeds the environment in `HashMap`
order, which makes the key depend on that order (see "## Findings"), and
the cache and the executor use the corrected key, which feeds the
variables in name order. Objects whose methods update fields in place (the content
hasher, the filesystem cache, the pipeline executor, the stage progress
display, the compliance history and the registries) are classes; the rest
are functions over datatypes.

How a run behaves, as the code does it:

- a failed stage without `allow_failure` ends the run with a `break`;
  there is no "skipped" state, and later stages have no result;
- a stage's `condition` field is never read;
- the topological order comes from the graph library, and its tie-break
  among ready stages is left open (any order that respects the edges);
- a `from_stage` input adds no file content to the stage's key, the
  upstream stage's key is not part of it, and file paths are not hashed,
  only file contents;
- cache entries are written to their final path directly, with no
  temporary file and rename.

## Model

| member | source | states |
|---|---|---|
| Cli.DurationParts | src/cli/cache.rs:101-113 | the unit shown is the largest of s/m/h/d the duration reaches, and the count is the whole number of that unit (at least 1 above seconds, under the next unit's ratio below days) |
| Cli.FormatDuration | src/cli/cache.rs:101-113 | the text is a count in decimal digits, with no leading zero, whose value is the count `DurationParts` gives for the whole seconds, followed by that unit's letter |
| Strings.NatToStringValue | src/cli/cache.rs:101-113 | the decimal text of a number, as `{}` formats it, reads back as that number |
| Cli.SubSecondIgnored | src/cli/cache.rs:102 | changing only the sub-second part of a duration never changes its rendering |
| Cli.ParseOutputFormat | src/cli/mod.rs:199-210 | accepted iff the lower-cased input is "text" or "json", the format's name is that lower-cased input, and a rejection quotes the input as given |
| Cli.ParseGraphFormat | src/cli/mod.rs:219-230 | accepted iff the lower-cased input is "text", "dot" or "mermaid", with the same naming and rejection message rule |
| Cli.ToLowerIdempotent | src/cli/mod.rs:203 | lower-casing twice is lower-casing once |
| Cli.ParseRoundTrip | src/cli/mod.rs:199-230 | every format's own name, in any case, parses back to that format |
| Cli.LowerFixed | src/cli/mod.rs:203 | a string without upper-case letters is its own lower-case form |
| Cli.ParseIgnoresCase | src/cli/mod.rs:199-230 | parsing the lower-cased input succeeds exactly when parsing the input does, and to the same format |
| Errors.ToolNotFoundError | src/errors/mod.rs:236-247 | the error names the tool; its suggestion is the CUE hint for "cue", the Nickel hint for "nickel", and a generic hint naming the tool otherwise |
| Errors.ParseCueError | src/errors/mod.rs:279-290 | first match wins among "undefined field", "conflicting values", "cannot use"; no hint iff none occurs |
| Errors.ParseNickelError | src/errors/mod.rs:292-303 | first match wins among "type error", "unbound identifier", "contract violation"; no hint iff none occurs |
| Errors.GenerateHelpForToolError | src/errors/mod.rs:271-277 | "cue" goes to the CUE parser, "nickel" to the Nickel parser, any other tool gets no hint |
| Errors.StageFailedWithHelp | src/errors/mod.rs:261-268 | a `StageFailed` error keeping stage name and stderr verbatim, with the tool's hint (none for other tools) |
| Errors.HintsAreToolSpecific | src/errors/mod.rs:279-303 | a CUE hint and a Nickel hint for the same output never coincide |
| Errors.CueAndNickelDiffer | src/errors/mod.rs:271-303 | the same output gets the CUE "undefined field" hint from cue, the Nickel "type error" hint from nickel and none from shell |
| Spinner.StageProgress.constructor | src/utils/spinner.rs:45-47 | a new progress holds the stages and sits at position 0 |
| Spinner.StageProgress.Shown | src/utils/spinner.rs:49-80 | the stage reported on is present iff the position is inside the list, and is the stage at the position |
| Spinner.StageProgress.Start | src/utils/spinner.rs:49-53 | reports the current stage, if any, and changes nothing |
| Spinner.StageProgress.Complete | src/utils/spinner.rs:55-63 | the position advances by exactly one and the stage reported is the one it left |
| Spinner.StageProgress.Fail | src/utils/spinner.rs:65-71 | reports the current stage with the error and leaves the position unchanged |
| Spinner.StageProgress.Skip | src/utils/spinner.rs:73-80 | the position advances by exactly one and the stage reported is the one it left |
| Spinner.StageProgress.IsComplete | src/utils/spinner.rs:82-84 | complete iff no current stage is left, i.e. position at least the number of stages |
| Spinner.CompleteTimes | src/utils/spinner.rs:91-103 | after k completions the progress is complete iff k reaches the number of stages, and the completions reported the stages in order |
| CacheTypes.FromExecution | src/cache/mod.rs:97-108 | success, stdout, stderr, exit code and outputs are copied; the stored milliseconds are the duration truncated |
| CacheTypes.ToExecution | src/cache/mod.rs:110-122 | the copied fields come back, the duration is the stored milliseconds, and the result is marked a cache hit |
| CacheTypes.ExecutionRoundTrip | src/cache/mod.rs:97-122 | store then load loses only the sub-millisecond part of the duration and sets the cache-hit flag |
| CacheTypes.CachedRoundTrip | src/cache/mod.rs:97-122 | load then store gives the cached result back unchanged |
| CacheTypes.FormatSize | src/cache/mod.rs:56-70 | bytes shown exactly below 1024; otherwise KB below 1024², MB below 1024³, GB above, with the scaled value times the unit equal to the size, at least 1 and below 1024 except for GB |
| Complexity.Peak | src/analyzer/complexity.rs:121-139 | the value is the maximum running depth over all prefixes of the text, and some prefix attains it |
| Complexity.ScanDepth | src/analyzer/complexity.rs:121-139 | the depth-counting loop (openers add one, closers subtract one but never below 0) returns exactly the peak running depth |
| Complexity.NestingDepth | src/analyzer/complexity.rs:121-139 | `calculate_nesting_depth` over `{[(` and `}])`: no prefix goes deeper than the result and some prefix reaches it |
| Complexity.DepthWithoutClosers | src/analyzer/complexity.rs:121-139 | a text with no closers ends at a depth equal to its number of openers |
| Complexity.Meaningful | src/analyzer/complexity.rs:149-152 | only trimmed lines longer than 5 bytes in UTF-8 (`str::len`) are kept, trimmed of Unicode white space |
| Complexity.CountMeaningful | src/analyzer/complexity.rs:146-153 | the count map gives, for every text, its number of occurrences among the trimmed lines longer than 5 bytes |
| Complexity.CheckRepetition | src/analyzer/complexity.rs:141-162 | true iff the text has at least 10 lines and some trimmed line longer than 5 bytes occurs more than 3 times |
| Complexity.MeaningfulStep | src/analyzer/complexity.rs:146-153 | adding one line extends the kept lines by its trimmed form exactly when that is longer than 5 bytes |
| Complexity.ShortIsNotRepetitive | src/analyzer/complexity.rs:142-144 | a text of fewer than 10 lines is never repetitive |
| Complexity.ShortLinesIgnored | src/analyzer/complexity.rs:149-152 | lines whose trimmed form is at most 5 bytes long are all ignored |
| Complexity.MultibyteLineCounts | src/analyzer/complexity.rs:153-154 | length is counted in bytes: a trimmed line of three two-byte characters is kept |
| Complexity.AnalyzeComplexity | src/analyzer/complexity.rs:30-119 | each `has_*` flag is true iff one of its listed substrings occurs, `has_validation` equals `has_constraints`, the line count is the number of lines, the depth is the peak nesting, and repetition is decided on trimmed lines longer than 5 bytes, as `check_repetition` does |
| ConfigDetector.LastIndexOf | src/analyzer/config_detector.rs:24-27 | the last position of the character, none iff it does not occur |
| ConfigDetector.NameExtension | src/analyzer/config_detector.rs:24-27 | a file name has an extension iff it has a dot after its first character; the extension is what follows the last dot |
| ConfigDetector.ExtensionFormat | src/analyzer/config_detector.rs:24-33 | a recognised extension gives a known format, never `Unknown` |
| ConfigDetector.ContentFormat | src/analyzer/config_detector.rs:36-75 | JSON, TOML and YAML are chosen only when the text, trimmed of Unicode white space, has that format's marks and the parser accepts it; once they all decline, `#` with `:` gives CUE, and otherwise ` = ` with `let`/`fun` gives Nickel |
| ConfigDetector.DetectFormat | src/analyzer/config_detector.rs:22-75 | never an error; a recognised extension decides, otherwise the content, trimmed of Unicode white space, does |
| ConfigDetector.ExtensionDecides | src/analyzer/config_detector.rs:24-33 | with a recognised extension, neither the content nor the parsers change the result |
| ConfigDetector.ExtensionIgnoresCase | src/analyzer/config_detector.rs:26 | two extensions equal up to case give the same format |
| ConfigDetector.HiddenFileHasNoExtension | src/analyzer/config_detector.rs:24-27 | a dot file such as ".json" has no extension |
| Patterns.RankIsPosition | src/analyzer/patterns.rs:28-67 | each pattern's rank is its position in the fixed detection order |
| Patterns.SelectMembers | src/analyzer/patterns.rs:28-67 | the first n checks select exactly the patterns of rank below n that the content shows |
| Patterns.SelectOrdered | src/analyzer/patterns.rs:28-67 | the selected patterns are strictly increasing in rank, so in enum order without duplicates |
| Patterns.Extend | src/analyzer/patterns.rs:28-67 | one step of the detection loop appends the next pattern exactly when it holds |
| Patterns.DetectPatterns | src/analyzer/patterns.rs:28-67 | `detect_patterns` returns the patterns the content shows, in the fixed order |
| Patterns.DetectShapes | src/analyzer/patterns.rs:31-44 | the first three checks (simple, hierarchical, homogeneous lists) give the first three selections |
| Patterns.DetectMarks | src/analyzer/patterns.rs:46-64 | the remaining checks complete the selection |
| Patterns.AllSelected | src/analyzer/patterns.rs:28-67 | a pattern is detected iff the content shows it, and the detected list is in strictly increasing enum order |
| Patterns.ShallowOrDeep | src/analyzer/patterns.rs:69-78 | exactly one of `SimpleKeyValue` (depth at most 2) and `Hierarchical` (depth above 2) is shown |
| Patterns.FlatIsSimple | src/analyzer/patterns.rs:69-143 | a text without braces or brackets is simple key-value |
| Patterns.FlatDepth | src/analyzer/patterns.rs:125-143 | without openers the depth stays 0: only braces and brackets count |
| Patterns.HomogeneousListIsCount | src/analyzer/patterns.rs:80-83 | homogeneous lists are shown iff the text has more than one `[` |
| Recommender.RecommendTool | src/analyzer/recommender.rs:38-165 | the step-by-step scoring and decision give the recommendation defined by the weights and rules below |
| Recommender.Recommend | src/analyzer/recommender.rs:38-165 | defines the recommendation from the two scores: the primary tool, its reasons or default reason, the alternative and the combined advice; its properties are the lemmas below |
| Recommender.ScoreNickel | src/analyzer/recommender.rs:43-81 | the Nickel score is the sum of 3/3/2/1 over logic, functions, generation and repetition, with one reason per flag in that order |
| Recommender.ScoreCue | src/analyzer/recommender.rs:83-106 | the CUE score is the sum of 3/2/1/1 over constraints, validation, simplicity and low depth, with one reason per flag |
| Recommender.Decide | src/analyzer/recommender.rs:108-163 | from the two scores and reasons, the decision is the recommendation the rules define |
| Recommender.ScoreZeroIffNoReasons | src/analyzer/recommender.rs:43-106 | a score is 0 iff its side found no reasons; Nickel scores at most 9 and CUE at most 7 |
| Recommender.PrimaryFollowsScores | src/analyzer/recommender.rs:109-120 | Nickel is primary iff its score is higher, or the scores tie and there are no constraints |
| Recommender.RationaleNeverEmpty | src/analyzer/recommender.rs:123-128 | the rationale is the winner's reasons, or its default reason when it scored 0, and is never empty |
| Recommender.AlternativeIsTheOtherTool | src/analyzer/recommender.rs:131-150 | at most one alternative, never the primary tool |
| Recommender.CombinedWhenBothStrong | src/analyzer/recommender.rs:153-157 | a combined approach is suggested iff both scores are at least 2 |
| Recommender.ConstraintsWithoutLogicPickCue | src/analyzer/recommender.rs:109-120 | constraints without logic or functions recommend CUE |
| Recommender.LogicAndFunctionsPickNickel | src/analyzer/recommender.rs:109-120 | logic and functions without constraints recommend Nickel |
| Recommender.DocumentedCases | src/analyzer/recommender.rs:171-220 | the module's three tests: CUE for constraints, Nickel for logic, a combined approach when both are strong |
| Executors.Succeeded | src/executors/mod.rs:52-62 | `ExecutionResult::success`: success, exit 0, empty stderr, not a cache hit, with the given stdout, outputs and duration |
| Executors.Failed | src/executors/mod.rs:65-75 | `ExecutionResult::failure`: not a success, empty stdout and outputs, not a cache hit, with the given stderr, code and duration |
| Executors.WithCacheHit | src/executors/mod.rs:78-81 | sets the cache-hit flag and changes no other field |
| Executors.ConstructorsDisagree | src/executors/mod.rs:52-81 | a success result never equals a failure result, marking a hit keeps the success flag, and marking twice is marking once |
| Executors.JoinPath | src/executors/cue.rs:72-77 | joining an absolute path keeps it; a relative one is appended to the base |
| Executors.JoinAbsoluteBase | src/executors/mod.rs:119-123 | a path joined to an absolute base is absolute, so joining it again changes nothing |
| Executors.FullPattern | src/executors/mod.rs:119-123 | absolute patterns are used as given, relative ones are joined to the base directory |
| Executors.PatternMatches | src/executors/mod.rs:124-134 | a pattern resolves to its non-empty match list; zero matches is `NoInputFiles` naming the pattern, and a glob error is passed on |
| Executors.ResolveGlobs | src/executors/mod.rs:113-138 | the loop over the patterns computes the resolution defined pattern by pattern |
| Executors.GlobPrefixErrStays | src/executors/mod.rs:113-138 | once a pattern fails, later patterns do not change the error |
| Executors.GlobPrefixOk | src/executors/mod.rs:113-138 | resolution succeeds iff every pattern has matches, and then it is their matches concatenated in pattern order |
| Executors.GlobPrefixFirstFailure | src/executors/mod.rs:113-138 | a failure is the error of the first pattern that fails, every earlier one having matched |
| Executors.CreateDefaultExecutors | src/executors/mod.rs:141-157 | "shell" is always present; "cue" and "nickel" are present iff their tool is found, bound to the found binary; no other key |
| Executors.WriteOutput | src/executors/cue.rs:102-135 | no output declared gives no files; otherwise the parent of the output path (joined below the working directory) is created, and a failure there is a write error naming the parent; then stdout is written, a failure naming the output path; success reports that path as the one output |
| Executors.ToolRunResult | src/executors/cue.rs:165-192 | success gives exit 0 and the written outputs; failure gives the process code or -1 and no outputs; stdout and stderr are kept and it is never a cache hit |
| CueExec.OutFlag | src/executors/cue.rs:87-91 | `--out fmt` is present iff the command is `Export` with an output format |
| CueExec.CueInputs | src/executors/cue.rs:60-69 | resolved inputs if given, else the glob of the patterns if there are any, else none |
| CueExec.BuildCommand | src/executors/cue.rs:34-99 | the argument-appending steps build the command defined by `CommandFor`: non-CUE stages are `InvalidStage` |
| CueExec.CueArgsLayout | src/executors/cue.rs:56-96 | the arguments are the command, the schemas (relative ones joined to the working directory), the inputs, the `--out` flag, then the custom flags, in that order |
| CueExec.Execute | src/executors/cue.rs:140-193 | a command error is returned as is; a process that cannot start is `ToolExecutionFailed` for "cue"; otherwise the outcome is mapped as `ToolRunResult` |
| CueExec.ExecuteRejectsOtherTools | src/executors/cue.rs:40-51 | a non-CUE stage fails with `InvalidStage` before any process starts |
| CueExec.CheckAvailable | src/executors/cue.rs:196-198 | available iff the binary exists |
| CueExec.ValidateStage | src/executors/cue.rs:223-235 | `Ok` iff the stage runs CUE, otherwise `InvalidStage` "Not a CUE stage" |
| NickelExec.FormatName | src/executors/nickel.rs:79-89 | Yaml and Toml use their own names, every other format maps to "json" |
| NickelExec.FormatFlag | src/executors/nickel.rs:79-89 | `--format` is present iff the command is `Export` with a format |
| NickelExec.FirstInput | src/executors/nickel.rs:74-76 | at most one input argument, and it is the first input |
| NickelExec.NickelInputs | src/executors/nickel.rs:60-71 | resolved inputs first, then the stage file joined to the working directory, then the glob of the patterns, then none |
| NickelExec.BuildCommand | src/executors/nickel.rs:34-97 | the argument-appending steps build the command defined by `CommandFor`: non-Nickel stages are `InvalidStage` |
| NickelExec.NickelArgsLayout | src/executors/nickel.rs:56-94 | the arguments are the command, the first input if any, the format flag, then the custom flags |
| NickelExec.Execute | src/executors/nickel.rs:138-189 | command errors returned as is; a process that cannot start is `ToolExecutionFailed` for "nickel"; otherwise mapped as for CUE |
| NickelExec.ExecuteRejectsOtherTools | src/executors/nickel.rs:40-51 | a non-Nickel stage fails with `InvalidStage` before any process starts |
| NickelExec.CheckAvailable | src/executors/nickel.rs:191-193 | available iff the binary exists |
| NickelExec.ValidateStage | src/executors/nickel.rs:212-221 | `Ok` iff the stage runs Nickel, otherwise `InvalidStage` "Not a Nickel stage" |
| ShellExec.ShellCommand | src/executors/shell.rs:52-55 | the program is the shell, the arguments `-c command`, run in the working directory with the given environment |
| ShellExec.DeclaredOutputs | src/executors/shell.rs:68-74 | the declared output path as given (not joined to the working directory), or none |
| ShellExec.Execute | src/executors/shell.rs:36-96 | non-shell stages are `InvalidStage`; a shell that cannot start is `ToolExecutionFailed`; success gives exit 0 and the declared outputs; failure the code or -1 and no outputs |
| ShellExec.CheckAvailable | src/executors/shell.rs:99-102 | always available |
| ShellExec.ValidateStage | src/executors/shell.rs:127-143 | `Ok` iff the stage is a shell stage with a non-empty command, with the matching `InvalidStage` message otherwise |
| ShellExec.ValidatorAgrees | src/executors/shell.rs:127-143 | for shell stages the executor's check agrees with the pipeline validator's tool check |
| Definition.Input.ReferencesStage | src/pipeline/definition.rs:251-256 | a producing stage is named iff the input is a `from_stage` input, and it is that stage |
| Definition.Input.Patterns | src/pipeline/definition.rs:259-266 | a single pattern gives itself, a list gives the list, a `from_stage` input gives none |
| Definition.Output.Path | src/pipeline/definition.rs:286-291 | the output path in either output form |
| Definition.Output.Format | src/pipeline/definition.rs:294-299 | a format is declared iff the output is in the formatted form, and it is that format |
| Definition.DefaultCacheConfig | src/pipeline/definition.rs:341-349 | caching is enabled in ".conflow/cache" with content-hash invalidation |
| Definition.ToolName | src/pipeline/definition.rs:115-121 | "cue", "nickel" and "shell" name exactly the CUE, Nickel and shell tools |
| Definition.DisplayNamesDistinct | src/pipeline/definition.rs:195-323 | the display names of CUE commands, Nickel commands and output formats are lower-case words, distinct within each enum |
| Definition.GetStage | src/pipeline/definition.rs:66-68 | none iff no stage has the name; otherwise the first stage with that name |
| Definition.StageNames | src/pipeline/definition.rs:71-73 | the names of the stages, in declaration order |
| Definition.GetStageFindsDeclared | src/pipeline/definition.rs:66-73 | a stage is found iff its name is among the stage names, and the stage found has that name |
| Ordering.LexStrictOrder | src/cache/hash.rs:115-116 | lexicographic comparison over a strict order is a strict order (irreflexive and transitive) |
| Ordering.LexTotal | src/cache/hash.rs:115-116 | over a total order, two different sequences are ordered one way or the other |
| Ordering.StrLessStrictTotal | src/cache/hash.rs:56-59 | the byte order on strings is a strict total order |
| Ordering.SortBy | src/cache/hash.rs:115-116 | sorting keeps the length and the multiset of elements |
| Ordering.SortBySorted | src/cache/hash.rs:115-116 | the sorted sequence is ordered and a permutation of the input |
| Ordering.SortedUnique | src/cache/hash.rs:115-116 | two ordered permutations of each other under a total order are equal |
| Ordering.SortIgnoresOrder | src/cache/hash.rs:115-116 | sorting two permutations of the same elements gives the same sequence |
| PathOrder.Components | src/cache/hash.rs:115-116 | a path is split into components, and it is absolute iff the first component is the root |
| PathOrder.CompLessStrictTotal | src/cache/hash.rs:115-116 | the component order (root, current, parent, then names by bytes) is strict and total |
| PathOrder.PathLessStrictOrder | src/cache/hash.rs:115-116 | comparing paths component by component is a strict order |
| PathOrder.PathLessTotal | src/cache/hash.rs:115-116 | two paths with different components are ordered one way or the other |
| PathOrder.PathLessTotalOn | src/cache/hash.rs:115-116 | paths with pairwise different components are totally ordered, so sorting them is determined |
| PathOrder.ComponentsNotText | src/cache/hash.rs:115-116 | path order differs from text order: "a/b" sorts before "a-b" though the text "a-b" is smaller |
| CacheHash.Utf8Char | src/cache/hash.rs:30 | a character encodes to 1 to 4 bytes, one byte exactly for ASCII |
| CacheHash.Utf8 | src/cache/hash.rs:30 | a string's bytes (`as_bytes`) number between its length and four times it |
| CacheHash.Utf8Append | src/cache/hash.rs:30-59 | the bytes of a concatenation are the concatenation of the bytes |
| CacheHash.Utf8CharLead | src/cache/hash.rs:30 | the lead byte tells the length of a character's encoding |
| CacheHash.Utf8CharDecodes | src/cache/hash.rs:30 | decoding a character's bytes gives the character back |
| CacheHash.Utf8CharInjective | src/cache/hash.rs:30 | different characters have different encodings |
| CacheHash.Utf8Injective | src/cache/hash.rs:30-59 | different strings have different byte encodings, so the name fed identifies the stage |
| CacheHash.Serialized | src/cache/hash.rs:33-53 | a serialised part is fed as its bytes; a serialiser failure is a `CacheError` "Failed to serialize <part> config" |
| CacheHash.ConfigFeed | src/cache/hash.rs:28-59 | a tool serialisation failure is reported before anything else |
| CacheHash.ConfigFeedLayout | src/cache/hash.rs:28-59 | the configuration bytes are the name, the tool, the input, the output if declared, then each variable's name and value |
| CacheHash.FileBytes | src/cache/hash.rs:71-83 | a missing file adds nothing; a readable file adds its content; an unreadable one is `FileReadError` naming the path |
| CacheHash.ContentHasher.constructor | src/cache/hash.rs:21-25 | a new hasher has absorbed nothing |
| CacheHash.ContentHasher.Update | src/cache/hash.rs:123-125 | the data is appended to what was absorbed |
| CacheHash.ContentHasher.HashFile | src/cache/hash.rs:71-83 | succeeds iff the file is missing or readable, absorbing its content; on error nothing is absorbed |
| CacheHash.ContentHasher.CollectInputFiles | src/cache/hash.rs:86-118 | the loop over patterns returns the input files defined pattern by pattern, then sorted |
| CacheHash.ContentHasher.FeedEnv | src/cache/hash.rs:56-59 | each variable's name then value is absorbed, in the map's iteration order |
| CacheHash.ContentHasher.FeedConfig | src/cache/hash.rs:28-59 | absorbs the configuration bytes, or stops with the serialisation error |
| CacheHash.ContentHasher.FeedFiles | src/cache/hash.rs:62-65 | absorbs the files' contents in order, or stops with the first read error |
| CacheHash.ContentHasher.HashStage | src/cache/hash.rs:28-68 | on success the key is the digest of everything absorbed, which is the earlier bytes followed by the stage's feed; otherwise the feed's error |
| CacheHash.ContentHasher.HashStageCanonical | src/cache/hash.rs:28-68 | corrected `hash_stage`: the same with the environment fed in name order |
| CacheHash.ContentHasher.Finalize | src/cache/hash.rs:128-130 | the digest of everything absorbed |
| CacheHash.MatchedPrefixErrStays | src/cache/hash.rs:99-112 | a glob pattern error ends the collection; later patterns do not change it |
| CacheHash.FilesFeedErrStays | src/cache/hash.rs:62-65 | a read error ends the feed; later files do not change it |
| CacheHash.MatchedPrefixOk | src/cache/hash.rs:99-112 | collection succeeds iff every pattern is a valid glob, and gives the matches in pattern order; an error is a `GlobPattern` error |
| CacheHash.InputFilesSorted | src/cache/hash.rs:86-118 | the collected input files are sorted in path order and are a permutation of the matches |
| CacheHash.InputFilesOrderFree | src/cache/hash.rs:114-117 | the order the matcher yields files in does not change the collected list, for distinct paths |
| CacheHash.FilesFeedOk | src/cache/hash.rs:62-83 | the file feed succeeds iff no file is unreadable, and is then the contents concatenated; otherwise the error names the first unreadable file |
| CacheHash.FilesFeedIgnoresPaths | src/cache/hash.rs:62-83 | only the contents are fed: files with the same contents feed the same bytes whatever their paths |
| CacheHash.FromStageHashesNoFiles | src/cache/hash.rs:91-95 | a stage fed from another stage has no input files, so only its configuration is hashed |
| CacheHash.HashString | src/cache/hash.rs:140-144 | the digest of the string's bytes |
| CacheHash.HashFileAlone | src/cache/hash.rs:147-155 | the digest of the file's content; a missing or unreadable file is `FileReadError` naming the path |
| CacheHash.ConfigFeedEnv | src/cache/hash.rs:56-59 | the environment is fed last: the configuration feed is the empty-environment feed followed by the variables |
| CacheHash.EnvOrderChangesFeed | src/cache/hash.rs:56-59 | two iteration orders of the same two-variable environment feed different bytes of the same length |
| CacheHash.EnvOrderChangesStageFeed | src/cache/hash.rs:28-68 | for a stage with that environment, the whole stage feed differs between the two orders |
| CacheHash.KeyLessStrictOrder | src/cache/hash.rs:56-59 | ordering variables by name is a strict order |
| CacheHash.EnumerationTotal | src/cache/hash.rs:56-59 | the variables of one map have distinct names, so name order is total on them |
| CacheHash.SortedEnvOrderFree | src/cache/hash.rs:56-59 | sorting any two enumerations of one environment by name gives the same sequence, still an enumeration of it |
| CacheHash.StageKeyOrderFree | src/cache/hash.rs:28-68 | the corrected key is the same for every iteration order of the environment |
| CacheHash.StageFeed | src/cache/hash.rs:28-68 | defines what `hash_stage` feeds for an environment order: the configuration bytes, then every input file's content, or the first error |
| CacheHash.StageKey | src/cache/hash.rs:28-68 | defines the corrected key: the digest of the feed with the environment in name order; its property is `StageKeyOrderFree` |
| CacheHash.Utf8Length | src/analyzer/complexity.rs:154 | the UTF-8 encoding of a string is as long as its byte length, which `str::len` counts |
| CacheStore.JoinRelative | src/cache/filesystem.rs:51-56 | joining a relative path to the cache directory puts it under the directory prefix |
| CacheStore.JoinTwice | src/cache/filesystem.rs:51-56 | joining a name and then a rest gives `dir/name/rest` |
| CacheStore.CachePathLayout | src/cache/filesystem.rs:51-56 | an entry lives at `cache_dir/<first two key characters>/<rest>.json` |
| CacheStore.CachePath | src/cache/filesystem.rs:51-56 | defines `cache_path`: the key split after `min(2, len)` characters into a directory and a file named after the rest; its properties are `CachePathLayout` and `CachePathInjective` |
| CacheStore.SplitAtSeparator | src/cache/filesystem.rs:51-56 | a separator absent from the left parts splits a path uniquely |
| CacheStore.EntryNameSeparator | src/cache/filesystem.rs:51-56 | the entry name holds a path separator iff the key is non-empty |
| CacheStore.EntryNameInjective | src/cache/filesystem.rs:51-56 | different non-empty keys give different entry names |
| CacheStore.CachePathInjective | src/cache/filesystem.rs:51-56 | different keys never share an entry path, so entries of different stages never collide |
| CacheStore.Found | src/cache/filesystem.rs:111-147 | a result is found iff an entry exists at the path and all its outputs still exist; it is the stored result restored as a cache hit |
| CacheStore.AfterGet | src/cache/filesystem.rs:133-139 | a lookup deletes only the stale entry at its own path and changes no other entry |
| CacheStore.NewEntry | src/cache/filesystem.rs:149-166 | the entry is stamped with the given time, the stage name and key, and holds the stored form of the result |
| CacheStore.FoundAfterStore | src/cache/filesystem.rs:111-178 | a stored result whose outputs exist is found again with the same fields, its duration truncated to milliseconds and marked a cache hit |
| CacheStore.FoundAfterRemove | src/cache/filesystem.rs:180-193 | after removal the entry is not found and every other entry is found as before |
| CacheStore.FilesystemCache.constructor | src/cache/filesystem.rs:27-37 | the cache holds its directory, base directory and the entries already on disk |
| CacheStore.KeyOf | src/cache/filesystem.rs:45-48 | defines the key of a stage under a codec, matcher, file contents and digest |
| CacheStore.FilesystemCache.CacheKey | src/cache/filesystem.rs:45-48 | the key is the digest of what a fresh hasher absorbs from the stage with its environment fed in name order, the corrected `hash_stage`; a key error is passed on |
| CacheStore.FilesystemCache.Get | src/cache/filesystem.rs:111-147 | a key error is returned; otherwise the result found at the key's path, with a stale entry (missing output) deleted |
| CacheStore.FilesystemCache.Store | src/cache/filesystem.rs:149-178 | a key error is returned; otherwise the key's entry is the new entry, overwriting any earlier one, and no other entry changes |
| CacheStore.FilesystemCache.Invalidate | src/cache/filesystem.rs:180-193 | a key error is returned; otherwise exactly the key's entry is removed |
| CacheStore.FilesystemCache.Clear | src/cache/filesystem.rs:195-211 | no entries are left |
| CacheStore.FilesystemCache.Stats | src/cache/filesystem.rs:213-248 | the count is the number of entries; oldest and newest are absent iff there are none, are entry timestamps, and bound every entry's timestamp |
| CacheStore.OutputsPresent | src/cache/filesystem.rs:133-140 | true iff every output of the entry still exists |
| CacheStore.DefaultCacheDir | src/cache/filesystem.rs:39-43 | the default cache directory is `.conflow/cache` under the base directory |
| PipelineExec.MergeEnv | src/pipeline/executor.rs:117-119 | the run environment has the names of both maps; the stage's value wins on a shared name, the pipeline's value is kept otherwise |
| PipelineExec.ResolveStageInput | src/pipeline/executor.rs:223-243 | a `from_stage` input resolves to the producer's recorded outputs, and is an `ExecutionFailed` error iff the producer has no record; other inputs resolve to nothing |
| PipelineExec.ResolveAfterProducer | src/pipeline/executor.rs:223-243 | once the producer's result is recorded, the consumer resolves to exactly its outputs |
| PipelineExec.ExecuteStage | src/pipeline/executor.rs:199-220 | no executor for the tool is `ExecutorNotFound`; then an input-resolution error is returned; otherwise the executor runs with the resolved inputs |
| PipelineExec.Selected | src/pipeline/executor.rs:87-94 | the filter keeps exactly the ordered stages whose names were requested |
| PipelineExec.SelectedKeepsOrder | src/pipeline/executor.rs:87-94 | two requested stages keep their relative order after filtering |
| PipelineExec.StagesToRun | src/pipeline/executor.rs:87-94 | without a filter the whole order runs; with one, exactly the requested stages of the order |
| PipelineExec.PlanOf | src/pipeline/executor.rs:83-94 | a plan is a list of valid stage indices: the graph, its topological order, then the filter |
| PipelineExec.Plan | src/pipeline/executor.rs:83-94 | building, ordering and filtering compute the plan `PlanOf` defines |
| PipelineExec.KeyWithFits | src/cache/filesystem.rs:45-48 | the cache key used by the run is the one the cache computes for every stage |
| PipelineExec.LookupShrinks | src/pipeline/executor.rs:122-131 | a cache lookup only drops entries, and does nothing when the cache is not consulted |
| PipelineExec.AfterAttemptShape | src/pipeline/executor.rs:136-172 | after running a stage its result is recorded, only a success reaches the cache, and only a failure the stage does not allow ends the run |
| PipelineExec.StepShape | src/pipeline/executor.rs:114-173 | a step records the stage's result and keeps the success flag, or records a disallowed failure, clears the flag and ends the run |
| PipelineExec.StepOf | src/pipeline/executor.rs:115-172 | defines one iteration of the run loop: a cache hit records the cached result; otherwise the stage is attempted, and its result recorded, stored or made to stop the run; its properties are `StepShape` and `HitSkipsExecution`; it reads the files as they were when the run began |
| PipelineExec.RunFrom | src/pipeline/executor.rs:114-173 | defines the run loop over the planned stages, ending at a stop or an error, with one view of the files for the whole run; its properties are `RunRecordsPrefix` and `RunStoresOnlySuccesses` |
| PipelineExec.ExecuteOutcome | src/pipeline/executor.rs:74-196 | defines what `execute` returns and leaves in the cache, every stage seeing the files as they were when the run began; `Execute` is proved against it |
| PipelineExec.CanonicalKey | src/cache/filesystem.rs:45-48 | defines the key the executor caches under: the corrected key, with the environment fed in name order |
| PipelineExec.HitSkipsExecution | src/pipeline/executor.rs:122-131 | a cache hit records the cached result and runs nothing |
| PipelineExec.KeyErrorIsMiss | src/pipeline/executor.rs:125-153 | a stage whose key cannot be computed runs as without a cache: the read is a miss and the store is ignored |
| PipelineExec.NoCacheNoEntries | src/pipeline/executor.rs:122-150 | with `no_cache` or without a cache, a step leaves the cache entries alone |
| PipelineExec.MissingExecutorAborts | src/pipeline/executor.rs:136-209 | a stage with no registered executor that the cache cannot serve aborts the run with `ExecutorNotFound` |
| PipelineExec.FailureHandling | src/pipeline/executor.rs:156-172 | an allowed failure is recorded and the run goes on with the flag unchanged; a disallowed one is recorded, clears the flag and ends the run |
| PipelineExec.StepStoresOnlySuccesses | src/pipeline/executor.rs:149-155 | every cache entry a step adds holds a successful result |
| PipelineExec.RunFromStep | src/pipeline/executor.rs:114-173 | the run from a stage on is that stage's step followed by the run from the next one |
| PipelineExec.RunRecordsPrefix | src/pipeline/executor.rs:114-173 | a completed run records results for a prefix of the stages: all of them with the flag kept, or up to the first disallowed failure, which is recorded as failed with the flag cleared |
| PipelineExec.RunStoresOnlySuccesses | src/pipeline/executor.rs:114-173 | across a whole run every entry the cache gains holds a successful result; without the cache the entries do not change |
| PipelineExec.EnvPairs | src/cache/hash.rs:56 | iterating an environment map yields each entry once, in some order |
| PipelineExec.ToolNames | src/pipeline/executor.rs:281-300 | the set of tools the stages use |
| PipelineExec.PipelineExecutor.constructor | src/pipeline/executor.rs:55-60 | a new executor has no executors and no cache |
| PipelineExec.PipelineExecutor.RegisterExecutor | src/pipeline/executor.rs:63-65 | a later registration for a tool replaces an earlier one; the cache is unchanged |
| PipelineExec.PipelineExecutor.WithCache | src/pipeline/executor.rs:68-71 | sets the cache and keeps the executors |
| PipelineExec.PipelineExecutor.Execute | src/pipeline/executor.rs:74-196 | the result and the cache entries are those `ExecuteOutcome` defines: the planning error; for a dry run no results, success and the cache untouched; otherwise the run's error or its results and success flag |
| PipelineExec.PipelineExecutor.ExecutePlanned | src/pipeline/executor.rs:74-196 | the same, once the way a stage is attempted is fixed |
| PipelineExec.PipelineExecutor.RunStages | src/pipeline/executor.rs:114-173 | the loop over the stages ends in the state and error the run function defines |
| PipelineExec.PipelineExecutor.RunStage | src/pipeline/executor.rs:115-172 | one iteration of the loop is the step `StepOf` defines, cache entries included |
| PipelineExec.PipelineExecutor.LookupStage | src/pipeline/executor.rs:122-131 | the cache is read only when consulted, and a read error is a miss |
| PipelineExec.PipelineExecutor.StoreStage | src/pipeline/executor.rs:149-155 | a success is stored under its key when the cache is consulted; a store error is ignored |
| PipelineExec.PipelineExecutor.CheckTools | src/pipeline/executor.rs:281-300 | exactly the used tools with no executor or an unavailable one, each reported once |
| Dag.NoEdgesNoCycle | src/pipeline/dag.rs:83-93 | a graph without edges has no cycle |
| Dag.Kahn | src/pipeline/dag.rs:83-129 | repeatedly placing a node whose dependencies are placed ends in a topological order, or in a non-empty set of nodes each waiting on another of the set |
| Dag.TopoSort | src/pipeline/dag.rs:121-129 | an order exists iff the graph has no cycle; it lists every node once after all its dependencies; a failure names a non-empty set of nodes |
| Dag.TopoOrderAcyclic | src/pipeline/dag.rs:83-93 | a graph with a topological order has no cycle |
| Dag.StuckHasCycle | src/pipeline/dag.rs:83-93 | a non-empty set of nodes each waiting on another lies on a cycle |
| Dag.NameIndex | src/pipeline/dag.rs:38-42 | every declared name is looked up, to the last stage declared with it |
| Dag.IndexNames | src/pipeline/dag.rs:38-42 | node i is named by the i-th stage's name |
| Dag.LookupStep | src/pipeline/dag.rs:38-42 | each pass of the node loop adds the stage's name and index to both lookups |
| Dag.IndexStages | src/pipeline/dag.rs:38-42 | the node loop fills both lookups as defined |
| Dag.DepEdges | src/pipeline/dag.rs:48-57 | `depends_on` gives one edge per entry, in list order, iff every entry names a stage; otherwise `UnknownDependency` for the first unknown entry |
| Dag.StageEdges | src/pipeline/dag.rs:45-73 | a stage's edges extend the graph, succeed iff every name it refers to is declared, and then join each such name's node to the stage; an error names the stage and an unknown reference |
| Dag.AddStageEdges | src/pipeline/dag.rs:45-73 | the inner loops add the stage's edges as defined |
| Dag.BuildEdges | src/pipeline/dag.rs:44-73 | every edge joins nodes the name lookup points at |
| Dag.AddAllEdges | src/pipeline/dag.rs:44-73 | the edge loop over the stages adds the edges as defined, stopping at the first unknown reference |
| Dag.ValidateAcyclic | src/pipeline/dag.rs:83-93 | `Ok` iff the graph has no cycle; otherwise `CircularDependency` with a non-empty list of stages |
| Dag.BuildSpec | src/pipeline/dag.rs:34-80 | a built graph is well formed, acyclic, has one node per stage and the name lookup of the stages |
| Dag.Build | src/pipeline/dag.rs:34-80 | the node loop, the edge loop and the acyclicity check compute the graph as defined |
| Dag.TopologicalOrder | src/pipeline/dag.rs:121-129 | an order exists iff there is no cycle, and lists every stage once after its dependencies; otherwise `CircularDependency` with a non-empty list |
| Dag.TopologicalOrderNames | src/pipeline/dag.rs:131-143 | names exist iff there is no cycle, one per stage, spelling a topological order |
| Dag.TopoOrderLength | src/pipeline/dag.rs:121-129 | a topological order of n nodes has exactly n entries |
| Dag.IncomingSources | src/pipeline/dag.rs:146-155 | a node appears iff an edge leads from it to the target |
| Dag.OutgoingTargets | src/pipeline/dag.rs:157-166 | a node appears iff an edge leads to it from the source |
| Dag.NamedNode | src/pipeline/dag.rs:146-166 | on a built graph every node an edge touches has a name that looks back up to it |
| Dag.Dependencies | src/pipeline/dag.rs:146-155 | none iff the name is unknown; otherwise a stage is listed iff an edge leads from it to the named stage |
| Dag.Dependents | src/pipeline/dag.rs:157-166 | none iff the name is unknown; otherwise a stage is listed iff an edge leads to it from the named stage |
| Dag.DependentsMirrorDependencies | src/pipeline/dag.rs:146-166 | x is a dependent of y iff y is a dependency of x |
| Dag.ExploreSound | src/pipeline/dag.rs:168-179 | the breadth-first search collects only nodes reachable from the start |
| Dag.ClosedHoldsReachable | src/pipeline/dag.rs:168-179 | a set closed under edges holds everything reachable from its members |
| Dag.ReachableFrom | src/pipeline/dag.rs:168-179 | the nodes collected are exactly those reachable from the start |
| Dag.DependsOn | src/pipeline/dag.rs:168-179 | true iff both names are declared and the second stage's node reaches the first's (a declared stage reaches itself) |
| Dag.DependsOnTransitive | src/pipeline/dag.rs:168-179 | dependency is transitive |
| Dag.DependsOnAntisymmetric | src/pipeline/dag.rs:168-179 | in an acyclic graph two stages that depend on each other share a node |
| Dag.BuildEdgesUnknown | src/pipeline/dag.rs:44-73 | `build` fails with `UnknownDependency` iff some stage refers to an undeclared name; the error names such a stage and name |
| Dag.BuildEdgesFails | src/pipeline/dag.rs:44-73 | the edges fail iff some stage refers to an undeclared name |
| Dag.BuildEdgesError | src/pipeline/dag.rs:44-73 | the error names a stage and one of its undeclared references |
| Dag.ReferenceGivesEdge | src/pipeline/dag.rs:44-73 | every reference of a stage becomes an edge from the named stage's node into its own |
| Dag.BuildShape | src/pipeline/dag.rs:34-80 | an accepted pipeline's graph has one node per stage, both lookups, and the edges defined |
| Dag.BuildOutcome | src/pipeline/dag.rs:34-80 | `build` succeeds iff every reference is declared and the edges have no cycle; `UnknownDependency` iff some reference is undeclared |
| Dag.CycleRejected | src/pipeline/dag.rs:76-77 | a cycle among the edges makes `build` fail |
| Dag.SelfReferenceRejected | src/pipeline/dag.rs:44-77 | a stage that refers to itself by `depends_on` or `from_stage` makes `build` fail |
| Dag.MutualReferenceRejected | src/pipeline/dag.rs:44-77 | two stages that refer to each other make `build` fail |
| Dag.LastDeclarationWins | src/pipeline/dag.rs:38-42 | with a repeated name, the lookup goes to the last stage declared with it, never an earlier one |
| Dag.StageEdgesOwnNode | src/pipeline/dag.rs:45-73 | into a stage's own node, its contribution adds exactly its references' nodes in order |
| Dag.StageEdgesOtherNode | src/pipeline/dag.rs:45-73 | a stage's contribution adds no edge into another stage's node |
| Dag.ExtraSources | src/pipeline/dag.rs:60-64 | the `from_stage` edge is added iff `depends_on` does not already name the producer |
| Dag.DistinctLookup | src/pipeline/dag.rs:38-42 | with distinct names each stage's name looks up its own index |
| Dag.IncomingOfStage | src/pipeline/dag.rs:44-73 | with distinct names, the edges into a stage come from its references' nodes, in insertion order |
| Dag.DependenciesOfStage | src/pipeline/dag.rs:44-155 | with distinct names, a stage's dependencies are its `depends_on` entries, repeats included, then its producer unless already named, listed last-added first, as the graph library yields neighbours |
| Dag.OrderLine | src/pipeline/dag.rs:233-241 | a line starts with "position. name (tool)" and carries a dependency list iff there are dependencies |
| Dag.ListedDeps | src/pipeline/dag.rs:230 | the dependencies shown, none for an unknown name |
| Dag.RenderStep | src/pipeline/dag.rs:229-243 | appending a stage's line extends the listing of the stages before it |
| Dag.RenderLine | src/pipeline/dag.rs:230-242 | the loop body builds the stage's line |
| Dag.RenderOrder | src/pipeline/dag.rs:229-243 | the loop builds the listing, each line ended by a newline |
| Dag.ToText | src/pipeline/dag.rs:226-246 | fails iff the graph has a cycle; otherwise one newline-ended line per stage in topological order |
| Dag.ListingLines | src/pipeline/dag.rs:226-246 | without newlines in names, the text splits into exactly one line per stage, the k-th numbered k+1 and naming the k-th stage of the order |
| Dag.ExtraProducer | src/pipeline/dag.rs:60-66 | at most one producer, present iff the input names a stage that `depends_on` does not list |
| Dag.FromEdge | src/pipeline/dag.rs:60-73 | the `from_stage` step only adds edges into the stage's own node |
| Dag.DepSources | src/pipeline/dag.rs:48-58 | the `depends_on` edges enter the stage from its dependencies' nodes, in list order |
| Dag.Explore | src/pipeline/dag.rs:177-178 | the search keeps what it visited, stays within the graph, and ends with a set closed under edges |
| Dag.DependenciesAre | src/pipeline/dag.rs:146-155 | the dependencies are the names of the incoming neighbours, most recently added edge first |
| Dag.NamedSources | src/pipeline/dag.rs:146-155 | when the edges into a stage come from a list of references, its dependencies are those references, last first |
| Validation.ValidationResult.constructor | src/pipeline/validation.rs:211-213 | a new result has no errors and no warnings |
| Validation.ValidationResult.AddError | src/pipeline/validation.rs:215-217 | appends the error and leaves the warnings alone |
| Validation.ValidationResult.AddWarning | src/pipeline/validation.rs:219-221 | appends the warning and leaves the errors alone |
| Validation.ValidationResult.IsValid | src/pipeline/validation.rs:223-225 | valid iff there are no errors; warnings play no part |
| Validation.ValidationResult.HasWarnings | src/pipeline/validation.rs:227-229 | true iff there is a warning |
| Validation.NameSet | src/pipeline/validation.rs:28-33 | the set of the stages' names |
| Validation.ValidateCueStage | src/pipeline/validation.rs:123-141 | adds the "vet without schemas" warning exactly for a `vet` stage with no schemas, and no error |
| Validation.ValidateNickelStage | src/pipeline/validation.rs:144-165 | adds the "export without explicit file" warning exactly for an `export` stage with no file whose input is not a pattern, and no error |
| Validation.ValidateTool | src/pipeline/validation.rs:62-86 | adds the tool's errors (an empty shell command) and warnings, as defined |
| Validation.ValidateReference | src/pipeline/validation.rs:88-105 | adds the unknown-stage error for a `from_stage` naming no stage and the implicit-dependency warning when `depends_on` does not list it |
| Validation.ValidatePatterns | src/pipeline/validation.rs:107-119 | adds the empty-pattern or empty-list error, and nothing else |
| Validation.ValidateStage | src/pipeline/validation.rs:61-120 | appends exactly the stage's errors and warnings, in the order the checks run |
| Validation.CheckDuplicateNames | src/pipeline/validation.rs:27-33 | one "Duplicate stage name" error for every stage whose name an earlier stage had, in declaration order |
| Validation.CheckDag | src/pipeline/validation.rs:35-50 | adds the one error the graph build reports, worded by its kind, or nothing when it builds |
| Validation.ValidateStages | src/pipeline/validation.rs:52-55 | the loop appends every stage's errors and warnings in stage order |
| Validation.Validate | src/pipeline/validation.rs:19-58 | always `Ok`, with exactly the errors (no stages, duplicates, graph, per stage) and warnings the specification functions list |
| Validation.ValidationErrors | src/pipeline/validation.rs:19-58 | defines the errors `validate` reports, in order: no stages, duplicate names, graph errors, then each stage's errors; its property is `ValidIff` |
| Validation.ValidationWarnings | src/pipeline/validation.rs:19-58 | defines the warnings `validate` reports: each stage's warnings in stage order |
| Validation.EmptyPipelineInvalid | src/pipeline/validation.rs:22-25 | an empty pipeline has exactly the "no stages" error and no warning |
| Validation.DuplicateCount | src/pipeline/validation.rs:27-33 | there are as many duplicate errors as stages beyond the number of distinct names |
| Validation.NameSetSnoc | src/pipeline/validation.rs:28-33 | adding a stage adds its name to the set |
| Validation.NoDuplicatesIffDistinct | src/pipeline/validation.rs:27-33 | no duplicate error iff the names are distinct |
| Validation.BuildErrorKinds | src/pipeline/validation.rs:35-50 | the graph build only fails with an unknown reference or a cycle, so the catch-all branch is never taken |
| Validation.DagErrorsCount | src/pipeline/validation.rs:35-50 | the graph contributes exactly one error iff it fails to build, never the catch-all message |
| Validation.UnknownReferenceReported | src/pipeline/validation.rs:41-46 | an undeclared reference anywhere draws an unknown-dependency error naming a stage and one of its undeclared references |
| Validation.StageErrorsIff | src/pipeline/validation.rs:61-120 | a stage has no error iff its shell command, if any, is non-empty, its `from_stage`, if any, names a stage, and its pattern or list, if any, is non-empty |
| Validation.DependsOnOnlyWarns | src/pipeline/validation.rs:97-104 | `depends_on` never changes a stage's errors; a `from_stage` it does not list only adds a warning |
| Validation.ToolChecksOnlyWarn | src/pipeline/validation.rs:62-165 | the CUE and Nickel checks only warn; the only tool error is an empty shell command |
| Validation.ValidIff | src/pipeline/validation.rs:19-58 | valid iff there are stages, no repeated name, the graph builds, and every stage passes its own checks |
| Validation.ImplicitDependencyWarned | src/pipeline/validation.rs:97-104 | a `from_stage` that `depends_on` does not list always draws the implicit-dependency warning |
| RsrConfiguration.Default | src/rsr/config.rs:353-364 | version "1", nothing skipped, overridden or excepted, the conflow integration on and the rest off |
| RsrConfiguration.Load | src/rsr/config.rs:251-263 | a missing file loads as the default; a read failure is an `Io` error, a parse failure a `Yaml` error, otherwise the parsed configuration |
| RsrConfiguration.ScanFindsException | src/rsr/config.rs:299-313 | the early-return exception scan answers yes iff some exception for the id has no expiry or a parseable expiry later than now |
| RsrConfiguration.ShouldSkipRules | src/rsr/config.rs:285-316 | skipped iff listed, iff its override says skip, or iff an exception for it still holds; false otherwise |
| RsrConfiguration.ShouldSkip | src/rsr/config.rs:285-316 | defines `should_skip`: the skip list, then an override that skips, then the exceptions in order; its property is `ShouldSkipRules` |
| RsrConfiguration.ExceptionExpiry | src/rsr/config.rs:301-311 | an exception without expiry holds; an unparseable or past expiry does not |
| RsrConfiguration.DocumentedSkips | src/rsr/config.rs:457-482 | the listed id is skipped and another is not; the unexpiring exception skips and the 2020 one does not |
| RsrConfiguration.ClassOverride | src/rsr/config.rs:319-324 | the override's class when the id has an override naming one, `None` otherwise |
| RsrConfiguration.DefaultSkipsNothing | src/rsr/config.rs:353-364 | the default configuration skips no requirement and overrides no class |
| RsrConfiguration.MissingFileIsDefault | src/rsr/config.rs:251-254 | a missing file loads successfully with version "1" |
| Requirements.Weight | src/rsr/requirements.rs:22-30 | every class weighs more than 0 and at most 1 |
| Requirements.WeightFollowsRank | src/rsr/requirements.rs:22-30 | a more important class weighs strictly more, and distinct classes weigh differently |
| Requirements.InsertAllKeyed | src/rsr/requirements.rs:317-326 | inserting requirements under their ids keeps every entry filed under its own id, holds every inserted id and nothing else |
| Requirements.BuiltinsInserted | src/rsr/requirements.rs:156-308 | the four built-in ids are distinct, so the registry built from them holds exactly the four |
| Requirements.Lookup | src/rsr/requirements.rs:329-331 | found iff the id is registered, and then the registered requirement |
| Requirements.WithTag | src/rsr/requirements.rs:339-345 | exactly the registered requirements carrying the tag |
| Requirements.OfClass | src/rsr/requirements.rs:347-353 | exactly the registered requirements of the class |
| Requirements.RequirementRegistry.constructor | src/rsr/requirements.rs:317-326 | the registry holds the built-ins, each under its own id |
| Requirements.RequirementRegistry.Get | src/rsr/requirements.rs:329-331 | the lookup of the id in the registry |
| Requirements.RequirementRegistry.ByTag | src/rsr/requirements.rs:339-345 | the registered requirements carrying the tag |
| Requirements.RequirementRegistry.ByClass | src/rsr/requirements.rs:347-353 | the registered requirements of the class |
| Requirements.RequirementRegistry.Register | src/rsr/requirements.rs:355-357 | files the requirement under its id, replacing any earlier one and keeping every entry under its own id |
| Requirements.RegisterThenGet | src/rsr/requirements.rs:329-357 | after registering, the id finds the new requirement and every other id finds what it found before |
| Requirements.RegisterThenByTag | src/rsr/requirements.rs:339-357 | after registering, the tag query gains the new requirement when it carries the tag and loses at most the one it replaced |
| Requirements.UnknownIdMissing | src/rsr/requirements.rs:329-331 | an id that is not a built-in is not found in a fresh registry |
| Requirements.BuiltinFacts | src/rsr/requirements.rs:391-406 | RSR-CONFIG-002 is preferential and asks for a valid pipeline; every built-in is tagged "config" |
| Compliance.FromScore | src/rsr/compliance.rs:30-40 | non-compliant iff the mandatory requirements are not all met; otherwise excellent from 0.9, good from 0.7, basic below |
| Compliance.FromScoreMonotone | src/rsr/compliance.rs:30-40 | a higher score, or meeting the mandatory requirements, never lowers the level |
| Compliance.FromScoreExamples | src/rsr/compliance.rs:470-488 | 0.95 is excellent, 0.75 good, 0.5 basic, and 0.95 without the mandatory requirements non-compliant |
| Compliance.CheckPattern | src/rsr/compliance.rs:351-372 | a missing file answers "no match"; an error only arises for a present file, a read failure being an `Io` error |
| Compliance.Each | src/rsr/compliance.rs:203-280 | one detail per item, in order |
| Compliance.PushDetails | src/rsr/compliance.rs:203-262 | a loop appends one detail per item and leaves the flag set iff every detail so far passed |
| Compliance.PushDetail | src/rsr/compliance.rs:265-312 | appends the detail and keeps the flag equal to "every detail passed" |
| Compliance.CheckRequirement | src/rsr/compliance.rs:192-347 | the result the specification function gives for the requirement |
| Compliance.Evaluate | src/rsr/compliance.rs:192-347 | defines what `check_requirement` reports: the details of every check, met iff all pass, and remediation text only when unmet; `CheckRequirement` is proved against it |
| Compliance.RunChecks | src/rsr/compliance.rs:198-313 | the details of every section in order, and whether all passed |
| Compliance.RemediationAdvice | src/rsr/compliance.rs:316-337 | the first template's conflow template or name, the manual steps as bullets, then the documentation link |
| Compliance.MetIffChecksHold | src/rsr/compliance.rs:192-347 | met iff every listed file exists, every forbidden file is absent, every pattern answers as expected, the pipeline is valid when asked and the shell check holds; advice iff not met |
| Compliance.ExistsPassed | src/rsr/compliance.rs:203-220 | the existence details all pass iff every listed file is present |
| Compliance.AbsentPassed | src/rsr/compliance.rs:223-240 | the absence details all pass iff no listed file is present |
| Compliance.PatternsPassed | src/rsr/compliance.rs:243-264 | the pattern details all pass iff every check succeeds with the expected answer |
| Compliance.AllPassedSnoc | src/rsr/compliance.rs:198-313 | one more detail keeps "all passed" iff it passed |
| Compliance.AllPassedEach | src/rsr/compliance.rs:198-313 | a section's details all pass iff each item's detail passes |
| Compliance.AllPassedConcat | src/rsr/compliance.rs:198-313 | two sections all pass iff each does |
| Compliance.MissingFilePatternIsAbsent | src/rsr/compliance.rs:357-360 | on a missing file a "must not match" check passes and a "must match" check fails |
| Compliance.OrchestrationRequirement | src/rsr/compliance.rs:490-510 | RSR-CONFIG-002 is not met without `.conflow.yaml` and is met when it is present and valid |
| Compliance.StatsConsistent | src/rsr/compliance.rs:147-176 | the total counts every result; passed plus failed is the total, the classes sum to it, and no class has more passes than results |
| Compliance.MandatoryCounters | src/rsr/compliance.rs:161-180 | the mandatory counters are equal iff every mandatory result was met |
| Compliance.MandatoryMetSnoc | src/rsr/compliance.rs:161-167 | one more outcome keeps the mandatory requirements met iff it is not a failed mandatory one |
| Compliance.CalculateScore | src/rsr/compliance.rs:420-440 | the running sums give the earned share of the known weight, or 1.0 when no weight is known |
| Compliance.EarnedWithinTotal | src/rsr/compliance.rs:420-440 | the earned weight lies between 0 and the total, equals it iff every known result was met, and the total is 0 iff no result is known |
| Compliance.ScoreBounds | src/rsr/compliance.rs:420-440 | the score lies in [0, 1] and is 1.0 iff every known result was met |
| Compliance.Score | src/rsr/compliance.rs:420-440 | defines `calculate_score`: earned over known weight, or 1.0 with no known weight; its property is `ScoreBounds` |
| Compliance.ResultsOf | src/rsr/compliance.rs:143-178 | one result per requirement, in the order the registry yields them |
| Compliance.Check | src/rsr/compliance.rs:139-189 | always `Ok`, carrying every requirement's result in order, the counters over them, their score and the level these give |
| Compliance.Tally | src/rsr/compliance.rs:147-176 | the counters after one more result of the class |
| Compliance.ReportLevel | src/rsr/compliance.rs:179-181 | the level is non-compliant iff some mandatory requirement was not met |
| Compliance.CheckRequirements | src/rsr/compliance.rs:442-456 | always `Ok`, with the results of the known ids in the requested order |
| Compliance.KnownIdsFilter | src/rsr/compliance.rs:449-453 | the kept ids are exactly the requested ones the registry has, in order; all when every id is known, none when none is |
| Compliance.KnownResultsInOrder | src/rsr/compliance.rs:449-453 | one result per known id, in order, each that requirement's result carrying its id |
| Diff.MetMapRecordsLast | src/rsr/diff.rs:159-163 | the map holds exactly the reported ids, each with the outcome of its last result |
| Diff.MetMap | src/rsr/diff.rs:159-163 | defines the id-to-outcome map, a later result replacing an earlier one; its property is `MetMapRecordsLast` |
| Diff.AddedKeepsNewestFirst | src/rsr/diff.rs:173-178 | adding puts the entry first, shifts the others back by one and keeps at most 100 entries, losing none while there is room |
| Diff.Added | src/rsr/diff.rs:173-178 | defines the history after adding: the entry first, then the older entries, cut at the maximum; its property is `AddedKeepsNewestFirst` |
| Diff.DirectionOf | src/rsr/diff.rs:204-209 | new iff there is no previous run; otherwise improved iff the level rose, degraded iff it fell, unchanged iff equal |
| Diff.ScoreChangeOf | src/rsr/diff.rs:212-225 | the delta is the rise over the previous score (over zero without one); the percentage is the delta relative to a positive previous score, else zero |
| Diff.DeltaFollowsScores | src/rsr/diff.rs:215 | the delta is positive iff the score rose and negative iff it fell |
| Diff.Classify | src/rsr/diff.rs:242-251 | new iff only the current run has the id, removed iff only the previous one, fixed iff failing to passing, regressed iff passing to failing, unchanged iff equal; no change iff neither has it |
| Diff.ChangeForKnownIds | src/rsr/diff.rs:238-282 | every id of either run has a change under its own id; removed iff the current run lacks it, and then reported as not met |
| Diff.TallyTotal | src/rsr/diff.rs:254-275 | the total counts every change once and is the six counters plus the removed changes, which no counter records |
| Diff.VisitIds | src/rsr/diff.rs:238-282 | the loop appends, in some order, exactly one change per id that has one, and the summary counts all changes |
| Diff.DiffEntries | src/rsr/diff.rs:200-291 | the diff has both timestamps, the level and score changes, one change per id of either run with the removed ones last, and their summary |
| Diff.ChangesKnown | src/rsr/diff.rs:227-251 | the ids visited are those of either run and each has its own change, removed iff the current run lacks it |
| Diff.Halves | src/rsr/diff.rs:227-236 | the current run's ids and then the previous run's other ids cover every id once, the removed ones last |
| Diff.IdsOfConcat | src/rsr/diff.rs:227-236 | the ids of two change lists together are the union of their ids |
| Diff.VisitStep | src/rsr/diff.rs:238-282 | visiting one more id keeps the loop invariant, adding its change if it has one |
| Diff.TallyStep | src/rsr/diff.rs:254-275 | one more change updates the summary by that change alone |
| Diff.IdsOfSnoc | src/rsr/diff.rs:277-282 | one more change adds its id |
| Diff.DistinctCount | src/rsr/diff.rs:227-236 | changes with distinct ids are as many as their ids |
| Diff.DiffCountsEveryId | src/rsr/diff.rs:227-275 | the summary's total, the number of changes and the number of ids of either run agree |
| Diff.DocumentedDiffs | src/rsr/diff.rs:410-460 | a rising level improves and a falling one degrades; one requirement going from failing to passing is one fix, the reverse one regression |
| Diff.ComplianceHistory.constructor | src/rsr/diff.rs:119-121 | a new history has no entries |
| Diff.ComplianceHistory.AddEntry | src/rsr/diff.rs:158-179 | the entries after adding the report's entry first, capped at 100 |
| Diff.ComplianceHistory.Latest | src/rsr/diff.rs:182-184 | the first entry, absent iff there are none |
| Diff.ComplianceHistory.Previous | src/rsr/diff.rs:187-189 | the second entry, absent iff there are fewer than two |
| Diff.ComplianceHistory.DiffLatest | src/rsr/diff.rs:192-197 | no diff iff the history is empty; otherwise the diff of the latest entry against the previous one |
| Diff.ComplianceHistory.Trend | src/rsr/diff.rs:296-302 | the timestamps and scores of the newest `count` entries, newest first, as many as there are |
| Diff.TrendOf | src/rsr/diff.rs:296-302 | the first `n` entries' timestamps and scores, in order |
| Diff.AddThenLatest | src/rsr/diff.rs:158-189 | after adding, the new entry is the latest and the old latest is the previous |
| Templates.AsStrDistinct | src/rsr/templates.rs:40-52 | every template type has a name of its own |
| Templates.BuiltinOf | src/rsr/templates.rs:136-395 | a built-in template is named after its type and described by the type's description |
| Templates.RegisteredHolds | src/rsr/templates.rs:136-395 | registering built-ins files each under its type's name, under its own name, and nothing else |
| Templates.NameCount | src/rsr/templates.rs:40-52 | a set of types has as many names as members |
| Templates.ReplaceAbsent | src/rsr/templates.rs:462-475 | replacing a pattern a text lacks leaves the text alone |
| Templates.ReplaceSelf | src/rsr/templates.rs:462-475 | replacing a pattern by itself changes nothing |
| Templates.ReplaceFirst | src/rsr/templates.rs:462-475 | the first occurrence is replaced by the value and the scan goes on after it |
| Templates.EnumeratesSize | src/rsr/templates.rs:465 | a list of a set's members, each once, is as long as the set is large |
| Templates.KeysOf | src/rsr/templates.rs:465 | the map's keys, each once, in some order |
| Templates.SubstituteVariables | src/rsr/templates.rs:462-475 | the loop substitutes every variable, its braced form then its dollar form, in the order the map is visited |
| Templates.SubstituteAll | src/rsr/templates.rs:462-475 | defines the substitution of every variable in the given order, braced form then dollar form; its properties are `NoVariablesNoChange` and `SingleVariable` |
| Templates.NoVariablesNoChange | src/rsr/templates.rs:462-475 | without variables the content is unchanged |
| Templates.SingleVariable | src/rsr/templates.rs:462-475 | with one variable, every braced placeholder and then every dollar placeholder becomes its value |
| Templates.WriteFilesPartition | src/rsr/templates.rs:438-456 | every file is created or skipped, never both and never dropped |
| Templates.TargetsOf | src/rsr/templates.rs:439 | each file's full path under the target |
| Templates.PathsOf | src/rsr/templates.rs:442-455 | each file's own path |
| Templates.SkipRule | src/rsr/templates.rs:438-456 | a file is skipped iff it may not be overwritten and its full path existed beforehand or was made, as a directory above an earlier file, by the loop itself; every other file is created |
| Templates.WriteFilesMembers | src/rsr/templates.rs:438-456 | only the files' own paths are created or skipped, and only their full paths written |
| Templates.MakeDirsRule | src/rsr/templates.rs:429-435 | a directory is recorded as created iff its full path neither existed nor was made, with its ancestors, for an earlier directory; only listed directories are recorded |
| Templates.MakeDirsGrows | src/rsr/templates.rs:429-435 | creating directories removes nothing that existed |
| Templates.WithAncestors | src/rsr/templates.rs:432 | `create_dir_all` makes the path and everything above it, and removes nothing |
| Templates.UpClosedWith | src/rsr/templates.rs:432 | paths closed under taking parents stay closed after `create_dir_all` |
| Templates.CoveredCons | src/rsr/templates.rs:429-456 | the paths made for a list are those made for its first path and for the rest |
| Templates.DirTargets | src/rsr/templates.rs:430 | each directory's full path under the target |
| Templates.CreatedWritten | src/rsr/templates.rs:438-456 | every created file's full path holds its rendered content |
| Templates.WriteFilesPresent | src/rsr/templates.rs:438-456 | after the files loop the existing paths are those before plus every file's path and the directories above it |
| Templates.MakeDirsPresent | src/rsr/templates.rs:429-435 | after the directories loop the existing paths are those before plus every listed directory and the directories above it |
| Templates.NestedDirectoryMadeOnce | src/rsr/templates.rs:429-435 | listing "a/b" before "a" records only "a/b", because creating it made "a" |
| Templates.FileAboveEarlierFileSkipped | src/rsr/templates.rs:438-456 | a file at "a" after a file at "a/b" is skipped, because writing "a/b" made the directory "a" |
| Templates.MakeDirs | src/rsr/templates.rs:429-435 | defines the directories loop: a directory whose full path does not exist is created with its ancestors and recorded; its properties are `MakeDirsRule`, `MakeDirsPresent` and `MakeDirsGrows` |
| Templates.WriteFiles | src/rsr/templates.rs:438-456 | defines the files loop: an existing path that may not be overwritten is skipped, any other is written with its rendered content after its parent is created; its properties are `SkipRule`, `CreatedWritten`, `WriteFilesPresent` and `WriteFilesPartition` |
| Templates.Generation | src/rsr/templates.rs:407-459 | defines `generate`: an unknown name fails naming the known templates and writes nothing; otherwise the directories loop, then the files loop over the paths it leaves; its properties are `GenerateOutcome` |
| Templates.TemplateGenerator.constructor | src/rsr/templates.rs:126-133 | the generator holds the built-in templates |
| Templates.TemplateGenerator.Get | src/rsr/templates.rs:397-399 | found iff a template has the name, and then that template |
| Templates.TemplateGenerator.Register | src/rsr/templates.rs:478-480 | the template replaces any of the same name and every template stays under its own name |
| Templates.TemplateGenerator.Generate | src/rsr/templates.rs:407-459 | the outcome and written files `Generation` gives for the order the variables and templates are visited in: an error naming the known templates, or the directories loop and then the files loop run over the paths they leave, each creating missing directories with their ancestors |
| Templates.CreateDirectories | src/rsr/templates.rs:429-435 | the loop records and creates, each missing directory with every directory above it, exactly what `MakeDirs` gives |
| Templates.SkipStep | src/rsr/templates.rs:441-444 | skipping a file that exists and may not be overwritten keeps the loop's account |
| Templates.WriteStep | src/rsr/templates.rs:446-455 | writing a file keeps the loop's account |
| Templates.CreateFiles | src/rsr/templates.rs:438-456 | the loop skips, writes and creates parent directories exactly as `WriteFiles` gives |
| Templates.FreshTargetCreatesAll | src/rsr/templates.rs:438-456 | when no file's full path exists beforehand or lies above an earlier file, every file is created, in order, and none skipped |
| Templates.GenerateOutcome | src/rsr/templates.rs:407-459 | fails iff the template is unknown, naming it and the known ones and writing nothing; otherwise reports its name and every file as created or skipped |
| Templates.RegisterThenGet | src/rsr/templates.rs:478-480 | after registering, the name finds the new template |
| Templates.BuiltinTypesDistinct | src/rsr/templates.rs:136-395 | the built-ins are of eight different types, none custom |
| Templates.BuiltinRegistry | src/rsr/templates.rs:126-133 | a fresh generator has eight templates, one under each built-in type's name, and none named "custom" |
| Templates.BuiltinNames | src/rsr/templates.rs:1070-1078 | at least six templates, among them "cue-validation" and "kubernetes" |
| Executors.Ancestors | src/rsr/remediation.rs:459-465 | every directory it lists lies strictly above the path: what `create_dir_all` makes besides the path itself |
| Executors.AncestorsClosed | src/rsr/templates.rs:432 | the directories above a directory above a path are above the path too |
| Remediation.CreateEnvConfigs | src/rsr/remediation.rs:307-384 | the loop over the three environments does what the specification function gives |
| Remediation.RemediateConfig003 | src/rsr/remediation.rs:252-387 | the environments directory, base, environment files and generation stages, as the specification function gives |
| Remediation.RemediateGeneric | src/rsr/remediation.rs:448-500 | the two loops create the missing required files and remove the present forbidden ones, as the specification function gives |
| Remediation.New | src/rsr/remediation.rs:52-57 | the built-in requirements, changing files |
| Remediation.WithRegistry | src/rsr/remediation.rs:60-65 | the given registry, changing files |
| Remediation.DryRun | src/rsr/remediation.rs:68-71 | only the dry-run flag changes |
| Remediation.Remediation | src/rsr/remediation.rs:74-130 | with file operations that never fail, an error iff the requirement is unknown; without auto-fix a failure with no actions that changes nothing; otherwise success iff every action completed, and an error message iff not a success |
| Remediation.RunRemediation | src/rsr/remediation.rs:98-116 | runs the remediation the requirement id selects, as the specification function gives |
| Remediation.AllDone | src/rsr/remediation.rs:118 | true iff every action completed |
| Remediation.Remediate | src/rsr/remediation.rs:74-130 | the result and file system the specification function gives |
| Remediation.RemediateAll | src/rsr/remediation.rs:503-517 | the results and file system the specification function gives, stopping at the first error |
| Remediation.RemediationsStopAtError | src/rsr/remediation.rs:511-514 | once a prefix fails, the whole run fails with the same error |
| Remediation.IdsOf | src/rsr/remediation.rs:503-517 | the requirement ids of the results, in order |
| Remediation.RemediatesUnmetInOrder | src/rsr/remediation.rs:503-517 | exactly the unmet results are remediated, in order; with file operations that never fail, the run fails iff one of them names an unknown requirement |
| Remediation.DispatchCompletes | src/rsr/remediation.rs:98-118 | every action any remediation takes is completed |
| Remediation.ActCompletes | src/rsr/remediation.rs:133-177 | a guarded action is reported as completed |
| Remediation.Config002Completes | src/rsr/remediation.rs:181-249 | every action of the pipeline remediation is completed |
| Remediation.Config003Completes | src/rsr/remediation.rs:252-387 | every action of the environments remediation is completed |
| Remediation.Config004Completes | src/rsr/remediation.rs:390-445 | every action of the caching remediation is completed |
| Remediation.CreateMissingCompletes | src/rsr/remediation.rs:456-478 | every creation action is completed |
| Remediation.RemovePresentCompletes | src/rsr/remediation.rs:480-497 | every removal action is completed |
| Remediation.EnvConfigsComplete | src/rsr/remediation.rs:307-336 | every environment file action is completed |
| Remediation.AutoFixSucceeds | src/rsr/remediation.rs:118-129 | a known auto-fixable requirement is remediated successfully, with no error message, when file operations never fail |
| Remediation.ActDry | src/rsr/remediation.rs:139-167 | a dry run never changes the file system |
| Remediation.CreateMissingKeeps | src/rsr/remediation.rs:456-478 | creating the missing files leaves alone every path that is none of them and above none of them |
| Remediation.RemovePresentKeeps | src/rsr/remediation.rs:480-497 | removing the present files leaves alone every path that is none of them and below none of them |
| Remediation.CreateMissingActions | src/rsr/remediation.rs:456-478 | one creation per file missing beforehand, in order, when dry or independent; a dry run changes nothing |
| Remediation.RemovePresentActions | src/rsr/remediation.rs:480-497 | one removal per file present beforehand, in order, under the same conditions; a dry run changes nothing |
| Remediation.PresentActionsAgree | src/rsr/remediation.rs:480-497 | the removals depend only on which listed paths exist |
| Remediation.GenericActions | src/rsr/remediation.rs:448-500 | one action per missing required file and per present forbidden file, in order, when dry or independent; a dry run changes nothing |
| Remediation.DryRunCanDiffer | src/rsr/remediation.rs:448-500 | a path both required and forbidden gives two actions in a real run and one in a dry run |
| Remediation.CreateDirKeeps | src/rsr/remediation.rs:461-463 | creating a directory leaves the existence and content of every other path not above it alone |
| Remediation.EnvConfigsKeeps | src/rsr/remediation.rs:307-336 | the environment loop leaves every path other than the environment files alone |
| Remediation.EnvConfigsActions | src/rsr/remediation.rs:307-336 | one action per missing environment file, in order; a dry run changes nothing |
| Remediation.EnvActionsAgree | src/rsr/remediation.rs:307-336 | the environment actions depend only on which environment files exist |
| Remediation.Config001DrySame | src/rsr/remediation.rs:133-178 | the schema remediation reports the same actions dry and real, and dry changes nothing |
| Remediation.Config002DrySame | src/rsr/remediation.rs:181-249 | the pipeline remediation reports the same actions dry and real, and dry changes nothing |
| Remediation.EnvFilesApart | src/rsr/remediation.rs:307-310 | the environment files differ from each other, from the pipeline and from the environments directory, which lies below none of them |
| Remediation.EnvStageDrySame | src/rsr/remediation.rs:307-336 | from runs that agree on the environment files, the environment stage takes the same actions, dry changing nothing and real leaving the pipeline alone |
| Remediation.Config003DrySame | src/rsr/remediation.rs:252-387 | the environments remediation reports the same actions dry and real, and dry changes nothing |
| Remediation.Config004DrySame | src/rsr/remediation.rs:390-445 | the caching remediation reports the same actions dry and real, and dry changes nothing |
| Remediation.Config001 | src/rsr/remediation.rs:133-178 | defines `remediate_config_001`: the schemas directory when missing, then the CUE schema when missing; its properties are `Config001DrySame` and `DispatchCompletes` |
| Remediation.Config002 | src/rsr/remediation.rs:181-249 | defines `remediate_config_002`: the pipeline when missing, then, unless the config directory exists, that directory and an example configuration; its properties are `Config002DrySame` and `Config002Completes` |
| Remediation.Config004 | src/rsr/remediation.rs:390-445 | defines `remediate_config_004`: the cache section appended to an existing pipeline without "cache:", then `.conflow-cache` added to `.gitignore` unless it is there; its properties are `Config004DrySame` and `Config004Completes` |
| Remediation.Generic | src/rsr/remediation.rs:448-500 | defines `remediate_generic`: every missing required file created, then every present forbidden file removed, each write and removal succeeding; its properties are `GenericActions` and `DryRunCanDiffer` |
| Remediation.Dispatch | src/rsr/remediation.rs:98-116 | defines the choice of remediation: the four configuration ids have their own, every other id the generic one; its properties are `DispatchCompletes` and `DispatchDrySame` |
| Remediation.Remediations | src/rsr/remediation.rs:503-517 | defines `remediate_all`: the unmet results remediated in order, the first error ending the run; its properties are `RemediatesUnmetInOrder` and `RemediationsStopAtError` |
| Remediation.DispatchDrySame | src/rsr/remediation.rs:98-116 | for a configuration requirement, or one whose paths are independent, dry and real report the same actions and dry changes nothing |
| Remediation.DryRunReportsSame | src/rsr/remediation.rs:68-130 | under that condition a dry run returns the real run's result and leaves the file system as it was |
| Schemas.Definition | src/rsr/schemas.rs:91-155 | a built-in schema has its own id, is CUE at version 1.0.0, and is inline with its text |
| Schemas.IdsDistinct | src/rsr/schemas.rs:93-144 | the four built-in ids differ |
| Schemas.WithBuiltinsFind | src/rsr/schemas.rs:91-155 | after the built-ins are registered, each is found under its own id |
| Schemas.WithBuiltinsKeep | src/rsr/schemas.rs:91-155 | registering the built-ins adds their four ids and leaves every other id's schema alone |
| Schemas.WithBuiltinsKeyed | src/rsr/schemas.rs:91-155 | registering the built-ins keeps every schema under its own id |
| Schemas.BuiltinsShape | src/rsr/schemas.rs:71-81 | a fresh registry holds exactly four schemas, under "rsr:pipeline", "rsr:requirement", "rsr:config" and "k8s:base", each under its own id |
| Schemas.RsrSchemaRegistry.constructor | src/rsr/schemas.rs:71-81 | the built-in schemas and no cache directory |
| Schemas.RsrSchemaRegistry.WithCache | src/rsr/schemas.rs:84-88 | the built-in schemas with the cache directory set |
| Schemas.RsrSchemaRegistry.RegisterBuiltins | src/rsr/schemas.rs:91-155 | the built-ins replace any schema of the same id; the rest and the cache directory stay |
| Schemas.RsrSchemaRegistry.Get | src/rsr/schemas.rs:158-160 | found iff the id is registered, and then its schema |
| Schemas.RsrSchemaRegistry.GetContent | src/rsr/schemas.rs:163-184 | a missing-file error iff the id is unknown; an inline schema's content, a schema file's text or an `Io` error, and an error for a URL schema |
| Schemas.RsrSchemaRegistry.ByTag | src/rsr/schemas.rs:192-197 | exactly the registered schemas carrying the tag |
| Schemas.RsrSchemaRegistry.Register | src/rsr/schemas.rs:200-202 | the schema replaces any of its id, is then found by it, and nothing else changes |
| Schemas.BuiltinLookups | src/rsr/schemas.rs:450-466 | a fresh registry finds each built-in by id and gives its text as content; an unknown id is an error |
| Schemas.BuiltinValues | src/rsr/schemas.rs:91-155 | a fresh registry holds exactly the four built-in definitions |
| Schemas.BuiltinTags | src/rsr/schemas.rs:468-473 | in a fresh registry exactly the requirement and configuration schemas carry "rsr" |
| Schemas.BuiltinSoleTags | src/rsr/schemas.rs:104-152 | in a fresh registry the pipeline schema is alone under "conflow" and the Kubernetes schema under "kubernetes" |
| Schemas.RegisterThenByTag | src/rsr/schemas.rs:192-202 | after registering, the schema is found under each of its tags and schemas under other ids keep their place |
| Hooks.Success | src/rsr/hooks.rs:64-71 | a succeeding result with the message, no data and no suggestions |
| Hooks.Failure | src/rsr/hooks.rs:73-80 | a failing result with the message, no data and no suggestions |
| Hooks.WithData | src/rsr/hooks.rs:82-85 | sets the data and changes nothing else |
| Hooks.WithSuggestions | src/rsr/hooks.rs:87-90 | replaces the suggestions and changes nothing else |
| Hooks.BuildersCommute | src/rsr/hooks.rs:82-90 | the two builders may be applied in either order with the same outcome |
| Hooks.InitFromTemplateResult | src/rsr/hooks.rs:300-307 | a success with no data, the message "Would initialize '<template>' template in <dir>" and the one suggestion "Run: cd <dir> && conflow init --template <template>" |
| Hooks.RespondSuccess | src/rsr/hooks.rs:374-381 | a version 2.0 response with the result, no error and the request id |
| Hooks.RespondError | src/rsr/hooks.rs:383-394 | a version 2.0 response with the error code and message, no result and the request id |
| Hooks.StringParam | src/rsr/hooks.rs:403-406 | the parameter's string when it is one, else the default |
| Hooks.BoolParam | src/rsr/hooks.rs:417-419 | the parameter's boolean when it is one, else the default |
| Hooks.StringItems | src/rsr/hooks.rs:413-416 | no more items than the array, each a string the array holds |
| Hooks.StringsParam | src/rsr/hooks.rs:413-430 | the strings of an array parameter, and empty when it is absent or not an array |
| Hooks.StringItemsAppend | src/rsr/hooks.rs:415 | keeping the strings distributes over concatenation |
| Hooks.JStrings | src/rsr/hooks.rs:415 | one JSON string per string |
| Hooks.StringItemsAllStrings | src/rsr/hooks.rs:415 | an array of strings reads back as those strings, in order |
| Hooks.StringItemsNoStrings | src/rsr/hooks.rs:415 | an array without strings reads back as nothing |
| Hooks.TriggerFor | src/rsr/hooks.rs:402-446 | no trigger iff the method is not one of the four offered; no method asks to initialise a template |
| Hooks.HandleRequest | src/rsr/hooks.rs:398-458 | an error -32601 naming the method iff it is not offered; otherwise the hook's result as a successful response, with the request id |
| Hooks.UnknownMethodRunsNothing | src/rsr/hooks.rs:440-446 | an unknown method gets error -32601 whatever the hooks would do |
| Hooks.ResultJsonFields | src/rsr/hooks.rs:450-457 | the reported object holds the hook's own success flag, message, data (null when absent) and suggestions |
| Hooks.ReportsHookOutcome | src/rsr/hooks.rs:448-457 | a known method's response is a success carrying the hook's own success flag and message, even when the hook failed |
| Hooks.MissingParamsDefault | src/rsr/hooks.rs:402-439 | without parameters: ".conflow.yaml", no stages, caching on, no requirement filter and "config.yaml" |
| Hooks.NonStringsDropped | src/rsr/hooks.rs:413-416 | entries that are not strings are dropped and the strings keep their order |
| Hooks.NonStringStagesDropped | src/rsr/hooks.rs:408-424 | a run request keeps exactly its string stages, in order |

## Left out

- Process spawning, `which` lookups and version probes: a process's outcome and the binaries found are parameters.
- Real file system I/O: reading, writing, creating and removing files, directory listing and sizes are sets and maps of paths and contents. This covers writing stage outputs, cache entry files, the history and `.rsr.yaml` load and save, template and remediation writes, and `load_from_file`/`load_from_dir`/`write_to_file` in the registries.
- Async execution, locking and progress bars (`indicatif` spinners, colours, printing): the run loop is sequential, as in the source, and only the `StageProgress` state is modelled.
- BLAKE3, glob, regex, serde JSON/YAML and the format parsers of the configuration detector: these are function parameters with no properties assumed beyond what the source relies on.
- Dag.ValidateAcyclic: only states that a cycle is reported with a non-empty list of stages, not which stages `find_cycle_members` lists, because that depends on the graph library's search order.
- Dag.TopologicalOrder: any order that respects the edges and lists every stage once is allowed, because the graph library's tie-break among ready stages is not part of this model; the model computes one by Kahn's algorithm.
- `to_dot` and `to_mermaid` (text renderings of the graph) and CLI command plumbing: presentation only. `to_text`'s listing is modelled.
- `analyze` in the analyzer's `mod.rs` reads a file and then calls the modelled analyses; the file read is not part of this model.
- `validate_files` in the validator checks the file system at run time; it is not part of this model.
- `ComplianceLevel::emoji`/`description` and the compliance notes are modelled as plain text functions without properties.
- Floating point: scores, weights and percentages are exact reals, so f64 rounding is not modelled. CacheTypes.FormatSize states the unit chosen and the scaled value, not the two-decimal text.
- The clock: timestamps and "now" are parameters.
- `StageCondition` and `CacheInvalidation` are declared by the source but never used by the code modelled here.
- Long text constants (template file bodies, remediation file bodies, the built-in schema texts) are parameters; their exact wording does not affect any modelled decision.
- The hooks' own bodies (`validate_pipeline`, `run_pipeline`, `check_compliance`, `analyze_config`) re-run the pipeline, compliance and analyzer code modelled elsewhere, so `handle_request` takes the hook runner as a parameter. Only `init_from_template`, which touches nothing, is modelled on its own. JSON `data` payloads are opaque values.
- Remediation.DryRunReportsSame: dry and real runs report the same actions only for the four configuration requirements, or when a generic requirement's listed paths are independent (no path equals or lies below another). Remediation.DryRunCanDiffer exhibits a requirement where the two differ.
- Diff load, save, `format_text` and `format_json`: file I/O and presentation.
- CacheStore.FilesystemCache.CacheKey: keys a stage with its environment fed in name order (the corrected key of the row under "## Findings"), not in the `HashMap` order `hash_stage` as written uses; the as-written key is `CacheHash.StageFeed` for an arbitrary order, and `CacheHash.EnvOrderChangesStageFeed` shows how it differs. The as-written key depends on an iteration order that can change between runs, so a stored result would not always be found again.
- CacheStore.FilesystemCache.Get: looks entries up under the name-ordered key, as `CacheKey` does.
- CacheStore.FilesystemCache.Store: stores entries under the name-ordered key, as `CacheKey` does.
- CacheStore.FilesystemCache.Invalidate: removes the entry under the name-ordered key, as `CacheKey` does.
- PipelineExec.PipelineExecutor.Execute: consults and fills the cache under the name-ordered key (`PipelineExec.CanonicalKey`), so a stage's entry is found again whatever order its environment map iterates in. Whatever stage runs, its cache key (input glob and file contents), its input glob and its output-existence check see the files as they were when the run began: the source reads the disk again at each stage (src/pipeline/executor.rs:113-171), so an output written by an earlier stage is not seen by a later one, and a consumer of a regenerated file can be answered from a stale cache entry.
- PipelineExec.PipelineExecutor.ExecutePlanned: uses the name-ordered key, as `Execute` does. Every stage's cache key, input glob and output-existence check also see the files as they were when the run began, as for `Execute`.
- PipelineExec.PipelineExecutor.RunStages: uses the name-ordered key, as `Execute` does. Every stage's cache key, input glob and output-existence check also see the files as they were when the run began, as for `Execute`.
- PipelineExec.PipelineExecutor.RunStage: uses the name-ordered key, as `Execute` does. Every stage's cache key, input glob and output-existence check also see the files as they were when the run began, as for `Execute`.
- PipelineExec.PipelineExecutor.LookupStage: looks up under the name-ordered key, as `Execute` does. Every stage's cache key, input glob and output-existence check also see the files as they were when the run began, as for `Execute`.
- PipelineExec.PipelineExecutor.StoreStage: stores under the name-ordered key, as `Execute` does.
- PipelineExec.StepOf: a stage's key, input glob and output check see the files as they were when the run began, not as earlier stages left them; the source reads the disk again at each stage (src/pipeline/executor.rs:113-171), so an output written by an earlier stage is not seen by a later one.
- PipelineExec.RunFrom: carries one view of the files through the whole run, as `StepOf` does, so outputs of earlier stages are not seen by later ones.
- PipelineExec.ExecuteOutcome: every stage sees the files as they were when the run began, as `StepOf` does.
- Remediation.Remediation: file operations never fail. `create_dir_all`, `write`, `read_to_string`, `remove_dir_all` and `remove_file` always succeed on the file-system value: a write below a path that is a file is accepted, a read of a directory gives the empty text, and a path can end up both a file and a directory. The I/O errors `remediate` passes on with `?` (src/rsr/remediation.rs:98-115, 461-468, 485-487) are not modelled, so the result is an error only for an unknown requirement.
- Remediation.RemediatesUnmetInOrder: file operations never fail, as for `Remediation`, so the run fails only for an unknown requirement and not on an I/O error.
- Remediation.AutoFixSucceeds: file operations never fail, as for `Remediation`; in the source an auto-fixable requirement can still end in an I/O error, for example a required file below a path that is a file.
- Remediation.Generic: writes and removals always succeed; creating `a/b` after a file `a` was written succeeds here, where `create_dir_all` fails in the source (src/rsr/remediation.rs:461-468).
- Templates.TemplateGenerator.Generate: `create_dir_all` and `write` always succeed, and the existing paths do not tell files from directories, so the I/O error the source returns when, say, a file is written over a directory is not modelled.
- `RsrConfig::save`, `load_imports` and `generate_default_config`: file I/O and a text template.

## Findings

| source | as written | input that shows it | evidently intended | confidence | as-written member | corrected member |
|---|---|---|---|---|---|---|
| src/cache/hash.rs:56-59 | the cache key feeds the environment variables in `HashMap` iteration order, which varies between map instances and runs | a stage with `env = {A: "1", B: "2"}`: the orders A,B and B,A feed different bytes, so one stage gets two keys and misses its own cache entry | the key depends only on the stage, e.g. with the variables fed in name order | not executed | CacheHash.EnvOrderChangesStageFeed | CacheHash.StageKeyOrderFree |
