/** Compliance checking (src/rsr/compliance.rs): every requirement's checks
    are run against the project, the results are tallied per class, the
    met requirements' weights give a score, and the score and the
    mandatory requirements give the level.

    The project is a `Workspace` of oracles: which paths exist, what a
    read returns, whether a regular expression compiles and matches,
    whether the pipeline file loads and validates, and whether a shell
    command succeeds. */
module Compliance {
  import opened Wrappers
  import opened Strings
  import opened Seqs
  import opened Errors
  import opened Requirements
  import Executors

  // ---------------------------------------------------------------------
  // Levels

  datatype Level = NonCompliant | Basic | Good | Excellent

  /** The derived `Ord`: declaration order. */
  function LevelRank(l: Level): nat {
    match l
    case NonCompliant => 0
    case Basic => 1
    case Good => 2
    case Excellent => 3
  }

  /** `ComplianceLevel::from_score`. */
  function FromScore(score: real, mandatoryMet: bool): (l: Level)
    ensures l == NonCompliant <==> !mandatoryMet
    ensures mandatoryMet ==> (l == Excellent <==> score >= 0.9)
    ensures mandatoryMet ==> (l == Good <==> 0.7 <= score < 0.9)
    ensures mandatoryMet ==> (l == Basic <==> score < 0.7)
  {
    if !mandatoryMet then NonCompliant
    else if score >= 0.9 then Excellent
    else if score >= 0.7 then Good
    else Basic
  }

  /** A higher score never lowers the level, and neither does meeting the
      mandatory requirements. */
  lemma FromScoreMonotone(s1: real, s2: real, m1: bool, m2: bool)
    requires s1 <= s2 && (m1 ==> m2)
    ensures LevelRank(FromScore(s1, m1)) <= LevelRank(FromScore(s2, m2))
  {
  }

  /** The level examples of the module's own tests. */
  lemma FromScoreExamples()
    ensures FromScore(0.95, true) == Excellent
    ensures FromScore(0.75, true) == Good
    ensures FromScore(0.5, true) == Basic
    ensures FromScore(0.95, false) == NonCompliant
  {
  }

  // ---------------------------------------------------------------------
  // The project and the checks

  /** What a check may learn about the project. `regex(pattern, content)`
      is the match, or the message of a pattern that does not compile;
      `conflow` is the outcome of loading and validating `.conflow.yaml`;
      `shell(command)` is whether the command exited successfully. */
  datatype Workspace = Workspace(
    root: string,
    present: set<string>,
    read: string -> Result<string, string>,
    regex: (string, string) -> Result<bool, string>,
    conflow: Result<(), ConflowError>,
    shell: string -> bool)

  /** The name a check is reported under; `Label` spells it. */
  datatype CheckName =
    | FileExistsName(file: string)
    | FileAbsentName(file: string)
    | PatternName(shouldMatch: bool, patternFile: string)
    | ConflowName
    | CueName(schema: string)
    | ShellName(command: string)

  function Label(c: CheckName): string {
    match c
    case FileExistsName(file) => "File exists: " + file
    case FileAbsentName(file) => "File absent: " + file
    case PatternName(shouldMatch, file) => "Pattern " + (if shouldMatch then "matches" else "absent") + " in " + file
    case ConflowName => "conflow pipeline valid"
    case CueName(schema) => "CUE validation: " + schema
    case ShellName(command) => "Shell check: " + command
  }

  /** The extra information a check reports: a note of its own about a
      path, or an error whose display text is shown. */
  datatype Info = ExpectedNotFound(path: string) | ShouldNotExist(path: string) | Failure(error: ConflowError)

  /** The wording of the two notes. */
  function NoteText(i: Info): Option<string> {
    match i
    case ExpectedNotFound(path) => Some("Expected file not found: " + path)
    case ShouldNotExist(path) => Some("File should not exist: " + path)
    case Failure(_) => None
  }

  datatype CheckDetail = CheckDetail(check: CheckName, passed: bool, info: Option<Info>)

  /** One line of remediation advice; `AdviceLine` spells it. */
  datatype Advice = RunTemplate(template: string) | Bullet(step: Text) | See(url: Text)

  function AdviceLine(a: Advice): string {
    match a
    case RunTemplate(template) => "Run: conflow init --template " + template
    case Bullet(step) => "\U{2022} " + Spell(step)
    case See(url) => "See: " + Spell(url)
  }

  /** The advice as the one newline-separated text it is reported as. */
  function AdviceText(lines: seq<Advice>): string {
    Join(MapPrefix(lines, |lines|, AdviceLine), "\n")
  }

  datatype RequirementResult = RequirementResult(
    requirementId: string,
    met: bool,
    details: seq<CheckDetail>,
    remediation: Option<seq<Advice>>)

  function Path(ws: Workspace, file: string): string {
    Executors.JoinPath(ws.root, file)
  }

  /** `check_pattern`: a missing file does not match; otherwise the file
      is read and the pattern compiled, either of which may fail. */
  function CheckPattern(check: PatternCheck, ws: Workspace): (r: Result<bool, ConflowError>)
    ensures Path(ws, check.file) !in ws.present ==> r == Ok(false)
    ensures r.Err? ==> Path(ws, check.file) in ws.present
    ensures r.Err? && ws.read(Path(ws, check.file)).Err? ==> r.error == Io(ws.read(Path(ws, check.file)).error)
  {
    var path := Path(ws, check.file);
    if path !in ws.present then Ok(false)
    else match ws.read(path)
      case Err(message) => Err(Io(message))
      case Ok(content) =>
        match ws.regex(check.pattern, content)
        case Err(message) => Err(InvalidPipeline("Invalid regex pattern: " + message, None))
        case Ok(found) => Ok(found)
  }

  function ExistsDetail(ws: Workspace, file: string): CheckDetail {
    var found := Path(ws, file) in ws.present;
    CheckDetail(FileExistsName(file), found, if !found then Some(ExpectedNotFound(Path(ws, file))) else None)
  }

  function AbsentDetail(ws: Workspace, file: string): CheckDetail {
    var absent := Path(ws, file) !in ws.present;
    CheckDetail(FileAbsentName(file), absent, if !absent then Some(ShouldNotExist(Path(ws, file))) else None)
  }

  function PatternDetail(ws: Workspace, check: PatternCheck): CheckDetail {
    var result := CheckPattern(check, ws);
    CheckDetail(
      PatternName(check.shouldMatch, check.file),
      result.Ok? && result.value == check.shouldMatch,
      if result.Err? then Some(Failure(result.error)) else None)
  }

  function ConflowDetail(ws: Workspace): CheckDetail {
    CheckDetail(ConflowName, ws.conflow.Ok?, if ws.conflow.Err? then Some(Failure(ws.conflow.error)) else None)
  }

  /** `check_cue_validation` always succeeds. */
  function CueDetail(cue: CueValidation): CheckDetail {
    CheckDetail(CueName(cue.schema), true, None)
  }

  function ShellDetail(ws: Workspace, command: string): CheckDetail {
    CheckDetail(ShellName(command), ws.shell(command), None)
  }

  /** The detail functions of the loops, as closures over the project. */
  function ExistsCheck(ws: Workspace): string -> CheckDetail {
    f => ExistsDetail(ws, f)
  }

  function AbsentCheck(ws: Workspace): string -> CheckDetail {
    f => AbsentDetail(ws, f)
  }

  function PatternsCheck(ws: Workspace): PatternCheck -> CheckDetail {
    p => PatternDetail(ws, p)
  }

  function Each<T>(xs: seq<T>, f: T -> CheckDetail): (ds: seq<CheckDetail>)
    ensures |ds| == |xs| && forall i :: 0 <= i < |xs| ==> ds[i] == f(xs[i])
  {
    MapPrefix(xs, |xs|, f)
  }

  /** The details `check_requirement` reports, section by section. */
  function Details(req: Requirement, ws: Workspace): seq<CheckDetail> {
    var v := req.validation;
    Each(v.fileExists, ExistsCheck(ws))
    + Each(v.fileAbsent, AbsentCheck(ws))
    + Each(v.patterns, PatternsCheck(ws))
    + (if v.conflowValid then [ConflowDetail(ws)] else [])
    + Each(v.cueValidate, CueDetail)
    + (if v.shellCheck.Some? then [ShellDetail(ws, v.shellCheck.value)] else [])
  }

  predicate AllPassed(ds: seq<CheckDetail>) {
    forall i :: 0 <= i < |ds| ==> ds[i].passed
  }

  function StepAdvice(step: Text): Advice {
    Bullet(step)
  }

  /** The remediation advice: the first template to run (its conflow
      template, or else its name), the manual steps as bullets, and the
      documentation link. */
  function RemediationLines(req: Requirement): seq<Advice> {
    var r := req.remediation;
    (if r.templates != [] then [RunTemplate(r.templates[0].conflowTemplate.UnwrapOr(r.templates[0].name))] else [])
    + MapPrefix(r.manualSteps, |r.manualSteps|, StepAdvice)
    + (if r.docsUrl.Some? then [See(r.docsUrl.value)] else [])
  }

  /** What `check_requirement` reports for `req`. */
  function Evaluate(req: Requirement, ws: Workspace): RequirementResult {
    var details := Details(req, ws);
    var met := AllPassed(details);
    RequirementResult(req.id, met, details, if met then None else Some(RemediationLines(req)))
  }

  // ---------------------------------------------------------------------
  // `check_requirement`

  /** One `for` loop of `check_requirement`: a detail per item, and the
      running `all_passed` flag cleared by any detail that failed. */
  method PushDetails<T>(details: seq<CheckDetail>, allPassed: bool, items: seq<T>, detail: T -> CheckDetail)
    returns (details': seq<CheckDetail>, allPassed': bool)
    requires allPassed == AllPassed(details)
    ensures details' == details + Each(items, detail)
    ensures allPassed' == AllPassed(details')
  {
    details', allPassed' := details, allPassed;
    for i := 0 to |items|
      invariant details' == details + MapPrefix(items, i, detail)
      invariant allPassed' == AllPassed(details')
    {
      var d := detail(items[i]);
      AllPassedSnoc(details', d);
      details' := details' + [d];
      if !d.passed {
        allPassed' := false;
      }
    }
  }

  /** A single check outside a loop. */
  method PushDetail(details: seq<CheckDetail>, allPassed: bool, d: CheckDetail)
    returns (details': seq<CheckDetail>, allPassed': bool)
    requires allPassed == AllPassed(details)
    ensures details' == details + [d]
    ensures allPassed' == AllPassed(details')
  {
    AllPassedSnoc(details, d);
    details' := details + [d];
    allPassed' := allPassed && d.passed;
  }

  /** `check_requirement`. */
  method CheckRequirement(req: Requirement, ws: Workspace) returns (result: RequirementResult)
    ensures result == Evaluate(req, ws)
  {
    var details, allPassed := RunChecks(req, ws);
    var remediation := None;
    if !allPassed {
      var lines := RemediationAdvice(req);
      remediation := Some(lines);
    }
    result := RequirementResult(req.id, allPassed, details, remediation);
  }

  /** The checks of `check_requirement`, section by section. */
  method RunChecks(req: Requirement, ws: Workspace) returns (details: seq<CheckDetail>, allPassed: bool)
    ensures details == Details(req, ws) && allPassed == AllPassed(details)
  {
    var v := req.validation;
    details, allPassed := [], true;
    details, allPassed := PushDetails(details, allPassed, v.fileExists, ExistsCheck(ws));
    assert details == Each(v.fileExists, ExistsCheck(ws));
    details, allPassed := PushDetails(details, allPassed, v.fileAbsent, AbsentCheck(ws));
    details, allPassed := PushDetails(details, allPassed, v.patterns, PatternsCheck(ws));
    ghost var conflow := if v.conflowValid then [ConflowDetail(ws)] else [];
    if v.conflowValid {
      details, allPassed := PushDetail(details, allPassed, ConflowDetail(ws));
    } else {
      AppendNil(details);
    }
    details, allPassed := PushDetails(details, allPassed, v.cueValidate, CueDetail);
    ghost var shell := if v.shellCheck.Some? then [ShellDetail(ws, v.shellCheck.value)] else [];
    if v.shellCheck.Some? {
      details, allPassed := PushDetail(details, allPassed, ShellDetail(ws, v.shellCheck.value));
    } else {
      AppendNil(details);
    }
  }

  /** The advice lines, built in the order `check_requirement` pushes
      them. */
  method RemediationAdvice(req: Requirement) returns (lines: seq<Advice>)
    ensures lines == RemediationLines(req)
  {
    var r := req.remediation;
    lines := [];
    if r.templates != [] {
      lines := lines + [RunTemplate(r.templates[0].conflowTemplate.UnwrapOr(r.templates[0].name))];
    }
    ghost var head := lines;
    for i := 0 to |r.manualSteps|
      invariant lines == head + MapPrefix(r.manualSteps, i, StepAdvice)
    {
      lines := lines + [Bullet(r.manualSteps[i])];
    }
    if r.docsUrl.Some? {
      lines := lines + [See(r.docsUrl.value)];
    }
  }

  /** A requirement is met exactly when each of its checks holds: every
      listed file exists, every forbidden file is absent, every pattern
      check succeeds with the expected answer, the pipeline is valid when
      asked for, and the shell check succeeds when there is one. Advice is
      given exactly when it is not met. */
  lemma MetIffChecksHold(req: Requirement, ws: Workspace)
    ensures var v := req.validation;
      Evaluate(req, ws).met <==>
        && (forall i :: 0 <= i < |v.fileExists| ==> Path(ws, v.fileExists[i]) in ws.present)
        && (forall i :: 0 <= i < |v.fileAbsent| ==> Path(ws, v.fileAbsent[i]) !in ws.present)
        && (forall i :: 0 <= i < |v.patterns| ==> CheckPattern(v.patterns[i], ws) == Ok(v.patterns[i].shouldMatch))
        && (v.conflowValid ==> ws.conflow.Ok?)
        && (v.shellCheck.Some? ==> ws.shell(v.shellCheck.value))
    ensures Evaluate(req, ws).remediation.Some? <==> !Evaluate(req, ws).met
    ensures Evaluate(req, ws).requirementId == req.id
  {
    var v := req.validation;
    var a := Each(v.fileExists, ExistsCheck(ws));
    var b := Each(v.fileAbsent, AbsentCheck(ws));
    var c := Each(v.patterns, PatternsCheck(ws));
    var d := if v.conflowValid then [ConflowDetail(ws)] else [];
    var e := Each(v.cueValidate, CueDetail);
    var f := if v.shellCheck.Some? then [ShellDetail(ws, v.shellCheck.value)] else [];
    AllPassedConcat(a, b);
    AllPassedConcat(a + b, c);
    AllPassedConcat(a + b + c, d);
    AllPassedConcat(a + b + c + d, e);
    AllPassedConcat(a + b + c + d + e, f);
    assert Evaluate(req, ws).met == AllPassed(a + b + c + d + e + f);
    AllPassedSnoc([], ConflowDetail(ws));
    AllPassedSnoc([], ShellDetail(ws, v.shellCheck.UnwrapOr("")));
    assert AllPassed(d) <==> (v.conflowValid ==> ws.conflow.Ok?);
    assert AllPassed(f) <==> (v.shellCheck.Some? ==> ws.shell(v.shellCheck.value));
    ExistsPassed(ws, v.fileExists);
    AbsentPassed(ws, v.fileAbsent);
    PatternsPassed(ws, v.patterns);
    AllPassedEach(v.cueValidate, CueDetail);
  }

  lemma ExistsPassed(ws: Workspace, files: seq<string>)
    ensures AllPassed(Each(files, ExistsCheck(ws))) <==> forall i :: 0 <= i < |files| ==> Path(ws, files[i]) in ws.present
  {
    AllPassedEach(files, ExistsCheck(ws));
  }

  lemma AbsentPassed(ws: Workspace, files: seq<string>)
    ensures AllPassed(Each(files, AbsentCheck(ws))) <==> forall i :: 0 <= i < |files| ==> Path(ws, files[i]) !in ws.present
  {
    AllPassedEach(files, AbsentCheck(ws));
  }

  lemma PatternsPassed(ws: Workspace, checks: seq<PatternCheck>)
    ensures AllPassed(Each(checks, PatternsCheck(ws))) <==> forall i :: 0 <= i < |checks| ==> CheckPattern(checks[i], ws) == Ok(checks[i].shouldMatch)
  {
    AllPassedEach(checks, PatternsCheck(ws));
  }

  lemma AllPassedSnoc(ds: seq<CheckDetail>, d: CheckDetail)
    ensures AllPassed(ds + [d]) <==> AllPassed(ds) && d.passed
  {
    AllPassedConcat(ds, [d]);
    assert [d][0] == d;
  }

  lemma AllPassedEach<T>(xs: seq<T>, f: T -> CheckDetail)
    ensures AllPassed(Each(xs, f)) <==> forall i :: 0 <= i < |xs| ==> f(xs[i]).passed
  {
  }

  lemma AllPassedConcat(a: seq<CheckDetail>, b: seq<CheckDetail>)
    ensures AllPassed(a + b) <==> AllPassed(a) && AllPassed(b)
  {
    if AllPassed(a) && AllPassed(b) {
      forall i | 0 <= i < |a + b| ensures (a + b)[i].passed {
        if i >= |a| {
          assert (a + b)[i] == b[i - |a|];
        }
      }
    }
    if AllPassed(a + b) {
      forall i | 0 <= i < |a| ensures a[i].passed {
        assert (a + b)[i] == a[i];
      }
      forall i | 0 <= i < |b| ensures b[i].passed {
        assert (a + b)[|a| + i] == b[i];
      }
    }
  }

  /** A pattern check on a missing file answers "no match", so a check
      that the pattern must be absent passes there and one that it must
      match fails. */
  lemma MissingFilePatternIsAbsent(ws: Workspace, check: PatternCheck)
    requires Path(ws, check.file) !in ws.present
    ensures PatternDetail(ws, check).passed <==> !check.shouldMatch
    ensures PatternDetail(ws, check).info == None
  {
  }

  /** In an empty project the orchestration requirement RSR-CONFIG-002 is
      not met, since its pipeline file is missing; with the file present
      and valid it is met. */
  lemma OrchestrationRequirement(ws: Workspace)
    ensures Path(ws, ".conflow.yaml") !in ws.present ==> !Evaluate(Config002(), ws).met
    ensures Path(ws, ".conflow.yaml") in ws.present && ws.conflow.Ok? ==> Evaluate(Config002(), ws).met
  {
    MetIffChecksHold(Config002(), ws);
    assert Config002().validation.fileExists[0] == ".conflow.yaml";
  }

  // ---------------------------------------------------------------------
  // Statistics

  datatype Stats = Stats(
    total: nat, passed: nat, failed: nat,
    mandatoryTotal: nat, mandatoryPassed: nat,
    preferentialTotal: nat, preferentialPassed: nat,
    advisoryTotal: nat, advisoryPassed: nat)

  /** The counters after one more result of class `c`. */
  function Add(s: Stats, c: RequirementClass, met: bool): Stats {
    var m := if met then 1 else 0;
    var s' := s.(total := s.total + 1, passed := s.passed + m, failed := s.failed + 1 - m);
    match c
    case Mandatory => s'.(mandatoryTotal := s.mandatoryTotal + 1, mandatoryPassed := s.mandatoryPassed + m)
    case Preferential => s'.(preferentialTotal := s.preferentialTotal + 1, preferentialPassed := s.preferentialPassed + m)
    case Advisory => s'.(advisoryTotal := s.advisoryTotal + 1, advisoryPassed := s.advisoryPassed + m)
  }

  /** The counters after the results of `outcomes` (each a requirement's
      class and whether it was met), counted in order. */
  function StatsOf(outcomes: seq<(RequirementClass, bool)>): Stats
    decreases |outcomes|
  {
    if outcomes == [] then Stats(0, 0, 0, 0, 0, 0, 0, 0, 0)
    else Add(StatsOf(outcomes[..|outcomes| - 1]), outcomes[|outcomes| - 1].0, outcomes[|outcomes| - 1].1)
  }

  /** The counters agree with each other. */
  ghost predicate Balanced(s: Stats) {
    && s.total == s.passed + s.failed
    && s.total == s.mandatoryTotal + s.preferentialTotal + s.advisoryTotal
    && s.mandatoryPassed <= s.mandatoryTotal
    && s.preferentialPassed <= s.preferentialTotal
    && s.advisoryPassed <= s.advisoryTotal
    && s.passed == s.mandatoryPassed + s.preferentialPassed + s.advisoryPassed
  }

  /** Every result is passed or failed and belongs to one class, and no
      class has more passes than results. */
  lemma {:induction false} StatsConsistent(outcomes: seq<(RequirementClass, bool)>)
    ensures StatsOf(outcomes).total == |outcomes|
    ensures Balanced(StatsOf(outcomes))
    decreases |outcomes|
  {
    if outcomes != [] {
      StatsConsistent(outcomes[..|outcomes| - 1]);
    }
  }

  /** The mandatory requirements are all met exactly when their two
      counters are equal. */
  lemma {:induction false} MandatoryCounters(outcomes: seq<(RequirementClass, bool)>)
    ensures StatsOf(outcomes).mandatoryPassed == StatsOf(outcomes).mandatoryTotal <==>
      forall i :: 0 <= i < |outcomes| && outcomes[i].0 == Mandatory ==> outcomes[i].1
    decreases |outcomes|
  {
    if outcomes != [] {
      var before := outcomes[..|outcomes| - 1];
      var last := outcomes[|outcomes| - 1];
      MandatoryCounters(before);
      StatsConsistent(before);
      MandatoryMetSnoc(before, last);
      assert before + [last] == outcomes;
      var s := StatsOf(before);
      assert StatsOf(outcomes) == Add(s, last.0, last.1);
      if last.0 == Mandatory {
        assert StatsOf(outcomes).mandatoryTotal == s.mandatoryTotal + 1;
        assert StatsOf(outcomes).mandatoryPassed == s.mandatoryPassed + (if last.1 then 1 else 0);
      } else {
        assert StatsOf(outcomes).mandatoryTotal == s.mandatoryTotal;
        assert StatsOf(outcomes).mandatoryPassed == s.mandatoryPassed;
      }
    }
  }

  /** Every mandatory outcome in the list is a pass. */
  ghost predicate MandatoryMet(outcomes: seq<(RequirementClass, bool)>) {
    forall i :: 0 <= i < |outcomes| && outcomes[i].0 == Mandatory ==> outcomes[i].1
  }

  lemma MandatoryMetSnoc(before: seq<(RequirementClass, bool)>, last: (RequirementClass, bool))
    ensures MandatoryMet(before + [last]) <==> MandatoryMet(before) && (last.0 == Mandatory ==> last.1)
  {
    var all := before + [last];
    assert forall i :: 0 <= i < |before| ==> all[i] == before[i];
    assert all[|before|] == last;
  }

  /** A requirement's class and whether it was met. */
  function Outcome(r: Requirement, ws: Workspace): (RequirementClass, bool) {
    (r.reqClass, Evaluate(r, ws).met)
  }

  // ---------------------------------------------------------------------
  // Score

  /** The weight the registry gives a result: that of its requirement's
      class, or nothing for an id the registry does not know. */
  function KnownWeight(m: map<string, Requirement>, r: RequirementResult): real {
    if r.requirementId in m then Weight(m[r.requirementId].reqClass) else 0.0
  }

  function TotalWeight(m: map<string, Requirement>, rs: seq<RequirementResult>): real
    decreases |rs|
  {
    if rs == [] then 0.0 else TotalWeight(m, rs[..|rs| - 1]) + KnownWeight(m, rs[|rs| - 1])
  }

  function EarnedWeight(m: map<string, Requirement>, rs: seq<RequirementResult>): real
    decreases |rs|
  {
    if rs == [] then 0.0
    else EarnedWeight(m, rs[..|rs| - 1]) + (if rs[|rs| - 1].met then KnownWeight(m, rs[|rs| - 1]) else 0.0)
  }

  /** The score of `calculate_score`: the share of the known weight that
      was earned, or 1.0 when no result has a known requirement. */
  function Score(m: map<string, Requirement>, rs: seq<RequirementResult>): real {
    if TotalWeight(m, rs) > 0.0 then EarnedWeight(m, rs) / TotalWeight(m, rs) else 1.0
  }

  /** `calculate_score`: two running sums over the results. */
  method CalculateScore(m: map<string, Requirement>, results: seq<RequirementResult>) returns (score: real)
    ensures score == Score(m, results)
  {
    var total := 0.0;
    var earned := 0.0;
    for i := 0 to |results|
      invariant total == TotalWeight(m, results[..i])
      invariant earned == EarnedWeight(m, results[..i])
    {
      assert results[..i + 1][..i] == results[..i];
      if results[i].requirementId in m {
        var weight := Weight(m[results[i].requirementId].reqClass);
        total := total + weight;
        if results[i].met {
          earned := earned + weight;
        }
      }
    }
    assert results[..|results|] == results;
    score := if total > 0.0 then earned / total else 1.0;
  }

  /** Earned weight never exceeds the total, and equals it exactly when
      every result with a known requirement was met. */
  lemma {:induction false} EarnedWithinTotal(m: map<string, Requirement>, rs: seq<RequirementResult>)
    ensures 0.0 <= EarnedWeight(m, rs) <= TotalWeight(m, rs)
    ensures EarnedWeight(m, rs) == TotalWeight(m, rs) <==> forall i :: 0 <= i < |rs| && rs[i].requirementId in m ==> rs[i].met
    ensures TotalWeight(m, rs) == 0.0 <==> forall i :: 0 <= i < |rs| ==> rs[i].requirementId !in m
    decreases |rs|
  {
    if rs != [] {
      var before := rs[..|rs| - 1];
      EarnedWithinTotal(m, before);
      assert forall i :: 0 <= i < |before| ==> before[i] == rs[i];
    }
  }

  /** The score lies in [0, 1], and is 1.0 exactly when every result with
      a known requirement was met (in particular when there is none). */
  lemma ScoreBounds(m: map<string, Requirement>, rs: seq<RequirementResult>)
    ensures 0.0 <= Score(m, rs) <= 1.0
    ensures Score(m, rs) == 1.0 <==> forall i :: 0 <= i < |rs| && rs[i].requirementId in m ==> rs[i].met
  {
    EarnedWithinTotal(m, rs);
    var t, e := TotalWeight(m, rs), EarnedWeight(m, rs);
    if t > 0.0 {
      assert e / t <= 1.0 by {
        assert e <= t;
      }
      if e / t == 1.0 {
        assert e == (e / t) * t;
      }
    }
  }

  // ---------------------------------------------------------------------
  // `check` and `check_requirements`

  datatype Report = Report(level: Level, score: real, requirements: seq<RequirementResult>, stats: Stats)

  /** `all` lists the registry's requirements, each once, in the
      (unspecified) order the registry yields them. */
  ghost predicate Enumerates(all: seq<Requirement>, m: map<string, Requirement>) {
    && (forall i :: 0 <= i < |all| ==> all[i].id in m && m[all[i].id] == all[i])
    && (forall i, j :: 0 <= i < j < |all| ==> all[i].id != all[j].id)
    && (forall id :: id in m ==> exists i :: 0 <= i < |all| && all[i].id == id)
  }

  /** The results `check` collects. */
  function ResultsOf(all: seq<Requirement>, ws: Workspace): (rs: seq<RequirementResult>)
    ensures |rs| == |all| && forall i :: 0 <= i < |all| ==> rs[i] == Evaluate(all[i], ws)
  {
    MapPrefix(all, |all|, EvaluateIn(ws))
  }

  function OutcomesOf(all: seq<Requirement>, ws: Workspace): seq<(RequirementClass, bool)> {
    MapPrefix(all, |all|, OutcomeIn(ws))
  }

  function EvaluateIn(ws: Workspace): Requirement -> RequirementResult {
    r => Evaluate(r, ws)
  }

  function OutcomeIn(ws: Workspace): Requirement -> (RequirementClass, bool) {
    r => Outcome(r, ws)
  }

  /** `check`: every requirement of the registry is checked once; the
      report carries the results in that order, the counters over them,
      their score and the level these give. */
  method Check(m: map<string, Requirement>, all: seq<Requirement>, ws: Workspace) returns (r: Result<Report, ConflowError>)
    requires Enumerates(all, m)
    ensures r.Ok?
    ensures r.value.requirements == ResultsOf(all, ws)
    ensures r.value.stats == StatsOf(OutcomesOf(all, ws))
    ensures r.value.score == Score(m, ResultsOf(all, ws))
    ensures r.value.level == FromScore(r.value.score, r.value.stats.mandatoryPassed == r.value.stats.mandatoryTotal)
  {
    var results: seq<RequirementResult> := [];
    var stats := Stats(0, 0, 0, 0, 0, 0, 0, 0, 0);
    for i := 0 to |all|
      invariant results == MapPrefix(all, i, EvaluateIn(ws))
      invariant stats == StatsOf(MapPrefix(all, i, OutcomeIn(ws)))
    {
      var requirement := all[i];
      var result := CheckRequirement(requirement, ws);
      stats := Tally(stats, requirement.reqClass, result.met);
      ghost var outcomes := MapPrefix(all, i + 1, OutcomeIn(ws));
      assert outcomes[..i] == MapPrefix(all, i, OutcomeIn(ws));
      results := results + [result];
    }
    var score := CalculateScore(m, results);
    var mandatoryMet := stats.mandatoryPassed == stats.mandatoryTotal;
    var level := FromScore(score, mandatoryMet);
    r := Ok(Report(level, score, results, stats));
  }

  /** The counter updates of one iteration of `check`. */
  method Tally(stats: Stats, c: RequirementClass, met: bool) returns (s: Stats)
    ensures s == Add(stats, c, met)
  {
    s := stats.(total := stats.total + 1);
    if met {
      s := s.(passed := s.passed + 1);
    } else {
      s := s.(failed := s.failed + 1);
    }
    match c {
      case Mandatory =>
        s := s.(mandatoryTotal := s.mandatoryTotal + 1);
        if met {
          s := s.(mandatoryPassed := s.mandatoryPassed + 1);
        }
      case Preferential =>
        s := s.(preferentialTotal := s.preferentialTotal + 1);
        if met {
          s := s.(preferentialPassed := s.preferentialPassed + 1);
        }
      case Advisory =>
        s := s.(advisoryTotal := s.advisoryTotal + 1);
        if met {
          s := s.(advisoryPassed := s.advisoryPassed + 1);
        }
    }
  }

  /** The report's level is non-compliant exactly when some mandatory
      requirement was not met. */
  lemma ReportLevel(all: seq<Requirement>, ws: Workspace, score: real)
    ensures var s := StatsOf(OutcomesOf(all, ws));
      FromScore(score, s.mandatoryPassed == s.mandatoryTotal) == NonCompliant <==>
        exists i :: 0 <= i < |all| && all[i].reqClass == Mandatory && !Evaluate(all[i], ws).met
  {
    var outcomes := OutcomesOf(all, ws);
    MandatoryCounters(outcomes);
    if exists i :: 0 <= i < |all| && all[i].reqClass == Mandatory && !Evaluate(all[i], ws).met {
      var i :| 0 <= i < |all| && all[i].reqClass == Mandatory && !Evaluate(all[i], ws).met;
      assert outcomes[i] == Outcome(all[i], ws);
    }
  }

  /** The results `check_requirements` returns: those of the requested
      ids the registry knows, in the requested order. */
  function KnownResults(m: map<string, Requirement>, ids: seq<string>, ws: Workspace): seq<RequirementResult>
    decreases |ids|
  {
    if ids == [] then []
    else
      var id := ids[|ids| - 1];
      KnownResults(m, ids[..|ids| - 1], ws) + (if id in m then [Evaluate(m[id], ws)] else [])
  }

  /** `check_requirements`: unknown ids are skipped without error. */
  method CheckRequirements(m: map<string, Requirement>, ids: seq<string>, ws: Workspace)
    returns (r: Result<seq<RequirementResult>, ConflowError>)
    ensures r == Ok(KnownResults(m, ids, ws))
  {
    var results := [];
    for i := 0 to |ids|
      invariant results == KnownResults(m, ids[..i], ws)
    {
      assert ids[..i + 1][..i] == ids[..i];
      if ids[i] in m {
        var result := CheckRequirement(m[ids[i]], ws);
        results := results + [result];
      }
    }
    assert ids[..|ids|] == ids;
    r := Ok(results);
  }

  /** The requested ids the registry knows, in the requested order. */
  function KnownIds(m: map<string, Requirement>, ids: seq<string>): seq<string>
    decreases |ids|
  {
    if ids == [] then []
    else
      var id := ids[|ids| - 1];
      KnownIds(m, ids[..|ids| - 1]) + (if id in m then [id] else [])
  }

  /** The known ids are exactly the requested ids the registry has, in
      order: all of them when every id is known, none when none is. */
  lemma {:induction false} KnownIdsFilter(m: map<string, Requirement>, ids: seq<string>)
    ensures forall x :: x in KnownIds(m, ids) <==> x in ids && x in m
    ensures |KnownIds(m, ids)| <= |ids|
    ensures (forall i :: 0 <= i < |ids| ==> ids[i] in m) ==> KnownIds(m, ids) == ids
    ensures (forall i :: 0 <= i < |ids| ==> ids[i] !in m) ==> KnownIds(m, ids) == []
    decreases |ids|
  {
    if ids != [] {
      var before := ids[..|ids| - 1];
      KnownIdsFilter(m, before);
      assert ids == before + [ids[|ids| - 1]];
      assert forall i :: 0 <= i < |before| ==> before[i] == ids[i];
    }
  }

  /** One result per known id, in order, each that requirement's result
      and so carrying that id. */
  lemma {:induction false} KnownResultsInOrder(m: map<string, Requirement>, ids: seq<string>, ws: Workspace)
    requires Keyed(m)
    ensures forall x :: x in KnownIds(m, ids) ==> x in m
    ensures |KnownResults(m, ids, ws)| == |KnownIds(m, ids)|
    ensures forall i :: 0 <= i < |KnownIds(m, ids)| ==>
      KnownResults(m, ids, ws)[i] == Evaluate(m[KnownIds(m, ids)[i]], ws)
      && KnownResults(m, ids, ws)[i].requirementId == KnownIds(m, ids)[i]
    decreases |ids|
  {
    KnownIdsFilter(m, ids);
    if ids != [] {
      var before, id := ids[..|ids| - 1], ids[|ids| - 1];
      KnownResultsInOrder(m, before, ws);
      var results, known := KnownResults(m, before, ws), KnownIds(m, before);
      if id in m {
        var r := Evaluate(m[id], ws);
        assert KnownResults(m, ids, ws) == results + [r];
        assert KnownIds(m, ids) == known + [id];
        assert r.requirementId == id;
        forall i | 0 <= i < |known| + 1
          ensures (results + [r])[i] == Evaluate(m[(known + [id])[i]], ws)
          ensures (results + [r])[i].requirementId == (known + [id])[i]
        {
          if i < |known| {
            assert (results + [r])[i] == results[i];
            assert (known + [id])[i] == known[i];
          }
        }
      } else {
        AppendNil(results);
        AppendNil(known);
      }
    }
  }
}
