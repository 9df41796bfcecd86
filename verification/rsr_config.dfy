/** Per-project RSR configuration (src/rsr/config.rs): which requirements
    to skip, class overrides, exceptions with an optional expiry, and the
    defaults a missing `.rsr.yaml` stands for.

    The clock and the RFC 3339 parser are given: `Clock.now` is the
    current instant and `Clock.parse` the instant a timestamp denotes, if
    it is one. */
module RsrConfiguration {
  import opened Wrappers
  import opened Errors
  import opened Requirements

  datatype ProjectConfig = ProjectConfig(
    name: Option<string>,
    description: Option<string>,
    tier: Option<nat>,
    tags: seq<string>)

  datatype RequirementOverride = RequirementOverride(
    reqClass: Option<RequirementClass>,
    skip: bool,
    reason: Option<string>)

  datatype RequirementsConfig = RequirementsConfig(
    skip: seq<string>,
    custom: seq<Requirement>,
    overrides: map<string, RequirementOverride>,
    imports: seq<string>)

  datatype CiProvider = GitHub | GitLab | Jenkins | CircleCI | Travis | Azure

  datatype ConflowIntegration = ConflowIntegration(enabled: bool, pipeline: Option<string>, runBeforeCheck: bool)

  datatype CiIntegration = CiIntegration(
    provider: Option<CiProvider>,
    config: Option<string>,
    failOnNoncompliant: bool,
    generateBadges: bool)

  datatype NotificationSettings = NotificationSettings(
    onRegression: bool,
    onImprovement: bool,
    slackWebhook: Option<string>,
    emails: seq<string>)

  datatype IntegrationsConfig = IntegrationsConfig(
    conflow: ConflowIntegration,
    ci: CiIntegration,
    notifications: NotificationSettings)

  datatype TargetLevel = Basic | Good | Excellent

  datatype ComplianceException = ComplianceException(
    requirement: string,
    reason: string,
    expires: Option<string>,
    approvedBy: Option<string>)

  datatype ComplianceConfig = ComplianceConfig(
    targetLevel: Option<TargetLevel>,
    exceptions: seq<ComplianceException>,
    trackHistory: bool,
    historyFile: Option<string>)

  datatype SchemaReference = SchemaReference(id: string, path: string, schemaType: Option<string>)

  datatype RsrConfig = RsrConfig(
    version: string,
    project: ProjectConfig,
    requirements: RequirementsConfig,
    integrations: IntegrationsConfig,
    compliance: ComplianceConfig,
    schemas: seq<SchemaReference>)

  datatype Clock = Clock(now: int, parse: string -> Option<int>)

  // ---------------------------------------------------------------------
  // Defaults

  const DefaultVersion := "1"

  /** The configuration a project without `.rsr.yaml` has: version "1",
      nothing skipped, overridden or excepted, the conflow integration on
      and everything else off or absent. */
  function Default(): (c: RsrConfig)
    ensures c.version == "1"
    ensures c.requirements.skip == [] && c.requirements.overrides == map[] && c.compliance.exceptions == []
    ensures c.requirements.custom == [] && c.requirements.imports == [] && c.schemas == []
    ensures c.integrations.conflow.enabled && !c.integrations.conflow.runBeforeCheck
    ensures !c.integrations.ci.failOnNoncompliant && !c.integrations.ci.generateBadges
    ensures !c.compliance.trackHistory && c.compliance.targetLevel.None?
  {
    RsrConfig(
      DefaultVersion,
      ProjectConfig(None, None, None, []),
      RequirementsConfig([], [], map[], []),
      IntegrationsConfig(
        ConflowIntegration(true, None, false),
        CiIntegration(None, None, false, false),
        NotificationSettings(false, false, None, [])),
      ComplianceConfig(None, [], false, None),
      [])
  }

  /** `load`: a missing file is the default; otherwise the file is read
      and parsed as YAML, either of which may fail. */
  function Load(present: bool, read: Result<string, string>, parse: string -> Result<RsrConfig, string>): (r: Result<RsrConfig, ConflowError>)
    ensures !present ==> r == Ok(Default())
    ensures present && read.Err? ==> r == Err(Io(read.error))
    ensures present && read.Ok? && parse(read.value).Err? ==> r == Err(Yaml(parse(read.value).error))
    ensures present && read.Ok? && parse(read.value).Ok? ==> r == Ok(parse(read.value).value)
  {
    if !present then Ok(Default())
    else match read
      case Err(message) => Err(Io(message))
      case Ok(content) =>
        match parse(content)
        case Err(message) => Err(Yaml(message))
        case Ok(config) => Ok(config)
  }

  // ---------------------------------------------------------------------
  // Skipping

  /** An exception for `id` that still holds: it has no expiry, or its
      expiry parses to an instant after now. */
  predicate ExceptionHolds(e: ComplianceException, id: string, clock: Clock) {
    && e.requirement == id
    && match e.expires
       case None => true
       case Some(expires) => clock.parse(expires).Some? && clock.parse(expires).value > clock.now
  }

  /** The exception loop of `should_skip`: the first exception that holds
      ends the scan. */
  function ScanExceptions(exceptions: seq<ComplianceException>, id: string, clock: Clock): bool
    decreases |exceptions|
  {
    exceptions != [] && (ExceptionHolds(exceptions[0], id, clock) || ScanExceptions(exceptions[1..], id, clock))
  }

  /** The scan answers yes exactly when some exception holds. */
  lemma {:induction false} ScanFindsException(exceptions: seq<ComplianceException>, id: string, clock: Clock)
    ensures ScanExceptions(exceptions, id, clock) <==> exists i :: 0 <= i < |exceptions| && ExceptionHolds(exceptions[i], id, clock)
    decreases |exceptions|
  {
    if exceptions != [] {
      ScanFindsException(exceptions[1..], id, clock);
      if ScanExceptions(exceptions[1..], id, clock) {
        var i :| 0 <= i < |exceptions[1..]| && ExceptionHolds(exceptions[1..][i], id, clock);
        assert exceptions[i + 1] == exceptions[1..][i];
      }
      if exists i :: 0 <= i < |exceptions| && ExceptionHolds(exceptions[i], id, clock) {
        var i :| 0 <= i < |exceptions| && ExceptionHolds(exceptions[i], id, clock);
        if i > 0 {
          assert exceptions[1..][i - 1] == exceptions[i];
        }
      }
    }
  }

  /** `should_skip`: the skip list, then a skipping override, then the
      exceptions. */
  function ShouldSkip(config: RsrConfig, id: string, clock: Clock): bool {
    var reqs := config.requirements;
    if id in reqs.skip then true
    else if id in reqs.overrides && reqs.overrides[id].skip then true
    else ScanExceptions(config.compliance.exceptions, id, clock)
  }

  /** A requirement is skipped exactly when it is listed, when its override
      says so, or when an exception for it holds. */
  lemma ShouldSkipRules(config: RsrConfig, id: string, clock: Clock)
    ensures ShouldSkip(config, id, clock) <==>
      || id in config.requirements.skip
      || (id in config.requirements.overrides && config.requirements.overrides[id].skip)
      || exists i :: 0 <= i < |config.compliance.exceptions| && ExceptionHolds(config.compliance.exceptions[i], id, clock)
  {
    ScanFindsException(config.compliance.exceptions, id, clock);
  }

  /** An exception without an expiry always holds; one whose expiry does
      not parse, or is not after now, never does. */
  lemma ExceptionExpiry(e: ComplianceException, clock: Clock)
    ensures e.expires.None? ==> ExceptionHolds(e, e.requirement, clock)
    ensures e.expires.Some? && clock.parse(e.expires.value).None? ==> !ExceptionHolds(e, e.requirement, clock)
    ensures e.expires.Some? && clock.parse(e.expires.value).Some? && clock.parse(e.expires.value).value <= clock.now ==>
      !ExceptionHolds(e, e.requirement, clock)
  {
  }

  /** The module's own tests: a listed id is skipped and another is not;
      an exception without expiry skips and an expired one does not. */
  lemma DocumentedSkips(clock: Clock)
    requires clock.parse("2020-01-01T00:00:00Z").Some? && clock.parse("2020-01-01T00:00:00Z").value <= clock.now
    ensures var d := Default();
      var listed := d.(requirements := d.requirements.(skip := ["RSR-CONFIG-003"]));
      ShouldSkip(listed, "RSR-CONFIG-003", clock) && !ShouldSkip(listed, "RSR-CONFIG-001", clock)
    ensures var d := Default();
      var excepted := d.(compliance := d.compliance.(exceptions := [
        ComplianceException("RSR-001", "Test", None, None),
        ComplianceException("RSR-002", "Test", Some("2020-01-01T00:00:00Z"), None)]));
      ShouldSkip(excepted, "RSR-001", clock) && !ShouldSkip(excepted, "RSR-002", clock)
  {
    var d := Default();
    var excepted := d.(compliance := d.compliance.(exceptions := [
      ComplianceException("RSR-001", "Test", None, None),
      ComplianceException("RSR-002", "Test", Some("2020-01-01T00:00:00Z"), None)]));
    ShouldSkipRules(excepted, "RSR-002", clock);
  }

  // ---------------------------------------------------------------------
  // Class overrides

  /** `class_override`: the class of the requirement's override, if it has
      one that names a class. */
  function ClassOverride(config: RsrConfig, id: string): (r: Option<RequirementClass>)
    ensures r.Some? <==> id in config.requirements.overrides && config.requirements.overrides[id].reqClass.Some?
    ensures r.Some? ==> r == config.requirements.overrides[id].reqClass
  {
    var overrides := config.requirements.overrides;
    if id in overrides then overrides[id].reqClass else None
  }

  /** The default configuration skips nothing and overrides nothing. */
  lemma DefaultSkipsNothing(id: string, clock: Clock)
    ensures !ShouldSkip(Default(), id, clock)
    ensures ClassOverride(Default(), id).None?
  {
  }

  /** A missing configuration file loads as the default, version "1". */
  lemma MissingFileIsDefault(read: Result<string, string>, parse: string -> Result<RsrConfig, string>)
    ensures Load(false, read, parse).Ok?
    ensures Load(false, read, parse).value.version == "1"
  {
  }
}
