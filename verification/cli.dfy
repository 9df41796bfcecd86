/** The pure helpers of the command line: the age of a cache entry as
    shown by `cache list` (src/cli/cache.rs) and the case-insensitive
    parsers of the output and graph formats (src/cli/mod.rs). */
module Cli {
  import opened Wrappers
  import opened Strings

  // ---------------------------------------------------------------------
  // `format_duration`

  const NanosPerSecond: nat := 1_000_000_000

  datatype TimeUnit = Seconds | Minutes | Hours | Days

  function UnitSeconds(u: TimeUnit): nat {
    match u
    case Seconds => 1
    case Minutes => 60
    case Hours => 3600
    case Days => 86400
  }

  function UnitSuffix(u: TimeUnit): char {
    match u
    case Seconds => 's'
    case Minutes => 'm'
    case Hours => 'h'
    case Days => 'd'
  }

  /** The unit a duration of `secs` whole seconds is shown in and the
      count of it: the largest unit the duration reaches, counted in whole
      units. */
  function DurationParts(secs: nat): (parts: (nat, TimeUnit))
    ensures var (n, u) := parts;
      n * UnitSeconds(u) <= secs < (n + 1) * UnitSeconds(u)
    ensures var (n, u) := parts;
      (u == Seconds <==> secs < 60) && (u == Days <==> secs >= 86400)
      && (u == Minutes <==> 60 <= secs < 3600)
    ensures parts.1 != Seconds ==> parts.0 >= 1
    ensures parts.1 != Days ==> parts.0 < (if parts.1 == Hours then 24 else 60)
  {
    if secs < 60 then (secs, Seconds)
    else if secs < 3600 then (secs / 60, Minutes)
    else if secs < 86400 then (secs / 3600, Hours)
    else (secs / 86400, Days)
  }

  /** `format_duration`: the count followed by the unit's letter; only
      whole seconds (`as_secs`) are considered. The digits before the
      letter read back as the count, without a leading zero. */
  function FormatDuration(nanos: nat): (r: string)
    ensures |r| >= 2 && r[|r| - 1] == UnitSuffix(DurationParts(nanos / NanosPerSecond).1)
    ensures forall i :: 0 <= i < |r| - 1 ==> '0' <= r[i] <= '9'
    ensures DecimalValue(r[..|r| - 1]) == DurationParts(nanos / NanosPerSecond).0
    ensures |r| > 2 ==> r[0] != '0'
  {
    var (n, u) := DurationParts(nanos / NanosPerSecond);
    NatToStringValue(n);
    assert (NatToString(n) + [UnitSuffix(u)])[..|NatToString(n)|] == NatToString(n);
    NatToString(n) + [UnitSuffix(u)]
  }

  /** The sub-second part of a duration never shows. */
  lemma SubSecondIgnored(nanos: nat, extra: nat)
    requires extra < NanosPerSecond
    ensures FormatDuration(nanos - nanos % NanosPerSecond + extra) == FormatDuration(nanos)
  {
    var whole := nanos - nanos % NanosPerSecond;
    assert whole == (nanos / NanosPerSecond) * NanosPerSecond;
    assert (whole + extra) / NanosPerSecond == nanos / NanosPerSecond;
  }

  // ---------------------------------------------------------------------
  // `OutputFormat::from_str` and `GraphFormat::from_str`

  datatype OutputFormat = TextOutput | JsonOutput
  datatype GraphFormat = TextGraph | Dot | Mermaid

  /** The lower-case spelling each format is accepted under. */
  function OutputFormatName(f: OutputFormat): string {
    match f
    case TextOutput => "text"
    case JsonOutput => "json"
  }

  function GraphFormatName(f: GraphFormat): string {
    match f
    case TextGraph => "text"
    case Dot => "dot"
    case Mermaid => "mermaid"
  }

  /** `OutputFormat::from_str`: the input lower-cased must spell a format;
      anything else is rejected with a message quoting the input as
      given. */
  function ParseOutputFormat(s: string): (r: Result<OutputFormat, string>)
    ensures r.Ok? <==> ToLower(s) == "text" || ToLower(s) == "json"
    ensures r.Ok? ==> OutputFormatName(r.value) == ToLower(s)
    ensures r.Err? ==> r.error == "Unknown output format: " + s
  {
    var l := ToLower(s);
    if l == "text" then Ok(TextOutput)
    else if l == "json" then Ok(JsonOutput)
    else Err("Unknown output format: " + s)
  }

  /** `GraphFormat::from_str`, in the same way. */
  function ParseGraphFormat(s: string): (r: Result<GraphFormat, string>)
    ensures r.Ok? <==> ToLower(s) == "text" || ToLower(s) == "dot" || ToLower(s) == "mermaid"
    ensures r.Ok? ==> GraphFormatName(r.value) == ToLower(s)
    ensures r.Err? ==> r.error == "Unknown graph format: " + s
  {
    var l := ToLower(s);
    if l == "text" then Ok(TextGraph)
    else if l == "dot" then Ok(Dot)
    else if l == "mermaid" then Ok(Mermaid)
    else Err("Unknown graph format: " + s)
  }

  lemma ToLowerIdempotent(s: string)
    ensures ToLower(ToLower(s)) == ToLower(s)
  {
  }

  /** Each format's own name parses back to it, and so does the same name
      in any mix of case. */
  lemma ParseRoundTrip(o: OutputFormat, g: GraphFormat, s: string)
    ensures ParseOutputFormat(OutputFormatName(o)) == Ok(o)
    ensures ParseGraphFormat(GraphFormatName(g)) == Ok(g)
    ensures ToLower(s) == OutputFormatName(o) ==> ParseOutputFormat(s) == Ok(o)
    ensures ToLower(s) == GraphFormatName(g) ==> ParseGraphFormat(s) == Ok(g)
  {
    LowerFixed(OutputFormatName(o));
    LowerFixed(GraphFormatName(g));
  }

  /** A string without upper-case letters is its own lower-case form. */
  lemma LowerFixed(s: string)
    requires forall i :: 0 <= i < |s| ==> !('A' <= s[i] <= 'Z')
    ensures ToLower(s) == s
  {
  }

  /** Parsing ignores case. */
  lemma ParseIgnoresCase(s: string)
    ensures ParseOutputFormat(ToLower(s)).Ok? == ParseOutputFormat(s).Ok?
    ensures ParseGraphFormat(ToLower(s)).Ok? == ParseGraphFormat(s).Ok?
    ensures ParseOutputFormat(s).Ok? ==> ParseOutputFormat(ToLower(s)) == ParseOutputFormat(s)
    ensures ParseGraphFormat(s).Ok? ==> ParseGraphFormat(ToLower(s)) == ParseGraphFormat(s)
  {
    ToLowerIdempotent(s);
  }
}
