/** Configuration format detection (src/analyzer/config_detector.rs): a
    known file extension decides; otherwise the content is inspected, with
    the JSON, TOML and YAML parsers given as predicates that say whether
    the text parses. */
module ConfigDetector {
  import opened Wrappers
  import opened Strings
  import PathOrder
  import Errors

  datatype ConfigFormat = Json | Yaml | Toml | Cue | Nickel | Unknown

  /** Whether a text parses as JSON, TOML or YAML. */
  datatype Parsers = Parsers(json: string -> bool, toml: string -> bool, yaml: string -> bool)

  /** `Path::file_name`: the last component when it is a normal name. */
  function FileName(path: string): Option<string> {
    var cs := PathOrder.Components(path);
    if cs != [] && cs[|cs| - 1].Normal? then Some(cs[|cs| - 1].name) else None
  }

  /** Index of the last `c` in `s`, if any. */
  function LastIndexOf(s: string, c: char): (k: Option<nat>)
    ensures k.Some? ==> k.value < |s| && s[k.value] == c
    ensures k.Some? ==> forall j :: k.value < j < |s| ==> s[j] != c
    ensures k.None? <==> c !in s
  {
    if s == [] then None
    else if s[|s| - 1] == c then Some(|s| - 1)
    else LastIndexOf(s[..|s| - 1], c)
  }

  /** The extension of a file name (`rsplit_file_at_dot`): what follows
      the last dot, unless that dot starts the name. */
  function NameExtension(name: string): (e: Option<string>)
    ensures e.Some? <==> exists k :: 0 < k < |name| && name[k] == '.'
    ensures e.Some? ==> '.' !in e.value && |e.value| < |name| - 1
    ensures e.Some? ==> name[|name| - |e.value| - 1..] == "." + e.value
  {
    match LastIndexOf(name, '.')
    case None => None
    case Some(k) =>
      if k == 0 then None
      else
        assert name[|name| - |name[k + 1..]| - 1..] == "." + name[k + 1..];
        Some(name[k + 1..])
  }

  /** `Path::extension`. */
  function Extension(path: string): Option<string> {
    match FileName(path)
    case None => None
    case Some(name) => NameExtension(name)
  }

  /** The format a known extension names, compared without case. */
  function ExtensionFormat(path: string): (f: Option<ConfigFormat>)
    ensures f.Some? ==> Extension(path).Some?
    ensures f.Some? ==> f.value != Unknown
  {
    match Extension(path)
    case None => None
    case Some(ext) =>
      var e := ToLower(ext);
      if e == "json" then Some(Json)
      else if e == "yaml" || e == "yml" then Some(Yaml)
      else if e == "toml" then Some(Toml)
      else if e == "cue" then Some(Cue)
      else if e == "ncl" then Some(Nickel)
      else None
  }

  /** The trimmed text is wrapped in braces or in brackets. */
  predicate LooksLikeJson(trimmed: string) {
    (StartsWith(trimmed, "{") && EndsWith(trimmed, "}")) || (StartsWith(trimmed, "[") && EndsWith(trimmed, "]"))
  }

  predicate LooksLikeToml(trimmed: string) {
    Contains(trimmed, " = ") || Contains(trimmed, "\n[")
  }

  predicate LooksLikeYaml(trimmed: string) {
    Contains(trimmed, ": ") || StartsWith(trimmed, "---") || Contains(trimmed, "\n- ")
  }

  predicate LooksLikeCue(content: string) {
    Contains(content, "#") && Contains(content, ":")
  }

  predicate LooksLikeNickel(content: string) {
    Contains(content, " = ") && (Contains(content, "let ") || Contains(content, "fun "))
  }

  /** The content-based half of `detect_format`: each parser is consulted
      only when the text shows that format's marks, and CUE and Nickel are
      recognised by their marks alone once the parsers have declined. */
  function ContentFormat(content: string, parsers: Parsers): (f: ConfigFormat)
    ensures var t := Trim(content);
      && (f == Json ==> LooksLikeJson(t) && parsers.json(content))
      && (f == Toml ==> LooksLikeToml(t) && parsers.toml(content))
      && (f == Yaml ==> LooksLikeYaml(t) && parsers.yaml(content))
    ensures var t := Trim(content);
      var parsed := (LooksLikeJson(t) && parsers.json(content)) || (LooksLikeToml(t) && parsers.toml(content))
                    || (LooksLikeYaml(t) && parsers.yaml(content));
      && (parsed <==> f in {Json, Toml, Yaml})
      && (!parsed ==> (f == Cue <==> LooksLikeCue(content)))
      && (!parsed && !LooksLikeCue(content) ==> (f == Nickel <==> LooksLikeNickel(content)))
  {
    var trimmed := Trim(content);
    if LooksLikeJson(trimmed) && parsers.json(content) then Json
    else if LooksLikeToml(trimmed) && parsers.toml(content) then Toml
    else if parsers.yaml(content) && LooksLikeYaml(trimmed) then Yaml
    else if LooksLikeCue(content) then Cue
    else if LooksLikeNickel(content) then Nickel
    else Unknown
  }

  /** `detect_format`: it never fails; a known extension decides, and
      otherwise the content does. */
  function DetectFormat(content: string, path: string, parsers: Parsers): (r: Result<ConfigFormat, Errors.ConflowError>)
    ensures r.Ok?
    ensures ExtensionFormat(path).Some? ==> r.value == ExtensionFormat(path).value
    ensures ExtensionFormat(path).None? ==> r.value == ContentFormat(content, parsers)
  {
    match ExtensionFormat(path)
    case Some(f) => Ok(f)
    case None => Ok(ContentFormat(content, parsers))
  }

  /** With a known extension the content does not matter. */
  lemma ExtensionDecides(c1: string, c2: string, path: string, p1: Parsers, p2: Parsers)
    requires ExtensionFormat(path).Some?
    ensures DetectFormat(c1, path, p1) == DetectFormat(c2, path, p2)
  {
  }

  /** The extension is compared without regard to case. */
  lemma ExtensionIgnoresCase(p: string, q: string)
    requires Extension(p).Some? && Extension(q).Some?
    requires ToLower(Extension(p).value) == ToLower(Extension(q).value)
    ensures ExtensionFormat(p) == ExtensionFormat(q)
  {
  }

  /** A name whose only dot starts it has no extension: ".json" is not a
      JSON file by name. */
  lemma HiddenFileHasNoExtension()
    ensures NameExtension(".json") == None
  {
    assert LastIndexOf(".json", '.') == Some(0);
  }
}
