/** Pattern recognition over a configuration text
    (src/analyzer/patterns.rs): each pattern is a shape predicate, and the
    detector lists the ones that hold in the order the patterns are
    declared. */
module Patterns {
  import opened Strings
  import opened Complexity

  datatype ConfigPattern =
    | SimpleKeyValue
    | Hierarchical
    | HomogeneousList
    | EnvironmentConfig
    | SchemaDefinition
    | Templated
    | ResourceDefinition

  /** Declaration order. */
  function Rank(p: ConfigPattern): nat {
    match p
    case SimpleKeyValue => 0
    case Hierarchical => 1
    case HomogeneousList => 2
    case EnvironmentConfig => 3
    case SchemaDefinition => 4
    case Templated => 5
    case ResourceDefinition => 6
  }

  const EnvKeywords: seq<string> := ["dev", "staging", "prod", "production", "test", "development"]
  const SchemaMarks: seq<string> := ["#", "$schema", "type:", "properties:", "required:"]
  const TemplatePairs: seq<(string, string)> := [("{{", "}}"), ("${", "}"), ("<%", "%>"), ("[[", "]]")]
  const ResourceMarks: seq<string> := ["apiVersion:", "kind:", "resource \"", "provider \"", "AWSTemplateFormatVersion"]

  /** `calculate_depth` counts braces and brackets only. */
  const ShapeOpeners: set<char> := {'{', '['}
  const ShapeClosers: set<char> := {'}', ']'}

  function Depth(content: string): nat {
    Peak(content, ShapeOpeners, ShapeClosers)
  }

  /** `has_homogeneous_lists`: more than one opening bracket. */
  predicate HasHomogeneousLists(content: string) {
    Contains(content, "[") && CountChar(content, '[') > 1
  }

  /** `is_templated`: both halves of some delimiter pair occur, not
      necessarily together or in order. */
  predicate IsTemplated(content: string) {
    exists i :: 0 <= i < |TemplatePairs| && Contains(content, TemplatePairs[i].0) && Contains(content, TemplatePairs[i].1)
  }

  /** The pattern's shape predicate holds of the content. */
  predicate Shows(content: string, p: ConfigPattern) {
    match p
    case SimpleKeyValue => Depth(content) <= 2
    case Hierarchical => Depth(content) > 2
    case HomogeneousList => HasHomogeneousLists(content)
    case EnvironmentConfig => ContainsAny(ToLower(content), EnvKeywords)
    case SchemaDefinition => ContainsAny(content, SchemaMarks)
    case Templated => IsTemplated(content)
    case ResourceDefinition => ContainsAny(content, ResourceMarks)
  }

  const AllPatterns: seq<ConfigPattern> :=
    [SimpleKeyValue, Hierarchical, HomogeneousList, EnvironmentConfig, SchemaDefinition, Templated, ResourceDefinition]

  /** The patterns among the first `n` declared that hold, in order. */
  function Select(content: string, n: nat): seq<ConfigPattern>
    requires n <= |AllPatterns|
  {
    if n == 0 then []
    else Select(content, n - 1) + (if Shows(content, AllPatterns[n - 1]) then [AllPatterns[n - 1]] else [])
  }

  /** The declared order is the order of `Rank`. */
  lemma RankIsPosition()
    ensures forall k :: 0 <= k < |AllPatterns| ==> Rank(AllPatterns[k]) == k
  {
  }

  lemma {:induction false} SelectMembers(content: string, n: nat)
    requires n <= |AllPatterns|
    ensures forall p :: p in Select(content, n) <==> Rank(p) < n && Shows(content, p)
  {
    if n > 0 {
      SelectMembers(content, n - 1);
      RankIsPosition();
      var last := AllPatterns[n - 1];
      forall p ensures p == last <==> Rank(p) == n - 1 {
      }
    }
  }

  lemma {:induction false} SelectOrdered(content: string, n: nat)
    requires n <= |AllPatterns|
    ensures forall i, j :: 0 <= i < j < |Select(content, n)| ==> Rank(Select(content, n)[i]) < Rank(Select(content, n)[j])
    ensures forall i :: 0 <= i < |Select(content, n)| ==> Rank(Select(content, n)[i]) < n
  {
    if n > 0 {
      SelectOrdered(content, n - 1);
      RankIsPosition();
    }
  }

  /** One step of `detect_patterns`: the next declared pattern is added
      when its shape holds. */
  method Extend(content: string, patterns: seq<ConfigPattern>, n: nat, holds: bool) returns (next: seq<ConfigPattern>)
    requires n < |AllPatterns| && patterns == Select(content, n)
    requires holds == Shows(content, AllPatterns[n])
    ensures next == Select(content, n + 1)
  {
    next := if holds then patterns + [AllPatterns[n]] else patterns;
  }

  /** The patterns `detect_patterns` reports. */
  function Detected(content: string): seq<ConfigPattern> {
    Select(content, |AllPatterns|)
  }

  /** `detect_patterns`: the declared patterns whose shape holds, in
      declaration order (see `AllSelected`). */
  method DetectPatterns(content: string) returns (patterns: seq<ConfigPattern>)
    ensures patterns == Detected(content)
  {
    patterns := DetectShapes(content);
    patterns := DetectMarks(content, patterns);
  }

  /** The first three tests: depth and lists. */
  method DetectShapes(content: string) returns (patterns: seq<ConfigPattern>)
    ensures patterns == Select(content, 3)
  {
    var depth := ScanDepth(content, ShapeOpeners, ShapeClosers);
    patterns := Extend(content, [], 0, depth <= 2);
    depth := ScanDepth(content, ShapeOpeners, ShapeClosers);
    patterns := Extend(content, patterns, 1, depth > 2);
    patterns := Extend(content, patterns, 2, HasHomogeneousLists(content));
  }

  /** The remaining tests: keywords and marks. */
  method DetectMarks(content: string, shapes: seq<ConfigPattern>) returns (patterns: seq<ConfigPattern>)
    requires shapes == Select(content, 3)
    ensures patterns == Select(content, 7)
  {
    patterns := Extend(content, shapes, 3, ContainsAny(ToLower(content), EnvKeywords));
    patterns := Extend(content, patterns, 4, ContainsAny(content, SchemaMarks));
    patterns := Extend(content, patterns, 5, IsTemplated(content));
    patterns := Extend(content, patterns, 6, ContainsAny(content, ResourceMarks));
  }

  /** Exactly the patterns whose shape holds are reported, in declaration
      order and so without repetition. */
  lemma AllSelected(content: string)
    ensures forall p :: p in Detected(content) <==> Shows(content, p)
    ensures forall i, j :: 0 <= i < j < |Detected(content)| ==> Rank(Detected(content)[i]) < Rank(Detected(content)[j])
  {
    SelectMembers(content, 7);
    SelectOrdered(content, 7);
    forall p ensures Rank(p) < 7 {
    }
  }

  /** Exactly one of the two depth patterns is reported. */
  lemma ShallowOrDeep(content: string)
    ensures Shows(content, SimpleKeyValue) != Shows(content, Hierarchical)
  {
  }

  /** A text without braces or brackets is a simple key-value text. */
  lemma FlatIsSimple(content: string)
    requires forall i :: 0 <= i < |content| ==> content[i] !in ShapeOpeners
    ensures Shows(content, SimpleKeyValue)
  {
    forall i | 0 <= i <= |content| ensures DepthAfter(content[..i], ShapeOpeners, ShapeClosers) == 0 {
      FlatDepth(content[..i]);
    }
  }

  lemma {:induction false} FlatDepth(s: string)
    requires forall i :: 0 <= i < |s| ==> s[i] !in ShapeOpeners
    ensures DepthAfter(s, ShapeOpeners, ShapeClosers) == 0
    decreases |s|
  {
    if s != [] {
      FlatDepth(s[..|s| - 1]);
    }
  }

  lemma {:induction false} ContainsChar(s: string, c: char)
    requires c in s
    ensures Contains(s, [c])
  {
    var i :| 0 <= i < |s| && s[i] == c;
    assert s[i..i + 1] == [c];
    ContainsAt(s, [c], i);
  }

  /** The bracket test of `has_homogeneous_lists` is redundant: more than
      one '[' is the whole condition. */
  lemma HomogeneousListIsCount(content: string)
    ensures HasHomogeneousLists(content) <==> CountChar(content, '[') > 1
  {
    if CountChar(content, '[') > 1 {
      ContainsChar(content, '[');
    }
  }
}
