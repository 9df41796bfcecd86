/** Complexity analysis of a configuration text
    (src/analyzer/complexity.rs): substring probes for logic, functions,
    constraints and generation, the deepest bracket nesting, and a
    repeated-line heuristic. */
module Complexity {
  import opened Strings
  import ConfigDetector

  datatype Complexity = Complexity(
    hasLogic: bool,
    hasFunctions: bool,
    hasConstraints: bool,
    hasValidation: bool,
    hasGeneration: bool,
    lineCount: nat,
    nestingDepth: nat,
    hasRepetition: bool)

  const LogicPatterns: seq<string> :=
    ["if ", "else ", "then ", " ? ", " : ", "match ", "case ", "when ", "&&", "||", " and ", " or "]
  const FunctionPatterns: seq<string> :=
    ["fun ", "func ", "function ", "def ", "fn ", "=>", "->", "lambda "]
  const ConstraintPatterns: seq<string> :=
    [">=", "<=", ">", "<", "& ", "| ", "=~", "!~", "min:", "max:", "minLength", "maxLength", "pattern:", "| *", "_|_"]
  const GenerationPatterns: seq<string> :=
    ["for ", "foreach ", "map(", "filter(", "fold(", "Array.from", "Array.map", "std.range", "std.map", "[for ", "{ for ", "..."]

  /** `patterns.iter().any(|p| content.contains(p))`. */
  predicate ContainsAny(content: string, patterns: seq<string>) {
    exists i :: 0 <= i < |patterns| && Contains(content, patterns[i])
  }

  // ---------------------------------------------------------------------
  // Bracket depth, shared with the pattern detector

  /** One character of the scan: an opener goes one level deeper, a closer
      one level out but never below the top level. */
  function StepDepth(depth: nat, c: char, openers: set<char>, closers: set<char>): nat {
    if c in openers then depth + 1
    else if c in closers then (if depth == 0 then 0 else depth - 1)
    else depth
  }

  /** The depth after scanning `s`. */
  function DepthAfter(s: string, openers: set<char>, closers: set<char>): nat
    decreases |s|
  {
    if s == [] then 0 else StepDepth(DepthAfter(s[..|s| - 1], openers, closers), s[|s| - 1], openers, closers)
  }

  /** The greatest depth reached at any point of the scan. */
  function Peak(s: string, openers: set<char>, closers: set<char>): (m: nat)
    ensures forall i :: 0 <= i <= |s| ==> DepthAfter(s[..i], openers, closers) <= m
    ensures exists i :: 0 <= i <= |s| && DepthAfter(s[..i], openers, closers) == m
    decreases |s|
  {
    if s == [] then
      assert s[..0] == s;
      0
    else
      var before := s[..|s| - 1];
      var m0 := Peak(before, openers, closers);
      var d := DepthAfter(s, openers, closers);
      assert s[..|s|] == s;
      assert forall i :: 0 <= i < |s| ==> s[..i] == before[..i];
      if d > m0 then d else m0
  }

  /** The scan of `calculate_nesting_depth` and `calculate_depth`: a running
      depth and the greatest value it took. */
  method ScanDepth(content: string, openers: set<char>, closers: set<char>) returns (maxDepth: nat)
    ensures maxDepth == Peak(content, openers, closers)
  {
    maxDepth := 0;
    var current: nat := 0;
    for i := 0 to |content|
      invariant current == DepthAfter(content[..i], openers, closers)
      invariant maxDepth == Peak(content[..i], openers, closers)
    {
      var prefix := content[..i + 1];
      assert prefix[..|prefix| - 1] == content[..i];
      assert prefix[|prefix| - 1] == content[i];
      var ch := content[i];
      if ch in openers {
        current := current + 1;
        maxDepth := if maxDepth > current then maxDepth else current;
      } else if ch in closers {
        current := if current == 0 then 0 else current - 1;
        assert Peak(prefix, openers, closers) == maxDepth;
      }
    }
    assert content[..|content|] == content;
  }

  const NestOpeners: set<char> := {'{', '[', '('}
  const NestClosers: set<char> := {'}', ']', ')'}

  /** `calculate_nesting_depth`: braces, brackets and parentheses. */
  method NestingDepth(content: string) returns (depth: nat)
    ensures forall i :: 0 <= i <= |content| ==> DepthAfter(content[..i], NestOpeners, NestClosers) <= depth
    ensures exists i :: 0 <= i <= |content| && DepthAfter(content[..i], NestOpeners, NestClosers) == depth
  {
    depth := ScanDepth(content, NestOpeners, NestClosers);
  }

  /** Without a closer the depth is the number of openers seen. */
  lemma {:induction false} DepthWithoutClosers(s: string, openers: set<char>, closers: set<char>)
    requires forall i :: 0 <= i < |s| ==> s[i] !in closers
    ensures DepthAfter(s, openers, closers) == |set i | 0 <= i < |s| && s[i] in openers|
    decreases |s|
  {
    if s != [] {
      var before := s[..|s| - 1];
      DepthWithoutClosers(before, openers, closers);
      var a := set i | 0 <= i < |before| && before[i] in openers;
      var b := set i | 0 <= i < |s| && s[i] in openers;
      assert forall i :: 0 <= i < |before| ==> before[i] == s[i];
      if s[|s| - 1] in openers {
        assert b == a + {|s| - 1};
      } else {
        assert b == a;
      }
    }
  }

  // ---------------------------------------------------------------------
  // Repetition

  /** The trimmed lines longer than five bytes, in order. */
  function Meaningful(lines: seq<string>): (m: seq<string>)
    ensures forall i :: 0 <= i < |m| ==> ByteLen(m[i]) > 5
    decreases |lines|
  {
    if lines == [] then []
    else
      var t := Trim(lines[|lines| - 1]);
      Meaningful(lines[..|lines| - 1]) + (if ByteLen(t) > 5 then [t] else [])
  }

  /** The text has at least ten lines, and some meaningful trimmed line
      occurs more than three times. */
  ghost predicate Repetitive(content: string) {
    var lines := Lines(content);
    |lines| >= 10 && exists t :: multiset(Meaningful(lines))[t] > 3
  }

  /** The count a map records for `t`; no entry counts zero. */
  function Count(counts: map<string, nat>, t: string): nat {
    if t in counts then counts[t] else 0
  }

  /** The counting loop of `check_repetition`: the map holds, for each
      meaningful trimmed line, how often it occurs. */
  method CountMeaningful(lines: seq<string>) returns (counts: map<string, nat>)
    ensures forall t :: Count(counts, t) == multiset(Meaningful(lines))[t]
  {
    counts := map[];
    for i := 0 to |lines|
      invariant forall t :: Count(counts, t) == multiset(Meaningful(lines[..i]))[t]
    {
      var trimmed := Trim(lines[i]);
      MeaningfulStep(lines, i);
      if ByteLen(trimmed) > 5 {
        ghost var before := counts;
        counts := counts[trimmed := Count(counts, trimmed) + 1];
        forall t ensures Count(counts, t) == Count(before, t) + (if t == trimmed then 1 else 0) {
        }
      }
    }
    assert lines[..|lines|] == lines;
  }

  /** `check_repetition`: count each meaningful trimmed line and look for
      a count above three. */
  method CheckRepetition(content: string) returns (repetitive: bool)
    ensures repetitive <==> Repetitive(content)
  {
    var lines := Lines(content);
    if |lines| < 10 {
      return false;
    }
    var counts := CountMeaningful(lines);
    ghost var m := multiset(Meaningful(lines));
    repetitive := exists t :: t in counts && counts[t] > 3;
    if repetitive {
      ghost var t :| t in counts && counts[t] > 3;
      assert Count(counts, t) == m[t];
    } else {
      forall t ensures m[t] <= 3 {
        assert Count(counts, t) == m[t];
      }
    }
  }

  lemma MeaningfulStep(lines: seq<string>, i: nat)
    requires i < |lines|
    ensures var t := Trim(lines[i]);
      multiset(Meaningful(lines[..i + 1])) == multiset(Meaningful(lines[..i])) + (if ByteLen(t) > 5 then multiset{t} else multiset{})
  {
    assert lines[..i + 1][..i] == lines[..i];
  }

  /** Fewer than ten lines are never repetitive. */
  lemma ShortIsNotRepetitive(content: string)
    requires |Lines(content)| < 10
    ensures !Repetitive(content)
  {
  }

  /** Lines of five bytes or fewer, once trimmed, never count. */
  lemma {:induction false} ShortLinesIgnored(lines: seq<string>)
    requires forall i :: 0 <= i < |lines| ==> ByteLen(Trim(lines[i])) <= 5
    ensures Meaningful(lines) == []
    decreases |lines|
  {
    if lines != [] {
      var init := lines[..|lines| - 1];
      assert forall i :: 0 <= i < |init| ==> init[i] == lines[i];
      ShortLinesIgnored(init);
    }
  }

  /** Length is counted in bytes: a line of three two-byte characters is
      meaningful although it holds only three characters. */
  lemma MultibyteLineCounts()
    ensures Meaningful(["\U{E9}\U{E9}\U{E9}"]) == ["\U{E9}\U{E9}\U{E9}"]
  {
    var t := "\U{E9}\U{E9}\U{E9}";
    assert !IsSpace(t[0]) && !IsSpace(t[2]);
    assert TrimStart(t) == t;
    assert TrimEnd(t) == t;
    assert ByteLen(t[2..]) == 2;
    assert ByteLen(t) == 6;
    var lines := [t];
    assert lines[..|lines| - 1] == [];
  }

  // ---------------------------------------------------------------------
  // `analyze_complexity`

  /** `analyze_complexity`: every flag is its probe; validation is taken
      to be present exactly when constraints are; the format is not
      consulted. */
  method AnalyzeComplexity(content: string, format: ConfigDetector.ConfigFormat) returns (c: Complexity)
    ensures c.hasLogic <==> ContainsAny(content, LogicPatterns)
    ensures c.hasFunctions <==> ContainsAny(content, FunctionPatterns)
    ensures c.hasConstraints <==> ContainsAny(content, ConstraintPatterns)
    ensures c.hasGeneration <==> ContainsAny(content, GenerationPatterns)
    ensures c.hasValidation == c.hasConstraints
    ensures c.lineCount == |Lines(content)|
    ensures c.nestingDepth == Peak(content, NestOpeners, NestClosers)
    ensures c.hasRepetition <==> Repetitive(content)
  {
    var depth := ScanDepth(content, NestOpeners, NestClosers);
    var repetition := CheckRepetition(content);
    var constraints := ContainsAny(content, ConstraintPatterns);
    c := Complexity(
      ContainsAny(content, LogicPatterns),
      ContainsAny(content, FunctionPatterns),
      constraints,
      constraints,
      ContainsAny(content, GenerationPatterns),
      |Lines(content)|,
      depth,
      repetition);
  }
}
