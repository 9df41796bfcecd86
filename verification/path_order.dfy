/** The order Rust gives `Path`s (`Ord for Path`), which `files.sort()`
    uses on the matched input files of a stage: paths are compared by
    their components, not by their text. On Unix a path's components are
    a root (when it starts with '/'), a leading `.` (when it starts with
    "./" or is "."), then its '/'-separated parts with empty parts and
    inner `.` parts dropped and `..` kept as a parent component. */
module PathOrder {
  import opened Strings
  import opened Ordering
  import Executors

  /** `s` cut at every `sep`. */
  function Split(s: string, sep: char): (parts: seq<string>)
    ensures |parts| >= 1
    ensures forall i :: 0 <= i < |parts| ==> sep !in parts[i]
    decreases |s|
  {
    var k := IndexOfChar(s, sep);
    if k == |s| then [s] else [s[..k]] + Split(s[k + 1..], sep)
  }

  /** `std::path::Component`, in declaration order, which is also its
      order (there are no prefixes on Unix). */
  datatype Component = RootDir | CurDir | ParentDir | Normal(name: string)

  function Rank(c: Component): nat {
    match c
    case RootDir => 0
    case CurDir => 1
    case ParentDir => 2
    case Normal(_) => 3
  }

  /** The component order: by kind, then normal components by name. */
  predicate CompLess(a: Component, b: Component) {
    Rank(a) < Rank(b) || (a.Normal? && b.Normal? && StrLess(a.name, b.name))
  }

  /** The components of the parts between separators. */
  function BodyComponents(parts: seq<string>): (cs: seq<Component>)
    ensures forall i :: 0 <= i < |cs| ==> cs[i].ParentDir? || cs[i].Normal?
  {
    if parts == [] then []
    else
      var head := if parts[0] == "" || parts[0] == "." then []
                  else if parts[0] == ".." then [ParentDir]
                  else [Normal(parts[0])];
      head + BodyComponents(parts[1..])
  }

  /** `Path::components` on Unix. */
  function Components(p: string): (cs: seq<Component>)
    ensures Executors.IsAbsolute(p) <==> |cs| > 0 && cs[0] == RootDir
  {
    var parts := Split(p, '/');
    var start := if Executors.IsAbsolute(p) then [RootDir]
                 else if parts[0] == "." then [CurDir]
                 else [];
    start + BodyComponents(parts)
  }

  /** `Ord for Path`. */
  predicate PathLess(p: string, q: string) {
    LexLess(Components(p), Components(q), CompLess)
  }

  lemma CompLessStrictTotal()
    ensures StrictOrder(CompLess) && Total(CompLess)
  {
    StrLessStrictTotal();
  }

  /** The path order is a strict order. */
  lemma PathLessStrictOrder()
    ensures StrictOrder(PathLess)
  {
    CompLessStrictTotal();
    forall p: string ensures !PathLess(p, p) {
      LexIrreflexive(Components(p), CompLess);
    }
    forall p: string, q: string, r: string | PathLess(p, q) && PathLess(q, r)
      ensures PathLess(p, r)
    {
      LexTransitive(Components(p), Components(q), Components(r), CompLess);
    }
  }

  /** Paths with different components are ordered one way or the other;
      only paths spelling the same components ("a//b" and "a/b") tie. */
  lemma PathLessTotal(p: string, q: string)
    requires Components(p) != Components(q)
    ensures PathLess(p, q) || PathLess(q, p)
  {
    CompLessStrictTotal();
    LexTotal(Components(p), Components(q), CompLess);
  }

  /** No two distinct paths of `xs` spell the same components. */
  ghost predicate DistinctComponents(xs: seq<string>) {
    forall p, q :: p in xs && q in xs && p != q ==> Components(p) != Components(q)
  }

  lemma PathLessTotalOn(xs: seq<string>)
    requires DistinctComponents(xs)
    ensures TotalOn(PathLess, xs)
  {
    forall p, q | p in xs && q in xs && p != q ensures PathLess(p, q) || PathLess(q, p) {
      PathLessTotal(p, q);
    }
  }

  /** Paths are not compared as text: "a/b" sorts before "a-b" although
      '-' is below '/'. */
  lemma ComponentsNotText()
    ensures PathLess("a/b", "a-b") && StrLess("a-b", "a/b")
  {
    assert IndexOfChar("a/b", '/') == 1 && "a/b"[..1] == "a" && "a/b"[2..] == "b";
    assert IndexOfChar("b", '/') == 1;
    assert Split("b", '/') == ["b"];
    assert Split("a/b", '/') == ["a", "b"];
    assert Split("a-b", '/') == ["a-b"];
    assert Components("a/b") == [Normal("a"), Normal("b")];
    assert Components("a-b") == [Normal("a-b")];
    assert StrLess("a", "a-b");
  }
}
