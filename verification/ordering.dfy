/** Orders and sorting, as the cache key needs them: a strict order given
    as a function, the lexicographic order it induces on sequences, and a
    stable insertion sort (Rust's `sort` on a vector) with the facts that
    it permutes, sorts, and is the only sorted arrangement of its input
    when the order separates every two distinct elements. */
module Ordering {

  /** `less` is irreflexive and transitive. */
  ghost predicate StrictOrder<T(!new)>(less: (T, T) -> bool) {
    && (forall x :: !less(x, x))
    && (forall x, y, z :: less(x, y) && less(y, z) ==> less(x, z))
  }

  /** Every two distinct values are ordered one way or the other. */
  ghost predicate Total<T(!new)>(less: (T, T) -> bool) {
    forall x, y :: x != y ==> less(x, y) || less(y, x)
  }

  /** Every two distinct elements of `xs` are ordered. */
  ghost predicate TotalOn<T>(less: (T, T) -> bool, xs: seq<T>) {
    forall x, y :: x in xs && y in xs && x != y ==> less(x, y) || less(y, x)
  }

  /** Lexicographic order: the first differing element decides, and a
      proper prefix comes first. */
  predicate LexLess<T(==)>(a: seq<T>, b: seq<T>, less: (T, T) -> bool)
    decreases |a|
  {
    if a == [] then b != []
    else if b == [] then false
    else if a[0] != b[0] then less(a[0], b[0])
    else LexLess(a[1..], b[1..], less)
  }

  lemma {:induction false} LexIrreflexive<T>(a: seq<T>, less: (T, T) -> bool)
    ensures !LexLess(a, a, less)
    decreases |a|
  {
    if a != [] {
      LexIrreflexive(a[1..], less);
    }
  }

  lemma {:induction false} LexTransitive<T(!new)>(a: seq<T>, b: seq<T>, c: seq<T>, less: (T, T) -> bool)
    requires StrictOrder(less)
    requires LexLess(a, b, less) && LexLess(b, c, less)
    ensures LexLess(a, c, less)
    decreases |a|
  {
    if a != [] && a[0] == b[0] && b[0] == c[0] {
      LexTransitive(a[1..], b[1..], c[1..], less);
    }
  }

  lemma {:induction false} LexTotal<T(!new)>(a: seq<T>, b: seq<T>, less: (T, T) -> bool)
    requires Total(less)
    requires a != b
    ensures LexLess(a, b, less) || LexLess(b, a, less)
    decreases |a|
  {
    if a != [] && b != [] && a[0] == b[0] {
      assert a == [a[0]] + a[1..] && b == [b[0]] + b[1..];
      LexTotal(a[1..], b[1..], less);
    }
  }

  /** The lexicographic order of a strict order is a strict order. */
  lemma LexStrictOrder<T(!new)>(less: (T, T) -> bool)
    requires StrictOrder(less)
    ensures StrictOrder((a: seq<T>, b: seq<T>) => LexLess(a, b, less))
  {
    forall a: seq<T> ensures !LexLess(a, a, less) {
      LexIrreflexive(a, less);
    }
    forall a: seq<T>, b: seq<T>, c: seq<T> | LexLess(a, b, less) && LexLess(b, c, less)
      ensures LexLess(a, c, less)
    {
      LexTransitive(a, b, c, less);
    }
  }

  function CharLess(x: char, y: char): bool {
    x < y
  }

  /** String order by code point, which is also the byte order of their
      UTF-8 encodings (Rust `Ord` for `str`). */
  predicate StrLess(a: string, b: string) {
    LexLess(a, b, CharLess)
  }

  /** The string order is a strict total order. */
  lemma StrLessStrictTotal()
    ensures StrictOrder(StrLess) && Total(StrLess)
  {
    assert StrictOrder(CharLess) && Total(CharLess);
    forall a: string ensures !StrLess(a, a) {
      LexIrreflexive(a, CharLess);
    }
    forall a: string, b: string, c: string | StrLess(a, b) && StrLess(b, c) ensures StrLess(a, c) {
      LexTransitive(a, b, c, CharLess);
    }
    forall a: string, b: string | a != b ensures StrLess(a, b) || StrLess(b, a) {
      LexTotal(a, b, CharLess);
    }
  }

  // ---------------------------------------------------------------------
  // Sorting

  /** No later element is below an earlier one. */
  predicate SortedBy<T>(xs: seq<T>, less: (T, T) -> bool) {
    forall i, j :: 0 <= i < j < |xs| ==> !less(xs[j], xs[i])
  }

  /** Insert `x` after every element it is not below, which keeps equal
      elements in their arrival order. */
  function InsertBy<T>(x: T, s: seq<T>, less: (T, T) -> bool): (r: seq<T>)
    ensures |r| == |s| + 1
    ensures multiset(r) == multiset(s) + multiset{x}
  {
    if s == [] then [x]
    else if less(x, s[0]) then [x] + s
    else
      assert s == [s[0]] + s[1..];
      [s[0]] + InsertBy(x, s[1..], less)
  }

  /** Stable insertion sort. */
  function SortBy<T>(xs: seq<T>, less: (T, T) -> bool): (r: seq<T>)
    ensures |r| == |xs|
    ensures multiset(r) == multiset(xs)
  {
    if xs == [] then []
    else
      assert xs == xs[..|xs| - 1] + [xs[|xs| - 1]];
      InsertBy(xs[|xs| - 1], SortBy(xs[..|xs| - 1], less), less)
  }

  lemma {:induction false} InsertSorted<T(!new)>(x: T, s: seq<T>, less: (T, T) -> bool)
    requires StrictOrder(less)
    requires SortedBy(s, less)
    ensures SortedBy(InsertBy(x, s, less), less)
  {
    var r := InsertBy(x, s, less);
    if s == [] {
    } else if less(x, s[0]) {
      forall i, j | 0 <= i < j < |r| ensures !less(r[j], r[i]) {
        if i == 0 {
          assert r[j] == s[j - 1];
          assert !less(s[j - 1], s[0]);
        }
      }
    } else {
      var t := InsertBy(x, s[1..], less);
      InsertSorted(x, s[1..], less);
      assert r == [s[0]] + t;
      forall j | 0 <= j < |t| ensures !less(t[j], s[0]) {
        assert t[j] in multiset(t);
        if t[j] != x {
          assert t[j] in multiset(s[1..]);
          var k :| 0 <= k < |s[1..]| && s[1..][k] == t[j];
          assert s[k + 1] == t[j];
        }
      }
    }
  }

  /** The sort yields a sorted permutation of its input. */
  lemma {:induction false} SortBySorted<T(!new)>(xs: seq<T>, less: (T, T) -> bool)
    requires StrictOrder(less)
    ensures SortedBy(SortBy(xs, less), less)
    ensures multiset(SortBy(xs, less)) == multiset(xs)
    decreases |xs|
  {
    if xs != [] {
      SortBySorted(xs[..|xs| - 1], less);
      InsertSorted(xs[|xs| - 1], SortBy(xs[..|xs| - 1], less), less);
    }
  }

  lemma SortedTail<T>(a: seq<T>, less: (T, T) -> bool)
    requires SortedBy(a, less) && a != []
    ensures SortedBy(a[1..], less)
  {
    forall i, j | 0 <= i < j < |a| - 1 ensures !less(a[1..][j], a[1..][i]) {
      assert a[1..][j] == a[j + 1] && a[1..][i] == a[i + 1];
    }
  }

  /** No element of a sorted sequence is below its head. */
  lemma SortedHeadLeast<T>(a: seq<T>, less: (T, T) -> bool, x: T)
    requires SortedBy(a, less) && x in a
    ensures x != a[0] ==> !less(x, a[0])
  {
    var j :| 0 <= j < |a| && a[j] == x;
  }

  /** Two sorted arrangements of the same elements coincide when the order
      separates every two distinct elements. */
  lemma {:induction false} SortedUnique<T>(a: seq<T>, b: seq<T>, less: (T, T) -> bool)
    requires SortedBy(a, less) && SortedBy(b, less)
    requires multiset(a) == multiset(b)
    requires TotalOn(less, a)
    ensures a == b
    decreases |a|
  {
    if a == [] {
      assert |b| == |multiset(b)| == 0;
    } else {
      assert |b| == |multiset(b)| == |a|;
      assert b[0] in multiset(b) && a[0] in multiset(a);
      SortedHeadLeast(a, less, b[0]);
      SortedHeadLeast(b, less, a[0]);
      assert a[0] == b[0];
      assert a == [a[0]] + a[1..] && b == [b[0]] + b[1..];
      assert multiset(a[1..]) == multiset(a) - multiset{a[0]};
      assert multiset(b[1..]) == multiset(b) - multiset{b[0]};
      SortedTail(a, less);
      SortedTail(b, less);
      forall x, y | x in a[1..] && y in a[1..] && x != y ensures less(x, y) || less(y, x) {
        assert x in a && y in a;
      }
      SortedUnique(a[1..], b[1..], less);
    }
  }

  /** Sorting forgets the order its input came in. */
  lemma SortIgnoresOrder<T(!new)>(xs: seq<T>, ys: seq<T>, less: (T, T) -> bool)
    requires StrictOrder(less)
    requires multiset(xs) == multiset(ys)
    requires TotalOn(less, xs)
    ensures SortBy(xs, less) == SortBy(ys, less)
  {
    SortBySorted(xs, less);
    SortBySorted(ys, less);
    var s := SortBy(xs, less);
    forall x, y | x in s && y in s && x != y ensures less(x, y) || less(y, x) {
      assert x in multiset(xs) && y in multiset(xs);
    }
    SortedUnique(s, SortBy(ys, less), less);
  }
}
