/** Facts about sequence concatenation, stated over an arbitrary element
    type so that the solver does not unfold the equality of the elements
    (stages, messages) the rest of the model concatenates. */
module Seqs {
  lemma AppendAssoc<T>(a: seq<T>, b: seq<T>, c: seq<T>)
    ensures a + b + c == a + (b + c)
  {
  }

  lemma AppendNil<T>(s: seq<T>)
    ensures s + [] == s
  {
  }

  lemma AppendEmpty<T>(a: seq<T>, b: seq<T>)
    ensures a + b == [] <==> a == [] && b == []
  {
    if a + b == [] {
      assert |a + b| == 0;
    }
  }

  /** The concatenation of `f` over the first `n` elements of `xs`. */
  function Gather<T, U>(xs: seq<T>, n: nat, f: T -> seq<U>): (r: seq<U>)
    requires n <= |xs|
  {
    if n == 0 then [] else Gather(xs, n - 1, f) + f(xs[n - 1])
  }

  /** A gathered sequence is empty exactly when every part is. */
  lemma {:induction false} GatherEmpty<T, U>(xs: seq<T>, n: nat, f: T -> seq<U>)
    requires n <= |xs|
    ensures Gather(xs, n, f) == [] <==> forall i :: 0 <= i < n ==> f(xs[i]) == []
  {
    if n > 0 {
      GatherEmpty(xs, n - 1, f);
      AppendEmpty(Gather(xs, n - 1, f), f(xs[n - 1]));
    }
  }

  /** Every element of every part appears in the gathered sequence. */
  lemma {:induction false} GatherContains<T, U>(xs: seq<T>, n: nat, f: T -> seq<U>, i: nat, x: U)
    requires i < n <= |xs| && x in f(xs[i])
    ensures x in Gather(xs, n, f)
  {
    if i < n - 1 {
      GatherContains(xs, n - 1, f, i, x);
    }
  }

  /** The elements of `s` from last to first. */
  function Reverse<T>(s: seq<T>): (r: seq<T>)
    ensures |r| == |s|
    ensures forall i :: 0 <= i < |s| ==> r[i] == s[|s| - 1 - i]
  {
    if s == [] then [] else Reverse(s[1..]) + [s[0]]
  }

  /** Reversing keeps every element and its number of occurrences. */
  lemma {:induction false} ReverseMultiset<T>(s: seq<T>)
    ensures multiset(Reverse(s)) == multiset(s)
    ensures forall x :: x in Reverse(s) <==> x in s
  {
    if s != [] {
      ReverseMultiset(s[1..]);
      assert s == [s[0]] + s[1..];
    }
  }

  /** `f` applied to each of the first `n` elements of `xs`, in order. */
  function MapPrefix<T, U>(xs: seq<T>, n: nat, f: T -> U): (r: seq<U>)
    requires n <= |xs|
    ensures |r| == n
    ensures forall i :: 0 <= i < n ==> r[i] == f(xs[i])
  {
    if n == 0 then [] else MapPrefix(xs, n - 1, f) + [f(xs[n - 1])]
  }

  /** Appends the elements of `xs` to `acc` one at a time, the way the
      sources push items onto a vector or arguments onto a command. */
  method AppendEach<T>(acc: seq<T>, xs: seq<T>) returns (r: seq<T>)
    ensures r == acc + xs
  {
    r := acc;
    var i := 0;
    while i < |xs|
      invariant 0 <= i <= |xs|
      invariant r == acc + xs[..i]
    {
      r := r + [xs[i]];
      i := i + 1;
    }
    assert xs[..i] == xs;
  }
}
