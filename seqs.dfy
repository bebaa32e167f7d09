/** Sequences standing for JavaScript Maps' key order and for Sets, both of
    which iterate in insertion order. */
module Seqs {

  ghost predicate Distinct<T>(s: seq<T>) {
    forall i, j :: 0 <= i < j < |s| ==> s[i] != s[j]
  }

  /** The order after delete(x). */
  function Without<T(==)>(s: seq<T>, x: T): seq<T> {
    if s == [] then []
    else if s[|s| - 1] == x then Without(s[..|s| - 1], x)
    else Without(s[..|s| - 1], x) + [s[|s| - 1]]
  }

  /** The order after set(x, _) or add(x): an existing key keeps its place. */
  function Added<T(==)>(s: seq<T>, x: T): seq<T> {
    if x in s then s else s + [x]
  }

  lemma {:induction false} WithoutElements<T>(s: seq<T>, x: T)
    ensures forall y :: y in Without(s, x) <==> y in s && y != x
  {
    if s != [] {
      WithoutElements(s[..|s| - 1], x);
      assert s == s[..|s| - 1] + [s[|s| - 1]];
    }
  }

  lemma {:induction false} WithoutDistinct<T>(s: seq<T>, x: T)
    requires Distinct(s)
    ensures Distinct(Without(s, x))
  {
    if s != [] {
      var init := s[..|s| - 1];
      WithoutDistinct(init, x);
      WithoutElements(init, x);
      assert s[|s| - 1] !in init;
    }
  }

  lemma {:induction false} WithoutAbsent<T>(s: seq<T>, x: T)
    requires x !in s
    ensures Without(s, x) == s
  {
    if s != [] {
      WithoutAbsent(s[..|s| - 1], x);
      assert s == s[..|s| - 1] + [s[|s| - 1]];
    }
  }

  /** Deleting a key that sits at index i splices it out: every other key keeps its
      place relative to the rest. */
  lemma {:induction false} WithoutSplice<T>(s: seq<T>, x: T, i: nat)
    requires Distinct(s) && i < |s| && s[i] == x
    ensures Without(s, x) == s[..i] + s[i + 1..]
  {
    var init := s[..|s| - 1];
    if i == |s| - 1 {
      assert x !in init;
      WithoutAbsent(init, x);
      assert s[..i] == init && s[i + 1..] == [];
    } else {
      assert init[i] == x;
      WithoutSplice(init, x, i);
      assert s[|s| - 1] != x;
      assert init[..i] == s[..i];
      assert init[i + 1..] + [s[|s| - 1]] == s[i + 1..];
    }
  }

  lemma AddedFacts<T>(s: seq<T>, x: T)
    requires Distinct(s)
    ensures Distinct(Added(s, x))
    ensures forall y :: y in Added(s, x) <==> y in s || y == x
  {
  }
}
