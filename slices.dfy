/** The two pieces of Go's runtime that the reference extractor relies on:
    ranging over the keys of a `map[string]struct{}` (an unspecified order,
    each key once) and `slices.Sort` on a `[]string` (ascending by Go's `<`). */
module Slices {

  /** Go's `a <= b` on strings: lexicographic on code points, a proper
      prefix first.  (Go compares UTF-8 bytes; byte order and code-point
      order agree on UTF-8.) */
  predicate LessEq(a: string, b: string)
    decreases |a|
  {
    a == [] || (b != [] && (a[0] < b[0] || (a[0] == b[0] && LessEq(a[1..], b[1..]))))
  }

  lemma {:induction false} LessEqReflexive(a: string)
    ensures LessEq(a, a)
    decreases |a|
  {
    if a != [] { LessEqReflexive(a[1..]); }
  }

  lemma {:induction false} LessEqTotal(a: string, b: string)
    ensures LessEq(a, b) || LessEq(b, a)
    decreases |a|
  {
    if a != [] && b != [] && a[0] == b[0] { LessEqTotal(a[1..], b[1..]); }
  }

  lemma {:induction false} LessEqTransitive(a: string, b: string, c: string)
    requires LessEq(a, b) && LessEq(b, c)
    ensures LessEq(a, c)
    decreases |a|
  {
    if a != [] && a[0] == b[0] && b[0] == c[0] { LessEqTransitive(a[1..], b[1..], c[1..]); }
  }

  lemma {:induction false} LessEqAntisymmetric(a: string, b: string)
    requires LessEq(a, b) && LessEq(b, a)
    ensures a == b
    decreases |a|
  {
    if a != [] {
      LessEqAntisymmetric(a[1..], b[1..]);
      assert a == [a[0]] + a[1..] && b == [b[0]] + b[1..];
    }
  }

  function Elements<T>(s: seq<T>): set<T>
  {
    set x | x in s
  }

  ghost predicate NoDuplicates<T>(s: seq<T>)
  {
    forall i, j :: 0 <= i < j < |s| ==> s[i] != s[j]
  }

  ghost predicate Sorted(s: seq<string>)
  {
    forall i, j :: 0 <= i < j < |s| ==> LessEq(s[i], s[j])
  }

  /** Ascending with no name twice: what sorting a de-duplicated list gives. */
  ghost predicate StrictlySorted(s: seq<string>)
  {
    Sorted(s) && NoDuplicates(s)
  }

  /** Ranging over the keys of a Go map: every key exactly once, in an
      order the model leaves open (`:|` picks any remaining key). */
  method SetToSeq(keys: set<string>) returns (r: seq<string>)
    ensures NoDuplicates(r)
    ensures Elements(r) == keys
  {
    r := [];
    var rest := keys;
    while rest != {}
      invariant NoDuplicates(r)
      invariant Elements(r) + rest == keys
      invariant Elements(r) !! rest
      decreases rest
    {
      var k :| k in rest;
      r := r + [k];
      rest := rest - {k};
    }
  }

  lemma SortedCons(x: string, s: seq<string>)
    requires Sorted(s)
    requires forall y :: y in multiset(s) ==> LessEq(x, y)
    ensures Sorted([x] + s)
  {
    forall i, j | 0 <= i < j < |[x] + s|
      ensures LessEq(([x] + s)[i], ([x] + s)[j])
    {
      if i == 0 { assert s[j - 1] in multiset(s); }
    }
  }

  /** One step of insertion sort. */
  function Insert(s: seq<string>, x: string): (r: seq<string>)
    requires Sorted(s)
    ensures Sorted(r)
    ensures multiset(r) == multiset(s) + multiset{x}
    ensures NoDuplicates(s) && x !in s ==> NoDuplicates(r)
    decreases |s|
  {
    if s == [] then [x]
    else if LessEq(x, s[0]) then
      LessEqBelowSorted(x, s);
      SortedCons(x, s);
      NoDuplicatesCons(x, s);
      [x] + s
    else
      var rest := Insert(s[1..], x);
      InsertBehind(s, x, rest);
      [s[0]] + rest
  }

  /** The step of `Insert` that keeps the head in front. */
  lemma InsertBehind(s: seq<string>, x: string, rest: seq<string>)
    requires Sorted(s) && s != [] && !LessEq(x, s[0])
    requires Sorted(rest) && multiset(rest) == multiset(s[1..]) + multiset{x}
    requires NoDuplicates(s[1..]) && x !in s[1..] ==> NoDuplicates(rest)
    ensures Sorted([s[0]] + rest)
    ensures multiset([s[0]] + rest) == multiset(s) + multiset{x}
    ensures NoDuplicates(s) && x !in s ==> NoDuplicates([s[0]] + rest)
  {
    LessEqTotal(x, s[0]);
    assert s == [s[0]] + s[1..];
    LessEqBelowSorted(s[0], s[1..]);
    forall y | y in multiset(rest) ensures LessEq(s[0], y) {
      if y != x { assert y in multiset(s[1..]); }
    }
    SortedCons(s[0], rest);
    if NoDuplicates(s) && x !in s {
      assert s[0] !in multiset(s[1..]);
      assert s[0] != x;
      assert s[0] !in rest by { assert s[0] !in multiset(rest); }
      NoDuplicatesCons(s[0], rest);
    }
  }

  lemma LessEqBelowSorted(x: string, s: seq<string>)
    requires Sorted(s) && (s != [] ==> LessEq(x, s[0]))
    ensures forall y :: y in multiset(s) ==> LessEq(x, y)
  {
    forall y | y in multiset(s) ensures LessEq(x, y) {
      var k :| 0 <= k < |s| && s[k] == y;
      if k > 0 { LessEqTransitive(x, s[0], y); }
    }
  }

  lemma NoDuplicatesCons<T>(x: T, s: seq<T>)
    ensures NoDuplicates(s) && x !in s ==> NoDuplicates([x] + s)
  {
    if NoDuplicates(s) && x !in s {
      forall i, j | 0 <= i < j < |[x] + s| ensures ([x] + s)[i] != ([x] + s)[j] {
        if i == 0 { assert s[j - 1] in s; }
      }
    }
  }

  /** Go's `slices.Sort` on a `[]string`: the result is ascending and a
      permutation of the input; a list without duplicates stays without. */
  method SortStrings(s: seq<string>) returns (r: seq<string>)
    ensures Sorted(r)
    ensures multiset(r) == multiset(s)
    ensures NoDuplicates(s) ==> StrictlySorted(r)
  {
    r := [];
    var i := 0;
    while i < |s|
      invariant 0 <= i <= |s|
      invariant Sorted(r)
      invariant multiset(r) == multiset(s[..i])
      invariant NoDuplicates(s) ==> NoDuplicates(r)
    {
      if NoDuplicates(s) {
        assert s[i] !in multiset(s[..i]);
      }
      r := Insert(r, s[i]);
      assert s[..i + 1] == s[..i] + [s[i]];
      i := i + 1;
    }
    assert s[..i] == s;
  }

  /** Permutations have the same elements. */
  lemma SameMultisetSameElements(a: seq<string>, b: seq<string>)
    requires multiset(a) == multiset(b)
    ensures Elements(a) == Elements(b)
  {
    forall x ensures x in a <==> x in b {
      assert x in a <==> x in multiset(a);
      assert x in b <==> x in multiset(b);
    }
  }

  /** A strictly sorted list is determined by its elements: the sorted
      config-map names do not depend on the map's iteration order. */
  lemma {:induction false} StrictlySortedUnique(a: seq<string>, b: seq<string>)
    requires StrictlySorted(a) && StrictlySorted(b)
    requires Elements(a) == Elements(b)
    ensures a == b
    decreases |a|
  {
    if a == [] {
      EmptyElements(b);
    } else {
      assert a[0] in Elements(a);
      var k :| 0 <= k < |b| && b[k] == a[0];
      assert b[0] in Elements(b);
      var m :| 0 <= m < |a| && a[m] == b[0];
      if k > 0 && m > 0 {
        LessEqAntisymmetric(a[0], b[0]);
      }
      assert a[0] == b[0];
      assert Elements(a[1..]) == Elements(b[1..]) by {
        forall x ensures x in Elements(a[1..]) <==> x in Elements(b[1..]) {
          assert x in Elements(a) <==> x == a[0] || x in Elements(a[1..]) by { assert a == [a[0]] + a[1..]; }
          assert x in Elements(b) <==> x == b[0] || x in Elements(b[1..]) by { assert b == [b[0]] + b[1..]; }
          if x in Elements(a[1..]) { assert x != a[0]; }
          if x in Elements(b[1..]) { assert x != b[0]; }
        }
      }
      StrictlySortedUnique(a[1..], b[1..]);
      assert a == [a[0]] + a[1..] && b == [b[0]] + b[1..];
    }
  }

  lemma EmptyElements<T>(s: seq<T>)
    ensures Elements(s) == {} ==> s == []
  {
    if s != [] {
      assert s[0] in Elements(s);
    }
  }

  /** Without duplicates, a list has as many entries as it has elements. */
  lemma {:induction false} NoDuplicatesSize<T>(s: seq<T>)
    requires NoDuplicates(s)
    ensures |Elements(s)| == |s|
  {
    if s != [] {
      NoDuplicatesSize(s[1..]);
      assert s == [s[0]] + s[1..];
      assert Elements(s) == {s[0]} + Elements(s[1..]);
      assert s[0] !in Elements(s[1..]);
    }
  }

  lemma NoDuplicatesSingleton<T>(s: seq<T>, x: T)
    requires NoDuplicates(s) && Elements(s) == {x}
    ensures s == [x]
  {
    NoDuplicatesSize(s);
    assert s[0] in Elements(s);
  }
}
