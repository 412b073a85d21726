/** Python's ordering of `str` values (code point by code point), `sorted`,
    and the first-seen de-duplication a `set` or a dict's keys give. */
module Ordering {

  /** Python's `a <= b` on strings. */
  predicate LessEq(a: string, b: string)
    decreases |a|
  {
    |a| == 0 || (|b| > 0 && (a[0] < b[0] || (a[0] == b[0] && LessEq(a[1..], b[1..]))))
  }

  /** Python's `a < b` on strings. */
  predicate Less(a: string, b: string) {
    LessEq(a, b) && a != b
  }

  lemma {:induction false} LessEqReflexive(a: string)
    ensures LessEq(a, a)
    decreases |a|
  {
    if |a| > 0 {
      LessEqReflexive(a[1..]);
    }
  }

  lemma {:induction false} LessEqTotal(a: string, b: string)
    ensures LessEq(a, b) || LessEq(b, a)
    decreases |a|
  {
    if |a| > 0 && |b| > 0 && a[0] == b[0] {
      LessEqTotal(a[1..], b[1..]);
    }
  }

  lemma {:induction false} LessEqAntisymmetric(a: string, b: string)
    requires LessEq(a, b) && LessEq(b, a)
    ensures a == b
    decreases |a|
  {
    if |a| > 0 {
      LessEqAntisymmetric(a[1..], b[1..]);
      assert a == [a[0]] + a[1..] && b == [b[0]] + b[1..];
    }
  }

  lemma {:induction false} LessEqTransitive(a: string, b: string, c: string)
    requires LessEq(a, b) && LessEq(b, c)
    ensures LessEq(a, c)
    decreases |a|
  {
    if |a| > 0 && a[0] == b[0] && b[0] == c[0] {
      LessEqTransitive(a[1..], b[1..], c[1..]);
    }
  }

  predicate Sorted(s: seq<string>) {
    forall i, j :: 0 <= i < j < |s| ==> LessEq(s[i], s[j])
  }

  predicate StrictlyAscending(s: seq<string>) {
    forall i, j :: 0 <= i < j < |s| ==> Less(s[i], s[j])
  }

  predicate NoDuplicates<T(==)>(s: seq<T>) {
    forall i, j :: 0 <= i < j < |s| ==> s[i] != s[j]
  }

  /** Insert `x` into the sorted `s` before the first element not below it. */
  function Insert(x: string, s: seq<string>): (r: seq<string>)
    requires Sorted(s)
    ensures Sorted(r)
    ensures multiset(r) == multiset(s) + multiset{x}
  {
    if s == [] then [x]
    else if LessEq(x, s[0]) then
      assert forall j :: 0 < j < |s| ==> LessEq(x, s[j]) by {
        forall j | 0 < j < |s| ensures LessEq(x, s[j]) { LessEqTransitive(x, s[0], s[j]); }
      }
      [x] + s
    else
      var t := Insert(x, s[1..]);
      assert s == [s[0]] + s[1..];
      LessEqTotal(x, s[0]);
      assert forall y :: y in multiset(t) ==> LessEq(s[0], y);
      assert forall j :: 0 <= j < |t| ==> LessEq(s[0], t[j]) by {
        forall j | 0 <= j < |t| ensures LessEq(s[0], t[j]) { assert t[j] in multiset(t); }
      }
      [s[0]] + t
  }

  /** Python's `sorted` on a list of strings (insertion sort; `sorted` is
      stable, and equal strings are identical, so the result is the same). */
  function Sort(xs: seq<string>): (r: seq<string>)
    ensures Sorted(r)
    ensures multiset(r) == multiset(xs)
  {
    if xs == [] then []
    else
      assert xs == xs[..|xs| - 1] + [xs[|xs| - 1]];
      Insert(xs[|xs| - 1], Sort(xs[..|xs| - 1]))
  }

  /** A sorted sequence is determined by its multiset of elements: `sorted`
      does not depend on the order of its input. */
  lemma {:induction false} SortedDetermined(a: seq<string>, b: seq<string>)
    requires Sorted(a) && Sorted(b) && multiset(a) == multiset(b)
    ensures a == b
    decreases |a|
  {
    if |a| > 0 {
      SortedSameHead(a, b);
      TailMultiset(a);
      TailMultiset(b);
      SortedDetermined(a[1..], b[1..]);
      assert a == [a[0]] + a[1..] && b == [b[0]] + b[1..];
    }
  }

  /** Sorted sequences with the same elements start with the same one. */
  lemma SortedSameHead(a: seq<string>, b: seq<string>)
    requires Sorted(a) && Sorted(b) && multiset(a) == multiset(b) && |a| > 0
    ensures |b| == |a| && a[0] == b[0]
  {
    assert |b| == |a| by { assert |multiset(a)| == |multiset(b)|; }
    assert a[0] in multiset(b) && b[0] in multiset(a);
    var i :| 0 <= i < |b| && b[i] == a[0];
    var j :| 0 <= j < |a| && a[j] == b[0];
    LessEqReflexive(a[0]);
    assert LessEq(b[0], a[0]) by { if i > 0 { } }
    assert LessEq(a[0], b[0]) by { if j > 0 { } }
    LessEqAntisymmetric(a[0], b[0]);
  }

  lemma TailMultiset<T>(a: seq<T>)
    requires |a| > 0
    ensures multiset(a[1..]) == multiset(a) - multiset{a[0]}
  {
    assert a == [a[0]] + a[1..];
    assert multiset(a) == multiset{a[0]} + multiset(a[1..]);
  }

  /** The first occurrence of each element, in first-seen order. */
  function Dedup<T(==)>(xs: seq<T>): (r: seq<T>)
    ensures NoDuplicates(r)
    ensures forall i :: 0 <= i < |r| ==> r[i] in xs
    ensures forall i :: 0 <= i < |xs| ==> xs[i] in r
  {
    if xs == [] then []
    else
      var p := Dedup(xs[..|xs| - 1]);
      var last := xs[|xs| - 1];
      assert xs == xs[..|xs| - 1] + [last];
      if last in p then p else p + [last]
  }

  /** In a duplicate-free sequence every element is counted once. */
  lemma {:induction false} NoDuplicatesMultiset<T>(s: seq<T>)
    requires NoDuplicates(s)
    ensures forall x :: multiset(s)[x] == if x in s then 1 else 0
  {
    if s != [] {
      var t := s[1..];
      assert s == [s[0]] + t;
      NoDuplicatesMultiset(t);
      assert s[0] !in t;
    }
  }

  /** Python's `sorted(list(set(xs)))` on strings. */
  function SortedSet(xs: seq<string>): (r: seq<string>)
  {
    Sort(Dedup(xs))
  }

  /** A sequence that counts no element twice has no duplicates. */
  lemma {:induction false} MultisetNoDuplicates(s: seq<string>)
    requires forall x :: multiset(s)[x] <= 1
    ensures NoDuplicates(s)
  {
    if s != [] {
      var t := s[1..];
      assert s == [s[0]] + t;
      assert multiset(s) == multiset{s[0]} + multiset(t);
      forall x ensures multiset(t)[x] <= 1 {
        assert multiset(s)[x] == multiset{s[0]}[x] + multiset(t)[x];
      }
      MultisetNoDuplicates(t);
      assert multiset(s)[s[0]] == 1 + multiset(t)[s[0]];
      assert s[0] !in t;
      forall i, j | 0 <= i < j < |s| ensures s[i] != s[j] {
        if i > 0 { assert s[i] == t[i - 1] && s[j] == t[j - 1]; }
        else { assert s[j] in t; }
      }
    }
  }

  /** Sorting a duplicate-free sequence gives a strictly ascending one. */
  lemma SortNoDuplicates(d: seq<string>)
    requires NoDuplicates(d)
    ensures StrictlyAscending(Sort(d))
  {
    var r := Sort(d);
    NoDuplicatesMultiset(d);
    MultisetNoDuplicates(r);
  }

  /** Two duplicate-free sequences with the same elements sort alike. */
  lemma SortSameElements(d: seq<string>, ys: seq<string>)
    requires NoDuplicates(d) && NoDuplicates(ys)
    requires forall y :: y in ys <==> y in d
    ensures Sort(ys) == Sort(d)
  {
    NoDuplicatesMultiset(d);
    NoDuplicatesMultiset(ys);
    assert multiset(d) == multiset(ys);
    SortedDetermined(Sort(ys), Sort(d));
  }

  /** `sorted(list(set(xs)))` is strictly ascending and holds exactly the
      elements of `xs`, whatever order `list(set(xs))` happens to take. */
  lemma SortedSetSpec(xs: seq<string>, ys: seq<string>)
    requires NoDuplicates(ys) && forall y :: y in ys <==> y in xs
    ensures StrictlyAscending(SortedSet(xs))
    ensures forall x :: x in SortedSet(xs) <==> x in xs
    ensures Sort(ys) == SortedSet(xs)
  {
    var d := Dedup(xs);
    var r := Sort(d);
    SortNoDuplicates(d);
    forall x ensures x in r <==> x in xs {
      assert x in r <==> x in multiset(r);
      assert x in d <==> x in multiset(d);
      if x in xs { var k :| 0 <= k < |xs| && xs[k] == x; }
      if x in d { var k :| 0 <= k < |d| && d[k] == x; }
    }
    SortSameElements(d, ys);
  }

  /** `sorted(list(set(xs)))` is strictly ascending and holds exactly the
      elements of `xs`. */
  lemma SortedSetElements(xs: seq<string>)
    ensures StrictlyAscending(SortedSet(xs))
    ensures forall x :: x in SortedSet(xs) <==> x in xs
  {
    var d := Dedup(xs);
    forall y ensures y in d <==> y in xs {
      if y in xs { var k :| 0 <= k < |xs| && xs[k] == y; }
      if y in d { var k :| 0 <= k < |d| && d[k] == y; }
    }
    SortedSetSpec(xs, d);
  }
}
