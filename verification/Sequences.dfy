/** Concatenating what a function gives for each element, and keeping first occurrences. */
module Sequences {
  import opened Distinctness

  function FlatMap<T, U>(s: seq<T>, f: T -> seq<U>): seq<U> {
    if s == [] then [] else FlatMap(s[..|s| - 1], f) + f(s[|s| - 1])
  }

  lemma {:induction false} FlatMapAppend<T, U>(a: seq<T>, b: seq<T>, f: T -> seq<U>)
    ensures FlatMap(a + b, f) == FlatMap(a, f) + FlatMap(b, f)
  {
    if b == [] {
      assert a + b == a;
    } else {
      var n := |b| - 1;
      assert (a + b)[..|a + b| - 1] == a + b[..n];
      FlatMapAppend(a, b[..n], f);
    }
  }

  lemma FlatMapOne<T, U>(x: T, f: T -> seq<U>)
    ensures FlatMap([x], f) == f(x)
  {
    assert [x][..0] == [] && FlatMap([x][..0], f) == [];
  }

  /** What is concatenated, as a multiset, does not depend on the order of the elements. */
  lemma {:induction false} FlatMapPermutation<T, U>(a: seq<T>, b: seq<T>, f: T -> seq<U>)
    requires multiset(a) == multiset(b)
    ensures multiset(FlatMap(a, f)) == multiset(FlatMap(b, f))
    decreases |a|
  {
    if a == [] {
      assert |multiset(b)| == 0;
    } else {
      var last := a[|a| - 1];
      assert last in multiset(b);
      var i :| 0 <= i < |b| && b[i] == last;
      assert a == a[..|a| - 1] + [last] && b == b[..i] + [last] + b[i + 1..];
      WithoutOne(a[..|a| - 1], b[..i], last, b[i + 1..]);
      FlatMapPermutation(a[..|a| - 1], b[..i] + b[i + 1..], f);
      FlatMapAround(b[..i], last, b[i + 1..], f);
    }
  }

  lemma WithoutOne<T>(a: seq<T>, before: seq<T>, x: T, after: seq<T>)
    requires multiset(a + [x]) == multiset(before + [x] + after)
    ensures multiset(a) == multiset(before + after)
  {
    assert multiset(a) == multiset(a + [x]) - multiset{x};
    assert multiset(before + after) == multiset(before + [x] + after) - multiset{x};
  }

  lemma FlatMapAround<T, U>(before: seq<T>, x: T, after: seq<T>, f: T -> seq<U>)
    ensures multiset(FlatMap(before + [x] + after, f)) == multiset(FlatMap(before + after, f)) + multiset(f(x))
  {
    FlatMapAppend(before + [x], after, f);
    FlatMapAppend(before, [x], f);
    FlatMapAppend(before, after, f);
    FlatMapOne(x, f);
  }

  lemma {:induction false} FlatMapMembers<T, U>(s: seq<T>, f: T -> seq<U>, y: U)
    ensures y in FlatMap(s, f) <==> exists x <- s :: y in f(x)
  {
    if s != [] {
      FlatMapMembers(s[..|s| - 1], f, y);
      assert s == s[..|s| - 1] + [s[|s| - 1]];
    }
  }

  /** The elements in the order of their first occurrence: the keys of a map that keeps insertion order. */
  function Distinct<T(==,!new)>(s: seq<T>): (keys: seq<T>)
    ensures forall x :: x in keys <==> x in s
  {
    if s == [] then []
    else
      var keys, last := Distinct(s[..|s| - 1]), s[|s| - 1];
      assert s == s[..|s| - 1] + [last];
      if last in keys then keys else keys + [last]
  }

  lemma {:induction false} DistinctNoRepeats<T(!new)>(s: seq<T>)
    ensures NoRepeats(Distinct(s))
  {
    if s != [] { DistinctNoRepeats(s[..|s| - 1]); }
  }

  lemma DistinctPermutation<T(!new)>(a: seq<T>, b: seq<T>)
    requires forall x :: x in a <==> x in b
    ensures multiset(Distinct(a)) == multiset(Distinct(b))
  {
    DistinctNoRepeats(a);
    DistinctNoRepeats(b);
    CountElements(Distinct(a));
    CountElements(Distinct(b));
    assert Elements(Distinct(a)) == Elements(Distinct(b));
  }

  function Filter<T(!new)>(s: seq<T>, keep: T -> bool): (r: seq<T>)
    ensures forall x :: x in r <==> x in s && keep(x)
  {
    if s == [] then []
    else
      assert s == s[..|s| - 1] + [s[|s| - 1]];
      Filter(s[..|s| - 1], keep) + if keep(s[|s| - 1]) then [s[|s| - 1]] else []
  }

  function Map<T, U>(s: seq<T>, f: T -> U): (r: seq<U>)
    ensures |r| == |s|
  {
    if s == [] then [] else Map(s[..|s| - 1], f) + [f(s[|s| - 1])]
  }

  lemma {:induction false} MapAt<T, U>(s: seq<T>, f: T -> U, i: nat)
    requires i < |s|
    ensures Map(s, f)[i] == f(s[i])
  {
    if i < |s| - 1 { MapAt(s[..|s| - 1], f, i); }
  }

  lemma {:induction false} MapMembers<T, U>(s: seq<T>, f: T -> U, y: U)
    ensures y in Map(s, f) <==> exists x <- s :: y == f(x)
  {
    if s != [] {
      MapMembers(s[..|s| - 1], f, y);
      assert s == s[..|s| - 1] + [s[|s| - 1]];
    }
  }

  lemma Whole<T>(s: seq<T>)
    ensures s[..|s|] == s && s[..0] == []
  {
  }

  /** One more element. */
  lemma FlatMapStep<T, U>(s: seq<T>, f: T -> seq<U>, i: nat)
    requires i < |s|
    ensures FlatMap(s[..i + 1], f) == FlatMap(s[..i], f) + f(s[i])
  {
    assert s[..i + 1][..i] == s[..i];
  }

  lemma MapStep<T, U>(s: seq<T>, f: T -> U, i: nat)
    requires i < |s|
    ensures Map(s[..i + 1], f) == Map(s[..i], f) + [f(s[i])]
  {
    assert s[..i + 1][..i] == s[..i];
  }

  lemma DistinctStep<T(!new)>(s: seq<T>, x: T)
    ensures Distinct(s + [x]) == if x in s then Distinct(s) else Distinct(s) + [x]
  {
    assert (s + [x])[..|s|] == s;
  }
}
