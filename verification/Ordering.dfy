/** Sorting under a total order: any two sorted arrangements of the same elements are equal. */
module Ordering {

  ghost predicate TotalOrder<T(!new)>(leq: (T, T) -> bool) {
    && (forall a, b :: leq(a, b) || leq(b, a))
    && (forall a, b :: leq(a, b) && leq(b, a) ==> a == b)
    && (forall a, b, c :: leq(a, b) && leq(b, c) ==> leq(a, c))
  }

  ghost predicate Sorted<T>(s: seq<T>, leq: (T, T) -> bool) {
    forall i, j :: 0 <= i < j < |s| ==> leq(s[i], s[j])
  }

  function Insert<T>(x: T, s: seq<T>, leq: (T, T) -> bool): (r: seq<T>)
    ensures multiset(r) == multiset{x} + multiset(s)
  {
    if s == [] || leq(x, s[0]) then [x] + s
    else
      assert s == [s[0]] + s[1..];
      [s[0]] + Insert(x, s[1..], leq)
  }

  /** The sorted arrangement of `s`: what any library sort with this comparison returns. */
  function Sort<T>(s: seq<T>, leq: (T, T) -> bool): (r: seq<T>)
    ensures multiset(r) == multiset(s)
  {
    if s == [] then []
    else
      assert s == [s[0]] + s[1..];
      Insert(s[0], Sort(s[1..], leq), leq)
  }

  lemma {:induction false} InsertSorted<T(!new)>(x: T, s: seq<T>, leq: (T, T) -> bool)
    requires TotalOrder(leq) && Sorted(s, leq)
    ensures Sorted(Insert(x, s, leq), leq)
  {
    if s != [] && !leq(x, s[0]) {
      var tail := Insert(x, s[1..], leq);
      InsertSorted(x, s[1..], leq);
      forall k | 0 <= k < |tail| ensures leq(s[0], tail[k]) {
        assert tail[k] in multiset(tail);
        assert tail[k] == x || tail[k] in s[1..];
      }
    }
  }

  lemma {:induction false} SortSorted<T(!new)>(s: seq<T>, leq: (T, T) -> bool)
    requires TotalOrder(leq)
    ensures Sorted(Sort(s, leq), leq)
  {
    if s != [] {
      SortSorted(s[1..], leq);
      InsertSorted(s[0], Sort(s[1..], leq), leq);
    }
  }

  /** Sorted permutations of one another begin with the same element. */
  lemma SameHeads<T(!new)>(a: seq<T>, b: seq<T>, leq: (T, T) -> bool)
    requires TotalOrder(leq) && Sorted(a, leq) && Sorted(b, leq) && multiset(a) == multiset(b) && a != [] && b != []
    ensures a[0] == b[0]
  {
    HeadIsLeast(a, b[0], leq);
    HeadIsLeast(b, a[0], leq);
  }

  lemma HeadIsLeast<T(!new)>(s: seq<T>, x: T, leq: (T, T) -> bool)
    requires TotalOrder(leq) && Sorted(s, leq) && x in multiset(s)
    ensures leq(s[0], x)
  {
    var i :| 0 <= i < |s| && s[i] == x;
  }

  lemma SameTails<T>(a: seq<T>, b: seq<T>)
    requires multiset(a) == multiset(b) && a != [] && b != [] && a[0] == b[0]
    ensures multiset(a[1..]) == multiset(b[1..])
  {
    TailOf(a);
    TailOf(b);
  }

  lemma TailOf<T>(s: seq<T>)
    requires s != []
    ensures multiset(s[1..]) == multiset(s) - multiset{s[0]}
  {
    assert s == [s[0]] + s[1..];
  }

  /** Sorted permutations of one another are equal. */
  lemma {:induction false} SortedUnique<T(!new)>(a: seq<T>, b: seq<T>, leq: (T, T) -> bool)
    requires TotalOrder(leq) && Sorted(a, leq) && Sorted(b, leq) && multiset(a) == multiset(b)
    ensures a == b
  {
    assert |a| == |multiset(a)| == |multiset(b)| == |b|;
    if a != [] {
      SameHeads(a, b, leq);
      SameTails(a, b);
      SortedUnique(a[1..], b[1..], leq);
      assert a == [a[0]] + a[1..] && b == [b[0]] + b[1..];
    }
  }

  /** So comparing two lists sorted compares them as multisets, however they were ordered before. */
  lemma SortDecidesMultiset<T(!new)>(a: seq<T>, b: seq<T>, leq: (T, T) -> bool)
    requires TotalOrder(leq)
    ensures Sort(a, leq) == Sort(b, leq) <==> multiset(a) == multiset(b)
  {
    SortSorted(a, leq);
    SortSorted(b, leq);
    if multiset(a) == multiset(b) {
      SortedUnique(Sort(a, leq), Sort(b, leq), leq);
    }
  }

  // ---------------------------------------------------------------- strings

  /** Lexicographic order, character by character. */
  predicate StringLeq(a: string, b: string) {
    a == [] || (b != [] && (a[0] < b[0] || (a[0] == b[0] && StringLeq(a[1..], b[1..]))))
  }

  /** A prefix comes first, and otherwise the text with the smaller character where they first differ. */
  lemma {:induction false} StringLeqMeans(a: string, b: string)
    ensures StringLeq(a, b)
            <==> a <= b || exists i :: 0 <= i < |a| && i < |b| && a[..i] == b[..i] && a[i] < b[i]
  {
    if a != [] && b != [] {
      if a[0] == b[0] {
        StringLeqMeans(a[1..], b[1..]);
        SamePrefix(a, b);
      } else if a[0] < b[0] {
        assert a[..0] == b[..0];
      } else {
        forall i | 0 < i < |a| && i < |b| ensures a[..i] != b[..i] {
          assert a[..i][0] == a[0] && b[..i][0] == b[0];
        }
      }
    }
  }

  lemma SamePrefix(a: string, b: string)
    requires a != [] && b != [] && a[0] == b[0]
    ensures a <= b <==> a[1..] <= b[1..]
    ensures (exists i :: 0 <= i < |a| && i < |b| && a[..i] == b[..i] && a[i] < b[i])
            <==> exists i :: 0 <= i < |a[1..]| && i < |b[1..]| && a[1..][..i] == b[1..][..i] && a[1..][i] < b[1..][i]
  {
    var x, y := a[1..], b[1..];
    forall i | 0 <= i < |x| && i < |y| ensures a[..i + 1] == b[..i + 1] <==> x[..i] == y[..i] {
      assert a[..i + 1] == [a[0]] + x[..i] && b[..i + 1] == [b[0]] + y[..i];
      if a[..i + 1] == b[..i + 1] { assert x[..i] == a[..i + 1][1..] && y[..i] == b[..i + 1][1..]; }
    }
    assert a == [a[0]] + x && b == [b[0]] + y;
    if i :| 0 <= i < |x| && i < |y| && x[..i] == y[..i] && x[i] < y[i] {
      assert a[..i + 1] == b[..i + 1] && a[i + 1] < b[i + 1];
    }
    if i :| 0 <= i < |a| && i < |b| && a[..i] == b[..i] && a[i] < b[i] {
      assert x[..i - 1] == y[..i - 1] && x[i - 1] < y[i - 1];
    }
  }

  lemma {:induction false} StringLeqTotal(a: string, b: string)
    ensures StringLeq(a, b) || StringLeq(b, a)
  {
    if a != [] && b != [] && a[0] == b[0] { StringLeqTotal(a[1..], b[1..]); }
  }

  lemma {:induction false} StringLeqAntisymmetric(a: string, b: string)
    requires StringLeq(a, b) && StringLeq(b, a)
    ensures a == b
  {
    if a != [] && b != [] {
      StringLeqAntisymmetric(a[1..], b[1..]);
      assert a == [a[0]] + a[1..] && b == [b[0]] + b[1..];
    }
  }

  lemma {:induction false} StringLeqTransitive(a: string, b: string, c: string)
    requires StringLeq(a, b) && StringLeq(b, c)
    ensures StringLeq(a, c)
  {
    if a != [] && b != [] && c != [] && a[0] == b[0] == c[0] { StringLeqTransitive(a[1..], b[1..], c[1..]); }
  }

  lemma StringOrder()
    ensures TotalOrder(StringLeq)
  {
    forall a, b ensures StringLeq(a, b) || StringLeq(b, a) { StringLeqTotal(a, b); }
    forall a, b | StringLeq(a, b) && StringLeq(b, a) ensures a == b { StringLeqAntisymmetric(a, b); }
    forall a, b, c | StringLeq(a, b) && StringLeq(b, c) ensures StringLeq(a, c) { StringLeqTransitive(a, b, c); }
  }
}
