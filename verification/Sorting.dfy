/** Ascending sort by a total order, standing for the library sort that the operator
    calls on port numbers and on resource names. */
module Sorting {

  ghost predicate TotalPreorder<T(!new)>(leq: (T, T) -> bool) {
    && (forall a, b :: leq(a, b) || leq(b, a))
    && (forall a, b, c :: leq(a, b) && leq(b, c) ==> leq(a, c))
  }

  ghost predicate TotalOrder<T(!new)>(leq: (T, T) -> bool) {
    TotalPreorder(leq) && forall a, b :: leq(a, b) && leq(b, a) ==> a == b
  }

  ghost predicate Sorted<T>(s: seq<T>, leq: (T, T) -> bool) {
    forall i, j :: 0 <= i < j < |s| ==> leq(s[i], s[j])
  }

  function Insert<T>(x: T, s: seq<T>, leq: (T, T) -> bool): (r: seq<T>)
    ensures multiset(r) == multiset(s) + multiset{x}
  {
    if s == [] then [x]
    else if leq(x, s[0]) then [x] + s
    else
      assert s == [s[0]] + s[1..];
      [s[0]] + Insert(x, s[1..], leq)
  }

  function Sort<T>(s: seq<T>, leq: (T, T) -> bool): (r: seq<T>)
    ensures multiset(r) == multiset(s)
  {
    if s == [] then []
    else
      assert s == [s[0]] + s[1..];
      Insert(s[0], Sort(s[1..], leq), leq)
  }

  lemma {:induction false} InsertSorted<T(!new)>(x: T, s: seq<T>, leq: (T, T) -> bool)
    requires TotalPreorder(leq) && Sorted(s, leq)
    ensures Sorted(Insert(x, s, leq), leq)
  {
    if s != [] && !leq(x, s[0]) {
      var r := Insert(x, s[1..], leq);
      InsertSorted(x, s[1..], leq);
      forall j | 0 <= j < |r| ensures leq(s[0], r[j]) {
        assert r[j] in multiset(r);
        assert r[j] == x || r[j] in s[1..];
      }
    }
  }

  lemma {:induction false} SortSorted<T(!new)>(s: seq<T>, leq: (T, T) -> bool)
    requires TotalPreorder(leq)
    ensures Sorted(Sort(s, leq), leq)
  {
    if s != [] {
      SortSorted(s[1..], leq);
      InsertSorted(s[0], Sort(s[1..], leq), leq);
    }
  }

  lemma HeadIsLeast<T(!new)>(a: seq<T>, x: T, leq: (T, T) -> bool)
    requires TotalPreorder(leq) && Sorted(a, leq) && x in a
    ensures leq(a[0], x)
  {
    var i :| 0 <= i < |a| && a[i] == x;
  }

  lemma TailMultiset<T>(s: seq<T>)
    requires s != []
    ensures multiset(s[1..]) == multiset(s) - multiset{s[0]}
  {
    assert s == [s[0]] + s[1..];
  }

  lemma HeadsAgree<T(!new)>(a: seq<T>, b: seq<T>, leq: (T, T) -> bool)
    requires TotalOrder(leq) && Sorted(a, leq) && Sorted(b, leq)
    requires multiset(a) == multiset(b) && a != [] && b != []
    ensures a[0] == b[0]
  {
    assert a[0] in multiset(b) && b[0] in multiset(a);
    HeadIsLeast(a, b[0], leq);
    HeadIsLeast(b, a[0], leq);
  }

  lemma {:induction false} SortedUnique<T(!new)>(a: seq<T>, b: seq<T>, leq: (T, T) -> bool)
    requires TotalOrder(leq) && Sorted(a, leq) && Sorted(b, leq)
    requires multiset(a) == multiset(b)
    ensures a == b
  {
    assert |a| == |multiset(a)| == |multiset(b)| == |b|;
    if a != [] {
      HeadsAgree(a, b, leq);
      TailMultiset(a);
      TailMultiset(b);
      SortedUnique(a[1..], b[1..], leq);
      assert a == [a[0]] + a[1..] && b == [b[0]] + b[1..];
    }
  }

  /** Sorting forgets the order its input came in. */
  lemma SortOrderBlind<T(!new)>(a: seq<T>, b: seq<T>, leq: (T, T) -> bool)
    requires TotalOrder(leq)
    requires multiset(a) == multiset(b)
    ensures Sort(a, leq) == Sort(b, leq)
  {
    SortSorted(a, leq);
    SortSorted(b, leq);
    SortedUnique(Sort(a, leq), Sort(b, leq), leq);
  }

  // ----- duplicates -----

  lemma RepeatCounts<T>(s: seq<T>, i: nat, j: nat)
    requires i < j < |s| && s[i] == s[j]
    ensures multiset(s)[s[i]] >= 2
  {
    assert s == s[..j] + [s[j]] + s[j + 1..];
    assert s[i] in s[..j];
    assert multiset(s[..j])[s[i]] >= 1;
  }

  lemma {:induction false} DistinctCounts<T>(s: seq<T>, x: T)
    requires forall i, j :: 0 <= i < j < |s| ==> s[i] != s[j]
    ensures multiset(s)[x] <= 1
  {
    if s != [] {
      DistinctCounts(s[1..], x);
      assert s == [s[0]] + s[1..];
      if x == s[0] {
        assert x !in s[1..];
      }
    }
  }

  // ----- the two orders in use -----

  predicate IntLeq(a: int, b: int) { a <= b }

  /** Lexicographic order of strings. */
  predicate LexLeq(a: string, b: string) {
    a == [] || (b != [] && (a[0] < b[0] || (a[0] == b[0] && LexLeq(a[1..], b[1..]))))
  }

  lemma LexTotal(a: string, b: string)
    ensures LexLeq(a, b) || LexLeq(b, a)
  {
  }

  lemma {:induction false} LexAntisymmetric(a: string, b: string)
    requires LexLeq(a, b) && LexLeq(b, a)
    ensures a == b
  {
    if a != [] && b != [] {
      LexAntisymmetric(a[1..], b[1..]);
      assert a == [a[0]] + a[1..] && b == [b[0]] + b[1..];
    }
  }

  lemma {:induction false} LexTransitive(a: string, b: string, c: string)
    requires LexLeq(a, b) && LexLeq(b, c)
    ensures LexLeq(a, c)
  {
    if a != [] && a[0] == b[0] == c[0] {
      LexTransitive(a[1..], b[1..], c[1..]);
    }
  }

  lemma LexTotalOrder()
    ensures TotalOrder(LexLeq)
  {
    forall a, b { LexTotal(a, b); }
    forall a, b | LexLeq(a, b) && LexLeq(b, a) { LexAntisymmetric(a, b); }
    forall a, b, c | LexLeq(a, b) && LexLeq(b, c) ensures LexLeq(a, c) { LexTransitive(a, b, c); }
  }
}
