/** Stable sorting, as the language's own sort does it, and what it determines. */
module Sorting {
  ghost predicate TotalPreorder<T(!new)>(leq: (T, T) -> bool) {
    && (forall a, b :: leq(a, b) || leq(b, a))
    && (forall a, b, c :: leq(a, b) && leq(b, c) ==> leq(a, c))
  }

  predicate Sorted<T>(s: seq<T>, leq: (T, T) -> bool) {
    forall i, j :: 0 <= i < j < |s| ==> leq(s[i], s[j])
  }

  /** Puts `x` in front of the first element that is not before it. */
  function Insert<T>(x: T, s: seq<T>, leq: (T, T) -> bool): seq<T> {
    if s == [] || leq(x, s[0]) then [x] + s else [s[0]] + Insert(x, s[1..], leq)
  }

  function Sort<T>(s: seq<T>, leq: (T, T) -> bool): seq<T> {
    if s == [] then [] else Insert(s[0], Sort(s[1..], leq), leq)
  }

  lemma {:induction false} InsertPermutes<T>(x: T, s: seq<T>, leq: (T, T) -> bool)
    ensures multiset(Insert(x, s, leq)) == multiset{x} + multiset(s)
    ensures |Insert(x, s, leq)| == |s| + 1
    ensures forall y :: y in Insert(x, s, leq) <==> y == x || y in s
  {
    if s != [] && !leq(x, s[0]) {
      InsertPermutes(x, s[1..], leq);
      assert s == [s[0]] + s[1..];
    }
  }

  lemma {:induction false} SortPermutes<T>(s: seq<T>, leq: (T, T) -> bool)
    ensures multiset(Sort(s, leq)) == multiset(s)
    ensures |Sort(s, leq)| == |s|
    ensures forall y :: y in Sort(s, leq) <==> y in s
  {
    if s != [] {
      SortPermutes(s[1..], leq);
      InsertPermutes(s[0], Sort(s[1..], leq), leq);
      assert s == [s[0]] + s[1..];
    }
  }

  lemma {:induction false} InsertSorts<T(!new)>(x: T, s: seq<T>, leq: (T, T) -> bool)
    requires TotalPreorder(leq) && Sorted(s, leq)
    ensures Sorted(Insert(x, s, leq), leq)
  {
    if s != [] {
      if leq(x, s[0]) {
        assert forall j :: 0 <= j < |s| ==> leq(x, s[j]);
      } else {
        InsertSorts(x, s[1..], leq);
        InsertPermutes(x, s[1..], leq);
        var rest := Insert(x, s[1..], leq);
        forall j | 0 <= j < |rest|
          ensures leq(s[0], rest[j])
        {
          assert rest[j] in rest;
        }
      }
    }
  }

  lemma {:induction false} SortSorts<T(!new)>(s: seq<T>, leq: (T, T) -> bool)
    requires TotalPreorder(leq)
    ensures Sorted(Sort(s, leq), leq)
  {
    if s != [] {
      SortSorts(s[1..], leq);
      InsertSorts(s[0], Sort(s[1..], leq), leq);
    }
  }

  /** The first index among the least elements. */
  ghost predicate FirstLeast<T>(s: seq<T>, k: int, leq: (T, T) -> bool) {
    && 0 <= k < |s|
    && (forall j :: 0 <= j < |s| ==> leq(s[k], s[j]))
    && (forall j :: 0 <= j < k ==> !leq(s[j], s[k]))
  }

  /** Stability, as far as the front is concerned: the sort starts with the first of the least elements. */
  lemma {:induction false} SortStartsWithFirstLeast<T(!new)>(s: seq<T>, leq: (T, T) -> bool) returns (k: nat)
    requires TotalPreorder(leq) && s != []
    ensures FirstLeast(s, k, leq) && Sort(s, leq)[0] == s[k]
  {
    var rest := s[1..];
    if rest == [] {
      k := 0;
    } else {
      var k' := SortStartsWithFirstLeast(rest, leq);
      assert forall j :: 0 <= j < |rest| ==> rest[j] == s[j + 1];
      if leq(s[0], rest[k']) {
        k := 0;
        forall j | 0 <= j < |s| ensures leq(s[0], s[j]) {
          if j > 0 { assert leq(rest[k'], rest[j - 1]); }
        }
      } else {
        k := k' + 1;
        forall j | 0 <= j < |s| ensures leq(s[k], s[j]) {
          if j > 0 { assert leq(rest[k'], rest[j - 1]); }
        }
        forall j | 0 <= j < k ensures !leq(s[j], s[k]) {
          if j > 0 { assert !leq(rest[j - 1], rest[k']); }
        }
      }
    }
  }

  /** The elements of `s` that rank with `x`, in order. */
  function RankedWith<T>(s: seq<T>, x: T, leq: (T, T) -> bool): seq<T> {
    if s == [] then []
    else (if leq(s[0], x) && leq(x, s[0]) then [s[0]] else []) + RankedWith(s[1..], x, leq)
  }

  lemma {:induction false} InsertIsStable<T(!new)>(y: T, s: seq<T>, x: T, leq: (T, T) -> bool)
    requires TotalPreorder(leq)
    ensures RankedWith(Insert(y, s, leq), x, leq) == (if leq(y, x) && leq(x, y) then [y] else []) + RankedWith(s, x, leq)
  {
    if s == [] || leq(y, s[0]) {
      assert ([y] + s)[1..] == s;
    } else {
      InsertIsStable(y, s[1..], x, leq);
    }
  }

  /** Stability: elements that rank alike keep their order. */
  lemma {:induction false} SortIsStable<T(!new)>(s: seq<T>, x: T, leq: (T, T) -> bool)
    requires TotalPreorder(leq)
    ensures RankedWith(Sort(s, leq), x, leq) == RankedWith(s, x, leq)
  {
    if s != [] {
      SortIsStable(s[1..], x, leq);
      InsertIsStable(s[0], Sort(s[1..], leq), x, leq);
    }
  }

  ghost predicate TiesAreEqual<T(!new)>(s: seq<T>, leq: (T, T) -> bool) {
    forall x, y :: x in s && y in s && leq(x, y) && leq(y, x) ==> x == y
  }

  lemma TailBag<T>(a: seq<T>, b: seq<T>)
    requires |a| > 0 && |b| > 0 && a[0] == b[0] && multiset(a) == multiset(b)
    ensures multiset(a[1..]) == multiset(b[1..])
  {
    assert a == [a[0]] + a[1..] && b == [b[0]] + b[1..];
    assert multiset(a[1..]) == multiset(a) - multiset{a[0]} == multiset(b[1..]);
  }

  lemma TailTies<T(!new)>(a: seq<T>, leq: (T, T) -> bool)
    requires |a| > 0 && TiesAreEqual(a, leq)
    ensures TiesAreEqual(a[1..], leq)
  {
  }

  lemma SortedHeadIsUnique<T(!new)>(a: seq<T>, b: seq<T>, leq: (T, T) -> bool)
    requires Sorted(a, leq) && Sorted(b, leq) && multiset(a) == multiset(b) && a != []
    requires TiesAreEqual(a, leq)
    ensures |a| == |b| && a[0] == b[0]
  {
    assert |a| == |multiset(a)| == |multiset(b)| == |b|;
    assert b[0] in multiset(a) && a[0] in multiset(b);
    var i :| 0 <= i < |a| && a[i] == b[0];
    var j :| 0 <= j < |b| && b[j] == a[0];
    if i > 0 && j > 0 {
      assert leq(a[0], a[i]) && leq(b[0], b[j]);
    }
  }

  /** Equal bags whose ties are only between equal elements sort to the same sequence. */
  lemma {:induction false} SortedIsUnique<T(!new)>(a: seq<T>, b: seq<T>, leq: (T, T) -> bool)
    requires Sorted(a, leq) && Sorted(b, leq) && multiset(a) == multiset(b)
    requires TiesAreEqual(a, leq)
    ensures a == b
  {
    if a == [] {
      assert |multiset(b)| == |b|;
    } else {
      SortedHeadIsUnique(a, b, leq);
      TailBag(a, b);
      TailTies(a, leq);
      hide TiesAreEqual;
      SortedIsUnique(a[1..], b[1..], leq);
    }
  }

  /** Sorting forgets the order of its input when ties are only between equal elements. */
  lemma SortForgetsOrder<T(!new)>(a: seq<T>, b: seq<T>, leq: (T, T) -> bool)
    requires TotalPreorder(leq) && multiset(a) == multiset(b)
    requires TiesAreEqual(a, leq)
    ensures Sort(a, leq) == Sort(b, leq)
  {
    SortSorts(a, leq);
    SortSorts(b, leq);
    SortPermutes(a, leq);
    SortPermutes(b, leq);
    SortedIsUnique(Sort(a, leq), Sort(b, leq), leq);
  }
}
