/** Sorting by any total order: the result depends only on the elements, not on their order. */
module Sorting {

  ghost predicate TotalOrder<T(!new)>(leq: (T, T) -> bool) {
    && (forall x, y :: leq(x, y) || leq(y, x))
    && (forall x, y :: leq(x, y) && leq(y, x) ==> x == y)
    && (forall x, y, z :: leq(x, y) && leq(y, z) ==> leq(x, z))
  }

  function Insert<T>(x: T, sorted: seq<T>, leq: (T, T) -> bool): seq<T> {
    if sorted == [] || leq(x, sorted[0]) then [x] + sorted else [sorted[0]] + Insert(x, sorted[1..], leq)
  }

  function Sort<T>(s: seq<T>, leq: (T, T) -> bool): seq<T> {
    if s == [] then [] else Insert(s[0], Sort(s[1..], leq), leq)
  }

  /** Each element is at most every later one. */
  ghost predicate Ordered<T>(s: seq<T>, leq: (T, T) -> bool) {
    s == [] || ((forall x | x in s[1..] :: leq(s[0], x)) && Ordered(s[1..], leq))
  }

  lemma {:induction false} InsertKeeps<T(!new)>(x: T, sorted: seq<T>, leq: (T, T) -> bool)
    requires TotalOrder(leq) && Ordered(sorted, leq)
    ensures Ordered(Insert(x, sorted, leq), leq)
    ensures multiset(Insert(x, sorted, leq)) == multiset(sorted) + multiset{x}
  {
    if sorted == [] || leq(x, sorted[0]) {
      var r := [x] + sorted;
      assert r[1..] == sorted;
    } else {
      InsertKeeps(x, sorted[1..], leq);
      var rest := Insert(x, sorted[1..], leq);
      var r := [sorted[0]] + rest;
      assert r[1..] == rest;
      assert sorted == [sorted[0]] + sorted[1..];
      forall y | y in rest ensures leq(sorted[0], y) {
        assert y in multiset(rest);
      }
    }
  }

  lemma MultisetCons<T>(s: seq<T>)
    requires s != []
    ensures multiset(s) == multiset{s[0]} + multiset(s[1..])
  {
    assert s == [s[0]] + s[1..];
  }

  lemma {:induction false} SortOrders<T(!new)>(s: seq<T>, leq: (T, T) -> bool)
    requires TotalOrder(leq)
    ensures Ordered(Sort(s, leq), leq) && multiset(Sort(s, leq)) == multiset(s)
  {
    if s != [] {
      SortOrders(s[1..], leq);
      InsertKeeps(s[0], Sort(s[1..], leq), leq);
      MultisetCons(s);
    }
  }

  lemma {:induction false} OrderedIsUnique<T(!new)>(a: seq<T>, b: seq<T>, leq: (T, T) -> bool)
    requires TotalOrder(leq) && Ordered(a, leq) && Ordered(b, leq) && multiset(a) == multiset(b)
    ensures a == b
  {
    assert |multiset(a)| == |a| && |multiset(b)| == |b|;
    if a != [] {
      MultisetCons(a);
      MultisetCons(b);
      HeadsAgree(a, b, leq);
      assert multiset(a[1..]) == multiset(a) - multiset{a[0]};
      assert multiset(b[1..]) == multiset(b) - multiset{b[0]};
      OrderedIsUnique(a[1..], b[1..], leq);
    }
  }

  lemma {:induction false} HeadIsLeast<T(!new)>(a: seq<T>, x: T, leq: (T, T) -> bool)
    requires TotalOrder(leq) && Ordered(a, leq) && x in a
    ensures leq(a[0], x)
  {
    if x != a[0] {
      assert a == [a[0]] + a[1..];
      assert x in a[1..];
    } else {
      assert leq(x, x);
    }
  }

  lemma {:induction false} HeadsAgree<T(!new)>(a: seq<T>, b: seq<T>, leq: (T, T) -> bool)
    requires TotalOrder(leq) && Ordered(a, leq) && Ordered(b, leq) && multiset(a) == multiset(b) && a != [] && b != []
    ensures a[0] == b[0]
  {
    assert a[0] in multiset(b) && b[0] in multiset(a);
    HeadIsLeast(a, b[0], leq);
    HeadIsLeast(b, a[0], leq);
  }

  /** Sorted lists are equal exactly when they have the same elements, each as often. */
  lemma {:induction false} SortIsCanonical<T(!new)>(a: seq<T>, b: seq<T>, leq: (T, T) -> bool)
    requires TotalOrder(leq)
    ensures Sort(a, leq) == Sort(b, leq) <==> multiset(a) == multiset(b)
  {
    SortOrders(a, leq);
    SortOrders(b, leq);
    if multiset(a) == multiset(b) { OrderedIsUnique(Sort(a, leq), Sort(b, leq), leq); }
  }
}
