/** Sequence operations that several modules share. */
module Seqs {

  /** The elements that satisfy `p`, in order. */
  function Filter<T>(s: seq<T>, p: T -> bool): seq<T> {
    if s == [] then []
    else if p(s[0]) then [s[0]] + Filter(s[1..], p)
    else Filter(s[1..], p)
  }

  lemma {:induction false} FilterMembers<T>(s: seq<T>, p: T -> bool)
    ensures forall x :: x in Filter(s, p) <==> x in s && p(x)
    ensures |Filter(s, p)| <= |s|
  {
    if s != [] {
      FilterMembers(s[1..], p);
      assert s == [s[0]] + s[1..];
    }
  }

  lemma {:induction false} FilterAll<T>(s: seq<T>, p: T -> bool)
    requires forall x | x in s :: p(x)
    ensures Filter(s, p) == s
  {
    if s != [] { FilterAll(s[1..], p); }
  }

  /** Predicates that agree on the elements filter alike. */
  lemma {:induction false} FilterSame<T>(s: seq<T>, p: T -> bool, q: T -> bool)
    requires forall x | x in s :: p(x) == q(x)
    ensures Filter(s, p) == Filter(s, q)
  {
    if s != [] { FilterSame(s[1..], p, q); }
  }

  lemma {:induction false} FilterTwice<T>(s: seq<T>, p: T -> bool, q: T -> bool, both: T -> bool)
    requires forall x | x in s :: both(x) == (p(x) && q(x))
    ensures Filter(Filter(s, p), q) == Filter(s, both)
  {
    if s != [] { FilterTwice(s[1..], p, q, both); }
  }

  predicate Distinct<T(==)>(s: seq<T>) {
    forall i, j | 0 <= i < j < |s| :: s[i] != s[j]
  }

  lemma {:induction false} DistinctCardinality<T>(s: seq<T>, members: set<T>)
    requires Distinct(s)
    requires forall x :: x in members <==> x in s
    ensures |members| == |s|
  {
    if s == [] {
      assert members == {};
    } else {
      assert s == [s[0]] + s[1..];
      DistinctCardinality(s[1..], members - {s[0]});
    }
  }

  predicate Increasing(s: seq<nat>) {
    forall i, j | 0 <= i < j < |s| :: s[i] < s[j]
  }

  lemma {:induction false} FilterIncreasing(s: seq<nat>, p: nat -> bool)
    requires Increasing(s)
    ensures Increasing(Filter(s, p))
  {
    if s != [] {
      FilterIncreasing(s[1..], p);
      FilterMembers(s[1..], p);
      var rest := Filter(s[1..], p);
      forall j | 0 <= j < |rest| ensures s[0] < rest[j] {
        assert rest[j] in s[1..];
      }
    }
  }

  /** A predicate that holds from position `d` on filters to that suffix. */
  lemma {:induction false} FilterSuffix<T>(s: seq<T>, d: nat, p: T -> bool)
    requires d <= |s|
    requires forall i | 0 <= i < |s| :: p(s[i]) <==> i >= d
    ensures Filter(s, p) == s[d..]
  {
    if d == 0 {
      FilterAll(s, p);
    } else {
      assert !p(s[0]);
      FilterSuffix(s[1..], d - 1, p);
    }
  }

  /** A predicate that holds up to position `d` filters to that prefix. */
  lemma {:induction false} FilterPrefix<T>(s: seq<T>, d: nat, p: T -> bool)
    requires d <= |s|
    requires forall i | 0 <= i < |s| :: p(s[i]) <==> i < d
    ensures Filter(s, p) == s[..d]
  {
    if s != [] {
      assert p(s[0]) <==> 0 < d;
      FilterPrefix(s[1..], if d > 0 then d - 1 else 0, p);
    }
  }

  lemma {:induction false} FilterNone<T>(s: seq<T>, p: T -> bool)
    requires forall x | x in s :: !p(x)
    ensures Filter(s, p) == []
  {
    if s != [] { FilterNone(s[1..], p); }
  }

  /** A predicate that holds of one element, which occurs once, filters to it. */
  lemma {:induction false} FilterOne<T>(s: seq<T>, x: T, p: T -> bool)
    requires Distinct(s) && x in s && forall y | y in s :: p(y) <==> y == x
    ensures Filter(s, p) == [x]
  {
    assert s[0] in s && s == [s[0]] + s[1..];
    if s[0] == x { FilterNone(s[1..], p); } else { FilterOne(s[1..], x, p); }
  }

  /** The last `k` elements, or all of them when there are fewer. */
  function KeepLast<T>(s: seq<T>, k: nat): seq<T> {
    if |s| <= k then s else s[|s| - k..]
  }
}
