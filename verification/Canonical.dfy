/** Sorting by identifier, which makes the outcome independent of input order. */
module Canonical {
  import opened Common

  function InsertBy<T>(key: T -> Id, sorted: seq<T>, x: T): (r: seq<T>)
    ensures |r| == |sorted| + 1
  {
    if sorted == [] then [x]
    else if key(x) <= key(sorted[0]) then [x] + sorted
    else [sorted[0]] + InsertBy(key, sorted[1..], x)
  }

  function SortBy<T>(key: T -> Id, s: seq<T>): (r: seq<T>)
    ensures |r| == |s|
  {
    if s == [] then [] else InsertBy(key, SortBy(key, s[1..]), s[0])
  }

  ghost predicate DistinctBy<T>(key: T -> Id, s: seq<T>) {
    forall i, j :: 0 <= i < j < |s| ==> key(s[i]) != key(s[j])
  }

  ghost predicate AscendingBy<T>(key: T -> Id, s: seq<T>) {
    forall i, j :: 0 <= i < j < |s| ==> key(s[i]) < key(s[j])
  }

  ghost predicate SameElements<T(!new)>(a: seq<T>, b: seq<T>) {
    forall x :: x in a <==> x in b
  }

  lemma {:induction false} InsertByLaws<T(!new)>(key: T -> Id, sorted: seq<T>, x: T)
    requires AscendingBy(key, sorted) && forall y :: y in sorted ==> key(y) != key(x)
    ensures AscendingBy(key, InsertBy(key, sorted, x)) && SameElements(InsertBy(key, sorted, x), sorted + [x])
  {
    if sorted != [] && key(x) > key(sorted[0]) {
      var rest := InsertBy(key, sorted[1..], x);
      InsertByLaws(key, sorted[1..], x);
      assert sorted == [sorted[0]] + sorted[1..];
      forall i | 0 <= i < |rest| ensures key(sorted[0]) < key(rest[i]) {
        assert rest[i] in sorted[1..] + [x];
      }
      forall y ensures y in [sorted[0]] + rest <==> y in sorted + [x] {
        assert y in rest <==> y in sorted[1..] + [x];
      }
    }
  }

  lemma {:induction false} SortByLaws<T(!new)>(key: T -> Id, s: seq<T>)
    requires DistinctBy(key, s)
    ensures AscendingBy(key, SortBy(key, s)) && SameElements(SortBy(key, s), s)
  {
    if s != [] {
      var rest := SortBy(key, s[1..]);
      SortByLaws(key, s[1..]);
      forall y | y in rest ensures key(y) != key(s[0]) {
        assert y in s[1..];
      }
      InsertByLaws(key, rest, s[0]);
      assert s == [s[0]] + s[1..];
      forall y ensures y in SortBy(key, s) <==> y in s {
        assert y in SortBy(key, s) <==> y in rest + [s[0]];
        assert y in rest <==> y in s[1..];
      }
    }
  }

  lemma {:induction false} AscendingByUnique<T(!new)>(key: T -> Id, a: seq<T>, b: seq<T>)
    requires AscendingBy(key, a) && AscendingBy(key, b) && SameElements(a, b)
    ensures a == b
  {
    if a != [] {
      assert a[0] in b;
    }
    if b != [] {
      assert b[0] in a;
    }
    if a != [] && b != [] {
      forall x ensures x in a[1..] <==> x in b[1..] {
        assert a == [a[0]] + a[1..] && b == [b[0]] + b[1..];
        assert x in a <==> x in b;
      }
      AscendingByUnique(key, a[1..], b[1..]);
    }
  }

  /** Lists with the same elements have the same sorted form. */
  lemma OrderIrrelevant<T(!new)>(key: T -> Id, a: seq<T>, b: seq<T>)
    requires DistinctBy(key, a) && DistinctBy(key, b) && SameElements(a, b)
    ensures SortBy(key, a) == SortBy(key, b)
  {
    SortByLaws(key, a);
    SortByLaws(key, b);
    forall x ensures x in SortBy(key, a) <==> x in SortBy(key, b) {
      assert x in a <==> x in b;
    }
    AscendingByUnique(key, SortBy(key, a), SortBy(key, b));
  }
}
