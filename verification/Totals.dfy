/** Sums over lists, and sorting by availability. */
module Totals {
  import opened Common

  function SumBy<T>(f: T -> real, s: seq<T>): real {
    if s == [] then 0.0 else SumBy(f, s[..|s| - 1]) + f(s[|s| - 1])
  }

  lemma SumOne<T>(f: T -> real, s: seq<T>, x: T)
    ensures SumBy(f, s + [x]) == SumBy(f, s) + f(x)
  {
    assert (s + [x])[..|s|] == s;
  }

  lemma {:induction false} SumAppend<T>(f: T -> real, a: seq<T>, b: seq<T>)
    ensures SumBy(f, a + b) == SumBy(f, a) + SumBy(f, b)
  {
    if b == [] {
      assert a + b == a;
    } else {
      var front, last := b[..|b| - 1], b[|b| - 1];
      SumAppend(f, a, front);
      SumOne(f, a + front, last);
      assert a + b == a + front + [last];
    }
  }

  lemma RemoveOne<T>(s: seq<T>, i: nat)
    requires i < |s|
    ensures multiset(s[..i] + s[i + 1..]) == multiset(s) - multiset{s[i]}
  {
    assert s == s[..i] + [s[i]] + s[i + 1..];
  }

  lemma SumRemove<T>(f: T -> real, s: seq<T>, i: nat)
    requires i < |s|
    ensures SumBy(f, s) == SumBy(f, s[..i] + s[i + 1..]) + f(s[i])
    ensures multiset(s[..i] + s[i + 1..]) == multiset(s) - multiset{s[i]}
  {
    hide SumBy;
    RemoveOne(s, i);
    var before, x, after := s[..i], s[i], s[i + 1..];
    assert s == (before + [x]) + after;
    SumAppend(f, before + [x], after);
    SumOne(f, before, x);
    SumAppend(f, before, after);
  }

  /** A sum does not depend on the order of its terms. */
  lemma {:induction false} SumPermutes<T>(f: T -> real, a: seq<T>, b: seq<T>)
    requires multiset(a) == multiset(b)
    ensures SumBy(f, a) == SumBy(f, b)
    decreases |a|
  {
    if a == [] {
      assert |multiset(b)| == 0;
    } else {
      var front, last := a[..|a| - 1], a[|a| - 1];
      assert a == front + [last];
      assert last in multiset(b);
      var i :| 0 <= i < |b| && b[i] == last;
      SumRemove(f, b, i);
      SumPermutes(f, front, b[..i] + b[i + 1..]);
    }
  }

  function Number(x: real): real {
    x
  }

  // ---------------------------------------------------------------------
  // Sorting by availability, then event
  // ---------------------------------------------------------------------

  datatype Stamp = Stamp(availableAt: Time, eventId: Id)

  predicate Precedes(a: Stamp, b: Stamp) {
    a.availableAt < b.availableAt || (a.availableAt == b.availableAt && a.eventId < b.eventId)
  }

  ghost predicate InOrder<T>(stamp: T -> Stamp, s: seq<T>) {
    forall i, j :: 0 <= i < j < |s| ==> !Precedes(stamp(s[j]), stamp(s[i]))
  }

  /** Insertion sort; the input order decides between equal stamps. */
  method SortByStamp<T>(stamp: T -> Stamp, s: seq<T>) returns (sorted: seq<T>)
    ensures multiset(sorted) == multiset(s) && InOrder(stamp, sorted)
  {
    hide InOrder;
    InOrderEmpty(stamp);
    sorted := [];
    for k := 0 to |s|
      invariant multiset(sorted) == multiset(s[..k]) && InOrder(stamp, sorted)
    {
      assert s[..k + 1] == s[..k] + [s[k]];
      sorted := InsertByStamp(stamp, sorted, s[k]);
    }
    assert s[..|s|] == s;
  }

  lemma InOrderEmpty<T>(stamp: T -> Stamp)
    ensures InOrder(stamp, [])
  {
  }

  method InsertByStamp<T>(stamp: T -> Stamp, s: seq<T>, x: T) returns (r: seq<T>)
    requires InOrder(stamp, s)
    ensures multiset(r) == multiset(s) + multiset{x} && InOrder(stamp, r)
  {
    hide Precedes, InOrder;
    var at := |s|;
    while at > 0 && Precedes(stamp(x), stamp(s[at - 1]))
      invariant 0 <= at <= |s|
      invariant forall i :: at <= i < |s| ==> Precedes(stamp(x), stamp(s[i]))
    {
      at := at - 1;
    }
    InsertKeepsOrder(stamp, s, x, at);
    assert s == s[..at] + s[at..];
    r := s[..at] + [x] + s[at..];
  }

  lemma InsertKeepsOrder<T>(stamp: T -> Stamp, s: seq<T>, x: T, at: nat)
    requires InOrder(stamp, s) && at <= |s|
    requires forall i :: at <= i < |s| ==> Precedes(stamp(x), stamp(s[i]))
    requires at > 0 ==> !Precedes(stamp(x), stamp(s[at - 1]))
    ensures InOrder(stamp, s[..at] + [x] + s[at..])
  {
    var r := s[..at] + [x] + s[at..];
    forall i, j | 0 <= i < j < |r| ensures !Precedes(stamp(r[j]), stamp(r[i])) {
      if j < at {
        assert r[i] == s[i] && r[j] == s[j];
      } else if j == at {
        assert r[i] == s[i] && r[j] == x;
        assert i == at - 1 || !Precedes(stamp(s[at - 1]), stamp(s[i]));
      } else if i < at {
        assert r[i] == s[i] && r[j] == s[j - 1];
      } else if i == at {
        assert r[i] == x && r[j] == s[j - 1];
      } else {
        assert r[i] == s[i - 1] && r[j] == s[j - 1];
      }
    }
  }
}
